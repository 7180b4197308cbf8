/** SettingsController: the assignments `apply_settings` makes into the live
    configuration (app3.py:533-553, app4.py:447-463), before the label
    rebuild, re-placement and save that only a fully parsed form reaches.

    The settings form is a snapshot of its text fields. The assignments are
    made one after another and are NOT rolled back: when an `int(...)` parse
    fails, everything assigned before it stays in the configuration. */
module SettingsApply {
  import opened Wrappers
  import opened IntText
  import opened ConfigStore

  /** The widgets of one zone row (`self.timezone_widgets[i]`). */
  datatype ZoneForm = ZoneForm(
    name: string, timezone: string, fontFamily: string, fontSize: string,
    format: string, color: string)

  /** The form: position radio button, the two coordinate entries, and the
      zone rows keyed by their index in the zone list. */
  datatype Form = Form(position: string, customX: string, customY: string, zones: map<int, ZoneForm>)

  datatype ZoneEdit = ZoneEdit(zone: ZoneDoc, ok: bool)

  datatype ZonesResult = ZonesResult(zones: seq<ZoneDoc>, ok: bool)

  /** The configuration after the assignments, and whether every parse succeeded. */
  datatype Committed = Committed(config: ConfigDoc, parsed: bool)

  /** Name, zone id and font family are assigned before the font size is parsed. */
  function PartialEdit(z: ZoneDoc, w: ZoneForm): ZoneDoc {
    z.(name := Some(w.name), timezone := Some(w.timezone), fontFamily := Some(w.fontFamily))
  }

  /** The row fully applied, with the font size already parsed. */
  function FullEdit(z: ZoneDoc, w: ZoneForm, size: int): ZoneDoc {
    PartialEdit(z, w).(fontSize := Some(size), datetimeFormat := Some(w.format), color := Some(w.color))
  }

  /** app3.py:547-552 for one zone. */
  function EditZone(z: ZoneDoc, w: ZoneForm): (r: ZoneEdit)
    ensures r.ok <==> ParseInt(w.fontSize).Some?
    ensures r.ok ==> r.zone == FullEdit(z, w, ParseInt(w.fontSize).value)
    ensures !r.ok ==> r.zone == PartialEdit(z, w)
  {
    match ParseInt(w.fontSize)
    case None => ZoneEdit(PartialEdit(z, w), false)
    case Some(size) => ZoneEdit(FullEdit(z, w, size), true)
  }

  /** The loop of app3.py:544-552 from index `i` on: a zone without a row is
      skipped; the first failing font size stops the loop. */
  function ApplyZonesFrom(zs: seq<ZoneDoc>, i: nat, rows: map<int, ZoneForm>): (r: ZonesResult)
    requires i <= |zs|
    ensures |r.zones| == |zs|
    ensures AllZonesComplete(zs) ==> AllZonesComplete(r.zones)
    decreases |zs| - i
  {
    if i == |zs| then ZonesResult(zs, true)
    else if i !in rows then ApplyZonesFrom(zs, i + 1, rows)
    else
      var e := EditZone(zs[i], rows[i]);
      if e.ok then ApplyZonesFrom(zs[i := e.zone], i + 1, rows)
      else ZonesResult(zs[i := e.zone], false)
  }

  /** The whole try-block up to the zone loop's end (app3.py:537-552). */
  function ApplyFields(c: ConfigDoc, f: Form, runtimeX: int, runtimeY: int): (r: Committed)
    requires Complete(c)
    ensures Complete(r.config)
    ensures |r.config.timezones.value| == |c.timezones.value|
  {
    var c1 := c.(position := Some(f.position));
    match ParseInt(f.customX)
    case None => Committed(c1, false)
    case Some(x) =>
      var c2 := c1.(customX := Some(x));
      match ParseInt(f.customY)
      case None => Committed(c2, false)
      case Some(y) =>
        var c3 := c2.(customY := Some(y), positionX := Some(runtimeX), positionY := Some(runtimeY));
        var zr := ApplyZonesFrom(c3.timezones.value, 0, f.zones);
        Committed(c3.(timezones := Some(zr.zones)), zr.ok)
  }

  /** A zone with no row in the form is never touched (app3.py:545). */
  lemma {:induction false} RowlessZonesUntouched(zs: seq<ZoneDoc>, i: nat, rows: map<int, ZoneForm>, k: int)
    requires i <= |zs| && 0 <= k < |zs| && (k < i || k !in rows)
    ensures ApplyZonesFrom(zs, i, rows).zones[k] == zs[k]
    decreases |zs| - i
  {
    if i < |zs| {
      if i !in rows {
        RowlessZonesUntouched(zs, i + 1, rows, k);
      } else {
        var e := EditZone(zs[i], rows[i]);
        if e.ok {
          RowlessZonesUntouched(zs[i := e.zone], i + 1, rows, k);
        }
      }
    }
  }

  /** The loop finishes exactly when every row's font size parses. */
  lemma {:induction false} ZonesParsedIff(zs: seq<ZoneDoc>, i: nat, rows: map<int, ZoneForm>)
    requires i <= |zs|
    ensures ApplyZonesFrom(zs, i, rows).ok <==>
              forall k :: i <= k < |zs| && k in rows ==> ParseInt(rows[k].fontSize).Some?
    decreases |zs| - i
  {
    if i < |zs| {
      if i !in rows {
        ZonesParsedIff(zs, i + 1, rows);
      } else {
        var e := EditZone(zs[i], rows[i]);
        if e.ok {
          ZonesParsedIff(zs[i := e.zone], i + 1, rows);
        }
      }
    }
  }

  /** When the loop finishes, every zone with a row holds exactly that row's values. */
  lemma {:induction false} ZonesAppliedWhenParsed(zs: seq<ZoneDoc>, i: nat, rows: map<int, ZoneForm>, k: int)
    requires i <= k < |zs| && k in rows
    requires ApplyZonesFrom(zs, i, rows).ok
    ensures ParseInt(rows[k].fontSize).Some?
    ensures ApplyZonesFrom(zs, i, rows).zones[k] == FullEdit(zs[k], rows[k], ParseInt(rows[k].fontSize).value)
    decreases |zs| - i
  {
    if i !in rows {
      ZonesAppliedWhenParsed(zs, i + 1, rows, k);
    } else {
      var e := EditZone(zs[i], rows[i]);
      var next := zs[i := e.zone];
      if k == i {
        RowlessZonesUntouched(next, i + 1, rows, k);
      } else {
        ZonesAppliedWhenParsed(next, i + 1, rows, k);
      }
    }
  }

  /** `k` is the first row from `i` on whose font size does not parse. */
  predicate FirstBadRow(rows: map<int, ZoneForm>, i: nat, n: nat, k: int) {
    i <= k < n && k in rows && ParseInt(rows[k].fontSize).None? &&
    forall j :: i <= j < k && j in rows ==> ParseInt(rows[j].fontSize).Some?
  }

  /** A row that parses (or is absent) in front of the first bad row keeps it first. */
  lemma FirstBadRowExtends(rows: map<int, ZoneForm>, i: nat, n: nat, k: int)
    requires FirstBadRow(rows, i + 1, n, k)
    requires i in rows ==> ParseInt(rows[i].fontSize).Some?
    ensures FirstBadRow(rows, i, n, k)
  {
  }

  /** Below the first bad row every present row parses. */
  lemma FirstBadRowShrinks(rows: map<int, ZoneForm>, i: nat, n: nat, k: int)
    requires FirstBadRow(rows, i, n, k) && i != k
    ensures FirstBadRow(rows, i + 1, n, k)
    ensures i in rows ==> ParseInt(rows[i].fontSize).Some?
  {
  }

  /** A failed loop failed at some first bad row. */
  lemma {:induction false} FailureLocated(zs: seq<ZoneDoc>, i: nat, rows: map<int, ZoneForm>)
    requires i <= |zs|
    requires !ApplyZonesFrom(zs, i, rows).ok
    ensures exists k :: FirstBadRow(rows, i, |zs|, k)
    decreases |zs| - i
  {
    if i !in rows {
      FailureLocated(zs, i + 1, rows);
      var k :| FirstBadRow(rows, i + 1, |zs|, k);
      FirstBadRowExtends(rows, i, |zs|, k);
    } else {
      var e := EditZone(zs[i], rows[i]);
      if e.ok {
        FailureLocated(zs[i := e.zone], i + 1, rows);
        var k :| FirstBadRow(rows, i + 1, |zs|, k);
        FirstBadRowExtends(rows, i, |zs|, k);
      } else {
        assert FirstBadRow(rows, i, |zs|, i);
      }
    }
  }

  /** At the first bad row the loop stops, and zone `k` keeps only its new
      name, zone id and font family. */
  lemma {:induction false} StopsAtFirstBadRow(zs: seq<ZoneDoc>, i: nat, rows: map<int, ZoneForm>, k: int)
    requires i <= |zs| && FirstBadRow(rows, i, |zs|, k)
    ensures !ApplyZonesFrom(zs, i, rows).ok
    ensures ApplyZonesFrom(zs, i, rows).zones[k] == PartialEdit(zs[k], rows[k])
    decreases |zs| - i
  {
    if i == k {
      assert ApplyZonesFrom(zs, i, rows) == ZonesResult(zs[i := PartialEdit(zs[i], rows[i])], false);
    } else {
      FirstBadRowShrinks(rows, i, |zs|, k);
      if i !in rows {
        StopsAtFirstBadRow(zs, i + 1, rows, k);
      } else {
        var next := zs[i := EditZone(zs[i], rows[i]).zone];
        StopsAtFirstBadRow(next, i + 1, rows, k);
      }
    }
  }

  /** The rows in front of the first bad one are fully applied. */
  lemma {:induction false} AppliedBeforeFirstBadRow(zs: seq<ZoneDoc>, i: nat, rows: map<int, ZoneForm>, k: int, j: int)
    requires i <= |zs| && FirstBadRow(rows, i, |zs|, k)
    requires i <= j < k && j in rows
    ensures ApplyZonesFrom(zs, i, rows).zones[j] == FullEdit(zs[j], rows[j], ParseInt(rows[j].fontSize).value)
    decreases |zs| - i, 1
  {
    if i !in rows {
      FirstBadRowShrinks(rows, i, |zs|, k);
      AppliedBeforeFirstBadRow(zs, i + 1, rows, k, j);
    } else {
      AppliedAtParsedRow(zs, i, rows, k, j);
    }
  }

  /** The step of the above at a row that is present and parses. */
  lemma {:induction false} AppliedAtParsedRow(zs: seq<ZoneDoc>, i: nat, rows: map<int, ZoneForm>, k: int, j: int)
    requires i <= |zs| && FirstBadRow(rows, i, |zs|, k)
    requires i <= j < k && j in rows && i in rows
    ensures ApplyZonesFrom(zs, i, rows).zones[j] == FullEdit(zs[j], rows[j], ParseInt(rows[j].fontSize).value)
    decreases |zs| - i, 0
  {
    FirstBadRowShrinks(rows, i, |zs|, k);
    var next := zs[i := EditZone(zs[i], rows[i]).zone];
    if j == i {
      RowlessZonesUntouched(next, i + 1, rows, j);
    } else {
      AppliedBeforeFirstBadRow(next, i + 1, rows, k, j);
    }
  }

  /** The zones past the first bad row are never reached. */
  lemma {:induction false} UntouchedAfterFirstBadRow(zs: seq<ZoneDoc>, i: nat, rows: map<int, ZoneForm>, k: int, j: int)
    requires i <= |zs| && FirstBadRow(rows, i, |zs|, k)
    requires k < j < |zs|
    ensures ApplyZonesFrom(zs, i, rows).zones[j] == zs[j]
    decreases |zs| - i
  {
    if i == k {
      assert ApplyZonesFrom(zs, i, rows) == ZonesResult(zs[i := PartialEdit(zs[i], rows[i])], false);
    } else {
      FirstBadRowShrinks(rows, i, |zs|, k);
      if i !in rows {
        UntouchedAfterFirstBadRow(zs, i + 1, rows, k, j);
      } else {
        var next := zs[i := EditZone(zs[i], rows[i]).zone];
        UntouchedAfterFirstBadRow(next, i + 1, rows, k, j);
      }
    }
  }

  /** When row `k` is the first bad one, the rows before it are applied, zone
      `k` keeps only its new name, zone id and font family, and every other
      zone is untouched. */
  lemma ZoneAfterFailure(zs: seq<ZoneDoc>, i: nat, rows: map<int, ZoneForm>, k: int, j: int)
    requires i <= |zs| && FirstBadRow(rows, i, |zs|, k) && 0 <= j < |zs|
    ensures !ApplyZonesFrom(zs, i, rows).ok
    ensures ApplyZonesFrom(zs, i, rows).zones[j] ==
              if i <= j < k && j in rows then FullEdit(zs[j], rows[j], ParseInt(rows[j].fontSize).value)
              else if j == k then PartialEdit(zs[k], rows[k])
              else zs[j]
  {
    StopsAtFirstBadRow(zs, i, rows, k);
    if i <= j < k && j in rows {
      AppliedBeforeFirstBadRow(zs, i, rows, k, j);
    } else if j > k {
      UntouchedAfterFirstBadRow(zs, i, rows, k, j);
    } else if j != k {
      RowlessZonesUntouched(zs, i, rows, j);
    }
  }

  /** The first assignment always sticks: whatever fails later, the new
      position mode is already in the configuration. */
  lemma PositionAlwaysCommitted(c: ConfigDoc, f: Form, runtimeX: int, runtimeY: int)
    requires Complete(c)
    ensures ApplyFields(c, f, runtimeX, runtimeY).config.position == Some(f.position)
  {
  }

  /** A bad custom coordinate stops the apply with only the earlier fields
      changed; the zones are untouched. */
  lemma BadCoordinateStopsEarly(c: ConfigDoc, f: Form, runtimeX: int, runtimeY: int)
    requires Complete(c)
    requires ParseInt(f.customX).None? || ParseInt(f.customY).None?
    ensures var r := ApplyFields(c, f, runtimeX, runtimeY);
      !r.parsed && r.config.timezones == c.timezones &&
      r.config.positionX == c.positionX && r.config.positionY == c.positionY &&
      r.config.visible == c.visible && r.config.extra == c.extra &&
      (ParseInt(f.customX).None? ==> r.config.customX == c.customX && r.config.customY == c.customY) &&
      (ParseInt(f.customX).Some? ==> r.config.customX == Some(ParseInt(f.customX).value))
  {
  }

  /** The apply reaches its follow-up steps exactly when every number parses. */
  lemma ApplyParsedIff(c: ConfigDoc, f: Form, runtimeX: int, runtimeY: int)
    requires Complete(c)
    ensures ApplyFields(c, f, runtimeX, runtimeY).parsed <==>
              ParseInt(f.customX).Some? && ParseInt(f.customY).Some? &&
              forall k :: 0 <= k < |c.timezones.value| && k in f.zones ==> ParseInt(f.zones[k].fontSize).Some?
  {
    if ParseInt(f.customX).Some? && ParseInt(f.customY).Some? {
      var c3 := c.(position := Some(f.position), customX := Some(ParseInt(f.customX).value),
                   customY := Some(ParseInt(f.customY).value),
                   positionX := Some(runtimeX), positionY := Some(runtimeY));
      ZonesParsedIff(c3.timezones.value, 0, f.zones);
    }
  }

  /** The row `update_timezone_list` shows for a zone (app3.py:402-429). */
  function SeedZone(z: ZoneDoc): ZoneForm
    requires ZoneComplete(z)
  {
    ZoneForm(z.name.value, z.timezone.value, z.fontFamily.value, IntToString(z.fontSize.value),
             z.datetimeFormat.value, z.color.GetOr("white"))
  }

  /** The form `show_settings` opens with (app3.py:278-312, 397-448). */
  function SeedForm(c: ConfigDoc): Form
    requires Complete(c)
  {
    var zs := c.timezones.value;
    Form(c.position.value, IntToString(c.customX.value), IntToString(c.customY.value),
         map i | 0 <= i < |zs| :: SeedZone(zs[i]))
  }

  lemma {:induction false} SeededZonesUnchanged(zs: seq<ZoneDoc>, i: nat, rows: map<int, ZoneForm>)
    requires i <= |zs| && AllZonesComplete(zs)
    requires forall k :: i <= k < |zs| ==> k in rows && rows[k] == SeedZone(zs[k])
    ensures ApplyZonesFrom(zs, i, rows) == ZonesResult(zs, true)
    decreases |zs| - i
  {
    if i < |zs| {
      ParseShowRoundTrip(zs[i].fontSize.value);
      assert EditZone(zs[i], rows[i]).zone == zs[i];
      assert zs[i := zs[i]] == zs;
      SeededZonesUnchanged(zs, i + 1, rows);
    }
  }

  /** Applying the form exactly as it was opened changes nothing but the stored
      copy of the runtime window position. */
  lemma UnchangedFormIsIdentity(c: ConfigDoc, runtimeX: int, runtimeY: int)
    requires Complete(c)
    ensures ApplyFields(c, SeedForm(c), runtimeX, runtimeY) ==
              Committed(c.(positionX := Some(runtimeX), positionY := Some(runtimeY)), true)
  {
    ParseShowRoundTrip(c.customX.value);
    ParseShowRoundTrip(c.customY.value);
    var f := SeedForm(c);
    SeededZonesUnchanged(c.timezones.value, 0, f.zones);
  }
}
