/** RefreshScheduler: one 1 Hz tick of `update_time` in app3.py:143-168 and
    app4.py:126-148, over the name-keyed label dictionary.

    `self.labels` maps a zone NAME to its label, so the model keeps, per
    name, the text that label currently shows. Zones with equal names share
    one entry. A tick either completes (and re-arms the 1000 ms timer) or an
    exception leaves the callback part way, after the labels already set. */
module Refresh {
  import opened ConfigStore
  import opened ZoneFormat

  /** The delay `root.after` re-arms the tick with. */
  const TickMillis: int := 1000

  /** `self.labels`: zone name to the text its label shows. */
  type Labels = map<string, string>

  datatype TickResult = TickResult(labels: Labels, completed: bool)

  function NameOf(z: ZoneDoc): string
    requires ZoneComplete(z)
  {
    z.name.value
  }

  /** The fallback ladder for one configured zone. */
  function ZoneShown(z: ZoneDoc, now: Now): Shown
    requires ZoneComplete(z)
  {
    ZoneText(z.timezone.value, z.datetimeFormat.value, now)
  }

  function Names(zs: seq<ZoneDoc>): set<string>
    requires AllZonesComplete(zs)
  {
    set i | 0 <= i < |zs| :: zs[i].name.value
  }

  /** `create_timezone_labels`: one new, still empty label per distinct name
      (a later zone with the same name replaces the earlier's dictionary entry). */
  function LabelsFor(zs: seq<ZoneDoc>): (labels: Labels)
    requires AllZonesComplete(zs)
    ensures labels.Keys == Names(zs)
    ensures forall n :: n in labels ==> labels[n] == ""
  {
    map n | n in Names(zs) :: ""
  }

  lemma TailComplete(zs: seq<ZoneDoc>)
    requires zs != [] && AllZonesComplete(zs)
    ensures AllZonesComplete(zs[1..])
  {
    assert forall i :: 0 <= i < |zs[1..]| ==> zs[1..][i] == zs[i + 1];
  }

  /** The loop body, zone by zone: a zone without a label is skipped when `skip`
      holds (app4.py:130-131) and otherwise raises `KeyError` (app3.py:157,
      where that error escapes both handlers). */
  function RunTick(zs: seq<ZoneDoc>, labels: Labels, now: Now, skip: bool): TickResult
    requires AllZonesComplete(zs)
    decreases |zs|
  {
    if zs == [] then TickResult(labels, true)
    else
      TailComplete(zs);
      var name := NameOf(zs[0]);
      if name !in labels then
        if skip then RunTick(zs[1..], labels, now, skip) else TickResult(labels, false)
      else
        match ZoneShown(zs[0], now)
        case Escaped => TickResult(labels, false)
        case Text(t) => RunTick(zs[1..], labels[name := t], now, skip)
  }

  /** A zone the tick gets past: labelled and not escaping, or unlabelled and skipped. */
  predicate Handled(z: ZoneDoc, keys: set<string>, now: Now, skip: bool)
    requires ZoneComplete(z)
  {
    if NameOf(z) in keys then ZoneShown(z, now).Text? else skip
  }

  /** Setting label text never creates or removes a label. */
  lemma {:induction false} TickKeepsLabelSet(zs: seq<ZoneDoc>, labels: Labels, now: Now, skip: bool)
    requires AllZonesComplete(zs)
    ensures RunTick(zs, labels, now, skip).labels.Keys == labels.Keys
    decreases |zs|
  {
    if zs != [] {
      TailComplete(zs);
      var name := NameOf(zs[0]);
      if name !in labels {
        if skip { TickKeepsLabelSet(zs[1..], labels, now, skip); }
      } else if ZoneShown(zs[0], now).Text? {
        TickKeepsLabelSet(zs[1..], labels[name := ZoneShown(zs[0], now).text], now, skip);
      }
    }
  }

  /** The tick re-arms exactly when every zone is handled. */
  lemma {:induction false} TickCompletesIff(zs: seq<ZoneDoc>, labels: Labels, now: Now, skip: bool)
    requires AllZonesComplete(zs)
    ensures RunTick(zs, labels, now, skip).completed <==>
              forall k :: 0 <= k < |zs| ==> Handled(zs[k], labels.Keys, now, skip)
    decreases |zs|
  {
    if zs != [] {
      TailComplete(zs);
      var name := NameOf(zs[0]);
      var rest := zs[1..];
      assert forall k :: 1 <= k < |zs| ==> zs[k] == rest[k - 1];
      if name !in labels {
        if skip { TickCompletesIff(rest, labels, now, skip); }
      } else if ZoneShown(zs[0], now).Text? {
        var next := labels[name := ZoneShown(zs[0], now).text];
        assert next.Keys == labels.Keys;
        TickCompletesIff(rest, next, now, skip);
      }
    }
  }

  /** A label whose name no zone has keeps its text. */
  lemma {:induction false} TickLeavesOtherNames(zs: seq<ZoneDoc>, labels: Labels, now: Now, skip: bool, n: string)
    requires AllZonesComplete(zs) && n in labels && n !in Names(zs)
    ensures n in RunTick(zs, labels, now, skip).labels
    ensures RunTick(zs, labels, now, skip).labels[n] == labels[n]
    decreases |zs|
  {
    TickKeepsLabelSet(zs, labels, now, skip);
    if zs != [] {
      TailComplete(zs);
      var name := NameOf(zs[0]);
      var rest := zs[1..];
      assert Names(rest) <= Names(zs) by {
        forall m | m in Names(rest) ensures m in Names(zs) {
          var i :| 0 <= i < |rest| && rest[i].name.value == m;
          assert zs[i + 1] == rest[i];
        }
      }
      assert name in Names(zs) by { assert zs[0].name.value == name; }
      if name !in labels {
        if skip { TickLeavesOtherNames(rest, labels, now, skip, n); }
      } else if ZoneShown(zs[0], now).Text? {
        TickLeavesOtherNames(rest, labels[name := ZoneShown(zs[0], now).text], now, skip, n);
      }
    }
  }

  /** After a completed tick each labelled zone's name shows that zone's text,
      where a name shared by several zones shows the LAST of them. */
  lemma {:induction false} TickShowsOwnTime(zs: seq<ZoneDoc>, labels: Labels, now: Now, skip: bool, k: nat)
    requires AllZonesComplete(zs) && k < |zs|
    requires RunTick(zs, labels, now, skip).completed
    requires NameOf(zs[k]) in labels
    requires forall j :: k < j < |zs| ==> NameOf(zs[j]) != NameOf(zs[k])
    ensures ZoneShown(zs[k], now).Text?
    ensures NameOf(zs[k]) in RunTick(zs, labels, now, skip).labels
    ensures RunTick(zs, labels, now, skip).labels[NameOf(zs[k])] == ZoneShown(zs[k], now).text
    decreases |zs|
  {
    TickKeepsLabelSet(zs, labels, now, skip);
    TailComplete(zs);
    var name := NameOf(zs[0]);
    var rest := zs[1..];
    assert forall j :: 1 <= j < |zs| ==> zs[j] == rest[j - 1];
    if name !in labels {
      assert skip && k > 0;
      TickShowsOwnTime(rest, labels, now, skip, k - 1);
    } else {
      assert ZoneShown(zs[0], now).Text?;
      var next := labels[name := ZoneShown(zs[0], now).text];
      if k == 0 {
        assert name !in Names(rest) by {
          assert forall i :: 0 <= i < |rest| ==> NameOf(rest[i]) != name;
        }
        TickLeavesOtherNames(rest, next, now, skip, name);
      } else {
        TickShowsOwnTime(rest, next, now, skip, k - 1);
      }
    }
  }

  /** The zones whose names have a label, in order. */
  function Labelled(zs: seq<ZoneDoc>, keys: set<string>): (r: seq<ZoneDoc>)
    requires AllZonesComplete(zs)
    ensures AllZonesComplete(r)
    decreases |zs|
  {
    if zs == [] then []
    else
      TailComplete(zs);
      if NameOf(zs[0]) in keys then [zs[0]] + Labelled(zs[1..], keys) else Labelled(zs[1..], keys)
  }

  /** Skipping is the same as running the strict loop over the labelled zones
      only: an unlabelled zone affects nothing at all. */
  lemma {:induction false} SkipIsStrictOverLabelled(zs: seq<ZoneDoc>, labels: Labels, now: Now)
    requires AllZonesComplete(zs)
    ensures RunTick(zs, labels, now, true) == RunTick(Labelled(zs, labels.Keys), labels, now, false)
    decreases |zs|
  {
    if zs != [] {
      TailComplete(zs);
      var name := NameOf(zs[0]);
      var rest := zs[1..];
      if name !in labels {
        SkipIsStrictOverLabelled(rest, labels, now);
      } else {
        var l := Labelled(zs, labels.Keys);
        assert l[0] == zs[0] && l[1..] == Labelled(rest, labels.Keys);
        if ZoneShown(zs[0], now).Text? {
          var next := labels[name := ZoneShown(zs[0], now).text];
          assert next.Keys == labels.Keys;
          SkipIsStrictOverLabelled(rest, next, now);
        }
      }
    }
  }

  /** When every zone's name has a label, app4's skip keeps every zone. */
  lemma {:induction false} LabelledOfNamed(zs: seq<ZoneDoc>, keys: set<string>)
    requires AllZonesComplete(zs) && Names(zs) <= keys
    ensures Labelled(zs, keys) == zs
    decreases |zs|
  {
    if zs != [] {
      TailComplete(zs);
      assert NameOf(zs[0]) in Names(zs);
      assert Names(zs[1..]) <= Names(zs) by {
        forall m | m in Names(zs[1..]) ensures m in Names(zs) {
          var i :| 0 <= i < |zs[1..]| && zs[1..][i].name.value == m;
          assert zs[i + 1] == zs[1..][i];
        }
      }
      LabelledOfNamed(zs[1..], keys);
    }
  }

  /** Right after `create_timezone_labels` every zone has a label, so the two
      variants' ticks agree. */
  lemma FreshLabelsVariantsAgree(zs: seq<ZoneDoc>, now: Now)
    requires AllZonesComplete(zs)
    ensures RunTick(zs, LabelsFor(zs), now, true) == RunTick(zs, LabelsFor(zs), now, false)
  {
    SkipIsStrictOverLabelled(zs, LabelsFor(zs), now);
    LabelledOfNamed(zs, LabelsFor(zs).Keys);
  }
}
