/** The earlier single-window world clock of app2.py: a list of pytz zone
    names shown as a two-column grid of framed labels, each refreshed once a
    second. The frames are rebuilt from the list whenever it changes; how the
    old frames are torn down is the `Teardown` of the application. */
module WorldClock {
  import opened Wrappers
  import opened ZoneFormat

  /** The zones the window opens with (app2.py:16). */
  const InitialZones: seq<string> := ["UTC", "America/New_York", "Europe/London", "Asia/Tokyo"]
  /** `update_interval`, the re-arm delay of the tick (app2.py:18). */
  const UpdateInterval: int := 1000
  /** The one zone whose frame has no remove button (app2.py:114). */
  const FixedZone: string := "UTC"

  predicate NoDuplicates(zs: seq<string>) {
    forall i, j :: 0 <= i < j < |zs| ==> zs[i] != zs[j]
  }

  /** The initial zones are four different names. */
  lemma InitialZonesDistinct()
    ensures NoDuplicates(InitialZones)
  {
    assert InitialZones[0][0] == 'U' && InitialZones[1][0] == 'A' && InitialZones[2][0] == 'E';
    assert InitialZones[1][1] == 'm' && InitialZones[3][1] == 's';
  }

  /** The grid cell of the `i`-th frame: two per row, left to right. */
  function Cell(i: nat): (cell: (nat, nat))
    ensures cell.1 < 2
    ensures 2 * cell.0 + cell.1 == i
  {
    (i / 2, i % 2)
  }

  /** One entry of `timezone_frames`: the zone, its grid cell, whether it has
      a remove button, whether its widgets still exist, and the text of its
      time label. */
  datatype Frame = Frame(zone: string, row: nat, column: nat, removable: bool, live: bool, text: string)

  /** The frame `update_timezone_displays` builds for the `i`-th zone; a fresh
      label shows nothing. */
  function FreshFrame(zone: string, i: nat): (f: Frame)
    ensures f.zone == zone && (f.row, f.column) == Cell(i) && f.text == ""
    ensures f.live && (f.removable <==> zone != FixedZone)
  {
    Frame(zone, i / 2, i % 2, zone != FixedZone, true, "")
  }

  /** The frames built for a whole list, one per zone in order. */
  function FreshFrames(zs: seq<string>): (frames: seq<Frame>)
    ensures |frames| == |zs| && forall i :: 0 <= i < |zs| ==> frames[i] == FreshFrame(zs[i], i)
    ensures FramesMatch(frames, zs)
    ensures forall i :: 0 <= i < |frames| ==> frames[i].text == ""
  {
    seq(|zs|, i requires 0 <= i < |zs| => FreshFrame(zs[i], i))
  }

  /** The entries after their widgets were destroyed: the same entries, none
      of them live. */
  function Orphaned(frames: seq<Frame>): (r: seq<Frame>)
    ensures |r| == |frames| && forall i :: 0 <= i < |frames| ==> r[i] == frames[i].(live := false)
    ensures frames != [] ==> Stale(r)
  {
    seq(|frames|, i requires 0 <= i < |frames| => frames[i].(live := false))
  }

  /** How `update_timezone_displays` disposes of the old entries after
      destroying every child of `clock_frame`. As written (app2.py:99-100) it
      calls `destroy()` on each stored entry, which is a dict, so the call
      raises `AttributeError` whenever there is an entry. The repair destroys
      each entry's `"frame"` widget, which Tk accepts for a widget already
      destroyed. */
  datatype Teardown = DestroyEntries | DestroyWidgets

  /** The rows `0 .. k - 1`. */
  function RowsBelow(k: nat): (rows: set<nat>)
    ensures forall r: nat :: r in rows <==> r < k
  {
    if k == 0 then {} else RowsBelow(k - 1) + {k - 1}
  }

  /** The rows given weight for a list of `n` zones: `range((n + 1) // 2)`. */
  function WeightedRowsFor(n: nat): (rows: set<nat>)
    ensures forall r: nat :: r in rows <==> r < (n + 1) / 2
  {
    RowsBelow((n + 1) / 2)
  }

  /** The frames line up with the zones: same order, own cell, own button,
      widgets alive. */
  predicate FramesMatch(frames: seq<Frame>, zs: seq<string>) {
    |frames| == |zs| &&
    forall i :: 0 <= i < |zs| ==>
      frames[i].zone == zs[i] && (frames[i].row, frames[i].column) == Cell(i) &&
      (frames[i].removable <==> zs[i] != FixedZone) && frames[i].live
  }

  /** The entries left behind by a teardown that raised: there is at least
      one, and none of their widgets exists. */
  predicate Stale(frames: seq<Frame>) {
    frames != [] && forall i :: 0 <= i < |frames| ==> !frames[i].live
  }

  /** `list.remove`: the list without the first occurrence of `z`. */
  function Without(zs: seq<string>, z: string): (r: seq<string>)
    ensures z in zs ==> |r| == |zs| - 1
    ensures z !in zs ==> r == zs
    ensures forall y :: y in r ==> y in zs
    decreases |zs|
  {
    if zs == [] then []
    else if zs[0] == z then zs[1..]
    else [zs[0]] + Without(zs[1..], z)
  }

  /** Removing from a duplicate-free list removes the zone altogether, keeps
      every other zone and keeps the list duplicate-free. */
  lemma {:induction false} WithoutRemoves(zs: seq<string>, z: string)
    requires NoDuplicates(zs)
    ensures NoDuplicates(Without(zs, z))
    ensures z !in Without(zs, z)
    ensures forall y :: y in zs && y != z ==> y in Without(zs, z)
    decreases |zs|
  {
    if zs != [] {
      var rest := zs[1..];
      NoDuplicatesTail(zs);
      if zs[0] != z {
        WithoutRemoves(rest, z);
        var w := Without(rest, z);
        assert Without(zs, z) == [zs[0]] + w;
        NoDuplicatesCons(zs[0], w);
      }
    }
  }

  /** The tail of a duplicate-free list is duplicate-free, lacks the head,
      and holds every other element. */
  lemma NoDuplicatesTail(zs: seq<string>)
    requires zs != [] && NoDuplicates(zs)
    ensures NoDuplicates(zs[1..]) && zs[0] !in zs[1..]
    ensures forall y :: y in zs && y != zs[0] ==> y in zs[1..]
  {
    var rest := zs[1..];
    assert forall i :: 0 <= i < |rest| ==> rest[i] == zs[i + 1];
    forall y | y in zs && y != zs[0] ensures y in rest {
      var i :| 0 <= i < |zs| && zs[i] == y;
      assert rest[i - 1] == y;
    }
  }

  /** A new head in front of a duplicate-free list keeps it duplicate-free. */
  lemma NoDuplicatesCons(x: string, w: seq<string>)
    requires NoDuplicates(w) && x !in w
    ensures NoDuplicates([x] + w)
  {
    var r := [x] + w;
    assert forall i :: 1 <= i < |r| ==> r[i] == w[i - 1];
  }

  /** Where `list.remove` cuts: the first position holding `z`. */
  function FirstIndex(zs: seq<string>, z: string): (k: nat)
    requires z in zs
    ensures k < |zs| && zs[k] == z && z !in zs[..k]
    decreases |zs|
  {
    if zs[0] == z then 0
    else
      assert z in zs[1..] by {
        var i :| 0 <= i < |zs| && zs[i] == z;
        assert zs[1..][i - 1] == z;
      }
      var k := FirstIndex(zs[1..], z);
      assert zs[..k + 1] == [zs[0]] + zs[1..][..k];
      k + 1
  }

  /** Removal keeps the remaining zones in their order: the result is the list
      with the first `z` cut out. */
  lemma {:induction false} WithoutCutsFirst(zs: seq<string>, z: string)
    requires z in zs
    ensures Without(zs, z) == zs[..FirstIndex(zs, z)] + zs[FirstIndex(zs, z) + 1..]
    decreases |zs|
  {
    if zs[0] != z {
      var rest := zs[1..];
      assert z in rest by {
        var i :| 0 <= i < |zs| && zs[i] == z;
        assert rest[i - 1] == z;
      }
      WithoutCutsFirst(rest, z);
      var k := FirstIndex(rest, z);
      assert FirstIndex(zs, z) == k + 1;
      assert zs[..k + 1] == [zs[0]] + rest[..k];
      assert zs[k + 2..] == rest[k + 1..];
    }
  }

  /** The message boxes of `add_timezone`. */
  datatype AddNotice = AlreadyListed(zone: string) | NotAZone

  /** What `add_timezone` does with the combobox text: append a new known
      zone, report one already listed, reject anything else. */
  datatype AddOutcome = Appended | Refused(notice: AddNotice)

  function AddDecision(newTz: string, known: set<string>, zs: seq<string>): (o: AddOutcome)
    ensures o == Appended <==> newTz != "" && newTz in known && newTz !in zs
    ensures o == Refused(AlreadyListed(newTz)) <==> newTz in zs
    ensures o == Refused(NotAZone) <==> newTz !in zs && (newTz == "" || newTz !in known)
  {
    if newTz != "" && newTz in known && newTz !in zs then Appended
    else if newTz in zs then Refused(AlreadyListed(newTz))
    else Refused(NotAZone)
  }

  /** One frame's `try` block: pytz's zone in the configured format, else the
      local time in the fixed format. An exception from the fallback is not
      caught. */
  function FrameShown(zone: string, pattern: string, now: Now): Shown {
    match now.zoned(zone, pattern)
    case Formatted(t) => Text(t)
    case Raised(_) =>
      match now.local(DefaultFormat)
      case Formatted(t) => Text(t)
      case Raised(_) => Escaped
  }

  /** What one frame's `try` block makes of it. A label whose widget is gone
      makes the `config` call raise `TclError`; the handler's own `config`
      call raises again, and that escapes. */
  function FrameStep(f: Frame, pattern: string, now: Now): Shown {
    if f.live then FrameShown(f.zone, pattern, now) else Escaped
  }

  /** The frames after one pass of `update_time`, and whether it got to the
      end (and so re-armed itself). */
  datatype WorldTick = WorldTick(frames: seq<Frame>, completed: bool)

  function TickFrames(frames: seq<Frame>, pattern: string, now: Now): WorldTick
    decreases |frames|
  {
    if frames == [] then WorldTick([], true)
    else
      match FrameStep(frames[0], pattern, now)
      case Escaped => WorldTick(frames, false)
      case Text(t) =>
        var rest := TickFrames(frames[1..], pattern, now);
        WorldTick([frames[0].(text := t)] + rest.frames, rest.completed)
  }

  /** A tick changes only label texts, sets each frame it reaches to that
      zone's time, and re-arms exactly when no fallback raised. */
  lemma {:induction false} TickFramesMeaning(frames: seq<Frame>, pattern: string, now: Now)
    ensures var t := TickFrames(frames, pattern, now);
      |t.frames| == |frames| &&
      (forall i :: 0 <= i < |frames| ==> t.frames[i] == frames[i].(text := t.frames[i].text)) &&
      (t.completed <==> forall i :: 0 <= i < |frames| ==> FrameStep(frames[i], pattern, now).Text?) &&
      (t.completed ==> forall i :: 0 <= i < |frames| ==> t.frames[i].text == FrameStep(frames[i], pattern, now).text)
    decreases |frames|
  {
    if frames != [] {
      var rest := frames[1..];
      assert forall i :: 1 <= i < |frames| ==> frames[i] == rest[i - 1];
      TickFramesMeaning(rest, pattern, now);
      var r := TickFrames(rest, pattern, now);
      match FrameStep(frames[0], pattern, now)
      case Escaped =>
      case Text(t) =>
        var all := [frames[0].(text := t)] + r.frames;
        assert forall i :: 1 <= i < |all| ==> all[i] == r.frames[i - 1];
    }
  }

  /** A frame whose widgets are gone stops every tick that reaches it, so
      after a teardown that raised the clock never re-arms again. */
  lemma DeadFrameStops(frames: seq<Frame>, k: nat, pattern: string, now: Now)
    requires k < |frames| && !frames[k].live
    ensures !TickFrames(frames, pattern, now).completed
  {
    TickFramesMeaning(frames, pattern, now);
    assert !FrameStep(frames[k], pattern, now).Text?;
  }

  /** On frames built fresh from a list, a tick completes exactly when every
      zone's text could be computed, and then shows each zone's text in its
      own cell. */
  lemma {:induction false} FreshTickMeaning(zs: seq<string>, pattern: string, now: Now)
    ensures var t := TickFrames(FreshFrames(zs), pattern, now);
      FramesMatch(t.frames, zs) &&
      (t.completed <==> forall i :: 0 <= i < |zs| ==> FrameShown(zs[i], pattern, now).Text?) &&
      (t.completed ==> forall i :: 0 <= i < |zs| ==> t.frames[i].text == FrameShown(zs[i], pattern, now).text)
  {
    var built := FreshFrames(zs);
    TickFramesMeaning(built, pattern, now);
    assert forall i :: 0 <= i < |zs| ==> FrameStep(built[i], pattern, now) == FrameShown(zs[i], pattern, now);
  }

  /** When the configured format works for a zone, the fallback never shows. */
  lemma FallbackOnlyOnError(zone: string, pattern: string, now: Now)
    ensures now.zoned(zone, pattern).Formatted? ==> FrameShown(zone, pattern, now) == Text(now.zoned(zone, pattern).text)
    ensures now.zoned(zone, pattern).Raised? && now.local(DefaultFormat).Formatted? ==>
              FrameShown(zone, pattern, now) == Text(now.local(DefaultFormat).text)
    ensures FrameShown(zone, pattern, now).Escaped? <==>
              now.zoned(zone, pattern).Raised? && now.local(DefaultFormat).Raised?
  {
  }

  /** Distinct positions get distinct cells, and each cell is in a weighted row. */
  lemma CellsDistinct(i: nat, j: nat)
    requires i != j
    ensures Cell(i) != Cell(j)
  {
  }

  lemma CellRowWeighted(i: nat, n: nat)
    requires i < n
    ensures Cell(i).0 in WeightedRowsFor(n)
  {
  }

  /** No weighted row is empty: each is the row of some frame. */
  lemma WeightedRowOccupied(r: nat, n: nat)
    requires r in WeightedRowsFor(n)
    ensures 2 * r < n && Cell(2 * r).0 == r
  {
  }

  class WorldClockApp {
    /** How old entries are torn down on a rebuild. */
    const teardown: Teardown
    /** `config["timezones"]`. */
    var timezones: seq<string>
    /** `config["datetime_format"]`. */
    var datetimeFormat: string
    /** `config["update_interval"]`. */
    var updateInterval: int
    /** `timezone_frames`, in insertion order. */
    var frames: seq<Frame>
    /** The rows of `clock_frame` configured with weight 1 so far; Tk keeps a
        row's weight after the frames in it are gone. */
    var weightedRows: set<nat>
    /** Whether a next `update_time` is scheduled with `root.after`. */
    var ticking: bool
    /** The process status once start-up failed: an exception escaping the
        first tick leaves the module-level construction. */
    var exitCode: Option<int>

    /** The frames are those of the zone list, or, after a teardown that
        raised, the dead entries it left behind; the repaired teardown always
        keeps them current. */
    ghost predicate Valid()
      reads this
    {
      NoDuplicates(timezones) &&
      (FramesMatch(frames, timezones) || Stale(frames)) &&
      (teardown == DestroyWidgets ==> FramesMatch(frames, timezones))
    }

    predicate Live()
      reads this
    {
      exitCode.None?
    }

    /** `__init__` with `create_widgets`: the four initial zones and their
        fresh frames in an empty `timezone_frames`, then the first tick. If
        that tick escapes, construction fails and the process ends with
        status 1. */
    constructor (teardown: Teardown, now: Now)
      ensures Valid() && this.teardown == teardown
      ensures timezones == InitialZones && datetimeFormat == DefaultFormat && updateInterval == UpdateInterval
      ensures weightedRows == WeightedRowsFor(|InitialZones|)
      ensures var t := TickFrames(FreshFrames(InitialZones), DefaultFormat, now);
        frames == t.frames && ticking == t.completed &&
        (t.completed <==> Live()) && (!t.completed ==> exitCode == Some(1))
    {
      this.teardown := teardown;
      timezones := InitialZones;
      datetimeFormat := DefaultFormat;
      updateInterval := UpdateInterval;
      frames := [];
      weightedRows := {};
      ticking := false;
      exitCode := None;
      new;
      InitialZonesDistinct();
      var raised := UpdateTimezoneDisplays();
      var next := UpdateTime(now);
      if next.None? {
        exitCode := Some(1);
      }
    }

    /** `update_timezone_displays`: destroy every child of `clock_frame`, tear
        down the old entries, then build one frame per zone in list order and
        give the rows in use weight. The as-written teardown raises on the
        first old entry, leaving the dead entries in place and building
        nothing. */
    method UpdateTimezoneDisplays() returns (raised: bool)
      requires NoDuplicates(timezones)
      modifies this`frames, this`weightedRows
      ensures Valid()
      ensures raised <==> teardown == DestroyEntries && old(frames) != []
      ensures raised ==> frames == Orphaned(old(frames)) && weightedRows == old(weightedRows)
      ensures !raised ==> frames == FreshFrames(timezones) &&
                          weightedRows == old(weightedRows) + WeightedRowsFor(|timezones|)
    {
      var i := 0;
      while i < |frames|
        invariant 0 <= i <= |frames| == |old(frames)|
        invariant weightedRows == old(weightedRows)
        invariant forall k :: 0 <= k < |frames| ==>
                    frames[k] == if k < i then old(frames)[k].(live := false) else old(frames)[k]
      {
        frames := frames[i := frames[i].(live := false)];
        i := i + 1;
      }
      assert frames == Orphaned(old(frames));
      if teardown == DestroyEntries && frames != [] {
        return true;
      }
      raised := false;
      var built: seq<Frame> := [];
      i := 0;
      while i < |timezones|
        invariant 0 <= i <= |timezones| && |built| == i
        invariant forall k :: 0 <= k < i ==> built[k] == FreshFrame(timezones[k], k)
      {
        built := built + [FreshFrame(timezones[i], i)];
        i := i + 1;
      }
      frames := built;
      var r := 0;
      while r < (|timezones| + 1) / 2
        invariant 0 <= r <= (|timezones| + 1) / 2 && frames == built
        invariant weightedRows == old(weightedRows) + RowsBelow(r)
      {
        weightedRows := weightedRows + {r};
        r := r + 1;
      }
    }

    /** `add_timezone`: append a known, unlisted zone and rebuild the frames;
        otherwise show the matching message and change nothing. */
    method AddTimezone(newTz: string, known: set<string>) returns (notice: Option<AddNotice>, raised: bool)
      requires Valid() && Live()
      modifies this`timezones, this`frames, this`weightedRows
      ensures Valid()
      ensures var o := AddDecision(newTz, known, old(timezones));
        (o == Appended ==>
           timezones == old(timezones) + [newTz] && notice == None &&
           (raised <==> teardown == DestroyEntries && old(frames) != []) &&
           (raised ==> frames == Orphaned(old(frames)) && weightedRows == old(weightedRows)) &&
           (!raised ==> frames == FreshFrames(timezones) &&
                        weightedRows == old(weightedRows) + WeightedRowsFor(|timezones|))) &&
        (o.Refused? ==> !raised && timezones == old(timezones) && frames == old(frames) &&
                        weightedRows == old(weightedRows) && notice == Some(o.notice))
    {
      raised := false;
      if newTz != "" && newTz in known && newTz !in timezones {
        NoDuplicatesSnoc(timezones, newTz);
        timezones := timezones + [newTz];
        notice := None;
        raised := UpdateTimezoneDisplays();
      } else if newTz in timezones {
        notice := Some(AlreadyListed(newTz));
      } else {
        notice := Some(NotAZone);
      }
    }

    /** `remove_timezone`: drop the zone if listed and rebuild the frames. */
    method RemoveTimezone(tz: string) returns (raised: bool)
      requires Valid() && Live()
      modifies this`timezones, this`frames, this`weightedRows
      ensures Valid()
      ensures timezones == Without(old(timezones), tz) && tz !in timezones
      ensures tz in old(timezones) ==>
        (raised <==> teardown == DestroyEntries && old(frames) != []) &&
        (raised ==> frames == Orphaned(old(frames)) && weightedRows == old(weightedRows)) &&
        (!raised ==> frames == FreshFrames(timezones) &&
                     weightedRows == old(weightedRows) + WeightedRowsFor(|timezones|))
      ensures tz !in old(timezones) ==> !raised && frames == old(frames) && weightedRows == old(weightedRows)
    {
      raised := false;
      if tz in timezones {
        WithoutRemoves(timezones, tz);
        timezones := Without(timezones, tz);
        raised := UpdateTimezoneDisplays();
      }
    }

    /** `update_time`: set every frame's label; re-arm after `update_interval`
        unless an exception escaped part way. */
    method UpdateTime(now: Now) returns (next: Option<int>)
      requires Valid()
      modifies this`frames, this`ticking
      ensures Valid()
      ensures var t := TickFrames(old(frames), datetimeFormat, now);
        frames == t.frames && ticking == t.completed &&
        next == (if t.completed then Some(updateInterval) else None)
    {
      TickFramesMeaning(frames, datetimeFormat, now);
      var completed;
      frames, completed := SetLabels(frames, datetimeFormat, now);
      ticking := completed;
      next := if completed then Some(updateInterval) else None;
    }
  }

  /** Appending a zone the list lacks keeps it duplicate-free. */
  lemma NoDuplicatesSnoc(zs: seq<string>, z: string)
    requires NoDuplicates(zs) && z !in zs
    ensures NoDuplicates(zs + [z])
  {
    var r := zs + [z];
    assert forall i :: 0 <= i < |zs| ==> r[i] == zs[i];
  }

  /** With the teardown as written, adding a zone to a running clock raises
      out of the rebuild, and the next tick stops the clock for good. */
  method AddThenTickStops(app: WorldClockApp, newTz: string, known: set<string>, now: Now)
      returns (raised: bool, next: Option<int>)
    requires app.Valid() && app.Live() && app.teardown == DestroyEntries && app.frames != []
    requires AddDecision(newTz, known, app.timezones) == Appended
    modifies app
    ensures raised && next == None && !app.ticking
    ensures app.timezones == old(app.timezones) + [newTz] && Stale(app.frames)
  {
    var notice;
    notice, raised := app.AddTimezone(newTz, known);
    DeadFrameStops(app.frames, 0, app.datetimeFormat, now);
    next := app.UpdateTime(now);
  }

  /** With the repaired teardown, adding a zone rebuilds every frame, and the
      next tick shows each zone's own time and re-arms unless a fallback
      raised. */
  method RepairedAddThenTick(app: WorldClockApp, newTz: string, known: set<string>, now: Now)
      returns (raised: bool, next: Option<int>)
    requires app.Valid() && app.Live() && app.teardown == DestroyWidgets
    requires AddDecision(newTz, known, app.timezones) == Appended
    modifies app
    ensures !raised && app.timezones == old(app.timezones) + [newTz]
    ensures FramesMatch(app.frames, app.timezones)
    ensures next.Some? == app.ticking
    ensures app.ticking <==> forall i :: 0 <= i < |app.timezones| ==> FrameShown(app.timezones[i], app.datetimeFormat, now).Text?
    ensures app.ticking ==> forall i :: 0 <= i < |app.timezones| ==>
              app.frames[i].text == FrameShown(app.timezones[i], app.datetimeFormat, now).text
  {
    var notice;
    notice, raised := app.AddTimezone(newTz, known);
    FreshTickMeaning(app.timezones, app.datetimeFormat, now);
    next := app.UpdateTime(now);
  }

  /** A tick result with the frames `done` already handled in front. */
  function After(done: seq<Frame>, t: WorldTick): WorldTick {
    WorldTick(done + t.frames, t.completed)
  }

  /** One step of `TickFrames` from position `i`. */
  lemma TickStep(frames: seq<Frame>, i: nat, pattern: string, now: Now)
    requires i < |frames|
    ensures var shown := FrameStep(frames[i], pattern, now);
      var tick := TickFrames(frames[i..], pattern, now);
      var tail := TickFrames(frames[i + 1..], pattern, now);
      (shown.Escaped? ==> tick == WorldTick(frames[i..], false)) &&
      (shown.Text? ==> tick == WorldTick([frames[i].(text := shown.text)] + tail.frames, tail.completed))
  {
    var rest := frames[i..];
    assert rest[0] == frames[i] && rest[1..] == frames[i + 1..];
  }

  /** The loop of `update_time` advanced past a frame it labelled. */
  lemma TickAdvance(start: seq<Frame>, i: nat, done: seq<Frame>, pattern: string, now: Now)
    requires i < |start| && FrameStep(start[i], pattern, now).Text?
    requires TickFrames(start, pattern, now) == After(done, TickFrames(start[i..], pattern, now))
    ensures TickFrames(start, pattern, now) ==
              After(done + [start[i].(text := FrameStep(start[i], pattern, now).text)],
                    TickFrames(start[i + 1..], pattern, now))
  {
    TickStep(start, i, pattern, now);
    var f := start[i].(text := FrameStep(start[i], pattern, now).text);
    var tail := TickFrames(start[i + 1..], pattern, now);
    assert done + ([f] + tail.frames) == (done + [f]) + tail.frames;
  }

  /** Relabelling the first unhandled frame in place. */
  lemma RelabelInPlace(done: seq<Frame>, start: seq<Frame>, i: nat, f: Frame)
    requires |done| == i < |start|
    ensures (done + start[i..])[i := f] == (done + [f]) + start[i + 1..]
  {
    var l := (done + start[i..])[i := f];
    var r := (done + [f]) + start[i + 1..];
    assert |l| == |r|;
    forall k | 0 <= k < |l| ensures l[k] == r[k] {
      if k > i {
        assert l[k] == start[k];
      }
    }
  }

  /** The loop of `update_time` over the frames in order: each label is set
      as soon as its text is known, so an escaping exception leaves the labels
      before it updated and the rest untouched. */
  method SetLabels(start: seq<Frame>, pattern: string, now: Now) returns (cur: seq<Frame>, completed: bool)
    ensures WorldTick(cur, completed) == TickFrames(start, pattern, now)
  {
    cur := start;
    var i := 0;
    ghost var done: seq<Frame> := [];
    while i < |start|
      invariant 0 <= i <= |start| && |done| == i && cur == done + start[i..]
      invariant TickFrames(start, pattern, now) == After(done, TickFrames(start[i..], pattern, now))
    {
      var shown := FrameStep(start[i], pattern, now);
      if shown.Escaped? {
        TickStep(start, i, pattern, now);
        return cur, false;
      }
      var f := start[i].(text := shown.text);
      TickAdvance(start, i, done, pattern, now);
      RelabelInPlace(done, start, i, f);
      cur := cur[i := f];
      done := done + [f];
      i := i + 1;
    }
    assert start[i..] == [];
    completed := true;
  }

  /** An appended zone keeps the list duplicate-free and gets a cell no
      earlier frame holds, in a row the rebuild gives weight; the rebuilt
      frames of the earlier zones are what they were before. */
  lemma AddedZoneGetsFreeCell(zs: seq<string>, newTz: string, known: set<string>)
    requires NoDuplicates(zs) && AddDecision(newTz, known, zs) == Appended
    ensures NoDuplicates(zs + [newTz])
    ensures forall i :: 0 <= i < |zs| ==> Cell(i) != Cell(|zs|)
    ensures Cell(|zs|).0 in WeightedRowsFor(|zs| + 1)
    ensures FreshFrames(zs + [newTz]) == FreshFrames(zs) + [FreshFrame(newTz, |zs|)]
  {
    NoDuplicatesSnoc(zs, newTz);
    var r := zs + [newTz];
    assert forall i :: 0 <= i < |zs| ==> r[i] == zs[i];
  }
}
