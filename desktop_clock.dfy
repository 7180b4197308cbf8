/** The desktop clock of app3.py and app4.py: one `Clock` object whose fields
    are the attributes `DesktopClock` updates in place, with the two files'
    differences as a `Variant`.

    Tk, pystray and the file system are outside the model. What the object
    does to them is recorded in `effects`, a ghost trace of the saves, window
    moves, label rebuilds, lock-file changes and the exit, in the order the
    source performs them. A saved document is the configuration at that
    moment. */
module DesktopClock {
  import opened Wrappers
  import opened IntText
  import opened ZoneFormat
  import opened ConfigStore
  import opened Placement
  import opened Refresh
  import opened SettingsApply

  /** The two versions of the program. */
  datatype Variant = App3 | App4 {

    /** The name a new zone gets: "Timezone n" (app3.py:453) or "Time n" (app4.py:389). */
    function NamePrefix(): string {
      if App3? then "Timezone " else "Time "
    }

    /** app4 skips a zone whose name has no label (app4.py:130-131). */
    predicate SkipsUnlabelled() {
      App4?
    }

    /** app4 re-places the window when visibility is toggled (app4.py:493). */
    predicate PlacesOnToggle() {
      App4?
    }

    /** app4 saves before re-placing in `apply_settings` (app4.py:465-468);
        app3 re-places, then saves (app3.py:555-557). */
    predicate SavesBeforePlacing() {
      App4?
    }
  }

  /** The zone `add_timezone_dialog` appends when the list has `n - 1` zones. */
  function NewZone(v: Variant, n: int): (z: ZoneDoc)
    ensures ZoneComplete(z) && ZoneWellFormed(z)
    ensures z == DefaultZone.(name := Some(v.NamePrefix() + IntToString(n)))
  {
    ZoneDoc(Some(v.NamePrefix() + IntToString(n)), Some(LocalZone), Some("Segoe UI"), Some(12),
            Some(DefaultFormat), Some("white"), map[])
  }

  /** The tray menu's visibility item (app3.py:242, app4.py:499). */
  function ToggleLabel(visible: bool): (item: string)
    ensures item == "Hide Clock" <==> visible
    ensures item == "Show Clock" <==> !visible
  {
    if visible then "Hide Clock" else "Show Clock"
  }

  function FontSizes(zs: seq<ZoneDoc>): (sizes: seq<int>)
    requires AllZonesComplete(zs)
    ensures |sizes| == |zs|
    ensures forall i :: 0 <= i < |zs| ==> sizes[i] == zs[i].fontSize.value
  {
    if zs == [] then []
    else
      TailComplete(zs);
      [zs[0].fontSize.value] + FontSizes(zs[1..])
  }

  /** `remove_timezone`'s effect on the list: `pop(index)` when more than one
      zone remains, nothing otherwise. */
  function RemoveZone(zs: seq<ZoneDoc>, index: int): (r: seq<ZoneDoc>)
    requires 0 <= index < |zs|
    ensures |zs| > 1 ==> |r| == |zs| - 1
    ensures |zs| > 1 ==> forall k :: 0 <= k < index ==> r[k] == zs[k]
    ensures |zs| > 1 ==> forall k :: index <= k < |r| ==> r[k] == zs[k + 1]
    ensures |zs| <= 1 ==> r == zs
    ensures |r| >= 1 || zs == []
  {
    if |zs| > 1 then zs[..index] + zs[index + 1..] else zs
  }

  /** The zone loop of `apply_settings`, over a copy of the list: rows are
      applied in order and the first font size `int()` rejects stops the loop,
      after that row's name, zone id and font family were already assigned. */
  method EditZones(zs: seq<ZoneDoc>, rows: map<int, ZoneForm>) returns (r: seq<ZoneDoc>, ok: bool)
    ensures ZonesResult(r, ok) == ApplyZonesFrom(zs, 0, rows)
  {
    r := zs;
    var i := 0;
    while i < |r|
      invariant 0 <= i <= |r| == |zs|
      invariant ApplyZonesFrom(r, i, rows) == ApplyZonesFrom(zs, 0, rows)
    {
      if i in rows {
        var row := rows[i];
        ghost var e := EditZone(r[i], row);
        ghost var original := r[i];
        ghost var before := r;
        r := r[i := PartialEdit(r[i], row)];
        var size := ParseInt(row.fontSize);
        if size.None? {
          assert r == ApplyZonesFrom(zs, 0, rows).zones;
          return r, false;
        }
        r := r[i := r[i].(fontSize := Some(size.value), datetimeFormat := Some(row.format),
                          color := Some(row.color))];
        assert r[i] == FullEdit(original, row, size.value) == e.zone;
        assert r == before[i := e.zone];
      }
      i := i + 1;
    }
    ok := true;
  }

  /** The settings window: none, on screen, or withdrawn to the tray. */
  datatype SettingsWindow = NoWindow | Shown | Withdrawn

  /** The tray icon and the label of its visibility item. */
  datatype Tray = NoTray | TrayRunning(toggleLabel: string) | TrayHalted

  /** The message boxes. */
  datatype Notice = SettingsApplied | InvalidInput | NeedOneZone

  datatype Effect =
    | Save(doc: ConfigDoc)
    | Move(x: int, y: int)
    | RebuildLabels
    | CreateSettings
    | StopTicks
    | DestroySettings
    | StopTray
    | CreateLock
    | RemoveLock
    | DestroyWindow
    | Exit(code: int)

  /** The effects of `load_config`: saving the defaults when it fell back to them. */
  function LoadEffects(file: ConfigFile): seq<Effect> {
    if file.Parsed? then [] else [Save(DefaultConfig)]
  }

  /** What `quit_app` does, in order, given whether a settings window, a
      tray icon and the lock file exist. */
  function QuitTrace(doc: ConfigDoc, hadSettings: bool, hadTray: bool, hadLock: bool): (t: seq<Effect>)
    ensures |t| == 4 + (if hadSettings then 1 else 0) + (if hadTray then 1 else 0) + (if hadLock then 1 else 0)
    ensures t[0] == StopTicks && t[1] == Save(doc) && t[|t| - 2] == DestroyWindow && t[|t| - 1] == Exit(0)
  {
    CloseTrace(doc, hadSettings, hadTray) + (if hadLock then [RemoveLock] else []) +
    [DestroyWindow, Exit(0)]
  }

  /** The first part of `quit_app`: everything before `cleanup`. */
  function CloseTrace(doc: ConfigDoc, hadSettings: bool, hadTray: bool): seq<Effect> {
    [StopTicks, Save(doc)] + (if hadSettings then [DestroySettings] else []) +
    (if hadTray then [StopTray] else [])
  }

  /** The messages the end of `apply_settings` shows, given where
      `update_position` lands. */
  function CommitNotices(v: Variant, spot: Spot): seq<Notice> {
    if v.SavesBeforePlacing() then [SettingsApplied] + (if spot.At? then [] else [InvalidInput])
    else if spot.At? then [SettingsApplied] else [InvalidInput]
  }

  /** What the end of `apply_settings` records, given where `update_position`
      lands: app3 moves and then saves, so a raising placement skips the save;
      app4 saves first either way. */
  function CommitTrace(v: Variant, spot: Spot, doc: ConfigDoc): seq<Effect> {
    if v.SavesBeforePlacing() then [Save(doc)] + (if spot.At? then [Move(spot.x, spot.y)] else [])
    else if spot.At? then [Move(spot.x, spot.y), Save(doc)] else []
  }

  /** The configuration is written exactly when app4 applies, or the placement succeeded. */
  lemma SavedIffPlacedOrApp4(v: Variant, spot: Spot, doc: ConfigDoc)
    ensures Save(doc) in CommitTrace(v, spot, doc) <==> v == App4 || spot.At?
    ensures spot.At? ==> Move(spot.x, spot.y) in CommitTrace(v, spot, doc)
    ensures spot.EmptyMax? ==> forall e :: e in CommitTrace(v, spot, doc) ==> !e.Move?
    ensures InvalidInput in CommitNotices(v, spot) <==> spot.EmptyMax?
    ensures SettingsApplied in CommitNotices(v, spot) <==> v == App4 || spot.At?
  {
  }

  /** The quit sequence names each optional step exactly when its resource exists. */
  lemma QuitTraceSteps(doc: ConfigDoc, hadSettings: bool, hadTray: bool, hadLock: bool)
    ensures DestroySettings in QuitTrace(doc, hadSettings, hadTray, hadLock) <==> hadSettings
    ensures StopTray in QuitTrace(doc, hadSettings, hadTray, hadLock) <==> hadTray
    ensures RemoveLock in QuitTrace(doc, hadSettings, hadTray, hadLock) <==> hadLock
  {
  }

  class Clock {
    const variant: Variant
    /** `self.config`, the live document. */
    var config: ConfigDoc
    /** `self.position_x`, `self.position_y`: the last computed window corner. */
    var positionX: int
    var positionY: int
    /** `self.labels`, as the text each label shows. */
    var labels: Labels
    var settings: SettingsWindow
    var tray: Tray
    /** `self.running`, which keeps the tick re-arming. */
    var running: bool
    /** Whether the clock window is mapped (`deiconify`) or withdrawn. */
    var windowShown: bool
    /** Whether "App.lock" exists on disk. */
    var lockPresent: bool
    /** Set once the process has called `sys.exit`. */
    var exitCode: Option<int>
    ghost var effects: seq<Effect>

    ghost predicate Valid()
      reads this
    {
      Complete(config)
    }

    predicate Live()
      reads this
    {
      exitCode.None?
    }

    function Zones(): seq<ZoneDoc>
      reads this
      requires Valid()
    {
      config.timezones.value
    }

    function Visible(): bool
      reads this
      requires Valid()
    {
      config.visible.value
    }

    /** Where `update_position` would put the window for the current configuration. */
    function Target(m: Metrics): Spot
      reads this
      requires Valid()
    {
      Place(config.position.value, config.customX.value, config.customY.value, m, FontSizes(Zones()))
    }

    /** `__init__` (app3.py:23-62): load the configuration, build the labels,
        run the first tick, then start the tray with the matching toggle
        label. An exception escaping that first tick leaves `__init__`, and
        the program ends with a traceback (status 1) before the tray, the
        single-instance check or `mainloop` exist. The delayed first placement
        is the caller's first `UpdatePosition`. */
    constructor (variant: Variant, file: ConfigFile, lockPresent: bool, now: Now)
      ensures Valid() && this.variant == variant
      ensures config == LoadSpec(file)
      ensures positionX == 50 && positionY == 50
      ensures settings == NoWindow && running && windowShown
      ensures this.lockPresent == lockPresent
      ensures var t := RunTick(Zones(), LabelsFor(Zones()), now, variant.SkipsUnlabelled());
        labels == t.labels &&
        (t.completed ==> Live() && tray == TrayRunning(ToggleLabel(Visible())) && effects == LoadEffects(file)) &&
        (!t.completed ==> exitCode == Some(1) && tray == NoTray && effects == LoadEffects(file) + [Exit(1)])
    {
      this.variant := variant;
      var c, saved := LoadConfig(file);
      config := c;
      positionX, positionY := 50, 50;
      labels := LabelsFor(c.timezones.value);
      settings := NoWindow;
      running := true;
      windowShown := true;
      tray := NoTray;
      this.lockPresent := lockPresent;
      exitCode := None;
      effects := LoadEffects(file);
      new;
      Start(now);
    }

    /** The end of `__init__`: the first tick, then `setup_tray` if that tick
        did not raise; otherwise the process ends with status 1. */
    method Start(now: Now)
      requires Valid() && Live() && running && tray == NoTray
      modifies this`labels, this`effects, this`exitCode, this`tray
      ensures var t := RunTick(Zones(), old(labels), now, variant.SkipsUnlabelled());
        labels == t.labels &&
        (t.completed ==> Live() && tray == TrayRunning(ToggleLabel(Visible())) && effects == old(effects)) &&
        (!t.completed ==> exitCode == Some(1) && tray == NoTray && effects == old(effects) + [Exit(1)])
    {
      var next := UpdateTime(now);
      if next.None? {
        effects := effects + [Exit(1)];
        exitCode := Some(1);
        return;
      }
      tray := TrayRunning(ToggleLabel(Visible()));
    }

    method SaveConfig()
      modifies this`effects
      ensures effects == old(effects) + [Save(config)]
    {
      effects := effects + [Save(config)];
    }

    /** `update_time`: while running, set every zone's label and re-arm after
        1000 ms; an exception escaping the loop leaves the labels set so far
        and does not re-arm. */
    method UpdateTime(now: Now) returns (next: Option<int>)
      requires Valid() && Live()
      modifies this`labels
      ensures !running ==> labels == old(labels) && next == None
      ensures running ==>
        var t := RunTick(Zones(), old(labels), now, variant.SkipsUnlabelled());
        labels == t.labels && next == (if t.completed then Some(TickMillis) else None)
    {
      next := None;
      if !running {
        return;
      }
      var zs := Zones();
      var skip := variant.SkipsUnlabelled();
      var i := 0;
      while i < |zs|
        invariant 0 <= i <= |zs| && AllZonesComplete(zs[i..])
        invariant RunTick(zs[i..], labels, now, skip) == RunTick(zs, old(labels), now, skip)
      {
        var z := zs[i];
        var name := z.name.value;
        assert zs[i..][0] == z && zs[i..][1..] == zs[i + 1..];
        if name !in labels {
          if skip {
            i := i + 1;
            continue;
          }
          return;  // KeyError
        }
        match ZoneShown(z, now) {
          case Escaped =>
            return;
          case Text(t) =>
            labels := labels[name := t];
        }
        i := i + 1;
      }
      next := Some(TickMillis);
    }

    /** `update_position`: compute the corner, move the window there and
        remember it; `max()` of no font sizes raises instead. */
    method UpdatePosition(m: Metrics) returns (ok: bool)
      requires Valid()
      modifies this`positionX, this`positionY, this`effects
      ensures ok <==> Target(m).At?
      ensures ok ==> positionX == Target(m).x && positionY == Target(m).y &&
                     effects == old(effects) + [Move(positionX, positionY)]
      ensures !ok ==> positionX == old(positionX) && positionY == old(positionY) && effects == old(effects)
    {
      var spot := Target(m);
      if spot.EmptyMax? {
        return false;
      }
      effects := effects + [Move(spot.x, spot.y)];
      positionX, positionY := spot.x, spot.y;
      ok := true;
    }

    /** `add_timezone_dialog`: append a default zone named after the new count.
        The labels are not rebuilt. */
    method AddTimezoneDialog()
      requires Valid() && Live()
      modifies this`config
      ensures Valid()
      ensures config == old(config).(timezones := Some(old(Zones()) + [NewZone(variant, |old(Zones())| + 1)]))
    {
      var zs := Zones();
      config := config.(timezones := Some(zs + [NewZone(variant, |zs| + 1)]));
    }

    /** `remove_timezone`: drop the zone at `index` unless it is the last one,
        which is refused with a warning. */
    method RemoveTimezone(index: int) returns (warning: Option<Notice>)
      requires Valid() && Live()
      requires 0 <= index < |Zones()|
      modifies this`config
      ensures Valid()
      ensures config == old(config).(timezones := Some(RemoveZone(old(Zones()), index)))
      ensures warning == (if |old(Zones())| > 1 then None else Some(NeedOneZone))
    {
      var zs := Zones();
      if |zs| > 1 {
        config := config.(timezones := Some(zs[..index] + zs[index + 1..]));
        warning := None;
      } else {
        warning := Some(NeedOneZone);
      }
    }

    /** The assignments of `apply_settings`, field by field: a failed `int()`
        stops there and keeps what was already assigned. */
    method AssignForm(form: Form) returns (parsed: bool)
      requires Valid()
      modifies this`config
      ensures Valid()
      ensures var r := ApplyFields(old(config), form, positionX, positionY);
        config == r.config && parsed == r.parsed
    {
      config := config.(position := Some(form.position));
      var x := ParseInt(form.customX);
      if x.None? {
        return false;
      }
      config := config.(customX := Some(x.value));
      var y := ParseInt(form.customY);
      if y.None? {
        return false;
      }
      config := config.(customY := Some(y.value), positionX := Some(positionX), positionY := Some(positionY));
      var zs, ok := EditZones(config.timezones.value, form.zones);
      config := config.(timezones := Some(zs));
      parsed := ok;
    }

    /** The tail of `apply_settings` once every field parsed: re-place and save
        in the variant's order, with the messages. */
    method PlaceAndSave(m: Metrics) returns (notices: seq<Notice>)
      requires Valid()
      modifies this`positionX, this`positionY, this`effects
      ensures var spot := Target(m);
        (spot.At? ==> positionX == spot.x && positionY == spot.y) &&
        (spot.EmptyMax? ==> positionX == old(positionX) && positionY == old(positionY)) &&
        effects == old(effects) + CommitTrace(variant, spot, config) &&
        notices == CommitNotices(variant, spot)
    {
      if !variant.SavesBeforePlacing() {
        var placed := UpdatePosition(m);
        if !placed {
          return [InvalidInput];
        }
        SaveConfig();
        notices := [SettingsApplied];
      } else {
        SaveConfig();
        notices := [SettingsApplied];
        var placed := UpdatePosition(m);
        if !placed {
          notices := notices + [InvalidInput];
        }
      }
    }

    /** `apply_settings`: assign the form into the configuration; once
        everything parsed, rebuild the labels, then re-place and save. A
        failed `int()` leaves labels, position and file alone. */
    method ApplySettings(form: Form, m: Metrics) returns (notices: seq<Notice>)
      requires Valid() && Live()
      modifies this`config, this`labels, this`positionX, this`positionY, this`effects
      ensures Valid()
      ensures var r := ApplyFields(old(config), form, old(positionX), old(positionY));
        config == r.config &&
        (!r.parsed ==> labels == old(labels) && positionX == old(positionX) &&
                       positionY == old(positionY) && effects == old(effects) && notices == [InvalidInput]) &&
        (r.parsed ==> labels == LabelsFor(Zones()) &&
                      effects == old(effects) + [RebuildLabels] + CommitTrace(variant, Target(m), config) &&
                      notices == CommitNotices(variant, Target(m)))
      ensures ApplyFields(old(config), form, old(positionX), old(positionY)).parsed && Target(m).At? ==>
        positionX == Target(m).x && positionY == Target(m).y
      ensures Target(m).EmptyMax? ==> positionX == old(positionX) && positionY == old(positionY)
    {
      var parsed := AssignForm(form);
      if !parsed {
        return [InvalidInput];
      }
      labels := LabelsFor(Zones());
      effects := effects + [RebuildLabels];
      notices := PlaceAndSave(m);
    }

    /** `show_settings`: raise the existing window, or create the one window. */
    method ShowSettings()
      requires Valid() && Live()
      modifies this`settings, this`effects
      ensures settings == Shown
      ensures effects == old(effects) + (if old(settings) == NoWindow then [CreateSettings] else [])
    {
      if settings == NoWindow {
        effects := effects + [CreateSettings];
      }
      settings := Shown;
    }

    /** `minimize_settings_to_tray`: withdraw the window, keeping it. */
    method MinimizeSettingsToTray()
      requires Valid() && Live()
      modifies this`settings
      ensures settings == (if old(settings) == NoWindow then NoWindow else Withdrawn)
    {
      if settings != NoWindow {
        settings := Withdrawn;
      }
    }

    /** `close_settings`: destroy the window, if any. */
    method CloseSettings()
      requires Valid() && Live()
      modifies this`settings, this`effects
      ensures settings == NoWindow
      ensures effects == old(effects) + (if old(settings) != NoWindow then [DestroySettings] else [])
    {
      if settings != NoWindow {
        effects := effects + [DestroySettings];
        settings := NoWindow;
      }
    }

    /** `apply_and_close`: the window closes whether or not the apply succeeded. */
    method ApplyAndClose(form: Form, m: Metrics) returns (notices: seq<Notice>)
      requires Valid() && Live()
      modifies this`config, this`labels, this`positionX, this`positionY, this`effects, this`settings
      ensures Valid() && settings == NoWindow
      ensures var r := ApplyFields(old(config), form, old(positionX), old(positionY));
        var closing := if old(settings) != NoWindow then [DestroySettings] else [];
        config == r.config &&
        (!r.parsed ==> labels == old(labels) && positionX == old(positionX) && positionY == old(positionY) &&
                       effects == old(effects) + closing && notices == [InvalidInput]) &&
        (r.parsed ==> labels == LabelsFor(Zones()) &&
                      effects == old(effects) + [RebuildLabels] + CommitTrace(variant, Target(m), config) + closing &&
                      notices == CommitNotices(variant, Target(m)) &&
                      (Target(m).At? ==> positionX == Target(m).x && positionY == Target(m).y) &&
                      (Target(m).EmptyMax? ==> positionX == old(positionX) && positionY == old(positionY)))
    {
      notices := ApplySettings(form, m);
      CloseSettings();
    }

    /** Rebuild the tray menu with the label for the current visibility. */
    method RefreshMenu()
      requires Valid()
      modifies this`tray
      ensures tray == (if old(tray).TrayRunning? then TrayRunning(ToggleLabel(Visible())) else old(tray))
    {
      if tray.TrayRunning? {
        tray := TrayRunning(ToggleLabel(Visible()));
      }
    }

    /** `toggle_visibility`: flip `visible`, map or withdraw the window, save,
        and relabel the tray item. app4 re-places the window before saving; if
        that raises, the save and the menu update do not happen. */
    method ToggleVisibility(m: Metrics) returns (ok: bool)
      requires Valid() && Live()
      modifies this`config, this`windowShown, this`positionX, this`positionY, this`effects, this`tray
      ensures Valid()
      ensures config == old(config).(visible := Some(!old(Visible())))
      ensures windowShown == Visible()
      ensures !variant.PlacesOnToggle() ==>
        ok && positionX == old(positionX) && positionY == old(positionY) &&
        effects == old(effects) + [Save(config)]
      ensures variant.PlacesOnToggle() ==>
        ok == Target(m).At? &&
        (ok ==> positionX == Target(m).x && positionY == Target(m).y &&
                effects == old(effects) + [Move(positionX, positionY), Save(config)]) &&
        (!ok ==> positionX == old(positionX) && positionY == old(positionY) &&
                 effects == old(effects) && tray == old(tray))
      ensures ok ==> tray == (if old(tray).TrayRunning? then TrayRunning(ToggleLabel(Visible())) else old(tray))
    {
      config := config.(visible := Some(!Visible()));
      windowShown := Visible();
      ok := true;
      if variant.PlacesOnToggle() {
        ok := UpdatePosition(m);
        if !ok {
          return;
        }
      }
      SaveConfig();
      RefreshMenu();
    }

    /** `hide_window`, the window's close button: always hidden afterwards. */
    method HideWindow()
      requires Valid() && Live()
      modifies this`config, this`windowShown, this`effects, this`tray
      ensures Valid()
      ensures config == old(config).(visible := Some(false)) && !windowShown
      ensures effects == old(effects) + [Save(config)]
      ensures tray == (if old(tray).TrayRunning? then TrayRunning("Show Clock") else old(tray))
    {
      config := config.(visible := Some(false));
      windowShown := false;
      SaveConfig();
      RefreshMenu();
    }

    /** `check_single_instance`: exit with status 0 if the lock file exists,
        without creating it; otherwise create it. */
    method CheckSingleInstance()
      requires Valid() && Live()
      modifies this`lockPresent, this`exitCode, this`effects
      ensures lockPresent
      ensures old(lockPresent) ==> exitCode == Some(0) && effects == old(effects) + [Exit(0)]
      ensures !old(lockPresent) ==> Live() && effects == old(effects) + [CreateLock]
    {
      if lockPresent {
        effects := effects + [Exit(0)];
        exitCode := Some(0);
      } else {
        effects := effects + [CreateLock];
        lockPresent := true;
      }
    }

    /** `cleanup`: remove the lock file if it exists. */
    method Cleanup()
      modifies this`lockPresent, this`effects
      ensures !lockPresent
      ensures effects == old(effects) + (if old(lockPresent) then [RemoveLock] else [])
    {
      if lockPresent {
        effects := effects + [RemoveLock];
        lockPresent := false;
      }
    }

    /** The first part of `quit_app`: stop the tick, save, close the settings
        window and stop the tray. */
    method CloseForQuit()
      modifies this`running, this`effects, this`settings, this`tray
      ensures !running && settings == NoWindow
      ensures tray == (if old(tray) == NoTray then NoTray else TrayHalted)
      ensures effects == old(effects) + CloseTrace(config, old(settings) != NoWindow, old(tray) != NoTray)
    {
      running := false;
      effects := effects + [StopTicks, Save(config)];
      if settings != NoWindow {
        effects := effects + [DestroySettings];
        settings := NoWindow;
      }
      if tray != NoTray {
        effects := effects + [StopTray];
        tray := TrayHalted;
      }
    }

    /** `quit_app`: stop the tick, save, close the settings window, stop the
        tray, remove the lock, destroy the window and exit, in that order. */
    method QuitApp()
      requires Valid() && Live()
      modifies this`running, this`effects, this`settings, this`tray, this`lockPresent,
               this`windowShown, this`exitCode
      ensures Valid() && config == old(config)
      ensures !running && settings == NoWindow && !lockPresent && !windowShown && exitCode == Some(0)
      ensures tray == (if old(tray) == NoTray then NoTray else TrayHalted)
      ensures effects == old(effects) + QuitTrace(config, old(settings) != NoWindow, old(tray) != NoTray, old(lockPresent))
    {
      ghost var start := effects;
      ghost var closing := CloseTrace(config, settings != NoWindow, tray != NoTray);
      ghost var removal: seq<Effect> := if lockPresent then [RemoveLock] else [];
      CloseForQuit();
      Cleanup();
      assert effects == start + closing + removal;
      effects := effects + [DestroyWindow, Exit(0)];
      assert effects == start + (closing + removal + [DestroyWindow, Exit(0)]);
      windowShown := false;
      exitCode := Some(0);
    }

    /** `run`: the instance check, then hide the window if the configuration
        says so; `interrupted` is a KeyboardInterrupt out of the main loop,
        which quits. */
    method Run(interrupted: bool)
      requires Valid() && Live()
      modifies this`running, this`effects, this`settings, this`tray, this`lockPresent,
               this`windowShown, this`exitCode
      ensures Valid() && config == old(config)
      ensures old(lockPresent) ==>
        exitCode == Some(0) && lockPresent && effects == old(effects) + [Exit(0)] &&
        windowShown == old(windowShown) && running == old(running) &&
        settings == old(settings) && tray == old(tray)
      ensures !old(lockPresent) && !interrupted ==>
        Live() && lockPresent && effects == old(effects) + [CreateLock] &&
        windowShown == (old(windowShown) && Visible()) && running == old(running) &&
        settings == old(settings) && tray == old(tray)
      ensures !old(lockPresent) && interrupted ==>
        exitCode == Some(0) && !lockPresent && !running && !windowShown && settings == NoWindow &&
        tray == (if old(tray) == NoTray then NoTray else TrayHalted) &&
        effects == old(effects) + [CreateLock] +
                   QuitTrace(config, old(settings) != NoWindow, old(tray) != NoTray, true)
    {
      CheckSingleInstance();
      if !Live() {
        return;
      }
      if !Visible() {
        windowShown := false;
      }
      if interrupted {
        QuitApp();
      }
    }
  }

  lemma OnlyLocal()
    ensures Names([DefaultZone]) == {"Local"}
  {
    forall n | n in Names([DefaultZone]) ensures n == "Local" {
      var i :| 0 <= i < 1 && [DefaultZone][i].name.value == n;
    }
    assert [DefaultZone][0].name.value == "Local";
  }

  /** What an app3 user sees after "Add Timezone": the fresh zone, named
      "Timezone 2", has no label, so the very next tick stops with a KeyError
      and the clock never re-arms, whatever the time functions do. */
  lemma App3AddStopsTheClock(now: Now)
    ensures var before := [DefaultZone];
      var after := before + [NewZone(App3, |before| + 1)];
      !RunTick(after, LabelsFor(before), now, App3.SkipsUnlabelled()).completed
  {
    var before := [DefaultZone];
    var added := NewZone(App3, 2);
    var after := before + [added];
    assert NameOf(added) != "Local" by {
      assert NameOf(added)[0] == 'T';
    }
    OnlyLocal();
    TickCompletesIff(after, LabelsFor(before), now, false);
    assert !Handled(after[1], LabelsFor(before).Keys, now, false);
  }

  /** Any zone without a label stops the app3 tick. */
  lemma UnlabelledZoneStopsApp3(zs: seq<ZoneDoc>, labels: Labels, now: Now, k: nat)
    requires AllZonesComplete(zs) && k < |zs| && NameOf(zs[k]) !in labels
    ensures !RunTick(zs, labels, now, App3.SkipsUnlabelled()).completed
  {
    TickCompletesIff(zs, labels, now, false);
    assert !Handled(zs[k], labels.Keys, now, false);
  }

  /** The intended behaviour, app4's skip: a zone appended without a label
      changes neither whether the tick re-arms nor any label. */
  lemma {:induction false} AppendedUnlabelledZoneIgnored(zs: seq<ZoneDoc>, z: ZoneDoc, labels: Labels, now: Now)
    requires AllZonesComplete(zs) && ZoneComplete(z) && NameOf(z) !in labels
    ensures AllZonesComplete(zs + [z])
    ensures RunTick(zs + [z], labels, now, App4.SkipsUnlabelled()) == RunTick(zs, labels, now, App4.SkipsUnlabelled())
    decreases |zs|
  {
    var all := zs + [z];
    assert forall i :: 0 <= i < |all| ==> all[i] == (if i < |zs| then zs[i] else z);
    if zs == [] {
      assert all == [z] && all[1..] == [];
    } else {
      TailComplete(zs);
      assert all[0] == zs[0] && all[1..] == zs[1..] + [z];
      var name := NameOf(zs[0]);
      if name !in labels {
        AppendedUnlabelledZoneIgnored(zs[1..], z, labels, now);
      } else if ZoneShown(zs[0], now).Text? {
        var next := labels[name := ZoneShown(zs[0], now).text];
        AppendedUnlabelledZoneIgnored(zs[1..], z, next, now);
      }
    }
  }

  /** The same scenario under app4: after "Add Timezone" the tick re-arms
      exactly when it would have without the new zone. */
  lemma App4AddKeepsTheClock(now: Now)
    ensures var before := [DefaultZone];
      var after := before + [NewZone(App4, |before| + 1)];
      RunTick(after, LabelsFor(before), now, App4.SkipsUnlabelled()) ==
      RunTick(before, LabelsFor(before), now, App4.SkipsUnlabelled())
  {
    var before := [DefaultZone];
    var added := NewZone(App4, 2);
    assert NameOf(added) != "Local" by {
      assert NameOf(added)[0] == 'T';
    }
    OnlyLocal();
    AppendedUnlabelledZoneIgnored(before, added, LabelsFor(before), now);
  }

  /** Removing keeps "at least one zone": a list that had one still has one. */
  lemma RemoveKeepsOneZone(zs: seq<ZoneDoc>, index: int)
    requires 0 <= index < |zs|
    ensures |RemoveZone(zs, index)| >= 1
    ensures |zs| == 1 ==> RemoveZone(zs, index) == zs
  {
  }

  /** Toggling twice from the tray restores the saved configuration and the
      window's mapping, and leaves the menu label where it started; each
      toggle that gets past app4's re-placement saves once. */
  method ToggleTwiceRestores(c: Clock, m: Metrics)
    requires c.Valid() && c.Live()
    modifies c
    ensures c.Valid() && c.config == old(c.config) && c.windowShown == old(c.Visible())
    ensures var once := old(c.config).(visible := Some(!old(c.Visible())));
      !c.variant.PlacesOnToggle() ==>
        c.positionX == old(c.positionX) && c.positionY == old(c.positionY) &&
        c.effects == old(c.effects) + [Save(once), Save(old(c.config))] &&
        c.tray == old(if c.tray.TrayRunning? then TrayRunning(ToggleLabel(c.Visible())) else c.tray)
    ensures var once := old(c.config).(visible := Some(!old(c.Visible())));
      var spot := old(c.Target(m));
      c.variant.PlacesOnToggle() ==>
        (spot.At? ==> c.positionX == spot.x && c.positionY == spot.y &&
                      c.effects == old(c.effects) + [Move(spot.x, spot.y), Save(once),
                                                      Move(spot.x, spot.y), Save(old(c.config))] &&
                      c.tray == old(if c.tray.TrayRunning? then TrayRunning(ToggleLabel(c.Visible())) else c.tray)) &&
        (!spot.At? ==> c.positionX == old(c.positionX) && c.positionY == old(c.positionY) &&
                       c.effects == old(c.effects) && c.tray == old(c.tray))
  {
    var first := c.ToggleVisibility(m);
    var second := c.ToggleVisibility(m);
  }
}
