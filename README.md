# Windows tray clock — a Dafny model

Windows-TrayClock is a small desktop clock written in Python with Tk, pytz
and pystray. It comes in three versions, and this project models all three:

- `app3.py` and `app4.py` are the tray clock. A borderless window shows one
  label per configured time zone and sits at a screen corner or at custom
  coordinates. A tray icon opens a settings window, toggles the clock and
  quits. The configuration lives in a JSON file. At most one instance runs,
  guarded by a lock file.
- `app2.py` is the earlier single-window world clock. It shows a grid of
  pytz zones with controls to add and remove them. As written, every add or
  remove after start-up raises while tearing down the old grid, and the
  clock then stops (see "## Findings"). The model has this teardown and a
  repaired one.

The tray clock is modelled once, as the class `DesktopClock.Clock`. A
`Variant` (`App3` or `App4`) selects the four places where the two files
differ:

- the prefix of a new zone's name;
- what the tick does with a zone that has no label;
- whether toggling visibility re-places the window;
- the order of save and re-placement in `apply_settings`.

The modules follow the program's parts:

- `Wrappers`: `Option`.
- `ZoneFormat`: the text one label shows. It covers the fallback from the
  zone's own time to local time in the default pattern, then to `"Error"`.
  `strftime` and `pytz` are the two functions of a `Now` value. Either can
  raise `ValueError`, `UnknownTimeZoneError` or some other error.
- `IntText`: Python's `int()` on a text field (surrounding whitespace, an
  optional sign, ASCII digits) and the `str()` that fills the field. A round
  trip is proved.
- `ConfigStore`: the JSON document with its optional keys. Unknown keys are
  kept in `extra`. It covers filling in missing keys from the defaults, and
  `load_config` for a missing, malformed or parsed file.
- `Placement`: the window corner `update_position` computes. This includes
  the size estimate used when Tk reports no size, and the `ValueError` that
  `max()` raises on an empty zone list.
- `Refresh`: one pass of `update_time` over the zones. Labels are keyed by
  zone name. The pass either re-arms the 1000 ms timer or is left part way
  by an exception.
- `SettingsApply`: the field-by-field assignments of `apply_settings`. They
  are not atomic: a failed `int()` keeps everything assigned before it.
- `DesktopClock`: the application object.
  - Its fields are the attributes the source updates.
  - Each method models one of the source's methods.
  - A ghost `effects` trace records what the object does to the outside, in
    order: saves, window moves, label rebuilds, lock-file changes, exit.
- `WorldClock`: the `app2.py` class, covering its zone list, its frames with
  their grid cells, and its tick. A `Teardown` value selects the rebuild as
  written or the repaired one.

## Model

| member | source | states |
|---|---|---|
| ZoneFormat.Fallback | app3.py:160-166 | the fallback label: local time in the fixed default pattern, or "Error" when that call raises too (properties in ZoneTextCases and ErrorOnlyWhenBothFail) |
| ZoneFormat.ZoneTextCases | app3.py:148-166 | one zone escapes the tick exactly when its own formatting raised a fault other than ValueError or UnknownTimeZoneError; otherwise its label is its own time, the local default, or "Error" |
| ZoneFormat.UnknownZoneFallsBack | app3.py:154-162 | an unknown zone id never stops the clock: the label shows local time in the default pattern |
| ZoneFormat.ErrorOnlyWhenBothFail | app3.py:158-166 | "Error" is shown only when the zone's own attempt and the fallback both failed, or the zone's own time really reads "Error" |
| ZoneFormat.Primary | app3.py:149-155 | the first attempt for a zone: local time for the id "local", that zone's time otherwise, in the zone's own pattern (properties in ZoneTextCases) |
| ZoneFormat.ZoneText | app3.py:148-166 | the text one zone's label gets, or an escape, by the fallback ladder (properties in ZoneTextCases, UnknownZoneFallsBack and ErrorOnlyWhenBothFail) |
| IntText.ParseShowRoundTrip | app3.py:307-311 | `int(str(n)) == n` for every integer, so a number shown in an entry and read back is unchanged |
| IntText.NonNumericRejected | app3.py:538 | text (after stripping) whose first character is neither a digit nor a sign makes `int()` fail |
| IntText.NatToStringValue | app3.py:307 | the decimal digits `str()` writes for a natural number denote that number |
| IntText.TrimStartShape | app3.py:538 | the leading strip that `int()` applies removes only blanks and leaves a suffix that is empty or starts with a non-blank |
| IntText.TrimEndShape | app3.py:538 | the trailing strip removes only blanks and leaves a prefix that is empty or ends with a non-blank |
| IntText.StripShape | app3.py:538 | the stripped text is a slice of the input cut only at blanks, and neither starts nor ends with one |
| IntText.Strip | app3.py:538 | the blanks `int()` ignores at both ends (properties in StripShape) |
| IntText.ParseInt | app3.py:538-550 | `int()` of a text field: a stripped optional sign and at least one ASCII digit, otherwise a `ValueError` (properties in ParseShowRoundTrip, NonNumericRejected and SeparatorNotStripped) |
| IntText.IntToString | app3.py:307-311 | `str()` of an integer: a minus sign for a negative number, then its decimal digits (properties in ParseShowRoundTrip and NatToStringValue) |
| IntText.SeparatorNotStripped | app3.py:538 | an ASCII separator such as U+001C in front of the digits is not stripped and makes `int()` fail |
| ConfigStore.FillZone | app3.py:111-114 | a zone after backfill has every required key; keys it had keep their values, missing ones take the default zone's value, and unknown keys are kept |
| ConfigStore.FillTop | app3.py:107-109 | the document after backfill has every top-level key; present keys keep their values and missing ones take the defaults |
| ConfigStore.FillZoneKeys | app3.py:111-114 | the keys of a back-filled zone are exactly its own keys plus the required zone keys |
| ConfigStore.FillTopKeys | app3.py:107-109 | the keys of a back-filled document are exactly its own keys plus the required top-level keys |
| ConfigStore.BackfillZones | app3.py:111-114 | the loop over the zone list fills each zone in place, position by position |
| ConfigStore.LoadConfig | app3.py:82-120 | loading always yields a complete document: the backfilled file, or the defaults (saved once) when the file is missing or malformed |
| ConfigStore.BackfillKeys | app3.py:103-114 | backfilling adds exactly the missing required keys at both levels and makes the document complete |
| ConfigStore.BackfillZoneList | app3.py:111-114 | backfilling keeps the number and order of zones and the unknown top-level keys |
| ConfigStore.BackfillKeepsEmptyList | app3.py:111 | an empty "timezones" list is loaded as it is, not replaced by the default zone |
| ConfigStore.FillZoneOfComplete | app3.py:112-114 | a zone with every key is left unchanged |
| ConfigStore.BackfillOfComplete | app3.py:107-114 | a complete document is left unchanged |
| ConfigStore.BackfillIdempotent | app3.py:107-114 | loading the file written after a load changes nothing more |
| ConfigStore.DefaultsOnBadFile | app3.py:115-120 | a missing or malformed file gives the default document (top-left, one "Local" zone), and that document is saved |
| ConfigStore.FillZones | app3.py:111-114 | every zone of the list back-filled in order (properties in FillZone and BackfillZoneList) |
| ConfigStore.Backfill | app3.py:103-114 | the top-level back-fill, then every zone of the resulting list (properties in BackfillKeys, BackfillIdempotent and BackfillOfComplete) |
| ConfigStore.LoadSpec | app3.py:82-120 | the configuration after loading: the back-filled document, or the defaults for a missing or malformed file (properties in LoadConfig and DefaultsOnBadFile) |
| ConfigStore.LoadSaves | app3.py:115-120 | loading saves the defaults once exactly when it fell back to them (properties in LoadConfig) |
| Placement.Max | app3.py:193 | `max()` of the font sizes is one of them and at least every other |
| Placement.TruncTenth | app3.py:195 | `int()` of a tenth truncates toward zero |
| Placement.CornerMargins | app3.py:198-210 | each named corner keeps the window 10 px from the side edges and 40 px above the bottom; center leaves equal gaps up to a pixel; an unknown mode gives (50, 50) |
| Placement.CustomIgnoresMetrics | app3.py:174-175 | custom mode places at the stored coordinates whatever the screen and the content |
| Placement.EstimateRule | app3.py:189-196 | placement fails exactly when it must estimate the size of an empty zone list; an estimate ignores the unusable measured size |
| Placement.EstimateSize | app3.py:193-195 | the estimated width is 6.6 times the largest font size, truncated |
| Placement.SumOfPositiveAtLeastCount | app3.py:194 | the estimated height is at least 3 px per zone with a positive font size |
| Placement.WorkedExample | app3.py:202-208 | the five corners and the custom mode on a 1920x1080 screen for a 200x80 window |
| Placement.Corner | app3.py:198-210 | the corner table and its (50, 50) default (properties in CornerMargins) |
| Placement.EstimatedWidth | app3.py:193-195 | the estimated width from the largest font size (properties in EstimateSize) |
| Placement.EstimatedHeight | app3.py:194-196 | the estimated height from the sum of font sizes (properties in SumOfPositiveAtLeastCount) |
| Placement.Place | app3.py:170-210 | the spot `update_position` computes: custom coordinates, a corner for the measured or estimated size, or the `ValueError` of `max()` (properties in EstimateRule and CustomIgnoresMetrics) |
| Refresh.LabelsFor | app3.py:64-80 | the label map that `create_timezone_labels` builds: one empty label per distinct zone name (properties in LabelledOfNamed and FreshLabelsVariantsAgree) |
| Refresh.LabelledOfNamed | app4.py:130-131 | when every zone's name has a label, such as right after the labels are rebuilt, app4's skip keeps every zone |
| Refresh.TickKeepsLabelSet | app3.py:143-168 | a tick changes label texts only and never adds or removes a label |
| Refresh.TickCompletesIff | app3.py:143-168 | the tick re-arms exactly when every zone is handled: labelled and not escaping, or unlabelled and skipped |
| Refresh.TickLeavesOtherNames | app3.py:146-166 | a label whose name no zone has keeps its text |
| Refresh.TickShowsOwnTime | app3.py:146-166 | after a completed tick each zone's label shows that zone's own text; a name shared by several zones shows the last of them |
| Refresh.SkipIsStrictOverLabelled | app4.py:126-148 | the app4 tick is the app3 tick over the labelled zones only: an unlabelled zone has no effect at all |
| Refresh.FreshLabelsVariantsAgree | app4.py:130-131 | right after the labels are rebuilt, the two variants' ticks agree |
| Refresh.ZoneShown | app3.py:148-166 | the fallback ladder for one configured zone (properties in ZoneFormat.ZoneTextCases) |
| Refresh.RunTick | app3.py:143-168 | one pass over the zones, setting each label as its text is known, skipping or failing on a zone without a label (properties in TickCompletesIff, TickShowsOwnTime and TickKeepsLabelSet) |
| SettingsApply.EditZone | app3.py:547-552 | one row of the loop: applied in full when its font size parses, else only name, zone id and font family (properties in ZonesAppliedWhenParsed, StopsAtFirstBadRow and ZoneAfterFailure) |
| SettingsApply.ApplyZonesFrom | app3.py:544-552 | the zone loop keeps the number of zones and their completeness |
| SettingsApply.ApplyFields | app3.py:535-552 | the assignments keep the document complete and the zone count unchanged |
| SettingsApply.RowlessZonesUntouched | app3.py:545 | a zone with no row in the form is never changed |
| SettingsApply.ZonesParsedIff | app3.py:544-552 | the zone loop finishes exactly when every row's font size parses |
| SettingsApply.ZonesAppliedWhenParsed | app3.py:547-552 | when the loop finishes, every zone with a row holds exactly that row's values |
| SettingsApply.FailureLocated | app3.py:550 | a failed loop failed at a first bad font size |
| SettingsApply.StopsAtFirstBadRow | app3.py:550-552 | at the first bad font size the loop stops with that zone holding only its new name, zone id and font family |
| SettingsApply.AppliedBeforeFirstBadRow | app3.py:547-552 | every row in front of the first bad one is fully applied |
| SettingsApply.UntouchedAfterFirstBadRow | app3.py:544-552 | the zones past the first bad row are never reached and keep their values |
| SettingsApply.ZoneAfterFailure | app3.py:544-552 | at a first bad row k: rows before k are applied, zone k has only its first three fields assigned, and every other zone is untouched |
| SettingsApply.PositionAlwaysCommitted | app3.py:537 | the position mode is assigned whatever fails later |
| SettingsApply.BadCoordinateStopsEarly | app3.py:537-539 | a bad custom coordinate stops the apply with the zones, visibility and stored position untouched |
| SettingsApply.ApplyParsedIff | app3.py:535-552 | the apply reaches the rebuild, placement and save exactly when both coordinates and every row's font size parse |
| SettingsApply.SeededZonesUnchanged | app3.py:402-429 | rows exactly as the settings list shows them apply back to the same zones |
| SettingsApply.UnchangedFormIsIdentity | app3.py:533-552 | applying the form as it was opened changes only the stored copy of the window position |
| SettingsApply.PartialEdit | app3.py:547-549 | the three fields assigned before the font size is parsed (properties in EditZone and StopsAtFirstBadRow) |
| SettingsApply.FullEdit | app3.py:547-552 | the row applied in full (properties in EditZone and ZonesAppliedWhenParsed) |
| SettingsApply.SeedZone | app3.py:402-429 | the row the settings list shows for a zone (properties in SeededZonesUnchanged) |
| SettingsApply.SeedForm | app3.py:278-312 | the form the settings window opens with (properties in UnchangedFormIsIdentity) |
| DesktopClock.NewZone | app3.py:450-461 | "Add Timezone" appends the default zone named "Timezone n" (app3) or "Time n" (app4), where n is the new count |
| DesktopClock.ToggleLabel | app3.py:242 | the tray item's text for a visibility (properties in the `TrayRunning(ToggleLabel(Visible()))` clauses of Clock.constructor, Clock.RefreshMenu, Clock.HideWindow and ToggleTwiceRestores) |
| DesktopClock.FontSizes | app3.py:193 | the font sizes the estimate uses, one per zone in order |
| DesktopClock.RemoveZone | app3.py:463-469 | removing pops the zone at the index when more than one zone remains, keeping the others in order, and otherwise keeps the list |
| DesktopClock.EditZones | app3.py:544-552 | the zone loop, row by row, computes exactly the non-atomic zone edits |
| DesktopClock.QuitTrace | app3.py:629-644 | the quit sequence starts with stopping the tick and saving and ends with destroying the window and exiting |
| DesktopClock.SavedIffPlacedOrApp4 | app3.py:555-559 | after parsing, app3 saves and says "applied" only if placement succeeded; app4 always does both, and an error message appears only when placement failed |
| DesktopClock.QuitTraceSteps | app3.py:634-641 | quitting closes the settings window, stops the tray and removes the lock exactly when each exists |
| DesktopClock.LoadEffects | app3.py:115-120 | the save `load_config` makes when it falls back to the defaults (used by the constructor's contract) |
| DesktopClock.CloseTrace | app3.py:631-640 | the first part of quitting, before `cleanup` (properties in QuitTraceSteps and CloseForQuit) |
| DesktopClock.CommitNotices | app3.py:555-561 | the messages after a parsed apply, by variant and placement (properties in SavedIffPlacedOrApp4) |
| DesktopClock.CommitTrace | app3.py:553-559 | the move and save after a parsed apply, in the variant's order (properties in SavedIffPlacedOrApp4) |
| DesktopClock.Clock.Target | app3.py:170-210 | where `update_position` would put the window for the current configuration (used by UpdatePosition and ApplySettings) |
| DesktopClock.Clock.constructor | app3.py:23-62 | start-up loads the configuration, builds one label per zone, places at (50, 50) and runs the first tick; when that tick completes the tray starts, its item labelled by the loaded visibility; when it escapes, start-up ends with status 1 and no tray |
| DesktopClock.Clock.Start | app3.py:52-59 | the first tick sets the labels as the zone-by-zone run specifies; the tray is set up only if that tick completed, and an escape ends the process with status 1 |
| DesktopClock.Clock.SaveConfig | app3.py:122-128 | saving writes the current document |
| DesktopClock.Clock.UpdateTime | app3.py:143-168 | the tick sets the labels as the zone-by-zone run specifies and re-arms after 1000 ms exactly when that run completes; a stopped clock does nothing |
| DesktopClock.Clock.UpdatePosition | app3.py:170-216 | the window moves to the computed corner and remembers it; an empty zone list with no measured size raises and changes nothing |
| DesktopClock.Clock.AddTimezoneDialog | app3.py:450-461 | the new zone is appended and the labels are not rebuilt |
| DesktopClock.Clock.RemoveTimezone | app3.py:463-469 | the zone at the index is removed, or a warning is shown when it is the only one |
| DesktopClock.Clock.AssignForm | app3.py:535-552 | the form is assigned field by field as the non-atomic specification says |
| DesktopClock.Clock.PlaceAndSave | app4.py:465-471 | after a parsed form, placement and save run in the variant's order with the matching messages |
| DesktopClock.Clock.ApplySettings | app3.py:533-562 | a failed parse keeps the partial assignments but leaves labels, position and file alone; a parsed form rebuilds the labels, then places and saves |
| DesktopClock.Clock.ShowSettings | app3.py:253-262 | the one settings window is created on first use and raised afterwards |
| DesktopClock.Clock.MinimizeSettingsToTray | app3.py:569-572 | closing the settings window only withdraws it |
| DesktopClock.Clock.CloseSettings | app3.py:574-578 | Cancel destroys the settings window if there is one |
| DesktopClock.Clock.ApplyAndClose | app3.py:564-567 | OK has exactly the outcomes of the apply (configuration, labels, position, effects and messages, for a failed and for a parsed form), then destroys the settings window if one is open, whether or not the apply succeeded |
| DesktopClock.Clock.RefreshMenu | app3.py:591-599 | a running tray's item is relabelled for the current visibility |
| DesktopClock.Clock.ToggleVisibility | app4.py:486-503 | visibility flips and the window follows; app3 saves, while app4 first re-places the window, and if that raises it neither saves nor relabels and leaves the position and the trace unchanged |
| DesktopClock.Clock.HideWindow | app3.py:601-615 | the close button hides the clock, saves, and sets the tray item to "Show Clock" |
| DesktopClock.Clock.CheckSingleInstance | app3.py:618-623 | an existing lock file exits with status 0; otherwise the lock is created |
| DesktopClock.Clock.Cleanup | app3.py:625-627 | cleanup removes the lock file if present |
| DesktopClock.Clock.QuitApp | app3.py:629-644 | quitting stops the tick, saves, closes what is open, removes the lock, destroys the window and exits with 0, in that order |
| DesktopClock.Clock.CloseForQuit | app3.py:631-640 | the first part of quitting stops the tick, saves, destroys the settings window if there is one and stops the tray if there is one, in that order |
| DesktopClock.Clock.Run | app3.py:646-655 | a second instance exits with status 0 and changes nothing else; otherwise the lock is taken, a hidden configuration withdraws the window, and an interrupt quits with the full quit sequence; each case states the running flag, the settings window and the tray |
| DesktopClock.App3AddStopsTheClock | app3.py:450-461 | in app3, from the default configuration, one "Add Timezone" makes the next tick fail and the clock stop |
| DesktopClock.UnlabelledZoneStopsApp3 | app3.py:157 | any zone without a label stops the app3 tick |
| DesktopClock.AppendedUnlabelledZoneIgnored | app4.py:130-131 | with app4's skip, an appended zone without a label changes neither the labels nor whether the tick re-arms |
| DesktopClock.App4AddKeepsTheClock | app4.py:387-397 | in app4, after "Add Timezone" the tick behaves exactly as it did without the new zone |
| DesktopClock.RemoveKeepsOneZone | app3.py:464-469 | removal never leaves a non-empty list empty, and a single zone is kept |
| DesktopClock.ToggleTwiceRestores | app3.py:580-599 | two tray toggles restore the configuration, the window mapping and the menu label; app3 saves twice, first the flipped and then the original document; app4 also moves to the same corner before each save, and when placement raises nothing but the flag changes, and back |
| WorldClock.Cell | app2.py:106 | frame i sits at row i // 2, column i % 2 |
| WorldClock.FreshFrame | app2.py:104-127 | the frame built for one zone at one position (properties in FreshFrames, FreshTickMeaning and AddedZoneGetsFreeCell) |
| WorldClock.WeightedRowsFor | app2.py:130-131 | the weighted rows are the first (n + 1) // 2 |
| WorldClock.Without | app2.py:91 | `list.remove` takes one element out of a list that has it and leaves any other list unchanged |
| WorldClock.WithoutRemoves | app2.py:89-92 | removal from a duplicate-free list removes the zone altogether, keeps all others and keeps the list duplicate-free |
| WorldClock.InitialZonesDistinct | app2.py:16 | the four initial zones are pairwise different |
| WorldClock.FirstIndex | app2.py:91 | the position `list.remove` cuts at is the first one holding the zone |
| WorldClock.WithoutCutsFirst | app2.py:91 | the result is the list with that one position cut out, the rest in order |
| WorldClock.AddDecision | app2.py:81-87 | a zone is appended exactly when it is non-empty, known and unlisted; a listed zone gets the info message and anything else the error |
| WorldClock.FrameShown | app2.py:137-148 | one live frame's text: the zone in the configured format, else local time in the fixed format, else an escape (properties in FallbackOnlyOnError) |
| WorldClock.FrameStep | app2.py:136-148 | one frame's `try` block, where a dead label always escapes (properties in DeadFrameStops) |
| WorldClock.TickFrames | app2.py:135-151 | the frames after one tick and whether it completed (properties in TickFramesMeaning and FreshTickMeaning) |
| WorldClock.TickFramesMeaning | app2.py:135-151 | a tick changes only label texts, sets each frame it reaches to its text, and re-arms exactly when every frame is live and no fallback raised |
| WorldClock.FallbackOnlyOnError | app2.py:137-148 | the zone's own time is shown when it formats; otherwise local time in the default pattern; the tick escapes only when both raise |
| WorldClock.CellsDistinct | app2.py:106 | two frames never share a cell |
| WorldClock.CellRowWeighted | app2.py:106 | every frame's row is a weighted row |
| WorldClock.WeightedRowOccupied | app2.py:130-131 | every weighted row holds a frame |
| WorldClock.AddedZoneGetsFreeCell | app2.py:102-131 | with the repaired teardown, an appended zone keeps the list duplicate-free, gets a cell no earlier frame holds, in a row the rebuild weights, and the earlier zones are rebuilt exactly as before |
| WorldClock.WorldClockApp.constructor | app2.py:8-22 | the window opens with UTC, New York, London and Tokyo, the default pattern, a 1000 ms interval, one new frame per zone and weight on their rows; the first tick has run over those frames, and when it escaped start-up ended with status 1 |
| WorldClock.WorldClockApp.UpdateTimezoneDisplays | app2.py:94-133 | every frame widget is destroyed first; the as-written teardown then raises exactly when old entries exist, keeping them dead and building nothing; otherwise one new frame per zone is built in list order and the rows in use gain weight (weights never go away) |
| WorldClock.WorldClockApp.AddTimezone | app2.py:79-87 | a known, unlisted zone is appended and the rebuild runs, raising as written whenever frames exist; a listed zone gets the info message, anything else the error, and then nothing changes |
| WorldClock.WorldClockApp.RemoveTimezone | app2.py:89-92 | the zone is gone from the list and the rebuild runs, raising as written whenever frames exist; an unlisted zone changes nothing |
| WorldClock.WorldClockApp.UpdateTime | app2.py:135-151 | the tick sets the labels as specified, and it re-arms after `update_interval`, recording that a tick is pending, exactly when it completes |
| WorldClock.SetLabels | app2.py:136-148 | the frame loop sets each label as soon as its text is known, so an escaping exception leaves the earlier labels set |
| WorldClock.FreshFrames | app2.py:102-127 | the rebuilt frames line up with the zone list (same order, own cell, remove button unless "UTC", widgets alive) and show no time yet (properties also in FreshTickMeaning and AddedZoneGetsFreeCell) |
| WorldClock.Orphaned | app2.py:95-97 | destroying every child of the grid leaves any non-empty set of entries stale: all still there, none with a live widget (properties in DeadFrameStops) |
| WorldClock.TickStep | app2.py:136-148 | one step of the tick: an escape ends it with the remaining frames as they were, and a computed text is set before the rest runs |
| WorldClock.DeadFrameStops | app2.py:143-148 | a tick that reaches a frame whose widgets are gone never completes: the label update raises in the `try` and again in the handler |
| WorldClock.FreshTickMeaning | app2.py:135-151 | over frames just built from the list, a tick completes exactly when every zone's text can be computed and then shows each zone's text in its own cell |
| WorldClock.NoDuplicatesSnoc | app2.py:81-82 | appending a zone the list lacks keeps it duplicate-free |
| WorldClock.AddThenTickStops | app2.py:79-100 | as written, adding a zone to a running clock raises out of the rebuild, leaves only dead entries, and the next tick does not re-arm |
| WorldClock.RepairedAddThenTick | app2.py:79-151 | with the repaired teardown, adding a zone rebuilds the grid for the new list, and the next tick re-arms exactly when every zone's text can be computed, showing each zone's text |

## Left out

- Tk, pystray, PIL and ctypes are left out: widget creation, fonts, colours, the click-through window style, the tray icon image and its thread. The settings form is a parameter holding the text of its fields. The screen and requested window sizes are a `Metrics` parameter.
- `strftime`, `datetime.now` and `pytz.timezone` are the functions of a `Now` parameter. The model knows nothing of real calendars or zone rules.
- The file system is a `ConfigFile` parameter: missing, malformed, or a parsed document with the right value types. A top level that is not an object, values of the wrong type, other read errors and a failing save (which only prints) are not modelled. Saving is a `Save` entry in the effects trace.
- `mainloop`, `root.after` timing and the 100 ms delayed first placement are not modelled. A tick returns the delay it re-arms with, and the caller sequences the calls.
- The tray callbacks run on pystray's thread. The model treats every call as atomic, so no interleavings are modelled.
- `make_clickable_text`, `toggle_info`, `on_position_change` and app4's `edit_text_dialog` only change widgets, so they are not modelled.
- IntText.ParseInt: underscores between digits and non-ASCII digits, which Python's `int()` accepts, are not modelled.
- Placement.EstimatedWidth: the float product `11 * m * 0.6` is taken as the exact value `66 * m / 10`.
- Refresh.LabelsFor: when two zones share a name, the label widget the dictionary forgets stays on screen. The model keeps only the dictionary.
- DesktopClock.Clock.RemoveTimezone: requires an index inside the list. The only caller is the delete button of an existing row, so a negative or out-of-range `pop` is not modelled.
- WorldClock.WorldClockApp.RemoveTimezone: the missing "X" button for "UTC" is the `removable` flag of its frame. The method itself, like the source, does not refuse "UTC".
- `load_config` does not ensure at least one zone: an empty list stays empty, and only placement notices it.
- The settings apply is not atomic. A failed `int()` keeps the earlier assignments in memory, and they reach the file at the next save.
- An exception out of a Tk callback (a rebuild that raised, a tick that escaped) is reported by Tk, and the main loop goes on. The model returns `raised` or stops re-arming, and leaves the state as the exception left it.
- The world clock's column weights (always columns 0 and 1) are not modelled.
- The single-instance check runs after start-up, so a missing configuration file has already been written with the defaults when a second instance exits.

## Findings

| source | as written | input that shows it | evidently intended | confidence | as-written member | corrected member |
|---|---|---|---|---|---|---|
| app3.py:450-461 | "Add Timezone" appends a zone without rebuilding the labels. The tick then looks up the new name at app3.py:157, and the `KeyError` escapes both handlers, so the clock stops for the rest of the session: `apply_settings` rebuilds the labels but never restarts the tick. | The default configuration, then one "Add Timezone": the zone "Timezone 2" has no label. | A zone without a label is skipped, as app4.py:130-131 does, so the other clocks keep running. | not executed | DesktopClock.App3AddStopsTheClock | DesktopClock.AppendedUnlabelledZoneIgnored |
| app2.py:99-100 | `update_timezone_displays` calls `destroy()` on each stored entry of `timezone_frames`, but each entry is a dict (app2.py:124-127), so the call raises `AttributeError` whenever entries exist, which is on every add or remove after start-up. Lines 96-97 have already destroyed the grid, so it stays blank; the dead entries stay in `timezone_frames`. The next tick's label update raises `TclError`, and so does the handler's, so the clock never re-arms. | Start the world clock, pick "Asia/Kolkata" and press Add. | Destroy each entry's `"frame"` widget, so the grid is rebuilt for the new list and the tick goes on. | not executed | WorldClock.AddThenTickStops | WorldClock.RepairedAddThenTick |

For the first row, the `App4` variant is the corrected behaviour. `DesktopClock.App4AddKeepsTheClock` proves that, after the same step, its tick behaves as if the new zone were absent.

For the second row, the `DestroyWidgets` teardown is the corrected behaviour;
`WorldClock.AddedZoneGetsFreeCell` describes the grid it rebuilds.
