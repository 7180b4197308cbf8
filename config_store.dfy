/** ConfigStore: the configuration document of app3.py/app4.py and the
    back-fill `load_config` applies to it (app3.py:82-120).

    The document is what `json.load` returns: a top-level object and one
    object per zone. Each known key is an optional field (absent keys are
    `None`); keys the clock does not know are kept, as their raw JSON text,
    in `extra`. */
module ConfigStore {
  import opened Wrappers
  import opened ZoneFormat

  /** One entry of "timezones". */
  datatype ZoneDoc = ZoneDoc(
    name: Option<string>,
    timezone: Option<string>,
    fontFamily: Option<string>,
    fontSize: Option<int>,
    datetimeFormat: Option<string>,
    color: Option<string>,
    extra: map<string, string>)

  /** The top-level object. `positionX`/`positionY` are the stored copy of the
      last computed window position ("position_x", "position_y"). */
  datatype ConfigDoc = ConfigDoc(
    position: Option<string>,
    customX: Option<int>,
    customY: Option<int>,
    visible: Option<bool>,
    positionX: Option<int>,
    positionY: Option<int>,
    timezones: Option<seq<ZoneDoc>>,
    extra: map<string, string>)

  /** What reading "clock_config.json" gives: no file (`FileNotFoundError`),
      text that is not JSON (`JSONDecodeError`), or a parsed object. */
  datatype ConfigFile = Missing | Malformed | Parsed(doc: ConfigDoc)

  const ZoneKeys: set<string> :=
    {"name", "timezone", "font_family", "font_size", "datetime_format", "color"}

  const TopKeys: set<string> :=
    {"position", "custom_x", "custom_y", "visible", "position_x", "position_y", "timezones"}

  /** The per-zone template, `default_config["timezones"][0]`. */
  const DefaultZone: ZoneDoc :=
    ZoneDoc(Some("Local"), Some(LocalZone), Some("Segoe UI"), Some(12), Some(DefaultFormat),
            Some("white"), map[])

  /** The document written on first run. */
  const DefaultConfig: ConfigDoc :=
    ConfigDoc(Some("topleft"), Some(50), Some(50), Some(true), Some(50), Some(50),
              Some([DefaultZone]), map[])

  /** The keys present in a zone object. */
  function ZoneKeysOf(z: ZoneDoc): set<string> {
    (if z.name.Some? then {"name"} else {}) +
    (if z.timezone.Some? then {"timezone"} else {}) +
    (if z.fontFamily.Some? then {"font_family"} else {}) +
    (if z.fontSize.Some? then {"font_size"} else {}) +
    (if z.datetimeFormat.Some? then {"datetime_format"} else {}) +
    (if z.color.Some? then {"color"} else {}) +
    z.extra.Keys
  }

  /** The keys present in the top-level object. */
  function KeysOf(d: ConfigDoc): set<string> {
    (if d.position.Some? then {"position"} else {}) +
    (if d.customX.Some? then {"custom_x"} else {}) +
    (if d.customY.Some? then {"custom_y"} else {}) +
    (if d.visible.Some? then {"visible"} else {}) +
    (if d.positionX.Some? then {"position_x"} else {}) +
    (if d.positionY.Some? then {"position_y"} else {}) +
    (if d.timezones.Some? then {"timezones"} else {}) +
    d.extra.Keys
  }

  /** A JSON object has each key once, so an unknown key is never a known one. */
  predicate ZoneWellFormed(z: ZoneDoc) {
    z.extra.Keys !! ZoneKeys
  }

  predicate WellFormed(d: ConfigDoc) {
    d.extra.Keys !! TopKeys &&
    (d.timezones.Some? ==> forall i :: 0 <= i < |d.timezones.value| ==> ZoneWellFormed(d.timezones.value[i]))
  }

  predicate ZoneComplete(z: ZoneDoc) {
    z.name.Some? && z.timezone.Some? && z.fontFamily.Some? && z.fontSize.Some? &&
    z.datetimeFormat.Some? && z.color.Some?
  }

  predicate AllZonesComplete(zs: seq<ZoneDoc>) {
    forall i :: 0 <= i < |zs| ==> ZoneComplete(zs[i])
  }

  /** Every key the clock reads is present, at the top and in every zone. */
  predicate Complete(d: ConfigDoc) {
    d.position.Some? && d.customX.Some? && d.customY.Some? && d.visible.Some? &&
    d.positionX.Some? && d.positionY.Some? && d.timezones.Some? &&
    AllZonesComplete(d.timezones.value)
  }

  /** The inner loop of app3.py:112-114 for one zone: every missing key of the
      template is added, every present key keeps its value, unknown keys stay. */
  function FillZone(z: ZoneDoc): (r: ZoneDoc)
    ensures ZoneComplete(r)
    ensures r.extra == z.extra
    ensures z.name.Some? ==> r.name == z.name
    ensures z.timezone.Some? ==> r.timezone == z.timezone
    ensures z.fontFamily.Some? ==> r.fontFamily == z.fontFamily
    ensures z.fontSize.Some? ==> r.fontSize == z.fontSize
    ensures z.datetimeFormat.Some? ==> r.datetimeFormat == z.datetimeFormat
    ensures z.color.Some? ==> r.color == z.color
    ensures z.name.None? ==> r.name == DefaultZone.name
    ensures z.timezone.None? ==> r.timezone == DefaultZone.timezone
    ensures z.fontFamily.None? ==> r.fontFamily == DefaultZone.fontFamily
    ensures z.fontSize.None? ==> r.fontSize == DefaultZone.fontSize
    ensures z.datetimeFormat.None? ==> r.datetimeFormat == DefaultZone.datetimeFormat
    ensures z.color.None? ==> r.color == DefaultZone.color
  {
    ZoneDoc(OrElse(z.name, DefaultZone.name), OrElse(z.timezone, DefaultZone.timezone),
            OrElse(z.fontFamily, DefaultZone.fontFamily), OrElse(z.fontSize, DefaultZone.fontSize),
            OrElse(z.datetimeFormat, DefaultZone.datetimeFormat), OrElse(z.color, DefaultZone.color),
            z.extra)
  }

  /** The loop of app3.py:107-109: every missing top-level key is taken from
      the default document, the zone list included. */
  function FillTop(d: ConfigDoc): (r: ConfigDoc)
    ensures r.extra == d.extra
    ensures r.timezones.Some?
    ensures d.position.Some? ==> r.position == d.position
    ensures d.customX.Some? ==> r.customX == d.customX
    ensures d.customY.Some? ==> r.customY == d.customY
    ensures d.visible.Some? ==> r.visible == d.visible
    ensures d.positionX.Some? ==> r.positionX == d.positionX
    ensures d.positionY.Some? ==> r.positionY == d.positionY
    ensures d.timezones.Some? ==> r.timezones == d.timezones
    ensures d.position.None? ==> r.position == DefaultConfig.position
    ensures d.customX.None? ==> r.customX == DefaultConfig.customX
    ensures d.customY.None? ==> r.customY == DefaultConfig.customY
    ensures d.visible.None? ==> r.visible == DefaultConfig.visible
    ensures d.positionX.None? ==> r.positionX == DefaultConfig.positionX
    ensures d.positionY.None? ==> r.positionY == DefaultConfig.positionY
    ensures d.timezones.None? ==> r.timezones == DefaultConfig.timezones
  {
    ConfigDoc(OrElse(d.position, DefaultConfig.position), OrElse(d.customX, DefaultConfig.customX),
              OrElse(d.customY, DefaultConfig.customY), OrElse(d.visible, DefaultConfig.visible),
              OrElse(d.positionX, DefaultConfig.positionX), OrElse(d.positionY, DefaultConfig.positionY),
              OrElse(d.timezones, DefaultConfig.timezones), d.extra)
  }

  function FillZones(zs: seq<ZoneDoc>): seq<ZoneDoc> {
    seq(|zs|, i requires 0 <= i < |zs| => FillZone(zs[i]))
  }

  /** The whole back-fill of a parsed document: top level first, then every
      zone of the (possibly defaulted) zone list. */
  function Backfill(d: ConfigDoc): ConfigDoc {
    var t := FillTop(d);
    t.(timezones := Some(FillZones(t.timezones.value)))
  }

  /** The configuration `load_config` leaves in `self.config`. */
  function LoadSpec(file: ConfigFile): ConfigDoc {
    if file.Parsed? then Backfill(file.doc) else DefaultConfig
  }

  /** The documents `load_config` saves: the defaults, when it fell back to them. */
  function LoadSaves(file: ConfigFile): seq<ConfigDoc> {
    if file.Parsed? then [] else [DefaultConfig]
  }

  /** The per-zone loop of app3.py:111-114, updating each zone object in place. */
  method BackfillZones(zs: seq<ZoneDoc>) returns (r: seq<ZoneDoc>)
    ensures |r| == |zs|
    ensures forall i :: 0 <= i < |zs| ==> r[i] == FillZone(zs[i])
  {
    r := zs;
    var i := 0;
    while i < |r|
      invariant 0 <= i <= |r| == |zs|
      invariant forall k :: 0 <= k < i ==> r[k] == FillZone(zs[k])
      invariant forall k :: i <= k < |r| ==> r[k] == zs[k]
    {
      r := r[i := FillZone(r[i])];
      i := i + 1;
    }
  }

  /** `load_config`: the configuration it produces and the documents it saves. */
  method LoadConfig(file: ConfigFile) returns (config: ConfigDoc, saved: seq<ConfigDoc>)
    ensures Complete(config)
    ensures config == LoadSpec(file) && saved == LoadSaves(file)
  {
    match file {
      case Parsed(d) =>
        config := FillTop(d);
        var zones := BackfillZones(config.timezones.value);
        assert zones == FillZones(config.timezones.value);
        config := config.(timezones := Some(zones));
        saved := [];
      case _ =>
        config := DefaultConfig;
        saved := [config];
    }
  }

  /** After back-fill every default key is present, at the top and in every
      zone, and every key that was there (unknown ones included) is still there. */
  lemma BackfillKeys(d: ConfigDoc)
    ensures Complete(Backfill(d))
    ensures KeysOf(Backfill(d)) == KeysOf(d) + TopKeys
    ensures forall i :: 0 <= i < |Backfill(d).timezones.value| ==>
              ZoneKeysOf(Backfill(d).timezones.value[i]) == ZoneKeysOf(FillTop(d).timezones.value[i]) + ZoneKeys
  {
    FillTopKeys(d);
    var t := FillTop(d);
    var b := Backfill(d);
    assert KeysOf(b) == KeysOf(t);
    forall i | 0 <= i < |b.timezones.value|
      ensures ZoneKeysOf(b.timezones.value[i]) == ZoneKeysOf(t.timezones.value[i]) + ZoneKeys
    {
      FillZoneKeys(t.timezones.value[i]);
    }
  }

  /** Filling a zone adds exactly the missing template keys. */
  lemma FillZoneKeys(z: ZoneDoc)
    ensures ZoneKeysOf(FillZone(z)) == ZoneKeysOf(z) + ZoneKeys
  {
    assert ZoneKeysOf(FillZone(z)) == ZoneKeys + z.extra.Keys;
    assert ZoneKeysOf(z) <= ZoneKeys + z.extra.Keys;
  }

  /** Filling the top level adds exactly the missing top-level keys. */
  lemma FillTopKeys(d: ConfigDoc)
    ensures KeysOf(FillTop(d)) == KeysOf(d) + TopKeys
  {
    assert KeysOf(FillTop(d)) == TopKeys + d.extra.Keys;
    assert KeysOf(d) <= TopKeys + d.extra.Keys;
  }

  /** Back-fill keeps the zone count and order, and each zone keeps its own
      values: `Backfill` changes zone `i` only by filling its missing keys. */
  lemma BackfillZoneList(d: ConfigDoc)
    requires d.timezones.Some?
    ensures |Backfill(d).timezones.value| == |d.timezones.value|
    ensures forall i :: 0 <= i < |d.timezones.value| ==>
              Backfill(d).timezones.value[i] == FillZone(d.timezones.value[i])
    ensures Backfill(d).extra == d.extra
  {
  }

  /** An empty zone list stays empty: loading does not establish "at least one zone". */
  lemma BackfillKeepsEmptyList(d: ConfigDoc)
    requires d.timezones == Some([])
    ensures Backfill(d).timezones == Some([])
  {
    assert |FillZones([])| == 0;
  }

  lemma FillZoneOfComplete(z: ZoneDoc)
    requires ZoneComplete(z)
    ensures FillZone(z) == z
  {
  }

  /** A complete document is a fixed point: loading what was saved gives back
      the same configuration. */
  lemma {:induction false} BackfillOfComplete(d: ConfigDoc)
    requires Complete(d)
    ensures Backfill(d) == d
  {
    var zs := d.timezones.value;
    forall i | 0 <= i < |zs| ensures FillZones(zs)[i] == zs[i] {
      FillZoneOfComplete(zs[i]);
    }
    assert FillZones(zs) == zs;
  }

  /** Back-fill is idempotent. */
  lemma BackfillIdempotent(d: ConfigDoc)
    ensures Backfill(Backfill(d)) == Backfill(d)
  {
    BackfillKeys(d);
    BackfillOfComplete(Backfill(d));
  }

  /** A missing or malformed file gives exactly the default document: one zone
      "Local" in local time with the default pattern, placed top left. */
  lemma DefaultsOnBadFile(file: ConfigFile)
    requires !file.Parsed?
    ensures LoadSpec(file) == DefaultConfig && LoadSaves(file) == [DefaultConfig]
    ensures LoadSpec(file).position == Some("topleft")
    ensures LoadSpec(file).timezones == Some([DefaultZone])
    ensures DefaultZone.name == Some("Local") && DefaultZone.timezone == Some("local")
    ensures DefaultZone.datetimeFormat == Some("%H:%M:%S\n%d-%m-%Y")
  {
  }
}
