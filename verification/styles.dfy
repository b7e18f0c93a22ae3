/** The style presets of the poster generator: a base record of seventeen parameters,
    eleven presets that overwrite some of them, a case-insensitive registry lookup, and
    the merge of a custom JSON object onto a preset's configuration. */
module Styles {
  import opened Wrappers
  import opened Json
  import Text

  /** The attributes of a style object, with the types the base constructor gives them. */
  datatype StyleRecord = StyleRecord(
    bgColor: string,
    streetColor: string,
    streetWidth: real,
    titleColor: string,
    titleSize: int,
    subtitleColor: string,
    subtitleSize: int,
    drawWater: bool,
    waterColor: string,
    waterAlpha: real,
    drawBuildings: bool,
    buildingColor: string,
    buildingAlpha: real,
    titleBox: bool,
    titleBoxColor: string,
    titleBoxAlpha: real,
    titleBoxHeight: real)

  /** The defaults every preset starts from. */
  const Base: StyleRecord := StyleRecord(
    bgColor := "#ffffff",
    streetColor := "#000000",
    streetWidth := 0.5,
    titleColor := "#000000",
    titleSize := 56,
    subtitleColor := "#666666",
    subtitleSize := 24,
    drawWater := false,
    waterColor := "#a0c8ff",
    waterAlpha := 0.35,
    drawBuildings := false,
    buildingColor := "#c7c7c7",
    buildingAlpha := 0.5,
    titleBox := false,
    titleBoxColor := "#000000",
    titleBoxAlpha := 0.22,
    titleBoxHeight := 0.12)

  datatype Preset =
    | Minimal | Blueprint | Watercolor | Dark | Vintage | Neon
    | Pastel | Copper | Sand | NightSky | RedWater

  /** The object a preset's constructor builds: the base defaults with the preset's own assignments
      on top. Every preset keeps the base title sizes and title box switch and height; Minimal draws
      streets only and keeps the base layer and title box colours and opacities, while every other
      preset draws water and buildings too. */
  function Record(p: Preset): (r: StyleRecord)
    ensures r.titleSize == Base.titleSize && r.subtitleSize == Base.subtitleSize
    ensures r.titleBox == Base.titleBox && r.titleBoxHeight == Base.titleBoxHeight
    ensures r.drawWater <==> p != Minimal
    ensures r.drawBuildings <==> p != Minimal
    ensures p == Minimal ==>
      && r.waterColor == Base.waterColor && r.waterAlpha == Base.waterAlpha
      && r.buildingColor == Base.buildingColor && r.buildingAlpha == Base.buildingAlpha
      && r.titleBoxColor == Base.titleBoxColor && r.titleBoxAlpha == Base.titleBoxAlpha
  {
    match p
    case Minimal => Base.(bgColor := "#ffffff", streetColor := "#000000", streetWidth := 0.8,
                          titleColor := "#000000", subtitleColor := "#666666")
    case Blueprint => Base.(bgColor := "#0a3d62", streetColor := "#ffffff", streetWidth := 0.6,
                            titleColor := "#ffffff", subtitleColor := "#a5b1c2",
                            drawBuildings := true, buildingColor := "#0f4c81", buildingAlpha := 0.35,
                            drawWater := true, waterColor := "#0c5b8f", waterAlpha := 0.45,
                            titleBoxColor := "#041d2f", titleBoxAlpha := 0.35)
    case Watercolor => Base.(bgColor := "#f8f9fa", streetColor := "#778ca3", streetWidth := 1.2,
                             titleColor := "#4b6584", subtitleColor := "#95afc0",
                             drawBuildings := true, buildingColor := "#dfe6e9", buildingAlpha := 0.7,
                             drawWater := true, waterColor := "#c8dff8", waterAlpha := 0.55,
                             titleBoxColor := "#ffffff", titleBoxAlpha := 0.6)
    case Dark => Base.(bgColor := "#1e1e1e", streetColor := "#ffffff", streetWidth := 0.7,
                       titleColor := "#ffffff", subtitleColor := "#a0a0a0",
                       drawWater := true, waterColor := "#0f2b46", waterAlpha := 0.7,
                       drawBuildings := true, buildingColor := "#2b2b2b", buildingAlpha := 0.6,
                       titleBoxColor := "#0f0f0f", titleBoxAlpha := 0.35)
    case Vintage => Base.(bgColor := "#f5e6d3", streetColor := "#8b4513", streetWidth := 0.9,
                          titleColor := "#5d4037", subtitleColor := "#8d6e63",
                          drawBuildings := true, buildingColor := "#e8d6bc", buildingAlpha := 0.7,
                          drawWater := true, waterColor := "#c0b090", waterAlpha := 0.4,
                          titleBoxColor := "#d4c2a4", titleBoxAlpha := 0.5)
    case Neon => Base.(bgColor := "#0f0f23", streetColor := "#00ffff", streetWidth := 1.0,
                       titleColor := "#ff00ff", subtitleColor := "#00ffff",
                       drawWater := true, waterColor := "#07163a", waterAlpha := 0.75,
                       drawBuildings := true, buildingColor := "#1a1a3a", buildingAlpha := 0.65,
                       titleBoxColor := "#050910", titleBoxAlpha := 0.55)
    case Pastel => Base.(bgColor := "#fbf7f4", streetColor := "#5f6b7a", streetWidth := 0.9,
                         titleColor := "#414b57", subtitleColor := "#7b8794",
                         drawWater := true, waterColor := "#d6e8ff", waterAlpha := 0.65,
                         drawBuildings := true, buildingColor := "#f2e9e4", buildingAlpha := 0.85,
                         titleBoxColor := "#ffffff", titleBoxAlpha := 0.65)
    case Copper => Base.(bgColor := "#1b1a17", streetColor := "#f2c57c", streetWidth := 0.85,
                         titleColor := "#f2c57c", subtitleColor := "#d9a441",
                         drawBuildings := true, buildingColor := "#3a2f23", buildingAlpha := 0.75,
                         drawWater := true, waterColor := "#1f2a33", waterAlpha := 0.6,
                         titleBoxColor := "#0f0d0b", titleBoxAlpha := 0.45)
    case Sand => Base.(bgColor := "#f3efe6", streetColor := "#6f5f4d", streetWidth := 0.8,
                       titleColor := "#5c4b3f", subtitleColor := "#8b7a6b",
                       drawBuildings := true, buildingColor := "#e3d6c5", buildingAlpha := 0.8,
                       drawWater := true, waterColor := "#aacbda", waterAlpha := 0.55,
                       titleBoxColor := "#f7f1e8", titleBoxAlpha := 0.65)
    case NightSky => Base.(bgColor := "#0b0f1a", streetColor := "#7de2d1", streetWidth := 0.9,
                           titleColor := "#e8f1ff", subtitleColor := "#b5c7e8",
                           drawWater := true, waterColor := "#0f1f35", waterAlpha := 0.75,
                           drawBuildings := true, buildingColor := "#141a2a", buildingAlpha := 0.6,
                           titleBoxColor := "#060910", titleBoxAlpha := 0.55)
    case RedWater => Base.(bgColor := "#f8f9fa", streetColor := "#000000", streetWidth := 1.2,
                           titleColor := "#000000", subtitleColor := "#333333",
                           drawBuildings := true, buildingColor := "#dfe6e9", buildingAlpha := 0.7,
                           drawWater := true, waterColor := "#d32f2f", waterAlpha := 0.65,
                           titleBoxColor := "#ffffff", titleBoxAlpha := 0.6)
  }

  /** The seventeen keys of a configuration dictionary. */
  datatype Key =
    | BgColor | StreetColor | StreetWidth | TitleColor | SubtitleColor | TitleSize | SubtitleSize
    | DrawWater | DrawBuildings | WaterColor | WaterAlpha | BuildingColor | BuildingAlpha
    | TitleBox | TitleBoxColor | TitleBoxAlpha | TitleBoxHeight

  /** The dictionary key string of each configuration key. */
  function KeyName(k: Key): string {
    match k
    case BgColor => "bg_color"
    case StreetColor => "street_color"
    case StreetWidth => "street_width"
    case TitleColor => "title_color"
    case SubtitleColor => "subtitle_color"
    case TitleSize => "title_size"
    case SubtitleSize => "subtitle_size"
    case DrawWater => "draw_water"
    case DrawBuildings => "draw_buildings"
    case WaterColor => "water_color"
    case WaterAlpha => "water_alpha"
    case BuildingColor => "building_color"
    case BuildingAlpha => "building_alpha"
    case TitleBox => "title_box"
    case TitleBoxColor => "title_box_color"
    case TitleBoxAlpha => "title_box_alpha"
    case TitleBoxHeight => "title_box_height"
  }

  /** The configuration key a dictionary key string names, if any. */
  function ParseKey(name: string): (k: Option<Key>)
    ensures k.Some? ==> KeyName(k.value) == name
  {
    if name == "bg_color" then Some(BgColor)
    else if name == "street_color" then Some(StreetColor)
    else if name == "street_width" then Some(StreetWidth)
    else if name == "title_color" then Some(TitleColor)
    else if name == "subtitle_color" then Some(SubtitleColor)
    else if name == "title_size" then Some(TitleSize)
    else if name == "subtitle_size" then Some(SubtitleSize)
    else if name == "draw_water" then Some(DrawWater)
    else if name == "draw_buildings" then Some(DrawBuildings)
    else if name == "water_color" then Some(WaterColor)
    else if name == "water_alpha" then Some(WaterAlpha)
    else if name == "building_color" then Some(BuildingColor)
    else if name == "building_alpha" then Some(BuildingAlpha)
    else if name == "title_box" then Some(TitleBox)
    else if name == "title_box_color" then Some(TitleBoxColor)
    else if name == "title_box_alpha" then Some(TitleBoxAlpha)
    else if name == "title_box_height" then Some(TitleBoxHeight)
    else None
  }

  /** Every key string parses back to its key, so no two keys share a string. */
  lemma ParseKeyName(k: Key)
    ensures ParseKey(KeyName(k)) == Some(k)
  {
  }

  /** Distinct keys have distinct key strings. */
  lemma KeyNameInjective(a: Key, b: Key)
    ensures KeyName(a) == KeyName(b) ==> a == b
  {
    ParseKeyName(a);
    ParseKeyName(b);
  }

  const ConfigKeys: set<Key> := {
    BgColor, StreetColor, StreetWidth, TitleColor, SubtitleColor, TitleSize, SubtitleSize,
    DrawWater, DrawBuildings, WaterColor, WaterAlpha, BuildingColor, BuildingAlpha,
    TitleBox, TitleBoxColor, TitleBoxAlpha, TitleBoxHeight}

  /** A style configuration: `get_config()`'s dictionary, keyed by configuration key. */
  type Config = map<Key, Value>

  /** The value a style object stores under a configuration key. */
  function Field(s: StyleRecord, k: Key): Value {
    match k
    case BgColor => Str(s.bgColor)
    case StreetColor => Str(s.streetColor)
    case StreetWidth => Float(s.streetWidth)
    case TitleColor => Str(s.titleColor)
    case SubtitleColor => Str(s.subtitleColor)
    case TitleSize => Int(s.titleSize)
    case SubtitleSize => Int(s.subtitleSize)
    case DrawWater => Bool(s.drawWater)
    case DrawBuildings => Bool(s.drawBuildings)
    case WaterColor => Str(s.waterColor)
    case WaterAlpha => Float(s.waterAlpha)
    case BuildingColor => Str(s.buildingColor)
    case BuildingAlpha => Float(s.buildingAlpha)
    case TitleBox => Bool(s.titleBox)
    case TitleBoxColor => Str(s.titleBoxColor)
    case TitleBoxAlpha => Float(s.titleBoxAlpha)
    case TitleBoxHeight => Float(s.titleBoxHeight)
  }

  /** `get_config()`: the dictionary of all seventeen attributes. */
  function GetConfig(s: StyleRecord): (config: Config)
    ensures config.Keys == ConfigKeys
  {
    map k | k in ConfigKeys :: Field(s, k)
  }

  /** Reads a configuration back into a style record when every key holds a value of the base type;
      a reference for what `GetConfig` must preserve. */
  function Decode(config: Config): Option<StyleRecord> {
    if && BgColor in config && config[BgColor].Str?
       && StreetColor in config && config[StreetColor].Str?
       && StreetWidth in config && config[StreetWidth].Float?
       && TitleColor in config && config[TitleColor].Str?
       && SubtitleColor in config && config[SubtitleColor].Str?
       && TitleSize in config && config[TitleSize].Int?
       && SubtitleSize in config && config[SubtitleSize].Int?
       && DrawWater in config && config[DrawWater].Bool?
       && DrawBuildings in config && config[DrawBuildings].Bool?
       && WaterColor in config && config[WaterColor].Str?
       && WaterAlpha in config && config[WaterAlpha].Float?
       && BuildingColor in config && config[BuildingColor].Str?
       && BuildingAlpha in config && config[BuildingAlpha].Float?
       && TitleBox in config && config[TitleBox].Bool?
       && TitleBoxColor in config && config[TitleBoxColor].Str?
       && TitleBoxAlpha in config && config[TitleBoxAlpha].Float?
       && TitleBoxHeight in config && config[TitleBoxHeight].Float?
    then Some(StyleRecord(
      bgColor := config[BgColor].s,
      streetColor := config[StreetColor].s,
      streetWidth := config[StreetWidth].x,
      titleColor := config[TitleColor].s,
      titleSize := config[TitleSize].i,
      subtitleColor := config[SubtitleColor].s,
      subtitleSize := config[SubtitleSize].i,
      drawWater := config[DrawWater].b,
      waterColor := config[WaterColor].s,
      waterAlpha := config[WaterAlpha].x,
      drawBuildings := config[DrawBuildings].b,
      buildingColor := config[BuildingColor].s,
      buildingAlpha := config[BuildingAlpha].x,
      titleBox := config[TitleBox].b,
      titleBoxColor := config[TitleBoxColor].s,
      titleBoxAlpha := config[TitleBoxAlpha].x,
      titleBoxHeight := config[TitleBoxHeight].x))
    else None
  }

  /** `STYLE().get_config()` for a preset. */
  function PresetConfig(p: Preset): Config {
    GetConfig(Record(p))
  }

  /** `GetConfig` stores each attribute under its key. */
  lemma ConfigField(s: StyleRecord, k: Key)
    ensures k in GetConfig(s) && GetConfig(s)[k] == Field(s, k)
  {
  }

  /** `GetConfig` loses nothing: every attribute can be read back from its own key. */
  lemma GetConfigLossless(s: StyleRecord)
    ensures Decode(GetConfig(s)) == Some(s)
  {
    ConfigField(s, BgColor);
    ConfigField(s, StreetColor);
    ConfigField(s, StreetWidth);
    ConfigField(s, TitleColor);
    ConfigField(s, SubtitleColor);
    ConfigField(s, TitleSize);
    ConfigField(s, SubtitleSize);
    ConfigField(s, DrawWater);
    ConfigField(s, DrawBuildings);
    ConfigField(s, WaterColor);
    ConfigField(s, WaterAlpha);
    ConfigField(s, BuildingColor);
    ConfigField(s, BuildingAlpha);
    ConfigField(s, TitleBox);
    ConfigField(s, TitleBoxColor);
    ConfigField(s, TitleBoxAlpha);
    ConfigField(s, TitleBoxHeight);
  }

  /** A preset's own assignments leave every other key at the base default. */
  function Assigned(p: Preset): set<Key> {
    var colors := {BgColor, StreetColor, StreetWidth, TitleColor, SubtitleColor};
    if p == Minimal then colors
    else colors + {DrawBuildings, BuildingColor, BuildingAlpha, DrawWater, WaterColor,
                   WaterAlpha, TitleBoxColor, TitleBoxAlpha}
  }

  /** A key a preset does not assign keeps the base default in the preset's configuration. */
  lemma PresetKeepsUnassignedDefaults(p: Preset, key: Key)
    requires key !in Assigned(p)
    ensures PresetConfig(p)[key] == GetConfig(Base)[key]
  {
    ConfigField(Record(p), key);
    ConfigField(Base, key);
  }

  /** No preset touches the title sizes or the title box switch and height. */
  lemma PresetTitleDefaults(p: Preset)
    ensures PresetConfig(p)[TitleSize] == Int(56)
    ensures PresetConfig(p)[SubtitleSize] == Int(24)
    ensures PresetConfig(p)[TitleBox] == Bool(false)
    ensures PresetConfig(p)[TitleBoxHeight] == Float(0.12)
  {
    ConfigField(Record(p), TitleSize);
    ConfigField(Record(p), SubtitleSize);
    ConfigField(Record(p), TitleBox);
    ConfigField(Record(p), TitleBoxHeight);
  }

  /** `AVAILABLE_STYLES`, in declaration order. */
  const Registry: seq<(string, Preset)> := [
    ("minimal", Minimal), ("blueprint", Blueprint), ("watercolor", Watercolor), ("dark", Dark),
    ("vintage", Vintage), ("neon", Neon), ("pastel", Pastel), ("copper", Copper), ("sand", Sand),
    ("nightsky", NightSky), ("waterred", RedWater)]

  /** The registry key each preset is published under. */
  function RegistryName(p: Preset): string {
    match p
    case Minimal => "minimal"
    case Blueprint => "blueprint"
    case Watercolor => "watercolor"
    case Dark => "dark"
    case Vintage => "vintage"
    case Neon => "neon"
    case Pastel => "pastel"
    case Copper => "copper"
    case Sand => "sand"
    case NightSky => "nightsky"
    case RedWater => "waterred"
  }

  /** `dict.get(key)` over the registry's entries. */
  function Find(entries: seq<(string, Preset)>, key: string): (found: Option<Preset>)
    ensures found.Some? ==> (key, found.value) in entries
    ensures found.None? ==> forall i :: 0 <= i < |entries| ==> entries[i].0 != key
  {
    if entries == [] then None
    else if entries[0].0 == key then Some(entries[0].1)
    else Find(entries[1..], key)
  }

  /** `list_styles()`: the registry keys in declaration order. */
  function ListStyles(): (names: seq<string>)
    ensures |names| == 11 && names[0] == "minimal"
    ensures forall i, j :: 0 <= i < j < |names| ==> names[i] != names[j]
    ensures forall p: Preset :: RegistryName(p) in names
  {
    var names := seq(|Registry|, i requires 0 <= i < |Registry| => Registry[i].0);
    assert forall p: Preset :: names[Position(p)] == RegistryName(p);
    names
  }

  /** Where each preset sits in the registry. */
  function Position(p: Preset): (i: nat)
    ensures i < |Registry| && Registry[i] == (RegistryName(p), p)
  {
    match p
    case Minimal => 0
    case Blueprint => 1
    case Watercolor => 2
    case Dark => 3
    case Vintage => 4
    case Neon => 5
    case Pastel => 6
    case Copper => 7
    case Sand => 8
    case NightSky => 9
    case RedWater => 10
  }

  /** Distinct presets are registered under distinct names. */
  lemma RegistryNameInjective(a: Preset, b: Preset)
    ensures RegistryName(a) == RegistryName(b) ==> a == b
  {
  }

  /** Registry names are written in lower-case ASCII letters. */
  lemma RegistryNameIsLowercase(p: Preset)
    ensures forall j :: 0 <= j < |RegistryName(p)| ==> 'a' <= RegistryName(p)[j] <= 'z'
  {
  }

  /** Each preset is listed at its registry position, and its listed name resolves through
      `GetStyle` to the preset itself. */
  lemma ListedStyleResolves(p: Preset)
    ensures ListStyles()[Position(p)] == RegistryName(p)
    ensures GetStyle(RegistryName(p)) == p
  {
    var name := RegistryName(p);
    RegistryNameIsLowercase(p);
    Text.LowerFixesLowercase(name);
    assert Registry[Position(p)].0 == name;
    assert name in RegistryNames();
    RegistryNameInjective(p, GetStyle(name));
  }

  /** `get_style(name)`: the preset registered under the lower-cased name, or Minimal. */
  function GetStyle(name: string): (p: Preset)
    ensures Text.Lower(name) in RegistryNames() ==> RegistryName(p) == Text.Lower(name)
    ensures Text.Lower(name) !in RegistryNames() ==> p == Minimal
  {
    var key := Text.Lower(name);
    var found := Find(Registry, key);
    if found.Some? then
      RegistryPairs(key, found.value);
      found.value
    else
      assert key !in RegistryNames();
      Minimal
  }

  /** Each registry entry pairs a preset with its own registry name. */
  lemma RegistryPairs(name: string, p: Preset)
    requires (name, p) in Registry
    ensures RegistryName(p) == name
  {
  }

  function RegistryNames(): set<string> {
    set i | 0 <= i < |Registry| :: Registry[i].0
  }

  /** Looking a name up ignores its case. */
  lemma GetStyleIgnoresCase(name: string)
    ensures GetStyle(name) == GetStyle(Text.Lower(name))
  {
    Text.LowerIdempotent(name);
  }

  /** Applies a parsed JSON object onto a configuration: a configuration key named in the object takes
      the object's value, whatever its type; names that are no key of the configuration are dropped;
      every other key keeps its value. */
  function Overlay(config: Config, data: map<string, Value>): Config {
    map k | k in config :: if KeyName(k) in data then data[KeyName(k)] else config[k]
  }

  /** The merge loop of `load_custom_style`: for each name in the object, overwrite the configuration's
      entry if the configuration has that key. */
  method Merge(config: Config, data: map<string, Value>) returns (merged: Config)
    ensures merged.Keys == config.Keys
    ensures forall k :: k in merged ==>
      merged[k] == (if KeyName(k) in data then data[KeyName(k)] else config[k])
    ensures merged == Overlay(config, data)
  {
    merged := config;
    var pending := data.Keys;
    while pending != {}
      invariant pending <= data.Keys
      invariant merged.Keys == config.Keys
      invariant forall k :: k in merged ==>
        merged[k] == (if KeyName(k) in data && KeyName(k) !in pending then data[KeyName(k)] else config[k])
      decreases pending
    {
      var name :| name in pending;
      forall k | KeyName(k) == name
        ensures ParseKey(name) == Some(k)
      {
        ParseKeyName(k);
      }
      var key := ParseKey(name);
      if key.Some? && key.value in merged {
        merged := merged[key.value := data[name]];
      }
      pending := pending - {name};
    }
  }

  /** What reading the custom style file yields. */
  datatype StyleFile =
    | Absent              // the path does not exist
    | Unparsable          // the text is not valid JSON
    | Parsed(data: Value)

  datatype StyleError =
    | FileNotFound(path: string)
    | DecodeError
    | NotAnObject

  /** `load_custom_style(path, base_style)`. */
  method LoadCustomStyle(path: string, file: StyleFile, baseStyle: string)
    returns (r: Result<Config, StyleError>)
    ensures file.Absent? ==> r == Failure(FileNotFound(path))
    ensures file.Unparsable? ==> r == Failure(DecodeError)
    ensures file.Parsed? && !file.data.Object? ==> r == Failure(NotAnObject)
    ensures r.Success? <==> file.Parsed? && file.data.Object?
    ensures r.Success? ==> r.value.Keys == ConfigKeys
    ensures r.Success? ==> forall k :: k in ConfigKeys ==>
      r.value[k] == (if KeyName(k) in file.data.fields then file.data.fields[KeyName(k)]
                     else PresetConfig(GetStyle(baseStyle))[k])
  {
    var config := PresetConfig(GetStyle(baseStyle));
    match file
    case Absent => r := Failure(FileNotFound(path));
    case Unparsable => r := Failure(DecodeError);
    case Parsed(data) =>
      if !data.Object? {
        r := Failure(NotAnObject);
      } else {
        var merged := Merge(config, data.fields);
        r := Success(merged);
      }
  }

  /** The merge adds and removes no key. */
  lemma OverlayKeepsKeys(config: Config, data: map<string, Value>)
    ensures Overlay(config, data).Keys == config.Keys
  {
  }

  /** An empty object leaves the configuration unchanged. */
  lemma OverlayEmpty(config: Config)
    ensures Overlay(config, map[]) == config
  {
  }

  /** Applying the same object twice is the same as applying it once. */
  lemma OverlayIdempotent(config: Config, data: map<string, Value>)
    ensures Overlay(Overlay(config, data), data) == Overlay(config, data)
  {
  }

  /** Names that denote no key of the configuration make no difference. */
  lemma OverlayIgnoresUnknownNames(config: Config, data: map<string, Value>)
    ensures Overlay(config, data) == Overlay(config, map n | n in data && ParseKey(n).Some? :: data[n])
  {
    forall k | k in config
      ensures ParseKey(KeyName(k)) == Some(k)
    {
      ParseKeyName(k);
    }
  }

  /** An object naming one configuration key overwrites exactly that key. */
  lemma OverlaySingleKey(config: Config, k: Key, v: Value)
    requires k in config
    ensures Overlay(config, map[KeyName(k) := v]) == config[k := v]
  {
    forall k' | k' in config
      ensures KeyName(k') == KeyName(k) ==> k' == k
    {
      KeyNameInjective(k', k);
    }
  }

  /** Dark with a red street colour: the street colour changes, the background and every
      other key keep Dark's values. */
  lemma DarkWithRedStreets()
    ensures var c := Overlay(PresetConfig(Dark), map["street_color" := Str("#ff0000")]);
      && c.Keys == ConfigKeys
      && c[StreetColor] == Str("#ff0000")
      && c[BgColor] == Str("#1e1e1e")
      && forall k :: k in c && k != StreetColor ==> c[k] == PresetConfig(Dark)[k]
  {
    OverlaySingleKey(PresetConfig(Dark), StreetColor, Str("#ff0000"));
  }
}
