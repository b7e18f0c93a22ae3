# pretty-map poster generator, modelled in Dafny

This project models the core of the pretty-map poster generator: the style presets
(`styles.py`) and the poster pipeline of `MapPosterGenerator` (`map_poster.py`).

- **Styles.** A base record of seventeen parameters and eleven presets that overwrite some of
  them. `get_config` turns a style into a dictionary. `get_style` looks a preset up by its
  lower-cased name and falls back to the minimal preset. `list_styles` lists the registry
  names. `load_custom_style` merges a JSON object onto a preset's configuration, ignoring names
  that are not configuration keys.
- **Fetching the map.** `fetch_map_data` gives a named location precedence over coordinates.
  Above 6000 m it restricts the street graph to major roads. It makes at most three attempts (two
  retries), with a five-second wait between attempts, and re-raises the last error.
- **Fetching the layers.** `fetch_layers` builds its tag request from the style's water and
  building toggles. It splits the fetched feature table into a building layer and a water layer.
- **Drawing.** `create_poster` draws water (z-order 1), buildings (z-order 2) and streets, in
  that order. Water and buildings are drawn only when their data is non-empty and their toggle
  is on. When exporting, each drawn layer is registered with the colour and weight it was drawn
  with. The title is the upper-cased title text, or else the upper-cased place name. The
  subtitle appears only when it is non-empty.
- **Saving and export.** The poster is saved after all drawing. Only after that save returns does
  `_export_layers` run: it saves each layer that renders as `<name>.png` in the export
  directory and skips any layer whose rendering raises.

Remote services, the file system and the plotting library are not modelled as code. Their
outcomes are parameters:

- the geocoder's and graph loader's answer for each attempt;
- the geometry response;
- whether the file exists and whether it parses as JSON;
- whether the poster save raises;
- which layers fail to render or to save.

Effects are returned as ordered sequences of calls or events, so order and gating can be stated
and proved.

Modules:

- `Wrappers`: `Option`, `Result`.
- `Json`: parsed values and Python truthiness.
- `Text`: `str.upper` and `str.lower`.
- `Styles`: all of `styles.py`.
- `Fetch`: `fetch_map_data`.
- `Layers`: `fetch_layers`.
- `Compose`: drawing order, gating and registration.
- `Export`: `_export_layers`.
- `Poster`: title, subtitle, and the sequencing of `create_poster`.

The street graph is drawn without an explicit z-order (`zorder` is `None` in `Compose.Draw`).

## Model

| member | source | states |
|---|---|---|
| Text.Upper | map_poster.py:107 | the upper-cased title keeps the length and maps each character by its upper-case mapping; the result holds no lower-case letter of the modelled alphabets |
| Text.Lower | styles.py:290 | the lower-cased style name keeps the length and maps each character by its lower-case mapping; the result holds no upper-case letter |
| Text.LowerOfUpper | map_poster.py:107 | upper-casing loses only case: the upper-cased text lowers to what the original lowers to |
| Text.UpperIdempotent | map_poster.py:107 | upper-casing an upper-cased title changes nothing |
| Text.LowerIdempotent | styles.py:290 | lower-casing a lower-cased name changes nothing |
| Text.LowerFixesLowercase | styles.py:274-290 | a string with no upper-case letter, such as a registry key, is its own lower case |
| Styles.ParseKey | styles.py:55-72 | a configuration key string parses to the key whose string it is |
| Styles.ParseKeyName | styles.py:55-72 | every key's string parses back to that key |
| Styles.KeyNameInjective | styles.py:55-72 | distinct configuration keys have distinct key strings |
| Styles.GetConfig | styles.py:54-73 | the configuration has exactly the seventeen keys |
| Styles.ConfigField | styles.py:54-73 | each key of the configuration holds the style's attribute of that name |
| Styles.GetConfigLossless | styles.py:54-73 | every attribute of a style can be read back from its configuration, so the configuration determines the style |
| Styles.Record | styles.py:76-272 | every preset keeps the base title sizes, title box switch and title box height; the minimal preset draws neither water nor buildings and keeps the base layer colours, opacities and title box colour and opacity; every other preset draws both |
| Styles.PresetKeepsUnassignedDefaults | styles.py:76-272 | a key that a preset's constructor does not assign holds the base default in that preset's configuration |
| Styles.PresetTitleDefaults | styles.py:22-52 | every preset's configuration has title size 56, subtitle size 24, no title box and title box height 0.12 |
| Styles.Find | styles.py:290 | a lookup that finds a preset found it under that key; a lookup that finds nothing means no entry has that key |
| Styles.ListStyles | styles.py:294-295 | eleven distinct names in declaration order, starting with "minimal", every preset's name among them |
| Styles.Position | styles.py:274-286 | each preset has a registry position holding its name and itself |
| Styles.RegistryNameInjective | styles.py:274-286 | no two presets share a registry name |
| Styles.RegistryNameIsLowercase | styles.py:274-286 | registry names are lower-case ASCII |
| Styles.RegistryPairs | styles.py:274-286 | each registry entry pairs a preset with its own registry name |
| Styles.ListedStyleResolves | styles.py:289-295 | each listed name resolves through get_style to the preset listed under it |
| Styles.GetStyle | styles.py:289-291 | a name whose lower case is registered yields the preset registered under it; any other name yields the minimal preset |
| Styles.GetStyleIgnoresCase | styles.py:289-291 | looking a name up gives the same preset as looking up its lower case |
| Styles.Merge | styles.py:307-309 | the merged configuration has the same keys; a key named in the object takes the object's value, whatever its type; every other key keeps its value |
| Styles.LoadCustomStyle | styles.py:298-310 | a missing file raises file-not-found; unparsable text raises a decode error; a non-object raises a value error; an object merges onto the base preset's seventeen keys, with unknown names ignored |
| Styles.OverlayKeepsKeys | styles.py:307-309 | the merge adds and removes no key |
| Styles.OverlayEmpty | styles.py:307-309 | an empty object leaves the configuration unchanged |
| Styles.OverlayIdempotent | styles.py:307-309 | merging the same object twice equals merging it once |
| Styles.OverlayIgnoresUnknownNames | styles.py:307-309 | names that are no configuration key make no difference to the merge |
| Styles.OverlaySingleKey | styles.py:307-309 | an object naming one key overwrites exactly that key |
| Styles.DarkWithRedStreets | styles.py:298-310 | a custom object with only a red street colour on the dark preset changes the street colour and keeps the dark background and every other dark value |
| Fetch.RoadFilter | map_poster.py:33-36 | a radius above 6000 selects the major-road filter; 6000 or less selects no filter |
| Fetch.Attempt | map_poster.py:39-66 | a named location is geocoded, and a failed geocoding ends the attempt with that fault after that one call; a geocoded location, or else two given coordinates, always leads to the graph request at that center with the radius and its filter; the missing-location error occurs iff no location is named and a coordinate is missing; the attempt succeeds iff it reaches the graph request and that request answers, holding the answered graph; a remote failure carries the fault of the geocoder or the graph loader that raised it |
| Fetch.LocationPrecedence | map_poster.py:40-63 | a named location is geocoded first, the coordinates make no difference, and it gives the center and the place name; a geocoded location, or else two given coordinates, succeed iff the graph request answers; without a location the coordinates are used as given, with no geocoding, and give a coordinate place label; with neither, the attempt fails with a missing-location error before any call; every graph request carries the radius and its filter |
| Fetch.AttemptIsQuiet | map_poster.py:39-63 | a single attempt never waits and keeps the call discipline |
| Fetch.JoinedSleeps | map_poster.py:66-72 | attempts that never wait, joined by the retry waits, hold one wait fewer than there are attempts |
| Fetch.JoinedDisciplined | map_poster.py:33-75 | joining disciplined attempts with five-second waits keeps the discipline: every wait lasts five seconds, every graph request carries the radius's filter, nothing is geocoded without a location |
| Fetch.Retry | map_poster.py:37-75 | attempts run in order until one succeeds, at most three; every attempt before the last one run failed; the result is the last attempt's outcome, so a failure is the third attempt's error re-raised; the calls are exactly the calls of the attempts run, in order, with one five-second wait between consecutive attempts |
| Fetch.FetchMapData | map_poster.py:30-75 | the retry loop applied to the attempts of fetch_map_data: the same guarantees stated per attempt, including the missing-location error being retried, and the calls are those attempts' calls joined by five-second waits |
| Layers.Tags | map_poster.py:80-86 | "building" is requested iff buildings are drawn; "water", "waterway" and "natural" (water, bay, harbour, coastline) are requested iff water is drawn; nothing else |
| Layers.Present | map_poster.py:98 | the water columns kept are exactly the candidates present in the table |
| Layers.Select | map_poster.py:97-100 | the rows kept are exactly those non-null in one of the columns |
| Layers.FetchLayers | map_poster.py:77-101 | a missing center or no toggle returns no layers without a request; a failed request returns no layers; a building layer exists iff the table has a building column and holds exactly its non-null rows; a water layer exists iff a water column is present and holds exactly the rows non-null in one of them |
| Layers.RowInBothLayers | map_poster.py:96-100 | a feature tagged both as a building and as natural water lands in both layers |
| Compose.Draws | map_poster.py:120-157 | drawing order is water, buildings, streets; water and buildings are drawn iff their data is present and non-empty and their toggle is on, with their colour and opacity defaults and z-orders 1 and 2; streets are always drawn last with the style's colour and width |
| Compose.Compose | map_poster.py:117-160 | nothing is registered unless exporting; when exporting, the registrations correspond one to one with the drawing calls: each carries the drawn layer's own data, the exact colour and weight passed to its drawing call, and the figure size |
| Compose.RegistrationGating | map_poster.py:117-160 | when exporting, water is registered iff its data is present and non-empty and its toggle is on, likewise buildings; streets are always registered; registrations follow the order water, buildings, streets |
| Compose.StreetsRegisteredWithWidth | map_poster.py:158-160 | the street entry carries the street width in the slot the export reads as line width |
| Compose.ThreeLayersRegistered | map_poster.py:117-160 | with both toggles on and non-empty data, water, buildings and streets are registered in that order |
| Compose.WaterToggleGatesRegistration | map_poster.py:121-133 | with water off, no water layer is registered whatever water data was fetched |
| Export.Render | map_poster.py:220-239 | the street layer is plotted as a network with its weight as the edge line width; any other layer is plotted as features with its weight as the opacity; both use the layer's own data and colour |
| Export.RenderedOrSkipped | map_poster.py:219-245 | every layer is either rendered or skipped, and a layer is skipped exactly when its rendering raises |
| Export.LayerStepsEffect | map_poster.py:219-256 | a layer that renders saves `<name>.png` in the export directory; a layer whose rendering raises saves nothing and is skipped |
| Export.TraceSavesRendered | map_poster.py:210-256 | over layers that complete, the files saved are exactly the rendered layers' `<name>.png`, in order, and the skipped layers are exactly the others |
| Export.ExportCompletes | map_poster.py:203-256 | an export in which every save returns creates the directory first and saves exactly the rendered layers' files |
| Export.ExportStops | map_poster.py:247-256 | an export whose save of a layer raises has saved exactly the files of the rendered layers before it |
| Export.TraceRenders | map_poster.py:210-239 | the loop's drawing calls are exactly the renderings of the layers that do not fail to render, each with its stored data, colour and weight |
| Export.ExportLayers | map_poster.py:201-256 | the directory is created first; the export completes iff no rendered layer's save raises, and then its steps are exactly the directory creation followed by each layer's render and save, or skip, in order; otherwise the error is the first layer whose save raises, and the steps stop after that layer's render, having saved exactly the earlier rendered layers' files |
| Poster.Title | map_poster.py:107 | the title is the given title text when non-empty, otherwise the place name, upper-cased: it has no lower-case letter, lowers to the chosen text's lower case, and holds a Kelvin sign only where the chosen text does; a coordinate label is kept as it is |
| Poster.TitleIdempotent | map_poster.py:107 | a non-empty title passed back in as the title text comes out unchanged, whatever the place |
| Poster.Subtitle | map_poster.py:108 | a subtitle is kept iff it is a non-empty string |
| Poster.FrontLayout | map_poster.py:110-183 | the figure comes first with the background colour; the layer request, when one is made, precedes all drawing; the drawing calls follow in order; the bold title comes next, and the subtitle comes last exactly when one is given |
| Poster.FrontWritesNothing | map_poster.py:110-183 | nothing before the poster save writes a file |
| Poster.RegisteredLayers | map_poster.py:117-160 | nothing is registered unless exporting; when exporting, at least the street layer is, and last |
| Poster.SaveAndExport | map_poster.py:186-199 | the poster is saved after everything drawn; the error is the poster-save error iff that save raises, and then nothing is exported; the export runs iff a directory is given, layers are registered and the save returned; it then reports no error iff every rendered layer's save returns, and otherwise the first layer whose save raised, after exactly the earlier rendered layers' files; the exported steps are the directory creation and each registered layer's render calls with its stored colour and weight, saves and skips, in order |
| Poster.CreatePoster | map_poster.py:103-199 | the drawing events come first; then the poster save with the background colour, whose failure is reported as the poster-save error and ends the call; then, iff an export directory is given and the save returned, the export of the registered layers into that directory, with no error iff every rendered layer's save returns and otherwise the first layer whose save raised, after exactly the earlier rendered layers' files; the exported steps are the directory creation and each registered layer's render calls with its stored colour and weight, saves and skips, in order |

## Left out

- Network access is not modelled: geocoding, the street graph download and the geometry download are parameters given per attempt or per call.
- Rendering is not modelled: the plotting library's drawing, figure handling and closing are recorded as events or left out.
- Fetch.Retry: the five-second wait is counted as a call, not timed.
- Fetch.FetchMapData: it takes exactly one service answer per possible attempt (three), which fixes what each attempt would return.
- Progress printing (`print_progress`) and console messages are left out; they have no effect on results.
- The coordinate place label `f"{lat:.4f}°, {lon:.4f}°"` is kept as the two numbers (`Fetch.Label.Coordinates`). Its decimal formatting is not modelled. The coordinates are finite (Dafny reals are neither infinite nor NaN), so the text holds digits, signs, points, commas, spaces and degree signs only and upper-casing it changes nothing; the program's `inf` and `nan` labels for such floats are not modelled.
- Text.Upper: only the single-character mappings of ASCII, Latin-1 and basic Cyrillic letters are modelled. Python's full Unicode mapping is not: 'ß' becomes "SS", 'ÿ' and 'µ' map outside Latin-1, Greek and other scripts are not covered.
- Text.Lower: only ASCII, Latin-1, basic Cyrillic and the Kelvin sign are modelled. This is exact for the registry lookup, because no other character lowers to a string of ASCII letters only (the dotted capital I lowers to 'i' followed by a combining dot, which no registry name holds).
- Styles.LoadCustomStyle: a path that exists but cannot be read as UTF-8 text (a directory, a file without read permission, invalid UTF-8) is not modelled; it raises from the read in the program.
- Json values hold floats as exact decimals; NaN and infinities are not modelled.
- Poster.CreatePoster: a style without the keys the code indexes directly is excluded by a precondition, not modelled as a raised KeyError. The keys are background colour, street colour and width, title size and colour, and, with a subtitle, subtitle size and colour.
- Poster.CreatePoster: the poster's dpi, text positions other than the title and subtitle anchors, font family, and the axes' margins are not modelled.
- `generate` and `create_map_poster` are left out. They only pass arguments through, create the output's parent directory, and compute the figure size as pixels / 300.
- The command-line front end (`main.py`) is left out.
- The title box settings are carried as data only; the code never draws a title box.
- Export.ExportLayers: failures of creating the export directory are not modelled.
