# imageit-panel: value resolution, option updates and sensor-list editing

This project models the data logic of a dashboard panel that overlays "sensor"
widgets on a background image. It covers two files.

- `src/ImageItPanel.tsx`. For each configured sensor, the panel finds the first
  data series that holds a field answering the sensor's query. It then resolves
  the sensor's value on one of two paths:
  - the label lookup, used when the query id is `"app"`. It reads the last value
    of the first field named `"app"` whose `"tile"` label matches the alias.
  - the display lookup, used for any other id. It takes the numeric value of the
    first reduced display whose title contains the alias.

  The panel also resolves the sensor's mapping ids to mapping rules. It writes a
  dragged sensor's new position into a deep copy of the options. It chooses the
  image URL, adding a cache-busting token when a refresh is forced.
- `src/customEditors/EditorSensorList.tsx`. The editor for the sensor list. It
  replaces, splices out or pushes entries of the host's own array in place, then
  passes that same array to `onChange`.

Modules:
- `Wrappers`: the `Option` type.
- `Search`: the JavaScript library operations the code relies on: `find`,
  filtering out `undefined`, and `String.prototype.includes`. `FindIndex` is a
  helper that `Find` is built on; the source never calls `findIndex`.
- `Types`: the sensor, query, mapping and options records, plus the parts of the
  host's data frames and display values that the panel reads.
- `ImageItPanel` and `EditorSensorList`: one module per source file.

The lookups are functions, and their contracts say which element is chosen:
always the first one that qualifies. The position update is a method on values,
because `cloneDeep` gives a copy that shares nothing with the input. The editor
works on a class `SensorArray`, which stands for the JavaScript array object.
`SensorListEditor` holds a reference to that array and keeps a log of the
calls to `onChange`: for each call, the array passed and the contents it held
at that moment. So "notified once, after the edit, with the mutated array
itself" is stated as reference identity plus the edited contents.

The model follows the code; in particular:
- Sensor positions are not clamped in these files.
- The label test lets unlabelled fields through, and the value is then read only
  from labelled fields. So an unlabelled first match shadows a later labelled
  field (`UnlabelledFieldShadowsLaterTile`).
- Series selection looks only at field names. So on the "app" query the first
  series holding any "app" field is read, even when its tile differs and a later
  series carries the requested tile (`AppSeriesShadowsLaterTile`).
- The display lookup also requires a non-empty title. So an empty alias picks
  the first display with a non-empty title, not simply the first display.
- The editor changes the host's array in place. It does not build a new list.
- Mapping conditions are not evaluated here.

## Model

| member | source | states |
|---|---|---|
| `Search.Find` | src/ImageItPanel.tsx:80-84 | `find` returns undefined exactly when no element qualifies; otherwise it returns the element at the first qualifying position, and at whatever position is known to be the first qualifying one |
| `Search.IncludesIff` | src/ImageItPanel.tsx:109 | `includes` holds exactly when the searched text occurs at some position of the title |
| `Search.DefinedAppend` | src/ImageItPanel.tsx:119 | filtering out undefined entries distributes over concatenation, so relative order is kept |
| `ImageItPanel.HasMatchingField` | src/ImageItPanel.tsx:81-83 | a series qualifies exactly when one of its fields has the query's id as its name, or the id is empty |
| `ImageItPanel.SelectSeries` | src/ImageItPanel.tsx:80-84 | the selected series is the first, in order, that has a matching field; no series is selected exactly when none has one |
| `ImageItPanel.SelectSeriesAt` | src/ImageItPanel.tsx:80-84 | the first matching series, wherever it lies, is the one selected |
| `ImageItPanel.EmptyIdSelectsFirstSeriesWithFields` | src/ImageItPanel.tsx:82 | with an empty id any field matches, so the first series that has any field is selected |
| `ImageItPanel.SentinelField` | src/ImageItPanel.tsx:90-94 | the chosen field is the first one that passes the name test and the lenient tile-label test; none is chosen exactly when no field passes both |
| `ImageItPanel.SentinelFieldRespectsTile` | src/ImageItPanel.tsx:89-94 | on the "app" query the chosen field is named "app", and a labelled field whose tile differs from a non-empty alias is never chosen |
| `ImageItPanel.LastValue` | src/ImageItPanel.tsx:96 | reading index length-1 gives the last value, and undefined for an empty list rather than a fault |
| `ImageItPanel.SentinelValue` | src/ImageItPanel.tsx:89-97 | with no passing field the value is undefined; otherwise the value is the last value of the first passing field when that field carries labels and has values, and undefined when it does not |
| `ImageItPanel.UnlabelledFieldShadowsLaterTile` | src/ImageItPanel.tsx:90-97 | an unlabelled "app" field placed first is chosen and yields undefined, even though a later field carries the requested tile |
| `ImageItPanel.AppSeriesShadowsLaterTile` | src/ImageItPanel.tsx:80-97 | a first series whose "app" field has another tile is the one read, so the value is undefined even though a later series carries the requested tile |
| `ImageItPanel.EmptyValuesAreUnresolved` | src/ImageItPanel.tsx:95-96 | a labelled "app" field with no values yields undefined |
| `ImageItPanel.GeneralValue` | src/ImageItPanel.tsx:109-112 | the value is the numeric value of the first display whose title is non-empty and contains the alias, and a defined value always comes from that display; with no such display it is undefined |
| `ImageItPanel.GeneralValueAt` | src/ImageItPanel.tsx:109-112 | the first qualifying display, wherever it lies, supplies the value |
| `ImageItPanel.EmptyAliasPicksFirstTitled` | src/ImageItPanel.tsx:109 | an empty alias selects the first display with a non-empty title |
| `ImageItPanel.SensorValue` | src/ImageItPanel.tsx:80-114 | when no series has a matching field the value stays undefined; otherwise, on the first matching series, the label lookup alone decides on "app" and the display lookup alone decides on any other id |
| `ImageItPanel.SentinelIgnoresReduction` | src/ImageItPanel.tsx:89-107 | the "app" query never consults the display reduction |
| `ImageItPanel.SentinelScenario` | src/ImageItPanel.tsx:80-97 | a field named "app" with tile "roomA" and values 5, 9 yields 9 for alias "roomA" and undefined for alias "roomB" |
| `ImageItPanel.LookupMapping` | src/ImageItPanel.tsx:118 | an id resolves to the first mapping carrying it, and to nothing exactly when no mapping carries it |
| `ImageItPanel.ResolveMappings` | src/ImageItPanel.tsx:117-119 | the resolved list is no longer than the id list |
| `ImageItPanel.ResolveMappingsAppend` | src/ImageItPanel.tsx:117-119 | resolution works id by id: the result for concatenated ids is the concatenation of the results, so the order follows the ids |
| `ImageItPanel.ResolveMappingsSingle` | src/ImageItPanel.tsx:117-119 | a single id gives the first mapping with that id, or nothing |
| `ImageItPanel.UnresolvedIdDropped` | src/ImageItPanel.tsx:119 | an id no mapping carries is dropped without disturbing the others |
| `ImageItPanel.ResolveMappingsAllResolved` | src/ImageItPanel.tsx:117-119 | when every id resolves, entry i is the first mapping with id i, and repeated ids give repeated mappings |
| `ImageItPanel.ResolvedMappingsComeFromIds` | src/ImageItPanel.tsx:117-119 | every resolved mapping is one of the panel's mappings and carries one of the sensor's ids |
| `ImageItPanel.ProjectSensors` | src/ImageItPanel.tsx:76-119 | one value and one mapping list per sensor, in the sensors' order, each computed from that sensor's own query and ids |
| `ImageItPanel.OnSensorPositionChange` | src/ImageItPanel.tsx:57-62 | the emitted options equal the input except that sensor index has the new position; nothing else changes and the input is untouched |
| `ImageItPanel.MovingKeepsViews` | src/ImageItPanel.tsx:57-119 | moving a sensor changes no sensor's resolved value or mappings |
| `ImageItPanel.ImageUrl` | src/ImageItPanel.tsx:35-41 | the URL is the configured one when no refresh is forced; otherwise it is the configured one followed by "?" and the token |
| `EditorSensorList.DefaultNewSensor` | src/customEditors/EditorSensorList.tsx:11-32 | the new sensor sits at (50, 50) with no mappings, query id "A" and empty alias, visible, two decimals, no unit, no blinking, not bold |
| `EditorSensorList.Replaced` | src/customEditors/EditorSensorList.tsx:41 | index assignment keeps the length, puts the sensor at the index and leaves every other entry |
| `EditorSensorList.Spliced` | src/customEditors/EditorSensorList.tsx:47 | splicing one entry shortens the list by one, keeps the entries before the index and shifts those after it down by one |
| `EditorSensorList.Pushed` | src/customEditors/EditorSensorList.tsx:53 | pushing grows the list by one, keeps the existing prefix and puts the sensor last |
| `EditorSensorList.SpliceUndoesPush` | src/customEditors/EditorSensorList.tsx:46-56 | splicing out the entry just pushed restores the list |
| `EditorSensorList.SplicedKeepsOrder` | src/customEditors/EditorSensorList.tsx:47 | the entries that survive a splice keep their relative order |
| `EditorSensorList.SensorListEditor.OnSensorChange` | src/customEditors/EditorSensorList.tsx:40-44 | the host's array now has the sensor at the index and nothing else changed; `onChange` was called once, with that same array, after the edit (it saw the edited contents) |
| `EditorSensorList.SensorListEditor.OnSensorDelete` | src/customEditors/EditorSensorList.tsx:46-50 | the host's array lost the entry at the index; `onChange` was called once, with that same array, after the splice |
| `EditorSensorList.SensorListEditor.AddNewSensor` | src/customEditors/EditorSensorList.tsx:52-56 | the host's array gained the default sensor at its end; `onChange` was called once, with that same array, after the push |
| `EditorSensorList.AddThenDeleteLast` | src/customEditors/EditorSensorList.tsx:46-56 | adding a sensor and then deleting the last entry restores the array's contents; the two notifications passed that array, first with the default sensor appended, then with the original contents |

## Left out

- Rendering, JSX, the styles, and React's `useState`/`useEffect`/`useRef` scheduling (src/ImageItPanel.tsx:26-33, 64-75, 121-179). The image URL is a function of the options and the token, not a state update.
- Measuring the image (src/ImageItPanel.tsx:43-55) and the font-size expression (line 72): browser I/O and floating-point CSS arithmetic.
- `getFieldDisplayValues` with the "last" reducer, which is host library code. It is the parameter `reduce`, which maps a series to its display list.
- `uniqueId` is the parameter `token`. `replaceVariables`, `library.add(fas)` and the icon and link plumbing are not modelled.
- The sensor widget and the sensor-item editor are not part of this model. Mapping condition evaluation, colour and blink selection, and any clamping of dragged positions live there.
- Numbers are modelled as `real`. No arithmetic is done on them here, so floating point does not arise.
- `ImageItPanel.GeneralValue`: an absent alias is modelled as the empty alias. On the display lookup, JavaScript would search for the text "undefined" instead.
- `ImageItPanel.OnSensorPositionChange`: indices are natural numbers below the list length. An index outside the list makes the source throw on `sensors[index].position`.
- `EditorSensorList.SensorListEditor.OnSensorChange`: negative or out-of-range indices are excluded by `requires`. In JavaScript they would create holes or be ignored.
- `EditorSensorList.SensorListEditor.OnSensorDelete`: negative or out-of-range indices are excluded by `requires`. In JavaScript a negative `splice` index counts from the end.
- `EditorSensorList.SensorListEditor.AddNewSensor`: `Sensor` is a value type. So pushing the same default object twice does not produce two aliases of one object, as it does in the source.
- The option records' other types (src/types/SimpleOptions.ts, src/types/Sensor.ts, src/types/Mapping.ts) are not part of this model. Their fields are taken from what the two modelled files read and write, and a mapping's condition and overrides are kept as uninterpreted attributes.
