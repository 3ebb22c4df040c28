# Optical setup designer — a verified model of its data logic

The optical setup designer is a small web application. Users drag optical components
(lenses, mirrors, beam splitters, fibres, detectors) onto a 12 × 8 grid and edit their
settings. They then send the layout to a `/simulate` endpoint, which answers with
synthetic rays and a frequency response, as JSON or as CSV. The browser can plot that
response, and it can export and import the layout as a JSON file.

This project models the deterministic part of that application in Dafny and proves
properties of the model:

- **`Json`** (`json.dfy`) models the JSON values the JavaScript code handles.
  - Objects are ordered property lists, as in JavaScript.
  - It also models property reads, `||`, `??`, object spread, `String(n)`,
    `JSON.stringify` and `Array.prototype.join`.
- **`Simulate`** (`simulate.dfy`) models the `POST /simulate` handler.
  - It takes the component list out of the payload and validates it.
  - It builds the frequency list: the default list, or a clamped linear sweep.
  - It produces three rays per component and one sample per component and frequency.
  - It renders the samples as CSV, or returns the JSON answer.
- **`SimulationProperties`** (`simulate_props.dfy`) proves what the handler answers.
  - It states which response a request gets and the shape of the sweep.
  - It states where each ray and each sample sits in the output, and their defaults.
  - It proves that the CSV text splits back into its lines, and that each row's frequency
    and amplitude read back as the JSON sample's.
  - It works an example lens, c1, through to its three rays (LensC1Rays, UnitLensRays).
- **`App`** (`app.dfy`) models the layout state as the class `Layout`.
  - The state is the item list, the selected id and the last simulation result.
  - Its operations are add, update-by-id, move and remove.
  - It also models the normalisation an import applies, and the export payload.
- **`Grid`** (`grid.dfy`) models the drop rule and the 96 cells.
  - A drop either moves an existing instance or adds a new item with per-type
    defaults.
  - Each of the 96 cells shows the items placed on it.
- **`SimulationPanel`** (`chart.dfy`) models the panel that runs a simulation.
  - It builds the request body.
  - Its `Panel` class holds the loading, error and chart state of one run.
  - It turns the samples into chart labels and one dataset per component group.
- **`Settings`** (`settings.dfy`) models the settings panel.
  - It finds the selected item.
  - It models `parseInt` as used for the rotation field.
  - It builds the one-key patch a change sends, and lists the fields each type offers.

How the model represents things:

- Numbers are exact rationals.
- The values that come from outside are parameters: `uid()`, `Date.now()`, `parseFloat`,
  `Number` of a typed text, the amplitude curve, the fetch outcome and the export `meta`.

## Model

| member | source | states |
|---|---|---|
| Json.Lookup | server/index.js:33 | a property read finds a value exactly when the object has that key |
| Json.LookupPut | src/App.jsx:24 | after a key is defined, reading it gives the new value; every other key reads as before |
| Json.KeysPut | src/App.jsx:24 | an existing key keeps its position; a new key is appended at the end |
| Json.UniqueKeysPut | src/App.jsx:24 | defining a key keeps the keys distinct |
| Json.LookupAssign | src/App.jsx:24 | in `{...t, ...s}`, a key of `s` reads from `s` and every other key reads from `t` |
| Json.KeysAssign | src/App.jsx:24 | the keys of a spread result are the keys of the target together with the keys of the source |
| Json.UniqueKeysAssign | src/App.jsx:24 | spreading never duplicates a key |
| Json.AssignOverSameKeys | src/App.jsx:42-51 | spreading an object over a record that holds its first keys in the same order replaces those defaults in place |
| Json.AssignFresh | src/App.jsx:24 | `{...o}` of an object with distinct keys is a copy of it |
| Json.NatText | server/index.js:102 | the decimal text of a whole number is non-empty and made only of digits |
| Json.NumberText | server/index.js:102-103 | `String(n)` uses only digits, a point and a minus sign |
| Json.IntegerNumberText | server/index.js:102 | `String` of a whole number is its plain digit text |
| Json.NumberTextValue | server/index.js:102-103 | `String(r)` of a number with at most k decimals, k up to 20, reads back as r |
| Json.NumberTextInjective | server/index.js:102-103 | two numbers with at most k decimals have the same text only when they are equal |
| Json.JoinNoLineBreak | server/index.js:105 | joining parts without CR and LF, using a separator without them, gives text without them |
| Json.EscapeStringNoLineBreak | server/index.js:100-101 | `JSON.stringify` of a string escapes every CR and LF |
| Json.StringifyNoLineBreak | server/index.js:100-101 | JSON text never contains a raw CR or LF |
| Simulate.Max | server/index.js:47-49 | `Math.max` is the larger of its two arguments |
| Simulate.Round | server/index.js:53 | `Math.round` is the integer within half a unit, with halves rounded up |
| Simulate.Trunc | server/index.js:65 | truncation rounds toward zero and keeps the sign |
| Simulate.Mod360 | server/index.js:65 | JavaScript `% 360` lies in [0, 360) for a non-negative dividend and in (-360, 0] for a negative one; it differs from the dividend by a whole multiple of 360 |
| Simulate.RoundHalfAway | server/index.js:72 | rounds to the nearest integer, with halves away from zero |
| Simulate.ToFixed3 | server/index.js:72 | `parseFloat(x.toFixed(3))` is a multiple of 0.001 within half of 0.001 of `x`, with the sign of `x` |
| Simulate.ToFixed4 | server/index.js:87 | `parseFloat(x.toFixed(4))` is a multiple of 0.0001 within half of 0.0001 of `x`, with the sign of `x` |
| Simulate.SweepOf | server/index.js:46-49 | a recognised sweep has start ≥ 0, stop ≥ 0 and at least two points |
| Simulate.BuildFrequencies | server/index.js:45-55 | without a sweep the list is exactly the default list; with one it has `points` entries, and entry i is round(start + (stop − start)·i/(points − 1)) |
| Simulate.GenerateStep | server/index.js:60-90 | one more component appends its three rays and its samples to the output |
| Simulate.ComponentRays | server/index.js:64-74 | the inner ray loop produces the component's rays 0, 1 and 2, in that order |
| Simulate.ComponentSamples | server/index.js:77-89 | the inner frequency loop produces one sample per frequency, in frequency order |
| Simulate.Generate | server/index.js:60-90 | the component loop throws exactly when a component is null; otherwise its rays and samples are those of every component, in component order |
| Simulate.RenderCsv | server/index.js:96-107 | the CSV text is the header and the rows joined by CR LF; it splits back into exactly those lines |
| Simulate.CsvLinesStep | server/index.js:98-106 | each pass of the row loop appends one sample's row at the end |
| Simulate.HandleSimulate | server/index.js:30-115 | the handler's answer is the one the declarative `Simulation` describes |
| Simulate.SplitJoin | server/index.js:107 | splitting at CR LF undoes joining lines that contain no CR or LF |
| Simulate.CsvRowNoLineBreak | server/index.js:99-105 | a CSV row contains no CR or LF |
| Simulate.CsvLinesNoLineBreak | server/index.js:96-106 | neither the header nor any row contains a CR or LF |
| Simulate.CsvSplitsIntoLines | server/index.js:96-107 | the CSV body splits into the header and one row per sample, 1 + \|samples\| lines with no terminator after the last |
| SimulationProperties.Outcomes | server/index.js:40-114 | a non-array list gets 400 with the fixed error body; a list holding null gets 500; every other request gets CSV exactly when CSV is asked for, and JSON otherwise |
| SimulationProperties.ComponentSources | server/index.js:32 | the component list is the body when that is an array; otherwise its truthy `components`; otherwise `[]` |
| SimulationProperties.NonArrayComponentsRejected | server/index.js:32-42 | a truthy non-array `components` member gets 400 with `{error: 'components must be an array'}` |
| SimulationProperties.NoComponentsNoOutput | server/index.js:32-114 | a JSON answer to a body without `components` has no rays and no samples |
| SimulationProperties.CsvSelection | server/index.js:93 | `format=CSV` and an Accept header listing `text/csv` select CSV; `format=json` does not |
| SimulationProperties.ContainsAt | server/index.js:93 | `includes` finds an occurrence at any position |
| SimulationProperties.ContainsFrom | server/index.js:93 | when `includes` succeeds, the text occurs at some position |
| SimulationProperties.LowerIsCsv | server/index.js:93 | lower-casing gives "csv" exactly for the three-letter spellings c/C, s/S, v/V |
| SimulationProperties.CsvChoice | server/index.js:93 | CSV is chosen exactly when `format` spells csv in any letter case or the Accept header holds "text/csv" at some position |
| SimulationProperties.SweepIffRequested | server/index.js:46-49 | a sweep is used exactly when `freqSweep` is truthy and its start, stop and points are numbers with points > 1 |
| SimulationProperties.DefaultWithoutSweep | server/index.js:45-46 | every request failing that test gets exactly [100, 500, 1000, 5000, 10000]: no `freqSweep`, a null or false one, a non-number field, or points ≤ 1 |
| SimulationProperties.SweepEndpoints | server/index.js:46-54 | a sweep list has `points` ≥ 2 entries; the first is round(start) and the last round(stop), after clamping |
| SimulationProperties.SweepPointEnds | server/index.js:51-53 | sweep entry 0 is round(start) and the last entry is round(stop) |
| SimulationProperties.SweepMonotone | server/index.js:51-53 | when start ≤ stop, a later sweep entry is never smaller |
| SimulationProperties.AscendingSweepSorted | server/index.js:46-54 | an ascending sweep gives a non-decreasing frequency list |
| SimulationProperties.SweepOfNumbers | server/index.js:46-49 | numeric start, stop and points > 1 give the sweep clamped at 0, with max(2, floor(points)) points |
| SimulationProperties.FiveStepSweep | server/index.js:46-54 | 100 to 10000 Hz in 5 points gives [100, 2575, 5050, 7525, 10000] |
| SimulationProperties.FiveStepPoints | server/index.js:51-53 | the five points of the 100 to 10000 sweep are 100, 2575, 5050, 7525 and 10000 |
| SimulationProperties.SinglePointIgnored | server/index.js:46 | a point count of 1 is not a sweep, so the default list is used |
| SimulationProperties.FractionalPointsRaised | server/index.js:46-49 | a point count of 1.5 passes the test and becomes two points, [0, 10] |
| SimulationProperties.RayCount | server/index.js:60-74 | there are exactly three rays per component |
| SimulationProperties.RayIndex | server/index.js:60-74 | ray 3k + i is ray i of component k, so the rays follow component order |
| SimulationProperties.RayDefaults | server/index.js:67-69 | a ray's id is null when the component's id is absent or falsy and is that id otherwise; its type is "unknown" when absent or falsy and is that type otherwise; its origin x and y are 0 when absent or null, and are carried over otherwise |
| SimulationProperties.SampleDefaults | server/index.js:84-86 | a sample carries the frequency it was taken at and the component's id and type, with the same fallbacks as a ray |
| SimulationProperties.DefaultLengths | server/index.js:71 | without a focal length, the rays are 100, 110 and 120 long |
| SimulationProperties.DirectionRange | server/index.js:65 | when the sum is non-negative the direction lies in [0, 360); when it is negative the direction lies in (-360, 0]; either way it differs from the sum by a multiple of 360 |
| SimulationProperties.IntensityNonNegative | server/index.js:61-72 | non-negative reflectivity and sensitivity give rays of non-negative intensity |
| SimulationProperties.SampleCount | server/index.js:60-90 | there are \|components\| × \|frequencies\| samples |
| SimulationProperties.SampleIndex | server/index.js:60-89 | sample k·\|freqs\| + j is component k at frequency j |
| SimulationProperties.SampleAmplitude | server/index.js:79-87 | an amplitude is ≥ 0 and has at most four decimals |
| SimulationProperties.ToFixed4Monotone | server/index.js:87 | `parseFloat(x.toFixed(4))` keeps the order of non-negative numbers |
| SimulationProperties.AmplitudeOrder | server/index.js:79-87 | wherever the curve is no higher at frequency g than at f, the amplitude at g is no higher either: the clamp and the rounding keep the curve's fall with frequency |
| SimulationProperties.UnitLensRays | server/index.js:60-74 | a component with rotation 0, focal length 100 and base intensity 1, at angle 0, gives rays at 0, 10 and 20 degrees, 100, 110 and 120 long, with intensities 1.0, 0.9 and 0.8 |
| SimulationProperties.LensC1Rays | server/index.js:60-74 | the lens c1 with rotation 0, reflectivity, sensitivity 1, focal length 100 and noise 0 gives exactly those three rays, each carrying id "c1" and type "lens" |
| SimulationProperties.AllSamplesWellFormed | server/index.js:77-89 | every sample has a non-negative amplitude and one of the listed frequencies |
| SimulationProperties.CsvRowNumbers | server/index.js:99-105 | the last two fields of a sample's CSV row read back as its frequency and its amplitude |
| SimulationProperties.CsvLinesNumbers | server/index.js:96-107 | line k + 1 of the CSV text reads back as the frequency and amplitude of sample k |
| SimulationProperties.CsvMatchesJson | server/index.js:93-114 | the CSV answer to a body is given exactly when the JSON answer is; it has the header and one line per JSON sample, and line k + 1 reads back as the frequency and amplitude of JSON sample k |
| SimulationProperties.AnswerSizes | server/index.js:60-107 | a JSON answer has 3 rays per component and \|components\| × \|frequencies\| samples; a CSV answer splits into 1 + that many lines |
| App.Updated | src/App.jsx:23-24 | an update keeps the list length, and a list of objects stays a list of objects |
| App.Moved | src/App.jsx:25 | a move keeps the list length |
| App.UpdateMergesPatch | src/App.jsx:23-24 | an item without the id is untouched; for an item with it, every key of the patch reads from the patch and every other key reads from the item |
| App.UpdateUnknownId | src/App.jsx:23-24 | an id no item carries leaves the list equal |
| App.UpdateKeepsIds | src/App.jsx:23-25 | a patch without `id` keeps every item's id |
| App.UpdateKeepsUniqueKeys | src/App.jsx:24 | an update keeps each item's keys distinct |
| App.MoveChangesOnlyPosition | src/App.jsx:25 | a move sets `x` and `y` of the matching items and changes nothing else, in them or in any other item |
| App.RemovedMembers | src/App.jsx:26 | the kept items are exactly the items without the id |
| App.RemovedConcat | src/App.jsx:26 | removal distributes over concatenation, so the kept items keep their relative order |
| App.RemovedUnknownId | src/App.jsx:26 | removing an id no item carries is a no-op |
| App.RemovedLength | src/App.jsx:26 | removal shrinks the list by exactly the number of items with the id |
| App.BaseRecord | src/App.jsx:43-49 | the default record has the keys id, type, x, y, rotation, label, color, in that order |
| App.Normalise | src/App.jsx:42-52 | a normalised component is an object with distinct keys |
| App.NormaliseAll | src/App.jsx:42-52 | normalisation gives one output per input, each an object with distinct keys, and a canonical entry comes out unchanged |
| App.ImportFile | src/App.jsx:38-53 | an import succeeds only when the component list is an array, and then gives one object per component |
| App.ExportPayload | src/App.jsx:86-89 | the exported payload holds the items under `components` and the meta under `meta` |
| App.AssignOverBase | src/App.jsx:42-51 | spreading an item whose first keys are the base keys over the defaults gives the item itself |
| App.NormaliseCanonical | src/App.jsx:42-52 | normalising an item that has the base fields and no `properties` gives it back unchanged |
| App.ExportImportRoundTrip | src/App.jsx:39-89 | importing the exported payload of canonical items gives back exactly those items |
| App.NormaliseLookup | src/App.jsx:42-52 | every key of the entry keeps the entry's value; any other key comes from `properties`, and failing that from the defaults |
| App.NormaliseField | src/App.jsx:43-49 | a base field missing from the entry and from its properties takes the default value |
| App.NormaliseDefaults | src/App.jsx:43-49 | an entry with no base fields gets id `imp-<now>-<idx>`, type "unknown", x, y and rotation 0, label "component" and color "#ffcc00" |
| App.ImportFailures | src/App.jsx:39-40 | an import fails with the missing-array error exactly when the list is not an array; it fails on null exactly when the file or an entry is null |
| App.Layout.constructor | src/App.jsx:8-16 | the initial state is the restored items, with no selection and no result |
| App.Layout.AddItem | src/App.jsx:22 | the item is appended at the end |
| App.Layout.UpdateItem | src/App.jsx:23-24 | the list becomes its update by id |
| App.Layout.MoveItem | src/App.jsx:25 | the list becomes its move by id |
| App.Layout.RemoveItem | src/App.jsx:26 | the list becomes its removal by id |
| App.Layout.SetSelectedId | src/App.jsx:15 | the selection is set |
| App.Layout.SetSimulationResult | src/App.jsx:16 | the result is set |
| App.Layout.Import | src/App.jsx:36-60 | a successful import replaces the list with the normalised components; a failed one reports its cause and leaves the list untouched |
| App.Layout.Export | src/App.jsx:86-88 | the export holds the current items under `components` |
| Grid.TypeDefaults | src/components/Grid.jsx:26-45 | the per-type defaults have distinct keys, and none of them is a base key |
| Grid.NewItem | src/components/Grid.jsx:47-56 | the new item is the base record followed by the type's defaults |
| Grid.HandleDrop | src/components/Grid.jsx:12-60 | an instance id moves that instance to the cell and selects it, even when a type is also given; a type alone appends one new item and selects its fresh id; a drop with neither changes nothing |
| Grid.NewItemShape | src/components/Grid.jsx:47-56 | a new item has the fresh id, x and y of the cell, rotation 0, label = type and color "#ffcc00", in base order, with distinct keys |
| Grid.TypeDefaultsTable | src/components/Grid.jsx:27-45 | lens gets focalLength 50 and aperture 25; mirror angle 0 and reflectivity 0.95; beamsplitter splitRatio 0.5; fiber length 100 and coreDiameter 9; detector sensitivity 1 and noise 0.01; any other type gets nothing |
| Grid.Cells | src/components/Grid.jsx:66-92 | the nested loops build the 96 cells in row-major order, rows outside and columns inside |
| Grid.CellItemsMembers | src/components/Grid.jsx:71 | a cell lists exactly the items whose x and y equal its coordinates |
| Grid.CellItemsConcat | src/components/Grid.jsx:71 | the per-cell filter keeps list order |
| Grid.CellContents | src/components/Grid.jsx:67-71 | cell k is at column k mod 12 and row k div 12, and shows exactly the items placed there |
| Grid.AtMostOneCell | src/components/Grid.jsx:66-71 | no item shows in two cells |
| Grid.ShownSomewhere | src/components/Grid.jsx:66-71 | an item shows in some cell exactly when x is a whole number in 0..11 and y a whole number in 0..7 |
| Grid.ShownInItsCell | src/components/Grid.jsx:66-71 | an item at whole in-grid coordinates shows in cell 12y + x |
| Grid.WholeWhenShown | src/components/Grid.jsx:66-71 | an item shown in a cell has whole in-grid coordinates |
| SimulationPanel.Insert | src/components/SimulationPanel.jsx:46 | inserting into a strictly increasing list keeps it strictly increasing and adds exactly that value |
| SimulationPanel.Labels | src/components/SimulationPanel.jsx:46 | the labels are the distinct frequencies of the samples, strictly ascending |
| SimulationPanel.KeyOrderSpec | src/components/SimulationPanel.jsx:48-56 | the group keys are distinct and are exactly the keys of the samples |
| SimulationPanel.InGroupMembers | src/components/SimulationPanel.jsx:48-53 | a group holds exactly the samples with its key, so every sample is in exactly one group |
| SimulationPanel.InGroupConcat | src/components/SimulationPanel.jsx:49-52 | grouping keeps arrival order within a group |
| SimulationPanel.GroupedStep | src/components/SimulationPanel.jsx:49-53 | one pass of the loop keeps the key list and the groups equal to the grouping of the samples seen so far |
| SimulationPanel.GroupSamples | src/components/SimulationPanel.jsx:48-53 | the corrected loop gives keys in order of first appearance, one group per key, and each group's samples in arrival order |
| SimulationPanel.GroupSamplesAsWritten | src/components/SimulationPanel.jsx:48-53 | the loop as written throws exactly when a key names an inherited member of `Object.prototype`, and otherwise groups like the corrected loop |
| SimulationPanel.PrototypeKeyThrows | src/components/SimulationPanel.jsx:48-53 | one sample from a component called "constructor" makes the loop as written throw, although its intended group is that sample alone |
| SimulationPanel.FirstAmplitude | src/components/SimulationPanel.jsx:59-62 | the entry is the amplitude of the group's first sample at that frequency, or 0 when there is none |
| SimulationPanel.ChartOf | src/components/SimulationPanel.jsx:55-71 | the chart has the labels and one dataset per group key |
| SimulationPanel.BuildChart | src/components/SimulationPanel.jsx:43-73 | the chart built through the grouping loop is the declarative chart of the samples |
| SimulationPanel.ChartEntries | src/components/SimulationPanel.jsx:56-62 | dataset i belongs to the i-th key and has one entry per label; entry j is the first matching amplitude of that group, else 0 |
| SimulationPanel.RequestBody | src/components/SimulationPanel.jsx:79-85 | the server reads the sent items as the component list |
| SimulationPanel.RequestBodyFields | src/components/SimulationPanel.jsx:79-85 | the server finds `Number(v \|\| 0)` of the angle and of the three sweep inputs where the panel put them |
| SimulationPanel.InitialInputsSweep | src/components/SimulationPanel.jsx:11-14 | with the initial inputs, the server sweeps 100, 2575, 5050, 7525 and 10000 Hz |
| SimulationPanel.BodyNeverRejected | src/components/SimulationPanel.jsx:79-85 | the body the panel sends never gets the 400 answer |
| SimulationPanel.Panel.constructor | src/components/SimulationPanel.jsx:9-14 | the panel starts idle, with no error, an empty chart, angle 0 and a sweep of 100 to 10000 Hz in 5 points |
| SimulationPanel.Panel.SetAngle | src/components/SimulationPanel.jsx:111 | the angle input holds the typed text |
| SimulationPanel.Panel.SetFreqStart | src/components/SimulationPanel.jsx:113 | the start input holds the typed text |
| SimulationPanel.Panel.SetFreqStop | src/components/SimulationPanel.jsx:115 | the stop input holds the typed text |
| SimulationPanel.Panel.SetFreqPoints | src/components/SimulationPanel.jsx:117 | the points input holds the typed text |
| SimulationPanel.Panel.Click | src/components/SimulationPanel.jsx:75-85 | while a run is in flight a click does nothing; otherwise loading is set, the error is cleared and the request body is built |
| SimulationPanel.Panel.Finish | src/components/SimulationPanel.jsx:92-102 | loading ends false; a failure sets the error and leaves the result and chart unchanged; success stores the result and rebuilds the chart from `frequencyAnalysis`, or from [] when it is absent |
| Settings.SelectedItem | src/components/SettingsPanel.jsx:4 | nothing is found exactly when no item has the selected id; otherwise the result is the first item that has it |
| Settings.TrimStart | src/components/SettingsPanel.jsx:35 | the trimmed text does not start with white space |
| Settings.TrimStartDropsSpace | src/components/SettingsPanel.jsx:35 | trimming leaves a suffix and drops only white space |
| Json.DigitRun | src/components/SettingsPanel.jsx:35 | the digit run is the longest prefix made of decimal digits |
| Json.NatTextValue | src/components/SettingsPanel.jsx:35 | the decimal text of a number is all digits, and its digits have that number as their value |
| Settings.ParseIntDigits | src/components/SettingsPanel.jsx:35 | `parseInt` of a run of digits is its value |
| Settings.ParseIntNegative | src/components/SettingsPanel.jsx:35 | `parseInt` of a minus sign and digits is minus their value |
| Settings.ParseIntText | src/components/SettingsPanel.jsx:35 | `parseInt` of the text of an integer gives the integer back |
| Settings.ParseIntPrefix | src/components/SettingsPanel.jsx:35 | leading white space is skipped and trailing text ignored: "  -7px" parses to -7 |
| Settings.ParseIntStops | src/components/SettingsPanel.jsx:35 | a decimal point ends the digits ("12.9" gives 12), and text without digits is NaN |
| Settings.ParsedValue | src/components/SettingsPanel.jsx:19-37 | a non-numeric name keeps the raw text; each of the ten numeric names gets a number; rotation gets a whole number |
| Settings.RotationParses | src/components/SettingsPanel.jsx:35-36 | typing an integer into rotation stores that integer, and clearing the field stores 0 |
| Settings.OnChange | src/components/SettingsPanel.jsx:15-40 | with no selected item nothing is sent; otherwise exactly one update is sent, to the selected id, with the one-key patch `{[name]: parsedValue}` |
| Settings.EditableFields | src/components/SettingsPanel.jsx:45-120 | every type gets label, rotation and color first, and every other field offered is a numeric field |
| Settings.ShowsStored | src/components/SettingsPanel.jsx:51-117 | an input shows the stored value when it is a number, a label string, or the default colour |
| Settings.FreshItemShowsItsFields | src/components/SettingsPanel.jsx:45-120 | every field offered for an item just dropped on the grid is stored in it, and its input shows the stored value, not a fallback |
| Settings.FieldsByType | src/components/SettingsPanel.jsx:63-120 | lens, mirror, beam splitter, fibre and detector each add their own fields; any other type adds none |
| Settings.Change | src/components/SettingsPanel.jsx:15-40 | a change sends what `onChange` computes and applies it through `updateItem`; with nothing selected the list is unchanged |
| Settings.Remove | src/components/SettingsPanel.jsx:121-123 | the remove button removes the selected item's id, and does nothing when no item is selected |
| Settings.ChangeEffect | src/components/SettingsPanel.jsx:32-39 | after a change, the selected items read the parsed value under `name` and keep all their other fields; other items are untouched |

## Left out

- JavaScript's coercion of strings and objects to numbers is not modelled.
  - The handler models `rotation`, `focalLength`, `reflectivity`, `sensitivity` and `noise`
    only when they hold numbers, booleans, null or nothing.
  - For `rotation` and `noise` a string would be concatenated by `+`
    (server/index.js:65, :81); string concatenation is not modelled.
  - `focalLength`, `reflectivity` and `sensitivity` are only multiplied
    (server/index.js:61, :71), and `*` parses a string as a number. That parse is
    floating-point text parsing, left out like `parseFloat`.
  - `angleOfIncidence` is read through `Number(...)`, which parses a string. That parse is
    floating-point text parsing, left out like `parseFloat`, so the model takes the angle
    only when it is a number, a boolean, null or absent.
  - `RequestModelled` states both requirements.
- Floating-point rounding is not modelled; numbers are exact rationals.
  - Results at a .5 boundary could differ for `1 + i*0.1`, `i/(pts-1)` and `toFixed`.
  - `String(n)` is modelled in plain decimal only, without exponent notation.
- SimulationProperties.SampleAmplitude: holds only where `1 + noise` is not 0. A detector
  noise of -1 makes the source divide by zero. The amplitude is then `Infinity`, or `NaN` when
  the numerator is 0, and is sent as `null` in JSON and as "Infinity" or "NaN" in CSV. The
  real-valued amplitude parameter cannot produce these values.
- SimulationProperties.AllSamplesWellFormed: its non-negative amplitude fails in the source
  for the same `1 + noise = 0` case.
- The amplitude curve `base * (1 - log10(1 + f/1000)) / (1 + noise)` is a parameter, because
  it is transcendental floating point. Only the clamp at 0 and the rounding to 4 decimals
  are modelled.
- Other inputs are parameters:
  - `parseFloat` and `Number` of a typed text, both floating-point parsing;
  - `uid()` and `Date.now()`, which are randomness and the clock;
  - the export `meta` block of timestamp and contact details.
- App.NormaliseAll: reads the clock once per import, as one `now` shared by every entry
  (App.Normalise takes that `now`). The source calls `Date.now()` again for each entry
  without an id, so on a long list the generated ids may carry different times.
- Settings.ParseInt is exact for integers of any size. The source's `parseInt` loses
  precision beyond 2^53.
- ToText handles only keys that are not integer-like. JavaScript lists integer-like keys
  of an object first, in numeric order, so `Object.keys(groups)` would reorder ids such as
  "1" or "2"; the model lists keys in insertion order throughout.
- Ids are compared structurally. JavaScript's `===` compares object ids by reference.
- The fetch call is not modelled; its outcome (status, thrown message or parsed answer) is
  an input to Panel.Finish.
- localStorage persistence, the FileReader, `JSON.parse` of the file text, Blob downloads
  and the DOM lookups are browser I/O and are not modelled.
  - Layout.Import starts from the parsed value.
  - The constructor takes the restored list as an argument.
- App.Layout.constructor: accepts any restored list, but the model assumes its entries are
  objects. Only a hand-edited storage entry can hold `null`: the app writes objects, and an
  import rejects `null`. With such an entry the source throws when it reads `it.id` or
  `it.x` (App.jsx:24, :26; SettingsPanel.jsx:4; Grid.jsx:71). Grid.Cells excludes it by
  its precondition. Settings.SelectedItem, App.Updated and App.Removed pass over it instead.
- SimulationPanel.Panel.Finish: builds the corrected chart. When a sample's key names an
  inherited `Object.prototype` member, the source's `buildChart` throws after the result is
  stored. Its catch then sets the error to the TypeError message and keeps the old chart. That
  throw is modelled apart, by GroupSamplesAsWritten (see Findings).
- Chart.js itself is not modelled: the colour strings, `chartRef` and `chart.update()`.
  The chart is the labels and datasets the panel installs.
- A `format` query given several times arrives as an array in Express. The model takes it
  as one optional string.
- Other source files are not part of this model:
  - the ray overlay geometry and animation in Grid.jsx;
  - OpticalComponent.jsx, which is rotation by `atan2` and event listeners;
  - Toolbox.jsx, which is a constant drag list;
  - the Express middleware and `listen`.

## Findings

| source | as written | input that shows it | evidently intended | confidence | as-written member | corrected member |
|---|---|---|---|---|---|---|
| src/components/SimulationPanel.jsx:48-53 | `groups` is a plain object, so `!groups[key]` reads an inherited `Object.prototype` member for a key such as "constructor". That member is truthy, so the group is never created, and `groups[key].push` throws a TypeError. The run then shows an error instead of the chart. | one sample with `componentId: "constructor"` | every key gets its own group, as with a map or `Object.create(null)` | not executed | SimulationPanel.GroupSamplesAsWritten, SimulationPanel.PrototypeKeyThrows | SimulationPanel.GroupSamples |
