# D3 tutorial dashboards: a Dafny model

This project models the core of two example scripts from the D3 tutorial
(`sgratzl/d3tutorial`). Both scripts are driven by D3's data join, and
the project proves properties of that logic.

- **The Titanic cross-filter dashboard** (`examples/mcv06_final_ts.ts`). One
  shared, mutable `state` holds the passenger rows, the passenger-class filter
  and two pie selections, one for sex and one for survival. `updateApp` filters
  the rows, derives four series, updates two histograms (joined by index) and
  two pie charts (joined by group key), and writes two labels. A click on a
  slice toggles its chart's selection. The class drop-down sets the class
  filter.
- **The weather bar chart** (`examples/barchart07_final_ts.ts`). There is one
  bar per city, joined by city name. A "US only" checkbox re-renders the chart
  from the US rows or from all rows.

Modules:

- `Wrappers` — `Option`.
- `Seqs` — `Array.prototype.filter`, `d3.max`, and the key lists of a join.
  Lemmas cover filter membership, multiplicity, order (subsequence),
  idempotence and splitting.
- `Join` — the data join. A `Pool` class holds the live elements by key and
  the next unused element id. `Pool.Join` reconciles the pool with new data:
  - an update keeps its element and its attributes;
  - an enter gets a new element with the enter defaults;
  - an exit is removed.
- `Titanic` — the rows, the filter callback, the toggle, the pie series, the
  labels, and the `State` class.
- `TitanicCharts` — the two chart factories as the classes `Histogram` and
  `PieChart`, and the page as the class `App`. `App` has `updateApp` and the
  three event handlers.
- `BarChart` — the bar chart's globals as the class `Chart`, with `update`,
  the JSON callback and the checkbox handler.

Loading the CSV or JSON file is not modelled. The parsed rows are a parameter
of the callback that receives them. `d3.bin` and `d3.pie` are not modelled
either: the dashboard is given them as a `Layout` of functions. `LayoutValid`
states what it relies on: at least one bin, and one arc per group.

## Model

| member | source | states |
|---|---|---|
| Seqs.Filter | examples/mcv06_final_ts.ts:211-222 | `filter` returns no more elements than its input, and every element it returns is accepted |
| Seqs.FilterMembers | examples/barchart07_final_ts.ts:100 | an element is in the filtered array iff it is in the input and accepted |
| Seqs.FilterCount | examples/barchart07_final_ts.ts:100 | the filter keeps each accepted element exactly as many times as it occurs and drops every other element |
| Seqs.FilterIsSubsequence | examples/barchart07_final_ts.ts:100 | the filtered array is the input with some elements left out and the rest in their original order |
| Seqs.FilterKeepsAll | examples/mcv06_final_ts.ts:211-222 | a filter that accepts every element returns its input unchanged |
| Seqs.FilterIdempotent | examples/mcv06_final_ts.ts:211-222 | filtering a filtered array again with the same callback changes nothing |
| Seqs.FilterSplit | examples/mcv06_final_ts.ts:235-238 | two filters with complementary callbacks together hold every element exactly as often as the input, so their lengths add up to its length |
| Seqs.SubsequenceDistinct | examples/barchart07_final_ts.ts:63 | an array picked in order out of an array without repeated values has no repeated values either |
| Seqs.Max | examples/barchart07_final_ts.ts:51 | `d3.max` is undefined exactly for an empty array; otherwise it is an element of the array and no element is larger |
| Join.Pool.constructor | examples/mcv06_final_ts.ts:80-82 | a selection with nothing bound yet: no element, no id handed out |
| Join.Pool.Join | examples/barchart07_final_ts.ts:61-78 | after the join, the live keys are exactly the new keys, and element `i` of the returned selection is bound to `items[i]`; a kept key keeps its element id and attributes; a new key gets an id never handed out before and the enter defaults; the pool stays one element per key |
| Join.ReconciledByIndex | examples/mcv06_final_ts.ts:80-82 | after a join by index, position `i` holds the element bound to item `i` |
| Join.ReconciledKeepsIdentity | examples/barchart07_final_ts.ts:60 | after a keyed join, a key present before and after keeps the same element, and a key that entered has a new id |
| Join.ReconciledKeepsAttrs | examples/barchart07_final_ts.ts:64-78 | when every enter default is the same, a key kept by the join keeps its attributes and a key that entered carries the default |
| Join.EnteredIsNew | examples/mcv06_final_ts.ts:170-185 | an entering element differs from every element the pool held before, including those that exited |
| Titanic.FilterRowsMembers | examples/mcv06_final_ts.ts:210-223 | `filterData` keeps a row iff it is in the data and matches the class, sex and survival filters; a filter that is `""` or `null` does not constrain |
| Titanic.FilterRowsOrder | examples/mcv06_final_ts.ts:210-223 | the rows kept keep their order, and each is kept exactly as many times as it occurs when it passes the filters |
| Titanic.FilterRowsNoFilter | examples/mcv06_final_ts.ts:33-38 | with no active filter (the initial state), `filterData` returns all rows |
| Titanic.FilterRowsIdempotent | examples/mcv06_final_ts.ts:210-223 | filtering the filtered rows again under the same state changes nothing |
| Titanic.Toggle | examples/mcv06_final_ts.ts:176-180 | the selection becomes `null` iff it already held the clicked key; otherwise it becomes that key |
| Titanic.ToggleTwice | examples/mcv06_final_ts.ts:176-180 | clicking the same slice twice restores a selection that was unset or already that slice; any other selection ends up unset |
| Titanic.Group | examples/mcv06_final_ts.ts:235-238 | a group carries its key, and every row in it has that key |
| Titanic.TwoGroupsPartition | examples/mcv06_final_ts.ts:234-251 | for two distinct keys that every row takes one of, each group holds exactly the rows of its key, in order; together the groups hold every row once |
| Titanic.SexPieDataPartition | examples/mcv06_final_ts.ts:234-238 | the sex series is always "female" then "male", and it splits the filtered rows by sex |
| Titanic.SurvivedPieDataPartition | examples/mcv06_final_ts.ts:247-251 | the survival series is always "0" then "1", and it splits the filtered rows by outcome |
| Titanic.LabelsDescribeFilter | examples/mcv06_final_ts.ts:270-271 | a label other than "None" is the value every filtered row has for that field; a "None" label means that selection keeps no row out |
| Titanic.State.constructor | examples/mcv06_final_ts.ts:33-38 | the initial state has no rows, no class and no selection, so no filter is active |
| Titanic.State.SetData | examples/mcv06_final_ts.ts:275-281 | the rows are replaced; the filters are unchanged |
| Titanic.State.ToggleSelection | examples/mcv06_final_ts.ts:176-180 | `state[stateAttr]` becomes its toggle by the clicked key; the other selection, the class and the rows are unchanged |
| Titanic.State.SetPassengerClass | examples/mcv06_final_ts.ts:288-289 | the class filter becomes the chosen value; the rest of the state is unchanged |
| TitanicCharts.CountDomain | examples/mcv06_final_ts.ts:71 | the x domain runs from 0 to the largest bin count, which is the count of some bin |
| TitanicCharts.SelectedKeys | examples/mcv06_final_ts.ts:192-193 | only keys of the chart can be marked, and nothing is marked without a selection |
| TitanicCharts.SelectedSliceIsTheSelection | examples/mcv06_final_ts.ts:192-193 | at most one slice is marked; it is the chart's own selection when that names a slice, and no slice is marked otherwise |
| TitanicCharts.SurvivedSliceNeverMarkedAsWritten | examples/mcv06_final_ts.ts:193 | as written, the survival slice the user selected is not marked while the sex selection holds a sex key, although the chart's own selection names it |
| TitanicCharts.Histogram.constructor | examples/mcv06_final_ts.ts:60-61 | no bar yet; both linear scales start with the domain [0, 1] |
| TitanicCharts.Histogram.Update | examples/mcv06_final_ts.ts:69-102 | x spans 0 to the largest count and y spans the first bin's `x0` to the last bin's `x1`; the bars are joined by index, so bar `i` is bound to bin `i`, surplus bars are removed, a kept bar is the same element, and new bars are new elements that enter collapsed |
| TitanicCharts.PieChart.constructor | examples/mcv06_final_ts.ts:118-147 | a chart for its `stateAttr`, with no slice and an empty colour domain |
| TitanicCharts.PieChart.Update | examples/mcv06_final_ts.ts:149-193 | the colour domain is the group keys in order; the slices are joined by group key: a kept key keeps its slice, and entering slice `i` is a new element that starts from `noSlice[i]`; one slice is shown per group; the marked slices are those of the chart's selection |
| TitanicCharts.App.constructor | examples/mcv06_final_ts.ts:205-208 | four distinct charts, each pie bound to its own selection field, over the initial `state` of lines 33-38: no rows, class `""`, both selections `null`; every chart starts with no element, the histograms with the domain [0, 1] on both scales, the pies with an empty colour domain and no mark |
| TitanicCharts.App.UpdateApp | examples/mcv06_final_ts.ts:261-272 | after `updateApp`, each histogram's x and y domains are refitted to the binning of `filterData()` and its bars are bound to the bins; each pie's colour domain is its keys and its slices are bound to its series; each pie marks its own selection; both labels show their selection; every chart element whose key stays is the same element |
| TitanicCharts.App.UpdateHistograms | examples/mcv06_final_ts.ts:265-267 | both histograms have x spanning 0 to the largest count and y the first to the last bin of the binning of the filtered rows, and bars bound bin by bin; a kept bar is the same element; the pies are untouched |
| TitanicCharts.App.UpdatePieCharts | examples/mcv06_final_ts.ts:266-268 | both pies have their keys as colour domain and their slices bound to their series of the filtered rows; each marks its own selection; a kept slice is the same element; the histograms are untouched |
| TitanicCharts.App.UpdateCharts | examples/mcv06_final_ts.ts:265-268 | all four charts have their scale domains fitted to, and their elements bound to, the series of the filtered rows; every element whose key stays is the same element |
| TitanicCharts.App.UpdateLabels | examples/mcv06_final_ts.ts:270-271 | each label shows its selection, or "None" when the selection is `null` or `""`; a label other than "None" is exactly the selected key; the chart elements are unchanged |
| TitanicCharts.App.OnDataLoaded | examples/mcv06_final_ts.ts:274-284 | the parsed rows become the data and the filters are unchanged; the page then displays the filtered rows as `UpdateApp` states (domains, bound elements, marks, labels, kept elements) |
| TitanicCharts.App.OnSliceClick | examples/mcv06_final_ts.ts:174-182 | the clicked chart's selection is toggled by the slice key and the rest of the state is unchanged; the page then displays the new filtered rows as `UpdateApp` states, and a slice whose key stays is the same element |
| TitanicCharts.App.OnPassengerClassChange | examples/mcv06_final_ts.ts:287-291 | the class filter becomes the chosen value and the selections and rows are unchanged; the page then displays the new filtered rows as `UpdateApp` states |
| BarChart.CheckboxDataRows | examples/barchart07_final_ts.ts:96-106 | checked, `update` receives exactly the US rows, in order and with their multiplicity; unchecked, it receives all the data |
| BarChart.CitiesOfSubsequence | examples/barchart07_final_ts.ts:100 | rows picked in order give their cities picked in the same order |
| BarChart.NonUSCityLeavesUSRows | examples/barchart07_final_ts.ts:100 | with unique cities, the city of a row outside the US is not a key of the checked chart, so its bar exits |
| BarChart.CheckboxDataUniqueCities | examples/barchart07_final_ts.ts:96-106 | if the loaded cities are unique, so are the cities of the rows the checkbox passes on, so the keyed join is well defined |
| BarChart.Chart.constructor | examples/barchart07_final_ts.ts:27-31 | no data and no bar; the linear scale has domain [0, 1] and the band scale an empty domain |
| BarChart.Chart.Update | examples/barchart07_final_ts.ts:48-78 | x spans 0 to the highest temperature (undefined for no rows); the bands are the cities in order; the bars are joined by city, so a kept city keeps its bar and its attributes, a new city's bar is a new element that enters at `x = 0`, and a city gone loses its bar |
| BarChart.Chart.OnJsonLoaded | examples/barchart07_final_ts.ts:39-46 | without a result nothing changes; otherwise the rows are stored and rendered: x spans 0 to the highest temperature, the bands are the cities, and the bars are joined by city |
| BarChart.Chart.OnFilterUsOnlyChange | examples/barchart07_final_ts.ts:92-106 | the chart is rendered from the rows the checkbox selects: x spans 0 to their highest temperature, the bands are their cities, every city still shown keeps its bar and attributes, and a city that enters gets a new bar at `x = 0`; before the data has loaded the handler fails and changes nothing |
| BarChart.Chart.CheckThenUncheck | examples/barchart07_final_ts.ts:92-106 | checking and then unchecking shows all rows again with x spanning 0 to the highest temperature of all rows; each US city that had a bar keeps the same bar throughout, and each city outside the US has a bar at `x = 0` again |

## Left out

- Rendering is not modelled. This covers SVG creation, margins, axes, the
  scales' ranges and mapping, band widths, colours, titles and the `fill`
  style. The model keeps only what the join binds and the scale domains.
- Transitions and `attrTween` are not modelled. The attributes an element
  carries in the model are its enter defaults: the attribute writes after the
  join are not modelled. These are the bars' height, width and y
  (examples/mcv06_final_ts.ts:106-110), the slices' arc tween and fill
  (examples/mcv06_final_ts.ts:192-196), and the bars' height, width and y
  (examples/barchart07_final_ts.ts:82-86). So a kept element keeps the
  defaults it entered with, where in the page it carries the values last
  written. The interpolation from `old[i]` is not modelled either. An exiting
  pie slice is removed at once, not at the end of its exit transition.
- `d3.bin` and `d3.pie` are not modelled. They are functions of a `Layout`,
  constrained only by `LayoutValid`. The fare binning's domain
  (`[0, d3.max(fare)]`) is inside that function.
- CSV and JSON loading, parsing with `parseInt` and `parseFloat`, and `NaN`
  are not modelled. The parsed rows are a parameter. A sex or survival value
  outside its two keys cannot be represented.
- Numbers are modelled as `real` and `int`, not as IEEE doubles. `Math.PI * 2`
  is the constant `TwoPi`.
- `tsd.d.ts` (type declarations only) is not part of this model.
- Join.Pool.Join: requires distinct keys, so the binding of a repeated key is
  not modelled. The histogram and pie keys are distinct by construction
  (bin indices, and the two fixed keys of each pie series); the bar chart's
  cities are distinct only if the loaded JSON's are (see `OnJsonLoaded`).
- TitanicCharts.PieChart.Update: requires at most two groups, the length of
  `noSlice`. Both pie series always have exactly two.
- BarChart.Chart.Update: requires the cities to be distinct, as `Pool.Join`
  does. `Chart.Valid` records this of the loaded data.
- BarChart.Chart.OnJsonLoaded: requires the loaded rows to have distinct
  cities. The script accepts any JSON; with a repeated city the keyed join
  binds by D3's own rules for duplicate keys, which `Pool.Join` does not
  model.
- TitanicCharts.App.UpdatePieCharts: marks each pie by its own selection
  (`state[stateAttr]`), the corrected form of the test at
  examples/mcv06_final_ts.ts:193. As written, both pies compare with
  `state.selectedSex`, so the survival pie marks no slice (see "Findings").
- TitanicCharts.App.UpdateCharts: inherits the corrected marking of
  `UpdatePieCharts`.
- TitanicCharts.App.UpdateApp: inherits the corrected marking of
  `UpdatePieCharts`.
- TitanicCharts.App.OnDataLoaded: inherits the corrected marking through
  `UpdateApp`.
- TitanicCharts.App.OnSliceClick: inherits the corrected marking through
  `UpdateApp`.
- TitanicCharts.App.OnPassengerClassChange: inherits the corrected marking
  through `UpdateApp`.
- BarChart.Chart.OnFilterUsOnlyChange: the handler throws when no data has
  been loaded (`data.filter` on `undefined`, or `update(undefined)`). This is
  modelled as the result `ok = false` with nothing changed. The exception
  itself is not modelled.

## Findings

| source | as written | input that shows it | evidently intended | confidence | as-written member | corrected member |
|---|---|---|---|---|---|---|
| examples/mcv06_final_ts.ts:193 | both pie charts mark a slice "selected" when its key equals `state.selectedSex` | select the "male" sex slice, then click the survival slice "1": `selectedSurvived` is "1", but no survival slice is marked | each chart compares with its own selection `state[stateAttr]`, as the click handler at line 176 does | medium, not executed | TitanicCharts.SurvivedSliceNeverMarkedAsWritten | TitanicCharts.SelectedSliceIsTheSelection |
