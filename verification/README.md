# Prometheus result normaliser and gauge chart adapter, in Dafny

This project models two pieces of the Perses dashboard front-end and proves
properties of them.

- **The Prometheus result normaliser** (`ui/prometheus-plugin/src/model/data-frames.ts`).
  `labelsToSeriesName` renders a label map as `name{k="v",...}`.
  `createDataFrames` turns an instant or range query response into data frames.
  Each frame has a `Timestamp` date column and a `Value` number column.
  A missing response or missing `data` gives no frames.
  A scalar gives one frame named `scalar`.
  A vector or matrix gives one frame per series, in input order, with one row per value tuple.
- **The gauge chart adapter** (`ui/panels-plugin/src/plugins/gauge-chart/GaugeChart.tsx`).
  The memoised option selection picks between `{}`, the no-data option and two gauges.
  Both gauges show the value of the selected calculation over the first series.
  The three layout effects (create/dispose, set option, resize) form a state machine.
  Every call the machine makes to the chart engine is recorded in a log.

Modules:

- `Wrappers` (`wrappers.dfy`): `Option`, standing for `undefined`.
- `SeriesNames` (`series_names.dfy`): `labelsToSeriesName`. Its partner is a parser for series names, with a round-trip proof.
- `DataFrames` (`data_frames.dfy`): the columnar data model and `createDataFrames`. The method mirrors the source's loops. Its partner is a row view of a frame (`Rows` / `FrameOfRows`).
- `GaugeOption` (`gauge_option.dfy`): the gauge option selection and the detail formatter's arguments.
- `ChartLifecycle` (`chart_lifecycle.dfy`): the lifecycle state machine, the engine-call log and its discipline, and trace invariants.

The code the model cannot see becomes parameters:

- `parseValueTuple` is `parse: ValueTuple -> Sample`.
- `CalculationsMap[calculation](values)` is `calculate(calculation, values)`.
- `formatValue` is `format: (real, UnitOptions) -> string`.
- The chart engine is seen only through the calls made to it (`Init`, `Dispose`, `SetOption`, `Resize`).

Notes on how the model reads the code:

- A label map is a sequence of (key, value) pairs in `Object.keys` order. Prometheus label names never look like array indices, so this is insertion order. A JavaScript object has each key at most once, so only sequences with unique keys (`UniqueKeys`) stand for label maps; on a sequence with a repeated key, `Lookup` takes the first binding and `OtherLabels` keeps every one. `labels.__name__ || ''` gives `""` both when `__name__` is absent and when it is empty.
- `createDataFrames` picks `[series.value]` or `series.values` per element, by whether the element has a `value` field. It does not look at `resultType`. The model does the same (`TuplesOf`), for vector and matrix data alike.
- When the container becomes null, the create effect's cleanup disposes the instance. But the `chart` state keeps pointing at it, because `setChart` is only called when an instance is created. `ChartLifecycle.NullContainerKeepsDisposedChart` shows that a later option sync then reaches the disposed instance. React passes null to the panel's stable ref callback only when it unmounts, so this path does not occur in the panel as rendered. The model keeps the code's behaviour. The invariant guarantees a live target only while a container is set (`OptionsReachLiveChart`).
- `labelsToSeriesName` does not escape quotes, so two different label maps can share a name (`SeriesNameAmbiguousWithQuotes`). The round trip holds when no label value contains `"`, no label name contains `=` and the metric name contains no `{`. Prometheus names always satisfy the last two.
- `createDataFrame` (`ui/prometheus-plugin/src/model/data-frames.ts:79-85`) always builds exactly two columns, time then value. The model's frame shape (`IsTimeValueFrame`) requires exactly that, not merely columns of equal length.

## Model

| member | source | states |
|---|---|---|
| SeriesNames.Lookup | ui/prometheus-plugin/src/model/data-frames.ts:19-21 | a key is found exactly when some pair binds it; the value found is bound to the key, and it is the value of the key's first binding |
| SeriesNames.FormatLabel | ui/prometheus-plugin/src/model/data-frames.ts:21 | a pair is printed as its key, then `="`, then its value, then `"`, and nothing more |
| SeriesNames.JoinLabels | ui/prometheus-plugin/src/model/data-frames.ts:22 | the joined list is empty exactly when there are no pairs (its content is stated by JoinLabelsAppend and ParseJoinLabels) |
| SeriesNames.JoinLabelsAppend | ui/prometheus-plugin/src/model/data-frames.ts:21-22 | joining a concatenation of two non-empty lists is joining each part and putting one `,` between them |
| SeriesNames.ParseSinglePair | ui/prometheus-plugin/src/model/data-frames.ts:21 | one printed `key="value"` pair parses back into that pair, when the key has no `=` and the value no `"` |
| SeriesNames.MetricName | ui/prometheus-plugin/src/model/data-frames.ts:19 | the prefix is the value of the first `__name__` binding when there is one, and "" when `__name__` is absent |
| SeriesNames.OtherLabels | ui/prometheus-plugin/src/model/data-frames.ts:19-20 | the listed labels are exactly the map's labels whose key is not `__name__`, and there are no more of them than the map has (their order is stated by OtherLabelsAppend) |
| SeriesNames.OtherLabelsSingle | ui/prometheus-plugin/src/model/data-frames.ts:19-21 | a single label is listed unless its key is `__name__` |
| SeriesNames.OtherLabelsAppend | ui/prometheus-plugin/src/model/data-frames.ts:19-21 | the listing keeps label-map order: the labels of a concatenation are the labels of each part, in order |
| SeriesNames.LabelsToSeriesName | ui/prometheus-plugin/src/model/data-frames.ts:18-22 | the name is the metric name, then `{`, then the joined `key="value"` pairs of the other labels, then `}`; its length is the sum of those parts plus 2 |
| SeriesNames.NameStartsWithBraceIff | ui/prometheus-plugin/src/model/data-frames.ts:19 | when the metric name contains no `{`, a name starts with `{` exactly when the label map has no (or an empty) metric name |
| SeriesNames.ParseLabelsToSeriesName | ui/prometheus-plugin/src/model/data-frames.ts:18-22 | round trip: parsing the series name gives back the metric name and the other labels in order, when the parts contain none of the delimiters |
| SeriesNames.ParseJoinLabels | ui/prometheus-plugin/src/model/data-frames.ts:21-22 | the `,`-joined `key="value"` list parses back into the same pairs |
| SeriesNames.SeriesNameInjective | ui/prometheus-plugin/src/model/data-frames.ts:18-22 | on delimitable label maps, equal series names imply equal metric names and equal label lists |
| SeriesNames.SeriesNameAmbiguousWithQuotes | ui/prometheus-plugin/src/model/data-frames.ts:21 | without escaping, `{a: 'x",b="y'}` and `{a: 'x', b: 'y'}` get the same name |
| SeriesNames.SeriesNameExample | ui/prometheus-plugin/src/model/data-frames.ts:18-22 | `{__name__: "up", job: "api"}` gives `up{job="api"}`; `{job: "api"}` gives `{job="api"}` |
| DataFrames.CreateTimeColumn | ui/prometheus-plugin/src/model/data-frames.ts:71-73 | a fresh time column is an empty `Date` series named `Timestamp` |
| DataFrames.CreateValueColumn | ui/prometheus-plugin/src/model/data-frames.ts:75-77 | a fresh value column is an empty `Number` series named `Value` |
| DataFrames.CreateDataFrame | ui/prometheus-plugin/src/model/data-frames.ts:79-85 | the frame has the given name and two columns; it is a time/value frame exactly when the columns have the right tags, names and cell types and equal lengths, and then row i pairs cell i of the time column with cell i of the value column |
| DataFrames.TuplesOf | ui/prometheus-plugin/src/model/data-frames.ts:51 | a vector element contributes its one tuple, a matrix element its tuple list |
| DataFrames.FillColumns | ui/prometheus-plugin/src/model/data-frames.ts:47-56 | both columns have one cell per tuple, and cell j holds the parsed timestamp and sample of tuple j, in input order |
| DataFrames.ScalarFrame | ui/prometheus-plugin/src/model/data-frames.ts:31-41 | the scalar branch builds one time/value frame named `scalar` whose only row is the parsed tuple |
| DataFrames.SeriesFrame | ui/prometheus-plugin/src/model/data-frames.ts:47-65 | the frame for one series element is a time/value frame named by `labelsToSeriesName` of its metric, whose row j is its parsed tuple j |
| DataFrames.SeriesFrames | ui/prometheus-plugin/src/model/data-frames.ts:45-68 | the loop over the series gives exactly one frame per series, frame i being the frame for series i |
| DataFrames.CreateDataFrames | ui/prometheus-plugin/src/model/data-frames.ts:24-69 | no response or no data gives no frames; a scalar gives one time/value frame named `scalar` whose only row is the parsed tuple; a vector or matrix gives one frame per series, in order, named by `labelsToSeriesName` of its metric, whose row j is the parsed tuple j |
| DataFrames.FrameLength | ui/prometheus-plugin/src/model/data-frames.ts:51-56 | both columns of a vector element's frame have length 1, and of a matrix element's frame the number of its value tuples |
| DataFrames.RowsOfFrameOfRows | ui/prometheus-plugin/src/model/data-frames.ts:52-56 | building the columns from a list of rows and reading the rows back gives the same list |
| DataFrames.FrameOfRowsOfFrame | ui/prometheus-plugin/src/model/data-frames.ts:79-85 | a time/value frame is determined by its name and its rows |
| DataFrames.FrameForIsFrameOfRows | ui/prometheus-plugin/src/model/data-frames.ts:45-65 | each frame for a series is exactly the frame of the parsed tuples under the series name |
| GaugeOption.DetailUnit | ui/panels-plugin/src/plugins/gauge-chart/GaugeChart.tsx:212-216 | the formatter's unit keeps the panel unit's kind and has 0 decimal places |
| GaugeOption.SelectOption | ui/panels-plugin/src/plugins/gauge-chart/GaugeChart.tsx:79-227 | `{}` exactly when there is no data; the no-data option exactly when there is data but no first series; otherwise two gauges that both show the calculation over the first series' values, only the second with a detail label |
| GaugeOption.DetailLabel | ui/panels-plugin/src/plugins/gauge-chart/GaugeChart.tsx:199-217 | a gauge series has a detail label exactly when its detail is shown |
| GaugeOption.GaugeLabelIsFormattedValue | ui/panels-plugin/src/plugins/gauge-chart/GaugeChart.tsx:209-223 | the one label of the gauge option is `formatValue` of the calculated value with the unit kind and 0 decimal places |
| GaugeOption.DecimalPlacesIgnored | ui/panels-plugin/src/plugins/gauge-chart/GaugeChart.tsx:212-216 | two units with the same kind give the same option, whatever their decimal places |
| GaugeOption.OnlyFirstSeriesMatters | ui/panels-plugin/src/plugins/gauge-chart/GaugeChart.tsx:83-88 | series after the first never change the option |
| ChartLifecycle.Mount | ui/panels-plugin/src/plugins/gauge-chart/GaugeChart.tsx:229-254 | a freshly mounted panel has no chart, has made no engine call, and `prevSize` is the mount size |
| ChartLifecycle.SetContainer | ui/panels-plugin/src/plugins/gauge-chart/GaugeChart.tsx:233-243 | an unchanged container changes nothing; a changed one becomes the container and the log becomes exactly the earlier calls, then a Dispose of the owned instance if there is one, then an Init of a new chart on the new container if it is non-null; the panel then owns the new chart, or nothing for a null container, in which case the chart reference is left as it was; the applied and initial sizes are kept |
| ChartLifecycle.SyncOption | ui/panels-plugin/src/plugins/gauge-chart/GaugeChart.tsx:246-251 | without a chart nothing happens; with one, exactly one SetOption of the option to that chart is added; ownership and the initial size are kept |
| ChartLifecycle.SyncSize | ui/panels-plugin/src/plugins/gauge-chart/GaugeChart.tsx:254-269 | an unchanged size or a missing chart changes nothing; otherwise exactly one Resize of the chart to the new size is added and `prevSize` becomes the new size; the container, the owned instance, the chart and the initial size are kept in every case |
| ChartLifecycle.Unmount | ui/panels-plugin/src/plugins/gauge-chart/GaugeChart.tsx:240-242 | unmounting clears the container and appends exactly a Dispose of the owned instance when there is one, and nothing otherwise; the chart reference and both sizes are kept |
| ChartLifecycle.MountValid | ui/panels-plugin/src/plugins/gauge-chart/GaugeChart.tsx:229-254 | the mounted panel satisfies the lifecycle invariant |
| ChartLifecycle.SetContainerValid | ui/panels-plugin/src/plugins/gauge-chart/GaugeChart.tsx:233-243 | the create effect keeps the invariant: instances are created once, disposed only while live, and exactly the owned instance is live |
| ChartLifecycle.SyncOptionValid | ui/panels-plugin/src/plugins/gauge-chart/GaugeChart.tsx:246-251 | the sync effect keeps the invariant: options go only to created instances |
| ChartLifecycle.SyncSizeValid | ui/panels-plugin/src/plugins/gauge-chart/GaugeChart.tsx:254-269 | the resize effect keeps the invariant: resizes go only to created instances, each changes the applied size, and `prevSize` is the last size applied |
| ChartLifecycle.StepValid | ui/panels-plugin/src/plugins/gauge-chart/GaugeChart.tsx:233-269 | each effect run keeps the lifecycle invariant: instances are created once and disposed only while live, exactly the owned instance is live, options and resizes go only to created instances, every resize changes the applied size, and `prevSize` is the last size applied |
| ChartLifecycle.RunValid | ui/panels-plugin/src/plugins/gauge-chart/GaugeChart.tsx:229-269 | any sequence of effect runs from a valid panel reaches a valid panel |
| ChartLifecycle.CountsFollowLiveness | ui/panels-plugin/src/plugins/gauge-chart/GaugeChart.tsx:237-242 | on a disciplined log an instance is initialised once if created, and disposed once if created and no longer live, and never otherwise |
| ChartLifecycle.UnmountDisposesEveryInstance | ui/panels-plugin/src/plugins/gauge-chart/GaugeChart.tsx:233-243 | after unmounting no instance is live, and every instance ever created had exactly one Init and exactly one Dispose |
| ChartLifecycle.OptionsReachLiveChart | ui/panels-plugin/src/plugins/gauge-chart/GaugeChart.tsx:246-251 | while a container is set, the owned instance is the only live one and the option sync targets it |
| ChartLifecycle.NullContainerKeepsDisposedChart | ui/panels-plugin/src/plugins/gauge-chart/GaugeChart.tsx:233-251 | after a container and then null, the chart state still names the disposed instance and an option sync reaches it |
| ChartLifecycle.SyncsKeepInstances | ui/panels-plugin/src/plugins/gauge-chart/GaugeChart.tsx:246-269 | option and size changes never create or dispose an instance, and never change the owned instance |
| ChartLifecycle.OneCreateOneDispose | ui/panels-plugin/src/plugins/gauge-chart/GaugeChart.tsx:233-269 | mount, attach a container, any number of data or size updates, unmount: exactly one Init and one Dispose |
| ChartLifecycle.NoResizeForSameSize | ui/panels-plugin/src/plugins/gauge-chart/GaugeChart.tsx:257-262 | a resize to `prevSize` changes nothing |
| ChartLifecycle.RunResizesChangeSize | ui/panels-plugin/src/plugins/gauge-chart/GaugeChart.tsx:254-269 | along any run from a mount, every Resize changes the applied size and `prevSize` is the last size applied |

## Left out

- `parseValueTuple` (`parse-sample-values`) is not part of this model. Its conversion of timestamps to milliseconds and of sample text to numbers is a parameter. NaN on a bad parse is therefore not represented: samples are `real`.
- `CalculationsMap` and `formatValue` (`model/calculations`, `model/units`) are not part of this model. They are parameters, so their results for empty series and non-finite values are not stated.
- The gauge option's styling (angles, colours, fonts, thresholds, the no-data title text and axes) is presentation. The option keeps only its branch, each gauge's radius and value, and the detail formatter's unit.
- The chart engine's rendering and MUI `Box` are presentation. The engine is the log of calls made to it.
- Widths, heights and timestamps are JavaScript numbers. The model uses unbounded integers, so NaN sizes (never equal to themselves) are not represented.
- React's scheduling of the effects is not modelled. Which effect runs after which is left to the event sequence. That includes the same-commit case where the sync effect still sees the previous `chart` value.
- `usePlugin` and `PanelContent.tsx` are not part of this model. Plugin resolution, caching and the loading/error branches live in the plugin system.
- `TimeSeriesTable.ts` is a constant plugin record with no behaviour.
- `RoleBindingDrawer.tsx` is drawer and dialog UI state.
- `persistence.go` is one-line delegations to a database layer.
