/** The Prometheus result normaliser: createDataFrames turns an instant or
    range query response into two-column data frames (a `Timestamp` column of
    dates and a `Value` column of numbers), one frame per series. */
module DataFrames {
  import opened Wrappers
  import opened SeriesNames

  // ---------------------------------------------------------------------
  // Columnar data model

  datatype SeriesType = Date | Number

  /** A cell: a date column holds Unix milliseconds, a number column samples. */
  datatype Cell = DateCell(unixTimeMs: int) | NumberCell(sample: real)

  datatype Series = Series(seriesType: SeriesType, name: string, values: seq<Cell>)

  datatype DataFrame = DataFrame(name: string, columns: seq<Series>)

  predicate CellHasType(c: Cell, t: SeriesType)
  {
    match t
    case Date => c.DateCell?
    case Number => c.NumberCell?
  }

  /** Every element's type matches the series' type tag. */
  predicate WellTyped(s: Series)
  {
    forall i :: 0 <= i < |s.values| ==> CellHasType(s.values[i], s.seriesType)
  }

  /** All columns of a frame have the same length. */
  predicate Aligned(f: DataFrame)
  {
    forall i :: 0 <= i < |f.columns| ==> |f.columns[i].values| == |f.columns[0].values|
  }

  const TimeColumnName: string := "Timestamp"
  const ValueColumnName: string := "Value"
  const ScalarFrameName: string := "scalar"

  /** The shape every normalised frame has: a well-typed `Timestamp` date
      column and a well-typed `Value` number column of the same length. */
  predicate IsTimeValueFrame(f: DataFrame)
  {
    && |f.columns| == 2
    && f.columns[0].seriesType == Date && f.columns[0].name == TimeColumnName
    && f.columns[1].seriesType == Number && f.columns[1].name == ValueColumnName
    && WellTyped(f.columns[0]) && WellTyped(f.columns[1])
    && Aligned(f)
  }

  // ---------------------------------------------------------------------
  // Rows: the reference view of a time/value frame

  /** One parsed sample: what parseValueTuple returns. */
  datatype Sample = Sample(unixTimeMs: int, value: real)

  /** Row i of a time/value frame: the i-th timestamp with the i-th value. */
  function Rows(f: DataFrame): (rows: seq<Sample>)
    requires IsTimeValueFrame(f)
    ensures |rows| == |f.columns[0].values| == |f.columns[1].values|
  {
    seq(|f.columns[0].values|, i requires 0 <= i < |f.columns[0].values| =>
      Sample(f.columns[0].values[i].unixTimeMs, f.columns[1].values[i].sample))
  }

  /** The time/value frame whose rows are `rows`. */
  function FrameOfRows(name: string, rows: seq<Sample>): (f: DataFrame)
    ensures IsTimeValueFrame(f) && f.name == name
  {
    DataFrame(name, [
      Series(Date, TimeColumnName, seq(|rows|, i requires 0 <= i < |rows| => DateCell(rows[i].unixTimeMs))),
      Series(Number, ValueColumnName, seq(|rows|, i requires 0 <= i < |rows| => NumberCell(rows[i].value)))
    ])
  }

  lemma RowsOfFrameOfRows(name: string, rows: seq<Sample>)
    ensures Rows(FrameOfRows(name, rows)) == rows
  {
  }

  /** A time/value frame is determined by its name and its rows. */
  lemma FrameOfRowsOfFrame(f: DataFrame)
    requires IsTimeValueFrame(f)
    ensures FrameOfRows(f.name, Rows(f)) == f
  {
    var g := FrameOfRows(f.name, Rows(f));
    assert g.columns[0].values == f.columns[0].values;
    assert g.columns[1].values == f.columns[1].values;
    assert g.columns == [g.columns[0], g.columns[1]];
    assert f.columns == [f.columns[0], f.columns[1]];
  }

  // ---------------------------------------------------------------------
  // Column and frame constructors

  /** createTimeColumn: an empty `Timestamp` date column. */
  function CreateTimeColumn(): (s: Series)
    ensures s.seriesType == Date && s.name == TimeColumnName && |s.values| == 0
  {
    Series(Date, TimeColumnName, [])
  }

  /** createValueColumn: an empty `Value` number column. */
  function CreateValueColumn(): (s: Series)
    ensures s.seriesType == Number && s.name == ValueColumnName && |s.values| == 0
  {
    Series(Number, ValueColumnName, [])
  }

  /** createDataFrame: the time column first, the value column second. The
      frame is a time/value frame exactly when the columns have the right tags,
      names, cell types and equal lengths. */
  function CreateDataFrame(name: string, timeColumn: Series, valueColumn: Series): (f: DataFrame)
    ensures f.name == name && |f.columns| == 2
    ensures IsTimeValueFrame(f) <==>
              && timeColumn.seriesType == Date && timeColumn.name == TimeColumnName
              && valueColumn.seriesType == Number && valueColumn.name == ValueColumnName
              && WellTyped(timeColumn) && WellTyped(valueColumn)
              && |timeColumn.values| == |valueColumn.values|
    ensures IsTimeValueFrame(f) ==>
              Rows(f) == seq(|timeColumn.values|, i requires 0 <= i < |timeColumn.values| =>
                             Sample(timeColumn.values[i].unixTimeMs, valueColumn.values[i].sample))
  {
    var f := DataFrame(name, [timeColumn, valueColumn]);
    assert Aligned(f) <==> |timeColumn.values| == |valueColumn.values| by {
      if |timeColumn.values| != |valueColumn.values| {
        assert |f.columns[1].values| != |f.columns[0].values|;
      }
    }
    f
  }

  // ---------------------------------------------------------------------
  // Raw response shapes

  /** A wire value tuple `[timestamp, "value"]`: seconds since the epoch and
      the sample as text. Its meaning is given by the parser parameter. */
  datatype ValueTuple = ValueTuple(unixTimeSeconds: real, sampleValue: string)

  /** One element of a vector result (`value`) or a matrix result (`values`). */
  datatype MetricSeries =
    | InstantSeries(metric: LabelSet, value: ValueTuple)
    | RangeSeries(metric: LabelSet, values: seq<ValueTuple>)

  datatype QueryData =
    | ScalarData(result: ValueTuple)
    | VectorData(series: seq<MetricSeries>)
    | MatrixData(series: seq<MetricSeries>)

  datatype QueryResponse = QueryResponse(data: Option<QueryData>)

  /** `'value' in series ? [series.value] : series.values` */
  function TuplesOf(s: MetricSeries): (tuples: seq<ValueTuple>)
    ensures s.InstantSeries? ==> tuples == [s.value]
    ensures s.RangeSeries? ==> tuples == s.values
  {
    match s
    case InstantSeries(_, value) => [value]
    case RangeSeries(_, values) => values
  }

  /** The frame the normaliser builds for one series element: its name is
      labelsToSeriesName of the metric and row j is the j-th parsed tuple. */
  predicate FrameFor(f: DataFrame, s: MetricSeries, parse: ValueTuple -> Sample)
  {
    && IsTimeValueFrame(f)
    && f.name == LabelsToSeriesName(s.metric)
    && |Rows(f)| == |TuplesOf(s)|
    && forall j :: 0 <= j < |TuplesOf(s)| ==> Rows(f)[j] == parse(TuplesOf(s)[j])
  }

  // ---------------------------------------------------------------------
  // createDataFrames

  /** The loop over one series' value tuples: pushes each parsed timestamp
      onto a fresh time column and each parsed sample onto a fresh value
      column, keeping input order. */
  method FillColumns(tuples: seq<ValueTuple>, parse: ValueTuple -> Sample)
    returns (timeColumn: Series, valueColumn: Series)
    ensures timeColumn.seriesType == Date && timeColumn.name == TimeColumnName
    ensures valueColumn.seriesType == Number && valueColumn.name == ValueColumnName
    ensures |timeColumn.values| == |valueColumn.values| == |tuples|
    ensures forall j :: 0 <= j < |tuples| ==>
              && timeColumn.values[j] == DateCell(parse(tuples[j]).unixTimeMs)
              && valueColumn.values[j] == NumberCell(parse(tuples[j]).value)
  {
    timeColumn := CreateTimeColumn();
    valueColumn := CreateValueColumn();
    for k := 0 to |tuples|
      invariant timeColumn.seriesType == Date && timeColumn.name == TimeColumnName
      invariant valueColumn.seriesType == Number && valueColumn.name == ValueColumnName
      invariant |timeColumn.values| == |valueColumn.values| == k
      invariant forall j :: 0 <= j < k ==>
                  && timeColumn.values[j] == DateCell(parse(tuples[j]).unixTimeMs)
                  && valueColumn.values[j] == NumberCell(parse(tuples[j]).value)
    {
      var sample := parse(tuples[k]);
      timeColumn := timeColumn.(values := timeColumn.values + [DateCell(sample.unixTimeMs)]);
      valueColumn := valueColumn.(values := valueColumn.values + [NumberCell(sample.value)]);
    }
  }

  /** The scalar branch: one frame named `scalar` whose only row is the
      parsed tuple. */
  method ScalarFrame(result: ValueTuple, parse: ValueTuple -> Sample) returns (frame: DataFrame)
    ensures IsTimeValueFrame(frame) && frame.name == ScalarFrameName
    ensures Rows(frame) == [parse(result)]
  {
    var timeColumn, valueColumn := CreateTimeColumn(), CreateValueColumn();
    var sample := parse(result);
    timeColumn := timeColumn.(values := timeColumn.values + [DateCell(sample.unixTimeMs)]);
    valueColumn := valueColumn.(values := valueColumn.values + [NumberCell(sample.value)]);
    frame := CreateDataFrame(ScalarFrameName, timeColumn, valueColumn);
  }

  /** The body of the loop over a vector's or matrix's series: the frame for
      one series element. */
  method SeriesFrame(series: MetricSeries, parse: ValueTuple -> Sample) returns (frame: DataFrame)
    ensures FrameFor(frame, series, parse)
  {
    var timeColumn, valueColumn := FillColumns(TuplesOf(series), parse);
    frame := CreateDataFrame(LabelsToSeriesName(series.metric), timeColumn, valueColumn);
  }

  /** The loop over a vector's or matrix's series: one frame per series, in
      input order. */
  method SeriesFrames(series: seq<MetricSeries>, parse: ValueTuple -> Sample)
    returns (frames: seq<DataFrame>)
    ensures |frames| == |series|
    ensures forall i :: 0 <= i < |frames| ==> FrameFor(frames[i], series[i], parse)
  {
    frames := [];
    for i := 0 to |series|
      invariant |frames| == i
      invariant forall k :: 0 <= k < i ==> FrameFor(frames[k], series[k], parse)
    {
      var frame := SeriesFrame(series[i], parse);
      FramesForAppend(frames, series[..i], frame, series[i], parse);
      assert series[..i + 1] == series[..i] + [series[i]];
      frames := frames + [frame];
    }
  }

  /** createDataFrames: no data gives no frames; a scalar gives one frame
      named `scalar` holding the parsed tuple; a vector or matrix gives one
      frame per series, in input order. */
  method CreateDataFrames(response: Option<QueryResponse>, parse: ValueTuple -> Sample)
    returns (frames: seq<DataFrame>)
    ensures (response.None? || response.value.data.None?) ==> frames == []
    ensures response.Some? && response.value.data.Some? && response.value.data.value.ScalarData? ==>
              && |frames| == 1
              && IsTimeValueFrame(frames[0])
              && frames[0].name == ScalarFrameName
              && Rows(frames[0]) == [parse(response.value.data.value.result)]
    ensures response.Some? && response.value.data.Some? && !response.value.data.value.ScalarData? ==>
              && |frames| == |response.value.data.value.series|
              && forall i :: 0 <= i < |frames| ==>
                   FrameFor(frames[i], response.value.data.value.series[i], parse)
  {
    if response.None? || response.value.data.None? {
      return [];
    }
    var data := response.value.data.value;
    if data.ScalarData? {
      var frame := ScalarFrame(data.result, parse);
      return [frame];
    }
    frames := SeriesFrames(data.series, parse);
  }

  /** Appending the frame of the next series keeps frames and series in step. */
  lemma FramesForAppend(frames: seq<DataFrame>, series: seq<MetricSeries>, frame: DataFrame,
                        next: MetricSeries, parse: ValueTuple -> Sample)
    requires |frames| == |series|
    requires forall k :: 0 <= k < |frames| ==> FrameFor(frames[k], series[k], parse)
    requires FrameFor(frame, next, parse)
    ensures forall k :: 0 <= k < |frames| + 1 ==>
              FrameFor((frames + [frame])[k], (series + [next])[k], parse)
  {
    forall k | 0 <= k < |frames| + 1
      ensures FrameFor((frames + [frame])[k], (series + [next])[k], parse)
    {
      if k < |frames| {
        assert (frames + [frame])[k] == frames[k] && (series + [next])[k] == series[k];
      }
    }
  }

  // ---------------------------------------------------------------------
  // Consequences

  /** The two column lengths of a frame for a vector element are 1, and for a
      matrix element the number of value tuples. */
  lemma FrameLength(f: DataFrame, s: MetricSeries, parse: ValueTuple -> Sample)
    requires FrameFor(f, s, parse)
    ensures s.InstantSeries? ==> |f.columns[0].values| == |f.columns[1].values| == 1
    ensures s.RangeSeries? ==> |f.columns[0].values| == |f.columns[1].values| == |s.values|
  {
  }

  /** A frame for a series element is exactly the frame of its parsed tuples. */
  lemma FrameForIsFrameOfRows(f: DataFrame, s: MetricSeries, parse: ValueTuple -> Sample)
    requires FrameFor(f, s, parse)
    ensures f == FrameOfRows(LabelsToSeriesName(s.metric),
                             seq(|TuplesOf(s)|, j requires 0 <= j < |TuplesOf(s)| => parse(TuplesOf(s)[j])))
  {
    FrameOfRowsOfFrame(f);
    assert Rows(f) == seq(|TuplesOf(s)|, j requires 0 <= j < |TuplesOf(s)| => parse(TuplesOf(s)[j]));
  }
}
