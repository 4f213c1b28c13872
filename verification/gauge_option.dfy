/** The option selection of the gauge chart panel: the memoised function from
    the query data, the calculation and the unit to the chart-engine option.
    Styling (colours, angles, fonts) is presentation and is not modelled; what
    is kept is which option is chosen, the value each gauge series shows, and
    the unit the detail label is formatted with. */
module GaugeOption {
  import opened Wrappers
  import opened DataFrames

  /** A unit descriptor: the formatting strategy and the fractional digits. */
  datatype UnitOptions = UnitOptions(kind: string, decimalPlaces: int)

  /** Names a registered calculation (last, mean, max, ...). */
  type CalculationType = string

  /** One series of the query data handed to the panel. */
  datatype GraphSeries = GraphSeries(name: string, values: seq<Sample>)

  datatype GraphData = GraphData(series: seq<GraphSeries>)

  /** A gauge series of the option: its radius, the single data value it
      shows, and the unit its detail formatter passes to formatValue (None
      when the detail label is hidden). */
  datatype GaugeSeries = GaugeSeries(radius: string, value: real, detailUnit: Option<UnitOptions>)

  /** The chart-engine option: `{}`, the shared `No data` option, or the two
      overlaid gauges (a thick progress arc and a thin threshold arc that
      carries the detail label). */
  datatype ChartOption =
    | EmptyOption
    | NoDataOption
    | Gauges(progress: GaugeSeries, thresholds: GaugeSeries)

  const ProgressRadius: string := "110%"
  const ThresholdsRadius: string := "125%"

  /** The detail formatter fixes the fractional digits at 0. */
  const DetailDecimalPlaces: int := 0

  /** The unit the detail formatter hands to formatValue: the panel's unit
      kind, with its decimal places replaced by 0. */
  function DetailUnit(unit: UnitOptions): (u: UnitOptions)
    ensures u.kind == unit.kind && u.decimalPlaces == DetailDecimalPlaces
  {
    UnitOptions(unit.kind, DetailDecimalPlaces)
  }

  /** The gauge option: undefined data gives `{}`, data without a first series
      the no-data option, and otherwise two gauges that both show the value the
      selected calculation computes from the first series' values. The
      calculation registry is the parameter `calculate`. */
  function SelectOption(data: Option<GraphData>, calculation: CalculationType, unit: UnitOptions,
                        calculate: (CalculationType, seq<Sample>) -> real): (option: ChartOption)
    ensures option.EmptyOption? <==> data.None?
    ensures option.NoDataOption? <==> data.Some? && |data.value.series| == 0
    ensures option.Gauges? <==> data.Some? && |data.value.series| > 0
    ensures option.Gauges? ==>
              && option.progress.value == option.thresholds.value
                 == calculate(calculation, data.value.series[0].values)
              && option.progress.detailUnit.None?
              && option.thresholds.detailUnit == Some(DetailUnit(unit))
  {
    if data.None? then EmptyOption
    else if |data.value.series| == 0 then NoDataOption
    else
      var calculatedValue := calculate(calculation, data.value.series[0].values);
      Gauges(GaugeSeries(ProgressRadius, calculatedValue, None),
             GaugeSeries(ThresholdsRadius, calculatedValue, Some(DetailUnit(unit))))
  }

  /** What the chart engine shows as the detail label of a gauge series when it
      calls the series' formatter with `value`; formatValue is the parameter
      `format`. */
  function DetailLabel(s: GaugeSeries, format: (real, UnitOptions) -> string, value: real): (text: Option<string>)
    ensures text.Some? <==> s.detailUnit.Some?
  {
    match s.detailUnit
    case None => None
    case Some(u) => Some(format(value, u))
  }

  /** The one label of a gauge option is formatValue of the calculated value
      with the unit kind and zero decimal places. */
  lemma GaugeLabelIsFormattedValue(data: Option<GraphData>, calculation: CalculationType, unit: UnitOptions,
                                   calculate: (CalculationType, seq<Sample>) -> real,
                                   format: (real, UnitOptions) -> string)
    requires data.Some? && |data.value.series| > 0
    ensures var option := SelectOption(data, calculation, unit, calculate);
            var v := calculate(calculation, data.value.series[0].values);
            && DetailLabel(option.progress, format, option.progress.value).None?
            && DetailLabel(option.thresholds, format, option.thresholds.value)
               == Some(format(v, UnitOptions(unit.kind, 0)))
  {
  }

  /** The unit's decimal places never reach the option. */
  lemma DecimalPlacesIgnored(data: Option<GraphData>, calculation: CalculationType, u1: UnitOptions,
                             u2: UnitOptions, calculate: (CalculationType, seq<Sample>) -> real)
    requires u1.kind == u2.kind
    ensures SelectOption(data, calculation, u1, calculate) == SelectOption(data, calculation, u2, calculate)
  {
  }

  /** Only the first series matters: series after it never change the option. */
  lemma OnlyFirstSeriesMatters(first: GraphSeries, rest1: seq<GraphSeries>, rest2: seq<GraphSeries>,
                               calculation: CalculationType, unit: UnitOptions,
                               calculate: (CalculationType, seq<Sample>) -> real)
    ensures SelectOption(Some(GraphData([first] + rest1)), calculation, unit, calculate)
            == SelectOption(Some(GraphData([first] + rest2)), calculation, unit, calculate)
  {
  }
}
