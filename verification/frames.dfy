/** A feature table as the forecasting script builds it: a date column, an
    optional `sales` column, and the calendar and lag/rolling column groups
    once they have been added.  Each group is either wholly present or wholly
    absent, because each is added by one function.
 */
module Frames {
  import opened Maybe
  import opened Calendar
  import opened TimeFeatures
  import opened LagFeatures

  datatype Frame = Frame(
    dates: seq<Date>,
    sales: Option<seq<real>>,
    calendar: Option<seq<CalendarFields>>,
    lagged: Option<LagColumns>)

  /** Every column has one cell per row, and every date exists. */
  predicate WellFormed(f: Frame) {
    && (forall i :: 0 <= i < |f.dates| ==> ValidDate(f.dates[i]))
    && (f.sales.Some? ==> |f.sales.value| == |f.dates|)
    && (f.calendar.Some? ==> |f.calendar.value| == |f.dates|)
    && (f.lagged.Some? ==> Shaped(f.lagged.value, |f.dates|))
  }

  /** The column names in order: the input's, then the calendar group in the
      order `create_time_features` assigns them, then the lag group in the
      order `add_lag_features` assigns them. */
  const CalendarColumnNames: seq<string> := [
    "year", "month", "day", "day_of_week", "quarter", "is_weekend", "is_holiday",
    "is_month_start", "is_month_end", "month_sin", "month_cos", "day_sin", "day_cos"]

  const LagColumnNames: seq<string> := [
    "sales_lag_1", "sales_lag_2", "sales_lag_3", "sales_lag_7", "sales_lag_14", "sales_lag_30"]

  /** Mean and standard deviation alternate, window by window. */
  const RollingColumnNames: seq<string> := [
    "sales_rolling_mean_7", "sales_rolling_std_7",
    "sales_rolling_mean_14", "sales_rolling_std_14",
    "sales_rolling_mean_30", "sales_rolling_std_30"]

  function ColumnNames(f: Frame): seq<string> {
    ["date"]
      + (if f.sales.Some? then ["sales"] else [])
      + (if f.calendar.Some? then CalendarColumnNames else [])
      + (if f.lagged.Some? then LagColumnNames + RollingColumnNames else [])
  }

  /** `create_time_features`: works on a copy, so apart from the calendar
      group every column comes back as it went in. */
  function CreateTimeFeatures(f: Frame, holiday: Date -> bool): (r: Frame)
    requires WellFormed(f)
    ensures WellFormed(r)
    ensures r.dates == f.dates && r.sales == f.sales && r.lagged == f.lagged
    ensures r.calendar.Some? && |r.calendar.value| == |f.dates|
    ensures forall i :: 0 <= i < |f.dates| ==> r.calendar.value[i] == Fields(f.dates[i], holiday)
  {
    f.(calendar := Some(seq(|f.dates|, i requires 0 <= i < |f.dates| => Fields(f.dates[i], holiday))))
  }

  /** `add_lag_features`: training mode when the frame has `sales`, otherwise
      inference mode when a source series is given, otherwise no change. */
  function AddLagFeatures(f: Frame, trainSales: Option<seq<real>>): (r: Result<Frame>)
    requires WellFormed(f)
    ensures r.Ok? ==> WellFormed(r.value)
    ensures r.Ok? ==>
      r.value.dates == f.dates && r.value.sales == f.sales && r.value.calendar == f.calendar
    ensures r.Ok? && (f.sales.Some? || trainSales.Some?) ==> r.value.lagged.Some?
  {
    if f.sales.Some? then
      Ok(f.(lagged := Some(Training(f.sales.value))))
    else if trainSales.Some? then
      match Inference(|f.dates|, trainSales.value)
      case Ok(c) => Ok(f.(lagged := Some(c)))
      case Err(e) => Err(e)
    else
      Ok(f)
  }

  /** Re-running the calendar builder changes nothing: its output depends on
      the date column alone. */
  lemma CreateTimeFeaturesIdempotent(f: Frame, holiday: Date -> bool)
    requires WellFormed(f)
    ensures CreateTimeFeatures(CreateTimeFeatures(f, holiday), holiday) == CreateTimeFeatures(f, holiday)
  {
  }

  /** Mode precedence: with a `sales` column the source series is ignored;
      without it, a source of at least 30 values gives the inference columns;
      with neither, the frame comes back unchanged; inference mode fails
      only for a source shorter than 30 values. */
  lemma AddLagFeaturesModes(f: Frame, trainSales: Option<seq<real>>)
    requires WellFormed(f)
    ensures f.sales.Some? ==> AddLagFeatures(f, trainSales) == AddLagFeatures(f, None)
    ensures f.sales.Some? ==> AddLagFeatures(f, trainSales) == Ok(f.(lagged := Some(Training(f.sales.value))))
    ensures f.sales.None? && trainSales.Some? && |trainSales.value| >= TailLength ==>
      AddLagFeatures(f, trainSales) == Ok(f.(lagged := Some(Inference(|f.dates|, trainSales.value).value)))
    ensures f.sales.None? && trainSales.None? ==> AddLagFeatures(f, trainSales) == Ok(f)
    ensures AddLagFeatures(f, trainSales).Err?
      <==> f.sales.None? && trainSales.Some? && |trainSales.value| < TailLength
  {
  }
}
