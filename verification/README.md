# Demand forecasting feature pipeline and synthetic sales generator

A Dafny model of the forecasting core of spacify. The core has two parts:

- `part1_ai/demand_forecast.py` turns a daily sales table into model features. `create_time_features` adds calendar fields. `add_lag_features` adds lags and rolling statistics, in a training mode and an inference mode. `train_model` selects the feature columns, drops incomplete rows, sorts by date, splits the rows 70/15/15 in time order, fits a regressor on the first slice and writes the predictions back by position.
- `part1_ai/data/fake_data.py` generates the synthetic sales data (`generate_sales_data`). It writes eight rows per day, one for each pair of two warehouses and four products. Each row's sales are a product base volume scaled by six factors, then truncated and clamped to [20, 500].

The model is functional. A data frame is a typed record, `Frames.Frame`. It holds a date column, an optional `sales` column, an optional group of calendar columns and an optional group of lag columns. A missing cell (pandas' NaN) is `None`.

Three library components become parameters:

- the US holiday calendar is a predicate `holiday: Date -> bool`;
- the XGBoost regressor is a function `fit` from training inputs and targets to a predictor;
- NumPy's `sin` is any function bounded by 1 in absolute value.

The *k*-th call to `random.uniform(0.8, 1.2)` is `draw(k)`.

Modules:

| module | file | what it holds |
|---|---|---|
| `Maybe` | maybe.dfy | `Option`, `Result`, and the exceptions the code can raise (`KeyError`, `IndexError`, `OverflowError`, `ValueError`) |
| `Calendar` | calendar.dfy | proleptic Gregorian dates of years 1 to 9999 as in Python's `datetime`; day ordinal, weekday and day arithmetic; `timedelta` overflow past 9999-12-31 |
| `DateText` | date_text.dfy | the `YYYY-MM-DD` text the generator writes and the forecaster parses |
| `Stats` | stats.dfy | sum, mean, min, max, sample and population variance |
| `TimeFeatures` | time_features.dfy | the integer calendar fields of one date |
| `LagFeatures` | lag_features.dfy | the lag and rolling columns in both modes |
| `Frames` | frames.dfy | the frame, `create_time_features` and `add_lag_features` |
| `Trainer` | trainer.dfy | `train_model`: feature names, `dropna`, the sort, the split, the fit and the placement of predictions |
| `FakeData` | fake_data.dfy | `generate_sales_data` |

## Model

| member | source | states |
|---|---|---|
| Calendar.DaysInMonth | part1_ai/demand_forecast.py:36-37 | a month has 28 to 31 days, and exactly 29 only for February of a leap year |
| Calendar.NextDay | part1_ai/data/fake_data.py:8 | the next day is always a valid date, and it is missing (`OverflowError`) exactly for 9999-12-31 |
| Calendar.OrdinalRange | part1_ai/data/fake_data.py:8 | day numbers run from 1 to 3652059, and only 9999-12-31 has the last one |
| Calendar.NextDayOrdinal | part1_ai/data/fake_data.py:8 | the next day has the next day number |
| Calendar.AddDaysOrdinal | part1_ai/data/fake_data.py:8 | `start + timedelta(days=n)` exists iff the day number plus `n` stays within 3652059, and then it is exactly `n` day numbers later |
| Calendar.AddDaysWeekday | part1_ai/data/fake_data.py:27-28 | `n` days later the weekday (Monday = 0) has advanced by `n` modulo 7 |
| Calendar.DateLeqIffOrdinal | part1_ai/demand_forecast.py:80 | ordering dates by (year, month, day) is the same as ordering them in time |
| DateText.Pad | part1_ai/data/fake_data.py:70 | a zero-padded field has exactly the requested width and only digits |
| DateText.FormatDate | part1_ai/data/fake_data.py:70 | `strftime("%Y-%m-%d")` gives ten characters: four digits, `-`, two digits, `-`, two digits |
| DateText.ValueOfPad | part1_ai/data/fake_data.py:70 | reading back a zero-padded number gives the number when it fits the width |
| DateText.PadOfValue | part1_ai/demand_forecast.py:21 | re-padding the value of a digit string gives the same string, with its leading zeros |
| DateText.ParseDate | part1_ai/demand_forecast.py:21 | a string that parses gives a valid date |
| DateText.ParseFormat | part1_ai/data/fake_data.py:70 | parsing the written date gives back the date that was written |
| DateText.FormatParse | part1_ai/demand_forecast.py:21 | every accepted string is canonical: formatting the parsed date gives the same characters |
| Stats.Min | part1_ai/demand_forecast.py:53-54 | the minimum is an element and no element is smaller |
| Stats.Max | part1_ai/demand_forecast.py:53-54 | the maximum is an element and no element is larger |
| Stats.SampleVariance | part1_ai/demand_forecast.py:55-56 | the ddof=1 spread is defined exactly for two or more values and is never negative |
| Stats.PopulationVariance | part1_ai/demand_forecast.py:64 | the ddof=0 spread is never negative |
| Stats.SumBounds | part1_ai/demand_forecast.py:53-54 | the sum of values in [lo, hi] lies in [n lo, n hi] |
| Stats.MeanBetweenMinAndMax | part1_ai/demand_forecast.py:53-54 | a mean lies between the smallest and the largest value |
| Stats.ConstantWindow | part1_ai/demand_forecast.py:53-56 | on a constant window the mean is the constant and both spreads are zero |
| TimeFeatures.Quarter | part1_ai/demand_forecast.py:28 | the quarter is 1 to 4, and month `m` lies in quarter `q` iff 3q-2 <= m <= 3q |
| TimeFeatures.Fields | part1_ai/demand_forecast.py:24-37 | year, month and day come from the date; quarter is (month + 2) / 3; day_of_week is the weekday; every flag is 0 or 1, and each is 1 exactly when its condition holds (weekday 5 or 6; a holiday; day 1; last day of the month) |
| TimeFeatures.MonthEndIffNextIsMonthStart | part1_ai/demand_forecast.py:36-37 | a date ends its month iff the next day starts a month, or there is no next day |
| TimeFeatures.MonthEndThenMonthStart | part1_ai/demand_forecast.py:36-37 | the month-end flag of a date equals the month-start flag of the next day |
| TimeFeatures.FebruaryMonthEnd | part1_ai/demand_forecast.py:37 | 29 February ends its month; 28 February ends it exactly outside leap years |
| TimeFeatures.WeekendFollowsWeekday | part1_ai/demand_forecast.py:27-31 | `n` days after a date, the weekend flag is set iff the weekday advanced by `n` modulo 7 is 5 or 6 |
| LagFeatures.Shift | part1_ai/demand_forecast.py:50 | `shift(k)` keeps the length of the series |
| LagFeatures.ShiftAt | part1_ai/demand_forecast.py:50 | after `shift(k)`, position `i` holds the value `k` rows earlier, or NaN in the first `k` rows |
| LagFeatures.Training | part1_ai/demand_forecast.py:48-56 | training mode yields six lag columns, three mean columns and three spread columns, each as long as the frame |
| LagFeatures.TrainingLag | part1_ai/demand_forecast.py:49-50 | `sales_lag_k` on row `i` is the sales of row `i - k`, or NaN when `i < k` |
| LagFeatures.TrainingMean | part1_ai/demand_forecast.py:52-54 | with `min_periods=1` the rolling mean is defined on every row and lies between the smallest and largest sales of its window |
| LagFeatures.TrainingVariance | part1_ai/demand_forecast.py:55-56 | the rolling spread is defined on every row except the first |
| LagFeatures.TrainingCompleteIff | part1_ai/demand_forecast.py:49-56 | a training-mode row has no NaN feature iff it is at least 30 rows in |
| LagFeatures.TrainingReadsOnlyPast | part1_ai/demand_forecast.py:49-56 | a row's lag and rolling features depend only on the sales of that row and earlier ones |
| LagFeatures.LagsReadOnlyBefore | part1_ai/demand_forecast.py:49-50 | a row's lags depend only on strictly earlier sales |
| LagFeatures.TrainingOnConstant | part1_ai/demand_forecast.py:49-56 | on constant sales `c`, every defined lag is `c`, every rolling mean is `c`, and every spread from row 1 on is 0 |
| LagFeatures.Inference | part1_ai/demand_forecast.py:57-64 | inference mode, when it succeeds, yields the twelve columns as long as the frame |
| LagFeatures.InferenceFailsIff | part1_ai/demand_forecast.py:58-60 | inference mode raises `IndexError` exactly when the source series has fewer than 30 values |
| LagFeatures.InferenceBroadcast | part1_ai/demand_forecast.py:57-64 | in inference mode every row gets the same vector: `lag_k` is the `k`-th value from the end of the source, and the mean and spread of window `w` are taken over its last `w` values |
| LagFeatures.InferenceComplete | part1_ai/demand_forecast.py:57-64 | inference rows have no NaN feature |
| Frames.CreateTimeFeatures | part1_ai/demand_forecast.py:19-37 | the calendar group is added with the fields of each row's own date, and the date, sales and lag columns are unchanged |
| Frames.CreateTimeFeaturesIdempotent | part1_ai/demand_forecast.py:19-37 | running the calendar builder twice equals running it once |
| Frames.AddLagFeatures | part1_ai/demand_forecast.py:47-66 | the date, sales and calendar columns are unchanged, and the lag group is present whenever a `sales` column or a source series was given |
| Frames.AddLagFeaturesModes | part1_ai/demand_forecast.py:47-66 | a frame with `sales` always takes training mode and ignores the source series; without `sales`, a source of 30 or more values gives exactly the inference columns; with neither the frame is returned as is; an error occurs iff inference mode gets fewer than 30 values |
| Trainer.Select | part1_ai/demand_forecast.py:73-74 | the selected names are columns of the frame that contain the substring |
| Trainer.SelectAppend | part1_ai/demand_forecast.py:73-74 | selecting from two column lists in turn equals selecting from their concatenation |
| Trainer.SelectMembers | part1_ai/demand_forecast.py:73-74 | a name is selected iff it is a column containing the substring |
| Trainer.FeatureNamesMembers | part1_ai/demand_forecast.py:69-74 | a name is a feature iff it is one of the thirteen fixed names, or a column containing `lag_` or `rolling_` |
| Trainer.Rows | part1_ai/demand_forecast.py:76-77 | the frame has one row per date, carrying that date, that sales value, that date's calendar cells and the lag cells at that position (none without a lag group) |
| Trainer.DropIncomplete | part1_ai/demand_forecast.py:77 | `dropna` keeps only rows with no NaN; every complete row occurs in the result exactly as often as in the input, and nothing else occurs |
| Trainer.DropIncompletePrefix | part1_ai/demand_forecast.py:77 | when exactly the first `k` rows have a NaN, `dropna` returns the rows from `k` on |
| Trainer.Insert | part1_ai/demand_forecast.py:80 | inserting a row adds exactly that row |
| Trainer.InsertSorted | part1_ai/demand_forecast.py:80 | inserting into a date-sorted list keeps it sorted |
| Trainer.SortByDate | part1_ai/demand_forecast.py:80 | `sort_values('date')` gives the same rows in ascending date order |
| Trainer.SortedIsChronological | part1_ai/demand_forecast.py:80 | in the sorted rows an earlier position never has a later day |
| Trainer.TrainSize | part1_ai/demand_forecast.py:84 | the training size is floor(0.7 n) |
| Trainer.ValSize | part1_ai/demand_forecast.py:85 | the validation size is floor(0.15 n) |
| Trainer.SplitPartition | part1_ai/demand_forecast.py:84-85 | the training and validation sizes fit within `n`, and they leave at least one test row when `n >= 1` |
| Trainer.EmptyValidationIff | part1_ai/demand_forecast.py:84-85 | the validation slice is empty exactly when fewer than 7 rows are split, and an empty training slice implies an empty validation slice |
| Trainer.SplitSlices | part1_ai/demand_forecast.py:88-100 | the three `iloc` slices together are the sorted rows, of sizes floor(0.7 n), floor(0.15 n) and the rest |
| Trainer.Inputs | part1_ai/demand_forecast.py:89 | row `i` of the input matrix is row `i`'s feature vector |
| Trainer.Targets | part1_ai/demand_forecast.py:90 | target `i` is row `i`'s sales |
| Trainer.Predict | part1_ai/demand_forecast.py:116-118 | prediction `i` is the predictor applied to row `i`'s features |
| Trainer.Prepared | part1_ai/demand_forecast.py:76-80 | the rows to split are the rows left by `dropna`, reordered; they are sorted by date and none has a NaN |
| Trainer.TrainModel | part1_ai/demand_forecast.py:68-136 | `KeyError("year")` exactly when the calendar group is missing, `KeyError("sales")` exactly when only `sales` is missing, and `ValueError` exactly when fewer than 7 rows survive `dropna` (empty validation slice); otherwise at least 7 rows and the feature names, the prepared rows, the two split sizes and one prediction per row |
| Trainer.TrainModelChronological | part1_ai/demand_forecast.py:80-98 | the split is chronological: an earlier row of the result never has a later date |
| Trainer.PredictionsAligned | part1_ai/demand_forecast.py:113-134 | writing the three slices' predictions back by position gives every row the prediction for its own features, from the model fitted on the training slice |
| Trainer.PlacementByPosition | part1_ai/demand_forecast.py:131-134 | predictions on three consecutive slices, concatenated, equal predictions on the whole |
| Trainer.FitSeesOnlyTrainingSlice | part1_ai/demand_forecast.py:112-118 | two sorted row lists whose training slices agree get the same prediction for rows with equal features, whatever their validation and test rows are |
| Trainer.TrainingModeKeepsFrom30 | part1_ai/demand_forecast.py:77 | after training-mode lags, `dropna` removes exactly the first 30 rows in frame order (all of them if there are fewer) |
| Trainer.TrainingPipeline | part1_ai/demand_forecast.py:207-213 | calendar fields and training-mode lags always succeed; `train_model` then succeeds exactly when `n >= 37` and otherwise raises `ValueError`; on success `n - 30` rows are split, with sizes floor(0.7 m) and floor(0.15 m) |
| FakeData.MonthlyFactor | part1_ai/data/fake_data.py:31-32 | the intra-month factor lies in [0.8, 1.2] |
| FakeData.SeasonalFactor | part1_ai/data/fake_data.py:35-36 | the seasonal factor lies in [0.7, 1.3] |
| FakeData.HolidayFactorRules | part1_ai/data/fake_data.py:38-48 | the holiday factor is 2.5 on 24 November, 1.8 from 15 December, 0.7 on 1-7 January, and 1.0 on every other day |
| FakeData.WeekendFactorMatchesFlag | part1_ai/data/fake_data.py:50-51 | the generator's weekend factor is 1.3 exactly on the days the forecaster flags `is_weekend`, and 1.0 otherwise |
| FakeData.ScriptDates | part1_ai/data/fake_data.py:40-42 | 24 November 2023 is a Friday, which gets the Black Friday factor without the weekend factor; 1 January 2023 is a Sunday, with both the New Year and the weekend factor |
| FakeData.Trunc | part1_ai/data/fake_data.py:59-65 | `int()` truncates toward zero |
| FakeData.Clamp | part1_ai/data/fake_data.py:68 | the clamped count lies in [20, 500] and is unchanged when already inside |
| FakeData.UnitSalesMonotone | part1_ai/data/fake_data.py:59-68 | with the other factors equal and positive, a larger base volume and warehouse factor never give fewer sales |
| FakeData.ProductOrdering | part1_ai/data/fake_data.py:10-16 | on the same date and warehouse and with the same draw, a lower-numbered product never sells less |
| FakeData.WarehouseOrdering | part1_ai/data/fake_data.py:18-22 | on the same date and product and with the same draw, warehouse 1 never sells less than warehouse 2 |
| FakeData.DateRange | part1_ai/data/fake_data.py:8 | the date list has `n` entries, the `i`-th being `start` plus `i` days |
| FakeData.DateRangeConsecutive | part1_ai/data/fake_data.py:8 | the date list exists iff its last day is no later than 9999-12-31; the `i`-th date is `i` days after `start` |
| FakeData.NoRangeBeyond | part1_ai/data/fake_data.py:8 | once one day overflows, every longer date list fails |
| FakeData.ListDates | part1_ai/data/fake_data.py:8 | the loop that lists the dates computes the date list, or reports the overflow |
| FakeData.ObservationOrder | part1_ai/data/fake_data.py:26-70 | rows are date-major, then warehouse, then product: row `8 i + 4 (w - 1) + (p - 1)` is warehouse `w`, product `p` on day `i`, priced with that row's draw |
| FakeData.AppendWarehouse | part1_ai/data/fake_data.py:54-70 | the product loop appends the four rows of one warehouse and day, in product order |
| FakeData.AppendDay | part1_ai/data/fake_data.py:53-70 | the warehouse loop appends the eight rows of one day |
| FakeData.GenerateSalesData | part1_ai/data/fake_data.py:6-70 | `OverflowError` iff a date passes 9999-12-31; otherwise 8 rows per day (none for a day count of zero or less), row `k` being product `k mod 4 + 1` of warehouse `(k mod 8) div 4 + 1` on day `k div 8` |
| FakeData.ObservationWellFormed | part1_ai/data/fake_data.py:59-70 | every generated row has sales in [20, 500], a valid warehouse and product id, and a date string that parses back to its day |

## Left out

- The cyclical columns `month_sin`, `month_cos`, `day_sin` and `day_cos` (`demand_forecast.py` lines 40-43) are left out. They are floating-point trigonometry. The model keeps only the integer calendar fields.
- `sales_rolling_std_w` is modelled as its square, the variance. The sample variance (ddof=1) is used in training mode and the population variance (ddof=0) in inference mode, which matches pandas' and NumPy's defaults. The square root is not modelled.
- All arithmetic is exact (`real`). Floating-point rounding is not modelled.
- Trainer.TrainSize: states floor(0.7 n) exactly, as `7 n / 10`. It does not model the binary rounding of `0.7 * n`. For example, in IEEE doubles `0.7 * 90` is just below 63, so the code's training slice has 62 rows where the model has 63.
- Trainer.ValSize: states floor(0.15 n) exactly, as `15 n / 100`. It does not model the binary rounding of `0.15 * n`.
- Trainer.SortByDate: proves sortedness and permutation only. pandas' default sort is not stable, so the order of rows that share a date is left unspecified; the model's insertion order is one of the allowed outcomes.
- The US holiday calendar from `holidays.US()` is a parameter. Its rules are not modelled.
- XGBoost's `fit` and `predict` are a parameter `fit`. The hyperparameters on lines 103-110 are not modelled.
- The RMSE value and the printed metrics are left out (floating point, report only); only the metric's rejection of an empty validation slice is modelled, as `ValueError`. The metric printing, `plot_predictions`, `load_data`, `main`'s CSV reading, its `try`/`except` and the submission table are left out. They are I/O or report-only. `main`'s training path appears only as Trainer.TrainingPipeline.
- Trainer.TrainModel: with fewer than 7 rows the source fails either in the regressor's `fit` (fewer than two rows, empty training slice) or in the validation RMSE (2 to 6 rows). The model reports both as one `ValueError` and does not tell them apart.
- `pd.to_datetime` is modelled only for `YYYY-MM-DD` strings of years 1 to 9999. Other formats and pandas' narrower timestamp range (years 1677 to 2262) are not modelled.
- DateText.FormatDate: always pads the year to four digits, as ISO 8601 does. CPython's `%Y` does not pad years below 1000 on some platforms.
- NaN in the input `sales` column and extra pass-through columns of the input tables are not modelled. A frame holds only the date, sales, calendar and lag columns.
- The frame the caller passes to `add_lag_features` is mutated in place. That is not modelled. The function returns the new frame.
- `random.uniform` is the parameter `draw`, and `np.sin` is the parameter `sin`. For `sin`, only the bound |sin x| <= 1 is assumed.
- Writing the CSV file and the final print in `generate_sales_data` are left out. The script's module-level call on lines 76-82 appears only through FakeData.ScriptDates.
- FakeData.ProductOrdering: compares rows with the same random draw. Two rows of the output use different draws, so the ordering holds for the factors, not for every pair of output rows.
- The frontend and `part1_ai/data/temp.py` are not part of this model.
