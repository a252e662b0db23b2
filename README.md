# Business analytics pipeline, modelled in Dafny

This project models the data pipeline of a small business-analytics dashboard and proves properties of that model. The pipeline has five parts:

- **Validator** (`load_and_validate_data`). It renames the columns of an uploaded table, checks the required columns and coerces the dates. It then drops incomplete rows.
- **Metric extractor** (`extract_features`). It adds profit margin, ROI, revenue and profit growth and the break-even point to a copy of the table.
- **Insight generator** (`generate_business_insights`). It reports:
  - the best and worst months;
  - a cost warning;
  - the average customer-acquisition cost and the average margin;
  - the best region and product;
  - the sign of the head-count/profit correlation.
- **Forecast preparation** (`forecast_metric`, plus the dip chosen by `plot_forecast`):
  - a December anchor point;
  - weekly sums over weeks that end on Sunday;
  - 26 further weekly dates;
  - the lowest prediction after the last historical date.
- **Account and dataset store of the dashboard**:
  - registration and login;
  - saving, loading and deleting datasets;
  - the signup checks;
  - the date-and-revenue row filter.

## Modules

| file | module |
|---|---|
| `results.dfy` | `Option` and `Result` types |
| `seqs.dfy` | order-preserving `Filter`, `Sum` and `IndexOf`, with their lemmas |
| `floats.dfy` | IEEE-style floats over exact reals: finite, ±infinity, NaN |
| `calendar.dfy` | civil dates, day numbers, weekdays and the Sunday that ends a week |
| `tables.dfy` | a DataFrame as named columns over rows of cells |

In `tables.dfy`, a cell is missing, a number, an infinity, text, a timestamp or a month period. The `Frame` class is a table that is updated in place.

The remaining files follow the five source files:

| file | models |
|---|---|
| `clean_data.dfy` | `src/preprocessing/clean_data.py` |
| `extract_metrics.dfy` | `src/features/extract_metrics.py` |
| `insights_engine.dfy` | `src/insights/insights_engine.py` |
| `revenue_forecast.dfy` | `src/prediction/revenue_forecast.py` |
| `dashboard.dfy` | `dashboard/dashboard.py` |

Where the source changes a caller's table in place, the model is a method on a `Frame` with a `modifies` clause. The validator renames and coerces; the insight generator adds its working columns. That method is proved equal to a pure function of the table. Where the source works on a private copy, the method has no `modifies` clause, so the caller's table provably stays the same. The extractor and the forecast do this.

The dashboard's store is the class `Dashboard.UserStore`:

- its `users` map stands for `users.json`;
- its `files` map goes from (user, dataset id) to the table saved in that user's CSV file.

Some inputs are parameters:

- **`pd.to_datetime`**: the parser for values that are neither timestamps nor missing.
- **The password hash**: an uninterpreted function.
- **The fresh dataset id and the upload time**: arguments of `SaveUserDataset`.
- **The fitted forecasting model**: a function from the weekly history to a prediction per date.

## Model

| member | source | states |
|---|---|---|
| CleanData.Strip | src/preprocessing/clean_data.py:14 | the result is the input without its leading and trailing whitespace; it is empty when the name is all whitespace |
| CleanData.NormalizeName | src/preprocessing/clean_data.py:14 | a normalised name has no leading or trailing whitespace, no space character and no ASCII capital letter (`A`-`Z`) |
| CleanData.NormalizeIdempotent | src/preprocessing/clean_data.py:14 | normalising a normalised name changes nothing |
| CleanData.NormalizeColumnsIdempotent | src/preprocessing/clean_data.py:14 | normalising the column list twice equals normalising it once |
| CleanData.MissingColumns | src/preprocessing/clean_data.py:17 | a name is reported missing exactly when it is required and absent |
| CleanData.CoerceDateColumn | src/preprocessing/clean_data.py:26 | the columns and row count are kept, each row's date cell becomes its parsed timestamp, or missing when it cannot be parsed, and every other cell is unchanged |
| CleanData.Validate | src/preprocessing/clean_data.py:10-43 | on failure: the missing-column error occurs exactly when a required column is absent after renaming, and carries the missing list and the uploaded names; an invalid-date error counts at least one row. On success: the columns are the renamed ones, every required column is present, and the rows are non-empty, complete and dated; when each error is raised, and that a passing table is accepted, is stated in `InvalidDatesReported` and `ValidateSucceedsIff` |
| CleanData.InvalidDatesReported | src/preprocessing/clean_data.py:26-32 | the reported count is the number of input rows whose date cannot be parsed, and any such row makes validation fail with that count |
| CleanData.DateDropRemovesNothing | src/preprocessing/clean_data.py:26-35 | once no date is invalid, dropping rows without a date removes none |
| CleanData.ValidateSucceedsIff | src/preprocessing/clean_data.py:35-43 | a table with every required column and only parseable dates is accepted exactly when at least one coerced row has no missing value, and is otherwise rejected with the no-valid-data error |
| CleanData.ValidatedRows | src/preprocessing/clean_data.py:35 | on success the rows are exactly the coerced rows with no missing cell, in their original order |
| CleanData.ValidateIgnoresNameSpelling | src/preprocessing/clean_data.py:14-17 | validating a table whose names are already normalised gives the same result |
| CleanData.LoadAndValidateData | src/preprocessing/clean_data.py:10-46 | the result is the one `Validate` gives for the caller's table; the caller's column names are normalised; its dates are coerced once the column check passes, and its rows are untouched otherwise |
| ExtractMetrics.PercentRatio | src/features/extract_metrics.py:7-11 | per row, numerator / denominator × 100 when both are finite and the denominator is non-zero |
| ExtractMetrics.PercentChange | src/features/extract_metrics.py:14-18 | one value per row; the first row is undefined |
| ExtractMetrics.PercentChangeAt | src/features/extract_metrics.py:14-18 | at a later row with finite values and a non-zero predecessor, the value is (current − previous) / previous × 100 |
| ExtractMetrics.RelativeChange | src/features/extract_metrics.py:14-15 | `pct_change`'s (a/p − 1) × 100 equals the relative difference (a − p)/p × 100 |
| ExtractMetrics.BepOf | src/features/extract_metrics.py:21-25 | the break-even point is operating expense / (revenue − cogs), and 0 when revenue equals cogs |
| ExtractMetrics.BepValues | src/features/extract_metrics.py:21-27 | the column is the row formula when no row raises, and 0 in every row otherwise |
| ExtractMetrics.Computed | src/features/extract_metrics.py:7-27 | a ratio or growth column can be computed exactly when its operand columns are numeric; the break-even column always can |
| ExtractMetrics.RatioRow | src/features/extract_metrics.py:7-11 | the stored margin or ROI of a row with numeric operands and a non-zero denominator is numerator / denominator × 100 |
| ExtractMetrics.GrowthRow | src/features/extract_metrics.py:14-18 | stored growth is missing at row 0; at a later row with numeric values and a non-zero predecessor it is the percent change from the previous row |
| ExtractMetrics.BreakEvenRow | src/features/extract_metrics.py:21-27 | the stored break-even value of a row is its formula value, or 0 when some row raises |
| ExtractMetrics.Apply | src/features/extract_metrics.py:7-27 | one guarded assignment. It leaves the table alone when an input column is absent, and otherwise keeps every other column and writes the computed column. It fails, naming the column, exactly when the formula meets a non-numeric operand |
| ExtractMetrics.ExtractFeaturesOnCopy | src/features/extract_metrics.py:3-29 | the result is the feature table of the caller's table, and the caller's table is not modified |
| ExtractMetrics.FeaturesKeepInput | src/features/extract_metrics.py:4 | the output has the same rows, and every original column with the same values |
| ExtractMetrics.FeatureColumns | src/features/extract_metrics.py:7-27 | the output columns are the input columns followed by the added ones; each derived column is present exactly when its input columns are |
| ExtractMetrics.FeatureValues | src/features/extract_metrics.py:7-27 | each present derived column holds its formula's values over the input table |
| ExtractMetrics.FeaturesSucceedIff | src/features/extract_metrics.py:7-27 | extraction succeeds exactly when every formula whose columns are present has numeric operands |
| ExtractMetrics.ApplyAllSucceeds | src/features/extract_metrics.py:7-27 | independent steps succeed exactly when every applicable step computes |
| ExtractMetrics.TargetAddedIff | src/features/extract_metrics.py:7-27 | a step's column is added exactly when the step applies |
| ExtractMetrics.InputsRequired | src/preprocessing/clean_data.py:5-8 | every column a formula reads is one of the required columns |
| ExtractMetrics.ValidatedTableGetsAllFeatures | src/features/extract_metrics.py:7-27 | a validated table that the extractor accepts gains all five derived columns |
| InsightsEngine.ToDatetimeColumn | src/insights/insights_engine.py:8 | the column parses exactly when every cell does; timestamps and missing cells are kept |
| InsightsEngine.Lookup | src/insights/insights_engine.py:12-46 | `df[name]` fails with a missing-column error exactly when the column is absent, and otherwise returns the column |
| InsightsEngine.AsReals | src/insights/insights_engine.py:12-46 | a column is read as numbers exactly when every cell is a number, and is then those numbers |
| InsightsEngine.KeyBeforeTotal | src/insights/insights_engine.py:12 | the group-key order is total |
| InsightsEngine.KeyBeforeTransitive | src/insights/insights_engine.py:12 | the group-key order is transitive |
| InsightsEngine.KeyBeforeIrreflexive | src/insights/insights_engine.py:12 | the group-key order is strict |
| InsightsEngine.ArgMaxMaximal | src/insights/insights_engine.py:13 | `idxmax` names a group whose sum is the largest, and on a tie the first group in key order |
| InsightsEngine.ArgMinMinimal | src/insights/insights_engine.py:14 | `idxmin` names a group whose sum is the smallest, and on a tie the first group in key order |
| InsightsEngine.MonthlyRevenue | src/insights/insights_engine.py:12-16 | the monthly report fails exactly when no row has a month |
| InsightsEngine.MonthlyRevenueExtremes | src/insights/insights_engine.py:12-16 | the top and lowest months occur in the data and report their own sums. Every month's sum lies between those two. No tying month comes earlier |
| InsightsEngine.TopGroup | src/insights/insights_engine.py:36-43 | the best-group report fails exactly when every key is missing |
| InsightsEngine.TopGroupMaximal | src/insights/insights_engine.py:36-43 | the best region or product occurs in the data, reports its own total, has the largest total, and is first in key order among ties |
| InsightsEngine.HighCostRow | src/insights/insights_engine.py:19-21 | a row is flagged exactly when its total cost exceeds 0.8 × revenue for positive revenue, falls below it for negative revenue, or is positive for zero revenue |
| InsightsEngine.HighCostCountPositive | src/insights/insights_engine.py:21-22 | the flagged count is positive exactly when some row is flagged |
| InsightsEngine.WarningIffHighRatio | src/insights/insights_engine.py:19-23 | in a completed report, `cost_warning` is present exactly when some stored ratio exceeds 0.8 |
| InsightsEngine.AcquisitionNonNaN | src/insights/insights_engine.py:26 | the defined acquisition costs are exactly the per-customer costs of the rows with a non-zero customer count |
| InsightsEngine.AvgCacOverNonzero | src/insights/insights_engine.py:26-28 | the average acquisition cost is the mean over only the rows with a non-zero customer count, and NaN when there are none |
| InsightsEngine.AvgMarginOverRows | src/insights/insights_engine.py:31-33 | with non-zero revenues, the average margin is the mean over all rows of (revenue − cogs) / revenue × 100, and NaN for no rows |
| InsightsEngine.MarginOfZeroRevenue | src/insights/insights_engine.py:31 | a zero-revenue row's margin is NaN when cogs is 0, and ±infinity otherwise |
| InsightsEngine.RelationSymmetric | src/insights/insights_engine.py:46 | the sign of the correlation does not depend on the order of the two series |
| InsightsEngine.RelationOfFewRows | src/insights/insights_engine.py:46-52 | with fewer than two rows, the correlation is undefined and the no-relationship branch is taken |
| InsightsEngine.SpreadNonNegative | src/insights/insights_engine.py:46 | the squared-spread term is never negative |
| InsightsEngine.DeviationsExpanded | src/insights/insights_engine.py:46 | the sum of `(x - xs[j]) * (y - ys[j])` over the rows is n·x·y less x·Σys and y·Σxs plus Σ xs[j]·ys[j] |
| InsightsEngine.ComomentExpanded | src/insights/insights_engine.py:46 | the pair sum behind the correlation's sign equals n·Σ xs[i]·ys[i] − Σxs·Σys |
| InsightsEngine.ComomentOfDeviations | src/insights/insights_engine.py:46 | the pair sum equals n times the sum of the products of the deviations from the two means, the numerator of the Pearson coefficient: so `Relation` takes the sign of the covariance |
| InsightsEngine.RelationOfMeans | src/insights/insights_engine.py:46-52 | the branch taken is the sign of the Pearson coefficient computed from the means: the covariance sum over the two spreads, with no relationship when either spread is zero |
| InsightsEngine.RelationOfLinear | src/insights/insights_engine.py:46-52 | when profit is an exact linear function of head count with varying head count, the branch follows the sign of the slope |
| InsightsEngine.RelationOfLine | src/insights/insights_engine.py:46-52 | the previous property for a profit series given by a line |
| InsightsEngine.InsightMap | src/insights/insights_engine.py:5-54 | the dictionary always has the seven fixed keys; `cost_warning` is its only other key, present exactly with a positive count, which it reports |
| InsightsEngine.RunKeys | src/insights/insights_engine.py:5-54 | a successful run returns a complete dictionary whose warning count is the number of flagged ratios stored in the table |
| InsightsEngine.RunKeepsColumns | src/insights/insights_engine.py:8-31 | the run keeps the rows and every column it does not write, with the same values, and only appends columns |
| InsightsEngine.RunAddsColumns | src/insights/insights_engine.py:8-31 | a successful run leaves `date`, `month`, `total_cost`, `cost_to_revenue_ratio`, `customer_acquisition_cost` and `profit_margin` in the table |
| InsightsEngine.RunParsesDates | src/insights/insights_engine.py:8-9 | a successful run leaves the parsed dates in `date` and their months in `month` |
| InsightsEngine.RunInsights | src/insights/insights_engine.py:4-54 | the dictionary the run returns is the one computed from the caller's table alone, whatever the intermediate columns |
| InsightsEngine.RunValues | src/insights/insights_engine.py:12-52 | each value of a successful run's dictionary is computed from the caller's columns: the top and lowest months from the monthly revenue sums, the averages from the marketing, customer, revenue and cogs columns, the best region and product from their group sums, and the head-count message from the correlation's sign |
| InsightsEngine.InputRatios | src/insights/insights_engine.py:19-21 | the ratio of a caller's row exceeds 0.8 exactly when its operating expense, marketing cost and cogs add up to more than 0.8 of its revenue (with the source's handling of negative and zero revenue) |
| InsightsEngine.RunStoresRatios | src/insights/insights_engine.py:19-20 | a successful run leaves in `cost_to_revenue_ratio` the ratios of the caller's rows |
| InsightsEngine.RunWarning | src/insights/insights_engine.py:19-23 | a successful run warns about costs exactly when some row of the caller's table is flagged, and the warning counts the rows whose ratio exceeds 0.8 |
| InsightsEngine.InsightsWarning | src/insights/insights_engine.py:19-23 | the same, for the dictionary computed from the caller's table |
| InsightsEngine.InsightMapValues | src/insights/insights_engine.py:5-54 | each of the seven fixed keys holds the value it was built from |
| InsightsEngine.CostInputsRead | src/insights/insights_engine.py:19-20 | the three cost columns read together succeed exactly when each reads as numbers, and give their values |
| InsightsEngine.GenerateBusinessInsights | src/insights/insights_engine.py:4-54 | the caller's table afterwards and the result are the outcome of the pure run, including the columns written before a failure |
| RevenueForecast.Prepared | src/prediction/revenue_forecast.py:7-9 | `ds` holds the parsed dates and `y` the metric. Failure is exact: a missing `date` column, an unparseable date, or a missing metric column |
| RevenueForecast.Latest | src/prediction/revenue_forecast.py:11 | the latest date is attained and is not before any date; it is absent exactly when every date is missing |
| RevenueForecast.Anchored | src/prediction/revenue_forecast.py:11-16 | anchoring fails exactly when there is no date, and keeps the columns |
| RevenueForecast.AnchorKeepsPoints | src/prediction/revenue_forecast.py:11-16 | in December nothing is appended. Otherwise one point is appended: dated December 1 of the latest year, with the `y` of the first row dated at the latest date |
| RevenueForecast.AnchorKeepsDates | src/prediction/revenue_forecast.py:11-16 | anchoring keeps every original point |
| RevenueForecast.AnchoredInDecember | src/prediction/revenue_forecast.py:11-16 | after anchoring, the latest date is in December |
| Calendar.BeforeDecember | src/prediction/revenue_forecast.py:12-13 | a date before December comes before December 1 of its year |
| Calendar.WeekEnd | src/prediction/revenue_forecast.py:18 | a day's week ends on the Sunday at or within six days after it |
| RevenueForecast.SamplesOfRows | src/prediction/revenue_forecast.py:18 | every dated point becomes a sample of the series |
| RevenueForecast.RowsOfSamples | src/prediction/revenue_forecast.py:18 | every sample comes from a dated point |
| RevenueForecast.WeeklyWeeks | src/prediction/revenue_forecast.py:18 | every bucket ends on a Sunday, holds the sum of `y` over its week, and follows the previous one by 7 days |
| RevenueForecast.WeeklySpan | src/prediction/revenue_forecast.py:18 | the buckets run from the week of the earliest point to the week of the latest |
| RevenueForecast.WeeklyCovers | src/prediction/revenue_forecast.py:18 | every point's week has a bucket |
| RevenueForecast.WeeklyTotal | src/prediction/revenue_forecast.py:18 | the bucket sums total the sum of all `y`, the anchor included |
| RevenueForecast.FutureDates | src/prediction/revenue_forecast.py:23 | the index is the history weeks followed by 26 dates, each 7 days after the previous |
| RevenueForecast.FutureDatesWeekly | src/prediction/revenue_forecast.py:23 | the whole index is spaced a week apart |
| RevenueForecast.Trained | src/prediction/revenue_forecast.py:18-24 | the forecast fails, naming the metric, exactly when a `y` value cannot be summed; a successful forecast has a row per history bucket plus 26 future rows |
| RevenueForecast.TrainedRows | src/prediction/revenue_forecast.py:18-24 | the forecast rows are the history weeks and then 26 more Sundays, each a week apart, with the fitted model's prediction at each date |
| RevenueForecast.TrainedTotal | src/prediction/revenue_forecast.py:18 | the fitted history is the weekly bucketing of the samples, and keeps their total |
| RevenueForecast.ForecastMetric | src/prediction/revenue_forecast.py:6-26 | the result is that of the pure preparation, and the caller's table is not modified |
| RevenueForecast.DipIndex | src/prediction/revenue_forecast.py:36-37 | the dip is a row dated after the cut-off with the lowest prediction among such rows, and the first one on a tie; there is none exactly when no row is after the cut-off |
| RevenueForecast.TrainedAfterLatest | src/prediction/revenue_forecast.py:23 | the last forecast date is after the latest historical date |
| RevenueForecast.DipWhenLater | src/prediction/revenue_forecast.py:35-38 | a dip exists whenever the last forecast date is after the latest date of the historical table |
| RevenueForecast.DipExists | src/prediction/revenue_forecast.py:35-38 | every successful forecast of a table has a dip after that table's latest date |
| Dashboard.NewUser | dashboard/dashboard.py:50-54 | a new record keeps the name, stores only the hash of the password, and has no datasets |
| Dashboard.UserStore.constructor | dashboard/dashboard.py:30-31 | a fresh store has no users and no dataset files |
| Dashboard.UserStore.RegisterUser | dashboard/dashboard.py:46-56 | registration succeeds exactly when the username is new. On success it adds exactly that user's record; otherwise nothing changes |
| Dashboard.Verified | dashboard/dashboard.py:58-62 | login returns the stored record exactly when the user exists and the stored hash equals the hash of the password |
| Dashboard.UserStore.VerifyUser | dashboard/dashboard.py:58-62 | the same, on the store |
| Dashboard.RegisterThenVerify | dashboard/dashboard.py:46-62 | right after registering, the same username and password log in and get the new record |
| Dashboard.RegisterKeepsOthers | dashboard/dashboard.py:50-56 | registering a user changes no other user's login result |
| Dashboard.UserStore.SignUp | dashboard/dashboard.py:143-152 | the outcome is decided in order: passwords that differ; a password under 6 characters; a new username; a taken one. Only a new username changes the store |
| Dashboard.UserStore.SaveUserDataset | dashboard/dashboard.py:64-79 | the file is always written. A known user's list gains exactly one reference at its end. An unknown user raises and the users stay the same |
| Dashboard.UserStore.LoadUserDatasets | dashboard/dashboard.py:81-92 | an unknown user gets nothing; a known user gets the load of their references |
| Dashboard.LoadsStored | dashboard/dashboard.py:81-92 | the loaded datasets are exactly the user's references whose file exists, in order, each with its stored table |
| Dashboard.SelectedIdsExact | dashboard/dashboard.py:480-481 | an id is deleted exactly when a listed dataset with that id has a selected file name |
| Dashboard.DeleteStep | dashboard/dashboard.py:483-486 | each pass of the loop filters the list by one more id |
| Dashboard.UserStore.DeleteSelected | dashboard/dashboard.py:478-491 | for a known user, the datasets are the old ones whose id was not selected, in order, and their files are removed; other users stay the same. For an unknown user it fails, changing nothing, exactly when something was selected |
| Dashboard.FilterRows | dashboard/dashboard.py:280-288 | the filter fails exactly when a column is missing, a date cannot be parsed, or a revenue value is not a number (text or a timestamp). The error names the first failure |
| Dashboard.FilterRowsExact | dashboard/dashboard.py:283-288 | the columns are kept, and the rows are exactly the input rows (with parsed dates) that lie in the date and revenue window, in their input order |
| Dashboard.FilterRowsIdempotent | dashboard/dashboard.py:283-288 | filtering the filtered table again changes nothing |

## Left out

- **Streamlit UI, charts and session state.** The Plotly charts, the Matplotlib drawing in `plot_forecast`, and every widget are UI, so they are left out.
- **File and JSON I/O.** This includes `save_clean_data`, directory creation and the CSV and JSON round trips. The users file and the dataset files are maps in memory. A saved table is assumed to be read back unchanged, although a real CSV round trip turns timestamps into text.
- **`hashlib.sha256`, `uuid.uuid4` and `pd.Timestamp.now()`.** The hash is an uninterpreted function of the store. The id and the time are arguments. Collisions of fresh ids are not modelled.
- **`pd.to_datetime` format inference.** It is the parser parameter. Times of day are not modelled: a date is a calendar day, and the filter's date window compares days.
- **Prophet fitting and prediction.** The fitted model is a parameter. The forecaster's own failures, such as too few points, are not modelled, nor are its uncertainty columns.
- **Validation wrapping.** CleanData: exceptions raised inside pandas, which the source turns into a ValueError, are not modelled. Only the three error conditions the code raises itself are modelled, each with its message. Two uploaded names that normalise to the same required name are one of these exceptions: `df['date']` then selects several columns and pandas raises. The model reads the first such column instead.
- CleanData.NormalizeName: only the ASCII capitals `A`-`Z` are lower-cased, whereas `str.lower` lower-cases every Unicode capital (`Ü` to `ü`, or the Kelvin sign U+212A to `k`). An upload whose header spells a required name with such a letter is therefore reported as missing that column here, where pandas would accept it.
- Floats.Div: there is one zero. IEEE signed zero is not modelled, so a finite non-zero number divided by `-0.0` gets the infinity of a division by `+0.0`, with the opposite sign to IEEE's.
- **Message formatting.** Insight messages with thousands separators and the `strftime` month names are not formatted. The insight values keep the numbers and months they are formatted from. The cost-warning and head-count messages are given exactly.
- InsightsEngine.InsightMap: the dictionary is a Dafny `map`, which has no order. The dashboard shows the insights in the order they were inserted (dashboard/dashboard.py:416), and that display order is not modelled.
- InsightsEngine.AsReals: the revenue, cost, customer, units, head-count and profit columns must hold only numbers. A missing or infinite value there is reported as non-numeric, whereas pandas would propagate NaN or infinity through the sums, means and correlation.
- InsightsEngine.Relation: only the sign of the Pearson correlation is modelled, through the sign of its numerator and the spreads. The square root and floating-point rounding are not modelled, and the sign is exact only over exact reals.
- ExtractMetrics.PercentChange: a missing predecessor is not forward-filled. Older pandas fills it by default (`fill_method='pad'`); here the growth after a missing value is undefined.
- RevenueForecast.Trained: a `y` value that is text, a timestamp or infinite makes the forecast fail as non-numeric. A missing value counts as 0 in its week.
- RevenueForecast.AnchorRow: the appended anchor row is missing in every column other than `ds` and `y`, as `pd.concat` leaves it.
- **Tie-breaking among groups.** Month, region and product all follow `groupby`'s sorted-key order:
  - numbers by value;
  - strings by code point;
  - timestamps and periods by time;
  - keys of different kinds by kind, an order the model chooses. pandas would raise when it sorts mixed key kinds.
- Dashboard.FilterRows: the date window ends are single calendar days, and a range missing its second end (`date_range[1]`) is not modelled. The slider defaults and the KPI sums over the filtered table are not modelled either.
- **main.py.** It is entirely commented out.
