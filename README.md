# CPI forecasting and backfill, modelled in Dafny

This project models the data path of a small web application that follows
Iceland's consumer price index (CPI), its wage index, and its building-cost
and producer price indices. The application fetches monthly observations
from Statistics Iceland's PX-Web API and normalises the raw records into
tables keyed by month and code. It stores the actuals in SQLite, fits
linear trends to produce short forecasts, and replays history month by
month to store "as of that month" forecasts (the backfill jobs). A Chart.js
front end pads and slices the series for display.

The model covers:

- the record loops of the CPI and wage-index sources and their queries (`CpiSource`, `WageIndexSource`, `PxData`);
- the CPI, wage and producer price pipelines and the legacy stand-alone script (`CpiPipeline`, `WagesPipeline`, `PpiPipeline`, `LegacyCpi`), around a least-squares fit passed in as a function (`Trend`);
- the three backfill jobs and the fetch-and-store jobs (`BackfillCpi`, `BackfillWages`, `BackfillPpiBci`, `FetchJobs`), over an in-memory database (`Store`);
- the PX-Web client's URL building and single retry (`ApiClient`);
- the chart helpers of the front end (`Charts`).

Shared pieces model the language features the sources rely on:

- `Calendar`: months, `strptime`/`strftime` on month strings, and day numbers;
- `Text`: Python string order, `strip`, `split` and `join`;
- `Numbers`: numpy's division, which gives an infinity or NaN where Python would raise.

Month tokens such as "2024M03" stay strings wherever the source compares
them as strings (`max`, `sorted`). They become `Calendar.Month` values
where the source parses them.

Three behaviours of the jobs are worth stating up front:

- Without `--overwrite`, the wage backfill does not skip months that
  already have a run: it adds a run under a fresh id for every (category,
  month) it computes (`BackfillWages.AnchorStepStores`). Only the CPI
  backfill skips such months (`BackfillCpi.RerunCreatesNothing`).
- A forecast horizon of zero or less makes scikit-learn's `predict` raise
  on an empty array. Every pipeline returns that error, and the jobs keep
  what the error leaves: nothing for the CPI backfill, which commits once
  at the end (`BackfillCpi.Backfill`), and the months committed before it
  for the wage backfill, which commits month by month
  (`BackfillWages.BackfillWagesMain`).
- Where the source deviates from its evident intent (see "## Findings"),
  the members that use the deviating code use the corrected definition.
  In particular the wage backfill's overwrite deletes the runs whose notes
  start with exactly the category and month (`BackfillWages.MatchingRuns`).
  The SQL `LIKE` selection the job issues is `BackfillWages.MatchingRunsAsWritten`.

## Model

| member | source | states |
|---|---|---|
| ApiClient.NewClient | cpi_app/scripts/Hagstofan/api_client.py:5-6 | the stored base URL is the given one with only slashes removed from its end, and it no longer ends in a slash |
| ApiClient.AlternateEndpoint | cpi_app/scripts/Hagstofan/api_client.py:11-15 | after stripping outer slashes, an endpoint ending in ".px" loses exactly that suffix and any other gains it |
| ApiClient.Client.Url | cpi_app/scripts/Hagstofan/api_client.py:8-9 | the URL is the base URL, one slash, then the endpoint with no slash at either end |
| ApiClient.UrlOneSlash | cpi_app/scripts/Hagstofan/api_client.py:5-9 | for a client built by the constructor there is exactly one slash between the base and the endpoint |
| ApiClient.AlternateRoundTrip | cpi_app/scripts/Hagstofan/api_client.py:11-15 | toggling the ".px" suffix twice gives back a slash-free endpoint without the suffix |
| ApiClient.AlternateRoundTripPx | cpi_app/scripts/Hagstofan/api_client.py:11-15 | toggling twice gives back an endpoint with a single ".px" suffix |
| ApiClient.Client.Send | cpi_app/scripts/Hagstofan/api_client.py:17-45 | the first request goes to the endpoint's URL; a 400 answer is retried once on the alternate endpoint; the last status decides between the JSON reply and the HTTP error |
| ApiClient.Client.GetJson | cpi_app/scripts/Hagstofan/api_client.py:17-30 | `get` follows the single-retry rule with GET requests |
| ApiClient.Client.PostJson | cpi_app/scripts/Hagstofan/api_client.py:32-45 | `post` follows the single-retry rule with POST requests carrying the body |
| ApiClient.RetryOn400 | cpi_app/scripts/Hagstofan/api_client.py:20-28 | two URLs are requested exactly when the first answer is 400, and an error is raised exactly when the last status is 400 or more |
| BackfillCpi.Zip | cpi_app/jobs/backfill_cpi.py:24-28 | `zip` pairs the i-th date with the i-th value and stops at the shorter list |
| BackfillCpi.NormalizeTrendOutput | cpi_app/jobs/backfill_cpi.py:17-29 | a non-tuple, or a tuple of any length other than 2 or 3, raises; `(model, pairs)` gives the pairs; `(dates, preds)` and `(model, dates, preds)` give the zipped pairs; pairs come only from tuples of 2 or 3 items |
| BackfillCpi.CpiTrendNormalizes | cpi_app/jobs/backfill_cpi.py:93 | the CPI trend returns exactly when it does not raise, and its own output is then always accepted, yielding exactly the trend's pairs |
| BackfillCpi.DaterangeMonths | cpi_app/jobs/backfill_cpi.py:31-36 | the generator yields every month from the first through the last, in order (the month range) |
| BackfillCpi.LevelsUpTo | cpi_app/jobs/backfill_cpi.py:61 | exactly the actuals dated in or before the cut month, with their levels |
| BackfillCpi.HistoryAt | cpi_app/jobs/backfill_cpi.py:40-61 | the history as of a cut is in ascending date order, holds only actuals up to the cut with their levels, and holds every such actual |
| BackfillCpi.LevelFrame | cpi_app/jobs/backfill_cpi.py:43-46 | the frame has one row per history entry with its date and level |
| BackfillCpi.MinHistory | cpi_app/jobs/backfill_cpi.py:62 | `max(2, window)`: at least 2, at least the window, and one of the two |
| BackfillCpi.RunsIn | cpi_app/jobs/backfill_cpi.py:69-79 | the runs selected for a month are exactly those created in that month |
| BackfillCpi.PlanOf | cpi_app/jobs/backfill_cpi.py:38-99 | a month is forecast exactly when its history holds `max(2, window)` actuals; its forecast is the trend on the trailing window of that history; runs carry `months_predict` and the note `backfill_window<window>` |
| BackfillCpi.AnchorsDefault | cpi_app/jobs/backfill_cpi.py:48-59 | without bounds the months run from `window - 1` months after the earliest actual through the latest actual |
| BackfillCpi.BackfillMonth | cpi_app/jobs/backfill_cpi.py:67-99 | one month changes the run and point tables exactly as the step does, reads the trend only for a month it forecasts, reports a trend that raised, and leaves the actuals alone |
| BackfillCpi.Backfill | cpi_app/jobs/backfill_cpi.py:38-102 | no actuals means the error and no change; a trend that raises on some forecast month means the error and no change to the runs or points (one commit at the end); otherwise the tables become the pass over the months and the count returned is the pass's count; actuals are never written |
| BackfillCpi.BackfillRange | cpi_app/jobs/backfill_cpi.py:48-59 | the loop's months are the anchors from the given or default bounds |
| BackfillCpi.RunMonths | cpi_app/jobs/backfill_cpi.py:59-99 | the loop over the months, stopped by a trend that raises, leaves the tables, count and raise flag of the pass |
| BackfillCpi.NoLookAhead | cpi_app/jobs/backfill_cpi.py:59-93 | two tables of actuals that agree up to the cut give the same history, eligibility and forecast as of the cut |
| BackfillCpi.StepKeepsRuns | cpi_app/jobs/backfill_cpi.py:76-89 | a step never removes or alters a stored run |
| BackfillCpi.StepOwned | cpi_app/jobs/backfill_cpi.py:76-97 | after a step every point still belongs to a stored run |
| BackfillCpi.StepStoresExactly | cpi_app/jobs/backfill_cpi.py:76-99 | a step on an eligible month whose trend returns leaves the reused or new run of that month holding exactly the new forecast (overwrite never duplicates points), and counts one run |
| BackfillCpi.PassCovers | cpi_app/jobs/backfill_cpi.py:59-99 | after a pass that did not raise, in either mode, every eligible month of the range has a run |
| BackfillCpi.PassIdle | cpi_app/jobs/backfill_cpi.py:67-74 | without overwrite, a pass over months that all have runs changes nothing |
| BackfillCpi.RerunCreatesNothing | cpi_app/jobs/backfill_cpi.py:67-74 | running again without overwrite over the same range, on the tables a committed first run left, creates nothing and changes nothing |
| BackfillCpi.PassOwned | cpi_app/jobs/backfill_cpi.py:59-99 | every point stays attached to a run through a whole pass |
| BackfillCpi.AsOfTraining | cpi_app/jobs/backfill_cpi.py:59-65 | the month is eligible exactly as the plan says, and an eligible month's training rows give the plan's forecast through the trend |
| BackfillCpi.PassStaysRaised | cpi_app/jobs/backfill_cpi.py:93 | once the trend has raised, the remaining months change nothing (the exception ends the loop) |
| BackfillCpi.PositiveHorizonNeverRaises | cpi_app/jobs/backfill_cpi.py:93 | over a positive `months_predict` the trend never raises, so the pass never does |
| BackfillCpi.NonPositiveHorizonRaises | cpi_app/jobs/backfill_cpi.py:93 | over a `months_predict` of zero or less with a nonnegative window, the first month that would be forecast raises instead |
| BackfillCpi.CpiTrendOutput | cpi_app/jobs/backfill_cpi.py:93 | `cpi_trend` on a history frame returns exactly when the trend does not raise, and its output is then accepted and normalises to the trend's pairs (stated by `BackfillCpi.CpiTrendNormalizes`) |
| BackfillCpi.Training | cpi_app/jobs/backfill_cpi.py:61-65 | the history up to the cut, cut to its last `window` rows when longer; an eligible month's training rows give the plan's forecast (stated by `BackfillCpi.AsOfTraining` and `Trend.TailWindow`) |
| BackfillCpi.AsOfForecast | cpi_app/jobs/backfill_cpi.py:61-93 | the forecast as of a cut depends only on the actuals up to the cut (`BackfillCpi.NoLookAhead`), and raises exactly over a horizon of zero or less (`BackfillCpi.PositiveHorizonNeverRaises`, `BackfillCpi.NonPositiveHorizonRaises`) |
| BackfillCpi.Step | cpi_app/jobs/backfill_cpi.py:62-99 | one month of the loop: it keeps every stored run (`BackfillCpi.StepKeepsRuns`) and every point attached to a run (`BackfillCpi.StepOwned`), and an eligible month whose trend returns leaves the month's reused or new run holding exactly the new forecast (`BackfillCpi.StepStoresExactly`) |
| BackfillCpi.Pass | cpi_app/jobs/backfill_cpi.py:59-99 | the months in order: unless the trend raised, every eligible month ends with a run (`BackfillCpi.PassCovers`); without overwrite, months that all have runs change nothing (`BackfillCpi.PassIdle`); points stay attached to runs (`BackfillCpi.PassOwned`); once raised, nothing more changes (`BackfillCpi.PassStaysRaised`) |
| BackfillCpi.Anchors | cpi_app/jobs/backfill_cpi.py:48-56 | the months from `start`, or `window - 1` months after the earliest actual, through `end`, or the latest actual (stated by `BackfillCpi.AnchorsDefault` for the defaults and `Calendar.MonthRangeMembers` for the range) |
| BackfillPpiBci.ParseDate | cpi_app/jobs/backfill_ppi_bci.py:17-25 | a parsed month is in the calendar's range and comes from a token of at least six characters with the `M` separator at position 4; anything else gives None |
| BackfillPpiBci.ParseDateFormat | cpi_app/jobs/backfill_ppi_bci.py:17-25 | every month written as "%YM%m" parses back to itself |
| BackfillPpiBci.CategoriesOr | cpi_app/jobs/backfill_ppi_bci.py:30 | the listed categories when there are any, otherwise the total category alone; never empty |
| BackfillPpiBci.Parsed | cpi_app/jobs/backfill_ppi_bci.py:34-37 | one parsed reading per raw reading, in order |
| BackfillPpiBci.Written | cpi_app/jobs/backfill_ppi_bci.py:33-40 | the rows written for a category are never more than its readings (membership in `WrittenSpec`) |
| BackfillPpiBci.CollectSpec | cpi_app/jobs/backfill_ppi_bci.py:34-37 | a row is collected exactly when it is of the category and its month and value are among the parsed readings |
| BackfillPpiBci.WrittenSpec | cpi_app/jobs/backfill_ppi_bci.py:33-40 | a row is written exactly when some reading of the category parses to its month and carries its value |
| BackfillPpiBci.UpsertSnoc | cpi_app/jobs/backfill_ppi_bci.py:38-40 | writing one more row updates or adds exactly that (date, category) key |
| BackfillPpiBci.UpsertAppend | cpi_app/jobs/backfill_ppi_bci.py:33-40 | writing two batches is writing the first, then the second |
| BackfillPpiBci.CategorySeries | cpi_app/jobs/backfill_ppi_bci.py:49 | `filter_by(category=cat)`: exactly the dates stored for the category, with their values |
| BackfillPpiBci.StoredRows | cpi_app/jobs/backfill_ppi_bci.py:49 | the category's rows in ascending date order, each a stored row, and every stored date present |
| BackfillPpiBci.TotalForecastRows | cpi_app/jobs/backfill_ppi_bci.py:46-53 | the total category is forecast only from at least two stored rows, read back in date order; fewer than two gives no points |
| BackfillPpiBci.UpsertCategory | cpi_app/jobs/backfill_ppi_bci.py:34-40 | the actuals become the old ones upserted with the category's written rows; runs and points are untouched |
| BackfillPpiBci.UpsertReadings | cpi_app/jobs/backfill_ppi_bci.py:33-40 | the actuals become the old ones upserted with every category's written rows; runs and points are untouched |
| BackfillPpiBci.AllWrittenSpec | cpi_app/jobs/backfill_ppi_bci.py:33-40 | a row is written for a list of categories exactly when its category is listed and the row is written for that category |
| BackfillPpiBci.BackfilledActuals | cpi_app/jobs/backfill_ppi_bci.py:30-40 | after the backfill a key is stored exactly when it was stored before or a reading of a used category parses to its month with a value |
| BackfillPpiBci.ForecastedOneRun | cpi_app/jobs/backfill_ppi_bci.py:42-54 | exactly one run is created, with a fresh id, 6 months to predict and the note "backfill linear_reg_24m"; old runs and actuals are untouched; the new run's points are the total's forecast, every point stays owned |
| BackfillPpiBci.ForecastedPoints | cpi_app/jobs/backfill_ppi_bci.py:47-54 | appending a fresh run's points keeps every point owned and gives the new run exactly those points, all of the total category |
| BackfillPpiBci.PpiBackfillForecast | cpi_app/jobs/backfill_ppi_bci.py:80-81 | the forecast used is `ppi_forecast` for 6 months on the series read back, every value present |
| BackfillPpiBci.AllPresent | cpi_app/jobs/backfill_ppi_bci.py:80 | the series built from the rows has every value present, in order |
| BackfillPpiBci.Backfill | cpi_app/jobs/backfill_ppi_bci.py:27-54 | the tables become exactly the backfilled tables: upserted actuals, then one forecast run for the total category |
| BackfillPpiBci.BackfillBci | cpi_app/jobs/backfill_ppi_bci.py:27-54 | the backfill with the total category "BCI" and the building-cost forecast |
| BackfillPpiBci.BackfillPpi | cpi_app/jobs/backfill_ppi_bci.py:56-82 | the backfill with the total category "PPI" and the producer price forecast |
| BackfillPpiBci.BackfillMain | cpi_app/jobs/backfill_ppi_bci.py:84-94 | the session is committed exactly when both sources answer; then both table sets are backfilled, otherwise neither changes |
| BackfillPpiBci.BackfillBciRolledBack | cpi_app/jobs/backfill_ppi_bci.py:86-94 | when the producer price fetch raises after the BCI backfill, the BCI tables are left as they were |
| BackfillPpiBci.Collect | cpi_app/jobs/backfill_ppi_bci.py:34-37 | a row is collected exactly when it carries the category and its month and value form a parsed reading, and never more rows than readings (stated by `BackfillPpiBci.CollectSpec`) |
| BackfillPpiBci.AllWritten | cpi_app/jobs/backfill_ppi_bci.py:33-40 | a row is written for a list of categories exactly when its category is listed and the row is written for that category (stated by `BackfillPpiBci.AllWrittenSpec`) |
| BackfillPpiBci.Upsert | cpi_app/jobs/backfill_ppi_bci.py:38-40 | each row updates or adds exactly its own key, in order (`BackfillPpiBci.UpsertSnoc`), so two batches are the first then the second (`BackfillPpiBci.UpsertAppend`) |
| BackfillPpiBci.Backfilled | cpi_app/jobs/backfill_ppi_bci.py:27-54 | a key is stored afterwards exactly when it was before or a category's reading parses to it (`BackfillPpiBci.BackfilledActuals`), and one fresh run holds the total's forecast (`BackfillPpiBci.ForecastedOneRun`) |
| BackfillPpiBci.Forecasted | cpi_app/jobs/backfill_ppi_bci.py:42-54 | exactly one run is added, with a fresh id, a 6-month horizon and the notes "backfill linear_reg_24m"; its points are exactly the forecast under the total category and the actuals are untouched (stated by `BackfillPpiBci.ForecastedOneRun`) |
| BackfillPpiBci.TotalForecast | cpi_app/jobs/backfill_ppi_bci.py:46-53 | the total is forecast from its stored rows only when it has at least two, and otherwise nothing is forecast (stated by `BackfillPpiBci.TotalForecastRows`) |
| BackfillWages.ParseYm | cpi_app/jobs/backfill_wages.py:18-19 | a parsed "%Y-%m" argument is a month in the calendar's range; anything strptime rejects gives None (round trip in `Calendar.StrptimeFormat`) |
| BackfillWages.Kept | cpi_app/jobs/backfill_wages.py:62 | the kept names are no more than the pieces, each nonempty with no white space at either end |
| BackfillWages.KeptFrom | cpi_app/jobs/backfill_wages.py:62 | every kept name is the stripped form of one of the pieces |
| BackfillWages.CategoryList | cpi_app/jobs/backfill_wages.py:53-62 | every category read from the argument is nonempty and holds no comma |
| BackfillWages.KeptClean | cpi_app/jobs/backfill_wages.py:62 | names that are already stripped and nonempty are kept unchanged |
| BackfillWages.CategoryListJoin | cpi_app/jobs/backfill_wages.py:53-62 | clean names without commas, joined with commas, are read back as the same list |
| BackfillWages.MonthIter | cpi_app/jobs/backfill_wages.py:21-31 | the generator yields every month from the start through the end, December rolling into January |
| BackfillWages.ValueAt | cpi_app/jobs/backfill_wages.py:79-84 | None exactly when the month is not in the series; otherwise a value the series holds for that month |
| BackfillWages.UpTo | cpi_app/jobs/backfill_wages.py:87 | the history is no longer than the series and holds only observations up to the month |
| BackfillWages.UpToMembers | cpi_app/jobs/backfill_wages.py:87 | the history holds exactly the observations dated up to the month |
| BackfillWages.ValueAtUpTo | cpi_app/jobs/backfill_wages.py:84-87 | the month's value is found in its history too |
| BackfillWages.UpToIgnoresLater | cpi_app/jobs/backfill_wages.py:87 | observations dated after the month never enter its history |
| BackfillWages.SeriesMap | cpi_app/jobs/backfill_wages.py:105 | the series handed to the forecast has exactly the dates of the training rows |
| BackfillWages.RunNotes | cpi_app/jobs/backfill_wages.py:94-101 | the notes of a run begin with the "backfill:{category}:{YYYY-MM}:" prefix of its category and month |
| BackfillWages.MatchingRunsAsWritten | cpi_app/jobs/backfill_wages.py:40-44 | the runs selected as written: notes matching the prefix followed by `%` as a SQL LIKE pattern |
| BackfillWages.MatchingRuns | cpi_app/jobs/backfill_wages.py:40-44 | the runs of a category at a month: exactly those whose notes start with its prefix |
| BackfillWages.LikeSelectsOtherCategory | cpi_app/jobs/backfill_wages.py:43 | with the `LIKE` pattern, overwriting "OPI_R" at a month selects the run "OPI-R" stored at that month; the exact prefix does not |
| BackfillWages.MatchingRunsExact | cpi_app/jobs/backfill_wages.py:40-47 | with exact prefixes an overwrite selects a run exactly when it was stored for the same category at the same month (names without colons) |
| BackfillWages.WagePlanOf | cpi_app/jobs/backfill_wages.py:55-105 | the plan carries the horizon, window and overwrite flag, and forecasts a training window with `compute_forecast` over its whole length |
| BackfillWages.DeleteBackfillRun | cpi_app/jobs/backfill_wages.py:40-47 | the category's runs at the month are deleted with their points; nothing else changes |
| BackfillWages.DeleteRuns | cpi_app/jobs/backfill_wages.py:45-47 | the given runs leave the run table and their points leave the point table; the actuals are untouched |
| BackfillWages.ForecastWindow | cpi_app/jobs/backfill_wages.py:105 | the forecast of one training window is the plan's, and it raises exactly on a nonempty window with a horizon of zero or less |
| BackfillWages.AnchorMonth | cpi_app/jobs/backfill_wages.py:78-116 | one (category, month) changes the tables, the uncommitted upserts, the count and the raise flag as the step says |
| BackfillWages.CommitMonth | cpi_app/jobs/backfill_wages.py:93-115 | the committing part of a month, with its forecast known, changes the tables as the commit says: the matching runs are selected, the new run is flushed, and then the selected runs are deleted |
| BackfillWages.CategoryMonths | cpi_app/jobs/backfill_wages.py:78-116 | the months of one category, stopped by a forecast that raises, change the tables as the category pass says |
| BackfillWages.SeriesSource | cpi_app/jobs/backfill_wages.py:71 | each category's series is the one `fetch_wage_series` returns from the fetched index |
| BackfillWages.BackfillWagesMain | cpi_app/jobs/backfill_wages.py:49-118 | a bad month argument raises and changes nothing; otherwise the committed tables are those of the pass over the categories and months, with uncommitted upserts dropped, and the result is the pass's count or, when a forecast raised, the error with the commits made before it kept |
| BackfillWages.RunCategories | cpi_app/jobs/backfill_wages.py:67-116 | the loop over the categories, stopped by a forecast that raises, leaves the tables, count and raise flag of the pass |
| BackfillWages.AnchorStepNoLookAhead | cpi_app/jobs/backfill_wages.py:79-105 | two series with the same observations up to the month give the same step |
| BackfillWages.AnchorStepOwned | cpi_app/jobs/backfill_wages.py:93-112 | every point stays attached to a stored run through a step |
| BackfillWages.BackfillForecast | cpi_app/jobs/backfill_wages.py:105 | with the window set to the history's length the fit always has data, so the forecast raises exactly on a nonempty history with a horizon of zero or less |
| BackfillWages.AnchorStepStores | cpi_app/jobs/backfill_wages.py:78-114 | a committing step whose forecast returns stores the month's actual, creates a run of the category at that month, with the id after the largest one in use before the deletions, whose points are exactly the forecast on the trailing window, and with overwrite leaves it the only run of that category and month |
| BackfillWages.CommitStores | cpi_app/jobs/backfill_wages.py:93-114 | a commit whose forecast returns stores the last pending actual, the run under the id after the largest one in use before the deletions, and exactly its points; with overwrite the run is the only one of its category and month |
| BackfillWages.CategoryPassOfRaised | cpi_app/jobs/backfill_wages.py:105 | after a forecast has raised, further months change nothing |
| BackfillWages.CategoryPassStaysRaised | cpi_app/jobs/backfill_wages.py:78-116 | once a month of the category has raised, the rest of the category changes nothing |
| BackfillWages.BackfillPassStaysRaised | cpi_app/jobs/backfill_wages.py:69-116 | once a category has raised, the remaining categories change nothing |
| BackfillWages.PositiveHorizonCategoryPass | cpi_app/jobs/backfill_wages.py:105 | over a positive horizon no month of a category raises |
| BackfillWages.PositiveHorizonNeverRaises | cpi_app/jobs/backfill_wages.py:67-116 | over a positive horizon the whole job runs to the end |
| BackfillWages.NonPositiveHorizonRaises | cpi_app/jobs/backfill_wages.py:84-105 | over a horizon of zero or less, a month with two observations and a nonempty window raises and commits nothing of that month |
| BackfillWages.Like | cpi_app/jobs/backfill_wages.py:43 | SQL `LIKE` with ASCII case folded, `%` for any run of characters and `_` for any one: `%` matches every string (`BackfillWages.LikeAnything`), and a pattern without `%` followed by `%` matches every string whose start agrees with it position by position (`BackfillWages.LikePositionwise`) |
| BackfillWages.AnchorStep | cpi_app/jobs/backfill_wages.py:78-116 | one (category, month): two series that agree up to the month give the same step (`BackfillWages.AnchorStepNoLookAhead`); points stay attached to runs (`BackfillWages.AnchorStepOwned`); a committing step whose forecast returns stores the actual, the run and exactly its points (`BackfillWages.AnchorStepStores`); over a horizon of zero or less it raises (`BackfillWages.NonPositiveHorizonRaises`) |
| BackfillWages.Commit | cpi_app/jobs/backfill_wages.py:93-114 | a commit whose forecast returns stores the last pending actual, the run and exactly its points, and the overwritten runs are gone; the new run's id is one above the largest id before the deletions, because the last matched run's delete is still pending when the run is flushed (stated by `BackfillWages.CommitStores`) |
| BackfillWages.CategoryPass | cpi_app/jobs/backfill_wages.py:78-116 | the months of one category: once a month has raised the rest change nothing (`BackfillWages.CategoryPassStaysRaised`, `BackfillWages.CategoryPassOfRaised`), and over a positive horizon none raises (`BackfillWages.PositiveHorizonCategoryPass`) |
| BackfillWages.BackfillPass | cpi_app/jobs/backfill_wages.py:67-116 | the categories in order: once one has raised the rest change nothing (`BackfillWages.BackfillPassStaysRaised`), and over a positive horizon the pass runs to the end (`BackfillWages.PositiveHorizonNeverRaises`) |
| BackfillWages.OverwriteTakesNextId | cpi_app/jobs/backfill_wages.py:95-103 | overwriting the only run (id 1) of a category and month leaves one run, with id 2: the run is flushed before the pending delete of the old one |
| Calendar.AddMonths | cpi_app/pipelines/cpi.py:83 | `relativedelta(months=k)` on a first-of-month date moves exactly k months |
| Calendar.MonthsAfter | cpi_app/pipelines/cpi.py:83 | the h months after the last one, the i-th being i + 1 months later |
| Calendar.MonthRange | cpi_app/jobs/backfill_cpi.py:31-36 | the months from first to last in steps of one month, empty when last comes first, all within datetime's years when the ends are |
| Calendar.MonthRangeExact | cpi_app/jobs/backfill_wages.py:21-31 | any sequence of the range's length counting up month by month from the first is the range |
| Calendar.MonthRangeSpan | cpi_app/jobs/backfill_cpi.py:34 | the range holds exactly the months between its ends |
| Calendar.MonthRangeMembers | cpi_app/jobs/backfill_cpi.py:34-36 | a month is in the range exactly when it lies between the ends, and the range is in ascending order |
| Calendar.FourDigits | cpi_app/jobs/backfill_wages.py:94 | `%04d` writes four digits |
| Calendar.TwoDigits | cpi_app/jobs/backfill_wages.py:94 | `%02d` writes two digits |
| Calendar.FourDigitsRoundTrip | cpi_app/jobs/backfill_wages.py:94 | the four digits written for n < 10000 read back as n |
| Calendar.ValueOf4RoundTrip | cpi_app/jobs/backfill_wages.py:18-19 | four digits read as a number and written back with `%04d` are the same digits |
| Calendar.ValueOf2RoundTrip | cpi_app/jobs/backfill_wages.py:18-19 | two digits read as a number and written back with `%02d` are the same digits |
| Calendar.DecimalString | cpi_app/jobs/backfill_cpi.py:86 | `str(n)` is at least one digit, with a leading zero only for 0 |
| Calendar.DecimalStringRoundTrip | cpi_app/jobs/backfill_cpi.py:86 | reading back the digits of `str(n)` gives n |
| Calendar.IntString | cpi_app/jobs/backfill_wages.py:101 | `str(n)` of an integer reads back as n, after a minus sign exactly when negative |
| Calendar.ParseWithSeparator | cpi_app/jobs/backfill_wages.py:18-19 | a parsed "%Y<sep>%m" token names a month in datetime's years |
| Calendar.FormatWithSeparator | cpi_app/jobs/backfill_cpi.py:70 | strftime with "%Y<sep>%m" writes seven characters with the separator at position 4 |
| Calendar.ParseFormat | cpi_app/jobs/backfill_cpi.py:70 | a formatted month parses back to itself |
| Calendar.FormatParse | cpi_app/jobs/backfill_cpi.py:70 | a parsed token formats back to the same string |
| Calendar.ParseCompact | cpi_app/scripts/Hagstofan/economy/cpi.py:67 | a parsed month comes only from a token of the form four digits, 'M', two digits, and lies in datetime's years |
| Calendar.FormatCompact | cpi_app/scripts/Hagstofan/economy/cpi.py:123 | `strftime("%YM%m")` writes a month token |
| Calendar.CompactRoundTrip | cpi_app/scripts/Hagstofan/economy/cpi.py:118-123 | strftime and strptime with "%YM%m" are inverse to each other in both directions |
| Calendar.ParseCompactInjective | cpi_app/scripts/Hagstofan/economy/cpi.py:118 | two accepted tokens name the same month only if they are equal |
| Calendar.MonthField | cpi_app/jobs/backfill_ppi_bci.py:23 | strptime's `%m` accepts one nonzero digit or two digits from 01 to 12, and nothing else |
| Calendar.Strptime | cpi_app/jobs/backfill_ppi_bci.py:21-25 | a month strptime accepts lies in datetime's years |
| Calendar.StrptimeOnTokens | cpi_app/scripts/Hagstofan/community/wage_index.py:85 | on strings the month-token pattern accepts, strptime and the strict parse agree |
| Calendar.StrptimeFormat | cpi_app/jobs/backfill_wages.py:18-19 | strptime reads back what strftime writes, for either separator |
| Calendar.StrptimeLooserThanTokens | cpi_app/jobs/backfill_ppi_bci.py:17-23 | strptime also accepts "2024M1" and "2024m01", which the month-token pattern refuses |
| Calendar.FormatDashed | cpi_app/jobs/backfill_wages.py:94 | `f"{year:04d}-{month:02d}"` writes seven characters with a dash at position 4 |
| Calendar.DaysIn | cpi_app/pipelines/wages.py:54 | a month has 28 to 31 days |
| Calendar.YearLength | cpi_app/pipelines/wages.py:44 | a leap year of the proleptic Gregorian calendar has 366 days, any other 365 |
| Calendar.DayNumberStep | cpi_app/pipelines/wages.py:50-55 | the first of the next month is the month's length in days later |
| Calendar.DayNumberIncreasing | cpi_app/pipelines/wages.py:44-55 | `date2num` is strictly increasing on the first days of months |
| Calendar.SortedMonths | cpi_app/jobs/backfill_cpi.py:40-46 | the months of a set in calendar order, each exactly once |
| Calendar.DayNumber | cpi_app/pipelines/wages.py:44-55 | `date2num` on the first day of a month: the next month's first day is the month's length in days later (`Calendar.DayNumberStep`), so it strictly increases with the month (`Calendar.DayNumberIncreasing`) |
| Charts.Pct | cpi_app/static/js/charts.js:10-13 | a change exists exactly when both values exist and the previous one is not zero, and it is the change from the previous value in percent |
| Charts.PctSign | cpi_app/static/js/charts.js:10-13 | from a positive previous value, a rise gives a positive change, equal values zero, a fall a negative change |
| Charts.JsSlice | cpi_app/static/js/charts.js:17-18 | `slice(a, b)` is `s[a..b]` when both ends lie in the string, the tail from `a` when only `b` runs past the end, and empty when `b <= a` or `a` is past the end |
| Charts.ToNumber | cpi_app/static/js/charts.js:17-18 | `Number(s)` is a number exactly when the slice is all digits |
| Charts.YmToIndex | cpi_app/static/js/charts.js:16-20 | the index is defined exactly when the year and month slices are numbers |
| Charts.YmToIndexFormat | cpi_app/static/js/charts.js:16-20 | a "YYYY-MM" label reads back as its month's own index, months since January of year 0 |
| Charts.NextMonth | cpi_app/static/js/charts.js:16-20 | the next month is one index later |
| Charts.YmToIndexConsecutive | cpi_app/static/js/charts.js:16-20 | consecutive calendar months get consecutive indices, across year ends too |
| Charts.Years | cpi_app/static/js/charts.js:25 | "10y" means 10 years, "5y" 5, and every other range 2 |
| Charts.FirstReaching | cpi_app/static/js/charts.js:31-34 | the first label from i on that reaches the minimum month, or 0 when none does |
| Charts.SliceStartOf | cpi_app/static/js/charts.js:23-35 | "all" or no labels start at 0, and a start is always 0 or a valid index |
| Charts.SliceStart | cpi_app/static/js/charts.js:23-35 | the loop returns the start the scan defines |
| Charts.Labels | cpi_app/app.py:36 | the server's labels are each month written "YYYY-MM" |
| Charts.SliceStartWindow | cpi_app/static/js/charts.js:23-35 | on month labels the slice keeps the last month and starts at a month less than `years * 12` months before it, every dropped month lying outside the window; with ascending labels every kept month lies inside it |
| Charts.StartWindow | cpi_app/static/js/charts.js:23-35 | the same window property for any labels that read back as the given months |
| Charts.At | cpi_app/static/js/charts.js:98-106 | `s[i]` is defined exactly inside the array, and is then the element |
| Charts.AfterBody | cpi_app/static/js/charts.js:92-111 | no series gives no lines; a month line comes first and only when the change from the previous index exists; a year line comes last, only from index 12 on, names the label 12 back and carries that change; each line appears whenever its change exists |
| Charts.NoLinesWithoutValue | cpi_app/static/js/charts.js:98-110 | where the hovered series has no value there are no tooltip lines |
| Charts.SliceFrom | cpi_app/static/js/charts.js:209-210 | `arr.slice(start)` drops the first `start` items, and is empty past the end |
| Charts.Nulls | cpi_app/static/js/charts.js:225 | `Array(n).fill(null)` holds n nulls |
| Charts.PaddingAligned | cpi_app/static/js/charts.js:289-290 | the padded history and the padded forecast have one entry per label, and never both a value |
| Charts.ArrayOr | cpi_app/static/js/charts.js:143-146 | an array is kept, anything else becomes the empty array |
| Charts.ForecastChart.constructor | cpi_app/static/js/charts.js:251-303 | the inputs are kept as arrays, and the chart shows the initial range |
| Charts.ForecastChart.ApplyRange | cpi_app/static/js/charts.js:282-297 | the labels are the range's history labels then the forecast labels; the history line is padded with nulls over the forecast, the forecast line with nulls over the history, and the tooltip series is history then forecast |
| Charts.BaseDatasets | cpi_app/static/js/charts.js:148-173 | the total, the total's forecast, then one dataset per sub-series with key "SUB:code", its label and its series (empty when absent) |
| Charts.TooltipMapKeys | cpi_app/static/js/charts.js:215-239 | `seriesFor` finds a series exactly for the labels of the datasets |
| Charts.TooltipMapLast | cpi_app/static/js/charts.js:219-236 | for a label, the series found is that of the last dataset carrying it |
| Charts.SubSeriesQuietOverForecast | cpi_app/static/js/charts.js:232-234 | a sub-series has no change lines anywhere over the forecast |
| Charts.CpiChart.constructor | cpi_app/static/js/charts.js:139-248 | the inputs are kept as arrays, the datasets are the base datasets, and the chart shows the initial range |
| Charts.CpiChart.ApplyRange | cpi_app/static/js/charts.js:207-241 | the labels are the range's history labels then the forecast labels; every dataset is re-sliced and the tooltip's series replaced |
| Charts.Reslice | cpi_app/static/js/charts.js:219-236 | each dataset gets its own data array, and the tooltip map holds each label's series |
| Charts.DataListAt | cpi_app/static/js/charts.js:219-236 | the data list has one array per dataset, the i-th being that dataset's data |
| CpiPipeline.WithMonthlyChange | cpi_app/pipelines/cpi.py:56-58 | one row per observation with its date and level; the first row's change is NaN and every later row's is the percent change from the row before, with numpy's division |
| CpiPipeline.MonthlyChangeMeaning | cpi_app/pipelines/cpi.py:58 | wherever the previous level is non-zero the monthly change is finite and is the percent change from it |
| CpiPipeline.ParseData | cpi_app/pipelines/cpi.py:31-59 | a TypeError exactly for a source that is not a CPI object; otherwise the IS00 entries whose month parses, in date order, with their monthly change |
| CpiPipeline.CpiColumn | cpi_app/pipelines/cpi.py:71 | the CPI column holds each row's level, in order |
| CpiPipeline.ComputeTrend | cpi_app/pipelines/cpi.py:62-84 | no points for an empty frame; a ValueError exactly when rows meet a `months_predict` of zero or less (`predict` gets no positions); otherwise `months_predict` points dated the months after the last row, each the fitted line at the next position shifted to pass through the last actual |
| CpiPipeline.TrendContinuesLastActual | cpi_app/pipelines/cpi.py:75-80 | the anchored line takes the last actual at the last position, the first forecast is one slope above the last actual, and consecutive forecasts differ by the slope |
| CpiPipeline.ComputeAnnualCpi | cpi_app/pipelines/cpi.py:87-97 | None exactly before row 12, for an empty frame, or for a zero base; a KeyError exactly when the row is past the end; otherwise the percent change from 12 rows earlier |
| CpiPipeline.GetIsnrSeries | cpi_app/pipelines/cpi.py:112-133 | one code's entries with a parsable month, in date order, with their monthly change |
| CpiPipeline.WeightMonths | cpi_app/pipelines/cpi.py:144 | exactly the months that carry a weight; empty exactly when there are no weights |
| CpiPipeline.LatestWeights | cpi_app/pipelines/cpi.py:136-153 | no weights give an empty map; otherwise exactly the codes weighted in the greatest weight month, with those weights |
| CpiPipeline.LatestWeightsMonthIsLatest | cpi_app/pipelines/cpi.py:144 | every weight month is at most, as a string, the month `latest_weights` uses |
| CpiPipeline.LabelFor | cpi_app/pipelines/cpi.py:185 | a known nonempty label is used, otherwise the code itself |
| CpiPipeline.ContributionFor | cpi_app/pipelines/cpi.py:172-191 | no row exactly when the series has fewer than 13 observations; otherwise the code, its label (`ISNRLabels.get(code) or code`, as `CpiPipeline.LabelFor` states), the last value and its month, its change against the previous and the 13th-last observation, and the code's weight if it has one |
| CpiPipeline.CodeSeries | cpi_app/pipelines/cpi.py:171-172 | each listed code paired with its date-ordered series |
| CpiPipeline.ContributionRowsCover | cpi_app/pipelines/cpi.py:171-191 | a code has a row exactly when it is listed and its series has at least 13 observations |
| CpiPipeline.KeptCount | cpi_app/pipelines/cpi.py:197-198 | None and 0 keep every row, a positive k keeps the first k, a negative k drops the last |k| |
| CpiPipeline.CollectContributions | cpi_app/pipelines/cpi.py:169-191 | the loop collects, in code order, the row of every code that has one |
| CpiPipeline.ContributionTable | cpi_app/pipelines/cpi.py:156-199 | the empty table when no listed code has a row; otherwise the `KeyError` that the final `sort_values` raises |
| CpiPipeline.InsertByMagnitude | cpi_app/pipelines/cpi.py:196 | inserting into rows ordered by descending magnitude of the monthly change (NaN last) keeps them ordered and adds exactly that row |
| CpiPipeline.SortByMagnitude | cpi_app/pipelines/cpi.py:196 | the rows reordered (a permutation) by descending magnitude of the monthly change, NaN last |
| CpiPipeline.TopContributions | cpi_app/pipelines/cpi.py:167-199 | the number of rows `head(top_k)` keeps, in order of magnitude, drawn from the rows, each ranked no later than every row cut |
| CpiPipeline.SortedContributionTable | cpi_app/pipelines/cpi.py:156-199 | the intended table: the top rows by magnitude of monthly change of every listed code's row |
| CpiSource.JudgeRule | cpi_app/scripts/Hagstofan/economy/cpi.py:63-77 | a record is stored only when its key has a month token and a code token and its first value is numeric; without both tokens it is skipped; with both, a missing value list raises KeyError and an empty or non-numeric one is skipped |
| CpiSource.JudgeTakesFirstTokens | cpi_app/scripts/Hagstofan/economy/cpi.py:67-68 | the stored month and code are the first matching tokens of the key |
| CpiSource.IndexBaseFromSpec | cpi_app/scripts/Hagstofan/economy/cpi.py:310 | the search from a position finds nothing exactly when no `index_B` mark with four digits starts there or later, and otherwise reads the year of the first such mark |
| CpiSource.IndexBaseYearIsLeftmost | cpi_app/scripts/Hagstofan/economy/cpi.py:310-312 | `re.search(r"index_B(\d{4})", v, re.IGNORECASE)` reads the year of the leftmost mark, and fails exactly when the value has none |
| CpiSource.LatestIndexValueSpec | cpi_app/scripts/Hagstofan/economy/cpi.py:307-316 | None exactly when no value carries an index mark; otherwise a marked value whose (base year, value) pair is greater than every other marked value's |
| CpiSource.SelectionPriority | cpi_app/scripts/Hagstofan/economy/cpi.py:287-305 | the latest index value wins; else a code or month list gives "all" or the whole list as the flag says; "all" only with the flag; item selections name only the variable's values or "index"; with nothing recognised, only the first value |
| CpiSource.Mean | cpi_app/scripts/Hagstofan/economy/cpi.py:346 | the mean times the count is the sum |
| CpiSource.MonthBefore | cpi_app/scripts/Hagstofan/economy/cpi.py:118-123 | not a month exactly when strptime rejects the string; out of years exactly when the shifted date leaves datetime's range; otherwise a token for exactly k months earlier |
| CpiSource.NewestFirst | cpi_app/scripts/Hagstofan/economy/cpi.py:329 | the code's months, each once, and only those |
| CpiSource.NewestFirstDescending | cpi_app/scripts/Hagstofan/economy/cpi.py:329 | `sorted(..., reverse=True)`: each month comes strictly after the next one |
| CpiSource.ValuesNewestFirstOf | cpi_app/scripts/Hagstofan/economy/cpi.py:336-337 | the stored values under those months, in the same order |
| CpiSource.PairChangeOf | cpi_app/scripts/Hagstofan/economy/cpi.py:335-340 | None exactly for a missing pair or a zero older value |
| CpiSource.PairChangeOfPercent | cpi_app/scripts/Hagstofan/economy/cpi.py:339 | a pair's change is the percent change from the older value to the newer |
| CpiSource.ChangesOfSpec | cpi_app/scripts/Hagstofan/economy/cpi.py:333-343 | at most one change per pair; a change is collected exactly when some pair among the first k has it; none exactly when every pair has a zero base |
| CpiSource.Cpi.Empty | cpi_app/scripts/Hagstofan/economy/cpi.py:60-61 | the index, the codes and the weights start empty |
| CpiSource.Cpi.LoadIndex | cpi_app/scripts/Hagstofan/economy/cpi.py:60-77 | succeeds exactly when no record raises; the index then holds the last stored value per (month, code) and the codes are exactly the stored ones |
| CpiSource.Cpi.LoadWeights | cpi_app/scripts/Hagstofan/economy/cpi.py:80-102 | the same acceptance rule into the weights, leaving the index alone |
| CpiSource.Cpi.GetCurrent | cpi_app/scripts/Hagstofan/economy/cpi.py:104-109 | an error exactly when the code has no entry; otherwise the greatest month string of the code and its value |
| CpiSource.Cpi.Get12MonthChange | cpi_app/scripts/Hagstofan/economy/cpi.py:111-136 | one outcome per case: no data, an unparsable latest month, a shift out of datetime's years, a missing value a year before, a zero base raising ZeroDivisionError, or the percent change from the month a year before to the latest |
| CpiSource.Cpi.ListIsNrValues | cpi_app/scripts/Hagstofan/economy/cpi.py:141-142 | the codes, strictly ascending, each exactly once |
| CpiSource.Cpi.GetWeight | cpi_app/scripts/Hagstofan/economy/cpi.py:153-170 | None rather than KeyError for a missing key, the stored weight otherwise |
| CpiSource.Cpi.ChangeOver | cpi_app/scripts/Hagstofan/economy/cpi.py:184-202 | a code gets an increase exactly when it has a latest value and a non-zero value n months earlier, and the increase is the percent change between them; the date shift leaving datetime's years is reported exactly when it happens |
| CpiSource.Cpi.GetIncreaseOverMonths | cpi_app/scripts/Hagstofan/economy/cpi.py:172-204 | raises exactly when some code's date shift leaves datetime's years; otherwise exactly the codes with an increase, each with its percent change |
| CpiSource.Cpi.PairChange | cpi_app/scripts/Hagstofan/economy/cpi.py:335-340 | None exactly for a missing pair or a zero older value; otherwise the percent change from the older month's value to the newer's |
| CpiSource.Cpi.ChangesUpToSpec | cpi_app/scripts/Hagstofan/economy/cpi.py:333-343 | the collected changes are exactly those of the valid pairs among the first k, at most one each |
| CpiSource.Cpi.AverageChange | cpi_app/scripts/Hagstofan/economy/cpi.py:318-348 | an error exactly with fewer than n + 1 months; otherwise the changes of the valid pairs among the n + 1 newest months and their mean, or an error when none remains |
| CpiSource.PairChangesLoop | cpi_app/scripts/Hagstofan/economy/cpi.py:333-340 | the loop collects exactly the changes of the valid pairs |
| CpiSource.Load | cpi_app/scripts/Hagstofan/economy/cpi.py:59-102 | fails exactly when a record of either feed raises; otherwise a fresh source whose index, codes and weights are those of the two record loops |
| CpiSource.Judge | cpi_app/scripts/Hagstofan/economy/cpi.py:63-77 | one record's decision: stored only with a month token, a code token and a numeric first value, skipped without both tokens, raising on a missing value list (`CpiSource.JudgeRule`), the stored month and code being the first tokens (`CpiSource.JudgeTakesFirstTokens`) |
| CpiSource.Stored | cpi_app/scripts/Hagstofan/economy/cpi.py:63-77 | the index the record loop leaves: each entry written by a stored record no later record overwrites (stated by `PxData.ApplyIsLastWrite` over `CpiSource.Judge`; loaded by `CpiSource.Cpi.LoadIndex`) |
| CpiSource.Codes | cpi_app/scripts/Hagstofan/economy/cpi.py:76-77 | the codes stored are exactly the codes of the index's keys (stated by `PxData.CodesWrittenAreKeys`) |
| CpiSource.IndexMarkAt | cpi_app/scripts/Hagstofan/economy/cpi.py:310 | an `index_B` mark (letters in either ASCII case) followed by four ASCII digits starts at the position; the first such position gives the year (stated by `CpiSource.IndexBaseFromSpec`) |
| CpiSource.IndexBaseYear | cpi_app/scripts/Hagstofan/economy/cpi.py:310-312 | the year of the leftmost mark, and None exactly when there is none (stated by `CpiSource.IndexBaseYearIsLeftmost`) |
| CpiSource.LatestIndexValue | cpi_app/scripts/Hagstofan/economy/cpi.py:307-316 | None exactly when no value has a mark; otherwise a marked value whose (year, value) pair exceeds every other marked value's (stated by `CpiSource.LatestIndexValueSpec`) |
| CpiSource.SelectionForVariable | cpi_app/scripts/Hagstofan/economy/cpi.py:287-305 | the selection for one variable: the latest index value first; else, for a code or month list, "all" or the whole list as the flag says; with nothing recognised, the first value; an item selection names only the variable's values or "index" (stated by `CpiSource.SelectionPriority`) |
| CpiSource.ChangesOf | cpi_app/scripts/Hagstofan/economy/cpi.py:333-343 | the changes of the first k pairs: one more pair adds its change exactly when its older value is non-zero (`CpiSource.ChangesOfStep`), and a change is collected exactly when some such pair has it (`CpiSource.ChangesOfSpec`) |
| CpiSource.Cpi.DatesNewestFirst | cpi_app/scripts/Hagstofan/economy/cpi.py:329 | the code's months, each once, newest first (stated by `CpiSource.NewestFirst` and `CpiSource.NewestFirstDescending`) |
| CpiSource.Cpi.ValuesNewestFirst | cpi_app/scripts/Hagstofan/economy/cpi.py:336-337 | the stored values under those months, in the same order (stated by `CpiSource.ValuesNewestFirstOf`) |
| CpiSource.Cpi.ChangesUpTo | cpi_app/scripts/Hagstofan/economy/cpi.py:333-343 | exactly the changes of the valid pairs among the first k, at most one each, and none exactly when every such pair has a zero base (stated by `CpiSource.Cpi.ChangesUpToSpec`) |
| FetchJobs.ActualEntries | cpi_app/fetch_and_store.py:9-19 | each frame row writes its date, its level and its change, a NaN change as None |
| FetchJobs.UpsertActuals | cpi_app/fetch_and_store.py:8-19 | the actuals become the old ones upserted with the frame's rows; runs and points are untouched |
| FetchJobs.UpsertActualsRows | cpi_app/jobs/fetch_all.py:14-25 | after the upsert a date is stored exactly when it was before or the frame has it; a date of the frame holds the level of its last row and None exactly for a NaN change; any other date keeps its row |
| FetchJobs.NotesOr | cpi_app/fetch_and_store.py:22 | `notes or default`: a missing or empty note falls back to the default |
| FetchJobs.SaveForecast | cpi_app/fetch_and_store.py:21-28 | a run with a fresh id, the horizon and the notes (default "linear_reg"); its points are exactly one per forecast pair under that id, which is returned; the actuals are untouched |
| FetchJobs.SaveCpiForecast | cpi_app/jobs/fetch_all.py:27-32 | a run with notes "linear_reg_24m" is flushed; when the trend returns its points are exactly the anchored trend's pairs on the given rows, and when it raises no point is added and the failure is reported |
| FetchJobs.WageEntries | cpi_app/jobs/fetch_all.py:35-38 | each row writes its value under its (date, category) |
| FetchJobs.UpsertWages | cpi_app/fetch_and_store_wages.py:4-8 | the actuals become the old ones upserted with the rows; runs and points are untouched |
| FetchJobs.UpsertWagesRows | cpi_app/jobs/fetch_all.py:34-38 | one row per (date, category), the latest value winning; other keys keep their value |
| FetchJobs.CategoriesOf | cpi_app/jobs/fetch_all.py:43 | exactly the categories that occur in the frame |
| FetchJobs.GroupRowsSpec | cpi_app/jobs/fetch_all.py:43-44 | a category's group holds exactly that category's rows |
| FetchJobs.GroupRows | cpi_app/jobs/fetch_all.py:43-44 | a group is no longer than the frame and every value in it is present |
| FetchJobs.UpsertedPresent | cpi_app/jobs/fetch_all.py:44 | a series built from present values holds only present values |
| FetchJobs.GroupForecastRaises | cpi_app/jobs/fetch_all.py:43-45 | every category of the frame has a value, so over a horizon of zero or less its forecast raises |
| FetchJobs.GroupPoints | cpi_app/jobs/fetch_all.py:43-46 | every point of the shared run carries its id |
| FetchJobs.GroupPointsOfCategory | cpi_app/jobs/fetch_all.py:43-46 | the points of a listed category are exactly its forecast, tagged with that category; an unlisted category has none |
| FetchJobs.GroupPointsOfCategoryLast | cpi_app/jobs/fetch_all.py:43-46 | adding the last category's group keeps every category's points exactly its forecast |
| FetchJobs.SaveWageForecast | cpi_app/fetch_and_store_wages.py:10-17 | one run with a fresh id shared by every category, returned; over a positive horizon its points are exactly each category's forecast in sorted category order; over a horizon of zero or less no point is added and a failure is reported unless there is no category; the actuals are untouched |
| FetchJobs.AddGroups | cpi_app/jobs/fetch_all.py:43-46 | the loop appends exactly the groups' points and changes nothing else |
| FetchJobs.GroupPointsOwned | cpi_app/jobs/fetch_all.py:40-46 | before the run exists no point refers to it, so the shared run's points are exactly the groups' points, and every point stays owned |
| FetchJobs.FetchAndStore | cpi_app/fetch_and_store.py:30-50 | every row is upserted, then one run forecasts 6 months from the last 24 rows with notes "linear_reg"; its id is returned |
| FetchJobs.FetchAndStoreWages | cpi_app/fetch_and_store_wages.py:19-32 | every row is upserted, then one run with a 12-month horizon and notes "linear_reg_24m" holds each category's forecast |
| FetchJobs.StoreCpiFrame | cpi_app/jobs/fetch_all.py:54-57 | the CPI frame is upserted and one run holds the trend on its last 24 rows, 6 months ahead |
| FetchJobs.FetchAll | cpi_app/jobs/fetch_all.py:48-68 | a source that is not a CPI object raises and nothing changes; otherwise the CPI frame is upserted and forecast 6 months from its last 24 rows, then the wage rows are upserted and forecast 12 months |
| FetchJobs.GroupSeries | cpi_app/jobs/fetch_all.py:43-44 | a category's series is built from exactly that category's rows (`FetchJobs.GroupRowsSpec`) and holds only present values (`FetchJobs.UpsertedPresent`), so over a horizon of zero or less its forecast raises (`FetchJobs.GroupForecastRaises`) |
| FetchJobs.GroupForecast | cpi_app/jobs/fetch_all.py:43-45 | over a positive horizon, the category's forecast is the one stored under the shared run for that category (`FetchJobs.GroupPointsOfCategory`, `FetchJobs.SaveWageForecast`); over a horizon of zero or less the forecast raises instead (`FetchJobs.GroupForecastRaises`) |
| FetchJobs.WageForecasts | cpi_app/jobs/fetch_all.py:43-46 | each listed category's points under the shared run are exactly its forecast, tagged with the category (stated by `FetchJobs.GroupPointsOfCategory`) |
| LegacyCpi.EntryError | cpi.py:24-36 | an entry raises an exception the loop does not catch exactly when its key does not unpack into three parts, it has no first value, or its month parses and its first value is a null, list or object, whose `float` TypeError `except ValueError` lets through |
| LegacyCpi.RecordOf | cpi.py:26-36 | a well-shaped entry yields a record exactly when its value is numeric (not the "." sentinel) and its month parses; the record is (month, measure type, value) |
| LegacyCpi.ScanRaisesFirst | cpi.py:23-36 | the loop raises exactly when some entry raises an exception it does not catch (the null-value TypeError included), and with the exception of the first such entry |
| LegacyCpi.ScanKeeps | cpi.py:23-36 | without an exception, a record is kept exactly when some entry yields it |
| LegacyCpi.RaisedStays | cpi.py:24-25 | once an entry has raised, later entries change nothing |
| LegacyCpi.KindsAndDates | cpi.py:38 | every record's type is a column and its month a row of the pivot |
| LegacyCpi.RowsOf | cpi.py:38 | the pivoted rows of the given months, in order, each with that month's cells |
| LegacyCpi.RowsOfCover | cpi.py:38 | every given month has its row |
| LegacyCpi.Pivot | cpi.py:38-40 | one row per month, in strictly ascending date order, each holding that month's cells, and every month present |
| LegacyCpi.ParseData | cpi.py:22-40 | the loop stops at the first entry that raises, the null-value TypeError included, and otherwise collects and pivots as the parse defines |
| LegacyCpi.ValuesAtSpec | cpi.py:38-39 | a record alone in its month under its renamed column supplies that cell |
| LegacyCpi.ColumnNameInjective | cpi.py:39 | without a clash, renaming "index" to CPI and "change_M" to Monthly Change keeps distinct types apart |
| LegacyCpi.UniqueRecord | cpi.py:38 | records with the same month and type are the same record whenever the pivot accepts them |
| LegacyCpi.FrameHoldsRecords | cpi.py:37-40 | each kept record is the cell of its month under its renamed column |
| LegacyCpi.ValuesAtOnlyRecords | cpi.py:38-39 | every cell of a pivoted row comes from a record of that month |
| LegacyCpi.CpiValues | cpi.py:44 | the CPI column holds each row's CPI value, in order |
| LegacyCpi.ComputeTrend | cpi.py:42-53 | a KeyError exactly without a CPI column; the fit raises exactly on an empty frame or a missing CPI value; otherwise `predict` raises exactly on a horizon of zero or less; otherwise the fitted line on positions 0..n-1 read off at the next h positions |
| LegacyCpi.LegacyTrendIsRawLine | cpi.py:48-53 | the projections are h points dated 1..h months after the last row, each the raw fitted line with no anchoring, one slope apart |
| LegacyCpi.ComputeAnnualCpi | cpi.py:55-60 | None exactly before row 12; a KeyError exactly past the last row or without a CPI column; otherwise the percent change from 12 rows earlier in numpy arithmetic, NaN where a value is missing |
| LegacyCpi.AnnualZeroPrior | cpi.py:55-60 | with no zero guard, a zero prior value gives an infinity or NaN rather than None |
| LegacyCpi.ScanEntries | cpi.py:23-36 | the record loop raises exactly at the first entry that raises (`LegacyCpi.ScanRaisesFirst`), later entries then change nothing (`LegacyCpi.RaisedStays`), and otherwise a record is kept exactly when some entry yields it (`LegacyCpi.ScanKeeps`) |
| LegacyCpi.ParseOf | cpi.py:22-40 | the parse raises as the record loop does, and otherwise each kept record is the cell of its month under its renamed column (stated by `LegacyCpi.FrameHoldsRecords` and `LegacyCpi.ParseData`) |
| LegacyCpi.ColumnName | cpi.py:39 | the rename keeps distinct measure types apart when no renamed column clashes with an existing one (stated by `LegacyCpi.ColumnNameInjective`) |
| LegacyCpi.ValuesAt | cpi.py:38-39 | a month's cells are exactly its records under their renamed columns (`LegacyCpi.ValuesAtSpec`, `LegacyCpi.ValuesAtOnlyRecords`) |
| Numbers.Divide | cpi_app/pipelines/cpi.py:58 | numpy's division: the quotient for a non-zero divisor; by zero, NaN for 0/0 and an infinity of the dividend's sign otherwise |
| Numbers.PercentChange | cpi_app/pipelines/cpi.py:58 | `(curr / prev - 1) * 100` in numpy arithmetic is finite exactly for a non-zero base, and NaN by a zero base exactly when the value is zero too |
| Numbers.PercentChangeIsChange | cpi_app/pipelines/cpi.py:179-180 | a finite change is the percent change from the base to the value |
| Numbers.PercentChangeSign | cpi_app/pipelines/cpi.py:179 | from a positive base the change is finite, and positive exactly when the value rose |
| Numbers.GrowthPercentIsChange | cpi_app/scripts/Hagstofan/economy/cpi.py:131 | `((latest - previous) / previous) * 100` is the percent change |
| PpiPipeline.CategoriesOrDefault | cpi_app/pipelines/ppi.py:14 | the given categories when there are any, otherwise "PPI" alone; never empty |
| PpiPipeline.CategoryRows | cpi_app/pipelines/ppi.py:17-22 | raises exactly when some pair has a month strptime accepts and a value `float` rejects; otherwise no more rows than pairs |
| PpiPipeline.Collected | cpi_app/pipelines/ppi.py:16-22 | raises exactly when one of the categories has a value `float` rejects |
| PpiPipeline.CategoryRowsSpec | cpi_app/pipelines/ppi.py:17-22 | when nothing raises, a category row is exactly a pair of that category whose month strptime accepts, with its value |
| PpiPipeline.CollectedSpec | cpi_app/pipelines/ppi.py:16-22 | when nothing raises, a collected row is exactly a parsable pair of one of the categories |
| PpiPipeline.InsertIsPermutation | cpi_app/pipelines/ppi.py:23 | inserting adds the row and loses none |
| PpiPipeline.InsertKeepsOrder | cpi_app/pipelines/ppi.py:23 | inserting into date-ordered rows keeps them ordered |
| PpiPipeline.SortByDate | cpi_app/pipelines/ppi.py:23 | `sort_values("date")`: the same rows, dates never decreasing |
| PpiPipeline.FetchPpiSeries | cpi_app/pipelines/ppi.py:11-24 | raises exactly when the collection raises; otherwise the same rows as collected (a permutation), with dates never decreasing |
| PpiPipeline.CollectCategory | cpi_app/pipelines/ppi.py:17-22 | the inner loop yields exactly the category's rows, or the raise |
| PpiPipeline.Dropna | cpi_app/pipelines/ppi.py:27 | dropping missing values never adds any |
| PpiPipeline.DropnaSpec | cpi_app/pipelines/ppi.py:27 | a kept point is exactly a present value of the series |
| PpiPipeline.PpiForecast | cpi_app/pipelines/ppi.py:26-37 | fewer than two present values give no points; a window leaving nothing to fit, or a horizon of zero or less, raises; otherwise the unanchored line fitted on the window, continued `months` positions, dated the months after the last present value |
| PpiPipeline.PpiForecastDefined | cpi_app/pipelines/ppi.py:28-34 | with a nonnegative window and a positive horizon the forecast never raises |
| PpiPipeline.PpiTraining | cpi_app/pipelines/ppi.py:27-30 | the last `window` present values when there are more, otherwise all of them; the forecast continues the fit of exactly these (stated by `PpiPipeline.PpiForecast` and `PpiPipeline.PpiForecastDefined`) |
| WageIndexSource.CategoryRule | cpi_app/scripts/Hagstofan/community/wage_index.py:55-59 | the category is the first known code among the non-month keys; with none, the single key, or the keys joined by `:`, or `TOTAL` when that is empty; it is never empty |
| WageIndexSource.JudgeWageRule | cpi_app/scripts/Hagstofan/community/wage_index.py:43-66 | a record is kept exactly when a key is a `YYYYMmm` token and the first value parses as a number; it is stored under the first such token, the category of the remaining keys and that value |
| WageIndexSource.WageIndex.constructor | cpi_app/scripts/Hagstofan/community/wage_index.py:40-67 | the table is the last write per (month, category) of the kept records and the categories are exactly the categories written |
| WageIndexSource.WageIndex.ListCategories | cpi_app/scripts/Hagstofan/community/wage_index.py:71-72 | the categories in strictly ascending order, each exactly once |
| WageIndexSource.WageIndex.Months | cpi_app/scripts/Hagstofan/community/wage_index.py:74-76 | the month strings occurring in the table, strictly ascending, each exactly once |
| WageIndexSource.WageIndex.GetSeries | cpi_app/scripts/Hagstofan/community/wage_index.py:78-90 | the category's rows with a valid calendar month, in ascending date order, each row's value the table's value for that month |
| WageIndexSource.WageIndex.Latest | cpi_app/scripts/Hagstofan/community/wage_index.py:92-98 | None exactly when the category has no entry; otherwise its greatest month string and the value stored there |
| WageIndexSource.SortedSeriesInTable | cpi_app/scripts/Hagstofan/community/wage_index.py:81-88 | every row of the series is an entry of the table for that category under its month's compact form |
| WageIndexSource.GetSeriesKeepsEntry | cpi_app/scripts/Hagstofan/community/wage_index.py:81-88 | every entry of the category whose month parses appears in the series with its value: nothing else is dropped |
| WageIndexSource.Category | cpi_app/scripts/Hagstofan/community/wage_index.py:55-59 | the category of the non-month keys: the first known code, else the single key, the keys joined by `:`, or `TOTAL`, never empty (stated by `WageIndexSource.CategoryRule`) |
| WageIndexSource.JudgeWage | cpi_app/scripts/Hagstofan/community/wage_index.py:43-66 | a record is kept exactly when a key is a month token and the first value parses as a number, and is stored under the first such token and its category (stated by `WageIndexSource.JudgeWageRule`) |
| Text.StrLessIrreflexive | cpi_app/scripts/Hagstofan/community/wage_index.py:97 | no string is less than itself under Python's string order |
| Text.StrLessTransitive | cpi_app/scripts/Hagstofan/community/wage_index.py:97 | Python's string order is transitive |
| Text.StrLessTotal | cpi_app/scripts/Hagstofan/community/wage_index.py:97 | any two different strings are ordered one way or the other |
| Text.StrLessAsymmetric | cpi_app/scripts/Hagstofan/community/wage_index.py:97 | no two strings are each less than the other |
| Text.Greatest | cpi_app/scripts/Hagstofan/community/wage_index.py:97 | `max` of a non-empty set of strings is a member that no other member exceeds |
| Text.SortedStrings | cpi_app/scripts/Hagstofan/community/wage_index.py:72 | `sorted` of a set of strings is strictly ascending and holds exactly the set's members |
| Text.FirstIndex | cpi_app/scripts/Hagstofan/community/wage_index.py:49 | the index found, when there is one, is within the sequence |
| Text.FirstIndexIsFirst | cpi_app/scripts/Hagstofan/community/wage_index.py:49 | the index found is that of the first element meeting the condition, and None means no element meets it |
| Text.TrimRight | cpi_app/scripts/Hagstofan/api_client.py:6 | `rstrip(c)` leaves a prefix that does not end in `c`, and only `c` was removed |
| Text.Strip | cpi_app/scripts/Hagstofan/api_client.py:9 | `strip(c)` is a contiguous piece of the string with only `c` cut from either side, and neither starts nor ends with `c` |
| Text.StripUnchanged | cpi_app/scripts/Hagstofan/api_client.py:9 | stripping a string that neither starts nor ends with `c` changes nothing |
| Text.Join | cpi_app/scripts/Hagstofan/community/wage_index.py:59 | joining two or more pieces puts the separator in the result; joining none gives the empty string |
| Text.Split | cpi_app/jobs/backfill_wages.py:62 | `split` gives at least one piece and no piece holds the separator |
| Text.SplitJoin | cpi_app/jobs/backfill_wages.py:62 | joining the pieces of a split with the separator gives the string back |
| Text.JoinSplit | cpi_app/jobs/backfill_wages.py:62 | splitting pieces that were joined by a separator none of them holds gives the pieces back |
| Text.StripSpace | cpi_app/jobs/backfill_wages.py:62 | `strip()` is a contiguous piece of the string with only whitespace (as `str.isspace` defines it) cut from either side, neither starts nor ends with whitespace, keeps only characters of the input, and leaves a string already trimmed as it is |
| Text.StrLess | cpi_app/scripts/Hagstofan/community/wage_index.py:97 | Python's string order is a strict total order: irreflexive, transitive, total and asymmetric (stated by `Text.StrLessIrreflexive`, `Text.StrLessTransitive`, `Text.StrLessTotal` and `Text.StrLessAsymmetric`) |
| Text.IsSpace | cpi_app/jobs/backfill_wages.py:62 | the characters `str.isspace` accepts: code points 9-13 and 28-32 (the space included), U+0085, U+00A0, U+1680, U+2000-U+200A, U+2028, U+2029, U+202F, U+205F and U+3000; `strip()` removes exactly these (stated by `Text.StripSpace`) |
| Trend.Positions | cpi_app/pipelines/ppi.py:31 | the i-th training point of a positional fit is (i, i-th value) |
| Trend.AnchoredThroughLast | cpi_app/pipelines/wages.py:49-56 | the anchored line passes through the last observation and keeps the fitted slope between any two abscissae |
| Trend.AnchoredAll | cpi_app/pipelines/wages.py:50-56 | every anchored prediction is the last value plus the slope times the distance from the last abscissa |
| Trend.AnchoredStep | cpi_app/pipelines/wages.py:56 | one unit to the right raises the anchored line by exactly the slope |
| Trend.TailWindow | cpi_app/pipelines/ppi.py:30 | the window is a suffix: of length `w` when `w` is positive and smaller than the input, the whole input for `w` 0 or at most the length, and the input less its first `-w` items for a negative `w` |
| Trend.ContinueFit | cpi_app/pipelines/ppi.py:31-37 | for a positive horizon, exactly `months` points, the i-th dated i+1 months after the last observation and valued at the fitted line at position len(y)+i |
| Trend.ContinueFitSteps | cpi_app/pipelines/ppi.py:33-36 | consecutive continued points are one month apart and differ by exactly the fitted slope |
| Trend.Anchored | cpi_app/pipelines/wages.py:49-56 | the fitted line shifted through the last observation: it passes through the last observation, keeps the fitted slope (`Trend.AnchoredThroughLast`, `Trend.AnchoredStep`), and equals the last value plus the slope times the distance (`Trend.AnchoredAll`) |
| WagesPipeline.FetchWageSeries | cpi_app/pipelines/wages.py:14-29 | the requested category's dated rows, else those of the first category in sorted order, else none; always in ascending date order |
| WagesPipeline.FallbackOnlyWhenEmpty | cpi_app/pipelines/wages.py:21-27 | when the requested category has a row with a valid month, its own series is returned and the fallback is not used |
| WagesPipeline.Present | cpi_app/pipelines/wages.py:37 | `dropna` keeps exactly the months whose value is present, with those values |
| WagesPipeline.DayPoints | cpi_app/pipelines/wages.py:44-45 | one training point per row, its abscissa the day number of the row's date and its ordinate the row's value |
| WagesPipeline.Extrapolate | cpi_app/pipelines/wages.py:47-58 | for a positive horizon, exactly `months` points dated 1..months months after the last observation, each the fitted line at its day number shifted through the last observation |
| WagesPipeline.ComputeForecast | cpi_app/pipelines/wages.py:32-58 | an empty series gives no points; otherwise it raises exactly when the window leaves no training rows or the horizon is zero or less; otherwise the result is the extrapolation of the windowed series |
| WagesPipeline.WageTrainingWindow | cpi_app/pipelines/wages.py:41-42 | a nonnegative window keeps the last observation, and a positive one keeps at most `window` rows, exactly the latest `window` when the series is longer |
| WagesPipeline.ComputeForecastDefined | cpi_app/pipelines/wages.py:37-56 | with a nonnegative window and a positive horizon the forecast is always defined |
| WagesPipeline.ForecastFromLast | cpi_app/pipelines/wages.py:49-56 | each forecast value is the last observed value plus the fitted slope times the days elapsed since the last observation |
| WagesPipeline.DayPointsIncrease | cpi_app/pipelines/wages.py:44 | rows in ascending date order give strictly increasing abscissae |
| WagesPipeline.TrainingAbscissaeIncrease | cpi_app/pipelines/wages.py:37-44 | the training abscissae are strictly increasing |
| WagesPipeline.ForecastDatesIncrease | cpi_app/pipelines/wages.py:54 | forecast dates come after the last observation and strictly increase |
| WagesPipeline.WageSeriesOf | cpi_app/pipelines/wages.py:14-29 | the category's own series whenever it has a row with a valid month (`WagesPipeline.FallbackOnlyWhenEmpty`), in ascending date order (`WagesPipeline.FetchWageSeries`) |
| PxData.FirstNumber | cpi_app/scripts/Hagstofan/economy/cpi.py:71-74 | a value is read exactly when the record has a first value and it is numeric, and it is that value |
| PxData.FirstTokenIsFirst | cpi_app/scripts/Hagstofan/economy/cpi.py:67-68 | the key token found is the first one matching the pattern, and None means no token matches |
| PxData.ApplyIsLastWrite | cpi_app/scripts/Hagstofan/economy/cpi.py:63-77 | every entry of the table was written by a kept record that no later record overwrites: the last write wins |
| PxData.ApplyKeepsLast | cpi_app/scripts/Hagstofan/economy/cpi.py:76 | a kept record whose key no later record writes leaves its value in the table |
| PxData.CodesWrittenAreKeys | cpi_app/scripts/Hagstofan/economy/cpi.py:76-77 | the set of codes holds exactly the codes that occur in the table's keys |
| PxData.MonthsFor | cpi_app/scripts/Hagstofan/economy/cpi.py:105 | the months listed for a code are exactly those with an entry for that code |
| PxData.Latest | cpi_app/scripts/Hagstofan/economy/cpi.py:104-109 | None exactly when the code has no entry; otherwise the greatest month string for the code and the value stored there |
| PxData.SeriesOf | cpi_app/pipelines/cpi.py:117-124 | each series month is a valid calendar month whose compact string is an entry of the code, carrying that entry's value |
| PxData.SeriesOfComplete | cpi_app/pipelines/cpi.py:117-124 | every entry of the code whose month string parses is in the series with its value: nothing else is dropped |
| PxData.SeriesOfExact | cpi_app/pipelines/cpi.py:117-124 | a map that holds exactly the parsed entries of the code is the series of the code |
| PxData.SortedRows | cpi_app/pipelines/cpi.py:128 | the rows are the map's pairs, each exactly once, in strictly ascending month order |
| PxData.CollectSeries | cpi_app/pipelines/cpi.py:117-128 | the loop's rows are the code's parsed series in ascending month order |
| PxData.Apply | cpi_app/scripts/Hagstofan/economy/cpi.py:63-77 | the table after the record loop: every entry was written by a kept record that no later record overwrites (`PxData.ApplyIsLastWrite`), and the last kept write of each key stays (`PxData.ApplyKeepsLast`) |
| PxData.CodesWritten | cpi_app/scripts/Hagstofan/economy/cpi.py:76-77 | the codes written are exactly the codes of the table's keys (stated by `PxData.CodesWrittenAreKeys`) |
| Store.MinOf | cpi_app/jobs/backfill_cpi.py:77-79 | `.first()` over the matching runs is the lowest id among them |
| Store.FreshId | cpi_app/jobs/backfill_cpi.py:88-89 | the id a flush assigns is positive, above every id in use, 1 for an empty table and otherwise the largest id plus one |
| Store.PointsFor | cpi_app/jobs/backfill_cpi.py:96-97 | one point per forecast pair, in order, each tagged with the run id and carrying the pair's date and value |
| Store.OfRun | cpi_app/models.py:32 | the points of a run all carry that run's id |
| Store.OfRunMembers | cpi_app/models.py:32 | a point is among the run's points exactly when it is stored with that run's id |
| Store.WithoutRun | cpi_app/jobs/backfill_cpi.py:81 | after deleting a run's points no remaining point carries its id |
| Store.WithoutRunMembers | cpi_app/jobs/backfill_wages.py:46 | a point survives the delete exactly when it is stored under another run |
| Store.WithoutRuns | cpi_app/jobs/backfill_wages.py:45-47 | after deleting several runs' points no remaining point carries any of their ids |
| Store.WithoutRunsMembers | cpi_app/jobs/backfill_wages.py:45-47 | a point survives exactly when its run is not among those deleted |
| Store.WithoutNoRuns | cpi_app/jobs/backfill_wages.py:42-47 | deleting no runs keeps every point |
| Store.WithoutOneMore | cpi_app/jobs/backfill_wages.py:45-47 | deleting the runs one at a time, in any order, removes the points of all of them |
| Store.WithoutRunAppend | cpi_app/jobs/backfill_cpi.py:81 | deleting a run's points from a concatenation deletes them from each part |
| Store.WithoutRunsOwned | cpi_app/models.py:55 | deleting runs together with their points keeps every remaining point attached to a remaining run |
| Store.WithoutRunOwned | cpi_app/jobs/backfill_wages.py:46-47 | deleting one run with its points keeps every remaining point attached to a remaining run |
| Store.OfCategory | cpi_app/jobs/fetch_all.py:43-46 | the points of a category all carry that category |
| Store.OfCategoryFrom | cpi_app/jobs/fetch_all.py:43-46 | the points of a category are stored points: the filter invents nothing |
| Store.OfCategoryAppend | cpi_app/jobs/fetch_all.py:43-46 | the points of a category after an append are its old points followed by its new ones |
| Store.OfCategoryPointsFor | cpi_app/jobs/fetch_all.py:45-46 | points written under one category are exactly that category's points among them, and none of another's |
| Store.OfRunAppend | cpi_app/jobs/backfill_cpi.py:96-97 | the points of a run after an append are its old points followed by its new ones |
| Store.OfRunAbsent | cpi_app/models.py:32 | a run that no stored point refers to has no points |
| Store.OfRunPointsFor | cpi_app/jobs/backfill_cpi.py:96-97 | points written for a run are all points of that run |
| Store.NewRunOwnsItsPoints | cpi_app/jobs/fetch_all.py:27-32 | after a new run is flushed and its points added, the run's points are exactly the ones just written, in order |
| Store.ReplacedPoints | cpi_app/jobs/backfill_cpi.py:80-97 | overwriting a run (deleting its points, then adding new ones) leaves it with exactly the new points |
| Store.UpsertedSpec | cpi_app/jobs/fetch_all.py:34-38 | one row per key and the latest write wins: a key is present exactly when it was present or written, keeps its value when not written, and otherwise holds its last written value |
| Store.StoredChange | cpi_app/jobs/fetch_all.py:19 | a NaN change is stored as NULL and any other value as it is, so NaN is never stored |
| Store.CpiStore.constructor | cpi_app/models.py:15-34 | the new store has no actuals, no runs and no points, and every point belongs to a run |
| Store.CpiStore.PutActual | cpi_app/jobs/fetch_all.py:16-25 | the row of the date is replaced or added, the date column staying unique; runs and points are unchanged |
| Store.CpiStore.AddRun | cpi_app/jobs/backfill_cpi.py:83-89 | the run is stored under a fresh id, which is returned; nothing else changes |
| Store.CpiStore.AddPoints | cpi_app/jobs/backfill_cpi.py:96-97 | the run's points are appended after the existing ones, in order; nothing else changes |
| Store.CpiStore.DeletePoints | cpi_app/jobs/backfill_cpi.py:81 | exactly the points of the run are removed, the rest in their order; nothing else changes |
| Store.CpiStore.Rollback | cpi_app/jobs/backfill_cpi.py:39-101 | the run and point tables become those last committed; the actuals are unchanged |
| Store.IndexStore.constructor | cpi_app/models.py:37-58 | the new store has no actuals, no runs and no points, and every point belongs to a run |
| Store.IndexStore.PutActual | cpi_app/jobs/backfill_wages.py:33-38 | the row of the (date, category) pair is replaced or added, the pair staying unique; runs and points are unchanged |
| Store.IndexStore.AddRun | cpi_app/jobs/fetch_all.py:40-42 | the run is stored under a fresh id, which is returned; nothing else changes |
| Store.IndexStore.AddPoints | cpi_app/jobs/fetch_all.py:45-46 | the points, each tagged with the run and category, are appended in order; nothing else changes |
| Store.IndexStore.DeleteRun | cpi_app/jobs/backfill_wages.py:45-47 | the run and all its points are removed, every remaining point still belongs to a remaining run, and the actuals are unchanged |
| Store.Upserted | cpi_app/jobs/fetch_all.py:34-38 | a key is present afterwards exactly when it was before or some row writes it; an untouched key keeps its value and a written one holds its last write (stated by `Store.UpsertedSpec`) |

## Left out

- Network I/O is not modelled. The `requests` calls are replaced by `ApiClient.Server`, a function from request to (status, body). The JSON bodies are not parsed: records reach the model as `PxData.Entry` values, already split into key tokens and cells.
- The HTTP fallback chain of the CPI source constructor (cpi_app/scripts/Hagstofan/economy/cpi.py:31-57) is not modelled. Neither are the metadata fetches in `_discover_index_selector`, `_fetch_with_meta_query` and `_build_query_from_meta`. `CpiSource.Load` starts from the records of the two responses. Only the pure choices `_latest_index_value` and `_selection_for_variable` are modelled.
- The least-squares fit (scikit-learn's `LinearRegression`) is a parameter, `Trend.Fit`, a function from training points to a line. The model proves anchoring, windowing and dates for every such function, not that the line is the least-squares one.
- The model uses exact `real` arithmetic, not binary floating point. Zero divisors are the exception: `Numbers.Float` keeps numpy's infinities and NaN, because the source lets them flow into tables and the store.
- `round(..., 2)`, `statistics.mean` beyond "mean times count is the sum", and `statistics.median` are not modelled. `CpiSource.Cpi.AverageChange` returns the collected changes and their mean; the median and the rounding are left out.
- The `ZeroDivisionError` handler in `contribution_table` (cpi_app/pipelines/cpi.py:179-182) is not modelled, because numpy division never raises it.
- `months_back` in `contribution_table` is accepted and unused by the source; the model has no such parameter.
- Parsed years are confined to 1..9999, the range Python's `datetime` accepts: month strings outside it are rejected by `Calendar` parsing, as `strptime` rejects them. Month arithmetic is not confined; see the next lines.
- Calendar.AddMonths and Calendar.MonthsAfter: they move any number of months on unbounded years. The source's month offsets raise once they leave the years their library accepts: 1 to 9999 for `datetime` and `relativedelta`, roughly 1677 to 2262 for pandas `Timestamp`, `DateOffset` and `date_range`. This covers the forecast dates of cpi_app/pipelines/cpi.py:83, cpi_app/pipelines/wages.py:54, cpi_app/pipelines/ppi.py:36 and cpi.py:52, so `Trend.ContinueFit`, `WagesPipeline.Extrapolate` and the legacy projection never raise for that reason. Only `CpiSource.MonthBefore` models the out-of-range case.
- BackfillWages.MonthIter: with an end month of 9999-12 the source yields that month and then raises ValueError building `date(10000, 1, 1)` (cpi_app/jobs/backfill_wages.py:24-31); the model yields the range and stops.
- BackfillCpi.Anchors and BackfillCpi.AnchorsDefault: `min_date + pd.DateOffset(months=window-1)` (cpi_app/jobs/backfill_cpi.py:51) raises when the window moves the earliest actual outside the years pandas accepts; the model ranges over those months (or an empty range) and the backfill goes on.
- `Number(s)` in the front end reads only strings of decimal digits as numbers. Signs, decimals, exponents and the other JavaScript numeric syntaxes are not modelled, since the labels the server sends never use them.
- Chart.js construction and drawing are not modelled, nor the DOM. Left out in particular: the `hoverYearMarker` plugin, `getCtx` and `wireRangeControls` (cpi_app/static/js/charts.js:47-79, 120-136). The charts are classes holding the arrays that `applyRange` updates.
- The Flask routes and templates of cpi_app/app.py are not modelled. Only the label format the server sends is used (`Charts.Labels`).
- The printing and matplotlib plotting of the stand-alone script (cpi.py:62-158) are left out.
- Argument parsing by `argparse` is left out. The backfill jobs take their already-parsed arguments; only `parse_ym` and the category list are modelled as text.
- Some modules the source imports are not part of this model: `base_data_source`, `isnr_labels`, `construction_price_index`, `production_price_index`, `pipelines.bci`, `cpi_pipeline` and `wage_pipeline`. So are `fetch_wage_data` and `parse_data`, which cpi_app/jobs/fetch_all.py imports from `pipelines.wages` though that module does not define them. Their results are parameters: labels, histories, categories and frames.
- `FORECAST_TOTAL_ONLY` in the producer price and building-cost backfill is fixed to its value `True`. The branch that forecasts every category is not modelled.
- SQLAlchemy session mechanics, `create_all` and the declarative schema are not modelled. The store keeps the unique keys of the actual tables, the runs by id, and the points in insertion order. A transaction is modelled by its effect: the new tables after a commit, the old ones when the job raises. The wage backfill keeps the upserts it has not yet committed as a pending list.
- `.first()` on an unordered query is modelled as the run with the lowest id, the order in which SQLite scans a table by its rowid.
- `created_at` is kept only as the month it falls in. The CPI backfill's 12:00 UTC on the 1st is one fixed time in that month, and runs created without `created_at` have none.
- Concurrency is not modelled: the source has none.
- BackfillPpiBci.Written: its own contract bounds only the number of rows; which rows it writes is stated by `BackfillPpiBci.WrittenSpec`.
- BackfillWages.Kept: its own contract bounds the names and their whitespace; which names are kept is stated by `BackfillWages.KeptFrom` and `BackfillWages.KeptClean`.
- BackfillWages.UpTo: its own contract states only that the history is drawn from the series up to the month; `BackfillWages.UpToMembers` states that it holds every such observation.
- Store.OfRun, Store.WithoutRun, Store.WithoutRuns and Store.OfCategory: their own contracts bound the length and the key of the points; membership in both directions is in `Store.OfRunMembers`, `Store.WithoutRunMembers`, `Store.WithoutRunsMembers` and `Store.OfCategoryFrom`.
- FetchJobs.GroupPoints: its own contract states only the run id; the category and the forecast of each group are in `FetchJobs.GroupPointsOfCategory`.
- Text.Join and Text.Split: their own contracts state only the separator; the round trips are `Text.SplitJoin` and `Text.JoinSplit`.
- BackfillWages.DeleteBackfillRun: deletes the runs `BackfillWages.MatchingRuns` selects, not those the `LIKE` pattern of cpi_app/jobs/backfill_wages.py:43 matches (`BackfillWages.MatchingRunsAsWritten`). When a category name holds `_` or `%`, or differs from another only in ASCII letter case, the source also deletes the other category's run of that month (see "## Findings").
- BackfillWages.AnchorMonth: its overwrite deletes the runs `BackfillWages.MatchingRuns` selects, not those the `LIKE` pattern of cpi_app/jobs/backfill_wages.py:43 matches (`BackfillWages.MatchingRunsAsWritten`). When a category name holds `_` or `%`, or differs from another only in ASCII letter case, the source also deletes the other category's run of that month (see "## Findings").
- BackfillWages.CommitMonth: commits the deletion of the runs `BackfillWages.MatchingRuns` selects, not those the `LIKE` pattern of cpi_app/jobs/backfill_wages.py:43 matches (`BackfillWages.MatchingRunsAsWritten`). When a category name holds `_` or `%`, or differs from another only in ASCII letter case, the source also deletes the other category's run of that month (see "## Findings").
- BackfillWages.CategoryMonths: every month's overwrite deletes the runs `BackfillWages.MatchingRuns` selects, not those the `LIKE` pattern of cpi_app/jobs/backfill_wages.py:43 matches (`BackfillWages.MatchingRunsAsWritten`). When a category name holds `_` or `%`, or differs from another only in ASCII letter case, the source also deletes the other category's run of that month (see "## Findings").
- BackfillWages.RunCategories: every overwrite deletes the runs `BackfillWages.MatchingRuns` selects, not those the `LIKE` pattern of cpi_app/jobs/backfill_wages.py:43 matches (`BackfillWages.MatchingRunsAsWritten`). When a category name holds `_` or `%`, or differs from another only in ASCII letter case, the source also deletes the other category's run of that month (see "## Findings").
- BackfillWages.BackfillWagesMain: every overwrite deletes the runs `BackfillWages.MatchingRuns` selects, not those the `LIKE` pattern of cpi_app/jobs/backfill_wages.py:43 matches (`BackfillWages.MatchingRunsAsWritten`). When a category name holds `_` or `%`, or differs from another only in ASCII letter case, the source also deletes the other category's run of that month (see "## Findings").
- BackfillWages.AnchorStepStores: states the stored change with the runs `BackfillWages.MatchingRuns` selects deleted, not those the `LIKE` pattern of cpi_app/jobs/backfill_wages.py:43 matches (`BackfillWages.MatchingRunsAsWritten`). When a category name holds `_` or `%`, or differs from another only in ASCII letter case, the source also deletes the other category's run of that month (see "## Findings").
- BackfillWages.CommitStores: states the commit with the runs `BackfillWages.MatchingRuns` selects deleted, not those the `LIKE` pattern of cpi_app/jobs/backfill_wages.py:43 matches (`BackfillWages.MatchingRunsAsWritten`). When a category name holds `_` or `%`, or differs from another only in ASCII letter case, the source also deletes the other category's run of that month (see "## Findings").
- BackfillWages.AnchorStep: its overwrite deletes the runs `BackfillWages.MatchingRuns` selects, not those the `LIKE` pattern of cpi_app/jobs/backfill_wages.py:43 matches (`BackfillWages.MatchingRunsAsWritten`). When a category name holds `_` or `%`, or differs from another only in ASCII letter case, the source also deletes the other category's run of that month (see "## Findings").
- BackfillWages.Commit: deletes the runs `BackfillWages.MatchingRuns` selects, not those the `LIKE` pattern of cpi_app/jobs/backfill_wages.py:43 matches (`BackfillWages.MatchingRunsAsWritten`). When a category name holds `_` or `%`, or differs from another only in ASCII letter case, the source also deletes the other category's run of that month (see "## Findings").
- BackfillWages.CategoryPass: every month's overwrite deletes the runs `BackfillWages.MatchingRuns` selects, not those the `LIKE` pattern of cpi_app/jobs/backfill_wages.py:43 matches (`BackfillWages.MatchingRunsAsWritten`). When a category name holds `_` or `%`, or differs from another only in ASCII letter case, the source also deletes the other category's run of that month (see "## Findings").
- BackfillWages.BackfillPass: every overwrite deletes the runs `BackfillWages.MatchingRuns` selects, not those the `LIKE` pattern of cpi_app/jobs/backfill_wages.py:43 matches (`BackfillWages.MatchingRunsAsWritten`). When a category name holds `_` or `%`, or differs from another only in ASCII letter case, the source also deletes the other category's run of that month (see "## Findings").
- The producer price and building-cost backfill imports `BCIActual`, `BCIForecastRun`, `BCIForecastPoint`, `PPIActual`, `PPIForecastRun` and `PPIForecastPoint` (cpi_app/jobs/backfill_ppi_bci.py:6-10), which cpi_app/models.py does not define, so the job as written stops at that import. The `BackfillPpiBci` members model the job as if those tables existed, with the schema the job's queries use.
- The token patterns `Text.IsMonthToken`, `Text.IsCodeToken` and `Text.IsIsnrToken` accept ASCII digits only and require the string to end after the last digit. Python's `re` also matches Unicode decimal digits for `\d` and lets `$` match before one trailing newline; neither is modelled.
- Calendar.Strptime, and with it BackfillWages.ParseYm and BackfillPpiBci.ParseDate: years and months are read from ASCII digits only. Python's `strptime` reads `%Y` and `%m` with `\d`, which also matches Unicode decimal digits ("٢٠٢٤M01" parses), and `int` reads them; such strings are rejected by the model.
- CpiSource.IndexMarkAt, CpiSource.IndexBaseYear and CpiSource.IndexBaseYearIsLeftmost: `index_B` is matched ignoring ASCII case only and its four digits must be ASCII. `re.search(r"index_B(\d{4})", v, re.IGNORECASE)` (cpi_app/scripts/Hagstofan/economy/cpi.py:310) also matches 'İ' and 'ı' for 'i' through Unicode case folding, and Unicode decimal digits; such metadata values are not recognised as index marks by the model.
- FetchJobs.GroupSeries, FetchJobs.SaveWageForecast, FetchJobs.FetchAndStoreWages and FetchJobs.FetchAll: the wage frame is taken to hold one row per (date, category). `sub.set_index("date")["value"]` (cpi_app/fetch_and_store_wages.py:14, cpi_app/jobs/fetch_all.py:44) keeps duplicate dates and `compute_forecast` fits on every row, while the model's group series keeps the last row of each date. The frame's producer is not part of this model.

## Findings

| source | as written | input that shows it | evidently intended | confidence | as-written member | corrected member |
|---|---|---|---|---|---|---|
| cpi_app/jobs/backfill_wages.py:43 | `notes.like(f"backfill:{category}:{anchor_ym}:%")` uses the category inside a SQL `LIKE` pattern, where `_` matches any one character | overwriting category "OPI_R" at 2024-03 also deletes the run stored with notes "backfill:OPI-R:2024-03:linear_reg_24m", which belongs to another category | delete only the runs whose notes start with exactly "backfill:{category}:{YYYY-MM}:" | not executed | BackfillWages.LikeSelectsOtherCategory | BackfillWages.MatchingRunsExact |
| cpi_app/pipelines/cpi.py:196 | `df.sort_values(by=df["mom_pct"].abs().sort_values(ascending=False).index)` passes the row labels 0, 1, ... as `by`, which pandas reads as column names | any table with one row or more: no column is named `0`, so `sort_values` raises `KeyError` | the rows sorted by the magnitude of their month-over-month change, largest first, as line 167 says, then cut by `head(top_k)` | not executed | CpiPipeline.ContributionTable | CpiPipeline.SortedContributionTable |
