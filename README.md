# WealthPath prediction core in Dafny

This project models `FinanceAI` from `src/ml_engine.py`, the analysis engine of the WealthPath
personal-finance dashboard. The engine offers four operations over a table of bank transactions:

- **Training.** `train_categorizer` trains a description-to-category classifier from the rows
  that carry a category. It refuses an empty table, and it refuses fewer than ten labelled rows.
  On success it replaces the model held in the object and the model file on disk.
- **Category fill-in.** `predict_categories` fills in, in place, the category of every row whose
  category is missing, empty or `"Misc"`, and sets `is_predicted` to 1 on those rows. Before
  that it loads the model file when no model is in memory. With no model anywhere it leaves the
  table unchanged.
- **Balance forecast.** `forecast_balance` groups amounts by date and takes their running sum to
  get the historical daily balance. It fits a regressor on calendar features of those days, then
  queries it for the `days_forward` days after the last historical date.
- **Anomaly filter.** `detect_anomalies` reports, in table order, the outflows that lie more than
  2.5 sample standard deviations from the mean amount of their category.

The model has four modules:

- `Transactions` (`transactions.dfy`) holds the row record and the sums over rows. A row is
  `Row(date, description, amount, category, isPredicted)`. Dates are proleptic Gregorian day
  ordinals, amounts are `real`s, and a missing category is `None`.
- `Categorizer` (`categorizer.dfy`) holds the stateful part. `FinanceAI` is a class whose
  `categoryModel` field is updated in place. `ModelFile` is a class standing for the pickle at
  `MODEL_PATH`; two engines over the same `ModelFile` share the persisted model. The caller's
  table is an `array<Row>`, and prediction overwrites the masked cells in one simultaneous
  `forall` update, as `df.loc[mask, ...] = ...` does.
- `Forecast` (`forecast.dfy`) is the pure group-by / sort / cumulative-sum pipeline and the
  construction of the future dates. It is written as functions and lemmas.
- `Anomalies` (`anomalies.dfy`) holds the per-category statistics as functions. The row loop
  is a method, proved against a reference definition of "flagged".

The machine-learning library calls are uninterpreted:

- Fitting is deterministic (`random_state=42`). So a fitted classifier is `Fitted(sample)` and a
  fitted regressor is `FittedRegressor(samples)`, each determined by its training data.
- What a fitted model predicts is a function parameter: `classify: (Classifier, string) -> string`
  and `predict: (Regressor, Features) -> real`.
- The month of a date ordinal is a parameter, `monthOf`. The day of the week is computed:
  `(ordinal + 6) % 7`, Monday = 0, which is what Python's `weekday()` gives.

The source's test `|amount - mean| / std > 2.5` is modelled without square roots. The model
tests `variance > 0` and `(amount - mean)^2 > 6.25 * variance`. `Anomalies.ZScoreAsSquares`
proves this is the same test for `std = sqrt(variance)`. A category with one row has an
undefined (NaN) standard deviation in pandas, so its `Stats.variance` is `None` and it is never
flagged. Rows with a missing category form no group, so they are never flagged either.

Edge cases the model takes from the code:

- Training counts every row whose category is not missing, so empty and `"Misc"` labels count
  towards the threshold of ten and enter the training sample (src/ml_engine.py:24-27).
- The forecast horizon must be positive. With `days_forward` of zero or less the list of future
  dates is empty, and building the feature frame from it raises (src/ml_engine.py:92-96).
- In the ten-plus-one anomaly test (tests/test_core.py:6-20) the category mean is exactly -100
  and the sample variance 89100, so only the 1000 outflow lies beyond 2.5 standard deviations.

## Model

| member | source | states |
|---|---|---|
| `Transactions.MaxDate` | src/ml_engine.py:91 | the latest date of a non-empty table: no row is later and some row has it |
| `Categorizer.LabeledCount` | src/ml_engine.py:23-27 | the training sample holds exactly one example per row whose category is not missing (empty and "Misc" included): its length is the number of such positions |
| `Categorizer.LabeledMembers` | src/ml_engine.py:23-27 | an example is in the training sample exactly when some row with a category has that description and that label |
| `Categorizer.ThreeLabeledRowsAreTooFew` | tests/test_core.py:22-32 | the three-row table of the test has three labelled positions, fewer than the threshold of ten, so training refuses it |
| `Categorizer.FinanceAI.constructor` | src/ml_engine.py:12-13 | a new engine holds no model and uses the given model file |
| `Categorizer.ModelFile.constructor` | src/ml_engine.py:9 | the model file starts absent |
| `Categorizer.FinanceAI.TrainCategorizer` | src/ml_engine.py:16-39 | an empty table or one without a category column gives "Not enough data to train."; fewer than ten labelled rows gives "Need at least 10 categorized transactions to train."; otherwise "Model trained successfully."; on success both the held model and the model file become the model fitted on the labelled sample, and on refusal both are unchanged |
| `Categorizer.FinanceAI.PredictCategories` | src/ml_engine.py:41-61 | a held model is kept; otherwise the model file's model is loaded and kept; with no model the table is unchanged; with one the table becomes FillCategories of the old table |
| `Categorizer.FillCategoriesSpec` | src/ml_engine.py:52-59 | prediction keeps the row count and order, and every date, description and amount; each masked row (category missing, "" or "Misc") gets the model's category for its description and flag 1; every other row is left exactly as it was |
| `Categorizer.FillCategoriesIdempotent` | src/ml_engine.py:52-59 | if the model never answers "" or "Misc", no row is left to predict after one pass, and a second pass changes nothing |
| `Categorizer.TrainThenPredictInNewSession` | src/ml_engine.py:35-48 | after one engine trains on at least ten labelled rows, the model file holds that model, and a fresh engine over the same file fills the table with exactly that model without retraining |
| `Forecast.AddToDay` | src/ml_engine.py:72-73 | adding a transaction to the grouped frame keeps it strictly ascending by date and adds its date to the date set |
| `Forecast.AddToDayAmount` | src/ml_engine.py:72-73 | adding a transaction adds its amount to its own date's total and to no other date's |
| `Forecast.DailyTotals` | src/ml_engine.py:72-73 | the grouped frame is strictly ascending by date and its dates are exactly the table's dates |
| `Forecast.DailyTotalsAmount` | src/ml_engine.py:72-73 | the amount the grouped frame records for each date is the sum of the table's amounts on that date |
| `Forecast.DailyTotalsGrouped` | src/ml_engine.py:72-73 | each row of the grouped frame holds the sum of all amounts on its own date |
| `Forecast.Cumulate` | src/ml_engine.py:76 | the cumulative sum has one entry per day, with the same dates in the same order |
| `Forecast.CumulateIsPrefixTotal` | src/ml_engine.py:76 | entry i of the cumulative sum is the opening value plus the sum of the first i+1 daily amounts |
| `Forecast.HistoricalSeries` | src/ml_engine.py:72-76 | the historical series has one entry per distinct date, dates strictly ascending and drawn from the table, and each balance is the sum of every amount dated on or before that entry |
| `Forecast.HistoryEndsAtMaxDate` | src/ml_engine.py:72-91 | for a non-empty table the series is non-empty; its last entry is dated at the latest transaction date, and its balance is the total of all amounts |
| `Forecast.DayOfWeek` | src/ml_engine.py:96 | the day of week lies in 0..6 |
| `Forecast.DayOfWeekCycle` | src/ml_engine.py:96 | consecutive ordinals are consecutive weekdays, the week has period 7, and 1 January 2024 is a Monday (0) |
| `Forecast.FittedOnHistory` | src/ml_engine.py:70-88 | the regressor of a table is fitted on one sample per distinct transaction date, ordinals strictly ascending and drawn from the table; each sample's features are the date's ordinal, weekday and month, and its target is the sum of all amounts dated on or before that date |
| `Forecast.ForecastBalance` | src/ml_engine.py:63-102 | for a positive horizon, the result is None exactly for an empty table; otherwise it has days_forward rows dated latest+1, latest+2, … (one day apart), where latest is the latest transaction date; each prediction is the regressor fitted on the history, queried at that date's features |
| `Forecast.DefaultForecastSpan` | src/ml_engine.py:63-92 | at the default horizon of 30 days, the forecast of a non-empty table runs from the day after the latest transaction date to the thirtieth day after it |
| `Anomalies.Categories` | src/ml_engine.py:112 | every group of the statistics frame has at least one amount |
| `Anomalies.CategoryStats` | src/ml_engine.py:112 | the statistics frame has an entry for a category exactly when some row carries that category (missing categories form no group), and an entry's standard deviation is undefined (NaN) exactly when its category has a single amount |
| `Anomalies.DetectAnomalies` | src/ml_engine.py:104-126 | the row loop returns exactly the flagged rows of the table, in table order |
| `Anomalies.StatsMatchFlagged` | src/ml_engine.py:114-123 | the loop's test through the statistics frame agrees with the reference definition, in both directions: the category has statistics, the row is an outflow, the variance is defined and positive, and the squared deviation exceeds 6.25 variances |
| `Anomalies.SelectMembership` | src/ml_engine.py:114-124 | a row is selected exactly when it occurs in the scanned part and is flagged against the whole table |
| `Anomalies.SelectAppend` | src/ml_engine.py:114-124 | filtering a concatenation filters each part and concatenates, so the filter keeps input order |
| `Anomalies.AnomaliesSpec` | src/ml_engine.py:108-126 | a row is an anomaly exactly when it is a flagged row of the table; every anomaly is an outflow; the anomalies of any prefix come before those of the matching suffix; an empty table has none |
| `Anomalies.NoSpreadNoAnomaly` | src/ml_engine.py:121 | a category whose rows all have the same amount (a single row included) never yields an anomaly |
| `Anomalies.ZScoreAsSquares` | src/ml_engine.py:121-123 | for std ≥ 0: std > 0 and abs(amount − mean) / std > 2.5 hold exactly when the variance std² is positive and (amount − mean)² > 6.25·std², the test the model uses |
| `Anomalies.TenSmallOneLarge` | tests/test_core.py:6-20 | ten outflows of 10 and one of 1000 in one category give exactly one anomaly, the 1000 outflow |

## Left out

- The fitting and prediction of the TF-IDF vectoriser, the random-forest classifier and the regressor are library calls. Fitted models are values determined by their training data, and their predictions are function parameters.
- `joblib.dump` and `joblib.load` are modelled as writes and reads of the `ModelFile` object. Failures of the file system and unreadable pickles are not modelled.
- The `vectorizer` field is set to `None` in the constructor and never used again, so it is not modelled.
- `Forecast.ForecastBalance` requires a positive `days_forward`: with zero or a negative horizon the source raises while building the feature frame of the empty list of future dates (src/ml_engine.py:92-100), and the model does not describe that failure.
- The month of a date comes from pandas' calendar and is the parameter `monthOf`. Dates are whole-day ordinals. Timestamps with a time of day, which `groupby('date')` would keep apart, are not modelled.
- Amounts are mathematical reals. IEEE rounding of sums, means and standard deviations is not modelled. NaN amounts and unparseable dates are not modelled either.
- `Categorizer.FinanceAI.PredictCategories` takes a table in which every row has a category and an `is_predicted` cell. A frame without a `category` or `description` column raises `KeyError` in the source, and the model leaves that out. So does pandas creating a missing `is_predicted` column with NaN in the unmasked rows.
- The `mask.sum() > 0` guard is not written out: updating an empty mask changes nothing. The `df` that `predict_categories` returns is the caller's table itself, so the model updates it in place and returns nothing.
- `Categorizer.FinanceAI.TrainCategorizer` and `Categorizer.FinanceAI.PredictCategories` take every description to be a string. A missing (NaN) description among the labelled rows, or a sample whose descriptions yield no TF-IDF term (an empty vocabulary), makes `pipeline.fit` raise at src/ml_engine.py:34 and leaves the held model and the model file unchanged; a missing description in a masked row makes `predict` raise at src/ml_engine.py:57. The model promises training and prediction in those cases instead.
- `Categorizer.FinanceAI.TrainCategorizer` models a missing `category` column as a flag beside the rows. A missing `description` column, which raises in `fit`, is not modelled.
- `detect_anomalies` returns a Python list on empty input and a DataFrame otherwise. Both are modelled as a sequence of rows; DataFrame index labels are not kept.
- The Streamlit pages (`app.py`), the SQLite store (`src/database.py`), CSV and Excel conversion (`src/utils.py`, `scripts/export_data.py`) and the UI smoke test are outside the engine. The aggregations `app.py` draws on the dashboard and its `len(df) > 10` forecast gate are not modelled.
