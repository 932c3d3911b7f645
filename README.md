# Flight delay model and prediction endpoint, in Dafny

This project models the core of a service that predicts whether a flight
will be delayed by more than 15 minutes.

- `DelayModel` (challenge/model.py) derives features from a flight table:
  - the period of the day;
  - the high-season flag;
  - the minute difference between actual and scheduled departure;
  - the 0/1 delay label.

  It one-hot encodes airline (`OPERA`), flight type (`TIPOVUELO`) and month
  (`MES`), then keeps ten fixed columns. It computes balanced class weights,
  and it trains lazily on a reference data set when `predict` is called
  before `fit`.
- The `/predict` endpoint (challenge/api.py) validates each flight, rejects
  a whole batch when any flight is invalid, and converts the flights to
  rows with a fixed departure date. It maps a `ValueError` to status 400
  and any other exception to status 500.

Modules:

- `Wrappers`: `Option`, `Result` and Python exceptions as a kind plus a message.
- `Calendar`: timestamps as structured fields, the absolute instant
  `datetime` subtraction measures, and the proof that instant order is
  field-by-field order.
- `Features`: `_get_period_day` and `_is_high_season`.
- `Delay`: `_get_min_diff` and the `> 15` delay threshold.
- `Encoding`: tables and rows, `str` of an integer, dummy columns, the ten
  selected features, the order in which `preprocess` raises, and the
  processed columns and target.
- `Model`: class weights, the classifier as a black box, and the class
  `DelayModel` with its mutable `estimator` field (`_model` in the source).
- `Api`: the validators, whole-request validation, the conversion of
  flights to rows, and the mapping of outcomes to status and body.

Some behaviours of the code worth knowing:

- `OPERA` is checked against no vocabulary: any airline is accepted,
  including the empty name, and an unknown one sets no `OPERA_` feature;
- every validation failure gets the same fixed body, whichever field failed;
- insufficient training data and a malformed table raise no error of their
  own: they surface as whatever Python exception the code meets first;
- a 500 response carries the exception message after
  "Internal server error: ".

## Model

| member | source | states |
|---|---|---|
| Calendar.InstantOrder | challenge/model.py:154-157 | For well-formed timestamps, the instant order used by `datetime` comparison is exactly the field-by-field order, and equal instants mean equal timestamps |
| Calendar.PrecedesEarlier | challenge/model.py:154-157 | A timestamp that comes first field by field has a strictly smaller instant |
| Calendar.DaysBeforeYearGrows | challenge/model.py:166 | Every day of an earlier year comes before the first day of a later year (proleptic Gregorian) |
| Calendar.DaysBeforeYearStep | challenge/model.py:166 | Consecutive years are one year length apart, including leap years |
| Calendar.MonthsFollow | challenge/model.py:166 | Every day of an earlier month comes before the first day of a later month of the same year |
| Calendar.DayOfYearBounds | challenge/model.py:166 | The day of the year of a well-formed date lies within that year's length |
| Features.PeriodDayRanges | challenge/model.py:122-139 | 'mañana' is exactly the seconds of day from 05:00 to 11:59, 'tarde' from 12:00 to 18:59, 'noche' from 19:00 to 23:59 and from 00:00 to 04:59, each bound being second 0 of its minute |
| Features.PeriodDayGap | challenge/model.py:122-139 | `_get_period_day` returns nothing exactly for times past second 0 of minutes 04:59, 11:59, 18:59 and 23:59 (e.g. 11:59:30) |
| Features.PeriodDayByHour | challenge/model.py:122-139 | Outside those gaps (including every whole-minute time) there is exactly one period: 'mañana' for hours 5-11, 'tarde' for 12-18, 'noche' otherwise |
| Features.IsHighSeason | challenge/model.py:141-160 | The flag is 0 or 1 |
| Features.HighSeasonByDate | challenge/model.py:145-160 | The flag is 1 exactly in the closed windows 15 Dec to 31 Dec 00:00, 1 Jan to 3 Mar 00:00, 15 Jul to 31 Jul 00:00 and 11 Sep to 30 Sep 00:00 of the date's own year |
| Features.WithinByFields | challenge/model.py:154-157 | A window test on instants is the same as a test by fields |
| Delay.MinDiff | challenge/model.py:162-167 | Sixty times the minute difference is the difference of the two instants in seconds |
| Delay.MinDiffSign | challenge/model.py:162-167 | The minute difference is positive exactly when the actual time is later, and zero exactly when the times coincide |
| Delay.DelayLabel | challenge/model.py:39 | The label is 1 exactly when the minute difference exceeds 15, else 0 |
| Delay.DelayThreshold | challenge/model.py:39 | A flight is delayed exactly when it left more than 900 seconds late, so exactly 15 minutes is on time |
| Delay.DelayAcrossMidnight | challenge/model.py:39 | 23:50 to 00:10 the next day is a delay, and 23:50 to 00:05 (exactly 15 minutes) is not |
| Encoding.NatDecimal | challenge/model.py:45 | The decimal text of a natural number is non-empty and has no sign |
| Encoding.NatDecimalInjective | challenge/model.py:45 | Distinct natural numbers have distinct decimal texts |
| Encoding.DecimalInjective | challenge/model.py:45 | Distinct months give distinct `MES_` column names |
| Encoding.MonthNames | challenge/model.py:50-61 | The months 4, 7, 10, 11 and 12 print as the suffixes the selected columns use |
| Encoding.Top10Named | challenge/model.py:50-61 | The ten selected column names are the dummy names of `Top10Categories`, in source order: four airlines, five months and flight type 'I', interleaved as `top_10_features` lists them |
| Encoding.PrefixCancel | challenge/model.py:43-45 | Two dummy names with the same prefix are equal exactly when the values are |
| Encoding.CellMeaning | challenge/model.py:42-47 | A dummy cell is 1 exactly when the row has that column's airline, flight type or month |
| Encoding.EncodeRow | challenge/model.py:69 | A feature row has exactly ten cells |
| Encoding.Encode | challenge/model.py:69 | There is one feature row per input row |
| Encoding.EncodedMeaning | challenge/model.py:42-69 | Each of the ten cells of a row is 1 exactly when the row has that column's category, else 0 |
| Encoding.AtMostOneAirlineAndMonth | challenge/model.py:42-69 | A row sets at most one `OPERA_` column and at most one `MES_` column |
| Encoding.UnknownAirlineIsZero | challenge/model.py:42-69 | An airline other than the four selected ones sets no `OPERA_` column |
| Encoding.Dummies | challenge/model.py:43-45 | `get_dummies` has a column exactly for each value present, named prefix plus value, so no column for an absent value; each column has one cell per row, 1 exactly on the rows with that value, and at least one 1 |
| Encoding.DummyIsCellColumn | challenge/model.py:43-45 | A dummy column of one field holds the one-hot cells of its name |
| Encoding.WideCells | challenge/model.py:42-47 | Every column of the concatenated dummies (`Wide`) holds the one-hot cells of its name |
| Encoding.WideColumns | challenge/model.py:42-66 | The concatenated dummies hold the one-hot cells of their names, and every name they lack has only zero cells, so filling it with 0 is exact |
| Encoding.AbsentCategoryIsZero | challenge/model.py:64-66 | A category no row of the batch has gets no dummy column, and its cells are all 0 |
| Encoding.FirstParseError | challenge/model.py:33 | No date of the column fails to parse exactly when every cell is present and well formed; otherwise the error is that of the first cell that fails |
| Encoding.FirstYearError | challenge/model.py:143-152 | The window bounds parse exactly when every date's year has four digits; otherwise a `ValueError` is raised, the one of the first date whose year does not |
| Encoding.PreprocessError | challenge/model.py:30-47 | When `preprocess` raises nothing, the four input columns exist; a missing `Fecha-I` column is reported first; what it raises is a KeyError, TypeError or ValueError |
| Encoding.PreprocessSucceeds | challenge/model.py:30-47 | `preprocess` raises nothing exactly when the four input columns exist, every `Fecha-I` is present, parses and has a four-digit year, and every `Fecha-O` parses when that column exists |
| Encoding.DatesParse | challenge/model.py:33-39 | When preprocessing does not raise, every `Fecha-I` (and every `Fecha-O` when that column exists) is present and well formed |
| Encoding.DelayTarget | challenge/model.py:37-39 | The `delay` column exists exactly when `Fecha-O` does, and then holds one 0/1 label per row, 1 exactly when the flight left more than 900 seconds late |
| Encoding.ProcessedColumns | challenge/model.py:30-39 | The processed table keeps the input's columns, always adds `period_day` and `high_season`, and adds `min_diff` and `delay` exactly when `Fecha-O` exists |
| Encoding.ProcessedColumn | challenge/model.py:30-39 | Every processed column has one cell per input row; `MES`, `high_season` and `delay` are integer columns, the last two holding only 0 and 1 |
| Encoding.TargetOf | challenge/model.py:71-75 | A target comes back exactly when a non-empty name is given and the processed table has that column, and it is that column, one cell per row |
| Model.Occurrences | challenge/model.py:90-91 | A count never exceeds the length |
| Model.CountEqual | challenge/model.py:90-91 | A label count never exceeds the column length |
| Model.ClassWeights | challenge/model.py:89-96 | An empty target raises ZeroDivisionError; otherwise class 1 weighs count(0)/n and class 0 weighs count(1)/n |
| Model.BinaryOccurrences | challenge/model.py:90-91 | On 0/1 labels the two counts add up to the number of labels |
| Model.WeightsBalance | challenge/model.py:89-96 | On non-empty 0/1 labels the two weights sum to 1, and the rarer class gets the larger weight |
| Model.TrainingData | challenge/model.py:113-117 | Lazy training data exists only when the reference set was read and preprocesses without error |
| Model.LazyTrainingLabels | challenge/model.py:113-117 | Lazy training gets one 0/1 label per reference row and one feature row per label, with balanced weights unless the set is empty |
| Model.OneHotColumns | challenge/model.py:42-66 | After the dummies and the fill loop, the columns are exactly the dummy columns plus the ten selected names, and every column holds the one-hot cells of its name |
| Model.FillMissing | challenge/model.py:64-66 | The loop keeps every existing column and adds exactly the missing selected names, nothing else, and every column still holds the cells of its name |
| Model.SelectTop10 | challenge/model.py:69 | Projecting onto the selected names gives exactly the encoded rows, in order |
| Model.DelayModel.constructor | challenge/model.py:9-10 | A new model has no estimator |
| Model.DelayModel.AddDerivedColumns | challenge/model.py:30-39 | The processed copy has the input's columns plus `period_day` and `high_season`, plus `min_diff` and `delay` exactly when `Fecha-O` is present, each holding its derived values |
| Model.DelayModel.Preprocess | challenge/model.py:12-75 | Preprocessing raises exactly the first error of the table, in reading order; otherwise it returns the ten selected columns in order with one encoded row per input row, and the target exactly when a non-empty target name is a processed column |
| Model.DelayModel.AfterFit | challenge/model.py:89-98 | An empty target raises ZeroDivisionError and leaves the previous estimator; otherwise the new estimator carries the class weights, what is raised is exactly the classifier's refusal, a refusal leaves that estimator unfitted, and no refusal leaves it fitted on the data |
| Model.DelayModel.Fit | challenge/model.py:77-98 | The new estimator and the raised exception are those that `AfterFit` states |
| Model.DelayModel.Classify | challenge/model.py:119-120 | An estimator whose `fit` was refused raises the classifier's `unfitted` exception, then an empty table raises the empty-input error; otherwise there is one 0/1 label per row, in row order, each the classifier's decision for that row |
| Model.DelayModel.Predict | challenge/model.py:100-120 | A set estimator is not retrained and labels the rows; an unset one is trained first on the reference data, and any read, preprocess, unpack or fit error is returned; a success leaves a fitted estimator and one label per row |
| Model.PredictTwice | challenge/model.py:100-120 | After a successful `predict`, a second call gives the same labels |
| Api.ValidateMes | challenge/api.py:35-39 | `MES` is accepted exactly in 1..12, and returned unchanged |
| Api.ValidateTipoVuelo | challenge/api.py:41-45 | `TIPOVUELO` is accepted exactly when it is "I" or "N", and returned unchanged |
| Api.ValidateRequest | challenge/api.py:47-48 | An accepted request carries its flights unchanged; a rejected one carries at least one error |
| Api.ValidateRequestAccepts | challenge/api.py:30-48 | A request is accepted exactly when every flight is valid, and then its flights are unchanged; one invalid flight rejects the whole batch |
| Api.ExceptionResponse | challenge/api.py:81-84 | A `ValueError` gives 400 with its message; any other exception gives 500 with "Internal server error: " and the message |
| Api.RequestRows | challenge/api.py:60-71 | There is one request row per flight |
| Api.DummyFechaIFeatures | challenge/api.py:71 | The fixed date 2017-01-01 12:00:00 parses, falls in the 'tarde' period and is in high season |
| Api.FlightsToTable | challenge/api.py:60-71 | One row per flight in request order, with `OPERA`, `TIPOVUELO` and `MES` copied and the fixed `Fecha-I`; an empty request gives a table with only the `Fecha-I` column |
| Api.RequestTablePreprocess | challenge/api.py:60-74 | A non-empty request table preprocesses without error; an empty one raises KeyError 'OPERA' |
| Api.PredictResponse | challenge/api.py:74-84 | Status 200 with the predictions exactly when prediction succeeded |
| Api.Outcome | challenge/api.py:56-84 | The status is 200, 400 or 500; an empty request gives 500 "Internal server error: 'OPERA'" and keeps the estimator; a 200 carries one prediction per flight and leaves a fitted estimator; a non-200 is the response to some exception; a set estimator is kept |
| Api.PostPredict | challenge/api.py:56-84 | The status is 200, 400 or 500; an empty request gives 500 "Internal server error: 'OPERA'" and leaves the model alone; a 200 carries one prediction per flight and leaves a fitted model; a non-200 is the response to some exception; with a set estimator the answer is the classifier's labels for the encoded request rows; the new estimator and the answer are exactly `Outcome`'s, so an unset estimator is first trained on the reference data and a read, preprocess, unpack or fit error there is the answer |
| Api.Handle | challenge/api.py:12-17 | Any invalid flight gives 400 "Validation error" and leaves the model alone; a request whose flights are all valid gets exactly `Outcome`'s answer and new estimator; a 200 response means every flight was valid and carries one prediction per flight |

## Left out

- Reading `data/data.csv` (challenge/model.py:115) is file I/O: the reference data set is a parameter of `Predict`, either a table or the exception reading it raised.
- The training at import time (challenge/api.py:19-28) is the same preprocess and fit behind a print-and-continue wrapper; the model starts from whatever state the caller's `DelayModel` is in.
- `LogisticRegression` is a black box. `Classifier.refusal` stands for whatever its `fit` raises (for example on a single-class target). `Classifier.unfitted` stands for what its `predict` raises after such a refused `fit`: a NotFittedError (a ValueError, so 400) or, when the refused `fit` had already set attributes such as `classes_`, an AttributeError for the missing `coef_` (so 500). `Classifier.decide` stands for the label its `predict` gives a row. Only the empty-input refusal is modelled by name.
- FastAPI routing, `async`, `JSONResponse`, `HTTPException` objects and the `/health` endpoint (challenge/api.py:50-54) are framework glue; only the status code and body are modelled.
- Pydantic's type coercion (a `MES` sent as text, a missing field) and the text of its error list are not modelled: any validation failure gives the same fixed body, which is all the handler returns.
- Concurrency: requests that race on the shared module-level model are not modelled.
- Floating point: `min_diff` is an exact real and class weights are pairs of counts, so rounding is not modelled.
- Encoding.StrptimeError: the exact texts of `strptime` messages are simplified (a malformed date's message omits the offending text); the kind of exception, which decides the status code, is kept.
- Model.DelayModel.Preprocess: a table carries only the five columns the core reads; a target name naming any other column of the input is treated as absent.
- Model.DelayModel.Preprocess: tables are values, so the copy at challenge/model.py:30 and the in-place column assignments at challenge/model.py:33-39 and challenge/api.py:71 cannot alias the caller's table; that the input stays unchanged holds by construction rather than being proved.
- A date cell is a parsed timestamp, missing (`NaN`, on which `strptime` raises TypeError), or text `strptime` rejects (a timestamp that is not well formed, on which it raises ValueError); the year extraction by `split('-')` (challenge/model.py:143) on the raw text is not modelled separately from parsing.
- Missing `OPERA`, `TIPOVUELO` or `MES` cells are not modelled: a row always has all three. In pandas a `NaN` in `MES` makes the column float, so its dummies are named like `MES_7.0`, and then every selected `MES_` feature is 0 for every row.
- Model.TrainingData: an empty reference set with a `Fecha-O` column is modelled as an empty target, which `fit` refuses with ZeroDivisionError, so the endpoint answers 500. The code differs: pandas' row-wise `apply` over a frame with no rows returns a copy of the frame rather than a column, assigning it to `min_diff` (challenge/model.py:38) raises ValueError, and the endpoint answers 400.
- The `period_day` and `high_season` columns are computed into the processed table but never reach the selected features, as in the source.
