# UPI fraud scoring, modelled in Dafny

This project models the fraud-scoring core of a UPI payment simulator. The simulator is a Flask ledger of peer-to-peer transfers. It scores each transfer with a classifier trained on rule-labelled data. The model covers these parts:

- **Training-time encoder** (`preprocess_data`, `suspicious_rule`):
  - it parses the `%d-%m-%Y %H:%M` timestamp into an hour;
  - it replaces the sender, receiver, state and city columns by pandas category codes;
  - it builds the six-column feature matrix in a fixed order;
  - it labels every row with the rule "amount above 50000, or hour 23 or 0..5".
- **Single-row encoder** of the standalone script (`prepare_single_transaction`). It builds the same six features but buckets identifiers as `abs(hash(x)) % N`.
- **Batch prediction** (`predict_new`). It loads the artifact, encodes the batch, classifies it, maps classes 0 and 1 to `NOT_SUSPICIOUS` and `SUSPICIOUS`, and keeps five columns.
- **Scoring service** (`FraudDetectionService`):
  - the model is lazily loaded and then cached forever;
  - `check_transaction_fraud` writes a one-row frame for a ledger transaction and predicts on it;
  - it answers `{is_suspicious, score}`.
- **Ledger record** (`Transaction`):
  - its column widths, its `Numeric(10, 2)` amount and the `amount_range` check constraint;
  - `to_dict`, with its ISO timestamp.
- **Request validation** of `create_transaction`:
  - required fields, in order;
  - the amount's format and range;
  - the id derived from a UUID.

Everything outside the program is a parameter:

- The file system is a map from path to artifact (`ModelStore.Disk`).
- A fitted classifier is an arbitrary function from feature matrix to classes (`ModelStore.Classifier`). Nothing is assumed about it.
- Python's per-process string hash is a function `string -> int`.
- `float()` on a string is a function `string -> Option<real>`.
- A fresh UUID is its 36-character text.

Modules follow the source files:

| module | models |
|---|---|
| `Timestamp` | the text formats shared by the training data, the service and the JSON responses |
| `StringOrder` and `Categories` | pandas category codes |
| `Preprocess` | `preprocess_data` and `suspicious_rule` |
| `ModelStore` | `load_model` |
| `Predict` | `predict_new` |
| `SingleRow` | `run_single_test.py` |
| `Transactions` | the `transactions` table |
| `TransactionRoute` | the validation half of `create_transaction` |
| `FraudService` | the service class |

Category codes are specified as ranks: the code of a value is the number of distinct values in the column that sort before it. `Categories.SortedDistinct` is an independent reference for the same thing: the sorted list of categories, as pandas builds it. `Categories.CodeIsSortedIndex` ties the two together.

## Model

| member | source | states |
|---|---|---|
| Preprocess.SuspiciousRule | models/fraud_detection/preprocess.py:24-34 | the label is 0 or 1, and any amount above 50000 is labelled 1 |
| Preprocess.RuleByHour | models/fraud_detection/preprocess.py:27-34 | up to 50000 the label is 1 exactly for hours 23 and 0..5, and 0 exactly for hours 6..22 |
| Preprocess.RuleBoundary | models/fraud_detection/preprocess.py:27 | the amount threshold is strict: 50000 at 14:00 gives 0, 50000.01 gives 1 |
| Preprocess.HourColumn | models/fraud_detection/preprocess.py:7 | the column parses iff every entry parses; each hour is the parsed hour and lies in 0..23 |
| Preprocess.PreprocessData | models/fraud_detection/preprocess.py:3-22 | an error iff some timestamp does not parse; otherwise X and y have one entry per row, the frame holds the input rows (the derived columns live in X and y), each X row holds the amount, the parsed hour and the four category codes of that row, each code is below its column's category count, and y is the rule label of each row |
| Preprocess.EncodeRows | models/fraud_detection/preprocess.py:10-16 | X row i is the amount, the hour and the four category codes of row i, each within the column's category count |
| Preprocess.Labels | models/fraud_detection/preprocess.py:19-20 | y has one rule label per row of X |
| Preprocess.EncodingDeterministic | models/fraud_detection/preprocess.py:10-19 | two equal rows of one batch get equal features and equal labels |
| Preprocess.SenderCodesOrdered | models/fraud_detection/preprocess.py:10 | sender codes are equal iff the sender ids are equal, and a smaller id gets a smaller code |
| Preprocess.SingleRowBatch | models/fraud_detection/preprocess.py:10-13 | a one-row batch codes all four categorical columns as 0 |
| Categories.Code | models/fraud_detection/preprocess.py:10-13 | the code of a value is the number of the column's distinct values that sort before it: at most the category count, and 0 exactly for a value nothing in the column sorts before |
| Categories.CategoryCodes | models/fraud_detection/preprocess.py:10-13 | one code per entry, each below the number of categories; codes are equal iff the values are equal, and they follow string order |
| Categories.CodeBound | models/fraud_detection/preprocess.py:10 | the code of a value of the column is below the number of categories |
| Categories.CodeStrictlyMonotone | models/fraud_detection/preprocess.py:10 | a value that sorts first gets the smaller code |
| Categories.CodeInjective | models/fraud_detection/preprocess.py:10 | two values of a column with the same code are the same value |
| Categories.CodeSingleRow | models/fraud_detection/preprocess.py:10 | a one-entry column has code 0 |
| Categories.SortedDistinct | models/fraud_detection/preprocess.py:10 | the category list is strictly sorted and holds exactly the column's values |
| Categories.SortedDistinctLength | models/fraud_detection/preprocess.py:10 | the category list has one entry per distinct value |
| Categories.CodeIsSortedIndex | models/fraud_detection/preprocess.py:10 | the code of the k-th category is k |
| Categories.CodesDense | models/fraud_detection/preprocess.py:10 | every number below the category count is some entry's code |
| StringOrder.LessTransitive | models/fraud_detection/preprocess.py:10 | the string order that sorts categories is transitive |
| StringOrder.LessTrichotomous | models/fraud_detection/preprocess.py:10 | any two distinct strings are ordered one way or the other |
| Timestamp.ParseTimestamp | models/fraud_detection/preprocess.py:7 | only 16-character text can parse; a parsed time has fields in range and an hour in 0..23 |
| Timestamp.ParseFormatRoundTrip | app/services/fraud_service.py:39 | parsing what `%d-%m-%Y %H:%M` writes gives back the written time |
| Timestamp.FormatParseRoundTrip | models/fraud_detection/preprocess.py:7 | every accepted string is exactly the formatting of what it parses to |
| Timestamp.Strftime | app/services/fraud_service.py:39 | `strftime('%d-%m-%Y %H:%M')` writes 16 characters that parse back to the `datetime` truncated to the minute |
| Timestamp.StrftimeHour | app/services/fraud_service.py:39 | the service's timestamp text parses, and its hour is the transaction's hour |
| Timestamp.PadValue | app/services/fraud_service.py:39 | a zero-padded number reads back as that number |
| Timestamp.ValuePad | models/fraud_detection/preprocess.py:7 | a digit string is the zero-padding of its value |
| Timestamp.IsoFormat | app/models/transactions.py:36 | `isoformat()` writes 19 characters, or 26 when the microseconds are not zero |
| Timestamp.FromIsoFormat | app/models/transactions.py:36 | the reader accepts only 19 or 26 characters, and 26 exactly when the microseconds it reads are not zero |
| Timestamp.IsoFormatRoundTrip | app/models/transactions.py:36 | reading back the ISO text of a `datetime` gives that `datetime` |
| Timestamp.IsoFormatInjective | app/models/transactions.py:36 | two different `datetime`s never share ISO text |
| ModelStore.LoadModel | models/fraud_detection/utils.py:8-11 | not found iff there is no file at the path; corrupt iff the file cannot be loaded; otherwise the classifier stored there |
| Predict.LabelOf | models/fraud_detection/predict.py:9 | class 1 maps to SUSPICIOUS, class 0 to NOT_SUSPICIOUS, and any other class to NaN (`Unmapped`) |
| Predict.Project | models/fraud_detection/predict.py:9-10 | one output row per input row, with its id, amount, sender and receiver, labelled from its class |
| Predict.PredictNew | models/fraud_detection/predict.py:5-10 | a load error or encode error is passed on; success iff the model loads, the batch encodes and the classifier returns one class per row; each output row carries its input row's four columns and the label of its class |
| Predict.PredictNewLoaded | models/fraud_detection/predict.py:8-10 | once loading and encoding succeed, the result is the projection when the class column has one entry per row, and a length error otherwise |
| Predict.OneRowPrediction | models/fraud_detection/predict.py:5-10 | a one-row batch yields one output row labelled with the single predicted class |
| Predict.OneRowClassifierInput | models/fraud_detection/predict.py:7-8 | a one-row batch reaches the classifier as amount, hour and four zeros |
| SingleRow.HashCode | models/transaction-detection/run_single_test.py:10-13 | `abs(hash(x)) % N` lies in 0..N-1 |
| SingleRow.PrepareSingleTransaction | models/transaction-detection/run_single_test.py:5-22 | an error iff the timestamp does not parse; otherwise amount and parsed hour (0..23), identifier codes below 10000, region codes below 1000, in the training column order |
| SingleRow.CodesDependOnIdentifierOnly | models/transaction-detection/run_single_test.py:10-13 | within one process a code depends on the identifier alone, across transactions and across the sender and receiver roles |
| SingleRow.ScriptLabel | models/transaction-detection/run_single_test.py:61 | SUSPICIOUS iff the class is 1, otherwise NOT_SUSPICIOUS |
| SingleRow.ScriptLabelAgreesWithPredict | models/transaction-detection/run_single_test.py:61 | on classes 0 and 1 the script's label is the batch label text; on other classes the script says NOT_SUSPICIOUS where batch prediction gives NaN |
| Transactions.StoredCents | app/models/transactions.py:8 | `Numeric(10, 2)` keeps the whole number of cents nearest the value, a tie going away from zero (so 0.005 keeps 1 cent), never negative for a non-negative value |
| Transactions.AmountRange | app/models/transactions.py:19 | `amount_range`: the amount is above 0 and at most 100000 |
| Transactions.FitsColumns | app/models/transactions.py:7-14 | every string fits its declared width: 50 for the id, 100 for UPI ids and names, 15 for phones |
| Transactions.Admit | app/models/transactions.py:7-19 | an insert succeeds iff the strings fit their columns, the stored amount meets `amount_range` and the id is new; the stored row is the row with its amount rounded to cents |
| Transactions.Insert | app/models/transactions.py:7-19 | a successful insert appends the admitted row and keeps the table invariant (constraint, widths, unique ids) |
| Transactions.ToDict | app/models/transactions.py:25-37 | exactly the nine response keys, each holding its field, with the timestamp as ISO text |
| Transactions.ToDictInjective | app/models/transactions.py:25-37 | two records with the same dictionary are the same record |
| TransactionRoute.AllPresent | app/routes/transaction.py:21-29 | a body with every required field has an amount |
| TransactionRoute.FindMissingField | app/routes/transaction.py:21-29 | nothing is missing iff all seven fields are present; otherwise the answer is the first required field, in list order, that the body lacks |
| TransactionRoute.ToFloat | app/routes/transaction.py:33 | `float()` fails exactly on null, a list, an object or a string the float parser refuses; a number is kept; a boolean becomes 1.0 or 0.0 |
| TransactionRoute.AmountAccepted | app/routes/transaction.py:34 | the route lets an amount through exactly when it is above 0 and at most 100000 |
| TransactionRoute.AmountCheckMatchesConstraint | app/routes/transaction.py:34 | the route's range check accepts exactly the amounts `amount_range` accepts |
| TransactionRoute.AcceptedAmountStored | app/routes/transaction.py:34 | an accepted amount still meets `amount_range` after rounding to cents iff it is at least 0.005 |
| TransactionRoute.TinyAmountViolatesConstraint | app/routes/transaction.py:34 | 0.004 passes the route's check but is stored as 0.00, which `amount_range` refuses |
| TransactionRoute.StatedRangeIsStorable | app/routes/transaction.py:35 | every amount in the range the error text states (1 to 100000) meets `amount_range` once stored |
| TransactionRoute.DeriveId | app/routes/transaction.py:40 | the id has 16 characters, hyphens at 8 and 13 and upper-case hex elsewhere, and lower-cases back to the UUID's first 16 characters |
| TransactionRoute.ValidateCreateRequest | app/routes/transaction.py:21-40 | a 400 naming the first missing field; else a 400 "Invalid amount format" when `float` fails; else a 400 range message when the amount is out of range; else the derived id and an amount within `amount_range` |
| FraudService.ScoringRow | app/services/fraud_service.py:34-42 | the frame row carries the id, amount, sender and receiver, state and city "Unknown", and a timestamp that parses to the transaction's minute |
| FraudService.VerdictOf | app/services/fraud_service.py:57-62 | suspicious iff the class is 1, with score 1.0 exactly when suspicious and 0.0 exactly when not |
| FraudService.ServicePathFeatures | app/services/fraud_service.py:34-51 | the service's row encodes, and the classifier sees amount, hour and four zero codes |
| FraudService.ServicePrediction | app/services/fraud_service.py:51 | for a loadable artifact, batch prediction on the service's row is one row labelled with the single predicted class, or a length error |
| FraudService.FraudDetectionService.constructor | app/services/fraud_service.py:7-9 | the service keeps its model path and holds no model |
| FraudService.FraudDetectionService.LoadModel | app/services/fraud_service.py:11-15 | a held model is kept; otherwise the artifact is loaded when the file exists; a corrupt file raises; the answer is whether a model is held |
| FraudService.FraudDetectionService.CheckTransactionFraud | app/services/fraud_service.py:17-69 | as written: a corrupt artifact on first load raises; no model gives `{False, None}`; a loadable artifact gives the verdict of its single class, or `{False, None}` when the class column has the wrong length |
| FraudService.FraudDetectionService.CheckTransactionFraudFailOpen | app/services/fraud_service.py:17-69 | the fail-open answer the service promises: `{False, None}` whenever no loadable artifact exists, else the verdict of the single predicted class; a held model is kept, and an unloaded service holds the artifact's classifier afterwards exactly when the artifact loads |
| FraudService.ScoreTwice | app/services/fraud_service.py:11-15 | once a model is held, scoring never raises, two calls give the same answer, and the held model is kept |

## Left out

- Training (`train.py`), `save_model`, plotting and the banner helper: these are outside the scoring core.
- joblib deserialisation: an artifact is either a fitted classifier or corrupt.
- The classifier itself: a parameter, with no properties assumed.
- CSV I/O: the model works on already read rows. This covers `pd.read_csv`, the service's temporary file under `/tmp`, its removal, and the file left behind when prediction raises. As a result, the row the service writes is the row prediction reads. This also leaves out an id containing `/`: the temporary path `/tmp/transaction_{id}.csv` (app/services/fraud_service.py:47-48) then names a directory that does not exist, `to_csv` raises, and the source answers `{False, None}` where `FraudService.FraudDetectionService.CheckTransactionFraud` gives the classifier's verdict.
- FraudService.ServicePathFeatures: `read_csv` reads an empty sender or receiver id, or one spelled as a missing-value token such as `NA`, `NaN` or `null`, back as NaN, and pandas codes NaN as -1. The route checks only that those fields are present, so it accepts such ids. For such a transaction the classifier sees -1 in that column, not the 0 the lemma states.
- CSV type inference, missing values and NaN or infinite amounts: amounts are exact reals.
- Float arithmetic: amounts are exact reals, so binary rounding before the cents rounding of `Numeric(10, 2)` is not modelled.
- The database's `Numeric` rounding mode is taken as half away from zero. Storage engines that do not round are not modelled.
- The global `fraud_service` instance, threads, and the order of requests.
- Flask request plumbing, the GET routes, building the record (`app/routes/transaction.py:42-52`), and the commit and rollback: only lines 21-40 of `create_transaction` are modelled.
- `datetime.now()` and `datetime.utcnow()`: the clock is not modelled, and a timestamp is a parameter.
- A request body that is not a JSON object: `request.get_json()` failing and `field in data` on a list or a scalar are not modelled. The body is a map from key to JSON value.
- `float()` on strings is a parameter. Python's float grammar is not modelled.
- TransactionRoute.ToFloat: keeps every JSON number. A JSON integer too large for a float makes `float()` raise OverflowError, which the `except (ValueError, TypeError)` at app/routes/transaction.py:36 does not catch, so the request fails with a 500. `TransactionRoute.ValidateCreateRequest` answers with the 400 range message instead.
- Timestamp.ParseTimestamp: accepts only zero-padded two-digit day, month, hour and minute and a four-digit year. The real parser also accepts one-digit fields and rejects days past the end of the month. It also accepts more whitespace than the model does: any run of whitespace where the format has its single space (`"01-09-2025  02:45"`), and a space-padded day (`" 1-09-2025 02:45"`). It also reads `""`, `"NaT"`, `"nat"` and `"nan"` as NaT instead of raising. So `SingleRow.PrepareSingleTransaction` answers Err for `""`, where the scalar call at models/transaction-detection/run_single_test.py:7 returns a row whose Hour is NaN.
- Timestamp.ParseTimestamp: accepts any year from 1 to 9999. With pandas' nanosecond `datetime64`, `pd.to_datetime` (models/fraud_detection/preprocess.py:7) raises OutOfBoundsDatetime for times outside 1677-09-21 to 2262-04-11. So `Preprocess.PreprocessData` answers Ok on such rows where the source raises. On the service path the source catches that error and answers `{False, None}`, where `FraudService.FraudDetectionService.CheckTransactionFraud` gives the classifier's verdict.
- Timestamp.Strftime: pads years below 1000 to four digits. The platform's `strftime` may not do so.
- Timestamp.DateTime: does not reject days past the end of a month.
- Preprocess.PreprocessData: the batch's `frame` is the rows as read. The source's `df` also carries the Hour, code and Label columns added at models/fraud_detection/preprocess.py:7-19. Here those values live in X and y. Batch prediction projects away everything else, so its result is unaffected.
- TransactionRoute.DeriveId: upper-cases ASCII only. This is enough for UUID text, which is ASCII hex.
- SingleRow: the script's `__main__` block (its sample transactions and printing) is not modelled. Only the label expression at line 61 is.

## Findings

| source | as written | input that shows it | evidently intended | confidence | as-written member | corrected member |
|---|---|---|---|---|---|---|
| app/services/fraud_service.py:27 | `load_model()` runs before the `try`, so a model file that exists but cannot be deserialised raises out of `check_transaction_fraud` | first call with a corrupt artifact at the model path | every failure gives `{'is_suspicious': False, 'score': None}` | not executed | FraudService.FraudDetectionService.CheckTransactionFraud | FraudService.FraudDetectionService.CheckTransactionFraudFailOpen |
| app/routes/transaction.py:34 | the route accepts any amount above 0, but the `Numeric(10, 2)` column rounds to cents, so an accepted amount can violate `amount_range` | amount 0.004: accepted, stored as 0.00, refused by the constraint at commit | the range the error message states, 1 to 100000 rupees, which always survives storage | not executed | TransactionRoute.TinyAmountViolatesConstraint | TransactionRoute.StatedRangeIsStorable |
