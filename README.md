# Customer segmentation: scoring and prediction log

A Dafny model of the scoring-and-logging block of the customer segmentation
app (`ml_app1.py`). When a customer is submitted, the app does five things.
It takes the cluster that the k-means model predicts and the distances to every
centroid. It turns them into a confidence score. It maps the cluster to a
persona card (name, recommendation, colour). It writes up to one
"micro-insight" line. It appends a prediction record to `prediction_logs.csv`,
creating the file when it is absent.

Modules:

- `Wrappers`: `Option`, used for "the log file is absent" and for a confidence that is NaN.
- `Customer`: the six raw inputs (`Features`), with the widgets' `min_value=0` bounds as types, and the sample vector.
- `Scoring`: `Sum`, `Confidence` and `Round2` (`round(x, 2)`), with their range lemmas.
- `Persona`: the if/elif chain from cluster id to persona and card.
- `MicroInsights`: the three guarded insight rules.
- `PredictionLog`: the record, the column order, one row of the table, and the append function. It also holds the class `LogStore`, which stands for the file, with the read / concatenate / write `Append`.
- `App`: `Predict`, the whole block run once per click.

The scaler and the k-means model are pickled scikit-learn objects. Their code is
not part of this model. The predicted cluster and the distance vector are
parameters of `Predict`. The file system is the field `LogStore.file`.

A zero distance sum has no guard in the code. NumPy's division then yields NaN
rather than raising, and the app logs that NaN. So `Confidence` returns `None`
in that case instead of requiring a positive sum. A NaN confidence is written
as a blank cell.

## Model

| member | source | states |
|---|---|---|
| `Scoring.Confidence` | ml_app1.py:104-105 | the confidence is undefined (NaN) exactly when the distances sum to zero |
| `Scoring.ZeroSumIffAllZero` | ml_app1.py:105 | for non-negative distances, the sum is zero iff every distance is zero, i.e. NaN arises only when the point coincides with every centroid |
| `Scoring.ConfidenceInRange` | ml_app1.py:105 | with non-negative distances and a positive sum, the confidence is defined, lies in [0, 100], and equals 100 iff the chosen distance is 0 |
| `Scoring.NearerIsMoreConfident` | ml_app1.py:101-105 | a cluster at a smaller distance never gets a lower confidence, so the nearest cluster that `predict` picks has the highest confidence |
| `Scoring.NearestConfidenceLowerBound` | ml_app1.py:101-105 | when the chosen cluster is the nearest one, the confidence is at least 100 - 100/K |
| `Scoring.Round2` | ml_app1.py:143 | `round(x, 2)` yields a multiple of 0.01 within 0.005 of x |
| `Scoring.Round2InRange` | ml_app1.py:143 | rounding keeps a value in [0, 100] inside [0, 100] |
| `Scoring.Round2Idempotent` | ml_app1.py:143 | rounding a rounded value changes nothing |
| `Scoring.RoundConfidence` | ml_app1.py:143 | NaN stays NaN; a defined confidence moves by at most 0.005 |
| `Persona.PersonaOf` | ml_app1.py:108-119 | cluster 0 is the loyal premium persona, cluster 1 the churn-risk persona, and every other id the low-value persona (each iff) |
| `Persona.CardOf` | ml_app1.py:108-119 | the name, recommendation and colour of each persona branch |
| `Persona.Describe` | ml_app1.py:108-119 | the card a cluster id gets: the card of its persona |
| `Persona.DescribeBranches` | ml_app1.py:108-119 | each branch gives exactly its name, recommendation and colour `#2ecc71`, `#f1c40f`, `#e74c3c` |
| `Persona.ColourIdentifiesPersona` | ml_app1.py:108-119 | two clusters get the same colour (or the same name, or the same card) iff they get the same persona |
| `MicroInsights.Insights` | ml_app1.py:127-132 | frustration fires iff cluster 0 and more than 3 tickets; recoverable iff cluster 1 and total revenue above 15000; onboarding iff cluster 2 and tenure below 6; at most one fires; ids outside 0..2 fire none |
| `MicroInsights.Message` | ml_app1.py:128-132 | the fixed line each insight writes, code point for code point |
| `MicroInsights.Messages` | ml_app1.py:127-132 | each guard's line is written iff its condition holds (cluster 0 and more than 3 tickets, cluster 1 and revenue above 15000, cluster 2 and tenure below 6); at most one line is written |
| `MicroInsights.MessageInjective` | ml_app1.py:128-132 | the three messages are distinct |
| `MicroInsights.InsightMatchesPersona` | ml_app1.py:108-132 | an insight fires only for the persona it is about |
| `MicroInsights.HighClusterSharesPersonaButNoInsight` | ml_app1.py:116-132 | an id of 3 or more gets the low-value persona like cluster 2, but no insight |
| `MicroInsights.ThresholdsAreStrict` | ml_app1.py:127-132 | exactly 3 tickets, exactly 15000 revenue and exactly 6 months do not fire; 4 tickets and 5 months do |
| `MicroInsights.SampleInsights` | ml_app1.py:127-132 | the sample customer fires the recoverable insight in cluster 1 and nothing in any other cluster |
| `PredictionLog.MakeRecord` | ml_app1.py:135-144 | the record carries the six inputs unchanged, the cluster, and the confidence rounded to two decimals (NaN stays NaN) |
| `PredictionLog.Row` | ml_app1.py:135-144 | a record is one row of eight cells; the cell at each position is the field named by the column at that position of `Columns`, the dict's key order |
| `PredictionLog.ParseRow` | ml_app1.py:147 | a row is read back only if it is the row of the record produced |
| `PredictionLog.RowRoundTrip` | ml_app1.py:147-152 | a written row reads back as the same record; integer columns stay integers |
| `PredictionLog.Appended` | ml_app1.py:146-152 | with no file the log is exactly `[record]`; otherwise it grows by one, every old row keeps its place, and the record is last |
| `PredictionLog.AppendsInOrder` | ml_app1.py:146-152 | appending N records gives the old rows followed by exactly those N in order; from no file, exactly the N records |
| `PredictionLog.LogStore.Read` | ml_app1.py:147 | the read returns the file's rows, or `None` when it does not exist |
| `PredictionLog.LogStore.Write` | ml_app1.py:152 | the whole table replaces the file |
| `PredictionLog.LogStore.Append` | ml_app1.py:146-152 | the file afterwards holds `Appended(old file, record)`: one row longer, old rows unchanged in place, record last |
| `App.Predict` | ml_app1.py:96-152 | one click yields the formula's confidence (in [0, 100] for non-negative distances with a positive sum), the cluster's card, at most one insight line, and a log one record longer ending in that record |

## Left out

- Streamlit presentation: page config, CSS, titles, widgets, output card, metric, info, success and balloons (ml_app1.py:11-33, 52-93, 122-124, 153-155). Only the inputs' `min_value=0` bounds are kept, as types.
- The "Use Sample Data" session flag (ml_app1.py:36-49). It is UI state. The sample vector is kept as `Customer.Sample`.
- `joblib.load`, `scaler.transform`, `kmeans.predict`, `kmeans.transform` (ml_app1.py:7-8, 100-104). These are foreign scikit-learn calls. Their results, the cluster and the distance vector, are parameters.
- Floating point. Arithmetic is on reals. `round` is modelled as round-half-to-even on the exact value. The only IEEE effect kept is NaN on a zero sum, as `None`; an infinity from a zero sum with negative entries is also `None`.
- CSV text, pandas parsing and `FileNotFoundError` mechanics. The file is `Option<seq<Record>>`, and a row is a sequence of typed cells.
- pandas column union when an existing file has other columns (ml_app1.py:148). The source does this; the model, with one fixed record type, cannot represent such a file.
- PredictionLog.LogStore.Append: has no failure path. In the source only `FileNotFoundError` is caught (ml_app1.py:149). Any other read failure at ml_app1.py:147 (an empty file, a malformed file, an unreadable file) or a failed write at ml_app1.py:152 aborts the block with nothing logged. An empty file does so on every later click. The model's `Append` always succeeds, and it cannot represent an unreadable file.
- The read-modify-write append has no lock. Concurrent appends and lost updates are not modelled; the model is sequential.
- Batch scoring, normalisation errors, schema-mismatch errors and data-driven persona tables. The code does not have them.
