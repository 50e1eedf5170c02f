# Sentiment pipeline: transformation stage

This project models the core of `sentiment_pipeline.py`, a one-shot ETL script. The script reads Amazon product reviews, drops the reviews without text and keeps the first 500. It sends each review's text, cut to 512 characters, to a remote sentiment classifier and keeps the best-scoring label of each reply. Failed calls get a `None` label and score. It then turns the `helpful` column into text and writes the frame to a SQLite table.

The modules follow the script's parts:

- `Json` (json.dfy): decoded JSON values. They are the cells of the frame and the classifier's replies. The module also has Python truthiness, `dict.get` and the numbers Python compares.
- `Frame` (frame.dfy): the part of pandas the script uses. `Table` is a frame as a value: its column order and its rows, each row a map from column to cell. It comes with `dropna(subset=[col])`, `head(n)` and `empty`. The class `DataFrame` is the copied sample that the script changes in place: `Assign` is column assignment and `AsTypeStr` is `astype(str)`.
- `Classifier` (classifier.dfy): the payload slice `text[:512]`, Python's `max(..., key=lambda x: x['score'])` as a left-to-right scan, and how one reply is read. The result is an annotation, the `(None, None)` sentinel, or an exception.
- `Pipeline` (pipeline.dfy): the sample, the annotation loop, the two column assignments, the `helpful` coercion, `load_df_to_sqlite`, and `main` from the file load on as `Run`. `Scenarios` (also in pipeline.dfy) calls `Run` and proves what it gives on a three-review frame whose second review has no text. It covers a classifier that always answers POSITIVE 0.9 / NEGATIVE 0.1, one that always fails, and a missing file.

The remote service is an input. `classifier(k, p)` is the reply to the k-th request, whose `inputs` is `p`; the reply is `None` when `requests` raised. `Run` returns the payloads it posted, in order, so the properties about calls are stated about that list.

Where the code and the intended design disagree, the model follows the code:

- The sample drops reviews whose text is null. Reviews whose text is the empty string are kept and sent, although the intended design is a sample of non-empty texts.
- The guard `result and isinstance(result, list) and result[0]` turns a missing, non-list or empty reply into the sentinel. A reply that passes the guard but is badly shaped raises an exception instead. Examples are a first element that is a dict or a string, a pair without `score`, and scores that cannot be compared. The intended design treats every malformed body as a per-record failure, like a failed request. In the code, nothing catches that exception, so the run ends there (`Crashed`).
- The preview log line selects `reviewerName`. Without that column it raises `KeyError` before the load, so the run also ends as `Crashed`.

## Model

| member | source | states |
|---|---|---|
| `Classifier.Truncate` | sentiment_pipeline.py:28 | the slice is a prefix of its input, of length min(512, length), and the whole input when that is at most 512 long |
| `Classifier.Payload` | sentiment_pipeline.py:28 | a string review is posted as a prefix of its text of length min(512, length), and a list review as a prefix of the list; slicing any other value raises |
| `Classifier.MaxByScore` | sentiment_pipeline.py:81 | when `max` returns, it returns an index of the list whose item has a `score` key; the key `x['score']` is `Classifier.Key` and the comparison `>` on two scores is `Classifier.Greater`, which raises unless both are numbers |
| `Classifier.MaxByScoreSpec` | sentiment_pipeline.py:81 | `max` returns exactly when every item is a dict with a `score` and, for two items or more, every score is a number; what it returns is the first item with the highest score (ties go to the earliest) |
| `Classifier.FirstMaxUnique` | sentiment_pipeline.py:81 | at most one index is the first maximum, so the reference definition fixes the pick |
| `Classifier.Annotate` | sentiment_pipeline.py:80-86 | the guard is `Classifier.Usable`, built on Python truthiness (`Json.Truthy`), and `max` runs over `Classifier.Candidates`, the reply's first element; label and score are read with `dict.get` (`Json.Get`). A reply that is `None`, not a list, an empty list or has a falsy first element gives the `(None, None)` sentinel; the reading raises exactly when the guard passes and the first element is not a list of comparable scored dicts; otherwise label and score come from one pair, whose score is at least every score and strictly above every earlier one |
| `Frame.KeepWithValue` | sentiment_pipeline.py:70 | the null filter keeps at most as many rows as it is given, and every row it keeps has a non-null cell |
| `Frame.KeepWithValueAppend` | sentiment_pipeline.py:70 | dropping null-text rows distributes over concatenation, so source order is kept |
| `Frame.KeepWithValueMembers` | sentiment_pipeline.py:70 | a row survives `dropna` exactly when it is a source row with a non-null cell |
| `Frame.KeepWithValueCount` | sentiment_pipeline.py:70 | `dropna` keeps as many rows as there are indices with a non-null cell |
| `Frame.DropNaWellFormed` | sentiment_pipeline.py:70 | the cleaned frame keeps every row's full set of columns, and every kept row has text |
| `Frame.Head` | sentiment_pipeline.py:71 | `head(n)` keeps the columns, has min(n, rows) rows, and its rows are the first rows of the frame in order |
| `Frame.DropNa` | sentiment_pipeline.py:70 | `dropna` keeps the frame's columns |
| `Pipeline.Sample` | sentiment_pipeline.py:70-71 | the sample keeps the columns, holds at most 500 rows, and its rows are a prefix of the text-bearing rows in source order |
| `Pipeline.SampleSpec` | sentiment_pipeline.py:70-71 | the sample is well formed, every sampled review has non-null text, its rows are a prefix of the text-bearing rows in source order, it has min(500, number of text-bearing rows) rows, and it holds all of them when there are at most 500 |
| `Pipeline.SampleReviews` | sentiment_pipeline.py:77 | the loop iterates over the sample's `reviewText` cells, one per sampled row and none of them null |
| `Frame.DataFrame.Copy` | sentiment_pipeline.py:71 | `.copy()` gives a fresh frame object holding the sample |
| `Frame.DataFrame.Assign` | sentiment_pipeline.py:90-91 | column assignment sets cell k of the column to the k-th value, appends the column only when it is new, and keeps the row count and every other cell |
| `Frame.AsText` | sentiment_pipeline.py:98 | `str()` of a cell is a string, and a string cell is unchanged |
| `Frame.DataFrame.AsTypeStr` | sentiment_pipeline.py:98 | every cell of the column becomes its text; columns, row count and other cells are unchanged |
| `Pipeline.AnnotateReviews` | sentiment_pipeline.py:74-88 | the two lists stay the same length and entry k is the annotation of the reply to the k-th request, whose payload is review k truncated; the loop raises exactly when some review's call raises, and then stops at the first such review; otherwise the lists have one entry per review; sentinel replies never stop the loop; the requests posted are exactly those up to and including the first raising call, when its slice succeeds (`PostedUntilRaise`) |
| `Pipeline.AnnotatedColumns` | sentiment_pipeline.py:90-91 | the column list after the two assignments starts with the old list, has at most two more entries, and holds exactly the old columns plus `sentiment` and `score` |
| `Pipeline.AnnotatedColumnsKeep` | sentiment_pipeline.py:90-94 | the two assignments leave every other column present or absent as before, so the preview's `reviewerName` lookup sees the loaded frame's columns |
| `Pipeline.AddAnnotations` | sentiment_pipeline.py:90-91 | the column list becomes `AnnotatedColumns` of the old one (each of `sentiment` and `score` appended when new, in that order); row k gets entry k of each list, and nothing else changes |
| `Pipeline.CoerceHelpful` | sentiment_pipeline.py:97-98 | when rows have `helpful`, that cell becomes its text, and columns, row count and other cells are unchanged |
| `Pipeline.EnrichRowSpec` | sentiment_pipeline.py:90-98 | an annotated and coerced row has the sample row's cells, plus the annotation of its own call and `helpful` as text |
| `Pipeline.LoadToSqlite` | sentiment_pipeline.py:37-50 | an empty frame (`df.empty`, which is `Frame.IsEmpty`: no rows or no columns) is never written and gives `False`; a written table is the frame itself and is never empty; success is reported exactly when it is written, which is exactly when the frame is non-empty and the write raises no `sqlite3.Error` |
| `Pipeline.Finish` | sentiment_pipeline.py:90-100 | after the loop, the run crashes exactly when `reviewerName` is missing; otherwise it loads exactly when the sample is non-empty and SQLite accepts, and a stored table is well formed, non-empty, has the columns `AnnotatedColumns` of the source's and is the sample with each row enriched by its own call's annotation |
| `Pipeline.Transform` | sentiment_pipeline.py:70-100 | the k-th request carries sampled review k truncated; every review up to the first raising call is posted, that one too when its slice succeeds, and none after it; when no call raises, one request is made per sampled review, even when the run then crashes on `reviewerName`; the run crashes exactly when some call raises or `reviewerName` is missing; a stored table is as in `Pipeline.Finish` |
| `Pipeline.Run` | sentiment_pipeline.py:52-101 | a missing file or a missing `reviewText` column ends the run before any request and without a store; otherwise the k-th request carries sampled review k truncated, the requests posted are exactly those up to the first raising call (that one included when its slice succeeds), every sampled review is sent when no call raises (also before a `reviewerName` crash), the run crashes exactly when some call raises or `reviewerName` is missing, a finished run made one request per sampled review and loads exactly when the sample is non-empty and SQLite accepts, and a stored table is well formed and non-empty, has the source's columns followed by `sentiment` and `score` where new, and is the sample with each row enriched by its own call's annotation |
| `Scenarios.ReplyIsPositive` | sentiment_pipeline.py:80-83 | the reply `[[POSITIVE 0.9, NEGATIVE 0.1]]` is annotated POSITIVE with score 0.9 |
| `Scenarios.SampleOfReviews` | sentiment_pipeline.py:70-71 | of three reviews whose second has no text, the sample is the first and the third |
| `Scenarios.ReviewsOfSample` | sentiment_pipeline.py:77 | for that frame, the loop sends the texts of the first and the third review |
| `Scenarios.UnscoredRaises` | sentiment_pipeline.py:80-81 | a reply whose only pair has no `score` passes the guard and makes `max` raise |

## Left out

- The HTTP request, `raise_for_status` and JSON decoding in `query_sentiment` (lines 30-35) are not modelled. The reply is an input, and `None` stands for any `RequestException`.
- `pd.read_json` and the `FileNotFoundError` branch (lines 57-63) are not modelled beyond "no file means `FileMissing`, no request and no store". The loaded frame is an input.
- The SQLite connection and `to_sql` with `if_exists='replace'` (lines 42-50) are left out. The model keeps the empty-frame guard and treats a `sqlite3.Error` as the flag `storeFails`. What a failed write leaves in the database is not modelled.
- `time.sleep(1)`, the `tqdm` progress bar, logging, `load_dotenv`, `HF_TOKEN` and the headers are left out: they are timing, display and environment. The preview line is kept only for its `KeyError` on a missing `reviewerName`.
- `Frame.AsText`: Python's `str()` of a non-string cell is the parameter `show`, because the model has no Python float or list formatting. The model only pins down that the result is a string and that strings are kept.
- `Json.Json`: one `JNull` stands for both `None` and pandas' NaN, which `dropna` treats alike. `astype(str)` writes them differently ("None", "nan"), and that difference is left to `show`.
- `Classifier.MaxByScoreSpec`: scores are compared as numbers (ints, floats and bools). Python can also order two strings or two lists. For a reply with two or more such scores the model raises where Python would pick a maximum.
- `Json.Json`: a number is an exact real. Floats are not rounded, and `json.loads` also accepts `NaN`, `Infinity` and `-Infinity`, which `JNum` cannot hold. A reply with a `NaN` score is not modelled: every `>` against `NaN` is false, so Python's scan keeps whichever item it already holds, and the result is not the first maximum that `Classifier.MaxByScoreSpec` describes.
