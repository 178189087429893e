# In-memory transaction summary service, modelled in Dafny

The service keeps one table of financial transactions in process state
(`app.state.csv_data`, `None` until the first upload) and offers two
endpoints:

- **upload** (`csv_upload`): accepts a file whose name ends in `.csv`
  (a case-sensitive suffix test), decodes it as UTF-8, parses it with
  `pandas.read_csv`, replaces the stored table wholesale and answers
  `"<filename> uploaded successfully"`; any other name is refused with
  "Uploaded file is not a CSV file" and the table is left alone;
- **summary** (`get_stats`): refuses with "CSV file has not been uploaded"
  while nothing is stored, with "User ID not found in CSV file" when no row
  carries the user id, and otherwise answers the maximum, minimum and mean
  of that user's `transaction_amount` values.

Modules:

- `Wrappers` (`wrappers.dfy`): `Option` (for Python's `None`) and `Result`.
- `Aggregates` (`aggregates.dfy`): `Sum`, `Max`, `Min`, `Mean` over exact
  reals, with the bounds and uniqueness lemmas.
- `Transactions` (`transactions.dfy`): a CSV row, a parsed table (`Frame`:
  its header's column names and its rows), `HasUser` (the `.any()` test) and
  `UserAmounts` (the boolean-mask selection of a user's amounts).
- `Service` (`service.dfy`): the error variants, the `Statistics` reply, the
  pure specifications `UploadStep` and `Summary` of one call of each
  endpoint, the `Store` class whose field `csvData` is `app.state.csv_data`
  and whose methods `Upload` and `GetStats` are proved equal to those
  specifications, and lemmas relating several calls.
- `Fixtures` (`fixtures.dfy`): the scenarios of `tests/test_main.py`
  replayed on the model. The tests' own table file is not part of this
  model; `TestFrame` is a stand-in whose ids, timestamps, row order and
  amounts are chosen so that it produces the statistics the tests assert.

Decoding and `pandas.read_csv` are library code whose rules are not visible
here: `Upload` takes them as function parameters (`decode`, `readCsv`), each
returning `None` when the library would raise. `GetStats` has no `modifies`
clause, so a summary never changes the stored table, and since `Summary` is
a function, repeated summaries of an unchanged table are identical.

Two behaviours of the handlers are worth spelling out:

- The upload handler does not catch a decoding or parsing exception; it
  escapes the handler rather than becoming a reply of its own. The 400
  messages "Decoding error: File encoding is not UTF-8" and "Table is
  missing some of the required rows" belong to the database-backed variant
  of the service, which is not modelled. The model keeps the two failures
  as the distinct errors `DecodeFailed` and `ParseFailed`, which leave the
  table untouched, as the raise does.
- The code does not check the header at upload time. `pandas.read_csv`
  accepts any header, and a table without a `user_id` or
  `transaction_amount` column makes the summary raise `KeyError`. The model
  keeps the header in `Frame.columns`, and `Summary` returns
  `MissingColumn(name)` at the point where the code indexes that column:
  `user_id` before the not-found check, and `transaction_amount` after it.

## Model

| member | source | states |
|---|---|---|
| `Service.EndsWithIff` | src/main.py:28 | the suffix test holds exactly when the name is some string followed by `.csv`, in both directions |
| `Service.AcknowledgementEchoesName` | src/main.py:40 | the success message starts with the uploaded file's name and ends with " uploaded successfully" |
| `Service.AcknowledgementInjective` | src/main.py:40 | two file names with equal success messages are equal: the message identifies the file |
| `Service.UploadStep` | src/main.py:25-43 | an upload succeeds iff the name ends in `.csv` and decoding and parsing both succeed; the reply is `NotCsv` exactly when the suffix test fails, `DecodeFailed` exactly when the name passes and decoding fails, `ParseFailed` exactly when both pass and parsing fails; every failure leaves the table as it was; a success stores exactly the parsed table and answers the acknowledgement for the file name |
| `Service.Store.constructor` | src/main.py:21 | the store starts with no table |
| `Service.Store.Upload` | src/main.py:25-43 | the new table and the reply are those `UploadStep` gives for the old table |
| `Service.Summary` | src/main.py:49-70 | the reply is `NotUploaded` exactly when no table is stored, whatever the user id; a stored table without a `user_id` column gives `MissingColumn("user_id")`; the reply is `UserNotFound` exactly when the table has a `user_id` column and no row of the user (an empty table included); a table with the user's rows but no `transaction_amount` column gives `MissingColumn("transaction_amount")`; success happens iff a table is stored, has both columns and has a row of the user, and then the reply's maximum and minimum are amounts of that user bounding all the others, its mean is their sum over their count, and minimum <= mean <= maximum |
| `Service.Store.GetStats` | src/main.py:49-70 | the reply is `Summary` of the stored table, and the store is not changed |
| `Service.AggregatesSummarise` | src/main.py:62-65 | `np.max`, `np.min` and `np.mean` of a non-empty list of amounts yield statistics that summarise it, with minimum <= mean <= maximum |
| `Service.SummarisesUnique` | src/main.py:15-18 | at most one `Statistics` value summarises a list of amounts, so the reply is determined by the user's amounts |
| `Service.FailedUploadKeepsSummaries` | src/main.py:34-43 | after a refused or failed upload every summary is what it was before |
| `Service.LastUploadWins` | src/main.py:37 | a successful upload's new table and reply do not depend on what was stored before it |
| `Service.ReuploadIdempotent` | src/main.py:37-40 | uploading the same file a second time leaves the same table and reply as the first time |
| `Service.SummaryIgnoresOtherUsers` | src/main.py:61 | inserting a row of another user anywhere in the table does not change a user's summary |
| `Service.SummaryDependsOnlyOnUserAmounts` | src/main.py:57-65 | two tables with the same columns and the same amounts for a user give that user the same summary |
| `Aggregates.Max` | src/main.py:65 | the maximum is an element of the list and no element exceeds it |
| `Aggregates.Min` | src/main.py:65 | the minimum is an element of the list and no element is below it |
| `Aggregates.MaxUnique` | src/main.py:65 | an element that no element exceeds is the maximum |
| `Aggregates.MinUnique` | src/main.py:65 | an element that no element is below is the minimum |
| `Aggregates.SumBounds` | src/main.py:65 | n values in [lo, hi] sum to a value in [n * lo, n * hi] |
| `Aggregates.MeanBounds` | src/main.py:65 | the mean lies between the minimum and the maximum |
| `Aggregates.ConstantAggregates` | src/main.py:65 | when every value is c, the maximum, minimum and mean are all c |
| `Transactions.UserAmountsMembers` | src/main.py:61-62 | an amount is selected for a user iff some row of that user carries it, in both directions |
| `Transactions.UserAmountsNonEmpty` | src/main.py:57-62 | the `.any()` test holds iff the user's selection is non-empty, so the selection is never empty past the not-found check |
| `Transactions.UserAmountsConcat` | src/main.py:61 | selecting from a concatenation of tables is concatenating the selections, so row order is kept |
| `Transactions.OtherUserRowIgnored` | src/main.py:61 | a row of another user, wherever it stands, is not selected |
| `Fixtures.User1Aggregates` | tests/test_main.py:101-107 | amounts 10, 20, 30 give maximum 30, minimum 10, mean 20 |
| `Fixtures.User2Aggregates` | tests/test_main.py:109-115 | amounts 5, 15 give maximum 15, minimum 5, mean 10 |
| `Fixtures.TestFrameAmounts` | tests/test_main.py:101-123 | the stand-in table's selection for users 1, 2 and 3 is the amounts chosen for them, in row order |
| `Fixtures.TestFrameSummaries` | tests/test_main.py:101-127 | the stand-in table's summaries for users 1, 2, 3 are the expected statistics, and user 4 is not found |
| `Fixtures.OutOfRangeIdsNotFound` | tests/test_main.py:68-78 | ids 0, negative ids and ids past the last user are each "not found", not another error |
| `Fixtures.NonCsvNamesRefused` | tests/test_main.py:16-21 | `README.md`, and `DATA.CSV` (the test is case-sensitive), are refused with the not-a-CSV error and the table is kept |
| `Fixtures.TestCsvFilesAccepted` | tests/test_main.py:33-99 | readable `test.csv` and `dummy_transactions.csv` uploads are stored and answered with "<name> uploaded successfully", as the two upload tests expect |
| `Fixtures.IsolatedTestScenario` | tests/test_main.py:45-107 | calls taken from several tests, on a fresh store as if each test had its own state: a summary before any upload is `NotUploaded`, a Markdown upload is refused, the CSV upload is acknowledged, user 1 gets 30/10/20 and user 0 is not found |
| `Fixtures.ReplayTestsInFileOrder` | tests/test_main.py:11-52 | the first three tests in file order on one shared state: after the refused Markdown upload and the accepted dummy upload, the early summary is not `NotUploaded` |

## Findings

| source | as written | input that shows it | evidently intended | confidence | as-written member | corrected member |
|---|---|---|---|---|---|---|
| tests/test_main.py:45-52 | the early-call test asserts "CSV file has not been uploaded", but the tests share one application and nothing resets `app.state.csv_data`; the earlier upload test (lines 28-38) has already stored a table | running the module's tests in file order: `README.md` refused, `dummy_transactions.csv` accepted, then `GET /summary/1` | each test starts from an empty store, so the early call meets no table | not executed | `Fixtures.ReplayTestsInFileOrder` | `Fixtures.IsolatedTestScenario` |

## Left out

- HTTP routing, status codes, JSON serialisation and the `Statistics` pydantic model's float coercion: errors are variants of `UploadError` and `SummaryError`; `Detail()` gives the `detail` text of the errors the handlers raise themselves.
- The 422 rejection of a non-integer `user_id`: the web framework's validation produces it before `get_stats` runs; the model's `userId` is already an `int`.
- Reading the upload (`await file.read()`), UTF-8 decoding and `pandas.read_csv`: library and I/O code, taken as the parameters `contents`, `decode` and `readCsv`.
- `pandas` column types: the model assumes `read_csv` yields integer user ids and numeric amounts for the rows; a `user_id` column of strings (never equal to an integer) or non-numeric amounts are not modelled.
- Floating-point arithmetic: amounts are exact reals, so rounding in `np.mean`, NaN for empty cells and infinities are not modelled.
- A missing file name (`UploadFile.filename` being `None`): the model's file name is always a string.
- Concurrent requests: the model is sequential; the single assignment of the table is what the code relies on for atomicity.
- The database-backed variant of the service is not part of this model.
