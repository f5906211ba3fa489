# Event-based monitoring benchmarks, modelled in Dafny

The benchmark simulates code-ingestion jobs. A writer Lambda draws a pair of
ingestion batches (6000 to 8000 jobs in all) and walks every job through the
seven ingestion stages, "In-queue" to "Finished". After each round of
transitions it writes the snapshot of every live job to four stores in a
fixed order:

- CloudWatch Logs (log events, 500 per `put_log_events` call, with
  sequence-token recovery);
- Elasticsearch (bulk `index` requests, 500 documents per batch, halving
  the slice on HTTP 413 and backing off on 429 and 504);
- PostgreSQL on RDS (`CREATE TABLE IF NOT EXISTS`, indexes, then one
  multi-row `INSERT` per 500 rows);
- Amazon Timestream (multi-measure records, 100 per `write_records` call,
  with rejected records tolerated).

A job that errors is written once more and then dropped. A reader Lambda
runs five query types, ten times each, against the four stores. Every
timed operation records a duration sample.

The model keeps that logic as pure Dafny functions over immutable data:

- Rows and documents are ordered association lists (`Records.Record`).
- Every store's answers are oracles indexed by call number.
- The clock, random draws and uuids are inputs (`Events.JobSeed`,
  `Events.PairDraw`, `Driver.Readings`).
- Exceptions are `Result` values.
- A duration sample is a `Helpers.Scope` appended on normal exit of the
  timed block.

The modules follow the source files:

| module | file |
|---|---|
| `Text`, `Records` | string and dict helpers used throughout |
| `Helpers` | `src/helpers.py` |
| `Events` | `src/events.py` |
| `SearchStore` | `src/es.py` |
| `LogStore` | `src/cloudwatch.py` |
| `TimeSeries` | `src/timestream.py` |
| `Relational` | `src/postgres.py` |
| `RecordShaping`, `WriteHelpers` | `src/write_helpers.py` |
| `QueryHelpers` | `src/query_helpers.py` |
| `Driver` | `src/main.py` |

## Model

| member | source | states |
|---|---|---|
| Records.Pop | src/cloudwatch.py:53-54 | `dict.pop` raises exactly when the key is missing; otherwise it returns the value stored under that key |
| Records.RemoveKeepsOthers | src/cloudwatch.py:53-54 | removing a key from a record with unique keys drops that key, leaves every other key's value unchanged, and shortens the record by one when the key was there |
| Records.PutGet | src/write_helpers.py:58-61 | after assigning a key, reading it gives the new value and every other key reads as before |
| Helpers.CreateBatchesFromList | src/helpers.py:37-41 | size 0 raises (`range` step 0); a negative size gives no batches; a positive size gives batches that concatenate back to the list, all full except possibly the last, which is non-empty |
| Helpers.BatchesUnique | src/helpers.py:37-41 | the batching is the only split of the list into full chunks plus a non-empty tail, so any writer that chunks this way sends the same batches |
| Helpers.BatchesCount | src/helpers.py:37-41 | the number of batches is the ceiling of length over size |
| Helpers.DataTypeNameRoundTrip | src/helpers.py:56-64 | each data type's printed name reads back as that type, and no two types print alike |
| Helpers.ExitScope | src/helpers.py:83-96 | a duration item is recorded exactly when the timed block exits without an exception |
| Helpers.ExitScopeItem | src/helpers.py:67-96 | the item's exec time is exit minus entry; its record id parses back to the creation timestamp; the optional keys are present exactly when given |
| Helpers.TimedRecordsExit | src/helpers.py:67-96 | a timed block adds a sample exactly when `__exit__` writes a metrics row (no exception), keeps the earlier samples, and the sample names the row's store, operation and optional keys |
| Events.StageOrdinalRoundTrip | src/events.py:34-42 | stage values 0 to 6 and only those name a stage, and a stage's value leads back to it |
| Events.StageNamesTotalAndDistinct | src/events.py:43-56 | every stage has a display name and no two share one |
| Events.NextStage | src/events.py:61-64 | each stage before Finished advances by exactly one; Finished stays Finished |
| Events.NewEvent | src/events.py:82-92 | a new job event is in the queue at stage 0 of 6, not errored, not finished, stamped with the creation time |
| Events.Transition | src/events.py:114-121 | a transition advances the stage, restamps the time, and keeps the job's identity and batch |
| Events.TransitionProgress | src/events.py:114-121 | stage progress always equals the stage value and never decreases |
| Events.TransitionFlags | src/events.py:114-121 | before Finished the errored flag is the failure draw against the batch's rate; reaching Finished sets finished and keeps errored |
| Events.FailureFreeRun | src/events.py:114-121 | with failure rate 0, k transitions reach stage min(start + k, 6) without error, and finished holds exactly at 6 |
| Events.FinishedStaysFinished | src/events.py:114-121 | further transitions of a finished, non-errored job change neither its stage nor its flags |
| Events.SixTransitionsFinish | src/events.py:114-121 | with failure rate 0, a fresh job is finished without error after six transitions |
| Events.CertainFailure | src/events.py:119-120 | with failure rate 1 the first transition errors the job |
| Events.AsDictMatchesSchema | src/events.py:94-143 | `as_dict` yields the sixteen schema fields in schema order, each value of the schema's type |
| Events.AsDictStage | src/events.py:94-112 | the dict carries the stage by display name and its progress as the stage value |
| Events.AsDictTimes | src/events.py:94-143 | `created_at` and `time` are the two timestamp fields and carry the batch creation time and the job time |
| Events.GenerateJobEvents | src/events.py:146-150 | one fresh, consistent event per job of the batch; a negative job count gives none |
| Events.BatchPairShape | src/events.py:153-194 | the two batches share org, repo, version and priority; both users belong to the org; the job counts sum within the bounds; batch ids coincide exactly when the users do; failure rates come from the fixed list |
| SearchStore.ItemErrors | src/es.py:47-54 | the items loop fails with an attribute error exactly when some item has no error (line 51); otherwise it collects exactly the non-ignored item errors |
| SearchStore.CheckResponse | src/es.py:20-67 | a response that passes is returned unchanged; a response with `errors` false fails only on its top-level error |
| SearchStore.CheckResponseRaises | src/es.py:20-67 | a response raises exactly when the body is not JSON or it carries a reported error; a null body passes |
| SearchStore.IgnoredErrorPasses | src/es.py:28-46 | a top-level error whose type is ignored does not raise |
| SearchStore.ItemErrorsReported | src/es.py:47-65 | when every bulk item carries a reported error, the raise lists all of them in order |
| SearchStore.PairLinesPairs | src/es.py:96-113 | the bulk body alternates an `index` action line for each document with the document itself, in document order |
| SearchStore.CollectBulkBatches | src/es.py:103-113 | the imperative batching loop computes the reference batching of the bulk lines |
| SearchStore.BulkBatchesShape | src/es.py:90-113 | bulk batches concatenate to the full action/document body, each holds 2·size lines except a non-empty last one, and there are ceiling(docs / size) of them |
| SearchStore.SplitPointPartitions | src/es.py:239-244 | on a 413 the midpoint splits an even slice into two even, non-empty halves, unless it already holds a single document |
| SearchStore.BulkIndex | src/es.py:218-256 | the first request sends the whole slice; every later request stays inside it on even (document) boundaries; a success reports at most the slice's line count (two lines per document) |
| SearchStore.TooLargeBisects | src/es.py:239-244 | a 413 on two or more documents resends `[start, mid)` and then, once that half succeeds, `[mid, end)`, splitting between documents; a failing half ends the call; when both succeed the larger half value is returned |
| SearchStore.ThrottledRetryDiscarded | src/es.py:245-256 | a 429/504 within the back-off bound sleeps the back-off, resends the same slice with it doubled, and on success returns the slice's own line count, discarding the retry's value |
| SearchStore.DefaultBackoffSchedule | src/es.py:245-253 | backoff starting at 1 sleeps 1, 2, 4, 8, 16, 32 seconds before giving up |
| SearchStore.ThrottledRetries | src/es.py:245-256 | under constant throttling the slice is resent once per backoff step and once more after it; the sleeps are the schedule plus the 10-second pause when the last response is a 504 with a parseable body; the outcome is that of the last response |
| SearchStore.OneDocumentTooLarge | src/es.py:239-244 | a single document that always gets 413 never finishes (the model runs out of fuel) |
| SearchStore.IndexDocumentsInBulk | src/es.py:90-129 | size 0 raises a division error before any request; no documents means no request; success records one `basic_write` sample with the document count |
| SearchStore.BulkAll | src/es.py:115-129 | every batch is attempted even after another fails, so there are at least as many requests as batches; no batches means no request and success |
| SearchStore.BulkAllAccepted | src/es.py:115-129 | when the store accepts every request, there is exactly one request per batch, no sleep, and the write succeeds |
| SearchStore.BulkWriteRequests | src/es.py:115-129 | every batch is sent at least once |
| SearchStore.KeepHits | src/es.py:197-199 | the filter keeps exactly the hits it accepts, and no filter keeps all |
| SearchStore.ScrollStep | src/es.py:192-206 | each non-empty page contributes its kept hits and its scroll id, then scrolling continues with the next page |
| SearchStore.QueryCollectsPages | src/es.py:161-215 | over pages that end with an empty one, the query returns the kept hits of every non-empty page in order and the scroll ids to delete |
| LogStore.PutLogEvents | src/cloudwatch.py:22-38 | the put is the first call; only an invalid-token error leads to a describe call; success records one sample with the event count |
| LogStore.StaleTokenRecovery | src/cloudwatch.py:27-37 | after an invalid-token error the stream is described; only when the first listed stream is the target stream is its upload token used for one retry; otherwise the original error (or the describe error) is raised |
| LogStore.EventOf | src/cloudwatch.py:47-58 | each log event pops `time` out of the item as its timestamp and keeps the rest as the message |
| LogStore.EventsOf | src/cloudwatch.py:47-58 | a batch converts exactly when every item has a `time` key, else it raises `KeyError('time')` |
| LogStore.EventsOfItems | src/cloudwatch.py:47-58 | each event's message is its item minus `time`, with every other key unchanged |
| LogStore.Recover | src/cloudwatch.py:66-101 | a missing stream is created once (an existing one is tolerated) and the put retried; an invalid token is retried with the expected token; any other error is raised unchanged |
| LogStore.WriteChunk | src/cloudwatch.py:45-101 | a chunk missing `time` raises before any call; otherwise the first call is the put, and an accepted put records its sample |
| LogStore.WriteMany | src/cloudwatch.py:41-101 | writing no items makes no call; the call log only ever grows |
| LogStore.WriteManyAllAccepted | src/cloudwatch.py:41-64 | when every put succeeds, one put per 500-item batch is made, the first without a token, and the events put are exactly the items' events in order |
| LogStore.AcceptedSessionCalls | src/cloudwatch.py:45-64 | the first put carries the caller's token (none when there is none), and each later put carries the token returned by the previous put |
| LogStore.AcceptedSessionSamples | src/cloudwatch.py:22-24 | each accepted put records one sample sized by its batch |
| LogStore.StreamCreatedOnce | src/cloudwatch.py:66-85 | on a missing stream the stream is created and the same put retried, and a creation failure other than already-exists is raised |
| LogStore.ExpectedTokenFallback | src/cloudwatch.py:86-98 | when describe does not find the stream, the put is retried with the error's expected token |
| LogStore.OtherErrorAborts | src/cloudwatch.py:99-101 | any other put error aborts the write after that single call |
| LogStore.ForwardPagingEnds | src/cloudwatch.py:136-148 | forward paging ends exactly when the service has no forward token or hands back the cursor it was given; otherwise the next cursor differs from the one passed in |
| LogStore.SearchLikeGetMany | src/cloudwatch.py:122-187 | `search` and `get_many` read a reply alike: a missing group or stream is no items and no cursor, other errors propagate unchanged, and a page's items are its messages |
| LogStore.SecondSearchPageUnreachable | src/cloudwatch.py:151-187 | as written, every cursor is rejected before any request, so the cursor a first search returns never reads the next page |
| LogStore.SearchResumesAtCursor | src/cloudwatch.py:151-187 | with the cursor passed through, the next call asks the store for exactly the page after the returned cursor, with the same stream, pattern and page size |
| TimeSeries.CastValueRoundTrip | src/timestream.py:15-32 | integers and booleans written as text read back as the same value |
| TimeSeries.ProcessSchema | src/timestream.py:60-79 | the schema is read exactly when every column has a scalar or array type, one entry per column |
| TimeSeries.ProcessRowData | src/timestream.py:35-57 | a row converts exactly when every datum up to the shorter of row and schema does (nulls, scalars cast by the column type, arrays as text), value for value |
| TimeSeries.SerializeRowGet | src/timestream.py:82-93 | a serialized row maps each column name to its value |
| TimeSeries.PaginationWindowReadsBack | src/timestream.py:96-118 | the wrapped statement ends with `WHERE row_num BETWEEN lo and hi`, and `lo` and `hi` read back as `page_after + 1` and `page_after + page_size` |
| TimeSeries.WindowsTile | src/timestream.py:96-118 | page windows are `page_size` rows wide, and every row number lies in exactly one page window |
| TimeSeries.SchemaReadOnce | src/timestream.py:143-167 | once the schema is known every page is transformed with it |
| TimeSeries.FirstPageSchema | src/timestream.py:143-167 | the schema comes from the first page that carries column info |
| TimeSeries.RawQueryFlattens | src/timestream.py:169-194 | an untransformed, unchunked query returns every raw row of every page in order |
| TimeSeries.Select | src/timestream.py:196-234 | a selection keeps exactly the fields whose key is among the columns |
| TimeSeries.PreparedRecordOfRow | src/timestream.py:196-234 | each record carries the row's dimension and measure fields with their declared types, the row's time, milliseconds, and the `record`/MULTI measure |
| TimeSeries.FirstError | src/timestream.py:250-262 | the thread pool's outcome is the first failing batch's error, or success when none fails |
| TimeSeries.WriteRecords | src/timestream.py:250-262 | records are sent in batches of 100 that concatenate back to the records; success records one sample |
| TimeSeries.Write | src/timestream.py:264-294 | no rows means no write; otherwise the batches concatenate to the prepared records |
| TimeSeries.OneMeasureIsList | src/timestream.py:284-285 | a single measure column behaves as a one-element list |
| TimeSeries.RejectedRecordsDoNotAbort | src/timestream.py:236-262 | a rejected-records error is collected rather than raised: the write succeeds exactly when every batch succeeds or is only rejected, and every rejection is collected |
| Relational.DefinitionRoundTrip | src/postgres.py:29-34 | a column definition reads back as its name, its type and whether it is the primary key |
| Relational.ColumnListRoundTrip | src/postgres.py:29-39 | the comma-joined column list splits back into one definition per column, in order |
| Relational.CreateTableReadsBack | src/postgres.py:23-39 | the statement creates the named table only if it is missing, and its body splits back into one definition per column, in order, with name, type and primary-key mark |
| Relational.CreateIndexPerColumn | src/postgres.py:44-48 | two index statements on one table, and their index names, coincide exactly when the columns do |
| Relational.IndexNamesDistinct | src/postgres.py:44-48 | index names on one table coincide exactly when the columns do |
| Relational.InsertSqlReadsBack | src/postgres.py:50-58 | the `INSERT` names the last row's columns in order: the text between the table's parenthesis and `VALUES %s` splits back into them |
| Relational.InsertAligned | src/postgres.py:50-58 | when every row has the last row's keys, each tuple's j-th value is the row's value for the j-th column |
| Relational.InsertColumnsRoundTrip | src/postgres.py:53-56 | the comma-joined column list splits back into the column names |
| Relational.InsertBatchesCommitPrefix | src/postgres.py:50-67 | the batches before the first failing commit are committed, each with one sample |
| Relational.InsertBatchesResult | src/postgres.py:59-67 | the insert succeeds exactly when no commit fails; otherwise it raises the first failure |
| Relational.InsertRowsPartial | src/postgres.py:64-67 | after a failure, exactly the rows of the committed 500-row batches are in the table |
| RecordShaping.LookupType | src/write_helpers.py:25-30 | a field's type is found exactly when the schema names it, as declared |
| RecordShaping.EsTypeRoundTrip | src/write_helpers.py:25-30 | every type but float has an Elasticsearch mapping type, and that mapping leads back to it |
| RecordShaping.EventPropertiesTyped | src/write_helpers.py:25-39 | every event field gets a mapping that leads back to its declared type |
| RecordShaping.AssignColumn | src/write_helpers.py:53-57 | declaring a column that already exists keeps the column count; a new one is appended |
| RecordShaping.RdsTableShape | src/write_helpers.py:44-70 | the table has the sixteen event columns with their SQL types plus a final serial `id`, and the six index names are distinct |
| RecordShaping.ConvertForRds | src/write_helpers.py:58-61 | conversion keeps the keys in order, converts exactly the timestamp fields, and fails exactly when one of them cannot be converted |
| RecordShaping.RdsConvertsOnlyTimestamps | src/write_helpers.py:58-61 | an event always converts; only `created_at` and `time` change, to datetimes of the same instants; everything else is kept as is |
| RecordShaping.EventFieldNamesDistinct | src/events.py:124-143 | the sixteen event field names are distinct |
| RecordShaping.TsColTypesAt | src/write_helpers.py:74-76 | every field except `created_at` and `num_stages` keeps its declared Timestream type |
| RecordShaping.TsTypesCover | src/write_helpers.py:74-76 | the Timestream types cover exactly the event fields, and `created_at` and `num_stages` become strings |
| RecordShaping.TsColumnsPartition | src/write_helpers.py:82-100 | the eleven dimensions, the four measures and `time` split the sixteen event fields without overlap |
| RecordShaping.StringifyKeepsKeys | src/write_helpers.py:77-79 | stringifying keeps the keys, makes every value a string, and is idempotent |
| RecordShaping.StreamNameRoundTrip | src/write_helpers.py:17-20 | the log stream name splits on `/` into year, month, day, hour and minute, each read back exactly |
| WriteHelpers.WriteFrom | src/write_helpers.py:103-116 | each store is handed the same records in turn, and the first raise stops the rest |
| WriteHelpers.WriteEventsOrder | src/write_helpers.py:103-116 | the stores are cloudwatch, elasticsearch, rds, timestream in that order; the round succeeds exactly when all four do |
| WriteHelpers.WriteNothing | src/write_helpers.py:103-116 | with no records no store is written to |
| QueryHelpers.GetQuery | src/query_helpers.py:22-32 | the query is looked up in its type's catalog by service and is absent exactly when the catalog lacks it |
| QueryHelpers.QueryTypeNameRoundTrip | src/query_helpers.py:15-35 | each query type's name reads back as that type, and no two types print alike |
| QueryHelpers.LabelRoundTrip | src/query_helpers.py:38-73 | the operation label `<type>__<scale>` reads back as the type and scale |
| QueryHelpers.RunFrom | src/query_helpers.py:38-73 | the ten-run loop succeeds exactly when every remaining run does, records one sample per run before the first failure, and raises that failure |
| QueryHelpers.QueryFromRecordsTen | src/query_helpers.py:38-73 | when all ten runs answer, ten samples are recorded, and only the first is marked as the first query |
| QueryHelpers.StoresFollowPlan | src/query_helpers.py:86-97 | a query type runs against cloudwatch, elasticsearch, rds and timestream in that order |
| QueryHelpers.PerformQueriesFollowsPlan | src/query_helpers.py:76-97 | when every store answers, the reader records 5 types × 4 stores × 10 runs of samples in plan order |
| QueryHelpers.FailureStopsQueries | src/query_helpers.py:86-97 | a failing cloudwatch query ends the whole reader with that failure |
| Driver.SelectedIff | src/main.py:19-23 | a job is written in a round exactly when it is not in the errored set |
| Driver.SweepLoop | src/main.py:26-30 | the sweep leaves every already-errored job untouched and adds its id to the errored set; every other job takes one transition |
| Driver.ErroredSticks | src/main.py:19-30 | once errored, a job never changes again |
| Driver.ErroredSet | src/main.py:17-30 | the errored set starts empty, and after round n holds exactly the ids of the jobs that were errored when round n started |
| Driver.IncludedIff | src/main.py:17-30 | a job is written in round 0, and in round n > 0 exactly when it was not errored when round n-1 started, so a job that errors in round n-1 is still written in round n |
| Driver.ErroredWrittenOnce | src/main.py:17-30 | a job that errors is written in the next round and never again |
| Driver.FailureFreeRounds | src/main.py:18-30 | with failure rate 0 every job reaches stage min(n, 6) after n rounds without error |
| Driver.FailureFreeWrites | src/main.py:18-30 | with failure rate 0 every job is written every round and is finished after six |
| Driver.RoundsFrom | src/main.py:18-24 | a batch is at most seven rounds, each written round is the current snapshot, and the first failing write ends it |
| Driver.BatchWrites | src/main.py:15-30 | round n of a batch writes the snapshot after n transitions |
| Driver.BatchesWritten | src/main.py:10-32 | the first batch's rounds come first, then the second's; success returns the total job count |
| Driver.WriterHandlerResult | src/main.py:10-32 | the handler draws a 6000-8000 job pair, generates each batch's jobs and returns a total within those bounds |
| Driver.ReaderFollowsPlan | src/main.py:35-37 | the reader handler runs the query plan with the event's `scale`, or None when it has none |

## Left out

- I/O of every kind: the network, AWS clients, Elasticsearch, psycopg2,
  thread pools and `time.sleep`. Each store becomes an oracle answering the
  k-th call, and sleeps become a list of durations.
- Logging and `print`: no observable effect on results.
- Floats and datetimes:
  - `get_timestamp_with_offset` (src/helpers.py:11-16) and the wall clock
    are inputs.
  - Timestamps are integer milliseconds.
  - The batch split fraction (src/events.py:166-169) is part of the drawn
    input (`Events.PairDraw`).
- Randomness, uuid4 and Faker are inputs (`Events.JobSeed`,
  `Events.PairDraw`, `Driver.Readings`).
- `Driver.IncludedIff`: assumes the uuid4 job ids are distinct.
- `Events.Transition`: `finished` is set on reaching Finished whether or not
  the job errored, exactly as src/events.py:114-121 does.
- `SearchStore.ItemErrors`: src/es.py:51 reads the item's error before
  checking it exists. An item without one raises an attribute error there,
  and the model follows the code.
- `SearchStore.OneDocumentTooLarge`: a single document that keeps getting
  413 makes src/es.py:239-244 recurse without end, resending the same
  slice. Python stops it with a RecursionError after about a thousand
  nested requests; the model's fuel bound reports `FuelExhausted` instead.
- `SearchStore.BulkAll`: reports the error of the failing batch with the
  lowest index. The source re-raises the error of whichever future
  completes first (src/es.py:125-129), and the futures are held in a set,
  so which error wins depends on timing. Every batch is still attempted in
  both.
- `SearchStore.Scroll`: polling is bounded by fuel, as the source's loop
  has no bound.
- The other Elasticsearch endpoints in src/es.py are thin wrappers around a
  single client call, so they are not modelled:
  - `create_index_if_not_exists` (70-77);
  - `index_document`, `get_document`, `get_documents_in_bulk`;
  - `query`, `index_exists`, `delete_index`, `reindex`, `refresh_index`,
    `get_all_indices_request`.
- `LogStore.Search`: src/cloudwatch.py:164 stores a cursor as a
  one-element tuple, which the client's parameter validation rejects. That
  is modelled by `LogStore.SearchAsWritten` (see Findings). `Search` itself
  only reads a reply.
- `LogStore.GetMany` and `LogStore.Search`: each message is decoded with
  `json.loads` (src/cloudwatch.py:136-139, 181-184). A message that is not
  JSON raises, and a JSON value that is not an object becomes an item that
  is not a dict. The model's pages hold decoded records, so neither case
  arises.
- CloudWatch Logs Insights `query` (src/cloudwatch.py:190-205): it polls a
  remote query and sleeps, which is pure I/O.
- `TimeSeries.FirstError`: the thread pool's completion order is not
  modelled. The raise is taken to be the lowest-index failing batch.
- `TimeSeries.CastValue`: DOUBLE, TIMESTAMP, DATE and TIME values are kept
  as their text (`VUnparsed`) rather than parsed into floats and datetimes.
  `Text.ParseInt` accepts an optional sign (`+` or `-`) and ASCII digits
  only. Python's `int()` also accepts surrounding whitespace, underscores
  between digits, and non-ASCII decimal digits.
- `RecordShaping.Stringify`: a datetime value is printed as its integer
  milliseconds, not as Python's `str(datetime)`.
- `exec_query` in src/postgres.py is connection I/O, and so are failures of
  `CREATE TABLE` and `CREATE INDEX`. Only the commits of inserts can fail
  in the model.
- `QueryHelpers`: the backend query calls are abstracted as one oracle
  (`Answers`), and the query catalogs `src/queries/type*.py` are the
  `Catalogs` parameter.
  - Opening the RDS connection (src/query_helpers.py:59) is not modelled.
  - The CloudWatch result iteration (src/query_helpers.py:44-45) lies
    outside the timed block, so it adds no sample.
  - `scale` is `Option<string>`, and a missing scale prints as `None`.
- `Driver.ReaderFollowsPlan`: event values are modelled as strings.
- `Driver.WriterHandlerResult`: the store writer is a parameter
  (`Driver.Writer`). `WriteHelpers.WriteEvents` is the concrete one.
- The deployment scripts (`run.py`, `zip_lambda_code.py`,
  `zip_lambda_layer.py`) are packaging, not logic.

## Findings

| source | as written | input that shows it | evidently intended | confidence | as-written member | corrected member |
|---|---|---|---|---|---|---|
| src/cloudwatch.py:163-164 | `kwargs["nextToken"] = page_cursor,` stores the one-element tuple `(page_cursor,)`. The client's parameter validation expects a string, so `search` raises before sending any request | any `page_cursor`, such as the `nextToken` a first `search` returned | the cursor goes out as the string `nextToken`, so the next page is read | not executed; from the text and the client's string check | LogStore.SecondSearchPageUnreachable | LogStore.SearchResumesAtCursor |
