# greendots, modelled in Dafny

greendots shows live pytest results in a grid. It has three parts:

- **The pytest plugin** (`greendots_plugin/plugin.py`). It writes, for each xdist worker, a `status.<n>.jsonl` file of test events. It writes one `<nodeid>.log.jsonl` file of log records per test, and it captures stdout and stderr line by line. It also writes a `plan.json` that groups the collected tests by module.
- **The Go server** (`greendots-server/main.go`). It folds the status files into a per-test summary and reports where each worker's file ended (`X-End-Offset`). It tells a poller which workers' files have grown. It renders a log file as HTML, either streamed with a truncation limit or as a tail window.
- **The Vue frontend** (`greendots-frontend/src/controllers`). It turns the plan into a grid of rows, columns, test items and group spans. It reads the status summary and then polls each worker's file by byte range, cutting the bytes into JSON lines. It folds each status event into its test's status and fires a single `surprise` when the last unsuccessful test succeeds. It memoises fetches with a time-to-live cache and translates Liqe search queries into JavaScript expressions.

The model takes the source's own form:

- Code that computes a value becomes datatypes, functions and lemmas.
- Code that loops becomes methods with loop invariants, proved against the functions.
- Objects whose fields change become classes:
  - `TestDataProcessor`, `StatusPoller` and `MemoCache` on the frontend;
  - `LivelogStdoutHandler`, `ProgressLogger` and `LivelogPlugin` in the plugin.

The outside world comes in as parameters:

- file contents and fetched chunks;
- clocks;
- `JSON.parse`, `json.Unmarshal` and `JSON.stringify`;
- the formatting of a timestamp.

Module layout:

| module | models |
|---|---|
| `Wrappers`, `Seqs`, `Decimal` | Option/Result, `split`/`join`, flattening, first-encounter dedup, decimal rendering, `parseInt` (decimal and `0x` hexadecimal) and `int()` |
| `TestData` | the frontend's types; JavaScript objects as ordered association lists |
| `GridBuilder`, `GridProps` | `processTestPlan` and the properties of the grid it builds |
| `StatusRules`, `StatusReducer`, `TestStatus` | the two status reducers, and `TestDataProcessor` with its surprise countdown |
| `StreamFraming`, `ChunkHeaders` | `fetchObjects`, the per-worker poll buffers, the `Content-Range` check, the `x-end-offset` parse |
| `MemoPromise` | the `memoPromise` cache |
| `Liqe2Js` | `liqe_to_expr` and `field_to_js` |
| `ServerPaths`, `StatusSummary`, `LogViews` | the server's path guard, status poll, status summary and log views |
| `StdoutCapture`, `ProgressLogging`, `LivelogPlugin` | the plugin |

## Model

| member | source | states |
|---|---|---|
| Seqs.JoinSplit | greendots-frontend/src/controllers/TestDataController.ts:59-60 | joining the pieces of `split(sep)` with `sep` gives the text back |
| Seqs.SplitJoin | greendots-frontend/src/controllers/TestDataController.ts:59-60 | splitting a join of separator-free pieces gives the pieces back |
| Seqs.SplitPiecesFree | greendots-frontend/src/controllers/TestDataController.ts:59-60 | no piece of a split contains the separator |
| Seqs.DedupMembers | greendots-frontend/src/controllers/TestDataController.ts:357-368 | the deduplicated list has exactly the input's elements, each once |
| Seqs.DedupFirstEncounter | greendots-frontend/src/controllers/TestDataController.ts:357-368 | deduplicated elements are in the order of their first occurrence |
| Seqs.FilterAppend | greendots-frontend/src/controllers/TestDataController.ts:62-74 | filtering distributes over concatenation |
| Seqs.FlattenSnoc | greendots-frontend/src/controllers/TestDataController.ts:62-74 | flattening one more piece appends it |
| Seqs.FlattenCons | greendots-server/main.go:544-552 | flattening a list that starts with a piece starts with that piece |
| Decimal.NatToString | greendots-server/main.go:411 | `%d` of a natural: non-empty digits with no leading zero |
| Decimal.ParseInt | greendots-frontend/src/controllers/TestDataController.ts:171 | after the leading JavaScript white space and an optional sign, `parseInt` is NaN exactly when a `0x`/`0X` prefix has no hexadecimal digit after it or, without the prefix, no decimal digit comes first; a negative result needs a leading `-` |
| Decimal.ParseIntHex | greendots-frontend/src/controllers/TestDataController.ts:171 | `0x` followed by hexadecimal digits reads them in base 16, with the sign applied; `0x` alone is NaN |
| Decimal.ParseIntNatToString | greendots-frontend/src/controllers/TestDataController.ts:171 | `parseInt` inverts `%d`, also after any leading JavaScript white space |
| Decimal.PyInt | greendots_plugin/plugin.py:181 | Python `int()`, after trimming `str.isspace` white space on both sides, succeeds only on text with a digit |
| Decimal.PyIntNatToString | greendots_plugin/plugin.py:181 | `int()` inverts the decimal rendering |
| TestData.Keys | greendots-frontend/src/controllers/TestDataController.ts:349 | the object's keys in insertion order, which is the `for … in` order for keys that are not integer-like, as parameter and module names are |
| TestData.Get | greendots-frontend/src/controllers/TestDataController.ts:343 | a lookup is `undefined` exactly when the key is absent |
| TestData.Put | greendots-frontend/src/controllers/TestDataController.ts:344 | after `o[k] = v`, `o[k]` is `v`; a new key goes last and an old key keeps its place |
| TestData.PutOther | greendots-frontend/src/controllers/TestDataController.ts:344 | `o[k] = v` leaves every other key's value alone |
| GridBuilder.RowData | greendots-frontend/src/controllers/TestDataController.ts:342-348 | the loop builds the row key of the test |
| GridBuilder.ColData | greendots-frontend/src/controllers/TestDataController.ts:337-353 | the loops build the column key of the test |
| GridBuilder.FindOrAdd | greendots-frontend/src/controllers/TestDataController.ts:357-362 | the key list gains the key only when it is missing; the index points at the key |
| GridBuilder.AddRow | greendots-frontend/src/controllers/TestDataController.ts:357-362 | the row list stays the first-encounter dedup of the row keys seen so far |
| GridBuilder.AddCol | greendots-frontend/src/controllers/TestDataController.ts:363-368 | the column list stays the first-encounter dedup of the column keys seen so far |
| GridBuilder.AddTest | greendots-frontend/src/controllers/TestDataController.ts:336-382 | one test keeps the grid invariant over one more plan entry |
| GridBuilder.AddTests | greendots-frontend/src/controllers/TestDataController.ts:335-383 | a group's tests keep the grid invariant over the whole group |
| GridBuilder.AddGroup | greendots-frontend/src/controllers/TestDataController.ts:333-390 | one group keeps the invariant and covers exactly its entries |
| GridBuilder.AddGroups | greendots-frontend/src/controllers/TestDataController.ts:332-391 | after all groups, rows and columns are the dedups of all keys, every item points at its keys, and each group's span is its column count before and after it |
| GridBuilder.ProcessTestPlan | greendots-frontend/src/controllers/TestDataController.ts:324-403 | the result is `Processed` from the plan with id 0: rows and columns are the first-encounter dedups of the keys; one item per plan entry (pending, progress 0, shown, indices at its keys); the id map gives each id its last position; one span per group, from its first to past its last column; `row_params` carried over |
| GridBuilder.BuiltItems | greendots-frontend/src/controllers/TestDataController.ts:370-382 | each item carries its entry's id with status pending, every id is in the id map, and the map points at an item with that id |
| GridProps.RowKeyKeys | greendots-frontend/src/controllers/TestDataController.ts:342-348 | a row key's keys are the distinct `row_params` in order |
| GridProps.RowKeyGet | greendots-frontend/src/controllers/TestDataController.ts:342-348 | a row key gives each row param the test's value or `common`, and holds nothing else |
| GridProps.ColKeyGet | greendots-frontend/src/controllers/TestDataController.ts:337-353 | a column key holds the non-row params, else `group` and `test_name`, and nothing else |
| GridProps.ItemIndicesUnique | greendots-frontend/src/controllers/TestDataController.ts:357-379 | `row_idx`/`col_idx` is the one index whose row or column has the item's key |
| GridProps.KeysCovered | greendots-frontend/src/controllers/TestDataController.ts:357-368 | every key of every test has a row or column, and every row or column is some test's key |
| GridProps.ColsBeforeFirst | greendots-frontend/src/controllers/TestDataController.ts:334 | the first group's span starts at column 0 |
| GridProps.ColsBeforeLast | greendots-frontend/src/controllers/TestDataController.ts:384 | the last group's span ends at the number of columns |
| GridProps.ColsBeforeMono | greendots-frontend/src/controllers/TestDataController.ts:384-390 | span bounds never decrease from group to group |
| GridProps.SpansDisjoint | greendots-frontend/src/controllers/TestDataController.ts:384-390 | no column lies in two groups' spans |
| GridProps.SpansCoverColumns | greendots-frontend/src/controllers/TestDataController.ts:384-390 | every column lies in some group's span |
| GridProps.ColumnsOfGroup | greendots-frontend/src/controllers/TestDataController.ts:337-390 | when no param is named `group`, every column in a group's span is labelled with that group |
| StatusRules.Apply | greendots-frontend/src/controllers/TestDataController.ts:421-441 | an action changes only status and progress; progress applies only to a pending or running test |
| StatusRules.OutcomeRulesFirst | greendots-frontend/src/controllers/TestDataController.ts:421-427 | failed/error and skipped outcomes win over every type rule in both reducers |
| StatusRules.SuccessIffPassedFinish | greendots-frontend/src/controllers/TestDataController.ts:431-434 | in the callback and in the standalone reducer (statusUpdateReducer.ts, lines 12-14), a passed `finish` always makes the test successful, and no other event makes an unsuccessful test successful |
| StatusRules.ProgressKeepsFinished | greendots-frontend/src/controllers/TestDataController.ts:435-439 | a progress event leaves a finished test unchanged |
| StatusRules.ApplyIdempotent | greendots-frontend/src/controllers/TestDataController.ts:421-441 | applying an event twice equals applying it once |
| StatusRules.ReducersAgree | greendots-frontend/src/controllers/statusUpdateReducer.ts:1-25 | the two reducers agree except on `summary_done`, `setup` and the progress field |
| StatusRules.SetupDiffers | greendots-frontend/src/controllers/statusUpdateReducer.ts:9-11 | a passed `setup` starts a test in the callback and is ignored by the standalone reducer |
| StatusRules.ReducerReadsProgressField | greendots-frontend/src/controllers/statusUpdateReducer.ts:16-21 | on a plugin-style progress event the standalone reducer sets `progress` to `undefined` while the callback takes the percentage |
| StatusReducer.StatusUpdateReducer | greendots-frontend/src/controllers/statusUpdateReducer.ts:1-25 | only `test_items[test_idx]` changes, as the reducer's rule says; an event no rule matches changes nothing, whatever the index |
| TestStatus.NonSuccess | greendots-frontend/src/controllers/TestDataController.ts:414-419 | the count of unsuccessful items is at most the item count |
| TestStatus.NonSuccessUpdate | greendots-frontend/src/controllers/TestDataController.ts:452-463 | replacing one item changes the count by that item's success change |
| TestStatus.NewItems | greendots-frontend/src/controllers/TestDataController.ts:407-445 | one event keeps the number of items |
| TestStatus.Step | greendots-frontend/src/controllers/TestDataController.ts:406-464 | one event keeps the number of items |
| TestStatus.Run | greendots-frontend/src/controllers/TestDataController.ts:405-466 | a chunk of events keeps the number of items |
| TestStatus.StepKeepsCountdown | greendots-frontend/src/controllers/TestDataController.ts:413-464 | after `summary_done` the countdown is the number of unsuccessful items, and every later event keeps it so |
| TestStatus.RunKeepsCountdown | greendots-frontend/src/controllers/TestDataController.ts:405-466 | whole chunks keep the countdown exact |
| TestStatus.StepEffect | greendots-frontend/src/controllers/TestDataController.ts:442-449 | an unknown event changes nothing; otherwise only the addressed item changes, `status_update` is emitted exactly for a known id, and at most one `surprise` follows |
| TestStatus.SurpriseExactly | greendots-frontend/src/controllers/TestDataController.ts:451-464 | with an exact countdown, `surprise` fires exactly when an event makes its test succeed and no unsuccessful test remains |
| TestStatus.NoSurpriseBeforeSummary | greendots-frontend/src/controllers/TestDataController.ts:452 | before `summary_done` there is no countdown and no `surprise` |
| TestStatus.ProcessPlan | greendots-frontend/src/controllers/TestDataController.ts:306 | the plan is `Processed` from the raw plan, and its id map is consistent with its items |
| TestStatus.ProcessedItems | greendots-frontend/src/controllers/TestDataController.ts:370-382 | a processed plan has one pending item per entry carrying the entry's id, and its id map covers every id |
| TestStatus.TestDataProcessor.constructor | greendots-frontend/src/controllers/TestDataController.ts:287-290 | an empty processor with no plan and no countdown |
| TestStatus.TestDataProcessor.SetTestRun | greendots-frontend/src/controllers/TestDataController.ts:292-317 | emits `reset`, then `plan_ready` with a plan that is `Processed` from the raw plan and carries the next id; clears the countdown; the items and id map become that plan's |
| TestStatus.TestDataProcessor.InstallPlan | greendots-frontend/src/controllers/TestDataController.ts:306-309 | the items and id map become the plan's, `plan_ready` carries it with the current id, and the plan id advances |
| TestStatus.TestDataProcessor.CountNonSuccess | greendots-frontend/src/controllers/TestDataController.ts:414-419 | the loop counts the unsuccessful items |
| TestStatus.TestDataProcessor.ApplyRule | greendots-frontend/src/controllers/TestDataController.ts:413-445 | the rule chain updates the item and countdown as the model step does, or reports the event unknown and changes nothing |
| TestStatus.TestDataProcessor.CheckSurprise | greendots-frontend/src/controllers/TestDataController.ts:451-464 | the countdown moves with the success transition and `surprise` is emitted on reaching zero |
| TestStatus.TestDataProcessor.HandleEvent | greendots-frontend/src/controllers/TestDataController.ts:406-465 | the processor's state after one event is the model step's |
| TestStatus.TestDataProcessor.TestStatusCallback | greendots-frontend/src/controllers/TestDataController.ts:405-466 | the processor's state after a chunk is the model run's |
| StreamFraming.LinesAndRemainder | greendots-frontend/src/controllers/TestDataController.ts:59-60 | the complete lines and the kept remainder rebuild the buffer; neither contains a newline |
| StreamFraming.FramingAppend | greendots-frontend/src/controllers/TestDataController.ts:57-60 | framing the buffer after each append gives the same lines as framing everything at once |
| StreamFraming.NoNewline | greendots-frontend/src/controllers/TestDataController.ts:59-60 | a text without newline yields no line and stays buffered |
| StreamFraming.FetchObjects | greendots-frontend/src/controllers/TestDataController.ts:40-77 | the yielded chunks are non-empty and together are the non-empty complete lines of everything read; the returned buffer is the unterminated rest |
| StreamFraming.NonEmptyLines | greendots-frontend/src/controllers/TestDataController.ts:62-71 | the chunk is the lines that are not empty, in order |
| StreamFraming.ConcatBufs | greendots-frontend/src/controllers/TestDataController.ts:79-84 | the result is `a` followed by `b` |
| StreamFraming.SliceBuf | greendots-frontend/src/controllers/TestDataController.ts:86-90 | the result is the buffer from `start` on |
| StreamFraming.SliceConcat | greendots-frontend/src/controllers/TestDataController.ts:79-90 | slicing a concatenation at the first part's length gives the second part |
| StreamFraming.LastIndexOf | greendots-frontend/src/controllers/TestDataController.ts:193 | -1 exactly when the byte is absent, else its last position |
| StreamFraming.CutAtLastNewline | greendots-frontend/src/controllers/TestDataController.ts:193-201 | cutting at the last newline yields the complete lines and the remainder |
| StreamFraming.CutBuffer | greendots-frontend/src/controllers/TestDataController.ts:193-201 | lines are delivered exactly when the buffer holds a newline; the kept rest has none |
| StreamFraming.StatusPoller.constructor | greendots-frontend/src/controllers/TestDataController.ts:168-173 | offsets start at the end offsets, and buffers start empty |
| StreamFraming.StatusPoller.AcceptChunk | greendots-frontend/src/controllers/TestDataController.ts:189-201 | the worker's offset grows by the chunk length; its complete lines are delivered; the newline-free rest is kept |
| StreamFraming.StatusPoller.PollRound | greendots-frontend/src/controllers/TestDataController.ts:188-202 | each checked worker has received exactly its chunks, in order |
| StreamFraming.FramedStep | greendots-frontend/src/controllers/TestDataController.ts:189-201 | the framing invariant survives one chunk |
| StreamFraming.DeliveredThenBuffer | greendots-frontend/src/controllers/TestDataController.ts:188-202 | a worker's delivered lines, then its buffer, rebuild everything received from it |
| ChunkHeaders.CheckChunk | greendots-frontend/src/controllers/TestDataController.ts:133-142 | a failed fetch throws; at offset 0 the body is accepted unchecked |
| ChunkHeaders.RangeWords | greendots-frontend/src/controllers/TestDataController.ts:137 | `Content-Range` splits on spaces into `bytes` and the range |
| ChunkHeaders.RangeCheckExact | greendots-frontend/src/controllers/TestDataController.ts:136-141 | at a positive offset the chunk is accepted exactly when the range starts at the offset; otherwise `Misbehaving server` |
| ChunkHeaders.ParseEndOffsets | greendots-frontend/src/controllers/TestDataController.ts:168-171 | one parsed value per comma-separated piece |
| ChunkHeaders.SplitCombined | greendots-frontend/src/controllers/TestDataController.ts:168-170 | the `, `-joined header splits into the first offset and the rest with a leading blank |
| ChunkHeaders.EndOffsetsRoundTrip | greendots-server/main.go:411 | parsing the combined `X-End-Offset` header gives back every worker's offset, in worker order |
| MemoPromise.Served | greendots-frontend/src/controllers/memoPromise.ts:39-43 | a settled hit rejects exactly when the stored error is truthy |
| MemoPromise.Notify | greendots-frontend/src/controllers/memoPromise.ts:64-66 | each waiter gets the outcome, in queue order |
| MemoPromise.ExpiredOnlySettled | greendots-frontend/src/controllers/memoPromise.ts:12 | the cleaner removes only settled entries that a call would miss; an infinite time-to-live removes none |
| MemoPromise.MemoCache.constructor | greendots-frontend/src/controllers/memoPromise.ts:1-7 | an empty cache with no timer |
| MemoPromise.MemoCache.Call | greendots-frontend/src/controllers/memoPromise.ts:24-92 | an in-flight hit queues the caller; a settled hit is served from the entry; a miss makes an in-flight entry and invokes the method once; the timer runs after a miss |
| MemoPromise.MemoCache.NotifyWaiters | greendots-frontend/src/controllers/memoPromise.ts:64-66 | every waiter is notified in order, and the cache is untouched |
| MemoPromise.MemoCache.SettleOk | greendots-frontend/src/controllers/memoPromise.ts:63-73 | all waiters get the value; the entry is deleted for a zero time-to-live or an uncached null, else stored as settled |
| MemoPromise.MemoCache.SettleErr | greendots-frontend/src/controllers/memoPromise.ts:74-84 | all waiters are rejected; the entry is deleted for a zero time-to-live or uncached errors, else the error is stored |
| MemoPromise.MemoCache.CleanCache | greendots-frontend/src/controllers/memoPromise.ts:9-20 | exactly the expired entries go, the rest are unchanged, and the timer stops once the cache is empty |
| Liqe2Js.FirstUnsupportedIff | greendots-frontend/src/controllers/liqe2js.ts:9-52 | a walk finds no unsupported node exactly when every node is supported |
| Liqe2Js.TranslationFailsFirst | greendots-frontend/src/controllers/liqe2js.ts:9-52 | translation succeeds exactly on supported queries and otherwise throws at the first unsupported node |
| Liqe2Js.TranslationShapes | greendots-frontend/src/controllers/liqe2js.ts:11-29 | AND/OR give `(L && R)`/`(L \|\| R)`, negation gives `!(E)`, parentheses give `(E)` |
| Liqe2Js.TagTranslation | greendots-frontend/src/controllers/liqe2js.ts:30-48 | a tag translates exactly with no operator or `:` and a literal, regex or empty expression, into an equality, a regex test or a truthiness test; otherwise it throws with the right error |
| Liqe2Js.NegationsAgree | greendots-frontend/src/controllers/liqe2js.ts:22-24 | `NOT` and `-` translate alike |
| Liqe2Js.ImplicitFieldIsName | greendots-frontend/src/controllers/liqe2js.ts:54-61 | a bare term behaves as the field `name` |
| ServerPaths.DirTraversalIff | greendots-server/main.go:227-229 | a path is refused exactly when it starts with a dot, so `.` and `..` are refused |
| ServerPaths.Grown | greendots-server/main.go:445-456 | the workers whose file grew, in worker order |
| ServerPaths.GrownMeaning | greendots-server/main.go:445-456 | a worker is listed exactly when its file exists and is larger than expected; the list is strictly increasing and within range |
| ServerPaths.WorkersToCheck | greendots-server/main.go:445-456 | a missing file fails the pass; otherwise the list is `Grown`, so exactly the grown workers, in increasing order |
| ServerPaths.StatusPoll | greendots-server/main.go:420-475 | 400 exactly for an undecodable or empty body; a traversal gives 404; otherwise 404 exactly when some file is missing, a wait exactly when every file exists and none grew, and a reply lists exactly the grown workers |
| StatusSummary.Exception | greendots-server/main.go:401-406 | a present exception is never `null` |
| StatusSummary.Scan | greendots-server/main.go:384-386 | one scanned line per scanner token |
| StatusSummary.AcceptedCount | greendots-server/main.go:386-397 | scanning accepts a prefix of good lines and stops at the first empty or undecodable one |
| StatusSummary.AcceptedEvents | greendots-server/main.go:392-407 | one event per accepted line |
| StatusSummary.RunStatusSummary | greendots-server/main.go:343-418 | the handler's loops compute the summary fold and the per-worker end offsets, or the panic |
| StatusSummary.ScanStatusFile | greendots-server/main.go:384-410 | one worker's loop folds its accepted events and counts `len(line)+1` for each |
| StatusSummary.FoldAppend | greendots-server/main.go:372-412 | folding a concatenation is folding one part after the other; a panic persists |
| StatusSummary.FoldErrPersists | greendots-server/main.go:400 | a panic in an earlier worker's events is the handler's outcome |
| StatusSummary.PanicIff | greendots-server/main.go:400 | the fold panics exactly when some event lacks a string `test` |
| StatusSummary.LastIndex | greendots-server/main.go:407 | the last event with that test id, or -1 |
| StatusSummary.LastEventWins | greendots-server/main.go:399-407 | a test's stored status is its last event, carrying the last exception seen before it when it has none |
| StatusSummary.SummaryStatuses | greendots-server/main.go:372-412 | the summary holds exactly the tests with an accepted event, each as its last one with the carried exception |
| StatusSummary.ScanTexts | greendots-server/main.go:384-386 | the scanner yields the file's lines in order |
| StatusSummary.ResumeAtEndOffset | greendots-server/main.go:409-411 | the end offset after k lines is where line k begins, so a poll resumes at the next line |
| LogViews.SeverityTable | greendots-server/main.go:509-536 | built-in levels get their letter and class; extra levels their short name and class; others the raw level with class `i` |
| LogViews.BuiltinsWin | greendots-server/main.go:509-536 | configured extra levels cannot override built-in ones |
| LogViews.WarnAliases | greendots-server/main.go:515-518 | `WARN` and `WARNING` look the same |
| LogViews.SanitizeSpec | greendots-server/main.go:491 | the sanitised name keeps the length and allowed characters, with `_` exactly where another character stood |
| LogViews.SanitizeFixedPoint | greendots-server/main.go:491 | sanitising is idempotent and leaves clean names alone |
| LogViews.EscapeLt | greendots-server/main.go:557-558 | the escaped text has no `<` |
| LogViews.EscapeLength | greendots-server/main.go:621 | escaping grows the text by three per `<` and leaves other text alone |
| LogViews.EscapeAppend | greendots-server/main.go:621 | escaping chunk by chunk equals escaping the whole |
| LogViews.PipeEscaped | greendots-server/main.go:601-625 | whatever the read sizes, the pipe carries the escaped file |
| LogViews.FormatLine | greendots-server/main.go:493-555 | formatting is non-empty and moves the cursor to the line's date and time |
| LogViews.BannerOnDateChange | greendots-server/main.go:538-542 | a date banner comes first exactly when the date changes |
| LogViews.Replay | greendots-server/main.go:631-638 | at most one HTML entry per token, each non-empty; only empty tokens leave the entries and the cursor as they were |
| LogViews.ReplayCount | greendots-server/main.go:631-638 | exactly one HTML entry per non-empty token |
| LogViews.ReplayLastToken | greendots-server/main.go:631-638 | the entries end with the last non-empty token's HTML, and the cursor is the one that token leaves |
| LogViews.StreamLog | greendots-server/main.go:560-655 | with `notrunc` every line is written; otherwise a maximal prefix within the limit, then the notice when a line did not fit |
| LogViews.FormatWithinLimit | greendots-server/main.go:631-647 | the scan loop writes lines until one crosses the limit |
| LogViews.ReplayPrefix | greendots-server/main.go:631-638 | formatting a prefix of the tokens gives a prefix of the lines |
| LogViews.LastN | greendots-server/main.go:728-729 | the last n elements |
| LogViews.LogTail | greendots-server/main.go:657-739 | the view is the last `max(lines, 1)` of the optional start marker and the formatted lines, skipping the first line when not at the file's start |
| LogViews.SlideWindow | greendots-server/main.go:714-730 | dropping from the front before each append keeps the last `max(lines, 1)` entries |
| LogViews.WindowBounds | greendots-server/main.go:728-729 | the window holds at most `max(lines, 1)` entries, all of them when fewer, and ends with the newest |
| StdoutCapture.SplitLinesKeep | greendots_plugin/plugin.py:113 | `splitlines(keepends=True)` gives non-empty pieces |
| StdoutCapture.SplitLinesConcat | greendots_plugin/plugin.py:113 | the pieces concatenate back to the written text |
| StdoutCapture.FixedLosesNothing | greendots_plugin/plugin.py:113-131 | with the fragment extended, messages plus the pending fragment account for every character |
| StdoutCapture.PendingFragmentLost | greendots_plugin/plugin.py:130-131 | three fragments then a newline log only the last fragment |
| StdoutCapture.StepAgrees | greendots_plugin/plugin.py:114-131 | with no fragment held, or a piece ending in `\n`, the loop step as written is the extending one |
| StdoutCapture.AsWrittenLosesNothingWithoutTwoFragments | greendots_plugin/plugin.py:113-131 | when no unterminated piece follows another, the loop as written logs exactly what the extending loop logs, and loses nothing |
| StdoutCapture.FixedWritesLoseNothing | greendots_plugin/plugin.py:110-132 | across any writes, the extending handler loses no text |
| StdoutCapture.LivelogStdoutHandler.constructor | greendots_plugin/plugin.py:103-108 | no pending fragment, nothing written or logged |
| StdoutCapture.LivelogStdoutHandler.Write | greendots_plugin/plugin.py:110-132 | the text goes to the parent unchanged and `len(s)` is returned; records are logged as the line state machine says, named and levelled by stream |
| StdoutCapture.LivelogStdoutHandler.WriteExtending | greendots_plugin/plugin.py:110-132 | as `Write`, with an unterminated piece extending the pending fragment |
| StdoutCapture.LivelogStdoutHandler.WriteLines | greendots_plugin/plugin.py:134-135 | writing lines is writing their concatenation |
| ProgressLogging.Clamp | greendots_plugin/plugin.py:77 | the result is in [0, 1] and equals the input when already there |
| ProgressLogging.ProgressLogger.constructor | greendots_plugin/plugin.py:57-62 | done exactly without a status file; nothing logged |
| ProgressLogging.ProgressLogger.RateLimit | greendots_plugin/plugin.py:64-70 | limited exactly within 0.1 s of the last accepted call; otherwise the time is taken |
| ProgressLogging.ProgressLogger.Call | greendots_plugin/plugin.py:72-84 | nothing once done or rate limited; a clamped 1.0 marks done silently; anything else logs the clamped percentage with the test |
| ProgressLogging.ProgressLogger.Done | greendots_plugin/plugin.py:86-91 | logs a final 1.0 at most once, without the test |
| ProgressLogging.ProgressLogger.DoneWithTest | greendots_plugin/plugin.py:86-91 | as `Done`, with the test named |
| ProgressLogging.DoneLinePanicsSummary | greendots_plugin/plugin.py:91 | the line `done()` writes makes the server's summary panic |
| ProgressLogging.DoneLineWithTestFolds | greendots_plugin/plugin.py:91 | a final line with the test is folded into that test's status |
| LivelogPlugin.DeriveWorker | greendots_plugin/plugin.py:166-190 | without xdist `(0, 1)`; a count is set only for worker 0; no id exactly for an xdist master with workers or a count |
| LivelogPlugin.GwWorker | greendots_plugin/plugin.py:178-185 | worker `gwN` gets id N, with the count only when N is 0 |
| LivelogPlugin.LoneMaster | greendots_plugin/plugin.py:171-176 | xdist without worker, count or numprocesses is worker 0 of 1 |
| LivelogPlugin.ReportFields | greendots_plugin/plugin.py:203-215 | a report line has type, outcome and test, plus exception when failed or reason when skipped |
| LivelogPlugin.WorstOfReports | greendots_plugin/plugin.py:209-219 | after `logstart`, the worst outcome is failed if any report failed, else skipped if any skipped, else passed |
| LivelogPlugin.WorstWithoutStart | greendots_plugin/plugin.py:209-219 | without `logstart`, only a failure is recorded |
| LivelogPlugin.FailedTestKeepsException | greendots_plugin/plugin.py:199-301 | a failed test's start, report and finish lines fold on the server to the finish line with the report's exception |
| LivelogPlugin.AddTest | greendots_plugin/plugin.py:253-258 | a module's group is added once, and the test is appended to it only |
| LivelogPlugin.GroupByMeaning | greendots_plugin/plugin.py:232-258 | groups are the modules in first-appearance order, each with its tests in session order |
| LivelogPlugin.RowParamsMeaning | greendots_plugin/plugin.py:245-248 | `row_params` is absent exactly without items, else the keys every item has |
| LivelogPlugin.BuildPlan | greendots_plugin/plugin.py:230-264 | the loop succeeds exactly when every item is a test function (else the `assert False`), and then builds the grouping and the row params |
| LivelogPlugin.Plugin.constructor | greendots_plugin/plugin.py:146-157 | nothing configured |
| LivelogPlugin.Plugin.Configure | greendots_plugin/plugin.py:159-197 | no path leaves things alone; otherwise the role is derived, a failed assertion or conversion is reported, and a status file exists exactly with a worker id |
| LivelogPlugin.Plugin.LogReport | greendots_plugin/plugin.py:199-221 | with a status file: the report line is logged and the worst outcome updated |
| LivelogPlugin.Plugin.CollectionFinish | greendots_plugin/plugin.py:223-268 | only worker 0 writes a plan: it fails, writing nothing, exactly when some item is not a test function; otherwise the plan has its worker count, the module grouping and the row params (`[]` without items) |
| LivelogPlugin.Plugin.LogStart | greendots_plugin/plugin.py:270-293 | with a status file: a start line, and the worst outcome becomes passed |
| LivelogPlugin.Plugin.LogFinish | greendots_plugin/plugin.py:295-309 | with a status file: a finish line with the worst outcome, which is then reset |

## Left out

- Network, HTTP routing, files, timers, `async` scheduling and concurrency. Fetch responses, file contents, chunk sizes and the clock are parameters. The server's locks, the plugin's `threading.Lock`, goroutines and the poll's context timeout are not modelled.
- JSON parsing and serialisation (`JSON.parse`, `json.Unmarshal`, `JSON.stringify`, `json.dump`) are parameters or are taken to be injective. Row and column keys are compared as objects, not as JSON text.
- Bytes and UTF-8 are not told apart: buffers and files are `seq<char>`, and `TextDecoder` is the identity.
- Time formatting (`ts.Format`) is a parameter of `LogViews`. Timestamps are `real`, and floating-point rounding is not modelled.
- `fetchObject`, the project and run list handlers, the plan and file handlers, the confetti, resizer, notifications and router modules, and `liqe_to_function` are not part of this model.
- Within `subscribeTestStatusUpdates`, the following are not modelled: unsubscribing, aborting, the retry backoff and the 500 ms pause. The poll chunks' `JSON.parse` is not modelled either: a chunk is delivered as its lines. An empty line in a poll chunk is handed to `JSON.parse` as written; the model delivers it as an empty line.
- `TestStatus.TestDataProcessor.SetTestRun`: the source announces the live `this.plan` object, which later status events update in place, so a subscriber sees each new status through it. The model announces a snapshot value of the plan as installed. The live items are the processor's `items`, and `status_update` events say which item changed.
- `setTestRun`'s stale-response check and its subscription are not modelled; the plan is installed synchronously. `this.plan` being `null` before a plan arrives is not modelled.
- `testStatusCallback` on an event whose test id is unknown: the source crashes when a rule writes `test.status`. Every rule that dereferences the test therefore requires a known id (`TestStatus.Resolvable`). JavaScript's inherited prototype keys are not modelled.
- `StatusReducer.StatusUpdateReducer`: for an event that some rule matches, the index must lie inside the list; there the source throws on `undefined`. An event no rule matches is allowed any index and changes nothing, as in the source.
- JavaScript values in the memo cache are reduced to `undefined`, `null` or an opaque value with its truthiness. As in the source, a cached error that is falsy (for example `0` or `""`) is served as a resolution with the stored value.
- The Go `bufio.Scanner` 64 KiB token limit, Go's panic recovery in `net/http`, and the order of the summary's map when encoded are not modelled. A summary panic is the `Err` result.
- `fmt.Sscanf` of the tail view's `lines` parameter: the view takes the parsed count, and a malformed value's 400 reply is not modelled.
- The tail view does not escape `<`, as in the source; the model formats the raw tokens.
- The log stream's page prefix and the waiting at end of file are not modelled; the model formats the file as read so far.
- `Decimal.ParseInt`: JavaScript numbers are doubles, so digits beyond 2^53 round and `parseInt("-0")` is `-0`; the model's result is the exact integer.
- Python's `int()` accepts underscores and Unicode digits; `Decimal.PyInt` accepts plain ASCII decimal with optional blanks and sign. An `assert` that is switched off by `-O` is not modelled: a failed worker assertion is an error result.
- `LivelogLoggingHandler`, `os.makedirs`, the per-phase stdout/stderr swaps (`pytest_runtest_setup`, `_call`, `_teardown`), `_validate_worker` and the `log_progress` fixture are left out: they only open files and install handlers. `StatusFile.log`'s `time.time()` is the `now` parameter.
- `plan.json`'s `sort_keys` ordering and the order `list(row_params)` takes from a Python set are not modelled: `row_params` is a set. `json_encode_default` is not modelled.
- `LivelogPlugin.Plugin.Configure`: a non-numeric worker count or worker id is reported as an error result instead of raising `ValueError`.

## Findings

| source | as written | input that shows it | evidently intended | confidence | as-written member | corrected member |
|---|---|---|---|---|---|---|
| greendots_plugin/plugin.py:130-131 | an unterminated piece replaces the pending fragment | `print("a", "b", "c")` writes `a`, ` `, `b`, … before `\n`: the logged message is only the last piece | the piece extends the pending fragment, so the whole line is logged | not executed | StdoutCapture.PendingFragmentLost | StdoutCapture.FixedWritesLoseNothing |
| greendots_plugin/plugin.py:91 | `done()` logs `{"type": "progress", "percentage": 1.0}` with no `test` | any test that calls `log_progress.done()` before reaching 1.0: the server's summary reaches `status_obj["test"].(string)` at greendots-server/main.go:400 and panics | the final record names the test, as `__call__` does | not executed | ProgressLogging.DoneLinePanicsSummary | ProgressLogging.DoneLineWithTestFolds |
