# Bybit → Notion trade sync and Discord trade monitor, modelled in Dafny

The model covers the two halves of the tool.

**Batch sync.** `SyncService.run_sync`:
- walks the window from the fixed backfill start (2026-01-01T00:00Z) to "now" in query chunks of at most seven days;
- fetches the exchange's transaction log chunk by chunk, stopping at the first failed fetch and keeping what it already has;
- keeps the `TRADE` rows whose realised PnL `change + fee` is at least 0.5 in absolute value;
- turns them into ledger records and stable-sorts them by timestamp;
- writes the whole list through `NotionClient.create_records`, or does nothing if the list is empty.

The Notion client is modelled with:
- its paginated query;
- its "last sync timestamp" query;
- its create loop, with one retry on `rate_limited`;
- its record-to-properties mapping.

**Live monitor.** The three WebSocket callbacks of `BybitMonitor` route each batch to `DiscordNotifier`:
- the order stream: new and cancelled orders only;
- the execution stream: every fill;
- the position stream: every snapshot.

The notifier does two things:
- It builds one embed per event. The colour follows the side, or the sign of the unrealised PnL, and an unset take-profit or stop-loss shows as `無`.
- It posts `{"embeds": [embed]}` only when a webhook URL is set. It only logs a failed post, never raising.

The model is organised as follows:
- **Modules:** `Common` holds the `Option`/`Result` wrappers; then `Chunking`, `Sorting`, `Notion`, `Sync`, `Notifier` and `Monitor`.
- **Classes:** the source's stateful objects are classes: `NotionSdk`, `NotionClient`, `Exchange`, `SyncService`, `DiscordNotifier` and `BybitMonitor`. Each method is proved against a recursive specification function: `ChunkPlan`/`FetchRun`, `Normalise`/`SyncBatch`, `CreateRun`, `Results`, `PostErrors`, and `OrderNotifications`/`Dispatch`.
- **Collaborators:** the Notion SDK, the exchange adapter and the webhook are objects. Each one logs the requests it receives in order and answers the n-th request from a script of replies fixed when it is built. Past the end of the script it answers: an empty final page, a successful create, no rows, or HTTP 204.

Behaviours the model keeps exactly as the code has them:
- When a chunk fetch fails, rows already fetched are still transformed and written.
- The null-number filter in `_map_to_notion_properties` removes nothing, so Size and Entry/Exit Price stay in the payload with a null number when missing.
- Only `TRADE` rows are kept; `FUNDING` rows are never kept.
- Zero-size positions are suppressed inside `send_position_update`, not in the position callback. A position without a size makes `float(None)` raise, which ends the callback.
- The loop guard `current_start < end_time_ms` means that when the window length is a whole number of chunks, the window's last millisecond is never fetched (`Chunking.WindowEndCovered`).

## Model

| member | source | states |
|---|---|---|
| Chunking.ChunkPlan | src/services/sync.py:37-57 | The chunks the loop visits when no fetch fails: the first starts at the window start, each ends at min(start + 7 days − 1, end), the next starts one millisecond later, and the loop runs while start < end |
| Sync.FetchRun | src/services/sync.py:36-57 | The queries and rows of the fetch loop over a chunk plan: one query per chunk in order, rows appended, and a stop right after the first failed fetch |
| Sync.Exchange.FetchTransactionLog | src/services/sync.py:46-51 | A fetch is logged and answered with the next scripted reply: rows or a failure |
| Sync.Normalise | src/services/sync.py:62-87 | The record list built by the transform loop: the records of the kept rows in row order, or the raise of the first kept row without a time |
| Sync.SyncBatch | src/services/sync.py:89-90 | The list handed to the write step: the built records stably sorted by timestamp, or the transform loop's raise |
| Sorting.StableSort | src/services/sync.py:90 | `list.sort(key=...)` on integer keys, given as insertion sort |
| Sorting.Insert | src/services/sync.py:90 | Places an element before the first element whose key is not smaller |
| Notion.Schema | src/clients/notion.py:131-144 | The property dictionary literal: eight entries in order, with a missing timestamp dated 0 and a missing subaccount "Main Account" |
| Notion.DropNullNumbers | src/clients/notion.py:147 | The comprehension: keeps, in order, the entries that fail the "float and None" test |
| Notion.MapToProperties | src/clients/notion.py:121-147 | `_map_to_notion_properties`: the schema dictionary through the comprehension |
| Notion.ReadTimestamp | src/clients/notion.py:51-54 | Reads the first result's date back as milliseconds |
| Notion.Results | src/clients/notion.py:66-80 | The concatenated `results` of the pages fetched, in request order |
| Notifier.SideColor | src/monitor/notifier.py:40 | 3066993 for "Buy", 15158332 for anything else |
| Notifier.TargetText | src/monitor/notifier.py:37-50 | `str(v) if v else "無"` with `get(key, "")` |
| Notifier.NewOrderEmbed | src/monitor/notifier.py:28-53 | The new-order embed: title, side colour and five fields |
| Notifier.FilledEmbed | src/monitor/notifier.py:57-76 | The fill embed: title, side colour, price and quantity fields |
| Notifier.CancelEmbed | src/monitor/notifier.py:80-93 | The cancel embed: title, grey, and the original price as a description |
| Notifier.UnrealisedPnl | src/monitor/notifier.py:105 | The unrealised PnL, 0 when missing |
| Notifier.PnlEmoji | src/monitor/notifier.py:111 | The green emoji for PnL ≥ 0, the red one otherwise |
| Notifier.PositionEmbed | src/monitor/notifier.py:97-123 | The position embed: title, PnL colour, size, entry price and PnL fields |
| Notifier.PostErrors | src/monitor/notifier.py:17-26 | The error lines `_send` logs for a run of posts, in order |
| Monitor.Items | src/monitor/ws_manager.py:21 | `message.get("data", [])` |
| Monitor.OrderRoute | src/monitor/ws_manager.py:23-30 | The calls for one order: new-order for "New", cancel for "Cancelled", none otherwise |
| Monitor.OrderNotifications | src/monitor/ws_manager.py:17-35 | The calls the order callback makes for a batch, in item order |
| Monitor.ExecutionNotifications | src/monitor/ws_manager.py:37-44 | The calls the execution callback makes: one fill per item |
| Monitor.PositionNotifications | src/monitor/ws_manager.py:46-53 | The calls the position callback makes: one update per snapshot |
| Monitor.Delivery | src/monitor/notifier.py:13-125 | What one notifier call does with the webhook set: post its one-embed payload, post nothing (size 0), or raise (missing size) |
| Monitor.Dispatch | src/monitor/ws_manager.py:22-53 | Making a callback's calls in order: payloads posted only when the webhook is set, and the first raise ends the callback |
| Chunking.ChunkEnd | src/services/sync.py:41 | `current_end`: the chunk start plus seven days less one millisecond, capped at `end_time_ms` |
| Sync.ChunkQuery | src/services/sync.py:46-51 | The arguments of one fetch: account type "UNIFIED", category "linear", and the chunk's start and end |
| Sync.Pnl | src/services/sync.py:69-71 | `change + fee`, each 0.0 when missing |
| Sync.TimestampKey | src/services/sync.py:90 | The sort key `r['timestamp']`, which the transform always sets |
| Notion.NumberOf | src/clients/notion.py:147 | `v.get('number')`: the number of a number property, None for any other kind |
| Notion.IsNullFloat | src/clients/notion.py:147 | The comprehension's test `isinstance(n, float) and n is None` |
| Notion.Titles | src/clients/notion.py:133-144 | The dictionary keys of a list of columns, one per column, in order |
| Notion.TitleInjective | src/clients/notion.py:133-144 | Two columns have the same key iff they are the same column, so keying properties by column loses nothing |
| Notion.LedgerTitles | src/clients/notion.py:133-144 | The keys of the eight ledger columns are the literal strings of the dictionary, in order |
| Notion.LastSyncRequest | src/clients/notion.py:43-47 | The query of `get_last_sync_timestamp`: the database, sorted descending on the column, page size 1, no cursor |
| Notion.PageRequest | src/clients/notion.py:72-76 | A pagination query: the database, the current cursor, page size 100, no sort |
| Notion.Continues | src/clients/notion.py:79 | The loop asks for another page iff the reply succeeded with `has_more` |
| Notifier.Str | src/monitor/notifier.py:47-48 | `str()` of a possibly missing string: the value itself, or "None" |
| Notifier.DiscordNotifier.Enabled | src/monitor/notifier.py:14 | `not self.webhook_url` is false: the URL is present and non-empty |
| Chunking.PlanContiguous | src/services/sync.py:37-57 | The plan is non-empty iff start < end, its first chunk starts at the window start, and each next chunk starts one millisecond after the previous one ends |
| Chunking.PlanBounds | src/services/sync.py:39-41 | Every chunk satisfies start ≤ chunk.start ≤ chunk.end ≤ end and spans at most 604 800 000 ms |
| Chunking.PlanDisjoint | src/services/sync.py:41-57 | Chunks are strictly increasing and never overlap |
| Chunking.PlanCount | src/services/sync.py:39-57 | The number of chunks is ⌈(end − start) / 7 days⌉ when start < end, and 0 otherwise |
| Chunking.PlanCoverage | src/services/sync.py:39-57 | An instant is fetched iff it lies in [start, CoverageEnd]: up to `end_time_ms` itself, but one short of it when (end − start) is a multiple of seven days |
| Chunking.WindowEndCovered | src/services/sync.py:39 | The window's last instant is fetched iff (end − start) mod 7 days ≠ 0 |
| Sync.SyncService.FetchTransactions | src/services/sync.py:36-57 | The queries issued are the `FetchRun` of the chunk plan and the rows returned are its rows: chunks are asked for in order as ("UNIFIED", "linear", start, end), and the loop stops after the first failing fetch |
| Sync.FetchRunFollowsPlan | src/services/sync.py:39-51 | The k-th query is the query for the k-th chunk, at most one query is made per chunk, and at least one is made when the window is non-empty |
| Sync.FetchRunStopsAtFailure | src/services/sync.py:45-55 | Every fetch before the last one succeeded; if fewer queries were made than there are chunks, the last fetch failed, so no later chunk is requested |
| Sync.FetchRunRows | src/services/sync.py:52-55 | The rows kept are the rows of every successful fetch in request order, so rows fetched before a failure are still processed |
| Sync.FetchRunWithoutFailures | src/services/sync.py:39-57 | When no fetch fails, every chunk is queried in order and all their rows are kept |
| Sync.Transform | src/services/sync.py:65-87 | A row is skipped iff it is not a TRADE or abs(change + fee) < 0.5, so abs == 0.5 is kept. A kept row without a transaction time raises. Otherwise the record has pnl = change + fee, fee = fee (0 when missing), size and price as given or 0 when missing, the row's symbol, side and time, and subaccount "Main Account" |
| Sync.SyncService.BuildRecords | src/services/sync.py:62-87 | The record list built by the loop is `Normalise` of the rows |
| Sync.NormaliseOkIff | src/services/sync.py:65-87 | Building records succeeds iff no kept row lacks its transaction time |
| Sync.NormaliseStopsAtFault | src/services/sync.py:84 | Once a row raises, later rows change nothing: the outcome is that raise |
| Sync.NormaliseAppend | src/services/sync.py:65-87 | The records of two consecutive row lists are those of the first followed by those of the second, and the first raise wins |
| Sync.NormaliseMembers | src/services/sync.py:65-87 | Every record comes from a row that transforms to it, and every row that transforms to a record contributes it |
| Sync.SyncBatchOrdered | src/services/sync.py:89-94 | The batch is sorted ascending by timestamp, is a permutation of the built records, keeps row order among equal timestamps, and is empty iff no record was built |
| Sync.SyncBatchRecords | src/services/sync.py:65-90 | Every record in the batch comes from a TRADE row, carries subaccount "Main Account" and a timestamp, and has abs(pnl) ≥ 0.5 |
| Sync.SyncService.RunSync | src/services/sync.py:19-100 | The exchange sees exactly the chunk queries up to the first failure. If a row raises, the ledger sees nothing. If the batch is empty, the ledger sees nothing and the run ends quietly. Otherwise the ledger sees exactly one `create_records` run over the whole sorted batch, and its error is the outcome |
| Sorting.StableSortSorted | src/services/sync.py:90 | The sorted list is ascending by key |
| Sorting.StableSortPermutes | src/services/sync.py:90 | The sorted list is a permutation of its input |
| Sorting.StableSortStable | src/services/sync.py:90 | For every key, the elements with that key keep their input order |
| Sorting.StableSortUnique | src/services/sync.py:90 | Any sorted list with the same per-key runs as the input equals `StableSort` of it, so the model is exactly Python's stable `list.sort` |
| Sorting.SortedRunsDetermine | src/services/sync.py:90 | Two sorted lists with the same run for every key are equal |
| Sorting.InsertKeepsOrder | src/services/sync.py:90 | Inserting into a sorted list keeps it sorted |
| Sorting.InsertPermutes | src/services/sync.py:90 | Inserting adds exactly the inserted element |
| Sorting.InsertKeepsRuns | src/services/sync.py:90 | Inserting never moves an element past one with an equal key |
| Sorting.WithKeyMembers | src/services/sync.py:90 | A run for key k holds only input elements with key k |
| Notion.Lookup | src/clients/notion.py:133-147 | A column has a value iff some entry of the property dictionary names it |
| Notion.Columns | src/clients/notion.py:133-147 | The key list has one key per entry, in entry order |
| Notion.NoValueIsNullFloat | src/clients/notion.py:147 | The comprehension's test (a float that is None) holds for no value |
| Notion.DropNullNumbersKeepsAll | src/clients/notion.py:147 | The comprehension returns its input unchanged |
| Notion.SchemaColumns | src/clients/notion.py:133-144 | The schema has exactly the eight columns in source order, and their titles are the dictionary keys "Symbol", "Side", "Size", "Entry/Exit Price", "Fee", "PnL", "Timestamp", "Subaccount" |
| Notion.SchemaLookups | src/clients/notion.py:131-144 | Size and price are carried as given, null included; a missing timestamp is dated 0 ms; a missing subaccount becomes "Main Account" |
| Notion.MappingKeepsAllColumns | src/clients/notion.py:121-147 | `_map_to_notion_properties` returns all eight keys, with the same Size, Entry/Exit Price, Timestamp and Subaccount values as the schema; a null Size or Price stays in the payload |
| Notion.LookupFinds | src/clients/notion.py:133-147 | A dictionary lookup finds the first entry for its key |
| Notion.NotionSdk.Query | src/clients/notion.py:43-47 | A query is logged and answered with the next scripted reply |
| Notion.NotionSdk.Create | src/clients/notion.py:100-103 | A create is logged and answered with the next scripted reply |
| Notion.LastSyncOutcome | src/clients/notion.py:42-57 | The result is None iff the query succeeds with no results; an API error, and only an API error, becomes `NotionApiException`; a non-empty success whose first page has a date gives exactly that date, and `MalformedPage` arises iff the first page's date cannot be read |
| Notion.NotionClient.GetLastSyncTimestamp | src/clients/notion.py:32-57 | One descending, page-size-1 query on the timestamp column is sent, and the result is `LastSyncOutcome` of its reply |
| Notion.LastSyncReadsBackTimestamp | src/clients/notion.py:48-54 | A page written by the mapping is read back as its record's timestamp |
| Notion.NotionClient.QueryAllRecords | src/clients/notion.py:59-88 | The first request has cursor None, and each later one has the previous reply's `next_cursor`. Every request asks for 100 rows. The loop stops at the first reply without `has_more`, or at an error re-raised as `NotionApiException`. The result is the concatenated `results` in request order |
| Notion.AttemptAt | src/clients/notion.py:99-119 | Each record is sent once or twice |
| Notion.Repeat | src/clients/notion.py:100-117 | A retry sends the very same request again |
| Notion.NotionClient.CreateWithRetry | src/clients/notion.py:98-119 | One record is created; on `rate_limited` it is retried once with identical properties. A failed retry propagates unwrapped, and any other error becomes `NotionApiException` |
| Notion.CreateRequests | src/clients/notion.py:97-103 | The i-th request carries the mapped properties of the i-th record, under the client's database |
| Notion.NotionClient.CreateRecords | src/clients/notion.py:90-119 | The creates sent and the outcome are those of `CreateRun` over the records in list order |
| Notion.CreateRunWithoutErrors | src/clients/notion.py:97-106 | With no error replies, each record is created exactly once, in order, and the run succeeds |
| Notion.CreateRunLength | src/clients/notion.py:97-119 | At most two creates are sent per record, and at least one per record when the run succeeds; the first create is the first record's |
| Notion.CreateRunFollowsRecords | src/clients/notion.py:97-117 | The creates sent are the records' requests in list order, each sent once or twice (twice after `rate_limited`), for a prefix of the records that is all of them when the batch succeeds |
| Notion.CreateRunCounts | src/clients/notion.py:97-119 | The same, with the number of sends per record given by `CreateCounts` |
| Notion.CreateRunRetrySucceeds | src/clients/notion.py:110-117 | A `rate_limited` create whose retry succeeds sends the record twice and then goes on with the next record |
| Notion.CreateCounts | src/clients/notion.py:97-119 | How many creates the loop sends for each record it reaches: one, or two after `rate_limited`, stopping after the record that ends the batch |
| Notion.Expand | src/clients/notion.py:97-117 | The requests of a prefix of the records, each repeated its number of times, in list order |
| Notion.CreateRun | src/clients/notion.py:97-119 | The creates `create_records` sends and how it ends: per record one create, a second identical one after `rate_limited`, and a stop at the first error that is not recovered |
| Notion.CreateRunRetries | src/clients/notion.py:108-117 | Every create that failed without ending the batch was rate-limited, and the next create repeats the same request |
| Notion.CreateRunOutcome | src/clients/notion.py:108-119 | `NotionApiException` follows only a non-rate-limit error on the last create. An unwrapped error follows only a failed retry after `rate_limited`. A successful run's last create succeeded |
| Notifier.FieldNames | src/monitor/notifier.py:45-51 | The names of the fields, one per field, in order |
| Notifier.NewOrderEmbedShape | src/monitor/notifier.py:40-51 | The new-order embed is 3066993 iff the side is "Buy" and 15158332 otherwise. It has five inline fields named 類型, 價格, 數量, 止盈 (TP) and 止損 (SL), in that order |
| Notifier.NewOrderTargets | src/monitor/notifier.py:34-51 | The price and quantity fields show `str()` of their values. The type field is null iff the order has no type. The TP and SL fields show `TargetText` of their values |
| Notifier.TargetTextCases | src/monitor/notifier.py:37-38 | A missing or empty take-profit or stop-loss shows as 無; any other value shows as itself |
| Notifier.FilledEmbedShape | src/monitor/notifier.py:66-74 | The fill embed is green iff the side is "Buy" and red otherwise, with the price field then the quantity field |
| Notifier.CancelEmbedShape | src/monitor/notifier.py:88-93 | The cancel embed is always 9807270 and carries a description, not fields |
| Notifier.PositionEmbedShape | src/monitor/notifier.py:105-122 | The position embed and its emoji are green iff the unrealised PnL is ≥ 0, and red otherwise |
| Notifier.MissingPnlIsGreen | src/monitor/notifier.py:105 | A position without unrealised PnL counts as 0 and is shown green |
| Notifier.PositionDecision | src/monitor/notifier.py:97-125 | A missing size raises, a size of numeric value 0 sends nothing, and any other size builds the position embed |
| Notifier.LogFor | src/monitor/notifier.py:23-26 | A reply logs nothing iff it is HTTP 204, and otherwise exactly one line |
| Notifier.PostErrorsExtend | src/monitor/notifier.py:17-26 | The error log of a run of posts is the log of its first part followed by the log of the rest, wherever the run is split |
| Notifier.PostErrorsClean | src/monitor/notifier.py:23-24 | Posts that all answer 204 log nothing |
| Notifier.DiscordNotifier.Send | src/monitor/notifier.py:13-26 | Without a truthy webhook URL nothing is posted. Otherwise exactly the payload is posted, and a non-204 reply or a failed post is only logged, never raised |
| Notifier.DiscordNotifier.SendOrderNew | src/monitor/notifier.py:28-55 | At most one payload `{"embeds": [new-order embed]}` is posted, and only when the webhook is set |
| Notifier.DiscordNotifier.SendOrderFilled | src/monitor/notifier.py:57-78 | At most one payload `{"embeds": [fill embed]}` is posted, and only when the webhook is set |
| Notifier.DiscordNotifier.SendOrderCancel | src/monitor/notifier.py:80-95 | At most one payload `{"embeds": [cancel embed]}` is posted, and only when the webhook is set |
| Notifier.DiscordNotifier.SendPositionUpdate | src/monitor/notifier.py:97-125 | It raises iff the size is missing, posts nothing for size 0, and otherwise posts one payload holding the position embed when the webhook is set |
| Monitor.OrderRouteCases | src/monitor/ws_manager.py:23-35 | "New" gives one new-order call, "Cancelled" one cancel call, and any other status (Filled included) none |
| Monitor.OrderNotificationsAt | src/monitor/ws_manager.py:22-30 | Each order contributes exactly its own call, between those of the orders before and after it |
| Monitor.OrderNotificationsAppend | src/monitor/ws_manager.py:22-30 | The calls for two consecutive batches are those of each, in order |
| Monitor.OrderNotificationsBound | src/monitor/ws_manager.py:22-30 | At most one call is made per order, and every call is a new-order call for a "New" order or a cancel call for a "Cancelled" order of the batch |
| Monitor.ExecutionNotificationsInOrder | src/monitor/ws_manager.py:41-44 | Every fill gives exactly one fill call, in input order |
| Monitor.PositionNotificationsInOrder | src/monitor/ws_manager.py:50-53 | Every snapshot is forwarded exactly once, in input order |
| Monitor.PositionNotificationsAppend | src/monitor/ws_manager.py:50-53 | The calls for two consecutive position batches are those of each, in order |
| Monitor.NoDataNoNotifications | src/monitor/ws_manager.py:21-22 | A message without `data`, or with an empty list, makes no call in any callback |
| Monitor.DispatchDisabled | src/monitor/notifier.py:14-15 | Without a webhook a callback posts nothing |
| Monitor.DispatchNoPositions | src/monitor/ws_manager.py:22-44 | Order and fill calls never raise. With the webhook set, each one posts exactly the payload of its own embed, in call order |
| Monitor.DispatchNoPositionsSingleEmbed | src/monitor/notifier.py:55 | Every payload posted by the order and execution callbacks holds exactly one embed |
| Monitor.DispatchErrPersists | src/monitor/ws_manager.py:51-53 | After a raise, the rest of the batch is never dispatched |
| Monitor.PositionRaiseEndsBatch | src/monitor/ws_manager.py:51-53 | A position without a size ends the callback with that error; everything posted before it stays posted |
| Monitor.BybitMonitor.OnOrderUpdate | src/monitor/ws_manager.py:17-35 | The posts and the log are those of dispatching `OrderNotifications` of the batch in order |
| Monitor.BybitMonitor.OnExecutionUpdate | src/monitor/ws_manager.py:37-44 | The posts and the log are those of dispatching one fill call per item, in order |
| Monitor.BybitMonitor.OnPositionUpdate | src/monitor/ws_manager.py:46-53 | The posts, the log and the raised error are those of dispatching one update per snapshot, in order, stopping at the first missing size |

## Left out

- `time.sleep` is not modelled: not the 0.4 s pause between Notion requests, not the 60 s back-off before the retry, and not the keep-alive loop in `BybitMonitor.start`. `start` itself (registering the callbacks with the WebSocket) is also out. These affect timing and liveness only.
- The clock is a parameter. `run_sync` receives "now" in milliseconds. ISO-8601 rendering and parsing of dates are not modelled: a Notion date is kept as the millisecond instant it renders. The footer time of the embeds is left out.
- Numbers are `real`. `float()` parsing of exchange strings is abstracted: a position's size and PnL are given both as text and as the value `float` reads. Unparseable text, which would raise `ValueError`, is not modelled. The `:.2f` rendering of the PnL is kept as the number itself.
- A key that is present with the value `null` is not told apart from a missing key, and `message.get("data", [])` with `data: null` is treated as an empty list.
- JSON serialisation, HTTP headers, the webhook URL's use as an address, and the response text in log lines are not modelled. Logging is modelled only as the notifier's error log; informational log lines are left out.
- The WebSocket transport, and concurrency between the three callbacks, are left out. The callbacks share no state.
- The Notion SDK, the exchange adapter and the webhook are scripted. A reply script is finite, and past its end the collaborator answers in a way that ends any loop. So a Notion server that reports `has_more` forever is not modelled: `Notion.NotionClient.QueryAllRecords` terminates on every script.
- Exceptions that the SDK or pybit may raise other than those named in the source are not modelled. Any fetch exception is one `FetchFailed` reply; any Notion error is an `APIResponseError` with a code.
- The records handed to `create_records` come only from `run_sync`. The other fields of a Notion page (id, parent, timestamps) are not modelled; a page is its property dictionary.
- Notion.NotionClient.GetLastSyncTimestamp: the column is one of the eight schema columns; the default argument `"Timestamp"` is not modelled as a default, and column names outside the schema cannot be expressed.
- Notion.LastSyncReadsBackTimestamp: holds because a date is kept as its millisecond instant. The source reads it back as `int(dt.timestamp() * 1000)`, a truncating cast of a float product that can come out one millisecond short; that rounding is not modelled.
