# hermes relay engine — a Dafny model

hermes is a webhook relay service. The core service stores relays, their ordered actions and
their execution logs, and serves them over a JSON API. The hooks service queues each incoming
webhook as a job. The worker service takes each job, claims a deduplication marker for its
event id, fetches the relay's active actions in order, runs each action's executor (Slack is
the one modelled), writes one audit row, and acknowledges the job.

This project models that core in Dafny and proves its behaviour:

- `WorkerStore` (`worker_store.dfy`) is the worker's store over in-memory tables: the
  dedup claim, the ordered action fetch and the audit append.
- `Engine` (`engine.dfy`) is the worker pool. One worker drains the job queue in order.
  `process` runs the dedup → fetch → fail-fast action chain → deferred audit protocol, and
  the ack is decided per job.
- `Slack` (`slack.dfy`) is the Slack sender: config checks, message text, and at most three
  attempts with linear backoff. The HTTP outcomes are an input sequence and the sleeps are a
  recorded delay list.
- `CoreStore` (`core_store.dfy`) is the core relay store: CreateRelay, GetRelay, the
  UpdateRelay statement builder, DeleteRelay and GetLogs, over in-memory tables.
- `Api` (`handlers.dfy`) holds the core API handlers: validation order, the logs limit
  clamp, webhook URLs, error-to-status mapping and the success flag of every response.
- `Wrappers`, `Text` (Go's `strings.TrimSpace`, `strconv.Itoa` and `strconv.Atoi`),
  `Ordering` (ORDER BY and LIMIT as a sort by key plus a prefix), `Json` (decoded JSON
  documents) and `WorkerErrors` (the worker's error values and their texts) are shared
  helpers.

The imperative code is modelled as classes:

- `WorkerStore.Store`, `Engine.WorkerPool`, `CoreStore.RelayStore` and `Api.Handler`
  hold the state and its operations. The loops are methods too: `Engine.WorkerPool.Worker`,
  `Engine.WorkerPool.RunActions`, `CoreStore.RelayStore.CreateRelay`, `Slack.Execute`, and
  the module-level `WorkerStore.ScanActions`, `CoreStore.ReadRows`, `Api.ValidateCreate`
  and `Api.FillWebhookUrls`.
- Each method is proved equal to a pure specification function over a snapshot of the
  tables.
- The properties the source promises are proved as lemmas about those functions.

Database faults, the clock, generated ids and HTTP outcomes are parameters of the
operations, so every error branch of the source not listed under "Left out" is reachable in
the model.

## Model

| member | source | states |
|---|---|---|
| WorkerErrors.Message | services/hermes-worker/internal/store/store.go:44-97 | no error text equals the status word "success", so a failed job's details never read as success |
| WorkerStore.RegisterSpec | services/hermes-worker/internal/store/store.go:69-79 | an empty event id returns (true, nil) and leaves the tables unchanged; an insert error returns (false, error); otherwise isNew holds iff the (relay, event) pair was absent, the pair is then present, and nothing else changes |
| WorkerStore.RegisterTwice | services/hermes-worker/internal/store/store.go:73-78 | a repeated claim of the same non-empty pair returns false with no error and changes nothing |
| WorkerStore.Store.RegisterEvent | services/hermes-worker/internal/store/store.go:69-79 | the results and the new tables are those of RegisterSpec on the old tables |
| WorkerStore.RowsOf | services/hermes-worker/internal/store/store.go:36-40 | each action row of the relay appears exactly as often as in the table, and no other row appears |
| WorkerStore.QueryResult | services/hermes-worker/internal/store/store.go:36-42 | the query rows are sorted ascending by order_index and are a permutation of the relay's action rows when it is active (none otherwise) |
| WorkerStore.DecodeFrom | services/hermes-worker/internal/store/store.go:48-66 | the rows.Next loop: a scan fault at a row, then a config that does not decode, end the loop with their error; after the last row a rows.Err() fault, then an empty list (ErrNoActions), are reported; otherwise the decoded actions in row order |
| WorkerStore.FetchSpec | services/hermes-worker/internal/store/store.go:35-67 | GetRelayActions: a query fault is reported first; otherwise the result set of the join is scanned as DecodeFrom says |
| WorkerStore.DecodeFromSuccess | services/hermes-worker/internal/store/store.go:49-66 | a successful scan yields one action per row, in row order, each decoded from its row, and never an empty list |
| WorkerStore.DecodedSorted | services/hermes-worker/internal/store/store.go:49-59 | actions decoded row by row from rows sorted by order_index are sorted by order_index |
| WorkerStore.FetchSuccess | services/hermes-worker/internal/store/store.go:35-67 | a successful fetch implies the relay is active, returns one action per query row (at least one), each decoded from its row, in ascending order_index |
| WorkerStore.FetchMalformedConfig | services/hermes-worker/internal/store/store.go:55-57 | a row whose config does not parse makes the fetch fail, with no partial list |
| WorkerStore.DecodeFromNeverNotFound | services/hermes-worker/internal/store/store.go:49-66 | the scan never yields ErrRelayNotFound and never an empty success |
| WorkerStore.FetchEmpty | services/hermes-worker/internal/store/store.go:22-25 | the fetch never returns ErrRelayNotFound or an empty list; an empty result, an inactive relay or an absent relay gives ErrNoActions |
| WorkerStore.ScanActions | services/hermes-worker/internal/store/store.go:48-66 | the rows.Next() loop returns what DecodeFrom specifies: the first scan or parse error, then the iteration error, then ErrNoActions for no rows |
| WorkerStore.Store.GetRelayActions | services/hermes-worker/internal/store/store.go:35-67 | the result is FetchSpec of the current tables |
| WorkerStore.LogRowFor | services/hermes-worker/internal/store/store.go:81-95 | the row keeps relay, event and status; payload is NULL iff the payload is empty; error_message is set iff status is not "success" and details is not empty, and then holds details |
| WorkerStore.LogSpec | services/hermes-worker/internal/store/store.go:81-100 | without a write error exactly one row is appended and nothing else changes; with one the tables are unchanged and the error is returned |
| WorkerStore.Store.LogExecution | services/hermes-worker/internal/store/store.go:81-100 | the new tables and the error are those of LogSpec on the old tables |
| Engine.RunChain | services/hermes-worker/internal/engine/worker_pool.go:125-137 | the action loop: an unregistered type stops with the unknown-type error before invoking anything more; an executor error stops with that error annotated by type and order index, after invoking that executor; otherwise the next action runs |
| Engine.SlackExecutor | services/hermes-worker/internal/integrations/slack/slack.go:27-72 | the Slack sender as a registry executor: no error when the send succeeds, otherwise the text of the send error |
| Engine.SlackActionChain | services/hermes-worker/internal/engine/worker_pool.go:125-137 | under a registry mapping "slack" to the Slack sender, a Slack action's chain succeeds exactly when the send does, and otherwise fails with the send error's text annotated by the action's type and order |
| Engine.SlackRetriesDetails | services/hermes-worker/internal/engine/worker_pool.go:125-137 | when every attempt of a Slack action is retryable, the audit detail reads "action slack (order i) failed: slack send failed after retries: " followed by the last attempt's error |
| Engine.ChainIsFailFast | services/hermes-worker/internal/engine/worker_pool.go:125-137 | the invoked actions are a prefix of the fetched list in order; with no error all were invoked and all succeeded; an unknown type stops before the unregistered action and invokes nothing after it; an executor error names that action's type and order index, is the last invoked, and every action before it succeeded |
| Engine.WorkerPool.RunActions | services/hermes-worker/internal/engine/worker_pool.go:125-138 | the loop's error and invoked list are RunChain of the fetched actions |
| Engine.WorkerPool.ExecuteActions | services/hermes-worker/internal/engine/worker_pool.go:121-138 | a fetch error aborts with that error and invokes nothing; otherwise the chain of the fetched actions runs |
| Engine.ProcessSpec | services/hermes-worker/internal/engine/worker_pool.go:93-139 | process: the dedup claim first (its error ends the job untouched, a duplicate ends it with nil), then the fetch and the action chain, then exactly one audit append whose own failure does not change the job's error |
| Engine.IntendedAuditRow | services/hermes-worker/internal/engine/worker_pool.go:109-120 | with the arguments in the signature's order the audit row stores the job's relay and event, "success" iff there was no error, "failed" iff there was, and the error text as error_message |
| Engine.AuditColumnsSwapped | services/hermes-worker/internal/engine/worker_pool.go:116 | as called, the stored event_id is the status word, the stored status is the details text (never "success"), and error_message is the event id whenever that is non-empty |
| Engine.AuditRowDiffers | services/hermes-worker/internal/engine/worker_pool.go:116 | the row written as called differs from the intended row for every job and outcome |
| Engine.DedupFailureStopsJob | services/hermes-worker/internal/engine/worker_pool.go:97-109 | a dedup error ends the job with that error, with no fetch, no executor call and no audit row |
| Engine.DuplicateIsSkipped | services/hermes-worker/internal/engine/worker_pool.go:102-107 | a duplicate event returns no error, invokes nothing and writes no audit row |
| Engine.AuditWrittenOnce | services/hermes-worker/internal/engine/worker_pool.go:109-120 | a job that passes dedup appends exactly one audit row, as called at line 116, and changes no other table but the dedup marker, which is absent for an empty event id |
| Engine.AuditFailureIsNotFatal | services/hermes-worker/internal/engine/worker_pool.go:116-119 | the audit write's failure never changes the job's error or the executors invoked |
| Engine.ProcessErrors | services/hermes-worker/internal/engine/worker_pool.go:93-139 | a job without error is either a duplicate that invoked nothing, or it fetched its actions and invoked every one of them successfully |
| Engine.RedeliveryIsSkipped | services/hermes-worker/internal/engine/worker_pool.go:97-107 | processing the same non-empty event a second time changes nothing, invokes nothing and succeeds |
| Engine.WorkerPool.Process | services/hermes-worker/internal/engine/worker_pool.go:93-139 | the new tables, error and invoked actions are ProcessSpec of the old tables |
| Engine.AckFor | services/hermes-worker/internal/engine/worker_pool.go:74-87 | the ack names the job and is true iff process returned no error |
| Engine.RunSpec | services/hermes-worker/internal/engine/worker_pool.go:58-90 | one worker takes the jobs in queue order, each processed on the tables the previous one left, with one outcome per job |
| Engine.AcksOf | services/hermes-worker/internal/engine/worker_pool.go:62-89 | one ack per dequeued job, in queue order, each AckFor its outcome |
| Engine.SecondDeliveryIsNoOp | services/hermes-worker/internal/engine/worker_pool.go:74-107 | a job delivered twice in a row is processed once: the second run writes no audit row and is acked true |
| Engine.WorkerPool.HandleNext | services/hermes-worker/internal/engine/worker_pool.go:67-87 | one received job is removed from the queue, processed as ProcessSpec says, and acknowledged once, with true exactly when processing returned no error |
| Engine.WorkerPool.Worker | services/hermes-worker/internal/engine/worker_pool.go:58-90 | draining the queue processes each job once in order, leaves the tables RunSpec produces, and appends exactly one ack per job |
| Engine.WorkerPool.constructor | services/hermes-worker/internal/engine/worker_pool.go:32-40 | the pool starts with the given store and registry, an empty queue and no acks |
| Json.StringField | services/hermes-worker/internal/integrations/slack/slack.go:28-29 | a non-empty result is the key's string value; a string value is returned as is; a missing or non-string value reads as "" |
| Slack.Classify | services/hermes-worker/internal/integrations/slack/slack.go:56-67 | an outcome is delivered iff it is a 2xx response, retryable iff it is a transport error, 429 or 5xx, and terminal otherwise |
| Slack.MessageText | services/hermes-worker/internal/integrations/slack/slack.go:34-39 | the text is message_template when that is non-empty, and otherwise the payload in a json code fence |
| Slack.Backoffs | services/hermes-worker/internal/integrations/slack/slack.go:69 | the n-th sleep is 200·n ms |
| Slack.SendMessage | services/hermes-worker/internal/integrations/slack/slack.go:32-71 | the error texts of Execute: missing webhook_url, build request, non-retryable status, and failed after retries with the last error |
| Slack.RetryFrom | services/hermes-worker/internal/integrations/slack/slack.go:49-71 | the retry loop from an attempt on: 2xx succeeds, a terminal status fails at once, a retryable outcome records the last error and sleeps 200·(attempt+1) ms; after the third attempt it fails with the last error |
| Slack.SendSpec | services/hermes-worker/internal/integrations/slack/slack.go:27-72 | Execute: a missing webhook_url fails before any POST, then a request-building error, then the retry loop from the first attempt |
| Slack.FirstSettled | services/hermes-worker/internal/integrations/slack/slack.go:50-70 | the index of the first outcome that is not retryable (3 when all are), with every earlier one retryable |
| Slack.RetryClosedForm | services/hermes-worker/internal/integrations/slack/slack.go:49-71 | the loop stops at the first non-retryable outcome, succeeding on 2xx and failing without retry otherwise, after k+1 posts; after three retryable outcomes it fails with the last one; it sleeps 200, 400, 600 ms, once per retryable attempt including the last |
| Slack.RetriesExhaustedSend | services/hermes-worker/internal/integrations/slack/slack.go:49-71 | three retryable outcomes give three POSTs, sleeps of 200, 400 and 600 ms, and the failed-after-retries error carrying the last outcome |
| Slack.SendBounds | services/hermes-worker/internal/integrations/slack/slack.go:27-72 | at most three posts; strictly growing sleeps, no more than the posts; a missing webhook_url fails before any post; success means the last post got a 2xx |
| Slack.Execute | services/hermes-worker/internal/integrations/slack/slack.go:27-72 | the error and the sleeps are SendSpec's, and every post goes to the webhook URL with the chosen text |
| Text.TrimSpace | services/hermes-core/internal/api/handlers.go:60-66 | strings.TrimSpace: leading then trailing unicode.IsSpace characters are dropped |
| Text.Atoi | services/hermes-core/internal/api/handlers.go:141 | strconv.Atoi on 64-bit ints: an optional sign and at least one digit, nothing else, in the int64 range; anything else is an error |
| Text.IntToString | services/hermes-core/internal/api/handlers.go:76 | strconv.Itoa: decimal digits without leading zeros, with a minus sign for negatives |
| Text.TrimSpaceEmpty | services/hermes-core/internal/api/handlers.go:60-66 | TrimSpace(s) is empty iff s is all white space |
| Text.AtoiOfIntToString | services/hermes-core/internal/api/handlers.go:141 | Atoi parses back every printed int64 |
| Ordering.SortByKey | services/hermes-core/internal/store/relay_store.go:154-158 | ORDER BY: the result is sorted by the key and is a permutation of the input |
| Ordering.InsertByKey | services/hermes-core/internal/store/relay_store.go:154-158 | inserting into a sorted list keeps it sorted and adds exactly that element |
| Ordering.Take | services/hermes-core/internal/store/relay_store.go:263-268 | LIMIT: the first n rows, or all when fewer (none for n ≤ 0) |
| Ordering.TakeSorted | services/hermes-core/internal/store/relay_store.go:263-268 | a prefix of a sorted list is sorted |
| Json.EncodeObject | services/hermes-core/internal/store/relay_store.go:67-80 | unmarshalling a marshalled config gives back the same config |
| CoreStore.ErrorsIs | services/hermes-core/internal/api/handlers.go:163 | errors.Is against a sentinel: true only for the sentinel value itself, not for a fresh error with the same text |
| CoreStore.NotFoundAsWrittenIsNotSentinel | services/hermes-core/internal/store/relay_store.go:147-149 | the fresh "relay not found" error reads the same as the sentinel but is not errors.Is the sentinel |
| CoreStore.RelayOf | services/hermes-core/internal/store/relay_store.go:136-146 | a scanned relay keeps its id and webhook path and has an empty webhook URL |
| CoreStore.RelayInsertArgs | services/hermes-core/internal/store/relay_store.go:38-46 | the relay insert passes one argument per column |
| CoreStore.RelayInsertAsWrittenMismatch | services/hermes-core/internal/store/relay_store.go:32-33 | as written, the VALUES list has 6 entries for 8 columns and 8 arguments, and its sixth entry is not the placeholder $6 |
| CoreStore.RelayInsertMatches | services/hermes-core/internal/store/relay_store.go:32-46 | the corrected VALUES list has one placeholder $k per column and per argument |
| CoreStore.InsertActionCauseLost | services/hermes-core/internal/store/relay_store.go:75-77 | as written, two different insert failures give the same error; the corrected error keeps the cause |
| CoreStore.NewActionRows | services/hermes-core/internal/store/relay_store.go:65-82 | one action row per requested action, in request order, with the given id, the new relay's id, the requested type and order index, and a config that decodes back to the requested one |
| CoreStore.CreatedActions | services/hermes-core/internal/store/relay_store.go:65-82 | one returned action per requested action |
| CoreStore.CreateSpec | services/hermes-core/internal/store/relay_store.go:23-92 | the create transaction: begin, relay insert (a taken id fails), each action insert, commit, in that order; any failure rolls back and leaves the tables; success adds the relay row and its action rows |
| CoreStore.CreateRelayShape | services/hermes-core/internal/store/relay_store.go:23-92 | success iff no fault and a fresh id; then the relay has path "/hooks/"+id, is active, keeps the request's fields, and has one action per request action in request order with the requested type, config and order index; the relay row is added and exactly NewActionRows is appended to the action rows; any failure leaves the tables unchanged (the transaction rolls back) |
| CoreStore.RelayStore.CreateRelay | services/hermes-core/internal/store/relay_store.go:23-92 | the result and the new tables are those of CreateSpec on the old tables |
| CoreStore.DecodeRows | services/hermes-core/internal/store/relay_store.go:167-193 | the rows.Next loop of GetRelay and GetLogs: a scan fault at a row, then a row that does not decode, end it with their error; a rows.Err() fault is seen after the last row |
| CoreStore.DecodeRowsSuccess | services/hermes-core/internal/store/relay_store.go:167-193 | a successful scan loop yields one value per row, in row order, each the decoding of its row |
| CoreStore.DecodeRowsFailure | services/hermes-core/internal/store/relay_store.go:168-193 | the first row that fails to decode, with no scan fault at or before it, ends the loop with its error, ahead of any later scan fault and of the rows.Err() check |
| CoreStore.ReadRows | services/hermes-core/internal/store/relay_store.go:167-193 | the rows.Next() loop returns what DecodeRows specifies |
| CoreStore.ActionsOf | services/hermes-core/internal/store/relay_store.go:154-157 | each action row of the relay appears exactly as often as in the table, and no other row appears |
| CoreStore.DecodeAction | services/hermes-core/internal/store/relay_store.go:168-188 | a decoded action keeps its row's relay, order index and type, and decoding fails iff the config is not a JSON object or null |
| CoreStore.ActionQueryRows | services/hermes-core/internal/store/relay_store.go:154-158 | the action query returns only the relay's rows, sorted ascending by order_index |
| CoreStore.DecodedActions | services/hermes-core/internal/store/relay_store.go:168-189 | decoding keeps the rows' order and relay |
| CoreStore.GetSpec | services/hermes-core/internal/store/relay_store.go:129-199 | GetRelay: the relay query's fault, then a missing relay (the sentinel), then the actions query's fault, then the scan of the relay's actions ordered by order_index |
| CoreStore.GetRelayResult | services/hermes-core/internal/store/relay_store.go:129-199 | an absent relay gives ErrRelayNotFound; a found relay comes with one action per action row, all its own, ascending by order_index |
| CoreStore.RelayStore.GetRelay | services/hermes-core/internal/store/relay_store.go:129-199 | the result is GetSpec of the current tables |
| CoreStore.Positions | services/hermes-core/internal/store/relay_store.go:203-222 | the placeholder numbers 1..n in order |
| CoreStore.AppendPiece | services/hermes-core/internal/store/relay_store.go:203-222 | appending a piece appends its text and its placeholder |
| CoreStore.Opening | services/hermes-core/internal/store/relay_store.go:202 | the opening renders as its text followed by $1 and binds placeholder 1 |
| CoreStore.Emit | services/hermes-core/internal/store/relay_store.go:206-222 | appending a fragment extends the text and adds the placeholder it refers to, if any |
| CoreStore.AddField | services/hermes-core/internal/store/relay_store.go:206-220 | a set field appends its fragment and one argument and advances argIdx; an unset field changes nothing; len(args) == argIdx - 1 is kept |
| CoreStore.PrintField | services/hermes-core/internal/store/relay_store.go:206-220 | as written, a %d fragment prints a number instead of a placeholder, so it binds no placeholder while still appending an argument |
| CoreStore.FieldsAsWritten | services/hermes-core/internal/store/relay_store.go:206-220 | as written, the three optional fields append one argument each when set, in the order name, description, is_active, bind no placeholder, and is_active's argument is the field's address |
| CoreStore.Finish | services/hermes-core/internal/store/relay_store.go:221-222 | the WHERE clause binds placeholder argIdx to the relay id, which is then argument number argIdx |
| CoreStore.BuildUpdateQueryAsWritten | services/hermes-core/internal/store/relay_store.go:201-222 | the statement as written opens with UPDATEA and binds only $1 and $argIdx while it passes FieldCount+2 arguments, so with any field set it binds fewer placeholders than arguments; is_active is bound by address |
| CoreStore.FieldArgs | services/hermes-core/internal/store/relay_store.go:206-220 | one argument per set field, in the order name, description, is_active |
| CoreStore.PlaceField | services/hermes-core/internal/store/relay_store.go:206-220 | the corrected field step keeps the placeholders equal to 1..len(args) |
| CoreStore.Fields | services/hermes-core/internal/store/relay_store.go:203-220 | after the optional fields the arguments are the old ones plus the set fields in order, and the placeholders are 1..len(args) |
| CoreStore.BuildUpdateQuery | services/hermes-core/internal/store/relay_store.go:201-222 | the corrected statement's placeholders are exactly 1..len(args); the arguments are now, the set fields in order, then the relay id; with no field set it is "... = $1 WHERE id = $2 ..." with arguments [now, id] |
| CoreStore.UpdatedRow | services/hermes-core/internal/store/relay_store.go:201-233 | a set field replaces the stored value and an unset one keeps it; updated_at is now; id, user, path and created_at are kept |
| CoreStore.UpdateSpec | services/hermes-core/internal/store/relay_store.go:201-242 | UpdateRelay: a statement fault, then a missing relay (the sentinel), otherwise the row with the given fields replaced and updated_at set |
| CoreStore.UpdateRelayEffect | services/hermes-core/internal/store/relay_store.go:201-242 | success iff no fault and the relay exists; then the stored row is replaced by the updated row and nothing else changes; an absent relay gives ErrRelayNotFound and a failure changes nothing; the returned relay has the request's fields over the stored ones |
| CoreStore.RelayStore.UpdateRelay | services/hermes-core/internal/store/relay_store.go:201-242 | the statement's arguments are now, the set fields in order, and the relay id; the result and the new tables are those of UpdateSpec on the old tables |
| CoreStore.DeleteSpec | services/hermes-core/internal/store/relay_store.go:244-256 | DeleteRelay: a statement fault, then no row affected (the sentinel), otherwise the relay row is removed |
| CoreStore.DeleteTwice | services/hermes-core/internal/store/relay_store.go:244-256 | a delete succeeds iff the relay existed, and then the only change is that relay's removal; deleting a missing relay reports ErrRelayNotFound and changes nothing; a second delete of the same id always does |
| CoreStore.RelayStore.DeleteRelay | services/hermes-core/internal/store/relay_store.go:244-256 | the error and the new tables are those of DeleteSpec on the old tables |
| CoreStore.EffectiveLimit | services/hermes-core/internal/store/relay_store.go:259-261 | a limit ≤ 0 becomes 50 and a positive limit passes through |
| CoreStore.LogsOf | services/hermes-core/internal/store/relay_store.go:263-266 | each log row of the relay appears exactly as often as in the table, and no other row appears |
| CoreStore.LogsSpec | services/hermes-core/internal/store/relay_store.go:258-313 | GetLogs: a query fault, otherwise the scan of the relay's logs newest first, at most the effective limit |
| CoreStore.DecodeLog | services/hermes-core/internal/store/relay_store.go:278-305 | a decoded log keeps its row's relay and time; a NULL payload stays absent; a NULL error_message reads ""; decoding fails iff the payload is present and is neither a JSON object nor null |
| CoreStore.LogQueryRows | services/hermes-core/internal/store/relay_store.go:263-271 | the query returns min(limit, count) of the relay's rows, newest first |
| CoreStore.GetStored | services/hermes-core/internal/store/relay_store.go:129-199 | a relay whose action rows are a reordering of rows that decode to given actions reads back as that relay with a reordering of those actions, ascending by order_index |
| CoreStore.DecodedPermutation | services/hermes-core/internal/store/relay_store.go:168-189 | decoding two orderings of the same rows gives two orderings of the same actions |
| CoreStore.CreateThenGet | services/hermes-core/internal/store/relay_store.go:23-199 | after a successful create, reading the relay back with no fault succeeds and returns the created relay and exactly the created actions, ascending by order_index, provided no action row already named the new id |
| CoreStore.DecodedLogs | services/hermes-core/internal/store/relay_store.go:277-306 | a successful scan of a page yields one log per row, keeping the rows' relay and newest-first order |
| CoreStore.GetLogsPage | services/hermes-core/internal/store/relay_store.go:258-313 | a page holds min(effective limit, count) logs, all of the relay, newest first |
| CoreStore.RelayStore.GetLogs | services/hermes-core/internal/store/relay_store.go:258-313 | the result is LogsSpec of the current tables |
| Api.RespondError | services/hermes-core/internal/api/handlers.go:34-40 | an error response has success false and carries the status, message and code |
| Api.RespondSuccess | services/hermes-core/internal/api/handlers.go:42-48 | a success response has success true and carries the status, message and data |
| Api.HttpError | services/hermes-core/internal/api/handlers.go:57 | http.Error writes the message plus a newline as plain text with the status |
| Api.WebhookUrl | services/hermes-core/internal/api/handlers.go:97 | the URL is the base URL followed by the webhook path |
| Api.WithUrl | services/hermes-core/internal/api/handlers.go:175 | only webhookUrl changes, and it becomes base URL + path |
| Api.WithUrls | services/hermes-core/internal/api/handlers.go:125-127 | every relay of the list gets its URL and nothing else changes |
| Api.FillWebhookUrls | services/hermes-core/internal/api/handlers.go:125-127 | the in-place loop leaves the array equal to WithUrls of its old contents |
| Api.ActionProblem | services/hermes-core/internal/api/handlers.go:74-85 | an action is rejected iff its type is empty or its config is nil; an empty type is reported first, and the message names the index |
| Api.FirstActionProblemIsFirst | services/hermes-core/internal/api/handlers.go:73-86 | the action loop passes iff every action is valid, and otherwise reports the first invalid one |
| Api.CreateValidation | services/hermes-core/internal/api/handlers.go:60-86 | the create checks in source order: blank name, blank user id, no actions, then the first action with an empty type or no config |
| Api.CreateValidationOrder | services/hermes-core/internal/api/handlers.go:60-86 | the first failing check wins, in the order blank name, blank user id, no actions, first bad action; validation passes iff none fails |
| Api.ValidateCreate | services/hermes-core/internal/api/handlers.go:60-86 | the checks' loop returns CreateValidation of the request |
| Api.LogsLimit | services/hermes-core/internal/api/handlers.go:139-144 | the limit is 50 unless the parameter parses to a positive number, which is then capped at 200; it is always in [1, 200] |
| Api.LogsLimitOfNumber | services/hermes-core/internal/api/handlers.go:139-147 | a printed number n gives 50 for n ≤ 0 and min(n, 200) otherwise, and the store uses that limit unchanged |
| Api.StoreErrorResponse | services/hermes-core/internal/api/handlers.go:161-173 | 404 iff the error is errors.Is ErrRelayNotFound, and 500 with DB_ERROR otherwise |
| Api.NotFoundAsWrittenIsServerError | services/hermes-core/internal/api/handlers.go:163-172 | the store's not-found error as written is answered 500, never 404 |
| Api.CreateResponse | services/hermes-core/internal/api/handlers.go:50-106 | CreateRelay: plain-text 400 for bad JSON, a 400 validation error, a 500 on a store error, else 201 with the webhook URL filled in |
| Api.CreateRelayHandling | services/hermes-core/internal/api/handlers.go:50-106 | bad JSON is a plain 400; a failed validation is a 400 with VALIDATION_ERROR that does not depend on the store and leaves it unchanged; a 201 carries the new relay with URL base+"/hooks/"+id; a 500 leaves the tables unchanged; the success flag matches the status |
| Api.GetRelayResponse | services/hermes-core/internal/api/handlers.go:158-182 | GetRelay: the store error mapped to 404 or 500, else 200 with the webhook URL filled in |
| Api.GetRelayHandling | services/hermes-core/internal/api/handlers.go:158-182 | an absent relay is a 404; a 200 carries the relay with its URL and its actions in ascending order; the success flag matches the status |
| Api.UpdateResponse | services/hermes-core/internal/api/handlers.go:184-211 | UpdateRelay: 400 for bad JSON, 400 when no field is set, the store error mapped to 404 or 500, else 200 with the updated relay and its URL |
| Api.UpdateRelayHandling | services/hermes-core/internal/api/handlers.go:184-211 | bad JSON and an empty update are 400s checked before the store; an absent relay is a 404; a 200 carries the relay with its URL and changes no other table; the success flag matches the status |
| Api.DeleteResponse | services/hermes-core/internal/api/handlers.go:213-232 | DeleteRelay: the store error mapped to 404 or 500, else 200 with the deleted id |
| Api.DeleteRelayHandling | services/hermes-core/internal/api/handlers.go:213-232 | deleting an existing relay answers 200 with its id, an absent one 404, and a repeated delete 404 with no change |
| Api.LogsResponse | services/hermes-core/internal/api/handlers.go:137-156 | GetRelayLogs: the clamped limit passed to the store, 500 on a store error, else 200 with the logs |
| Api.LogsHandling | services/hermes-core/internal/api/handlers.go:137-156 | a 200 carries at most the clamped limit of the relay's own logs, newest first; the success flag matches the status |
| Api.AllRelaysResponse | services/hermes-core/internal/api/handlers.go:109-135 | GetAllRelays: 500 on a listing error, else 200 with every relay's URL filled in |
| Api.AllRelaysHandling | services/hermes-core/internal/api/handlers.go:109-135 | the listing succeeds iff the answer is 200, which carries every relay with only its URL filled in |
| Api.Handler.constructor | services/hermes-core/internal/api/handlers.go:22-24 | the handler uses the given store and the base URL http://localhost:8080 |
| Api.Handler.CreateRelay | services/hermes-core/internal/api/handlers.go:50-106 | the response and the new tables are those of CreateResponse |
| Api.Handler.GetAllRelays | services/hermes-core/internal/api/handlers.go:109-135 | the response is AllRelaysResponse of the listing |
| Api.Handler.GetRelayLogs | services/hermes-core/internal/api/handlers.go:137-156 | the response is LogsResponse of the current tables |
| Api.Handler.GetRelay | services/hermes-core/internal/api/handlers.go:158-182 | the response is GetRelayResponse of the current tables |
| Api.Handler.UpdateRelay | services/hermes-core/internal/api/handlers.go:184-211 | the response and the new tables are those of UpdateResponse |
| Api.Handler.DeleteRelay | services/hermes-core/internal/api/handlers.go:213-232 | the response and the new tables are those of DeleteResponse |

## Left out

- The goroutine pool (`Start`, the `select` on cancellation in `worker`, the WaitGroup and `Shutdown`) is concurrency and cancellation. One worker is modelled as a sequential loop draining the queue. The queue's capacity of 100 only bounds a blocking channel send by the producer, which is not part of this model.
- SQL execution through pgx, row scanning and JSON marshalling are replaced by in-memory tables and decoded JSON documents. A config or payload either parses or it does not. Backend errors are fault parameters of each operation.
- `json.Marshal` errors (slack.go:44-47, relay_store.go:67-70) are left out: marshalling a map of decoded JSON values cannot fail.
- The `json.Unmarshal` error of CreateRelay (relay_store.go:78-80) has no input in the model: the stored config is the marshalled request config, and `Json.EncodeObject` proves it decodes back.
- The HTTP client of the Slack sender, its 5-second timeout and `time.Sleep` are left out. Outcomes are an input sequence, sleeps are a recorded list of delays, and the request-building error is a parameter.
- Contexts, including the 3-second audit context at worker_pool.go:110, timeouts and cancellation are left out.
- `time.Now` and UUID generation are parameters (`now`, `relayId`, the action ids).
- Structured logging is left out throughout.
- The action registry (registry.go) is not part of this model. It is a map from action type to an executor function, and the text of its unknown-type error is assumed.
- In `Engine` an executor is a function from config and payload to an optional error text. `Engine.SlackExecutor` puts the Slack sender in that form; other executors are left open.
- `CoreStore.RelayStore.UpdateRelay` returns the statement's arguments, but the SQL meaning of the statement text is not modelled: the update's effect is given by `CoreStore.UpdateSpec`.
- The hooks service, the router and the JSON encoding in `respondJSON` (with its encode error) are left out.
- `GetAllRelays`'s store query is left out. The handler takes its result, a listing or an error, as an input.
- `HealthCheck` is left out.
- Bytes are modelled as characters: payloads and bodies are strings.
- ON DELETE CASCADE of action rows is left out. `DeleteRelay` removes the relay row only.
- CoreStore.CreateThenGet: takes as a precondition that no action row already names the new relay id. Relay ids are fresh UUIDs, and the model has no referential integrity between the two tables that would give this.
- The order among rows with equal order_index or equal executed_at is left out. The model fixes one order and proves only the sortedness the query guarantees.
- The declaration of the core store's `ErrRelayNotFound` is not part of this model. It is modelled as a sentinel error value.
- `Engine.WorkerPool.Process` keeps the audit call's argument order as written at worker_pool.go:116. The intended row is `Engine.IntendedAuditRow`, and the two are related by `Engine.AuditRowDiffers`.
- `CoreStore.RelayStore`, `CoreStore.RelayStore.CreateRelay` and the other store methods use the corrected statements and errors listed under Findings. The as-written forms are modelled beside them.

## Findings

| source | as written | input that shows it | evidently intended | confidence | as-written member | corrected member |
|---|---|---|---|---|---|---|
| services/hermes-worker/internal/engine/worker_pool.go:116 | `LogExecution(ctx, relayID, status, details, eventID, payload)` against the signature `(ctx, relayID, eventID, status, details, payload)` | any job that passes dedup, e.g. event id "e1" with no error: event_id "success", status "Relay executed successfully", error_message "e1" | the row stores the job's event id, its status and its error text | high, not executed | Engine.AuditColumnsSwapped | Engine.IntendedAuditRow |
| services/hermes-core/internal/store/relay_store.go:202-222 | the statement opens with `UPDATEA`, the field fragments print `name=%d` and so on without `$`, and `&req.IsActive` passes the address of the field | any update with a field set, e.g. only name: the text has one unbound argument and no SQL verb | `UPDATE`, `name=$k` placeholders, and the bool value as argument | high, not executed | CoreStore.BuildUpdateQueryAsWritten | CoreStore.BuildUpdateQuery |
| services/hermes-core/internal/store/relay_store.go:33 | `VALUES($1,$2,$3,$4,$5,$6.$7.$8)` | any CreateRelay: 6 value entries for 8 columns | `VALUES($1,...,$8)` | high, not executed | CoreStore.RelayInsertAsWrittenMismatch | CoreStore.RelayInsertMatches |
| services/hermes-core/internal/store/relay_store.go:76 | `fmt.Errorf("insert action: %w")` with no operand | two action-insert failures with different causes give the same error text | the driver error wrapped with `%w` | high, not executed | CoreStore.InsertActionCauseLost | CoreStore.InsertActionError |
| services/hermes-core/internal/api/handlers.go:163 | `errors.Is(err, store.ErrRelayNotFound)`, while the store returns a fresh `fmt.Errorf("relay not found")` at relay_store.go:148, 235 and 252 | GET, PUT or DELETE of an absent relay id: the answer is 500 "Failed to ...", not 404 | the store returns the sentinel, so the handlers answer 404 | high, not executed | Api.NotFoundAsWrittenIsServerError | Api.StoreErrorResponse |
