# Order-feed ingestion core, modelled in Dafny

This project models the ingestion engine of an order-feed sync node that
mirrors asks and bids from an order API into a database:

- **Backfill workers** (`BackfillWorkers`) drain one bounded time range by
  cursor pagination. The class `BackfillWorker` keeps the cursor, the
  `isRunning`/`isDone` flags and the counters of the source. Its `Start`
  method runs the `run` generator and the `start` loop over a finite
  sequence of page outcomes, and is proved against the pure function
  `Drain`.
- **The upkeep worker** (`UpkeepWorkers`) tails the feed from a watermark.
  One iteration of its `start` runs up to the self-recursive call. The
  class `UpkeepWorker` is proved against the pure `Iteration`, for the
  code's order of assignments and for the corrected order (see "Findings").
- **The base indexer** (`BaseIndexer`, with `DayRanges` and `Interfaces`)
  has several parts:
  - the fresh-start partition of `[start, now]` into one-day ranges;
  - restoring workers from a saved snapshot;
  - the backfill and upkeep snapshots;
  - the upkeep start choice.

  The saved state lives in an abstract store keyed by (state key, field).
- **The websocket service** (`Websocket`) is the connection state machine:
  `connect`, the open, close and message handlers, the subscription burst,
  the reconnect timer and the watchdog tick. The current time is passed in
  as a parameter. Timers are option-valued fields. Ghost counters of the
  scheduled callbacks show that at most one reconnect timer and one watchdog
  are ever live.
- **Order mapping** (`MapOrders`) covers `getBidType`, the conditional
  fields of `mapBid`/`mapAsk`, and the two indexers' extraction step, where
  the asks indexer keeps only token orders.
- **The order store** (`OrderStorage`) is an id-keyed map with upsert and
  in-order bulk upsert.

A page source is a sequence of `Attempt`s. Each one is one of:

- a rejected fetch;
- a rejected extraction;
- a page of items with its continuation and whether its commit resolved.

When the sequence runs out, the worker is still awaiting a response.

Timestamps are integers in epoch milliseconds. Days are UTC days. A JS
continuation is "truthy" when it is present and non-empty.

Two behaviours of the code worth noting:

- **Equal bounds still make a chunk.** The partition loop is a `do…while`,
  so `start == end` yields one single-instant chunk (`PartitionOfInstant`).
- **Upkeep does not wait for backfill.** `start` creates the upkeep worker
  right after the backfill workers are queued, because `queue.start` does
  not block until they finish. The model starts upkeep before any worker
  step (see "Left out").

## Model

| member | source | states |
|---|---|---|
| Feed.CursorParam | src/indexers/workers/BackfillWorker.ts:69 | the cursor is sent exactly when it is truthy, and then unchanged |
| Feed.ToSeconds | src/indexers/workers/BackfillWorker.ts:67-68 | the bound sent is the floor of milliseconds over 1000 |
| BackfillWorkers.Drain | src/indexers/workers/BackfillWorker.ts:63-96 | the loop ends Finished only on an absent cursor; it awaits a response only once every outcome is used, and then holds a truthy cursor; no outcomes means no change |
| BackfillWorkers.DrainAccounts | src/indexers/workers/BackfillWorker.ts:73-92 | over the outcomes used: `requests` counts the responses that came back; `fetched` counts the extracted items; `errors` counts the rejected fetches and extracts; each batch is committed once, in page order; `committed` counts the resolved batches; the cursor is the one that committed pages leave |
| BackfillWorkers.DrainRequests | src/indexers/workers/BackfillWorker.ts:64-72 | exactly one request per pass, in order; each carries the cursor left by the passes before it, so a failed pass retries the same cursor |
| BackfillWorkers.RequestsKeepBounds | src/indexers/workers/BackfillWorker.ts:66-72 | every request sends floor(ms/1000) of both fixed bounds, limit 1000 and status 'active' |
| BackfillWorkers.DrainStopsAtAbsentCursor | src/indexers/workers/BackfillWorker.ts:84-92 | every pass but the last left a truthy cursor; no commit threw before the last pass; CommitThrew exactly when the last page's commit rejected |
| BackfillWorkers.CursorFromCommittedPage | src/indexers/workers/BackfillWorker.ts:77-79 | the cursor is the initial one or the continuation of a page whose batch was committed |
| BackfillWorkers.ErrorWithoutCursorEnds | src/indexers/workers/BackfillWorker.ts:80-84 | a rejected fetch or extract with an absent cursor ends the loop with one more error and no commit |
| BackfillWorkers.LastPageOfThree | src/indexers/workers/BackfillWorker.ts:75-92 | a final page of three items is committed, counted and ends the loop |
| BackfillWorkers.BackfillWorker.constructor | src/indexers/workers/BackfillWorker.ts:37-61 | bounds and cursor as given, not running, not done, zero counters |
| BackfillWorkers.BackfillWorker.GetState | src/indexers/workers/BackfillWorker.ts:98-104 | exactly the current bounds and cursor |
| BackfillWorkers.BackfillWorker.RunPass | src/indexers/workers/BackfillWorker.ts:65-83 | one loop pass changes the worker as `Body` says |
| BackfillWorkers.BackfillWorker.Start | src/indexers/workers/BackfillWorker.ts:87-96 | the new cursor, counters and calls are `Drain` of the old state; `isRunning` stays true unless Finished; `isDone` becomes true exactly on Finished |
| UpkeepWorkers.Drain | src/indexers/workers/UpkeepWorker.ts:51-80 | the drain ends only on a falsy cursor; otherwise every outcome was used with a truthy cursor |
| UpkeepWorkers.BodyParts | src/indexers/workers/UpkeepWorker.ts:52-79 | one pass: the counters, the request, the commit (non-empty batches only), the cursor, the watermark (first item of a completed non-empty page), the item count and the last timestamp, each through its own per-outcome function |
| UpkeepWorkers.DrainCounts | src/indexers/workers/UpkeepWorker.ts:58-77 | `requests`, `fetched` and `errors` are the reference sums over the outcomes used |
| UpkeepWorkers.DrainCommits | src/indexers/workers/UpkeepWorker.ts:64-67 | only non-empty batches are committed, in order, and `committed` grows by the resolved ones |
| UpkeepWorkers.DrainLocals | src/indexers/workers/UpkeepWorker.ts:62-75 | cursor, watermark, item count and last timestamp are the reference folds over the outcomes used |
| UpkeepWorkers.DrainRequests | src/indexers/workers/UpkeepWorker.ts:50-57 | one request per pass, all with the lower bound captured at the start of the iteration, limit 1000, no end bound, and the cursor left by the passes before it |
| UpkeepWorkers.DrainStopsAtAbsentCursor | src/indexers/workers/UpkeepWorker.ts:80 | the drain continues exactly while the cursor is truthy |
| UpkeepWorkers.IterationOutcome | src/indexers/workers/UpkeepWorker.ts:46-90 | from a null cursor, the requests follow in order; at the end, the watermark is the last recorded item if there is one, otherwise the per-page value; the worker idles iff the last item count is below 1000; commits and `committed` are the reference folds |
| UpkeepWorkers.MarkAfterAtLeast | src/indexers/workers/UpkeepWorker.ts:72 | the per-page watermark does not drop below the smaller of the old one and a floor under every item |
| UpkeepWorkers.LastAfterAtLeast | src/indexers/workers/UpkeepWorker.ts:62 | the recorded last timestamp respects the same floor |
| UpkeepWorkers.WatermarkFloor | src/indexers/workers/UpkeepWorker.ts:62-84 | after an iteration, the watermark is at least the smaller of the old one and any floor under all items |
| UpkeepWorkers.WatermarkMonotone | src/indexers/workers/UpkeepWorker.ts:62-84 | when no item is earlier than the watermark, the watermark never decreases |
| UpkeepWorkers.WatermarkPassesFailedCommit | src/indexers/workers/UpkeepWorker.ts:62-84 | as written, a first page whose commit rejects still moves the watermark to its last item, past the uncommitted first item |
| UpkeepWorkers.CorrectedLastIsCommitted | src/indexers/workers/UpkeepWorker.ts:62-84 | when the last timestamp is recorded after the commit, it is the last item of a committed page, or unchanged |
| UpkeepWorkers.MarkIsCommitted | src/indexers/workers/UpkeepWorker.ts:72 | the per-page watermark is the first item of a committed page, or unchanged |
| UpkeepWorkers.CorrectedWatermarkIsCommitted | src/indexers/workers/UpkeepWorker.ts:62-84 | with the commit first, the watermark after an iteration is the old one or an item of a committed page |
| UpkeepWorkers.UpkeepWorker.constructor | src/indexers/workers/UpkeepWorker.ts:25-44 | the given watermark and zero counters |
| UpkeepWorkers.UpkeepWorker.RunBody | src/indexers/workers/UpkeepWorker.ts:52-79 | one pass changes fields and locals as `Body` says for the given order: with `AsWritten`, `lastTimestamp` is set from the page before the commit, so a rejected commit still records it; with `CommitFirst`, only after the commit |
| UpkeepWorkers.UpkeepWorker.Start | src/indexers/workers/UpkeepWorker.ts:46-88 | the new watermark, counters and calls and the idle decision are `Iteration(order, …)` of the old state: with `AsWritten` the code as it stands, whose watermark can pass a failed commit; with `CommitFirst` the corrected loop, whose watermark is always a committed item |
| DayRanges.Partition | src/indexers/ReservoirBaseIndexer.ts:88-96 | at least one range, and the first starts at `start` and ends at the end of its day or at `end` |
| DayRanges.DayFacts | src/indexers/ReservoirBaseIndexer.ts:89-95 | start and end of day bracket an instant; a start of day is a midnight; adding a day moves the start of day by one day |
| DayRanges.PartitionEnds | src/indexers/ReservoirBaseIndexer.ts:89-92 | every range ends at min(end of its day, `end`) and starts no earlier than `start` |
| DayRanges.PartitionContiguous | src/indexers/ReservoirBaseIndexer.ts:95-96 | every later range starts at a midnight before `end`, one millisecond after the previous range ends |
| DayRanges.PartitionWithinDays | src/indexers/ReservoirBaseIndexer.ts:88-96 | for `start <= end`, every range is non-empty, inside `[start, end]` and within one day |
| DayRanges.PartitionDisjoint | src/indexers/ReservoirBaseIndexer.ts:88-96 | ranges are strictly ascending and pairwise disjoint |
| DayRanges.PartitionCovers | src/indexers/ReservoirBaseIndexer.ts:88-96 | every instant of `[start, end)` lies in some range |
| DayRanges.PartitionLastEnd | src/indexers/ReservoirBaseIndexer.ts:92-96 | the last range ends at `end`, or one millisecond before it when `end` is a later midnight |
| DayRanges.PartitionOfInstant | src/indexers/ReservoirBaseIndexer.ts:88-96 | equal bounds give exactly one single-instant range |
| DayRanges.PartitionExample | src/indexers/ReservoirBaseIndexer.ts:88-96 | two and a half days from a midnight give two whole days and a half day |
| BaseIndexer.StateKey | src/indexers/ReservoirBaseIndexer.ts:28 | the key is `Indexer:State:` followed by exactly the class name |
| BaseIndexer.StateKeyInjective | src/indexers/ReservoirBaseIndexer.ts:28 | different indexer classes never share a state key |
| BaseIndexer.UnfinishedExact | src/indexers/ReservoirBaseIndexer.ts:177-181 | the snapshot has one record per not-done worker, each at the position given by the not-done workers before it |
| BaseIndexer.UnfinishedOnlyOpen | src/indexers/ReservoirBaseIndexer.ts:177-181 | every saved record is that of a not-done worker |
| BaseIndexer.UnfinishedNoneDone | src/indexers/ReservoirBaseIndexer.ts:177-181 | with no worker done, the snapshot copies all of them in order |
| BaseIndexer.UnfinishedAllDone | src/indexers/ReservoirBaseIndexer.ts:177-181 | with every worker done, the snapshot is empty |
| BaseIndexer.RangeStates | src/indexers/ReservoirBaseIndexer.ts:91-93 | one cursorless worker record per range, with the range's bounds |
| BaseIndexer.PartitionStep | src/indexers/ReservoirBaseIndexer.ts:88-96 | one turn of the loop: the range at the cursor, then the ranges from the next midnight |
| BaseIndexer.UpkeepResumes | src/indexers/ReservoirBaseIndexer.ts:129-132 | upkeep restarts from the saved watermark, or from `backfillEnd` when nothing is saved |
| BaseIndexer.StateStore.constructor | src/indexers/ReservoirBaseIndexer.ts:150-168 | an empty store |
| BaseIndexer.StateStore.Get | src/indexers/ReservoirBaseIndexer.ts:150-158 | the saved state for the key and field, or none |
| BaseIndexer.StateStore.Set | src/indexers/ReservoirBaseIndexer.ts:166-168 | overwrites exactly that entry |
| BaseIndexer.Track | src/indexers/ReservoirBaseIndexer.ts:177-181 | each worker's record and done flag, in worker order |
| BaseIndexer.ReservoirIndexer.constructor | src/indexers/ReservoirBaseIndexer.ts:22-29 | no workers, and the state key of the class |
| BaseIndexer.ReservoirIndexer.SaveBackfillState | src/indexers/ReservoirBaseIndexer.ts:173-185 | writes the backfill bounds and the unfinished workers under the backfill field, and nothing else |
| BaseIndexer.ReservoirIndexer.SaveUpkeepState | src/indexers/ReservoirBaseIndexer.ts:190-198 | writes the upkeep watermark as both bounds, with no workers |
| BaseIndexer.ReservoirIndexer.AddWorker | src/indexers/ReservoirBaseIndexer.ts:206-215 | appends one new worker with exactly the given record |
| BaseIndexer.ReservoirIndexer.RestoreWorkers | src/indexers/ReservoirBaseIndexer.ts:67-71 | appends one new worker per saved record, in order, with the same bounds and cursor |
| BaseIndexer.ReservoirIndexer.PartitionWorkers | src/indexers/ReservoirBaseIndexer.ts:88-96 | appends one new cursorless worker per range of `Partition(start, end)`, in order |
| BaseIndexer.ReservoirIndexer.StartBackfill | src/indexers/ReservoirBaseIndexer.ts:59-109 | restores bounds and workers from a saved snapshot; with none, asks for the oldest active order and partitions from it to now; a missing probe rejects with nothing changed; on success the snapshot is saved |
| BaseIndexer.ReservoirIndexer.StartUpkeep | src/indexers/ReservoirBaseIndexer.ts:128-136 | a new upkeep worker, with no request sent yet, whose watermark is the saved one or `backfillEnd` |
| BaseIndexer.ReservoirIndexer.Start | src/indexers/ReservoirBaseIndexer.ts:50-57 | upkeep is created exactly when backfill start-up succeeds, at the watermark the saved upkeep state or `backfillEnd` gives; the bounds, the probe, the new workers' records (restored or one per day range) and the saved snapshot are those of `startBackfill`, and a rejection changes no store entry, worker or bound |
| BaseIndexer.Restart | src/indexers/ReservoirBaseIndexer.ts:62-71 | save then restore reproduces the bounds and exactly the not-done workers, in order |
| MapOrders.GetBidType | src/indexers/utils/map-orders.ts:5-19 | OTHER exactly for kinds other than token, attribute and collection |
| MapOrders.BidTypeRoundTrip | src/indexers/utils/map-orders.ts:5-19 | the three named kinds map to their types and back |
| MapOrders.Upper | src/indexers/utils/map-orders.ts:38 | same length, upper-casing each character |
| MapOrders.UpperIdempotent | src/indexers/utils/map-orders.ts:38 | no lower-case letter remains, and upper-casing twice is upper-casing once |
| MapOrders.TokenKey | src/indexers/utils/map-orders.ts:28-53 | the contract, '_', then the token id |
| MapOrders.TokenKeyInjective | src/indexers/utils/map-orders.ts:28-53 | for contracts without '_', the key determines contract and token id |
| MapOrders.MapBid | src/indexers/utils/map-orders.ts:21-45 | fails exactly when token or attribute data is missing for its kind; id and collection copied; type from `GetBidType`; `tokenId` present iff the kind is token, and then the token key; attribute fields present iff the kind is attribute; maker, taker, quantities, currency, fees and marketplace copied; status upper-cased; validity dates in milliseconds |
| MapOrders.MapAsk | src/indexers/utils/map-orders.ts:47-68 | fails exactly when token data is missing; otherwise id copied, `tokenId` is always the token key, maker, taker, quantities, currency, fees and marketplace copied, status upper-cased, validity dates in milliseconds |
| MapOrders.BidFieldsMatchType | src/indexers/utils/map-orders.ts:26-30 | a TOKEN bid has a token id, an ATTRIBUTE bid has attribute fields, and no bid has both |
| MapOrders.TokenOrderKeysAgree | src/indexers/utils/map-orders.ts:28-53 | a token order maps to an ask and a bid with the same token key |
| MapOrders.TokenOrders | src/indexers/AsksIndexer.ts:28 | keeps only token orders from the batch |
| MapOrders.TokenOrdersKeep | src/indexers/AsksIndexer.ts:28 | an order is kept iff it is in the batch and is a token order |
| MapOrders.TokenOrdersAppend | src/indexers/AsksIndexer.ts:28 | the filter keeps order: filtering two batches one after the other is filtering each and concatenating |
| MapOrders.TokenOrdersCount | src/indexers/AsksIndexer.ts:28 | each token order is kept exactly as often as it occurs in the batch, and no other order is kept |
| MapOrders.MapAll | src/indexers/AsksIndexer.ts:27-30 | succeeds iff every order maps, and then maps each in place |
| MapOrders.ExtractAsksSpec | src/indexers/AsksIndexer.ts:25-30 | extraction succeeds iff every token order has token data; then one ask per token order, in order, with its id and token key |
| MapOrders.ExtractBidsSpec | src/indexers/BidsIndexer.ts:25-29 | extraction succeeds iff every order maps; then one bid per order, in order, with its id and type |
| OrderStorage.UpsertAllAt | src/services/OrderStorageService.ts:29-39 | after a bulk save, a touched id holds the last order with that id, and every other id keeps its entry |
| OrderStorage.UpsertAllIdempotent | src/services/OrderStorageService.ts:29-39 | saving the same batch twice is saving it once |
| OrderStorage.OrderStore.constructor | src/services/OrderStorageService.ts:8 | empty ask and bid tables |
| OrderStorage.OrderStore.SaveAsk | src/services/OrderStorageService.ts:9-17 | upserts the ask by id and leaves the bids |
| OrderStorage.OrderStore.SaveBid | src/services/OrderStorageService.ts:19-27 | upserts the bid by id and leaves the asks |
| OrderStorage.OrderStore.SaveAskBulk | src/services/OrderStorageService.ts:29-33 | the asks become the in-order upsert of the batch |
| OrderStorage.OrderStore.SaveBidBulk | src/services/OrderStorageService.ts:35-39 | the bids become the in-order upsert of the batch |
| Websocket.DelayAfterClosed | src/services/WebsocketService.ts:46-76 | after n closes, the delay is min(1000·2^n, 30000) |
| Websocket.DelayBounds | src/services/WebsocketService.ts:46-76 | the delay stays within [1000, 30000] and reaches 30000 at the fifth close |
| Websocket.IncludesAt | src/services/WebsocketService.ts:106-111 | `includes` holds iff the word occurs at some position |
| Websocket.LacksChar | src/services/WebsocketService.ts:106-111 | a string lacking a character of the word does not include it |
| Websocket.SubscribeFrames | src/services/WebsocketService.ts:125-129 | four frames on the current socket, in the order ask.created, ask.updated, bid.created, bid.updated; none without a socket |
| Websocket.AskEventsRoute | src/services/WebsocketService.ts:106-114 | `ask.created` and `ask.updated` go to the ask branch only |
| Websocket.BidEventsRoute | src/services/WebsocketService.ts:106-114 | `bid.created` and `bid.updated` go to the bid branch only |
| Websocket.WebsocketService.constructor | src/services/WebsocketService.ts:11-25 | no socket, not connected, delay 1000, no timers, clocks at 0 |
| Websocket.WebsocketService.BackoffSchedule | src/services/WebsocketService.ts:46-76 | the current delay and the pending reconnect's delay follow min(1000·2^n, 30000) over the closes since the last open |
| Websocket.WebsocketService.Connect | src/services/WebsocketService.ts:27-44 | nothing when connected; otherwise discards the old socket and opens a new one; nothing else changes |
| Websocket.WebsocketService.Subscribe | src/services/WebsocketService.ts:147-154 | one frame for the event on the current socket, or none without a socket |
| Websocket.WebsocketService.OnConnected | src/services/WebsocketService.ts:120-145 | exactly one watchdog, the four subscription frames in order, and nothing else changes |
| Websocket.WebsocketService.OnOpen | src/services/WebsocketService.ts:48-59 | connected, delay back to 1000, no pending reconnect, subscriptions sent, exactly one watchdog |
| Websocket.WebsocketService.ClearReconnect | src/services/WebsocketService.ts:69-72 | no pending reconnect callback remains |
| Websocket.WebsocketService.OnClose | src/services/WebsocketService.ts:61-80 | disconnected, the open socket closed, exactly one pending reconnect with the delay before the update, and the delay becomes min(2·delay, 30000) |
| Websocket.WebsocketService.OnReconnectTimer | src/services/WebsocketService.ts:73 | the timer has run, and then `connect` |
| Websocket.WebsocketService.OnMessage | src/services/WebsocketService.ts:86-118 | an unparseable message changes nothing; any other message stamps both clocks; an ack stops there; the ready message connects and reruns onConnected; an order event saves the mapped ask or bid that its name mentions; the socket never changes |
| Websocket.WebsocketService.Stamp | src/services/WebsocketService.ts:93-97 | `lastMessageReceivedAt` becomes the max of its old value and `published_at`, and `lastMessageTimestamp` becomes now |
| Websocket.WebsocketService.RouteOrder | src/services/WebsocketService.ts:106-114 | the asks and bids gain exactly the orders `SavedAsk` and `SavedBid` describe; a mapping error in the ask branch skips the bid branch |
| Websocket.WebsocketService.WatchdogTick | src/services/WebsocketService.ts:131-144 | nothing before the first message or while fresh; a connection silent for over 10000 ms is closed as by onClose: disconnected, the socket closed, one pending reconnect at the old delay, the delay doubled up to the cap |

## Left out

- Redis and JSON. The store is an abstract map from (key, field) to state, and the JSON and `Date` round trip is taken to be lossless.
- The worker queue, with concurrency 6, and the periodic `setInterval` snapshots. Workers are run one `Start` call at a time, and the snapshots are explicit calls, so the interleaving of concurrent workers with the saves is not modelled.
- `queue.start`'s error callback, which rethrows a worker's rejection, is not modelled.
- The SDK calls in `fetchData`. Each request is recorded as a `FetchParams` value, and the responses come from the sequence of outcomes.
- Prisma. Every upsert succeeds: a bulk transaction that fails part-way, and a rejected single `saveAsk` or `saveBid` in the websocket handler (caught at the end of the handler in the source), are not modelled.
- The three `Prisma.Decimal` prices (`price`, `priceUsd`, `priceNative`) and the parsing of `createdAt` and `updatedAt` into `Date`s are not part of this model: dates are integers copied as they are. A `RawOrder` always has a price currency and a source domain, so `MapBid` and `MapAsk` never fail where the source throws on a missing `item.price`, `item.price.amount`, `item.price.currency` or `item.source`, or on a value `Prisma.Decimal` rejects; they fail only on missing criteria data. Every other field is copied and stated in their contracts.
- Upper-casing covers ASCII letters only.
- MapBid, MapAsk: when token data exists but has no `tokenId`, the source writes the text "undefined" into the key. The model always has a token id.
- The `ws` library, `onError`, `emit`, and the console output. Closing an open socket makes `ws` emit 'close' later, which runs `onClose` a second time: in the program a stale close by the watchdog thus clears and reschedules the reconnect and doubles the delay twice. The model does not emit that event itself; the second `OnClose` is a separate call that it permits.
- Sending on a socket that is not open throws in `ws`. The model records the frame.
- `Date.now` is a parameter.
- `setTimeout`, `setInterval` and `sleep`. Timers are option fields. The 15-second sleep is the `idle` result.
- The upkeep worker's unbounded self-recursion. The model covers one iteration over a finite list of outcomes.
- `moment` local time zones and daylight saving. Days are UTC days.
- `IndexerLogService`, `index.ts` and `OrderbookStreamIndexer` are the console dashboard and the bootstrap wiring, and are not part of this model.
- `backfillStart` and `backfillEnd` are unset in the source until start-up. The model starts them at 0.
- BaseIndexer.ReservoirIndexer.StartUpkeep: stops before `upkeepWorker.start()` and the upkeep `setInterval`, so its ensures give the worker with no request sent; in the program `start()` has sent the upkeep worker's first request before `startUpkeep` returns. `BaseIndexer.ReservoirIndexer.Start` inherits this: its upkeep worker is likewise untouched.
- BaseIndexer.ReservoirIndexer.Start: the model creates the upkeep worker before any backfill worker takes a step, so its ensures that the new workers are still untouched is a modelling choice. In the program, `queue.start` has already launched up to six workers, which set `isRunning`, send their first requests and may commit while `startUpkeep` reads the saved upkeep state.

## Findings

| source | as written | input that shows it | evidently intended | confidence | as-written member | corrected member |
|---|---|---|---|---|---|---|
| src/indexers/workers/UpkeepWorker.ts:62-84 | `lastTimestamp` is set from the page before `commit` runs. The commit error is then caught, so a failed commit still moves the watermark at the end of the iteration | first page of an iteration `[a@5000, b@9000]` with no continuation, commit rejects: the watermark becomes 9000 ms, so the next request starts at 9 s and item `a` is never retried | record `lastTimestamp` only after the batch has been committed, so the watermark is always an item of a committed page. `UpkeepWorker.Start` proves both orders | medium, not executed | UpkeepWorkers.WatermarkPassesFailedCommit | UpkeepWorkers.CorrectedWatermarkIsCommitted |
