# Order execution pipeline, modelled in Dafny

The system accepts limit orders to swap one token for another and executes them asynchronously.

- An order is validated at intake and stored as `pending` in an `orders` table.
- A queue worker later picks the order up. At admission, a rate gate spaces job starts.
- The worker asks two venues, Raydium and Meteora, for quotes. It ranks the answers by price after fees and picks the best.
- It records the choice, checks the limit price, performs the swap and records its result.
- The order advances `pending -> routing -> building -> submitted -> confirmed` in the table. Each status write is followed at once by an update published on the pub/sub channel `order:<id>`.
- A failure is caught:
  - the attempt count and error are recorded and the error is rethrown for the queue to retry;
  - on the last allowed attempt the order is marked `failed`.

The project models:

- the order records and the intake validator (`order.dfy`);
- the exponential backoff formula (`backoff.dfy`);
- the quote ranking and venue selection (`dex_router.dfy`);
- the stand-alone execution routine `executeOrder` (`order_service.dfy`);
- the order store and its UPDATE builder (`db.dfy`);
- the worker with its rate gate, status pipeline and catch block (`order_queue.dfy`).

How the model represents the system:

- The table is a `map` from order id to row held by the `Db.OrderStore` class.
- The worker keeps one ordered log, `OrderQueue.OrderWorker.trace`, of its status writes (`Stored`) and publications (`Sent`), so the model states the order of the writes and the updates and not just each list on its own.
- Quote sources and the swap adapter are function parameters. They return either a fulfilled value or a rejection, so every outcome the real services can produce is covered.
- The job's `attemptsMade` and the clock readings are method inputs.

Each job attempt is first specified as a function on the table, `OrderQueue.AttemptSpec`, built from the row-level `PipelineRow` (the try block) and `RecoveryRow` (the catch block). The properties are lemmas about those functions. `OrderQueue.OrderWorker.Process` performs the attempt step by step against the store and is proved to produce exactly `AttemptSpec`'s table, log and result.

Where the code and its design disagree, the model follows the code:

- The worker quotes every pair at the fixed base price 25.0. It does not use the base-price table of `executeOrder`, so for USDC to SOL the two differ.
- A confirmed order that is delivered again is rewritten to `building` by the building write, before the limit check. A terminal status is therefore not final in the code. `ConfirmedOrderRegresses` states this.
- When the order id is unknown, the catch block's own `updateOrderStatus` fails. Reading the missing row raises a TypeError, so the job rethrows that TypeError rather than "Order … not found", and nothing is written or published.
- A router test expects the venue with the lower net price first. The code sorts by net price, highest first, and the model follows the code (`HigherNetPriceFirst`).

## Model

| member | source | states |
|---|---|---|
| OrderModel.StatusDomain | src/models/order.ts:3-10 | there are exactly six statuses with six distinct names; each name reads back to its status, and a string reads back to a status iff it is one of the six names |
| OrderModel.OrderTypeDomain | src/models/order.ts:14-18 | there are exactly three order types with distinct names, each reading back to itself |
| OrderModel.LimitPriceOr | src/services/orderService.ts:131 | `limitPrice || fallback` under JavaScript truthiness, as a definition; PassedLimitRequestCoversExpected and PositiveLimitIsSent state what the fallback means for the swap request |
| OrderModel.IssuesExact | src/models/order.ts:22-30 | a schema key is reported as a validation issue exactly when its constraint fails |
| OrderModel.ValidateCreateOrder | src/models/order.ts:22-30 | the body is accepted iff every constraint holds; otherwise the failures are the non-empty list of failing keys. An accepted request has a non-empty user id and tokens, type `limit`, positive amount and limit price, and slippage in [0,1], defaulting to 0.01 when it is absent |
| OrderModel.ValidationAdmitsOnlyLimit | src/models/order.ts:24 | of the three order types only `"limit"` passes validation |
| OrderModel.ValidationRejects | src/models/order.ts:23-29 | an empty user id or token, a non-positive amount or limit price, or a slippage outside [0,1] is refused |
| OrderModel.ValidationExamples | src/tests/integration/api.test.ts:44-60 | the test's body (empty user id, amount -1) fails on exactly the user id and the amount; a good body without slippage gets 0.01 |
| Backoff.CalculateBackoff | src/utils/backoff.ts:7-9 | the delay `baseMs * 2^attempt`, as a definition; BackoffAtZero, BackoffDoubles and BackoffMonotone state its properties |
| Backoff.BackoffAtZero | src/utils/backoff.ts:7-9 | attempt 0 waits the base delay |
| Backoff.BackoffDoubles | src/utils/backoff.ts:8 | each further attempt doubles the delay |
| Backoff.BackoffMonotone | src/utils/backoff.ts:8 | for a non-negative base the delay never decreases as the attempt grows |
| Backoff.BackoffTestVectors | src/tests/utils.test.ts:6-12 | base 500 gives 500, 1000, 2000, 4000 for attempts 0 to 3; (1, 100) gives 200 |
| Backoff.SleepWithBackoff | src/utils/backoff.ts:14-20 | the delay handed to the timer is `calculateBackoff(attempt, baseMs)`, the base at attempt 0 and never below it for a non-negative base |
| DexRouter.GetQuotes | src/services/dexRouter.ts:29-75 | the list is the ranked survivors: sorted best net price first, a permutation of one entry per fulfilled venue (none for a rejected one), each with net price `price * (1 - fee)` |
| DexRouter.NetPrice | src/services/dexRouter.ts:51 | `price * (1 - fee)`, as a definition; RankedNetPrices states that every ranked entry carries it |
| DexRouter.InsertByNetPrice | src/services/dexRouter.ts:72 | one insertion step of the stable descending sort, as a definition; the Sort lemmas state its properties |
| DexRouter.SortByNetPriceDesc | src/services/dexRouter.ts:72 | the stable sort on net price, highest first, as a definition; SortIsSorted, SortPermutes, SortIsStable and SortPair state its properties |
| DexRouter.RankedQuotes | src/services/dexRouter.ts:47-72 | getQuotes' list for two settled quotes, as a definition; RankedQuotesCases, RankedPermutes and RankedNetPrices state its properties |
| DexRouter.BestRouting | src/services/dexRouter.ts:80-109 | an independent reference for the best routing of two settled quotes; BestRoutingIsBest and SelectBestOfRanked relate it to the code |
| DexRouter.SortIsSorted | src/services/dexRouter.ts:72 | the sort orders entries by net price, highest first |
| DexRouter.SortPermutes | src/services/dexRouter.ts:72 | the sort keeps exactly the entries it was given |
| DexRouter.SortIsStable | src/services/dexRouter.ts:72 | entries of equal net price keep their relative order |
| DexRouter.SortPair | src/services/dexRouter.ts:72 | two entries are swapped iff the second has the strictly higher net price |
| DexRouter.RankedQuotesCases | src/services/dexRouter.ts:47-72 | both venues answering gives both entries in net-price order (Raydium first on a tie); one answering gives a singleton naming it; none gives the empty list |
| DexRouter.RankedPermutes | src/services/dexRouter.ts:47-69 | the ranked list is a permutation of the tagged survivors, one entry per fulfilled venue |
| DexRouter.RankedNetPrices | src/services/dexRouter.ts:51-63 | every ranked entry's net price is its price after the fee |
| DexRouter.SelectBestDex | src/services/dexRouter.ts:80-109 | nothing iff the list is empty; otherwise venue, expected price = net price, fee and quote {price, fee, liquidity} of the first entry, which on a sorted list is at least every net price |
| DexRouter.SelectBestOfRanked | src/services/dexRouter.ts:29-109 | selecting from the ranked list yields the reference best routing for the two outcomes |
| DexRouter.BestRoutingIsBest | src/services/dexRouter.ts:72-108 | there is no routing iff both venues fail; otherwise the routing names an answering venue whose net price is at least every answering venue's; on a tie it is Raydium |
| DexRouter.FindDex | src/queue/orderQueue.ts:103-114 | `find` by venue name: a found entry is the FIRST entry of the list with that name, and nothing is found iff no entry has the name |
| DexRouter.FindInRanked | src/queue/orderQueue.ts:101-118 | looking a venue up in the ranked list finds its tagged quote iff that venue answered |
| DexRouter.RouterTestVectors | src/tests/dexRouter.test.ts:34-76 | a failing Raydium leaves only Meteora; the empty list selects nothing; the test's two quotes select Meteora |
| DexRouter.HigherNetPriceFirst | src/services/dexRouter.ts:72 | with Raydium 25.0 at fee 0.003 and Meteora 25.5 at fee 0.002, Meteora, with the higher net price, ranks first |
| OrderService.GetBasePrice | src/services/orderService.ts:14-23 | 25.0 exactly for SOL to USDC or USDT, 0.04 exactly for USDC or USDT to SOL, 1.0 for every other pair |
| OrderService.BasePriceVectors | src/services/orderService.ts:16-22 | the table's pairs and some pairs that are not in the table |
| OrderService.IsLimitPriceMet | src/services/orderService.ts:28-37 | met iff the best price is at most the limit, as a definition; LimitPriceMetIgnoresTokens states that the tokens play no part |
| OrderService.LimitBlocks | src/services/orderService.ts:113-120 | the refusal condition of executeOrder's limit check, as a definition; LimitBlocksExactly states when it holds |
| OrderService.LimitPriceMetIgnoresTokens | src/services/orderService.ts:28-37 | the limit is met iff best price <= limit, whatever the tokens |
| OrderService.LimitBlocksExactly | src/services/orderService.ts:113-120 | the check aborts exactly a limit order with a non-null, non-zero limit below the expected price; market or sniper orders and null or 0 limits are never stopped |
| OrderService.RequestFor | src/services/orderService.ts:126-138 | the swap request built from the order and the routing, as a definition; ExecuteOrder states that the swap receives it, and the two lemmas below what its limit price is |
| OrderService.PassedLimitRequestCoversExpected | src/services/orderService.ts:113-138 | a limit order that passes the limit check sends a limit price at least the expected price |
| OrderService.PositiveLimitIsSent | src/services/orderService.ts:131 | an order with a positive limit price, as every validated order has, sends exactly that limit; the expected-price fallback never reaches it |
| OrderService.ExecuteOrder | src/services/orderService.ts:82-141 | no answering venue gives "No quotes available" with no swap; a blocked limit gives "Limit price not met" with no swap; otherwise the best routing's request is swapped and the result is that routing with the swap's result, or the swap's error. "Failed to select DEX" never occurs |
| OrderService.LimitCheckVectors | src/tests/orderService.test.ts:76-102 | with limit 25.5, an expected price of 25.922 is refused and 24.925 goes ahead |
| Db.RowToOrder | src/db/index.ts:60-80 | columns map to order fields one for one; status and type are read from their names; null limit and executed prices stay null |
| Db.OrderRowRoundTrip | src/db/index.ts:60-80 | storing an order and reading it back gives the same order |
| Db.RowOrderRoundTrip | src/db/index.ts:60-80 | reading a well-formed row and storing it gives the same row |
| Db.OrderToRow | src/db/index.ts:40-80 | the row an order is stored as; OrderRowRoundTrip and RowOrderRoundTrip make it rowToOrder's inverse |
| Db.UpdatedOrder | src/db/index.ts:137-183 | the order an update returns, as a definition; UpdatedOrderKeeps and NullDiffersFromOmission state its properties |
| Db.PatchRow | src/db/index.ts:137-179 | the row an update leaves, as a definition; PatchRowIsUpdatedOrder ties it to UpdatedOrder and BuildUpdate to the SQL that is run |
| Db.RunSet | src/db/index.ts:177-179 | what running a SET list does to the row, as a definition; BuildUpdate and RunSetIgnoresExtraValues state its properties |
| Db.InsertedRow | src/db/index.ts:82-108 | the row createOrder inserts, as a definition; OrderStore.CreateOrder states its columns |
| Db.PatchRowIsUpdatedOrder | src/db/index.ts:123-183 | updating the row and reading it equals updating the order read from it, and the row stays well formed |
| Db.UpdatedOrderKeeps | src/db/index.ts:141-175 | an update keeps id, user, type, tokens, amount, limit, creation time and slippage and sets the status and update time; with nothing given only those two change |
| Db.NullDiffersFromOmission | src/db/index.ts:159-163 | an explicit null clears a value, while an omitted property keeps it |
| Db.RunSetIgnoresExtraValues | src/db/index.ts:137-177 | values no `$k` refers to do not change what the SET list does |
| Db.PushIfGiven | src/db/index.ts:141-145 | a given value pushes `column = $paramIndex` and the value and advances the counter, keeping the counter one past the number of values; an omitted one changes nothing |
| Db.BuildUpdate | src/db/index.ts:137-177 | the list starts `status = $2, updated_at = now()` over `[id, status]`, adds one clause per given property with `$k` naming `values[k-1]`, and executing it on the stored row writes the status, the time and exactly the given properties |
| Db.WriteRow | src/db/index.ts:177-179 | the table after an update: the same ids, that order's row patched, every other row as it was |
| Db.WriteKeepsValid | src/db/index.ts:177-179 | an update keeps every row well formed and under its id |
| Db.OrderStore.constructor | src/db/index.ts:5 | an empty table and no pool |
| Db.OrderStore.GetPool | src/db/index.ts:7-31 | an open pool is reused; otherwise a missing or empty DATABASE_URL fails with its message and a given one opens the pool; rows untouched |
| Db.OrderStore.ClosePool | src/db/index.ts:33-38 | the pool ends up closed; it is ended once if it was open, not at all otherwise |
| Db.OrderStore.ClosePoolTwice | src/db/index.ts:33-38 | closing twice ends the pool at most once |
| Db.OrderStore.CreateOrder | src/db/index.ts:82-108 | inserts one row under the new id with the given fields, status `pending`, zero attempts and nulls, and returns it; other rows unchanged |
| Db.OrderStore.GetOrderById | src/db/index.ts:110-121 | nothing iff the id is unknown; otherwise the order stored under that id |
| Db.OrderStore.UpdateOrderStatus | src/db/index.ts:123-183 | for a stored id, the table is WriteRow's and the returned order has that id and the new status; for an unknown id nothing changes and the TypeError of reading the missing row is raised |
| Db.StoreScenario | src/tests/integration/orders.test.ts:26-57 | a created order reads back pending, and an update to routing keeps its id |
| OrderQueue.RateLimitMs | src/queue/orderQueue.ts:16 | the interval is positive and `interval * rate == 60000` |
| OrderQueue.DefaultRateLimit | src/queue/orderQueue.ts:12-16 | at the default 100 jobs a minute the interval is 600 ms |
| OrderQueue.WorkerBasePriceVersusTable | src/queue/orderQueue.ts:78 | the worker's 25.0 equals the table's SOL to USDC price and differs from its USDC to SOL price |
| OrderQueue.Channel | src/queue/orderQueue.ts:37-39 | the channel is `order:` followed by the order id |
| OrderQueue.ChannelInjective | src/queue/orderQueue.ts:37-39 | two orders share a channel iff they are the same order |
| OrderQueue.WorkerLimitIsServiceLimit | src/queue/orderQueue.ts:138-144 | the worker's limit check refuses exactly what `executeOrder`'s refuses |
| OrderQueue.WorkerLimitBlocks | src/queue/orderQueue.ts:138-144 | the worker's limit check, as a definition; WorkerLimitIsServiceLimit relates it to executeOrder's |
| OrderQueue.RoutingStep | src/queue/orderQueue.ts:67-75 | the routing write and announcement of a pending order, as a definition; OrderWorker.StartRouting performs it |
| OrderQueue.RouteStage | src/queue/orderQueue.ts:78-89 | the quotes and, with any, the execute stage, as a definition; OrderWorker.Route performs it |
| OrderQueue.ExecuteStage | src/queue/orderQueue.ts:91-206 | everything after a non-empty quote list, as a definition; OrderWorker.Execute performs it and ExecuteRecordsChoice and ExecuteWritesNoRouting state its properties |
| OrderQueue.SwapStage | src/queue/orderQueue.ts:151-194 | the swap and the two last writes and updates, as a definition; OrderWorker.Swap performs it |
| OrderQueue.SuccessTrace | src/queue/orderQueue.ts:67-194 | the log of a successful run, written out step by step; SuccessfulRun equates it with PipelineRow's |
| OrderQueue.PipelineRow | src/queue/orderQueue.ts:60-206 | the try block on the stored row, as a definition; SuccessfulRun, NoQuotesFromPending, LimitNotMetStaysBuilding and NoRoutingWriteUnlessPending state its outcomes |
| OrderQueue.RecoveryRow | src/queue/orderQueue.ts:207-254 | the catch block on the stored row, as a definition; RecoveryAccounting states its outcome |
| OrderQueue.AttemptRow | src/queue/orderQueue.ts:60-254 | one delivery on the stored row, as a definition; LastAttemptFails and ConfirmedOrderRegresses state its outcomes |
| OrderQueue.PipelineRowWellFormed | src/queue/orderQueue.ts:60-206 | every write of the try block keeps the row well formed and under its id |
| OrderQueue.AttemptSpec | src/queue/orderQueue.ts:44-256 | one delivery keeps the table valid, keeps its ids and changes no other order's row |
| OrderQueue.SuccessfulRun | src/queue/orderQueue.ts:67-206 | a run whose swap settles returns `{success, txHash, executedPrice}`. Its effects are exactly, in this order: (from pending only) write routing, publish ROUTING; publish ROUTING with the quotes and chosen venue; write building with the venue and quote, publish BUILDING; write submitted with the hash, publish SUBMITTED with the hash; write confirmed with hash and price, publish CONFIRMED with both. The order ends confirmed with the swap's hash and price and the chosen venue; attempts and error are untouched |
| OrderQueue.SuccessfulRunAdvances | src/queue/orderQueue.ts:67-194 | along a successful run no written or published status moves back along the lifecycle, the last is terminal, and every write is followed at once by the publication of the status it wrote |
| OrderQueue.LifecycleAdvances | src/queue/orderQueue.ts:67-194 | the success log's statuses never move back and it ends in a terminal status |
| OrderQueue.LifecycleAnnouncesWrites | src/queue/orderQueue.ts:67-194 | in the success log each write is directly followed by an update announcing the written status |
| OrderQueue.ChosenVenueIsBest | src/queue/orderQueue.ts:91-130 | the building write records the best answering venue at the worker's base price and its quote {price, fee, liquidity} |
| OrderQueue.NoRoutingWriteUnlessPending | src/queue/orderQueue.ts:67-75 | for an order not pending, the try block writes no routing status at all, every ROUTING update carries the quotes, and with no quotes nothing is written or published |
| OrderQueue.ExecuteWritesNoRouting | src/queue/orderQueue.ts:91-206 | after the quotes the try block never writes routing, and its ROUTING update carries the quotes |
| OrderQueue.ExecuteRecordsChoice | src/queue/orderQueue.ts:91-130 | the execute stage records the selected venue and its quote, whatever follows the building write |
| OrderQueue.NoQuotesFromPending | src/queue/orderQueue.ts:67-89 | a pending order with no answering venue fails with "No quotes available" after exactly the routing write and one ROUTING update, and is left routing |
| OrderQueue.LimitNotMetStaysBuilding | src/queue/orderQueue.ts:122-144 | a blocked limit fails after the building write: the order stays building with the venue recorded, the log is exactly (routing write and ROUTING from pending) ROUTING with quotes, building write, BUILDING, and the outcome does not depend on the swap adapter |
| OrderQueue.RecoveryAccounting | src/queue/orderQueue.ts:207-254 | the catch block writes attempts = attemptsMade + 1 and the error under the current status, then writes failed when attempts >= MAX_RETRIES, and only after its writes publishes one update: FAILED, or the current status, with the error and attempt. It rethrows the same error |
| OrderQueue.DefaultRetries | src/queue/orderQueue.ts:10 | with the default MAX_RETRIES of 3 the first and second deliveries keep the order's status and the third fails it |
| OrderQueue.LastAttemptFails | src/queue/orderQueue.ts:226-239 | a failing last delivery leaves the order failed with MAX_RETRIES attempts and the job's error; its log is the try block's, then three steps ending with the failed write and the FAILED update |
| OrderQueue.UnknownOrder | src/queue/orderQueue.ts:61-65 | an unknown id changes nothing, publishes nothing and fails with the TypeError from the catch block's write |
| OrderQueue.ConfirmedOrderRegresses | src/queue/orderQueue.ts:122-144 | a confirmed order delivered again whose limit check fails ends in building |
| OrderQueue.AttemptPublishesOnChannel | src/queue/orderQueue.ts:37-39 | every update of an attempt is about its order and goes out on that order's channel |
| OrderQueue.PipelinePublishesOnChannel | src/queue/orderQueue.ts:37-39 | every update of the try block is about its order and goes out on that order's channel |
| OrderQueue.ExecutePublishesOnChannel | src/queue/orderQueue.ts:37-39 | every update after the quotes is about its order and goes out on that order's channel |
| OrderQueue.PublicationsConcat | src/queue/orderQueue.ts:37-39 | the updates a subscriber sees of two logs in sequence are those of the first followed by those of the second |
| OrderQueue.GateWait | src/queue/orderQueue.ts:51-57 | the wait is never negative and is positive iff less than the interval has passed since the last start |
| OrderQueue.GateSpacing | src/queue/orderQueue.ts:51-58 | a job let through by the gate starts at least the interval after the previous start |
| OrderQueue.OrderWorker.constructor | src/queue/orderQueue.ts:10-17 | the worker's maximum attempts, interval `60000 / rate`, last start 0 and an empty log |
| OrderQueue.OrderWorker.Publish | src/queue/orderQueue.ts:37-39 | appends the message, on the order's channel, to the log; subscribers see exactly one more update |
| OrderQueue.OrderWorker.Write | src/queue/orderQueue.ts:68-69 | an `await updateOrderStatus` of the processor: patches the order's row, appends the write to the log, publishes nothing and changes nothing else |
| OrderQueue.OrderWorker.RecordAttempt | src/queue/orderQueue.ts:215-223 | reads the current status back and writes the count and error under it; an unknown id raises the TypeError with nothing changed |
| OrderQueue.OrderWorker.Swap | src/queue/orderQueue.ts:151-194 | table, log and result are exactly those of SwapStage |
| OrderQueue.OrderWorker.Admit | src/queue/orderQueue.ts:51-58 | the gate: the resume time becomes the last start and is at least the interval after the previous one |
| OrderQueue.OrderWorker.StartRouting | src/queue/orderQueue.ts:67-75 | for a pending order writes routing and then announces it, as RoutingStep; leaves any other alone |
| OrderQueue.OrderWorker.Execute | src/queue/orderQueue.ts:91-206 | table, log and result are exactly those of ExecuteStage |
| OrderQueue.OrderWorker.Route | src/queue/orderQueue.ts:78-89 | table, log and result are exactly those of RouteStage |
| OrderQueue.OrderWorker.RunPipeline | src/queue/orderQueue.ts:60-206 | an unknown id fails "not found" with nothing changed; otherwise table, log and result are those of PipelineRow |
| OrderQueue.OrderWorker.RecordFailure | src/queue/orderQueue.ts:207-254 | an unknown id raises the TypeError with nothing changed; otherwise table, log and rethrown error are those of RecoveryRow |
| OrderQueue.OrderWorker.Process | src/queue/orderQueue.ts:44-256 | one delivery: the gate's spacing holds, and the table, log and result are exactly AttemptSpec's for the post-gate time |

## Left out

- BullMQ: the queue and worker construction, the Redis connections, the `completed`/`failed` listeners and `closeQueue` are library concerns. Retry scheduling, including the queue's exponential backoff option with BACKOFF_BASE_MS, is BullMQ's own behaviour. Each delivery is modelled as one `Process` call with `attemptsMade` as an input.
- Worker concurrency is not modelled: only sequential deliveries are. With ten concurrent jobs the gate's reads and writes of `lastProcessedTime` can race.
- `sleepWithBackoff` is modelled as the delay it computes only. The worker imports it but never calls it.
- Postgres is not modelled: pool options, connections, client release and SQL execution. The table is an in-memory map. Store operations do not go through `getPool`, so a missing DATABASE_URL only fails `GetPool`.
- Time is not modelled directly. Timers, the rate-gate wait itself and the 1000 ms confirmation delay are left out. The clock is a parameter: one reading, the post-gate time, stamps every write and update of an attempt. Timestamps are integers, not ISO strings or `Date`s. The gate's spacing (`GateSpacing`, `OrderWorker.Admit`, `OrderWorker.Process`) rests on the precondition that the `setTimeout` wait never ends early: `startedAt` is at least the arrival time plus the wait.
- Floating point is not modelled, and prices are real numbers. This covers `price * (1 - fee)`, `60000 / rate`, the number-to-string conversions of `toString`/`parseFloat`, and `calculateBackoff`, whose attempt is a natural number and base an integer: a fractional base and `Math.pow(2, attempt)` overflowing to `Infinity` from attempt 1024 on are not modelled.
- Error texts are the `ErrorMessage` datatype rather than rendered strings.
- The `orders` table's column defaults are part of the migration, which is not part of this model. `InsertedRow` assumes a generated id and the insertion time. A row whose `status` or `order_type` is a name the program never writes is not modelled: `rowToOrder` casts those strings unchecked, while `RowToOrder` requires a known name, which `ValidRows` keeps true for every row the program writes.
- Environment variables are constants. `RateLimitMs` requires a positive rate: `parseInt` of a bad value and a zero rate are not modelled.
- `getBasePrice` with inherited object keys (such as `"constructor"`) is not modelled: the table is a plain map.
- The quote sources and swap services of mockDex.ts and solanaDex.ts are function parameters. Their randomness, sleeps and always-throwing devnet stubs are covered by the parameter's choice.
- `USE_REAL_DEVNET` and the dynamic imports are not modelled: there is one quote source and one swap adapter per venue set.
- Logging is not modelled, including `buildTx`, which only logs.
- DexRouter.GetQuotes: the in-place `Array.prototype.sort` is modelled on sequence values as a stable insertion sort.
- DexRouter.RouterTestVectors: it leaves out the test at src/tests/dexRouter.test.ts:12-32. That test expects the lower net price first, which contradicts the descending sort.
- The WebSocket relay, HTTP routes, app and server wiring, and migrations are not part of this model.
- PipelineRow, RecoveryRow, OrderWorker.Write and OrderWorker.Publish assume that every store write of a stored order and every Redis publish succeeds. In the code a write or publish that raises inside the try block would end up in the catch block, with its message as `lastError` and the attempt counted. One that raises inside the catch block (src/queue/orderQueue.ts:207-254) would escape it and skip the writes and the publish after it. Only the TypeError of a write on an unknown id is modelled.
