/**
 * The order worker of src/queue/orderQueue.ts: the admission-rate gate over
 * the shared last-processed time, the per-job status pipeline with its store
 * writes and published updates, and the catch block that records the failed
 * attempt, fails the order on the last attempt and rethrows.
 *
 * The job's behaviour is first written as functions on the table
 * (PipelineRow, RecoveryRow, AttemptRow and AttemptSpec), about which the properties are
 * proved; the OrderWorker class carries it out against an OrderStore and is
 * proved to produce exactly those tables, publications and results.
 */
module OrderQueue {
  import opened Wrappers
  import opened OrderModel
  import opened DexRouter
  import opened OrderService
  import opened Db

  // ---------------------------------------------------------------------
  // Configuration
  // ---------------------------------------------------------------------

  /** MAX_RETRIES and ORDER_PROCESSOR_RATE without environment overrides. */
  const DefaultMaxRetries: int := 3
  const DefaultProcessorRate: int := 100

  /** RATE_LIMIT_MS: the minimum spacing of job starts for `rate` jobs a minute. */
  function RateLimitMs(rate: int): (ms: real)
    requires rate > 0
    ensures ms > 0.0
    ensures ms * (rate as real) == 60000.0
  {
    60000.0 / (rate as real)
  }

  lemma DefaultRateLimit()
    ensures RateLimitMs(DefaultProcessorRate) == 600.0
  {
  }

  /** The worker quotes every pair at the fixed base price 25.0. */
  const WorkerBasePrice: real := 25.0

  /**
   * The worker's base price agrees with executeOrder's table for SOL to USDC
   * and differs from it for USDC to SOL.
   */
  lemma WorkerBasePriceVersusTable()
    ensures WorkerBasePrice == GetBasePrice("SOL", "USDC")
    ensures WorkerBasePrice != GetBasePrice("USDC", "SOL")
  {
  }

  // ---------------------------------------------------------------------
  // Publication
  // ---------------------------------------------------------------------

  /** The pub/sub channel of an order's updates. */
  function Channel(orderId: string): (c: string)
    ensures |c| == |orderId| + 6 && c[..6] == "order:" && c[6..] == orderId
  {
    "order:" + orderId
  }

  /** Distinct orders publish on distinct channels. */
  lemma ChannelInjective(a: string, b: string)
    ensures Channel(a) == Channel(b) <==> a == b
  {
    if Channel(a) == Channel(b) {
      assert a == Channel(a)[6..] == Channel(b)[6..] == b;
    }
  }

  /** One `publisher.publish(channel, message)`. */
  datatype Published = Published(channel: string, message: OrderUpdateMessage)

  /**
   * One effect of the processor seen outside it, in the order it happens:
   * an `updateOrderStatus` write, or a publication.
   */
  datatype Step = Stored(status: OrderStatus, updates: OrderUpdates) | Sent(pub: Published)

  /** The publication of an update about `orderId` on its channel. */
  function Announce(orderId: string, status: OrderStatus, at: int, details: Option<UpdateDetails>): Step {
    Sent(Published(Channel(orderId), OrderUpdateMessage(orderId, status, at, details)))
  }

  /** What the publisher carried: the publications of a trace, in order. */
  function Publications(trace: seq<Step>): seq<Published>
    decreases |trace|
  {
    if trace == [] then []
    else Publications(trace[..|trace| - 1]) + (if trace[|trace| - 1].Sent? then [trace[|trace| - 1].pub] else [])
  }

  lemma {:induction false} PublicationsConcat(a: seq<Step>, b: seq<Step>)
    ensures Publications(a + b) == Publications(a) + Publications(b)
    decreases |b|
  {
    if b != [] {
      var b' := b[..|b| - 1];
      assert (a + b)[..|a + b| - 1] == a + b';
      assert (a + b)[|a + b| - 1] == b[|b| - 1];
      PublicationsConcat(a, b');
    } else {
      assert a + b == a;
    }
  }

  /** The status a step writes or announces. */
  function StatusOf(s: Step): OrderStatus {
    if s.Stored? then s.status else s.pub.message.status
  }

  /** Every publication of the trace is about `orderId`, on its channel. */
  predicate AllAbout(trace: seq<Step>, orderId: string) {
    forall i :: 0 <= i < |trace| && trace[i].Sent? ==>
      trace[i].pub.channel == Channel(orderId) && trace[i].pub.message.orderId == orderId
  }

  /** No status goes back along pending -> routing -> building -> submitted -> confirmed, and the last is terminal. */
  predicate Advances(trace: seq<Step>) {
    && trace != []
    && (forall i, j :: 0 <= i < j < |trace| ==> Stage(StatusOf(trace[i])) <= Stage(StatusOf(trace[j])))
    && IsTerminal(StatusOf(trace[|trace| - 1]))
  }

  /** Every write is followed at once by the publication of the status it wrote. */
  predicate PublishesAfterEachWrite(trace: seq<Step>) {
    forall i :: 0 <= i < |trace| && trace[i].Stored? ==>
      i + 1 < |trace| && trace[i + 1].Sent? && trace[i + 1].pub.message.status == trace[i].status
  }

  /** The `{ price, liquidity, fee }` summary of a venue's quote, if it has one. */
  function Summary(q: Option<DexQuote>): Option<Quote> {
    if q.Some? then Some(QuoteOf(q.value)) else None
  }

  /** The details of the routing-decision update. */
  function QuoteDetails(quotes: seq<DexQuote>, chosen: string): UpdateDetails {
    NoDetails.(quotes := Some(QuoteSummary(Summary(FindDex(quotes, RaydiumName)),
                                           Summary(FindDex(quotes, MeteoraName)),
                                           Some(chosen))))
  }

  function ErrorDetails(err: ErrorMessage, attempt: int): UpdateDetails {
    NoDetails.(error := Some(err), attempt := Some(attempt))
  }

  // ---------------------------------------------------------------------
  // What one job attempt does
  // ---------------------------------------------------------------------

  /** What a successful job returns. */
  datatype JobResult = JobResult(success: bool, txHash: string, executedPrice: real)

  /** The order's row, the trace of writes and publications, and the outcome of (part of) a job attempt. */
  datatype Run = Run(row: OrderRow, trace: seq<Step>, result: Result<JobResult, ErrorMessage>)

  /** The same on the whole table. */
  datatype Attempt = Attempt(rows: map<string, OrderRow>, trace: seq<Step>, result: Result<JobResult, ErrorMessage>)

  /** The building write: the chosen venue and the `{ price, fee, liquidity }` of its routing. */
  function BuildingUpdates(d: RoutingDecision): OrderUpdates {
    NoUpdates.(chosenDex := Put(Some(d.dexName)), chosenQuote := Put(Some(Quote(d.quote.price, d.fee, d.quote.liquidity))))
  }

  function SubmittedUpdates(res: SwapResult): OrderUpdates {
    NoUpdates.(txHash := Put(Some(res.txHash)))
  }

  function ConfirmedUpdates(res: SwapResult): OrderUpdates {
    NoUpdates.(executedPrice := Put(Some(res.executedPrice)), txHash := Put(Some(res.txHash)))
  }

  /** The catch block's write: the attempt count and the error. */
  function FailureUpdates(attempts: int, err: ErrorMessage): OrderUpdates {
    NoUpdates.(attempts := Put(attempts), lastError := Put(Some(err)))
  }

  /** The worker's limit check: a limit order with a truthy limit price below the expected price. */
  predicate WorkerLimitBlocks(o: Order, expectedPrice: real) {
    o.orderType == Limit && LimitPriceSet(o.limitPrice) && expectedPrice > o.limitPrice.value
  }

  /** It refuses exactly what executeOrder's check refuses; only the message's operator differs. */
  lemma WorkerLimitIsServiceLimit(o: Order, expectedPrice: real)
    ensures WorkerLimitBlocks(o, expectedPrice) == LimitBlocks(o, expectedPrice)
  {
  }

  /** The quotes the worker obtains for an order. */
  function WorkerQuotes(o: Order, raydium: QuoteSource, meteora: QuoteSource): seq<DexQuote> {
    RankedQuotes(raydium(WorkerBasePrice, o.amount), meteora(WorkerBasePrice, o.amount))
  }

  /** The first step: a pending order is moved to routing and announced; any other is left alone. */
  function RoutingStep(row: OrderRow, orderId: string, o: Order, at: int): (OrderRow, seq<Step>) {
    if o.status == Pending then
      (PatchRow(row, Routing, NoUpdates, at), [Stored(Routing, NoUpdates), Announce(orderId, Routing, at, None)])
    else (row, [])
  }

  /**
   * Everything after a non-empty quote list: the routing announcement, the
   * building write, the limit check, the swap and the two last writes.
   */
  function ExecuteStage(row: OrderRow, orderId: string, o: Order, quotes: seq<DexQuote>, at: int, swap: SwapAdapter): Run
    requires quotes != []
  {
    var d := SelectBestDex(quotes).value;
    var row2 := PatchRow(row, Building, BuildingUpdates(d), at);
    var ev2 := [Announce(orderId, Routing, at, Some(QuoteDetails(quotes, d.dexName))),
                Stored(Building, BuildingUpdates(d)), Announce(orderId, Building, at, None)];
    if WorkerLimitBlocks(o, d.expectedPrice) then
      Run(row2, ev2, Failure(LimitPriceNotMet(d.expectedPrice, ">", o.limitPrice.value)))
    else
      var settled := SwapStage(row2, orderId, o, d, at, swap);
      Run(settled.row, ev2 + settled.trace, settled.result)
  }

  /** The swap on the chosen venue and, once it settles, the submitted and confirmed writes. */
  function SwapStage(row: OrderRow, orderId: string, o: Order, d: RoutingDecision, at: int, swap: SwapAdapter): Run {
    match swap(d.dexName, RequestFor(o, d))
    case Rejected(m) => Run(row, [], Failure(Thrown(m)))
    case Fulfilled(res) =>
      Run(PatchRow(PatchRow(row, Submitted, SubmittedUpdates(res), at), Confirmed, ConfirmedUpdates(res), at),
          [Stored(Submitted, SubmittedUpdates(res)),
           Announce(orderId, Submitted, at, Some(NoDetails.(txHash := Some(res.txHash)))),
           Stored(Confirmed, ConfirmedUpdates(res)),
           Announce(orderId, Confirmed, at, Some(NoDetails.(txHash := Some(res.txHash),
                                                            executedPrice := Some(res.executedPrice))))],
          Success(JobResult(true, res.txHash, res.executedPrice)))
  }

  /** The quotes at the worker's base price; without any, the attempt fails with nothing written. */
  function RouteStage(row: OrderRow, orderId: string, o: Order, at: int,
                      raydium: QuoteSource, meteora: QuoteSource, swap: SwapAdapter): Run
  {
    var quotes := WorkerQuotes(o, raydium, meteora);
    if quotes == [] then Run(row, [], Failure(NoQuotesAvailable))
    else ExecuteStage(row, orderId, o, quotes, at, swap)
  }

  /** The try block of the processor on the order's stored row, with every event stamped `at`. */
  function PipelineRow(row: OrderRow, orderId: string, at: int,
                       raydium: QuoteSource, meteora: QuoteSource, swap: SwapAdapter): Run
    requires WellFormedRow(row)
  {
    var o := RowToOrder(row);
    var (row1, ev1) := RoutingStep(row, orderId, o, at);
    var run := RouteStage(row1, orderId, o, at, raydium, meteora, swap);
    Run(run.row, ev1 + run.trace, run.result)
  }

  /** Every write keeps the row well formed and under its id. */
  lemma PipelineRowWellFormed(row: OrderRow, orderId: string, at: int,
                              raydium: QuoteSource, meteora: QuoteSource, swap: SwapAdapter)
    requires WellFormedRow(row)
    ensures WellFormedRow(PipelineRow(row, orderId, at, raydium, meteora, swap).row)
    ensures PipelineRow(row, orderId, at, raydium, meteora, swap).row.id == row.id
  {
    StatusDomain(Building, "");
    StatusDomain(Confirmed, "");
  }

  /**
   * The catch block for the error `err` of attempt `attemptsMade + 1`: the
   * count and error are written under the current status; on the last
   * attempt the order is failed and announced as failed, otherwise the
   * status read back is announced; the error is rethrown.
   */
  function RecoveryRow(row: OrderRow, orderId: string, attemptsMade: nat, err: ErrorMessage,
                       at: int, maxRetries: int): Run
    requires WellFormedRow(row)
  {
    var attempts := attemptsMade + 1;
    var u := FailureUpdates(attempts, err);
    var current := RowToOrder(row).status;
    var row1 := PatchRow(row, current, u, at);
    if attempts >= maxRetries then
      Run(PatchRow(row1, Failed, u, at),
          [Stored(current, u), Stored(Failed, u), Announce(orderId, Failed, at, Some(ErrorDetails(err, attempts)))],
          Failure(err))
    else
      Run(row1,
          [Stored(current, u), Announce(orderId, ParseStatus(row1.status).GetOr(Pending), at, Some(ErrorDetails(err, attempts)))],
          Failure(err))
  }

  /** One delivery of the job for a stored order: the try block, and the catch block when it raised. */
  function AttemptRow(row: OrderRow, orderId: string, attemptsMade: nat, at: int,
                      raydium: QuoteSource, meteora: QuoteSource, swap: SwapAdapter, maxRetries: int): Run
    requires WellFormedRow(row)
  {
    var p := PipelineRow(row, orderId, at, raydium, meteora, swap);
    if p.result.Success? then p
    else
      PipelineRowWellFormed(row, orderId, at, raydium, meteora, swap);
      var rec := RecoveryRow(p.row, orderId, attemptsMade, p.result.error, at, maxRetries);
      Run(rec.row, p.trace + rec.trace, rec.result)
  }

  /**
   * One delivery of the job for `orderId` on the table. An unknown id makes
   * the try block throw "not found" and the catch block's write raise the
   * TypeError, with nothing written or published. Only the job's own row
   * changes, and the table stays valid.
   */
  function AttemptSpec(rows: map<string, OrderRow>, orderId: string, attemptsMade: nat, at: int,
                       raydium: QuoteSource, meteora: QuoteSource, swap: SwapAdapter, maxRetries: int): (a: Attempt)
    requires ValidRows(rows)
    ensures ValidRows(a.rows) && a.rows.Keys == rows.Keys
    ensures forall id :: id in rows && id != orderId ==> a.rows[id] == rows[id]
  {
    if orderId !in rows then Attempt(rows, [], Failure(Thrown(UndefinedRowError)))
    else
      var run := AttemptRow(rows[orderId], orderId, attemptsMade, at, raydium, meteora, swap, maxRetries);
      AttemptRowWellFormed(rows[orderId], orderId, attemptsMade, at, raydium, meteora, swap, maxRetries);
      Attempt(rows[orderId := run.row], run.trace, run.result)
  }

  lemma AttemptRowWellFormed(row: OrderRow, orderId: string, attemptsMade: nat, at: int,
                             raydium: QuoteSource, meteora: QuoteSource, swap: SwapAdapter, maxRetries: int)
    requires WellFormedRow(row)
    ensures WellFormedRow(AttemptRow(row, orderId, attemptsMade, at, raydium, meteora, swap, maxRetries).row)
    ensures AttemptRow(row, orderId, attemptsMade, at, raydium, meteora, swap, maxRetries).row.id == row.id
  {
    PipelineRowWellFormed(row, orderId, at, raydium, meteora, swap);
    var p := PipelineRow(row, orderId, at, raydium, meteora, swap);
    StatusDomain(RowToOrder(p.row).status, "");
    StatusDomain(Failed, "");
  }

  // ---------------------------------------------------------------------
  // Properties of a job attempt
  // ---------------------------------------------------------------------

  /**
   * The effects of a run whose swap settles: the routing write and its
   * ROUTING update (from pending only), the ROUTING update with the quotes
   * and the chosen venue, the building write and BUILDING, the submitted
   * write and SUBMITTED, the confirmed write and CONFIRMED.
   */
  function SuccessTrace(orderId: string, fromPending: bool, quotes: seq<DexQuote>, d: RoutingDecision,
                        res: SwapResult, at: int): seq<Step>
  {
    (if fromPending then [Stored(Routing, NoUpdates), Announce(orderId, Routing, at, None)] else [])
    + [Announce(orderId, Routing, at, Some(QuoteDetails(quotes, d.dexName))),
       Stored(Building, BuildingUpdates(d)), Announce(orderId, Building, at, None),
       Stored(Submitted, SubmittedUpdates(res)),
       Announce(orderId, Submitted, at, Some(NoDetails.(txHash := Some(res.txHash)))),
       Stored(Confirmed, ConfirmedUpdates(res)),
       Announce(orderId, Confirmed, at, Some(NoDetails.(txHash := Some(res.txHash), executedPrice := Some(res.executedPrice))))]
  }

  /**
   * A successful run has exactly the effects of SuccessTrace, in that order,
   * and returns the swap's hash and price. The order ends confirmed with that
   * hash and price and the chosen venue, its attempt count and error untouched.
   */
  lemma SuccessfulRun(row: OrderRow, orderId: string, at: int,
                      raydium: QuoteSource, meteora: QuoteSource, swap: SwapAdapter)
    requires WellFormedRow(row)
    requires var o := RowToOrder(row);
      var quotes := WorkerQuotes(o, raydium, meteora);
      quotes != [] && !WorkerLimitBlocks(o, quotes[0].netPrice)
      && swap(quotes[0].dexName, RequestFor(o, Decision(quotes[0]))).Fulfilled?
    ensures var o := RowToOrder(row);
      var quotes := WorkerQuotes(o, raydium, meteora);
      var p := PipelineRow(row, orderId, at, raydium, meteora, swap);
      var res := swap(quotes[0].dexName, RequestFor(o, Decision(quotes[0]))).value;
      && p.result == Success(JobResult(true, res.txHash, res.executedPrice))
      && p.trace == SuccessTrace(orderId, o.status == Pending, quotes, Decision(quotes[0]), res, at)
      && p.row.status == StatusName(Confirmed)
      && p.row.tx_hash == Some(res.txHash)
      && p.row.executed_price == Some(res.executedPrice)
      && p.row.chosen_dex == Some(quotes[0].dexName)
      && p.row.attempts == row.attempts
      && p.row.last_error == row.last_error
  {
  }

  /** Along a successful run no status written or published goes back, the last is terminal, and every write is published at once. */
  lemma SuccessfulRunAdvances(row: OrderRow, orderId: string, at: int,
                              raydium: QuoteSource, meteora: QuoteSource, swap: SwapAdapter)
    requires WellFormedRow(row)
    requires var o := RowToOrder(row);
      var quotes := WorkerQuotes(o, raydium, meteora);
      quotes != [] && !WorkerLimitBlocks(o, quotes[0].netPrice)
      && swap(quotes[0].dexName, RequestFor(o, Decision(quotes[0]))).Fulfilled?
    ensures var p := PipelineRow(row, orderId, at, raydium, meteora, swap);
      Advances(p.trace) && PublishesAfterEachWrite(p.trace)
  {
    SuccessfulRun(row, orderId, at, raydium, meteora, swap);
    var o := RowToOrder(row);
    var quotes := WorkerQuotes(o, raydium, meteora);
    var res := swap(quotes[0].dexName, RequestFor(o, Decision(quotes[0]))).value;
    LifecycleAdvances(orderId, o.status == Pending, quotes, Decision(quotes[0]), res, at);
    LifecycleAnnouncesWrites(orderId, o.status == Pending, quotes, Decision(quotes[0]), res, at);
  }

  lemma LifecycleAdvances(orderId: string, fromPending: bool, quotes: seq<DexQuote>, d: RoutingDecision,
                          res: SwapResult, at: int)
    ensures Advances(SuccessTrace(orderId, fromPending, quotes, d, res, at))
  {
    var t := SuccessTrace(orderId, fromPending, quotes, d, res, at);
    var stages := seq(|t|, i requires 0 <= i < |t| => Stage(StatusOf(t[i])));
    if fromPending {
      assert stages == [1, 1, 1, 2, 2, 3, 3, 4, 4];
    } else {
      assert stages == [1, 2, 2, 3, 3, 4, 4];
    }
    StepwiseAdvances(t);
  }

  lemma LifecycleAnnouncesWrites(orderId: string, fromPending: bool, quotes: seq<DexQuote>, d: RoutingDecision,
                                 res: SwapResult, at: int)
    ensures PublishesAfterEachWrite(SuccessTrace(orderId, fromPending, quotes, d, res, at))
  {
    var t := SuccessTrace(orderId, fromPending, quotes, d, res, at);
    var kinds := seq(|t|, i requires 0 <= i < |t| => t[i].Sent?);
    if fromPending {
      assert kinds == [false, true, true, false, true, false, true, false, true];
    } else {
      assert kinds == [true, false, true, false, true, false, true];
    }
  }

  /** Stages that never go back from one step to the next never go back at all. */
  lemma {:induction false} StepwiseAdvances(t: seq<Step>)
    requires forall i :: 0 <= i < |t| - 1 ==> Stage(StatusOf(t[i])) <= Stage(StatusOf(t[i + 1]))
    ensures forall i, j :: 0 <= i < j < |t| ==> Stage(StatusOf(t[i])) <= Stage(StatusOf(t[j]))
    decreases |t|
  {
    if |t| > 1 {
      var rest := t[1..];
      StepwiseAdvances(rest);
      forall i, j | 0 <= i < j < |t|
        ensures Stage(StatusOf(t[i])) <= Stage(StatusOf(t[j]))
      {
        if i > 0 {
          assert t[i] == rest[i - 1] && t[j] == rest[j - 1];
        } else if j > 1 {
          assert t[1] == rest[0] && t[j] == rest[j - 1];
        }
      }
    }
  }

  /**
   * The venue and quote recorded by the building write are those of the
   * best answering venue at the worker's base price (Raydium on a tie).
   */
  lemma ChosenVenueIsBest(row: OrderRow, orderId: string, at: int,
                          raydium: QuoteSource, meteora: QuoteSource, swap: SwapAdapter)
    requires WellFormedRow(row)
    requires WorkerQuotes(RowToOrder(row), raydium, meteora) != []
    ensures var o := RowToOrder(row);
      var best := BestRouting(raydium(WorkerBasePrice, o.amount), meteora(WorkerBasePrice, o.amount));
      var p := PipelineRow(row, orderId, at, raydium, meteora, swap);
      && best.Some?
      && p.row.chosen_dex == Some(best.value.dexName)
      && p.row.chosen_quote == Some(best.value.quote)
  {
    var o := RowToOrder(row);
    var start := RoutingStep(row, orderId, o, at);
    ExecuteRecordsChoice(start.0, orderId, o, WorkerQuotes(o, raydium, meteora), at, swap);
    SelectBestOfRanked(raydium(WorkerBasePrice, o.amount), meteora(WorkerBasePrice, o.amount));
  }

  /** The execute stage records the selected venue and its quote, whatever happens after the building write. */
  lemma ExecuteRecordsChoice(row: OrderRow, orderId: string, o: Order, quotes: seq<DexQuote>, at: int, swap: SwapAdapter)
    requires quotes != []
    ensures var d := SelectBestDex(quotes).value;
      var run := ExecuteStage(row, orderId, o, quotes, at, swap);
      run.row.chosen_dex == Some(d.dexName) && run.row.chosen_quote == Some(d.quote)
  {
  }

  /**
   * The status is written to routing only from pending: for an order in any
   * other status the try block makes no routing write, every ROUTING update
   * carries the quotes and, when no venue answers, nothing is written or
   * published.
   */
  lemma NoRoutingWriteUnlessPending(row: OrderRow, orderId: string, at: int,
                                    raydium: QuoteSource, meteora: QuoteSource, swap: SwapAdapter)
    requires WellFormedRow(row) && RowToOrder(row).status != Pending
    ensures var p := PipelineRow(row, orderId, at, raydium, meteora, swap);
      forall i :: 0 <= i < |p.trace| && p.trace[i].Stored? ==> p.trace[i].status != Routing
    ensures var p := PipelineRow(row, orderId, at, raydium, meteora, swap);
      forall i :: 0 <= i < |p.trace| && p.trace[i].Sent? && p.trace[i].pub.message.status == Routing ==>
        p.trace[i].pub.message.details.Some?
    ensures WorkerQuotes(RowToOrder(row), raydium, meteora) == [] ==>
      PipelineRow(row, orderId, at, raydium, meteora, swap) == Run(row, [], Failure(NoQuotesAvailable))
  {
    var o := RowToOrder(row);
    var quotes := WorkerQuotes(o, raydium, meteora);
    if quotes != [] {
      ExecuteWritesNoRouting(row, orderId, o, quotes, at, swap);
    }
  }

  /** The execute stage never writes routing, and its ROUTING update carries the quotes. */
  lemma ExecuteWritesNoRouting(row: OrderRow, orderId: string, o: Order, quotes: seq<DexQuote>, at: int, swap: SwapAdapter)
    requires quotes != []
    ensures var t := ExecuteStage(row, orderId, o, quotes, at, swap).trace;
      forall i :: 0 <= i < |t| && t[i].Stored? ==> t[i].status != Routing
    ensures var t := ExecuteStage(row, orderId, o, quotes, at, swap).trace;
      forall i :: 0 <= i < |t| && t[i].Sent? && t[i].pub.message.status == Routing ==> t[i].pub.message.details.Some?
  {
  }

  /**
   * With no answering venue a pending order is written to routing and
   * announced as such, and nothing else happens before the attempt fails
   * with the no-quotes error.
   */
  lemma NoQuotesFromPending(row: OrderRow, orderId: string, at: int,
                            raydium: QuoteSource, meteora: QuoteSource, swap: SwapAdapter)
    requires WellFormedRow(row) && RowToOrder(row).status == Pending
    requires WorkerQuotes(RowToOrder(row), raydium, meteora) == []
    ensures var p := PipelineRow(row, orderId, at, raydium, meteora, swap);
      && p.result == Failure(NoQuotesAvailable)
      && p.row == PatchRow(row, Routing, NoUpdates, at)
      && p.trace == [Stored(Routing, NoUpdates), Announce(orderId, Routing, at, None)]
  {
  }

  /**
   * A limit order whose limit is below the expected price fails after the
   * building write and its BUILDING update, so it stays in building with the
   * chosen venue recorded; the swap adapter is never consulted.
   */
  lemma LimitNotMetStaysBuilding(row: OrderRow, orderId: string, at: int,
                                 raydium: QuoteSource, meteora: QuoteSource, swap1: SwapAdapter, swap2: SwapAdapter)
    requires WellFormedRow(row)
    requires var o := RowToOrder(row);
      var quotes := WorkerQuotes(o, raydium, meteora);
      quotes != [] && WorkerLimitBlocks(o, quotes[0].netPrice)
    ensures var o := RowToOrder(row);
      var quotes := WorkerQuotes(o, raydium, meteora);
      var p := PipelineRow(row, orderId, at, raydium, meteora, swap1);
      && p.result == Failure(LimitPriceNotMet(quotes[0].netPrice, ">", o.limitPrice.value))
      && p.row.status == StatusName(Building)
      && p.row.chosen_dex == Some(quotes[0].dexName)
      && p.trace == (if o.status == Pending then [Stored(Routing, NoUpdates), Announce(orderId, Routing, at, None)] else [])
                    + [Announce(orderId, Routing, at, Some(QuoteDetails(quotes, quotes[0].dexName))),
                       Stored(Building, BuildingUpdates(Decision(quotes[0]))), Announce(orderId, Building, at, None)]
      && p == PipelineRow(row, orderId, at, raydium, meteora, swap2)
  {
  }

  /**
   * The catch block writes `attempts = attemptsMade + 1` and the error under
   * the current status, then on the last attempt writes failed; it publishes
   * exactly one update after its writes and rethrows the same error.
   */
  lemma RecoveryAccounting(row: OrderRow, orderId: string, attemptsMade: nat, err: ErrorMessage,
                           at: int, maxRetries: int)
    requires WellFormedRow(row)
    ensures var rec := RecoveryRow(row, orderId, attemptsMade, err, at, maxRetries);
      var last := attemptsMade + 1 >= maxRetries;
      var u := FailureUpdates(attemptsMade + 1, err);
      && rec.result == Failure(err)
      && rec.row.attempts == attemptsMade + 1
      && rec.row.last_error == Some(err)
      && rec.row.status == (if last then StatusName(Failed) else row.status)
      && rec.trace == [Stored(RowToOrder(row).status, u)] + (if last then [Stored(Failed, u)] else [])
                      + [Announce(orderId, if last then Failed else RowToOrder(row).status,
                                  at, Some(ErrorDetails(err, attemptsMade + 1)))]
  {
    StatusDomain(RowToOrder(row).status, "");
  }

  /** With the default three attempts, the third delivery fails the order and the first two keep its status. */
  lemma DefaultRetries(row: OrderRow, orderId: string, err: ErrorMessage, at: int)
    requires WellFormedRow(row)
    ensures RecoveryRow(row, orderId, 0, err, at, DefaultMaxRetries).row.status == row.status
    ensures RecoveryRow(row, orderId, 1, err, at, DefaultMaxRetries).row.status == row.status
    ensures RecoveryRow(row, orderId, 2, err, at, DefaultMaxRetries).row.status == StatusName(Failed)
  {
    RecoveryAccounting(row, orderId, 0, err, at, DefaultMaxRetries);
    RecoveryAccounting(row, orderId, 1, err, at, DefaultMaxRetries);
    RecoveryAccounting(row, orderId, 2, err, at, DefaultMaxRetries);
  }

  /**
   * The last delivery (attemptsMade = maxRetries - 1) of a failing job
   * leaves the order failed with maxRetries attempts and the job's error;
   * after the try block's effects come the two writes and the FAILED update.
   */
  lemma LastAttemptFails(row: OrderRow, orderId: string, at: int, raydium: QuoteSource,
                         meteora: QuoteSource, swap: SwapAdapter, maxRetries: int)
    requires WellFormedRow(row) && maxRetries >= 1
    requires PipelineRow(row, orderId, at, raydium, meteora, swap).result.Failure?
    ensures var p := PipelineRow(row, orderId, at, raydium, meteora, swap);
      var a := AttemptRow(row, orderId, maxRetries - 1, at, raydium, meteora, swap, maxRetries);
      && a.result == p.result
      && a.row.status == StatusName(Failed)
      && a.row.attempts == maxRetries
      && a.row.last_error == Some(p.result.error)
      && |a.trace| == |p.trace| + 3
      && a.trace[..|p.trace|] == p.trace
      && a.trace[|a.trace| - 2] == Stored(Failed, FailureUpdates(maxRetries, p.result.error))
      && a.trace[|a.trace| - 1] == Announce(orderId, Failed, at, Some(ErrorDetails(p.result.error, maxRetries)))
  {
    var p := PipelineRow(row, orderId, at, raydium, meteora, swap);
    PipelineRowWellFormed(row, orderId, at, raydium, meteora, swap);
    RecoveryAccounting(p.row, orderId, maxRetries - 1, p.result.error, at, maxRetries);
    var rec := RecoveryRow(p.row, orderId, maxRetries - 1, p.result.error, at, maxRetries);
    assert (p.trace + rec.trace)[..|p.trace|] == p.trace;
  }

  /** An unknown order id changes nothing, publishes nothing, and the job fails with the TypeError of the catch block's write. */
  lemma UnknownOrder(rows: map<string, OrderRow>, orderId: string, attemptsMade: nat, at: int,
                     raydium: QuoteSource, meteora: QuoteSource, swap: SwapAdapter, maxRetries: int)
    requires ValidRows(rows) && orderId !in rows
    ensures AttemptSpec(rows, orderId, attemptsMade, at, raydium, meteora, swap, maxRetries)
         == Attempt(rows, [], Failure(Thrown(UndefinedRowError)))
  {
  }

  /**
   * A confirmed order delivered again does not stay confirmed when the
   * limit check fails: the building write moves it back to building before
   * the check, and the catch block keeps that status.
   */
  lemma ConfirmedOrderRegresses(row: OrderRow, orderId: string, attemptsMade: nat, at: int,
                                raydium: QuoteSource, meteora: QuoteSource, swap: SwapAdapter, maxRetries: int)
    requires WellFormedRow(row) && RowToOrder(row).status == Confirmed
    requires attemptsMade + 1 < maxRetries
    requires var o := RowToOrder(row);
      var quotes := WorkerQuotes(o, raydium, meteora);
      quotes != [] && WorkerLimitBlocks(o, quotes[0].netPrice)
    ensures AttemptRow(row, orderId, attemptsMade, at, raydium, meteora, swap, maxRetries).row.status
         == StatusName(Building)
  {
    var p := PipelineRow(row, orderId, at, raydium, meteora, swap);
    LimitNotMetStaysBuilding(row, orderId, at, raydium, meteora, swap, swap);
    PipelineRowWellFormed(row, orderId, at, raydium, meteora, swap);
    RecoveryAccounting(p.row, orderId, attemptsMade, p.result.error, at, maxRetries);
  }

  lemma AllAboutConcat(a: seq<Step>, b: seq<Step>, orderId: string)
    requires AllAbout(a, orderId) && AllAbout(b, orderId)
    ensures AllAbout(a + b, orderId)
  {
  }

  lemma ExecutePublishesOnChannel(row: OrderRow, orderId: string, o: Order, quotes: seq<DexQuote>, at: int, swap: SwapAdapter)
    requires quotes != []
    ensures AllAbout(ExecuteStage(row, orderId, o, quotes, at, swap).trace, orderId)
  {
  }

  lemma PipelinePublishesOnChannel(row: OrderRow, orderId: string, at: int,
                                   raydium: QuoteSource, meteora: QuoteSource, swap: SwapAdapter)
    requires WellFormedRow(row)
    ensures AllAbout(PipelineRow(row, orderId, at, raydium, meteora, swap).trace, orderId)
  {
    var o := RowToOrder(row);
    var start := RoutingStep(row, orderId, o, at);
    var quotes := WorkerQuotes(o, raydium, meteora);
    if quotes != [] {
      ExecutePublishesOnChannel(start.0, orderId, o, quotes, at, swap);
    }
    AllAboutConcat(start.1, RouteStage(start.0, orderId, o, at, raydium, meteora, swap).trace, orderId);
  }

  /** Every update of an attempt is about its order and goes out on that order's channel. */
  lemma AttemptPublishesOnChannel(row: OrderRow, orderId: string, attemptsMade: nat, at: int,
                                  raydium: QuoteSource, meteora: QuoteSource, swap: SwapAdapter, maxRetries: int)
    requires WellFormedRow(row)
    ensures AllAbout(AttemptRow(row, orderId, attemptsMade, at, raydium, meteora, swap, maxRetries).trace, orderId)
  {
    var p := PipelineRow(row, orderId, at, raydium, meteora, swap);
    PipelinePublishesOnChannel(row, orderId, at, raydium, meteora, swap);
    if p.result.Failure? {
      PipelineRowWellFormed(row, orderId, at, raydium, meteora, swap);
      AllAboutConcat(p.trace, RecoveryRow(p.row, orderId, attemptsMade, p.result.error, at, maxRetries).trace, orderId);
    }
  }

  // ---------------------------------------------------------------------
  // The rate gate
  // ---------------------------------------------------------------------

  /** How long the gate waits for a job arriving at `now` after a start at `last`. */
  function GateWait(now: int, last: int, rateLimitMs: real): (w: real)
    ensures w >= 0.0
    ensures w > 0.0 <==> ((now - last) as real) < rateLimitMs
  {
    var since := (now - last) as real;
    if since < rateLimitMs then rateLimitMs - since else 0.0
  }

  /** A job that starts no earlier than the gate allows starts at least rateLimitMs after the previous start. */
  lemma GateSpacing(now: int, last: int, startedAt: int, rateLimitMs: real)
    requires startedAt >= now && (startedAt as real) >= (now as real) + GateWait(now, last, rateLimitMs)
    ensures ((startedAt - last) as real) >= rateLimitMs
  {
  }

  // ---------------------------------------------------------------------
  // The worker
  // ---------------------------------------------------------------------

  lemma Overwrite(rows: map<string, OrderRow>, orderId: string, a: OrderRow, b: OrderRow)
    ensures rows[orderId := a][orderId := b] == rows[orderId := b]
  {
  }

  lemma Unchanged(rows: map<string, OrderRow>, orderId: string)
    requires orderId in rows
    ensures rows == rows[orderId := rows[orderId]]
  {
  }

  lemma Concat3(a: seq<Step>, b: seq<Step>, c: seq<Step>)
    ensures a + b + c == a + (b + c)
  {
  }

  lemma AppendTwo(t: seq<Step>, a: Step, b: Step)
    ensures t + [a] + [b] == t + [a, b]
  {
  }

  lemma AppendThree(t: seq<Step>, a: Step, b: Step, c: Step)
    ensures t + [a] + [b] + [c] == t + [a, b, c]
  {
  }

  /** A write to a row already replaced in the table replaces it again. */
  lemma WriteOverwrites(rows: map<string, OrderRow>, orderId: string, row: OrderRow,
                        status: OrderStatus, u: OrderUpdates, now: int)
    ensures WriteRow(rows[orderId := row], orderId, status, u, now) == rows[orderId := PatchRow(row, status, u, now)]
  {
  }

  /** What the try block did to the table and the publications, as RunPipeline promises. */
  ghost predicate PipelineDid(rows0: map<string, OrderRow>, tr0: seq<Step>,
                              rows1: map<string, OrderRow>, tr1: seq<Step>, r: Result<JobResult, ErrorMessage>,
                              orderId: string, at: int, raydium: QuoteSource, meteora: QuoteSource, swap: SwapAdapter)
    requires ValidRows(rows0)
  {
    if orderId !in rows0 then rows1 == rows0 && tr1 == tr0 && r == Failure(OrderNotFound(orderId))
    else
      var run := PipelineRow(rows0[orderId], orderId, at, raydium, meteora, swap);
      rows1 == rows0[orderId := run.row] && tr1 == tr0 + run.trace && r == run.result
  }

  /** What the catch block did, as RecordFailure promises. */
  ghost predicate RecoveryDid(rows1: map<string, OrderRow>, tr1: seq<Step>,
                              rows2: map<string, OrderRow>, tr2: seq<Step>, thrown: ErrorMessage,
                              orderId: string, attemptsMade: nat, err: ErrorMessage, at: int, maxRetries: int)
    requires ValidRows(rows1)
  {
    if orderId !in rows1 then rows2 == rows1 && tr2 == tr1 && thrown == Thrown(UndefinedRowError)
    else
      var rec := RecoveryRow(rows1[orderId], orderId, attemptsMade, err, at, maxRetries);
      rows2 == rows1[orderId := rec.row] && tr2 == tr1 + rec.trace && Failure(thrown) == rec.result
  }

  /** A try block that returned is the whole attempt. */
  lemma AttemptSucceeds(rows0: map<string, OrderRow>, tr0: seq<Step>,
                        rows1: map<string, OrderRow>, tr1: seq<Step>, r: Result<JobResult, ErrorMessage>,
                        orderId: string, attemptsMade: nat, at: int,
                        raydium: QuoteSource, meteora: QuoteSource, swap: SwapAdapter, maxRetries: int)
    requires ValidRows(rows0) && r.Success?
    requires PipelineDid(rows0, tr0, rows1, tr1, r, orderId, at, raydium, meteora, swap)
    ensures var a := AttemptSpec(rows0, orderId, attemptsMade, at, raydium, meteora, swap, maxRetries);
      rows1 == a.rows && tr1 == tr0 + a.trace && r == a.result
  {
  }

  /** A try block that raised, followed by the catch block, is the whole attempt. */
  lemma AttemptFails(rows0: map<string, OrderRow>, tr0: seq<Step>,
                     rows1: map<string, OrderRow>, tr1: seq<Step>, r: Result<JobResult, ErrorMessage>,
                     rows2: map<string, OrderRow>, tr2: seq<Step>, thrown: ErrorMessage,
                     orderId: string, attemptsMade: nat, at: int,
                     raydium: QuoteSource, meteora: QuoteSource, swap: SwapAdapter, maxRetries: int)
    requires ValidRows(rows0) && ValidRows(rows1) && r.Failure?
    requires PipelineDid(rows0, tr0, rows1, tr1, r, orderId, at, raydium, meteora, swap)
    requires RecoveryDid(rows1, tr1, rows2, tr2, thrown, orderId, attemptsMade, r.error, at, maxRetries)
    ensures var a := AttemptSpec(rows0, orderId, attemptsMade, at, raydium, meteora, swap, maxRetries);
      rows2 == a.rows && tr2 == tr0 + a.trace && Failure(thrown) == a.result
  {
    if orderId in rows0 {
      var p := PipelineRow(rows0[orderId], orderId, at, raydium, meteora, swap);
      PipelineRowWellFormed(rows0[orderId], orderId, at, raydium, meteora, swap);
      var rec := RecoveryRow(p.row, orderId, attemptsMade, r.error, at, maxRetries);
      assert AttemptRow(rows0[orderId], orderId, attemptsMade, at, raydium, meteora, swap, maxRetries)
          == Run(rec.row, p.trace + rec.trace, rec.result);
      Overwrite(rows0, orderId, p.row, rec.row);
      Concat3(tr0, p.trace, rec.trace);
    }
  }

  class OrderWorker {
    const store: OrderStore
    const maxRetries: int
    const rateLimitMs: real
    /** The shared time of the latest job start. */
    var lastProcessedTime: int
    /** Every write and publication the processor has made so far, in order. */
    var trace: seq<Step>

    ghost predicate Valid()
      reads this, store
    {
      store.Valid()
    }

    constructor (store: OrderStore, maxRetries: int, rate: int)
      requires rate > 0
      ensures this.store == store && this.maxRetries == maxRetries && rateLimitMs == RateLimitMs(rate)
      ensures lastProcessedTime == 0 && trace == []
    {
      this.store := store;
      this.maxRetries := maxRetries;
      this.rateLimitMs := RateLimitMs(rate);
      lastProcessedTime := 0;
      trace := [];
    }

    /** publishOrderUpdate: the message goes out on the order's channel. */
    method Publish(message: OrderUpdateMessage)
      modifies this
      ensures trace == old(trace) + [Sent(Published(Channel(message.orderId), message))]
      ensures Publications(trace) == Publications(old(trace)) + [Published(Channel(message.orderId), message)]
      ensures lastProcessedTime == old(lastProcessedTime)
    {
      PublicationsConcat(trace, [Sent(Published(Channel(message.orderId), message))]);
      trace := trace + [Sent(Published(Channel(message.orderId), message))];
    }

    /** An `await updateOrderStatus(...)` of the processor, on a row it has already written `row` to. */
    method Write(orderId: string, status: OrderStatus, u: OrderUpdates, at: int,
                 ghost rows0: map<string, OrderRow>, ghost row: OrderRow)
      requires Valid() && orderId in rows0 && store.rows == rows0[orderId := row]
      modifies this, store
      ensures Valid() && store.rows == rows0[orderId := PatchRow(row, status, u, at)]
      ensures trace == old(trace) + [Stored(status, u)] && lastProcessedTime == old(lastProcessedTime)
      ensures Publications(trace) == Publications(old(trace))
    {
      var _ := store.UpdateOrderStatus(orderId, status, u, at);
      WriteOverwrites(rows0, orderId, row, status, u, at);
      PublicationsConcat(trace, [Stored(status, u)]);
      trace := trace + [Stored(status, u)];
    }

    /**
     * The rate gate: a job arriving at `arrivedAt` resumes at `startedAt`, no
     * earlier than the wait the gate sets, and that time becomes the last
     * start.
     */
    method Admit(arrivedAt: int, startedAt: int)
      requires startedAt >= arrivedAt
      requires (startedAt as real) >= (arrivedAt as real) + GateWait(arrivedAt, lastProcessedTime, rateLimitMs)
      modifies this
      ensures lastProcessedTime == startedAt && trace == old(trace)
      ensures ((startedAt - old(lastProcessedTime)) as real) >= rateLimitMs
    {
      GateSpacing(arrivedAt, lastProcessedTime, startedAt, rateLimitMs);
      lastProcessedTime := startedAt;
    }

    /** The try block from the routing announcement on, for a non-empty quote list. */
    method Execute(orderId: string, order: Order, quotes: seq<DexQuote>, at: int, swap: SwapAdapter,
                   ghost rows0: map<string, OrderRow>, ghost row: OrderRow)
      returns (r: Result<JobResult, ErrorMessage>)
      requires Valid() && orderId in rows0 && store.rows == rows0[orderId := row] && quotes != []
      modifies this, store
      ensures Valid()
      ensures var run := ExecuteStage(row, orderId, order, quotes, at, swap);
        && store.rows == rows0[orderId := run.row] && trace == old(trace) + run.trace && r == run.result
      ensures lastProcessedTime == old(lastProcessedTime)
    {
      var routing := SelectBestDex(quotes);
      if routing.None? {
        r := Failure(DexSelectionFailed);
        return;
      }
      var d := routing.value;
      Publish(OrderUpdateMessage(orderId, Routing, at, Some(QuoteDetails(quotes, d.dexName))));
      Write(orderId, Building, BuildingUpdates(d), at, rows0, row);
      ghost var row2 := PatchRow(row, Building, BuildingUpdates(d), at);
      Publish(OrderUpdateMessage(orderId, Building, at, None));
      ghost var ev2 := [Announce(orderId, Routing, at, Some(QuoteDetails(quotes, d.dexName))),
                        Stored(Building, BuildingUpdates(d)), Announce(orderId, Building, at, None)];
      AppendThree(old(trace), ev2[0], ev2[1], ev2[2]);
      assert trace == old(trace) + ev2;

      if order.orderType == Limit && LimitPriceSet(order.limitPrice) {
        if d.expectedPrice > order.limitPrice.value {
          r := Failure(LimitPriceNotMet(d.expectedPrice, ">", order.limitPrice.value));
          return;
        }
      }

      r := Swap(orderId, order, d, at, swap, rows0, row2);
      Concat3(old(trace), ev2, SwapStage(row2, orderId, order, d, at, swap).trace);
    }

    /** The swap and, once it settles, the submitted and confirmed writes and updates. */
    method Swap(orderId: string, order: Order, d: RoutingDecision, at: int, swap: SwapAdapter,
                ghost rows0: map<string, OrderRow>, ghost row: OrderRow)
      returns (r: Result<JobResult, ErrorMessage>)
      requires Valid() && orderId in rows0 && store.rows == rows0[orderId := row]
      modifies this, store
      ensures Valid()
      ensures var run := SwapStage(row, orderId, order, d, at, swap);
        && store.rows == rows0[orderId := run.row] && trace == old(trace) + run.trace && r == run.result
      ensures lastProcessedTime == old(lastProcessedTime)
    {
      var outcome := swap(d.dexName, RequestFor(order, d));
      if outcome.Rejected? {
        r := Failure(Thrown(outcome.reason));
        return;
      }
      var res := outcome.value;
      Write(orderId, Submitted, SubmittedUpdates(res), at, rows0, row);
      Publish(OrderUpdateMessage(orderId, Submitted, at, Some(NoDetails.(txHash := Some(res.txHash)))));
      Write(orderId, Confirmed, ConfirmedUpdates(res), at, rows0, PatchRow(row, Submitted, SubmittedUpdates(res), at));
      Publish(OrderUpdateMessage(orderId, Confirmed, at,
        Some(NoDetails.(txHash := Some(res.txHash), executedPrice := Some(res.executedPrice)))));
      r := Success(JobResult(true, res.txHash, res.executedPrice));
    }

    /** The quotes, and the execution when there are any. */
    method Route(orderId: string, order: Order, at: int, raydium: QuoteSource, meteora: QuoteSource, swap: SwapAdapter,
                 ghost rows0: map<string, OrderRow>, ghost row: OrderRow)
      returns (r: Result<JobResult, ErrorMessage>)
      requires Valid() && orderId in rows0 && store.rows == rows0[orderId := row]
      modifies this, store
      ensures Valid()
      ensures var run := RouteStage(row, orderId, order, at, raydium, meteora, swap);
        && store.rows == rows0[orderId := run.row] && trace == old(trace) + run.trace && r == run.result
      ensures lastProcessedTime == old(lastProcessedTime)
    {
      var quotes := GetQuotes(WorkerBasePrice, order.amount, raydium, meteora);
      if |quotes| == 0 {
        r := Failure(NoQuotesAvailable);
        return;
      }
      r := Execute(orderId, order, quotes, at, swap, rows0, row);
    }

    /** The move of a pending order to routing, and its announcement. */
    method StartRouting(orderId: string, order: Order, at: int, ghost rows0: map<string, OrderRow>, ghost row: OrderRow)
      requires Valid() && orderId in rows0 && store.rows == rows0[orderId := row]
      modifies this, store
      ensures Valid()
      ensures var start := RoutingStep(row, orderId, order, at);
        store.rows == rows0[orderId := start.0] && trace == old(trace) + start.1
      ensures lastProcessedTime == old(lastProcessedTime)
    {
      if order.status == Pending {
        Write(orderId, Routing, NoUpdates, at, rows0, row);
        Publish(OrderUpdateMessage(orderId, Routing, at, None));
      }
    }

    /** The try block of the processor. */
    method RunPipeline(orderId: string, at: int, raydium: QuoteSource, meteora: QuoteSource, swap: SwapAdapter)
      returns (r: Result<JobResult, ErrorMessage>)
      requires Valid()
      modifies this, store
      ensures Valid()
      ensures orderId !in old(store.rows) ==>
        store.rows == old(store.rows) && trace == old(trace) && r == Failure(OrderNotFound(orderId))
      ensures orderId in old(store.rows) ==>
        var run := PipelineRow(old(store.rows)[orderId], orderId, at, raydium, meteora, swap);
        && store.rows == old(store.rows)[orderId := run.row] && trace == old(trace) + run.trace
        && r == run.result
      ensures lastProcessedTime == old(lastProcessedTime)
    {
      var found := store.GetOrderById(orderId);
      if found.None? {
        r := Failure(OrderNotFound(orderId));
        return;
      }
      ghost var rows0 := store.rows;
      ghost var tr0 := trace;
      ghost var row := rows0[orderId];
      var order := found.value;
      Unchanged(rows0, orderId);

      StartRouting(orderId, order, at, rows0, row);
      ghost var start := RoutingStep(row, orderId, order, at);

      r := Route(orderId, order, at, raydium, meteora, swap, rows0, start.0);
      Concat3(tr0, start.1, RouteStage(start.0, orderId, order, at, raydium, meteora, swap).trace);
    }

    /** The catch block's first write: the attempt count and error, under the status read back. */
    method RecordAttempt(orderId: string, u: OrderUpdates, at: int) returns (written: Result<Order, ErrorMessage>)
      requires Valid()
      modifies this, store
      ensures Valid() && lastProcessedTime == old(lastProcessedTime)
      ensures orderId !in old(store.rows) ==>
        store.rows == old(store.rows) && trace == old(trace) && written == Failure(Thrown(UndefinedRowError))
      ensures orderId in old(store.rows) ==>
        var current := RowToOrder(old(store.rows)[orderId]).status;
        && store.rows == old(store.rows)[orderId := PatchRow(old(store.rows)[orderId], current, u, at)]
        && trace == old(trace) + [Stored(current, u)] && written.Success?
    {
      var currentOrder := store.GetOrderById(orderId);
      var currentStatus := if currentOrder.Some? then currentOrder.value.status else Pending;
      written := store.UpdateOrderStatus(orderId, currentStatus, u, at);
      if written.Success? {
        trace := trace + [Stored(currentStatus, u)];
      }
    }

    /** The catch block for a stored order: returns the error the processor rethrows. */
    method RecordFailure(orderId: string, attemptsMade: nat, err: ErrorMessage, at: int) returns (thrown: ErrorMessage)
      requires Valid()
      modifies this, store
      ensures Valid()
      ensures orderId !in old(store.rows) ==>
        store.rows == old(store.rows) && trace == old(trace) && thrown == Thrown(UndefinedRowError)
      ensures orderId in old(store.rows) ==>
        var rec := RecoveryRow(old(store.rows)[orderId], orderId, attemptsMade, err, at, maxRetries);
        && store.rows == old(store.rows)[orderId := rec.row] && trace == old(trace) + rec.trace
        && Failure(thrown) == rec.result
      ensures lastProcessedTime == old(lastProcessedTime)
    {
      var attempts := attemptsMade + 1;
      var u := FailureUpdates(attempts, err);
      var written := RecordAttempt(orderId, u, at);
      if written.Failure? {
        thrown := written.error;
        return;
      }
      ghost var rows0 := old(store.rows);
      ghost var current := RowToOrder(rows0[orderId]).status;
      ghost var row1 := PatchRow(rows0[orderId], current, u, at);
      if attempts >= maxRetries {
        Write(orderId, Failed, u, at, rows0, row1);
        Publish(OrderUpdateMessage(orderId, Failed, at, Some(ErrorDetails(err, attempts))));
        AppendThree(old(trace), Stored(current, u), Stored(Failed, u), Announce(orderId, Failed, at, Some(ErrorDetails(err, attempts))));
      } else {
        var again := store.GetOrderById(orderId);
        StatusDomain(again.value.status, "");
        var status := if again.Some? then again.value.status else Pending;
        Publish(OrderUpdateMessage(orderId, status, at, Some(ErrorDetails(err, attempts))));
        AppendTwo(old(trace), Stored(current, u), Announce(orderId, status, at, Some(ErrorDetails(err, attempts))));
      }
      thrown := err;
    }

    /**
     * The processor for one delivery of the job for `orderId`, the
     * `attemptsMade + 1`-th, arriving at `arrivedAt` and let through by the
     * gate at `startedAt`.
     */
    method Process(orderId: string, attemptsMade: nat, arrivedAt: int, startedAt: int,
                   raydium: QuoteSource, meteora: QuoteSource, swap: SwapAdapter)
      returns (r: Result<JobResult, ErrorMessage>)
      requires Valid()
      requires startedAt >= arrivedAt
      requires (startedAt as real) >= (arrivedAt as real) + GateWait(arrivedAt, lastProcessedTime, rateLimitMs)
      modifies this, store
      ensures Valid()
      ensures lastProcessedTime == startedAt
      ensures ((startedAt - old(lastProcessedTime)) as real) >= rateLimitMs
      ensures var a := AttemptSpec(old(store.rows), orderId, attemptsMade, startedAt, raydium, meteora, swap, maxRetries);
        && store.rows == a.rows && trace == old(trace) + a.trace && r == a.result
    {
      Admit(arrivedAt, startedAt);
      ghost var rows0, tr0 := store.rows, trace;
      r := RunPipeline(orderId, startedAt, raydium, meteora, swap);
      ghost var rows1, tr1 := store.rows, trace;
      if r.Failure? {
        var thrown := RecordFailure(orderId, attemptsMade, r.error, startedAt);
        AttemptFails(rows0, tr0, rows1, tr1, r, store.rows, trace, thrown,
                     orderId, attemptsMade, startedAt, raydium, meteora, swap, maxRetries);
        r := Failure(thrown);
      } else {
        AttemptSucceeds(rows0, tr0, rows1, tr1, r, orderId, attemptsMade, startedAt, raydium, meteora, swap, maxRetries);
      }
    }
  }
}
