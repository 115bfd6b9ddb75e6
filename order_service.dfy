/**
 * Order execution of src/services/orderService.ts: the base-price table, the
 * limit-price predicate and executeOrder's sequence of steps (quote, select,
 * check the limit, build, swap) with the point at which each failure aborts.
 */
module OrderService {
  import opened Wrappers
  import opened OrderModel
  import opened DexRouter

  // ---------------------------------------------------------------------
  // Base price and limit predicate
  // ---------------------------------------------------------------------

  /** The mock price table: base price of one unit of the outer key in the inner key. */
  const Prices: map<string, map<string, real>> := map[
    "SOL" := map["USDC" := 25.0, "USDT" := 25.0],
    "USDC" := map["SOL" := 0.04],
    "USDT" := map["SOL" := 0.04]
  ]

  /**
   * `prices[tokenIn]?.[tokenOut] || 1.0`: the table entry when there is one
   * and it is not zero, otherwise 1.0.
   */
  function GetBasePrice(tokenIn: string, tokenOut: string): (p: real)
    ensures p == 25.0 <==> tokenIn == "SOL" && (tokenOut == "USDC" || tokenOut == "USDT")
    ensures p == 0.04 <==> (tokenIn == "USDC" || tokenIn == "USDT") && tokenOut == "SOL"
    ensures p == 25.0 || p == 0.04 || p == 1.0
  {
    StableNamesDiffer();
    if tokenIn in Prices && tokenOut in Prices[tokenIn] && Prices[tokenIn][tokenOut] != 0.0
    then Prices[tokenIn][tokenOut]
    else 1.0
  }

  lemma StableNamesDiffer()
    ensures "SOL" != "USDC" && "SOL" != "USDT" && "USDC" != "USDT"
  {
    assert "SOL"[0] != "USDC"[0] && "SOL"[0] != "USDT"[0] && "USDC"[3] != "USDT"[3];
  }

  /** The pairs the tests and the table name. */
  lemma BasePriceVectors()
    ensures GetBasePrice("SOL", "USDC") == 25.0 && GetBasePrice("SOL", "USDT") == 25.0
    ensures GetBasePrice("USDC", "SOL") == 0.04 && GetBasePrice("USDT", "SOL") == 0.04
    ensures GetBasePrice("SOL", "SOL") == 1.0 && GetBasePrice("USDC", "USDT") == 1.0
    ensures GetBasePrice("BONK", "USDC") == 1.0
  {
  }

  /** isLimitPriceMet: the best price may not exceed the limit; the tokens play no part. */
  function IsLimitPriceMet(limitPrice: real, bestPrice: real, tokenIn: string, tokenOut: string): bool {
    bestPrice <= limitPrice
  }

  lemma LimitPriceMetIgnoresTokens(limitPrice: real, bestPrice: real, in1: string, out1: string, in2: string, out2: string)
    ensures IsLimitPriceMet(limitPrice, bestPrice, in1, out1) <==> bestPrice <= limitPrice
    ensures IsLimitPriceMet(limitPrice, bestPrice, in1, out1) == IsLimitPriceMet(limitPrice, bestPrice, in2, out2)
  {
  }

  /**
   * Whether executeOrder's limit check aborts an order whose best routing
   * expects `expectedPrice`: only a limit order with a truthy limit price is
   * checked.
   */
  predicate LimitBlocks(order: Order, expectedPrice: real) {
    && order.orderType == Limit
    && LimitPriceSet(order.limitPrice)
    && !IsLimitPriceMet(order.limitPrice.value, expectedPrice, order.tokenIn, order.tokenOut)
  }

  /**
   * The check aborts exactly a limit order whose non-zero limit price is below
   * the expected price; market and sniper orders and a null or zero limit
   * price are never stopped.
   */
  lemma LimitBlocksExactly(order: Order, expectedPrice: real)
    ensures LimitBlocks(order, expectedPrice) <==>
      order.orderType == Limit && order.limitPrice.Some? && order.limitPrice.value != 0.0
      && expectedPrice > order.limitPrice.value
    ensures order.orderType != Limit ==> !LimitBlocks(order, expectedPrice)
    ensures order.limitPrice == None || order.limitPrice == Some(0.0) ==> !LimitBlocks(order, expectedPrice)
  {
  }

  // ---------------------------------------------------------------------
  // executeOrder
  // ---------------------------------------------------------------------

  /** The order fields executeSwap receives. */
  datatype SwapRequest = SwapRequest(tokenIn: string, tokenOut: string, amount: real, limitPrice: real)

  datatype SwapResult = SwapResult(txHash: string, executedPrice: real)

  /** A swap adapter, called with the venue name and the request; a rejection carries the error message. */
  type SwapAdapter = (string, SwapRequest) -> Settled<SwapResult>

  datatype Execution = Execution(routing: RoutingDecision, result: SwapResult)

  /** The request executeOrder sends for a routing: the order's tokens and amount, and `limitPrice || expectedPrice`. */
  function RequestFor(order: Order, routing: RoutingDecision): (q: SwapRequest)
    ensures q.tokenIn == order.tokenIn && q.tokenOut == order.tokenOut && q.amount == order.amount
    ensures LimitPriceSet(order.limitPrice) ==> q.limitPrice == order.limitPrice.value
    ensures !LimitPriceSet(order.limitPrice) ==> q.limitPrice == routing.expectedPrice
  {
    SwapRequest(order.tokenIn, order.tokenOut, order.amount, LimitPriceOr(order.limitPrice, routing.expectedPrice))
  }

  /**
   * A limit order that passes the limit check never asks the swap for less
   * than the expected price: either its limit is at least that price, or it
   * has no truthy limit and the expected price itself is sent.
   */
  lemma PassedLimitRequestCoversExpected(order: Order, routing: RoutingDecision)
    requires order.orderType == Limit && !LimitBlocks(order, routing.expectedPrice)
    ensures RequestFor(order, routing).limitPrice >= routing.expectedPrice
  {
  }

  /**
   * The expected-price fallback never reaches an order with a positive limit
   * price, which is every order intake admits: the swap gets that limit.
   */
  lemma PositiveLimitIsSent(order: Order, routing: RoutingDecision, lp: real)
    requires order.limitPrice == Some(lp) && lp > 0.0
    ensures RequestFor(order, routing).limitPrice == lp
  {
  }

  /** What a settled swap makes of executeOrder's result. */
  function SwapOutcome(routing: RoutingDecision, outcome: Settled<SwapResult>): Result<Execution, ErrorMessage> {
    match outcome
    case Fulfilled(res) => Success(Execution(routing, res))
    case Rejected(msg) => Failure(Thrown(msg))
  }

  /** The best routing for the venues' answers at the pair's base price. */
  function BestFor(order: Order, raydium: QuoteSource, meteora: QuoteSource): Option<RoutingDecision> {
    var basePrice := GetBasePrice(order.tokenIn, order.tokenOut);
    BestRouting(raydium(basePrice, order.amount), meteora(basePrice, order.amount))
  }

  /**
   * executeOrder. `swapRequest` is the request handed to the swap adapter,
   * `None` when the order was aborted before the swap. The outcome is stated
   * against BestRouting, the reference definition of the routing for the two
   * venues' answers at the pair's base price.
   */
  method ExecuteOrder(order: Order, raydium: QuoteSource, meteora: QuoteSource, swap: SwapAdapter)
    returns (r: Result<Execution, ErrorMessage>, swapRequest: Option<SwapRequest>)
    ensures
      var best := BestFor(order, raydium, meteora);
      && (best.None? ==> r == Failure(NoQuotesAvailable) && swapRequest == None)
      && (best.Some? && LimitBlocks(order, best.value.expectedPrice) ==>
            r == Failure(LimitPriceNotMet(best.value.expectedPrice, "<=", order.limitPrice.value))
            && swapRequest == None)
      && (best.Some? && !LimitBlocks(order, best.value.expectedPrice) ==>
            swapRequest == Some(RequestFor(order, best.value))
            && r == SwapOutcome(best.value, swap(best.value.dexName, swapRequest.value)))
    ensures r != Failure(DexSelectionFailed)
    ensures r.Success? ==> swapRequest.Some?
  {
    swapRequest := None;
    var basePrice := GetBasePrice(order.tokenIn, order.tokenOut);
    var quotes := GetQuotes(basePrice, order.amount, raydium, meteora);
    ghost var ro, mo := raydium(basePrice, order.amount), meteora(basePrice, order.amount);
    SelectBestOfRanked(ro, mo);
    assert SelectBestDex(quotes) == BestFor(order, raydium, meteora);
    if |quotes| == 0 {
      r := Failure(NoQuotesAvailable);
      return;
    }
    var routing := SelectBestDex(quotes);
    if routing.None? {
      r := Failure(DexSelectionFailed);
      return;
    }
    var decision := routing.value;
    if order.orderType == Limit && LimitPriceSet(order.limitPrice) {
      if !IsLimitPriceMet(order.limitPrice.value, decision.expectedPrice, order.tokenIn, order.tokenOut) {
        r := Failure(LimitPriceNotMet(decision.expectedPrice, "<=", order.limitPrice.value));
        return;
      }
    }
    swapRequest := Some(RequestFor(order, decision));
    var outcome := swap(decision.dexName, swapRequest.value);
    r := SwapOutcome(decision, outcome);
  }

  /**
   * The unit tests' figures: with a limit of 25.5 an expected price of 25.922
   * is refused and 24.925 goes ahead.
   */
  lemma LimitCheckVectors(order: Order)
    requires order.orderType == Limit && order.limitPrice == Some(25.5)
    ensures LimitBlocks(order, 25.922)
    ensures !LimitBlocks(order, 24.925)
  {
  }
}
