/**
 * The DEX router of src/services/dexRouter.ts: the two venues' settled quote
 * outcomes are filtered, tagged with the venue name and net price, and sorted
 * best net price first; selectBestDex turns the head of that list into a
 * routing decision.
 */
module DexRouter {
  import opened Wrappers
  import opened OrderModel

  /** One entry of the result of `Promise.allSettled`. */
  datatype Settled<T> = Fulfilled(value: T) | Rejected(reason: string)

  /** A quote source, called with (basePrice, amount). */
  type QuoteSource = (real, real) -> Settled<Quote>

  /** DexQuote: a quote tagged with its venue and its price after fees. */
  datatype DexQuote = DexQuote(price: real, fee: real, liquidity: real, dexName: string, netPrice: real)

  datatype RoutingDecision = RoutingDecision(dexName: string, expectedPrice: real, fee: real, quote: Quote)

  const RaydiumName: string := "Raydium"
  const MeteoraName: string := "Meteora"

  lemma VenueNamesDiffer()
    ensures RaydiumName != MeteoraName
  {
    assert RaydiumName[0] != MeteoraName[0];
  }

  /** price * (1 - fee) */
  function NetPrice(q: Quote): real {
    q.price * (1.0 - q.fee)
  }

  /** `{ ...q, dexName, netPrice }` */
  function Tagged(q: Quote, dexName: string): DexQuote {
    DexQuote(q.price, q.fee, q.liquidity, dexName, NetPrice(q))
  }

  /** The raw quote fields of a tagged quote. */
  function QuoteOf(d: DexQuote): Quote {
    Quote(d.price, d.fee, d.liquidity)
  }

  /** What one venue's outcome contributes: its tagged quote if fulfilled, nothing if rejected. */
  function Entry(outcome: Settled<Quote>, dexName: string): seq<DexQuote> {
    if outcome.Fulfilled? then [Tagged(outcome.value, dexName)] else []
  }

  /** The list before sorting: Raydium's entry is pushed before Meteora's. */
  function Survivors(raydium: Settled<Quote>, meteora: Settled<Quote>): seq<DexQuote> {
    Entry(raydium, RaydiumName) + Entry(meteora, MeteoraName)
  }

  predicate SortedByNetPriceDesc(s: seq<DexQuote>) {
    forall i, j :: 0 <= i < j < |s| ==> s[i].netPrice >= s[j].netPrice
  }

  // ---------------------------------------------------------------------
  // The sort
  // ---------------------------------------------------------------------

  /** Places `x` behind every entry whose net price is at least `x`'s. */
  function InsertByNetPrice(x: DexQuote, s: seq<DexQuote>): seq<DexQuote>
    decreases |s|
  {
    if s == [] || s[|s| - 1].netPrice >= x.netPrice then s + [x]
    else InsertByNetPrice(x, s[..|s| - 1]) + [s[|s| - 1]]
  }

  /**
   * `quotes.sort((a, b) => b.netPrice - a.netPrice)`. Array.prototype.sort is
   * stable, so the comparator gives descending net price with entries of
   * equal net price left in their original order.
   */
  function SortByNetPriceDesc(s: seq<DexQuote>): seq<DexQuote>
    decreases |s|
  {
    if s == [] then [] else InsertByNetPrice(s[|s| - 1], SortByNetPriceDesc(s[..|s| - 1]))
  }

  /** The list getQuotes returns for the two outcomes. */
  function RankedQuotes(raydium: Settled<Quote>, meteora: Settled<Quote>): seq<DexQuote> {
    SortByNetPriceDesc(Survivors(raydium, meteora))
  }

  predicate AllAtLeast(s: seq<DexQuote>, bound: real) {
    forall i :: 0 <= i < |s| ==> s[i].netPrice >= bound
  }

  lemma {:induction false} InsertPermutes(x: DexQuote, s: seq<DexQuote>)
    ensures multiset(InsertByNetPrice(x, s)) == multiset(s) + multiset{x}
    decreases |s|
  {
    if s != [] && s[|s| - 1].netPrice < x.netPrice {
      var init, last := s[..|s| - 1], s[|s| - 1];
      InsertPermutes(x, init);
      assert s == init + [last];
    }
  }

  lemma {:induction false} InsertKeepsBound(x: DexQuote, s: seq<DexQuote>, bound: real)
    requires AllAtLeast(s, bound) && x.netPrice >= bound
    ensures AllAtLeast(InsertByNetPrice(x, s), bound)
    decreases |s|
  {
    if s != [] && s[|s| - 1].netPrice < x.netPrice {
      InsertKeepsBound(x, s[..|s| - 1], bound);
    }
  }

  lemma {:induction false} InsertSorted(x: DexQuote, s: seq<DexQuote>)
    requires SortedByNetPriceDesc(s)
    ensures SortedByNetPriceDesc(InsertByNetPrice(x, s))
    decreases |s|
  {
    if s != [] && s[|s| - 1].netPrice < x.netPrice {
      var init, last := s[..|s| - 1], s[|s| - 1];
      InsertSorted(x, init);
      InsertKeepsBound(x, init, last.netPrice);
    }
  }

  /** The sorted list is ordered best net price first. */
  lemma {:induction false} SortIsSorted(s: seq<DexQuote>)
    ensures SortedByNetPriceDesc(SortByNetPriceDesc(s))
    decreases |s|
  {
    if s != [] {
      SortIsSorted(s[..|s| - 1]);
      InsertSorted(s[|s| - 1], SortByNetPriceDesc(s[..|s| - 1]));
    }
  }

  /** The sorted list holds exactly the entries it was given. */
  lemma {:induction false} SortPermutes(s: seq<DexQuote>)
    ensures multiset(SortByNetPriceDesc(s)) == multiset(s)
    decreases |s|
  {
    if s != [] {
      var init := s[..|s| - 1];
      SortPermutes(init);
      InsertPermutes(s[|s| - 1], SortByNetPriceDesc(init));
      assert s == init + [s[|s| - 1]];
    }
  }

  /** The entries of `s` whose net price is `p`, in order. */
  function WithNetPrice(s: seq<DexQuote>, p: real): seq<DexQuote>
    decreases |s|
  {
    if s == [] then []
    else WithNetPrice(s[..|s| - 1], p) + (if s[|s| - 1].netPrice == p then [s[|s| - 1]] else [])
  }

  lemma {:induction false} InsertStable(x: DexQuote, s: seq<DexQuote>, p: real)
    ensures WithNetPrice(InsertByNetPrice(x, s), p) == WithNetPrice(s, p) + (if x.netPrice == p then [x] else [])
    decreases |s|
  {
    if s == [] || s[|s| - 1].netPrice >= x.netPrice {
      assert (s + [x])[..|s|] == s;
    } else {
      var init, last := s[..|s| - 1], s[|s| - 1];
      var t := InsertByNetPrice(x, init);
      InsertStable(x, init, p);
      assert (t + [last])[..|t|] == t;
    }
  }

  /**
   * Stability: for every net price, the entries carrying it keep their
   * relative order through the sort.
   */
  lemma {:induction false} SortIsStable(s: seq<DexQuote>, p: real)
    ensures WithNetPrice(SortByNetPriceDesc(s), p) == WithNetPrice(s, p)
    decreases |s|
  {
    if s != [] {
      var init := s[..|s| - 1];
      SortIsStable(init, p);
      InsertStable(s[|s| - 1], SortByNetPriceDesc(init), p);
    }
  }

  lemma SortSingleton(x: DexQuote)
    ensures SortByNetPriceDesc([x]) == [x]
  {
    assert [x][..0] == [];
  }

  lemma SortPair(x: DexQuote, y: DexQuote)
    ensures SortByNetPriceDesc([x, y]) == if y.netPrice > x.netPrice then [y, x] else [x, y]
  {
    assert [x, y][..1] == [x] && [x, y][1] == y;
    SortSingleton(x);
    assert SortByNetPriceDesc([x, y]) == InsertByNetPrice(y, [x]);
    assert [x][..0] == [];
    assert InsertByNetPrice(y, []) == [y];
  }

  /** The four outcomes of getQuotes, written out. */
  lemma RankedQuotesCases(raydium: Settled<Quote>, meteora: Settled<Quote>)
    ensures raydium.Fulfilled? && meteora.Fulfilled? ==>
      RankedQuotes(raydium, meteora) ==
        if NetPrice(meteora.value) > NetPrice(raydium.value)
        then [Tagged(meteora.value, MeteoraName), Tagged(raydium.value, RaydiumName)]
        else [Tagged(raydium.value, RaydiumName), Tagged(meteora.value, MeteoraName)]
    ensures raydium.Fulfilled? && meteora.Rejected? ==> RankedQuotes(raydium, meteora) == [Tagged(raydium.value, RaydiumName)]
    ensures raydium.Rejected? && meteora.Fulfilled? ==> RankedQuotes(raydium, meteora) == [Tagged(meteora.value, MeteoraName)]
    ensures raydium.Rejected? && meteora.Rejected? ==> RankedQuotes(raydium, meteora) == []
  {
    if raydium.Fulfilled? && meteora.Fulfilled? {
      assert Survivors(raydium, meteora) == [Tagged(raydium.value, RaydiumName), Tagged(meteora.value, MeteoraName)];
      SortPair(Tagged(raydium.value, RaydiumName), Tagged(meteora.value, MeteoraName));
    } else if raydium.Fulfilled? {
      SortSingleton(Tagged(raydium.value, RaydiumName));
    } else if meteora.Fulfilled? {
      SortSingleton(Tagged(meteora.value, MeteoraName));
    }
  }

  /** getQuotes' list is sorted best net price first. */
  lemma RankedIsSorted(raydium: Settled<Quote>, meteora: Settled<Quote>)
    ensures SortedByNetPriceDesc(RankedQuotes(raydium, meteora))
  {
    SortIsSorted(Survivors(raydium, meteora));
  }

  /**
   * getQuotes' list holds exactly the fulfilled venues' entries, so one entry
   * per fulfilled venue.
   */
  lemma RankedPermutes(raydium: Settled<Quote>, meteora: Settled<Quote>)
    ensures multiset(RankedQuotes(raydium, meteora)) == multiset(Survivors(raydium, meteora))
    ensures |RankedQuotes(raydium, meteora)| == |Entry(raydium, RaydiumName)| + |Entry(meteora, MeteoraName)|
  {
    var s := Survivors(raydium, meteora);
    SortPermutes(s);
    assert |multiset(RankedQuotes(raydium, meteora))| == |multiset(s)|;
  }

  /** Every entry of getQuotes' list carries its price after the fee as net price. */
  lemma RankedNetPrices(raydium: Settled<Quote>, meteora: Settled<Quote>)
    ensures forall q :: q in RankedQuotes(raydium, meteora) ==> q.netPrice == q.price * (1.0 - q.fee)
  {
    RankedQuotesCases(raydium, meteora);
  }

  // ---------------------------------------------------------------------
  // getQuotes and selectBestDex
  // ---------------------------------------------------------------------

  /**
   * getQuotes: asks both venues for a quote with the same base price and
   * amount, keeps the fulfilled ones (Raydium's first), tags them and sorts
   * them best net price first.
   */
  method GetQuotes(basePrice: real, amount: real, raydium: QuoteSource, meteora: QuoteSource)
    returns (quotes: seq<DexQuote>)
    ensures quotes == RankedQuotes(raydium(basePrice, amount), meteora(basePrice, amount))
    ensures SortedByNetPriceDesc(quotes)
    ensures multiset(quotes) == multiset(Survivors(raydium(basePrice, amount), meteora(basePrice, amount)))
    ensures |quotes| == |Entry(raydium(basePrice, amount), RaydiumName)| + |Entry(meteora(basePrice, amount), MeteoraName)|
    ensures forall q :: q in quotes ==> q.netPrice == q.price * (1.0 - q.fee)
  {
    var raydiumQuote := raydium(basePrice, amount);
    var meteoraQuote := meteora(basePrice, amount);
    quotes := [];
    if raydiumQuote.Fulfilled? {
      quotes := quotes + [Tagged(raydiumQuote.value, RaydiumName)];
    }
    if meteoraQuote.Fulfilled? {
      quotes := quotes + [Tagged(meteoraQuote.value, MeteoraName)];
    }
    assert quotes == Survivors(raydiumQuote, meteoraQuote);
    quotes := SortByNetPriceDesc(quotes);
    RankedIsSorted(raydiumQuote, meteoraQuote);
    RankedPermutes(raydiumQuote, meteoraQuote);
    RankedNetPrices(raydiumQuote, meteoraQuote);
  }

  /** The routing decision built from one tagged quote. */
  function Decision(best: DexQuote): RoutingDecision {
    RoutingDecision(best.dexName, best.netPrice, best.fee, QuoteOf(best))
  }

  /** selectBestDex: nothing for an empty list, otherwise the decision for its first entry. */
  function SelectBestDex(quotes: seq<DexQuote>): (r: Option<RoutingDecision>)
    ensures r.None? <==> quotes == []
    ensures r.Some? ==>
      && r.value.dexName == quotes[0].dexName
      && r.value.expectedPrice == quotes[0].netPrice
      && r.value.fee == quotes[0].fee
      && r.value.quote == Quote(quotes[0].price, quotes[0].fee, quotes[0].liquidity)
    ensures r.Some? && SortedByNetPriceDesc(quotes) ==> forall i :: 0 <= i < |quotes| ==> r.value.expectedPrice >= quotes[i].netPrice
  {
    if |quotes| == 0 then None else Some(Decision(quotes[0]))
  }

  /**
   * An independent statement of the best routing for two outcomes: the
   * fulfilled venue with the higher net price, Raydium when the net prices tie.
   */
  function BestRouting(raydium: Settled<Quote>, meteora: Settled<Quote>): Option<RoutingDecision> {
    match (raydium, meteora)
    case (Fulfilled(r), Fulfilled(m)) =>
      if NetPrice(m) > NetPrice(r) then Some(Decision(Tagged(m, MeteoraName)))
      else Some(Decision(Tagged(r, RaydiumName)))
    case (Fulfilled(r), Rejected(_)) => Some(Decision(Tagged(r, RaydiumName)))
    case (Rejected(_), Fulfilled(m)) => Some(Decision(Tagged(m, MeteoraName)))
    case (Rejected(_), Rejected(_)) => None
  }

  /** Selecting from getQuotes' list gives that best routing. */
  lemma SelectBestOfRanked(raydium: Settled<Quote>, meteora: Settled<Quote>)
    ensures SelectBestDex(RankedQuotes(raydium, meteora)) == BestRouting(raydium, meteora)
  {
    RankedQuotesCases(raydium, meteora);
  }

  /**
   * The best routing exists iff some venue answered; it names a venue that
   * answered, carries that venue's quote and net price, and no answering
   * venue has a better net price.
   */
  lemma BestRoutingIsBest(raydium: Settled<Quote>, meteora: Settled<Quote>)
    ensures BestRouting(raydium, meteora).None? <==> raydium.Rejected? && meteora.Rejected?
    ensures BestRouting(raydium, meteora).Some? ==>
      var d := BestRouting(raydium, meteora).value;
      && (raydium.Fulfilled? ==> d.expectedPrice >= NetPrice(raydium.value))
      && (meteora.Fulfilled? ==> d.expectedPrice >= NetPrice(meteora.value))
      && ((d.dexName == RaydiumName && raydium.Fulfilled? && d == Decision(Tagged(raydium.value, RaydiumName)))
          || (d.dexName == MeteoraName && meteora.Fulfilled? && d == Decision(Tagged(meteora.value, MeteoraName))))
    ensures raydium.Fulfilled? && meteora.Fulfilled? && NetPrice(raydium.value) == NetPrice(meteora.value) ==>
      BestRouting(raydium, meteora).value.dexName == RaydiumName
  {
  }

  /** Array.prototype.find by venue name. */
  function FindDex(quotes: seq<DexQuote>, dexName: string): (r: Option<DexQuote>)
    ensures r.Some? ==> r.value.dexName == dexName
    ensures r.Some? ==> exists i :: 0 <= i < |quotes| && quotes[i] == r.value
                                 && forall j :: 0 <= j < i ==> quotes[j].dexName != dexName
    ensures r.None? ==> forall q :: q in quotes ==> q.dexName != dexName
  {
    if quotes == [] then None
    else if quotes[0].dexName == dexName then Some(quotes[0])
    else FindDex(quotes[1..], dexName)
  }

  /** Looking a venue up in getQuotes' list finds its quote iff that venue answered. */
  lemma FindInRanked(raydium: Settled<Quote>, meteora: Settled<Quote>)
    ensures FindDex(RankedQuotes(raydium, meteora), RaydiumName) ==
      (if raydium.Fulfilled? then Some(Tagged(raydium.value, RaydiumName)) else None)
    ensures FindDex(RankedQuotes(raydium, meteora), MeteoraName) ==
      (if meteora.Fulfilled? then Some(Tagged(meteora.value, MeteoraName)) else None)
  {
    VenueNamesDiffer();
    RankedQuotesCases(raydium, meteora);
    var s := RankedQuotes(raydium, meteora);
    if |s| == 2 {
      FindInPair(s[0], s[1], RaydiumName);
      FindInPair(s[0], s[1], MeteoraName);
    } else if |s| == 1 {
      assert s[1..] == [];
    }
  }

  /** `find` on a two-entry list looks at the first entry, then the second. */
  lemma FindInPair(a: DexQuote, b: DexQuote, dexName: string)
    ensures FindDex([a, b], dexName) ==
      if a.dexName == dexName then Some(a) else if b.dexName == dexName then Some(b) else None
  {
    assert [a, b][1..] == [b] && [b][1..] == [];
  }

  /** The router tests: a failing Raydium leaves Meteora alone; an empty list yields no decision. */
  lemma RouterTestVectors()
    ensures RankedQuotes(Rejected("DEX error"), Fulfilled(Quote(25.5, 0.002, 80000.0)))
         == [DexQuote(25.5, 0.002, 80000.0, MeteoraName, 25.5 * (1.0 - 0.002))]
    ensures SelectBestDex([]) == None
    ensures SelectBestDex([DexQuote(25.5, 0.002, 80000.0, MeteoraName, 25.449),
                           DexQuote(25.0, 0.003, 100000.0, RaydiumName, 24.925)])
         == Some(RoutingDecision(MeteoraName, 25.449, 0.002, Quote(25.5, 0.002, 80000.0)))
  {
    RankedQuotesCases(Rejected("DEX error"), Fulfilled(Quote(25.5, 0.002, 80000.0)));
  }

  /**
   * With Raydium at (25.0, 0.003) and Meteora at (25.5, 0.002) the descending
   * sort puts Meteora (net 25.449) ahead of Raydium (net 24.925).
   */
  lemma HigherNetPriceFirst()
    ensures RankedQuotes(Fulfilled(Quote(25.0, 0.003, 100000.0)), Fulfilled(Quote(25.5, 0.002, 80000.0)))[0].dexName == MeteoraName
  {
    RankedQuotesCases(Fulfilled(Quote(25.0, 0.003, 100000.0)), Fulfilled(Quote(25.5, 0.002, 80000.0)));
  }
}
