/**
 * Module 3 of the pricing workflow: read back the competitor prices, take
 * their average and derive the candidate pricing strategies with their
 * profit per unit and breakeven volume.
 */
module StrategyModeler {
  import opened Wrappers
  import opened Coercion
  import opened Rounding
  import opened CostCalculator
  import opened MarketAnalyzer

  /** The Cost-Plus margin, and the multipliers of the two market-relative strategies. */
  const DesiredMargin: real := 0.40
  const PenetrationFactor: real := 0.90
  const PremiumFactor: real := 1.25

  const CostPlusName: string := "Cost-Plus (40%)"
  const MarketAverageName: string := "Market Average"
  const PenetrationName: string := "Penetration (10% Below Avg)"
  const PremiumName: string := "Premium (25% Above Avg)"

  /** The breakeven volume of a strategy, or `'N/A'` when a unit earns nothing over COGS. */
  datatype Breakeven = NotAchievable | Units(units: int)

  datatype Strategy = Strategy(name: string, price: real, profitPerUnit: real, breakeven: Breakeven)

  /** What module 3 renders: the strategies and the two cost figures. */
  datatype StrategyView = StrategyView(strategies: seq<Strategy>, loadedCost: real, cogs: real)

  /** The positive prices among `comp_price_1` .. `comp_price_n`, in key order. */
  function PositivePrices(args: map<nat, real>, n: nat): (ps: seq<real>)
    ensures |ps| <= n
    ensures forall p <- ps :: p > 0.0
  {
    if n == 0 then []
    else
      var price := ToFloat(Arg(args, n));
      PositivePrices(args, n - 1) + if price > 0.0 then [price] else []
  }

  /** The keys among 1 .. n whose `comp_price_k` coerces to a positive price, in key order. */
  function PositiveKeys(args: map<nat, real>, n: nat): seq<nat>
  {
    if n == 0 then []
    else PositiveKeys(args, n - 1) + if ToFloat(Arg(args, n)) > 0.0 then [n] else []
  }

  /**
   * The read-back keeps exactly the positive `comp_price_k` for k in 1 .. n, in
   * key order: the prices line up with a strictly increasing list of keys, each
   * holding that price, and every key with a positive price is in that list.
   */
  lemma {:induction false} PositivePricesInKeyOrder(args: map<nat, real>, n: nat)
    ensures var ps, ks := PositivePrices(args, n), PositiveKeys(args, n);
      && |ks| == |ps|
      && (forall j :: 0 <= j < |ks| ==> 1 <= ks[j] <= n && ps[j] == ToFloat(Arg(args, ks[j])))
      && (forall j, k :: 0 <= j < k < |ks| ==> ks[j] < ks[k])
      && (forall k :: 1 <= k <= n && ToFloat(Arg(args, k)) > 0.0 ==> k in ks)
  {
    if n > 0 {
      PositivePricesInKeyOrder(args, n - 1);
    }
  }

  function Sum(ps: seq<real>): real {
    if ps == [] then 0.0 else Sum(ps[..|ps| - 1]) + ps[|ps| - 1]
  }

  /** `sum(comp_prices) / len(comp_prices) if comp_prices else 0`. */
  function MarketAverage(ps: seq<real>): (avg: real)
    ensures ps != [] ==> avg * |ps| as real == Sum(ps)
    ensures ps == [] ==> avg == 0.0
  {
    if ps != [] then Sum(ps) / |ps| as real else 0.0
  }

  /** The nested `get_breakeven`: overhead over the margin above COGS, rounded; `'N/A'` without a margin. */
  function GetBreakeven(price: real, cogs: real, overhead: real): (b: Breakeven)
    ensures b.NotAchievable? <==> price - cogs <= 0.0
    ensures b.Units? ==> b.units as real - 0.5 <= overhead / (price - cogs) <= b.units as real + 0.5
  {
    var profitPerUnit := price - cogs;
    if profitPerUnit <= 0.0 then NotAchievable
    else Units(RoundHalfEven(overhead / profitPerUnit))
  }

  function CostPlusPrice(loadedCost: real): (price: real)
    ensures price - loadedCost == DesiredMargin * loadedCost
  {
    loadedCost * (1.0 + DesiredMargin)
  }

  function PenetrationPrice(avg: real): (price: real)
    ensures avg > 0.0 ==> avg - price == (1.0 - PenetrationFactor) * avg && price < avg
    ensures avg <= 0.0 ==> price == 0.0
  {
    if avg > 0.0 then avg * PenetrationFactor else 0.0
  }

  function PremiumPrice(avg: real): (price: real)
    ensures avg > 0.0 ==> price - avg == (PremiumFactor - 1.0) * avg && price > avg
    ensures avg <= 0.0 ==> price == 0.0
  {
    if avg > 0.0 then avg * PremiumFactor else 0.0
  }

  /** A strategy record at a given price. */
  function StrategyAt(name: string, price: real, loadedCost: real, cogs: real, overhead: real): Strategy {
    Strategy(name, price, price - loadedCost, GetBreakeven(price, cogs, overhead))
  }

  /** The strategy list: Cost-Plus, then the three market-relative strategies when the average is positive. */
  function Strategies(loadedCost: real, cogs: real, overhead: real, avg: real): (s: seq<Strategy>)
    ensures |s| == (if avg > 0.0 then 4 else 1)
    ensures s[0].name == CostPlusName && s[0].price == CostPlusPrice(loadedCost)
  {
    [StrategyAt(CostPlusName, CostPlusPrice(loadedCost), loadedCost, cogs, overhead)]
      + if avg > 0.0 then
          [ StrategyAt(MarketAverageName, avg, loadedCost, cogs, overhead),
            StrategyAt(PenetrationName, PenetrationPrice(avg), loadedCost, cogs, overhead),
            StrategyAt(PremiumName, PremiumPrice(avg), loadedCost, cogs, overhead) ]
        else []
  }

  /** The module-3 request: read the query, collect the positive prices and append the strategies. */
  method Model(q: StrategyQuery) returns (view: StrategyView)
    ensures view.loadedCost == ToFloat(q.cost.loadedCost)
    ensures view.cogs == ToFloat(q.cost.cogs)
    ensures view.strategies
      == Strategies(view.loadedCost, view.cogs, ToFloat(q.cost.overhead),
                    MarketAverage(PositivePrices(q.compPrices, SlotCount)))
  {
    var loadedCost := ToFloat(q.cost.loadedCost);
    var cogs := ToFloat(q.cost.cogs);
    var overhead := ToFloat(q.cost.overhead);

    var compPrices: seq<real> := [];
    for i := 1 to SlotCount + 1
      invariant compPrices == PositivePrices(q.compPrices, i - 1)
    {
      var price := ToFloat(Arg(q.compPrices, i));
      if price > 0.0 {
        compPrices := compPrices + [price];
      }
    }

    var avg := if compPrices != [] then Sum(compPrices) / |compPrices| as real else 0.0;
    var costPlusPrice := loadedCost * (1.0 + DesiredMargin);
    var penetrationPrice := if avg > 0.0 then avg * PenetrationFactor else 0.0;
    var premiumPrice := if avg > 0.0 then avg * PremiumFactor else 0.0;

    var strategies: seq<Strategy> := [];
    strategies := strategies + [Strategy(CostPlusName, costPlusPrice, costPlusPrice - loadedCost,
                                         GetBreakeven(costPlusPrice, cogs, overhead))];
    if avg > 0.0 {
      strategies := strategies + [Strategy(MarketAverageName, avg, avg - loadedCost,
                                           GetBreakeven(avg, cogs, overhead))];
      strategies := strategies + [Strategy(PenetrationName, penetrationPrice, penetrationPrice - loadedCost,
                                           GetBreakeven(penetrationPrice, cogs, overhead))];
      strategies := strategies + [Strategy(PremiumName, premiumPrice, premiumPrice - loadedCost,
                                           GetBreakeven(premiumPrice, cogs, overhead))];
    }
    view := StrategyView(strategies, loadedCost, cogs);
  }

  // ---------------------------------------------------------------------------
  // The market average

  lemma {:induction false} SumWithin(ps: seq<real>, lo: real, hi: real)
    requires forall p <- ps :: lo <= p <= hi
    ensures lo * |ps| as real <= Sum(ps) <= hi * |ps| as real
  {
    if ps != [] {
      var init := ps[..|ps| - 1];
      assert forall p <- init :: p in ps;
      SumWithin(init, lo, hi);
      assert ps[|ps| - 1] in ps;
    }
  }

  /** Every lower and upper bound of the prices bounds their average. */
  lemma MarketAverageWithin(ps: seq<real>, lo: real, hi: real)
    requires ps != []
    requires forall p <- ps :: lo <= p <= hi
    ensures lo <= MarketAverage(ps) <= hi
  {
    var n := |ps| as real;
    SumWithin(ps, lo, hi);
    QuotientWithin(Sum(ps), n, lo, hi);
  }

  lemma QuotientWithin(s: real, n: real, lo: real, hi: real)
    requires n > 0.0 && lo * n <= s <= hi * n
    ensures lo <= s / n <= hi
  {
    assert s / n * n == s;
  }

  function SeqMin(ps: seq<real>): (m: real)
    requires ps != []
    ensures m in ps && forall p <- ps :: m <= p
  {
    if |ps| == 1 then ps[0]
    else
      var rest := SeqMin(ps[..|ps| - 1]);
      assert forall p <- ps :: p in ps[..|ps| - 1] || p == ps[|ps| - 1];
      if ps[|ps| - 1] < rest then ps[|ps| - 1] else rest
  }

  function SeqMax(ps: seq<real>): (m: real)
    requires ps != []
    ensures m in ps && forall p <- ps :: p <= m
  {
    if |ps| == 1 then ps[0]
    else
      var rest := SeqMax(ps[..|ps| - 1]);
      assert forall p <- ps :: p in ps[..|ps| - 1] || p == ps[|ps| - 1];
      if ps[|ps| - 1] > rest then ps[|ps| - 1] else rest
  }

  /** The market average lies between the lowest and the highest competitor price. */
  lemma MarketAverageBetweenMinAndMax(ps: seq<real>)
    requires ps != []
    ensures SeqMin(ps) <= MarketAverage(ps) <= SeqMax(ps)
  {
    MarketAverageWithin(ps, SeqMin(ps), SeqMax(ps));
  }

  /** For positive prices, the guard `market_avg_price > 0` holds exactly when there is a price. */
  lemma MarketAveragePositiveIffAny(ps: seq<real>)
    requires forall p <- ps :: p > 0.0
    ensures MarketAverage(ps) > 0.0 <==> ps != []
  {
    if ps != [] {
      MarketAverageBetweenMinAndMax(ps);
    }
  }

  // ---------------------------------------------------------------------------
  // The strategy list

  /** One strategy when the average is not positive, four in the fixed order otherwise, at the fixed multipliers. */
  lemma StrategiesShape(loadedCost: real, cogs: real, overhead: real, avg: real)
    ensures var s := Strategies(loadedCost, cogs, overhead, avg);
      && |s| == (if avg > 0.0 then 4 else 1)
      && s[0].name == CostPlusName && s[0].price == 1.40 * loadedCost
      && (avg > 0.0 ==>
            && s[1].name == MarketAverageName && s[1].price == avg
            && s[2].name == PenetrationName && s[2].price == 0.90 * avg
            && s[3].name == PremiumName && s[3].price == 1.25 * avg)
  {
  }

  /** Every strategy's profit per unit is its price minus the loaded cost, and its breakeven is taken at its price. */
  lemma StrategiesProfit(loadedCost: real, cogs: real, overhead: real, avg: real)
    ensures forall s <- Strategies(loadedCost, cogs, overhead, avg) ::
      s.profitPerUnit == s.price - loadedCost && s.breakeven == GetBreakeven(s.price, cogs, overhead)
  {
  }

  /** With a non-negative overhead, every finite breakeven is a non-negative number of units. */
  lemma BreakevenNonNegative(price: real, cogs: real, overhead: real)
    requires overhead >= 0.0
    ensures GetBreakeven(price, cogs, overhead).Units? ==> GetBreakeven(price, cogs, overhead).units >= 0
  {
    if price - cogs > 0.0 {
      NonNegativeQuotient(overhead, price - cogs);
      RoundHalfEvenNonNegative(overhead / (price - cogs));
    }
  }

  lemma NonNegativeQuotient(x: real, y: real)
    requires x >= 0.0 && y > 0.0
    ensures x / y >= 0.0
  {
  }

  /** The breakeven is the half-to-even rounding of overhead over the margin above COGS. */
  lemma BreakevenIsRounded(price: real, cogs: real, overhead: real)
    requires price - cogs > 0.0
    ensures GetBreakeven(price, cogs, overhead) == Units(RoundHalfEven(overhead / (price - cogs)))
  {
  }

  /**
   * Over a whole query: a single Cost-Plus strategy when no positive competitor
   * price is present, four otherwise, and the Market Average strategy's price
   * then lies between the lowest and the highest of those prices.
   */
  lemma StrategyCountFollowsPrices(q: StrategyQuery)
    ensures var ps := PositivePrices(q.compPrices, SlotCount);
      var s := Strategies(ToFloat(q.cost.loadedCost), ToFloat(q.cost.cogs), ToFloat(q.cost.overhead), MarketAverage(ps));
      && |s| == (if ps == [] then 1 else 4)
      && (ps != [] ==> SeqMin(ps) <= s[1].price <= SeqMax(ps))
  {
    var ps := PositivePrices(q.compPrices, SlotCount);
    MarketAveragePositiveIffAny(ps);
    if ps != [] {
      MarketAverageBetweenMinAndMax(ps);
    }
  }

  // ---------------------------------------------------------------------------
  // From module 2 to module 3

  /**
   * The prices module 3 reads back from module 2's renumbered `comp_price_k`
   * parameters are exactly the kept competitors' prices, in order.
   */
  lemma ReadBackKeptPrices(slots: seq<Slot>)
    requires |slots| == SlotCount
    ensures PositivePrices(Renumber(Kept(slots)), SlotCount) == PricesOf(Kept(slots))
  {
    var cs := Kept(slots);
    ReadBackPrefix(cs, SlotCount);
    assert cs[..|cs|] == cs;
  }

  lemma {:induction false} ReadBackPrefix(cs: seq<Competitor>, n: nat)
    requires forall c <- cs :: c.price > 0.0
    ensures PositivePrices(Renumber(cs), n) == PricesOf(cs[..if n < |cs| then n else |cs|])
  {
    if n > 0 {
      ReadBackPrefix(cs, n - 1);
      if n <= |cs| {
        assert cs[n - 1] in cs;
        assert cs[..n] == cs[..n - 1] + [cs[n - 1]];
      }
    }
  }
}
