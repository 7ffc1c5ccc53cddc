/**
 * The workflow end to end: module 1's figures reach module 3 unchanged through
 * module 2, and module 3 prices against exactly the competitors module 2 kept.
 */
module Pipeline {
  import opened Wrappers
  import opened Coercion
  import opened CostCalculator
  import opened MarketAnalyzer
  import opened StrategyModeler
  import Rounding

  /** The query module 2 builds from module 1's redirect and its own form. */
  function AnalyzerQuery(form: CostForm, slots: seq<Slot>): (q: StrategyQuery)
    ensures ToFloat(q.cost.loadedCost) == Calculate(form).loadedCost
    ensures ToFloat(q.cost.cogs) == Calculate(form).cogs
    ensures ToFloat(q.cost.overhead) == Calculate(form).overhead
    ensures forall k :: k in q.compPrices <==> 1 <= k <= |Kept(slots)|
  {
    StrategyQuery(Forward(Handoff(Calculate(form))), Renumber(Kept(slots)))
  }

  /**
   * Module 3, on the query module 2 built, sees module 1's loaded cost, COGS and
   * overhead unchanged and the kept competitors' prices; it proposes one strategy
   * when no competitor was kept and four otherwise.
   */
  lemma CarriedForward(form: CostForm, slots: seq<Slot>)
    requires |slots| == SlotCount
    ensures var b, q := Calculate(form), AnalyzerQuery(form, slots);
      var ps := PositivePrices(q.compPrices, SlotCount);
      var s := Strategies(ToFloat(q.cost.loadedCost), ToFloat(q.cost.cogs), ToFloat(q.cost.overhead), MarketAverage(ps));
      && ToFloat(q.cost.loadedCost) == b.loadedCost
      && ToFloat(q.cost.cogs) == b.cogs
      && ToFloat(q.cost.overhead) == b.overhead
      && ps == PricesOf(Kept(slots))
      && |s| == (if Kept(slots) == [] then 1 else 4)
  {
    ReadBackKeptPrices(slots);
    StrategyCountFollowsPrices(AnalyzerQuery(form, slots));
  }

  const ExampleForm: CostForm :=
    CostForm(Some(10.0), Some(2.0), Some(15.0), Some(2.0), Some(3.0), Some(5000.0), Some(1000.0))

  const ExampleSlots: seq<Slot> :=
    [Slot(Some("A"), Some(55.0)), Slot(Some("B"), Some(60.0)), Slot(Some("C"), Some(65.0))]

  /** Module 1 on the worked example: labour 30, COGS 45, overhead per unit 5, loaded cost 50. */
  lemma WorkedExampleCost()
    ensures Calculate(ExampleForm) == CostBreakdown(30.0, 45.0, 5.0, 50.0, 5000.0)
  {
  }

  /** All three competitors of the worked example pass the filter, in slot order. */
  lemma WorkedExampleKept()
    ensures Kept(ExampleSlots) == [Competitor("A", 55.0), Competitor("B", 60.0), Competitor("C", 65.0)]
  {
    var slots := ExampleSlots;
    assert slots[..2][..1][..0] == [];
    assert Kept(slots[..2][..1]) == [Competitor("A", 55.0)];
    assert Kept(slots[..2]) == [Competitor("A", 55.0), Competitor("B", 60.0)];
  }

  /** The worked example's prices come back from module 2's query as 55, 60, 65, averaging 60. */
  lemma WorkedExamplePrices()
    ensures PositivePrices(Renumber(Kept(ExampleSlots)), SlotCount) == [55.0, 60.0, 65.0]
    ensures MarketAverage([55.0, 60.0, 65.0]) == 60.0
  {
    WorkedExampleKept();
    ReadBackKeptPrices(ExampleSlots);
    var ps := [55.0, 60.0, 65.0];
    assert PricesOf(Kept(ExampleSlots)) == ps;
    assert ps[..2] == [55.0, 60.0];
    assert [55.0, 60.0][..1] == [55.0];
    assert [55.0][..0] == [];
    assert Sum([55.0]) == 55.0;
    assert Sum([55.0, 60.0]) == 115.0;
  }

  /** Breakeven volumes of the worked example, rounded half to even. */
  lemma WorkedExampleBreakevens()
    ensures GetBreakeven(70.0, 45.0, 5000.0) == Units(200)
    ensures GetBreakeven(60.0, 45.0, 5000.0) == Units(333)
    ensures GetBreakeven(54.0, 45.0, 5000.0) == Units(556)
    ensures GetBreakeven(75.0, 45.0, 5000.0) == Units(167)
  {
    Rounding.RoundHalfEvenUnique(5000.0 / 25.0, 200);
    Rounding.RoundHalfEvenUnique(5000.0 / 15.0, 333);
    Rounding.RoundHalfEvenUnique(5000.0 / 9.0, 556);
    Rounding.RoundHalfEvenUnique(5000.0 / 30.0, 167);
  }

  /**
   * Modules 2 and 3 on the worked example with competitors at 55, 60 and 65:
   * average 60, strategies at 70, 60, 54 and 75, Cost-Plus breakeven 200 units.
   */
  lemma WorkedExampleStrategies()
    ensures var q := AnalyzerQuery(ExampleForm, ExampleSlots);
      var ps := PositivePrices(q.compPrices, SlotCount);
      && ps == [55.0, 60.0, 65.0]
      && MarketAverage(ps) == 60.0
      && Strategies(ToFloat(q.cost.loadedCost), ToFloat(q.cost.cogs), ToFloat(q.cost.overhead), MarketAverage(ps))
         == [ Strategy(CostPlusName, 70.0, 20.0, Units(200)),
              Strategy(MarketAverageName, 60.0, 10.0, Units(333)),
              Strategy(PenetrationName, 54.0, 4.0, Units(556)),
              Strategy(PremiumName, 75.0, 25.0, Units(167)) ]
  {
    WorkedExampleCost();
    WorkedExamplePrices();
    WorkedExampleBreakevens();
  }
}
