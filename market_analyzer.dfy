/**
 * Module 2 of the pricing workflow: collect up to three competitor price points
 * and forward them, with module 1's figures, to module 3.
 */
module MarketAnalyzer {
  import opened Wrappers
  import opened Coercion
  import opened CostCalculator

  /** The form offers this many competitor slots, `comp_name_i` / `comp_price_i` for i = 1..3. */
  const SlotCount: nat := 3

  /** One competitor slot of the submitted form: the name as typed (if any) and the parsed price. */
  datatype Slot = Slot(name: Option<string>, price: Option<real>)

  datatype Competitor = Competitor(name: string, price: real)

  /**
   * The query string the redirect to module 3 carries: module 1's three figures
   * and `comp_price_k` for the k-th kept competitor, keyed here by k.
   */
  datatype StrategyQuery = StrategyQuery(cost: CostQuery, compPrices: map<nat, real>)

  /** `if name and price > 0`: a name that is present and non-empty, and a positive price. */
  predicate Admitted(s: Slot) {
    s.name.Some? && s.name.value != "" && ToFloat(s.price) > 0.0
  }

  function Entry(s: Slot): Competitor
    requires Admitted(s)
  {
    Competitor(s.name.value, ToFloat(s.price))
  }

  /** The competitors kept from the slots, in slot order. */
  function Kept(slots: seq<Slot>): (cs: seq<Competitor>)
    ensures |cs| <= |slots|
    ensures forall c <- cs :: c.name != "" && c.price > 0.0
  {
    if slots == [] then []
    else
      var last := slots[|slots| - 1];
      Kept(slots[..|slots| - 1]) + if Admitted(last) then [Entry(last)] else []
  }

  /** The slot positions (0-based) of the kept competitors. */
  function KeptPositions(slots: seq<Slot>): seq<nat>
  {
    if slots == [] then []
    else
      KeptPositions(slots[..|slots| - 1])
        + if Admitted(slots[|slots| - 1]) then [|slots| - 1] else []
  }

  /** The prices of a list of competitors, in the same order. */
  function PricesOf(cs: seq<Competitor>): (ps: seq<real>)
    ensures |ps| == |cs|
    ensures forall j :: 0 <= j < |cs| ==> ps[j] == cs[j].price
  {
    seq(|cs|, j requires 0 <= j < |cs| => cs[j].price)
  }

  /** The renumbering `comp_price_{i+1}` for the i-th kept competitor (0-based i). */
  function Renumber(cs: seq<Competitor>): (m: map<nat, real>)
    ensures forall k :: k in m <==> 1 <= k <= |cs|
    ensures forall j :: 0 <= j < |cs| ==> m[j + 1] == cs[j].price
  {
    if cs == [] then map[]
    else Renumber(cs[..|cs| - 1])[|cs| := cs[|cs| - 1].price]
  }

  /** Module 1's figures as module 2 re-emits them after coercing them. */
  function Forward(args: CostQuery): (q: CostQuery)
    ensures ToFloat(q.loadedCost) == ToFloat(args.loadedCost)
    ensures ToFloat(q.cogs) == ToFloat(args.cogs)
    ensures ToFloat(q.overhead) == ToFloat(args.overhead)
  {
    CostQuery(Some(ToFloat(args.loadedCost)), Some(ToFloat(args.cogs)), Some(ToFloat(args.overhead)))
  }

  /** The submitted module-2 form: filter the slots and build the query for module 3. */
  method Analyze(args: CostQuery, slots: seq<Slot>) returns (next: StrategyQuery)
    requires |slots| == SlotCount
    ensures next.cost == Forward(args)
    ensures next.compPrices == Renumber(Kept(slots))
    ensures |Kept(slots)| <= SlotCount
  {
    var loadedCost := ToFloat(args.loadedCost);
    var cogs := ToFloat(args.cogs);
    var overhead := ToFloat(args.overhead);
    var competitors: seq<Competitor> := [];
    for i := 1 to SlotCount + 1
      invariant competitors == Kept(slots[..i - 1])
    {
      var name := slots[i - 1].name;
      var price := ToFloat(slots[i - 1].price);
      if name.Some? && name.value != "" && price > 0.0 {
        competitors := competitors + [Competitor(name.value, price)];
      }
      assert slots[..i] == slots[..i - 1] + [slots[i - 1]];
    }
    assert slots[..SlotCount] == slots;
    next := StrategyQuery(CostQuery(Some(loadedCost), Some(cogs), Some(overhead)), Renumber(competitors));
  }

  /**
   * The filter keeps exactly the admitted slots, in slot order: the kept list
   * lines up with a strictly increasing list of slot positions, each holding an
   * admitted slot, and every admitted slot's position is in that list.
   */
  lemma {:induction false} KeptInSlotOrder(slots: seq<Slot>)
    ensures var cs, pos := Kept(slots), KeptPositions(slots);
      && |pos| == |cs|
      && (forall j :: 0 <= j < |pos| ==> pos[j] < |slots| && Admitted(slots[pos[j]]) && cs[j] == Entry(slots[pos[j]]))
      && (forall j, k :: 0 <= j < k < |pos| ==> pos[j] < pos[k])
      && (forall i :: 0 <= i < |slots| && Admitted(slots[i]) ==> i in pos)
  {
    if slots != [] {
      var init := slots[..|slots| - 1];
      KeptInSlotOrder(init);
      assert forall i :: 0 <= i < |init| ==> init[i] == slots[i];
    }
  }
}
