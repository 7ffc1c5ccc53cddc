/**
 * Module 1 of the pricing workflow: the fully loaded cost of one unit,
 * from five direct-cost fields and two indirect-cost fields of a submitted form.
 */
module CostCalculator {
  import opened Wrappers
  import opened Coercion

  /** The submitted form of module 1, one parse outcome per field. */
  datatype CostForm = CostForm(
    materials: Option<real>,
    laborHours: Option<real>,
    laborRate: Option<real>,
    packaging: Option<real>,
    shipping: Option<real>,
    overhead: Option<real>,
    volume: Option<real>)

  /** The figures module 1 computes; `overhead` is the monthly overhead as entered. */
  datatype CostBreakdown = CostBreakdown(
    directLabor: real,
    cogs: real,
    overheadPerUnit: real,
    loadedCost: real,
    overhead: real)

  /**
   * The query string the redirect to module 2 carries: `loaded_cost`, `cogs`
   * and `overhead`, each as a parse outcome on the receiving side.
   */
  datatype CostQuery = CostQuery(loadedCost: Option<real>, cogs: Option<real>, overhead: Option<real>)

  /** The unit cost calculation of a submitted module-1 form. */
  function Calculate(form: CostForm): (b: CostBreakdown)
    ensures b.directLabor == ToFloat(form.laborHours) * ToFloat(form.laborRate)
    ensures b.cogs == ToFloat(form.materials) + b.directLabor + ToFloat(form.packaging) + ToFloat(form.shipping)
    ensures b.loadedCost == b.cogs + b.overheadPerUnit
    ensures b.overheadPerUnit * ZeroAsOne(ToFloat(form.volume)) == ToFloat(form.overhead)
    ensures b.overhead == ToFloat(form.overhead)
  {
    var materials := ToFloat(form.materials);
    var laborHours := ToFloat(form.laborHours);
    var laborRate := ToFloat(form.laborRate);
    var packaging := ToFloat(form.packaging);
    var shipping := ToFloat(form.shipping);
    var overhead := ToFloat(form.overhead);
    var volume := ZeroAsOne(ToFloat(form.volume));
    var directLabor := laborHours * laborRate;
    var cogs := materials + directLabor + packaging + shipping;
    var overheadPerUnit := overhead / volume;
    CostBreakdown(directLabor, cogs, overheadPerUnit, cogs + overheadPerUnit, overhead)
  }

  /** The three figures module 1 hands to module 2, as they arrive there. */
  function Handoff(b: CostBreakdown): (q: CostQuery)
    ensures ToFloat(q.loadedCost) == b.loadedCost
    ensures ToFloat(q.cogs) == b.cogs
    ensures ToFloat(q.overhead) == b.overhead
  {
    CostQuery(Some(b.loadedCost), Some(b.cogs), Some(b.overhead))
  }

  /** A production volume of 0, or one that is missing, gives the same figures as a volume of 1. */
  lemma ZeroVolumeActsAsOne(form: CostForm)
    ensures Calculate(form.(volume := Some(0.0))) == Calculate(form.(volume := Some(1.0)))
    ensures Calculate(form.(volume := None)) == Calculate(form.(volume := Some(1.0)))
    ensures Calculate(form.(volume := Some(1.0))).overheadPerUnit == ToFloat(form.overhead)
  {
  }

  /** With non-negative inputs, loaded cost >= COGS >= direct labour >= 0. */
  lemma CostOrdering(form: CostForm)
    requires ToFloat(form.materials) >= 0.0 && ToFloat(form.laborHours) >= 0.0
    requires ToFloat(form.laborRate) >= 0.0 && ToFloat(form.packaging) >= 0.0
    requires ToFloat(form.shipping) >= 0.0 && ToFloat(form.overhead) >= 0.0
    requires ToFloat(form.volume) >= 0.0
    ensures var b := Calculate(form);
      b.loadedCost >= b.cogs >= b.directLabor >= 0.0
  {
  }
}
