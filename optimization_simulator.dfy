/**
 * Module 4 of the pricing workflow: the "what-if" comparison of an original
 * and a new (COGS, price) scenario, with a total profit projected for the new
 * scenario only.
 */
module OptimizationSimulator {
  import opened Wrappers
  import opened Coercion

  /** The submitted module-4 form, one parse outcome per field. */
  datatype SimulatorForm = SimulatorForm(
    originalCogs: Option<real>,
    originalPrice: Option<real>,
    newCogs: Option<real>,
    newPrice: Option<real>,
    projectedVolume: Option<real>)

  /** The result record; there is deliberately no total profit for the original scenario. */
  datatype SimulatorResult = SimulatorResult(
    originalProfitPerUnit: real,
    newProfitPerUnit: real,
    newTotalProfit: real)

  /** `results` of the handler: `None` unless the form was submitted. */
  function Simulate(submitted: bool, form: SimulatorForm): (r: Option<SimulatorResult>)
    ensures r.Some? <==> submitted
  {
    if !submitted then None
    else
      var originalCogs := ToFloat(form.originalCogs);
      var originalPrice := ToFloat(form.originalPrice);
      var newCogs := ToFloat(form.newCogs);
      var newPrice := ToFloat(form.newPrice);
      var projectedVolume := ZeroAsOne(ToFloat(form.projectedVolume));
      var originalProfitPerUnit := originalPrice - originalCogs;
      var newProfitPerUnit := newPrice - newCogs;
      Some(SimulatorResult(originalProfitPerUnit, newProfitPerUnit, newProfitPerUnit * projectedVolume))
  }

  /** A projected volume of 0, or a missing one, behaves exactly like a volume of 1. */
  lemma ZeroVolumeActsAsOne(submitted: bool, form: SimulatorForm)
    ensures Simulate(submitted, form.(projectedVolume := Some(0.0)))
         == Simulate(submitted, form.(projectedVolume := Some(1.0)))
    ensures Simulate(submitted, form.(projectedVolume := None))
         == Simulate(submitted, form.(projectedVolume := Some(1.0)))
  {
  }

  /**
   * Each profit per unit is price minus COGS of its own scenario, and the
   * projected total is the new margin times the projected volume (a zero volume
   * counting as one); the original scenario's fields play no part in it.
   */
  lemma SimulatorFigures(form: SimulatorForm)
    ensures var r := Simulate(true, form).value;
      var volume := ToFloat(form.projectedVolume);
      && r.originalProfitPerUnit == ToFloat(form.originalPrice) - ToFloat(form.originalCogs)
      && r.newProfitPerUnit == ToFloat(form.newPrice) - ToFloat(form.newCogs)
      && r.newTotalProfit == (ToFloat(form.newPrice) - ToFloat(form.newCogs)) * (if volume == 0.0 then 1.0 else volume)
  {
  }

  /** The projected total depends on the new scenario and the volume only. */
  lemma TotalIgnoresOriginal(form: SimulatorForm, originalCogs: Option<real>, originalPrice: Option<real>)
    ensures Simulate(true, form.(originalCogs := originalCogs, originalPrice := originalPrice)).value.newTotalProfit
         == Simulate(true, form).value.newTotalProfit
  {
  }
}
