# Pricewise pricing core in Dafny

A model of the four-stage pricing calculation of the Pricewise tool (`app.py`),
with the web layer taken away:

1. **Cost calculator** — direct labour (hours × rate), COGS (the four direct
   costs), overhead per unit (monthly overhead ÷ volume, a volume of 0 counting
   as 1) and the fully loaded cost.
2. **Market analyzer** — three fixed competitor slots; a slot is kept when its
   name is present and non-empty and its price is positive. The kept prices are
   forwarded as `comp_price_1..k` with module 1's three figures.
3. **Strategy modeler** — reads back up to three positive prices, averages them
   and builds the strategy list: Cost-Plus at 1.40 × loaded cost, and, when the
   average is positive, Market Average, Penetration (0.90 × average) and Premium
   (1.25 × average). Each strategy has a profit per unit (price − loaded cost)
   and a breakeven volume: `'N/A'` when price − COGS ≤ 0, otherwise overhead ÷
   (price − COGS) rounded half to even, as Python 3's `round` does.
4. **Optimization simulator** — profit per unit of an original and a new
   scenario, and a total profit for the new scenario only (a projected volume of
   0 counting as 1); no result unless the form was submitted.

Numbers are `real` (Python `float` without rounding error). Each form or query
field arrives as `Option<real>`, the outcome of Python's `float(value)`: `None`
stands for a missing field and for one that does not parse, and `to_float`
turns it into 0.0. The query strings that carry data between stages are the
datatypes `CostQuery` (`loaded_cost`, `cogs`, `overhead`) and `StrategyQuery`
(those three plus `comp_price_k`, keyed by `k`).

Files, one module each: `wrappers.dfy` (Option), `coercion.dfy` (`to_float`,
the zero-as-one guard, parameter lookup), `cost_calculator.dfy`,
`market_analyzer.dfy`, `rounding.dfy` (Python's `round`),
`strategy_modeler.dfy`, `optimization_simulator.dfy` and `pipeline.dfy`
(cross-stage properties and the worked example).

The competitor loop of module 2 and the price loop and the successive appends of
module 3 are methods (`MarketAnalyzer.Analyze`, `StrategyModeler.Model`) with
loop invariants, each proved against a specification function (`Kept`,
`Renumber`, `PositivePrices`, `Strategies`) about which the lemmas below are
proved. The straight-line formulas are functions. `MarketAnalyzer.Admitted` is the slot guard of app.py:67 itself; its meaning is stated by the contracts of `Kept` and `KeptInSlotOrder`, so it has no row of its own.

## Model

| member | source | states |
|---|---|---|
| `Coercion.ToFloat` | app.py:14-18 | a parsed value is returned as is; a missing or unparsable one becomes 0.0 |
| `Coercion.ZeroAsOne` | app.py:35-36 | the guarded divisor is never 0, a 0 becomes 1 and any non-zero value is left alone |
| `Coercion.Arg` | app.py:90 | a lookup yields a value exactly when the key is present, and then the stored one |
| `CostCalculator.Calculate` | app.py:26-42 | direct labour is hours × rate; COGS is materials + labour + packaging + shipping; loaded cost is COGS plus overhead per unit; overhead per unit times the (guarded) volume gives back the monthly overhead; the overhead is passed on as entered |
| `CostCalculator.Handoff` | app.py:45-48 | the redirect to module 2 carries loaded cost, COGS and overhead so that they coerce back to the same values |
| `CostCalculator.ZeroVolumeActsAsOne` | app.py:34-41 | a volume of 0, or a missing one, gives the same figures as a volume of 1, whose overhead per unit is the whole overhead |
| `CostCalculator.CostOrdering` | app.py:39-42 | with non-negative inputs, loaded cost ≥ COGS ≥ direct labour ≥ 0 |
| `MarketAnalyzer.Kept` | app.py:63-68 | at most as many competitors as slots; none has an empty name or a price ≤ 0 |
| `MarketAnalyzer.KeptInSlotOrder` | app.py:63-68 | every kept competitor is the entry of an admitted slot, their slot positions strictly increase, and every admitted slot is kept |
| `MarketAnalyzer.PricesOf` | app.py:76 | the price list has one price per competitor, position by position |
| `MarketAnalyzer.Renumber` | app.py:76 | the keys are exactly 1..k and key i+1 holds the price of the i-th kept competitor |
| `MarketAnalyzer.Forward` | app.py:57-59 | the three cost figures re-emitted by module 2 coerce to the values it received |
| `MarketAnalyzer.Analyze` | app.py:57-76 | the loop's result is the filter `Kept` of the three slots; the query for module 3 holds the forwarded cost figures and the renumbered kept prices; at most 3 competitors are kept |
| `Rounding.RoundHalfEven` | app.py:112 | the result is within 1/2 of the argument, and even when exactly 1/2 away |
| `Rounding.RoundHalfEvenUnique` | app.py:112 | any integer with those two properties is the rounded value, so they define it |
| `Rounding.RoundHalfEvenNonNegative` | app.py:112 | a non-negative number rounds to a non-negative integer |
| `Rounding.RoundHalfEvenTies` | app.py:112 | 0.5 → 0, 1.5 → 2, 2.5 → 2, −0.5 → 0 |
| `StrategyModeler.PositivePrices` | app.py:88-92 | at most n prices are read and every one is positive |
| `StrategyModeler.PositivePricesInKeyOrder` | app.py:88-92 | for any query, the prices read line up with strictly increasing keys in 1..n, each price being that key's coerced value, and every key whose value is positive is read |
| `StrategyModeler.MarketAverage` | app.py:96 | for a non-empty list the average times the count is the sum; for an empty list it is 0 |
| `StrategyModeler.CostPlusPrice` | app.py:99-100 | the Cost-Plus price exceeds the loaded cost by 40% of the loaded cost |
| `StrategyModeler.PenetrationPrice` | app.py:102 | for a positive average, the price is 10% of the average below it; otherwise 0 |
| `StrategyModeler.PremiumPrice` | app.py:103 | for a positive average, the price is 25% of the average above it; otherwise 0 |
| `StrategyModeler.Strategies` | app.py:105-139 | the list has 4 entries when the average is positive and 1 otherwise, and starts with Cost-Plus at the Cost-Plus price |
| `StrategyModeler.GetBreakeven` | app.py:108-112 | `'N/A'` exactly when price − COGS ≤ 0; otherwise within 1/2 of overhead ÷ (price − COGS) |
| `StrategyModeler.BreakevenIsRounded` | app.py:108-112 | a finite breakeven is the half-to-even rounding of overhead ÷ (price − COGS) |
| `StrategyModeler.BreakevenNonNegative` | app.py:108-112 | with overhead ≥ 0, a finite breakeven is ≥ 0 |
| `StrategyModeler.Model` | app.py:84-144 | the view carries the coerced loaded cost and COGS; the loop collects `PositivePrices` of keys 1..3, and the appended list is `Strategies` at their market average |
| `StrategyModeler.MarketAverageWithin` | app.py:96 | every lower and upper bound of a non-empty price list bounds its average |
| `StrategyModeler.MarketAverageBetweenMinAndMax` | app.py:96 | the market average lies between the lowest and highest price |
| `StrategyModeler.MarketAveragePositiveIffAny` | app.py:121 | for positive prices, the guard "average > 0" holds exactly when the list is non-empty |
| `StrategyModeler.StrategiesShape` | app.py:99-139 | one strategy if the average is not positive, four otherwise, named Cost-Plus, Market Average, Penetration, Premium in that order, priced at 1.40 × loaded cost, the average, 0.90 × and 1.25 × the average |
| `StrategyModeler.StrategiesProfit` | app.py:115-139 | every strategy's profit per unit is its price minus the loaded cost and its breakeven is taken at its own price |
| `StrategyModeler.StrategyCountFollowsPrices` | app.py:88-139 | for any query: one strategy when no positive competitor price is read, four otherwise, with the Market Average price between the lowest and highest read price |
| `StrategyModeler.ReadBackKeptPrices` | app.py:88-92 | the prices module 3 reads back from module 2's renumbered parameters are the kept competitors' prices, in order |
| `OptimizationSimulator.Simulate` | app.py:150-174 | a result exists exactly when the form was submitted |
| `OptimizationSimulator.ZeroVolumeActsAsOne` | app.py:158-160 | a projected volume of 0, or a missing one, gives the same result as 1 |
| `OptimizationSimulator.SimulatorFigures` | app.py:163-168 | each profit per unit is that scenario's price minus COGS; the new total is the new margin times the volume, 0 counting as 1 |
| `OptimizationSimulator.TotalIgnoresOriginal` | app.py:166-168 | the projected total does not depend on the original scenario's fields |
| `Pipeline.AnalyzerQuery` | app.py:45-76 | the query module 2 builds from module 1's redirect carries module 1's loaded cost, COGS and overhead, and exactly the keys 1..k for the k kept competitors |
| `Pipeline.CarriedForward` | app.py:72-92 | module 3, on module 2's query, sees module 1's loaded cost, COGS and overhead unchanged and exactly the kept prices, and proposes 1 strategy when none was kept and 4 otherwise |
| `Pipeline.WorkedExampleCost` | app.py:39-42 | materials 10, hours 2, rate 15, packaging 2, shipping 3, overhead 5000, volume 1000 give labour 30, COGS 45, overhead per unit 5, loaded cost 50 |
| `Pipeline.WorkedExampleKept` | app.py:63-68 | three named competitors at 55, 60, 65 are all kept, in order |
| `Pipeline.WorkedExamplePrices` | app.py:88-96 | they are read back as 55, 60, 65 and average 60 |
| `Pipeline.WorkedExampleBreakevens` | app.py:108-112 | with COGS 45 and overhead 5000, prices 70, 60, 54, 75 break even at 200, 333, 556, 167 units |
| `Pipeline.WorkedExampleStrategies` | app.py:96-139 | the worked example's strategies are Cost-Plus 70, Market Average 60, Penetration 54, Premium 75, with profits 20, 10, 4, 25 and Cost-Plus breakeven 200 |

## Left out

- The Flask layer: a submitted form becomes a datatype parameter and a query string a datatype whose price part is a map read with `Coercion.Arg`; `redirect`, `render_template` and `app.run` are not modelled. The GET branch of module 1 only renders the form; the GET branch of module 2 coerces the three figures (as `Forward` does) and renders the page with the loaded cost, which is not modelled because nothing is computed from it.
- The string-to-float parsing inside `float(value)`, including `nan` and `inf`: a field is an abstract parse outcome `Option<real>`.
- IEEE-754 floating point: all arithmetic is on `real`, so rounding error of `1 + 0.40` and the other multipliers, overflow and `round` of an infinite quotient are not modelled.
- The float-to-text serialisation of `url_for` and its re-parsing on the next stage: the query strings carry numbers exactly.
- The label formatting `f'{desired_margin:.0%}'`: the Cost-Plus name is the constant `"Cost-Plus (40%)"`.
- Module 4's reads of `loaded_cost` and `cogs` for the page (app.py:178-179): display data that feeds no computation.
- Competitor names are filtered on but, as in the code, not forwarded to module 3; only prices travel.
- Breakeven follows the code's `round` (nearest integer, ties to even), not a ceiling ("smallest number of units that recovers the overhead"); the two differ exactly when the quotient's fractional part lies strictly between 0 and 1/2, or is exactly 1/2 with an even whole part (so 5000/30 and 5000/9 round to their ceilings, 5000/15 does not).
