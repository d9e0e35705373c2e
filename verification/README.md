# SmartSolarEstimator core, in Dafny

This project models the estimation logic of Smart Solar Estimator. It has three parts:

- The **residential estimator** takes a monthly electricity bill, a tariff and a battery option. It returns the monthly units consumed, a recommended system size, the total cost, the monthly generation, the monthly savings and the payback period.
- The **agricultural estimator** takes a pump's horsepower, its daily run hours and a battery option. It returns the pump's power and daily energy, a recommended system size, the cost and the monthly generation.
- The **materials deriver** takes a system size and returns a six-line bill of quantities priced from the fixed catalogue.

Both estimators share one sizing rule. They round the raw requirement to the nearest half kW and never go below 0.5 kW. Rounding follows Python 3's `round`, so a tie goes to an even number of half steps.

Modules and files:

- `Rounding` (`rounding.dfy`): half-to-even rounding, ceiling and truncation toward zero, on exact reals.
- `Assumptions` (`assumptions.dfy`): the tariff, generation and cost constants, and the materials catalogue.
- `Sizing` (`sizing.dfy`): the half-kW sizing rule and its characterisation.
- `Residential`, `Agriculture` (`residential.dfy`, `agriculture.dfy`): the two estimators.
- `Materials` (`materials.dfy`): the bill of materials.
- `Estimator` (`estimator.dfy`): the way the page chains an estimator into the materials deriver.
- `RealFacts` (`arith.dfy`): sign facts about real products, used as proof helpers.

Every Python float is modelled as an exact `real`. A recommended size is a real `kw` for which `IsHalfKwStep(kw)` holds: `kw >= 0.5` and `2 * kw` is a whole number.

In the program, `bill / tariff` raises `ZeroDivisionError` when the tariff is 0. So `Residential.FromBill` returns `Err(ZeroDivision)` in that case instead of assuming a non-zero tariff.

The same holds for the payback divisor `savings * 12 + 1e-6`. For a non-zero tariff the estimate fails exactly when this divisor is zero, and the model returns `Err` there too. For a non-negative bill exactly one negative tariff (−1/720000000) zeroes it; a negative bill can move the size off 0.5 kW, and other negative tariffs then zero it too. For a non-negative tariff the guard never matters. The estimate fails exactly when the tariff is 0, which is before the payback is reached. Otherwise savings are positive, because the size is at least 0.5 kW.

A bill of 0 gives the 0.5 kW minimum, with savings of `0.5 * 120 * tariff`.

The program's materials deriver does not validate its input. The model takes any real size for that reason. Its lemmas about recommended sizes require `kw >= 0.5`.

## Model

| member | source | states |
|---|---|---|
| Rounding.RoundHalfEven | smartsolar.py:34 | `round(x)` is an integer within 1/2 of `x`; at an exact half it is the even neighbour |
| Rounding.RoundHalfEvenUnique | smartsolar.py:34 | any integer with the nearest/ties-to-even property is the value `round` returns |
| Rounding.RoundHalfEvenMonotone | smartsolar.py:34 | rounding preserves order: `x <= y` implies `round(x) <= round(y)` |
| Rounding.RoundHalfEvenTies | smartsolar.py:34 | ties go to even: 2.5 gives 2, 3.5 gives 4, 1.5 gives 2, 0.5 gives 0 |
| Rounding.Ceil | smartsolar.py:67 | `np.ceil(x)` is the least integer `n` with `x <= n` (so `n < x + 1`) |
| Rounding.Trunc | smartsolar.py:76 | `int(x)` drops the fraction toward zero, for positive and negative `x` |
| Sizing.RecommendedKw | smartsolar.py:34 | `max(0.5, round(raw*2)/2)` is a half-kW step ≥ 0.5; it is 0.5 exactly when raw < 0.75; above the floor it is within 0.25 kW of raw, with an even step count on a tie |
| Sizing.RecommendedKwIsNearestStep | smartsolar.py:34 | above the floor, the recommendation is the unique nearest half-kW step (ties to an even step count) |
| Sizing.RecommendedKwMonotone | smartsolar.py:34 | a larger raw requirement never gives a smaller recommended size |
| Sizing.TieRoundsToEvenStep | smartsolar.py:52 | a raw 1.25 kW (2.5 half steps) gives 1.0 kW, not 1.5 kW; a raw 1.75 kW gives 2.0 kW |
| Residential.PaybackDenominator | smartsolar.py:39 | the guarded payback divisor is strictly positive whenever savings are non-negative |
| Residential.FromBill | smartsolar.py:32-47 | a zero tariff raises the division error; a positive tariff always succeeds; for any non-zero tariff the estimate fails exactly when the payback divisor for the rounded size is zero; on success units × tariff = bill, the size is the half-kW rounding of units/120, cost = size × (60000 or 40000), generation = 120 × size, savings = generation × tariff, payback × divisor = cost |
| Residential.FromUnits | smartsolar.py:34-39 | for a given monthly consumption the estimate fails exactly when the payback divisor for the rounded size is zero; otherwise it keeps the units and sizes, prices and pays back by the same rules as FromBill |
| Residential.PaybackDefined | smartsolar.py:39 | for a non-negative tariff the estimate succeeds iff the tariff is positive, and then the divisor is positive and the payback is a positive number of years |
| Residential.SizedPaybackPositive | smartsolar.py:37-39 | at a positive tariff, savings of a size of at least 0.5 kW are positive, so the divisor and the payback are positive |
| Residential.NegativeTariffCanZeroTheDivisor | smartsolar.py:39 | the 1e-6 guard does not cover negative tariffs: bill 0 at tariff −1/720000000 divides by zero |
| Residential.MinimumSizeIff | smartsolar.py:33-34 | for a positive tariff, the size is held at 0.5 kW exactly when the bill is below 90 × tariff |
| Residential.BillMonotone | smartsolar.py:33-34 | for a fixed positive tariff, a larger bill never gives a smaller system |
| Residential.BatteryCostsMore | smartsolar.py:35-38 | the battery option succeeds or fails alike and leaves size and savings unchanged; it costs exactly 20000 more per kW, so always more |
| Residential.BillOf2000 | smartsolar.py:32-47 | a bill of 2000 at tariff 8 gives 250 units, 2.0 kW, 80000, 240 kWh, 1920 a month and payback 80000 / (23040 + 1e-6) |
| Residential.TieGoesToEvenStep | smartsolar.py:34 | a bill of 1200 at tariff 8 (150 units, 2.5 half steps) gives 1.0 kW |
| Agriculture.FromPump | smartsolar.py:49-63 | pump kW = 0.746 × hp; daily energy = 0.746 × hp × hours; the size is the half-kW rounding of energy/5 and a half-kW step; cost = size × (55000 or 35000); generation = 120 × size; hours are echoed back |
| Agriculture.MinimumSizeIff | smartsolar.py:50-52 | the size is held at 0.5 kW exactly when the daily pump energy is below 3.75 kWh |
| Agriculture.HoursMonotone | smartsolar.py:51-52 | for a non-negative horsepower, more run hours never give a smaller system |
| Agriculture.HorsepowerMonotone | smartsolar.py:50-52 | for non-negative run hours, a bigger pump never gives a smaller system |
| Agriculture.BatteryCostsMore | smartsolar.py:53-54 | the battery option leaves size and generation unchanged and costs exactly 20000 more per kW |
| Agriculture.TwoHorsepowerPump | smartsolar.py:49-63 | a 2 HP pump run 5 h gives 1.492 kW, 7.46 kWh, 1.5 kW, 180 kWh a month and a cost of 52500 |
| Materials.FirstOfCategory | smartsolar.py:16-24 | reference lookup: the position of the first catalogue entry of a category, with no earlier entry of that category; none when there is no such entry |
| Materials.FirstOfCategoryIs | smartsolar.py:16-24 | a position holding the category with no earlier entry of that category is the one the first-of-category lookup returns |
| Materials.FirstEntries | smartsolar.py:66-72 | the fixed positions the deriver reads (0, 2, 3, 4, 5, 6) are the first catalogue entries of panel, inverter, battery, structure, protection and cables |
| Materials.PanelCount | smartsolar.py:66-67 | the panel count is the least `n` with `n × 450 W ≥ kW × 1000 W` |
| Materials.BatteryCount | smartsolar.py:76 | the battery count is at least 1; it is 1 exactly when the size is below 6 kW; from 3 kW up it is the number of whole 3 kW in the size |
| Materials.ForSystem | smartsolar.py:65-81 | exactly six lines, priced from the catalogue entries of categories panel, inverter, battery, structure, protection, cables in that order; every total = qty × unit price; inverter and protection qty 1; battery qty from the size alone; structure and cable qty = size |
| Materials.LinesUseFirstOfCategory | smartsolar.py:66-72 | each line names and prices the first catalogue entry of its category, so the second panel model is never used |
| Materials.PanelCountOfHalfSteps | smartsolar.py:67 | for `h` half-kW steps the panel count equals the integer ceiling division `(10h + 8) div 9` |
| Materials.RecommendedSizeHasParts | smartsolar.py:67-79 | any size of at least 0.5 kW needs at least two panels, and every line quantity is positive |
| Materials.TwoKwSystem | smartsolar.py:65-81 | 2.0 kW gives 5 panels (60000), 1 inverter (55000), 1 battery (70000), 2 kW of structure (8000), 1 protection (8000), 2 kW of cables (4000) |
| Estimator.ResidentialMaterials | smartsolar.py:146-156 | the residential parts list exists exactly when the estimate succeeds; it has six lines with at least two panels and one battery, and its panel, battery, structure and cable quantities are those of the estimate's recommended size |
| Estimator.AgricultureMaterials | smartsolar.py:166-175 | the agricultural parts list always has six lines with at least two panels and one battery, and its panel, battery, structure and cable quantities are those of the estimate's recommended size |
| Estimator.MaterialsIgnoreBatteryFlag | smartsolar.py:73-80 | the parts list, battery line included, is the same with or without the battery option for both estimators |

## Left out

- Residential.FromBill: `paybackYears` is the exact quotient. The program rounds it to one decimal with `round(x, 1)`, which is not modelled. Only its definedness and sign are proved.
- Float representation error is not modelled. All arithmetic is on exact reals, so binary64 rounding near an exact half step can differ from the model. For a bill of 357 at tariff 0.7 the exact raw value is 8.5 half steps, a tie that gives 4.0 kW; in binary64 it evaluates to 8.500000000000002, which gives 4.5 kW.
- Overflow and non-finite values are not modelled. Finite inputs whose product overflows to infinity make `round(inf)` or `int(inf)` raise `OverflowError` at smartsolar.py:34, 52 and 67; NaN makes them raise `ValueError`. Every real here is finite, so the model never raises these.
- Materials.ForSystem: quantities are reals throughout. The program stores whole numbers as Python ints for panels, inverter, battery and protection. `PanelCount` and `BatteryCount` are `int`s, so those quantities are integral.
- The Streamlit page is not modelled, because it is UI and I/O. That covers page selection, headers, metrics, widgets and the background CSS. The `Estimator` module keeps only the estimate-then-materials chaining.
- Session and login state is not modelled, including the hardcoded admin credential check. It is presentation state, not estimation logic.
- The pandas DataFrame display and the CSV download are not modelled, because they are foreign-library I/O.
- `currency` formatting (rupee prefix, comma grouping) is not modelled, because it is display only.
- The second catalogue panel (polycrystalline 350 W) is kept in the catalogue constant. The deriver never reads it.
- Idempotence of the three operations is not stated as a lemma. Every member is a pure Dafny function, so equal inputs give equal results by construction.
