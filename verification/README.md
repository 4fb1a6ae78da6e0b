# Monte-Carlo real-estate return engine: a Dafny model

This project models the deterministic core of a Monte-Carlo engine. The engine
estimates returns on single-family rental properties. Each scenario:

- draws a property value and clamps it to [30,000, 400,000];
- classifies the value into one of four market tiers;
- draws a renovation capex within that tier's bounds;
- projects five years of rent, vacancy and expenses into a six-entry cashflow vector;
- sells the property at an appreciated exit value, less a 9% selling cost;
- reports total NOI, ROI, an IRR and a first-year cap rate. In place of the IRR,
  the model carries the cashflow vector the IRR is computed from.

Every random draw of a scenario becomes a field of a `Draws` record. These
draws are the log-normal value, the capex fraction, the expense ratio, the
appreciation rate, the four vacancy months and the renovation multiplier. With
the draws fixed, a scenario is a pure function over exact reals (`real`, exact
rationals). The model therefore proves the code's accounting identities exactly,
not up to floating-point error.

Modules:

- `Compounding` (compounding.dfy): integer powers for compounding, sums of
  cashflows, and net present value with an `IsIrr` predicate (an IRR is a root
  of the NPV).
- `Tiers` (tiers.dfy): the tier table and the first-fit classifier with its
  fallback to the last tier.
- `Scenario` (scenario.dfy): the clamp, the purchase, the year-by-year
  projection, the cashflow vector, the sale and the metrics. `Simulate` is the
  functional definition of one scenario. `Consistent` is the set of accounting
  identities every row keeps.
- `Engine` (engine.dfy): the program's loops as methods. These are the year
  loop that appends NOIs, one scenario in program order, and the run over
  scenarios 1..n. Each is proved equal to the functional definition.
- `ScenarioFacts` (scenario_facts.dfy): properties of a scenario.

Two properties of the code's output are worth stating up front:

- The "Expenses" column holds only the last year's expenses, not a five-year
  total (`ExpensesAreFinalYear`, and `ExpensesAreFinalYearOnly` for the strict
  gap to the total).
- The cap rate is not positive for every row. `CapRatePositive` proves it is
  positive whenever the expense ratio is below 53/93 (about 0.57), which covers
  every setting the dashboard's sliders allow (0.15 to 0.45).
  `YearOneNoiBoundIsTight` shows that 53/93 is exact for the cheapest property,
  and `CapRateCanBeNegative` gives a row with a negative cap rate at a ratio
  of 0.6.

## Model

| member | source | states |
|---|---|---|
| Compounding.Pow | simulation.py:59-74 | growth factors `(1+g)^n` are positive for a positive base and at least 1 for a base of at least 1 |
| Compounding.PowOfOne | simulation.py:91 | a growth factor of one leaves every power at one, so discounting at a zero rate leaves every cashflow unchanged |
| Compounding.SumExceedsLast | simulation.py:75 | a total of several positive yearly amounts is strictly more than its last amount |
| Compounding.ZeroRateIrrIffBreakEven | simulation.py:89-91 | undiscounted NPV is the plain cashflow total, so a zero rate is an IRR exactly when the cashflows break even |
| Tiers.TableInvariant | simulation.py:16-21 | the table has four tiers, ceilings strictly ascending, positive yields and a positive, non-empty capex range for each tier |
| Tiers.ScanFrom | simulation.py:24-28 | the scan returns a table position; it skips only tiers whose ceiling is below the value; it stops at a matching tier if one exists, and otherwise falls back to the last position |
| Tiers.FirstFit | simulation.py:24-28 | the result is the first tier whose ceiling is at least the value, or the last tier when every ceiling is below it |
| Tiers.GetTier | simulation.py:24-28 | classification is total and returns a member of the table; any value above the last ceiling gets the last tier |
| Tiers.FirstFitIsBand | simulation.py:16-28 | on an ascending table, the scan picks tier i exactly when the value lies in tier i's band (both directions) |
| Tiers.FirstFitMonotone | simulation.py:24-28 | a larger value never maps to an earlier tier |
| Tiers.GetTierMonotone | simulation.py:16-28 | on the real table a larger value never gets an earlier tier or a lower ceiling |
| Tiers.GetTierBands | simulation.py:16-28 | a value gets "Distressed" iff it is at most 100,000, "Value-Add" iff it is in (100,000, 180,000], "Mid-Tier" iff it is in (180,000, 300,000], and "Retail-Ready" iff it is above 300,000 |
| Tiers.GetTierBoundaries | simulation.py:24-28 | 100,000 gets "Distressed"; 100,000.01 gets "Value-Add"; 400,000 and every value above it get "Retail-Ready", the latter by the fallback |
| Scenario.Clip | simulation.py:37 | the clamped value lies in [30,000, 400,000] and equals the drawn value when that is already in range |
| Scenario.ClipIsNearest | simulation.py:37 | the clamped value is the point of the interval nearest the drawn value, and clamping is idempotent |
| Scenario.Acquire | simulation.py:36-43 | the purchase holds the clamped value and its tier; the capex fraction lies in that tier's bounds; investment = value + capex, and it exceeds the value, which is positive |
| Scenario.Appreciation | simulation.py:84 | the growth factor `(1 + rate)^5` is positive for a rate above -100% and at least 1 for a non-negative rate |
| Scenario.CollectedMonths | simulation.py:62-65 | the months of rent collected in a year: 10 in year 1, and 11 or 12 in a later year whose vacancy draw is 0 or 1 |
| Scenario.FixedExpense | simulation.py:69-71 | the fixed expense of a year, 2,000 grown by 2% a year after the first, is never below 2,000 |
| Scenario.ProjectYear | simulation.py:59-77 | one iteration of the year loop: its months are `CollectedMonths`, NOI plus expenses is the collected rent, and year 1 collects 10 months of the unescalated rent |
| Scenario.ProjectionOf | simulation.py:46-52 | the projection's base monthly rent is positive, and it carries the configured growth rates, the drawn expense ratio and the vacancy draws |
| Scenario.BaseRentOfValue | simulation.py:46-47 | a scenario's base monthly rent is its clamped value times the rent yield of the tier that value is classified into |
| Scenario.Cashflows | simulation.py:55-86 | the cashflow vector has one entry per year plus one: -investment first, each year's NOI after it, and the sale proceeds added to the last entry only |
| Scenario.YearOneNoi | simulation.py:94-100 | the recomputed first-year NOI; for a non-negative rent and expense ratio it is at most 10 months of rent minus the fixed 2,000 |
| Scenario.CapRate | simulation.py:101 | the guarded cap rate: for a positive value it has the sign of the NOI, and it is 0 for a non-positive value |
| Scenario.ExitValue | simulation.py:82-84 | the sale price (value + multiplier × capex) grown over five years; for appreciation above -100% it is positive exactly when that basis is |
| Scenario.CapexWithinTier | simulation.py:41-42 | capex lies between min_capex × value and max_capex × value |
| Scenario.RoiPercent | simulation.py:90 | the ROI percentage times the investment is 100 × the profit |
| Scenario.CapRateGuard | simulation.py:101 | for a positive value, cap rate × value recovers the NOI; for a non-positive value, the cap rate is 0 |
| Scenario.YearOneNoiAgrees | simulation.py:60-100 | the first-year NOI recomputed for the cap rate equals the first NOI appended in the year loop |
| Scenario.CashflowsTotal | simulation.py:55-89 | the cashflow vector has one entry more than the NOI list, and its total is the NOI total plus the sale proceeds minus the investment |
| Scenario.Simulate | simulation.py:34-101 | one scenario: value in [30,000, 400,000], tier name from classifying that value, and every accounting identity of `Consistent` (investment = value + capex > value > 0, annual rent = 12 × monthly rent, six cashflows starting at -investment, proceeds = 0.91 × exit value, cashflow total = total profit, ROI = total over investment, cap rate = entry 1 over value) |
| Engine.ProjectYears | simulation.py:55-79 | the year loop yields [-investment] followed by the five yearly NOIs, their running total, and the last year's expenses |
| Engine.RunScenario | simulation.py:35-101 | one loop iteration as the program orders it, including the in-place addition of the sale proceeds to the last cashflow, computes exactly `Simulate` |
| Engine.CountIsRange | simulation.py:34 | an index i is visited by `range(1, n + 1)` exactly when 1 <= i <= Count(n), so a run has Count(n) iterations and none for a non-positive n |
| Engine.RunSimulation | simulation.py:31-121 | a run of n produces max(n, 0) rows indexed 1..n; row k is `Simulate` of the k-th draws, its value lies in [30,000, 400,000], and it keeps the accounting identities |
| ScenarioFacts.ClippedValueFitsATier | simulation.py:37-38 | after clamping, some ceiling is at least the value, so the classifier never reaches its fallback |
| ScenarioFacts.CapexWithinTierBounds | simulation.py:38-43 | a scenario's capex lies between the minimum and maximum fractions of the value for the tier the value is classified into |
| ScenarioFacts.CollectedMonthsSchedule | simulation.py:62-65 | year 1 collects 10 months; each of years 2..5 collects 11 or 12 |
| ScenarioFacts.CashflowShape | simulation.py:55-86 | entry 0 is -investment; entries 1..4 are those years' NOIs; entry 5 is year 5's NOI plus the sale proceeds; total NOI is the sum of the yearly NOIs |
| ScenarioFacts.ZeroIrrIffZeroRoi | simulation.py:89-91 | for any consistent row, NPV at rate 0 is the total profit, and 0 is an IRR of the cashflows exactly when the ROI is 0 |
| ScenarioFacts.CapRateIsYearOneYield | simulation.py:94-101 | the cap rate is the guarded ratio of year 1's projected NOI to the value, and that NOI equals the recomputed one |
| ScenarioFacts.YearExpensesPositive | simulation.py:69-75 | each year's expenses are positive when growth rates exceed -100% and the expense ratio is not negative |
| ScenarioFacts.ExpensesAreFinalYear | simulation.py:75 | for every feasible scenario, the reported Expenses equal the last year's expenses |
| ScenarioFacts.ExpensesAreFinalYearOnly | simulation.py:75 | with growth above -100% and a non-negative ratio, the reported Expenses are strictly less than the five-year expense total |
| ScenarioFacts.MonthlyRentFloor | simulation.py:16-47 | every clamped value's base monthly rent is at least 465 |
| ScenarioFacts.YearOneNoiPositive | simulation.py:94-100 | for a rent of at least 465 and an expense ratio below 53/93, the first-year NOI is positive |
| ScenarioFacts.YearOneNoiBoundIsTight | simulation.py:94-100 | at a rent of 465, the first-year NOI is positive exactly when the expense ratio is below 53/93 |
| ScenarioFacts.CapRatePositive | simulation.py:94-101 | for an expense ratio below 53/93, the cap rate is positive |
| ScenarioFacts.CapRateCanBeNegative | simulation.py:94-101 | a feasible scenario (value 30,000, ratio 0.6) has a negative cap rate |
| ScenarioFacts.CapRatePositiveForConfig | simulation.py:51-101 | when both configured expense bounds are below 53/93, every scenario's cap rate is positive |
| ScenarioFacts.ExitValueBounds | simulation.py:81-84 | the exit value lies between the exit values at multipliers 0.5 and 1.25, that is (value + 0.5 × capex) × growth and (value + 1.25 × capex) × growth; with non-negative appreciation, it is at least value + 0.5 × capex |
| ScenarioFacts.ExitValueMonotone | simulation.py:82-83 | with non-negative capex and appreciation above -100%, a larger renovation multiplier never lowers the exit value |
| ScenarioFacts.ExitValueOfRow | simulation.py:52-84 | with a non-negative configured appreciation range, a row's exit value is at least its value plus half its capex |
| ScenarioFacts.CapexRangeIgnored | simulation.py:31-41 | changing the configured capex_min and capex_max never changes a scenario's result |

## Left out

- Random sampling (`np.random.lognormal`, `uniform`, `randint`): the draws are
  parameters. `Feasible` states what the generators guarantee: four vacancy
  draws in {0, 1}, and a capex fraction within the tier's bounds.
  `DrawnWithin` states that the other draws lie in their configured ranges
  (`Between`, either way round). Uniform draws are modelled on closed intervals.
- `npf.irr`: a floating-point root finder from an outside library that may
  return NaN. Each row carries the cashflow vector instead. `IsIrr` says what
  a root is, and only the zero-rate case is related to the ROI.
- Rounding to 2, 3 or 4 decimals, and building the pandas DataFrame. These are
  presentation concerns. `roiPercent` is the unrounded `roi * 100`.
- IEEE floating-point behaviour: all arithmetic is exact.
- The `capex_min`/`capex_max` parameters: they are accepted in `Config` and
  otherwise unused, as in the code.
- app.py (the Streamlit dashboard) and main.py (batch CSV output). Both are
  presentation and I/O around the engine.
- Scenario.Simulate: the ROI and cap-rate identities are stated through
  `RoiPercent` and `CapRate`. The multiplicative forms are in `RoiPercent` and
  `CapRateGuard`.
- ScenarioFacts.CapRatePositive: proved for expense ratios below 53/93
  whatever the value. This bound is exact only for the cheapest property; a
  dearer property keeps a positive cap rate at somewhat higher ratios, and the
  model does not state its value-dependent threshold.
