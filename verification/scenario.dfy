/** One scenario of the Monte-Carlo engine: given the random draws of one
    iteration, the clamped property value, its tier, the renovation capex, the
    five-year cashflow projection, the sale at exit and the return metrics. */
module Scenario {
  import opened Compounding
  import opened Tiers

  /** Length of the holding period in years. */
  const Years: nat := 5
  /** Property values are clamped into [FloorValue, CeilingValue]. */
  const FloorValue: real := 30000.0
  const CeilingValue: real := 400000.0
  /** Months of rent collected in the first year (lease-up after purchase). */
  const YearOneMonths: int := 10
  /** Fixed yearly expense (tax, insurance) and its yearly inflation. */
  const FixedExpenseAnnual: real := 2000.0
  const FixedExpenseGrowth: real := 0.02
  /** Fraction of the gross sale price lost to selling costs. */
  const ExitCost: real := 0.09
  /** Bounds of the draw for how much of the capex the sale price recovers. */
  const RennoMin: real := 0.5
  const RennoMax: real := 1.25

  /** The caller's parameters of a run. `capexMin` and `capexMax` are accepted
      but no computation reads them. */
  datatype Config = Config(
    rentGrowth: real,
    expenseGrowth: real,
    capexMin: real,
    capexMax: real,
    appreciationMin: real,
    appreciationMax: real,
    expenseMin: real,
    expenseMax: real)

  /** The random draws of one scenario, in the order they are drawn:
      the unclamped log-normal property value, the capex fraction, the base
      expense ratio, the yearly appreciation rate, the vacant months of years
      2 to 5, and the renovation multiplier applied at sale. */
  datatype Draws = Draws(
    rawValue: real,
    capexPct: real,
    expenseRatioBase: real,
    appreciationRate: real,
    vacancy: seq<int>,
    rennoMultiplier: real)

  /** One row of the engine's output, unrounded. `roiPercent` is the ROI in
      percent; `cashflows` is the vector the internal rate of return is
      computed from. */
  datatype ScenarioResult = ScenarioResult(
    index: int,
    propertyValue: real,
    capex: real,
    totalInvestment: real,
    tierName: string,
    monthlyRent: real,
    annualRent: real,
    expenses: real,
    expenseRatio: real,
    netOperatingIncome: real,
    exitValue: real,
    netSaleProceeds: real,
    roiPercent: real,
    capRate: real,
    cashflows: seq<real>)

  /** The distance between two reals. */
  function Dist(x: real, y: real): real
  {
    if x <= y then y - x else x - y
  }

  /** The property value after clamping into [FloorValue, CeilingValue]. */
  function Clip(x: real): (r: real)
    ensures FloorValue <= r <= CeilingValue
    ensures FloorValue <= x <= CeilingValue ==> r == x
  {
    if x < FloorValue then FloorValue
    else if x > CeilingValue then CeilingValue
    else x
  }

  /** Clamping picks the point of the interval nearest to the drawn value,
      and clamping twice is clamping once. */
  lemma ClipIsNearest(x: real)
    ensures forall y :: FloorValue <= y <= CeilingValue ==> Dist(Clip(x), x) <= Dist(y, x)
    ensures Clip(Clip(x)) == Clip(x)
  {
  }

  /** `x` lies between `a` and `b`, whichever way round the bounds are given. */
  predicate Between(x: real, a: real, b: real)
  {
    (a <= x <= b) || (b <= x <= a)
  }

  /** What the random generators guarantee about a scenario's draws regardless
      of the configuration: four vacancy draws, each 0 or 1, and a capex
      fraction within the bounds of the tier the clamped value falls into. */
  predicate Feasible(d: Draws)
  {
    && |d.vacancy| == Years - 1
    && (forall k :: 0 <= k < |d.vacancy| ==> 0 <= d.vacancy[k] <= 1)
    && GetTier(Clip(d.rawValue)).minCapex <= d.capexPct <= GetTier(Clip(d.rawValue)).maxCapex
  }

  /** The configuration-dependent draws lie in their configured ranges, and
      the renovation multiplier in [RennoMin, RennoMax]. */
  predicate DrawnWithin(cfg: Config, d: Draws)
  {
    && Between(d.expenseRatioBase, cfg.expenseMin, cfg.expenseMax)
    && Between(d.appreciationRate, cfg.appreciationMin, cfg.appreciationMax)
    && RennoMin <= d.rennoMultiplier <= RennoMax
  }

  /** The inputs of the year-by-year projection. */
  datatype Projection = Projection(
    monthlyRent: real,
    rentGrowth: real,
    expenseGrowth: real,
    expenseRatio: real,
    vacancy: seq<int>)

  /** One projected year: months collected, rent collected, total expenses, NOI. */
  datatype YearLine = YearLine(collectedMonths: int, effectiveRent: real, expenses: real, noi: real)

  /** Months of rent collected in year `year`: ten in the first year, then
      twelve less that year's vacancy draw. */
  function CollectedMonths(vacancy: seq<int>, year: int): (m: int)
    requires 1 <= year <= Years && |vacancy| == Years - 1
    ensures year == 1 ==> m == YearOneMonths
    ensures year > 1 && 0 <= vacancy[year - 2] <= 1 ==> 11 <= m <= 12
  {
    if year == 1 then YearOneMonths else 12 - vacancy[year - 2]
  }

  /** The fixed yearly expense, 2,000 inflated by 2% a year after the first. */
  function FixedExpense(year: int): (f: real)
    requires 1 <= year
    ensures f >= FixedExpenseAnnual
  {
    FixedExpenseAnnual * Pow(1.0 + FixedExpenseGrowth, year - 1)
  }

  /** Year `year` (1-based) of the projection: rent and variable expenses are
      compounded by `year - 1` years of growth. */
  function ProjectYear(p: Projection, year: int): (l: YearLine)
    requires 1 <= year <= Years && |p.vacancy| == Years - 1
    ensures l.collectedMonths == CollectedMonths(p.vacancy, year)
    ensures l.noi + l.expenses == l.effectiveRent
    ensures year == 1 ==> l.effectiveRent == p.monthlyRent * YearOneMonths as real
  {
    var months := CollectedMonths(p.vacancy, year);
    var effective := p.monthlyRent * Pow(1.0 + p.rentGrowth, year - 1) * months as real;
    var variable := effective * p.expenseRatio * Pow(1.0 + p.expenseGrowth, year - 1);
    var expenses := FixedExpense(year) + variable;
    YearLine(months, effective, expenses, effective - expenses)
  }

  /** The NOI of years 1 to Years, in order. */
  function Nois(p: Projection): (s: seq<real>)
    requires |p.vacancy| == Years - 1
    ensures |s| == Years
  {
    seq(Years, k requires 0 <= k < Years => ProjectYear(p, k + 1).noi)
  }

  /** The expenses of years 1 to Years, in order. */
  function ExpenseSchedule(p: Projection): (s: seq<real>)
    requires |p.vacancy| == Years - 1
  {
    seq(Years, k requires 0 <= k < Years => ProjectYear(p, k + 1).expenses)
  }

  /** The cashflow vector: the investment paid out at entry 0, each year's NOI
      after it, and the sale proceeds added to the final year only. */
  function Cashflows(investment: real, nois: seq<real>, saleProceeds: real): (cf: seq<real>)
    requires |nois| > 0
    ensures |cf| == |nois| + 1 && cf[0] == -investment
    ensures forall k :: 1 <= k < |nois| ==> cf[k] == nois[k - 1]
    ensures cf[|nois|] == nois[|nois| - 1] + saleProceeds
  {
    ([-investment] + nois)[|nois| := nois[|nois| - 1] + saleProceeds]
  }

  /** The first-year NOI as recomputed for the cap rate, from the base rent and
      the base expense ratio with no growth applied. */
  function YearOneNoi(monthlyRent: real, expenseRatio: real): (noi: real)
    ensures monthlyRent >= 0.0 && expenseRatio >= 0.0 ==> noi <= monthlyRent * YearOneMonths as real - FixedExpenseAnnual
  {
    var effective := monthlyRent * YearOneMonths as real;
    effective - (FixedExpenseAnnual + effective * expenseRatio)
  }

  /** The cap rate, guarded against a non-positive property value. */
  function CapRate(noi: real, value: real): (r: real)
    ensures value > 0.0 ==> (r > 0.0 <==> noi > 0.0) && (r < 0.0 <==> noi < 0.0)
    ensures value <= 0.0 ==> r == 0.0
  {
    if value > 0.0 then noi / value else 0.0
  }

  /** The purchase side of a scenario: the clamped value, its tier, the drawn
      capex fraction, the renovation capex and the total cash invested. */
  datatype Purchase = Purchase(value: real, tier: Tier, capexPct: real, capex: real, investment: real)

  lemma PositiveProduct(v: real, x: real)
    requires v > 0.0 && x > 0.0
    ensures v * x > 0.0
  {
  }

  lemma NonNegProduct(a: real, b: real)
    requires a >= 0.0 && b >= 0.0
    ensures a * b >= 0.0
  {
  }

  lemma MulLeRight(a: real, b: real, c: real)
    requires a <= b && c >= 0.0
    ensures a * c <= b * c
  {
  }

  /** Buying and renovating the property: the capex is the drawn fraction of
      the clamped value, the fraction lies within the tier's renovation bounds,
      and the investment exceeds the value. */
  function Acquire(d: Draws): (b: Purchase)
    requires Feasible(d)
    ensures b.value == Clip(d.rawValue) && b.capexPct == d.capexPct
    ensures FloorValue <= b.value <= CeilingValue
    ensures b.tier == GetTier(b.value)
    ensures b.tier.minCapex <= b.capexPct <= b.tier.maxCapex
    ensures b.capex == b.value * b.capexPct
    ensures b.investment == b.value + b.capex
    ensures b.investment > b.value > 0.0
  {
    var value := Clip(d.rawValue);
    var tier := GetTier(value);
    PositiveProduct(value, d.capexPct);
    Purchase(value, tier, d.capexPct, value * d.capexPct, value + value * d.capexPct)
  }

  /** The capex lies between the tier's minimum and maximum fractions of the value. */
  lemma CapexWithinTier(b: Purchase)
    requires b.value > 0.0 && b.tier.minCapex <= b.capexPct <= b.tier.maxCapex
    requires b.capex == b.value * b.capexPct
    ensures b.tier.minCapex * b.value <= b.capex <= b.tier.maxCapex * b.value
  {
  }

  /** The inputs of the projection for a scenario: base monthly rent is the
      clamped value times the tier's rent yield. */
  function ProjectionOf(cfg: Config, d: Draws): (p: Projection)
    requires Feasible(d)
    ensures |p.vacancy| == Years - 1
    ensures p.monthlyRent > 0.0
    ensures p.rentGrowth == cfg.rentGrowth && p.expenseGrowth == cfg.expenseGrowth
    ensures p.expenseRatio == d.expenseRatioBase && p.vacancy == d.vacancy
  {
    var b := Acquire(d);
    TableInvariant();
    PositiveProduct(b.value, b.tier.rentYield);
    Projection(b.value * b.tier.rentYield, cfg.rentGrowth, cfg.expenseGrowth, d.expenseRatioBase, d.vacancy)
  }

  /** The base monthly rent is the clamped value times its tier's rent yield. */
  lemma BaseRentOfValue(cfg: Config, d: Draws)
    requires Feasible(d)
    ensures ProjectionOf(cfg, d).monthlyRent == Clip(d.rawValue) * GetTier(Clip(d.rawValue)).rentYield
  {
  }

  /** The factor by which `rate` a year compounds over the holding period. */
  function Appreciation(rate: real): (g: real)
    ensures rate > -1.0 ==> g > 0.0
    ensures rate >= 0.0 ==> g >= 1.0
  {
    Pow(1.0 + rate, Years)
  }

  /** The gross sale price after `Years` years: the value plus the recovered
      part of the capex, appreciated at `rate` a year. */
  function ExitValue(b: Purchase, rennoMultiplier: real, rate: real): (r: real)
    ensures rate > -1.0 ==> (r > 0.0 <==> b.value + rennoMultiplier * b.capex > 0.0)
  {
    var basis := b.value + rennoMultiplier * b.capex;
    var g := Appreciation(rate);
    SameSign(basis, g);
    basis * g
  }

  /** Scaling by a positive factor keeps the sign. */
  lemma SameSign(x: real, g: real)
    ensures g > 0.0 ==> (x * g > 0.0 <==> x > 0.0)
  {
    if g <= 0.0 {
    } else if x > 0.0 {
      PositiveProduct(x, g);
    } else {
      assert (-x) * g >= 0.0;
    }
  }

  /** Profit as a percentage of the investment. */
  function RoiPercent(profit: real, investment: real): (r: real)
    requires investment != 0.0
    ensures r * investment == 100.0 * profit
  {
    profit / investment * 100.0
  }

  /** The whole cashflow vector sums to NOI plus sale proceeds less the investment. */
  lemma CashflowsTotal(investment: real, nois: seq<real>, saleProceeds: real)
    requires |nois| > 0
    ensures |Cashflows(investment, nois, saleProceeds)| == |nois| + 1
    ensures Sum(Cashflows(investment, nois, saleProceeds)) == Sum(nois) + saleProceeds - investment
  {
    var s := [-investment] + nois;
    SumConcat([-investment], nois);
    assert Sum([-investment]) == -investment;
    SumBumpLast(s, saleProceeds);
  }

  /** The guarded cap rate recovers the NOI when the value is positive and is
      zero otherwise. */
  lemma CapRateGuard(noi: real, value: real)
    ensures value > 0.0 ==> CapRate(noi, value) * value == noi
    ensures value <= 0.0 ==> CapRate(noi, value) == 0.0
  {
  }

  /** Every growth factor is 1 in year 1, so the projected first-year NOI and
      the one recomputed for the cap rate agree. */
  lemma YearOneNoiAgrees(p: Projection)
    requires |p.vacancy| == Years - 1
    ensures ProjectYear(p, 1).noi == YearOneNoi(p.monthlyRent, p.expenseRatio)
    ensures Nois(p)[0] == ProjectYear(p, 1).noi
  {
    assert Pow(1.0 + p.rentGrowth, 0) == 1.0;
    assert Pow(1.0 + p.expenseGrowth, 0) == 1.0;
    assert FixedExpense(1) == FixedExpenseAnnual;
  }

  /** The accounting identities every row keeps between its figures: the
      investment is value plus capex, annual gross rent is twelve months of
      the base rent, the cashflow vector starts with the
      investment paid out and sums to the total profit, the sale proceeds are
      the exit value net of selling costs, the ROI is the cashflow total over
      the investment, and the cap rate is the first-year NOI over the value. */
  ghost predicate Consistent(r: ScenarioResult)
  {
    && r.totalInvestment == r.propertyValue + r.capex
    && r.totalInvestment > r.propertyValue > 0.0
    && r.annualRent == 12.0 * r.monthlyRent
    && |r.cashflows| == Years + 1
    && r.cashflows[0] == -r.totalInvestment
    && r.netSaleProceeds == r.exitValue * (1.0 - ExitCost)
    && Sum(r.cashflows) == r.netOperatingIncome + r.netSaleProceeds - r.totalInvestment
    && r.roiPercent == RoiPercent(Sum(r.cashflows), r.totalInvestment)
    && r.capRate == CapRate(r.cashflows[1], r.propertyValue)
  }

  /** One scenario, computed from its draws. Every row it produces keeps the
      accounting identities between its fields. */
  function Simulate(cfg: Config, d: Draws, index: int): (r: ScenarioResult)
    requires Feasible(d)
    ensures r.index == index
    ensures FloorValue <= r.propertyValue <= CeilingValue
    ensures r.tierName == GetTier(r.propertyValue).name
    ensures Consistent(r)
  {
    var b := Acquire(d);
    var p := ProjectionOf(cfg, d);
    var nois := Nois(p);
    var totalNoi := Sum(nois);
    var exitValue := ExitValue(b, d.rennoMultiplier, d.appreciationRate);
    var sale := exitValue * (1.0 - ExitCost);
    var cashflows := Cashflows(b.investment, nois, sale);
    CashflowsTotal(b.investment, nois, sale);
    YearOneNoiAgrees(p);
    CapRateGuard(YearOneNoi(p.monthlyRent, d.expenseRatioBase), b.value);
    ScenarioResult(
      index, b.value, b.capex, b.investment, b.tier.name, p.monthlyRent, p.monthlyRent * 12.0,
      ProjectYear(p, Years).expenses, d.expenseRatioBase, totalNoi, exitValue, sale,
      RoiPercent(totalNoi + sale - b.investment, b.investment),
      CapRate(YearOneNoi(p.monthlyRent, d.expenseRatioBase), b.value),
      cashflows)
  }
}
