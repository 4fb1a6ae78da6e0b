/** Properties of one scenario: the clamp keeps the classifier off its
    fallback, the vacancy schedule, the shape of the cashflow vector, the
    accounting identities between the reported figures, and the bounds the
    draws impose on capex, exit value and cap rate. */
module ScenarioFacts {
  import opened Compounding
  import opened Tiers
  import opened Scenario

  /** After clamping, some ceiling of the table is at least the value, so the
      classifier returns a tier by its comparison and never by its fallback. */
  lemma ClippedValueFitsATier(raw: real)
    ensures exists j :: 0 <= j < |Table| && Clip(raw) <= Table[j].maxValue
    ensures Clip(raw) <= GetTier(Clip(raw)).maxValue
  {
    TableInvariant();
    assert Clip(raw) <= Table[3].maxValue;
  }

  /** The capex lies between the minimum and maximum renovation fractions of
      the value, for the tier the value is classified into. */
  lemma CapexWithinTierBounds(d: Draws)
    requires Feasible(d)
    ensures var b := Acquire(d);
      GetTier(b.value).minCapex * b.value <= b.capex <= GetTier(b.value).maxCapex * b.value
  {
    CapexWithinTier(Acquire(d));
  }

  /** Year 1 collects 10 months of rent; every later year collects 11 or 12. */
  lemma CollectedMonthsSchedule(p: Projection)
    requires |p.vacancy| == Years - 1
    requires forall k :: 0 <= k < |p.vacancy| ==> 0 <= p.vacancy[k] <= 1
    ensures ProjectYear(p, 1).collectedMonths == 10
    ensures forall y :: 2 <= y <= Years ==> 11 <= ProjectYear(p, y).collectedMonths <= 12
  {
  }

  /** The cashflow vector pays the investment out at entry 0, holds each
      year's NOI at that year's entry, and carries the sale proceeds on the
      last entry only; the reported NOI is the total of the yearly NOIs. */
  lemma CashflowShape(cfg: Config, d: Draws, index: int)
    requires Feasible(d)
    ensures var r := Simulate(cfg, d, index); var p := ProjectionOf(cfg, d);
      && |r.cashflows| == Years + 1
      && r.cashflows[0] == -r.totalInvestment
      && (forall y :: 1 <= y < Years ==> r.cashflows[y] == ProjectYear(p, y).noi)
      && r.cashflows[Years] == ProjectYear(p, Years).noi + r.netSaleProceeds
      && r.netOperatingIncome == Sum(Nois(p))
  {
  }

  /** Discounting at a zero rate leaves the total profit, so zero is an
      internal rate of return of the cashflows exactly when the ROI is zero. */
  lemma ZeroIrrIffZeroRoi(r: ScenarioResult)
    requires Consistent(r)
    ensures Npv(r.cashflows, 0.0) == r.netOperatingIncome + r.netSaleProceeds - r.totalInvestment
    ensures IsIrr(r.cashflows, 0.0) <==> r.roiPercent == 0.0
  {
    ZeroRateIrrIffBreakEven(r.cashflows);
    ZeroScaled(r.roiPercent, r.totalInvestment, Sum(r.cashflows));
  }

  lemma ZeroScaled(x: real, v: real, s: real)
    requires v > 0.0 && x * v == 100.0 * s
    ensures x == 0.0 <==> s == 0.0
  {
  }

  /** The cap rate is the first projected year's NOI over the value; the first
      year's NOI recomputed for it agrees with the projected one. */
  lemma CapRateIsYearOneYield(cfg: Config, d: Draws, index: int)
    requires Feasible(d)
    ensures var r := Simulate(cfg, d, index); var p := ProjectionOf(cfg, d);
      && r.capRate == CapRate(ProjectYear(p, 1).noi, r.propertyValue)
      && ProjectYear(p, 1).noi == YearOneNoi(r.monthlyRent, r.expenseRatio)
  {
    var r := Simulate(cfg, d, index);
    var p := ProjectionOf(cfg, d);
    CashflowShape(cfg, d, index);
    assert r.monthlyRent == p.monthlyRent && r.expenseRatio == p.expenseRatio;
    YearOneNoiAgrees(p);
  }

  /** Capex cannot change a row's outcome through the configured capex range:
      the run ignores `capexMin` and `capexMax`. */
  lemma CapexRangeIgnored(cfg: Config, d: Draws, index: int, lo: real, hi: real)
    requires Feasible(d)
    ensures Simulate(cfg.(capexMin := lo, capexMax := hi), d, index) == Simulate(cfg, d, index)
  {
  }

  /** Every projected year has positive expenses once rent and expenses cannot
      shrink by 100% or more in a year and the expense ratio is not negative. */
  lemma YearExpensesPositive(p: Projection, year: int)
    requires 1 <= year <= Years && |p.vacancy| == Years - 1
    requires forall k :: 0 <= k < |p.vacancy| ==> 0 <= p.vacancy[k] <= 1
    requires p.monthlyRent >= 0.0 && p.rentGrowth > -1.0 && p.expenseGrowth > -1.0 && p.expenseRatio >= 0.0
    ensures ProjectYear(p, year).expenses > 0.0
  {
    var months := CollectedMonths(p.vacancy, year);
    var rentFactor := Pow(1.0 + p.rentGrowth, year - 1);
    var expenseFactor := Pow(1.0 + p.expenseGrowth, year - 1);
    NonNegProduct(p.monthlyRent, rentFactor);
    NonNegProduct(p.monthlyRent * rentFactor, months as real);
    var effective := p.monthlyRent * rentFactor * months as real;
    NonNegProduct(effective, p.expenseRatio);
    NonNegProduct(effective * p.expenseRatio, expenseFactor);
    assert FixedExpense(year) > 0.0;
  }

  /** The reported "Expenses" figure is the last year's expenses alone. */
  lemma ExpensesAreFinalYear(cfg: Config, d: Draws, index: int)
    requires Feasible(d)
    ensures Simulate(cfg, d, index).expenses == ExpenseSchedule(ProjectionOf(cfg, d))[Years - 1]
  {
  }

  /** With positive yearly expenses, the last year's figure reported as
      "Expenses" is strictly less than the five-year total of expenses. */
  lemma ExpensesAreFinalYearOnly(cfg: Config, d: Draws, index: int)
    requires Feasible(d)
    requires cfg.rentGrowth > -1.0 && cfg.expenseGrowth > -1.0 && d.expenseRatioBase >= 0.0
    ensures var r := Simulate(cfg, d, index); var p := ProjectionOf(cfg, d);
      && r.expenses == ExpenseSchedule(p)[Years - 1]
      && r.expenses < Sum(ExpenseSchedule(p))
  {
    ExpensesAreFinalYear(cfg, d, index);
    var p := ProjectionOf(cfg, d);
    var b := Acquire(d);
    NonNegProduct(b.value, b.tier.rentYield);
    var s := ExpenseSchedule(p);
    forall k | 0 <= k < |s|
      ensures s[k] > 0.0
    {
      YearExpensesPositive(p, k + 1);
    }
    SumExceedsLast(s);
  }

  /** The base monthly rent of a clamped value is at least 465, the rent of the
      cheapest Distressed property (30,000 at a 1.55% yield). */
  lemma MonthlyRentFloor(v: real)
    requires FloorValue <= v <= CeilingValue
    ensures v * GetTier(v).rentYield >= 465.0
  {
    TableInvariant();
    FirstFitIsBand(Table, v, 0);
    FirstFitIsBand(Table, v, 1);
    FirstFitIsBand(Table, v, 2);
    FirstFitIsBand(Table, v, 3);
  }

  /** The largest expense ratio at which the cheapest property still has a
      positive first-year NOI is just below 53/93: at a monthly rent of 465,
      ten months bring 4,650, and 4,650 × (1 - 53/93) is the fixed 2,000. */
  const RatioBound: real := 53.0 / 93.0

  /** With an expense ratio below `RatioBound`, the first-year NOI of any rent
      of at least 465 a month is positive. */
  lemma YearOneNoiPositive(monthlyRent: real, ratio: real)
    requires monthlyRent >= 465.0 && ratio < RatioBound
    ensures YearOneNoi(monthlyRent, ratio) > 0.0
  {
    var effective := monthlyRent * YearOneMonths as real;
    assert YearOneNoi(monthlyRent, ratio) == effective * (1.0 - ratio) - FixedExpenseAnnual;
    MulLeRight(4650.0, effective, 1.0 - ratio);
  }

  /** At the lowest rent the bound is exact: the first-year NOI is positive
      exactly when the expense ratio is below `RatioBound`. */
  lemma YearOneNoiBoundIsTight(ratio: real)
    ensures YearOneNoi(465.0, ratio) > 0.0 <==> ratio < RatioBound
  {
    assert YearOneNoi(465.0, ratio) == 2650.0 - 4650.0 * ratio;
  }

  /** Whenever the expense ratio drawn is below `RatioBound`, the cap rate is
      positive. */
  lemma CapRatePositive(cfg: Config, d: Draws, index: int)
    requires Feasible(d) && d.expenseRatioBase < RatioBound
    ensures Simulate(cfg, d, index).capRate > 0.0
  {
    var r := Simulate(cfg, d, index);
    var p := ProjectionOf(cfg, d);
    CapRateIsYearOneYield(cfg, d, index);
    MonthlyRentFloor(Acquire(d).value);
    YearOneNoiPositive(p.monthlyRent, d.expenseRatioBase);
    PositiveRatio(ProjectYear(p, 1).noi, r.propertyValue);
  }

  lemma PositiveRatio(a: real, b: real)
    requires a > 0.0 && b > 0.0
    ensures CapRate(a, b) > 0.0
  {
  }

  /** The positivity above needs a bound on the expense ratio: a 30,000
      Distressed property with a 60% expense ratio has a first-year NOI of
      -140 and so a negative cap rate. */
  lemma CapRateCanBeNegative(cfg: Config)
    ensures var d := Draws(30000.0, 0.25, 0.6, 0.02, [0, 0, 0, 0], 1.0);
      Feasible(d) && Simulate(cfg, d, 1).capRate < 0.0
  {
    var d := Draws(30000.0, 0.25, 0.6, 0.02, [0, 0, 0, 0], 1.0);
    TableInvariant();
    FirstFitIsBand(Table, 30000.0, 0);
    assert GetTier(30000.0) == Table[0];
    var p := ProjectionOf(cfg, d);
    assert p.monthlyRent == 465.0;
    CapRateIsYearOneYield(cfg, d, 1);
    assert YearOneNoi(465.0, 0.6) == -140.0;
  }

  /** The sale price lies between the sale prices at the smallest and the
      largest renovation multiplier, that is between the value plus half of
      the capex and the value plus 125% of the capex, appreciated over the
      holding period; with non-negative appreciation it is at least the
      unappreciated lower bound. */
  lemma ExitValueBounds(b: Purchase, rennoMultiplier: real, rate: real)
    requires b.value > 0.0 && b.capex >= 0.0
    requires RennoMin <= rennoMultiplier <= RennoMax && rate > -1.0
    ensures ExitValue(b, RennoMin, rate) <= ExitValue(b, rennoMultiplier, rate) <= ExitValue(b, RennoMax, rate)
    ensures rate >= 0.0 ==> b.value + RennoMin * b.capex <= ExitValue(b, rennoMultiplier, rate)
  {
    ExitValueMonotone(b, RennoMin, rennoMultiplier, rate);
    ExitValueMonotone(b, rennoMultiplier, RennoMax, rate);
    NoShrink(b.value + RennoMin * b.capex, Appreciation(rate));
  }

  /** A larger renovation multiplier never lowers the sale price. */
  lemma ExitValueMonotone(b: Purchase, m1: real, m2: real, rate: real)
    requires m1 <= m2 && b.capex >= 0.0 && rate > -1.0
    ensures ExitValue(b, m1, rate) <= ExitValue(b, m2, rate)
  {
    var g := Appreciation(rate);
    calc {
      ExitValue(b, m1, rate);
    ==
      (b.value + m1 * b.capex) * g;
    <= { ScaledLe(b.value, b.capex, m1, m2, g); }
      (b.value + m2 * b.capex) * g;
    ==
      ExitValue(b, m2, rate);
    }
  }

  lemma ScaledLe(v: real, c: real, m1: real, m2: real, g: real)
    requires m1 <= m2 && c >= 0.0 && g >= 0.0
    ensures (v + m1 * c) * g <= (v + m2 * c) * g
  {
    MulLeRight(m1, m2, c);
    MulLeRight(v + m1 * c, v + m2 * c, g);
  }

  /** A non-negative amount does not shrink under a growth factor of at least one. */
  lemma NoShrink(x: real, g: real)
    requires x >= 0.0
    ensures g >= 1.0 ==> x <= x * g
  {
    if g >= 1.0 {
      MulLeRight(1.0, g, x);
    }
  }

  /** With both configured expense ratio bounds below `RatioBound` (the
      dashboard's sliders allow 0.15 to 0.45), every scenario's cap rate is
      positive. */
  lemma CapRatePositiveForConfig(cfg: Config, d: Draws, index: int)
    requires Feasible(d) && DrawnWithin(cfg, d)
    requires cfg.expenseMin < RatioBound && cfg.expenseMax < RatioBound
    ensures Simulate(cfg, d, index).capRate > 0.0
  {
    CapRatePositive(cfg, d, index);
  }

  /** With a non-negative configured appreciation range, the reported exit
      value is at least the value plus half of the capex. */
  lemma ExitValueOfRow(cfg: Config, d: Draws, index: int)
    requires Feasible(d) && DrawnWithin(cfg, d)
    requires 0.0 <= cfg.appreciationMin && 0.0 <= cfg.appreciationMax
    ensures var r := Simulate(cfg, d, index);
      r.propertyValue + RennoMin * r.capex <= r.exitValue
  {
    var b := Acquire(d);
    ExitValueBounds(b, d.rennoMultiplier, d.appreciationRate);
  }
}
