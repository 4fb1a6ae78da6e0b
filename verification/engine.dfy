/** The engine as the program runs it: the outer loop over simulations and,
    inside it, the year-by-year loop that builds the cashflow vector by
    appending one NOI per year and then adding the sale proceeds to the last
    entry. Each loop is proved to compute exactly what the functional
    definitions in `Scenario` describe. */
module Engine {
  import opened Compounding
  import opened Tiers
  import opened Scenario

  /** The year loop: starting from the investment paid out at entry 0, append
      each year's NOI and accumulate the running NOI total; `expenses` is left
      holding the last year's expenses. */
  method ProjectYears(p: Projection, investment: real) returns (cashflows: seq<real>, totalNoi: real, expenses: real)
    requires |p.vacancy| == Years - 1
    ensures cashflows == [-investment] + Nois(p)
    ensures totalNoi == Sum(Nois(p))
    ensures expenses == ProjectYear(p, Years).expenses
  {
    cashflows := [-investment];
    totalNoi := 0.0;
    expenses := 0.0;
    var year := 1;
    while year <= Years
      invariant 1 <= year <= Years + 1
      invariant cashflows == [-investment] + Nois(p)[..year - 1]
      invariant totalNoi == Sum(Nois(p)[..year - 1])
      invariant year > 1 ==> expenses == ProjectYear(p, year - 1).expenses
    {
      var line := ProjectYear(p, year);
      expenses := line.expenses;
      var noi := line.noi;
      assert noi == Nois(p)[year - 1];
      assert Nois(p)[..year] == Nois(p)[..year - 1] + [noi];
      SumSnoc(Nois(p)[..year - 1], noi);
      cashflows := cashflows + [noi];
      totalNoi := totalNoi + noi;
      year := year + 1;
    }
    assert Nois(p)[..Years] == Nois(p);
  }

  /** One iteration of the simulation loop, in the program's order: purchase,
      rent, the year loop, the sale added onto the last cashflow, then the
      metrics and the separately recomputed first-year cap rate. */
  method RunScenario(cfg: Config, d: Draws, index: int) returns (r: ScenarioResult)
    requires Feasible(d)
    ensures r == Simulate(cfg, d, index)
  {
    var b := Acquire(d);
    var p := ProjectionOf(cfg, d);
    var cashflows, totalNoi, expenses := ProjectYears(p, b.investment);

    var exitValue := ExitValue(b, d.rennoMultiplier, d.appreciationRate);
    var netSaleProceeds := exitValue * (1.0 - ExitCost);
    cashflows := cashflows[|cashflows| - 1 := cashflows[|cashflows| - 1] + netSaleProceeds];

    var totalProfit := totalNoi + netSaleProceeds - b.investment;
    var capRate := CapRate(YearOneNoi(p.monthlyRent, d.expenseRatioBase), b.value);

    r := ScenarioResult(
      index, b.value, b.capex, b.investment, b.tier.name, p.monthlyRent, p.monthlyRent * 12.0,
      expenses, d.expenseRatioBase, totalNoi, exitValue, netSaleProceeds,
      RoiPercent(totalProfit, b.investment), capRate, cashflows);
  }

  /** Number of iterations `range(1, n + 1)` performs. */
  function Count(n: int): nat
  {
    if n > 0 then n else 0
  }

  /** `range(1, n + 1)` visits exactly the indices 1..Count(n). */
  lemma CountIsRange(n: int, i: int)
    ensures 1 <= i <= n <==> 1 <= i <= Count(n)
  {
  }

  /** The whole run: one row per simulation, indexed from 1, each computed from
      its own draws. A non-positive count gives no rows. */
  method RunSimulation(n: int, cfg: Config, draws: seq<Draws>) returns (rows: seq<ScenarioResult>)
    requires |draws| == Count(n)
    requires forall k :: 0 <= k < |draws| ==> Feasible(draws[k])
    ensures |rows| == Count(n)
    ensures forall k :: 0 <= k < |rows| ==> rows[k] == Simulate(cfg, draws[k], k + 1)
    ensures forall k :: 0 <= k < |rows| ==> rows[k].index == k + 1
    ensures forall k :: 0 <= k < |rows| ==> FloorValue <= rows[k].propertyValue <= CeilingValue
    ensures forall k :: 0 <= k < |rows| ==> Consistent(rows[k])
  {
    rows := [];
    var i := 1;
    while i <= n
      invariant 1 <= i <= Count(n) + 1
      invariant |rows| == i - 1
      invariant forall k :: 0 <= k < |rows| ==> rows[k] == Simulate(cfg, draws[k], k + 1)
    {
      var row := RunScenario(cfg, draws[i - 1], i);
      rows := rows + [row];
      i := i + 1;
    }
  }
}
