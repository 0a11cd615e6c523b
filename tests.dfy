/**
 * The scenarios of test_supply_chain.py, each stated as the exact value the model
 * computes for the scenario's inputs.
 */
module SupplyChainTests {
  import opened Common
  import opened Agents
  import opened ChainState
  import opened Utils

  /** The example allocations of the four tool tests. */
  lemma AllocationExamples()
    ensures Supply(30, 100) == 30 && Supply(100, 50) == 50 && Supply(30, 0) == 0
    ensures Manufacture(50, 40, 30) == 30 && Manufacture(100, 30, 50) == 30 && Manufacture(20, 50, 30) == 20
    ensures Distribute(100, 50) == 50 && Distribute(30, 50) == 30 && Distribute(0, 50) == 0
    ensures Retail(30, 50) == 30 && Retail(50, 30) == 30 && Retail(30, 0) == 0
  {
  }

  /** A forecaster with no history forecasts 30. */
  method InitialForecast() returns (f: int)
    ensures f == 30
  {
    var forecaster := new DemandForecast(5, 0.3, 0.1);
    f := forecaster.Forecast(1);
  }

  /**
   * After the demands 100, 110, 120, 130 and 140 the forecast is 125: the level is
   * about 123.76 and the trend about 2.12, which is below the range 130 to 150 the
   * test expects.
   */
  method ForecastWithHistory() returns (f: int)
    ensures f == 125
  {
    var forecaster := new DemandForecast(5, 0.3, 0.1);
    forecaster.Update(100.0);
    forecaster.Update(110.0);
    forecaster.Update(120.0);
    forecaster.Update(130.0);
    forecaster.Update(140.0);
    assert forecaster.estimate.level + forecaster.estimate.trend == 125.8872679;
    f := forecaster.Forecast(1);
  }

  /** Ten demands into a window of five leave five in the history, the last five. */
  method WindowSize() returns (history: seq<real>)
    ensures history == [5.0, 6.0, 7.0, 8.0, 9.0]
  {
    var forecaster := new DemandForecast(5, 0.3, 0.1);
    for i := 0 to 10
      invariant forecaster.Valid() && forecaster.window == 5
      invariant forecaster.observed == seq(i, k => k as real)
    {
      forecaster.Update(i as real);
      assert seq(i, k => k as real) + [i as real] == seq(i + 1, k => k as real);
    }
    history := forecaster.history;
    assert history == forecaster.observed[5..];
  }

  /** Demand 100 of which 80 is fulfilled: fill rate 80 percent, 20 backorders. */
  method FillRateAndBackorders() returns (m: Metrics)
    ensures m.fillRate == 80.0 && m.backorders == 20
  {
    var metrics := new PerformanceMetrics();
    metrics.UpdateFillRate(100, 80);
    m := metrics.CalculateMetrics();
  }

  /** With one inventory snapshot of 140 units and 80 fulfilled, the turnover is positive. */
  method InventoryTurnover() returns (m: Metrics)
    ensures m.inventoryTurnover > 0.0
  {
    var metrics := new PerformanceMetrics();
    metrics.UpdateFillRate(100, 80);
    var levels := [50, 30, 40, 20];
    assert [50, 30][..1] == [50] && [50, 30, 40][..2] == [50, 30] && levels[..3] == [50, 30, 40];
    assert Sum([50]) == 50;
    assert Sum([50, 30]) == 80;
    assert Sum([50, 30, 40]) == 120;
    assert Sum(levels) == 140;
    metrics.UpdateInventory(levels);
    assert Sum(metrics.inventoryHistory) == 140;
    TurnoverPositive(metrics);
    m := metrics.CalculateMetrics();
  }

  /** The test's daily cost: 300 + 375 + 100 + 400 + 200. */
  method CostCalculation() returns (dailyCosts: int)
    ensures dailyCosts == 1375
  {
    var manager := new CostManager(CostTable(10, 15, 5, 2, 20));
    var state := State(100, 0, 50, 30, 20, 0, 10, 0);
    dailyCosts := manager.CalculateCosts(state, 30, 25, 20);
  }
}
