/**
 * One step of the simulation loop of main.py, and the loop itself. The action label
 * that the loop obtains from the AutoML predictor and the two random draws of each
 * step (the resupply amount and the demand variation) are parameters.
 */
module Simulation {
  import opened Common
  import opened Agents
  import opened ChainState
  import opened Utils

  /** The largest stock the distributor takes in. */
  const DistributorLimit := 50
  /** The capacity the manufacturer gets back at the end of each step. */
  const FullCapacity := 50
  /** The customer demand around which each step's new demand varies. */
  const BaseDemand := 40

  /**
   * The "supply" action: the supplier ships towards the manufacturer's shortfall
   * against the forecast and loses what it ships; nothing else changes.
   */
  function SupplyAction(s: State): (t: State)
    ensures t == s.(supplierInventory := t.supplierInventory)
    ensures t.supplierInventory >= 0
    ensures s.supplierInventory >= 0 ==> t.supplierInventory <= s.supplierInventory
    ensures t.supplierInventory == 0
         || s.supplierInventory - t.supplierInventory == Max(s.forecastDemand - s.manufacturerInventory, 0)
    ensures s.supplierInventory - t.supplierInventory <= Max(s.forecastDemand - s.manufacturerInventory, 0)
  {
    var manufacturerDemand := Max(s.forecastDemand - s.manufacturerInventory, 0);
    var supply := Supply(manufacturerDemand, s.supplierInventory);
    s.(supplierInventory := s.supplierInventory - supply)
  }

  /**
   * The "manufacture" action: the capacity spent equals the goods made, which go to
   * the manufacturer's inventory; the raw material used is not taken off it.
   */
  function ManufactureAction(s: State): (t: State)
    ensures t == s.(manufacturerCapacity := t.manufacturerCapacity, manufacturerInventory := t.manufacturerInventory)
    ensures s.manufacturerCapacity - t.manufacturerCapacity == t.manufacturerInventory - s.manufacturerInventory
    ensures t.manufacturerCapacity >= 0
    ensures t.manufacturerInventory - s.manufacturerInventory <= s.manufacturerInventory
    ensures t.manufacturerInventory - s.manufacturerInventory <= s.retailerCustomerDemand + s.backorders
    ensures var made := t.manufacturerInventory - s.manufacturerInventory;
            made == s.manufacturerCapacity || made == s.manufacturerInventory
            || made == s.retailerCustomerDemand + s.backorders
    ensures NonNegative(s) ==> NonNegative(t) && t.manufacturerCapacity <= s.manufacturerCapacity
  {
    var production := Manufacture(s.manufacturerInventory, s.manufacturerCapacity,
                                  s.retailerCustomerDemand + s.backorders);
    s.(manufacturerCapacity := s.manufacturerCapacity - production,
       manufacturerInventory := s.manufacturerInventory + production)
  }

  /**
   * The "distribute" action: the distributor takes goods from the manufacturer up to
   * its limit, then passes on to the retailer as much of the outstanding demand as it
   * holds. Goods move; none appear or vanish.
   */
  function DistributeAction(s: State): (t: State)
    ensures t == s.(manufacturerInventory := t.manufacturerInventory,
                    distributorInventory := t.distributorInventory,
                    retailInventory := t.retailInventory)
    ensures t.manufacturerInventory + t.distributorInventory + t.retailInventory
         == s.manufacturerInventory + s.distributorInventory + s.retailInventory
    ensures var intake := s.manufacturerInventory - t.manufacturerInventory;
            && intake <= s.manufacturerInventory && intake <= DistributorLimit - s.distributorInventory
            && (intake == s.manufacturerInventory || intake == DistributorLimit - s.distributorInventory)
    ensures var stocked := s.distributorInventory + (s.manufacturerInventory - t.manufacturerInventory);
            var moved := t.retailInventory - s.retailInventory;
            && moved <= stocked && moved <= s.retailerCustomerDemand + s.backorders
            && (moved == stocked || moved == s.retailerCustomerDemand + s.backorders)
    ensures NonNegative(s) && s.distributorInventory <= DistributorLimit ==>
              && NonNegative(t) && t.distributorInventory <= DistributorLimit
              && t.manufacturerInventory <= s.manufacturerInventory
              && t.retailInventory >= s.retailInventory
  {
    var intake := Min(s.manufacturerInventory, DistributorLimit - s.distributorInventory);
    var stocked := s.distributorInventory + intake;
    var retailSupply := Distribute(stocked, s.retailerCustomerDemand + s.backorders);
    s.(manufacturerInventory := s.manufacturerInventory - intake,
       distributorInventory := stocked - retailSupply,
       retailInventory := s.retailInventory + retailSupply)
  }

  /** The action the loop runs for a predicted label; any other label falls back to supply. */
  function Act(s: State, action: string): State
  {
    if action == "supply" then SupplyAction(s)
    else if action == "manufacture" then ManufactureAction(s)
    else if action == "distribute" then DistributeAction(s)
    else SupplyAction(s)
  }

  /** The end of each step: capacity reset, the supplier resupplied, a new customer demand. */
  function Restock(s: State, resupply: int, variation: int): State
  {
    s.(manufacturerCapacity := FullCapacity,
       supplierInventory := s.supplierInventory + resupply,
       retailerCustomerDemand := Max(BaseDemand + variation, 0))
  }

  /** A whole step, given the forecast made at its start. */
  function Transition(s: State, forecast: int, action: string, resupply: int, variation: int): State
  {
    Restock(Act(s.(forecastDemand := forecast), action), resupply, variation)
  }

  /** A label other than the three the loop knows acts exactly as "supply". */
  lemma UnknownLabelActsAsSupply(s: State, forecast: int, action: string, resupply: int, variation: int)
    requires action != "supply" && action != "manufacture" && action != "distribute"
    ensures Transition(s, forecast, action, resupply, variation) == Transition(s, forecast, "supply", resupply, variation)
  {
  }

  /** The draws of the random generator that one step takes: `randint(10, 20)` and `randint(-5, 5)`. */
  predicate InDrawRange(resupply: int, variation: int)
  {
    10 <= resupply <= 20 && -5 <= variation <= 5
  }

  /** What the loop keeps: no field is negative and the distributor is within its limit. */
  predicate Sound(s: State)
  {
    NonNegative(s) && s.distributorInventory <= DistributorLimit
  }

  /** Every step keeps every field non-negative and the distributor within its limit. */
  lemma StepKeepsSound(s: State, forecast: int, action: string, resupply: int, variation: int)
    requires Sound(s) && forecast >= 0 && InDrawRange(resupply, variation)
    ensures Sound(Transition(s, forecast, action, resupply, variation))
  {
  }

  /**
   * After a step, whatever the action: the capacity is full again, the supplier holds
   * the resupply on top of what the action left it, the customer demand lies in
   * [35, 45], the forecast is the one made at the start, and the backorders are
   * those the step started with.
   */
  lemma StepEnd(s: State, forecast: int, action: string, resupply: int, variation: int)
    requires InDrawRange(resupply, variation)
    ensures var t := Transition(s, forecast, action, resupply, variation);
            && t.manufacturerCapacity == FullCapacity
            && t.supplierInventory == Act(s.(forecastDemand := forecast), action).supplierInventory + resupply
            && BaseDemand - 5 <= t.retailerCustomerDemand <= BaseDemand + 5
            && t.forecastDemand == forecast
            && t.backorders == s.backorders
  {
  }

  /**
   * One pass of the loop body over the state: forecast, run the action the label names
   * (spelled out per branch as in main.py, including the fallback), reset and
   * resupply, and feed the new customer demand to the forecaster.
   */
  method Step(s: State, forecaster: DemandForecast, action: string, resupply: int, variation: int)
    returns (next: State)
    requires forecaster.Valid()
    modifies forecaster
    ensures forecaster.Valid()
    ensures next == Transition(s, old(forecaster.Forecast(1)), action, resupply, variation)
    ensures forecaster.observed == old(forecaster.observed) + [next.retailerCustomerDemand as real]
    ensures forecaster.estimate
         == Smooth(old(forecaster.estimate), next.retailerCustomerDemand as real, forecaster.alpha, forecaster.beta)
  {
    var state := s;
    state := state.(forecastDemand := forecaster.Forecast(1));
    if action == "supply" {
      var manufacturerDemand := Max(state.forecastDemand - state.manufacturerInventory, 0);
      var supply := Supply(manufacturerDemand, state.supplierInventory);
      state := state.(supplierInventory := state.supplierInventory - supply);
    } else if action == "manufacture" {
      var production := Manufacture(state.manufacturerInventory, state.manufacturerCapacity,
                                    state.retailerCustomerDemand + state.backorders);
      state := state.(manufacturerCapacity := state.manufacturerCapacity - production);
      state := state.(manufacturerInventory := state.manufacturerInventory + production);
    } else if action == "distribute" {
      var intake := Min(state.manufacturerInventory, DistributorLimit - state.distributorInventory);
      state := state.(manufacturerInventory := state.manufacturerInventory - intake);
      state := state.(distributorInventory := state.distributorInventory + intake);
      var retailSupply := Distribute(state.distributorInventory, state.retailerCustomerDemand + state.backorders);
      state := state.(distributorInventory := state.distributorInventory - retailSupply);
      state := state.(retailInventory := state.retailInventory + retailSupply);
    } else {
      var manufacturerDemand := Max(state.forecastDemand - state.manufacturerInventory, 0);
      var supply := Supply(manufacturerDemand, state.supplierInventory);
      state := state.(supplierInventory := state.supplierInventory - supply);
    }
    state := state.(manufacturerCapacity := FullCapacity);
    state := state.(supplierInventory := state.supplierInventory + resupply);
    state := state.(retailerCustomerDemand := Max(BaseDemand + variation, 0));
    forecaster.Update(state.retailerCustomerDemand as real);
    next := state;
  }

  /** The outside inputs of one step: the predicted action and the two random draws. */
  datatype Draw = Draw(action: string, resupply: int, variation: int)

  /**
   * run_simulation: validate the initial state, then run one step per draw. The loop
   * never records anything in its metrics, so the metrics it returns are those of
   * an empty run.
   */
  method RunSimulation(numSteps: int, draws: seq<Draw>) returns (result: Metrics, final: State)
    requires |draws| == Max(numSteps, 0)
    requires forall i :: 0 <= i < |draws| ==> InDrawRange(draws[i].resupply, draws[i].variation)
    ensures result == Metrics(0.0, 0.0, 0, 0, 1.0)
    ensures Sound(final) && final.backorders == 0
    ensures numSteps <= 0 ==> final == Initial()
    ensures numSteps > 0 ==>
              && final.manufacturerCapacity == FullCapacity
              && BaseDemand - 5 <= final.retailerCustomerDemand <= BaseDemand + 5
  {
    var forecaster := new DemandForecast(10, 0.3, 0.1);
    var metrics := new PerformanceMetrics();
    var state := Initial();
    ItemsValidIffNonNegative(state);
    var checked := ValidateState(Items(state));
    assert checked == Pass;
    for step := 0 to |draws|
      invariant forecaster.Valid() && Sound(state) && state.backorders == 0
      invariant step == 0 ==> state == Initial()
      invariant step > 0 ==>
                  && state.manufacturerCapacity == FullCapacity
                  && BaseDemand - 5 <= state.retailerCustomerDemand <= BaseDemand + 5
      invariant metrics.totalDemand == 0 && metrics.fulfilledDemand == 0 && metrics.backorders == 0
      invariant metrics.inventoryHistory == [] && metrics.totalCosts == 0
    {
      var draw := draws[step];
      var forecast := forecaster.Forecast(1);
      StepKeepsSound(state, forecast, draw.action, draw.resupply, draw.variation);
      StepEnd(state, forecast, draw.action, draw.resupply, draw.variation);
      state := Step(state, forecaster, draw.action, draw.resupply, draw.variation);
    }
    result := metrics.CalculateMetrics();
    final := state;
  }
}
