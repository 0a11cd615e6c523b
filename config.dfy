/**
 * Configuration of the simulation and the inventory-sizing helpers (config.py).
 * Each configuration section is a Python dict of option name to number.
 */
module Config {
  import opened Common
  import opened Dicts

  datatype ConfigError =
    | NonPositiveSteps
    | NegativeLeadTime
    | NegativeInventory(key: string)
    | AlphaOutOfRange
    | BetaOutOfRange
    | NegativeCost(costType: string)

  function DefaultSimulation(): Dict<real>
  {
    [("num_steps", 5.0), ("random_seed", 42.0), ("lead_time", 0.5)]
  }

  function DefaultInventory(): Dict<real>
  {
    [ ("initial_supplier", 100.0), ("initial_manufacturer", 0.0), ("initial_distributor", 50.0),
      ("initial_retail", 0.0), ("manufacturer_capacity", 50.0), ("safety_stock_factor", 0.2) ]
  }

  function DefaultDemand(): Dict<real>
  {
    [ ("initial", 30.0), ("min_variation", -5.0), ("max_variation", 5.0),
      ("forecast_window", 10.0), ("smoothing_alpha", 0.3), ("smoothing_beta", 0.1) ]
  }

  function DefaultCosts(): Dict<real>
  {
    [ ("raw_material", 10.0), ("manufacturing", 15.0), ("distribution", 5.0),
      ("holding", 2.0), ("backorder", 20.0) ]
  }

  function DefaultResupply(): Dict<real>
  {
    [("min_amount", 10.0), ("max_amount", 20.0)]
  }

  /** The inventory options whose sign is checked: names containing "initial" or "capacity". */
  predicate StockOption(key: string)
  {
    Contains(key, "initial") || Contains(key, "capacity")
  }

  predicate NegativeStock(key: string, value: real)
  {
    StockOption(key) && value < 0.0
  }

  predicate NegativeAmount(key: string, value: real)
  {
    value < 0.0
  }

  predicate InUnitInterval(x: real)
  {
    0.0 <= x <= 1.0
  }

  /** The options validate reads by name. */
  predicate HasRequiredOptions(simulation: Dict<real>, demand: Dict<real>)
  {
    && "num_steps" in Keys(simulation) && "lead_time" in Keys(simulation)
    && "smoothing_alpha" in Keys(demand) && "smoothing_beta" in Keys(demand)
  }

  /** Every range validate asserts holds. */
  ghost predicate Acceptable(simulation: Dict<real>, inventory: Dict<real>, demand: Dict<real>, costs: Dict<real>)
    requires HasRequiredOptions(simulation, demand)
  {
    && Lookup(simulation, "num_steps") > 0.0
    && Lookup(simulation, "lead_time") >= 0.0
    && (forall i :: 0 <= i < |inventory| ==> !NegativeStock(inventory[i].0, inventory[i].1))
    && InUnitInterval(Lookup(demand, "smoothing_alpha"))
    && InUnitInterval(Lookup(demand, "smoothing_beta"))
    && (forall i :: 0 <= i < |costs| ==> costs[i].1 >= 0.0)
  }

  /** The first assertion of validate that fails, in the order validate makes them. */
  function Diagnose(simulation: Dict<real>, inventory: Dict<real>, demand: Dict<real>, costs: Dict<real>)
    : (r: Outcome<ConfigError>)
    requires HasRequiredOptions(simulation, demand)
    ensures r.Pass? <==> Acceptable(simulation, inventory, demand, costs)
  {
    if Lookup(simulation, "num_steps") <= 0.0 then Fail(NonPositiveSteps)
    else if Lookup(simulation, "lead_time") < 0.0 then Fail(NegativeLeadTime)
    else match FirstMatch(inventory, NegativeStock)
      case Some(i) => Fail(NegativeInventory(inventory[i].0))
      case None =>
        if !InUnitInterval(Lookup(demand, "smoothing_alpha")) then Fail(AlphaOutOfRange)
        else if !InUnitInterval(Lookup(demand, "smoothing_beta")) then Fail(BetaOutOfRange)
        else match FirstMatch(costs, NegativeAmount)
          case Some(i) => Fail(NegativeCost(costs[i].0))
          case None => Pass
  }

  /** The section `name` after `d.update(newConfig[name])`, when `newConfig` names it. */
  function Section(current: Dict<real>, newConfig: Dict<Dict<real>>, name: string): Dict<real>
  {
    match Get(newConfig, name)
    case Some(values) => Merge(current, values)
    case None => current
  }

  /** Section `name` after handling one item of a new configuration. */
  function Apply(current: Dict<real>, item: (string, Dict<real>), name: string): Dict<real>
  {
    if item.0 == name then Merge(current, item.1) else current
  }

  /** Handling one more item of the new configuration, as the update loop does. */
  lemma {:induction false} SectionStep(current: Dict<real>, newConfig: Dict<Dict<real>>, i: nat, name: string)
    requires DistinctKeys(newConfig) && i < |newConfig|
    ensures Section(current, newConfig[..i + 1], name) == Apply(Section(current, newConfig[..i], name), newConfig[i], name)
  {
    var done := newConfig[..i];
    assert newConfig[..i + 1] == done + [newConfig[i]];
    GetSnoc(done, newConfig[i], name);
    if newConfig[i].0 == name {
      assert name !in Keys(done) by {
        forall j | 0 <= j < |done| ensures done[j].0 != name {
          assert done[j] == newConfig[j];
        }
      }
    }
  }

  /**
   * What `update` leaves in section `name`: an option that `newConfig` gives for the
   * section takes the given value; every other option keeps its value, or stays absent.
   */
  lemma SectionGet(current: Dict<real>, newConfig: Dict<Dict<real>>, name: string, key: string)
    requires forall i :: 0 <= i < |newConfig| ==> DistinctKeys(newConfig[i].1)
    ensures Get(Section(current, newConfig, name), key) ==
              match Get(newConfig, name)
              case Some(values) => if key in Keys(values) then Get(values, key) else Get(current, key)
              case None => Get(current, key)
  {
    match Get(newConfig, name)
    case Some(values) =>
      MergeGet(current, values, key);
    case None =>
  }

  class SupplyChainConfig {
    var simulation: Dict<real>
    var inventory: Dict<real>
    var demand: Dict<real>
    var costs: Dict<real>
    var resupply: Dict<real>

    ghost predicate Valid()
      reads this
    {
      && HasRequiredOptions(simulation, demand)
      && DistinctKeys(simulation) && DistinctKeys(inventory) && DistinctKeys(demand)
      && DistinctKeys(costs) && DistinctKeys(resupply)
    }

    constructor ()
      ensures Valid()
      ensures simulation == DefaultSimulation() && inventory == DefaultInventory()
      ensures demand == DefaultDemand() && costs == DefaultCosts() && resupply == DefaultResupply()
    {
      var sim, dem := DefaultSimulation(), DefaultDemand();
      assert sim[0].0 in Keys(sim) && sim[2].0 in Keys(sim);
      assert dem[4].0 in Keys(dem) && dem[5].0 in Keys(dem);
      simulation := sim;
      inventory := DefaultInventory();
      demand := dem;
      costs := DefaultCosts();
      resupply := DefaultResupply();
    }

    /**
     * For each section named in `newConfig` that is one of the five sections, overwrite
     * the options given and add the new ones; names of no section are ignored.
     */
    method Update(newConfig: Dict<Dict<real>>)
      requires Valid() && DistinctKeys(newConfig)
      modifies this
      ensures Valid()
      ensures simulation == Section(old(simulation), newConfig, "simulation")
      ensures inventory == Section(old(inventory), newConfig, "inventory")
      ensures demand == Section(old(demand), newConfig, "demand")
      ensures costs == Section(old(costs), newConfig, "costs")
      ensures resupply == Section(old(resupply), newConfig, "resupply")
    {
      for i := 0 to |newConfig|
        invariant Valid()
        invariant simulation == Section(old(simulation), newConfig[..i], "simulation")
        invariant inventory == Section(old(inventory), newConfig[..i], "inventory")
        invariant demand == Section(old(demand), newConfig[..i], "demand")
        invariant costs == Section(old(costs), newConfig[..i], "costs")
        invariant resupply == Section(old(resupply), newConfig[..i], "resupply")
      {
        SectionStep(old(simulation), newConfig, i, "simulation");
        SectionStep(old(inventory), newConfig, i, "inventory");
        SectionStep(old(demand), newConfig, i, "demand");
        SectionStep(old(costs), newConfig, i, "costs");
        SectionStep(old(resupply), newConfig, i, "resupply");
        var (section, values) := newConfig[i];
        if section == "simulation" {
          simulation := Merge(simulation, values);
        } else if section == "inventory" {
          inventory := Merge(inventory, values);
        } else if section == "demand" {
          demand := Merge(demand, values);
        } else if section == "costs" {
          costs := Merge(costs, values);
        } else if section == "resupply" {
          resupply := Merge(resupply, values);
        }
      }
      assert newConfig[..|newConfig|] == newConfig;
    }

    /** Run validate's assertions in order and report the first that fails. */
    method Validate() returns (r: Outcome<ConfigError>)
      requires Valid()
      ensures r == Diagnose(simulation, inventory, demand, costs)
    {
      if Lookup(simulation, "num_steps") <= 0.0 {
        return Fail(NonPositiveSteps);
      }
      if Lookup(simulation, "lead_time") < 0.0 {
        return Fail(NegativeLeadTime);
      }
      for i := 0 to |inventory|
        invariant forall j :: 0 <= j < i ==> !NegativeStock(inventory[j].0, inventory[j].1)
      {
        var (key, value) := inventory[i];
        if Contains(key, "initial") || Contains(key, "capacity") {
          if value < 0.0 {
            return Fail(NegativeInventory(key));
          }
        }
      }
      var alpha := Lookup(demand, "smoothing_alpha");
      if !(0.0 <= alpha <= 1.0) {
        return Fail(AlphaOutOfRange);
      }
      var beta := Lookup(demand, "smoothing_beta");
      if !(0.0 <= beta <= 1.0) {
        return Fail(BetaOutOfRange);
      }
      for i := 0 to |costs|
        invariant forall j :: 0 <= j < i ==> !NegativeAmount(costs[j].0, costs[j].1)
      {
        var (costType, cost) := costs[i];
        if cost < 0.0 {
          return Fail(NegativeCost(costType));
        }
      }
      return Pass;
    }
  }

  lemma DefaultLookups()
    ensures HasRequiredOptions(DefaultSimulation(), DefaultDemand())
    ensures Lookup(DefaultSimulation(), "num_steps") == 5.0
    ensures Lookup(DefaultSimulation(), "lead_time") == 0.5
    ensures Lookup(DefaultDemand(), "smoothing_alpha") == 0.3
    ensures Lookup(DefaultDemand(), "smoothing_beta") == 0.1
  {
    var sim, dem := DefaultSimulation(), DefaultDemand();
    assert sim[0].0 in Keys(sim) && sim[2].0 in Keys(sim);
    assert dem[4].0 in Keys(dem) && dem[5].0 in Keys(dem);
    assert Get(sim[1..], "lead_time") == Some(0.5);
    assert Get(dem[4..], "smoothing_alpha") == Some(0.3);
    assert Get(dem[5..], "smoothing_beta") == Some(0.1);
  }

  lemma DefaultStockNonNegative()
    ensures forall i :: 0 <= i < |DefaultInventory()| ==> !NegativeStock(DefaultInventory()[i].0, DefaultInventory()[i].1)
  {
  }

  lemma DefaultCostsNonNegative()
    ensures forall i :: 0 <= i < |DefaultCosts()| ==> DefaultCosts()[i].1 >= 0.0
  {
  }

  lemma DefaultsAreAcceptable()
    ensures HasRequiredOptions(DefaultSimulation(), DefaultDemand())
    ensures Diagnose(DefaultSimulation(), DefaultInventory(), DefaultDemand(), DefaultCosts()) == Pass
  {
    DefaultLookups();
    DefaultStockNonNegative();
    DefaultCostsNonNegative();
  }

  // ---------------------------------------------------------------------------
  // Inventory sizing
  // ---------------------------------------------------------------------------

  /** ReorderPointCalculator.calculate: expected lead-time demand plus safety stock, truncated. */
  function ReorderPoint(demandRate: real, leadTime: real, safetyStock: real): (r: int)
    ensures var x := demandRate * leadTime + safetyStock;
            (x >= 0.0 ==> r as real <= x < r as real + 1.0) && (x < 0.0 ==> r as real - 1.0 < x <= r as real)
  {
    Trunc(demandRate * leadTime + safetyStock)
  }

  /** With a non-negative lead time, a higher demand rate or safety stock never lowers the reorder point. */
  lemma ReorderPointMonotone(rate: real, rate': real, leadTime: real, stock: real, stock': real)
    requires 0.0 <= leadTime && rate <= rate' && stock <= stock'
    ensures ReorderPoint(rate, leadTime, stock) <= ReorderPoint(rate', leadTime, stock')
  {
    assert rate' * leadTime - rate * leadTime == (rate' - rate) * leadTime;
    ProductNonNegative(rate' - rate, leadTime);
    TruncMonotone(rate * leadTime + stock, rate' * leadTime + stock');
  }

  datatype OptimizerError = StatisticsUnavailable

  /**
   * SafetyStockOptimizer.calculate_safety_stock. A history of fewer than two demands
   * needs no safety stock. A longer one first imports `scipy.stats` for the z-score,
   * which raises when scipy is not installed; when it is, the next call, `np.std`,
   * raises, since config.py never imports numpy. Either way that branch raises.
   */
  function SafetyStock(demandHistory: seq<real>, leadTime: real): (r: Result<int, OptimizerError>)
    ensures r == Ok(0) <==> |demandHistory| < 2
    ensures r.Err? <==> |demandHistory| >= 2
  {
    if |demandHistory| < 2 then Ok(0) else Err(StatisticsUnavailable)
  }
}
