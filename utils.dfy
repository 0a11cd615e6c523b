/**
 * Support classes of the simulation (utils.py): the demand forecaster, the running
 * performance metrics, the daily cost calculator and the state validator.
 */
module Utils {
  import opened Common
  import opened Dicts
  import opened ChainState

  // ---------------------------------------------------------------------------
  // DemandForecast
  // ---------------------------------------------------------------------------

  /** The last `w` values of `s` (all of them when there are fewer), oldest first. */
  function Recent(s: seq<real>, w: nat): seq<real>
  {
    if |s| <= w then s else s[|s| - w..]
  }

  /**
   * `history.append(x)` on a `deque(maxlen = maxlen)`: the new item goes to the
   * right and, when the deque is full, the oldest item falls off the left.
   */
  function Append(history: seq<real>, x: real, maxlen: nat): (r: seq<real>)
    requires |history| <= maxlen
    ensures |r| == if |history| < maxlen then |history| + 1 else maxlen
    ensures r == (history + [x])[|history| + 1 - |r|..]
  {
    if |history| < maxlen then history + [x] else (history + [x])[1..]
  }

  /** Appending to the most recent values gives the most recent values of the longer series. */
  lemma AppendKeepsRecent(s: seq<real>, x: real, w: nat)
    ensures |Recent(s, w)| <= w
    ensures Append(Recent(s, w), x, w) == Recent(s + [x], w)
  {
    var t := s + [x];
    if |s| < w {
    } else if |s| == w {
      assert Recent(t, w) == t[1..];
    } else {
      assert Recent(s, w) + [x] == t[|t| - w - 1..];
      assert (Recent(s, w) + [x])[1..] == t[|t| - w..];
    }
  }

  /** Holt's smoothed estimates; `Unset` until the first observation. */
  datatype Estimate = Unset | Holt(level: real, trend: real)

  /** One step of Holt's double exponential smoothing. */
  function Smooth(e: Estimate, demand: real, alpha: real, beta: real): Estimate
  {
    match e
    case Unset => Holt(demand, 0.0)
    case Holt(level, trend) =>
      var newLevel := alpha * demand + (1.0 - alpha) * (level + trend);
      Holt(newLevel, beta * (newLevel - level) + (1.0 - beta) * trend)
  }

  /** A weighted average with weight `w` in [0, 1] lies between its two ends. */
  lemma BlendBetween(w: real, x: real, y: real, b: real)
    requires 0.0 <= w <= 1.0 && b == w * x + (1.0 - w) * y
    ensures (x <= b <= y) || (y <= b <= x)
  {
    assert b == y + w * (x - y);
    var lo, hi := if x <= y then x else y, if x <= y then y else x;
    ProductNonNegative(w, hi - lo);
    ProductNonNegative(1.0 - w, hi - lo);
    assert w * (hi - lo) + (1.0 - w) * (hi - lo) == hi - lo;
  }

  /** With alpha in [0, 1] the new level lies between the demand and the projected level. */
  lemma SmoothedLevelBetween(level: real, trend: real, demand: real, alpha: real, beta: real)
    requires 0.0 <= alpha <= 1.0
    ensures var next := Smooth(Holt(level, trend), demand, alpha, beta).level;
            (demand <= next <= level + trend) || (level + trend <= next <= demand)
  {
    var next := Smooth(Holt(level, trend), demand, alpha, beta).level;
    assert next == alpha * demand + (1.0 - alpha) * (level + trend);
    BlendBetween(alpha, demand, level + trend, next);
  }

  /** With beta in [0, 1] the new trend lies between the level change and the old trend. */
  lemma SmoothedTrendBetween(level: real, trend: real, demand: real, alpha: real, beta: real)
    requires 0.0 <= beta <= 1.0
    ensures var next := Smooth(Holt(level, trend), demand, alpha, beta);
            var change := next.level - level;
            (change <= next.trend <= trend) || (trend <= next.trend <= change)
  {
    var next := Smooth(Holt(level, trend), demand, alpha, beta);
    var change := next.level - level;
    assert next.trend == beta * change + (1.0 - beta) * trend;
    BlendBetween(beta, change, trend, next.trend);
  }

  /** A demand that matches a flat estimate leaves the estimate unchanged. */
  lemma SteadyDemandIsFixedPoint(c: real, alpha: real, beta: real)
    ensures Smooth(Holt(c, 0.0), c, alpha, beta) == Holt(c, 0.0)
  {
    assert alpha * c + (1.0 - alpha) * (c + 0.0) == c;
  }

  class DemandForecast {
    const window: nat
    const alpha: real
    const beta: real
    /** The bounded demand history, oldest first. */
    var history: seq<real>
    var estimate: Estimate
    /** Every demand ever observed, oldest first. */
    ghost var observed: seq<real>

    /** The history holds exactly the `window` most recent observations, in arrival order. */
    ghost predicate Valid()
      reads this
    {
      history == Recent(observed, window)
    }

    constructor (windowSize: nat, alpha: real, beta: real)
      ensures Valid() && observed == [] && history == [] && estimate == Unset
      ensures window == windowSize && this.alpha == alpha && this.beta == beta
    {
      window := windowSize;
      this.alpha := alpha;
      this.beta := beta;
      history := [];
      estimate := Unset;
      observed := [];
    }

    method Update(actualDemand: real)
      requires Valid()
      modifies this
      ensures Valid()
      ensures observed == old(observed) + [actualDemand]
      ensures history == Append(old(history), actualDemand, window)
      ensures estimate == Smooth(old(estimate), actualDemand, alpha, beta)
    {
      AppendKeepsRecent(observed, actualDemand, window);
      history := Append(history, actualDemand, window);
      observed := observed + [actualDemand];
      match estimate {
        case Unset =>
          estimate := Holt(actualDemand, 0.0);
        case Holt(level, trend) =>
          var lastLevel := level;
          var newLevel := alpha * actualDemand + (1.0 - alpha) * (level + trend);
          estimate := Holt(newLevel, beta * (newLevel - lastLevel) + (1.0 - beta) * trend);
      }
    }

    /**
     * The demand expected `stepsAhead` steps on: 30 before any observation, otherwise
     * the projected level truncated to an integer and never below zero.
     */
    function Forecast(stepsAhead: int): (f: int)
      reads this
      ensures f >= 0
      ensures estimate.Unset? ==> f == 30
      ensures estimate.Holt? ==>
                var p := estimate.level + stepsAhead as real * estimate.trend;
                if p >= 0.0 then f as real <= p < f as real + 1.0 else f == 0
    {
      match estimate
      case Unset => 30
      case Holt(level, trend) => Max(Trunc(level + stepsAhead as real * trend), 0)
    }
  }

  // ---------------------------------------------------------------------------
  // PerformanceMetrics
  // ---------------------------------------------------------------------------

  /** The snapshot calculate_metrics returns (before rounding to two decimals). */
  datatype Metrics = Metrics(
    fillRate: real,
    inventoryTurnover: real,
    backorders: int,
    totalCosts: int,
    averageInventory: real)

  class PerformanceMetrics {
    var totalDemand: int
    var fulfilledDemand: int
    var backorders: int
    var inventoryHistory: seq<int>
    var totalCosts: int

    /** Backorders are the demand that has not been fulfilled (possibly negative). */
    ghost predicate Valid()
      reads this
    {
      backorders == totalDemand - fulfilledDemand
    }

    constructor ()
      ensures Valid()
      ensures totalDemand == 0 && fulfilledDemand == 0 && backorders == 0
      ensures inventoryHistory == [] && totalCosts == 0
    {
      totalDemand := 0;
      fulfilledDemand := 0;
      backorders := 0;
      inventoryHistory := [];
      totalCosts := 0;
    }

    method UpdateFillRate(demand: int, fulfilled: int)
      requires Valid()
      modifies this`totalDemand, this`fulfilledDemand, this`backorders
      ensures Valid()
      ensures totalDemand == old(totalDemand) + demand
      ensures fulfilledDemand == old(fulfilledDemand) + fulfilled
      ensures backorders == old(backorders) + (demand - fulfilled)
    {
      totalDemand := totalDemand + demand;
      fulfilledDemand := fulfilledDemand + fulfilled;
      backorders := backorders + (demand - fulfilled);
    }

    /** Record the total of one inventory snapshot; `levels` are the snapshot's values. */
    method UpdateInventory(levels: seq<int>)
      modifies this`inventoryHistory
      ensures inventoryHistory == old(inventoryHistory) + [Sum(levels)]
    {
      var totalInventory := Sum(levels);
      inventoryHistory := inventoryHistory + [totalInventory];
    }

    method UpdateCosts(newCosts: int)
      modifies this`totalCosts
      ensures totalCosts == old(totalCosts) + newCosts
    {
      totalCosts := totalCosts + newCosts;
    }

    /** The derived metrics; a function of the accumulators, so it changes nothing. */
    function CalculateMetrics(): (m: Metrics)
      reads this
      ensures m.backorders == backorders && m.totalCosts == totalCosts
      ensures totalDemand > 0 ==> m.fillRate * totalDemand as real == 100.0 * fulfilledDemand as real
      ensures totalDemand <= 0 ==> m.fillRate == 0.0
      ensures inventoryHistory != [] ==>
                m.averageInventory * |inventoryHistory| as real == Sum(inventoryHistory) as real
      ensures inventoryHistory == [] ==> m.averageInventory == 1.0
      ensures m.averageInventory > 0.0 ==>
                m.inventoryTurnover * m.averageInventory == fulfilledDemand as real
      ensures m.averageInventory <= 0.0 ==> m.inventoryTurnover == 0.0
    {
      var fillRate :=
        if totalDemand > 0 then fulfilledDemand as real / totalDemand as real * 100.0 else 0.0;
      var averageInventory :=
        if inventoryHistory != [] then Sum(inventoryHistory) as real / |inventoryHistory| as real
        else 1.0;
      var turnover := if averageInventory > 0.0 then fulfilledDemand as real / averageInventory else 0.0;
      Metrics(fillRate, turnover, backorders, totalCosts, averageInventory)
    }
  }

  /** While no more is fulfilled than demanded, the fill rate is a percentage. */
  lemma FillRateIsPercentage(p: PerformanceMetrics)
    requires 0 <= p.fulfilledDemand <= p.totalDemand
    ensures 0.0 <= p.CalculateMetrics().fillRate <= 100.0
  {
    var m := p.CalculateMetrics();
    if p.totalDemand > 0 {
      var t := p.totalDemand as real;
      assert m.fillRate * t <= 100.0 * t;
      assert m.fillRate * t >= 0.0;
    }
  }

  /** Positive fulfilment against a positive average inventory gives a positive turnover. */
  lemma TurnoverPositive(p: PerformanceMetrics)
    requires p.fulfilledDemand > 0
    requires p.inventoryHistory != [] && Sum(p.inventoryHistory) > 0
    ensures p.CalculateMetrics().inventoryTurnover > 0.0
  {
    var m := p.CalculateMetrics();
    var n := |p.inventoryHistory| as real;
    assert m.averageInventory * n > 0.0;
    assert m.averageInventory > 0.0;
    assert m.inventoryTurnover * m.averageInventory > 0.0;
  }

  // ---------------------------------------------------------------------------
  // CostManager
  // ---------------------------------------------------------------------------

  /** The per-unit weights of the cost table. */
  datatype CostTable = CostTable(
    rawMaterial: int,
    manufacturing: int,
    distribution: int,
    holding: int,
    backorder: int)

  predicate NonNegativeCosts(c: CostTable)
  {
    c.rawMaterial >= 0 && c.manufacturing >= 0 && c.distribution >= 0 && c.holding >= 0 && c.backorder >= 0
  }

  /** Units held across the four tiers. */
  function StockOnHand(s: State): int
  {
    s.supplierInventory + s.manufacturerInventory + s.distributorInventory + s.retailInventory
  }

  /** The weighted cost of one day's flows, holding and backorders. */
  function DailyCost(c: CostTable, s: State, supply: int, production: int, distribution: int): int
  {
    supply * c.rawMaterial + production * c.manufacturing + distribution * c.distribution
    + StockOnHand(s) * c.holding + s.backorders * c.backorder
  }

  lemma ScaleMonotone(a: int, b: int, w: int)
    requires a <= b && w >= 0
    ensures a * w <= b * w
  {
    assert b * w - a * w == (b - a) * w;
  }

  /** With non-negative weights, more flow, stock or backorders never costs less. */
  lemma DailyCostMonotone(c: CostTable, s: State, t: State, supply: int, production: int, distribution: int,
                          supply': int, production': int, distribution': int)
    requires NonNegativeCosts(c)
    requires supply <= supply' && production <= production' && distribution <= distribution'
    requires StockOnHand(s) <= StockOnHand(t) && s.backorders <= t.backorders
    ensures DailyCost(c, s, supply, production, distribution) <= DailyCost(c, t, supply', production', distribution')
  {
    ScaleMonotone(supply, supply', c.rawMaterial);
    ScaleMonotone(production, production', c.manufacturing);
    ScaleMonotone(distribution, distribution', c.distribution);
    ScaleMonotone(StockOnHand(s), StockOnHand(t), c.holding);
    ScaleMonotone(s.backorders, t.backorders, c.backorder);
  }

  /** With non-negative weights and quantities a day never costs less than nothing. */
  lemma DailyCostNonNegative(c: CostTable, s: State, supply: int, production: int, distribution: int)
    requires NonNegativeCosts(c) && NonNegative(s)
    requires supply >= 0 && production >= 0 && distribution >= 0
    ensures DailyCost(c, s, supply, production, distribution) >= 0
  {
    var zero := State(0, 0, 0, 0, 0, 0, 0, 0);
    assert DailyCost(c, zero, 0, 0, 0) == 0;
    DailyCostMonotone(c, zero, s, 0, 0, 0, supply, production, distribution);
  }

  class CostManager {
    const baseCosts: CostTable
    /** Every daily cost computed so far, oldest first. */
    var costHistory: seq<int>

    constructor (baseCosts: CostTable)
      ensures this.baseCosts == baseCosts && costHistory == []
    {
      this.baseCosts := baseCosts;
      costHistory := [];
    }

    method CalculateCosts(state: State, supply: int, production: int, distribution: int) returns (dailyCosts: int)
      modifies this`costHistory
      ensures dailyCosts == DailyCost(baseCosts, state, supply, production, distribution)
      ensures costHistory == old(costHistory) + [dailyCosts]
    {
      dailyCosts := DailyCost(baseCosts, state, supply, production, distribution);
      costHistory := costHistory + [dailyCosts];
    }
  }

  // ---------------------------------------------------------------------------
  // validate_state
  // ---------------------------------------------------------------------------

  const RequiredKeys: set<string> :=
    {"supplier_inventory", "manufacturer_capacity", "distributor_inventory", "retail_inventory"}

  datatype StateError = MissingKeys(missing: set<string>) | NegativeValue(key: string, value: real)

  /** A numeric entry below zero. */
  predicate NegativeNumber(key: string, value: Value)
  {
    value.Number? && value.n < 0.0
  }

  /** What validate_state accepts: all required keys, and no negative number anywhere. */
  ghost predicate ValidState(state: Dict<Value>)
  {
    RequiredKeys <= Keys(state) && forall i :: 0 <= i < |state| ==> !NegativeNumber(state[i].0, state[i].1)
  }

  method ValidateState(state: Dict<Value>) returns (r: Outcome<StateError>)
    ensures r.Pass? <==> ValidState(state)
    ensures !(RequiredKeys <= Keys(state)) ==> r == Fail(MissingKeys(RequiredKeys - Keys(state)))
    ensures RequiredKeys <= Keys(state) ==>
              match FirstMatch(state, NegativeNumber)
              case None => r == Pass
              case Some(i) => r == Fail(NegativeValue(state[i].0, state[i].1.n))
  {
    var keys := Keys(state);
    if !(RequiredKeys <= keys) {
      return Fail(MissingKeys(RequiredKeys - keys));
    }
    for i := 0 to |state|
      invariant forall j :: 0 <= j < i ==> !NegativeNumber(state[j].0, state[j].1)
    {
      var (key, value) := state[i];
      if value.Number? && value.n < 0.0 {
        return Fail(NegativeValue(key, value.n));
      }
    }
    return Pass;
  }

  /** The dictionary view of a state passes validate_state exactly when no field is negative. */
  lemma ItemsValidIffNonNegative(s: State)
    ensures ValidState(Items(s)) <==> NonNegative(s)
  {
    var d := Items(s);
    assert d[0].0 in Keys(d) && d[1].0 in Keys(d) && d[3].0 in Keys(d) && d[4].0 in Keys(d);
    if ValidState(d) {
      assert !NegativeNumber(d[0].0, d[0].1) && !NegativeNumber(d[1].0, d[1].1);
      assert !NegativeNumber(d[2].0, d[2].1) && !NegativeNumber(d[3].0, d[3].1);
      assert !NegativeNumber(d[4].0, d[4].1) && !NegativeNumber(d[5].0, d[5].1);
      assert !NegativeNumber(d[6].0, d[6].1) && !NegativeNumber(d[7].0, d[7].1);
    }
  }
}
