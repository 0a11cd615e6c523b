# Supply-chain simulation core in Dafny

A model of the deterministic core of a four-tier supply-chain demo: supplier,
manufacturer, distributor and retailer. The model covers:

- **Allocation rules** (agents.py): each tool's `forward` is a `min` over its
  constraints.
- **Support classes** (utils.py):
  - `DemandForecast`: a bounded demand history plus Holt's double exponential
    smoothing.
  - `PerformanceMetrics`: running accumulators and the snapshot derived from them.
  - `CostManager`: the weighted daily cost and its history.
  - `validate_state`: checks required keys and rejects negative values.
- **Simulation loop** (main.py): the per-step state transition of
  `run_simulation` and the loop around it.
- **Configuration** (config.py): section-wise `update`, the `validate` range
  checks, the reorder-point formula, and the reachable branch of the safety-stock
  calculation.

Modules:

| module | file | contents |
|---|---|---|
| `Common` | common.dfy | `Option`, `Outcome`, `Result`; Python's `max`, `min`, `int(float)` truncation, `sum`, and the substring test `in`. |
| `Dicts` | dicts.dfy | Python dicts keyed by strings, as insertion-ordered association lists: lookup, item assignment, `update`. |
| `Agents` | agents.dfy | The four allocation rules. |
| `ChainState` | state.dfy | The eight-field state record of main.py and its dictionary view. |
| `Utils` | utils.dfy | The forecaster, metrics and cost classes, and the state validator. |
| `Config` | config.dfy | The configuration class and the inventory-sizing helpers. |
| `Simulation` | simulation.dfy | The step as a specification function, the step as a method, and the loop. |
| `SupplyChainTests` | tests.dfy | The scenarios of test_supply_chain.py with the values the model gives. |

Each class whose fields the source updates in place is a Dafny `class`; its
methods state the new state in terms of the old one. Each one-shot computation is
a function with a contract; the properties that relate several operations are
lemmas.

Modelling decisions:

- **Randomness and prediction are inputs.** A step's predicted action label and
  its two `random.randint` draws are parameters of `Simulation.Step`. Their ranges
  are preconditions where a lemma depends on them.
- **The state is a record.** The state dictionary of main.py becomes the record
  `ChainState.State`. `Simulation.Step` reassigns its fields one statement at a
  time, in the order main.py does. `ChainState.Items` gives the same state as the
  dictionary that `validate_state` sees.
- **Source behaviour kept as written.** Two are worth knowing:
  - The supply action debits the supplier without crediting anyone.
  - The manufacture action credits the manufacturer's inventory without consuming
    raw material.

## Model

| member | source | states |
|---|---|---|
| Agents.Supply | agents.py:12-14 | The amount shipped is at most the demand and at most the inventory, and equals one of them. It is non-negative when both inputs are. |
| Agents.Manufacture | agents.py:26-28 | Production is at most each of raw material, capacity and demand, and equals one of them. It is non-negative when all three are. |
| Agents.Distribute | agents.py:39-41 | The amount moved is at most the inventory and at most the demand, and equals one of them. It is non-negative when both are. |
| Agents.Retail | agents.py:52-54 | The amount fulfilled is at most the customer demand and at most the available stock, and equals one of them. It is non-negative when both are. |
| Agents.AllocationsAreSymmetric | agents.py:12-54 | No rule depends on the order of its constraint arguments. |
| Common.Max | main.py:67 | `max(a, b)` is at least each argument and equals one of them. |
| Common.Min | main.py:84 | `min(a, b)` is at most each argument and equals one of them. |
| Common.Sum | utils.py:43 | `sum(xs)` of items that are all non-negative is non-negative. |
| Common.SumFromFront | utils.py:51 | Summing from the front gives the same total as summing from the back: a non-empty sum is its first item plus the sum of the rest. |
| Common.Trunc | utils.py:27 | `int(x)` truncates toward zero. For x ≥ 0 the result r is the integer with r ≤ x < r+1; for x < 0 it is the integer with r-1 < x ≤ r. |
| Common.Contains | config.py:53 | `sub in s` holds exactly when `sub` occurs in `s` at some position. |
| Dicts.Merge | config.py:45 | `d.update(o)`: the keys are those of `d` plus those of `o`. Existing keys keep their positions. Distinct keys stay distinct. |
| Dicts.MergeGet | config.py:45 | After `d.update(o)`, every key of `o` maps to its value in `o`. Every other key keeps its value in `d`, or stays absent. |
| Dicts.FirstMatch | utils.py:95-97 | Gives the position of the first item that fails a check, or none exactly when no item fails. No earlier item fails. |
| ChainState.Initial | main.py:41-50 | The initial state has no negative field, capacity 50, and a distributor stock within 50. |
| Utils.Append | utils.py:5-12 | Appending to a `deque(maxlen=n)` grows it by one until it holds n items, then keeps n. The result is the tail of the old contents followed by the new item. |
| Utils.AppendKeepsRecent | utils.py:5-12 | Appending to the last w observations gives the last w observations of the extended series. |
| Utils.DemandForecast.constructor | utils.py:4-9 | A new forecaster has an empty history and no estimate, and keeps its window and smoothing factors. |
| Utils.DemandForecast.Update | utils.py:11-20 | The history stays exactly the last `window` observations, in arrival order. The estimate advances by one Holt step: the first demand sets level := demand and trend := 0, and later demands apply the level and trend formulas. |
| Utils.SmoothedLevelBetween | utils.py:19 | With α in [0,1], the new level lies between the demand and the previous level plus trend. |
| Utils.SmoothedTrendBetween | utils.py:20 | With β in [0,1], the new trend lies between the level change and the previous trend. |
| Utils.SteadyDemandIsFixedPoint | utils.py:14-20 | A constant demand equal to the level, with zero trend, leaves the estimate unchanged. |
| Utils.DemandForecast.Forecast | utils.py:22-27 | Returns 30 before any observation. Otherwise, with p = level + k·trend, the forecast is the integer part of p when p ≥ 0 and 0 when p < 0, so it is never negative. |
| Utils.PerformanceMetrics.constructor | utils.py:30-35 | All accumulators start at zero and the inventory history starts empty. |
| Utils.PerformanceMetrics.UpdateFillRate | utils.py:37-40 | Adds demand, fulfilment and (demand − fulfilment) to the accumulators. Backorders always equal total demand minus fulfilled demand, and are not clamped at zero. |
| Utils.PerformanceMetrics.UpdateInventory | utils.py:42-44 | Appends exactly one entry, the sum of the snapshot's levels. |
| Utils.PerformanceMetrics.UpdateCosts | utils.py:46-47 | Adds the new costs to the running total. |
| Utils.PerformanceMetrics.CalculateMetrics | utils.py:49-60 | fill_rate·total = 100·fulfilled when total > 0, else 0. The average inventory times the history length is the history's sum, or 1 for an empty history. turnover·average = fulfilled when the average is > 0, else 0. Backorders and costs are passed through. Reading changes no field. |
| Utils.FillRateIsPercentage | utils.py:50 | When 0 ≤ fulfilled ≤ total, the fill rate lies in [0, 100]. |
| Utils.TurnoverPositive | utils.py:51-52 | Positive fulfilment and a positive inventory history give a positive turnover. |
| Utils.CostManager.constructor | utils.py:63-65 | A new cost manager keeps the cost table it was given and has an empty cost history. |
| Utils.CostManager.CalculateCosts | utils.py:67-77 | The daily cost is the weighted sum of supply, production, distribution, stock on hand and backorders. It is appended to the history, and earlier entries are unchanged. |
| Utils.DailyCostMonotone | utils.py:68-75 | With non-negative weights, more flow, stock or backorders never costs less. |
| Utils.DailyCostNonNegative | utils.py:68-75 | With non-negative weights and quantities, the daily cost is never negative. |
| Utils.ValidateState | utils.py:84-97 | Passes exactly when all four required keys are present and no numeric value is negative. A missing key reports the missing set. Otherwise the first negative value is reported with its key. |
| Utils.ItemsValidIffNonNegative | main.py:41-51 | The dictionary view of a state passes `validate_state` exactly when no field is negative. |
| Config.SupplyChainConfig.constructor | config.py:2-38 | Builds the five default sections. The options `validate` reads are present, and keys are distinct. |
| Config.SupplyChainConfig.Update | config.py:40-45 | Each of the five sections becomes its old contents updated with the values `new_config` gives for it. Names that are not sections are ignored. |
| Config.SectionStep | config.py:42-45 | Handling one more item of `new_config` changes only the section it names, by one `update`. |
| Config.SectionGet | config.py:40-45 | After `update`, an option given for a section has the given value. Every other option of that section keeps its value, or stays absent. |
| Config.Diagnose | config.py:47-60 | The configuration passes exactly when all of these hold: num_steps > 0; lead_time ≥ 0; no inventory option whose name contains "initial" or "capacity" is negative; α and β lie in [0,1]; no cost is negative. Options such as `safety_stock_factor` are not checked. |
| Config.SupplyChainConfig.Validate | config.py:47-60 | Makes the checks in validate's order and reports the first that fails, with the offending key or cost type. |
| Config.DefaultsAreAcceptable | config.py:2-60 | The default configuration passes `validate`. |
| Config.ReorderPoint | config.py:84-86 | The reorder point is rate·lead_time + safety_stock truncated toward zero. |
| Config.ReorderPointMonotone | config.py:84-86 | With a non-negative lead time, a higher demand rate or safety stock never lowers the reorder point. |
| Config.SafetyStock | config.py:66-75 | Returns 0 exactly when the history has fewer than two demands. Every longer history reaches the statistics branch, which raises. |
| Simulation.SupplyAction | main.py:66-69 | Only the supplier's stock changes, and it stays non-negative. The supplier ships at most the shortfall max(forecast − manufacturer stock, 0). It ships either the whole shortfall or everything it holds. So for a non-negative stock the debit is exactly min(stock, shortfall). |
| Simulation.ManufactureAction | main.py:73-80 | Only capacity and manufacturer stock change. Capacity spent equals goods made, and capacity stays non-negative. Output is at most each of capacity, stock held, and customer demand plus backorders, and equals one of them; that is, it is exactly their minimum. Non-negativity is kept. |
| Simulation.DistributeAction | main.py:83-92 | Only the manufacturer, distributor and retail stocks change, and their sum is conserved. The intake from the manufacturer is exactly min(manufacturer stock, 50 − distributor stock): at most each and equal to one. What moves to retail is exactly min(distributor stock after intake, customer demand + backorders). From a non-negative state with the distributor within 50, every stock stays non-negative, the distributor stays within 50, and retail stock never falls. |
| Simulation.UnknownLabelActsAsSupply | main.py:66-100 | Any label other than "supply", "manufacture" and "distribute" gives exactly the step that "supply" gives. |
| Simulation.StepKeepsSound | main.py:53-111 | Every step, whatever the label, keeps all fields non-negative and the distributor within 50. |
| Simulation.StepEnd | main.py:58-111 | After a step, the following hold: capacity is 50; the supplier holds the resupply on top of what the action left; customer demand lies in [35, 45]; the forecast is the one made at the step's start; backorders are unchanged. |
| Simulation.Step | main.py:57-111 | The loop body, written branch by branch with the fallback written out, equals the specified transition. So an unknown label acts exactly as "supply". The forecaster has observed the new customer demand and advanced its estimate. |
| Simulation.RunSimulation | main.py:12-120 | All fields stay non-negative and the distributor stays within 50 (the body also proves that the initial state passes `ValidateState`). Backorders stay 0. After at least one step, capacity is 50 and demand lies in [35, 45]. The metrics returned are those of an empty run, because the loop records none. |
| SupplyChainTests.AllocationExamples | test_supply_chain.py:12-60 | The twelve tool examples give the expected allocations. |
| SupplyChainTests.InitialForecast | test_supply_chain.py:66-68 | A fresh forecaster forecasts 30. |
| SupplyChainTests.ForecastWithHistory | test_supply_chain.py:70-77 | After demands 100, 110, 120, 130 and 140 the forecast is 125. |
| SupplyChainTests.WindowSize | test_supply_chain.py:79-84 | Ten demands into a window of five leave exactly the last five. |
| SupplyChainTests.FillRateAndBackorders | test_supply_chain.py:90-109 | Demand 100 with 80 fulfilled gives fill rate 80.0 and 20 backorders. |
| SupplyChainTests.InventoryTurnover | test_supply_chain.py:95-104 | The test's snapshot gives a positive turnover. |
| SupplyChainTests.CostCalculation | test_supply_chain.py:122-146 | The test's inputs cost 1375. |

## Left out

- **User interface.** SupplyChainDashboard.jsx, visualization.js and the React
  components are not part of this model; they draw sample data.
- **Prediction model.** automl_predictor.py and createModel.py are not part of this
  model. The label that `predict_action` returns is a parameter of each step.
- **Agent framework.** The smolagents objects (`Tool` metadata, `CodeAgent`,
  `HfApiModel`) only carry metadata, or are built and never used by the loop.
- **Output and waiting.** Printing, `print_state_changes` and `time.sleep` have no
  effect on the state.
- **Randomness.** `random.seed` and `random.randint` are replaced by the draws
  passed to each step. Their ranges [10, 20] and [-5, 5] appear as preconditions.
- **Float arithmetic.** Python floats are modelled as exact reals. Rounding error in
  the smoothing formulas and in the metrics is not modelled.
- Utils.PerformanceMetrics.CalculateMetrics: returns the values before `round(…, 2)`.
  Float rounding to two decimals is not modelled.
- Utils.PerformanceMetrics.UpdateInventory: takes the snapshot dictionary's values
  as a sequence, since only their sum is used.
- Utils.ValidateState: returns the error as data instead of raising `ValueError`,
  and leaves out the message text. Non-numeric values are one case,
  `ChainState.Value.NonNumeric`, since `validate_state` never checks them.
- Utils.CostManager.CalculateCosts: the cost table is a record of the five weights,
  not a dictionary. A missing weight, which would raise `KeyError`, cannot arise.
- Config.SupplyChainConfig.Update: only the five section names are recognised.
  - In Python, `hasattr` is also true for method and special attribute names.
    A method name such as `update` or `validate` fetches a bound method, which has no
    `update`, so Python raises `AttributeError`. The name `__dict__` updates the
    object's own attributes. The model ignores both kinds of name.
  - The new configuration and each of its sections are dictionaries, so keys are
    distinct (a precondition).
- Config.SupplyChainConfig.Validate:
  - A failed `assert` becomes a returned error.
  - Running Python with `-O`, which removes assertions, is not modelled.
  - The options it reads must be present. A configuration built by the constructor
    and changed only by `update` always has them; otherwise Python would raise
    `KeyError`.
- Config.SafetyStock: histories of two or more demands raise in either of two ways.
  The z-score first imports `scipy.stats`, which raises when scipy is not installed.
  When it is installed, the next call, `np.std`, raises because config.py never
  imports `numpy`. The model returns one error value for both; the z-score and the
  standard deviation themselves are not modelled.
- **InventoryOptimizer.** `InventoryOptimizer.optimize` and
  `_calculate_order_quantity` call `np.mean` and `np.sqrt` without importing
  numpy, so they raise on every input. They are not part of this model.
- **Main entry point.** The `__main__` block of main.py only seeds the generator and
  prints the result. RunSimulation takes the number of steps and the draws directly.
- **Failing test assertion.** The test that feeds demands 100, 110, 120, 130 and 140
  asserts 130 ≤ forecast ≤ 150. That assertion does not hold for this code: the
  forecast is 125, and SupplyChainTests.ForecastWithHistory states that value
  instead.
