/**
 * The state of the supply chain that main.py keeps in a dictionary of eight named
 * integers, and the generic dictionary values that validate_state inspects.
 */
module ChainState {

  /** A value in a state dictionary; only numbers are checked for sign. */
  datatype Value = Number(n: real) | NonNumeric

  datatype State = State(
    supplierInventory: int,
    manufacturerCapacity: int,
    manufacturerInventory: int,
    distributorInventory: int,
    retailInventory: int,
    retailerCustomerDemand: int,
    backorders: int,
    forecastDemand: int)

  /** Every field of the state is non-negative. */
  predicate NonNegative(s: State)
  {
    && s.supplierInventory >= 0
    && s.manufacturerCapacity >= 0
    && s.manufacturerInventory >= 0
    && s.distributorInventory >= 0
    && s.retailInventory >= 0
    && s.retailerCustomerDemand >= 0
    && s.backorders >= 0
    && s.forecastDemand >= 0
  }

  /** The state the simulation starts from. */
  function Initial(): (s: State)
    ensures NonNegative(s)
    ensures s.manufacturerCapacity == 50 && s.distributorInventory <= 50
  {
    State(100, 50, 0, 50, 0, 40, 0, 40)
  }

  /** The state as the dictionary main.py builds, keys in insertion order. */
  function Items(s: State): seq<(string, Value)>
  {
    [ ("supplier_inventory", Number(s.supplierInventory as real)),
      ("manufacturer_capacity", Number(s.manufacturerCapacity as real)),
      ("manufacturer_inventory", Number(s.manufacturerInventory as real)),
      ("distributor_inventory", Number(s.distributorInventory as real)),
      ("retail_inventory", Number(s.retailInventory as real)),
      ("retailer_customer_demand", Number(s.retailerCustomerDemand as real)),
      ("backorders", Number(s.backorders as real)),
      ("forecast_demand", Number(s.forecastDemand as real)) ]
  }
}
