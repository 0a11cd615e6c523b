/**
 * The four allocation rules of the supply chain (agents.py). Each tool's `forward`
 * is a single `min` over its constraints; the tool classes themselves only carry
 * metadata for the agent framework, so each rule is a function here.
 */
module Agents {

  /** SupplyTool.forward: raw material shipped by the supplier. */
  function Supply(demand: int, inventory: int): (shipped: int)
    ensures shipped <= inventory && shipped <= demand
    ensures shipped == inventory || shipped == demand
    ensures demand >= 0 && inventory >= 0 ==> shipped >= 0
  {
    if demand < inventory then demand else inventory
  }

  /** ManufactureTool.forward: goods produced. */
  function Manufacture(rawMaterial: int, capacity: int, demand: int): (produced: int)
    ensures produced <= capacity && produced <= rawMaterial && produced <= demand
    ensures produced == capacity || produced == rawMaterial || produced == demand
    ensures rawMaterial >= 0 && capacity >= 0 && demand >= 0 ==> produced >= 0
  {
    var m := if rawMaterial < capacity then rawMaterial else capacity;
    if demand < m then demand else m
  }

  /** DistributeTool.forward: goods moved from the distributor to the retailer. */
  function Distribute(inventory: int, demand: int): (moved: int)
    ensures moved <= inventory && moved <= demand
    ensures moved == inventory || moved == demand
    ensures inventory >= 0 && demand >= 0 ==> moved >= 0
  {
    if demand < inventory then demand else inventory
  }

  /** RetailTool.forward: customer demand fulfilled from the retailer's stock. */
  function Retail(customerDemand: int, availableStock: int): (fulfilled: int)
    ensures fulfilled <= customerDemand && fulfilled <= availableStock
    ensures fulfilled == customerDemand || fulfilled == availableStock
    ensures customerDemand >= 0 && availableStock >= 0 ==> fulfilled >= 0
  {
    if availableStock < customerDemand then availableStock else customerDemand
  }

  /** No rule depends on the order in which its constraints are given. */
  lemma AllocationsAreSymmetric(a: int, b: int, c: int)
    ensures Supply(a, b) == Supply(b, a)
    ensures Manufacture(a, b, c) == Manufacture(b, a, c) == Manufacture(a, c, b)
    ensures Distribute(a, b) == Distribute(b, a)
    ensures Retail(a, b) == Retail(b, a)
  {
  }
}
