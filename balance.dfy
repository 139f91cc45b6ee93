/** The material balance rules shared by every variant of the planner:
    how much of a requirement supply cannot cover, and what is left in
    stock once a requirement has been drawn from it. */
module Balance {

  /** How much of a material a demand calls for: demand times usage rate. */
  function Requirement(demand: real, usageRate: real): real
  {
    demand * usageRate
  }

  /** A non-negative demand at a non-negative usage rate requires a
      non-negative amount. */
  lemma RequirementNonNegative(demand: real, usageRate: real)
    requires demand >= 0.0 && usageRate >= 0.0
    ensures Requirement(demand, usageRate) >= 0.0
  {
  }

  /** Shortage of a requirement against the available supply: the part of
      `required` that `available` does not cover, and 0 when it is covered. */
  function Shortfall(required: real, available: real): (shortage: real)
    ensures shortage >= 0.0 && shortage >= required - available
    ensures shortage == 0.0 || shortage == required - available
    ensures shortage == 0.0 <==> required <= available
  {
    if available < required then required - available else 0.0
  }

  /** Stock left after drawing `required` from `inventory`: the draw is capped
      at what is on hand, so the result is `max(0, inventory - required)`. */
  function Drawdown(inventory: real, required: real): (left: real)
    ensures left >= 0.0 && left >= inventory - required
    ensures left == 0.0 || left == inventory - required
    ensures inventory >= 0.0 && required >= 0.0 ==> left <= inventory
  {
    inventory - ActualUsage(inventory, required)
  }

  /** The draw actually taken from stock: `min(inventory, required)`. */
  function ActualUsage(inventory: real, required: real): (used: real)
    ensures used <= inventory && used <= required
    ensures used == inventory || used == required
  {
    if inventory <= required then inventory else required
  }
}
