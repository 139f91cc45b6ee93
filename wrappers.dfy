/** Failure-carrying results for the one lookup of the planner that throws. */
module Wrappers {

  /** Why a lookup failed: `usageRates.at(name)` on a commodity that lists
      a material without a usage rate for it. */
  datatype PlanError = MissingUsageRate(material: string)

  datatype Result<+T> = Ok(value: T) | Err(error: PlanError)
}
