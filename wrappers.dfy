/** Optional values, used wherever the modelled code may produce nothing. */
module Wrappers {

  datatype Option<+T> = None | Some(value: T)

  /** The failure a `std::map::at` lookup of a missing key raises. */
  datatype Outcome = Done | OutOfRange
}
