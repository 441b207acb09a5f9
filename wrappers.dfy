/** Option and Result, for values Java may leave null and for failures it throws. */
module Wrappers {
  datatype Option<+T> = None | Some(value: T)

  datatype Result<+T, +E> = Success(value: T) | Failure(error: E)
}

/** Qub's PreCondition checks: a failed check throws a PreConditionFailure
    whose message names the offending parameter. */
module PreCondition {
  datatype PreConditionFailure = PreConditionFailure(message: string)

  /** The failure of PreCondition.assertNotNull(value, name). */
  function CannotBeNull(name: string): PreConditionFailure
  {
    PreConditionFailure(name + " cannot be null.")
  }

  /** The failure of the emptiness half of PreCondition.assertNotNullAndNotEmpty. */
  function CannotBeEmpty(name: string): PreConditionFailure
  {
    PreConditionFailure(name + " cannot be empty.")
  }
}
