/** Optional values and results with an error, as the source's `None`
    returns, raised exceptions and HTTP error responses are modelled. */
module Outcomes {

  datatype Option<+T> = None | Some(value: T)

  datatype Result<+T, +E> = Ok(value: T) | Err(error: E)

  /** Python truthiness of an optional string slot: present and non-empty. */
  predicate Present(s: Option<string>) {
    s.Some? && |s.value| > 0
  }
}
