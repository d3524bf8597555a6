/** Optional values and the outcome of a network request. */
module Wrappers {

  /** A value that may be absent (`undefined` / `null` in the source). */
  datatype Option<+T> = None | Some(value: T)

  /** What a request to a remote service produced: a failure (unreachable
      host, timeout, HTTP error status) or a received body. */
  datatype Fetch<+T> = Failed | Received(body: T)

  function Min(a: int, b: int): int
  {
    if a <= b then a else b
  }
}
