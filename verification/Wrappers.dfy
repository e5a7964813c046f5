/** Result types and helpers shared by every module. */
module Wrappers {

  datatype Option<+T> = None | Some(value: T)

  datatype Result<+R, +E> = Success(value: R) | Failure(error: E)

  function Max(a: nat, b: nat): nat {
    if a < b then b else a
  }

  /** `Vec::truncate`: keeps the first `n` elements, and is the identity when there are fewer. */
  function Truncate<T>(s: seq<T>, n: nat): seq<T> {
    if n < |s| then s[..n] else s
  }
}
