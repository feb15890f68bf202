/** Failure-carrying results, and a fact about sequences, used throughout the model. */
module Wrappers {

  /** A value that may be absent: Python's `None`, a missing dictionary key, a failed parse. */
  datatype Option<+T> = None | Some(value: T)
  {
    function GetOr(default: T): T
    {
      match this
      case Some(v) => v
      case None => default
    }
  }

  /** A prefix one element longer is the prefix with that element appended. */
  lemma PrefixGrows<T>(s: seq<T>, i: int)
    requires 0 <= i < |s|
    ensures s[..i + 1] == s[..i] + [s[i]]
  {
  }
}
