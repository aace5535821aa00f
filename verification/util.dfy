/** Small shared datatypes. */
module Util {

  /** A value that may be absent: a dictionary key that is missing. */
  datatype Option<+T> = None | Some(value: T) {

    /** The value, or the given default when absent (Python's `dict.get(key, default)`). */
    function GetOr(default: T): T {
      match this
      case Some(v) => v
      case None => default
    }
  }

  /** Regrouping a concatenation, stated once so that loop proofs need not rediscover it. */
  lemma Associative<T>(a: seq<T>, b: seq<T>, c: seq<T>)
    ensures (a + b) + c == a + (b + c)
  {
  }
}
