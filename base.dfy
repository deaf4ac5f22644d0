/** Values shared by every part of the translator model. */
module Base {

  /** A Java reference that may be `null`: `None` stands for `null`. */
  datatype Option<+T> = None | Some(value: T) {
    /** The value, or `default` for `null`. */
    function GetOr(default: T): T {
      match this
      case Some(v) => v
      case None => default
    }
  }

  /** A `java.util.UUID`: two 64-bit halves, compared by value. */
  datatype Uuid = Uuid(mostSigBits: int, leastSigBits: int)

  /** No element occurs twice (the iteration order of a Java `Set`). */
  predicate Distinct<T(==)>(s: seq<T>) {
    forall i, j :: 0 <= i < j < |s| ==> s[i] != s[j]
  }

  /** The elements of a sequence, as a set. */
  function Elements<T>(s: seq<T>): set<T> {
    set x | x in s
  }
}
