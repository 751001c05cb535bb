/** Nullable columns, identifiers, time and distinct lists. */
module Basics {
  datatype Option<+T> = None | Some(value: T)

  /** An identifier; only equality means anything. */
  type Guid = int

  /** A UTC instant in seconds. */
  type Instant = int

  const MINUTE: int := 60
  const HOUR: int := 60 * MINUTE
  const DAY: int := 24 * HOUR

  /** The first occurrence of each element, in order. */
  function Distinct<T(==)>(s: seq<T>): seq<T> {
    if s == [] then []
    else
      var n := |s| - 1;
      if s[n] in s[..n] then Distinct(s[..n]) else Distinct(s[..n]) + [s[n]]
  }

  lemma {:induction false} DistinctKeeps<T>(s: seq<T>)
    ensures forall p :: p in Distinct(s) <==> p in s
    ensures forall i, j | 0 <= i < j < |Distinct(s)| :: Distinct(s)[i] != Distinct(s)[j]
  {
    if s != [] {
      var n := |s| - 1;
      DistinctKeeps(s[..n]);
      assert s == s[..n] + [s[n]];
    }
  }
}
