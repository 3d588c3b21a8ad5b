/** Small definitions that several components share. */
module Basics {

  datatype Option<+T> = None | Some(value: T)

  /** n brought into the range from nothing to `size`. */
  function Clamp(n: int, size: nat): nat {
    if n < 0 then 0 else if n < size then n else size
  }

  lemma SubsetSize<T>(a: set<T>, b: set<T>)
    requires a <= b
    ensures |a| <= |b| && (|a| == |b| ==> a == b)
  {
    assert b == a + (b - a);
  }
}
