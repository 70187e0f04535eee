/** A few general notions shared by all parts. */
module Basics {

  datatype Option<+T> = None | Some(value: T)

  ghost predicate NoDuplicates<T>(xs: seq<T>) {
    forall i, j :: 0 <= i < j < |xs| ==> xs[i] != xs[j]
  }

  lemma DistinctTail<T>(p: seq<T>)
    requires NoDuplicates(p) && |p| > 0
    ensures NoDuplicates(p[1..]) && p[0] !in p[1..] && p == [p[0]] + p[1..]
  {
  }

  lemma DistinctSnoc<T>(p: seq<T>, x: T)
    requires NoDuplicates(p) && x !in p
    ensures NoDuplicates(p + [x])
  {
  }

  lemma DistinctCons<T>(x: T, p: seq<T>)
    requires NoDuplicates(p) && x !in p
    ensures NoDuplicates([x] + p)
  {
  }

  function Max(a: int, b: int): int {
    if a < b then b else a
  }

  function Min(a: int, b: int): int {
    if a < b then a else b
  }
}
