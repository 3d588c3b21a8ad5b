/** The orders and the sort that several components rely on. */
module Sorting {

  /** Byte-wise string order, as Go's `<` on strings. */
  predicate StringLess(a: string, b: string) {
    b != "" && (a == "" || a[0] < b[0] || (a[0] == b[0] && StringLess(a[1..], b[1..])))
  }

  lemma {:induction false} StringLessTrichotomy(a: string, b: string)
    ensures !(StringLess(a, b) && StringLess(b, a))
    ensures StringLess(a, b) || StringLess(b, a) || a == b
    ensures a == b ==> !StringLess(a, b)
  {
    if a != "" && b != "" {
      StringLessTrichotomy(a[1..], b[1..]);
      assert a == [a[0]] + a[1..] && b == [b[0]] + b[1..];
    }
  }

  lemma {:induction false} StringLessTransitive(a: string, b: string, c: string)
    requires StringLess(a, b) && StringLess(b, c)
    ensures StringLess(a, c)
  {
    if a != "" && a[0] == b[0] && b[0] == c[0] {
      StringLessTransitive(a[1..], b[1..], c[1..]);
    }
  }

  /** `before` is a strict order on the members of xs, and compares any two different ones. */
  ghost predicate StrictTotalOn<T(!new)>(before: (T, T) -> bool, xs: seq<T>) {
    && (forall x, y :: x in xs && y in xs && before(x, y) ==> !before(y, x))
    && (forall x, y :: x in xs && y in xs && x != y ==> before(x, y) || before(y, x))
    && (forall x, y, z :: x in xs && y in xs && z in xs && before(x, y) && before(y, z) ==> before(x, z))
  }

  ghost predicate SortedBy<T>(before: (T, T) -> bool, xs: seq<T>) {
    forall i, j :: 0 <= i < j < |xs| ==> xs[i] == xs[j] || before(xs[i], xs[j])
  }

  function Insert<T(==)>(x: T, xs: seq<T>, before: (T, T) -> bool): (r: seq<T>)
    ensures multiset(r) == multiset(xs) + multiset{x}
    ensures |r| == |xs| + 1
  {
    if xs == [] then [x]
    else if before(x, xs[0]) then [x] + xs
    else
      assert xs == [xs[0]] + xs[1..];
      [xs[0]] + Insert(x, xs[1..], before)
  }

  /** The library sort: a permutation, ordered when `before` is a strict total order. */
  function Sort<T(==,!new)>(xs: seq<T>, before: (T, T) -> bool): (r: seq<T>)
    ensures multiset(r) == multiset(xs)
    ensures |r| == |xs|
    ensures forall x :: x in r <==> x in xs
  {
    if xs == [] then []
    else
      assert xs == [xs[0]] + xs[1..];
      var r := Insert(xs[0], Sort(xs[1..], before), before);
      assert forall x :: x in r <==> x in multiset(r);
      r
  }

  lemma {:induction false} InsertSorted<T(!new)>(x: T, xs: seq<T>, before: (T, T) -> bool)
    requires StrictTotalOn(before, [x] + xs) && SortedBy(before, xs)
    ensures SortedBy(before, Insert(x, xs, before))
  {
    if xs != [] && !before(x, xs[0]) {
      var rest := Insert(x, xs[1..], before);
      assert StrictTotalOn(before, [x] + xs[1..]) by {
        assert forall y :: y in [x] + xs[1..] ==> y in [x] + xs;
      }
      InsertSorted(x, xs[1..], before);
      forall j | 0 <= j < |rest| ensures xs[0] == rest[j] || before(xs[0], rest[j]) {
        assert rest[j] in multiset(rest);
        if rest[j] != x {
          assert rest[j] in multiset(xs[1..]);
          assert rest[j] in xs[1..];
        } else {
          assert x in [x] + xs && xs[0] in [x] + xs;
        }
      }
    } else if xs != [] {
      forall j | 0 <= j < |xs| ensures before(x, xs[j]) {
        assert xs[j] in [x] + xs && xs[0] in [x] + xs && x in [x] + xs;
      }
    }
  }

  lemma {:induction false} SortSorted<T(!new)>(xs: seq<T>, before: (T, T) -> bool)
    requires StrictTotalOn(before, xs)
    ensures SortedBy(before, Sort(xs, before))
  {
    if xs != [] {
      var rest := Sort(xs[1..], before);
      assert forall y :: y in xs[1..] ==> y in xs;
      SortSorted(xs[1..], before);
      assert forall y :: y in [xs[0]] + rest ==> y in xs;
      InsertSorted(xs[0], rest, before);
    }
  }

  lemma SortedHead<T(!new)>(a: seq<T>, b: seq<T>, before: (T, T) -> bool)
    requires StrictTotalOn(before, a) && SortedBy(before, a) && SortedBy(before, b)
    requires a != [] && b != [] && a[0] in b && b[0] in a
    ensures a[0] == b[0]
  {
    var i :| 0 <= i < |b| && b[i] == a[0];
    var j :| 0 <= j < |a| && a[j] == b[0];
    assert a[0] in a && a[j] in a;
  }

  lemma TailOrdered<T(!new)>(a: seq<T>, before: (T, T) -> bool)
    requires a != [] && StrictTotalOn(before, a) && SortedBy(before, a)
    ensures StrictTotalOn(before, a[1..]) && SortedBy(before, a[1..])
  {
    assert forall y :: y in a[1..] ==> y in a;
  }

  lemma TailMultiset<T>(a: seq<T>)
    requires a != []
    ensures multiset(a[1..]) == multiset(a) - multiset{a[0]}
  {
    assert a == [a[0]] + a[1..];
  }

  lemma SameSize<T>(a: seq<T>, b: seq<T>)
    requires multiset(a) == multiset(b)
    ensures |a| == |b| && (a != [] ==> a[0] in b && b[0] in a)
  {
    assert |multiset(a)| == |a| && |multiset(b)| == |b|;
    if a != [] {
      assert a[0] in multiset(a) && b[0] in multiset(b);
    }
  }

  /** A sorted permutation is unique, so the sort does not depend on the input order. */
  lemma {:induction false} SortedUnique<T(!new)>(a: seq<T>, b: seq<T>, before: (T, T) -> bool)
    requires StrictTotalOn(before, a) && SortedBy(before, a) && SortedBy(before, b)
    requires multiset(a) == multiset(b)
    ensures a == b
  {
    SameSize(a, b);
    if a != [] {
      SortedHead(a, b, before);
      TailOrdered(a, before);
      TailMultiset(a);
      TailMultiset(b);
      SortedUnique(a[1..], b[1..], before);
      assert a == [a[0]] + a[1..] && b == [b[0]] + b[1..];
    }
  }

  predicate NoDuplicates<T(==)>(xs: seq<T>) {
    forall i, j :: 0 <= i < j < |xs| ==> xs[i] != xs[j]
  }

  lemma {:induction false} Once<T>(xs: seq<T>, x: T)
    requires NoDuplicates(xs)
    ensures multiset(xs)[x] == if x in xs then 1 else 0
  {
    if xs != [] {
      var front, last := xs[..|xs| - 1], xs[|xs| - 1];
      assert xs == front + [last];
      Once(front, x);
    }
  }

  lemma Twice<T>(xs: seq<T>, i: nat, j: nat)
    requires i < j < |xs| && xs[i] == xs[j]
    ensures multiset(xs)[xs[i]] >= 2
  {
    var before, after := xs[..j], xs[j..];
    assert xs == before + after;
    assert before[i] == xs[i] && after[0] == xs[i];
    assert multiset(before)[xs[i]] >= 1 && multiset(after)[xs[i]] >= 1;
  }

  /** A permutation repeats nothing that the original does not. */
  lemma NoDuplicatesPermuted<T>(xs: seq<T>, ys: seq<T>)
    requires NoDuplicates(xs) && multiset(xs) == multiset(ys)
    ensures NoDuplicates(ys)
  {
    forall i, j | 0 <= i < j < |ys| ensures ys[i] != ys[j] {
      if ys[i] == ys[j] {
        Twice(ys, i, j);
        Once(xs, ys[i]);
      }
    }
  }
}
