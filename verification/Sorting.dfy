/** The library sort under a strict total order, as insertion. */
module Sorting {

  ghost predicate StrictTotalOrder<T(!new)>(less: (T, T) -> bool) {
    && (forall a :: !less(a, a))
    && (forall a, b :: less(a, b) || less(b, a) || a == b)
    && (forall a, b, c :: less(a, b) && less(b, c) ==> less(a, c))
  }

  predicate Sorted<T>(less: (T, T) -> bool, s: seq<T>) {
    forall i, j | 0 <= i < j < |s| :: less(s[i], s[j])
  }

  predicate AllDistinct<T(==)>(s: seq<T>) {
    forall i, j | 0 <= i < j < |s| :: s[i] != s[j]
  }

  function Insert<T>(less: (T, T) -> bool, sorted: seq<T>, x: T): seq<T> {
    if sorted != [] && less(sorted[0], x) then [sorted[0]] + Insert(less, sorted[1..], x)
    else [x] + sorted
  }

  function Sort<T>(less: (T, T) -> bool, s: seq<T>): seq<T> {
    if s == [] then [] else Insert(less, Sort(less, s[..|s| - 1]), s[|s| - 1])
  }

  lemma {:induction false} InsertAdds<T>(less: (T, T) -> bool, sorted: seq<T>, x: T)
    ensures multiset(Insert(less, sorted, x)) == multiset(sorted) + multiset{x}
  {
    if sorted != [] && less(sorted[0], x) {
      InsertAdds(less, sorted[1..], x);
      assert sorted == [sorted[0]] + sorted[1..];
    }
  }

  lemma {:induction false} InsertKeepsOrder<T(!new)>(less: (T, T) -> bool, sorted: seq<T>, x: T)
    requires StrictTotalOrder(less) && Sorted(less, sorted) && x !in sorted
    ensures Sorted(less, Insert(less, sorted, x))
  {
    if sorted != [] && less(sorted[0], x) {
      InsertKeepsOrder(less, sorted[1..], x);
      var rest := Insert(less, sorted[1..], x);
      InsertAdds(less, sorted[1..], x);
      forall y | y in rest ensures less(sorted[0], y) {
        assert y in multiset(rest);
        assert y == x || y in sorted[1..];
      }
    }
  }

  /** The sort orders the list and keeps every element with its multiplicity. */
  lemma {:induction false} SortSorts<T(!new)>(less: (T, T) -> bool, s: seq<T>)
    requires StrictTotalOrder(less) && AllDistinct(s)
    ensures Sorted(less, Sort(less, s))
    ensures multiset(Sort(less, s)) == multiset(s)
    ensures forall x :: x in Sort(less, s) <==> x in s
  {
    if s != [] {
      var front, last := s[..|s| - 1], s[|s| - 1];
      SortSorts(less, front);
      assert s == front + [last];
      InsertKeepsOrder(less, Sort(less, front), last);
      InsertAdds(less, Sort(less, front), last);
      assert forall x :: x in Sort(less, s) <==> x in multiset(Sort(less, s));
    }
  }

  /** Two sorted lists of the same elements are the same list. */
  lemma {:induction false} SortedIsUnique<T(!new)>(less: (T, T) -> bool, a: seq<T>, b: seq<T>)
    requires StrictTotalOrder(less) && Sorted(less, a) && Sorted(less, b)
    requires forall x :: x in a <==> x in b
    ensures a == b
  {
    assert (a != [] ==> a[0] in a) && (b != [] ==> b[0] in b);
    if a != [] && b != [] {
      assert a[0] in b && b[0] in a;
      assert a[0] == b[0];
      TailHasTheRest(less, a);
      TailHasTheRest(less, b);
      SortedIsUnique(less, a[1..], b[1..]);
      assert a == [a[0]] + a[1..] && b == [b[0]] + b[1..];
    }
  }

  lemma TailHasTheRest<T(!new)>(less: (T, T) -> bool, a: seq<T>)
    requires StrictTotalOrder(less) && Sorted(less, a) && a != []
    ensures forall x :: x in a[1..] <==> x in a && x != a[0]
  {
    assert a == [a[0]] + a[1..];
    assert forall i | 0 <= i < |a[1..]| :: less(a[0], a[1..][i]);
  }

  // ---------------------------------------------------------------- stable sort by a number

  function InsertByNumber<T>(number: T -> int, sorted: seq<T>, x: T): seq<T> {
    if sorted != [] && number(x) < number(sorted[|sorted| - 1])
    then InsertByNumber(number, sorted[..|sorted| - 1], x) + [sorted[|sorted| - 1]] else sorted + [x]
  }

  function SortByNumber<T>(number: T -> int, s: seq<T>): seq<T> {
    if s == [] then [] else InsertByNumber(number, SortByNumber(number, s[..|s| - 1]), s[|s| - 1])
  }

  lemma InsertLast<T>(number: T -> int, sorted: seq<T>, x: T)
    requires sorted != [] ==> number(sorted[|sorted| - 1]) <= number(x)
    ensures InsertByNumber(number, sorted, x) == sorted + [x]
  {}

  /** A list already numbered 1, 2, .. stays as it is. */
  lemma {:induction false} SortKeepsNumbered<T>(number: T -> int, s: seq<T>)
    requires forall i | 0 <= i < |s| :: number(s[i]) == i + 1
    ensures SortByNumber(number, s) == s
  {
    if s != [] {
      var n := |s| - 1;
      SortKeepsNumbered(number, s[..n]);
      InsertLast(number, s[..n], s[n]);
      assert s == s[..n] + [s[n]];
    }
  }
}
