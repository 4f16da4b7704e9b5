/** Insertion sort under a comparison, for the services' `sorted` and `order_by`: stable, so rows
    that compare equal keep their order. */
module Sorting {
  import Sequences

  function Insert<T>(less: (T, T) -> bool, sorted: seq<T>, x: T): seq<T> {
    if sorted == [] then [x] else
      var last := sorted[|sorted| - 1];
      if less(x, last) then Insert(less, sorted[..|sorted| - 1], x) + [last] else sorted + [x]
  }

  function Sort<T>(less: (T, T) -> bool, s: seq<T>): seq<T> {
    if s == [] then [] else Insert(less, Sort(less, s[..|s| - 1]), s[|s| - 1])
  }

  /** Nothing comes before something smaller. */
  ghost predicate IsSorted<T>(less: (T, T) -> bool, s: seq<T>) {
    forall i, j :: 0 <= i < j < |s| ==> !less(s[j], s[i])
  }

  ghost predicate IsWeakOrder<T(!new)>(less: (T, T) -> bool) {
    && (forall a, b :: less(a, b) ==> !less(b, a))
    && (forall a, b, c :: less(a, c) ==> less(a, b) || less(b, c))
  }

  lemma {:induction false} InsertKeeps<T>(less: (T, T) -> bool, sorted: seq<T>, x: T)
    ensures multiset(Insert(less, sorted, x)) == multiset(sorted) + multiset{x}
  {
    if sorted != [] {
      var front, last := sorted[..|sorted| - 1], sorted[|sorted| - 1];
      assert sorted == front + [last];
      if less(x, last) { InsertKeeps(less, front, x); }
    }
  }

  lemma {:induction false} SortKeeps<T>(less: (T, T) -> bool, s: seq<T>)
    ensures multiset(Sort(less, s)) == multiset(s)
    ensures |Sort(less, s)| == |s|
  {
    if s != [] {
      var front, last := s[..|s| - 1], s[|s| - 1];
      assert s == front + [last];
      SortKeeps(less, front);
      InsertKeeps(less, Sort(less, front), last);
    }
    assert |Sort(less, s)| == |multiset(Sort(less, s))|;
  }

  lemma {:induction false} SameElements<T>(a: seq<T>, b: seq<T>)
    requires multiset(a) == multiset(b)
    ensures forall x :: x in a <==> x in b
  {
    forall x ensures x in a <==> x in b {
      assert x in multiset(a) <==> x in multiset(b);
    }
  }

  /** Sorting keeps the elements. */
  lemma {:induction false} SortElements<T>(less: (T, T) -> bool, s: seq<T>)
    ensures forall x :: x in Sort(less, s) <==> x in s
  {
    SortKeeps(less, s);
    SameElements(Sort(less, s), s);
  }

  lemma {:induction false} SortElement<T>(less: (T, T) -> bool, s: seq<T>, x: T)
    ensures x in Sort(less, s) <==> x in s
  {
    SortElements(less, s);
  }

  lemma {:induction false} InsertedLast<T(!new)>(less: (T, T) -> bool, sorted: seq<T>, x: T)
    requires IsWeakOrder(less) && IsSorted(less, sorted) && sorted != [] && !less(x, sorted[|sorted| - 1])
    ensures IsSorted(less, sorted + [x])
  {
    var last := sorted[|sorted| - 1];
    forall i | 0 <= i < |sorted| ensures !less(x, sorted[i]) {
      assert i < |sorted| - 1 ==> !less(last, sorted[i]);
      Between(less, x, last, sorted[i]);
    }
  }

  lemma {:induction false} Between<T(!new)>(less: (T, T) -> bool, a: T, b: T, c: T)
    requires IsWeakOrder(less) && !less(a, b) && !less(b, c)
    ensures !less(a, c)
  {
  }

  lemma {:induction false} InsertSorts<T(!new)>(less: (T, T) -> bool, sorted: seq<T>, x: T)
    requires IsWeakOrder(less) && IsSorted(less, sorted)
    ensures IsSorted(less, Insert(less, sorted, x))
  {
    if sorted != [] {
      var front, last := sorted[..|sorted| - 1], sorted[|sorted| - 1];
      if less(x, last) {
        InsertSorts(less, front, x);
        InsertKeeps(less, front, x);
        NoneSmaller(less, front, Insert(less, front, x), x, last);
      } else {
        InsertedLast(less, sorted, x);
      }
    }
  }

  lemma {:induction false} NoneSmaller<T(!new)>(less: (T, T) -> bool, front: seq<T>, inserted: seq<T>, x: T, last: T)
    requires multiset(inserted) == multiset(front) + multiset{x}
    requires !less(last, x) && forall i :: 0 <= i < |front| ==> !less(last, front[i])
    ensures forall i :: 0 <= i < |inserted| ==> !less(last, inserted[i])
  {
    forall i | 0 <= i < |inserted| ensures !less(last, inserted[i]) {
      assert inserted[i] in multiset(inserted);
      if inserted[i] != x { var j :| 0 <= j < |front| && front[j] == inserted[i]; }
    }
  }

  lemma {:induction false} SortSorts<T(!new)>(less: (T, T) -> bool, s: seq<T>)
    requires IsWeakOrder(less)
    ensures IsSorted(less, Sort(less, s))
  {
    if s != [] {
      SortSorts(less, s[..|s| - 1]);
      InsertSorts(less, Sort(less, s[..|s| - 1]), s[|s| - 1]);
    }
  }

  ghost predicate Pairwise<T>(related: (T, T) -> bool, s: seq<T>) {
    forall i, j :: 0 <= i < j < |s| ==> related(s[i], s[j])
  }

  lemma {:induction false} InsertStable<T>(less: (T, T) -> bool, either: (T, T) -> bool, sorted: seq<T>, x: T)
    requires forall a, b :: less(a, b) ==> either(a, b)
    requires Pairwise(either, sorted) && forall y | y in sorted :: either(y, x)
    ensures Pairwise(either, Insert(less, sorted, x))
  {
    if sorted != [] {
      var front, last := sorted[..|sorted| - 1], sorted[|sorted| - 1];
      if less(x, last) {
        assert forall y | y in front :: y in sorted;
        InsertStable(less, either, front, x);
        InsertKeeps(less, front, x);
        var inserted := Insert(less, front, x);
        forall i | 0 <= i < |inserted| ensures either(inserted[i], last) {
          assert inserted[i] in multiset(inserted);
          if inserted[i] != x { var j :| 0 <= j < |front| && front[j] == inserted[i]; }
        }
      }
    }
  }

  /** Sorting is stable: with `either` the union of the comparison and a relation that the list's
      earlier elements have to its later ones, the sorted list has `either` throughout. */
  lemma {:induction false} SortStable<T>(less: (T, T) -> bool, either: (T, T) -> bool, s: seq<T>)
    requires forall a, b :: less(a, b) ==> either(a, b)
    requires Pairwise(either, s)
    ensures Pairwise(either, Sort(less, s))
  {
    if s != [] {
      var front, last := s[..|s| - 1], s[|s| - 1];
      SortStable(less, either, front);
      forall y | y in Sort(less, front) ensures either(y, last) {
        SortElement(less, front, y);
        var j :| 0 <= j < |front| && front[j] == y;
        assert s[j] == y;
      }
      InsertStable(less, either, Sort(less, front), last);
    }
  }

  /** A list in strict order is determined by its elements. */
  lemma {:induction false} StrictOrderUnique<T(!new)>(before: (T, T) -> bool, a: seq<T>, b: seq<T>)
    requires forall x, y :: before(x, y) ==> !before(y, x)
    requires Pairwise(before, a) && Pairwise(before, b) && forall x :: x in a <==> x in b
    ensures a == b
    decreases |a|
  {
    assert a != [] ==> a[0] in b;
    assert b != [] ==> b[0] in a;
    if a != [] {
      LastsAgree(before, a, b);
      var front, rest := a[..|a| - 1], b[..|b| - 1];
      FrontElements(before, a);
      FrontElements(before, b);
      StrictOrderUnique(before, front, rest);
      assert a == front + [a[|a| - 1]] && b == rest + [b[|b| - 1]];
    }
  }

  lemma {:induction false} LastsAgree<T(!new)>(before: (T, T) -> bool, a: seq<T>, b: seq<T>)
    requires forall x, y :: before(x, y) ==> !before(y, x)
    requires Pairwise(before, a) && Pairwise(before, b) && forall x :: x in a <==> x in b
    requires a != [] && b != []
    ensures a[|a| - 1] == b[|b| - 1]
  {
    var last, end := a[|a| - 1], b[|b| - 1];
    assert last in b && end in a;
    if last != end {
      BeforeLast(before, b, last);
      BeforeLast(before, a, end);
    }
  }

  lemma {:induction false} BeforeLast<T>(before: (T, T) -> bool, s: seq<T>, x: T)
    requires Pairwise(before, s) && x in s && x != s[|s| - 1]
    ensures before(x, s[|s| - 1])
  {
    var i :| 0 <= i < |s| && s[i] == x;
  }

  lemma {:induction false} FrontElements<T(!new)>(before: (T, T) -> bool, s: seq<T>)
    requires forall x, y :: before(x, y) ==> !before(y, x)
    requires Pairwise(before, s) && s != []
    ensures
      var front, last := s[..|s| - 1], s[|s| - 1];
      Pairwise(before, front) && forall x :: x in front <==> x in s && x != last
  {
    var front, last := s[..|s| - 1], s[|s| - 1];
    assert s == front + [last];
    forall x | x in front ensures x != last {
      var i :| 0 <= i < |front| && front[i] == x;
      assert before(s[i], last);
    }
  }

  /** A list without repetitions has none after sorting. */
  lemma {:induction false} SortApart<T>(less: (T, T) -> bool, s: seq<T>)
    requires !Sequences.Repeats(s)
    ensures !Sequences.Repeats(Sort(less, s))
  {
    var t := Sort(less, s);
    SortKeeps(less, s);
    forall i, j | 0 <= i < j < |t| ensures t[i] != t[j] {
      if t[i] == t[j] {
        TwiceCounted(t, i, j);
        OnceCounted(s, t[i]);
        assert false;
      }
    }
  }

  lemma {:induction false} TwiceCounted<T>(s: seq<T>, i: nat, j: nat)
    requires i < j < |s| && s[i] == s[j]
    ensures multiset(s)[s[i]] >= 2
  {
    assert s == s[..i] + [s[i]] + s[i + 1..j] + [s[j]] + s[j + 1..];
  }

  lemma {:induction false} OnceCounted<T>(s: seq<T>, x: T)
    requires !Sequences.Repeats(s)
    ensures multiset(s)[x] <= 1
  {
    if s != [] {
      var front := s[..|s| - 1];
      assert s == front + [s[|front|]];
      OnceCounted(front, x);
    }
  }

  /** Where two elements of the sorted list came from. */
  lemma {:induction false} SortSources<T>(less: (T, T) -> bool, s: seq<T>, i: nat, j: nat) returns (m: nat, n: nat)
    requires !Sequences.Repeats(s) && i < j < |Sort(less, s)|
    ensures m < |s| && n < |s| && m != n && s[m] == Sort(less, s)[i] && s[n] == Sort(less, s)[j]
  {
    SortApart(less, s);
    var t := Sort(less, s);
    SortElement(less, s, t[i]);
    SortElement(less, s, t[j]);
    m :| 0 <= m < |s| && s[m] == t[i];
    n :| 0 <= n < |s| && s[n] == t[j];
  }
}
