/** Facts about sequences that the services' lists rely on. */
module Sequences {

  lemma {:induction false} PrefixStep<T>(s: seq<T>, i: nat)
    requires i < |s|
    ensures s[..i + 1][..i] == s[..i] && s[..i + 1][i] == s[i] && s[..i + 1] == s[..i] + [s[i]]
  {
  }

  ghost predicate Repeats<T>(s: seq<T>) { exists i, j :: 0 <= i < j < |s| && s[i] == s[j] }

  lemma {:induction false} AppendNew<T>(s: seq<T>, x: T)
    requires !Repeats(s) && x !in s
    ensures !Repeats(s + [x])
  {
  }

  lemma {:induction false} FirstTwoDiffer<T>(s: seq<T>)
    requires !Repeats(s) && |s| > 1
    ensures s[0] in s && s[1] in s && s[0] != s[1]
  {
  }

  /** A list of distinct elements in the order in which they first turn up, after one more. */
  function AddNew<T(==)>(seen: seq<T>, x: T): seq<T> { if x in seen then seen else seen + [x] }

  /** A list without repetitions in which only `x` occurs is `[x]`. */
  lemma {:induction false} SoleElement<T>(s: seq<T>, x: T)
    requires !Repeats(s) && x in s && forall y | y in s :: y == x
    ensures s == [x]
  {
    if |s| > 1 {
      FirstTwoDiffer(s);
      assert false;
    }
  }
}
