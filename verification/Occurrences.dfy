/** Zero-based occurrence numbering: the counters that keep repeated source rows apart. */
module Occurrences {

  /** The number an occurrence counter hands to position `i`: how often `s[i]` came before it. */
  ghost function Occ<K>(s: seq<K>, i: nat): nat
    requires i < |s|
  {
    multiset(s[..i])[s[i]]
  }

  /** Later elements do not change an occurrence number. */
  lemma {:induction false} OccStable<K>(s: seq<K>, more: seq<K>, i: nat)
    requires i < |s|
    ensures Occ(s + more, i) == Occ(s, i)
  {
    assert (s + more)[..i] == s[..i];
  }

  lemma {:induction false} OccOfLast<K>(s: seq<K>, x: K)
    ensures Occ(s + [x], |s|) == multiset(s)[x]
  {
    assert (s + [x])[..|s|] == s;
  }

  lemma {:induction false} CountSplit<K>(s: seq<K>, i: nat, k: K)
    requires i <= |s|
    ensures multiset(s)[k] == multiset(s[..i])[k] + multiset(s[i..])[k]
  {
    assert s == s[..i] + s[i..];
  }

  lemma {:induction false} CountMonotone<K>(s: seq<K>, i: nat, j: nat, k: K)
    requires i <= j <= |s|
    ensures multiset(s[..i])[k] <= multiset(s[..j])[k] <= multiset(s)[k]
  {
    assert s[..j][..i] == s[..i];
    CountSplit(s[..j], i, k);
    CountSplit(s, j, k);
  }

  /** Two positions never receive the same (value, occurrence) pair. */
  lemma {:induction false} OccDistinct<K>(s: seq<K>, i: nat, j: nat)
    requires i < j < |s| && s[i] == s[j]
    ensures Occ(s, i) < Occ(s, j)
  {
    assert s[..i + 1] == s[..i] + [s[i]];
    CountMonotone(s, i + 1, j, s[j]);
  }

  /** Occurrence numbers stay below the multiplicity. */
  lemma {:induction false} OccBound<K>(s: seq<K>, i: nat)
    requires i < |s|
    ensures Occ(s, i) < multiset(s)[s[i]]
  {
    assert s[..i + 1] == s[..i] + [s[i]];
    CountMonotone(s, i + 1, |s|, s[i]);
    assert s[..|s|] == s;
  }

  /** Every number below the multiplicity is handed out, so numbering loses nothing. */
  lemma {:induction false} OccCovers<K>(s: seq<K>, k: K, n: nat) returns (i: nat)
    requires n < multiset(s)[k]
    ensures i < |s| && s[i] == k && Occ(s, i) == n
  {
    var last := |s| - 1;
    assert s == s[..last] + [s[last]];
    if n < multiset(s[..last])[k] {
      i := OccCovers(s[..last], k, n);
      assert s[..last][..i] == s[..i];
    } else {
      i := last;
    }
  }

  function Lookup<K, V>(m: map<K, V>, k: K, default: V): V { if k in m then m[k] else default }

  /** A counter dictionary that starts empty and is bumped once per element of `s`. */
  ghost predicate Counts<K(!new)>(counters: map<K, nat>, s: seq<K>) {
    forall k :: Lookup(counters, k, 0) == multiset(s)[k]
  }

  lemma {:induction false} CountsBump<K(!new)>(counters: map<K, nat>, s: seq<K>, k: K)
    requires Counts(counters, s)
    ensures Lookup(counters, k, 0) == multiset(s)[k] == Occ(s + [k], |s|)
    ensures Counts(counters[k := Lookup(counters, k, 0) + 1], s + [k])
  {
  }
}
