/** Removal of the overlap between monthly uploads. Entries carry a key; within one upload equal
    keys form an ordered multiset, and across uploads each key keeps its largest multiplicity.
    The row canonicalization and the lot canonicalization are both this union. */
module Overlap {
  import opened Occurrences
  import opened Sequences
  import Wrappers

  datatype Entry<K, T> = Entry(key: K, value: T)

  datatype Upload<K, T> = Upload(id: int, date: int, entries: seq<Entry<K, T>>)

  /** One entry as a candidate representative, with the upload that reported it. */
  datatype Candidate<T> = Candidate(uploadId: int, date: int, value: T)

  /** One element of the union: its key, its occurrence number, and its representative. */
  datatype Member<K, T> = Member(key: K, occurrence: nat, source: Candidate<T>)

  ghost predicate DistinctIds<K, T>(uploads: seq<Upload<K, T>>) {
    forall i, j :: 0 <= i < j < |uploads| ==> uploads[i].id != uploads[j].id
  }

  /** The entries of one upload under one key, in source order. */
  function Under<K(==), T>(id: int, date: int, entries: seq<Entry<K, T>>, key: K): seq<Candidate<T>> {
    if entries == [] then [] else
      var last := entries[|entries| - 1];
      var before := Under(id, date, entries[..|entries| - 1], key);
      if last.key == key then before + [Candidate(id, date, last.value)] else before
  }

  function In<K(==), T>(u: Upload<K, T>, key: K): seq<Candidate<T>> { Under(u.id, u.date, u.entries, key) }

  /** The largest multiplicity of `key` in any one upload. */
  function MaxCount<K(==), T>(uploads: seq<Upload<K, T>>, key: K): nat {
    if uploads == [] then 0 else
      Wrappers.Max(MaxCount(uploads[..|uploads| - 1], key), |In(uploads[|uploads| - 1], key)|)
  }

  predicate Earlier<T>(a: Candidate<T>, b: Candidate<T>) {
    a.date < b.date || (a.date == b.date && a.uploadId <= b.uploadId)
  }

  /** `c` is the earliest report of occurrence `n` of `key`. */
  ghost predicate Represents<K, T>(uploads: seq<Upload<K, T>>, key: K, n: nat, c: Candidate<T>) {
    && (exists u | u in uploads :: n < |In(u, key)| && In(u, key)[n] == c)
    && (forall u | u in uploads && n < |In(u, key)| :: Earlier(c, In(u, key)[n]))
  }

  ghost predicate Has<K, T>(members: seq<Member<K, T>>, key: K, n: nat) {
    exists i | 0 <= i < |members| :: members[i].key == key && members[i].occurrence == n
  }

  ghost predicate Apart<K, T>(members: seq<Member<K, T>>) {
    forall i, j | 0 <= i < j < |members| ::
      members[i].key == members[j].key ==> members[i].occurrence != members[j].occurrence
  }

  /** `members` holds each (key, occurrence) below the largest multiplicity once, with the
      earliest upload's entry as its representative. */
  ghost predicate IsUnion<K(!new), T>(uploads: seq<Upload<K, T>>, members: seq<Member<K, T>>) {
    && Apart(members)
    && (forall i | 0 <= i < |members| :: Represents(uploads, members[i].key, members[i].occurrence, members[i].source))
    && (forall key, n: nat :: Has(members, key, n) <==> n < MaxCount(uploads, key))
  }

  // ---------------------------------------------------------------------------
  // The union as the services compute it
  // ---------------------------------------------------------------------------

  type Groups<K, T> = map<K, map<int, seq<Candidate<T>>>>

  ghost predicate Grouped<K(!new), T>(groups: Groups<K, T>, uploads: seq<Upload<K, T>>) {
    && (forall key, i | 0 <= i < |uploads| ::
          Lookup(Lookup(groups, key, map[]), uploads[i].id, []) == In(uploads[i], key))
    && (forall key | key in groups :: groups[key] != map[])
    && (forall key, id | key in groups && id in groups[key] ::
          groups[key][id] != [] && exists i | 0 <= i < |uploads| :: uploads[i].id == id)
  }

  /** The keys of some entries that come after `seen`, each where it first occurs. */
  ghost function AddKeys<K, T>(seen: seq<K>, entries: seq<Entry<K, T>>): seq<K> {
    if entries == [] then seen else
      AddNew(AddKeys(seen, entries[..|entries| - 1]), entries[|entries| - 1].key)
  }

  /** The uploads' keys in the order in which they are first reported. */
  ghost function KeysSeen<K, T>(uploads: seq<Upload<K, T>>): seq<K> {
    if uploads == [] then [] else AddKeys(KeysSeen(uploads[..|uploads| - 1]), uploads[|uploads| - 1].entries)
  }

  lemma {:induction false} AddKeysOnce<K, T>(seen: seq<K>, entries: seq<Entry<K, T>>)
    requires !Repeats(seen)
    ensures !Repeats(AddKeys(seen, entries))
  {
    if entries != [] { AddKeysOnce(seen, entries[..|entries| - 1]); }
  }

  lemma {:induction false} KeysSeenOnce<K, T>(uploads: seq<Upload<K, T>>)
    ensures !Repeats(KeysSeen(uploads))
  {
    if uploads != [] {
      KeysSeenOnce(uploads[..|uploads| - 1]);
      AddKeysOnce(KeysSeen(uploads[..|uploads| - 1]), uploads[|uploads| - 1].entries);
    }
  }

  /** Groups the entries by key and upload; `order` is the insertion order of the keys. */
  method Group<K(==, !new), T>(uploads: seq<Upload<K, T>>) returns (groups: Groups<K, T>, order: seq<K>)
    requires DistinctIds(uploads)
    ensures Grouped(groups, uploads)
    ensures order == KeysSeen(uploads) && forall key :: key in groups <==> key in order
  {
    groups, order := map[], [];
    for i := 0 to |uploads|
      invariant Grouped(groups, uploads[..i])
      invariant order == KeysSeen(uploads[..i]) && forall key :: key in groups <==> key in order
    {
      PrefixStep(uploads, i);
      groups, order := GroupUpload(groups, order, uploads[..i], uploads[i]);
      assert uploads[..i + 1] == uploads[..i] + [uploads[i]];
    }
    assert uploads[..|uploads|] == uploads;
  }

  method GroupUpload<K(==, !new), T>(
    groups: Groups<K, T>, order: seq<K>, ghost seen: seq<Upload<K, T>>, u: Upload<K, T>)
    returns (next: Groups<K, T>, keys: seq<K>)
    requires Grouped(groups, seen) && forall key :: key in groups <==> key in order
    requires forall i | 0 <= i < |seen| :: seen[i].id != u.id
    ensures Grouped(next, seen + [u])
    ensures keys == AddKeys(order, u.entries) && forall key :: key in next <==> key in keys
  {
    hide Grouped, In, Under, Lookup;
    next, keys := groups, order;
    NewId(groups, seen, u.id);
    assert u.(entries := u.entries[..0]) == Upload(u.id, u.date, []);
    for j := 0 to |u.entries|
      invariant Grouped(next, seen + [u.(entries := u.entries[..j])])
      invariant keys == AddKeys(order, u.entries[..j]) && forall key :: key in next <==> key in keys
    {
      PrefixStep(u.entries, j);
      var e := u.entries[j];
      ghost var before, after := u.(entries := u.entries[..j]), u.(entries := u.entries[..j + 1]);
      assert after.entries[..j] == before.entries;
      var byUpload := Lookup(next, e.key, map[]);
      var grown := next[e.key := byUpload[u.id := Lookup(byUpload, u.id, []) + [Candidate(u.id, u.date, e.value)]]];
      GroupEntry(next, grown, seen, before, after, e);
      if e.key !in next { keys := keys + [e.key]; }
      next := grown;
    }
    assert u.entries[..|u.entries|] == u.entries;
  }

  lemma {:induction false} NewId<K(!new), T>(groups: Groups<K, T>, seen: seq<Upload<K, T>>, id: int)
    requires Grouped(groups, seen)
    requires forall i | 0 <= i < |seen| :: seen[i].id != id
    ensures forall date :: Grouped(groups, seen + [Upload(id, date, [])])
  {
    forall date ensures Grouped(groups, seen + [Upload(id, date, [])]) {
      var all := seen + [Upload<K, T>.Upload(id, date, [])];
      forall key, i | 0 <= i < |all|
        ensures Lookup(Lookup(groups, key, map[]), all[i].id, []) == In(all[i], key)
      {
        if i < |seen| { assert all[i] == seen[i]; }
      }
      forall key, other | key in groups && other in groups[key]
        ensures exists i | 0 <= i < |all| :: all[i].id == other
      {
        var i :| 0 <= i < |seen| && seen[i].id == other;
        assert all[i].id == other;
      }
    }
  }

  function Reported<K(==), T>(id: int, date: int, e: Entry<K, T>, key: K): seq<Candidate<T>> {
    if e.key == key then [Candidate(id, date, e.value)] else []
  }

  lemma {:induction false} EntryStep<K(!new), T>(before: Upload<K, T>, after: Upload<K, T>, e: Entry<K, T>)
    requires after.id == before.id && after.date == before.date && after.entries == before.entries + [e]
    ensures forall key :: In(after, key) == In(before, key) + Reported(after.id, after.date, e, key)
  {
    assert after.entries[..|before.entries|] == before.entries;
  }

  lemma {:induction false} LookupGrown<K(!new), T>(
    groups: Groups<K, T>, grown: Groups<K, T>, after: Upload<K, T>, e: Entry<K, T>, key: K, id: int)
    requires
      var byUpload := Lookup(groups, e.key, map[]);
      grown == groups[e.key := byUpload[after.id := Lookup(byUpload, after.id, [])
        + [Candidate(after.id, after.date, e.value)]]]
    ensures Lookup(Lookup(grown, key, map[]), id, [])
      == Lookup(Lookup(groups, key, map[]), id, [])
         + if id == after.id then Reported(after.id, after.date, e, key) else []
  {
  }

  lemma {:induction false} GroupEntry<K(!new), T>(
    groups: Groups<K, T>, grown: Groups<K, T>, seen: seq<Upload<K, T>>,
    before: Upload<K, T>, after: Upload<K, T>, e: Entry<K, T>)
    requires Grouped(groups, seen + [before])
    requires after.id == before.id && after.date == before.date && after.entries == before.entries + [e]
    requires forall i | 0 <= i < |seen| :: seen[i].id != before.id
    requires
      var byUpload := Lookup(groups, e.key, map[]);
      grown == groups[e.key := byUpload[after.id := Lookup(byUpload, after.id, [])
        + [Candidate(after.id, after.date, e.value)]]]
    ensures Grouped(grown, seen + [after])
  {
    hide In, Reported, Lookup;
    EntryStep(before, after, e);
    var was, all := seen + [before], seen + [after];
    forall key, i | 0 <= i < |all|
      ensures Lookup(Lookup(grown, key, map[]), all[i].id, []) == In(all[i], key)
    {
      assert Lookup(Lookup(groups, key, map[]), was[i].id, []) == In(was[i], key);
      LookupGrown(groups, grown, after, e, key, all[i].id);
    }
    forall key | key in grown ensures grown[key] != map[] {
      assert key == e.key ==> after.id in grown[key];
    }
    forall key, id | key in grown && id in grown[key]
      ensures grown[key][id] != [] && exists i | 0 <= i < |all| :: all[i].id == id
    {
      GrownFiled(groups, grown, was, after, e, key, id);
      if id == after.id {
        assert all[|seen|].id == id;
      } else {
        var i :| 0 <= i < |was| && was[i].id == id;
        assert all[i].id == id;
      }
    }
  }

  lemma {:induction false} GrownFiled<K(!new), T>(
    groups: Groups<K, T>, grown: Groups<K, T>, was: seq<Upload<K, T>>, after: Upload<K, T>, e: Entry<K, T>, key: K,
    id: int)
    requires Grouped(groups, was) && key in grown && id in grown[key]
    requires
      var byUpload := Lookup(groups, e.key, map[]);
      grown == groups[e.key := byUpload[after.id := Lookup(byUpload, after.id, [])
        + [Candidate(after.id, after.date, e.value)]]]
    ensures grown[key][id] != []
    ensures id != after.id ==> exists i | 0 <= i < |was| :: was[i].id == id
  {
    hide In;
    assert id != after.id ==> key in groups && id in groups[key];
  }

  lemma {:induction false} MaxCountBounds<K, T>(uploads: seq<Upload<K, T>>, key: K)
    ensures forall i | 0 <= i < |uploads| :: |In(uploads[i], key)| <= MaxCount(uploads, key)
    ensures MaxCount(uploads, key) > 0 ==> exists i | 0 <= i < |uploads| ::
      |In(uploads[i], key)| == MaxCount(uploads, key)
  {
    if uploads != [] {
      var n := |uploads| - 1;
      MaxCountBounds(uploads[..n], key);
      if |In(uploads[n], key)| < MaxCount(uploads, key) {
        var i :| 0 <= i < n && |In(uploads[..n][i], key)| == MaxCount(uploads[..n], key);
        assert uploads[..n][i] == uploads[i];
      }
    }
  }

  method Multiplicity<T>(byUpload: map<int, seq<Candidate<T>>>) returns (m: nat)
    ensures forall id | id in byUpload :: |byUpload[id]| <= m
    ensures m > 0 ==> exists id | id in byUpload :: |byUpload[id]| == m
  {
    m := 0;
    var pending := byUpload.Keys;
    while pending != {}
      invariant pending <= byUpload.Keys
      invariant forall id | id in byUpload && id !in pending :: |byUpload[id]| <= m
      invariant m > 0 ==> exists id | id in byUpload :: |byUpload[id]| == m
      decreases |pending|
    {
      var id := Wrappers.PickId(pending);
      pending := pending - {id};
      m := Wrappers.Max(m, |byUpload[id]|);
    }
  }

  method Representative<T>(byUpload: map<int, seq<Candidate<T>>>, n: nat) returns (best: Candidate<T>)
    requires exists id | id in byUpload :: n < |byUpload[id]|
    ensures exists id | id in byUpload :: n < |byUpload[id]| && byUpload[id][n] == best
    ensures forall id | id in byUpload && n < |byUpload[id]| :: Earlier(best, byUpload[id][n])
  {
    var first :| first in byUpload && n < |byUpload[first]|;
    best := byUpload[first][n];
    var pending := byUpload.Keys;
    while pending != {}
      invariant pending <= byUpload.Keys
      invariant exists id | id in byUpload :: n < |byUpload[id]| && byUpload[id][n] == best
      invariant forall id | id in byUpload && id !in pending && n < |byUpload[id]| :: Earlier(best, byUpload[id][n])
      decreases |pending|
    {
      var id := Wrappers.PickId(pending);
      pending := pending - {id};
      if n < |byUpload[id]| && !Earlier(best, byUpload[id][n]) {
        best := byUpload[id][n];
      }
    }
  }

  lemma {:induction false} FiledEntries<K(!new), T>(
    groups: Groups<K, T>, uploads: seq<Upload<K, T>>, key: K, u: Upload<K, T>)
    requires Grouped(groups, uploads) && u in uploads && In(u, key) != []
    ensures key in groups && u.id in groups[key] && groups[key][u.id] == In(u, key)
  {
    hide In;
    var i :| 0 <= i < |uploads| && uploads[i] == u;
    assert Lookup(Lookup(groups, key, map[]), uploads[i].id, []) == In(uploads[i], key);
  }

  lemma {:induction false} FiledUpload<K(!new), T>(
    groups: Groups<K, T>, uploads: seq<Upload<K, T>>, key: K, id: int) returns (u: Upload<K, T>)
    requires Grouped(groups, uploads) && key in groups && id in groups[key]
    ensures u in uploads && u.id == id && In(u, key) == groups[key][id] != []
  {
    hide In;
    var i :| 0 <= i < |uploads| && uploads[i].id == id;
    assert Lookup(Lookup(groups, key, map[]), uploads[i].id, []) == In(uploads[i], key);
    u := uploads[i];
  }

  lemma {:induction false} SomeId<V>(m: map<int, V>) returns (id: int)
    requires m != map[]
    ensures id in m
  {
    assert exists x :: x in m by {
      if forall x :: x !in m { assert false; }
    }
    id :| id in m;
  }

  lemma {:induction false} SomeoneReports<K(!new), T>(uploads: seq<Upload<K, T>>, key: K)
    ensures MaxCount(uploads, key) > 0 <==> exists u | u in uploads :: In(u, key) != []
  {
    MaxCountBounds(uploads, key);
    hide In, MaxCount;
    if MaxCount(uploads, key) > 0 {
      var i :| 0 <= i < |uploads| && |In(uploads[i], key)| == MaxCount(uploads, key);
      assert uploads[i] in uploads;
    }
    if u :| u in uploads && In(u, key) != [] {
      var i :| 0 <= i < |uploads| && uploads[i] == u;
      assert |In(uploads[i], key)| <= MaxCount(uploads, key);
    }
  }

  lemma {:induction false} GroupOfKey<K(!new), T>(groups: Groups<K, T>, uploads: seq<Upload<K, T>>, key: K)
    requires Grouped(groups, uploads)
    ensures key in groups <==> MaxCount(uploads, key) > 0
    ensures key in groups ==> forall id | id in groups[key] ::
      groups[key][id] != [] && exists u :: u in uploads && u.id == id && In(u, key) == groups[key][id]
    ensures key in groups ==> forall u | u in uploads && In(u, key) != [] ::
      u.id in groups[key] && groups[key][u.id] == In(u, key)
  {
    hide In, MaxCount, Lookup;
    SomeoneReports(uploads, key);
    forall u | u in uploads && In(u, key) != []
      ensures key in groups && u.id in groups[key] && groups[key][u.id] == In(u, key)
    {
      FiledEntries(groups, uploads, key, u);
    }
    if key in groups {
      var some := SomeId(groups[key]);
      var reporter := FiledUpload(groups, uploads, key, some);
      hide Grouped;
      forall id | id in groups[key]
        ensures exists u :: u in uploads && u.id == id && In(u, key) == groups[key][id] != []
      {
        var u := FiledUpload(groups, uploads, key, id);
      }
    }
  }

  ghost predicate UnionSoFar<K(!new), T>(
    uploads: seq<Upload<K, T>>, members: seq<Member<K, T>>, pending: set<K>, current: K, count: nat)
  {
    && Apart(members)
    && (forall i | 0 <= i < |members| :: Represents(uploads, members[i].key, members[i].occurrence, members[i].source))
    && (forall key, n: nat :: Has(members, key, n) <==>
          if key == current then n < count else key !in pending && n < MaxCount(uploads, key))
  }

  lemma {:induction false} ExtendUnion<K(!new), T>(
    uploads: seq<Upload<K, T>>, members: seq<Member<K, T>>, pending: set<K>, key: K, n: nat, c: Candidate<T>)
    requires UnionSoFar(uploads, members, pending, key, n)
    requires Represents(uploads, key, n, c)
    ensures UnionSoFar(uploads, members + [Member(key, n, c)], pending, key, n + 1)
  {
    var next := members + [Member(key, n, c)];
    forall k, o: nat
      ensures Has(next, k, o) <==> Has(members, k, o) || (k == key && o == n)
    {
      if Has(members, k, o) {
        var i :| 0 <= i < |members| && members[i].key == k && members[i].occurrence == o;
        assert next[i] == members[i];
      }
      if k == key && o == n { assert next[|members|].key == key; }
    }
    forall i | 0 <= i < |members| && members[i].key == key ensures members[i].occurrence != n {
      if members[i].occurrence == n { assert Has(members, key, n); }
    }
  }

  /** All occurrences of one key, each with its earliest report. */
  method UnionOfKey<K(==, !new), T>(
    byUpload: map<int, seq<Candidate<T>>>, key: K, members: seq<Member<K, T>>,
    ghost uploads: seq<Upload<K, T>>, ghost groups: Groups<K, T>,
    ghost pending: set<K>)
    returns (next: seq<Member<K, T>>)
    requires Grouped(groups, uploads) && key in groups && groups[key] == byUpload
    requires UnionSoFar(uploads, members, pending, key, 0)
    ensures UnionSoFar(uploads, next, pending, key, MaxCount(uploads, key))
    ensures members <= next && NumbersKey(next[|members|..], key)
  {
    hide Grouped, UnionSoFar, Under, MaxCount, In;
    var multiplicity := Multiplicity(byUpload);
    GroupOfKey(groups, uploads, key);
    MaxCountBounds(uploads, key);
    assert multiplicity == MaxCount(uploads, key) by {
      var i :| 0 <= i < |uploads| && |In(uploads[i], key)| == MaxCount(uploads, key);
      assert uploads[i] in uploads;
    }
    next := members;
    for n := 0 to multiplicity
      invariant UnionSoFar(uploads, next, pending, key, n)
      invariant members <= next && |next| == |members| + n && NumbersKey(next[|members|..], key)
    {
      var best := Representative(byUpload, n);
      assert Represents(uploads, key, n, best);
      ExtendUnion(uploads, next, pending, key, n, best);
      next := next + [Member(key, n, best)];
    }
  }

  /** The overlap-free union of the uploads' entries. */
  method MaxUnion<K(==, !new), T>(uploads: seq<Upload<K, T>>) returns (members: seq<Member<K, T>>)
    requires DistinctIds(uploads)
    ensures IsUnion(uploads, members) && InOrderSeen(KeysSeen(uploads), members)
  {
    hide Grouped, In, Under, MaxCount, Represents, KeysSeen, InOrderSeen, NumbersKey, UnionBut, UnionSoFar, IsUnion;
    var groups, order := Group(uploads);
    KeysSeenOnce(uploads);
    members := [];
    ghost var pending := groups.Keys;
    NothingUnited(uploads, groups);
    assert InOrderSeen<K, T>(order[..0], []) by { NothingSeen<K, T>(order[..0]); }
    for i := 0 to |order|
      invariant forall key :: key in pending <==> key in order[i..]
      invariant UnionBut(uploads, members, pending) && InOrderSeen(order[..i], members)
    {
      var key := order[i];
      assert order[i..] == [key] + order[i + 1..];
      assert key !in order[i + 1..] by { assert forall j | i < j < |order| :: order[j] != order[i]; }
      StartKey(uploads, members, pending, key);
      var next := UnionOfKey(groups[key], key, members, uploads, groups, pending);
      FinishKey(uploads, next, pending, key);
      SeenNext(order, i, members, next);
      members, pending := next, pending - {key};
    }
    assert order[..|order|] == order && pending == {};
    AllUnited(uploads, members);
  }

  /** The union of every key outside `pending`. */
  ghost predicate UnionBut<K(!new), T>(uploads: seq<Upload<K, T>>, members: seq<Member<K, T>>, pending: set<K>) {
    && Apart(members)
    && (forall i | 0 <= i < |members| :: Represents(uploads, members[i].key, members[i].occurrence, members[i].source))
    && (forall key, n: nat :: Has(members, key, n) <==> key !in pending && n < MaxCount(uploads, key))
  }

  lemma {:induction false} NothingUnited<K(!new), T>(uploads: seq<Upload<K, T>>, groups: Groups<K, T>)
    requires Grouped(groups, uploads)
    ensures UnionBut(uploads, [], groups.Keys)
  {
    hide Grouped, MaxCount;
    forall key ensures key in groups <==> MaxCount(uploads, key) > 0 { GroupOfKey(groups, uploads, key); }
  }

  lemma {:induction false} StartKey<K(!new), T>(
    uploads: seq<Upload<K, T>>, members: seq<Member<K, T>>, pending: set<K>, key: K)
    requires UnionBut(uploads, members, pending) && key in pending
    ensures UnionSoFar(uploads, members, pending, key, 0)
  {
    hide MaxCount, Represents, Has;
  }

  lemma {:induction false} FinishKey<K(!new), T>(
    uploads: seq<Upload<K, T>>, members: seq<Member<K, T>>, pending: set<K>, key: K)
    requires UnionSoFar(uploads, members, pending, key, MaxCount(uploads, key))
    ensures UnionBut(uploads, members, pending - {key})
  {
    hide MaxCount, Represents, Has;
  }

  lemma {:induction false} AllUnited<K(!new), T>(uploads: seq<Upload<K, T>>, members: seq<Member<K, T>>)
    requires UnionBut(uploads, members, {})
    ensures IsUnion(uploads, members)
  {
    hide MaxCount, Represents, Has;
  }

  /** The members of one key, numbered from zero. */
  ghost predicate NumbersKey<K, T>(members: seq<Member<K, T>>, key: K) {
    forall n | 0 <= n < |members| :: members[n].key == key && members[n].occurrence == n
  }

  ghost predicate SeenBefore<K(!new)>(order: seq<K>, a: K, b: K) {
    exists p, q :: 0 <= p < q < |order| && order[p] == a && order[q] == b
  }

  ghost predicate Follows<K(!new)>(order: seq<K>, a: K, m: nat, b: K, n: nat) {
    SeenBefore(order, a, b) || (a == b && m < n)
  }

  /** The members come by key in the given order, and within one key by occurrence. */
  ghost predicate InOrderSeen<K(!new), T>(order: seq<K>, members: seq<Member<K, T>>) {
    && (forall i | 0 <= i < |members| :: members[i].key in order)
    && (forall i, j :: 0 <= i < j < |members| ==>
          Follows(order, members[i].key, members[i].occurrence, members[j].key, members[j].occurrence))
  }

  lemma {:induction false} NothingSeen<K(!new), T>(order: seq<K>)
    ensures InOrderSeen<K, T>(order, [])
  {
  }

  lemma {:induction false} SeenNext<K(!new), T>(
    order: seq<K>, i: nat, members: seq<Member<K, T>>, next: seq<Member<K, T>>)
    requires i < |order| && InOrderSeen(order[..i], members)
    requires members <= next && NumbersKey(next[|members|..], order[i])
    ensures InOrderSeen(order[..i + 1], next)
  {
    var before, after := order[..i], order[..i + 1];
    assert after == before + [order[i]];
    forall j | |members| <= j < |next| ensures next[j].key == order[i] && next[j].occurrence == j - |members| {
      assert next[|members|..][j - |members|] == next[j];
    }
    forall j, k | 0 <= j < k < |next|
      ensures Follows(after, next[j].key, next[j].occurrence, next[k].key, next[k].occurrence)
    {
      if k < |members| {
        assert Follows(before, members[j].key, members[j].occurrence, members[k].key, members[k].occurrence);
        if SeenBefore(before, members[j].key, members[k].key) {
          SeenLonger(before, order[i], members[j].key, members[k].key);
        }
      } else if j < |members| {
        var p :| 0 <= p < i && before[p] == members[j].key;
        assert after[p] == next[j].key && after[i] == next[k].key;
      }
    }
  }

  lemma {:induction false} SeenLonger<K(!new)>(order: seq<K>, more: K, a: K, b: K)
    requires SeenBefore(order, a, b)
    ensures SeenBefore(order + [more], a, b)
  {
    var p, q :| 0 <= p < q < |order| && order[p] == a && order[q] == b;
    assert (order + [more])[p] == a && (order + [more])[q] == b;
  }

  lemma {:induction false} SeenOneWay<K(!new)>(order: seq<K>, a: K, b: K)
    requires !Repeats(order) && SeenBefore(order, a, b)
    ensures !SeenBefore(order, b, a) && a != b
  {
  }
}
