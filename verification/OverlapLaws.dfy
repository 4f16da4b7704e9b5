/** What the overlap-free union means, for any uploads with distinct ids: it is the
    max-multiset union, and it depends on the uploads as a set. */
module OverlapLaws {
  import opened Overlap

  ghost function KeysOf<K, T>(members: seq<Member<K, T>>): seq<K> {
    if members == [] then [] else KeysOf(members[..|members| - 1]) + [members[|members| - 1].key]
  }

  ghost function ValuesOf<K, T>(members: seq<Member<K, T>>): (vs: seq<T>)
    ensures |vs| == |members|
    ensures forall i | 0 <= i < |vs| :: vs[i] == members[i].source.value
  {
    if members == [] then [] else ValuesOf(members[..|members| - 1]) + [members[|members| - 1].source.value]
  }

  /** The occurrence numbers under which `key` appears. */
  ghost function Numbers<K(!new), T>(members: seq<Member<K, T>>, key: K): set<nat> {
    if members == [] then {} else
      var last := members[|members| - 1];
      Numbers(members[..|members| - 1], key) + if last.key == key then {last.occurrence} else {}
  }

  lemma {:induction false} NumbersAreHeld<K(!new), T>(members: seq<Member<K, T>>, key: K, n: nat)
    ensures n in Numbers(members, key) <==> Has(members, key, n)
  {
    if members != [] {
      var last := |members| - 1;
      NumbersAreHeld(members[..last], key, n);
      if Has(members, key, n) {
        var i :| 0 <= i < |members| && members[i].key == key && members[i].occurrence == n;
        if i < last { assert members[..last][i] == members[i]; }
      }
      if Has(members[..last], key, n) {
        var i :| 0 <= i < last && members[..last][i].key == key && members[..last][i].occurrence == n;
        assert members[i] == members[..last][i];
      }
    }
  }

  lemma {:induction false} LastIsNew<K(!new), T>(members: seq<Member<K, T>>)
    requires Apart(members) && members != []
    ensures
      var front, last := members[..|members| - 1], members[|members| - 1];
      Apart(front) && !Has(front, last.key, last.occurrence)
  {
    var front, last := members[..|members| - 1], members[|members| - 1];
    forall i | 0 <= i < |front| ensures front[i].key != last.key || front[i].occurrence != last.occurrence {
      assert front[i] == members[i];
    }
  }

  lemma {:induction false} CountIsNumbers<K(!new), T>(members: seq<Member<K, T>>, key: K)
    requires Apart(members)
    ensures multiset(KeysOf(members))[key] == |Numbers(members, key)|
  {
    hide Apart, Has;
    if members != [] {
      var front, last := members[..|members| - 1], members[|members| - 1];
      LastIsNew(members);
      CountIsNumbers(front, key);
      NumbersAreHeld(front, last.key, last.occurrence);
    }
  }

  /** The numbers below `m`. */
  ghost function Below(m: nat): set<nat> {
    if m == 0 then {} else Below(m - 1) + {m - 1}
  }

  lemma {:induction false} InBelow(m: nat, n: nat)
    ensures n in Below(m) <==> n < m
  {
    if m > 0 { InBelow(m - 1, n); }
  }

  lemma {:induction false} BelowCount(m: nat)
    ensures |Below(m)| == m
  {
    if m > 0 {
      BelowCount(m - 1);
      InBelow(m - 1, m - 1);
    }
  }

  /** The union is the max-multiset union: each key occurs exactly as often as in the upload
      that has it most. */
  lemma {:induction false} UnionCounts<K(!new), T>(uploads: seq<Upload<K, T>>, members: seq<Member<K, T>>, key: K)
    requires IsUnion(uploads, members)
    ensures multiset(KeysOf(members))[key] == MaxCount(uploads, key)
  {
    CountIsNumbers(members, key);
    forall n: nat ensures n in Numbers(members, key) <==> n in Below(MaxCount(uploads, key)) {
      NumbersAreHeld(members, key, n);
      InBelow(MaxCount(uploads, key), n);
    }
    BelowCount(MaxCount(uploads, key));
    assert Numbers(members, key) == Below(MaxCount(uploads, key));
  }

  lemma {:induction false} UnderSource<K, T>(id: int, date: int, entries: seq<Entry<K, T>>, key: K, n: nat)
    requires n < |Under(id, date, entries, key)|
    ensures
      var c := Under(id, date, entries, key)[n];
      c.uploadId == id && c.date == date && Entry(key, c.value) in entries
  {
    var last := |entries| - 1;
    var before := Under(id, date, entries[..last], key);
    if n < |before| {
      UnderSource(id, date, entries[..last], key, n);
    } else {
      assert entries[last] == Entry(key, entries[last].value);
    }
  }

  /** A representative is a reported entry of its key. */
  lemma {:induction false} RepresentativeReported<K, T>(
    uploads: seq<Upload<K, T>>, key: K, n: nat, c: Candidate<T>) returns (u: Upload<K, T>)
    requires Represents(uploads, key, n, c)
    ensures u in uploads && u.id == c.uploadId && u.date == c.date && Entry(key, c.value) in u.entries
    ensures n < |In(u, key)| && In(u, key)[n] == c
  {
    u :| u in uploads && n < |In(u, key)| && In(u, key)[n] == c;
    UnderSource(u.id, u.date, u.entries, key, n);
  }

  lemma {:induction false} RepresentativeUnique<K, T>(
    uploads: seq<Upload<K, T>>, key: K, n: nat, a: Candidate<T>, b: Candidate<T>)
    requires DistinctIds(uploads) && Represents(uploads, key, n, a) && Represents(uploads, key, n, b)
    ensures a == b
  {
    var u := RepresentativeReported(uploads, key, n, a);
    var v := RepresentativeReported(uploads, key, n, b);
    assert u.id == v.id;
    var i :| 0 <= i < |uploads| && uploads[i] == u;
    var j :| 0 <= j < |uploads| && uploads[j] == v;
  }

  ghost predicate SameUploads<K(!new), T(!new)>(a: seq<Upload<K, T>>, b: seq<Upload<K, T>>) {
    forall u :: u in a <==> u in b
  }

  lemma {:induction false} SameMaxCount<K(!new), T(!new)>(a: seq<Upload<K, T>>, b: seq<Upload<K, T>>, key: K)
    requires SameUploads(a, b)
    ensures MaxCount(a, key) == MaxCount(b, key)
  {
    MaxCountBounds(a, key);
    MaxCountBounds(b, key);
    forall i | 0 <= i < |a| ensures |In(a[i], key)| <= MaxCount(b, key) { assert a[i] in b; }
    forall i | 0 <= i < |b| ensures |In(b[i], key)| <= MaxCount(a, key) { assert b[i] in a; }
  }

  /** The order in which uploads are listed does not matter. */
  lemma {:induction false} UnionOfReordered<K(!new), T(!new)>(
    a: seq<Upload<K, T>>, b: seq<Upload<K, T>>, members: seq<Member<K, T>>)
    requires SameUploads(a, b) && IsUnion(a, members)
    ensures IsUnion(b, members)
  {
    forall i | 0 <= i < |members|
      ensures Represents(b, members[i].key, members[i].occurrence, members[i].source)
    {
      assert Represents(a, members[i].key, members[i].occurrence, members[i].source);
    }
    forall key, n: nat ensures Has(members, key, n) <==> n < MaxCount(b, key) { SameMaxCount(a, b, key); }
  }

  /** An upload that reports no key more often than some earlier one changes no multiplicity. */
  lemma {:induction false} ContainedUploadCounts<K(!new), T>(uploads: seq<Upload<K, T>>, u: Upload<K, T>)
    requires forall key :: |In(u, key)| <= MaxCount(uploads, key)
    ensures forall key :: MaxCount(uploads + [u], key) == MaxCount(uploads, key)
  {
  }

  /** The positions at which `s` holds `x`. */
  ghost function Positions<T>(s: seq<T>, x: T): set<nat> {
    if s == [] then {} else
      Positions(s[..|s| - 1], x) + if s[|s| - 1] == x then {|s| - 1} else {}
  }

  lemma {:induction false} InPositions<T>(s: seq<T>, x: T, n: nat)
    ensures n in Positions(s, x) <==> n < |s| && s[n] == x
  {
    if s != [] { InPositions(s[..|s| - 1], x, n); }
  }

  lemma {:induction false} CountAppend<T>(front: seq<T>, last: T, x: T)
    ensures multiset(front + [last])[x] == multiset(front)[x] + if last == x then 1 else 0
  {
  }

  lemma {:induction false} PositionsAppend<T>(front: seq<T>, last: T, x: T)
    ensures |Positions(front + [last], x)| == |Positions(front, x)| + if last == x then 1 else 0
  {
    assert (front + [last])[..|front|] == front;
    InPositions(front, x, |front|);
  }

  lemma {:induction false} CountPositions<T>(s: seq<T>, x: T)
    ensures |Positions(s, x)| == multiset(s)[x]
  {
    if s != [] {
      var front, last := s[..|s| - 1], s[|s| - 1];
      CountPositions(front, x);
      hide Positions;
      CountAppend(front, last, x);
      PositionsAppend(front, last, x);
      assert s == front + [last];
    }
  }

  ghost function EntriesIn<K, T>(members: seq<Member<K, T>>): (es: seq<Entry<K, T>>)
    ensures |es| == |members|
  {
    if members == [] then [] else
      var last := members[|members| - 1];
      EntriesIn(members[..|members| - 1]) + [Entry(last.key, last.source.value)]
  }

  lemma {:induction false} UnderCounts<K, T>(id: int, date: int, entries: seq<Entry<K, T>>, e: Entry<K, T>)
    ensures multiset(Under(id, date, entries, e.key))[Candidate(id, date, e.value)] == multiset(entries)[e]
  {
    if entries != [] {
      var front := entries[..|entries| - 1];
      UnderCounts(id, date, front, e);
      assert entries == front + [entries[|front|]];
    }
  }

  /** The occurrence numbers under which `e` itself represents its key. */
  ghost function NumbersOf<K, T>(members: seq<Member<K, T>>, e: Entry<K, T>): set<nat> {
    if members == [] then {} else
      var last := members[|members| - 1];
      NumbersOf(members[..|members| - 1], e)
      + if last.key == e.key && last.source.value == e.value then {last.occurrence} else {}
  }

  ghost predicate Stands<K, T>(m: Member<K, T>, e: Entry<K, T>, n: nat) {
    m.key == e.key && m.source.value == e.value && m.occurrence == n
  }

  ghost predicate HasEntry<K, T>(members: seq<Member<K, T>>, e: Entry<K, T>, n: nat) {
    exists i | 0 <= i < |members| :: Stands(members[i], e, n)
  }

  lemma {:induction false} NumbersOfHeld<K, T>(members: seq<Member<K, T>>, e: Entry<K, T>, n: nat)
    ensures n in NumbersOf(members, e) <==> HasEntry(members, e, n)
  {
    if members != [] {
      var front, last := members[..|members| - 1], members[|members| - 1];
      NumbersOfHeld(front, e, n);
      if HasEntry(front, e, n) {
        var i :| 0 <= i < |front| && Stands(front[i], e, n);
        assert members[i] == front[i];
      }
      if i: nat :| i < |members| && Stands(members[i], e, n) {
        if i < |front| { assert front[i] == members[i]; }
      }
    }
  }

  lemma {:induction false} EntryIsHeld<K(!new), T>(members: seq<Member<K, T>>, e: Entry<K, T>, n: nat)
    requires HasEntry(members, e, n)
    ensures Has(members, e.key, n)
  {
  }

  lemma {:induction false} CountOfEntry<K(!new), T>(members: seq<Member<K, T>>, e: Entry<K, T>)
    requires Apart(members)
    ensures multiset(EntriesIn(members))[e] == |NumbersOf(members, e)|
  {
    hide Apart, Has, HasEntry;
    if members != [] {
      var front, last := members[..|members| - 1], members[|members| - 1];
      LastIsNew(members);
      CountOfEntry(front, e);
      NumbersOfHeld(front, e, last.occurrence);
      if last.key == e.key && HasEntry(front, e, last.occurrence) { EntryIsHeld(front, e, last.occurrence); }
    }
  }

  /** The union of one upload is that upload, entry for entry. */
  lemma {:induction false} SingleUnion<K(!new), T>(u: Upload<K, T>, members: seq<Member<K, T>>, e: Entry<K, T>)
    requires IsUnion([u], members)
    ensures multiset(EntriesIn(members))[e] == multiset(u.entries)[e]
  {
    var s := In(u, e.key);
    var c := Candidate(u.id, u.date, e.value);
    CountOfEntry(members, e);
    CountPositions(s, c);
    UnderCounts(u.id, u.date, u.entries, e);
    assert MaxCount([u], e.key) == |s| by { assert [u][..0] == []; }
    forall n: nat ensures n in NumbersOf(members, e) <==> n in Positions(s, c) {
      NumbersOfHeld(members, e, n);
      InPositions(s, c, n);
      forall i | 0 <= i < |members| && members[i].key == e.key && members[i].occurrence == n
        ensures n < |s| && s[n] == members[i].source && (s[n] == c <==> Stands(members[i], e, n))
      {
        var v := RepresentativeReported([u], e.key, n, members[i].source);
      }
      if n < |s| { assert Has(members, e.key, n); }
    }
    assert NumbersOf(members, e) == Positions(s, c);
  }
}
