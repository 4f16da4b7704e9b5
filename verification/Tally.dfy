/** Totals by key: what a dictionary of sums holds after adding up a list. */
module Tally {
  import opened Sequences
  import opened Sorting

  datatype Line<K> = Line(key: K, value: int)

  /** What `parts` hold under one key. */
  ghost function SumOf<K>(parts: seq<Line<K>>, key: K): int {
    if parts == [] then 0 else
      var last := parts[|parts| - 1];
      SumOf(parts[..|parts| - 1], key) + if last.key == key then last.value else 0
  }

  /** What `parts` hold under the keys that `p` selects. */
  ghost function SumWhere<K>(parts: seq<Line<K>>, p: K -> bool): int {
    if parts == [] then 0 else
      var last := parts[|parts| - 1];
      SumWhere(parts[..|parts| - 1], p) + if p(last.key) then last.value else 0
  }

  ghost predicate Mentions<K>(lines: seq<Line<K>>, key: K) {
    exists i | 0 <= i < |lines| :: lines[i].key == key
  }

  ghost predicate KeysApart<K>(lines: seq<Line<K>>) {
    forall i, j :: 0 <= i < j < |lines| ==> lines[i].key != lines[j].key
  }

  /** One line per key that occurs, with that key's sum. */
  ghost predicate IsTally<K(!new)>(parts: seq<Line<K>>, lines: seq<Line<K>>) {
    && KeysApart(lines)
    && (forall key :: Mentions(lines, key) <==> Mentions(parts, key))
    && (forall i | 0 <= i < |lines| :: lines[i].value == SumOf(parts, lines[i].key))
  }

  // ---------------------------------------------------------------------------
  // Nothing is lost
  // ---------------------------------------------------------------------------

  /** What one part adds to the selected lines. */
  ghost function Share<K>(lines: seq<Line<K>>, p: K -> bool, x: Line<K>): int {
    if lines == [] then 0 else
      var last := lines[|lines| - 1];
      Share(lines[..|lines| - 1], p, x) + if p(last.key) && last.key == x.key then x.value else 0
  }

  lemma {:induction false} NoShare<K>(lines: seq<Line<K>>, p: K -> bool, x: Line<K>)
    requires !p(x.key) || !Mentions(lines, x.key)
    ensures Share(lines, p, x) == 0
  {
    if lines != [] {
      assert lines[|lines| - 1].key == x.key ==> Mentions(lines, x.key);
      if Mentions(lines[..|lines| - 1], x.key) { FrontMentions(lines, x.key); }
      hide Mentions;
      NoShare(lines[..|lines| - 1], p, x);
    }
  }

  /** A part under a selected key adds its value to exactly one line. */
  lemma {:induction false} OneShare<K>(lines: seq<Line<K>>, p: K -> bool, x: Line<K>)
    requires KeysApart(lines) && Mentions(lines, x.key)
    ensures Share(lines, p, x) == if p(x.key) then x.value else 0
  {
    if !p(x.key) {
      NoShare(lines, p, x);
    } else {
      var front, last := lines[..|lines| - 1], lines[|lines| - 1];
      var i :| 0 <= i < |lines| && lines[i].key == x.key;
      if i < |front| {
        assert front[i] == lines[i] && last.key != x.key;
        OneShare(front, p, x);
      } else {
        forall j | 0 <= j < |front| ensures front[j].key != x.key { assert front[j] == lines[j]; }
        NoShare(front, p, x);
      }
    }
  }

  /** The sums of `parts` over the selected lines' keys. */
  ghost function SumKeys<K>(parts: seq<Line<K>>, lines: seq<Line<K>>, p: K -> bool): int {
    if lines == [] then 0 else
      var last := lines[|lines| - 1];
      SumKeys(parts, lines[..|lines| - 1], p) + if p(last.key) then SumOf(parts, last.key) else 0
  }

  lemma {:induction false} SumKeysStep<K>(parts: seq<Line<K>>, lines: seq<Line<K>>, p: K -> bool)
    requires parts != []
    ensures SumKeys(parts, lines, p) == SumKeys(parts[..|parts| - 1], lines, p) + Share(lines, p, parts[|parts| - 1])
  {
    if lines != [] { SumKeysStep(parts, lines[..|lines| - 1], p); }
  }

  lemma {:induction false} SumKeysOfNone<K>(lines: seq<Line<K>>, p: K -> bool)
    ensures SumKeys([], lines, p) == 0
  {
    if lines != [] { SumKeysOfNone(lines[..|lines| - 1], p); }
  }

  lemma {:induction false} SumKeysAddUp<K>(parts: seq<Line<K>>, lines: seq<Line<K>>, p: K -> bool)
    requires KeysApart(lines) && forall i | 0 <= i < |parts| :: Mentions(lines, parts[i].key)
    ensures SumKeys(parts, lines, p) == SumWhere(parts, p)
  {
    hide KeysApart, Mentions;
    if parts == [] {
      SumKeysOfNone(lines, p);
    } else {
      var front := parts[..|parts| - 1];
      forall i | 0 <= i < |front| ensures Mentions(lines, front[i].key) { assert front[i] == parts[i]; }
      SumKeysStep(parts, lines, p);
      OneShare(lines, p, parts[|parts| - 1]);
      SumKeysAddUp(front, lines, p);
    }
  }

  lemma {:induction false} SumKeysOfTally<K>(parts: seq<Line<K>>, lines: seq<Line<K>>, p: K -> bool)
    requires forall i | 0 <= i < |lines| :: lines[i].value == SumOf(parts, lines[i].key)
    ensures SumWhere(lines, p) == SumKeys(parts, lines, p)
  {
    hide SumOf;
    if lines != [] { SumKeysOfTally(parts, lines[..|lines| - 1], p); }
  }

  /** A tally adds up to what was tallied, overall and over any selection of keys. */
  lemma {:induction false} TallyAddsUp<K(!new)>(parts: seq<Line<K>>, lines: seq<Line<K>>, p: K -> bool)
    requires IsTally(parts, lines)
    ensures SumWhere(lines, p) == SumWhere(parts, p)
  {
    hide SumOf;
    forall i | 0 <= i < |parts| ensures Mentions(lines, parts[i].key) { assert Mentions(parts, parts[i].key); }
    SumKeysOfTally(parts, lines, p);
    SumKeysAddUp(parts, lines, p);
  }

  // ---------------------------------------------------------------------------
  // Tallying
  // ---------------------------------------------------------------------------

  /** `totals[key] += value` for one more part, on an insertion-ordered dictionary. */
  method AddPart<K(==, !new)>(lines: seq<Line<K>>, part: Line<K>, ghost parts: seq<Line<K>>)
    returns (next: seq<Line<K>>)
    requires IsTally(parts, lines)
    ensures IsTally(parts + [part], next)
  {
    hide IsTally;
    for i := 0 to |lines|
      invariant forall j | 0 <= j < i :: lines[j].key != part.key
    {
      if lines[i].key == part.key {
        TallyUpdated(parts, lines, part, i);
        return lines[i := Line(part.key, lines[i].value + part.value)];
      }
    }
    TallyGrown(parts, lines, part);
    next := lines + [part];
  }

  lemma {:induction false} PartAppended<K>(parts: seq<Line<K>>, part: Line<K>, key: K)
    ensures SumOf(parts + [part], key) == SumOf(parts, key) + if part.key == key then part.value else 0
    ensures Mentions(parts + [part], key) <==> Mentions(parts, key) || part.key == key
  {
    var next := parts + [part];
    assert next[..|parts|] == parts && next[|parts|] == part;
    if Mentions(parts, key) {
      var i :| 0 <= i < |parts| && parts[i].key == key;
      assert next[i].key == key;
    }
  }

  lemma {:induction false} SumWhereAppended<K>(parts: seq<Line<K>>, part: Line<K>, p: K -> bool)
    ensures SumWhere(parts + [part], p) == SumWhere(parts, p) + if p(part.key) then part.value else 0
  {
    assert (parts + [part])[..|parts|] == parts;
  }

  lemma {:induction false} TallyUpdated<K(!new)>(parts: seq<Line<K>>, lines: seq<Line<K>>, part: Line<K>, i: nat)
    requires IsTally(parts, lines) && i < |lines| && lines[i].key == part.key
    ensures IsTally(parts + [part], lines[i := Line(part.key, lines[i].value + part.value)])
  {
    hide SumOf;
    var next := lines[i := Line(part.key, lines[i].value + part.value)];
    forall key ensures Mentions(next, key) <==> Mentions(parts + [part], key) {
      PartAppended(parts, part, key);
      if j: nat :| j < |lines| && lines[j].key == key { assert next[j].key == key; }
      if j: nat :| j < |next| && next[j].key == key { assert lines[j].key == key; }
    }
    forall j | 0 <= j < |next| ensures next[j].value == SumOf(parts + [part], next[j].key) {
      PartAppended(parts, part, next[j].key);
    }
  }

  lemma {:induction false} TallyGrown<K(!new)>(parts: seq<Line<K>>, lines: seq<Line<K>>, part: Line<K>)
    requires IsTally(parts, lines) && forall j | 0 <= j < |lines| :: lines[j].key != part.key
    ensures IsTally(parts + [part], lines + [part])
  {
    hide SumOf;
    var next := lines + [part];
    assert !Mentions(lines, part.key);
    NotMentioned(parts, part.key);
    forall key ensures Mentions(next, key) <==> Mentions(parts + [part], key) {
      PartAppended(parts, part, key);
      PartAppended(lines, part, key);
    }
    forall j | 0 <= j < |next| ensures next[j].value == SumOf(parts + [part], next[j].key) {
      PartAppended(parts, part, next[j].key);
      if j < |lines| { assert next[j] == lines[j]; }
    }
  }

  lemma {:induction false} FrontMentions<K>(lines: seq<Line<K>>, key: K)
    requires lines != [] && Mentions(lines[..|lines| - 1], key)
    ensures Mentions(lines, key)
  {
    var front := lines[..|lines| - 1];
    var i :| 0 <= i < |front| && front[i].key == key;
    assert lines[i].key == key;
  }

  lemma {:induction false} NotMentioned<K>(parts: seq<Line<K>>, key: K)
    requires !Mentions(parts, key)
    ensures SumOf(parts, key) == 0
  {
    if parts != [] {
      assert parts[|parts| - 1].key != key;
      if Mentions(parts[..|parts| - 1], key) { FrontMentions(parts, key); }
      hide Mentions;
      NotMentioned(parts[..|parts| - 1], key);
    }
  }

  method TallyUp<K(==, !new)>(parts: seq<Line<K>>) returns (lines: seq<Line<K>>)
    ensures IsTally(parts, lines)
  {
    lines := [];
    for i := 0 to |parts|
      invariant IsTally(parts[..i], lines)
    {
      hide IsTally;
      PrefixStep(parts, i);
      lines := AddPart(lines, parts[i], parts[..i]);
    }
    assert parts[..|parts|] == parts;
  }

  /** Rearranging a tally leaves it a tally. */
  lemma {:induction false} TallyRearranged<K(!new)>(parts: seq<Line<K>>, a: seq<Line<K>>, b: seq<Line<K>>)
    requires IsTally(parts, a) && KeysApart(b) && forall x :: x in a <==> x in b
    ensures IsTally(parts, b)
  {
    hide SumOf;
    forall key ensures Mentions(b, key) <==> Mentions(a, key) {
      if i: nat :| i < |a| && a[i].key == key {
        assert a[i] in b;
        var j :| 0 <= j < |b| && b[j] == a[i];
      }
      if i: nat :| i < |b| && b[i].key == key {
        assert b[i] in a;
        var j :| 0 <= j < |a| && a[j] == b[i];
      }
    }
    forall i | 0 <= i < |b| ensures b[i].value == SumOf(parts, b[i].key) {
      assert b[i] in a;
      var j :| 0 <= j < |a| && a[j] == b[i];
    }
  }

  lemma {:induction false} TallySorted<K(!new)>(less: (Line<K>, Line<K>) -> bool, parts: seq<Line<K>>,
    lines: seq<Line<K>>)
    requires IsTally(parts, lines)
    ensures IsTally(parts, Sort(less, lines))
  {
    hide SumOf, Mentions;
    var sorted := Sort(less, lines);
    assert !Repeats(lines);
    forall i, j | 0 <= i < j < |sorted| ensures sorted[i].key != sorted[j].key {
      var m, n := SortSources(less, lines, i, j);
    }
    assert KeysApart(sorted);
    SortElements(less, lines);
    assert forall x :: x in lines <==> x in sorted;
    TallyRearranged(parts, lines, sorted);
  }
}
