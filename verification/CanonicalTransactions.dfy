/** The overlap-free transaction list of one portfolio's uploads. */
module CanonicalTransactions {
  import opened InvestmentTransactions
  import opened Overlap
  import opened OverlapLaws
  import Sequences
  import Sorting
  import opened Text

  /** The source facts under which two rows count as one. */
  datatype Fingerprint = Fingerprint(
    scope: string, sourceRef: string, isin: string, date: string, txnType: string,
    reference: string, units: string, nav: string, amount: string)
  {
    function Tuple(): seq<string> { [scope, sourceRef, isin, date, txnType, reference, units, nav, amount] }
  }

  datatype Source = Source(uploadId: int, statementDate: int, rows: seq<Raw>)

  function FactToken(f: Field): string {
    match f
    case Absent => ""
    case Unreadable(text) => Strip(text)
    case Number(printed, _) => printed
  }

  function DateToken(d: RawDate): string {
    match d
    case NoDate => ""
    case Blank(text) => text
    case Day(iso, _) => iso
  }

  function FingerprintOf(raw: Raw): Fingerprint {
    Fingerprint(
      Lower(Strip(OrEmpty(raw.scope))),
      NormalizedRef(raw.sourceRef),
      OrEmpty(TxnIsin(raw)),
      DateToken(raw.date),
      Lower(Strip(OrEmpty(raw.txnType))),
      OrEmpty(NormalizedReference(raw.reference)),
      FactToken(raw.units),
      FactToken(raw.nav),
      FactToken(raw.amount))
  }

  function EntriesOf(rows: seq<Raw>): seq<Entry<Fingerprint, Raw>> {
    if rows == [] then [] else
      var last := rows[|rows| - 1];
      EntriesOf(rows[..|rows| - 1]) + [Entry(FingerprintOf(last), last)]
  }

  function UploadOf(source: Source): Upload<Fingerprint, Raw> {
    Upload(source.uploadId, source.statementDate, EntriesOf(source.rows))
  }

  function UploadsOf(sources: seq<Source>): (uploads: seq<Upload<Fingerprint, Raw>>)
    ensures |uploads| == |sources|
    ensures forall i | 0 <= i < |sources| :: uploads[i] == UploadOf(sources[i])
  {
    if sources == [] then [] else UploadsOf(sources[..|sources| - 1]) + [UploadOf(sources[|sources| - 1])]
  }

  type RawMember = Member<Fingerprint, Raw>

  /** List order: by date text, then whole fingerprint, then occurrence. */
  predicate Precedes(a: RawMember, b: RawMember) {
    || StringLess(a.key.date, b.key.date)
    || (a.key.date == b.key.date
        && (TupleLess(a.key.Tuple(), b.key.Tuple()) || (a.key == b.key && a.occurrence < b.occurrence)))
  }

  ghost predicate KeysApart(a: RawMember, b: RawMember) { a.key != b.key || a.occurrence != b.occurrence }

  lemma {:induction false} SameTuple(a: Fingerprint, b: Fingerprint)
    requires a.Tuple() == b.Tuple()
    ensures a == b
  {
  }

  lemma {:induction false} PrecedesStrict(a: RawMember, b: RawMember)
    ensures !(Precedes(a, b) && Precedes(b, a))
    ensures KeysApart(a, b) <==> Precedes(a, b) || Precedes(b, a)
  {
    var s, t := a.key.Tuple(), b.key.Tuple();
    StringLessTotal(a.key.date, b.key.date);
    TupleLessTotal(s, t);
    if s == t { SameTuple(a.key, b.key); }
    if StringLess(a.key.date, b.key.date) && StringLess(b.key.date, a.key.date) {
      StringLessTransitive(a.key.date, b.key.date, a.key.date);
    }
    if TupleLess(s, t) && TupleLess(t, s) { TupleLessTransitive(s, t, s); }
    StringLessIsStrict(a.key.date);
    TupleLessIsStrict(s);
  }

  lemma {:induction false} PrecedesTransitive(a: RawMember, b: RawMember, c: RawMember)
    requires Precedes(a, b) && Precedes(b, c)
    ensures Precedes(a, c)
  {
    if StringLess(a.key.date, b.key.date) && StringLess(b.key.date, c.key.date) {
      StringLessTransitive(a.key.date, b.key.date, c.key.date);
    }
    if TupleLess(a.key.Tuple(), b.key.Tuple()) && TupleLess(b.key.Tuple(), c.key.Tuple()) {
      TupleLessTransitive(a.key.Tuple(), b.key.Tuple(), c.key.Tuple());
    }
  }

  ghost predicate Sorted(members: seq<RawMember>) {
    forall i, j | 0 <= i < j < |members| :: Precedes(members[i], members[j])
  }

  lemma {:induction false} PrecedesIsWeakOrder()
    ensures Sorting.IsWeakOrder(Precedes)
  {
    forall a, b ensures Precedes(a, b) ==> !Precedes(b, a) { PrecedesStrict(a, b); }
    forall a, b, c ensures Precedes(a, c) ==> Precedes(a, b) || Precedes(b, c) { PrecedesBetween(a, b, c); }
  }

  lemma {:induction false} PrecedesBetween(a: RawMember, b: RawMember, c: RawMember)
    ensures Precedes(a, c) ==> Precedes(a, b) || Precedes(b, c)
  {
    hide StringLess, TupleLess;
    PrecedesStrict(a, b);
    PrecedesStrict(b, c);
    PrecedesStrict(a, c);
    if Precedes(c, b) && Precedes(b, a) { PrecedesTransitive(c, b, a); }
  }

  /** Members held under different tags, sorted: each strictly precedes the next. */
  lemma {:induction false} SortedStrictly(members: seq<RawMember>, sorted: seq<RawMember>)
    requires Apart(members) && sorted == Sorting.Sort(Precedes, members)
    ensures Sorted(sorted) && multiset(sorted) == multiset(members)
  {
    hide Precedes;
    PrecedesIsWeakOrder();
    Sorting.SortSorts(Precedes, members);
    Sorting.SortKeeps(Precedes, members);
    assert !Sequences.Repeats(members);
    forall i, j | 0 <= i < j < |sorted| ensures Precedes(sorted[i], sorted[j]) {
      var m, n := Sorting.SortSources(Precedes, members, i, j);
      assert KeysApart(members[m], members[n]);
      PrecedesStrict(sorted[i], sorted[j]);
      assert !Precedes(sorted[j], sorted[i]);
    }
  }

  ghost predicate DistinctSources(sources: seq<Source>) {
    forall i, j :: 0 <= i < j < |sources| ==> sources[i].uploadId != sources[j].uploadId
  }

  /** `members` is the canonical list: the overlap-free union, in list order. */
  ghost predicate IsCanonical(sources: seq<Source>, members: seq<RawMember>) {
    IsUnion(UploadsOf(sources), members) && Sorted(members)
  }

  ghost predicate AreCanonicalRows(sources: seq<Source>, rows: seq<Raw>) {
    exists members :: IsCanonical(sources, members) && rows == ValuesOf(members)
  }

  /** A rearrangement of a union's members is that union. */
  lemma {:induction false} UnionPermuted(
    uploads: seq<Upload<Fingerprint, Raw>>, a: seq<RawMember>, b: seq<RawMember>)
    requires IsUnion(uploads, a) && multiset(a) == multiset(b) && Sorted(b)
    ensures IsUnion(uploads, b)
  {
    forall m ensures m in a <==> m in b { assert m in multiset(a) <==> m in multiset(b); }
    forall i, j | 0 <= i < j < |b| && b[i].key == b[j].key ensures b[i].occurrence != b[j].occurrence {
      PrecedesStrict(b[i], b[j]);
    }
    forall i | 0 <= i < |b| ensures Represents(uploads, b[i].key, b[i].occurrence, b[i].source) {
      assert b[i] in a;
    }
    forall key, n: nat ensures Has(b, key, n) <==> Has(a, key, n) {
      if Has(a, key, n) {
        var i :| 0 <= i < |a| && a[i].key == key && a[i].occurrence == n;
        assert a[i] in b;
      }
      if Has(b, key, n) {
        var i :| 0 <= i < |b| && b[i].key == key && b[i].occurrence == n;
        assert b[i] in a;
      }
    }
  }

  /** The canonical transaction multiset of one portfolio's overlapping uploads. */
  method CanonicalRawTransactions(sources: seq<Source>) returns (rows: seq<Raw>, ghost members: seq<RawMember>)
    requires DistinctSources(sources)
    ensures AreCanonicalRows(sources, rows)
    ensures IsCanonical(sources, members) && rows == ValuesOf(members)
  {
    var union := MaxUnion(UploadsOf(sources));
    var canonical := Sorting.Sort(Precedes, union);
    SortedStrictly(union, canonical);
    UnionPermuted(UploadsOf(sources), union, canonical);
    members := canonical;
    rows := [];
    for i := 0 to |canonical|
      invariant rows == ValuesOf(canonical[..i])
    {
      Sequences.PrefixStep(canonical, i);
      rows := rows + [canonical[i].source.value];
    }
    assert canonical[..|canonical|] == canonical;
  }

  // ---------------------------------------------------------------------------
  // What the canonical list means
  // ---------------------------------------------------------------------------

  ghost function Prints(rows: seq<Raw>): seq<Fingerprint> {
    if rows == [] then [] else Prints(rows[..|rows| - 1]) + [FingerprintOf(rows[|rows| - 1])]
  }

  lemma {:induction false} EntryPrints(rows: seq<Raw>, e: Entry<Fingerprint, Raw>)
    ensures e in EntriesOf(rows) <==> e.value in rows && e.key == FingerprintOf(e.value)
  {
    hide FingerprintOf;
    if rows != [] {
      var front := rows[..|rows| - 1];
      EntryPrints(front, e);
      assert rows == front + [rows[|front|]];
    }
  }

  lemma {:induction false} InCounts(rows: seq<Raw>, id: int, date: int, f: Fingerprint)
    ensures |Under(id, date, EntriesOf(rows), f)| == multiset(Prints(rows))[f]
  {
    hide FingerprintOf;
    if rows != [] {
      var front := EntriesOf(rows[..|rows| - 1]);
      InCounts(rows[..|rows| - 1], id, date, f);
      assert EntriesOf(rows)[..|front|] == front;
    }
  }

  /** Every listed row is a row of some upload, filed under its own fingerprint. */
  lemma {:induction false} MemberCarriesPrint(sources: seq<Source>, m: RawMember)
    requires Represents(UploadsOf(sources), m.key, m.occurrence, m.source)
    ensures m.key == FingerprintOf(m.source.value)
    ensures exists s | s in sources :: m.source.value in s.rows
  {
    hide FingerprintOf, Under, Represents;
    var u := RepresentativeReported(UploadsOf(sources), m.key, m.occurrence, m.source);
    var j :| 0 <= j < |sources| && UploadsOf(sources)[j] == u;
    EntryPrints(sources[j].rows, Entry(m.key, m.source.value));
    assert sources[j] in sources;
  }

  lemma {:induction false} MembersCarryPrints(sources: seq<Source>, members: seq<RawMember>)
    requires forall i | 0 <= i < |members| ::
      Represents(UploadsOf(sources), members[i].key, members[i].occurrence, members[i].source)
    ensures EntriesIn(members) == EntriesOf(ValuesOf(members))
    ensures Prints(ValuesOf(members)) == KeysOf(members)
    ensures forall i | 0 <= i < |members| :: exists s | s in sources :: members[i].source.value in s.rows
  {
    hide FingerprintOf, Under, Represents, UploadsOf;
    if members != [] {
      var last := |members| - 1;
      MembersCarryPrints(sources, members[..last]);
      MemberCarriesPrint(sources, members[last]);
      assert ValuesOf(members)[..last] == ValuesOf(members[..last]);
      forall i | 0 <= i < |members| ensures exists s | s in sources :: members[i].source.value in s.rows {
        if i < last { assert members[..last][i] == members[i]; }
      }
    }
  }

  /** Overlap removal is the max-multiset union of the uploads' rows: every fingerprint occurs
      at least as often as in each upload, and exactly as often as in one of them. */
  lemma {:induction false} CanonicalIsMaxUnion(sources: seq<Source>, members: seq<RawMember>, f: Fingerprint)
    requires IsCanonical(sources, members)
    ensures
      var count := multiset(Prints(ValuesOf(members)))[f];
      && (forall i | 0 <= i < |sources| :: multiset(Prints(sources[i].rows))[f] <= count)
      && (count > 0 ==> exists i | 0 <= i < |sources| :: multiset(Prints(sources[i].rows))[f] == count)
  {
    var uploads := UploadsOf(sources);
    MembersCarryPrints(sources, members);
    UnionCounts(uploads, members, f);
    MaxCountBounds(uploads, f);
    forall i | 0 <= i < |sources| ensures |In(uploads[i], f)| == multiset(Prints(sources[i].rows))[f] {
      InCounts(sources[i].rows, sources[i].uploadId, sources[i].statementDate, f);
    }
  }

  /** Every listed row is a row of some upload. */
  lemma {:induction false} CanonicalRowIsReported(
    sources: seq<Source>, members: seq<RawMember>, raw: Raw) returns (j: nat)
    requires IsCanonical(sources, members) && raw in ValuesOf(members)
    ensures j < |sources| && raw in sources[j].rows
  {
    hide FingerprintOf, Prints, EntriesIn, EntriesOf, Represents, Under, Precedes;
    MembersCarryPrints(sources, members);
    var i :| 0 <= i < |members| && ValuesOf(members)[i] == raw;
    var s :| s in sources && members[i].source.value in s.rows;
    j :| 0 <= j < |sources| && sources[j] == s;
  }

  ghost predicate SameTags(a: seq<RawMember>, b: seq<RawMember>) {
    forall key, n: nat :: Has(a, key, n) <==> Has(b, key, n)
  }

  lemma {:induction false} HasFront(a: seq<RawMember>, key: Fingerprint, n: nat)
    requires a != [] && Sorted(a)
    ensures
      var last := a[|a| - 1];
      Has(a[..|a| - 1], key, n) <==> Has(a, key, n) && (key, n) != (last.key, last.occurrence)
  {
    var front, last := a[..|a| - 1], a[|a| - 1];
    forall i | 0 <= i < |front| ensures front[i] == a[i] && KeysApart(a[i], last) {
      PrecedesStrict(a[i], last);
    }
    if Has(a, key, n) && (key, n) != (last.key, last.occurrence) {
      var i :| 0 <= i < |a| && a[i].key == key && a[i].occurrence == n;
      assert front[i].key == key;
    }
  }

  lemma {:induction false} LastDetermined(a: seq<RawMember>, b: seq<RawMember>)
    requires Sorted(a) && Sorted(b) && SameTags(a, b) && a != [] && b != []
    ensures a[|a| - 1].key == b[|b| - 1].key && a[|a| - 1].occurrence == b[|b| - 1].occurrence
  {
    hide StringLess, TupleLess;
    var p, last := a[|a| - 1], b[|b| - 1];
    assert Has(a, p.key, p.occurrence) && Has(b, last.key, last.occurrence);
    var j :| 0 <= j < |b| && b[j].key == p.key && b[j].occurrence == p.occurrence;
    var i :| 0 <= i < |a| && a[i].key == last.key && a[i].occurrence == last.occurrence;
    PrecedesStrict(a[i], p);
    PrecedesStrict(b[j], last);
    assert !KeysApart(p, last);
  }

  /** A sorted list is determined by which (key, occurrence) pairs it holds. */
  lemma {:induction false} SortedDetermined(a: seq<RawMember>, b: seq<RawMember>)
    requires Sorted(a) && Sorted(b) && SameTags(a, b)
    ensures |a| == |b| && forall i | 0 <= i < |a| :: a[i].key == b[i].key && a[i].occurrence == b[i].occurrence
    decreases |a|
  {
    hide Precedes;
    assert b != [] ==> Has(b, b[0].key, b[0].occurrence);
    if a == [] {
    } else {
      assert Has(a, a[0].key, a[0].occurrence);
      LastDetermined(a, b);
      var front, rest := a[..|a| - 1], b[..|b| - 1];
      forall key, n: nat ensures Has(front, key, n) <==> Has(rest, key, n) {
        HasFront(a, key, n);
        HasFront(b, key, n);
      }
      SortedDetermined(front, rest);
    }
  }

  lemma {:induction false} SameSources(a: seq<Source>, b: seq<Source>)
    requires forall s :: s in a <==> s in b
    ensures SameUploads(UploadsOf(b), UploadsOf(a))
  {
    forall x ensures x in UploadsOf(a) <==> x in UploadsOf(b) {
      if x in UploadsOf(a) { ReportedIn(a, b, x); }
      if x in UploadsOf(b) { ReportedIn(b, a, x); }
    }
  }

  lemma {:induction false} ReportedIn(a: seq<Source>, b: seq<Source>, x: Upload<Fingerprint, Raw>)
    requires x in UploadsOf(a) && forall s | s in a :: s in b
    ensures x in UploadsOf(b)
  {
    var i :| 0 <= i < |a| && UploadsOf(a)[i] == x;
    assert a[i] in b;
    var j :| 0 <= j < |b| && b[j] == a[i];
    assert UploadsOf(b)[j] == x;
  }

  /** The same uploads in any order give the same list, row for row. */
  lemma {:induction false} CanonicalIgnoresOrder(
    a: seq<Source>, b: seq<Source>, m: seq<RawMember>, n: seq<RawMember>)
    requires DistinctSources(a) && DistinctSources(b) && forall s :: s in a <==> s in b
    requires IsCanonical(a, m) && IsCanonical(b, n)
    ensures m == n
  {
    var u, v := UploadsOf(a), UploadsOf(b);
    SameSources(a, b);
    UnionOfReordered(v, u, n);
    forall key, k: nat ensures Has(m, key, k) <==> Has(n, key, k) { }
    SortedDetermined(m, n);
    forall i | 0 <= i < |m| ensures m[i] == n[i] {
      RepresentativeUnique(u, m[i].key, m[i].occurrence, m[i].source, n[i].source);
    }
  }

  lemma {:induction false} CarryPrints(sources: seq<Source>, members: seq<RawMember>)
    requires IsCanonical(sources, members)
    ensures Prints(ValuesOf(members)) == KeysOf(members)
    ensures forall f :: multiset(KeysOf(members))[f] == MaxCount(UploadsOf(sources), f)
  {
    MembersCarryPrints(sources, members);
    forall f ensures multiset(KeysOf(members))[f] == MaxCount(UploadsOf(sources), f) {
      UnionCounts(UploadsOf(sources), members, f);
    }
  }

  /** Sorted unions whose largest multiplicities agree hold the same fingerprints in the same places. */
  lemma {:induction false} SameCountsSameKeys(a: seq<Source>, b: seq<Source>, m: seq<RawMember>, n: seq<RawMember>)
    requires IsCanonical(a, m) && IsCanonical(b, n)
    requires forall f :: MaxCount(UploadsOf(a), f) == MaxCount(UploadsOf(b), f)
    ensures KeysOf(m) == KeysOf(n)
  {
    hide MaxCount, Represents, Apart;
    forall key, k: nat ensures Has(m, key, k) <==> Has(n, key, k) {
      assert Has(m, key, k) <==> k < MaxCount(UploadsOf(a), key);
      assert Has(n, key, k) <==> k < MaxCount(UploadsOf(b), key);
    }
    hide Has;
    SortedDetermined(m, n);
    SameKeys(m, n);
  }

  lemma {:induction false} CoveredCounts(sources: seq<Source>, extra: Source, members: seq<RawMember>)
    requires IsCanonical(sources, members)
    requires forall f :: multiset(Prints(extra.rows))[f] <= multiset(Prints(ValuesOf(members)))[f]
    ensures forall f :: MaxCount(UploadsOf(sources), f) == MaxCount(UploadsOf(sources + [extra]), f)
  {
    CarryPrints(sources, members);
    hide MaxCount, Prints, ValuesOf, KeysOf, In, EntriesOf, IsCanonical;
    var u := Upload(extra.uploadId, extra.statementDate, EntriesOf(extra.rows));
    forall f ensures |In(u, f)| <= MaxCount(UploadsOf(sources), f) {
      InExtra(extra, f);
      assert multiset(Prints(extra.rows))[f] <= multiset(Prints(ValuesOf(members)))[f];
    }
    ContainedUploadCounts(UploadsOf(sources), u);
    assert (sources + [extra])[..|sources|] == sources;
    assert UploadsOf(sources + [extra]) == UploadsOf(sources) + [u];
  }

  lemma {:induction false} InExtra(extra: Source, f: Fingerprint)
    ensures |In(Upload(extra.uploadId, extra.statementDate, EntriesOf(extra.rows)), f)|
      == multiset(Prints(extra.rows))[f]
  {
    InCounts(extra.rows, extra.uploadId, extra.statementDate, f);
  }

  /** Adding an upload whose rows are already covered changes no row of the list except which
      upload's copy of it stands for it. */
  lemma {:induction false} ContainedUploadChangesNothing(
    sources: seq<Source>, extra: Source, m: seq<RawMember>, n: seq<RawMember>)
    requires forall f :: multiset(Prints(extra.rows))[f] <= multiset(Prints(ValuesOf(m)))[f]
    requires IsCanonical(sources, m) && IsCanonical(sources + [extra], n)
    ensures Prints(ValuesOf(m)) == Prints(ValuesOf(n))
  {
    hide IsCanonical, MaxCount, KeysOf, ValuesOf, Prints, UploadsOf;
    CoveredCounts(sources, extra, m);
    SameCountsSameKeys(sources, sources + [extra], m, n);
    CarryPrints(sources, m);
    CarryPrints(sources + [extra], n);
  }

  lemma {:induction false} SameKeys(m: seq<RawMember>, n: seq<RawMember>)
    requires |m| == |n| && forall i | 0 <= i < |m| :: m[i].key == n[i].key
    ensures KeysOf(m) == KeysOf(n)
  {
    if m != [] { SameKeys(m[..|m| - 1], n[..|n| - 1]); }
  }

  lemma {:induction false} EntriesAppend(rows: seq<Raw>, raw: Raw)
    ensures EntriesOf(rows + [raw]) == EntriesOf(rows) + [Entry(FingerprintOf(raw), raw)]
  {
    assert (rows + [raw])[..|rows|] == rows;
  }

  lemma {:induction false} EntryCounts(rows: seq<Raw>, x: Raw)
    ensures multiset(EntriesOf(rows))[Entry(FingerprintOf(x), x)] == multiset(rows)[x]
  {
    hide FingerprintOf, EntriesOf;
    if rows != [] {
      var front, last := rows[..|rows| - 1], rows[|rows| - 1];
      assert rows == front + [last];
      EntryCounts(front, x);
      EntriesAppend(front, last);
    } else {
      assert EntriesOf(rows) == [] by { NoEntries(); }
    }
  }

  lemma {:induction false} NoEntries()
    ensures EntriesOf([]) == []
  {
  }

  /** One upload alone keeps its rows, each as often as it lists them. */
  lemma {:induction false} SingleUploadKeepsRows(source: Source, members: seq<RawMember>)
    requires IsCanonical([source], members)
    ensures multiset(ValuesOf(members)) == multiset(source.rows)
  {
    hide FingerprintOf, Under, Precedes, EntriesOf, EntriesIn;
    MembersCarryPrints([source], members);
    var u := UploadsOf([source])[0];
    assert UploadsOf([source]) == [u];
    forall x ensures multiset(ValuesOf(members))[x] == multiset(source.rows)[x] {
      SingleUnion(u, members, Entry(FingerprintOf(x), x));
      EntryCounts(ValuesOf(members), x);
      EntryCounts(source.rows, x);
    }
  }
}
