/** Canonical acquisition lots across uploads, and the disposal state keyed to them. */
module CanonicalLots {
  import opened InvestmentTransactions
  import opened LotConsumption
  import Occurrences
  import opened Overlap
  import OverlapLaws
  import Sequences
  import opened Sorting
  import opened Text
  import opened Wrappers

  /** Portfolio, source identity and complete cost facts of an acquisition. */
  datatype CanonicalBase = CanonicalBase(
    portfolio: string, sourceRef: string, instrument: string, acquiredOn: int, reference: Option<string>,
    quantity: real, unitCost: real, costBasis: real, currency: string, txnType: Option<string>)

  datatype CanonicalKey = CanonicalKey(base: CanonicalBase, occurrence: nat)

  /** A persisted lot row. */
  datatype StoredLot = StoredLot(id: int, lot: Lot)

  /** One upload with its preserved payload rows (none when malformed) and its lot rows, the
      latter by (source occurrence, id). */
  datatype CasUpload = CasUpload(
    id: int, portfolio: string, depository: string, statementDate: int,
    payload: Option<seq<Raw>>, lots: seq<StoredLot>)

  function NormalizedPortfolio(portfolio: string): string { Upper(Strip(portfolio)) }

  function LowerType(txnType: Option<string>): Option<string> {
    var t := NonBlank(txnType);
    if t.Some? then Some(Lower(t.value)) else None
  }

  /** Identity of a stored lot row. */
  function StoredBase(portfolio: string, lot: Lot): CanonicalBase {
    CanonicalBase(
      NormalizedPortfolio(portfolio), Strip(lot.sourceRef), Upper(Strip(lot.instrument)), lot.acquiredOn,
      NonBlank(lot.reference), lot.quantity, lot.unitCost, lot.costBasis,
      Upper(Strip(lot.currency)), LowerType(Some(lot.txnType)))
  }

  /** Identity of a lot freshly classified from a payload row. */
  function ClassifiedBase(portfolio: string, lot: Lot): CanonicalBase {
    CanonicalBase(
      NormalizedPortfolio(portfolio), Strip(lot.sourceRef), lot.instrument, lot.acquiredOn,
      NormalizedReference(lot.reference), lot.quantity, lot.unitCost, lot.costBasis, lot.currency,
      if lot.txnType != "" then Some(lot.txnType) else None)
  }

  lemma {:induction false} StripNonBlank(s: string)
    requires Strip(s) != ""
    ensures NonBlank(Some(Strip(s))) == Some(Strip(s))
  {
    StripTrims(s);
  }

  lemma {:induction false} UpperKeepsBlank(s: string)
    ensures Upper(s) == "" <==> s == ""
    ensures Lower(s) == "" <==> s == ""
  {
  }

  /** Storing a lot does not change its identity, although the two sides normalize it with
      different code. */
  lemma {:induction false} StoringKeepsIdentity(portfolio: string, raw: Raw, occurrence: nat)
    requires Classify(raw).Complete?
    ensures
      var lot := Classify(raw).lot;
      StoredBase(portfolio, lot.(occurrence := occurrence)) == ClassifiedBase(portfolio, lot)
  {
    hide Strip, Upper, Lower, HasMarker, NonBlank;
    TypeIsNormal(raw);
    InstrumentIsNormal(raw);
    ReferenceIsNormal(raw.reference);
    CurrencyNormal();
  }

  lemma {:induction false} TypeIsNormal(raw: Raw)
    ensures LowerType(Some(TypeText(raw))) == if TypeText(raw) != "" then Some(TypeText(raw)) else None
  {
    hide Strip, Upper, Lower;
    if raw.txnType.Some? {
      var t := Strip(raw.txnType.value);
      UpperKeepsBlank(t);
      LowerTrimmed(raw.txnType.value);
      LowerTwice(t);
    }
    UpperKeepsBlank("");
    assert Strip("") == "" by { StripEmpty(); }
  }

  lemma {:induction false} StripEmpty()
    ensures Strip("") == ""
  {
  }

  lemma {:induction false} InstrumentIsNormal(raw: Raw)
    requires TxnIsin(raw).Some?
    ensures Upper(Strip(TxnIsin(raw).value)) == TxnIsin(raw).value
  {
    NormalizeTwice(raw.isin.value);
  }

  lemma {:induction false} ReferenceIsNormal(reference: Option<string>)
    ensures NonBlank(NonBlank(reference)) == NonBlank(reference)
  {
    hide Strip;
    if reference.Some? && Strip(reference.value) != "" { StripNonBlank(reference.value); }
  }

  lemma {:induction false} LowerTrimmed(s: string)
    ensures Strip(Lower(Strip(s))) == Lower(Strip(s))
    ensures Strip(Upper(Strip(s))) == Upper(Strip(s))
  {
    var t := Strip(s);
    StripTrims(s);
    if t != "" {
      UpperEnds(t);
      LowerEnds(t);
      CaseKeepsSpace(t[0]);
      CaseKeepsSpace(t[|t| - 1]);
    }
  }

  lemma {:induction false} CurrencyNormal()
    ensures Upper(Strip("INR")) == "INR"
  {
  }

  // ---------------------------------------------------------------------------
  // Canonical lots
  // ---------------------------------------------------------------------------

  function LotEntries(portfolio: string, lots: seq<StoredLot>): seq<Entry<CanonicalBase, StoredLot>> {
    if lots == [] then [] else
      var last := lots[|lots| - 1];
      LotEntries(portfolio, lots[..|lots| - 1]) + [Entry(StoredBase(portfolio, last.lot), last)]
  }

  function LotUpload(u: CasUpload): Upload<CanonicalBase, StoredLot> {
    Upload(u.id, u.statementDate, LotEntries(u.portfolio, u.lots))
  }

  function LotUploads(uploads: seq<CasUpload>): (r: seq<Upload<CanonicalBase, StoredLot>>)
    ensures |r| == |uploads|
    ensures forall i | 0 <= i < |uploads| :: r[i] == LotUpload(uploads[i])
  {
    if uploads == [] then [] else LotUploads(uploads[..|uploads| - 1]) + [LotUpload(uploads[|uploads| - 1])]
  }

  datatype Provenance = Provenance(uploadId: int, statementDate: int, depository: string)

  datatype CanonicalLot = CanonicalLot(
    key: CanonicalKey, name: string, lotId: int, uploadId: int, provenance: seq<Provenance>)

  predicate Reports(u: CasUpload, key: CanonicalKey) { key.occurrence < |In(LotUpload(u), key.base)| }

  /** Every upload that reported this acquisition occurrence, in table order. */
  function Reporting(uploads: seq<CasUpload>, key: CanonicalKey): seq<Provenance> {
    if uploads == [] then [] else
      var u := uploads[|uploads| - 1];
      var before := Reporting(uploads[..|uploads| - 1], key);
      if Reports(u, key) then before + [Provenance(u.id, u.statementDate, u.depository)] else before
  }

  /** Table order of the query: statement date, then upload id. */
  ghost predicate InTableOrder(uploads: seq<CasUpload>) {
    forall i, j :: 0 <= i < j < |uploads| ==>
      uploads[i].statementDate < uploads[j].statementDate
      || (uploads[i].statementDate == uploads[j].statementDate && uploads[i].id < uploads[j].id)
  }

  ghost predicate DistinctUploads(uploads: seq<CasUpload>) {
    forall i, j :: 0 <= i < j < |uploads| ==> uploads[i].id != uploads[j].id
  }

  ghost predicate HasKey(lots: seq<CanonicalLot>, key: CanonicalKey) {
    exists i | 0 <= i < |lots| :: lots[i].key == key
  }

  /** `lot` stands for `key`: its row is occurrence `key` of the earliest upload reporting it. */
  ghost predicate StandsFor(uploads: seq<CasUpload>, lot: CanonicalLot) {
    exists c ::
      && Represents(LotUploads(uploads), lot.key.base, lot.key.occurrence, c)
      && lot.lotId == c.value.id && lot.uploadId == c.uploadId && lot.name == c.value.lot.name
  }

  ghost predicate IsCanonicalLots(uploads: seq<CasUpload>, lots: seq<CanonicalLot>) {
    && (forall i, j :: 0 <= i < j < |lots| ==> lots[i].key != lots[j].key)
    && (forall key :: HasKey(lots, key) <==> key.occurrence < MaxCount(LotUploads(uploads), key.base))
    && (forall i | 0 <= i < |lots| ::
          StandsFor(uploads, lots[i]) && lots[i].provenance == Reporting(uploads, lots[i].key))
  }

  ghost predicate Canonicalized(
    uploads: seq<CasUpload>, members: seq<Member<CanonicalBase, StoredLot>>, lots: seq<CanonicalLot>)
  {
    |lots| == |members| && forall i | 0 <= i < |lots| ::
      var m := members[i];
      lots[i] == CanonicalLot(CanonicalKey(m.key, m.occurrence), m.source.value.lot.name, m.source.value.id,
                              m.source.uploadId, Reporting(uploads, CanonicalKey(m.key, m.occurrence)))
  }

  lemma {:induction false} MembersAreLots(
    uploads: seq<CasUpload>, members: seq<Member<CanonicalBase, StoredLot>>, lots: seq<CanonicalLot>)
    requires IsUnion(LotUploads(uploads), members) && Canonicalized(uploads, members, lots)
    ensures IsCanonicalLots(uploads, lots)
  {
    hide Reporting, MaxCount, StoredBase;
    forall key ensures HasKey(lots, key) <==> Has(members, key.base, key.occurrence) {
      if i: nat :| i < |lots| && lots[i].key == key { assert members[i].key == key.base; }
      if i: nat :| i < |members| && members[i].key == key.base && members[i].occurrence == key.occurrence {
        assert lots[i].key == key;
      }
    }
    forall i | 0 <= i < |lots| ensures StandsFor(uploads, lots[i]) {
      assert Represents(LotUploads(uploads), members[i].key, members[i].occurrence, members[i].source);
    }
  }

  /** The list order: acquisition day, portfolio, instrument, source, reference, quantity, unit cost,
      occurrence. Lots that differ only in other facts compare equal. */
  predicate ListedBefore(x: CanonicalLot, y: CanonicalLot) {
    var a, b := x.key.base, y.key.base;
    if a.acquiredOn != b.acquiredOn then a.acquiredOn < b.acquiredOn
    else if a.portfolio != b.portfolio then StringLess(a.portfolio, b.portfolio)
    else if a.instrument != b.instrument then StringLess(a.instrument, b.instrument)
    else if a.sourceRef != b.sourceRef then StringLess(a.sourceRef, b.sourceRef)
    else if OrEmpty(a.reference) != OrEmpty(b.reference) then StringLess(OrEmpty(a.reference), OrEmpty(b.reference))
    else if a.quantity != b.quantity then a.quantity < b.quantity
    else if a.unitCost != b.unitCost then a.unitCost < b.unitCost
    else x.key.occurrence < y.key.occurrence
  }

  lemma {:induction false} ListedBetween(x: CanonicalLot, y: CanonicalLot, z: CanonicalLot)
    ensures ListedBefore(x, y) ==> !ListedBefore(y, x)
    ensures ListedBefore(x, z) ==> ListedBefore(x, y) || ListedBefore(y, z)
  {
    hide StringLess, OrEmpty;
    var a, b, c := x.key.base, y.key.base, z.key.base;
    StringsBetween(a.portfolio, b.portfolio, c.portfolio);
    StringsBetween(a.instrument, b.instrument, c.instrument);
    StringsBetween(a.sourceRef, b.sourceRef, c.sourceRef);
    StringsBetween(OrEmpty(a.reference), OrEmpty(b.reference), OrEmpty(c.reference));
  }

  lemma {:induction false} ListedIsWeakOrder()
    ensures IsWeakOrder(ListedBefore)
  {
    forall a, b ensures ListedBefore(a, b) ==> !ListedBefore(b, a) { ListedBetween(a, b, b); }
    forall a, b, c ensures ListedBefore(a, c) ==> ListedBefore(a, b) || ListedBefore(b, c) { ListedBetween(a, b, c); }
  }

  ghost predicate ReportedBefore(uploads: seq<CasUpload>, x: CanonicalLot, y: CanonicalLot) {
    Follows(KeysSeen(LotUploads(uploads)), x.key.base, x.key.occurrence, y.key.base, y.key.occurrence)
  }

  /** The whole list order: lots that compare equal come in the order in which their identities are
      first reported. */
  ghost predicate ListOrder(uploads: seq<CasUpload>, x: CanonicalLot, y: CanonicalLot) {
    ListedBefore(x, y) || (!ListedBefore(y, x) && ReportedBefore(uploads, x, y))
  }

  ghost predicate InListOrder(uploads: seq<CasUpload>, lots: seq<CanonicalLot>) {
    forall i, j :: 0 <= i < j < |lots| ==> ListOrder(uploads, lots[i], lots[j])
  }

  lemma {:induction false} ListOrderOneWay(uploads: seq<CasUpload>, x: CanonicalLot, y: CanonicalLot)
    requires ListOrder(uploads, x, y)
    ensures !ListOrder(uploads, y, x)
  {
    hide ListedBefore, SeenBefore, KeysSeen;
    ListedBetween(x, y, y);
    var seen := KeysSeen(LotUploads(uploads));
    KeysSeenOnce(LotUploads(uploads));
    if SeenBefore(seen, x.key.base, y.key.base) { SeenOneWay(seen, x.key.base, y.key.base); }
    if SeenBefore(seen, y.key.base, x.key.base) { SeenOneWay(seen, y.key.base, x.key.base); }
  }

  /** Sorting changes no lot, and puts them in list order. */
  lemma {:induction false} SortedLots(uploads: seq<CasUpload>, lots: seq<CanonicalLot>)
    requires IsCanonicalLots(uploads, lots)
    requires forall i, j :: 0 <= i < j < |lots| ==> ReportedBefore(uploads, lots[i], lots[j])
    ensures IsCanonicalLots(uploads, Sort(ListedBefore, lots)) && InListOrder(uploads, Sort(ListedBefore, lots))
  {
    hide ListedBefore, StandsFor, Reporting, MaxCount, ReportedBefore;
    var sorted := Sort(ListedBefore, lots);
    ListedIsWeakOrder();
    SortSorts(ListedBefore, lots);
    SortElements(ListedBefore, lots);
    assert !Sequences.Repeats(lots);
    forall i, j | 0 <= i < j < |sorted| ensures sorted[i].key != sorted[j].key {
      var m, n := SortSources(ListedBefore, lots, i, j);
    }
    forall key ensures HasKey(sorted, key) <==> HasKey(lots, key) { SameKeysHeld(sorted, lots, key); }
    forall i | 0 <= i < |sorted|
      ensures StandsFor(uploads, sorted[i]) && sorted[i].provenance == Reporting(uploads, sorted[i].key)
    {
      SortElement(ListedBefore, lots, sorted[i]);
      var j :| 0 <= j < |lots| && lots[j] == sorted[i];
    }
    var either := (x: CanonicalLot, y: CanonicalLot) => ListedBefore(x, y) || ReportedBefore(uploads, x, y);
    SortStable(ListedBefore, either, lots);
    forall i, j | 0 <= i < j < |sorted| ensures ListOrder(uploads, sorted[i], sorted[j]) {
      assert either(sorted[i], sorted[j]) && !ListedBefore(sorted[j], sorted[i]);
    }
  }

  /** The lots in list order are determined by the uploads: every field of every lot, and the place
      of each. */
  lemma {:induction false} CanonicalLotsDetermined(uploads: seq<CasUpload>, a: seq<CanonicalLot>, b: seq<CanonicalLot>)
    requires DistinctUploads(uploads)
    requires IsCanonicalLots(uploads, a) && InListOrder(uploads, a)
    requires IsCanonicalLots(uploads, b) && InListOrder(uploads, b)
    ensures a == b
  {
    hide IsCanonicalLots, ListOrder;
    forall x ensures x in a <==> x in b {
      if x in a { SameLot(uploads, a, b, x); }
      if x in b { SameLot(uploads, b, a, x); }
    }
    var before := (x: CanonicalLot, y: CanonicalLot) => ListOrder(uploads, x, y);
    forall x, y | before(x, y) ensures !before(y, x) { ListOrderOneWay(uploads, x, y); }
    StrictOrderUnique(before, a, b);
  }

  lemma {:induction false} SameLot(uploads: seq<CasUpload>, a: seq<CanonicalLot>, b: seq<CanonicalLot>, x: CanonicalLot)
    requires DistinctUploads(uploads) && IsCanonicalLots(uploads, a) && IsCanonicalLots(uploads, b) && x in a
    ensures x in b
  {
    hide MaxCount, Reporting, Represents;
    assert HasKey(a, x.key);
    var j :| 0 <= j < |b| && b[j].key == x.key;
    StandsForOne(uploads, x, b[j]);
  }

  lemma {:induction false} StandsForOne(uploads: seq<CasUpload>, x: CanonicalLot, y: CanonicalLot)
    requires DistinctUploads(uploads) && x.key == y.key && StandsFor(uploads, x) && StandsFor(uploads, y)
    ensures x.lotId == y.lotId && x.uploadId == y.uploadId && x.name == y.name
  {
    hide Represents, DistinctUploads;
    var base, n := x.key.base, x.key.occurrence;
    var c :| Represents(LotUploads(uploads), base, n, c)
             && x.lotId == c.value.id && x.uploadId == c.uploadId && x.name == c.value.lot.name;
    var d :| Represents(LotUploads(uploads), base, n, d)
             && y.lotId == d.value.id && y.uploadId == d.uploadId && y.name == d.value.lot.name;
    assert DistinctIds(LotUploads(uploads)) by { LotUploadsDistinct(uploads); }
    OverlapLaws.RepresentativeUnique(LotUploads(uploads), base, n, c, d);
  }

  lemma {:induction false} LotUploadsDistinct(uploads: seq<CasUpload>)
    requires DistinctUploads(uploads)
    ensures DistinctIds(LotUploads(uploads))
  {
  }

  lemma {:induction false} SameKeysHeld(a: seq<CanonicalLot>, b: seq<CanonicalLot>, key: CanonicalKey)
    requires forall x :: x in a <==> x in b
    ensures HasKey(a, key) <==> HasKey(b, key)
  {
    if i: nat :| i < |a| && a[i].key == key {
      assert a[i] in b;
      var j :| 0 <= j < |b| && b[j] == a[i];
    }
    if i: nat :| i < |b| && b[i].key == key {
      assert b[i] in a;
      var j :| 0 <= j < |a| && a[j] == b[i];
    }
  }

  /** The canonical acquisition multiset across overlapping uploads, in list order. */
  method GetCanonicalLots(uploads: seq<CasUpload>) returns (lots: seq<CanonicalLot>)
    requires DistinctUploads(uploads)
    ensures IsCanonicalLots(uploads, lots) && InListOrder(uploads, lots)
  {
    hide StoredBase, Represents, ListedBefore, KeysSeen, Follows;
    assert DistinctIds(LotUploads(uploads)) by { LotUploadsDistinct(uploads); }
    var members := MaxUnion(LotUploads(uploads));
    var unsorted := [];
    for i := 0 to |members|
      invariant Canonicalized(uploads, members[..i], unsorted)
    {
      var m := members[i];
      var key := CanonicalKey(m.key, m.occurrence);
      var provenance := ProvenanceOf(uploads, key);
      unsorted := unsorted
        + [CanonicalLot(key, m.source.value.lot.name, m.source.value.id, m.source.uploadId, provenance)];
    }
    assert members[..|members|] == members;
    MembersAreLots(uploads, members, unsorted);
    SortedLots(uploads, unsorted);
    lots := Sort(ListedBefore, unsorted);
  }

  method ProvenanceOf(uploads: seq<CasUpload>, key: CanonicalKey) returns (provenance: seq<Provenance>)
    ensures provenance == Reporting(uploads, key)
  {
    hide Reports;
    provenance := [];
    for j := 0 to |uploads|
      invariant provenance == Reporting(uploads[..j], key)
    {
      Sequences.PrefixStep(uploads, j);
      var u := uploads[j];
      if Reports(u, key) {
        provenance := provenance + [Provenance(u.id, u.statementDate, u.depository)];
      }
    }
    assert uploads[..|uploads|] == uploads;
  }

  lemma {:induction false} ReportingHolds(uploads: seq<CasUpload>, key: CanonicalKey, i: nat)
    requires i < |uploads| && Reports(uploads[i], key)
    requires forall j :: 0 <= j < i ==> !Reports(uploads[j], key)
    ensures Reporting(uploads, key) != [] && Reporting(uploads, key)[0].uploadId == uploads[i].id
  {
    hide Reports;
    if i < |uploads| - 1 {
      ReportingHolds(uploads[..|uploads| - 1], key, i);
    } else {
      NoneReporting(uploads[..i], key);
    }
  }

  lemma {:induction false} NoneReporting(uploads: seq<CasUpload>, key: CanonicalKey)
    requires forall j :: 0 <= j < |uploads| ==> !Reports(uploads[j], key)
    ensures Reporting(uploads, key) == []
  {
    hide Reports;
    if uploads != [] { NoneReporting(uploads[..|uploads| - 1], key); }
  }

  /** With the table in query order, the representative of every canonical lot is the row of
      the first upload in its provenance. */
  lemma {:induction false} RepresentativeIsFirstProvenance(uploads: seq<CasUpload>, lots: seq<CanonicalLot>, i: nat)
    requires InTableOrder(uploads) && IsCanonicalLots(uploads, lots) && i < |lots|
    ensures lots[i].provenance != [] && lots[i].provenance[0].uploadId == lots[i].uploadId
  {
    hide Reports, Reporting, Represents, HasKey, InTableOrder, In;
    var lot := lots[i];
    assert StandsFor(uploads, lot) && lot.provenance == Reporting(uploads, lot.key);
    var c :| Represents(LotUploads(uploads), lot.key.base, lot.key.occurrence, c) && lot.uploadId == c.uploadId;
    var k := FirstReporter(uploads, lot.key, c);
    ReportingHolds(uploads, lot.key, k);
  }

  /** The earliest report of a lot comes from the first upload of the table that reports it. */
  lemma {:induction false} FirstReporter(
    uploads: seq<CasUpload>, key: CanonicalKey, c: Candidate<StoredLot>) returns (k: nat)
    requires InTableOrder(uploads) && Represents(LotUploads(uploads), key.base, key.occurrence, c)
    ensures k < |uploads| && uploads[k].id == c.uploadId && Reports(uploads[k], key)
    ensures forall j | 0 <= j < k :: !Reports(uploads[j], key)
  {
    hide StoredBase, LotEntries, Under, LotUploads;
    var u := OverlapLaws.RepresentativeReported(LotUploads(uploads), key.base, key.occurrence, c);
    k :| 0 <= k < |uploads| && LotUploads(uploads)[k] == u;
    forall j | 0 <= j < k ensures !Reports(uploads[j], key) {
      if Reports(uploads[j], key) {
        EarlierReport(uploads, key, c, j);
        assert false;
      }
    }
  }

  lemma {:induction false} EarlierReport(
    uploads: seq<CasUpload>, key: CanonicalKey, c: Candidate<StoredLot>, j: nat)
    requires Represents(LotUploads(uploads), key.base, key.occurrence, c)
    requires j < |uploads| && Reports(uploads[j], key)
    ensures c.date < uploads[j].statementDate || (c.date == uploads[j].statementDate && c.uploadId <= uploads[j].id)
  {
    hide StoredBase, LotEntries, Under, LotUploads;
    var v := LotUpload(uploads[j]);
    assert v == LotUploads(uploads)[j];
    assert v in LotUploads(uploads);
    OverlapLaws.UnderSource(v.id, v.date, v.entries, key.base, key.occurrence);
  }

  // ---------------------------------------------------------------------------
  // From coarse lot keys to canonical keys
  // ---------------------------------------------------------------------------

  /** The identities of the lots among `rows`, in row order. */
  ghost function Bases(portfolio: string, rows: seq<Raw>): seq<CanonicalBase> {
    if rows == [] then [] else
      var before := Bases(portfolio, rows[..|rows| - 1]);
      match Classify(rows[|rows| - 1])
      case Complete(lot) => before + [ClassifiedBase(portfolio, lot)]
      case Excluded(_) => before
  }

  ghost function KeyMap(portfolio: string, rows: seq<Raw>): map<LotKey, CanonicalKey> {
    if rows == [] then map[] else
      var front := rows[..|rows| - 1];
      var before := KeyMap(portfolio, front);
      match Classify(rows[|rows| - 1])
      case Complete(lot) =>
        var natural := NaturalOf(lot);
        var base := ClassifiedBase(portfolio, lot);
        before[LotKey(natural, multiset(Naturals(Acquisitions(Events(front))))[natural])
                 := CanonicalKey(base, multiset(Bases(portfolio, front))[base])]
      case Excluded(_) => before
  }

  lemma {:induction false} NoKeys(portfolio: string)
    ensures KeyMap(portfolio, []) == map[] && Bases(portfolio, []) == [] && Naturals(Acquisitions(Events([]))) == []
    ensures Occurrences.Counts<Natural>(map[], []) && Occurrences.Counts<CanonicalBase>(map[], [])
  {
  }

  lemma {:induction false} KeyMapStep(portfolio: string, rows: seq<Raw>, raw: Raw)
    ensures Classify(raw).Excluded? ==>
      KeyMap(portfolio, rows + [raw]) == KeyMap(portfolio, rows)
        && Bases(portfolio, rows + [raw]) == Bases(portfolio, rows)
    ensures Classify(raw).Complete? ==>
      var natural, base := NaturalOf(Classify(raw).lot), ClassifiedBase(portfolio, Classify(raw).lot);
      && Bases(portfolio, rows + [raw]) == Bases(portfolio, rows) + [base]
      && KeyMap(portfolio, rows + [raw])
         == KeyMap(portfolio, rows)[LotKey(natural, multiset(Naturals(Acquisitions(Events(rows))))[natural])
              := CanonicalKey(base, multiset(Bases(portfolio, rows))[base])]
  {
    hide Classify, ClassifiedBase, Acquisitions, Naturals;
    assert (rows + [raw])[..|rows|] == rows;
  }

  /** Maps every coarse lot key to its canonical key, with two independent occurrence counters. */
  method CanonicalConsumptionKeyMap(portfolio: string, rows: seq<Raw>) returns (out: map<LotKey, CanonicalKey>)
    ensures out == KeyMap(portfolio, rows)
  {
    hide Classify, ClassifiedBase, EventOf, NaturalOf, KeyMap, Bases, Naturals, Acquisitions, Occurrences.Counts;
    NoKeys(portfolio);
    var oldOccurrences: map<Natural, nat> := map[];
    var fullOccurrences: map<CanonicalBase, nat> := map[];
    out := map[];
    for i := 0 to |rows|
      invariant out == KeyMap(portfolio, rows[..i])
      invariant Occurrences.Counts(oldOccurrences, Naturals(Acquisitions(Events(rows[..i]))))
      invariant Occurrences.Counts(fullOccurrences, Bases(portfolio, rows[..i]))
    {
      Sequences.PrefixStep(rows, i);
      EventsStep(rows[..i], rows[i]);
      KeyMapStep(portfolio, rows[..i], rows[i]);
      match Classify(rows[i]) {
        case Excluded(_) =>
        case Complete(lot) =>
          var natural, base := NaturalOf(lot), ClassifiedBase(portfolio, lot);
          Occurrences.CountsBump(oldOccurrences, Naturals(Acquisitions(Events(rows[..i]))), natural);
          Occurrences.CountsBump(fullOccurrences, Bases(portfolio, rows[..i]), base);
          var occurrence := Occurrences.Lookup(oldOccurrences, natural, 0);
          oldOccurrences := oldOccurrences[natural := occurrence + 1];
          var full := Occurrences.Lookup(fullOccurrences, base, 0);
          fullOccurrences := fullOccurrences[base := full + 1];
          out := out[LotKey(natural, occurrence) := CanonicalKey(base, full)];
      }
    }
    assert rows[..|rows|] == rows;
  }

  /** One more row extends the acquisitions by its lot, if it has one. */
  lemma {:induction false} EventsStep(rows: seq<Raw>, raw: Raw)
    ensures
      var before, after := Acquisitions(Events(rows)), Acquisitions(Events(rows + [raw]));
      && (Classify(raw).Excluded? ==> after == before)
      && (Classify(raw).Complete? ==>
            var lot := Classify(raw).lot;
            && after == before + [NextAcquisition(before, NaturalOf(lot), lot.quantity)]
            && Naturals(after) == Naturals(before) + [NaturalOf(lot)])
  {
  }
}
