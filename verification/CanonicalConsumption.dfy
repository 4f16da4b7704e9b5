/** Disposal state keyed to canonical lots: the two occurrence numberings agree, nothing is lost
    on the way, and every key names a canonical lot. */
module CanonicalConsumption {
  import opened CanonicalLots
  import opened CanonicalTransactions
  import opened InvestmentTransactions
  import opened LotConsumption
  import opened LotConsumptionLaws
  import opened Occurrences
  import Overlap
  import opened OverlapLaws
  import Sequences
  import Text

  ghost function LotsIn(rows: seq<Raw>): seq<Acquisition> { Acquisitions(Events(rows)) }

  // ---------------------------------------------------------------------------
  // The two numberings agree
  // ---------------------------------------------------------------------------

  lemma {:induction false} KeyMapLengths(portfolio: string, rows: seq<Raw>)
    ensures |Bases(portfolio, rows)| == |LotsIn(rows)|
    ensures KeyMap(portfolio, rows).Keys == Original(LotsIn(rows)).Keys
  {
    hide Classify, ClassifiedBase, NaturalOf;
    if rows != [] {
      var front, last := rows[..|rows| - 1], rows[|rows| - 1];
      KeyMapLengths(portfolio, front);
      assert rows == front + [last];
      EventsStep(front, last);
      if Classify(last).Complete? {
        var before := LotsIn(front);
        assert LotsIn(rows)[..|before|] == before;
      }
    }
  }

  ghost function NaturalPart(base: CanonicalBase): Natural {
    Natural(base.instrument, base.sourceRef, base.acquiredOn, base.reference)
  }

  /** The i-th lot: its coarse key maps to its identity with its own occurrence number there. */
  lemma {:induction false} KeyMapAt(portfolio: string, rows: seq<Raw>, i: nat)
    requires i < |LotsIn(rows)|
    ensures |Bases(portfolio, rows)| == |LotsIn(rows)|
    ensures
      var key, bases := LotsIn(rows)[i].key, Bases(portfolio, rows);
      && key in KeyMap(portfolio, rows)
      && KeyMap(portfolio, rows)[key] == CanonicalKey(bases[i], Occ(bases, i))
      && NaturalPart(bases[i]) == key.natural
      && bases[i].quantity == LotsIn(rows)[i].quantity
      && bases[i].portfolio == NormalizedPortfolio(portfolio)
  {
    hide Classify, NormalizedPortfolio;
    KeyMapLengths(portfolio, rows);
    var front, last := rows[..|rows| - 1], rows[|rows| - 1];
    assert rows == front + [last];
    EventsStep(front, last);
    KeyMapLengths(portfolio, front);
    if Classify(last).Excluded? {
      KeyMapAt(portfolio, front, i);
    } else {
      var before, bases := LotsIn(front), Bases(portfolio, front);
      assert Bases(portfolio, rows)[..|bases|] == bases;
      if i < |before| {
        KeyMapAt(portfolio, front, i);
        AcquisitionKeysDistinct(Events(rows), i, |before|);
        assert Bases(portfolio, rows)[..i] == bases[..i];
      }
    }
  }

  ghost predicate HasImage(keyMap: map<LotKey, CanonicalKey>, base: CanonicalBase, n: nat) {
    exists key :: key in keyMap && keyMap[key] == CanonicalKey(base, n)
  }

  /** The key map is a bijection, for every transaction list: its domain is exactly the coarse
      keys of the lots, no two coarse keys share a canonical key, and the canonical keys of an
      identity are its occurrences 0, 1, ... up to its multiplicity. Instrument and quantity
      survive, so no remainder is lost or merged on the way. */
  lemma {:induction false} KeyMapIsBijection(portfolio: string, rows: seq<Raw>)
    ensures
      var keyMap, original := KeyMap(portfolio, rows), Original(LotsIn(rows));
      && keyMap.Keys == original.Keys
      && (forall a, b | a in keyMap && b in keyMap && keyMap[a] == keyMap[b] :: a == b)
      && (forall key | key in keyMap ::
            && keyMap[key].base.portfolio == NormalizedPortfolio(portfolio)
            && keyMap[key].base.instrument == key.natural.instrument
            && keyMap[key].base.quantity == original[key])
      && (forall base, n: nat :: HasImage(keyMap, base, n) <==> n < multiset(Bases(portfolio, rows))[base])
  {
    hide NormalizedPortfolio, KeyMap, Original, Acquisitions, Bases;
    var keyMap, lots, bases := KeyMap(portfolio, rows), LotsIn(rows), Bases(portfolio, rows);
    KeyMapLengths(portfolio, rows);
    AllKeysDistinct(Events(rows));
    forall a, b | a in keyMap && b in keyMap && keyMap[a] == keyMap[b] ensures a == b {
      var i := OriginalSource(lots, a);
      var j := OriginalSource(lots, b);
      KeyMapAt(portfolio, rows, i);
      KeyMapAt(portfolio, rows, j);
      if i < j { OccDistinct(bases, i, j); } else if j < i { OccDistinct(bases, j, i); }
    }
    forall key | key in keyMap
      ensures keyMap[key].base.portfolio == NormalizedPortfolio(portfolio)
      ensures keyMap[key].base.instrument == key.natural.instrument
      ensures keyMap[key].base.quantity == Original(lots)[key]
      ensures keyMap[key].occurrence < multiset(bases)[keyMap[key].base]
    {
      var i := OriginalSource(lots, key);
      KeyMapAt(portfolio, rows, i);
      OriginalQuantities(lots, i);
      OccBound(bases, i);
    }
    forall base, n: nat ensures HasImage(keyMap, base, n) <==> n < multiset(bases)[base] {
      if n < multiset(bases)[base] {
        var i := OccCovers(bases, base, n);
        KeyMapAt(portfolio, rows, i);
        assert keyMap[lots[i].key] == CanonicalKey(base, n);
      }
    }
  }

  // ---------------------------------------------------------------------------
  // The consumption of all portfolios
  // ---------------------------------------------------------------------------

  function SourcesOf(uploads: seq<CasUpload>, portfolio: string): seq<Source> {
    if uploads == [] then [] else
      var u := uploads[|uploads| - 1];
      var before := SourcesOf(uploads[..|uploads| - 1], portfolio);
      if u.payload.Some? && NormalizedPortfolio(u.portfolio) == portfolio
      then before + [Source(u.id, u.statementDate, u.payload.value)] else before
  }

  /** `part` is `remaining` under the renaming: nothing lost, nothing merged, nothing added. */
  ghost predicate IsRenamed(remaining: Remaining, keyMap: map<LotKey, CanonicalKey>, part: map<CanonicalKey, real>) {
    && (forall key | key in remaining :: key in keyMap && keyMap[key] in part && part[keyMap[key]] == remaining[key])
    && (forall canonical | canonical in part :: exists key ::
      key in remaining && key in keyMap && keyMap[key] == canonical)
  }

  ghost function PartOf(remaining: map<CanonicalKey, real>, portfolio: string): map<CanonicalKey, real> {
    map key | key in remaining && key.base.portfolio == portfolio :: remaining[key]
  }

  ghost function InstrumentsOf(unresolved: set<(string, string)>, portfolio: string): set<string> {
    set pair | pair in unresolved && pair.0 == portfolio :: pair.1
  }

  /** One portfolio's part of a result: the netting of its canonical rows, under canonical keys. */
  ghost predicate PortfolioPart(
    portfolio: string, sources: seq<Source>, unresolved: set<string>, part: map<CanonicalKey, real>) {
    exists members ::
      && IsCanonical(sources, members)
      && unresolved == Unresolved(Events(ValuesOf(members)))
      && IsRenamed(RemainingOf(Events(ValuesOf(members))), KeyMap(portfolio, ValuesOf(members)), part)
  }

  /** The whole result is that for every portfolio with a readable payload, and nothing else. */
  ghost predicate IsConsumption(
    uploads: seq<CasUpload>, unresolved: set<(string, string)>, remaining: map<CanonicalKey, real>)
  {
    && (forall p | SourcesOf(uploads, p) != [] ::
          PortfolioPart(p, SourcesOf(uploads, p), InstrumentsOf(unresolved, p), PartOf(remaining, p)))
    && (forall pair | pair in unresolved :: SourcesOf(uploads, pair.0) != [])
    && (forall key | key in remaining :: SourcesOf(uploads, key.base.portfolio) != [])
  }

  lemma {:induction false} SourcesAreUploads(uploads: seq<CasUpload>, portfolio: string, i: nat) returns (j: nat)
    requires i < |SourcesOf(uploads, portfolio)|
    ensures j < |uploads| && i <= j && uploads[j].payload.Some?
    ensures SourcesOf(uploads, portfolio)[i]
      == Source(uploads[j].id, uploads[j].statementDate, uploads[j].payload.value)
    ensures NormalizedPortfolio(uploads[j].portfolio) == portfolio
  {
    hide NormalizedPortfolio;
    var n := |uploads| - 1;
    if i < |SourcesOf(uploads[..n], portfolio)| {
      j := SourcesAreUploads(uploads[..n], portfolio, i);
    } else {
      SourcesShorter(uploads[..n], portfolio);
      j := n;
    }
  }

  lemma {:induction false} SourcesShorter(uploads: seq<CasUpload>, portfolio: string)
    ensures |SourcesOf(uploads, portfolio)| <= |uploads|
  {
    if uploads != [] { SourcesShorter(uploads[..|uploads| - 1], portfolio); }
  }

  lemma {:induction false} SourcesDistinct(uploads: seq<CasUpload>, portfolio: string)
    requires DistinctUploads(uploads)
    ensures DistinctSources(SourcesOf(uploads, portfolio))
  {
    hide NormalizedPortfolio;
    if uploads != [] {
      var n := |uploads| - 1;
      SourcesDistinct(uploads[..n], portfolio);
      var before := SourcesOf(uploads[..n], portfolio);
      forall i | 0 <= i < |before| ensures before[i].uploadId != uploads[n].id {
        var j := SourcesAreUploads(uploads[..n], portfolio, i);
        assert uploads[..n][j] == uploads[j];
      }
    }
  }

  method GroupByPortfolio(uploads: seq<CasUpload>) returns (byPortfolio: map<string, seq<Source>>)
    ensures forall p :: Lookup(byPortfolio, p, []) == SourcesOf(uploads, p)
    ensures forall p | p in byPortfolio :: NormalizedPortfolio(p) == p
    ensures forall p :: p in byPortfolio <==> SourcesOf(uploads, p) != []
  {
    byPortfolio := map[];
    for i := 0 to |uploads|
      invariant forall p :: Lookup(byPortfolio, p, []) == SourcesOf(uploads[..i], p)
      invariant forall p | p in byPortfolio :: NormalizedPortfolio(p) == p
      invariant forall p :: p in byPortfolio <==> SourcesOf(uploads[..i], p) != []
    {
      Sequences.PrefixStep(uploads, i);
      var u := uploads[i];
      if u.payload.Some? {
        var p := NormalizedPortfolio(u.portfolio);
        Text.NormalizeTwice(u.portfolio);
        hide NormalizedPortfolio;
        byPortfolio := byPortfolio[p := Lookup(byPortfolio, p, []) + [Source(u.id, u.statementDate, u.payload.value)]];
      }
    }
    assert uploads[..|uploads|] == uploads;
  }

  /** One portfolio: canonical rows, exact-only netting, and the renaming of its keys. */
  method PortfolioConsumption(portfolio: string, sources: seq<Source>)
    returns (unresolved: set<string>, part: map<CanonicalKey, real>)
    requires DistinctSources(sources) && NormalizedPortfolio(portfolio) == portfolio
    ensures PortfolioPart(portfolio, sources, unresolved, part)
    ensures forall key | key in part :: key.base.portfolio == portfolio && key.base.instrument !in unresolved
  {
    hide NormalizedPortfolio, Unresolved, RemainingOf, KeyMap, IsCanonical, Events, Flatten;
    var rows;
    ghost var members;
    rows, members := CanonicalRawTransactions(sources);
    assert Flatten([rows]) == rows by { FlattenOne(rows); }
    var remaining;
    unresolved, remaining := ResolveLotConsumption([rows]);
    var keyMap := CanonicalConsumptionKeyMap(portfolio, rows);
    KeyMapIsBijection(portfolio, rows);
    RemainingWithin(Events(rows));
    part := RenameKeys(remaining, keyMap);
    hide IsRenamed;
    RenamedKeys(remaining, keyMap, part);
  }

  lemma {:induction false} RenamedKeys(
    remaining: Remaining, keyMap: map<LotKey, CanonicalKey>, part: map<CanonicalKey, real>)
    requires IsRenamed(remaining, keyMap, part)
    ensures forall canonical | canonical in part :: exists key ::
      key in remaining && key in keyMap && keyMap[key] == canonical
  {
  }

  /** Moves every remainder to its canonical key. The branch for a lot without a canonical key,
      which would drop its instrument, cannot be reached. */
  method RenameKeys(remaining: Remaining, keyMap: map<LotKey, CanonicalKey>) returns (part: map<CanonicalKey, real>)
    requires remaining.Keys <= keyMap.Keys
    requires forall a, b | a in keyMap && b in keyMap && keyMap[a] == keyMap[b] :: a == b
    ensures IsRenamed(remaining, keyMap, part)
  {
    part := map[];
    var pending := remaining.Keys;
    while pending != {}
      invariant pending <= remaining.Keys
      invariant forall key | key in remaining && key !in pending ::
        keyMap[key] in part && part[keyMap[key]] == remaining[key]
      invariant forall canonical | canonical in part ::
        exists key :: key in remaining && key !in pending && keyMap[key] == canonical
      decreases |pending|
    {
      var lotKey :| lotKey in pending;
      pending := pending - {lotKey};
      if lotKey !in keyMap { assert false; }
      part := part[keyMap[lotKey] := remaining[lotKey]];
    }
  }

  lemma {:induction false} FlattenOne(rows: seq<Raw>)
    ensures Flatten([rows]) == rows
  {
  }

  lemma {:induction false} RemainingWithin(events: seq<Event>)
    ensures forall key | key in RemainingOf(events) ::
      key in Original(Acquisitions(events)) && key.natural.instrument !in Unresolved(events)
  {
  }

  /** What the loop over portfolios has built once every portfolio outside `pending` is done. */
  ghost predicate ConsumedSoFar(
    byPortfolio: map<string, seq<Source>>, pending: set<string>,
    unresolved: set<(string, string)>, remaining: map<CanonicalKey, real>)
  {
    && (forall p | p in byPortfolio && p !in pending ::
          PortfolioPart(p, byPortfolio[p], InstrumentsOf(unresolved, p), PartOf(remaining, p)))
    && (forall pair | pair in unresolved :: pair.0 in byPortfolio && pair.0 !in pending)
    && (forall key | key in remaining :: key.base.portfolio in byPortfolio && key.base.portfolio !in pending)
    && (forall key | key in remaining :: (key.base.portfolio, key.base.instrument) !in unresolved)
  }

  lemma {:induction false} ConsumePortfolio(
    byPortfolio: map<string, seq<Source>>, pending: set<string>, p: string,
    unresolved: set<(string, string)>, remaining: map<CanonicalKey, real>,
    instruments: set<string>, part: map<CanonicalKey, real>)
    requires ConsumedSoFar(byPortfolio, pending, unresolved, remaining)
    requires p in byPortfolio && p in pending && PortfolioPart(p, byPortfolio[p], instruments, part)
    requires forall key | key in part :: key.base.portfolio == p && key.base.instrument !in instruments
    ensures ConsumedSoFar(
      byPortfolio, pending - {p}, unresolved + (set i | i in instruments :: (p, i)), remaining + part)
  {
    hide PortfolioPart;
    var more, all := unresolved + (set i | i in instruments :: (p, i)), remaining + part;
    assert InstrumentsOf(more, p) == instruments;
    assert PartOf(all, p) == part;
    forall q | q != p ensures InstrumentsOf(more, q) == InstrumentsOf(unresolved, q)
      && PartOf(all, q) == PartOf(remaining, q) {
    }
    forall key | key in all ensures (key.base.portfolio, key.base.instrument) !in more {
    }
  }

  /** Source-faithful disposal state of every portfolio, keyed to canonical lots. */
  method GetCanonicalLotConsumption(uploads: seq<CasUpload>)
    returns (unresolved: set<(string, string)>, remaining: map<CanonicalKey, real>)
    requires DistinctUploads(uploads)
    ensures IsConsumption(uploads, unresolved, remaining)
  {
    hide PortfolioPart, ConsumedSoFar, NormalizedPortfolio;
    var byPortfolio := GroupByPortfolio(uploads);
    unresolved, remaining := {}, map[];
    var pending := byPortfolio.Keys;
    assert ConsumedSoFar(byPortfolio, pending, unresolved, remaining) by { NothingConsumed(byPortfolio); }
    while pending != {}
      invariant pending <= byPortfolio.Keys
      invariant ConsumedSoFar(byPortfolio, pending, unresolved, remaining)
      decreases |pending|
    {
      var p :| p in pending;
      assert byPortfolio[p] == SourcesOf(uploads, p) by { assert Lookup(byPortfolio, p, []) == SourcesOf(uploads, p); }
      SourcesDistinct(uploads, p);
      var instruments, part := PortfolioConsumption(p, byPortfolio[p]);
      ConsumePortfolio(byPortfolio, pending, p, unresolved, remaining, instruments, part);
      unresolved := unresolved + (set i | i in instruments :: (p, i));
      remaining := remaining + part;
      pending := pending - {p};
    }
    remaining := FilterUnresolved(unresolved, remaining, byPortfolio);
    ConsumedAll(uploads, byPortfolio, unresolved, remaining);
  }

  lemma {:induction false} NothingConsumed(byPortfolio: map<string, seq<Source>>)
    ensures ConsumedSoFar(byPortfolio, byPortfolio.Keys, {}, map[])
  {
  }

  /** The closing filter removes nothing: no reported lot belongs to an unresolved instrument. */
  method FilterUnresolved(
    unresolved: set<(string, string)>, remaining: map<CanonicalKey, real>, ghost byPortfolio: map<string, seq<Source>>)
    returns (kept: map<CanonicalKey, real>)
    requires ConsumedSoFar(byPortfolio, {}, unresolved, remaining)
    ensures kept == remaining
  {
    hide PortfolioPart;
    kept := map key | key in remaining && (key.base.portfolio, key.base.instrument) !in unresolved :: remaining[key];
  }

  lemma {:induction false} ConsumedAll(
    uploads: seq<CasUpload>, byPortfolio: map<string, seq<Source>>,
    unresolved: set<(string, string)>, remaining: map<CanonicalKey, real>)
    requires ConsumedSoFar(byPortfolio, {}, unresolved, remaining)
    requires forall p :: Lookup(byPortfolio, p, []) == SourcesOf(uploads, p)
    requires forall p :: p in byPortfolio <==> SourcesOf(uploads, p) != []
    ensures IsConsumption(uploads, unresolved, remaining)
  {
  }

  // ---------------------------------------------------------------------------
  // Consumption keys are canonical lots
  // ---------------------------------------------------------------------------

  /** Lots that share a natural identity with another lot still hold something. */
  ghost predicate TwinsHeld(lots: seq<Acquisition>, m: Remaining) {
    forall i, j | 0 <= i < |lots| && 0 <= j < |lots| && i != j && lots[i].key.natural == lots[j].key.natural ::
      Held(m, lots[i].key) > 0.0
  }

  lemma {:induction false} NetSparesTwins(
    ds: seq<Disposal>, lots: seq<Acquisition>, instrument: string, ambiguous: map<string, References>, m: Remaining,
    i: nat, j: nat)
    requires KeysDistinct(lots) && TwinsHeld(lots, m)
    requires i < |lots| && j < |lots| && i != j && lots[i].key.natural == lots[j].key.natural
    ensures lots[i].key !in Net(ds, lots, instrument, ambiguous, m).trace
    decreases |ds|
  {
    hide Allocate;
    if ds != [] {
      var d := ds[0];
      var candidates := Candidates(lots, instrument, d.sourceRef);
      var references := Lookup(ambiguous, d.sourceRef, {});
      if Allocate(d, candidates, references, m).Some? {
        var lot := AllocationNeverGuesses(d, candidates, references, m);
        InCandidates(lots, instrument, d.sourceRef, lot);
        var k :| 0 <= k < |lots| && lots[k] == lot;
        forall l | 0 <= l < |lots| && l != k ensures lots[l].key.natural != lot.key.natural {
          TwinExcludes(d, candidates, lots, instrument, m, k, l);
        }
        var next := Consume(m, lot.key, d);
        assert TwinsHeld(lots, next) by {
          forall a, b | 0 <= a < |lots| && 0 <= b < |lots| && a != b && lots[a].key.natural == lots[b].key.natural
            ensures Held(next, lots[a].key) > 0.0
          {
            assert a != k && lots[a].key != lot.key;
          }
        }
        NetSparesTwins(ds[1..], lots, instrument, ambiguous, next, i, j);
      }
    }
  }

  lemma {:induction false} TwinExcludes(
    d: Disposal, candidates: seq<Acquisition>, lots: seq<Acquisition>, instrument: string, m: Remaining, k: nat, l: nat)
    requires KeysDistinct(lots) && TwinsHeld(lots, m) && candidates == Candidates(lots, instrument, d.sourceRef)
    requires k < |lots| && l < |lots| && k != l
    requires lots[k] in candidates && NotAfter(lots[k].key.natural.acquiredOn, d.disposedOn)
    requires SingledOut(d, candidates, m, lots[k])
    ensures lots[k].key.natural != lots[l].key.natural
  {
    InCandidates(lots, instrument, d.sourceRef, lots[k]);
    InCandidates(lots, instrument, d.sourceRef, lots[l]);
  }

  lemma {:induction false} OriginalHoldsTwins(events: seq<Event>)
    requires PositiveQuantities(events)
    ensures TwinsHeld(Acquisitions(events), Original(Acquisitions(events)))
  {
    hide Acquisitions, Original;
    var lots := Acquisitions(events);
    AllKeysDistinct(events);
    forall i | 0 <= i < |lots| ensures Held(Original(lots), lots[i].key) > 0.0 {
      OriginalQuantities(lots, i);
      OriginalNonNegative(events, lots[i].key);
    }
  }

  /** Netting only ever touches a lot that is alone in its natural identity: allocation among
      look-alikes would be a guess. */
  lemma {:induction false} TouchedLotIsAlone(rows: seq<Raw>, i: nat, j: nat)
    requires i < |LotsIn(rows)| && j < |LotsIn(rows)| && i != j
    requires LotsIn(rows)[i].key in RemainingOf(Events(rows))
    ensures LotsIn(rows)[i].key.natural != LotsIn(rows)[j].key.natural
  {
    hide Events, Acquisitions, Original, Ambiguous, Disposals, SortDisposals, RemainingOf;
    var events := Events(rows);
    EventsPositive(rows);
    AllKeysDistinct(events);
    OriginalHoldsTwins(events);
    var lots := Acquisitions(events);
    var instrument := lots[i].key.natural.instrument;
    ResolvedInstrumentsConserve(rows, instrument);
    if lots[i].key.natural == lots[j].key.natural {
      NetSparesTwins(SortDisposals(Disposals(events, instrument)), lots, instrument, Ambiguous(events, instrument),
                     Original(lots), i, j);
    }
  }

  /** The lot table holds, for every upload, each lot its payload states. */
  ghost predicate LotsStored(uploads: seq<CasUpload>) {
    forall u | u in uploads && u.payload.Some? ::
      forall lot | lot in NumberedLots(u.payload.value) :: exists s | s in u.lots :: s.lot == lot
  }

  lemma {:induction false} RowIsNumbered(rows: seq<Raw>, raw: Raw) returns (n: nat)
    requires raw in rows && Classify(raw).Complete?
    ensures Classify(raw).lot.(occurrence := n) in NumberedLots(rows)
  {
    hide Classify;
    var front, last := rows[..|rows| - 1], rows[|rows| - 1];
    var before := NumberedLots(front);
    if last == raw {
      n := multiset(Identities(before))[IdentityOf(Classify(raw).lot)];
    } else {
      assert raw in front by { assert rows == front + [last]; }
      n := RowIsNumbered(front, raw);
    }
  }

  lemma {:induction false} BaseOfRow(portfolio: string, rows: seq<Raw>, i: nat) returns (raw: Raw)
    requires i < |Bases(portfolio, rows)|
    ensures raw in rows && Classify(raw).Complete?
      && ClassifiedBase(portfolio, Classify(raw).lot) == Bases(portfolio, rows)[i]
  {
    hide Classify, ClassifiedBase;
    var front, last := rows[..|rows| - 1], rows[|rows| - 1];
    assert rows == front + [last];
    if i < |Bases(portfolio, front)| {
      raw := BaseOfRow(portfolio, front, i);
    } else {
      raw := last;
    }
  }

  lemma {:induction false} StoredIsReported(
    portfolio: string, id: int, date: int, lots: seq<StoredLot>, s: StoredLot)
    requires s in lots
    ensures Overlap.Under(id, date, LotEntries(portfolio, lots), StoredBase(portfolio, s.lot)) != []
  {
    hide StoredBase;
    var front, last := lots[..|lots| - 1], lots[|lots| - 1];
    var entries := LotEntries(portfolio, lots);
    assert entries[..|entries| - 1] == LotEntries(portfolio, front);
    if last != s {
      assert s in front by { assert lots == front + [last]; }
      StoredIsReported(portfolio, id, date, front, s);
    }
  }

  /** A lot stated by any upload's payload is a canonical lot, at least once. */
  lemma {:induction false} StatedLotIsCanonical(uploads: seq<CasUpload>, lots: seq<CanonicalLot>, k: nat, raw: Raw)
    requires IsCanonicalLots(uploads, lots) && LotsStored(uploads)
    requires k < |uploads| && uploads[k].payload.Some? && raw in uploads[k].payload.value && Classify(raw).Complete?
    ensures HasKey(lots, CanonicalKey(ClassifiedBase(uploads[k].portfolio, Classify(raw).lot), 0))
  {
    hide Classify, StoredBase, ClassifiedBase, NumberedLots, Overlap.Under, LotEntries;
    var u := uploads[k];
    var n := RowIsNumbered(u.payload.value, raw);
    var stored :| stored in u.lots && stored.lot == Classify(raw).lot.(occurrence := n);
    StoringKeepsIdentity(u.portfolio, raw, n);
    StoredIsReported(u.portfolio, u.id, u.statementDate, u.lots, stored);
    var base := StoredBase(u.portfolio, stored.lot);
    Overlap.MaxCountBounds(LotUploads(uploads), base);
    assert |Overlap.In(LotUploads(uploads)[k], base)| > 0;
  }

  lemma {:induction false} SamePortfolio(a: string, b: string, lot: Lot)
    requires NormalizedPortfolio(a) == b
    ensures NormalizedPortfolio(b) == b && ClassifiedBase(a, lot) == ClassifiedBase(b, lot)
  {
    Text.NormalizeTwice(a);
  }

  /** Disposal state and acquisition lots agree. For any uploads whose lot rows were stored from
      their payloads, every key of the consumption result is the key of a canonical lot, and its
      remainder lies between zero and less than that lot's quantity - although the result is
      built from raw payload rows and the lots from stored rows, and the two read the uploads in
      different orders. */
  lemma {:induction false} ConsumptionKeysAreCanonicalLots(
    read: seq<CasUpload>, unresolved: set<(string, string)>, remaining: map<CanonicalKey, real>,
    uploads: seq<CasUpload>, lots: seq<CanonicalLot>, key: CanonicalKey)
    requires IsConsumption(read, unresolved, remaining) && IsCanonicalLots(uploads, lots) && LotsStored(uploads)
    requires forall u | u in read :: u in uploads
    requires key in remaining
    ensures HasKey(lots, key)
    ensures 0.0 <= remaining[key] < key.base.quantity
  {
    hide IsCanonicalLots, IsCanonical, LotsStored, Unresolved, RemainingOf, KeyMap, Original, Events, Acquisitions;
    hide NormalizedPortfolio, Bases, ValuesOf;
    var p := key.base.portfolio;
    var sources := SourcesOf(read, p);
    assert key in PartOf(remaining, p);
    var members :| IsCanonical(sources, members)
      && InstrumentsOf(unresolved, p) == Unresolved(Events(ValuesOf(members)))
      && IsRenamed(RemainingOf(Events(ValuesOf(members))), KeyMap(p, ValuesOf(members)), PartOf(remaining, p));
    var rows := ValuesOf(members);
    var lotKey :| lotKey in RemainingOf(Events(rows)) && lotKey in KeyMap(p, rows) && KeyMap(p, rows)[lotKey] == key;
    ResolvedInstrumentsConserve(rows, lotKey.natural.instrument);
    KeyMapIsBijection(p, rows);
    var i := OriginalSource(LotsIn(rows), lotKey);
    KeyMapAt(p, rows, i);
    FirstOccurrence(p, rows, i);
    var raw := BaseOfRow(p, rows, i);
    var j := CanonicalRowSource(read, p, members, raw);
    assert read[j] in uploads;
    var k :| 0 <= k < |uploads| && uploads[k] == read[j];
    SamePortfolio(uploads[k].portfolio, p, Classify(raw).lot);
    StatedLotIsCanonical(uploads, lots, k, raw);
  }

  lemma {:induction false} FirstOccurrence(portfolio: string, rows: seq<Raw>, i: nat)
    requires i < |LotsIn(rows)| && LotsIn(rows)[i].key in RemainingOf(Events(rows))
    ensures |Bases(portfolio, rows)| == |LotsIn(rows)| && Occ(Bases(portfolio, rows), i) == 0
  {
    hide Events, Acquisitions, Original, RemainingOf, KeyMap, Bases, NormalizedPortfolio;
    var bases := Bases(portfolio, rows);
    KeyMapAt(portfolio, rows, i);
    if Occ(bases, i) > 0 {
      assert bases[i] in bases[..i];
      var j :| 0 <= j < i && bases[j] == bases[i];
      KeyMapAt(portfolio, rows, j);
      TouchedLotIsAlone(rows, i, j);
    }
  }

  lemma {:induction false} CanonicalRowSource(
    uploads: seq<CasUpload>, portfolio: string, members: seq<RawMember>, raw: Raw) returns (k: nat)
    requires IsCanonical(SourcesOf(uploads, portfolio), members) && raw in ValuesOf(members)
    ensures k < |uploads| && uploads[k].payload.Some? && raw in uploads[k].payload.value
    ensures NormalizedPortfolio(uploads[k].portfolio) == portfolio
  {
    hide NormalizedPortfolio, IsCanonical, ValuesOf;
    var j := CanonicalRowIsReported(SourcesOf(uploads, portfolio), members, raw);
    k := SourcesAreUploads(uploads, portfolio, j);
  }
}
