/** Laws of disposal netting over every row list: conservation, bounds, and the independence
    of one instrument from the rest of the statement. */
module LotConsumptionLaws {
  import opened InvestmentTransactions
  import opened LotConsumption
  import Occurrences
  import Sequences
  import Sorting
  import opened Wrappers

  // ---------------------------------------------------------------------------
  // Lots are numbered apart
  // ---------------------------------------------------------------------------

  lemma {:induction false} AcquisitionNumbered(events: seq<Event>, i: nat)
    requires i < |Acquisitions(events)|
    ensures
      var lots := Acquisitions(events);
      Naturals(lots)[i] == lots[i].key.natural && lots[i].key.occurrence == Occurrences.Occ(Naturals(lots), i)
  {
    var front := events[..|events| - 1];
    var before, lots := Acquisitions(front), Acquisitions(events);
    if events[|events| - 1].Acquired? {
      assert lots[..|before|] == before;
      assert Naturals(lots)[..|before|] == Naturals(before);
      if i < |before| {
        AcquisitionNumbered(front, i);
        assert Naturals(lots)[..i] == Naturals(before)[..i];
      }
    } else {
      AcquisitionNumbered(front, i);
    }
  }

  lemma {:induction false} AcquisitionKeysDistinct(events: seq<Event>, i: nat, j: nat)
    requires i < j < |Acquisitions(events)|
    ensures Acquisitions(events)[i].key != Acquisitions(events)[j].key
  {
    AcquisitionNumbered(events, i);
    AcquisitionNumbered(events, j);
    var ns := Naturals(Acquisitions(events));
    if ns[i] == ns[j] { Occurrences.OccDistinct(ns, i, j); }
  }

  ghost predicate KeysDistinct(lots: seq<Acquisition>) {
    forall i, j :: 0 <= i < j < |lots| ==> lots[i].key != lots[j].key
  }

  lemma {:induction false} AllKeysDistinct(events: seq<Event>)
    ensures KeysDistinct(Acquisitions(events))
  {
    forall i, j | 0 <= i < j < |Acquisitions(events)|
      ensures Acquisitions(events)[i].key != Acquisitions(events)[j].key
    {
      AcquisitionKeysDistinct(events, i, j);
    }
  }

  lemma {:induction false} OriginalQuantities(lots: seq<Acquisition>, i: nat)
    requires KeysDistinct(lots) && i < |lots|
    ensures lots[i].key in Original(lots) && Original(lots)[lots[i].key] == lots[i].quantity
  {
    var n := |lots| - 1;
    if i < n {
      OriginalQuantities(lots[..n], i);
      assert lots[..n][i] == lots[i];
    }
  }

  lemma {:induction false} OriginalSource(lots: seq<Acquisition>, key: LotKey) returns (i: nat)
    requires key in Original(lots)
    ensures i < |lots| && lots[i].key == key
  {
    var n := |lots| - 1;
    if lots[n].key == key {
      i := n;
    } else {
      i := OriginalSource(lots[..n], key);
    }
  }

  // ---------------------------------------------------------------------------
  // Exactly what is allocated, and in which order
  // ---------------------------------------------------------------------------

  /** Dated disposals first, by date; undated ones last; ties in source order. */
  ghost predicate Ordered(a: Disposal, b: Disposal) {
    && (a.disposedOn.None? ==> b.disposedOn.None?)
    && (a.disposedOn.Some? && b.disposedOn.Some? ==> a.disposedOn.value <= b.disposedOn.value)
    && (a.disposedOn == b.disposedOn ==> a.order < b.order)
  }

  ghost predicate InDisposalOrder(ds: seq<Disposal>) {
    forall i, j :: 0 <= i < j < |ds| ==> Ordered(ds[i], ds[j])
  }

  ghost predicate Numbered(ds: seq<Disposal>, last: nat) {
    && (forall i, j :: 0 <= i < j < |ds| ==> ds[i].order < ds[j].order)
    && (forall i :: 0 <= i < |ds| ==> ds[i].order <= last)
  }

  lemma {:induction false} DisposalsNumbered(events: seq<Event>, instrument: string)
    ensures Numbered(Disposals(events, instrument), Identified(events))
  {
    if events != [] {
      var front := events[..|events| - 1];
      DisposalsNumbered(front, instrument);
      assert Numbered(Disposals(front, instrument), Identified(front));
    }
  }

  /** Netting takes an instrument's disposals each once, in date order. */
  lemma {:induction false} DisposalsTakenInOrder(events: seq<Event>, instrument: string)
    ensures
      var ds := Disposals(events, instrument);
      InDisposalOrder(SortDisposals(ds)) && multiset(SortDisposals(ds)) == multiset(ds)
  {
    DisposalsNumbered(events, instrument);
    SortInOrder(Disposals(events, instrument), Identified(events));
  }

  lemma {:induction false} SortInOrder(ds: seq<Disposal>, last: nat)
    requires Numbered(ds, last)
    ensures InDisposalOrder(SortDisposals(ds)) && multiset(SortDisposals(ds)) == multiset(ds)
  {
    hide Sorting.Sort;
    var sorted := SortDisposals(ds);
    Sorting.SortSorts(Before, ds);
    Sorting.SortKeeps(Before, ds);
    assert !Sequences.Repeats(ds);
    forall i, j | 0 <= i < j < |sorted| ensures Ordered(sorted[i], sorted[j]) {
      var m, n := Sorting.SortSources(Before, ds, i, j);
      assert !Before(sorted[j], sorted[i]) && ds[m].order != ds[n].order;
    }
  }

  lemma {:induction false} ActiveDistinct(lots: seq<Acquisition>, remaining: Remaining)
    requires KeysDistinct(lots)
    ensures KeysDistinct(Active(lots, remaining))
  {
    if lots != [] {
      var front := lots[..|lots| - 1];
      ActiveDistinct(front, remaining);
      forall a | a in Active(front, remaining) ensures a.key != lots[|front|].key { InActive(front, remaining, a); }
    }
  }

  lemma {:induction false} WithReferenceDistinct(lots: seq<Acquisition>, reference: Option<string>)
    requires KeysDistinct(lots)
    ensures KeysDistinct(WithReference(lots, reference))
  {
    if lots != [] {
      var front := lots[..|lots| - 1];
      WithReferenceDistinct(front, reference);
      forall a | a in WithReference(front, reference) ensures a.key != lots[|front|].key {
        InWithReference(front, reference, a);
      }
    }
  }

  lemma {:induction false} EligibleDistinct(lots: seq<Acquisition>, disposedOn: Option<int>)
    requires KeysDistinct(lots)
    ensures KeysDistinct(Eligible(lots, disposedOn))
  {
    if lots != [] {
      var front := lots[..|lots| - 1];
      EligibleDistinct(front, disposedOn);
      forall a | a in Eligible(front, disposedOn) ensures a.key != lots[|front|].key {
        InEligible(front, disposedOn, a);
      }
    }
  }

  /** The lots one disposal considers are told apart by their keys. */
  lemma {:induction false} CandidatesDistinct(lots: seq<Acquisition>, instrument: string, ref: string)
    requires KeysDistinct(lots)
    ensures KeysDistinct(Candidates(lots, instrument, ref))
  {
    if lots != [] {
      var front := lots[..|lots| - 1];
      CandidatesDistinct(front, instrument, ref);
      forall a | a in Candidates(front, instrument, ref) ensures a.key != lots[|front|].key {
        InCandidates(front, instrument, ref, a);
      }
    }
  }

  lemma {:induction false} OnlyOne(lots: seq<Acquisition>, lot: Acquisition)
    requires KeysDistinct(lots) && lot in lots && forall a | a in lots :: a == lot
    ensures lots == [lot]
  {
    assert !Sequences.Repeats(lots);
    Sequences.SoleElement(lots, lot);
  }

  /** When a disposal may consume a lot, read off the facts: it names its source and quantity, the
      lot can bear it and was not acquired later, the facts single the lot out, and acquisitions
      of the same source that are too poor to be lots do not compete for the reference. */
  ghost predicate Identifies(
    d: Disposal, candidates: seq<Acquisition>, references: References, remaining: Remaining, lot: Acquisition)
  {
    && d.sourceRef != "" && d.quantity.Some? && 0.0 < d.quantity.value <= Held(remaining, lot.key)
    && NotAfter(lot.key.natural.acquiredOn, d.disposedOn)
    && SingledOut(d, candidates, remaining, lot)
    && (references != {} ==>
          d.reference.Some? && d.reference !in references && lot.key.natural.reference == d.reference)
  }

  /** Allocation is exact: of the lots that netting offers a disposal, one is consumed if and only
      if the facts identify it. */
  lemma {:induction false} AllocatesExactlyWhatIsIdentified(
    events: seq<Event>, instrument: string, d: Disposal, references: References, remaining: Remaining, lot: Acquisition)
    requires lot in Candidates(Acquisitions(events), instrument, d.sourceRef)
    ensures
      var candidates := Candidates(Acquisitions(events), instrument, d.sourceRef);
      Allocate(d, candidates, references, remaining) == Some(lot.key)
      <==> Identifies(d, candidates, references, remaining, lot)
  {
    hide Acquisitions, Candidates, Allocate, Identifies;
    var candidates := Candidates(Acquisitions(events), instrument, d.sourceRef);
    AllKeysDistinct(events);
    CandidatesDistinct(Acquisitions(events), instrument, d.sourceRef);
    if Allocate(d, candidates, references, remaining) == Some(lot.key) {
      IdentifiedIfAllocated(d, candidates, references, remaining, lot);
    }
    if Identifies(d, candidates, references, remaining, lot) {
      AllocatedIfIdentified(d, candidates, references, remaining, lot);
    }
  }

  lemma {:induction false} IdentifiedIfAllocated(
    d: Disposal, candidates: seq<Acquisition>, references: References, remaining: Remaining, lot: Acquisition)
    requires KeysDistinct(candidates) && lot in candidates
    requires Allocate(d, candidates, references, remaining) == Some(lot.key)
    ensures Identifies(d, candidates, references, remaining, lot)
  {
    var chosen := AllocationNeverGuesses(d, candidates, references, remaining);
    assert chosen == lot;
    if references != {} {
      var exact := WithReference(Active(candidates, remaining), d.reference);
      Narrowed(d, candidates, remaining, exact[0]);
      assert exact[0] in exact;
    }
  }

  lemma {:induction false} AllocatedIfIdentified(
    d: Disposal, candidates: seq<Acquisition>, references: References, remaining: Remaining, lot: Acquisition)
    requires KeysDistinct(candidates) && lot in candidates
    requires Identifies(d, candidates, references, remaining, lot)
    ensures Allocate(d, candidates, references, remaining) == Some(lot.key)
  {
    hide Active, WithReference, Eligible, Held;
    var active := Active(candidates, remaining);
    var exact, eligible := WithReference(active, d.reference), Eligible(active, d.disposedOn);
    forall a
      ensures a in active <==> a in candidates && Held(remaining, a.key) > 0.0
      ensures a in exact <==> a in active && a.key.natural.reference == d.reference
      ensures a in eligible <==> a in active && NotAfter(a.key.natural.acquiredOn, d.disposedOn)
    {
      Narrowed(d, candidates, remaining, a);
    }
    ActiveDistinct(candidates, remaining);
    WithReferenceDistinct(active, d.reference);
    EligibleDistinct(active, d.disposedOn);
    if d.reference.Some? && lot.key.natural.reference == d.reference {
      OnlyOne(exact, lot);
    } else {
      assert exact != [] ==> exact[0] in exact;
      OnlyOne(eligible, lot);
    }
  }

  // ---------------------------------------------------------------------------
  // Conservation
  // ---------------------------------------------------------------------------

  ghost function TotalQuantity(ds: seq<Disposal>): real {
    if ds == [] then 0.0 else TotalQuantity(ds[..|ds| - 1]) + Quantity(ds[|ds| - 1])
  }

  /** What the disposals that `trace` assigns to `key` took from it. */
  ghost function TakenFrom(ds: seq<Disposal>, trace: seq<LotKey>, key: LotKey): real
    requires |trace| <= |ds|
  {
    if trace == [] then 0.0 else
      (if trace[0] == key then Quantity(ds[0]) else 0.0) + TakenFrom(ds[1..], trace[1..], key)
  }

  /** Sum of a dictionary over the lots of one instrument. */
  ghost function TotalHeld(lots: seq<Acquisition>, instrument: string, m: Remaining): real {
    if lots == [] then 0.0 else
      var last := lots[|lots| - 1];
      TotalHeld(lots[..|lots| - 1], instrument, m)
      + if last.key.natural.instrument == instrument then Held(m, last.key) else 0.0
  }

  lemma {:induction false} TotalQuantityFront(ds: seq<Disposal>)
    requires ds != []
    ensures TotalQuantity(ds) == Quantity(ds[0]) + TotalQuantity(ds[1..])
  {
    if |ds| > 1 {
      TotalQuantityFront(ds[..|ds| - 1]);
      assert ds[1..][..|ds| - 2] == ds[..|ds| - 1][1..];
    } else {
      assert ds[..0] == [] && ds[1..] == [];
    }
  }

  lemma {:induction false} ConsumeOther(
    lots: seq<Acquisition>, instrument: string, m: Remaining, key: LotKey, d: Disposal)
    requires forall i | 0 <= i < |lots| :: lots[i].key != key
    ensures TotalHeld(lots, instrument, Consume(m, key, d)) == TotalHeld(lots, instrument, m)
  {
    if lots != [] {
      ConsumeOther(lots[..|lots| - 1], instrument, m, key, d);
      assert lots[|lots| - 1].key != key;
    }
  }

  lemma {:induction false} ConsumeTotal(
    lots: seq<Acquisition>, instrument: string, m: Remaining, i: nat, d: Disposal)
    requires KeysDistinct(lots) && i < |lots| && lots[i].key.natural.instrument == instrument
    ensures TotalHeld(lots, instrument, Consume(m, lots[i].key, d)) == TotalHeld(lots, instrument, m) - Quantity(d)
  {
    var n := |lots| - 1;
    if i == n {
      ConsumeOther(lots[..n], instrument, m, lots[n].key, d);
    } else {
      ConsumeTotal(lots[..n], instrument, m, i, d);
      assert lots[..n][i] == lots[i];
      assert lots[n].key != lots[i].key;
    }
  }

  ghost predicate NonNegative(m: Remaining) {
    forall key: LotKey :: Held(m, key) >= 0.0
  }

  lemma {:induction false} ConsumeNonNegative(m: Remaining, key: LotKey, d: Disposal)
    requires NonNegative(m) && Quantity(d) <= Held(m, key)
    ensures NonNegative(Consume(m, key, d))
  {
    var next := Consume(m, key, d);
    forall k: LotKey ensures Held(next, k) >= 0.0 {
      assert Held(m, k) >= 0.0;
    }
  }

  /** Each lot loses exactly what the disposals assigned to it dispose, and never more than it holds. */
  lemma {:induction false} NetPerLot(
    ds: seq<Disposal>, lots: seq<Acquisition>, instrument: string, ambiguous: map<string, References>,
    m: Remaining, key: LotKey)
    requires NonNegative(m)
    ensures
      var r := Net(ds, lots, instrument, ambiguous, m);
      && Held(r.remaining, key) == Held(m, key) - TakenFrom(ds, r.trace, key)
      && 0.0 <= Held(r.remaining, key) <= Held(m, key)
      && (key in r.trace <==> Held(r.remaining, key) != Held(m, key))
    decreases |ds|
  {
    if ds != [] {
      var d := ds[0];
      var references := Occurrences.Lookup(ambiguous, d.sourceRef, {});
      if Allocate(d, Candidates(lots, instrument, d.sourceRef), references, m).Some? {
        var lot := AllocateWithin(d, lots, instrument, references, m);
        ConsumeNonNegative(m, lot.key, d);
        NetPerLot(ds[1..], lots, instrument, ambiguous, Consume(m, lot.key, d), key);
      }
    }
  }

  /** Every netting step moves quantity from one lot of the instrument to one disposal. */
  lemma {:induction false} NetTotal(
    ds: seq<Disposal>, lots: seq<Acquisition>, instrument: string, ambiguous: map<string, References>, m: Remaining)
    requires KeysDistinct(lots)
    ensures
      var r := Net(ds, lots, instrument, ambiguous, m);
      TotalHeld(lots, instrument, m) - TotalHeld(lots, instrument, r.remaining) == TotalQuantity(ds[..|r.trace|])
    decreases |ds|
  {
    hide Candidates, Allocate, Consume, TotalHeld, KeysDistinct, TotalQuantity, Net;
    NoQuantity();
    if ds == [] {
      NetNothing(lots, instrument, ambiguous, m);
    } else {
      NetUnfolds(ds, lots, instrument, ambiguous, m);
      var d := ds[0];
      var references := Occurrences.Lookup(ambiguous, d.sourceRef, {});
      if Allocate(d, Candidates(lots, instrument, d.sourceRef), references, m).Some? {
        var lot := AllocateWithin(d, lots, instrument, references, m);
        var i :| 0 <= i < |lots| && lots[i] == lot;
        ConsumeTotal(lots, instrument, m, i, d);
        NetTotal(ds[1..], lots, instrument, ambiguous, Consume(m, lot.key, d));
        FrontTotal(ds, |Net(ds[1..], lots, instrument, ambiguous, Consume(m, lot.key, d)).trace|);
      }
    }
  }

  lemma {:induction false} FrontTotal(ds: seq<Disposal>, n: nat)
    requires n < |ds|
    ensures TotalQuantity(ds[..n + 1]) == Quantity(ds[0]) + TotalQuantity(ds[1..][..n])
  {
    TotalQuantityFront(ds[..n + 1]);
    assert ds[..n + 1][1..] == ds[1..][..n];
  }

  lemma {:induction false} NoQuantity()
    ensures TotalQuantity([]) == 0.0
  {
  }

  lemma {:induction false} TotalAppend(ds: seq<Disposal>, d: Disposal)
    ensures TotalQuantity(ds + [d]) == TotalQuantity(ds) + Quantity(d)
  {
    assert (ds + [d])[..|ds|] == ds;
  }

  lemma {:induction false} InsertTotal(sorted: seq<Disposal>, d: Disposal)
    ensures TotalQuantity(Sorting.Insert(Before, sorted, d)) == TotalQuantity(sorted) + Quantity(d)
  {
    hide Before, Quantity;
    if sorted == [] {
      TotalAppend([], d);
    } else {
      var front, last := sorted[..|sorted| - 1], sorted[|sorted| - 1];
      if Before(d, last) {
        InsertTotal(front, d);
        TotalAppend(Sorting.Insert(Before, front, d), last);
      } else {
        TotalAppend(sorted, d);
      }
    }
  }

  lemma {:induction false} SortTotal(ds: seq<Disposal>)
    ensures TotalQuantity(SortDisposals(ds)) == TotalQuantity(ds)
  {
    if ds != [] {
      SortTotal(ds[..|ds| - 1]);
      InsertTotal(SortDisposals(ds[..|ds| - 1]), ds[|ds| - 1]);
    }
  }

  ghost predicate PositiveQuantities(events: seq<Event>) {
    forall i | 0 <= i < |events| :: events[i].Acquired? ==> events[i].quantity > 0.0
  }

  lemma {:induction false} EventsPositive(rows: seq<Raw>)
    ensures PositiveQuantities(Events(rows))
  {
    hide Classify;
    if rows != [] { EventsPositive(rows[..|rows| - 1]); }
  }

  lemma {:induction false} OriginalNonNegative(events: seq<Event>, key: LotKey)
    requires PositiveQuantities(events)
    ensures Held(Original(Acquisitions(events)), key) >= 0.0
    ensures key in Original(Acquisitions(events)) ==> Original(Acquisitions(events))[key] > 0.0
  {
    if events != [] {
      var front := events[..|events| - 1];
      OriginalNonNegative(front, key);
      if events[|events| - 1].Acquired? {
        assert Acquisitions(events)[..|Acquisitions(front)|] == Acquisitions(front);
      }
    }
  }

  /** What a reader of the result sees of one lot: its reported remainder, else its whole quantity. */
  ghost function Reported(events: seq<Event>): Remaining {
    Original(Acquisitions(events)) + RemainingOf(events)
  }

  /** Conservation over every row list. A reported remainder lies between zero and less than the
      lot's quantity; the reported lots are exactly the lots of resolved instruments that some
      disposal consumed; and for an instrument that is not unresolved, the lots' original total
      less their reported total is the total of all its disposals. */
  lemma {:induction false} ResolvedInstrumentsConserve(rows: seq<Raw>, instrument: string)
    ensures
      var events := Events(rows);
      var original := Original(Acquisitions(events));
      var netting := InstrumentNetting(events, instrument);
      && (forall key: LotKey | key.natural.instrument == instrument ::
            && (key in RemainingOf(events) <==> instrument !in Unresolved(events) && key in netting.trace)
            && (key in RemainingOf(events) ==> key in original && 0.0 <= RemainingOf(events)[key] < original[key]))
      && (instrument !in Unresolved(events) ==>
            TotalHeld(Acquisitions(events), instrument, original)
            - TotalHeld(Acquisitions(events), instrument, Reported(events))
            == TotalQuantity(Disposals(events, instrument)))
  {
    var events := Events(rows);
    EventsPositive(rows);
    ConservesOn(events, instrument);
  }

  /** What netting an instrument does to one of its lots. */
  lemma {:induction false} NettingWithin(events: seq<Event>, instrument: string, key: LotKey)
    requires PositiveQuantities(events)
    ensures
      var original, netting := Original(Acquisitions(events)), InstrumentNetting(events, instrument);
      && netting.remaining.Keys == original.Keys
      && 0.0 <= Held(netting.remaining, key) <= Held(original, key)
      && (key in netting.trace <==> Held(netting.remaining, key) != Held(original, key))
  {
    hide Net, Acquisitions, Original, SortDisposals, Disposals, Ambiguous, TakenFrom;
    var lots := Acquisitions(events);
    var original, sorted := Original(lots), SortDisposals(Disposals(events, instrument));
    forall k: LotKey ensures Held(original, k) >= 0.0 { OriginalNonNegative(events, k); }
    NetPerLot(sorted, lots, instrument, Ambiguous(events, instrument), original, key);
    NetLocal(sorted, lots, instrument, Ambiguous(events, instrument), original, original);
  }

  lemma {:induction false} ReportedLot(events: seq<Event>, instrument: string, key: LotKey)
    requires PositiveQuantities(events) && key.natural.instrument == instrument
    ensures
      var original, remaining := Original(Acquisitions(events)), RemainingOf(events);
      var netting := InstrumentNetting(events, instrument);
      && (key in remaining <==> instrument !in Unresolved(events) && key in netting.trace)
      && (key in remaining ==> key in original && 0.0 <= remaining[key] < original[key])
      && (instrument !in Unresolved(events) ==> Held(Reported(events), key) == Held(netting.remaining, key))
  {
    hide InstrumentNetting, Unresolved, Acquisitions, Original;
    NettingWithin(events, instrument, key);
  }

  lemma {:induction false} ConservesOn(events: seq<Event>, instrument: string)
    requires PositiveQuantities(events)
    ensures
      var original := Original(Acquisitions(events));
      var netting := InstrumentNetting(events, instrument);
      && (forall key: LotKey | key.natural.instrument == instrument ::
            && (key in RemainingOf(events) <==> instrument !in Unresolved(events) && key in netting.trace)
            && (key in RemainingOf(events) ==> key in original && 0.0 <= RemainingOf(events)[key] < original[key]))
      && (instrument !in Unresolved(events) ==>
            TotalHeld(Acquisitions(events), instrument, original)
            - TotalHeld(Acquisitions(events), instrument, Reported(events))
            == TotalQuantity(Disposals(events, instrument)))
  {
    hide RemainingOf, Reported, Acquisitions, Original, Net, SortDisposals, Disposals, Ambiguous, DisposalInstruments;
    forall key: LotKey | key.natural.instrument == instrument
      ensures key in RemainingOf(events) <==>
        instrument !in Unresolved(events) && key in InstrumentNetting(events, instrument).trace
      ensures key in RemainingOf(events) ==>
        key in Original(Acquisitions(events))
        && 0.0 <= RemainingOf(events)[key] < Original(Acquisitions(events))[key]
      ensures instrument !in Unresolved(events) ==>
        Held(Reported(events), key) == Held(InstrumentNetting(events, instrument).remaining, key)
    {
      ReportedLot(events, instrument, key);
    }
    if instrument !in Unresolved(events) {
      var lots, netting := Acquisitions(events), InstrumentNetting(events, instrument);
      var sorted := SortDisposals(Disposals(events, instrument));
      AllKeysDistinct(events);
      NetTotal(sorted, lots, instrument, Ambiguous(events, instrument), Original(lots));
      assert netting.ok by { ResolvedNets(events, instrument); }
      assert sorted[..|netting.trace|] == sorted;
      SortTotal(Disposals(events, instrument));
      SameTotal(lots, instrument, Reported(events), netting.remaining);
    }
  }

  lemma {:induction false} ResolvedNets(events: seq<Event>, instrument: string)
    requires instrument !in Unresolved(events)
    ensures InstrumentNetting(events, instrument).ok
  {
    NoDisposals(events, instrument);
    if Disposals(events, instrument) == [] { assert SortDisposals([]) == []; }
  }

  lemma {:induction false} SameTotal(lots: seq<Acquisition>, instrument: string, a: Remaining, b: Remaining)
    requires forall key: LotKey | key.natural.instrument == instrument :: Held(a, key) == Held(b, key)
    ensures TotalHeld(lots, instrument, a) == TotalHeld(lots, instrument, b)
  {
    if lots != [] { SameTotal(lots[..|lots| - 1], instrument, a, b); }
  }

  // ---------------------------------------------------------------------------
  // Independence from other instruments and from interleaving
  // ---------------------------------------------------------------------------

  ghost predicate Concerns(e: Event, instrument: string, disposal: bool) {
    match e
    case Disposed(i, _) => i == instrument && disposal
    case Acquired(n, _) => n.instrument == instrument && !disposal
    case Unclear(i, _, _) => i == instrument && !disposal
    case _ => false
  }

  /** The events of one instrument on one side: its disposals, or its acquisitions of any kind. */
  ghost function Side(events: seq<Event>, instrument: string, disposal: bool): seq<Event> {
    if events == [] then [] else
      var last := events[|events| - 1];
      var before := Side(events[..|events| - 1], instrument, disposal);
      if Concerns(last, instrument, disposal) then before + [last] else before
  }

  lemma {:induction false} SideStep(events: seq<Event>, instrument: string, disposal: bool)
    requires events != [] && Concerns(events[|events| - 1], instrument, disposal)
    ensures
      var side := Side(events, instrument, disposal);
      side != [] && side[|side| - 1] == events[|events| - 1]
      && side[..|side| - 1] == Side(events[..|events| - 1], instrument, disposal)
  {
  }

  ghost function OfInstrument(lots: seq<Acquisition>, instrument: string): seq<Acquisition> {
    if lots == [] then [] else
      var last := lots[|lots| - 1];
      var before := OfInstrument(lots[..|lots| - 1], instrument);
      if last.key.natural.instrument == instrument then before + [last] else before
  }

  lemma {:induction false} OfInstrumentCount(lots: seq<Acquisition>, instrument: string, n: Natural)
    requires n.instrument == instrument
    ensures multiset(Naturals(lots))[n] == multiset(Naturals(OfInstrument(lots, instrument)))[n]
  {
    if lots != [] {
      var front, last := lots[..|lots| - 1], lots[|lots| - 1];
      OfInstrumentCount(front, instrument, n);
      var kept := OfInstrument(front, instrument);
      if last.key.natural.instrument == instrument {
        assert (kept + [last])[..|kept|] == kept;
        assert Naturals(kept + [last]) == Naturals(kept) + [last.key.natural];
      }
    }
  }

  /** Occurrence numbers of an instrument's lots do not see the other instruments' rows. */
  lemma {:induction false} AcquisitionsOfSide(events: seq<Event>, instrument: string)
    ensures OfInstrument(Acquisitions(events), instrument) == Acquisitions(Side(events, instrument, false))
  {
    if events != [] {
      var front, last := events[..|events| - 1], events[|events| - 1];
      AcquisitionsOfSide(front, instrument);
      if Concerns(last, instrument, false) { SideStep(events, instrument, false); }
      if last.Acquired? {
        var before := Acquisitions(front);
        assert Acquisitions(events)[..|before|] == before;
        if last.natural.instrument == instrument {
          OfInstrumentCount(before, instrument, last.natural);
        }
      }
    }
  }

  lemma {:induction false} AmbiguousOfSide(events: seq<Event>, instrument: string)
    ensures Ambiguous(events, instrument) == Ambiguous(Side(events, instrument, false), instrument)
  {
    if events != [] {
      AmbiguousOfSide(events[..|events| - 1], instrument);
      if Concerns(events[|events| - 1], instrument, false) { SideStep(events, instrument, false); }
    }
  }

  lemma {:induction false} CandidatesOfInstrument(lots: seq<Acquisition>, instrument: string, ref: string)
    ensures Candidates(lots, instrument, ref) == Candidates(OfInstrument(lots, instrument), instrument, ref)
  {
    if lots != [] {
      var front, last := lots[..|lots| - 1], lots[|lots| - 1];
      CandidatesOfInstrument(front, instrument, ref);
      var kept := OfInstrument(front, instrument);
      assert (kept + [last])[..|kept|] == kept;
    }
  }

  lemma {:induction false} OriginalOfInstrument(lots: seq<Acquisition>, instrument: string)
    ensures AgreeOn(Original(lots), Original(OfInstrument(lots, instrument)), instrument)
  {
    if lots != [] {
      var front, last := lots[..|lots| - 1], lots[|lots| - 1];
      OriginalOfInstrument(front, instrument);
      var kept := OfInstrument(front, instrument);
      assert (kept + [last])[..|kept|] == kept;
    }
  }

  /** Two disposal lists that differ only in their position numbers, both in source order. */
  ghost predicate SameFacts(a: seq<Disposal>, b: seq<Disposal>) {
    |a| == |b| && forall i | 0 <= i < |a| :: a[i].(order := 0) == b[i].(order := 0)
  }

  ghost predicate AllBelow(ds: seq<Disposal>, order: nat) {
    forall i | 0 <= i < |ds| :: ds[i].order < order
  }

  lemma {:induction false} InsertSameFacts(a: seq<Disposal>, b: seq<Disposal>, d: Disposal, e: Disposal)
    requires SameFacts(a, b) && d.(order := 0) == e.(order := 0) && AllBelow(a, d.order) && AllBelow(b, e.order)
    ensures SameFacts(Sorting.Insert(Before, a, d), Sorting.Insert(Before, b, e))
  {
    if a != [] {
      var n := |a| - 1;
      assert a[n].(order := 0) == b[n].(order := 0);
      if Before(d, a[n]) { InsertSameFacts(a[..n], b[..n], d, e); }
    }
  }

  lemma {:induction false} InsertBelow(a: seq<Disposal>, d: Disposal, order: nat)
    requires AllBelow(a, order) && d.order < order
    ensures AllBelow(Sorting.Insert(Before, a, d), order)
  {
    if a != [] && Before(d, a[|a| - 1]) { InsertBelow(a[..|a| - 1], d, order); }
  }

  lemma {:induction false} DisposalsBelow(events: seq<Event>, instrument: string, order: nat)
    requires Identified(events) < order
    ensures AllBelow(SortDisposals(Disposals(events, instrument)), order)
  {
    if events != [] {
      var front := events[..|events| - 1];
      DisposalsBelow(front, instrument, order);
      var ds, before := Disposals(events, instrument), Disposals(front, instrument);
      if ds != before {
        assert ds[..|before|] == before;
        InsertBelow(SortDisposals(before), ds[|before|], order);
      }
    }
  }

  /** Sorting an instrument's disposals by date and position sees only their source order. */
  lemma {:induction false} SortedOfSide(events: seq<Event>, instrument: string)
    ensures
      var side := Side(events, instrument, true);
      SameFacts(SortDisposals(Disposals(events, instrument)), SortDisposals(Disposals(side, instrument)))
  {
    if events != [] {
      var front, last := events[..|events| - 1], events[|events| - 1];
      SortedOfSide(front, instrument);
      if Concerns(last, instrument, true) {
        SideStep(events, instrument, true);
        var side, before := Side(events, instrument, true), Side(front, instrument, true);
        var d, e := last.disposal.(order := Identified(events)), last.disposal.(order := Identified(side));
        assert (Disposals(front, instrument) + [d])[..|Disposals(front, instrument)|] == Disposals(front, instrument);
        assert (Disposals(before, instrument) + [e])[..|Disposals(before, instrument)|]
          == Disposals(before, instrument);
        DisposalsBelow(front, instrument, d.order);
        DisposalsBelow(before, instrument, e.order);
        InsertSameFacts(
          SortDisposals(Disposals(front, instrument)), SortDisposals(Disposals(before, instrument)), d, e);
      }
    }
  }

  lemma {:induction false} AllocateSameFacts(
    d: Disposal, e: Disposal, candidates: seq<Acquisition>, references: References, m: Remaining)
    requires d.(order := 0) == e.(order := 0)
    ensures Allocate(d, candidates, references, m) == Allocate(e, candidates, references, m)
    ensures d.sourceRef == e.sourceRef && forall key :: Consume(m, key, d) == Consume(m, key, e)
  {
  }

  lemma {:induction false} NetSameFacts(
    a: seq<Disposal>, b: seq<Disposal>, lots: seq<Acquisition>, instrument: string,
    ambiguous: map<string, References>, m: Remaining)
    requires SameFacts(a, b)
    ensures Net(a, lots, instrument, ambiguous, m) == Net(b, lots, instrument, ambiguous, m)
    decreases |a|
  {
    if a != [] {
      hide Candidates, Allocate, Consume;
      assert a[0].(order := 0) == b[0].(order := 0);
      var candidates := Candidates(lots, instrument, a[0].sourceRef);
      var references := Occurrences.Lookup(ambiguous, a[0].sourceRef, {});
      AllocateSameFacts(a[0], b[0], candidates, references, m);
      if Allocate(a[0], candidates, references, m).Some? {
        var key := Allocate(a[0], candidates, references, m).value;
        NetSameFacts(a[1..], b[1..], lots, instrument, ambiguous, Consume(m, key, a[0]));
      }
    }
  }

  lemma {:induction false} NetSameCandidates(
    ds: seq<Disposal>, a: seq<Acquisition>, b: seq<Acquisition>, instrument: string,
    ambiguous: map<string, References>, m: Remaining)
    requires forall ref :: Candidates(a, instrument, ref) == Candidates(b, instrument, ref)
    ensures Net(ds, a, instrument, ambiguous, m) == Net(ds, b, instrument, ambiguous, m)
    decreases |ds|
  {
    if ds != [] {
      var references := Occurrences.Lookup(ambiguous, ds[0].sourceRef, {});
      var chosen := Allocate(ds[0], Candidates(a, instrument, ds[0].sourceRef), references, m);
      if chosen.Some? {
        NetSameCandidates(ds[1..], a, b, instrument, ambiguous, Consume(m, chosen.value, ds[0]));
      }
    }
  }

  lemma {:induction false} NettingOfSides(events: seq<Event>, instrument: string)
    ensures
      var lots := Acquisitions(Side(events, instrument, false));
      var r := Net(SortDisposals(Disposals(Side(events, instrument, true), instrument)), lots, instrument,
                   Ambiguous(Side(events, instrument, false), instrument), Original(lots));
      var s := InstrumentNetting(events, instrument);
      && s.ok == r.ok && s.trace == r.trace && AgreeOn(s.remaining, r.remaining, instrument)
      && AgreeOn(Original(Acquisitions(events)), Original(lots), instrument)
  {
    var all, lots := Acquisitions(events), Acquisitions(Side(events, instrument, false));
    var ambiguous := Ambiguous(events, instrument);
    var mine, alone := SortDisposals(Disposals(events, instrument)),
      SortDisposals(Disposals(Side(events, instrument, true), instrument));
    AcquisitionsOfSide(events, instrument);
    AmbiguousOfSide(events, instrument);
    OriginalOfInstrument(all, instrument);
    SortedOfSide(events, instrument);
    NetSameFacts(mine, alone, all, instrument, ambiguous, Original(all));
    forall ref ensures Candidates(all, instrument, ref) == Candidates(lots, instrument, ref) {
      CandidatesOfInstrument(all, instrument, ref);
    }
    NetSameCandidates(alone, all, lots, instrument, ambiguous, Original(all));
    NetLocal(alone, lots, instrument, ambiguous, Original(all), Original(lots));
  }

  /** Disposal netting does not leak. Any two row lists that give one instrument the same
      acquisition subsequence and the same disposal subsequence give it the same verdict and the
      same remainders, however the two subsequences interleave and whatever rows the other
      instruments have. */
  lemma {:induction false} NettingIgnoresOtherRows(a: seq<Event>, b: seq<Event>, instrument: string)
    requires Side(a, instrument, false) == Side(b, instrument, false)
    requires Side(a, instrument, true) == Side(b, instrument, true)
    ensures instrument in Unresolved(a) <==> instrument in Unresolved(b)
    ensures forall key: LotKey | key.natural.instrument == instrument ::
      && (key in RemainingOf(a) <==> key in RemainingOf(b))
      && (key in RemainingOf(a) ==> RemainingOf(a)[key] == RemainingOf(b)[key])
  {
    NettingOfSides(a, instrument);
    NettingOfSides(b, instrument);
    NoDisposals(a, instrument);
    NoDisposals(b, instrument);
    OriginalKeysOfSide(a, b, instrument);
    forall key: LotKey | key.natural.instrument == instrument
      ensures HeldAfter(a, key) == HeldAfter(b, key)
      ensures key in Original(Acquisitions(a)) <==> key in Original(Acquisitions(b))
    {
    }
  }

  lemma {:induction false} KeysOfInstrument(lots: seq<Acquisition>, instrument: string, key: LotKey)
    requires key.natural.instrument == instrument
    ensures key in Original(lots) <==> key in Original(OfInstrument(lots, instrument))
  {
    if lots != [] {
      var front, last := lots[..|lots| - 1], lots[|lots| - 1];
      KeysOfInstrument(front, instrument, key);
      var kept := OfInstrument(front, instrument);
      assert (kept + [last])[..|kept|] == kept;
    }
  }

  lemma {:induction false} OriginalKeysOfSide(a: seq<Event>, b: seq<Event>, instrument: string)
    requires Side(a, instrument, false) == Side(b, instrument, false)
    ensures forall key: LotKey | key.natural.instrument == instrument ::
      key in Original(Acquisitions(a)) <==> key in Original(Acquisitions(b))
  {
    AcquisitionsOfSide(a, instrument);
    AcquisitionsOfSide(b, instrument);
    forall key: LotKey | key.natural.instrument == instrument
      ensures key in Original(Acquisitions(a)) <==> key in Original(Acquisitions(b))
    {
      KeysOfInstrument(Acquisitions(a), instrument, key);
      KeysOfInstrument(Acquisitions(b), instrument, key);
    }
  }

  function OnlyInstrument(rows: seq<Raw>, instrument: string): seq<Raw> {
    if rows == [] then [] else
      var last := rows[|rows| - 1];
      var before := OnlyInstrument(rows[..|rows| - 1], instrument);
      if TxnIsin(last) == Some(instrument) then before + [last] else before
  }

  lemma {:induction false} SideAppend(events: seq<Event>, e: Event, instrument: string, disposal: bool)
    ensures Side(events + [e], instrument, disposal)
      == Side(events, instrument, disposal) + if Concerns(e, instrument, disposal) then [e] else []
  {
    assert (events + [e])[..|events|] == events;
  }

  lemma {:induction false} OtherConcernsNot(raw: Raw, instrument: string, disposal: bool)
    requires TxnIsin(raw) != Some(instrument)
    ensures !Concerns(EventOf(raw), instrument, disposal)
  {
    hide Classify, IsDisposal, IsAcquisition, TxnIsin, NormalizedRef, DisposalOf;
  }

  lemma {:induction false} SideOfOnly(rows: seq<Raw>, instrument: string, disposal: bool)
    ensures Side(Events(OnlyInstrument(rows, instrument)), instrument, disposal)
      == Side(Events(rows), instrument, disposal)
  {
    hide EventOf, TxnIsin, Side, Concerns;
    if rows != [] {
      var last := rows[|rows| - 1];
      var before := OnlyInstrument(rows[..|rows| - 1], instrument);
      SideOfOnly(rows[..|rows| - 1], instrument, disposal);
      SideAppend(Events(rows[..|rows| - 1]), EventOf(last), instrument, disposal);
      SideAppend(Events(before), EventOf(last), instrument, disposal);
      assert (before + [last])[..|before|] == before;
      if TxnIsin(last) != Some(instrument) { OtherConcernsNot(last, instrument, disposal); }
    } else {
      assert OnlyInstrument(rows, instrument) == rows;
    }
  }

  /** Removing every row of the other instruments changes nothing for one instrument. */
  lemma {:induction false} OtherInstrumentsIrrelevant(rows: seq<Raw>, instrument: string)
    ensures
      var whole, alone := Events(rows), Events(OnlyInstrument(rows, instrument));
      && (instrument in Unresolved(whole) <==> instrument in Unresolved(alone))
      && forall key: LotKey | key.natural.instrument == instrument ::
          Occurrences.Lookup(RemainingOf(whole), key, -1.0) == Occurrences.Lookup(RemainingOf(alone), key, -1.0)
  {
    SideOfOnly(rows, instrument, false);
    SideOfOnly(rows, instrument, true);
    NettingIgnoresOtherRows(Events(rows), Events(OnlyInstrument(rows, instrument)), instrument);
  }
}
