/** Netting of disposals against acquisition lots: what `resolve_lot_consumption` computes
    from one list of CAS rows, instrument by instrument. */
module LotConsumption {
  import opened InvestmentTransactions
  import opened Occurrences
  import Sequences
  import Sorting
  import Text
  import opened Wrappers

  /** The facts that identify an acquisition in its source. */
  datatype Natural = Natural(instrument: string, sourceRef: string, acquiredOn: int, reference: Option<string>)

  datatype LotKey = LotKey(natural: Natural, occurrence: nat)

  datatype Acquisition = Acquisition(key: LotKey, quantity: real)

  datatype Disposal = Disposal(
    sourceRef: string,
    quantity: Option<real>,
    disposedOn: Option<int>,
    reference: Option<string>,
    order: nat)

  type Remaining = map<LotKey, real>
  type References = set<Option<string>>

  // ---------------------------------------------------------------------------
  // Facts collected from the rows
  // ---------------------------------------------------------------------------

  function NaturalOf(lot: Lot): Natural {
    Natural(lot.instrument, Text.Strip(lot.sourceRef), lot.acquiredOn, NormalizedReference(lot.reference))
  }

  /** What one row contributes to netting. */
  datatype Event =
    | Unidentified
    | Disposed(instrument: string, disposal: Disposal)
    | Acquired(natural: Natural, quantity: real)
    | Unclear(instrument: string, sourceRef: string, reference: Option<string>)
    | Other(instrument: string)

  function EventOf(raw: Raw): (e: Event)
    ensures e.Acquired? <==> Classify(raw).Complete?
    ensures e.Acquired? ==> e == Acquired(NaturalOf(Classify(raw).lot), Classify(raw).lot.quantity) && e.quantity > 0.0
    ensures e.Acquired? ==> TxnIsin(raw) == Some(e.natural.instrument)
  {
    var isin := TxnIsin(raw);
    if Classify(raw).Complete? then
      LotStatesSourceFacts(raw);
      Acquired(NaturalOf(Classify(raw).lot), Classify(raw).lot.quantity)
    else if isin.None? then Unidentified
    else if IsDisposal(raw) then Disposed(isin.value, DisposalOf(raw, 0))
    else if IsAcquisition(raw) && NormalizedRef(raw.sourceRef) != "" then
      Unclear(isin.value, NormalizedRef(raw.sourceRef), NormalizedReference(raw.reference))
    else Other(isin.value)
  }

  function Events(rows: seq<Raw>): (events: seq<Event>)
    ensures |events| == |rows|
  {
    if rows == [] then [] else Events(rows[..|rows| - 1]) + [EventOf(rows[|rows| - 1])]
  }

  function DisposalOf(raw: Raw, order: nat): Disposal {
    Disposal(
      NormalizedRef(raw.sourceRef),
      if raw.units.Number? then Some(Abs(raw.units.value)) else None,
      if raw.date.Day? then Some(raw.date.day) else None,
      NormalizedReference(raw.reference),
      order)
  }

  ghost function Naturals(acquisitions: seq<Acquisition>): (ns: seq<Natural>)
    ensures |ns| == |acquisitions|
  {
    if acquisitions == [] then [] else
      var last := acquisitions[|acquisitions| - 1];
      Naturals(acquisitions[..|acquisitions| - 1]) + [last.key.natural]
  }

  lemma {:induction false} NaturalsAppend(acquisitions: seq<Acquisition>, a: Acquisition)
    ensures Naturals(acquisitions + [a]) == Naturals(acquisitions) + [a.key.natural]
  {
    assert (acquisitions + [a])[..|acquisitions|] == acquisitions;
  }

  /** Every acquisition fact, numbered within its natural identity. */
  ghost function Acquisitions(events: seq<Event>): seq<Acquisition> {
    if events == [] then [] else
      var before := Acquisitions(events[..|events| - 1]);
      var last := events[|events| - 1];
      if last.Acquired? then before + [NextAcquisition(before, last.natural, last.quantity)] else before
  }

  ghost function NextAcquisition(before: seq<Acquisition>, natural: Natural, quantity: real): Acquisition {
    Acquisition(LotKey(natural, multiset(Naturals(before))[natural]), quantity)
  }

  ghost function Identified(events: seq<Event>): nat {
    if events == [] then 0 else
      Identified(events[..|events| - 1]) + if events[|events| - 1].Unidentified? then 0 else 1
  }

  /** The disposals of one instrument, each with its position among all identified rows. */
  ghost function Disposals(events: seq<Event>, instrument: string): seq<Disposal> {
    if events == [] then [] else
      var before := Disposals(events[..|events| - 1], instrument);
      var last := events[|events| - 1];
      if last.Disposed? && last.instrument == instrument
      then before + [last.disposal.(order := Identified(events))] else before
  }

  /** References of acquisitions too poor in facts to make a lot, by source reference. */
  ghost function Ambiguous(events: seq<Event>, instrument: string): map<string, References> {
    if events == [] then map[] else
      var before := Ambiguous(events[..|events| - 1], instrument);
      var last := events[|events| - 1];
      if last.Unclear? && last.instrument == instrument
      then AddReference(before, last.sourceRef, last.reference) else before
  }

  function AddReference(
    before: map<string, References>, ref: string, reference: Option<string>): map<string, References> {
    before[ref := Lookup(before, ref, {}) + {reference}]
  }

  /** The lots a disposal may consider: same instrument, same source reference. */
  function Candidates(acquisitions: seq<Acquisition>, instrument: string, ref: string): seq<Acquisition> {
    if acquisitions == [] then [] else
      var last := acquisitions[|acquisitions| - 1];
      var before := Candidates(acquisitions[..|acquisitions| - 1], instrument, ref);
      if last.key.natural.instrument == instrument && last.key.natural.sourceRef == ref then before + [last] else before
  }

  function Original(acquisitions: seq<Acquisition>): Remaining {
    if acquisitions == [] then map[] else
      var last := acquisitions[|acquisitions| - 1];
      Original(acquisitions[..|acquisitions| - 1])[last.key := last.quantity]
  }

  // ---------------------------------------------------------------------------
  // Exact-only allocation of one disposal
  // ---------------------------------------------------------------------------

  function Held(remaining: Remaining, key: LotKey): real { Lookup(remaining, key, 0.0) }

  function Active(lots: seq<Acquisition>, remaining: Remaining): seq<Acquisition> {
    if lots == [] then [] else
      var last := lots[|lots| - 1];
      var before := Active(lots[..|lots| - 1], remaining);
      if Held(remaining, last.key) > 0.0 then before + [last] else before
  }

  function WithReference(lots: seq<Acquisition>, reference: Option<string>): seq<Acquisition> {
    if lots == [] then [] else
      var last := lots[|lots| - 1];
      var before := WithReference(lots[..|lots| - 1], reference);
      if last.key.natural.reference == reference then before + [last] else before
  }

  predicate NotAfter(acquiredOn: int, disposedOn: Option<int>) {
    disposedOn.Some? ==> acquiredOn <= disposedOn.value
  }

  function Eligible(lots: seq<Acquisition>, disposedOn: Option<int>): seq<Acquisition> {
    if lots == [] then [] else
      var last := lots[|lots| - 1];
      var before := Eligible(lots[..|lots| - 1], disposedOn);
      if NotAfter(last.key.natural.acquiredOn, disposedOn) then before + [last] else before
  }

  function Quantity(d: Disposal): real { if d.quantity.Some? then d.quantity.value else 0.0 }

  function Bears(lot: Acquisition, d: Disposal, remaining: Remaining): Option<LotKey> {
    if Quantity(d) <= Held(remaining, lot.key) then Some(lot.key) else None
  }

  /** The one lot `_allocate_exact` consumes, if the facts identify one that can bear it. */
  function ChooseLot(d: Disposal, candidates: seq<Acquisition>, remaining: Remaining): Option<LotKey> {
    var active := Active(candidates, remaining);
    if active == [] || Quantity(d) <= 0.0 then None else
      var exact := if d.reference.Some? then WithReference(active, d.reference) else [];
      if |exact| > 1 then None
      else if |exact| == 1 then
        if NotAfter(exact[0].key.natural.acquiredOn, d.disposedOn) then Bears(exact[0], d, remaining) else None
      else
        var eligible := Eligible(active, d.disposedOn);
        if |eligible| == 1 then Bears(eligible[0], d, remaining) else None
  }

  /** Whether ambiguous acquisitions of the same source make the disposal unresolvable. */
  predicate Blocked(d: Disposal, candidates: seq<Acquisition>, references: References, remaining: Remaining) {
    references != {} &&
    (d.reference.None? || d.reference in references
     || |WithReference(Active(candidates, remaining), d.reference)| != 1)
  }

  function Allocate(
    d: Disposal, candidates: seq<Acquisition>, references: References, remaining: Remaining): Option<LotKey> {
    if d.sourceRef == "" || d.quantity.None? || Blocked(d, candidates, references, remaining) then None
    else ChooseLot(d, candidates, remaining)
  }

  lemma {:induction false} InCandidates(lots: seq<Acquisition>, instrument: string, ref: string, a: Acquisition)
    ensures a in Candidates(lots, instrument, ref) <==>
      a in lots && a.key.natural.instrument == instrument && a.key.natural.sourceRef == ref
  {
    if lots != [] { InCandidates(lots[..|lots| - 1], instrument, ref, a); }
  }

  lemma {:induction false} InActive(lots: seq<Acquisition>, remaining: Remaining, a: Acquisition)
    ensures a in Active(lots, remaining) <==> a in lots && Held(remaining, a.key) > 0.0
  {
    if lots != [] { InActive(lots[..|lots| - 1], remaining, a); }
  }

  lemma {:induction false} InWithReference(lots: seq<Acquisition>, reference: Option<string>, a: Acquisition)
    ensures a in WithReference(lots, reference) <==> a in lots && a.key.natural.reference == reference
  {
    if lots != [] { InWithReference(lots[..|lots| - 1], reference, a); }
  }

  lemma {:induction false} InEligible(lots: seq<Acquisition>, disposedOn: Option<int>, a: Acquisition)
    ensures a in Eligible(lots, disposedOn) <==> a in lots && NotAfter(a.key.natural.acquiredOn, disposedOn)
  {
    if lots != [] { InEligible(lots[..|lots| - 1], disposedOn, a); }
  }

  /** The facts single out `lot`: either no other active candidate carries the disposal's
      reference, or none carries it and no other active one is old enough. */
  ghost predicate SingledOut(d: Disposal, candidates: seq<Acquisition>, remaining: Remaining, lot: Acquisition) {
    || (d.reference.Some? && lot.key.natural.reference == d.reference
        && forall other | other in candidates && Held(remaining, other.key) > 0.0
                          && other.key.natural.reference == d.reference :: other == lot)
    || (forall other | other in candidates && Held(remaining, other.key) > 0.0 ::
          && (d.reference.Some? ==> other.key.natural.reference != d.reference)
          && (NotAfter(other.key.natural.acquiredOn, d.disposedOn) ==> other == lot))
  }

  lemma {:induction false} Narrowed(d: Disposal, candidates: seq<Acquisition>, remaining: Remaining, a: Acquisition)
    ensures
      var active := Active(candidates, remaining);
      && (a in active <==> a in candidates && Held(remaining, a.key) > 0.0)
      && (a in WithReference(active, d.reference) <==> a in active && a.key.natural.reference == d.reference)
      && (a in Eligible(active, d.disposedOn) <==> a in active && NotAfter(a.key.natural.acquiredOn, d.disposedOn))
  {
    var active := Active(candidates, remaining);
    InActive(candidates, remaining, a);
    InWithReference(active, d.reference, a);
    InEligible(active, d.disposedOn, a);
  }

  /** Allocation never guesses: a consumed lot is a candidate not acquired after the disposal,
      holds at least the disposed quantity, and is singled out by the facts. */
  lemma {:induction false} AllocationNeverGuesses(
    d: Disposal, candidates: seq<Acquisition>, references: References, remaining: Remaining)
    returns (lot: Acquisition)
    requires Allocate(d, candidates, references, remaining).Some?
    ensures lot in candidates && Allocate(d, candidates, references, remaining) == Some(lot.key)
    ensures NotAfter(lot.key.natural.acquiredOn, d.disposedOn)
    ensures d.quantity.Some? && 0.0 < d.quantity.value <= Held(remaining, lot.key)
    ensures SingledOut(d, candidates, remaining, lot)
  {
    var active := Active(candidates, remaining);
    var exact := if d.reference.Some? then WithReference(active, d.reference) else [];
    var eligible := Eligible(active, d.disposedOn);
    lot := if |exact| == 1 then exact[0] else eligible[0];
    Narrowed(d, candidates, remaining, lot);
    assert |exact| == 1 ==> lot in exact;
    assert |exact| != 1 ==> lot in eligible;
    forall other | other in candidates && Held(remaining, other.key) > 0.0
      ensures |exact| == 1 && other.key.natural.reference == d.reference ==> other == lot
      ensures |exact| != 1 && d.reference.Some? ==> other.key.natural.reference != d.reference
      ensures |exact| != 1 && NotAfter(other.key.natural.acquiredOn, d.disposedOn) ==> other == lot
    {
      Narrowed(d, candidates, remaining, other);
    }
  }

  // ---------------------------------------------------------------------------
  // Netting one instrument
  // ---------------------------------------------------------------------------

  /** The order `sorted` uses: dated disposals by date, undated ones last, ties in source order. */
  predicate Before(a: Disposal, b: Disposal) {
    if a.disposedOn == b.disposedOn then a.order < b.order
    else a.disposedOn.Some? && (b.disposedOn.None? || a.disposedOn.value < b.disposedOn.value)
  }

  function SortDisposals(ds: seq<Disposal>): seq<Disposal> { Sorting.Sort(Before, ds) }

  /** Outcome of netting a disposal list: whether every disposal was allocated, the running
      remainders, and the lot each allocated disposal consumed. */
  datatype Netting = Netting(ok: bool, remaining: Remaining, trace: seq<LotKey>)

  function Consume(remaining: Remaining, key: LotKey, d: Disposal): Remaining {
    remaining[key := Held(remaining, key) - Quantity(d)]
  }

  function Net(
    ds: seq<Disposal>, lots: seq<Acquisition>, instrument: string,
    ambiguous: map<string, References>, remaining: Remaining): (r: Netting)
    ensures |r.trace| <= |ds| && (r.ok <==> |r.trace| == |ds|)
  {
    if ds == [] then Netting(true, remaining, []) else
      var d := ds[0];
      match Allocate(d, Candidates(lots, instrument, d.sourceRef), Lookup(ambiguous, d.sourceRef, {}), remaining)
      case None => Netting(false, remaining, [])
      case Some(key) =>
        var rest := Net(ds[1..], lots, instrument, ambiguous, Consume(remaining, key, d));
        rest.(trace := [key] + rest.trace)
  }

  ghost function InstrumentNetting(events: seq<Event>, instrument: string): Netting {
    var lots := Acquisitions(events);
    Net(SortDisposals(Disposals(events, instrument)), lots, instrument, Ambiguous(events, instrument), Original(lots))
  }

  ghost predicate AgreeOn(a: Remaining, b: Remaining, instrument: string) {
    forall key: LotKey | key.natural.instrument == instrument :: Held(a, key) == Held(b, key)
  }

  lemma {:induction false} ActiveLocal(lots: seq<Acquisition>, a: Remaining, b: Remaining)
    requires forall lot | lot in lots :: Held(a, lot.key) == Held(b, lot.key)
    ensures Active(lots, a) == Active(lots, b)
  {
    if lots != [] { ActiveLocal(lots[..|lots| - 1], a, b); }
  }

  lemma {:induction false} AllocateLocal(
    d: Disposal, lots: seq<Acquisition>, instrument: string, references: References, a: Remaining, b: Remaining)
    requires AgreeOn(a, b, instrument)
    ensures
      var candidates := Candidates(lots, instrument, d.sourceRef);
      Allocate(d, candidates, references, a) == Allocate(d, candidates, references, b)
  {
    var candidates := Candidates(lots, instrument, d.sourceRef);
    forall lot | lot in candidates ensures Held(a, lot.key) == Held(b, lot.key) {
      InCandidates(lots, instrument, d.sourceRef, lot);
    }
    ActiveLocal(candidates, a, b);
    var key := ChooseLot(d, candidates, a);
    if Allocate(d, candidates, references, a).Some? {
      var lot := AllocationNeverGuesses(d, candidates, references, a);
    }
    if Allocate(d, candidates, references, b).Some? {
      var lot := AllocationNeverGuesses(d, candidates, references, b);
    }
  }

  /** What netting needs to know about an allocated disposal. */
  lemma {:induction false} AllocateWithin(
    d: Disposal, lots: seq<Acquisition>, instrument: string, references: References, remaining: Remaining)
    returns (lot: Acquisition)
    requires Allocate(d, Candidates(lots, instrument, d.sourceRef), references, remaining).Some?
    ensures Allocate(d, Candidates(lots, instrument, d.sourceRef), references, remaining) == Some(lot.key)
    ensures lot in lots && lot.key.natural.instrument == instrument && lot.key in remaining
    ensures 0.0 < Quantity(d) <= Held(remaining, lot.key)
  {
    lot := AllocationNeverGuesses(d, Candidates(lots, instrument, d.sourceRef), references, remaining);
    InCandidates(lots, instrument, d.sourceRef, lot);
  }

  /** Netting one instrument reads and writes only that instrument's lots. */
  lemma {:induction false} NetLocal(
    ds: seq<Disposal>, lots: seq<Acquisition>, instrument: string,
    ambiguous: map<string, References>, a: Remaining, b: Remaining)
    requires AgreeOn(a, b, instrument)
    ensures
      var x, y := Net(ds, lots, instrument, ambiguous, a), Net(ds, lots, instrument, ambiguous, b);
      && x.ok == y.ok && x.trace == y.trace && AgreeOn(x.remaining, y.remaining, instrument)
    ensures
      var x := Net(ds, lots, instrument, ambiguous, a);
      && x.remaining.Keys == a.Keys
      && forall key: LotKey | key.natural.instrument != instrument :: Held(x.remaining, key) == Held(a, key)
    decreases |ds|
  {
    if ds != [] {
      var d := ds[0];
      var references := Lookup(ambiguous, d.sourceRef, {});
      AllocateLocal(d, lots, instrument, references, a, b);
      match Allocate(d, Candidates(lots, instrument, d.sourceRef), references, a) {
        case None =>
        case Some(key) =>
          var lot := AllocateWithin(d, lots, instrument, references, a);
          NetLocal(ds[1..], lots, instrument, ambiguous, Consume(a, key, d), Consume(b, key, d));
      }
    }
  }

  // ---------------------------------------------------------------------------
  // The result over all instruments, and the code that computes it
  // ---------------------------------------------------------------------------

  ghost function DisposalInstruments(events: seq<Event>): set<string> {
    set i | 0 <= i < |events| && events[i].Disposed? :: events[i].instrument
  }

  /** Instruments with a disposal that cannot be allocated without guessing. */
  ghost function Unresolved(events: seq<Event>): set<string> {
    set instrument | instrument in DisposalInstruments(events) && !InstrumentNetting(events, instrument).ok
  }

  /** Remainders of the lots of resolved instruments that netting changed. */
  ghost function RemainingOf(events: seq<Event>): Remaining {
    var original := Original(Acquisitions(events));
    map key | key in original && key.natural.instrument !in Unresolved(events)
      && HeldAfter(events, key) != original[key]
      :: HeldAfter(events, key)
  }

  /** What netting a lot's instrument leaves of the lot. */
  ghost function HeldAfter(events: seq<Event>, key: LotKey): real {
    Held(InstrumentNetting(events, key.natural.instrument).remaining, key)
  }

  /** The dictionaries filled by one pass over the rows. */
  datatype Facts = Facts(
    acquisitions: map<string, map<string, seq<Acquisition>>>,
    disposals: map<string, seq<Disposal>>,
    ambiguous: map<string, map<string, References>>,
    all: seq<Acquisition>,
    order: nat)

  ghost predicate AcquisitionsFiled(m: map<string, map<string, seq<Acquisition>>>, all: seq<Acquisition>) {
    forall i, ref :: Lookup(Lookup(m, i, map[]), ref, []) == Candidates(all, i, ref)
  }

  ghost predicate DisposalsFiled(m: map<string, seq<Disposal>>, events: seq<Event>) {
    && m.Keys == DisposalInstruments(events)
    && forall i :: Lookup(m, i, []) == Disposals(events, i)
  }

  ghost predicate AmbiguousFiled(m: map<string, map<string, References>>, events: seq<Event>) {
    forall i :: Lookup(m, i, map[]) == Ambiguous(events, i)
  }

  ghost predicate Describes(facts: Facts, events: seq<Event>) {
    && facts.all == Acquisitions(events)
    && facts.order == Identified(events)
    && AcquisitionsFiled(facts.acquisitions, facts.all)
    && DisposalsFiled(facts.disposals, events)
    && AmbiguousFiled(facts.ambiguous, events)
  }

  lemma {:induction false} FileAcquisition(
    m: map<string, map<string, seq<Acquisition>>>, all: seq<Acquisition>, fact: Acquisition)
    requires AcquisitionsFiled(m, all)
    ensures
      var n := fact.key.natural;
      var byRef := Lookup(m, n.instrument, map[]);
      AcquisitionsFiled(m[n.instrument := byRef[n.sourceRef := Lookup(byRef, n.sourceRef, []) + [fact]]], all + [fact])
  {
    assert (all + [fact])[..|all|] == all;
    var n := fact.key.natural;
    var byRef := Lookup(m, n.instrument, map[]);
    var next := m[n.instrument := byRef[n.sourceRef := Lookup(byRef, n.sourceRef, []) + [fact]]];
    forall i, ref ensures Lookup(Lookup(next, i, map[]), ref, []) == Candidates(all + [fact], i, ref) {
      assert Lookup(Lookup(m, i, map[]), ref, []) == Candidates(all, i, ref);
    }
  }

  lemma {:induction false} FileOther(facts: Facts, events: seq<Event>, e: Event)
    requires Describes(facts, events)
    ensures !e.Disposed? ==> DisposalsFiled(facts.disposals, events + [e])
    ensures !e.Unclear? ==> AmbiguousFiled(facts.ambiguous, events + [e])
    ensures !e.Acquired? ==> Acquisitions(events + [e]) == facts.all
    ensures Identified(events + [e]) == facts.order + if e.Unidentified? then 0 else 1
  {
    assert (events + [e])[..|events|] == events;
    DisposalInstrumentsAppend(events, e);
  }

  lemma {:induction false} SkipRow(facts: Facts, events: seq<Event>, e: Event)
    requires Describes(facts, events) && (e.Unidentified? || e.Other?)
    ensures Describes(facts.(order := facts.order + if e.Other? then 1 else 0), events + [e])
  {
  }

  lemma {:induction false} DisposalInstrumentsAppend(events: seq<Event>, e: Event)
    ensures DisposalInstruments(events + [e])
      == DisposalInstruments(events) + if e.Disposed? then {e.instrument} else {}
  {
    var after := events + [e];
    assert forall i | 0 <= i < |events| :: after[i] == events[i];
    assert after[|events|] == e;
  }

  method RecordDisposal(
    facts: Facts, ghost events: seq<Event>, isin: string, disposal: Disposal) returns (next: Facts)
    requires Describes(facts, events)
    ensures Describes(next, events + [Disposed(isin, disposal)]) && next.all == facts.all
  {
    var order := facts.order + 1;
    next := facts.(
      disposals := facts.disposals[isin := Lookup(facts.disposals, isin, []) + [disposal.(order := order)]],
      order := order);
    FileOther(facts, events, Disposed(isin, disposal));
    DisposalInstrumentsAppend(events, Disposed(isin, disposal));
    assert (events + [Disposed(isin, disposal)])[..|events|] == events;
  }

  method RecordAcquisition(
    facts: Facts, ghost events: seq<Event>, natural: Natural, occurrence: nat, quantity: real)
    returns (next: Facts)
    requires Describes(facts, events) && occurrence == multiset(Naturals(facts.all))[natural]
    ensures Describes(next, events + [Acquired(natural, quantity)])
    ensures next.all == facts.all + [Acquisition(LotKey(natural, occurrence), quantity)]
  {
    var fact := Acquisition(LotKey(natural, occurrence), quantity);
    var byRef := Lookup(facts.acquisitions, natural.instrument, map[]);
    next := facts.(
      acquisitions := facts.acquisitions[natural.instrument :=
        byRef[natural.sourceRef := Lookup(byRef, natural.sourceRef, []) + [fact]]],
      all := facts.all + [fact],
      order := facts.order + 1);
    FileAcquisition(facts.acquisitions, facts.all, fact);
    FileOther(facts, events, Acquired(natural, quantity));
    assert (events + [Acquired(natural, quantity)])[..|events|] == events;
  }

  method RecordAmbiguous(
    facts: Facts, ghost events: seq<Event>, isin: string, ref: string, reference: Option<string>)
    returns (next: Facts)
    requires Describes(facts, events)
    ensures Describes(next, events + [if ref != "" then Unclear(isin, ref, reference) else Other(isin)])
    ensures next.all == facts.all
  {
    ghost var e := if ref != "" then Unclear(isin, ref, reference) else Other(isin);
    next := facts.(order := facts.order + 1);
    FileOther(facts, events, e);
    if ref != "" {
      assert (events + [e])[..|events|] == events;
      var byRef := AddReference(Lookup(facts.ambiguous, isin, map[]), ref, reference);
      next := next.(ambiguous := facts.ambiguous[isin := byRef]);
      forall i ensures Lookup(next.ambiguous, i, map[]) == Ambiguous(events + [e], i) {
        assert Lookup(facts.ambiguous, i, map[]) == Ambiguous(events, i);
      }
    }
  }

  method CollectRow(facts: Facts, occurrences: map<Natural, nat>, ghost events: seq<Event>, raw: Raw)
    returns (next: Facts, counters: map<Natural, nat>)
    requires Describes(facts, events) && Counts(occurrences, Naturals(facts.all))
    ensures Describes(next, events + [EventOf(raw)]) && Counts(counters, Naturals(next.all))
  {
    hide Classify, Describes, NormalizedRef, NormalizedReference, IsDisposal, IsAcquisition, DisposalOf, TxnIsin;
    hide Naturals, Counts;
    if Classify(raw).Complete? { LotStatesSourceFacts(raw); }
    next, counters := facts, occurrences;
    var isin := TxnIsin(raw);
    if isin.None? {
      SkipRow(facts, events, Unidentified);
    } else if IsDisposal(raw) {
      next := RecordDisposal(facts, events, isin.value, DisposalOf(raw, 0));
    } else if !IsAcquisition(raw) {
      SkipRow(facts, events, Other(isin.value));
      next := facts.(order := facts.order + 1);
    } else {
      match Classify(raw) {
        case Excluded(_) =>
          next := RecordAmbiguous(facts, events, isin.value, NormalizedRef(raw.sourceRef),
            NormalizedReference(raw.reference));
        case Complete(lot) =>
          var natural := NaturalOf(lot);
          var occurrence := Lookup(occurrences, natural, 0);
          CountsBump(occurrences, Naturals(facts.all), natural);
          counters := occurrences[natural := occurrence + 1];
          next := RecordAcquisition(facts, events, natural, occurrence, lot.quantity);
          NaturalsAppend(facts.all, Acquisition(LotKey(natural, occurrence), lot.quantity));
      }
    }
  }

  ghost function Flatten(payloads: seq<seq<Raw>>): seq<Raw> {
    if payloads == [] then [] else Flatten(payloads[..|payloads| - 1]) + payloads[|payloads| - 1]
  }

  method CollectPayload(facts: Facts, occurrences: map<Natural, nat>, ghost events: seq<Event>, rows: seq<Raw>)
    returns (next: Facts, counters: map<Natural, nat>)
    requires Describes(facts, events) && Counts(occurrences, Naturals(facts.all))
    ensures Describes(next, events + Events(rows)) && Counts(counters, Naturals(next.all))
  {
    hide EventOf, Describes, Counts;
    next, counters := facts, occurrences;
    assert events + Events(rows[..0]) == events;
    for t := 0 to |rows|
      invariant Describes(next, events + Events(rows[..t]))
      invariant Counts(counters, Naturals(next.all))
    {
      Sequences.PrefixStep(rows, t);
      next, counters := CollectRow(next, counters, events + Events(rows[..t]), rows[t]);
      assert events + Events(rows[..t + 1]) == events + Events(rows[..t]) + [EventOf(rows[t])];
    }
    assert rows[..|rows|] == rows;
  }

  method CollectFacts(payloads: seq<seq<Raw>>) returns (facts: Facts)
    ensures Describes(facts, Events(Flatten(payloads)))
  {
    facts := Facts(map[], map[], map[], [], 0);
    var occurrences: map<Natural, nat> := map[];
    for p := 0 to |payloads|
      invariant Describes(facts, Events(Flatten(payloads[..p])))
      invariant Counts(occurrences, Naturals(facts.all))
    {
      hide Describes, Counts;
      Sequences.PrefixStep(payloads, p);
      EventsAppend(Flatten(payloads[..p]), payloads[p]);
      facts, occurrences := CollectPayload(facts, occurrences, Events(Flatten(payloads[..p])), payloads[p]);
    }
    assert payloads[..|payloads|] == payloads;
  }

  lemma {:induction false} EventsAppend(a: seq<Raw>, b: seq<Raw>)
    ensures Events(a + b) == Events(a) + Events(b)
  {
    hide EventOf;
    if b == [] {
      assert a + b == a;
    } else {
      assert (a + b)[..|a + b| - 1] == a + b[..|b| - 1];
      EventsAppend(a, b[..|b| - 1]);
    }
  }

  /** The `remaining` dictionary that allocation decrements in place. */
  class LotNetting {
    var remaining: Remaining

    constructor (original: Remaining)
      ensures remaining == original
    {
      remaining := original;
    }

    /** Consumes a disposal only when its source facts identify one lot. */
    method AllocateExact(disposal: Disposal, candidates: seq<Acquisition>) returns (done: bool)
      modifies this
      ensures
        var chosen := ChooseLot(disposal, candidates, old(remaining));
        && (done <==> chosen.Some?)
        && remaining == if done then Consume(old(remaining), chosen.value, disposal) else old(remaining)
    {
      var active := Active(candidates, remaining);
      if active == [] || disposal.quantity.None? || disposal.quantity.value <= 0.0 { return false; }
      if disposal.reference.Some? {
        var exact := WithReference(active, disposal.reference);
        if |exact| > 1 { return false; }
        if |exact| == 1 {
          var lot := exact[0];
          if disposal.disposedOn.Some? && lot.key.natural.acquiredOn > disposal.disposedOn.value { return false; }
          done := Decrement(lot.key, disposal);
          return;
        }
      }
      var eligible := Eligible(active, disposal.disposedOn);
      if |eligible| != 1 { return false; }
      done := Decrement(eligible[0].key, disposal);
    }

    method Decrement(key: LotKey, disposal: Disposal) returns (enough: bool)
      modifies this
      ensures enough <==> Quantity(disposal) <= Held(old(remaining), key)
      ensures remaining == if enough then Consume(old(remaining), key, disposal) else old(remaining)
    {
      enough := Quantity(disposal) <= Held(remaining, key);
      if enough {
        remaining := remaining[key := Held(remaining, key) - Quantity(disposal)];
      }
    }

    /** Allocates the ordered disposals of one instrument, stopping at the first that needs a guess. */
    method NetInstrument(
      ordered: seq<Disposal>, byRef: map<string, seq<Acquisition>>, ambiguous: map<string, References>,
      ghost lots: seq<Acquisition>, ghost instrument: string) returns (ok: bool)
      requires forall ref :: Lookup(byRef, ref, []) == Candidates(lots, instrument, ref)
      modifies this
      ensures
        var netting := Net(ordered, lots, instrument, ambiguous, old(remaining));
        ok == netting.ok && remaining == netting.remaining
    {
      hide Active, WithReference, ChooseLot, Candidates, Consume, Net;
      ghost var whole := Net(ordered, lots, instrument, ambiguous, remaining);
      for i := 0 to |ordered|
        invariant
          var rest := Net(ordered[i..], lots, instrument, ambiguous, remaining);
          rest.ok == whole.ok && rest.remaining == whole.remaining
      {
        var disposal := ordered[i];
        var candidates := Lookup(byRef, disposal.sourceRef, []);
        var references := Lookup(ambiguous, disposal.sourceRef, {});
        assert ordered[i..][1..] == ordered[i + 1..];
        NetUnfolds(ordered[i..], lots, instrument, ambiguous, remaining);
        if disposal.sourceRef == "" || disposal.quantity.None? { return false; }
        if references != {} {
          var exact := WithReference(Active(candidates, remaining), disposal.reference);
          if disposal.reference.None? || disposal.reference in references || |exact| != 1 { return false; }
        }
        var done := AllocateExact(disposal, candidates);
        if !done { return false; }
      }
      NetNothing(lots, instrument, ambiguous, remaining);
      ok := true;
    }
  }

  lemma {:induction false} NetNothing(
    lots: seq<Acquisition>, instrument: string, ambiguous: map<string, References>, remaining: Remaining)
    ensures Net([], lots, instrument, ambiguous, remaining) == Netting(true, remaining, [])
  {
  }

  lemma {:induction false} NetUnfolds(
    ds: seq<Disposal>, lots: seq<Acquisition>, instrument: string, ambiguous: map<string, References>,
    remaining: Remaining)
    requires ds != []
    ensures
      var netting := Net(ds, lots, instrument, ambiguous, remaining);
      match Allocate(ds[0], Candidates(lots, instrument, ds[0].sourceRef), Lookup(ambiguous, ds[0].sourceRef, {}),
        remaining)
      case None => netting == Netting(false, remaining, [])
      case Some(key) =>
        var rest := Net(ds[1..], lots, instrument, ambiguous, Consume(remaining, key, ds[0]));
        netting == rest.(trace := [key] + rest.trace)
  {
    hide Allocate, Consume, Candidates;
  }

  /** The dictionary once every instrument outside `pending` has been netted. */
  ghost predicate Netted(remaining: Remaining, events: seq<Event>, pending: set<string>) {
    var original := Original(Acquisitions(events));
    && remaining.Keys == original.Keys
    && forall key: LotKey ::
        Held(remaining, key) ==
          if key.natural.instrument in pending then Held(original, key) else HeldAfter(events, key)
  }

  lemma {:induction false} NettedInitially(events: seq<Event>)
    ensures Netted(Original(Acquisitions(events)), events, DisposalInstruments(events))
  {
    var original := Original(Acquisitions(events));
    forall key: LotKey | key.natural.instrument !in DisposalInstruments(events)
      ensures HeldAfter(events, key) == Held(original, key)
    {
      NoDisposals(events, key.natural.instrument);
    }
  }

  lemma {:induction false} NettedStep(
    remaining: Remaining, events: seq<Event>, pending: set<string>, instrument: string)
    requires Netted(remaining, events, pending) && instrument in pending
    ensures
      var lots := Acquisitions(events);
      var netting := Net(SortDisposals(Disposals(events, instrument)), lots, instrument,
        Ambiguous(events, instrument), remaining);
      && Netted(netting.remaining, events, pending - {instrument})
      && netting.ok == InstrumentNetting(events, instrument).ok
  {
    hide Net, SortDisposals, Disposals, Ambiguous, Acquisitions, Original, Held;
    var lots := Acquisitions(events);
    NetLocal(SortDisposals(Disposals(events, instrument)), lots, instrument, Ambiguous(events, instrument),
             remaining, Original(lots));
  }

  lemma {:induction false} NettedFinally(remaining: Remaining, events: seq<Event>)
    requires Netted(remaining, events, {})
    ensures remaining.Keys == Original(Acquisitions(events)).Keys
    ensures RemainingOf(events) == map key | key in remaining
      && key.natural.instrument !in Unresolved(events) && remaining[key] != Original(Acquisitions(events))[key] ::
        remaining[key]
  {
  }

  lemma {:induction false} FactsOf(facts: Facts, events: seq<Event>, instrument: string)
    requires Describes(facts, events)
    ensures Lookup(facts.disposals, instrument, []) == Disposals(events, instrument)
    ensures Lookup(facts.ambiguous, instrument, map[]) == Ambiguous(events, instrument)
    ensures forall ref ::
      Lookup(Lookup(facts.acquisitions, instrument, map[]), ref, [])
        == Candidates(Acquisitions(events), instrument, ref)
  {
  }

  /** Conservatively nets the disposals of every payload against its acquisitions. */
  method ResolveLotConsumption(payloads: seq<seq<Raw>>) returns (unresolved: set<string>, remaining: Remaining)
    ensures unresolved == Unresolved(Events(Flatten(payloads)))
    ensures remaining == RemainingOf(Events(Flatten(payloads)))
  {
    hide Net, SortDisposals, Disposals, Ambiguous, Acquisitions, Original, Candidates, InstrumentNetting;
    hide RemainingOf, Netted, Events, Flatten, Lookup;
    var facts := CollectFacts(payloads);
    ghost var events := Events(Flatten(payloads));
    var original := Original(facts.all);
    var netting := new LotNetting(original);
    NettedInitially(events);
    unresolved := {};
    var pending := facts.disposals.Keys;
    while pending != {}
      invariant pending <= DisposalInstruments(events)
      invariant unresolved == Unresolved(events) - pending
      invariant Netted(netting.remaining, events, pending)
      decreases |pending|
    {
      var isin :| isin in pending;
      FactsOf(facts, events, isin);
      NettedStep(netting.remaining, events, pending, isin);
      var byRef := Lookup(facts.acquisitions, isin, map[]);
      var ordered := SortDisposals(Lookup(facts.disposals, isin, []));
      var ok := netting.NetInstrument(ordered, byRef, Lookup(facts.ambiguous, isin, map[]), facts.all, isin);
      pending := pending - {isin};
      if !ok { unresolved := unresolved + {isin}; }
    }
    NettedFinally(netting.remaining, events);
    remaining := map key | key in netting.remaining
      && key.natural.instrument !in unresolved && netting.remaining[key] != original[key] :: netting.remaining[key];
  }

  lemma {:induction false} NoDisposals(events: seq<Event>, instrument: string)
    ensures instrument in DisposalInstruments(events) <==> Disposals(events, instrument) != []
  {
    if events != [] {
      var front := events[..|events| - 1];
      NoDisposals(front, instrument);
      assert events == front + [events[|events| - 1]];
      DisposalInstrumentsAppend(front, events[|events| - 1]);
    }
  }
}
