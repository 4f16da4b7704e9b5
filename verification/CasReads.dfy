/** The canonical reads over the CAS tables: the joins they start from, and the agreement of lots
    and disposal state for every store that ingests or a backfill can leave behind. */
module CasReads {
  import CanonicalConsumption
  import opened CanonicalLots
  import CasStore
  import opened InvestmentTransactions
  import Occurrences
  import Sequences
  import opened Sorting
  import opened Wrappers

  // ---------------------------------------------------------------------------
  // Joining the tables
  // ---------------------------------------------------------------------------

  /** The lot rows of one upload under their row ids: their positions in insertion order. */
  function LotRows(lots: seq<Lot>): seq<StoredLot> {
    if lots == [] then [] else
      LotRows(lots[..|lots| - 1]) + [StoredLot(|lots|, lots[|lots| - 1])]
  }

  /** `order_by(source_occurrence, id)` within one upload. */
  predicate LotBefore(a: StoredLot, b: StoredLot) {
    a.lot.occurrence < b.lot.occurrence || (a.lot.occurrence == b.lot.occurrence && a.id < b.id)
  }

  /** `order_by(statement_date, id)`. */
  predicate UploadBefore(a: CasUpload, b: CasUpload) {
    a.statementDate < b.statementDate || (a.statementDate == b.statementDate && a.id < b.id)
  }

  /** An upload row with its payload's transactions and its lot rows. */
  function Joined(id: int, u: CasStore.UploadRow, lots: seq<Lot>): CasUpload {
    CasUpload(id, u.portfolio, u.source, u.statementDate,
              if u.payload.Some? then Some(u.payload.value.rows) else None,
              Sort(LotBefore, LotRows(lots)))
  }

  function RowOfId(uploads: CasStore.Uploads, lots: map<int, seq<Lot>>, id: int): CasUpload
    requires id in uploads
  {
    Joined(id, uploads[id], Occurrences.Lookup(lots, id, []))
  }

  /** `view` lists every upload of the tables once, joined with its lots. */
  ghost predicate IsView(uploads: CasStore.Uploads, lots: map<int, seq<Lot>>, view: seq<CasUpload>) {
    && DistinctUploads(view)
    && (forall u | u in view :: u.id in uploads && u == RowOfId(uploads, lots, u.id))
    && (forall id | id in uploads :: RowOfId(uploads, lots, id) in view)
  }

  lemma {:induction false} LotRowsHold(lots: seq<Lot>, lot: Lot)
    requires lot in lots
    ensures exists s :: s in LotRows(lots) && s.lot == lot
  {
    var front, last := lots[..|lots| - 1], lots[|lots| - 1];
    assert lots == front + [last];
    if lot == last {
      assert StoredLot(|lots|, last) in LotRows(lots);
    } else {
      LotRowsHold(front, lot);
      var s :| s in LotRows(front) && s.lot == lot;
      assert s in LotRows(lots);
    }
  }

  /** No stored lot is lost by the join. */
  lemma {:induction false} JoinedHolds(id: int, u: CasStore.UploadRow, lots: seq<Lot>, lot: Lot)
    requires lot in lots
    ensures exists s :: s in Joined(id, u, lots).lots && s.lot == lot
  {
    LotRowsHold(lots, lot);
    var s :| s in LotRows(lots) && s.lot == lot;
    SortElement(LotBefore, LotRows(lots), s);
  }

  /** Complete tables feed the canonical reads lot rows that agree with the payloads. */
  lemma {:induction false} CompleteStoreAgrees(
    uploads: CasStore.Uploads, lots: map<int, seq<Lot>>, view: seq<CasUpload>)
    requires IsView(uploads, lots, view)
    requires forall u | u in uploads :: CasStore.AllStored(uploads[u], Occurrences.Lookup(lots, u, []))
    ensures CanonicalConsumption.LotsStored(view)
  {
    hide NumberedLots, LotRows;
    forall u, lot | u in view && u.payload.Some? && lot in NumberedLots(u.payload.value)
      ensures exists s | s in u.lots :: s.lot == lot
    {
      assert CasStore.AllStored(uploads[u.id], Occurrences.Lookup(lots, u.id, []));
      JoinedHolds(u.id, uploads[u.id], Occurrences.Lookup(lots, u.id, []), lot);
    }
  }

  /** `view` lists the uploads outside `pending`, in id order and all before `pending`. */
  ghost predicate ReadSoFar(
    uploads: CasStore.Uploads, lots: map<int, seq<Lot>>, view: seq<CasUpload>, pending: set<int>) {
    && (forall i, j :: 0 <= i < j < |view| ==> view[i].id < view[j].id)
    && (forall u | u in view :: u.id in uploads && u.id !in pending && u == RowOfId(uploads, lots, u.id))
    && (forall u, id | u in view && id in pending :: u.id < id)
    && (forall id | id in uploads && id !in pending :: RowOfId(uploads, lots, id) in view)
  }

  lemma {:induction false} ReadStep(
    uploads: CasStore.Uploads, lots: map<int, seq<Lot>>, view: seq<CasUpload>, pending: set<int>, id: int)
    requires ReadSoFar(uploads, lots, view, pending) && id in pending && id in uploads
    requires forall other | other in pending :: id <= other
    ensures ReadSoFar(uploads, lots, view + [RowOfId(uploads, lots, id)], pending - {id})
  {
    hide RowOfId;
    var row := RowOfId(uploads, lots, id);
    assert row.id == id by { RowHasId(uploads, lots, id); }
    var next := view + [row];
    assert forall u :: u in next <==> u in view || u == row;
    forall i | 0 <= i < |view| ensures view[i].id < id { assert view[i] in view; }
  }

  lemma {:induction false} RowHasId(uploads: CasStore.Uploads, lots: map<int, seq<Lot>>, id: int)
    requires id in uploads
    ensures RowOfId(uploads, lots, id).id == id
  {
  }

  /** All uploads in id order. */
  method ReadById(uploads: CasStore.Uploads, lots: map<int, seq<Lot>>) returns (view: seq<CasUpload>)
    ensures IsView(uploads, lots, view)
    ensures forall i, j :: 0 <= i < j < |view| ==> view[i].id < view[j].id
  {
    hide RowOfId;
    view := [];
    var pending := uploads.Keys;
    while pending != {}
      invariant pending <= uploads.Keys && ReadSoFar(uploads, lots, view, pending)
      decreases |pending|
    {
      var id := PickLeast(pending);
      ReadStep(uploads, lots, view, pending, id);
      view := view + [RowOfId(uploads, lots, id)];
      pending := pending - {id};
    }
  }

  lemma {:induction false} UploadBeforeIsWeakOrder()
    ensures IsWeakOrder(UploadBefore)
  {
  }

  /** The same uploads by statement date and id. */
  lemma {:induction false} ByDate(uploads: CasStore.Uploads, lots: map<int, seq<Lot>>, view: seq<CasUpload>)
    requires IsView(uploads, lots, view)
    ensures IsView(uploads, lots, Sort(UploadBefore, view)) && InTableOrder(Sort(UploadBefore, view))
    ensures forall u | u in view :: u in Sort(UploadBefore, view)
  {
    hide RowOfId;
    var sorted := Sort(UploadBefore, view);
    UploadBeforeIsWeakOrder();
    SortSorts(UploadBefore, view);
    SortElements(UploadBefore, view);
    assert !Sequences.Repeats(view);
    forall i, j | 0 <= i < j < |sorted| ensures sorted[i].id != sorted[j].id && UploadBefore(sorted[i], sorted[j]) {
      var m, n := SortSources(UploadBefore, view, i, j);
      assert !UploadBefore(sorted[j], sorted[i]);
    }
  }

  // ---------------------------------------------------------------------------
  // Lots and disposal state of a store
  // ---------------------------------------------------------------------------

  /** Both canonical reads of one store: the lots from its lot table, the disposal state from its
      payloads. Every consumption key is a listed lot with a remainder below its quantity, and
      every lot's representative row is from the first upload of its provenance. */
  method ReadCanonical(store: CasStore.Store)
    returns (lots: seq<CanonicalLot>, unresolved: set<(string, string)>, remaining: map<CanonicalKey, real>)
    requires store.Valid() && store.AllComplete()
    ensures exists view ::
      && IsView(store.uploads, store.lots, view) && InTableOrder(view)
      && IsCanonicalLots(view, lots) && InListOrder(view, lots)
    ensures exists view ::
      IsView(store.uploads, store.lots, view) && CanonicalConsumption.IsConsumption(view, unresolved, remaining)
    ensures forall key | key in remaining :: HasKey(lots, key) && 0.0 <= remaining[key] < key.base.quantity
    ensures forall lot | lot in lots :: lot.provenance != [] && lot.provenance[0].uploadId == lot.uploadId
  {
    hide IsCanonicalLots, CanonicalConsumption.IsConsumption, IsView, InTableOrder, InListOrder, HasKey;
    var byId := ReadById(store.uploads, store.lots);
    assert DistinctUploads(byId) by { ViewDistinct(store.uploads, store.lots, byId); }
    var byDate := Sort(UploadBefore, byId);
    ByDate(store.uploads, store.lots, byId);
    ViewDistinct(store.uploads, store.lots, byDate);
    lots := GetCanonicalLots(byDate);
    unresolved, remaining := CanonicalConsumption.GetCanonicalLotConsumption(byId);
    CompleteStoreAgrees(store.uploads, store.lots, byDate);
    forall key | key in remaining ensures HasKey(lots, key) && 0.0 <= remaining[key] < key.base.quantity {
      CanonicalConsumption.ConsumptionKeysAreCanonicalLots(byId, unresolved, remaining, byDate, lots, key);
    }
    forall lot | lot in lots ensures lot.provenance != [] && lot.provenance[0].uploadId == lot.uploadId {
      var i :| 0 <= i < |lots| && lots[i] == lot;
      RepresentativeIsFirstProvenance(byDate, lots, i);
    }
  }

  lemma {:induction false} ViewDistinct(uploads: CasStore.Uploads, lots: map<int, seq<Lot>>, view: seq<CasUpload>)
    requires IsView(uploads, lots, view)
    ensures DistinctUploads(view)
  {
  }

  /** After any run of ingests, forced or not and whatever it rejects, lots and disposal state agree. */
  method IngestThenRead(store: CasStore.Store, run: seq<(CasStore.Payload, bool)>)
    returns (lots: seq<CanonicalLot>, unresolved: set<(string, string)>, remaining: map<CanonicalKey, real>)
    requires store.Valid() && store.AllComplete()
    modifies store
    ensures forall key | key in remaining :: HasKey(lots, key) && 0.0 <= remaining[key] < key.base.quantity
  {
    store.IngestAll(run);
    lots, unresolved, remaining := ReadCanonical(store);
  }

  /** So they do after a backfill of any valid store, such as one from before lots were kept. */
  method BackfillThenRead(store: CasStore.Store)
    returns (lots: seq<CanonicalLot>, unresolved: set<(string, string)>, remaining: map<CanonicalKey, real>)
    requires store.Valid()
    modifies store
    ensures forall key | key in remaining :: HasKey(lots, key) && 0.0 <= remaining[key] < key.base.quantity
  {
    var scanned, created, malformed := store.BackfillInvestmentLots();
    lots, unresolved, remaining := ReadCanonical(store);
  }
}
