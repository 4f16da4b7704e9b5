/** The CAS tables and the operations that write them: ingest of one payload, which replaces any
    prior upload of the same portfolio and statement date, and the lot backfill. */
module CasStore {
  import opened InvestmentTransactions
  import opened Occurrences
  import opened Sequences
  import Text
  import opened Wrappers

  /** A demat holding; folios contribute their total under `mutual_fund`. */
  datatype Holding = Holding(assetClass: Option<string>, value: Option<real>)

  datatype Payload = Payload(
    periodEnd: RawDate,
    grandTotal: Option<real>,
    pan: Option<string>,
    source: Option<string>,
    investor: Option<string>,
    portfolioOk: Option<bool>,
    portfolioDelta: Option<real>,
    accounts: seq<seq<Holding>>,
    folioTotals: seq<Option<real>>,
    rows: seq<Raw>)

  /** `payload` is none for a preserved row whose JSON cannot be decoded. */
  datatype UploadRow = UploadRow(
    portfolio: string, source: string, investor: Option<string>, statementDate: int, grandTotal: real,
    portfolioOk: bool, portfolioDelta: Option<real>, payload: Option<Payload>)

  datatype SnapshotRow = SnapshotRow(uploadId: int, portfolio: string, asOf: int, value: real)

  datatype HoldingRow = HoldingRow(assetClass: string, value: real)

  datatype IngestError = NoGrandTotal | NoPeriodEnd | UnreadablePeriodEnd | NsdlAlreadyImported

  function OrDefault(s: Option<string>, default: string): string {
    if OrEmpty(s) == "" then default else s.value
  }

  function PortfolioKey(p: Payload): string { Text.Upper(OrDefault(p.pan, "primary")) }

  function SourceOf(p: Payload): string { Text.Lower(OrDefault(p.source, "unknown")) }

  // ---------------------------------------------------------------------------
  // Holdings by asset class
  // ---------------------------------------------------------------------------

  ghost function Total(rows: seq<HoldingRow>): real {
    if rows == [] then 0.0 else Total(rows[..|rows| - 1]) + rows[|rows| - 1].value
  }

  ghost function MaxReal(a: real, b: real): real { if a < b then b else a }

  ghost predicate ClassesApart(rows: seq<HoldingRow>) {
    forall i, j :: 0 <= i < j < |rows| ==> rows[i].assetClass != rows[j].assetClass
  }

  /** What the rows hold under one asset class. */
  ghost function Under(rows: seq<HoldingRow>, assetClass: string): real {
    if rows == [] then 0.0 else
      var last := rows[|rows| - 1];
      Under(rows[..|rows| - 1], assetClass) + if last.assetClass == assetClass then last.value else 0.0
  }

  ghost predicate HasClass(rows: seq<HoldingRow>, assetClass: string) {
    exists i | 0 <= i < |rows| :: rows[i].assetClass == assetClass
  }

  /** `rows` is `parts` added up class by class: one row per class that occurs. */
  ghost predicate Groups(rows: seq<HoldingRow>, parts: seq<HoldingRow>) {
    && ClassesApart(rows)
    && Total(rows) == Total(parts)
    && (forall c: string :: Under(rows, c) == Under(parts, c))
    && (forall c: string :: HasClass(rows, c) <==> HasClass(parts, c))
  }

  ghost function HoldingParts(holdings: seq<Holding>): seq<HoldingRow> {
    if holdings == [] then [] else
      var last := holdings[|holdings| - 1];
      HoldingParts(holdings[..|holdings| - 1])
      + if last.value.Some? then [HoldingRow(OrDefault(last.assetClass, "other"), last.value.value)] else []
  }

  ghost function AccountParts(accounts: seq<seq<Holding>>): seq<HoldingRow> {
    if accounts == [] then [] else AccountParts(accounts[..|accounts| - 1]) + HoldingParts(accounts[|accounts| - 1])
  }

  ghost function FolioParts(totals: seq<Option<real>>): seq<HoldingRow> {
    if totals == [] then [] else
      var last := totals[|totals| - 1];
      FolioParts(totals[..|totals| - 1]) + if last.Some? then [HoldingRow("mutual_fund", last.value)] else []
  }

  /** Everything the payload values, under the class it states. */
  ghost function ClassifiedParts(p: Payload): seq<HoldingRow> { AccountParts(p.accounts) + FolioParts(p.folioTotals) }

  ghost function ClassifiedTotal(p: Payload): real { Total(ClassifiedParts(p)) }

  /** The classified parts, and under `other` what the grand total exceeds them by. */
  ghost function BreakdownParts(p: Payload, grandTotal: real): seq<HoldingRow> {
    ClassifiedParts(p)
    + if grandTotal > ClassifiedTotal(p) then [HoldingRow("other", grandTotal - ClassifiedTotal(p))] else []
  }

  /** The holdings of one snapshot; they add up to the larger of the grand total and what the
      payload classifies. */
  ghost predicate IsBreakdown(rows: seq<HoldingRow>, p: Payload, grandTotal: real) {
    && Groups(rows, BreakdownParts(p, grandTotal))
    && Total(rows) == MaxReal(grandTotal, ClassifiedTotal(p))
  }

  lemma {:induction false} BreakdownTotal(p: Payload, grandTotal: real)
    ensures Total(BreakdownParts(p, grandTotal)) == MaxReal(grandTotal, ClassifiedTotal(p))
  {
    var parts := ClassifiedParts(p);
    if grandTotal > ClassifiedTotal(p) {
      AppendPart(parts, HoldingRow("other", grandTotal - ClassifiedTotal(p)));
    } else {
      assert BreakdownParts(p, grandTotal) == parts;
    }
  }

  lemma {:induction false} AppendPart(parts: seq<HoldingRow>, part: HoldingRow)
    ensures Total(parts + [part]) == Total(parts) + part.value
    ensures forall c: string ::
      Under(parts + [part], c) == Under(parts, c) + if part.assetClass == c then part.value else 0.0
    ensures forall c: string :: HasClass(parts + [part], c) <==> HasClass(parts, c) || part.assetClass == c
  {
  }

  /** `by_class[assetClass] += value` on an insertion-ordered dictionary. */
  method Bump(rows: seq<HoldingRow>, assetClass: string, value: real, ghost parts: seq<HoldingRow>)
    returns (next: seq<HoldingRow>)
    requires Groups(rows, parts)
    ensures Groups(next, parts + [HoldingRow(assetClass, value)])
  {
    hide Groups, HasClass;
    for i := 0 to |rows|
      invariant forall j | 0 <= j < i :: rows[j].assetClass != assetClass
    {
      if rows[i].assetClass == assetClass {
        GroupsUpdate(rows, i, value, parts);
        return rows[i := HoldingRow(assetClass, rows[i].value + value)];
      }
    }
    GroupsAppend(rows, HoldingRow(assetClass, value), parts);
    next := rows + [HoldingRow(assetClass, value)];
  }

  lemma {:induction false} GroupsUpdate(rows: seq<HoldingRow>, i: nat, value: real, parts: seq<HoldingRow>)
    requires Groups(rows, parts) && i < |rows|
    ensures Groups(rows[i := HoldingRow(rows[i].assetClass, rows[i].value + value)],
                   parts + [HoldingRow(rows[i].assetClass, value)])
  {
    assert HasClass(rows, rows[i].assetClass);
    hide Total, Under, HasClass;
    UpdatePart(rows, i, value);
    AppendPart(parts, HoldingRow(rows[i].assetClass, value));
  }

  lemma {:induction false} GroupsAppend(rows: seq<HoldingRow>, part: HoldingRow, parts: seq<HoldingRow>)
    requires Groups(rows, parts) && forall j | 0 <= j < |rows| :: rows[j].assetClass != part.assetClass
    ensures Groups(rows + [part], parts + [part])
  {
    hide Total, Under, HasClass;
    AppendPart(rows, part);
    AppendPart(parts, part);
  }

  lemma {:induction false} UpdatePart(rows: seq<HoldingRow>, i: nat, value: real)
    requires i < |rows|
    ensures
      var next := rows[i := HoldingRow(rows[i].assetClass, rows[i].value + value)];
      && Total(next) == Total(rows) + value
      && (forall c: string :: Under(next, c) == Under(rows, c) + if rows[i].assetClass == c then value else 0.0)
      && (forall c: string :: HasClass(next, c) <==> HasClass(rows, c))
  {
    var n := |rows| - 1;
    var next := rows[i := HoldingRow(rows[i].assetClass, rows[i].value + value)];
    if i < n {
      UpdatePart(rows[..n], i, value);
      assert next[..n] == rows[..n][i := HoldingRow(rows[i].assetClass, rows[i].value + value)];
    } else {
      assert next[..n] == rows[..n];
    }
    forall c: string ensures HasClass(next, c) <==> HasClass(rows, c) {
      if j: nat :| j < |rows| && rows[j].assetClass == c { assert next[j].assetClass == c; }
      if j: nat :| j < |rows| && next[j].assetClass == c { assert rows[j].assetClass == c; }
    }
  }

  /** The holdings breakdown: the payload's valued holdings and folios added up by asset class,
      with any excess of the grand total under `other`. */
  method Breakdown(p: Payload, grandTotal: real) returns (rows: seq<HoldingRow>)
    ensures IsBreakdown(rows, p, grandTotal)
  {
    hide Groups, MaxReal;
    rows := [];
    assert Groups(rows, []) by { EmptyGroups(); }
    for a := 0 to |p.accounts|
      invariant Groups(rows, AccountParts(p.accounts[..a]))
    {
      rows := AddHoldings(rows, AccountParts(p.accounts[..a]), p.accounts[a]);
      PrefixStep(p.accounts, a);
    }
    assert p.accounts[..|p.accounts|] == p.accounts;
    ghost var fromAccounts := AccountParts(p.accounts);
    assert fromAccounts + FolioParts(p.folioTotals[..0]) == fromAccounts;
    for f := 0 to |p.folioTotals|
      invariant Groups(rows, fromAccounts + FolioParts(p.folioTotals[..f]))
    {
      PrefixStep(p.folioTotals, f);
      ghost var before := fromAccounts + FolioParts(p.folioTotals[..f]);
      if p.folioTotals[f].Some? {
        rows := Bump(rows, "mutual_fund", p.folioTotals[f].value, before);
        assert before + [HoldingRow("mutual_fund", p.folioTotals[f].value)]
            == fromAccounts + FolioParts(p.folioTotals[..f + 1]);
      } else {
        assert before == fromAccounts + FolioParts(p.folioTotals[..f + 1]);
      }
    }
    assert p.folioTotals[..|p.folioTotals|] == p.folioTotals;
    assert Groups(rows, ClassifiedParts(p));
    var classified := SumValues(rows);
    assert classified == ClassifiedTotal(p) by { GroupsTotal(rows, ClassifiedParts(p)); }
    if grandTotal - classified > 0.0 {
      rows := Bump(rows, "other", grandTotal - classified, ClassifiedParts(p));
    } else {
      assert BreakdownParts(p, grandTotal) == ClassifiedParts(p);
    }
    BreakdownTotal(p, grandTotal);
    GroupsTotal(rows, BreakdownParts(p, grandTotal));
  }

  method AddHoldings(rows: seq<HoldingRow>, ghost parts: seq<HoldingRow>, holdings: seq<Holding>)
    returns (next: seq<HoldingRow>)
    requires Groups(rows, parts)
    ensures Groups(next, parts + HoldingParts(holdings))
  {
    hide Groups;
    next := rows;
    assert parts + HoldingParts(holdings[..0]) == parts;
    for h := 0 to |holdings|
      invariant Groups(next, parts + HoldingParts(holdings[..h]))
    {
      PrefixStep(holdings, h);
      ghost var before := parts + HoldingParts(holdings[..h]);
      if holdings[h].value.Some? {
        var assetClass := OrDefault(holdings[h].assetClass, "other");
        next := Bump(next, assetClass, holdings[h].value.value, before);
        assert before + [HoldingRow(assetClass, holdings[h].value.value)] == parts + HoldingParts(holdings[..h + 1]);
      } else {
        assert before == parts + HoldingParts(holdings[..h + 1]);
      }
    }
    assert holdings[..|holdings|] == holdings;
  }

  lemma {:induction false} EmptyGroups()
    ensures Groups([], [])
  {
  }

  lemma {:induction false} GroupsTotal(rows: seq<HoldingRow>, parts: seq<HoldingRow>)
    requires Groups(rows, parts)
    ensures Total(rows) == Total(parts)
  {
  }

  method SumValues(rows: seq<HoldingRow>) returns (sum: real)
    ensures sum == Total(rows)
  {
    sum := 0.0;
    for i := 0 to |rows|
      invariant sum == Total(rows[..i])
    {
      PrefixStep(rows, i);
      sum := sum + rows[i].value;
    }
    assert rows[..|rows|] == rows;
  }

  // ---------------------------------------------------------------------------
  // The tables
  // ---------------------------------------------------------------------------

  ghost predicate States(u: UploadRow) {
    u.payload.Some? ==> Importable(u.payload.value) && u == RowOf(u.payload.value)
  }

  ghost predicate SameStatement(a: UploadRow, b: UploadRow) {
    a.portfolio == b.portfolio && a.statementDate == b.statementDate
  }

  type Uploads = map<int, UploadRow>

  /** At most one upload per portfolio and statement date, each saying what its payload says. */
  ghost predicate UploadsValid(uploads: Uploads) {
    && (forall a, b | a in uploads && b in uploads && a != b :: !SameStatement(uploads[a], uploads[b]))
    && (forall u | u in uploads :: States(uploads[u]))
  }

  function SnapshotOf(id: int, u: UploadRow): SnapshotRow {
    SnapshotRow(id, u.portfolio, u.statementDate, u.grandTotal)
  }

  /** No snapshot or holding without its upload; the holdings add up. */
  ghost predicate SnapshotsValid(
    uploads: Uploads, snapshots: map<int, SnapshotRow>, holdings: map<int, seq<HoldingRow>>) {
    && (forall s | s in snapshots ::
          && snapshots[s].uploadId in uploads
          && snapshots[s] == SnapshotOf(snapshots[s].uploadId, uploads[snapshots[s].uploadId]))
    && holdings.Keys <= snapshots.Keys
    && (forall s | s in holdings ::
          var u := uploads[snapshots[s].uploadId];
          u.payload.Some? ==> IsBreakdown(holdings[s], u.payload.value, u.grandTotal))
  }

  /** Every upload has exactly one snapshot, with its breakdown. */
  ghost predicate SnapshotEach(
    uploads: Uploads, snapshots: map<int, SnapshotRow>, holdings: map<int, seq<HoldingRow>>) {
    && (forall u | u in uploads :: exists s :: s in snapshots && snapshots[s].uploadId == u && s in holdings)
    && (forall s, t | s in snapshots && t in snapshots && snapshots[s].uploadId == snapshots[t].uploadId :: s == t)
  }

  /** Lot rows of one upload: lots of its payload, none twice. */
  ghost predicate LotsOfUpload(u: UploadRow, rows: seq<Lot>) {
    && !Repeats(rows)
    && (u.payload.Some? ==> forall lot | lot in rows :: lot in NumberedLots(u.payload.value.rows))
  }

  /** No lot without its upload. */
  ghost predicate LotsValid(uploads: Uploads, lots: map<int, seq<Lot>>) {
    && lots.Keys <= uploads.Keys
    && forall u | u in lots :: LotsOfUpload(uploads[u], lots[u])
  }

  /** Every lot the payload states is stored. */
  ghost predicate AllStored(u: UploadRow, rows: seq<Lot>) {
    u.payload.Some? ==> forall lot | lot in NumberedLots(u.payload.value.rows) :: lot in rows
  }

  /** Inserts the lots whose complete key is not among the stored rows. */
  method AddMissing(numbered: seq<Lot>, stored: seq<Lot>) returns (after: seq<Lot>)
    requires !Repeats(stored)
    ensures stored <= after && !Repeats(after)
    ensures forall lot :: lot in after <==> lot in stored || lot in numbered
    ensures (forall lot | lot in numbered :: lot in stored) ==> after == stored
    ensures stored == [] && !Repeats(numbered) ==> after == numbered
  {
    after := stored;
    for i := 0 to |numbered|
      invariant stored <= after && !Repeats(after)
      invariant forall lot :: lot in after <==> lot in stored || lot in numbered[..i]
      invariant (forall lot | lot in numbered :: lot in stored) ==> after == stored
      invariant stored == [] && !Repeats(numbered) ==> after == numbered[..i]
    {
      PrefixStep(numbered, i);
      assert !Repeats(numbered) ==> numbered[i] !in numbered[..i];
      if numbered[i] !in after {
        AppendNew(after, numbered[i]);
        after := after + [numbered[i]];
      }
    }
  }

  /** Every upload keeps its lot rows, and those in `untouched` have gained none. */
  ghost predicate Grown(before: map<int, seq<Lot>>, after: map<int, seq<Lot>>, ids: set<int>, untouched: set<int>) {
    forall u | u in ids ::
      && Lookup(before, u, []) <= Lookup(after, u, [])
      && (u in untouched ==> Lookup(before, u, []) == Lookup(after, u, []))
  }

  lemma {:induction false} NothingGrown(lots: map<int, seq<Lot>>, ids: set<int>)
    ensures Grown(lots, lots, ids, ids)
  {
  }

  lemma {:induction false} AllGrown(before: map<int, seq<Lot>>, after: map<int, seq<Lot>>, ids: set<int>)
    ensures Grown(before, after, ids, {}) ==> forall u | u in ids :: Lookup(before, u, []) <= Lookup(after, u, [])
    ensures Grown(before, after, ids, ids) ==> forall u | u in ids :: Lookup(after, u, []) == Lookup(before, u, [])
  {
  }

  lemma {:induction false} GrownStep(
    before: map<int, seq<Lot>>, lots: map<int, seq<Lot>>, after: map<int, seq<Lot>>, ids: set<int>,
    pending: set<int>, u: int)
    requires Grown(before, lots, ids, pending) && u in pending
    requires Lookup(lots, u, []) <= Lookup(after, u, [])
    requires forall v | v != u :: Lookup(after, v, []) == Lookup(lots, v, [])
    requires u in ids
    ensures Lookup(before, u, []) == Lookup(lots, u, []) && Grown(before, after, ids, pending - {u})
    ensures Grown(before, lots, ids, ids) && Lookup(lots, u, []) == Lookup(after, u, []) ==>
      Grown(before, after, ids, ids)
  {
  }

  /** The ids a backfill has reported: the unreadable uploads it has passed, in id order. */
  ghost predicate Reported(uploads: Uploads, pending: set<int>, malformed: seq<int>) {
    && Ascending(malformed)
    && (forall u, v | u in malformed && v in pending :: u < v)
    && (forall u :: u in malformed <==> u in uploads && u !in pending && uploads[u].payload.None?)
  }

  lemma {:induction false} NothingReported(uploads: Uploads)
    ensures Reported(uploads, uploads.Keys, [])
  {
  }

  lemma {:induction false} AllReported(uploads: Uploads, malformed: seq<int>)
    requires Reported(uploads, {}, malformed)
    ensures Ascending(malformed) && forall u :: u in malformed <==> u in uploads && uploads[u].payload.None?
  {
  }

  lemma {:induction false} ReportStep(uploads: Uploads, pending: set<int>, malformed: seq<int>, u: int)
    requires Reported(uploads, pending, malformed) && u in pending && u in uploads
    requires forall v | v in pending :: u <= v
    ensures Reported(uploads, pending - {u}, if uploads[u].payload.None? then malformed + [u] else malformed)
  {
    var next := if uploads[u].payload.None? then malformed + [u] else malformed;
    assert forall v :: v in next <==> v in malformed || (v == u && uploads[u].payload.None?);
    forall i | 0 <= i < |malformed| ensures malformed[i] < u { assert malformed[i] in malformed; }
  }

  class Store {
    var uploads: Uploads
    var snapshots: map<int, SnapshotRow>
    /** Breakdown rows by the snapshot they reference. */
    var holdings: map<int, seq<HoldingRow>>
    /** Lot rows by the upload they reference. */
    var lots: map<int, seq<Lot>>

    ghost predicate Valid()
      reads this
    {
      && UploadsValid(uploads)
      && SnapshotsValid(uploads, snapshots, holdings)
      && LotsValid(uploads, lots)
    }

    ghost predicate Complete(u: int)
      reads this
      requires u in uploads
    {
      AllStored(uploads[u], Lookup(lots, u, []))
    }

    /** As every ingest leaves it; uploads from elsewhere may lack a snapshot. */
    ghost predicate Snapshotted()
      reads this
    {
      SnapshotEach(uploads, snapshots, holdings)
    }

    constructor ()
      ensures Valid() && Snapshotted() && uploads == map[]
    {
      uploads, snapshots, holdings, lots := map[], map[], map[], map[];
    }

    /** Persists the lots of one payload that are not stored yet; reports why the other rows gave none. */
    method CreateInvestmentLots(uploadId: int, rows: seq<Raw>) returns (created: nat, exclusions: seq<Exclusion>)
      requires Valid() && uploadId in uploads
      requires uploads[uploadId].payload.Some? && uploads[uploadId].payload.value.rows == rows
      modifies this`lots
      ensures Valid() && Complete(uploadId)
      ensures lots == old(lots)[uploadId := Lookup(lots, uploadId, [])]
      ensures Lookup(old(lots), uploadId, []) <= Lookup(lots, uploadId, [])
      ensures created == |Lookup(lots, uploadId, [])| - |Lookup(old(lots), uploadId, [])|
      ensures old(Complete(uploadId)) ==> created == 0
      ensures uploadId !in old(lots) ==> Lookup(lots, uploadId, []) == NumberedLots(rows)
      ensures exclusions == ExclusionsOf(rows)
    {
      NumberedWithoutRepeats(rows);
      hide Repeats, NumberedLots, ExclusionsOf;
      var numbered;
      numbered, exclusions := ExtractLotsFromPayload(rows);
      var stored := Lookup(lots, uploadId, []);
      assert !Repeats(stored) by { EmptyRepeats(uploads, lots, uploadId); }
      var after := AddMissing(numbered, stored);
      created := |after| - |stored|;
      lots := lots[uploadId := after];
    }

    /** Removes an upload with its snapshots, their holdings and its lots, in that order. */
    method DeleteUpload(id: int)
      requires Valid() && id in uploads
      modifies this
      ensures Valid()
      ensures uploads == old(uploads) - {id} && lots == old(lots) - {id}
      ensures snapshots == old(Without(snapshots, {id})) && holdings.Keys <= old(holdings).Keys
      ensures forall s | s in snapshots && s in old(holdings) :: s in holdings && holdings[s] == old(holdings)[s]
      ensures old(Snapshotted()) ==> Snapshotted()
    {
      var snapshotIds := set s | s in snapshots && snapshots[s].uploadId == id;
      holdings := holdings - snapshotIds;
      snapshots := snapshots - snapshotIds;
      lots := lots - {id};
      uploads := uploads - {id};
    }

    /** Imports one payload, replacing any prior upload of its portfolio and statement date. */
    method Ingest(p: Payload, force: bool) returns (r: Result<int, IngestError>)
      requires Valid()
      modifies this
      ensures Valid()
      // a rejected payload changes nothing
      ensures r.Err? ==> uploads == old(uploads) && snapshots == old(snapshots)
                         && holdings == old(holdings) && lots == old(lots)
      // and is rejected for the first of these reasons
      ensures r == Err(NoGrandTotal) <==> p.grandTotal.None?
      ensures r == Err(NoPeriodEnd) <==> p.grandTotal.Some? && EmptyDate(p.periodEnd)
      ensures r == Err(UnreadablePeriodEnd) <==> p.grandTotal.Some? && !EmptyDate(p.periodEnd) && !p.periodEnd.Day?
      ensures r == Err(NsdlAlreadyImported) <==>
        Importable(p) && !force && old(CoveredByNsdl(uploads, p))
      // an accepted one replaces the prior uploads and nothing else
      ensures r.Ok? ==>
        var priors := old(Priors(uploads, p));
        && r.value !in old(uploads) - priors
        && uploads == (old(uploads) - priors)[r.value := RowOf(p)]
        && lots == (old(lots) - priors)[r.value := Lookup(lots, r.value, [])]
        && Lookup(lots, r.value, []) == NumberedLots(p.rows)
        && (exists s ::
              && s !in old(Without(snapshots, priors)) && s in holdings
                && IsBreakdown(holdings[s], p, RowOf(p).grandTotal)
              && snapshots == old(Without(snapshots, priors))[s := SnapshotOf(r.value, RowOf(p))])
        && (forall s | s in old(Without(snapshots, priors)) && s in old(holdings) ::
              s in holdings && holdings[s] == old(holdings)[s])
      // every upload keeps exactly one snapshot with its breakdown
      ensures old(Snapshotted()) ==> Snapshotted()
    {
      if p.grandTotal.None? { return Err(NoGrandTotal); }
      if EmptyDate(p.periodEnd) { return Err(NoPeriodEnd); }
      if !p.periodEnd.Day? { return Err(UnreadablePeriodEnd); }
      var priors := Priors(uploads, p);
      if !force {
        var covered := exists u | u in priors :: uploads[u].source == "nsdl" && SourceOf(p) == "cdsl";
        if covered { return Err(NsdlAlreadyImported); }
      }
      DeletePriors(priors);
      var id := InsertUpload(p);
      if old(Snapshotted()) {
        IngestSnapshots(old(uploads), old(snapshots), old(holdings), priors, id, RowOf(p), uploads, snapshots,
          holdings);
      }
      r := Ok(id);
    }

    method DeletePriors(priors: set<int>)
      requires Valid() && priors <= uploads.Keys
      modifies this
      ensures Valid()
      ensures uploads == old(uploads) - priors && lots == old(lots) - priors
      ensures snapshots == old(Without(snapshots, priors))
      ensures forall s | s in snapshots && s in old(holdings) :: s in holdings && holdings[s] == old(holdings)[s]
    {
      hide UploadsValid, SnapshotsValid, LotsValid, Without;
      var pending := priors;
      ghost var gone: set<int> := {};
      WithoutNone(snapshots);
      while pending != {}
        invariant pending == priors - gone && gone <= priors && Valid()
        invariant uploads == old(uploads) - gone && lots == old(lots) - gone
        invariant snapshots == Without(old(snapshots), gone)
        invariant forall s | s in snapshots && s in old(holdings) :: s in holdings && holdings[s] == old(holdings)[s]
        decreases |pending|
      {
        var u := PickId(pending);
        WithoutMore(old(snapshots), gone, u);
        DeleteUpload(u);
        pending, gone := pending - {u}, gone + {u};
      }
      assert gone == priors;
    }

    method InsertUpload(p: Payload) returns (id: int)
      requires Valid() && Importable(p) && Priors(uploads, p) == {}
      modifies this
      ensures Valid()
      ensures id !in old(uploads) && uploads == old(uploads)[id := RowOf(p)]
      ensures lots == old(lots)[id := Lookup(lots, id, [])] && Lookup(lots, id, []) == NumberedLots(p.rows)
      ensures exists s :: s !in old(snapshots) && s in holdings && IsBreakdown(holdings[s], p, RowOf(p).grandTotal)
                          && snapshots == old(snapshots)[s := SnapshotOf(id, RowOf(p))]
      ensures forall s | s in old(snapshots) && s in old(holdings) :: s in holdings && holdings[s] == old(holdings)[s]
    {
      assert lots.Keys <= uploads.Keys;
      hide NumberedLots, IsBreakdown, UploadsValid, SnapshotsValid, LotsValid, RowOf, SnapshotOf;
      id := NextId(uploads.Keys);
      var s := NextId(snapshots.Keys);
      InsertSnapshot(p, id, s);
      assert uploads[id].payload == Some(p) by { RowKeepsPayload(p); }
      var created, exclusions := CreateInvestmentLots(id, p.rows);
    }

    method InsertSnapshot(p: Payload, id: int, s: int)
      requires Valid() && Importable(p) && Priors(uploads, p) == {} && id !in uploads && s !in snapshots
      modifies this`uploads, this`snapshots, this`holdings
      ensures Valid()
      ensures uploads == old(uploads)[id := RowOf(p)] && snapshots == old(snapshots)[s := SnapshotOf(id, RowOf(p))]
      ensures s in holdings && holdings == old(holdings)[s := holdings[s]]
      ensures IsBreakdown(holdings[s], p, RowOf(p).grandTotal)
    {
      hide IsBreakdown, UploadsValid, SnapshotsValid, LotsValid;
      var breakdown := Breakdown(p, p.grandTotal.value);
      InsertValid(uploads, snapshots, holdings, lots, p, id, s, breakdown);
      uploads := uploads[id := RowOf(p)];
      snapshots := snapshots[s := SnapshotOf(id, RowOf(p))];
      holdings := holdings[s := breakdown];
    }

    ghost predicate AllComplete()
      reads this
    {
      forall u | u in uploads :: Complete(u)
    }

    /** Stores the missing lots of every upload whose payload can be decoded. */
    method BackfillInvestmentLots() returns (scanned: nat, created: nat, malformed: seq<int>)
      requires Valid()
      modifies this`lots
      ensures Valid() && AllComplete()
      ensures scanned == |uploads| && Ascending(malformed)
      ensures forall u :: u in malformed <==> u in uploads && uploads[u].payload.None?
      ensures forall u | u in uploads :: Lookup(old(lots), u, []) <= Lookup(lots, u, [])
      ensures old(AllComplete()) ==> created == 0
      ensures created == 0 ==> forall u | u in uploads :: Lookup(lots, u, []) == Lookup(old(lots), u, [])
    {
      hide AllStored, UploadsValid, SnapshotsValid, LotsValid;
      hide Reported, Grown;
      NothingReported(uploads);
      NothingGrown(lots, uploads.Keys);
      scanned, created, malformed := |uploads|, 0, [];
      var pending := uploads.Keys;
      while pending != {}
        invariant pending <= uploads.Keys && Valid()
        invariant Reported(uploads, pending, malformed)
        invariant Grown(old(lots), lots, uploads.Keys, pending)
        invariant forall u | u in uploads && u !in pending :: Complete(u)
        invariant old(AllComplete()) ==> created == 0
        invariant created == 0 ==> Grown(old(lots), lots, uploads.Keys, uploads.Keys)
        decreases |pending|
      {
        var u := PickLeast(pending);
        ReportStep(uploads, pending, malformed, u);
        ghost var before := lots;
        var n, bad := BackfillUpload(u);
        GrownStep(old(lots), before, lots, uploads.Keys, pending, u);
        pending := pending - {u};
        created := created + n;
        if bad { malformed := malformed + [u]; }
      }
      AllReported(uploads, malformed);
      AllGrown(old(lots), lots, uploads.Keys);
    }

    method BackfillUpload(u: int) returns (created: nat, malformed: bool)
      requires Valid() && u in uploads
      modifies this`lots
      ensures Valid() && Complete(u)
      ensures malformed <==> uploads[u].payload.None?
      ensures forall v | v != u :: Lookup(lots, v, []) == Lookup(old(lots), v, [])
      ensures forall v | v != u && v in uploads && old(Complete(v)) :: Complete(v)
      ensures Lookup(old(lots), u, []) <= Lookup(lots, u, [])
      ensures created == |Lookup(lots, u, [])| - |Lookup(old(lots), u, [])|
      ensures old(Complete(u)) ==> created == 0
    {
      match uploads[u].payload {
        case None => created, malformed := 0, true;
        case Some(payload) =>
          malformed := false;
          var exclusions;
          created, exclusions := CreateInvestmentLots(u, payload.rows);
      }
    }

    /** Any run of ingests, forced or not and whatever it rejects, keeps every upload's lots
        complete, so a backfill after it finds nothing to create. */
    method IngestAll(run: seq<(Payload, bool)>)
      requires Valid() && AllComplete()
      modifies this
      ensures Valid() && AllComplete()
      ensures old(Snapshotted()) ==> Snapshotted()
    {
      for i := 0 to |run|
        invariant Valid() && AllComplete()
        invariant old(Snapshotted()) ==> Snapshotted()
      {
        label before:
        var r := Ingest(run[i].0, run[i].1);
        if r.Ok? {
          forall u | u in uploads ensures Complete(u) {
            if u != r.value {
              assert old@before(Complete(u));
            }
          }
        }
      }
    }

    method IngestThenBackfill(run: seq<(Payload, bool)>) returns (created: nat)
      requires Valid() && AllComplete()
      modifies this
      ensures Valid() && created == 0
    {
      IngestAll(run);
      var scanned, malformed;
      scanned, created, malformed := BackfillInvestmentLots();
    }
  }

  /** In a valid store no upload holds two lots with one natural key. */
  lemma {:induction false} StoredKeysDistinct(u: UploadRow, rows: seq<Lot>, i: nat, j: nat)
    requires LotsOfUpload(u, rows) && u.payload.Some? && i < j < |rows|
    ensures NaturalKey(rows[i]) != NaturalKey(rows[j])
  {
    hide NumberedLots, IdentityOf;
    var lots := NumberedLots(u.payload.value.rows);
    assert rows[i] in lots && rows[j] in lots;
    var a :| 0 <= a < |lots| && lots[a] == rows[i];
    var b :| 0 <= b < |lots| && lots[b] == rows[j];
    if a < b {
      ExtractedKeysDistinct(u.payload.value.rows, a, b);
    } else if b < a {
      ExtractedKeysDistinct(u.payload.value.rows, b, a);
    }
  }

  /** An upload's numbered lots never repeat, not even in their natural keys. */
  lemma {:induction false} NumberedWithoutRepeats(rows: seq<Raw>)
    ensures !Repeats(NumberedLots(rows))
  {
    var lots := NumberedLots(rows);
    forall i, j | 0 <= i < j < |lots| ensures lots[i] != lots[j] {
      ExtractedKeysDistinct(rows, i, j);
    }
  }

  lemma {:induction false} InsertValid(
    uploads: Uploads, snapshots: map<int, SnapshotRow>, holdings: map<int, seq<HoldingRow>>, lots: map<int, seq<Lot>>,
    p: Payload, id: int, s: int, breakdown: seq<HoldingRow>)
    requires UploadsValid(uploads) && SnapshotsValid(uploads, snapshots, holdings) && LotsValid(uploads, lots)
    requires Importable(p) && Priors(uploads, p) == {} && id !in uploads && s !in snapshots
    requires IsBreakdown(breakdown, p, p.grandTotal.value)
    ensures UploadsValid(uploads[id := RowOf(p)])
    ensures SnapshotsValid(uploads[id := RowOf(p)], snapshots[s := SnapshotOf(id, RowOf(p))], holdings[s := breakdown])
    ensures LotsValid(uploads[id := RowOf(p)], lots)
  {
    hide LotsOfUpload, PortfolioKey, SourceOf, IsBreakdown;
    forall u | u in uploads ensures !SameStatement(uploads[u], RowOf(p)) {
      assert u !in Priors(uploads, p);
    }
  }

  lemma {:induction false} EmptyRepeats(uploads: Uploads, lots: map<int, seq<Lot>>, u: int)
    requires LotsValid(uploads, lots)
    ensures !Repeats(Lookup(lots, u, []))
  {
  }

  lemma {:induction false} IngestSnapshots(
    uploads: Uploads, snapshots: map<int, SnapshotRow>, holdings: map<int, seq<HoldingRow>>, priors: set<int>,
    id: int, row: UploadRow, uploads': Uploads, snapshots': map<int, SnapshotRow>, holdings': map<int, seq<HoldingRow>>)
    requires SnapshotsValid(uploads, snapshots, holdings) && SnapshotEach(uploads, snapshots, holdings)
    requires id !in uploads - priors && uploads' == (uploads - priors)[id := row]
    requires exists s ::
      && s !in Without(snapshots, priors) && s in holdings'
      && snapshots' == Without(snapshots, priors)[s := SnapshotOf(id, row)]
    requires forall s | s in Without(snapshots, priors) && s in holdings :: s in holdings'
    ensures SnapshotEach(uploads', snapshots', holdings')
  {
    var mine :| mine !in Without(snapshots, priors) && mine in holdings'
                && snapshots' == Without(snapshots, priors)[mine := SnapshotOf(id, row)];
    forall u | u in uploads' ensures exists s :: s in snapshots' && snapshots'[s].uploadId == u && s in holdings' {
      if u == id {
        assert snapshots'[mine].uploadId == u;
      } else {
        var s :| s in snapshots && snapshots[s].uploadId == u && s in holdings;
        assert s in Without(snapshots, priors) && snapshots'[s].uploadId == u;
      }
    }
  }

  lemma {:induction false} WithoutNone(snapshots: map<int, SnapshotRow>)
    ensures Without(snapshots, {}) == snapshots
  {
  }

  lemma {:induction false} WithoutMore(snapshots: map<int, SnapshotRow>, ids: set<int>, id: int)
    ensures Without(Without(snapshots, ids), {id}) == Without(snapshots, ids + {id})
    ensures Without(snapshots, ids + {id}).Keys <= Without(snapshots, ids).Keys
  {
  }

  lemma {:induction false} RowKeepsPayload(p: Payload)
    requires Importable(p)
    ensures RowOf(p).payload == Some(p)
  {
  }

  predicate EmptyDate(d: RawDate) { d.NoDate? || (d.Blank? && d.text == "") }

  predicate Importable(p: Payload) { p.grandTotal.Some? && p.periodEnd.Day? }

  function RowOf(p: Payload): UploadRow
    requires Importable(p)
  {
    UploadRow(PortfolioKey(p), SourceOf(p), p.investor, p.periodEnd.day, p.grandTotal.value,
              if p.portfolioOk.Some? then p.portfolioOk.value else true, p.portfolioDelta, Some(p))
  }

  /** The uploads a payload replaces. */
  function Priors(uploads: Uploads, p: Payload): set<int>
    requires Importable(p)
  {
    set u | u in uploads && uploads[u].portfolio == PortfolioKey(p) && uploads[u].statementDate == p.periodEnd.day
  }

  /** NSDL statements embed the CDSL ones. */
  ghost predicate CoveredByNsdl(uploads: Uploads, p: Payload)
    requires Importable(p)
  {
    SourceOf(p) == "cdsl" && exists u | u in Priors(uploads, p) :: uploads[u].source == "nsdl"
  }

  function Without(snapshots: map<int, SnapshotRow>, ids: set<int>): map<int, SnapshotRow> {
    map s | s in snapshots && snapshots[s].uploadId !in ids :: snapshots[s]
  }
}
