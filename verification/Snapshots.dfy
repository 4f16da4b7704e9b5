/** Balance snapshots: the query that lists them, the latest one of each source, and sums over
    the sources. Values are in paise. */
module Snapshots {
  import opened Calendar
  import opened Sequences
  import opened Sorting
  import opened Wrappers

  // ---------------------------------------------------------------------------
  // Snapshots and their sources
  // ---------------------------------------------------------------------------

  datatype Kind = Asset | Liability | Unknown(text: string)

  datatype UploadLink = UploadLink(investor: Option<string>, portfolioOk: bool)

  /** What the query loads beside a snapshot: the names of its account and manual item, and its upload. */
  datatype Links = Links(accountName: Option<string>, itemName: Option<string>, upload: Option<UploadLink>)

  datatype Snapshot = Snapshot(
    id: int, account: Option<int>, portfolio: Option<string>, manualItem: Option<int>,
    kind: Kind, category: string, asOf: Date, value: int, currency: string, links: Links)

  datatype SourceKey =
    | AccountSource(account: int, category: string)
    | PortfolioSource(portfolio: string, category: string)
    | ManualSource(item: Option<int>)

  function KeyOf(s: Snapshot): SourceKey {
    if s.account.Some? then AccountSource(s.account.value, s.category)
    else if s.portfolio.Some? then PortfolioSource(s.portfolio.value, s.category)
    else ManualSource(s.manualItem)
  }

  /** `(as_of_date, id)` compared as a pair. */
  predicate Precedes(a: Snapshot, b: Snapshot) {
    (a.asOf != b.asOf && NotAfter(a.asOf, b.asOf)) || (a.asOf == b.asOf && a.id < b.id)
  }

  ghost predicate InQueryOrder(snaps: seq<Snapshot>) {
    && (forall i | 0 <= i < |snaps| :: IsDate(snaps[i].asOf))
    && (forall i, j :: 0 <= i < j < |snaps| ==> Precedes(snaps[i], snaps[j]))
  }

  ghost predicate DistinctPositions(snaps: seq<Snapshot>) {
    forall i, j :: 0 <= i < j < |snaps| ==> Precedes(snaps[i], snaps[j]) || Precedes(snaps[j], snaps[i])
  }

  type Best = map<SourceKey, Snapshot>

  /** `best` holds, for each source with a snapshot by `asOf`, its latest one. */
  ghost predicate IsLatestPerSource(best: Best, snaps: seq<Snapshot>, asOf: Date) {
    && (forall k | k in best ::
          && best[k] in snaps && KeyOf(best[k]) == k && NotAfter(best[k].asOf, asOf)
          && forall s | s in snaps && KeyOf(s) == k && NotAfter(s.asOf, asOf) :: s == best[k] || Precedes(s, best[k]))
    && (forall s | s in snaps && NotAfter(s.asOf, asOf) :: KeyOf(s) in best)
  }

  // ---------------------------------------------------------------------------
  // Totals
  // ---------------------------------------------------------------------------

  predicate Counted(s: Snapshot) { s.currency == "INR" }

  function KindValue(s: Snapshot, kind: Kind): int { if Counted(s) && s.kind == kind then s.value else 0 }

  ghost function SumOver(best: Best, kind: Kind): int {
    if best == map[] then 0 else
      var k :| k in best;
      SumOver(best - {k}, kind) + KindValue(best[k], kind)
  }

  /** A sum does not depend on the order in which the sources are visited. */
  lemma {:induction false} SumWithout(best: Best, kind: Kind, k: SourceKey)
    requires k in best
    ensures SumOver(best, kind) == SumOver(best - {k}, kind) + KindValue(best[k], kind)
    decreases |best|
  {
    var first :| first in best && SumOver(best, kind) == SumOver(best - {first}, kind) + KindValue(best[first], kind);
    if first != k {
      SumWithout(best - {first}, kind, k);
      SumWithout(best - {k}, kind, first);
      assert best - {first} - {k} == best - {k} - {first};
    }
  }

  datatype Totals = Totals(assets: int, liabilities: int)

  ghost function TotalsOf(best: Best): Totals { Totals(SumOver(best, Asset), SumOver(best, Liability)) }

  method SumSnapshots(best: Best) returns (assets: int, liabilities: int)
    ensures Totals(assets, liabilities) == TotalsOf(best)
  {
    assets, liabilities := 0, 0;
    var pending := best;
    while pending != map[]
      invariant assets + TotalsOf(pending).assets == TotalsOf(best).assets
      invariant liabilities + TotalsOf(pending).liabilities == TotalsOf(best).liabilities
      decreases |pending|
    {
      var k :| k in pending;
      SumWithout(pending, Asset, k);
      SumWithout(pending, Liability, k);
      var s := pending[k];
      pending := pending - {k};
      if !Counted(s) { continue; }
      if s.kind == Asset {
        assets := assets + s.value;
      } else if s.kind == Liability {
        liabilities := liabilities + s.value;
      }
    }
  }

  /** The simple definition: assets minus liabilities over the latest snapshot of each source. */
  ghost predicate IsNetWorth(snaps: seq<Snapshot>, asOf: Date, value: int) {
    exists best :: IsLatestPerSource(best, snaps, asOf) && value == TotalsOf(best).assets - TotalsOf(best).liabilities
  }

  lemma {:induction false} LatestUnique(a: Best, b: Best, snaps: seq<Snapshot>, asOf: Date)
    requires IsLatestPerSource(a, snaps, asOf) && IsLatestPerSource(b, snaps, asOf)
    ensures a == b
  {
    forall k | k in a ensures k in b && a[k] == b[k] { assert a[k] in snaps; }
    forall k | k in b ensures k in a { assert b[k] in snaps; }
  }

  /** The simple definition names one value. */
  lemma {:induction false} NetWorthUnique(snaps: seq<Snapshot>, asOf: Date, v: int, w: int)
    requires IsNetWorth(snaps, asOf, v) && IsNetWorth(snaps, asOf, w)
    ensures v == w
  {
    hide IsLatestPerSource, TotalsOf;
    var a :| IsLatestPerSource(a, snaps, asOf) && v == TotalsOf(a).assets - TotalsOf(a).liabilities;
    var b :| IsLatestPerSource(b, snaps, asOf) && w == TotalsOf(b).assets - TotalsOf(b).liabilities;
    LatestUnique(a, b, snaps, asOf);
  }

  // ---------------------------------------------------------------------------
  // The latest snapshot of each source
  // ---------------------------------------------------------------------------

  lemma {:induction false} Ranked(snaps: seq<Snapshot>, i: nat)
    requires DistinctPositions(snaps) && i < |snaps|
    ensures forall s | s in snaps[..i] :: Precedes(s, snaps[i]) || Precedes(snaps[i], s)
    ensures forall s, t | Precedes(s, t) && Precedes(t, snaps[i]) :: Precedes(s, snaps[i])
  {
    forall s | s in snaps[..i] ensures Precedes(s, snaps[i]) || Precedes(snaps[i], s) {
      var j :| 0 <= j < i && snaps[j] == s;
    }
  }

  /** One more snapshot: it replaces its source's best if it is the later of the two. */
  lemma {:induction false} LaterOneWins(best: Best, snaps: seq<Snapshot>, i: nat, asOf: Date)
    requires DistinctPositions(snaps) && i < |snaps| && IsLatestPerSource(best, snaps[..i], asOf)
    ensures
      var s := snaps[i];
      var newer := NotAfter(s.asOf, asOf) && (KeyOf(s) !in best || Precedes(best[KeyOf(s)], s));
      IsLatestPerSource(if newer then best[KeyOf(s) := s] else best, snaps[..i + 1], asOf)
  {
    PrefixStep(snaps, i);
    Ranked(snaps, i);
    hide NotAfter, Precedes, KeyOf;
  }

  /** The sources in the order in which they first turn up. */
  function SourcesSeen(snaps: seq<Snapshot>, asOf: Date): seq<SourceKey> {
    if snaps == [] then [] else
      var s, before := snaps[|snaps| - 1], SourcesSeen(snaps[..|snaps| - 1], asOf);
      if NotAfter(s.asOf, asOf) then AddNew(before, KeyOf(s)) else before
  }

  /** The dictionary's values, in insertion order. */
  function ValuesOf(best: Best, order: seq<SourceKey>): (current: seq<Snapshot>)
    requires forall k | k in order :: k in best
    ensures |current| == |order|
    ensures forall i | 0 <= i < |current| :: current[i] == best[order[i]]
  {
    if order == [] then [] else ValuesOf(best, order[..|order| - 1]) + [best[order[|order| - 1]]]
  }

  ghost predicate Orders(order: seq<SourceKey>, best: Best) {
    !Repeats(order) && forall k :: k in order <==> k in best
  }

  /** `current` is the latest snapshot of each source, in the order in which the sources turn up. */
  ghost predicate IsCurrent(snaps: seq<Snapshot>, asOf: Date, current: seq<Snapshot>) {
    exists best ::
      && IsLatestPerSource(best, snaps, asOf) && Orders(SourcesSeen(snaps, asOf), best)
      && current == ValuesOf(best, SourcesSeen(snaps, asOf))
  }

  /** Snapshots may come in any order. */
  method LatestPerSource(snaps: seq<Snapshot>, asOf: Date) returns (best: Best, order: seq<SourceKey>)
    requires DistinctPositions(snaps)
    ensures IsLatestPerSource(best, snaps, asOf)
    ensures order == SourcesSeen(snaps, asOf) && Orders(order, best)
  {
    best, order := map[], [];
    NoneSeen(asOf);
    hide IsLatestPerSource, NotAfter, Orders, DistinctPositions, SourcesSeen, Precedes, KeyOf;
    for i := 0 to |snaps|
      invariant IsLatestPerSource(best, snaps[..i], asOf)
      invariant order == SourcesSeen(snaps[..i], asOf) && Orders(order, best)
    {
      LaterOneWins(best, snaps, i, asOf);
      var s := snaps[i];
      SourceSeen(best, snaps[..i], s, asOf);
      PrefixStep(snaps, i);
      if NotAfter(s.asOf, asOf) {
        var key := KeyOf(s);
        if key !in best || Precedes(best[key], s) {
          if key !in best { order := order + [key]; }
          best := best[key := s];
        }
      }
    }
    assert snaps[..|snaps|] == snaps;
  }

  lemma {:induction false} NoneSeen(asOf: Date)
    ensures IsLatestPerSource(map[], [], asOf) && SourcesSeen([], asOf) == [] && Orders([], map[])
  {
  }

  lemma {:induction false} SourceSeen(best: Best, snaps: seq<Snapshot>, s: Snapshot, asOf: Date)
    requires Orders(SourcesSeen(snaps, asOf), best)
    ensures
      var before, after := SourcesSeen(snaps, asOf), SourcesSeen(snaps + [s], asOf);
      && (!NotAfter(s.asOf, asOf) ==> after == before)
      && (NotAfter(s.asOf, asOf) ==> after == if KeyOf(s) in best then before else before + [KeyOf(s)])
      && (NotAfter(s.asOf, asOf) ==> Orders(after, best[KeyOf(s) := s]))
      && (NotAfter(s.asOf, asOf) && KeyOf(s) in best ==> Orders(after, best))
  {
    hide NotAfter, KeyOf;
    assert (snaps + [s])[..|snaps|] == snaps;
  }

  // ---------------------------------------------------------------------------
  // Age
  // ---------------------------------------------------------------------------

  const STALE_DAYS: map<string, nat> := map[
    "bank_balance" := 45, "cc_outstanding" := 35, "investment" := 90, "manual_asset" := 180, "manual_liability" := 180]

  function MaxAge(category: string): nat {
    if category in STALE_DAYS then STALE_DAYS[category] else 9999
  }

  /** A snapshot older than its category allows. */
  predicate IsStale(s: Snapshot, today: Date) { Ordinal(today) - Ordinal(s.asOf) > MaxAge(s.category) }

  /** A snapshot is stale exactly when today comes more calendar days after it than that. */
  lemma {:induction false} StaleCountsDays(s: Snapshot, today: Date)
    requires IsDate(s.asOf) && IsDate(today)
    ensures IsStale(s, today) <==> exists n: nat :: n > MaxAge(s.category) && DaysAfter(s.asOf, n) == today
  {
    hide Ordinal, IsDate, MaxAge, DaysAfter, NotAfter;
    forall n: nat | DaysAfter(s.asOf, n) == today ensures Ordinal(today) - Ordinal(s.asOf) == n {
      OrdinalAfter(s.asOf, n);
    }
    if IsStale(s, today) {
      OrdinalOrders(s.asOf, today);
      DaysBetween(s.asOf, today);
    }
  }

  // ---------------------------------------------------------------------------
  // The query
  // ---------------------------------------------------------------------------

  /** A snapshot with the active flag of the account and of the manual item it belongs to; none
      when it has no such row. */
  datatype Row = Row(snapshot: Snapshot, accountActive: Option<bool>, itemActive: Option<bool>)

  /** Only a flag that says inactive hides a snapshot. */
  predicate Shown(row: Row) {
    && (row.snapshot.account.None? || row.accountActive != Some(false))
    && (row.snapshot.manualItem.None? || row.itemActive != Some(false))
  }

  function ShownOf(table: seq<Row>): seq<Snapshot> {
    if table == [] then [] else
      var last := table[|table| - 1];
      ShownOf(table[..|table| - 1]) + if Shown(last) then [last.snapshot] else []
  }

  ghost predicate TableValid(table: seq<Row>) {
    && (forall i | 0 <= i < |table| :: IsDate(table[i].snapshot.asOf))
    && (forall i, j :: 0 <= i < j < |table| ==> table[i].snapshot.id != table[j].snapshot.id)
  }

  lemma {:induction false} ShownFrom(table: seq<Row>, s: Snapshot)
    ensures s in ShownOf(table) <==> exists i | 0 <= i < |table| :: Shown(table[i]) && table[i].snapshot == s
  {
    hide Shown;
    if table != [] {
      var front := table[..|table| - 1];
      ShownFrom(front, s);
      if i: nat :| i < |front| && Shown(front[i]) && front[i].snapshot == s { assert table[i] == front[i]; }
      if i: nat :| i < |table| && Shown(table[i]) && table[i].snapshot == s {
        if i < |front| { assert front[i] == table[i]; }
      }
    }
  }

  lemma {:induction false} ShownApart(table: seq<Row>)
    requires TableValid(table)
    ensures !Repeats(ShownOf(table))
    ensures forall s, t | s in ShownOf(table) && t in ShownOf(table) && s != t :: s.id != t.id
  {
    hide Shown, IsDate;
    forall s, t | s in ShownOf(table) && t in ShownOf(table) && s != t ensures s.id != t.id {
      ShownFrom(table, s);
      ShownFrom(table, t);
    }
    ShownOnce(table);
  }

  lemma {:induction false} ShownOnce(table: seq<Row>)
    requires TableValid(table)
    ensures !Repeats(ShownOf(table))
  {
    hide Shown, IsDate;
    if table != [] {
      var front, last := table[..|table| - 1], table[|table| - 1];
      assert TableValid(front) by { assert forall i | 0 <= i < |front| :: front[i] == table[i]; }
      ShownOnce(front);
      ShownFrom(front, last.snapshot);
      if Shown(last) {
        assert last.snapshot !in ShownOf(front) by {
          forall i | 0 <= i < |front| ensures front[i].snapshot != last.snapshot { assert front[i] == table[i]; }
        }
        AppendNew(ShownOf(front), last.snapshot);
      }
    }
  }

  lemma {:induction false} PrecedesIsWeakOrder()
    ensures IsWeakOrder(Precedes)
  {
  }

  /** The shown snapshots by date and id. */
  method ReadSnapshots(table: seq<Row>) returns (snaps: seq<Snapshot>)
    requires TableValid(table)
    ensures InQueryOrder(snaps)
    ensures forall s :: s in snaps <==> exists i | 0 <= i < |table| :: Shown(table[i]) && table[i].snapshot == s
  {
    snaps := Sort(Precedes, ShownOf(table));
    ReadInOrder(table);
    SortElements(Precedes, ShownOf(table));
    forall s ensures s in snaps <==> exists i | 0 <= i < |table| :: Shown(table[i]) && table[i].snapshot == s {
      ShownFrom(table, s);
    }
  }

  lemma {:induction false} ReadInOrder(table: seq<Row>)
    requires TableValid(table)
    ensures InQueryOrder(Sort(Precedes, ShownOf(table)))
  {
    hide Shown, Precedes, ShownOf;
    var shown := ShownOf(table);
    var snaps := Sort(Precedes, shown);
    PrecedesIsWeakOrder();
    SortSorts(Precedes, shown);
    ShownApart(table);
    SortApart(Precedes, shown);
    forall i | 0 <= i < |snaps| ensures IsDate(snaps[i].asOf) {
      SortElement(Precedes, shown, snaps[i]);
      ShownFrom(table, snaps[i]);
    }
    forall i, j | 0 <= i < j < |snaps| ensures Precedes(snaps[i], snaps[j]) {
      SortElement(Precedes, shown, snaps[i]);
      SortElement(Precedes, shown, snaps[j]);
      PrecedesTotal(snaps[i], snaps[j]);
    }
  }

  lemma {:induction false} PrecedesTotal(a: Snapshot, b: Snapshot)
    requires a.id != b.id && !Precedes(b, a)
    ensures Precedes(a, b)
  {
  }
}
