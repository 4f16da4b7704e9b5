/** Net worth over balance snapshots: the summary at one date, and the month-end trend that a
    single cursor pass produces. */
module NetWorth {
  import opened Calendar
  import Sequences
  import opened SnapshotGroups
  import opened Snapshots
  import Sorting
  import opened Tally

  datatype Summary = Summary(
    netWorth: int, totalAssets: int, totalLiabilities: int, groups: seq<CategoryGroup>,
    breakdown: seq<Line<HoldingKey>>, hasStale: bool)

  method SumCurrent(current: seq<Snapshot>) returns (assets: int, liabilities: int)
    ensures assets == PartsTotal(current, Asset) && liabilities == PartsTotal(current, Liability)
  {
    hide PartsTotal;
    assets, liabilities := 0, 0;
    NoParts(Asset);
    NoParts(Liability);
    for i := 0 to |current|
      invariant assets == PartsTotal(current[..i], Asset) && liabilities == PartsTotal(current[..i], Liability)
    {
      Sequences.PrefixStep(current, i);
      PartsTotalStep(current[..i + 1], Asset);
      PartsTotalStep(current[..i + 1], Liability);
      var s := current[i];
      if !Counted(s) { continue; }
      if s.kind == Asset {
        assets := assets + s.value;
      } else if s.kind == Liability {
        liabilities := liabilities + s.value;
      }
    }
    assert current[..|current|] == current;
  }

  /** Net worth at one date: its totals, the groups that add up to them, each with its sources by
      name, and the holdings behind the investments. */
  method CurrentNetworth(snaps: seq<Snapshot>, holdings: seq<Holding>, today: Date) returns (r: Summary)
    requires InQueryOrder(snaps)
    ensures IsNetWorth(snaps, today, r.netWorth)
    ensures r.netWorth == r.totalAssets - r.totalLiabilities
    ensures exists current ::
      && IsCurrent(snaps, today, current)
      && IsGrouping(current, today, r.groups)
      && IsBreakdown(holdings, current, r.breakdown)
      && (r.hasStale <==> exists s | s in current :: Counted(s) && IsStale(s, today))
    ensures GroupsTotal(r.groups, Asset) == r.totalAssets && GroupsTotal(r.groups, Liability) == r.totalLiabilities
    ensures Sorting.IsSorted(GroupBefore, r.groups)
  {
    hide IsLatestPerSource, IsGrouping, IsBreakdown, Sorting.IsSorted, SumOver, GroupsTotal, PartsTotal, IsStale,
      ShowsStale;
    assert DistinctPositions(snaps);
    var best, order := LatestPerSource(snaps, today);
    var current := ValuesOf(best, order);
    assert IsCurrent(snaps, today, current);
    var assets, liabilities := SumCurrent(current);
    ListTotal(best, order, Asset);
    ListTotal(best, order, Liability);
    var groups := GroupByCategory(current, today);
    GroupsAddUp(best, order, today, groups, Asset);
    GroupsAddUp(best, order, today, groups, Liability);
    var breakdown := HoldingBreakdown(holdings, current);
    var stale := AnyStale(groups);
    StaleShown(current, today, groups);
    r := Summary(assets - liabilities, assets, liabilities, groups, breakdown, stale);
  }

  // ---------------------------------------------------------------------------
  // The trend
  // ---------------------------------------------------------------------------

  datatype TrendPoint = TrendPoint(year: int, month: int, value: int)

  /** The date a month's point is taken at. */
  function Cutoff(year: int, month: int, today: Date): Date { Earlier(MonthEnd(year, month), today) }

  /** In query order the last write per source is its latest snapshot. */
  lemma {:induction false} LastWriteWins(best: Best, snaps: seq<Snapshot>, i: nat, asOf: Date)
    requires InQueryOrder(snaps) && i < |snaps| && NotAfter(snaps[i].asOf, asOf)
    requires IsLatestPerSource(best, snaps[..i], asOf)
    ensures IsLatestPerSource(best[KeyOf(snaps[i]) := snaps[i]], snaps[..i + 1], asOf)
  {
    Sequences.PrefixStep(snaps, i);
    forall s | s in snaps[..i] ensures Precedes(s, snaps[i]) {
      var j :| 0 <= j < i && snaps[j] == s;
    }
  }

  /** Snapshots before the cursor are within any later cutoff. */
  lemma {:induction false} CutoffGrows(best: Best, snaps: seq<Snapshot>, from: Date, to: Date)
    requires NotAfter(from, to) && forall s | s in snaps :: NotAfter(s.asOf, from)
    requires IsLatestPerSource(best, snaps, from)
    ensures IsLatestPerSource(best, snaps, to)
  {
  }

  /** Snapshots after the cursor are beyond the cutoff. */
  lemma {:induction false} CursorIsCutoff(best: Best, snaps: seq<Snapshot>, i: nat, asOf: Date)
    requires InQueryOrder(snaps) && i <= |snaps|
    requires i < |snaps| ==> !NotAfter(snaps[i].asOf, asOf)
    requires IsLatestPerSource(best, snaps[..i], asOf)
    ensures IsLatestPerSource(best, snaps, asOf)
  {
    forall j | i <= j < |snaps| ensures !NotAfter(snaps[j].asOf, asOf) {
      assert i < j ==> Precedes(snaps[i], snaps[j]);
    }
    forall s | s in snaps && NotAfter(s.asOf, asOf) ensures s in snaps[..i] {
      var j :| 0 <= j < |snaps| && snaps[j] == s;
    }
  }

  /** Walks the cursor past every snapshot by the cutoff. */
  method Advance(best: Best, snaps: seq<Snapshot>, idx: nat, cutoff: Date) returns (next: Best, cursor: nat)
    requires InQueryOrder(snaps) && idx <= |snaps|
    requires IsLatestPerSource(best, snaps[..idx], cutoff)
    requires forall s | s in snaps[..idx] :: NotAfter(s.asOf, cutoff)
    ensures idx <= cursor <= |snaps|
    ensures IsLatestPerSource(next, snaps[..cursor], cutoff) && IsLatestPerSource(next, snaps, cutoff)
    ensures forall s | s in snaps[..cursor] :: NotAfter(s.asOf, cutoff)
  {
    hide IsLatestPerSource, InQueryOrder, NotAfter;
    next, cursor := best, idx;
    while cursor < |snaps| && NotAfter(snaps[cursor].asOf, cutoff)
      invariant idx <= cursor <= |snaps|
      invariant IsLatestPerSource(next, snaps[..cursor], cutoff)
      invariant forall s | s in snaps[..cursor] :: NotAfter(s.asOf, cutoff)
    {
      LastWriteWins(next, snaps, cursor, cutoff);
      Sequences.PrefixStep(snaps, cursor);
      next := next[KeyOf(snaps[cursor]) := snaps[cursor]];
      cursor := cursor + 1;
    }
    CursorIsCutoff(next, snaps, cursor, cutoff);
  }

  /** Everything the cursor has passed is in `best`, and nothing of it is after `cutoff`. */
  ghost predicate Passed(best: Best, snaps: seq<Snapshot>, idx: nat, cutoff: Date) {
    && idx <= |snaps|
    && IsLatestPerSource(best, snaps[..idx], cutoff)
    && forall s | s in snaps[..idx] :: NotAfter(s.asOf, cutoff)
  }

  method PointAt(
    best: Best, snaps: seq<Snapshot>, idx: nat, cutoff: Date) returns (next: Best, cursor: nat, value: int)
    requires InQueryOrder(snaps) && Passed(best, snaps, idx, cutoff)
    ensures Passed(next, snaps, cursor, cutoff) && IsNetWorth(snaps, cutoff, value)
  {
    next, cursor := Advance(best, snaps, idx, cutoff);
    var assets, liabilities := SumSnapshots(next);
    value := assets - liabilities;
  }

  lemma {:induction false} PassedLater(best: Best, snaps: seq<Snapshot>, idx: nat, from: Date, to: Date)
    requires Passed(best, snaps, idx, from) && NotAfter(from, to)
    ensures Passed(best, snaps, idx, to)
  {
    CutoffGrows(best, snaps[..idx], from, to);
  }

  /** One point per month from month number `first` on, each the net worth at its cutoff. */
  ghost predicate IsTrend(points: seq<TrendPoint>, snaps: seq<Snapshot>, first: int, today: Date) {
    forall i | 0 <= i < |points| ::
      && 1 <= points[i].month <= 12
      && MonthIndex(points[i].year, points[i].month) == first + i
      && IsNetWorth(snaps, Cutoff(points[i].year, points[i].month, today), points[i].value)
  }

  lemma {:induction false} CutoffInMonth(year: int, month: int, today: Date)
    requires 1 <= month <= 12 && IsDate(today) && MonthIndex(year, month) <= MonthIndex(today.year, today.month)
    ensures Cutoff(year, month, today).year == year && Cutoff(year, month, today).month == month
    ensures NotAfter(today, MonthEnd(year, month)) <==> MonthIndex(year, month) == MonthIndex(today.year, today.month)
    ensures NotAfter(today, MonthEnd(year, month)) ==> Cutoff(year, month, today) == today
  {
    hide IsLeap;
  }

  lemma {:induction false} CutoffAdvances(year: int, month: int, today: Date)
    requires 1 <= month <= 12
    ensures
      var next := if month == 12 then Cutoff(year + 1, 1, today) else Cutoff(year, month + 1, today);
      NotAfter(Cutoff(year, month, today), next)
  {
    hide DaysInMonth;
  }

  lemma {:induction false} TrendAppend(
    points: seq<TrendPoint>, snaps: seq<Snapshot>, first: int, today: Date, p: TrendPoint)
    requires IsTrend(points, snaps, first, today)
    requires 1 <= p.month <= 12 && MonthIndex(p.year, p.month) == first + |points|
    requires IsNetWorth(snaps, Cutoff(p.year, p.month, today), p.value)
    ensures IsTrend(points + [p], snaps, first, today)
  {
    hide IsNetWorth, Cutoff;
  }

  lemma {:induction false} NextMonth(year: int, month: int)
    ensures MonthIndex(year, month + 1) == MonthIndex(year, month) + 1
    ensures month == 12 ==> MonthIndex(year + 1, 1) == MonthIndex(year, month) + 1
  {
  }

  lemma {:induction false} TrendEnd(points: seq<TrendPoint>, snaps: seq<Snapshot>, first: int, today: Date)
    requires IsTrend(points, snaps, first, today) && IsDate(today) && points != []
    requires |points| == MonthIndex(today.year, today.month) - first + 1
    ensures IsNetWorth(snaps, today, points[|points| - 1].value)
  {
    hide IsNetWorth, Cutoff, IsDate, MonthIndex;
    var end := points[|points| - 1];
    CutoffInMonth(end.year, end.month, today);
  }

  lemma {:induction false} EmptyTrend(snaps: seq<Snapshot>, first: int, today: Date)
    ensures IsTrend([], snaps, first, today)
  {
  }

  lemma {:induction false} NothingPassed(snaps: seq<Snapshot>, cutoff: Date)
    ensures Passed(map[], snaps, 0, cutoff)
  {
  }

  /** The month-end spine from the earliest snapshot's month through today's: one point per
      calendar month, each the net worth at that month's cutoff, the last one today's. */
  method MonthlyTrend(snaps: seq<Snapshot>, today: Date) returns (points: seq<TrendPoint>)
    requires InQueryOrder(snaps) && IsDate(today)
    ensures points == [] <==> snaps == [] || !NotAfter(snaps[0].asOf, today)
    ensures points != [] ==>
      var first := MonthIndex(snaps[0].asOf.year, snaps[0].asOf.month);
      && |points| == MonthIndex(today.year, today.month) - first + 1
      && IsTrend(points, snaps, first, today)
      && IsNetWorth(snaps, today, points[|points| - 1].value)
  {
    if snaps == [] { return []; }
    var earliest := snaps[0].asOf;
    if !NotAfter(earliest, today) { return []; }
    var best: Best, idx := map[], 0;
    points := [];
    var year, month := earliest.year, earliest.month;
    ghost var first, last := MonthIndex(year, month), MonthIndex(today.year, today.month);
    assert 1 <= month <= 12 && first <= last;
    NothingPassed(snaps, Cutoff(year, month, today));
    hide IsNetWorth, IsLatestPerSource, InQueryOrder, Passed, IsTrend, DaysInMonth, IsDate, Cutoff, NotAfter,
      MonthEnd, MonthIndex;
    assert IsTrend(points, snaps, first, today) by { EmptyTrend(snaps, first, today); }
    while true
      invariant 1 <= month <= 12 && first <= MonthIndex(year, month) <= last
      invariant |points| == MonthIndex(year, month) - first
      invariant IsTrend(points, snaps, first, today)
      invariant Passed(best, snaps, idx, Cutoff(year, month, today))
      decreases last - MonthIndex(year, month)
    {
      var lastDay := MonthEnd(year, month);
      var cutoff := Cutoff(year, month, today);
      CutoffInMonth(year, month, today);
      CutoffAdvances(year, month, today);
      var value;
      best, idx, value := PointAt(best, snaps, idx, cutoff);
      TrendAppend(points, snaps, first, today, TrendPoint(cutoff.year, cutoff.month, value));
      points := points + [TrendPoint(cutoff.year, cutoff.month, value)];
      if NotAfter(today, lastDay) { break; }
      NextMonth(year, month);
      if month == 12 {
        year, month := year + 1, 1;
      } else {
        month := month + 1;
      }
      PassedLater(best, snaps, idx, cutoff, Cutoff(year, month, today));
    }
    TrendEnd(points, snaps, first, today);
  }

  /** Over one table the trend's last point is the current net worth. */
  method TrendEndsAtCurrent(
    table: seq<Row>, holdings: seq<Holding>, today: Date) returns (points: seq<TrendPoint>, current: Summary)
    requires TableValid(table) && IsDate(today)
    ensures points != [] ==> points[|points| - 1].value == current.netWorth
    ensures points == [] ==> forall i | 0 <= i < |table| :: Shown(table[i]) ==> !NotAfter(table[i].snapshot.asOf, today)
  {
    hide TableValid, Shown, NotAfter, InQueryOrder;
    var snaps := ReadSnapshots(table);
    points := MonthlyTrend(snaps, today);
    current := CurrentNetworth(snaps, holdings, today);
    if points != [] {
      NetWorthUnique(snaps, today, points[|points| - 1].value, current.netWorth);
    } else {
      forall i | 0 <= i < |table| && Shown(table[i]) ensures !NotAfter(table[i].snapshot.asOf, today) {
        assert table[i].snapshot in snaps;
        NoHistory(snaps, table[i].snapshot, today);
      }
    }
  }

  lemma {:induction false} NoHistory(snaps: seq<Snapshot>, s: Snapshot, today: Date)
    requires InQueryOrder(snaps) && s in snaps && !NotAfter(snaps[0].asOf, today)
    ensures !NotAfter(s.asOf, today)
  {
    var i :| 0 <= i < |snaps| && snaps[i] == s;
    assert i > 0 ==> Precedes(snaps[0], snaps[i]);
  }
}
