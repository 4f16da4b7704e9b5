/** The summary's groups: the latest snapshots by category and kind, and the holdings behind them. */
module SnapshotGroups {
  import opened Calendar
  import opened Sequences
  import opened Snapshots
  import opened Sorting
  import opened Tally
  import opened Text
  import opened Wrappers

  /** One source as the summary shows it. */
  datatype SourceBalance = SourceBalance(
    name: string, category: string, kind: Kind, value: int, asOf: Date, stale: bool, unreconciled: bool)

  /** A category's sources within one kind, with their total. */
  datatype CategoryGroup = CategoryGroup(category: string, kind: Kind, total: int, rows: seq<SourceBalance>)

  function NameOr(s: Option<string>, default: string): string {
    if s.Some? && s.value != "" then s.value else default
  }

  function NameOf(s: Snapshot): string {
    if s.links.accountName.Some? then s.links.accountName.value
    else if s.links.itemName.Some? then s.links.itemName.value
    else if s.links.upload.Some? then NameOr(s.links.upload.value.investor, NameOr(s.portfolio, "CAS"))
    else NameOr(s.portfolio, "Snapshot")
  }

  function BalanceOf(s: Snapshot, today: Date): SourceBalance {
    SourceBalance(NameOf(s), s.category, s.kind, s.value, s.asOf, IsStale(s, today),
                  s.links.upload.Some? && !s.links.upload.value.portfolioOk)
  }

  predicate NameBefore(a: SourceBalance, b: SourceBalance) { StringLess(Lower(a.name), Lower(b.name)) }

  type GroupKey = (string, Kind)

  function KeyOfGroup(s: Snapshot): GroupKey { (s.category, s.kind) }

  /** The counted sources of one group, in list order. */
  function RowsIn(current: seq<Snapshot>, key: GroupKey, today: Date): seq<SourceBalance> {
    if current == [] then [] else
      var s, before := current[|current| - 1], RowsIn(current[..|current| - 1], key, today);
      if Counted(s) && KeyOfGroup(s) == key then before + [BalanceOf(s, today)] else before
  }

  /** Every counted source's value under its group. */
  ghost function Parts(current: seq<Snapshot>): seq<Line<GroupKey>> {
    if current == [] then [] else
      var s, before := current[|current| - 1], Parts(current[..|current| - 1]);
      if Counted(s) then before + [Line(KeyOfGroup(s), s.value)] else before
  }

  function KeyOfLine(g: CategoryGroup): GroupKey { (g.category, g.kind) }

  ghost function LinesOf(groups: seq<CategoryGroup>): (lines: seq<Line<GroupKey>>)
    ensures |lines| == |groups|
    ensures forall i | 0 <= i < |lines| :: lines[i] == Line(KeyOfLine(groups[i]), groups[i].total)
  {
    if groups == [] then [] else
      var g := groups[|groups| - 1];
      LinesOf(groups[..|groups| - 1]) + [Line(KeyOfLine(g), g.total)]
  }

  /** One group per category and kind that a counted source has: its total, and its sources by name. */
  ghost predicate IsGrouping(current: seq<Snapshot>, today: Date, groups: seq<CategoryGroup>) {
    && IsTally(Parts(current), LinesOf(groups))
    && forall i | 0 <= i < |groups| :: groups[i].rows == Sort(NameBefore, RowsIn(current, KeyOfLine(groups[i]), today))
  }

  // ---------------------------------------------------------------------------
  // The groups add up
  // ---------------------------------------------------------------------------

  ghost function OfKind(kind: Kind): GroupKey -> bool { (key: GroupKey) => key.1 == kind }

  /** What the groups of one kind add up to. */
  ghost function GroupsTotal(groups: seq<CategoryGroup>, kind: Kind): int { SumWhere(LinesOf(groups), OfKind(kind)) }

  ghost function PartsTotal(current: seq<Snapshot>, kind: Kind): int { SumWhere(Parts(current), OfKind(kind)) }

  lemma {:induction false} PartsTotalStep(current: seq<Snapshot>, kind: Kind)
    requires current != []
    ensures PartsTotal(current, kind)
      == PartsTotal(current[..|current| - 1], kind) + KindValue(current[|current| - 1], kind)
  {
    var front, s := Parts(current[..|current| - 1]), current[|current| - 1];
    SumWhereAppended(front, Line(KeyOfGroup(s), s.value), OfKind(kind));
  }

  /** The list of current snapshots holds each source's value once. */
  lemma {:induction false} ListTotal(best: Best, order: seq<SourceKey>, kind: Kind)
    requires Orders(order, best)
    ensures PartsTotal(ValuesOf(best, order), kind) == SumOver(best, kind)
    decreases |order|
  {
    hide PartsTotal, Repeats, SumOver;
    if order == [] {
      NoSources(best, kind);
    } else {
      var front, k := order[..|order| - 1], order[|order| - 1];
      OrdersFront(order, best);
      var rest := best - {k};
      ListTotal(rest, front, kind);
      SumWithout(best, kind, k);
      assert ValuesOf(best, order)[..|front|] == ValuesOf(rest, front) by { ValuesFront(best, order); }
      PartsTotalStep(ValuesOf(best, order), kind);
    }
  }

  lemma {:induction false} ValuesFront(best: Best, order: seq<SourceKey>)
    requires Orders(order, best) && order != []
    ensures Orders(order[..|order| - 1], best - {order[|order| - 1]})
    ensures ValuesOf(best, order)[..|order| - 1] == ValuesOf(best - {order[|order| - 1]}, order[..|order| - 1])
  {
    OrdersFront(order, best);
    hide Orders;
    var front := order[..|order| - 1];
    assert forall i | 0 <= i < |front| :: front[i] == order[i];
  }

  lemma {:induction false} NoSources(best: Best, kind: Kind)
    requires Orders([], best)
    ensures ValuesOf(best, []) == [] && PartsTotal([], kind) == SumOver(best, kind) == 0
  {
    assert best == map[];
  }

  lemma {:induction false} OrdersFront(order: seq<SourceKey>, best: Best)
    requires Orders(order, best) && order != []
    ensures order[|order| - 1] in best
    ensures Orders(order[..|order| - 1], best - {order[|order| - 1]})
  {
    var front, last := order[..|order| - 1], order[|order| - 1];
    assert order == front + [last];
    forall k ensures k in front <==> k in best - {last} {
      assert k in order <==> k in front || k == last;
    }
  }

  lemma {:induction false} NoParts(kind: Kind)
    ensures PartsTotal([], kind) == 0
  {
  }

  /** The groups of one kind add up to the kind's total: no source is left out or counted twice. */
  lemma {:induction false} GroupsAddUp(
    best: Best, order: seq<SourceKey>, today: Date, groups: seq<CategoryGroup>, kind: Kind)
    requires Orders(order, best) && IsGrouping(ValuesOf(best, order), today, groups)
    ensures GroupsTotal(groups, kind) == SumOver(best, kind)
  {
    TallyAddsUp(Parts(ValuesOf(best, order)), LinesOf(groups), OfKind(kind));
    ListTotal(best, order, kind);
  }

  // ---------------------------------------------------------------------------
  // Building the groups
  // ---------------------------------------------------------------------------

  function RowsTotal(rows: seq<SourceBalance>): int {
    if rows == [] then 0 else RowsTotal(rows[..|rows| - 1]) + rows[|rows| - 1].value
  }

  method SumRows(rows: seq<SourceBalance>) returns (total: int)
    ensures total == RowsTotal(rows)
  {
    total := 0;
    for i := 0 to |rows|
      invariant total == RowsTotal(rows[..i])
    {
      PrefixStep(rows, i);
      total := total + rows[i].value;
    }
    assert rows[..|rows|] == rows;
  }

  /** A group's rows hold its sum, and there are rows exactly when the group occurs. */
  lemma {:induction false} RowsHoldSum(current: seq<Snapshot>, key: GroupKey, today: Date)
    ensures RowsTotal(RowsIn(current, key, today)) == SumOf(Parts(current), key)
    ensures RowsIn(current, key, today) != [] <==> Mentions(Parts(current), key)
  {
    hide SumOf, RowsTotal, Mentions;
    if current == [] {
      NothingHeld(key);
    } else {
      var front, s := current[..|current| - 1], current[|current| - 1];
      RowsHoldSum(front, key, today);
      if Counted(s) {
        PartAppended(Parts(front), Line(KeyOfGroup(s), s.value), key);
        RowsAppended(RowsIn(front, key, today), BalanceOf(s, today));
      }
    }
  }

  lemma {:induction false} RowsAppended(rows: seq<SourceBalance>, row: SourceBalance)
    ensures RowsTotal(rows + [row]) == RowsTotal(rows) + row.value
  {
    assert (rows + [row])[..|rows|] == rows;
  }

  lemma {:induction false} NothingHeld(key: GroupKey)
    ensures RowsTotal([]) == SumOf<GroupKey>([], key) == 0 && !Mentions<GroupKey>([], key)
  {
  }

  type Grouped = map<GroupKey, seq<SourceBalance>>

  function RowsAt(grouped: Grouped, key: GroupKey): seq<SourceBalance> { if key in grouped then grouped[key] else [] }

  /** The grouping dictionary once `current` has been visited. */
  ghost predicate GroupedBy(grouped: Grouped, current: seq<Snapshot>, today: Date) {
    forall key :: RowsAt(grouped, key) == RowsIn(current, key, today)
      && (key in grouped <==> RowsIn(current, key, today) != [])
  }

  method GroupRows(current: seq<Snapshot>, today: Date) returns (grouped: Grouped)
    ensures GroupedBy(grouped, current, today)
  {
    hide Counted, BalanceOf;
    grouped := map[];
    for i := 0 to |current|
      invariant GroupedBy(grouped, current[..i], today)
    {
      PrefixStep(current, i);
      var s := current[i];
      if Counted(s) {
        grouped := grouped[KeyOfGroup(s) := RowsAt(grouped, KeyOfGroup(s)) + [BalanceOf(s, today)]];
      }
    }
    assert current[..|current|] == current;
  }

  /** `groups` lists the dictionary's entries outside `pending`, each once. */
  ghost predicate Listed(current: seq<Snapshot>, today: Date, keys: set<GroupKey>, groups: seq<CategoryGroup>) {
    && KeysApart(LinesOf(groups))
    && (forall key :: Mentions(LinesOf(groups), key) <==> key in keys)
    && (forall i | 0 <= i < |groups| :: IsGroup(current, today, groups[i]))
  }

  ghost predicate IsGroup(current: seq<Snapshot>, today: Date, g: CategoryGroup) {
    && g.total == SumOf(Parts(current), KeyOfLine(g))
    && g.rows == Sort(NameBefore, RowsIn(current, KeyOfLine(g), today))
  }

  lemma {:induction false} ListOne(
    current: seq<Snapshot>, today: Date, keys: set<GroupKey>, groups: seq<CategoryGroup>, g: CategoryGroup)
    requires Listed(current, today, keys, groups) && KeyOfLine(g) !in keys && IsGroup(current, today, g)
    ensures Listed(current, today, keys + {KeyOfLine(g)}, groups + [g])
  {
    hide IsGroup, Mentions;
    var line := Line(KeyOfLine(g), g.total);
    assert (groups + [g])[..|groups|] == groups;
    assert LinesOf(groups + [g]) == LinesOf(groups) + [line];
    forall key ensures Mentions(LinesOf(groups + [g]), key) <==> key in keys + {KeyOfLine(g)} {
      PartAppended(LinesOf(groups), line, key);
    }
    NewKeyApart(LinesOf(groups), line);
  }

  lemma {:induction false} NewKeyApart(lines: seq<Line<GroupKey>>, line: Line<GroupKey>)
    requires KeysApart(lines) && !Mentions(lines, line.key)
    ensures KeysApart(lines + [line])
  {
  }

  method ListGroups(grouped: Grouped, ghost current: seq<Snapshot>, ghost today: Date)
    returns (groups: seq<CategoryGroup>)
    requires GroupedBy(grouped, current, today)
    ensures Listed(current, today, grouped.Keys, groups)
  {
    hide Listed;
    groups := [];
    var pending := grouped.Keys;
    ghost var done: set<GroupKey> := {};
    assert Listed(current, today, done, groups) by { NothingListed(current, today); }
    while pending != {}
      invariant pending == grouped.Keys - done && done <= grouped.Keys
      invariant Listed(current, today, done, groups)
      decreases |pending|
    {
      var key :| key in pending;
      var rows := grouped[key];
      assert rows == RowsIn(current, key, today) by { assert RowsAt(grouped, key) == RowsIn(current, key, today); }
      var total := SumRows(rows);
      RowsHoldSum(current, key, today);
      var g := CategoryGroup(key.0, key.1, total, Sort(NameBefore, rows));
      ListOne(current, today, done, groups, g);
      groups := groups + [g];
      pending, done := pending - {key}, done + {key};
    }
    assert done == grouped.Keys;
  }

  lemma {:induction false} NothingListed(current: seq<Snapshot>, today: Date)
    ensures Listed(current, today, {}, [])
  {
  }

  /** Groups the current snapshots by category and kind, in list order. */
  method GroupByCategory(current: seq<Snapshot>, today: Date) returns (groups: seq<CategoryGroup>)
    ensures IsGrouping(current, today, groups) && IsSorted(GroupBefore, groups)
  {
    hide GroupedBy, Listed;
    var grouped := GroupRows(current, today);
    var unsorted := ListGroups(grouped, current, today);
    AllListed(grouped, current, today, unsorted);
    groups := Sort(GroupBefore, unsorted);
    SortedGrouping(current, today, unsorted);
  }

  lemma {:induction false} AllListed(grouped: Grouped, current: seq<Snapshot>, today: Date, groups: seq<CategoryGroup>)
    requires GroupedBy(grouped, current, today) && Listed(current, today, grouped.Keys, groups)
    ensures IsGrouping(current, today, groups)
  {
    hide Mentions, SumOf, RowsIn;
    forall key ensures Mentions(LinesOf(groups), key) <==> Mentions(Parts(current), key) {
      RowsHoldSum(current, key, today);
    }
  }

  // ---------------------------------------------------------------------------
  // List order
  // ---------------------------------------------------------------------------

  function KindText(kind: Kind): string {
    match kind
    case Asset => "asset"
    case Liability => "liability"
    case Unknown(text) => text
  }

  /** Sorted by category, then kind. */
  predicate GroupBefore(a: CategoryGroup, b: CategoryGroup) {
    if a.category != b.category then StringLess(a.category, b.category)
    else StringLess(KindText(a.kind), KindText(b.kind))
  }

  lemma {:induction false} GroupBetween(a: CategoryGroup, b: CategoryGroup, c: CategoryGroup)
    ensures GroupBefore(a, b) ==> !GroupBefore(b, a)
    ensures GroupBefore(a, c) ==> GroupBefore(a, b) || GroupBefore(b, c)
  {
    hide StringLess, KindText;
    StringsBetween(a.category, b.category, c.category);
    StringsBetween(KindText(a.kind), KindText(b.kind), KindText(c.kind));
  }

  lemma {:induction false} GroupBeforeIsWeakOrder()
    ensures IsWeakOrder(GroupBefore)
  {
    forall a, b ensures GroupBefore(a, b) ==> !GroupBefore(b, a) { GroupBetween(a, b, b); }
    forall a, b, c ensures GroupBefore(a, c) ==> GroupBefore(a, b) || GroupBefore(b, c) { GroupBetween(a, b, c); }
  }

  /** Sorting changes no group. */
  lemma {:induction false} SortedGrouping(current: seq<Snapshot>, today: Date, groups: seq<CategoryGroup>)
    requires IsGrouping(current, today, groups)
    ensures IsGrouping(current, today, Sort(GroupBefore, groups)) && IsSorted(GroupBefore, Sort(GroupBefore, groups))
  {
    hide GroupBefore, Parts, RowsIn, IsTally;
    var sorted := Sort(GroupBefore, groups);
    GroupBeforeIsWeakOrder();
    SortSorts(GroupBefore, groups);
    SortElements(GroupBefore, groups);
    TallyKeys(Parts(current), LinesOf(groups));
    assert !Repeats(groups) by {
      assert forall i | 0 <= i < |groups| :: LinesOf(groups)[i].key == KeyOfLine(groups[i]);
    }
    forall i, j | 0 <= i < j < |sorted| ensures LinesOf(sorted)[i].key != LinesOf(sorted)[j].key {
      var m, n := SortSources(GroupBefore, groups, i, j);
      assert LinesOf(groups)[m].key != LinesOf(groups)[n].key;
    }
    assert KeysApart(LinesOf(sorted));
    forall x ensures x in LinesOf(groups) <==> x in LinesOf(sorted) {
      LinesFrom(groups, sorted, x);
      LinesFrom(sorted, groups, x);
    }
    TallyRearranged(Parts(current), LinesOf(groups), LinesOf(sorted));
    forall i | 0 <= i < |sorted|
      ensures sorted[i].rows == Sort(NameBefore, RowsIn(current, KeyOfLine(sorted[i]), today))
    {
      SortElement(GroupBefore, groups, sorted[i]);
      var j :| 0 <= j < |groups| && groups[j] == sorted[i];
    }
  }

  lemma {:induction false} TallyKeys(parts: seq<Line<GroupKey>>, lines: seq<Line<GroupKey>>)
    requires IsTally(parts, lines)
    ensures KeysApart(lines)
  {
  }

  lemma {:induction false} LinesFrom(a: seq<CategoryGroup>, b: seq<CategoryGroup>, x: Line<GroupKey>)
    requires forall g :: g in a <==> g in b
    ensures x in LinesOf(a) ==> x in LinesOf(b)
  {
    if x in LinesOf(a) {
      var i :| 0 <= i < |a| && LinesOf(a)[i] == x;
      assert a[i] in b;
      var j :| 0 <= j < |b| && b[j] == a[i];
      assert LinesOf(b)[j] == x;
    }
  }

  // ---------------------------------------------------------------------------
  // Stale sources
  // ---------------------------------------------------------------------------

  ghost predicate ShowsStale(groups: seq<CategoryGroup>) {
    exists i, row | 0 <= i < |groups| && row in groups[i].rows :: row.stale
  }

  method AnyStale(groups: seq<CategoryGroup>) returns (stale: bool)
    ensures stale <==> ShowsStale(groups)
  {
    stale := false;
    for i := 0 to |groups|
      invariant stale <==> exists k, row | 0 <= k < i && row in groups[k].rows :: row.stale
    {
      var rows := groups[i].rows;
      for j := 0 to |rows|
        invariant stale <==>
          || (exists k, row | 0 <= k < i && row in groups[k].rows :: row.stale)
          || (exists row | row in rows[..j] :: row.stale)
      {
        PrefixStep(rows, j);
        if rows[j].stale {
          stale := true;
          assert rows[j] in rows[..j + 1];
        }
      }
      assert rows[..|rows|] == rows;
    }
  }

  lemma {:induction false} RowInGroup(current: seq<Snapshot>, key: GroupKey, today: Date, row: SourceBalance)
    ensures row in RowsIn(current, key, today) <==>
      exists s | s in current :: Counted(s) && KeyOfGroup(s) == key && BalanceOf(s, today) == row
  {
    hide BalanceOf, KeyOfGroup, Counted;
    if current != [] {
      var front, last := current[..|current| - 1], current[|current| - 1];
      assert current == front + [last];
      RowInGroup(front, key, today, row);
    }
  }

  /** The groups show a stale row exactly when a counted source's latest snapshot is stale. */
  lemma {:induction false} StaleShown(current: seq<Snapshot>, today: Date, groups: seq<CategoryGroup>)
    requires IsGrouping(current, today, groups)
    ensures ShowsStale(groups) <==> exists s | s in current :: Counted(s) && IsStale(s, today)
  {
    hide IsStale, Counted, RowsIn, SumOf;
    if ShowsStale(groups) {
      var i, row :| 0 <= i < |groups| && row in groups[i].rows && row.stale;
      SortElement(NameBefore, RowsIn(current, KeyOfLine(groups[i]), today), row);
      RowInGroup(current, KeyOfLine(groups[i]), today, row);
    }
    if s :| s in current && Counted(s) && IsStale(s, today) {
      var key, row := KeyOfGroup(s), BalanceOf(s, today);
      RowInGroup(current, key, today, row);
      RowsHoldSum(current, key, today);
      assert Mentions(LinesOf(groups), key);
      var i :| 0 <= i < |groups| && LinesOf(groups)[i].key == key;
      SortElement(NameBefore, RowsIn(current, key, today), row);
      assert row in groups[i].rows;
    }
  }

  // ---------------------------------------------------------------------------
  // Holdings
  // ---------------------------------------------------------------------------

  datatype Holding = Holding(snapshotId: int, assetClass: string, name: string, value: int)

  type HoldingKey = (string, string)

  /** Ids of the counted investment snapshots. */
  function InvestmentIds(current: seq<Snapshot>): seq<int> {
    if current == [] then [] else
      var s, before := current[|current| - 1], InvestmentIds(current[..|current| - 1]);
      if Counted(s) && s.category == "investment" then before + [s.id] else before
  }

  /** The holdings of those snapshots, by asset class and name. */
  function HoldingParts(holdings: seq<Holding>, ids: seq<int>): seq<Line<HoldingKey>> {
    if holdings == [] then [] else
      var h, before := holdings[|holdings| - 1], HoldingParts(holdings[..|holdings| - 1], ids);
      if h.snapshotId in ids then before + [Line((h.assetClass, h.name), h.value)] else before
  }

  predicate HoldingBefore(a: Line<HoldingKey>, b: Line<HoldingKey>) {
    if a.key.0 != b.key.0 then StringLess(a.key.0, b.key.0) else StringLess(a.key.1, b.key.1)
  }

  lemma {:induction false} HoldingBetween(a: Line<HoldingKey>, b: Line<HoldingKey>, c: Line<HoldingKey>)
    ensures HoldingBefore(a, b) ==> !HoldingBefore(b, a)
    ensures HoldingBefore(a, c) ==> HoldingBefore(a, b) || HoldingBefore(b, c)
  {
    hide StringLess;
    StringsBetween(a.key.0, b.key.0, c.key.0);
    StringsBetween(a.key.1, b.key.1, c.key.1);
  }

  lemma {:induction false} HoldingBeforeIsWeakOrder()
    ensures IsWeakOrder(HoldingBefore)
  {
    forall a, b ensures HoldingBefore(a, b) ==> !HoldingBefore(b, a) { HoldingBetween(a, b, b); }
    forall a, b, c ensures HoldingBefore(a, c) ==> HoldingBefore(a, b) || HoldingBefore(b, c) {
      HoldingBetween(a, b, c);
    }
  }

  /** The breakdown: one line per asset class and name of the investments' holdings, in order. */
  ghost predicate IsBreakdown(holdings: seq<Holding>, current: seq<Snapshot>, lines: seq<Line<HoldingKey>>) {
    IsTally(HoldingParts(holdings, InvestmentIds(current)), lines) && IsSorted(HoldingBefore, lines)
  }

  method HoldingBreakdown(holdings: seq<Holding>, current: seq<Snapshot>) returns (lines: seq<Line<HoldingKey>>)
    ensures IsBreakdown(holdings, current, lines)
  {
    hide IsTally, HoldingBefore;
    var ids := InvestmentIds(current);
    if ids == [] {
      NoHoldings(holdings);
      return [];
    }
    var parts := HoldingParts(holdings, ids);
    var unsorted := TallyUp(parts);
    TallySorted(HoldingBefore, parts, unsorted);
    HoldingBeforeIsWeakOrder();
    SortSorts(HoldingBefore, unsorted);
    lines := Sort(HoldingBefore, unsorted);
  }

  lemma {:induction false} NoHoldings(holdings: seq<Holding>)
    ensures HoldingParts(holdings, []) == [] && IsTally<HoldingKey>([], [])
  {
    if holdings != [] { NoHoldings(holdings[..|holdings| - 1]); }
  }
}
