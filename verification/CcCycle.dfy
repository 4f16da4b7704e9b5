/** Billing-cycle windows of one card account, and which bill a payment clears. */
module CcCycle {
  import Sequences
  import Sorting
  import opened Wrappers

  const SECONDS_PER_DAY := 86400

  /** Calendar day (UTC) of a timestamp in seconds. */
  function DayOf(timestamp: int): int { timestamp / SECONDS_PER_DAY }

  /** What the cycle computation reads of a statement row. `due` is none when the due date is
      missing or unreadable. */
  datatype CycleRow = CycleRow(id: int, account: int, createdAt: Option<int>, due: Option<int>)

  /** A half-open day range; no end means the latest cycle, still open. */
  datatype CycleWindow = CycleWindow(start: int, end: Option<int>)

  datatype Anchor = Anchor(due: int, id: int, createdAt: Option<int>)

  predicate InWindow(w: CycleWindow, day: int) {
    w.start <= day && (w.end.Some? ==> day < w.end.value)
  }

  function Boundary(earlierDue: Option<int>, laterCreated: Option<int>): Option<int> {
    if earlierDue.Some? then Some(earlierDue.value + 1)
    else if laterCreated.Some? then Some(DayOf(laterCreated.value))
    else None
  }

  function CreatedStart(createdAt: Option<int>, now: int): int {
    DayOf(if createdAt.Some? then createdAt.value else now)
  }

  // ---------------------------------------------------------------------------
  // Anchors in due order
  // ---------------------------------------------------------------------------

  predicate Before(a: Anchor, b: Anchor) { a.due < b.due || (a.due == b.due && a.id < b.id) }

  /** The statements of an account that carry a readable due date. */
  function Anchors(rows: seq<CycleRow>, account: int): seq<Anchor> {
    if rows == [] then [] else
      var last := rows[|rows| - 1];
      var before := Anchors(rows[..|rows| - 1], account);
      if last.account == account && last.due.Some?
      then before + [Anchor(last.due.value, last.id, last.createdAt)] else before
  }

  /** The account's anchors in due order. */
  function Cycles(rows: seq<CycleRow>, account: int): seq<Anchor> { Sorting.Sort(Before, Anchors(rows, account)) }

  ghost predicate InDueOrder(cycles: seq<Anchor>) {
    forall i, j :: 0 <= i < j < |cycles| ==> cycles[i].due <= cycles[j].due
  }

  lemma {:induction false} CyclesInOrder(rows: seq<CycleRow>, account: int)
    ensures InDueOrder(Cycles(rows, account))
  {
    Sorting.SortSorts(Before, Anchors(rows, account));
  }

  lemma {:induction false} AnchorOf(rows: seq<CycleRow>, row: CycleRow)
    requires row in rows && row.due.Some?
    ensures Anchor(row.due.value, row.id, row.createdAt) in Anchors(rows, row.account)
  {
    var front := rows[..|rows| - 1];
    assert rows == front + [rows[|front|]];
    if rows[|front|] != row { AnchorOf(front, row); }
  }

  lemma {:induction false} AnchorSource(rows: seq<CycleRow>, account: int, a: Anchor) returns (row: CycleRow)
    requires a in Anchors(rows, account)
    ensures row in rows && row == CycleRow(a.id, account, a.createdAt, Some(a.due))
  {
    var front, last := rows[..|rows| - 1], rows[|rows| - 1];
    if last.account == account && last.due.Some? && a == Anchor(last.due.value, last.id, last.createdAt) {
      row := last;
    } else {
      row := AnchorSource(front, account, a);
    }
  }

  // ---------------------------------------------------------------------------
  // Windows
  // ---------------------------------------------------------------------------

  /** Window of the k-th cycle in due order. */
  function WindowAt(cycles: seq<Anchor>, k: nat, now: int): CycleWindow
    requires k < |cycles|
  {
    CycleWindow(
      if k == 0 then CreatedStart(cycles[0].createdAt, now) else cycles[k - 1].due + 1,
      if k + 1 < |cycles| then Some(cycles[k].due + 1) else None)
  }

  /** The earliest creation time after `createdAt` among the account's statements. */
  function NextCreated(rows: seq<CycleRow>, account: int, createdAt: int): Option<int> {
    if rows == [] then None else
      var last := rows[|rows| - 1];
      var before := NextCreated(rows[..|rows| - 1], account, createdAt);
      if last.account == account && last.createdAt.Some? && last.createdAt.value > createdAt
         && (before.None? || last.createdAt.value < before.value)
      then last.createdAt else before
  }

  /** Window of a statement without a readable due date: its own ingestion range. */
  function IngestionWindow(rows: seq<CycleRow>, row: CycleRow, now: int): CycleWindow {
    var later := if row.createdAt.Some? then NextCreated(rows, row.account, row.createdAt.value) else None;
    CycleWindow(CreatedStart(row.createdAt, now), if later.Some? then Some(DayOf(later.value)) else None)
  }

  ghost predicate DistinctRows(rows: seq<CycleRow>) {
    forall i, j :: 0 <= i < j < |rows| ==> rows[i].id != rows[j].id
  }

  function IndexOf(cycles: seq<Anchor>, id: int): Option<nat> {
    if cycles == [] then None else
      var before := IndexOf(cycles[..|cycles| - 1], id);
      if before.Some? then before else if cycles[|cycles| - 1].id == id then Some(|cycles| - 1) else None
  }

  lemma {:induction false} IndexFound(cycles: seq<Anchor>, id: int)
    ensures IndexOf(cycles, id).Some? ==>
      IndexOf(cycles, id).value < |cycles| && cycles[IndexOf(cycles, id).value].id == id
    ensures IndexOf(cycles, id).None? <==> forall i | 0 <= i < |cycles| :: cycles[i].id != id
  {
    if cycles != [] { IndexFound(cycles[..|cycles| - 1], id); }
  }

  /** The window of one statement of the table. */
  function WindowOf(rows: seq<CycleRow>, row: CycleRow, now: int): CycleWindow {
    if row.due.None? then IngestionWindow(rows, row, now) else
      var cycles := Cycles(rows, row.account);
      IndexFound(cycles, row.id);
      match IndexOf(cycles, row.id)
      case Some(k) => WindowAt(cycles, k, now)
      case None => CycleWindow(CreatedStart(row.createdAt, now), None)
  }

  method CollectAnchors(rows: seq<CycleRow>, account: int) returns (anchors: seq<Anchor>)
    ensures anchors == Anchors(rows, account)
  {
    anchors := [];
    for i := 0 to |rows|
      invariant anchors == Anchors(rows[..i], account)
    {
      Sequences.PrefixStep(rows, i);
      if rows[i].account == account && rows[i].due.Some? {
        anchors := anchors + [Anchor(rows[i].due.value, rows[i].id, rows[i].createdAt)];
      }
    }
    assert rows[..|rows|] == rows;
  }

  method CcCycleWindow(rows: seq<CycleRow>, row: CycleRow, now: int) returns (w: CycleWindow)
    requires DistinctRows(rows) && row in rows
    ensures w == WindowOf(rows, row, now)
  {
    hide Anchors, NextCreated, IndexOf, DistinctRows, Before;
    var createdStart := CreatedStart(row.createdAt, now);
    if row.due.None? {
      var later := None;
      if row.createdAt.Some? { later := NextCreated(rows, row.account, row.createdAt.value); }
      return CycleWindow(createdStart, if later.Some? then Some(DayOf(later.value)) else None);
    }
    var anchors := CollectAnchors(rows, row.account);
    anchors := Sorting.Sort(Before, anchors);
    var idx := IndexOf(anchors, row.id);
    OwnAnchor(rows, row);
    IndexFound(anchors, row.id);
    var prevDue := if idx.Some? && idx.value > 0 then Some(anchors[idx.value - 1].due) else None;
    var hasNext := idx.Some? && idx.value + 1 < |anchors|;
    var nextCreated := if hasNext then anchors[idx.value + 1].createdAt else None;
    var start := Boundary(prevDue, row.createdAt);
    w := CycleWindow(
      if start.Some? then start.value else createdStart,
      if hasNext then Boundary(row.due, nextCreated) else None);
  }

  /** A dated statement is found among its account's cycles, as itself. */
  lemma {:induction false} OwnAnchor(rows: seq<CycleRow>, row: CycleRow)
    requires DistinctRows(rows) && row in rows && row.due.Some?
    ensures
      var cycles := Cycles(rows, row.account);
      IndexOf(cycles, row.id).Some?
      && IndexOf(cycles, row.id).value < |cycles|
      && cycles[IndexOf(cycles, row.id).value] == Anchor(row.due.value, row.id, row.createdAt)
  {
    var cycles := Cycles(rows, row.account);
    var mine := Anchor(row.due.value, row.id, row.createdAt);
    AnchorOf(rows, row);
    Sorting.SortElements(Before, Anchors(rows, row.account));
    IndexFound(cycles, row.id);
    var k := IndexOf(cycles, row.id).value;
    assert cycles[k] in cycles;
    var source := AnchorSource(rows, row.account, cycles[k]);
    var i :| 0 <= i < |rows| && rows[i] == source;
    var j :| 0 <= j < |rows| && rows[j] == row;
  }

  // ---------------------------------------------------------------------------
  // Windows tile time
  // ---------------------------------------------------------------------------

  /** Which days the cycles cover: after the first due date once there is a second bill, and from
      the first statement's creation in any case. */
  predicate Covered(cycles: seq<Anchor>, now: int, day: int) {
    cycles != [] && (CreatedStart(cycles[0].createdAt, now) <= day || (|cycles| >= 2 && cycles[0].due < day))
  }

  /** Each window ends where the next begins, duplicate due dates included. */
  lemma {:induction false} WindowsAdjacent(cycles: seq<Anchor>, k: nat, now: int)
    requires k + 1 < |cycles|
    ensures WindowAt(cycles, k, now).end == Some(WindowAt(cycles, k + 1, now).start)
  {
  }

  /** No day lies in two windows. */
  lemma {:induction false} WindowsDisjoint(cycles: seq<Anchor>, i: nat, j: nat, now: int, day: int)
    requires InDueOrder(cycles) && i < j < |cycles|
    ensures !(InWindow(WindowAt(cycles, i, now), day) && InWindow(WindowAt(cycles, j, now), day))
  {
  }

  /** The window a covered day lies in: the first cycle not yet due, else the latest. */
  function ClearedBy(cycles: seq<Anchor>, day: int): (k: nat)
    requires cycles != []
    ensures k < |cycles|
  {
    if |cycles| == 1 || cycles[|cycles| - 2].due < day then |cycles| - 1
    else ClearedBy(cycles[..|cycles| - 1], day)
  }

  lemma {:induction false} ClearedByBounds(cycles: seq<Anchor>, day: int)
    requires cycles != []
    ensures
      var k := ClearedBy(cycles, day);
      && (k > 0 ==> cycles[k - 1].due < day)
      && (k + 1 < |cycles| ==> day <= cycles[k].due)
  {
    if |cycles| > 1 && cycles[|cycles| - 2].due >= day { ClearedByBounds(cycles[..|cycles| - 1], day); }
  }

  /** The windows tile time: a day lies in exactly one window when it is covered and in none
      otherwise; the window is that of the earliest bill not yet due, or of the latest bill. */
  lemma {:induction false} WindowsTile(cycles: seq<Anchor>, now: int, day: int)
    requires InDueOrder(cycles) && cycles != []
    ensures forall k | 0 <= k < |cycles| ::
      InWindow(WindowAt(cycles, k, now), day) <==> Covered(cycles, now, day) && k == ClearedBy(cycles, day)
  {
    var c := ClearedBy(cycles, day);
    ClearedByBounds(cycles, day);
    assert c > 0 ==> cycles[0].due <= cycles[c - 1].due;
    forall k | 0 <= k < |cycles| && k != c ensures !InWindow(WindowAt(cycles, k, now), day) {
      if k < c {
        assert k < c - 1 ==> cycles[k].due <= cycles[c - 1].due;
      } else {
        assert c < k - 1 ==> cycles[c].due <= cycles[k - 1].due;
      }
    }
  }

  // ---------------------------------------------------------------------------
  // The same for the statements of the table
  // ---------------------------------------------------------------------------

  lemma {:induction false} PlaceOf(rows: seq<CycleRow>, row: CycleRow, now: int) returns (k: nat)
    requires DistinctRows(rows) && row in rows && row.due.Some?
    ensures
      var cycles := Cycles(rows, row.account);
      && InDueOrder(cycles) && k < |cycles| && cycles[k] == Anchor(row.due.value, row.id, row.createdAt)
      && WindowOf(rows, row, now) == WindowAt(cycles, k, now)
  {
    OwnAnchor(rows, row);
    CyclesInOrder(rows, row.account);
    k := IndexOf(Cycles(rows, row.account), row.id).value;
  }

  /** The windows of two dated statements of one account that are due one after the other. */
  lemma {:induction false} WindowsOfTwo(a: CycleRow, b: CycleRow, now: int)
    requires a.id != b.id && a.account == b.account && a.due.Some? && b.due.Some? && a.due.value < b.due.value
    ensures WindowOf([a, b], a, now) == CycleWindow(CreatedStart(a.createdAt, now), Some(a.due.value + 1))
    ensures WindowOf([a, b], b, now) == CycleWindow(a.due.value + 1, None)
  {
    hide CreatedStart, WindowOf, Cycles;
    CyclesOfTwo(a, b);
    var i := PlaceOf([a, b], a, now);
    var j := PlaceOf([a, b], b, now);
  }

  lemma {:induction false} CyclesOfTwo(a: CycleRow, b: CycleRow)
    requires a.account == b.account && a.due.Some? && b.due.Some? && a.due.value < b.due.value
    ensures Cycles([a, b], a.account)
      == [Anchor(a.due.value, a.id, a.createdAt), Anchor(b.due.value, b.id, b.createdAt)]
  {
    var x, y := Anchor(a.due.value, a.id, a.createdAt), Anchor(b.due.value, b.id, b.createdAt);
    assert [a, b][..1] == [a] && [a][..0] == [];
    assert Anchors([a], a.account) == [x];
    assert Anchors([a, b], a.account) == [x, y];
    InOrder(x, y);
  }

  lemma {:induction false} InOrder(x: Anchor, y: Anchor)
    requires Before(x, y)
    ensures Sorting.Sort(Before, [x, y]) == [x, y]
  {
    assert [x, y][..1] == [x] && [x][..0] == [];
    assert Sorting.Sort(Before, [x]) == [x];
  }

  /** No day lies in the windows of two dated statements of one account. */
  lemma {:induction false} StatementWindowsDisjoint(
    rows: seq<CycleRow>, a: CycleRow, b: CycleRow, now: int, day: int)
    requires DistinctRows(rows) && a in rows && b in rows && a != b
    requires a.account == b.account && a.due.Some? && b.due.Some?
    ensures !(InWindow(WindowOf(rows, a, now), day) && InWindow(WindowOf(rows, b, now), day))
  {
    hide InWindow, WindowAt, WindowOf, Cycles;
    RowsDiffer(rows, a, b);
    var i := PlaceOf(rows, a, now);
    var j := PlaceOf(rows, b, now);
    var cycles := Cycles(rows, a.account);
    if i < j {
      WindowsDisjoint(cycles, i, j, now, day);
    } else {
      assert i != j;
      WindowsDisjoint(cycles, j, i, now, day);
    }
  }

  lemma {:induction false} RowsDiffer(rows: seq<CycleRow>, a: CycleRow, b: CycleRow)
    requires DistinctRows(rows) && a in rows && b in rows && a != b
    ensures a.id != b.id
  {
  }

  ghost predicate DistinctAnchors(anchors: seq<Anchor>) {
    forall i, j :: 0 <= i < j < |anchors| ==> anchors[i].id != anchors[j].id
  }

  lemma {:induction false} AnchorsDistinct(rows: seq<CycleRow>, account: int)
    requires DistinctRows(rows)
    ensures DistinctAnchors(Anchors(rows, account))
  {
    if rows != [] {
      var front, last := rows[..|rows| - 1], rows[|rows| - 1];
      AnchorsDistinct(front, account);
      forall a | a in Anchors(front, account) ensures a.id != last.id {
        var row := AnchorSource(front, account, a);
        var i :| 0 <= i < |front| && front[i] == row;
        assert rows[i] == row;
      }
    }
  }

  lemma {:induction false} CyclesDistinct(rows: seq<CycleRow>, account: int)
    requires DistinctRows(rows)
    ensures DistinctAnchors(Cycles(rows, account))
  {
    var anchors, cycles := Anchors(rows, account), Cycles(rows, account);
    AnchorsDistinct(rows, account);
    forall i, j | 0 <= i < j < |cycles| ensures cycles[i].id != cycles[j].id {
      var m, n := Sorting.SortSources(Before, anchors, i, j);
    }
  }

  /** A covered day lies in the window of one of the account's statements. */
  lemma {:induction false} CoveredDayHasItsStatement(
    rows: seq<CycleRow>, account: int, now: int, day: int) returns (row: CycleRow)
    requires DistinctRows(rows) && Covered(Cycles(rows, account), now, day)
    ensures row in rows && row.account == account && row.due.Some? && InWindow(WindowOf(rows, row, now), day)
  {
    var cycles := Cycles(rows, account);
    assert cycles != [];
    hide InWindow, WindowAt, WindowOf, Covered;
    CyclesInOrder(rows, account);
    WindowsTile(cycles, now, day);
    var c := ClearedBy(cycles, day);
    assert cycles[c] in cycles;
    Sorting.SortElements(Before, Anchors(rows, account));
    row := AnchorSource(rows, account, cycles[c]);
    var k := PlaceOf(rows, row, now);
    CyclesDistinct(rows, account);
    assert c == k;
  }

  /** `other` is a dated bill of the same account that is due before `row`; ties go by id. */
  predicate DueBefore(other: CycleRow, row: CycleRow) {
    && other.account == row.account && other.due.Some? && row.due.Some?
    && (other.due.value < row.due.value || (other.due.value == row.due.value && other.id < row.id))
  }

  ghost predicate IsFirstBill(rows: seq<CycleRow>, row: CycleRow) {
    forall other | other in rows :: !DueBefore(other, row)
  }

  ghost predicate IsLatestBill(rows: seq<CycleRow>, row: CycleRow) {
    forall other | other in rows :: !DueBefore(row, other)
  }

  /** Which days a dated bill claims: those after every earlier bill's due day - for the account's
      first bill instead those from its creation day on - and, once a later bill exists, up to its
      own due day. */
  ghost predicate CountsDay(rows: seq<CycleRow>, row: CycleRow, now: int, day: int)
    requires row.due.Some?
  {
    && (if IsFirstBill(rows, row) then CreatedStart(row.createdAt, now) <= day
        else forall other | other in rows && DueBefore(other, row) :: other.due.value < day)
    && (IsLatestBill(rows, row) || day <= row.due.value)
  }

  /** The window, read off the table. */
  lemma {:induction false} WindowByDay(rows: seq<CycleRow>, row: CycleRow, now: int, day: int)
    requires DistinctRows(rows) && row in rows && row.due.Some?
    ensures InWindow(WindowOf(rows, row, now), day) <==> CountsDay(rows, row, now, day)
  {
    hide WindowOf, Cycles, CreatedStart;
    var cycles := Cycles(rows, row.account);
    var k := PlaceOf(rows, row, now);
    CyclesSorted(rows, row.account);
    forall other | other in rows && other.account == row.account && other.due.Some?
      ensures DueBefore(other, row) ==> k > 0 && other.due.value <= cycles[k - 1].due
      ensures DueBefore(row, other) ==> k + 1 < |cycles|
    {
      var j := PlaceOf(rows, other, now);
    }
    if k > 0 {
      var earlier := CycleSource(rows, row.account, k - 1);
      assert DueBefore(earlier, row);
    }
    if k + 1 < |cycles| {
      var later := CycleSource(rows, row.account, k + 1);
      assert DueBefore(row, later);
    }
  }

  lemma {:induction false} CycleSource(rows: seq<CycleRow>, account: int, k: nat) returns (row: CycleRow)
    requires k < |Cycles(rows, account)|
    ensures row in rows && row.account == account && row.due.Some?
    ensures Cycles(rows, account)[k] == Anchor(row.due.value, row.id, row.createdAt)
  {
    var a := Cycles(rows, account)[k];
    Sorting.SortElement(Before, Anchors(rows, account), a);
    row := AnchorSource(rows, account, a);
  }

  /** Cycles are in strict order of due day and id. */
  lemma {:induction false} CyclesSorted(rows: seq<CycleRow>, account: int)
    requires DistinctRows(rows)
    ensures forall i, j :: 0 <= i < j < |Cycles(rows, account)| ==>
      Before(Cycles(rows, account)[i], Cycles(rows, account)[j])
  {
    CyclesDistinct(rows, account);
    Sorting.SortSorts(Before, Anchors(rows, account));
  }

  /** A payment clears the bill that is due next: the statement whose window holds the day is due
      on or after it, and no later than any other of the account's bills due then - unless every
      bill is already past due, when it is the latest. */
  lemma {:induction false} PaymentClearsNextDue(
    rows: seq<CycleRow>, row: CycleRow, other: CycleRow, now: int, day: int)
    requires DistinctRows(rows) && row in rows && row.due.Some? && InWindow(WindowOf(rows, row, now), day)
    requires other in rows && other.account == row.account && other.due.Some?
    ensures day <= other.due.value ==> day <= row.due.value <= other.due.value
    ensures row.due.value < day ==> other.due.value <= row.due.value
  {
    hide WindowOf, Cycles;
    var k := PlaceOf(rows, row, now);
    var j := PlaceOf(rows, other, now);
    var cycles := Cycles(rows, row.account);
    assert k > 0 && j < k ==> cycles[j].due <= cycles[k - 1].due;
    assert k < j ==> cycles[k].due <= cycles[j].due;
    assert j < k ==> cycles[j].due <= cycles[k].due;
  }
}
