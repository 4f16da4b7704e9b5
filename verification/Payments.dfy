/** Credit-card statement payment state: what a bill still owes, derived from the credits of its
    cycle, and the ledger operations that keep it current. Amounts are in paise. */
module Payments {
  import opened CcCycle
  import Sequences
  import Text
  import opened Wrappers

  datatype Status = Unpaid | PartiallyPaid | Paid | Late

  /** A statement's printed total: absent, not readable as an amount, or an amount. */
  datatype TotalDue = Missing | Garbled | Amount(paise: int)

  datatype Statement = Statement(
    id: int,
    account: int,
    createdAt: Option<int>,
    due: Option<int>,
    total: TotalDue,
    status: Option<Status>,
    sentOffsets: set<int>,
    paidAmount: Option<int>,
    paidAt: Option<int>,
    remindedAt: Option<int>)

  datatype Txn = Txn(
    id: int, account: Option<int>, isCredit: bool, date: Option<int>, createdAt: Option<int>,
    emailType: Option<string>, amount: int)

  /** Outstanding-liability snapshots, one per account and day. */
  datatype SnapshotKey = SnapshotKey(account: int, asOf: int)

  datatype Ledger = Ledger(cards: set<int>, statements: seq<Statement>, txns: seq<Txn>,
    snapshots: map<SnapshotKey, int>)

  // ---------------------------------------------------------------------------
  // Qualifying credits
  // ---------------------------------------------------------------------------

  const PAYMENT_SUFFIXES := {
    "_cc_payment_alert", "_cc_upi_payment_alert", "_cc_credit_alert", "_cc_payment", "_cc_bill_paid",
    "_cc_payment_received_alert", "_cc_bill_paid_alert", "_cc_repayment_received_alert", "sbi_payment_ack"}

  predicate IsCcPaymentReceived(emailType: Option<string>) {
    emailType.Some? && emailType.value != "" && exists suffix | suffix in PAYMENT_SUFFIXES ::
      Text.EndsWith(emailType.value, suffix)
  }

  predicate Qualifies(t: Txn, account: int) {
    t.account == Some(account) && t.isCredit && IsCcPaymentReceived(t.emailType)
  }

  /** A dated row is placed by its date, a dateless one by its creation time. */
  predicate InCycle(w: CycleWindow, t: Txn) {
    match t.date
    case Some(d) => w.start <= d && (w.end.Some? ==> d < w.end.value)
    case None =>
      && t.createdAt.Some?
      && w.start * SECONDS_PER_DAY <= t.createdAt.value
      && (w.end.Some? ==> t.createdAt.value < w.end.value * SECONDS_PER_DAY)
  }

  function PlacedDay(t: Txn): Option<int> {
    if t.date.Some? then t.date
    else if t.createdAt.Some? then Some(DayOf(t.createdAt.value))
    else None
  }

  lemma {:induction false} PlacedByDay(w: CycleWindow, t: Txn)
    ensures InCycle(w, t) <==> PlacedDay(t).Some? && InWindow(w, PlacedDay(t).value)
  {
  }

  /** Sum of the account's bill-payment credits that belong to the cycle. */
  function CreditSum(txns: seq<Txn>, account: int, w: CycleWindow): int {
    if txns == [] then 0 else
      var t := txns[|txns| - 1];
      CreditSum(txns[..|txns| - 1], account, w) + if Qualifies(t, account) && InCycle(w, t) then t.amount else 0
  }

  method QualifyingPaymentCreditSum(
    rows: seq<CycleRow>, row: CycleRow, txns: seq<Txn>, now: int) returns (total: int)
    requires DistinctRows(rows) && row in rows
    ensures total == CreditSum(txns, row.account, WindowOf(rows, row, now))
  {
    hide IsCcPaymentReceived;
    var window := CcCycleWindow(rows, row, now);
    total := 0;
    for i := 0 to |txns|
      invariant total == CreditSum(txns[..i], row.account, window)
    {
      Sequences.PrefixStep(txns, i);
      var t := txns[i];
      if t.account == Some(row.account) && t.isCredit && InCycle(window, t) {
        if IsCcPaymentReceived(t.emailType) { total := total + t.amount; }
      }
    }
    assert txns[..|txns|] == txns;
  }

  /** All qualifying credits placed on a covered day. */
  ghost function CoveredCredits(cycles: seq<Anchor>, txns: seq<Txn>, account: int, now: int): int {
    if txns == [] then 0 else
      var t := txns[|txns| - 1];
      CoveredCredits(cycles, txns[..|txns| - 1], account, now)
      + if Qualifies(t, account) && PlacedDay(t).Some? && Covered(cycles, now, PlacedDay(t).value) then t.amount else 0
  }

  predicate IsDated(row: CycleRow, account: int) { row.account == account && row.due.Some? }

  /** The credit sums of the account's dated statements among `part`, each over its own window. */
  ghost function SumOverStatements(
    rows: seq<CycleRow>, part: seq<CycleRow>, txns: seq<Txn>, account: int, now: int): int
  {
    if part == [] then 0 else
      var row := part[|part| - 1];
      SumOverStatements(rows, part[..|part| - 1], txns, account, now)
      + if IsDated(row, account) then CreditSum(txns, account, WindowOf(rows, row, now)) else 0
  }

  /** Some dated statement of the account among `part` has the credit in its window. */
  ghost predicate Claimed(rows: seq<CycleRow>, part: seq<CycleRow>, t: Txn, account: int, now: int) {
    exists row | row in part :: IsDated(row, account) && InCycle(WindowOf(rows, row, now), t)
  }

  lemma {:induction false} NoCredits(rows: seq<CycleRow>, part: seq<CycleRow>, account: int, now: int)
    ensures SumOverStatements(rows, part, [], account, now) == 0
  {
    if part != [] { NoCredits(rows, part[..|part| - 1], account, now); }
  }

  /** One more credit raises the sum once if some statement claims it: no two of them do. */
  lemma {:induction false} OneMoreCredit(
    rows: seq<CycleRow>, part: seq<CycleRow>, txns: seq<Txn>, t: Txn, account: int, now: int)
    requires DistinctRows(rows) && part <= rows
    ensures
      SumOverStatements(rows, part, txns + [t], account, now) ==
        SumOverStatements(rows, part, txns, account, now)
        + if Qualifies(t, account) && Claimed(rows, part, t, account, now) then t.amount else 0
  {
    hide IsCcPaymentReceived, WindowOf, InCycle, CreditSum;
    if part != [] {
      var front, row := part[..|part| - 1], part[|part| - 1];
      assert part == front + [row];
      OneMoreCredit(rows, front, txns, t, account, now);
      InsertRaisesSum(txns, t, account, WindowOf(rows, row, now));
      if IsDated(row, account) && InCycle(WindowOf(rows, row, now), t) {
        NotClaimedTwice(rows, front, row, t, account, now);
        assert row in part;
      } else {
        assert Claimed(rows, part, t, account, now) <==> Claimed(rows, front, t, account, now);
      }
    }
  }

  lemma {:induction false} NotClaimedTwice(
    rows: seq<CycleRow>, front: seq<CycleRow>, row: CycleRow, t: Txn, account: int, now: int)
    requires DistinctRows(rows) && front + [row] <= rows
    requires IsDated(row, account) && InCycle(WindowOf(rows, row, now), t)
    ensures !Claimed(rows, front, t, account, now)
  {
    hide WindowOf, InCycle, InWindow;
    PlacedByDay(WindowOf(rows, row, now), t);
    assert row == rows[|front|];
    forall other | other in front && IsDated(other, account) ensures !InCycle(WindowOf(rows, other, now), t) {
      var k :| 0 <= k < |front| && front[k] == other;
      assert other == rows[k];
      PlacedByDay(WindowOf(rows, other, now), t);
      StatementWindowsDisjoint(rows, other, row, now, PlacedDay(t).value);
    }
  }

  /** A statement of the account claims a credit exactly when it is placed on a covered day. */
  lemma {:induction false} ClaimedIffCovered(rows: seq<CycleRow>, t: Txn, account: int, now: int)
    requires DistinctRows(rows)
    ensures Claimed(rows, rows, t, account, now) <==>
      PlacedDay(t).Some? && Covered(Cycles(rows, account), now, PlacedDay(t).value)
  {
    hide WindowOf, InCycle, InWindow, WindowAt, Cycles, Covered;
    forall row | row in rows && IsDated(row, account) && InCycle(WindowOf(rows, row, now), t)
      ensures PlacedDay(t).Some? && Covered(Cycles(rows, account), now, PlacedDay(t).value)
    {
      PlacedByDay(WindowOf(rows, row, now), t);
      var k := PlaceOf(rows, row, now);
      WindowsTile(Cycles(rows, account), now, PlacedDay(t).value);
    }
    if PlacedDay(t).Some? && Covered(Cycles(rows, account), now, PlacedDay(t).value) {
      var row := CoveredDayHasItsStatement(rows, account, now, PlacedDay(t).value);
      PlacedByDay(WindowOf(rows, row, now), t);
    }
  }

  /** No payment is counted twice or dropped: the credit sums of an account's dated statements, each
      over its own window, add up to its qualifying credits on covered days. */
  lemma {:induction false} CycleSumsAddUp(rows: seq<CycleRow>, txns: seq<Txn>, account: int, now: int)
    requires DistinctRows(rows)
    ensures SumOverStatements(rows, rows, txns, account, now)
      == CoveredCredits(Cycles(rows, account), txns, account, now)
  {
    hide Qualifies, Claimed, Covered, Cycles;
    if txns == [] {
      NoCredits(rows, rows, account, now);
    } else {
      var front, t := txns[..|txns| - 1], txns[|txns| - 1];
      assert txns == front + [t];
      CycleSumsAddUp(rows, front, account, now);
      OneMoreCredit(rows, rows, front, t, account, now);
      ClaimedIffCovered(rows, t, account, now);
    }
  }

  // ---------------------------------------------------------------------------
  // Recomputing one statement
  // ---------------------------------------------------------------------------

  function CycleRowOf(s: Statement): CycleRow { CycleRow(s.id, s.account, s.createdAt, s.due) }

  function CycleRows(statements: seq<Statement>): (rows: seq<CycleRow>)
    ensures |rows| == |statements|
    ensures forall i | 0 <= i < |rows| :: rows[i] == CycleRowOf(statements[i])
  {
    if statements == [] then [] else
      CycleRows(statements[..|statements| - 1]) + [CycleRowOf(statements[|statements| - 1])]
  }

  ghost predicate DistinctStatements(statements: seq<Statement>) {
    forall i, j :: 0 <= i < j < |statements| ==> statements[i].id != statements[j].id
  }

  /** What the snapshot of a statement records as still owed. */
  function Outstanding(s: Statement): int
    requires s.total.Amount?
  {
    if s.status == Some(Paid) || s.total.paise <= 0 then 0
    else Max(s.total.paise - (if s.paidAmount.Some? then s.paidAmount.value else 0), 0)
  }

  function SnapshotKeyOf(s: Statement, now: int): SnapshotKey {
    SnapshotKey(s.account, CreatedStart(s.createdAt, now))
  }

  function EmitCcSnapshot(snapshots: map<SnapshotKey, int>, s: Statement, now: int): map<SnapshotKey, int> {
    if s.total.Amount? then snapshots[SnapshotKeyOf(s, now) := Outstanding(s)] else snapshots
  }

  function PaidSum(l: Ledger, i: nat, now: int): int
    requires i < |l.statements|
  {
    var s := l.statements[i];
    CreditSum(l.txns, s.account, WindowOf(CycleRows(l.statements), CycleRowOf(s), now))
  }

  /** The row after its paid sum is recomputed as `sum`. */
  function Recomputed(s: Statement, sum: int, unpaidWhenZero: bool, now: int): Statement
    requires s.total.Amount?
  {
    if sum >= s.total.paise then
      s.(paidAmount := Some(sum), status := Some(Paid),
         paidAt := if s.status == Some(Paid) then s.paidAt else Some(now))
    else
      s.(paidAmount := Some(sum), paidAt := None,
         status := Some(if sum > 0 || !unpaidWhenZero then PartiallyPaid else Unpaid))
  }

  function Recompute(l: Ledger, i: nat, unpaidWhenZero: bool, now: int): Ledger
    requires i < |l.statements| && l.statements[i].total.Amount?
  {
    var s := Recomputed(l.statements[i], PaidSum(l, i, now), unpaidWhenZero, now);
    l.(statements := l.statements[i := s], snapshots := EmitCcSnapshot(l.snapshots, s, now))
  }

  /** One more credit raises a dated bill's paid sum exactly when it qualifies and falls on a day the
      bill counts, whether or not it came before the bill did. */
  lemma {:induction false} CreditCountsByDay(l: Ledger, i: nat, t: Txn, now: int)
    requires DistinctStatements(l.statements) && i < |l.statements| && l.statements[i].due.Some?
    ensures
      var rows, s := CycleRows(l.statements), l.statements[i];
      PaidSum(InsertTxn(l, t), i, now) == PaidSum(l, i, now)
        + if Qualifies(t, s.account) && PlacedDay(t).Some? && CountsDay(rows, CycleRowOf(s), now, PlacedDay(t).value)
          then t.amount else 0
  {
    hide CreditSum, WindowOf, InWindow, InCycle, IsCcPaymentReceived, CountsDay;
    var rows, row := CycleRows(l.statements), CycleRowOf(l.statements[i]);
    assert rows[i] in rows;
    var w := WindowOf(rows, row, now);
    InsertRaisesSum(l.txns, t, row.account, w);
    PlacedByDay(w, t);
    if PlacedDay(t).Some? {
      WindowByDay(rows, row, now, PlacedDay(t).value);
    }
  }

  /** Rows that differ only in payment state. */
  ghost predicate SameBill(a: Statement, b: Statement) {
    a.id == b.id && a.account == b.account && a.createdAt == b.createdAt && a.due == b.due && a.total == b.total
  }

  lemma {:induction false} UpdateKeepsCycles(l: Ledger, i: nat, s: Statement)
    requires i < |l.statements| && SameBill(l.statements[i], s)
    ensures CycleRows(l.statements[i := s]) == CycleRows(l.statements)
  {
  }

  /** Payment state heals itself. Whatever inserts, deletes and triggers came before, a recompute
      leaves the paid amount equal to the current window sum, the status paid exactly when that
      covers the amount due, and a snapshot of what is left to pay; it touches no other row. */
  lemma {:induction false} RecomputeHeals(l: Ledger, i: nat, unpaidWhenZero: bool, now: int)
    requires i < |l.statements| && l.statements[i].total.Amount?
    ensures
      var after := Recompute(l, i, unpaidWhenZero, now);
      var s, due := after.statements[i], l.statements[i].total.paise;
      && SameBill(s, l.statements[i]) && s.sentOffsets == l.statements[i].sentOffsets
      && s.paidAmount == Some(PaidSum(after, i, now))
      && (s.status == Some(Paid) <==> PaidSum(after, i, now) >= due)
      && (s.status == Some(Paid) <== l.statements[i].status == Some(Paid) && PaidSum(l, i, now) >= due)
      && (s.status == Some(Unpaid) <==> PaidSum(after, i, now) < due && PaidSum(after, i, now) <= 0 && unpaidWhenZero)
      && s.paidAt == (if PaidSum(after, i, now) < due then None
                      else if l.statements[i].status == Some(Paid) then l.statements[i].paidAt else Some(now))
      && SnapshotKeyOf(s, now) in after.snapshots
      && after.snapshots[SnapshotKeyOf(s, now)] == (if due <= 0 then 0 else Max(due - PaidSum(after, i, now), 0))
      && after.txns == l.txns && |after.statements| == |l.statements|
      && (forall j | 0 <= j < |l.statements| && j != i :: after.statements[j] == l.statements[j])
      && (forall key | key != SnapshotKeyOf(s, now) :: key in after.snapshots <==> key in l.snapshots)
      && (forall key | key in l.snapshots && key != SnapshotKeyOf(s, now) :: after.snapshots[key] == l.snapshots[key])
  {
    hide CreditSum, WindowOf;
    UpdateKeepsCycles(l, i, Recompute(l, i, unpaidWhenZero, now).statements[i]);
  }

  /** The clock stands in for a missing creation time; otherwise, or within one day, the time of a
      recompute does not matter. */
  predicate ClockFree(createdAt: Option<int>, now: int, later: int) {
    createdAt.Some? || DayOf(now) == DayOf(later)
  }

  lemma {:induction false} WindowIgnoresClock(rows: seq<CycleRow>, row: CycleRow, now: int, later: int)
    requires DistinctRows(rows) && row in rows && ClockFree(row.createdAt, now, later)
    ensures WindowOf(rows, row, now) == WindowOf(rows, row, later)
  {
    if row.due.Some? {
      OwnAnchor(rows, row);
    }
  }

  /** A second recompute with the same flag changes nothing, the paid-at time included, however
      much later it runs - exactly when the statement has a creation time, or the day is still the
      same, or else the new day's window has the same sum and its snapshot says so already. */
  lemma {:induction false} RecomputeIdempotentExactly(l: Ledger, i: nat, unpaidWhenZero: bool, now: int, later: int)
    requires DistinctStatements(l.statements) && i < |l.statements| && l.statements[i].total.Amount?
    ensures
      var once := Recompute(l, i, unpaidWhenZero, now);
      var key := SnapshotKey(l.statements[i].account, DayOf(later));
      Recompute(once, i, unpaidWhenZero, later) == once <==>
        || ClockFree(l.statements[i].createdAt, now, later)
        || (PaidSum(l, i, later) == PaidSum(l, i, now)
            && key in l.snapshots && l.snapshots[key] == Outstanding(once.statements[i]))
  {
    if ClockFree(l.statements[i].createdAt, now, later) {
      RecomputeIdempotent(l, i, unpaidWhenZero, now, later);
    } else {
      RecomputeOnNewDay(l, i, unpaidWhenZero, now, later);
    }
  }

  /** Such a day exists: a statement without a creation time gets a second snapshot. */
  lemma {:induction false} RecomputeOnNewDayDiffers()
    ensures
      var s := Statement(1, 7, None, Some(10), Amount(100), Some(Unpaid), {}, Some(0), None, None);
      var once := Recompute(Ledger({7}, [s], [], map[]), 0, true, 0);
      && Recompute(once, 0, true, SECONDS_PER_DAY) != once
      && SnapshotKey(7, 1) in Recompute(once, 0, true, SECONDS_PER_DAY).snapshots
        && SnapshotKey(7, 1) !in once.snapshots
  {
    hide WindowOf;
    var s := Statement(1, 7, None, Some(10), Amount(100), Some(Unpaid), {}, Some(0), None, None);
    RecomputeIdempotentExactly(Ledger({7}, [s], [], map[]), 0, true, 0, SECONDS_PER_DAY);
  }

  lemma {:induction false} RecomputeOnNewDay(l: Ledger, i: nat, unpaidWhenZero: bool, now: int, later: int)
    requires i < |l.statements| && l.statements[i].total.Amount?
    requires !ClockFree(l.statements[i].createdAt, now, later)
    ensures
      var once := Recompute(l, i, unpaidWhenZero, now);
      var key := SnapshotKey(l.statements[i].account, DayOf(later));
      Recompute(once, i, unpaidWhenZero, later) == once <==>
        && PaidSum(l, i, later) == PaidSum(l, i, now)
        && key in l.snapshots && l.snapshots[key] == Outstanding(once.statements[i])
  {
    hide CreditSum, WindowOf, Outstanding;
    var once, s := Recompute(l, i, unpaidWhenZero, now), l.statements[i];
    var key, sum := SnapshotKey(s.account, DayOf(later)), PaidSum(l, i, later);
    RecomputedKeepsBill(s, PaidSum(l, i, now), unpaidWhenZero, now);
    UpdateKeepsCycles(l, i, once.statements[i]);
    assert PaidSum(once, i, later) == sum;
    RecomputedTwice(s, PaidSum(l, i, now), unpaidWhenZero, now, later);
    hide Recomputed;
    var twice := Recompute(once, i, unpaidWhenZero, later);
    RecomputedKeepsBill(once.statements[i], sum, unpaidWhenZero, later);
    assert SnapshotKeyOf(once.statements[i], now) != key && SnapshotKeyOf(twice.statements[i], later) == key;
    assert key in once.snapshots <==> key in l.snapshots;
    assert twice.snapshots == once.snapshots[key := Outstanding(twice.statements[i])];
    if sum == PaidSum(l, i, now) && key in l.snapshots && l.snapshots[key] == Outstanding(once.statements[i]) {
      assert twice.statements == once.statements;
      assert twice.snapshots == once.snapshots;
    }
    RecomputedAmount(s, PaidSum(l, i, now), unpaidWhenZero, now);
    RecomputedAmount(once.statements[i], sum, unpaidWhenZero, later);
    if twice == once {
      assert twice.statements[i] == once.statements[i];
    }
  }

  lemma {:induction false} RecomputedAmount(s: Statement, sum: int, unpaidWhenZero: bool, now: int)
    requires s.total.Amount?
    ensures Recomputed(s, sum, unpaidWhenZero, now).paidAmount == Some(sum)
  {
  }

  lemma {:induction false} RecomputeIdempotent(l: Ledger, i: nat, unpaidWhenZero: bool, now: int, later: int)
    requires DistinctStatements(l.statements)
    requires i < |l.statements| && l.statements[i].total.Amount? && ClockFree(l.statements[i].createdAt, now, later)
    ensures
      var once := Recompute(l, i, unpaidWhenZero, now);
      Recompute(once, i, unpaidWhenZero, later) == once
  {
    hide CreditSum, WindowOf;
    var once := Recompute(l, i, unpaidWhenZero, now);
    var rows := CycleRows(l.statements);
    UpdateKeepsCycles(l, i, once.statements[i]);
    assert rows[i] in rows;
    WindowIgnoresClock(rows, rows[i], now, later);
    RecomputedTwice(l.statements[i], PaidSum(l, i, now), unpaidWhenZero, now, later);
    var twice := Recompute(once, i, unpaidWhenZero, later);
    assert twice.statements == once.statements;
    assert twice.snapshots == once.snapshots;
  }

  lemma {:induction false} RecomputedTwice(s: Statement, sum: int, unpaidWhenZero: bool, now: int, later: int)
    requires s.total.Amount?
    ensures Recomputed(Recomputed(s, sum, unpaidWhenZero, now), sum, unpaidWhenZero, later)
      == Recomputed(s, sum, unpaidWhenZero, now)
  {
  }

  // ---------------------------------------------------------------------------
  // Credits come and go
  // ---------------------------------------------------------------------------

  function InsertTxn(l: Ledger, t: Txn): Ledger { l.(txns := l.txns + [t]) }

  function WithoutTxn(txns: seq<Txn>, id: int): seq<Txn> {
    if txns == [] then [] else
      var last := txns[|txns| - 1];
      var before := WithoutTxn(txns[..|txns| - 1], id);
      if last.id == id then before else before + [last]
  }

  function DeleteTxn(l: Ledger, id: int): Ledger { l.(txns := WithoutTxn(l.txns, id)) }

  lemma {:induction false} DeleteUndoesInsert(txns: seq<Txn>, t: Txn)
    requires forall i | 0 <= i < |txns| :: txns[i].id != t.id
    ensures WithoutTxn(txns, t.id) == txns
    ensures WithoutTxn(txns + [t], t.id) == txns
  {
    if txns != [] {
      var front := txns[..|txns| - 1];
      DeleteUndoesInsert(front, t);
      assert txns[|txns| - 1].id != t.id;
    }
    assert (txns + [t])[..|txns|] == txns;
  }

  /** Whether recomputing through a detour by way of the sum `more` stamps a new paid-at time: only
      when the detour reopens a bill that `sum` covers, that is for a negative amount. */
  predicate Restamps(s: Statement, sum: int, more: int, now: int, later: int)
    requires s.total.Amount?
  {
    sum >= s.total.paise > more && (if s.status == Some(Paid) then s.paidAt != Some(later) else now != later)
  }

  /** Deleting a payment unwinds it: inserting a credit and recomputing, then deleting it and
      recomputing, leaves the ledger as one recompute without it would - paid amount, status,
      paid-at time and snapshot - exactly when the detour stamps no new paid-at time. */
  lemma {:induction false} DeletingPaymentUnwindsExactly(
    l: Ledger, i: nat, t: Txn, unpaidWhenZero: bool, now: int, later: int)
    requires DistinctStatements(l.statements)
    requires i < |l.statements| && l.statements[i].total.Amount? && ClockFree(l.statements[i].createdAt, now, later)
    requires forall j | 0 <= j < |l.txns| :: l.txns[j].id != t.id
    ensures
      var paid := Recompute(InsertTxn(l, t), i, unpaidWhenZero, now);
      Recompute(DeleteTxn(paid, t.id), i, unpaidWhenZero, later) == Recompute(l, i, unpaidWhenZero, now)
      <==> !Restamps(l.statements[i], PaidSum(l, i, now), PaidSum(InsertTxn(l, t), i, now), now, later)
  {
    hide CreditSum, WindowOf, IsCcPaymentReceived, Recomputed, CycleRows, Outstanding, InCycle, WithoutTxn, Restamps;
    var rows := CycleRows(l.statements);
    var s, w := l.statements[i], WindowOf(CycleRows(l.statements), CycleRowOf(l.statements[i]), now);
    var sum, more := CreditSum(l.txns, s.account, w), PaidSum(InsertTxn(l, t), i, now);
    var paid := Recompute(InsertTxn(l, t), i, unpaidWhenZero, now);
    RecomputedKeepsBill(s, more, unpaidWhenZero, now);
    UpdateKeepsCycles(l, i, paid.statements[i]);
    assert rows[i] in rows;
    WindowIgnoresClock(rows, rows[i], now, later);
    DeleteUndoesInsert(l.txns, t);
    RecomputedUnwinds(s, sum, more, unpaidWhenZero, now, later);
    RecomputedKeepsBill(s, sum, unpaidWhenZero, now);
    RecomputedKeepsBill(paid.statements[i], sum, unpaidWhenZero, later);
    var undone := Recompute(DeleteTxn(paid, t.id), i, unpaidWhenZero, later);
    var direct := Recompute(l, i, unpaidWhenZero, now);
    if undone.statements[i] == direct.statements[i] {
      assert undone.statements == direct.statements;
      assert undone.snapshots == direct.snapshots;
    }
  }

  /** In particular deleting any payment that is not negative unwinds it. */
  lemma {:induction false} DeletingPaymentUnwinds(
    l: Ledger, i: nat, t: Txn, unpaidWhenZero: bool, now: int, later: int)
    requires DistinctStatements(l.statements)
    requires i < |l.statements| && l.statements[i].total.Amount? && ClockFree(l.statements[i].createdAt, now, later)
    requires t.amount >= 0 && forall j | 0 <= j < |l.txns| :: l.txns[j].id != t.id
    ensures
      var paid := Recompute(InsertTxn(l, t), i, unpaidWhenZero, now);
      Recompute(DeleteTxn(paid, t.id), i, unpaidWhenZero, later) == Recompute(l, i, unpaidWhenZero, now)
  {
    hide CreditSum, WindowOf, Recompute, IsCcPaymentReceived;
    var s := l.statements[i];
    DeletingPaymentUnwindsExactly(l, i, t, unpaidWhenZero, now, later);
    InsertRaisesSum(l.txns, t, s.account, WindowOf(CycleRows(l.statements), CycleRowOf(s), now));
  }

  lemma {:induction false} RecomputedKeepsBill(s: Statement, sum: int, unpaidWhenZero: bool, now: int)
    requires s.total.Amount?
    ensures SameBill(Recomputed(s, sum, unpaidWhenZero, now), s)
  {
  }

  lemma {:induction false} RecomputedUnwinds(
    s: Statement, sum: int, more: int, unpaidWhenZero: bool, now: int, later: int)
    requires s.total.Amount?
    ensures
      var undone := Recomputed(Recomputed(s, more, unpaidWhenZero, now), sum, unpaidWhenZero, later);
      undone == Recomputed(s, sum, unpaidWhenZero, now) <==> !Restamps(s, sum, more, now, later)
    ensures
      var undone := Recomputed(Recomputed(s, more, unpaidWhenZero, now), sum, unpaidWhenZero, later);
      undone.(paidAt := None) == Recomputed(s, sum, unpaidWhenZero, now).(paidAt := None)
  {
  }

  lemma {:induction false} InsertRaisesSum(txns: seq<Txn>, t: Txn, account: int, w: CycleWindow)
    ensures CreditSum(txns + [t], account, w) ==
      CreditSum(txns, account, w) + if Qualifies(t, account) && InCycle(w, t) then t.amount else 0
  {
  }

  // ---------------------------------------------------------------------------
  // Which statement a trigger acts on
  // ---------------------------------------------------------------------------

  /** The columns by which statement rows are looked up. */
  datatype Column = ById | ByAccount
  {
    function Of(s: Statement): int { if this == ById then s.id else s.account }
  }

  /** The last row that holds `key` in the column. */
  function LastRow(rows: seq<Statement>, column: Column, key: int): (r: Option<nat>)
    ensures r.Some? ==> r.value < |rows| && column.Of(rows[r.value]) == key
    ensures r.None? ==> forall i | 0 <= i < |rows| :: column.Of(rows[i]) != key
  {
    if rows == [] then None
    else if column.Of(rows[|rows| - 1]) == key then Some(|rows| - 1)
    else LastRow(rows[..|rows| - 1], column, key)
  }

  lemma {:induction false} SameLastRow(a: seq<Statement>, b: seq<Statement>, column: Column, key: int)
    requires |a| == |b| && forall k | 0 <= k < |a| :: column.Of(a[k]) == column.Of(b[k])
    ensures LastRow(a, column, key) == LastRow(b, column, key)
  {
    if a != [] { SameLastRow(a[..|a| - 1], b[..|b| - 1], column, key); }
  }

  /** `latest` is an insertion-ordered dictionary by account; one more dated upload is seen. */
  function KeepLatest(latest: seq<Statement>, s: Statement): seq<Statement> {
    match LastRow(latest, ByAccount, s.account)
    case None => latest + [s]
    case Some(j) =>
      if latest[j].due.Some? && s.due.Some? && latest[j].due.value < s.due.value then latest[j := s] else latest
  }

  function LatestPerAccount(uploads: seq<Statement>): seq<Statement> {
    if uploads == [] then [] else
      var before := LatestPerAccount(uploads[..|uploads| - 1]);
      var last := uploads[|uploads| - 1];
      if last.due.None? then before else KeepLatest(before, last)
  }

  method CollapseToLatest(uploads: seq<Statement>) returns (latest: seq<Statement>)
    ensures latest == LatestPerAccount(uploads)
  {
    latest := [];
    for i := 0 to |uploads|
      invariant latest == LatestPerAccount(uploads[..i])
    {
      Sequences.PrefixStep(uploads, i);
      var s := uploads[i];
      if s.due.Some? {
        var j := LastRow(latest, ByAccount, s.account);
        if j.None? {
          latest := latest + [s];
        } else if latest[j.value].due.Some? && s.due.value > latest[j.value].due.value {
          latest := latest[j.value := s];
        }
      }
    }
    assert uploads[..|uploads|] == uploads;
  }

  /** The latest dated statement of one account, by a scan of its own. */
  function LatestOf(uploads: seq<Statement>, account: int): (r: Option<Statement>)
    ensures r.Some? ==> r.value.account == account && r.value.due.Some?
  {
    if uploads == [] then None else
      var before, s := LatestOf(uploads[..|uploads| - 1], account), uploads[|uploads| - 1];
      if s.account == account && s.due.Some? && (before.None? || before.value.due.value < s.due.value)
      then Some(s) else before
  }

  /** Whether `uploads[k]` is due after every earlier dated statement of its account and not
      before any later one. */
  ghost predicate Leads(uploads: seq<Statement>, k: nat)
    requires k < |uploads| && uploads[k].due.Some?
  {
    forall j | 0 <= j < |uploads| && uploads[j].account == uploads[k].account && uploads[j].due.Some? ::
      if j < k then uploads[j].due.value < uploads[k].due.value else uploads[j].due.value <= uploads[k].due.value
  }

  lemma {:induction false} LatestLeads(uploads: seq<Statement>, account: int) returns (k: nat)
    ensures LatestOf(uploads, account).Some? ==>
      k < |uploads| && uploads[k] == LatestOf(uploads, account).value && Leads(uploads, k)
    ensures LatestOf(uploads, account).None? ==>
      forall j | 0 <= j < |uploads| :: uploads[j].account != account || uploads[j].due.None?
  {
    k := 0;
    if uploads != [] {
      var n := |uploads| - 1;
      k := LatestLeads(uploads[..n], account);
      if LatestOf(uploads, account) != LatestOf(uploads[..n], account) {
        if LatestOf(uploads[..n], account).Some? {
          forall j | 0 <= j < n && uploads[j].account == account && uploads[j].due.Some?
            ensures uploads[j].due.value < uploads[n].due.value
          {
            assert uploads[..n][j] == uploads[j];
          }
        } else {
          assert forall j | 0 <= j < n :: uploads[..n][j] == uploads[j];
        }
        k := n;
      } else {
        assert forall j | 0 <= j < n :: uploads[..n][j] == uploads[j];
      }
    }
  }

  function Get(latest: seq<Statement>, account: int): Option<Statement> {
    var j := LastRow(latest, ByAccount, account);
    if j.Some? then Some(latest[j.value]) else None
  }

  ghost predicate OnePerAccount(latest: seq<Statement>) {
    forall i, j :: 0 <= i < j < |latest| ==> latest[i].account != latest[j].account
  }

  lemma {:induction false} GetEntry(latest: seq<Statement>, i: nat)
    requires OnePerAccount(latest) && i < |latest|
    ensures Get(latest, latest[i].account) == Some(latest[i])
  {
  }

  lemma {:induction false} KeepGets(latest: seq<Statement>, s: Statement, account: int)
    requires OnePerAccount(latest)
    ensures OnePerAccount(KeepLatest(latest, s))
    ensures account != s.account ==> Get(KeepLatest(latest, s), account) == Get(latest, account)
    ensures Get(KeepLatest(latest, s), s.account) ==
      var before := Get(latest, s.account);
      if before.Some? && !(before.value.due.Some? && s.due.Some? && before.value.due.value < s.due.value) then before
        else Some(s)
  {
    var next := KeepLatest(latest, s);
    var j := LastRow(latest, ByAccount, s.account);
    var at := if j.Some? then j.value else |latest|;
    assert next[at].account == s.account;
    GetEntry(next, at);
    if account != s.account {
      var i := LastRow(latest, ByAccount, account);
      if i.Some? {
        assert next[i.value] == latest[i.value];
        GetEntry(next, i.value);
      } else {
        assert LastRow(next, ByAccount, account).None?;
      }
    }
  }

  /** Collapsing keeps exactly one statement for each account with a dated one: its latest. */
  lemma {:induction false} CollapseIsLatest(uploads: seq<Statement>, account: int)
    ensures OnePerAccount(LatestPerAccount(uploads))
    ensures Get(LatestPerAccount(uploads), account) == LatestOf(uploads, account)
  {
    if uploads != [] {
      var front, s := uploads[..|uploads| - 1], uploads[|uploads| - 1];
      CollapseIsLatest(front, account);
      if s.due.Some? { KeepGets(LatestPerAccount(front), s, account); }
    }
  }
}
