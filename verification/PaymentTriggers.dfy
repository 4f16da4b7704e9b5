/** The events that make a statement's payment state be looked at again. */
module PaymentTriggers {
  import CcCycle
  import opened Payments
  import Text
  import opened Wrappers

  predicate IsActive(status: Option<Status>) {
    status == Some(Unpaid) || status == Some(PartiallyPaid) || status == Some(Late)
  }

  /** The account's statements with an active (or also a paid) status, in table order. */
  function Tracked(statements: seq<Statement>, account: int, includePaid: bool): seq<Statement> {
    if statements == [] then [] else
      var s := statements[|statements| - 1];
      var before := Tracked(statements[..|statements| - 1], account, includePaid);
      if s.account == account && (IsActive(s.status) || (includePaid && s.status == Some(Paid)))
      then before + [s] else before
  }

  /** Table position of the account's latest tracked cycle. */
  function LatestActiveCycle(statements: seq<Statement>, account: int, includePaid: bool): (r: Option<nat>)
    ensures r.Some? ==> r.value < |statements|
  {
    var latest := LatestPerAccount(Tracked(statements, account, includePaid));
    if latest == [] then None else LastRow(statements, ById, latest[0].id)
  }

  /** An incoming credit was committed: recompute the latest active cycle. */
  function CheckPaymentReceived(l: Ledger, account: int, now: int): (Ledger, bool) {
    if account !in l.cards then (l, false) else
      match LatestActiveCycle(l.statements, account, false)
      case None => (l, false)
      case Some(i) =>
        if !l.statements[i].total.Amount? then (l, false)
        else (Recompute(l, i, false, now), PaidSum(l, i, now) >= l.statements[i].total.paise)
  }

  /** A payment transaction was deleted: recompute the latest cycle, paid ones included. */
  function RecomputeForAccount(l: Ledger, account: int, now: int): (Ledger, Option<int>) {
    if account !in l.cards then (l, None) else
      match LatestActiveCycle(l.statements, account, true)
      case None => (l, None)
      case Some(i) =>
        if !l.statements[i].total.Amount? then (l, None)
        else (Recompute(l, i, false, now), Some(PaidSum(l, i, now)))
  }

  /** A statement was reparsed: re-derive its state unless it is paid. */
  function Resync(l: Ledger, i: nat, now: int): (Ledger, bool)
    requires i < |l.statements|
  {
    if !IsActive(l.statements[i].status) || !l.statements[i].total.Amount? then (l, false)
    else (Recompute(l, i, true, now), true)
  }

  /** The user marked a statement as paid. */
  function MarkPaid(l: Ledger, i: nat, now: int): Ledger
    requires i < |l.statements|
  {
    var s := l.statements[i];
    if s.status == Some(Paid) then l else
      var paid := s.(status := Some(Paid), paidAt := Some(now),
                     paidAmount := if s.total.Amount? then Some(s.total.paise) else s.paidAmount);
      l.(statements := l.statements[i := paid], snapshots := EmitCcSnapshot(l.snapshots, paid, now))
  }

  /** The user reverted a statement to unpaid: reminders start over, and only an amount that still
      reads as a partial payment is kept. */
  function MarkUnpaid(l: Ledger, i: nat, now: int): Ledger
    requires i < |l.statements|
  {
    var s := l.statements[i];
    if s.status.None? then l else
      var partial := s.status == Some(PartiallyPaid);
      var kept := if partial then s.paidAmount else Some(0);
      var reverted := s.(status := Some(if partial then PartiallyPaid else Unpaid), paidAt := None,
                         paidAmount := kept, sentOffsets := {}, remindedAt := None);
      l.(statements := l.statements[i := reverted], snapshots := EmitCcSnapshot(l.snapshots, reverted, now))
  }

  /** A statement was parsed anew; when its due date or total reads differently, its payment state
      starts over, untracked. */
  function Reprocess(l: Ledger, i: nat, differs: bool, due: Option<int>, total: TotalDue, now: int): Ledger
    requires i < |l.statements|
  {
    var s := l.statements[i];
    var parsed := if differs
                  then s.(status := None, paidAmount := Some(0), paidAt := None, sentOffsets := {}, remindedAt := None,
                          due := due, total := total)
                  else s;
    l.(statements := l.statements[i := parsed], snapshots := EmitCcSnapshot(l.snapshots, parsed, now))
  }

  /** A statement was ingested: start tracking it if it is due this month or later. */
  function InitTracking(l: Ledger, i: nat, monthStart: int, now: int): (Ledger, bool)
    requires i < |l.statements|
  {
    var s := l.statements[i];
    if s.due.None? || !s.total.Amount? || s.status.Some? || s.due.value < monthStart then (l, false)
    else if s.total.paise <= 0 then
      var paid := s.(status := Some(Paid), paidAt := Some(now), paidAmount := Some(s.total.paise));
      (l.(statements := l.statements[i := paid], snapshots := EmitCcSnapshot(l.snapshots, paid, now)), true)
    else (Recompute(l, i, true, now), true)
  }

  // ---------------------------------------------------------------------------
  // Laws
  // ---------------------------------------------------------------------------

  lemma {:induction false} TrackedRow(statements: seq<Statement>, account: int, includePaid: bool, s: Statement)
    ensures s in Tracked(statements, account, includePaid) <==>
      s in statements && s.account == account && (IsActive(s.status) || (includePaid && s.status == Some(Paid)))
  {
    if statements != [] {
      var front := statements[..|statements| - 1];
      assert statements == front + [statements[|front|]];
      TrackedRow(front, account, includePaid, s);
    }
  }

  /** The cycle a trigger picks is the account's latest tracked statement by due date: tracked
      itself, and no tracked statement of the account is due later. */
  lemma {:induction false} LatestCycleIsLatest(l: Ledger, account: int, includePaid: bool)
    requires DistinctStatements(l.statements)
    ensures
      match LatestActiveCycle(l.statements, account, includePaid)
      case Some(i) =>
        var s := l.statements[i];
        && s in Tracked(l.statements, account, includePaid) && s.due.Some?
        && forall t | t in Tracked(l.statements, account, includePaid) && t.due.Some? :: t.due.value <= s.due.value
      case None => forall t | t in Tracked(l.statements, account, includePaid) :: t.due.None?
  {
    var tracked := Tracked(l.statements, account, includePaid);
    var latest := LatestPerAccount(tracked);
    CollapseIsLatest(tracked, account);
    var k := LatestLeads(tracked, account);
    forall t | t in tracked ensures t.account == account && t in l.statements {
      TrackedRow(l.statements, account, includePaid, t);
    }
    if latest == [] {
      assert LatestOf(tracked, account).None?;
    } else {
      AllOfAccount(tracked, account);
      assert latest[0].account == account;
      GetEntry(latest, 0);
      var s := latest[0];
      assert s == tracked[k];
      assert s in l.statements;
      var i := LastRow(l.statements, ById, s.id).value;
      var j :| 0 <= j < |l.statements| && l.statements[j] == s;
      assert l.statements[i] == s;
    }
  }

  lemma {:induction false} AllOfAccount(uploads: seq<Statement>, account: int)
    requires forall u | u in uploads :: u.account == account
    ensures forall i | 0 <= i < |LatestPerAccount(uploads)| :: LatestPerAccount(uploads)[i].account == account
  {
    if uploads != [] {
      var front := uploads[..|uploads| - 1];
      assert uploads == front + [uploads[|front|]];
      AllOfAccount(front, account);
      assert uploads[|front|] in uploads;
    }
  }

  /** A resync never touches a paid statement, so a manual mark is never reverted; and it never
      turns any other row. */
  lemma {:induction false} ResyncSparesPaid(l: Ledger, i: nat, now: int)
    requires i < |l.statements|
    ensures l.statements[i].status == Some(Paid) ==> Resync(l, i, now) == (l, false)
    ensures forall j | 0 <= j < |l.statements| && j != i :: Resync(l, i, now).0.statements[j] == l.statements[j]
    ensures forall j | 0 <= j < |l.statements| && l.statements[j].status == Some(Paid) ::
      Resync(l, i, now).0.statements[j] == l.statements[j]
  {
  }

  /** After a manual mark followed by any number of resyncs the statement is still paid. */
  lemma {:induction false} MarkSurvivesResyncs(l: Ledger, i: nat, clock: seq<int>, now: int)
    requires i < |l.statements|
    ensures ResyncAll(MarkPaid(l, i, now), i, clock) == MarkPaid(l, i, now)
    ensures MarkPaid(l, i, now).statements[i].status == Some(Paid)
  {
    if clock != [] { MarkSurvivesResyncs(l, i, clock[..|clock| - 1], now); }
  }

  function ResyncAll(l: Ledger, i: nat, clock: seq<int>): (r: Ledger)
    requires i < |l.statements|
    ensures |r.statements| == |l.statements|
  {
    if clock == [] then l else Resync(ResyncAll(l, i, clock[..|clock| - 1]), i, clock[|clock| - 1]).0
  }

  /** A manual mark is not proof against a deletion: when a payment transaction of the account is
      deleted, its latest bill, marked by hand, stays paid if and only if the credits left cover it. */
  lemma {:induction false} DeletionReopensMark(l: Ledger, account: int, i: nat, id: int, now: int, later: int)
    requires DistinctStatements(l.statements) && account in l.cards
    requires LatestActiveCycle(l.statements, account, true) == Some(i) && l.statements[i].total.Amount?
    ensures
      var after := RecomputeForAccount(DeleteTxn(MarkPaid(l, i, now), id), account, later).0;
      |after.statements| == |l.statements|
      && (after.statements[i].status == Some(Paid)
          <==> PaidSum(DeleteTxn(l, id), i, later) >= l.statements[i].total.paise)
  {
    hide PaidSum, LatestActiveCycle;
    var fewer := DeleteTxn(l, id);
    var marked := MarkPaid(fewer, i, now);
    assert marked == DeleteTxn(MarkPaid(l, i, now), id);
    MarkKeepsLatest(fewer, account, i, now);
    UpdateKeepsCycles(fewer, i, marked.statements[i]);
    SamePaidSum(fewer, marked, i, later);
    RecomputeHeals(marked, i, false, later);
    hide Recompute;
    assert RecomputeForAccount(marked, account, later).0 == Recompute(marked, i, false, later);
    SamePaidSum(marked, Recompute(marked, i, false, later), i, later);
  }

  lemma {:induction false} SamePaidSum(a: Ledger, b: Ledger, i: nat, now: int)
    requires i < |a.statements| == |b.statements| && a.txns == b.txns
    requires forall k | 0 <= k < |a.statements| :: CycleRowOf(a.statements[k]) == CycleRowOf(b.statements[k])
    ensures PaidSum(a, i, now) == PaidSum(b, i, now)
  {
    hide CreditSum, CcCycle.WindowOf;
    assert CycleRows(a.statements) == CycleRows(b.statements);
  }

  lemma {:induction false} MarkKeepsLatest(l: Ledger, account: int, i: nat, now: int)
    requires DistinctStatements(l.statements) && LatestActiveCycle(l.statements, account, true) == Some(i)
    ensures
      var marked := MarkPaid(l, i, now);
      && |marked.statements| == |l.statements| && marked.txns == l.txns && marked.cards == l.cards
      && DistinctStatements(marked.statements) && SameBill(l.statements[i], marked.statements[i])
      && (forall k | 0 <= k < |l.statements| :: CycleRowOf(l.statements[k]) == CycleRowOf(marked.statements[k]))
      && LatestActiveCycle(marked.statements, account, true) == Some(i)
  {
    var marked := MarkPaid(l, i, now);
    LatestCycleIsLatest(l, account, true);
    TrackedRow(l.statements, account, true, l.statements[i]);
    hide LatestPerAccount, Tracked, EmitCcSnapshot;
    SameTracked(l.statements, marked.statements, account, true);
    SameLatest(Tracked(l.statements, account, true), Tracked(marked.statements, account, true));
    SameLastRow(l.statements, marked.statements, ById, LatestPerAccount(Tracked(l.statements, account, true))[0].id);
  }

  /** Reverting to unpaid keeps the paid amount exactly when the row is untracked, reads as partially
      paid, or has nothing on it. On any other row whatever had come in is forgotten. */
  lemma {:induction false} RevertKeepsAmountExactly(l: Ledger, i: nat, now: int)
    requires i < |l.statements|
    ensures
      var s, t := l.statements[i], MarkUnpaid(l, i, now).statements[i];
      t.paidAmount == s.paidAmount <==> s.status.None? || s.status == Some(PartiallyPaid) || s.paidAmount == Some(0)
  {
  }

  /** So of the credits a recompute has counted, a revert keeps a part payment but forgets a payment
      in full; the bill then reads as owing everything, and so does its snapshot. */
  lemma {:induction false} RevertAfterRecompute(l: Ledger, i: nat, now: int, later: int)
    requires i < |l.statements| && l.statements[i].total.Amount? && l.statements[i].createdAt.Some?
    requires PaidSum(l, i, now) > 0
    ensures
      var due, sum := l.statements[i].total.paise, PaidSum(l, i, now);
      var reverted := MarkUnpaid(Recompute(l, i, true, now), i, later);
      var key := SnapshotKeyOf(l.statements[i], later);
      && (reverted.statements[i].paidAmount == Some(sum) <==> sum < due)
      && (sum >= due ==> reverted.statements[i].paidAmount == Some(0) && reverted.statements[i].status == Some(Unpaid))
      && key in reverted.snapshots
      && reverted.snapshots[key] == if sum < due then due - sum else Max(due, 0)
  {
    hide PaidSum;
  }

  /** A manual mark in between makes a revert forget a part payment. */
  lemma {:induction false} RevertedMarkForgetsPartialPayment(l: Ledger, i: nat, now: int, later: int)
    requires i < |l.statements| && l.statements[i].status == Some(PartiallyPaid)
    ensures MarkUnpaid(l, i, later).statements[i].paidAmount == l.statements[i].paidAmount
    ensures MarkUnpaid(MarkPaid(l, i, now), i, later).statements[i].paidAmount == Some(0)
  {
    hide EmitCcSnapshot;
  }

  /** What a revert forgot comes back with the next recompute. */
  lemma {:induction false} RecomputeAfterRevert(l: Ledger, i: nat, unpaidWhenZero: bool, now: int, later: int)
    requires i < |l.statements| && l.statements[i].total.Amount?
    ensures
      var healed := Recompute(MarkUnpaid(l, i, now), i, unpaidWhenZero, later);
      healed.statements[i].paidAmount == Some(PaidSum(l, i, later))
  {
    hide PaidSum, EmitCcSnapshot;
    SamePaidSum(l, MarkUnpaid(l, i, now), i, later);
  }

  /** A statement is tracked once: when it has a due date this month or later, a readable total, and
      no status yet. It is born paid exactly when nothing is owed or earlier credits cover it, and
      unpaid, not partially paid, when nothing has come in. */
  lemma {:induction false} TrackingCountsEarlierCredits(l: Ledger, i: nat, monthStart: int, now: int)
    requires i < |l.statements|
    ensures
      var s := l.statements[i];
      var (after, tracked) := InitTracking(l, i, monthStart, now);
      && (tracked <==> s.due.Some? && s.due.value >= monthStart && s.total.Amount? && s.status.None?)
      && (!tracked ==> after == l)
      && (tracked ==>
            var t := after.statements[i];
            && SameBill(s, t)
            && (t.status == Some(Paid) <==> s.total.paise <= 0 || PaidSum(l, i, now) >= s.total.paise)
            && (t.status == Some(Unpaid) <==> s.total.paise > 0 && PaidSum(l, i, now) <= 0)
            && (t.paidAt == if t.status == Some(Paid) then Some(now) else None)
            && t.paidAmount == Some(if s.total.paise <= 0 then s.total.paise else PaidSum(l, i, now))
            && after.snapshots == l.snapshots[SnapshotKeyOf(s, now) := Max(s.total.paise - t.paidAmount.value, 0)]
            && after.statements == l.statements[i := t] && after.txns == l.txns
            && InitTracking(after, i, monthStart, now) == (after, false))
  {
    hide PaidSum;
  }

  /** A payment from before the statement counts when it falls on a day the new bill claims, so not
      every early payment does: on an account's first bill one dated before the creation day is left
      out, and the bill is born unpaid although it was paid in full. */
  lemma {:induction false} FirstBillMissesEarlierPayment(now: int)
    ensures
      var bill := Statement(1, 7, Some(5 * CcCycle.SECONDS_PER_DAY), Some(20), Amount(50), None, {}, Some(0), None,
        None);
      var early := CREDIT.(date := Some(3));
      var l := InsertTxn(Ledger({7}, [bill], [], map[]), early);
      && Qualifies(early, 7) && InitTracking(l, 0, 1, now).1
      && InitTracking(l, 0, 1, now).0.statements[0].status == Some(Unpaid)
  {
    hide PaidSum, CcCycle.CountsDay, EmitCcSnapshot, IsCcPaymentReceived;
    var bill := Statement(1, 7, Some(5 * CcCycle.SECONDS_PER_DAY), Some(20), Amount(50), None, {}, Some(0), None, None);
    var early := CREDIT.(date := Some(3));
    var l := Ledger({7}, [bill], [], map[]);
    PaymentSuffix();
    CreditCountsByDay(l, 0, early, now);
    NothingCredited(l, 0, now);
    assert !CcCycle.CountsDay(CycleRows(l.statements), CycleRowOf(bill), now, 3) by { FirstBillStarts(bill, now); }
  }

  lemma {:induction false} FirstBillStarts(bill: Statement, now: int)
    requires bill.due.Some? && bill.createdAt == Some(5 * CcCycle.SECONDS_PER_DAY)
    ensures !CcCycle.CountsDay(CycleRows([bill]), CycleRowOf(bill), now, 3)
  {
  }

  lemma {:induction false} NothingCredited(l: Ledger, i: nat, now: int)
    requires i < |l.statements| && l.txns == []
    ensures PaidSum(l, i, now) == 0
  {
    hide CcCycle.WindowOf;
  }

  lemma {:induction false} SameTracked(a: seq<Statement>, b: seq<Statement>, account: int, includePaid: bool)
    requires |a| == |b| && forall k | 0 <= k < |a| :: SameBill(a[k], b[k])
    requires forall k | 0 <= k < |a| && a[k].account == account ::
      (IsActive(a[k].status) || (includePaid && a[k].status == Some(Paid)))
      <==> (IsActive(b[k].status) || (includePaid && b[k].status == Some(Paid)))
    ensures
      var x, y := Tracked(a, account, includePaid), Tracked(b, account, includePaid);
      |x| == |y| && forall k | 0 <= k < |x| :: SameBill(x[k], y[k])
  {
    if a != [] {
      var n := |a| - 1;
      SameTracked(a[..n], b[..n], account, includePaid);
      assert SameBill(a[n], b[n]);
    }
  }

  lemma {:induction false} SameKept(x: seq<Statement>, y: seq<Statement>, s: Statement, t: Statement)
    requires |x| == |y| && SameBill(s, t) && forall k | 0 <= k < |x| :: SameBill(x[k], y[k])
    ensures
      var u, v := KeepLatest(x, s), KeepLatest(y, t);
      |u| == |v| && forall k | 0 <= k < |u| :: SameBill(u[k], v[k])
  {
    hide LastRow;
    SameLastRow(x, y, ByAccount, s.account);
    var j := LastRow(x, ByAccount, s.account);
    if j.Some? { assert SameBill(x[j.value], y[j.value]); }
  }

  lemma {:induction false} SameLatest(a: seq<Statement>, b: seq<Statement>)
    requires |a| == |b| && forall k | 0 <= k < |a| :: SameBill(a[k], b[k])
    ensures
      var x, y := LatestPerAccount(a), LatestPerAccount(b);
      |x| == |y| && forall k | 0 <= k < |x| :: SameBill(x[k], y[k])
  {
    hide KeepLatest;
    if a != [] {
      var n := |a| - 1;
      assert SameBill(a[n], b[n]);
      SameLatest(a[..n], b[..n]);
      SameKept(LatestPerAccount(a[..n]), LatestPerAccount(b[..n]), a[n], b[n]);
    }
  }

  /** Double taps do not inflate: while the bill stays unpaid, firing the payment trigger again,
      at any later time, changes nothing. */
  lemma {:induction false} RefireChangesNothing(l: Ledger, account: int, now: int, later: int)
    requires DistinctStatements(l.statements)
    requires forall i | 0 <= i < |l.statements| :: ClockFree(l.statements[i].createdAt, now, later)
    requires !CheckPaymentReceived(l, account, now).1
    ensures CheckPaymentReceived(CheckPaymentReceived(l, account, now).0, account, later)
      == CheckPaymentReceived(l, account, now)
  {
    hide PaidSum, Recomputed;
    var once := CheckPaymentReceived(l, account, now).0;
    match LatestActiveCycle(l.statements, account, false) {
      case None =>
      case Some(i) =>
        if account in l.cards && l.statements[i].total.Amount? {
          LatestCycleIsLatest(l, account, false);
          TrackedRow(l.statements, account, false, l.statements[i]);
          RecomputedPartial(l, i, now);
          var s := once.statements[i];
          SameTracked(l.statements, once.statements, account, false);
          SameLatest(Tracked(l.statements, account, false), Tracked(once.statements, account, false));
          SameLastRow(l.statements, once.statements, ById,
            LatestPerAccount(Tracked(l.statements, account, false))[0].id);
          assert LatestActiveCycle(once.statements, account, false) == Some(i);
          RecomputeIdempotent(l, i, false, now, later);
          RefiredSum(l, i, now, later);
        }
    }
  }

  lemma {:induction false} RecomputedPartial(l: Ledger, i: nat, now: int)
    requires i < |l.statements| && l.statements[i].total.Amount? && PaidSum(l, i, now) < l.statements[i].total.paise
    ensures
      var s := Recompute(l, i, false, now).statements[i];
      SameBill(l.statements[i], s) && s.status == Some(PartiallyPaid)
  {
  }

  lemma {:induction false} RefiredSum(l: Ledger, i: nat, now: int, later: int)
    requires DistinctStatements(l.statements)
    requires i < |l.statements| && l.statements[i].total.Amount? && ClockFree(l.statements[i].createdAt, now, later)
    ensures PaidSum(Recompute(l, i, false, now), i, later) == PaidSum(l, i, now)
  {
    hide CreditSum, CcCycle.WindowOf;
    var rows := CycleRows(l.statements);
    var once := Recompute(l, i, false, now);
    UpdateKeepsCycles(l, i, once.statements[i]);
    assert rows[i] in rows;
    WindowIgnoresClock(rows, rows[i], now, later);
  }

  /** The row of a bill that is not covered, and its snapshot, already say what a recompute would. */
  predicate UpToDate(l: Ledger, i: nat, now: int)
    requires i < |l.statements| && l.statements[i].total.Amount?
  {
    var s := l.statements[i];
    && PaidSum(l, i, now) < s.total.paise
    && s.status == Some(PartiallyPaid) && s.paidAmount == Some(PaidSum(l, i, now)) && s.paidAt == None
    && SnapshotKeyOf(s, now) in l.snapshots && l.snapshots[SnapshotKeyOf(s, now)] == Outstanding(s)
  }

  /** Firing the trigger again leaves the ledger alone exactly when the first firing left its bill
      unpaid, or no other bill of the account is active with a readable total, or the latest such
      bill is up to date already. */
  lemma {:induction false} RefireChangesNothingExactly(l: Ledger, account: int, now: int, later: int)
    requires DistinctStatements(l.statements)
    requires forall i | 0 <= i < |l.statements| :: ClockFree(l.statements[i].createdAt, now, later)
    ensures
      var (once, fullyPaid) := CheckPaymentReceived(l, account, now);
      var next := LatestActiveCycle(once.statements, account, false);
      CheckPaymentReceived(once, account, later).0 == once <==>
        !fullyPaid || next.None? || !once.statements[next.value].total.Amount? || UpToDate(once, next.value, later)
  {
    hide PaidSum, Tracked, LatestActiveCycle, Recompute, UpToDate;
    var (once, fullyPaid) := CheckPaymentReceived(l, account, now);
    if !fullyPaid {
      RefireChangesNothing(l, account, now, later);
    } else {
      var first := LatestActiveCycle(l.statements, account, false).value;
      RecomputeKeepsDistinct(l, first, now);
      var next := LatestActiveCycle(once.statements, account, false);
      LatestCycleIsLatest(once, account, false);
      if next.Some? && once.statements[next.value].total.Amount? {
        TrackedRow(once.statements, account, false, once.statements[next.value]);
        RecomputeOfUpToDate(once, next.value, later);
      }
    }
  }

  lemma {:induction false} RecomputeKeepsDistinct(l: Ledger, i: nat, now: int)
    requires DistinctStatements(l.statements) && i < |l.statements| && l.statements[i].total.Amount?
    ensures DistinctStatements(Recompute(l, i, false, now).statements)
    ensures Recompute(l, i, false, now).cards == l.cards
  {
  }

  lemma {:induction false} RecomputeOfUpToDate(l: Ledger, i: nat, now: int)
    requires i < |l.statements| && l.statements[i].total.Amount? && IsActive(l.statements[i].status)
    ensures Recompute(l, i, false, now) == l <==> UpToDate(l, i, now)
  {
  }

  /** Credits that arrive, however often the trigger fires, never change a bill that is paid: its
      paid-at time and amount stay, also when a later trigger falls through to an older bill. */
  lemma {:induction false} TriggersSparePaid(l: Ledger, account: int, clock: seq<int>, j: nat)
    requires DistinctStatements(l.statements) && j < |l.statements| && l.statements[j].status == Some(Paid)
    ensures
      var after := ReceiveAll(l, account, clock).statements;
      |after| == |l.statements| && after[j] == l.statements[j] && DistinctStatements(after)
  {
    hide CheckPaymentReceived;
    if clock != [] {
      var front := clock[..|clock| - 1];
      TriggersSparePaid(l, account, front, j);
      TriggerSparesPaid(ReceiveAll(l, account, front), account, clock[|front|], j);
    }
  }

  function ReceiveAll(l: Ledger, account: int, clock: seq<int>): (r: Ledger) {
    if clock == [] then l
    else CheckPaymentReceived(ReceiveAll(l, account, clock[..|clock| - 1]), account, clock[|clock| - 1]).0
  }

  lemma {:induction false} TriggerSparesPaid(l: Ledger, account: int, now: int, j: nat)
    requires DistinctStatements(l.statements) && j < |l.statements| && l.statements[j].status == Some(Paid)
    ensures
      var after := CheckPaymentReceived(l, account, now).0.statements;
      |after| == |l.statements| && after[j] == l.statements[j] && DistinctStatements(after)
  {
    hide PaidSum, LatestActiveCycle, Tracked;
    LatestCycleIsLatest(l, account, false);
    match LatestActiveCycle(l.statements, account, false) {
      case None =>
      case Some(i) => TrackedRow(l.statements, account, false, l.statements[i]);
    }
  }

  lemma {:induction false} PicksTheLater(a: Statement, b: Statement)
    requires a.id != b.id && a.account == b.account && IsActive(a.status) && a.due.Some? && b.due.Some?
    requires a.due.value < b.due.value
    ensures IsActive(b.status) ==> LatestActiveCycle([a, b], a.account, false) == Some(1)
    ensures b.status == Some(Paid) ==> LatestActiveCycle([a, b], a.account, false) == Some(0)
  {
    assert [a, b][..1] == [a] && [a][..0] == [];
    assert Tracked([a], a.account, false) == [a];
    assert LatestPerAccount([a]) == [a];
    if IsActive(b.status) {
      assert Tracked([a, b], a.account, false) == [a, b];
      assert LatestPerAccount([a, b]) == [b];
    } else {
      assert Tracked([a, b], a.account, false) == Tracked([a], a.account, false);
      assert LastRow([a], ById, a.id) == Some(0);
      assert LastRow([a, b], ById, a.id) == LastRow([a], ById, a.id);
    }
  }

  /** Two bills of one card and one bank-detected payment between their due days. */
  const OLD_BILL := Statement(1, 7, Some(0), Some(10), Amount(100), Some(Unpaid), {}, Some(0), None, None)
  const NEW_BILL := Statement(2, 7, Some(0), Some(40), Amount(50), Some(Unpaid), {}, Some(0), None, None)
  const CREDIT := Txn(1, Some(7), true, Some(20), None, Some("hdfc_cc_payment_alert"), 50)

  /** The payment lies in the newer bill's window and clears it. */
  lemma {:induction false} CreditClearsNewBill(l: Ledger, now: int)
    requires |l.statements| == 2 && l.txns == [CREDIT]
    requires SameBill(l.statements[0], OLD_BILL) && SameBill(l.statements[1], NEW_BILL)
    ensures PaidSum(l, 0, now) == 0 && PaidSum(l, 1, now) == 50
  {
    hide CcCycle.WindowOf, CreditSum;
    var rows := CycleRows(l.statements);
    var a, b := CycleRowOf(OLD_BILL), CycleRowOf(NEW_BILL);
    assert rows == [a, b];
    CcCycle.WindowsOfTwo(a, b, now);
    OneCredit(CREDIT, 7, CcCycle.WindowOf(rows, a, now));
    OneCredit(CREDIT, 7, CcCycle.WindowOf(rows, b, now));
    PaymentSuffix();
  }

  lemma {:induction false} OneCredit(t: Txn, account: int, w: CcCycle.CycleWindow)
    ensures CreditSum([t], account, w) == if Qualifies(t, account) && InCycle(w, t) then t.amount else 0
  {
    InsertRaisesSum([], t, account, w);
    assert [] + [t] == [t];
  }

  lemma {:induction false} PaymentSuffix()
    ensures IsCcPaymentReceived(Some("hdfc_cc_payment_alert"))
  {
    assert "hdfc_cc_payment_alert"[4..] == "_cc_payment_alert";
    assert Text.EndsWith("hdfc_cc_payment_alert", "_cc_payment_alert");
  }

  /** Bill `k` is untouched by the trigger that the credit fires, which finds a bill fully paid; yet
      firing again marks bill `k` partially paid, with nothing on it. */
  ghost predicate RefireReachesOlder(l: Ledger, credit: Txn, account: int, k: nat, now: int)
    requires k < |l.statements|
  {
    var first := CheckPaymentReceived(InsertTxn(l, credit), account, now);
    var second := CheckPaymentReceived(first.0, account, now);
    && |first.0.statements| == |second.0.statements| == |l.statements|
    && first.1 && first.0.statements[k] == l.statements[k]
    && !second.1 && second.0.statements[k].status == Some(PartiallyPaid) && second.0.statements[k].paidAmount == Some(0)
  }

  /** Once the latest bill is paid a repeated trigger is not a no-op: after a payment that clears the
      newer bill, firing again falls through to the older bill and marks it partially paid although
      nothing was paid on it. */
  lemma {:induction false} RefireAfterPaymentReachesOlderBill(now: int)
    ensures RefireReachesOlder(Ledger({7}, [OLD_BILL, NEW_BILL], [], map[]), CREDIT, 7, 0, now)
  {
    hide LatestActiveCycle, PaidSum, EmitCcSnapshot;
    var l := InsertTxn(Ledger({7}, [OLD_BILL, NEW_BILL], [], map[]), CREDIT);
    PicksTheLater(OLD_BILL, NEW_BILL);
    CreditClearsNewBill(l, now);
    var first := CheckPaymentReceived(l, 7, now).0;
    var paid := first.statements[1];
    assert first.statements == [OLD_BILL, paid];
    PicksTheLater(OLD_BILL, paid);
    CreditClearsNewBill(first, now);
  }
}
