/** The payment tables as the services update them: every operation assigns status, paid amount,
    paid-at time and used offsets on statement rows and overwrites snapshots in place. */
module CardLedger {
  import CcCycle
  import opened Payments
  import opened PaymentTriggers
  import opened Reminders
  import Sequences
  import opened Wrappers

  // ---------------------------------------------------------------------------
  // Snapshot rows of accounts
  // ---------------------------------------------------------------------------

  datatype Category = BankBalance | CcOutstanding

  datatype SnapshotRow = SnapshotRow(
    account: int, category: Category, asOf: int, kind: string, value: int, source: string, currency: string)

  type SnapshotRows = map<int, SnapshotRow>

  predicate IsFor(r: SnapshotRow, account: int, category: Category, asOf: int) {
    r.account == account && r.category == category && r.asOf == asOf
  }

  /** At most one row per account, category and day. */
  ghost predicate OneRowEach(rows: SnapshotRows) {
    forall a, b | a in rows && b in rows && IsFor(rows[b], rows[a].account, rows[a].category, rows[a].asOf) :: a == b
  }

  /** The days and accounts with an outstanding-balance row. */
  ghost function CardKeys(rows: SnapshotRows): set<SnapshotKey> {
    set id | id in rows && rows[id].category == CcOutstanding :: SnapshotKey(rows[id].account, rows[id].asOf)
  }

  ghost function CardValue(rows: SnapshotRows, key: SnapshotKey): int
    requires key in CardKeys(rows)
  {
    var id :| id in rows && IsFor(rows[id], key.account, CcOutstanding, key.asOf);
    rows[id].value
  }

  /** The outstanding balances by account and day. */
  ghost function CardSnapshots(rows: SnapshotRows): map<SnapshotKey, int> {
    map key | key in CardKeys(rows) :: CardValue(rows, key)
  }

  lemma {:induction false} CardValueOf(rows: SnapshotRows, id: int)
    requires OneRowEach(rows) && id in rows && rows[id].category == CcOutstanding
    ensures
      var key := SnapshotKey(rows[id].account, rows[id].asOf);
      key in CardKeys(rows) && CardValue(rows, key) == rows[id].value
  {
    var key := SnapshotKey(rows[id].account, rows[id].asOf);
    assert key in CardKeys(rows);
    var other :| other in rows && IsFor(rows[other], key.account, CcOutstanding, key.asOf)
                 && CardValue(rows, key) == rows[other].value;
  }

  /** Writing a row under the id of its account, category and day, or under a new one, sets that one
      balance. */
  lemma {:induction false} RowWritten(rows: SnapshotRows, id: int, r: SnapshotRow)
    requires OneRowEach(rows)
    requires if id in rows then IsFor(rows[id], r.account, r.category, r.asOf)
             else forall other | other in rows :: !IsFor(rows[other], r.account, r.category, r.asOf)
    ensures OneRowEach(rows[id := r])
    ensures CardSnapshots(rows[id := r]) ==
      if r.category == CcOutstanding then CardSnapshots(rows)[SnapshotKey(r.account, r.asOf) := r.value]
      else CardSnapshots(rows)
  {
    var after, mine := rows[id := r], SnapshotKey(r.account, r.asOf);
    forall a, b | a in after && b in after && IsFor(after[b], after[a].account, after[a].category, after[a].asOf)
      ensures a == b
    {
    }
    if r.category == CcOutstanding { CardValueOf(after, id); }
    forall key
      ensures key in CardKeys(after) <==> key in CardKeys(rows) || (r.category == CcOutstanding && key == mine)
      ensures key in CardKeys(rows) && !(r.category == CcOutstanding && key == mine) ==>
        key in CardKeys(after) && CardValue(after, key) == CardValue(rows, key)
    {
      if key in CardKeys(rows) {
        var other :| other in rows && IsFor(rows[other], key.account, CcOutstanding, key.asOf);
        CardValueOf(rows, other);
        if other != id { CardValueOf(after, other); }
      }
    }
  }

  class Tables {
    var cards: set<int>
    var statements: seq<Statement>
    var txns: seq<Txn>
    var snapshots: SnapshotRows

    constructor (cards: set<int>)
      ensures State() == Ledger(cards, [], [], map[]) && Valid()
    {
      this.cards, statements, txns, snapshots := cards, [], [], map[];
    }

    ghost predicate Valid()
      reads this
    {
      DistinctStatements(statements) && OneRowEach(snapshots)
    }

    ghost function State(): Ledger
      reads this
    {
      Ledger(cards, statements, txns, CardSnapshots(snapshots))
    }

    /** The row of an account, category and day is written: inserted under a new id, or overwritten
        in place, keeping the id by which rows of one day are ranked. */
    method UpsertAccountSnapshot(
      account: int, category: Category, asOf: int, kind: string, value: int, source: string, currency: string)
      returns (id: int)
      requires OneRowEach(snapshots)
      modifies this`snapshots
      ensures OneRowEach(snapshots)
      ensures id in snapshots
        && snapshots == old(snapshots)[id := SnapshotRow(account, category, asOf, kind, value, source, currency)]
      ensures id in old(snapshots) ==> IsFor(old(snapshots)[id], account, category, asOf)
      ensures id !in old(snapshots) ==> forall other | other in old(snapshots) ::
        !IsFor(old(snapshots)[other], account, category, asOf)
      ensures CardSnapshots(snapshots) ==
        if category == CcOutstanding then CardSnapshots(old(snapshots))[SnapshotKey(account, asOf) := value]
        else CardSnapshots(old(snapshots))
    {
      var row := SnapshotRow(account, category, asOf, kind, value, source, currency);
      if prior :| prior in snapshots && IsFor(snapshots[prior], account, category, asOf) {
        id := prior;
      } else {
        id := NextId(snapshots.Keys);
      }
      RowWritten(snapshots, id, row);
      snapshots := snapshots[id := row];
    }

    method EmitSnapshot(i: nat, now: int) returns (emitted: bool)
      requires OneRowEach(snapshots) && i < |statements|
      modifies this`snapshots
      ensures OneRowEach(snapshots)
      ensures CardSnapshots(snapshots) == EmitCcSnapshot(CardSnapshots(old(snapshots)), statements[i], now)
      ensures emitted <==> statements[i].total.Amount?
    {
      var s := statements[i];
      if !s.total.Amount? { return false; }
      var paid := if s.paidAmount.Some? then s.paidAmount.value else 0;
      var value;
      if s.status == Some(Paid) || s.total.paise <= 0 {
        value := 0;
      } else {
        value := Max(s.total.paise - paid, 0);
      }
      var id := UpsertAccountSnapshot(
        s.account, CcOutstanding, CcCycle.CreatedStart(s.createdAt, now), "liability", value, "cc_statement", "INR");
      emitted := true;
    }

    /** Derives paid amount and status of one statement from scratch, then its snapshot. */
    method RecomputeCcPaymentState(i: nat, unpaidWhenZero: bool, now: int) returns (recomputed: int)
      requires Valid() && i < |statements| && statements[i].total.Amount?
      modifies this`statements, this`snapshots
      ensures Valid() && State() == old(Recompute(State(), i, unpaidWhenZero, now))
      ensures recomputed == old(PaidSum(State(), i, now))
    {
      hide CycleRows, CreditSum, CcCycle.WindowOf, EmitCcSnapshot;
      recomputed := WindowSum(i, now);
      statements := statements[i := statements[i].(paidAmount := Some(recomputed))];
      if recomputed >= statements[i].total.paise {
        if statements[i].status != Some(Paid) {
          statements := statements[i := statements[i].(paidAt := Some(now))];
        }
        statements := statements[i := statements[i].(status := Some(Paid))];
      } else {
        var status := if recomputed > 0 || !unpaidWhenZero then PartiallyPaid else Unpaid;
        statements := statements[i := statements[i].(status := Some(status))];
        statements := statements[i := statements[i].(paidAt := None)];
      }
      assert statements == old(Recompute(State(), i, unpaidWhenZero, now).statements);
      var emitted := EmitSnapshot(i, now);
    }

    method WindowSum(i: nat, now: int) returns (sum: int)
      requires Valid() && i < |statements|
      ensures sum == PaidSum(State(), i, now)
    {
      var rows := CycleRows(statements);
      assert rows[i] in rows;
      sum := QualifyingPaymentCreditSum(rows, rows[i], txns, now);
    }

    method AddTxn(t: Txn)
      modifies this`txns
      ensures State() == old(InsertTxn(State(), t))
    {
      txns := txns + [t];
    }

    method RemoveTxn(id: int)
      modifies this`txns
      ensures State() == old(DeleteTxn(State(), id))
    {
      txns := WithoutTxn(txns, id);
    }

    /** After a credit was committed; true when the latest active bill is now fully paid. */
    method OnPaymentReceived(account: int, now: int) returns (fullyPaid: bool)
      requires Valid()
      modifies this`statements, this`snapshots
      ensures Valid() && State() == old(CheckPaymentReceived(State(), account, now).0)
      ensures fullyPaid == old(CheckPaymentReceived(State(), account, now).1)
    {
      if account !in cards { return false; }
      var i := LatestActiveCycle(statements, account, false);
      if i.None? || !statements[i.value].total.Amount? { return false; }
      var due := statements[i.value].total.paise;
      var paid := RecomputeCcPaymentState(i.value, false, now);
      fullyPaid := paid >= due;
    }

    /** After a payment transaction was deleted. */
    method OnPaymentDeleted(account: int, now: int) returns (paid: Option<int>)
      requires Valid()
      modifies this`statements, this`snapshots
      ensures Valid() && State() == old(RecomputeForAccount(State(), account, now).0)
      ensures paid == old(RecomputeForAccount(State(), account, now).1)
    {
      if account !in cards { return None; }
      var i := LatestActiveCycle(statements, account, true);
      if i.None? || !statements[i.value].total.Amount? { return None; }
      var sum := RecomputeCcPaymentState(i.value, false, now);
      paid := Some(sum);
    }

    method ResyncTracked(i: nat, now: int) returns (recomputed: bool)
      requires Valid() && i < |statements|
      modifies this`statements, this`snapshots
      ensures Valid() && State() == old(Resync(State(), i, now).0) && recomputed == old(Resync(State(), i, now).1)
    {
      if !IsActive(statements[i].status) { return false; }
      if !statements[i].total.Amount? { return false; }
      var sum := RecomputeCcPaymentState(i, true, now);
      recomputed := true;
    }

    method OnMarkedPaid(i: nat, now: int)
      requires Valid() && i < |statements|
      modifies this`statements, this`snapshots
      ensures Valid() && State() == old(MarkPaid(State(), i, now))
    {
      if statements[i].status == Some(Paid) { return; }
      statements := statements[i := statements[i].(status := Some(Paid), paidAt := Some(now))];
      if statements[i].total.Amount? {
        statements := statements[i := statements[i].(paidAmount := Some(statements[i].total.paise))];
      }
      var emitted := EmitSnapshot(i, now);
    }

    /** The user reverted a statement to unpaid. */
    method OnMarkedUnpaid(i: nat, now: int)
      requires Valid() && i < |statements|
      modifies this`statements, this`snapshots
      ensures Valid() && State() == old(MarkUnpaid(State(), i, now))
    {
      if statements[i].status.None? { return; }
      var wasPartial := statements[i].status == Some(PartiallyPaid);
      var status := if wasPartial then PartiallyPaid else Unpaid;
      statements := statements[i := statements[i].(status := Some(status), paidAt := None)];
      if !wasPartial {
        statements := statements[i := statements[i].(paidAmount := Some(0))];
      }
      statements := statements[i := statements[i].(sentOffsets := {}, remindedAt := None)];
      var emitted := EmitSnapshot(i, now);
    }

    /** A statement was parsed anew. */
    method OnReprocessed(i: nat, differs: bool, due: Option<int>, total: TotalDue, now: int)
      requires Valid() && i < |statements|
      modifies this`statements, this`snapshots
      ensures Valid() && State() == old(Reprocess(State(), i, differs, due, total, now))
    {
      if differs {
        statements := statements[i := statements[i].(status := None, paidAmount := Some(0), paidAt := None)];
        statements := statements[i := statements[i].(sentOffsets := {}, remindedAt := None)];
        statements := statements[i := statements[i].(due := due, total := total)];
      }
      var emitted := EmitSnapshot(i, now);
    }

    method StartTracking(i: nat, monthStart: int, now: int) returns (tracked: bool)
      requires Valid() && i < |statements|
      modifies this`statements, this`snapshots
      ensures Valid() && State() == old(InitTracking(State(), i, monthStart, now).0)
      ensures tracked == old(InitTracking(State(), i, monthStart, now).1)
    {
      var s := statements[i];
      if s.due.None? || !s.total.Amount? || s.status.Some? { return false; }
      if s.due.value < monthStart { return false; }
      if s.total.paise <= 0 {
        statements := statements[i := s.(status := Some(Paid), paidAt := Some(now), paidAmount := Some(s.total.paise))];
        var emitted := EmitSnapshot(i, now);
      } else {
        var sum := RecomputeCcPaymentState(i, true, now);
      }
      tracked := true;
    }

    /** One poll: ages, settles or reminds about every latest active statement - if reminders are
        switched on. */
    method CheckAndSendReminders(switchedOn: bool, offsets: seq<int>, today: int, now: int) returns (sent: seq<int>)
      requires Valid()
      modifies this`statements, this`snapshots
      ensures Valid()
      ensures (State(), sent) == if switchedOn then old(Poll(State(), offsets, today, now)) else (old(State()), [])
    {
      sent := [];
      if !switchedOn || offsets == [] { return; }
      hide PollStatement, EmitCcSnapshot, OneRowEach, CardSnapshots;
      var uploads := CollapseToLatest(ActiveStatements(statements));
      ghost var start := State();
      for k := 0 to |uploads|
        invariant Valid()
        invariant (State(), sent) == PollListed(start, uploads[..k], offsets, today, now)
      {
        Sequences.PrefixStep(uploads, k);
        var i := LastRow(statements, ById, uploads[k].id);
        if i.Some? {
          var notified := PollRow(i.value, offsets, today, now);
          if notified { sent := sent + [uploads[k].id]; }
        }
      }
      assert uploads[..|uploads|] == uploads;
    }

    method PollRow(i: nat, offsets: seq<int>, today: int, now: int) returns (notified: bool)
      requires Valid() && i < |statements|
      modifies this`statements, this`snapshots
      ensures Valid()
      ensures
        var p := PollStatement(old(statements)[i], offsets, today, now);
        && statements == old(statements)[i := p.statement]
        && CardSnapshots(snapshots) ==
             (if p.emit then EmitCcSnapshot(CardSnapshots(old(snapshots)), p.statement, now)
               else CardSnapshots(old(snapshots)))
        && notified == p.notify
    {
      hide EmitCcSnapshot, OneRowEach, CardSnapshots;
      notified := false;
      if statements[i].due.None? { return; }
      var due := statements[i].due.value;
      if (statements[i].status == Some(Unpaid) || statements[i].status == Some(PartiallyPaid)) && today > due {
        statements := statements[i := statements[i].(status := Some(Late))];
      }
      if today - due > STALE_DAYS { return; }
      if !statements[i].total.Amount? { return; }
      if statements[i].total.paise <= 0 {
        statements := statements[i := statements[i].(status := Some(Paid))];
        var emitted := EmitSnapshot(i, now);
        return;
      }
      var alreadySent, notifications :=
        SweepSchedule(offsets, statements[i].sentOffsets, statements[i].status == Some(Late), due, today);
      if notifications > 0 {
        statements := statements[i := statements[i].(remindedAt := Some(now))];
        notified := true;
      }
      statements := statements[i := statements[i].(sentOffsets := alreadySent)];
    }

    /** One event of a run. */
    method Handle(e: Event, offsets: seq<int>) returns (sent: seq<int>)
      requires Valid()
      modifies this`statements, this`txns, this`snapshots
      ensures Valid() && (State(), sent) == old(Step(State(), e, offsets))
    {
      hide Recompute, LatestActiveCycle, Poll, MarkPaid, MarkUnpaid, Reprocess, OneRowEach, CardSnapshots;
      sent := [];
      match e {
        case Polling(today, now) => sent := CheckAndSendReminders(true, offsets, today, now);
        case Inserted(t) => AddTxn(t);
        case Deleted(id) => RemoveTxn(id);
        case Received(account, now) => var fullyPaid := OnPaymentReceived(account, now);
        case AccountRecomputed(account, now) => var paid := OnPaymentDeleted(account, now);
        case Resynced(i, now) => if i < |statements| { var recomputed := ResyncTracked(i, now); }
        case Marked(i, now) => if i < |statements| { OnMarkedPaid(i, now); }
        case MarkedUnpaid(i, now) => if i < |statements| { OnMarkedUnpaid(i, now); }
        case Reprocessed(i, differs, due, total, now) =>
          if i < |statements| { OnReprocessed(i, differs, due, total, now); }
        case Tracking(i, monthStart, now) => if i < |statements| { var tracked := StartTracking(i, monthStart, now); }
        case Uploaded(s) => if LastRow(statements, ById, s.id).None? { statements := statements + [s]; }
      }
    }

    /** A whole run on the tables is the run of the ledger, and a statement gets no more reminders
        than the schedule and its restarts allow. */
    method HandleAll(events: seq<Event>, offsets: seq<int>) returns (sent: seq<int>)
      requires Valid()
      modifies this`statements, this`txns, this`snapshots
      ensures Valid() && (State(), sent) == old(Run(State(), events, offsets))
      ensures forall i | 0 <= i < |old(statements)| ::
        multiset(sent)[old(statements)[i].id] <= (Restarts(events, i) + 1) * |set o | o in offsets|
    {
      hide Step, OneRowEach, CardSnapshots;
      ghost var start := State();
      sent := [];
      for k := 0 to |events|
        invariant Valid()
        invariant (State(), sent) == Run(start, events[..k], offsets)
      {
        Sequences.PrefixStep(events, k);
        var more := Handle(events[k], offsets);
        sent := sent + more;
      }
      assert events[..|events|] == events;
      forall i | 0 <= i < |start.statements|
        ensures multiset(sent)[start.statements[i].id] <= (Restarts(events, i) + 1) * |set o | o in offsets|
      {
        RemindersBounded(start, events, offsets, i);
        UnusedAtMost(start.statements[i], offsets);
        OneMoreTime(Restarts(events, i), |set o | o in offsets|);
      }
    }
  }
}
