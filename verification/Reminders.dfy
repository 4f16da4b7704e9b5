/** Due-date reminders over whole runs of polls and payment events. */
module Reminders {
  import opened Payments
  import opened PaymentTriggers
  import Sequences
  import opened Wrappers

  const STALE_DAYS := 7

  // ---------------------------------------------------------------------------
  // One statement in one poll
  // ---------------------------------------------------------------------------

  datatype Sweep = Sweep(sent: set<int>, notify: bool)

  /** The pass over the schedule: which offsets are used up, and whether a reminder goes out. */
  function SweepOffsets(offsets: seq<int>, sent: set<int>, late: bool, due: int, today: int): Sweep {
    if offsets == [] then Sweep(sent, false) else
      var before := SweepOffsets(offsets[..|offsets| - 1], sent, late, due, today);
      var offset := offsets[|offsets| - 1];
      if offset in before.sent then before
      else if late && offset > 0 then before.(sent := before.sent + {offset})
      else if today >= due - offset then Sweep(before.sent + {offset}, true)
      else before
  }

  method SweepSchedule(offsets: seq<int>, sent: set<int>, late: bool, due: int, today: int)
    returns (alreadySent: set<int>, notifications: nat)
    ensures alreadySent == SweepOffsets(offsets, sent, late, due, today).sent
    ensures notifications == if SweepOffsets(offsets, sent, late, due, today).notify then 1 else 0
  {
    alreadySent, notifications := sent, 0;
    for i := 0 to |offsets|
      invariant alreadySent == SweepOffsets(offsets[..i], sent, late, due, today).sent
      invariant notifications == if SweepOffsets(offsets[..i], sent, late, due, today).notify then 1 else 0
    {
      Sequences.PrefixStep(offsets, i);
      var offset := offsets[i];
      if offset in alreadySent { continue; }
      if late && offset > 0 {
        alreadySent := alreadySent + {offset};
        continue;
      }
      if today >= due - offset {
        alreadySent := alreadySent + {offset};
        if notifications == 0 { notifications := 1; }
      }
    }
    assert offsets[..|offsets|] == offsets;
  }

  datatype Polled = Polled(statement: Statement, emit: bool, notify: bool)

  /** What one poll does to one latest active statement. */
  function PollStatement(s: Statement, offsets: seq<int>, today: int, now: int): Polled {
    if s.due.None? then Polled(s, false, false) else
      var due := s.due.value;
      var aged := if (s.status == Some(Unpaid) || s.status == Some(PartiallyPaid)) && today > due
                  then s.(status := Some(Late)) else s;
      if today - due > STALE_DAYS || !s.total.Amount? then Polled(aged, false, false)
      else if s.total.paise <= 0 then Polled(aged.(status := Some(Paid)), true, false)
      else
        var sweep := SweepOffsets(offsets, s.sentOffsets, aged.status == Some(Late), due, today);
        var marked := aged.(sentOffsets := sweep.sent);
        Polled(if sweep.notify then marked.(remindedAt := Some(now)) else marked, false, sweep.notify)
  }

  // ---------------------------------------------------------------------------
  // One poll over the ledger
  // ---------------------------------------------------------------------------

  function ActiveStatements(statements: seq<Statement>): seq<Statement> {
    if statements == [] then [] else
      var s := statements[|statements| - 1];
      var before := ActiveStatements(statements[..|statements| - 1]);
      if IsActive(s.status) then before + [s] else before
  }

  /** Polls the listed statements in turn; the second result lists the ids reminded about. */
  function PollListed(
    l: Ledger, listed: seq<Statement>, offsets: seq<int>, today: int, now: int): (r: (Ledger, seq<int>))
    ensures |r.0.statements| == |l.statements|
  {
    if listed == [] then (l, []) else
      var (before, sent) := PollListed(l, listed[..|listed| - 1], offsets, today, now);
      var s := listed[|listed| - 1];
      match LastRow(before.statements, ById, s.id)
      case None => (before, sent)
      case Some(i) =>
        var p := PollStatement(before.statements[i], offsets, today, now);
        (before.(statements := before.statements[i := p.statement],
                 snapshots := if p.emit then EmitCcSnapshot(before.snapshots, p.statement, now) else before.snapshots),
         if p.notify then sent + [s.id] else sent)
  }

  /** `check_and_send_reminders` with reminders switched on. */
  function Poll(l: Ledger, offsets: seq<int>, today: int, now: int): (Ledger, seq<int>) {
    if offsets == [] then (l, [])
    else PollListed(l, LatestPerAccount(ActiveStatements(l.statements)), offsets, today, now)
  }

  // ---------------------------------------------------------------------------
  // Laws of one poll
  // ---------------------------------------------------------------------------

  /** Offsets whose day has come, and for a late bill also the advance ones. */
  ghost predicate UsedUp(offset: int, late: bool, due: int, today: int) {
    (late && offset > 0) || today >= due - offset
  }

  /** The pass, read as a set: it uses up exactly the offsets of the schedule whose time has come,
      and a reminder goes out exactly when one of them is new and not an advance one come late. */
  lemma {:induction false} SweepExact(offsets: seq<int>, sent: set<int>, late: bool, due: int, today: int)
    ensures
      var r := SweepOffsets(offsets, sent, late, due, today);
      && (forall o :: o in r.sent <==> o in sent || (o in offsets && UsedUp(o, late, due, today)))
      && (r.notify <==> exists o :: o in offsets && o !in sent && today >= due - o && !(late && o > 0))
  {
    if offsets != [] {
      var front := offsets[..|offsets| - 1];
      SweepExact(front, sent, late, due, today);
      assert offsets == front + [offsets[|front|]];
    }
  }

  /** Whether a poll on `today` finds the bill late, or makes it so. */
  predicate LateOn(s: Statement, today: int)
    requires s.due.Some?
  {
    s.status == Some(Late) || ((s.status == Some(Unpaid) || s.status == Some(PartiallyPaid)) && today > s.due.value)
  }

  /** A bill the schedule applies to: at most seven days past due, with something owed. */
  predicate Due(s: Statement, today: int) {
    s.due.Some? && today - s.due.value <= STALE_DAYS && s.total.Amount? && s.total.paise > 0
  }

  /** One statement in one poll, exactly: which offsets it uses up, when a reminder goes out, and
      how the status moves. A bill with nothing owed becomes paid, without a paid-at time. */
  lemma {:induction false} PollStatementLaws(s: Statement, offsets: seq<int>, today: int, now: int)
    ensures
      var p := PollStatement(s, offsets, today, now);
      && SameBill(s, p.statement) && p.statement.paidAmount == s.paidAmount && p.statement.paidAt == s.paidAt
      && (forall o :: o in p.statement.sentOffsets <==>
            o in s.sentOffsets || (Due(s, today) && o in offsets && UsedUp(o, LateOn(s, today), s.due.value, today)))
      && (p.notify <==> Due(s, today) && exists o ::
            o in offsets && o !in s.sentOffsets && today >= s.due.value - o && !(LateOn(s, today) && o > 0))
      && (p.emit <==> s.due.Some? && today - s.due.value <= STALE_DAYS && s.total.Amount? && s.total.paise <= 0)
      && p.statement.remindedAt == (if p.notify then Some(now) else s.remindedAt)
      && p.statement.status ==
           if p.emit then Some(Paid) else if s.due.Some? && LateOn(s, today) then Some(Late) else s.status
  {
    if s.due.Some? {
      SweepExact(offsets, s.sentOffsets, LateOn(s, today), s.due.value, today);
    }
  }

  /** So offsets are only ever added, they come from the schedule, and a reminder uses one up. */
  lemma {:induction false} PollUsesOffsets(s: Statement, offsets: seq<int>, today: int, now: int)
    ensures
      var p := PollStatement(s, offsets, today, now);
      && SameBill(s, p.statement)
      && s.sentOffsets <= p.statement.sentOffsets
      && (p.notify ==> exists o :: o in offsets && o in p.statement.sentOffsets && o !in s.sentOffsets)
      && (p.notify ==> s.due.Some? && today - s.due.value <= STALE_DAYS)
  {
    PollStatementLaws(s, offsets, today, now);
    hide PollStatement;
    var p := PollStatement(s, offsets, today, now);
    forall o | o in s.sentOffsets ensures o in p.statement.sentOffsets { }
    if p.notify {
      var o :| o in offsets && o !in s.sentOffsets && today >= s.due.value - o && !(LateOn(s, today) && o > 0);
      assert UsedUp(o, LateOn(s, today), s.due.value, today);
      assert o in p.statement.sentOffsets;
    }
  }

  lemma {:induction false} ActiveRow(statements: seq<Statement>, s: Statement)
    ensures s in ActiveStatements(statements) <==> s in statements && IsActive(s.status)
  {
    if statements != [] {
      var front := statements[..|statements| - 1];
      assert statements == front + [statements[|front|]];
      ActiveRow(front, s);
    }
  }

  lemma {:induction false} LatestIsUpload(uploads: seq<Statement>, i: nat)
    requires i < |LatestPerAccount(uploads)|
    ensures LatestPerAccount(uploads)[i] in uploads
  {
    var front := uploads[..|uploads| - 1];
    assert uploads == front + [uploads[|front|]];
    if i < |LatestPerAccount(front)| && LatestPerAccount(uploads)[i] == LatestPerAccount(front)[i] {
      LatestIsUpload(front, i);
    }
  }

  ghost predicate Lists(listed: seq<Statement>, id: int) {
    exists k | 0 <= k < |listed| :: listed[k].id == id
  }

  /** Each listed statement is polled exactly once, from its state at the start of the poll. */
  lemma {:induction false} PollListedAt(
    l: Ledger, listed: seq<Statement>, offsets: seq<int>, today: int, now: int, i: nat)
    requires DistinctStatements(l.statements) && i < |l.statements|
    requires forall a, b :: 0 <= a < b < |listed| ==> listed[a].id != listed[b].id
    ensures
      var (after, sent) := PollListed(l, listed, offsets, today, now);
      var s, p := l.statements[i], PollStatement(l.statements[i], offsets, today, now);
      && after.statements[i] == (if Lists(listed, s.id) then p.statement else s)
      && multiset(sent)[s.id] == (if Lists(listed, s.id) && p.notify then 1 else 0)
      && after.txns == l.txns && after.cards == l.cards
  {
    hide PollStatement, PollListed, Lists, DistinctStatements;
    var id := l.statements[i].id;
    if listed != [] {
      PollListedAt(l, listed[..|listed| - 1], offsets, today, now, i);
      ListsLast(listed, id);
      PollLast(l, listed, offsets, today, now, i);
    } else {
      assert !Lists([], id) && PollListed(l, [], offsets, today, now) == (l, []) by {
        NothingListed(l, offsets, today, now, id);
      }
    }
  }

  /** What the last listed statement's turn does to one row. */
  lemma {:induction false} PollLast(
    l: Ledger, listed: seq<Statement>, offsets: seq<int>, today: int, now: int, i: nat)
    requires DistinctStatements(l.statements) && i < |l.statements| && listed != []
    ensures
      var last, id := listed[|listed| - 1], l.statements[i].id;
      var (before, sent) := PollListed(l, listed[..|listed| - 1], offsets, today, now);
      var (after, more) := PollListed(l, listed, offsets, today, now);
      var p := PollStatement(before.statements[i], offsets, today, now);
      && after.txns == before.txns && after.cards == before.cards
      && after.statements[i] == (if last.id == id then p.statement else before.statements[i])
      && multiset(more)[id] == multiset(sent)[id] + if last.id == id && p.notify then 1 else 0
  {
    hide PollStatement, EmitCcSnapshot;
    var n := |listed| - 1;
    PollKeepsIds(l, listed[..n], offsets, today, now);
    SameLastRow(PollListed(l, listed[..n], offsets, today, now).0.statements, l.statements, ById, listed[n].id);
    if listed[n].id == l.statements[i].id { IndexOfOwn(l.statements, i); }
  }

  lemma {:induction false} NothingListed(l: Ledger, offsets: seq<int>, today: int, now: int, id: int)
    ensures !Lists([], id) && PollListed(l, [], offsets, today, now) == (l, [])
  {
  }

  lemma {:induction false} IndexOfOwn(statements: seq<Statement>, i: nat)
    requires DistinctStatements(statements) && i < |statements|
    ensures LastRow(statements, ById, statements[i].id) == Some(i)
  {
  }

  lemma {:induction false} ListsLast(listed: seq<Statement>, id: int)
    requires listed != []
    requires forall a, b :: 0 <= a < b < |listed| ==> listed[a].id != listed[b].id
    ensures Lists(listed, id) <==> Lists(listed[..|listed| - 1], id) || listed[|listed| - 1].id == id
    ensures listed[|listed| - 1].id == id ==> !Lists(listed[..|listed| - 1], id)
  {
    var front := listed[..|listed| - 1];
    if k: nat :| k < |listed| && listed[k].id == id {
      if k < |front| { assert front[k].id == id; }
    }
  }

  lemma {:induction false} PollKeepsIds(l: Ledger, listed: seq<Statement>, offsets: seq<int>, today: int, now: int)
    ensures
      var after := PollListed(l, listed, offsets, today, now).0;
      forall k | 0 <= k < |l.statements| :: SameBill(l.statements[k], after.statements[k])
  {
    if listed != [] {
      var n := |listed| - 1;
      PollKeepsIds(l, listed[..n], offsets, today, now);
      var before := PollListed(l, listed[..n], offsets, today, now).0;
      var j := LastRow(before.statements, ById, listed[n].id);
      if j.Some? { PollUsesOffsets(before.statements[j.value], offsets, today, now); }
    }
  }

  /** The statements a poll looks at. */
  function Remindable(l: Ledger): seq<Statement> { LatestPerAccount(ActiveStatements(l.statements)) }

  lemma {:induction false} ListedDistinct(l: Ledger)
    requires DistinctStatements(l.statements)
    ensures forall a, b :: 0 <= a < b < |Remindable(l)| ==> Remindable(l)[a].id != Remindable(l)[b].id
    ensures forall a | 0 <= a < |Remindable(l)| :: Remindable(l)[a] in l.statements && IsActive(Remindable(l)[a].status)
  {
    var active, listed := ActiveStatements(l.statements), Remindable(l);
    CollapseIsLatest(active, 0);
    forall a | 0 <= a < |listed| ensures listed[a] in l.statements && IsActive(listed[a].status) {
      LatestIsUpload(active, a);
      ActiveRow(l.statements, listed[a]);
    }
    forall a, b | 0 <= a < b < |listed| ensures listed[a].id != listed[b].id {
      var i :| 0 <= i < |l.statements| && l.statements[i] == listed[a];
      var j :| 0 <= j < |l.statements| && l.statements[j] == listed[b];
    }
  }

  /** Offsets of the schedule a statement has not used up. */
  ghost function Unused(s: Statement, offsets: seq<int>): set<int> {
    (set o | o in offsets) - s.sentOffsets
  }

  /** One poll reminds about a statement at most once, and then uses up an offset for it; a paid
      statement, or one more than seven days past due, is never reminded about. */
  lemma {:induction false} PollLaws(l: Ledger, offsets: seq<int>, today: int, now: int, i: nat)
    requires DistinctStatements(l.statements) && i < |l.statements|
    ensures
      var (after, sent) := Poll(l, offsets, today, now);
      var s, t := l.statements[i], after.statements[i];
      && |after.statements| == |l.statements| && SameBill(s, t)
      && s.sentOffsets <= t.sentOffsets
      && multiset(sent)[s.id] + |Unused(t, offsets)| <= |Unused(s, offsets)|
      && multiset(sent)[s.id] <= 1
      && (s.status == Some(Paid) ==> t == s && multiset(sent)[s.id] == 0)
      && (s.due.Some? && today - s.due.value > STALE_DAYS ==> multiset(sent)[s.id] == 0)
  {
    var s := l.statements[i];
    if offsets != [] {
      ListedDistinct(l);
      PollListedAt(l, Remindable(l), offsets, today, now, i);
      PollKeepsIds(l, Remindable(l), offsets, today, now);
      PollUsesOffsets(s, offsets, today, now);
      var p := PollStatement(s, offsets, today, now);
      UnusedShrinks(s, p.statement, offsets, p.notify);
      if Lists(Remindable(l), s.id) {
        var k :| 0 <= k < |Remindable(l)| && Remindable(l)[k].id == s.id;
        var j :| 0 <= j < |l.statements| && l.statements[j] == Remindable(l)[k];
        assert l.statements[j] == s;
      }
    }
  }

  /** A part payment is also forgotten by reverting a bill that a poll has turned late: the poll keeps
      the amount, the revert does not. */
  lemma {:induction false} RevertAfterLatePoll(
    l: Ledger, offsets: seq<int>, today: int, now: int, later: int, i: nat)
    requires DistinctStatements(l.statements) && i < |l.statements| && offsets != []
    requires l.statements[i] in Remindable(l) && l.statements[i].status == Some(PartiallyPaid)
    requires l.statements[i].due.Some? && l.statements[i].due.value < today
    ensures
      var polled := Poll(l, offsets, today, now).0;
      && |polled.statements| == |l.statements|
      && polled.statements[i].paidAmount == l.statements[i].paidAmount
      && MarkUnpaid(polled, i, later).statements[i].paidAmount == Some(0)
  {
    hide PollStatement, PollListed, EmitCcSnapshot, LatestPerAccount, ActiveStatements, DistinctStatements;
    var s := l.statements[i];
    ListedDistinct(l);
    assert Lists(Remindable(l), s.id) by {
      var k :| 0 <= k < |Remindable(l)| && Remindable(l)[k] == s;
    }
    PollListedAt(l, Remindable(l), offsets, today, now, i);
    PastDueReadsLate(s, offsets, today, now);
  }

  lemma {:induction false} PastDueReadsLate(s: Statement, offsets: seq<int>, today: int, now: int)
    requires s.status == Some(PartiallyPaid) && s.due.Some? && s.due.value < today
    ensures
      var t := PollStatement(s, offsets, today, now).statement;
      t.paidAmount == s.paidAmount && t.status in {Some(Late), Some(Paid)}
  {
    hide SweepOffsets;
  }

  lemma {:induction false} UnusedShrinks(s: Statement, t: Statement, offsets: seq<int>, strictly: bool)
    requires s.sentOffsets <= t.sentOffsets
    requires strictly ==> exists o :: o in offsets && o in t.sentOffsets && o !in s.sentOffsets
    ensures |Unused(t, offsets)| + (if strictly then 1 else 0) <= |Unused(s, offsets)|
  {
    var a, b := Unused(t, offsets), Unused(s, offsets);
    assert a <= b;
    SubsetSize(a, b);
    if strictly {
      var o :| o in offsets && o in t.sentOffsets && o !in s.sentOffsets;
      assert a <= b - {o} && o in b;
      SubsetSize(a, b - {o});
    }
  }

  lemma {:induction false} SubsetSize<T>(a: set<T>, b: set<T>)
    requires a <= b
    ensures |a| <= |b|
  {
    if a != {} {
      var x :| x in a;
      SubsetSize(a - {x}, b - {x});
    }
  }

  // ---------------------------------------------------------------------------
  // Whole runs
  // ---------------------------------------------------------------------------

  datatype Event =
    | Polling(today: int, now: int)
    | Inserted(txn: Txn)
    | Deleted(txnId: int)
    | Received(account: int, now: int)
    | AccountRecomputed(account: int, now: int)
    | Resynced(statement: nat, now: int)
    | Marked(statement: nat, now: int)
    | MarkedUnpaid(statement: nat, now: int)
    | Reprocessed(statement: nat, differs: bool, due: Option<int>, total: TotalDue, now: int)
    | Tracking(statement: nat, monthStart: int, now: int)
    | Uploaded(upload: Statement)

  /** One event; an event about a row that does not exist does nothing. */
  function Step(l: Ledger, e: Event, offsets: seq<int>): (Ledger, seq<int>) {
    match e
    case Polling(today, now) => Poll(l, offsets, today, now)
    case Inserted(t) => (InsertTxn(l, t), [])
    case Deleted(id) => (DeleteTxn(l, id), [])
    case Received(account, now) => (CheckPaymentReceived(l, account, now).0, [])
    case AccountRecomputed(account, now) => (RecomputeForAccount(l, account, now).0, [])
    case Resynced(i, now) => (if i < |l.statements| then Resync(l, i, now).0 else l, [])
    case Marked(i, now) => (if i < |l.statements| then MarkPaid(l, i, now) else l, [])
    case MarkedUnpaid(i, now) => (if i < |l.statements| then MarkUnpaid(l, i, now) else l, [])
    case Reprocessed(i, differs, due, total, now) =>
      (if i < |l.statements| then Reprocess(l, i, differs, due, total, now) else l, [])
    case Tracking(i, monthStart, now) => (if i < |l.statements| then InitTracking(l, i, monthStart, now).0 else l, [])
    case Uploaded(s) =>
      (if LastRow(l.statements, ById, s.id).None? then l.(statements := l.statements + [s]) else l, [])
  }

  /** A run of events; the second result lists every reminder sent, by statement id. */
  function Run(l: Ledger, events: seq<Event>, offsets: seq<int>): (Ledger, seq<int>) {
    if events == [] then (l, []) else
      var (before, sent) := Run(l, events[..|events| - 1], offsets);
      var (after, more) := Step(before, events[|events| - 1], offsets);
      (after, sent + more)
  }

  /** The events that let a statement's reminders start over. */
  predicate StartsOver(e: Event, i: nat) {
    (e.MarkedUnpaid? || e.Reprocessed?) && e.statement == i
  }

  function Restarts(events: seq<Event>, i: nat): nat {
    if events == [] then 0 else
      Restarts(events[..|events| - 1], i) + if StartsOver(events[|events| - 1], i) then 1 else 0
  }

  ghost predicate SameRow(a: Statement, b: Statement) {
    a.id == b.id && a.account == b.account && a.createdAt == b.createdAt
  }

  /** Statements stay the same rows; their used offsets stay too, or are cleared by a restart. */
  ghost predicate KeepsSchedule(a: Ledger, b: Ledger, e: Event) {
    |a.statements| <= |b.statements| && forall k | 0 <= k < |a.statements| ::
      && SameRow(a.statements[k], b.statements[k])
      && (b.statements[k].sentOffsets == a.statements[k].sentOffsets
          || (StartsOver(e, k) && b.statements[k].sentOffsets == {}))
  }

  lemma {:induction false} RecomputeKeepsSchedule(l: Ledger, i: nat, unpaidWhenZero: bool, now: int)
    requires i < |l.statements| && l.statements[i].total.Amount?
    ensures
      var after := Recompute(l, i, unpaidWhenZero, now).statements;
      && |after| == |l.statements|
      && forall k | 0 <= k < |after| ::
          SameRow(l.statements[k], after[k]) && after[k].sentOffsets == l.statements[k].sentOffsets
  {
    hide PaidSum, EmitCcSnapshot;
  }

  lemma {:induction false} StepKeepsSchedule(l: Ledger, e: Event, offsets: seq<int>)
    requires !e.Polling?
    ensures KeepsSchedule(l, Step(l, e, offsets).0, e) && Step(l, e, offsets).1 == []
  {
    hide Recompute, LatestActiveCycle, PaidSum, Poll, EmitCcSnapshot;
    forall i: nat, flag, now | i < |l.statements| && l.statements[i].total.Amount?
      ensures |Recompute(l, i, flag, now).statements| == |l.statements|
      ensures forall k | 0 <= k < |l.statements| ::
        SameRow(l.statements[k], Recompute(l, i, flag, now).statements[k])
        && Recompute(l, i, flag, now).statements[k].sentOffsets == l.statements[k].sentOffsets
    {
      RecomputeKeepsSchedule(l, i, flag, now);
    }
  }

  lemma {:induction false} PollKeepsRows(l: Ledger, offsets: seq<int>, today: int, now: int)
    requires DistinctStatements(l.statements)
    ensures
      var after := Poll(l, offsets, today, now).0.statements;
      |after| == |l.statements| && forall k | 0 <= k < |after| :: SameBill(l.statements[k], after[k])
  {
    PollLength(l, offsets, today, now);
    forall k | 0 <= k < |l.statements| ensures SameBill(l.statements[k], Poll(l, offsets, today, now).0.statements[k]) {
      PollLaws(l, offsets, today, now, k);
    }
  }

  lemma {:induction false} StepKeepsDistinct(l: Ledger, e: Event, offsets: seq<int>)
    requires DistinctStatements(l.statements)
    ensures DistinctStatements(Step(l, e, offsets).0.statements)
  {
    hide Recompute, LatestActiveCycle, Poll, CheckPaymentReceived, RecomputeForAccount, Resync, MarkPaid;
    hide MarkUnpaid, Reprocess, InitTracking;
    match e {
      case Polling(today, now) => PollKeepsRows(l, offsets, today, now);
      case Uploaded(s) =>
      case _ =>
        StepKeepsSchedule(l, e, offsets);
        StepKeepsLength(l, e, offsets);
    }
  }

  lemma {:induction false} PollLength(l: Ledger, offsets: seq<int>, today: int, now: int)
    ensures |Poll(l, offsets, today, now).0.statements| == |l.statements|
  {
  }

  lemma {:induction false} StepKeepsLength(l: Ledger, e: Event, offsets: seq<int>)
    requires !e.Uploaded?
    ensures |Step(l, e, offsets).0.statements| == |l.statements|
  {
    hide PaidSum, LatestActiveCycle, EmitCcSnapshot, Poll;
    if e.Polling? { PollLength(l, offsets, e.today, e.now); }
  }

  lemma {:induction false} UnusedAtMost(s: Statement, offsets: seq<int>)
    ensures |Unused(s, offsets)| <= |set o | o in offsets|
  {
    SubsetSize(Unused(s, offsets), set o | o in offsets);
  }

  /** Reminders are bounded over whole runs. Whatever polls, payments, deletions, marks and uploads
      happen, a statement gets at most one reminder per poll, and over the run at most as many as
      the schedule has offsets it had not used - and once more the whole schedule for each time it
      was reverted to unpaid or parsed anew. Between those, its used offsets only grow. */
  lemma {:induction false} RemindersBounded(l: Ledger, events: seq<Event>, offsets: seq<int>, i: nat)
    requires DistinctStatements(l.statements) && i < |l.statements|
    ensures
      var (after, sent) := Run(l, events, offsets);
      && DistinctStatements(after.statements) && i < |after.statements|
      && SameRow(l.statements[i], after.statements[i])
      && (Restarts(events, i) == 0 ==> l.statements[i].sentOffsets <= after.statements[i].sentOffsets)
      && multiset(sent)[l.statements[i].id] + |Unused(after.statements[i], offsets)|
         <= |Unused(l.statements[i], offsets)| + Restarts(events, i) * |set o | o in offsets|
  {
    if events != [] {
      var front, e := events[..|events| - 1], events[|events| - 1];
      RemindersBounded(l, front, offsets, i);
      var before := Run(l, front, offsets).0;
      hide Run;
      StepKeepsDistinct(before, e, offsets);
      StepBounded(before, e, offsets, i);
      hide Step, DistinctStatements, StartsOver;
      RunStep(l, events, offsets);
      RestartsStep(events, i, |set o | o in offsets|);
    }
  }

  lemma {:induction false} RestartsStep(events: seq<Event>, i: nat, n: nat)
    requires events != []
    ensures Restarts(events, i) * n ==
      Restarts(events[..|events| - 1], i) * n + if StartsOver(events[|events| - 1], i) then n else 0
  {
    var before := Restarts(events[..|events| - 1], i);
    assert Restarts(events, i) == before + if StartsOver(events[|events| - 1], i) then 1 else 0;
    hide Restarts, StartsOver;
    OneMoreTime(before, n);
  }

  lemma {:induction false} OneMoreTime(times: nat, n: nat)
    ensures (times + 1) * n == times * n + n
  {
  }

  lemma {:induction false} StepBounded(l: Ledger, e: Event, offsets: seq<int>, i: nat)
    requires DistinctStatements(l.statements) && i < |l.statements|
    ensures
      var (after, sent) := Step(l, e, offsets);
      && i < |after.statements| && SameRow(l.statements[i], after.statements[i])
      && (StartsOver(e, i) || l.statements[i].sentOffsets <= after.statements[i].sentOffsets)
      && multiset(sent)[l.statements[i].id] + |Unused(after.statements[i], offsets)|
         <= |Unused(l.statements[i], offsets)| + if StartsOver(e, i) then |set o | o in offsets| else 0
  {
    if e.Polling? {
      PollLaws(l, offsets, e.today, e.now, i);
    } else {
      StepKeepsSchedule(l, e, offsets);
      UnusedAtMost(Step(l, e, offsets).0.statements[i], offsets);
    }
  }

  lemma {:induction false} RunStep(l: Ledger, events: seq<Event>, offsets: seq<int>)
    requires events != []
    ensures
      var front := Run(l, events[..|events| - 1], offsets);
      var last := Step(front.0, events[|events| - 1], offsets);
      Run(l, events, offsets) == (last.0, front.1 + last.1)
  {
  }
}
