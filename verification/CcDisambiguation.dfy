/** Which card a bill payment without a mask belongs to. */
module CcDisambiguation {
  import opened Payments
  import PaymentTriggers
  import Sequences
  import opened Wrappers

  /** Candidates are the ids of the bank's credit-card accounts. */
  datatype Query = Query(candidates: seq<int>, amount: int, statements: seq<Statement>)

  datatype Tier = OnlyCard | ByTotalDue | ByOutstanding | BySoleOutstanding

  datatype CardAccount = CardAccount(id: int, bank: string, accountType: string, name: string)

  datatype Candidate = Candidate(id: int, name: string)

  /** What the user is asked: which of these cards the payment of this row belongs to. */
  datatype Question = Question(rowId: int, candidates: seq<Candidate>, amount: int, bank: string)

  /** Nothing to do, an account found, or a prompt to the user listing the candidates. */
  datatype Resolution = Nothing | Assigned(tier: Tier, account: int) | Prompt(candidates: seq<int>)

  function Filter(statements: seq<Statement>, candidates: seq<int>, activeOnly: bool): seq<Statement> {
    if statements == [] then [] else
      var s := statements[|statements| - 1];
      var before := Filter(statements[..|statements| - 1], candidates, activeOnly);
      if s.account in candidates && (!activeOnly || PaymentTriggers.IsActive(s.status)) && s.due.Some?
        && !s.total.Missing?
      then before + [s] else before
  }

  /** Latest active cycle of each candidate. */
  function LatestOpen(q: Query): seq<Statement> { LatestPerAccount(Filter(q.statements, q.candidates, true)) }

  /** Latest statement of each candidate, whatever its status. */
  function LatestStatements(q: Query): seq<Statement> { LatestPerAccount(Filter(q.statements, q.candidates, false)) }

  /** What the statement still owes; none when its total is unreadable. */
  function OutstandingOf(s: Statement): Option<int> {
    if s.total.Amount? then Some(s.total.paise - if s.paidAmount.Some? then s.paidAmount.value else 0) else None
  }

  predicate IsTracked(s: Statement) { s.status.Some? && OutstandingOf(s).Some? }

  function TotalMatches(latest: seq<Statement>, amount: int): seq<int> {
    if latest == [] then [] else
      var s := latest[|latest| - 1];
      var before := TotalMatches(latest[..|latest| - 1], amount);
      if s.total == Amount(amount) then before + [s.account] else before
  }

  function OutstandingMatches(latest: seq<Statement>, amount: int): seq<int> {
    if latest == [] then [] else
      var s := latest[|latest| - 1];
      var before := OutstandingMatches(latest[..|latest| - 1], amount);
      if s.status.Some? && OutstandingOf(s) == Some(amount) then before + [s.account] else before
  }

  function WithOutstanding(latest: seq<Statement>): seq<int> {
    if latest == [] then [] else
      var s := latest[|latest| - 1];
      var before := WithOutstanding(latest[..|latest| - 1]);
      if IsTracked(s) && OutstandingOf(s).value > 0 then before + [s.account] else before
  }

  predicate AllTracked(latest: seq<Statement>) { forall i | 0 <= i < |latest| :: IsTracked(latest[i]) }

  /** Every candidate has a latest statement. */
  predicate AllCovered(q: Query, latest: seq<Statement>) {
    forall i | 0 <= i < |q.candidates| :: LastRow(latest, ByAccount, q.candidates[i]).Some?
  }

  function FindByTotalDue(q: Query): Option<int> {
    if |q.candidates| < 2 then None else
      var matches := TotalMatches(LatestOpen(q), q.amount);
      if |matches| == 1 then Some(matches[0]) else None
  }

  function Resolve(q: Query): Resolution {
    if q.amount <= 0 || q.candidates == [] then Nothing
    else if |q.candidates| == 1 then Assigned(OnlyCard, q.candidates[0])
    else if FindByTotalDue(q).Some? then Assigned(ByTotalDue, FindByTotalDue(q).value)
    else
      var latest := LatestStatements(q);
      if !AllCovered(q, latest) || !AllTracked(latest) then Prompt(q.candidates) else
        var exact, open := OutstandingMatches(latest, q.amount), WithOutstanding(latest);
        if |exact| == 1 then Assigned(ByOutstanding, exact[0])
        else if |open| == 1 && q.amount <= SoleOutstanding(latest, open[0]) then Assigned(BySoleOutstanding, open[0])
        else Prompt(q.candidates)
  }

  function SoleOutstanding(latest: seq<Statement>, account: int): int {
    var j := LastRow(latest, ByAccount, account);
    if j.Some? && OutstandingOf(latest[j.value]).Some? then OutstandingOf(latest[j.value]).value else -1
  }

  // ---------------------------------------------------------------------------
  // The resolver as it runs
  // ---------------------------------------------------------------------------

  /** The bank's credit-card accounts, in table order. */
  function CcCandidates(accounts: seq<CardAccount>, bank: string): seq<Candidate> {
    if accounts == [] then [] else
      var a := accounts[|accounts| - 1];
      CcCandidates(accounts[..|accounts| - 1], bank)
      + if a.bank == bank && a.accountType == "credit_card" then [Candidate(a.id, a.name)] else []
  }

  function IdsOf(candidates: seq<Candidate>): (ids: seq<int>)
    ensures |ids| == |candidates| && forall i | 0 <= i < |ids| :: ids[i] == candidates[i].id
  {
    if candidates == [] then [] else IdsOf(candidates[..|candidates| - 1]) + [candidates[|candidates| - 1].id]
  }

  class PaymentRow {
    const id: int
    const bank: string
    const isCredit: bool
    const emailType: Option<string>
    const amount: Option<int>
    var account: Option<int>

    constructor (id: int, bank: string, isCredit: bool, emailType: Option<string>, amount: Option<int>)
      ensures this.id == id && this.bank == bank && this.isCredit == isCredit
      ensures this.emailType == emailType && this.amount == amount && account == None
    {
      this.id, this.bank, this.isCredit, this.emailType, this.amount := id, bank, isCredit, emailType, amount;
      account := None;
    }
  }

  method FindCcAccountByTotalDue(q: Query) returns (r: Option<int>)
    ensures r == FindByTotalDue(q)
  {
    if |q.candidates| < 2 { return None; }
    var latest := LatestOpen(q);
    var matches := [];
    for i := 0 to |latest|
      invariant matches == TotalMatches(latest[..i], q.amount)
    {
      Sequences.PrefixStep(latest, i);
      if latest[i].total.Amount? && latest[i].total.paise == q.amount {
        matches := matches + [latest[i].account];
      }
    }
    assert latest[..|latest|] == latest;
    r := if |matches| == 1 then Some(matches[0]) else None;
  }

  /** Whether the resolver has anything to do for the row. */
  predicate Unresolved(account: Option<int>, isCredit: bool, emailType: Option<string>, amount: Option<int>) {
    account.None? && isCredit && IsCcPaymentReceived(emailType) && amount.Some?
  }

  /** Assigns an account to a maskless bill-payment row, or returns the question to the user. */
  method ResolveCcPaymentAccount(row: PaymentRow, accounts: seq<CardAccount>, statements: seq<Statement>)
    returns (prompt: Option<Question>)
    modifies row
    ensures !Unresolved(old(row.account), row.isCredit, row.emailType, row.amount) ==>
      prompt == None && row.account == old(row.account)
    ensures Unresolved(old(row.account), row.isCredit, row.emailType, row.amount) ==>
      var candidates := CcCandidates(accounts, row.bank);
      match Resolve(Query(IdsOf(candidates), row.amount.value, statements))
      case Nothing => prompt == None && row.account == None
      case Assigned(_, account) => prompt == None && row.account == Some(account)
      case Prompt(_) =>
        prompt == Some(Question(row.id, candidates, row.amount.value, row.bank)) && row.account == None
  {
    hide IsCcPaymentReceived, LatestPerAccount, CcCandidates;
    prompt := None;
    if row.account.Some? || !row.isCredit || !IsCcPaymentReceived(row.emailType) { return; }
    if row.amount.None? || row.amount.value <= 0 { return; }
    var candidates := CcCandidates(accounts, row.bank);
    if candidates == [] { return; }
    if |candidates| == 1 {
      row.account := Some(candidates[0].id);
      return;
    }
    var q := Query(IdsOf(candidates), row.amount.value, statements);
    var question := Question(row.id, candidates, row.amount.value, row.bank);
    var byTotal := FindCcAccountByTotalDue(q);
    if byTotal.Some? {
      row.account := byTotal;
      return;
    }
    var latest := LatestStatements(q);
    if !AllCovered(q, latest) { return Some(question); }
    var exact, open, hasUntracked := TallyOutstanding(latest, q.amount);
    if !hasUntracked && |exact| == 1 {
      row.account := Some(exact[0]);
      return;
    }
    if !hasUntracked && |open| == 1 && q.amount <= SoleOutstanding(latest, open[0]) {
      row.account := Some(open[0]);
      return;
    }
    prompt := Some(question);
  }

  method TallyOutstanding(
    latest: seq<Statement>, amount: int) returns (exact: seq<int>, open: seq<int>, hasUntracked: bool)
    ensures exact == OutstandingMatches(latest, amount) && open == WithOutstanding(latest)
    ensures hasUntracked <==> !AllTracked(latest)
  {
    exact, open, hasUntracked := [], [], false;
    for i := 0 to |latest|
      invariant exact == OutstandingMatches(latest[..i], amount) && open == WithOutstanding(latest[..i])
      invariant hasUntracked <==> !AllTracked(latest[..i])
    {
      Sequences.PrefixStep(latest, i);
      assert AllTracked(latest[..i + 1]) <==> AllTracked(latest[..i]) && IsTracked(latest[i]);
      if latest[i].status.None? || OutstandingOf(latest[i]).None? {
        hasUntracked := true;
        continue;
      }
      var remaining := OutstandingOf(latest[i]).value;
      if remaining > 0 { open := open + [latest[i].account]; }
      if remaining == amount { exact := exact + [latest[i].account]; }
    }
    assert latest[..|latest|] == latest;
  }

  // ---------------------------------------------------------------------------
  // Attribution never guesses
  // ---------------------------------------------------------------------------

  lemma {:induction false} InTotalMatches(latest: seq<Statement>, amount: int, account: int)
    ensures account in TotalMatches(latest, amount) <==>
      exists i | 0 <= i < |latest| :: latest[i].account == account && latest[i].total == Amount(amount)
  {
    if latest != [] {
      var n := |latest| - 1;
      InTotalMatches(latest[..n], amount, account);
      if i: nat :| i < |latest| && latest[i].account == account && latest[i].total == Amount(amount) {
        assert i < n ==> latest[..n][i] == latest[i];
      }
    }
  }

  lemma {:induction false} InOutstandingMatches(latest: seq<Statement>, amount: int, account: int)
    ensures account in OutstandingMatches(latest, amount) <==>
      exists i | 0 <= i < |latest| ::
        latest[i].account == account && latest[i].status.Some? && OutstandingOf(latest[i]) == Some(amount)
  {
    if latest != [] {
      var n := |latest| - 1;
      InOutstandingMatches(latest[..n], amount, account);
      if i: nat :|
        (i < |latest| && latest[i].account == account && latest[i].status.Some?
         && OutstandingOf(latest[i]) == Some(amount)) {
        assert i < n ==> latest[..n][i] == latest[i];
      }
    }
  }

  lemma {:induction false} InWithOutstanding(latest: seq<Statement>, account: int)
    ensures account in WithOutstanding(latest) <==>
      exists i | 0 <= i < |latest| ::
        latest[i].account == account && IsTracked(latest[i]) && OutstandingOf(latest[i]).value > 0
  {
    if latest != [] {
      var n := |latest| - 1;
      InWithOutstanding(latest[..n], account);
      if i: nat :|
        (i < |latest| && latest[i].account == account && IsTracked(latest[i])
         && OutstandingOf(latest[i]).value > 0) {
        assert i < n ==> latest[..n][i] == latest[i];
      }
    }
  }

  lemma {:induction false} InFilter(
    statements: seq<Statement>, candidates: seq<int>, activeOnly: bool, s: Statement)
    ensures s in Filter(statements, candidates, activeOnly) <==>
      s in statements && s.account in candidates && (activeOnly ==> PaymentTriggers.IsActive(s.status))
        && s.due.Some? && !s.total.Missing?
  {
    if statements != [] {
      var front := statements[..|statements| - 1];
      assert statements == front + [statements[|front|]];
      InFilter(front, candidates, activeOnly, s);
    }
  }

  /** The latest statement of an account among the filtered ones, by its own scan. */
  function Latest(q: Query, account: int, activeOnly: bool): Option<Statement> {
    LatestOf(Filter(q.statements, q.candidates, activeOnly), account)
  }

  lemma {:induction false} LatestIsListed(q: Query, activeOnly: bool, account: int)
    ensures
      var latest := LatestPerAccount(Filter(q.statements, q.candidates, activeOnly));
      && OnePerAccount(latest)
      && (forall i | 0 <= i < |latest| && latest[i].account == account ::
        Latest(q, account, activeOnly) == Some(latest[i]))
      && (Latest(q, account, activeOnly).Some? ==>
            exists i | 0 <= i < |latest| ::
              latest[i].account == account && latest[i] == Latest(q, account, activeOnly).value)
      && (Latest(q, account, activeOnly).Some? ==> account in q.candidates)
  {
    hide LatestPerAccount, Filter;
    var uploads := Filter(q.statements, q.candidates, activeOnly);
    var latest := LatestPerAccount(uploads);
    CollapseIsLatest(uploads, account);
    forall i | 0 <= i < |latest| && latest[i].account == account ensures Get(latest, account) == Some(latest[i]) {
      GetEntry(latest, i);
    }
    var k := LatestLeads(uploads, account);
    if Latest(q, account, activeOnly).Some? {
      assert uploads[k] in uploads;
      InFilter(q.statements, q.candidates, activeOnly, uploads[k]);
    }
  }

  lemma {:induction false} SoleMember(s: seq<int>, x: int)
    requires !Sequences.Repeats(s)
    ensures s == [x] <==> forall y :: y in s <==> y == x
  {
    if forall y :: y in s <==> y == x {
      assert x in s;
      Sequences.SoleElement(s, x);
    }
  }

  lemma {:induction false} OneElement(s: seq<int>)
    ensures |s| == 1 ==> s == [s[0]]
  {
  }

  lemma {:induction false} TotalMatchesApart(latest: seq<Statement>, amount: int)
    requires OnePerAccount(latest)
    ensures !Sequences.Repeats(TotalMatches(latest, amount))
  {
    if latest != [] {
      var front := latest[..|latest| - 1];
      TotalMatchesApart(front, amount);
      InTotalMatches(front, amount, latest[|front|].account);
    }
  }

  lemma {:induction false} OutstandingMatchesApart(latest: seq<Statement>, amount: int)
    requires OnePerAccount(latest)
    ensures !Sequences.Repeats(OutstandingMatches(latest, amount))
  {
    if latest != [] {
      var front := latest[..|latest| - 1];
      OutstandingMatchesApart(front, amount);
      InOutstandingMatches(front, amount, latest[|front|].account);
    }
  }

  lemma {:induction false} WithOutstandingApart(latest: seq<Statement>)
    requires OnePerAccount(latest)
    ensures !Sequences.Repeats(WithOutstanding(latest))
  {
    if latest != [] {
      var front := latest[..|latest| - 1];
      WithOutstandingApart(front);
      InWithOutstanding(front, latest[|front|].account);
    }
  }

  // What the tiers ask of one candidate, by its own latest statement.

  /** Its latest open bill has exactly this total. */
  ghost predicate BillIs(q: Query, account: int) {
    Latest(q, account, true).Some? && Latest(q, account, true).value.total == Amount(q.amount)
  }

  /** Its latest statement is tracked and owes exactly `amount`. */
  ghost predicate Owes(q: Query, account: int, amount: int) {
    var s := Latest(q, account, false);
    s.Some? && s.value.status.Some? && OutstandingOf(s.value) == Some(amount)
  }

  ghost predicate OwesSomething(q: Query, account: int) {
    exists amount :: amount > 0 && Owes(q, account, amount)
  }

  ghost predicate OnlyBillIs(q: Query, a: int) { forall account :: BillIs(q, account) <==> account == a }

  ghost predicate OnlyOwes(q: Query, a: int) { forall account :: Owes(q, account, q.amount) <==> account == a }

  ghost predicate OnlyOwesSomething(q: Query, a: int) { forall account :: OwesSomething(q, account) <==> account == a }

  /** Every candidate's latest statement exists, is tracked, and has a readable total. */
  ghost predicate AllKnown(q: Query) {
    forall account | account in q.candidates ::
      Latest(q, account, false).Some? && IsTracked(Latest(q, account, false).value)
  }

  lemma {:induction false} KnownIsCoveredAndTracked(q: Query)
    ensures AllKnown(q) <==> AllCovered(q, LatestStatements(q)) && AllTracked(LatestStatements(q))
  {
    hide LatestPerAccount, Filter, IsTracked, LatestOf;
    var latest := LatestStatements(q);
    LatestIsListed(q, false, 0);
    forall account
      ensures Get(latest, account) == Latest(q, account, false)
      ensures Latest(q, account, false).Some? ==> account in q.candidates
    {
      LatestIsListed(q, false, account);
      CollapseIsLatest(Filter(q.statements, q.candidates, false), account);
    }
    if AllKnown(q) {
      forall i | 0 <= i < |latest| ensures IsTracked(latest[i]) { GetEntry(latest, i); }
      forall i | 0 <= i < |q.candidates| ensures LastRow(latest, ByAccount, q.candidates[i]).Some? {
        assert Get(latest, q.candidates[i]) == Latest(q, q.candidates[i], false);
      }
    }
    if AllCovered(q, latest) && AllTracked(latest) {
      forall account | account in q.candidates
        ensures Latest(q, account, false).Some? && IsTracked(Latest(q, account, false).value)
      {
        var i :| 0 <= i < |q.candidates| && q.candidates[i] == account;
        assert Get(latest, account) == Latest(q, account, false);
        assert IsTracked(latest[LastRow(latest, ByAccount, account).value]);
      }
    }
  }

  lemma {:induction false} MatchesByTotal(q: Query, a: int)
    ensures TotalMatches(LatestOpen(q), q.amount) == [a] <==> OnlyBillIs(q, a)
  {
    hide LatestPerAccount, Filter, TotalMatches, LatestOf;
    var latest := LatestOpen(q);
    forall account ensures account in TotalMatches(latest, q.amount) <==> BillIs(q, account) {
      LatestIsListed(q, true, account);
      InTotalMatches(latest, q.amount, account);
    }
    LatestIsListed(q, true, a);
    TotalMatchesApart(latest, q.amount);
    SoleMember(TotalMatches(latest, q.amount), a);
  }

  lemma {:induction false} MatchesByOutstanding(q: Query, a: int)
    ensures OutstandingMatches(LatestStatements(q), q.amount) == [a] <==> OnlyOwes(q, a)
  {
    hide LatestPerAccount, Filter, OutstandingMatches, LatestOf, OutstandingOf;
    var latest := LatestStatements(q);
    forall account ensures account in OutstandingMatches(latest, q.amount) <==> Owes(q, account, q.amount) {
      LatestIsListed(q, false, account);
      InOutstandingMatches(latest, q.amount, account);
    }
    LatestIsListed(q, false, a);
    OutstandingMatchesApart(latest, q.amount);
    SoleMember(OutstandingMatches(latest, q.amount), a);
  }

  lemma {:induction false} MatchesBySole(q: Query, a: int)
    ensures WithOutstanding(LatestStatements(q)) == [a] <==> OnlyOwesSomething(q, a)
  {
    hide LatestPerAccount, Filter, WithOutstanding, LatestOf, OutstandingOf;
    var latest := LatestStatements(q);
    forall account ensures account in WithOutstanding(latest) <==> OwesSomething(q, account) {
      LatestIsListed(q, false, account);
      InWithOutstanding(latest, account);
      var s := Latest(q, account, false);
      if s.Some? && IsTracked(s.value) && OutstandingOf(s.value).value > 0 {
        assert Owes(q, account, OutstandingOf(s.value).value);
      }
    }
    LatestIsListed(q, false, a);
    WithOutstandingApart(latest);
    SoleMember(WithOutstanding(latest), a);
  }

  lemma {:induction false} SoleOwed(q: Query, a: int)
    requires Latest(q, a, false).Some? && IsTracked(Latest(q, a, false).value)
    ensures Some(SoleOutstanding(LatestStatements(q), a)) == OutstandingOf(Latest(q, a, false).value)
  {
    hide LatestPerAccount, Filter, LatestOf;
    LatestIsListed(q, false, a);
    CollapseIsLatest(Filter(q.statements, q.candidates, false), a);
  }

  /** Several cards, and an amount to place. */
  ghost predicate Asked(q: Query) { q.amount > 0 && |q.candidates| >= 2 }

  /** A match by total due happens exactly when the assigned card is the only candidate whose
      latest open bill has that total. */
  lemma {:induction false} ByTotalDueExactly(q: Query, a: int)
    ensures Resolve(q) == Assigned(ByTotalDue, a) <==>
      Asked(q) && OnlyBillIs(q, a)
  {
    hide LatestOpen, TotalMatches, AllCovered, AllTracked, BillIs;
    MatchesByTotal(q, a);
  }

  /** A match by outstanding balance happens exactly when no total singles a card out, every
      candidate's latest statement is known, and the assigned card is the only one that owes
      exactly the amount. */
  lemma {:induction false} ByOutstandingExactly(q: Query, a: int)
    ensures Resolve(q) == Assigned(ByOutstanding, a) <==>
      Asked(q) && FindByTotalDue(q).None? && AllKnown(q) && OnlyOwes(q, a)
  {
    hide FindByTotalDue, LatestStatements, OutstandingMatches, WithOutstanding, AllCovered, AllTracked, AllKnown, Owes;
    MatchesByOutstanding(q, a);
    KnownIsCoveredAndTracked(q);
  }

  /** A match on the only card that owes anything happens exactly when neither a total nor an exact
      balance singles one out, every candidate is known, and the card can bear the payment: its
      balance never goes below zero. */
  lemma {:induction false} BySoleOutstandingExactly(q: Query, a: int)
    ensures Resolve(q) == Assigned(BySoleOutstanding, a) <==>
      && Asked(q) && FindByTotalDue(q).None? && AllKnown(q)
      && !(exists b :: OnlyOwes(q, b)) && OnlyOwesSomething(q, a)
      && (exists owed :: Owes(q, a, owed) && owed - q.amount >= 0)
  {
    hide FindByTotalDue, LatestStatements, OutstandingMatches, WithOutstanding, AllCovered, AllTracked, AllKnown;
    hide Latest, OutstandingOf, OnlyOwes;
    var latest := LatestStatements(q);
    forall b ensures OutstandingMatches(latest, q.amount) == [b] <==> OnlyOwes(q, b) {
      MatchesByOutstanding(q, b);
    }
    var exact := OutstandingMatches(latest, q.amount);
    OneElement(exact);
    assert |exact| == 1 ==> OnlyOwes(q, exact[0]);
    OneElement(WithOutstanding(latest));
    MatchesBySole(q, a);
    KnownIsCoveredAndTracked(q);
    if WithOutstanding(latest) == [a] {
      assert OwesSomething(q, a);
      SoleOwed(q, a);
      assert Owes(q, a, SoleOutstanding(latest, a));
    }
  }
}
