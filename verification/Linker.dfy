/** Attribution of transactions to accounts and cards by mask, bank and account type. */
module Linker {
  import opened InvestmentTransactions
  import opened Masks
  import opened Occurrences
  import Sequences
  import Text
  import opened Wrappers

  const MIN_MASK_DIGITS := 3

  datatype Account = Account(id: int, bank: string, accountType: string, number: Option<string>)

  datatype Card = Card(id: int, account: int, mask: Option<string>)

  datatype CardEntry = CardEntry(mask: string, account: int, card: int)

  datatype AccountEntry = AccountEntry(mask: string, account: int)

  /** Lookup tables of one batch, by normalized bank; the last one by account. */
  datatype Context = Context(
    cards: map<string, seq<CardEntry>>,
    numbers: map<string, seq<AccountEntry>>,
    accounts: map<string, seq<int>>,
    types: map<int, string>)

  function BankKey(bank: string): string { Text.Lower(Text.Strip(bank)) }

  predicate Usable(mask: string) { TrailingDigits(mask) >= MIN_MASK_DIGITS }

  // ---------------------------------------------------------------------------
  // Building the tables
  // ---------------------------------------------------------------------------

  function AccountsOf(accounts: seq<Account>, bank: string): seq<int> {
    if accounts == [] then [] else
      var a := accounts[|accounts| - 1];
      var before := AccountsOf(accounts[..|accounts| - 1], bank);
      if BankKey(a.bank) == bank then before + [a.id] else before
  }

  function NumbersOf(accounts: seq<Account>, bank: string): seq<AccountEntry> {
    if accounts == [] then [] else
      var a := accounts[|accounts| - 1];
      var before := NumbersOf(accounts[..|accounts| - 1], bank);
      if BankKey(a.bank) == bank && Normalized(a.number) != ""
      then before + [AccountEntry(Normalized(a.number), a.id)] else before
  }

  function TypesOf(accounts: seq<Account>): map<int, string> {
    if accounts == [] then map[] else
      var a := accounts[|accounts| - 1];
      var before := TypesOf(accounts[..|accounts| - 1]);
      if a.accountType != "" then before[a.id := a.accountType] else before
  }

  /** The first account row with this id. */
  function Owner(accounts: seq<Account>, id: int): (r: Option<Account>)
    ensures r.Some? ==> r.value in accounts && r.value.id == id
  {
    if accounts == [] then None
    else if accounts[0].id == id then Some(accounts[0])
    else Owner(accounts[1..], id)
  }

  function CardsOf(accounts: seq<Account>, cards: seq<Card>, bank: string): seq<CardEntry> {
    if cards == [] then [] else
      var c := cards[|cards| - 1];
      var before := CardsOf(accounts, cards[..|cards| - 1], bank);
      var owner := Owner(accounts, c.account);
      if Normalized(c.mask) != "" && owner.Some? && BankKey(owner.value.bank) == bank
      then before + [CardEntry(Normalized(c.mask), c.account, c.id)] else before
  }

  ghost predicate Describes(ctx: Context, accounts: seq<Account>, cards: seq<Card>) {
    && (forall bank :: Lookup(ctx.accounts, bank, []) == AccountsOf(accounts, bank))
    && (forall bank :: Lookup(ctx.numbers, bank, []) == NumbersOf(accounts, bank))
    && (forall bank :: Lookup(ctx.cards, bank, []) == CardsOf(accounts, cards, bank))
    && ctx.types == TypesOf(accounts)
  }

  function Append<V>(m: map<string, seq<V>>, bank: string, v: V): map<string, seq<V>> {
    m[bank := Lookup(m, bank, []) + [v]]
  }

  /** The tables after the accounts seen so far, before any card. */
  ghost predicate Accounted(ctx: Context, accounts: seq<Account>) {
    && (forall bank :: Lookup(ctx.accounts, bank, []) == AccountsOf(accounts, bank))
    && (forall bank :: Lookup(ctx.numbers, bank, []) == NumbersOf(accounts, bank))
    && ctx.types == TypesOf(accounts) && ctx.cards == map[]
  }

  lemma {:induction false} AccountStep(seen: seq<Account>, a: Account, bank: string)
    ensures AccountsOf(seen + [a], bank) == AccountsOf(seen, bank) + if BankKey(a.bank) == bank then [a.id] else []
    ensures
      NumbersOf(seen + [a], bank) == NumbersOf(seen, bank)
        + if BankKey(a.bank) == bank && Normalized(a.number) != ""
          then [AccountEntry(Normalized(a.number), a.id)] else []
    ensures TypesOf(seen + [a])
      == if a.accountType != "" then TypesOf(seen)[a.id := a.accountType] else TypesOf(seen)
  {
    hide BankKey, Normalized;
    assert (seen + [a])[..|seen|] == seen;
  }

  lemma {:induction false} AppendAt<V>(m: map<string, seq<V>>, bank: string, v: V, b: string)
    ensures Lookup(Append(m, bank, v), b, []) == Lookup(m, b, []) + if b == bank then [v] else []
  {
  }

  method AddAccount(ctx: Context, ghost seen: seq<Account>, a: Account) returns (r: Context)
    requires Accounted(ctx, seen)
    ensures Accounted(r, seen + [a])
  {
    hide BankKey, Normalized, Append, AccountsOf, NumbersOf, TypesOf;
    var bank, stored := BankKey(a.bank), Normalized(a.number);
    r := ctx.(accounts := Append(ctx.accounts, bank, a.id));
    if a.accountType != "" { r := r.(types := ctx.types[a.id := a.accountType]); }
    if stored != "" { r := r.(numbers := Append(ctx.numbers, bank, AccountEntry(stored, a.id))); }
    AccountStep(seen, a, bank);
    forall b
      ensures Lookup(r.accounts, b, []) == AccountsOf(seen + [a], b)
      ensures Lookup(r.numbers, b, []) == NumbersOf(seen + [a], b)
    {
      AccountStep(seen, a, b);
      AppendAt(ctx.accounts, bank, a.id, b);
      AppendAt(ctx.numbers, bank, AccountEntry(stored, a.id), b);
      assert Lookup(ctx.accounts, b, []) == AccountsOf(seen, b);
      assert Lookup(ctx.numbers, b, []) == NumbersOf(seen, b);
    }
  }

  method BuildLinkContext(accounts: seq<Account>, cards: seq<Card>) returns (ctx: Context)
    ensures Describes(ctx, accounts, cards)
  {
    ctx := Context(map[], map[], map[], map[]);
    for i := 0 to |accounts|
      invariant Accounted(ctx, accounts[..i])
    {
      hide Accounted;
      Sequences.PrefixStep(accounts, i);
      ctx := AddAccount(ctx, accounts[..i], accounts[i]);
    }
    assert accounts[..|accounts|] == accounts;
    ctx := AddCards(ctx, accounts, cards);
  }

  method AddCards(ctx: Context, accounts: seq<Account>, cards: seq<Card>) returns (r: Context)
    requires ctx.cards == map[]
    ensures r == ctx.(cards := r.cards)
    ensures forall bank :: Lookup(r.cards, bank, []) == CardsOf(accounts, cards, bank)
  {
    hide BankKey, Normalized;
    r := ctx;
    for i := 0 to |cards|
      invariant r == ctx.(cards := r.cards)
      invariant forall bank :: Lookup(r.cards, bank, []) == CardsOf(accounts, cards[..i], bank)
    {
      Sequences.PrefixStep(cards, i);
      var c := cards[i];
      var stored := Normalized(c.mask);
      if stored == "" { continue; }
      var owner := Owner(accounts, c.account);
      if owner.None? { continue; }
      r := r.(cards := Append(r.cards, BankKey(owner.value.bank), CardEntry(stored, c.account, c.id)));
    }
    assert cards[..|cards|] == cards;
  }

  // ---------------------------------------------------------------------------
  // The decision for one transaction
  // ---------------------------------------------------------------------------

  datatype Facts = Facts(bank: string, cardMask: Option<string>, accountMask: Option<string>, emailType: Option<string>)

  datatype Tier = ByCard | ByCardNumber | ByAccountNumber | ByBank

  datatype Decision = Unlinked | Linked(tier: Tier, account: int, card: Option<int>)

  function MatchingCards(entries: seq<CardEntry>, mask: string): seq<CardEntry> {
    if entries == [] then [] else
      var e := entries[|entries| - 1];
      var before := MatchingCards(entries[..|entries| - 1], mask);
      if Matches(mask, e.mask) then before + [e] else before
  }

  function MatchingNumbers(entries: seq<AccountEntry>, mask: string): seq<AccountEntry> {
    if entries == [] then [] else
      var e := entries[|entries| - 1];
      var before := MatchingNumbers(entries[..|entries| - 1], mask);
      if Matches(mask, e.mask) then before + [e] else before
  }

  function OfType(ids: seq<int>, types: map<int, string>, expected: string): seq<int> {
    if ids == [] then [] else
      var a := ids[|ids| - 1];
      var before := OfType(ids[..|ids| - 1], types, expected);
      if a in types && types[a] == expected then before + [a] else before
  }

  function ExpectedType(emailType: Option<string>): Option<string> {
    if OrEmpty(emailType) == "" then None
    else if Text.Contains(emailType.value, "_cc_") then Some("credit_card")
    else if Text.Contains(emailType.value, "_account_") || Text.Contains(emailType.value, "_dc_")
    then Some("bank_account")
    else None
  }

  function CardHits(ctx: Context, f: Facts): seq<CardEntry> {
    var mask := Normalized(f.cardMask);
    if Usable(mask) then MatchingCards(Lookup(ctx.cards, BankKey(f.bank), []), mask) else []
  }

  function NumberHits(ctx: Context, f: Facts, m: Option<string>): seq<AccountEntry> {
    var mask := Normalized(m);
    if Usable(mask) then MatchingNumbers(Lookup(ctx.numbers, BankKey(f.bank), []), mask) else []
  }

  function BankHits(ctx: Context, f: Facts): seq<int> {
    if OrEmpty(f.cardMask) != "" || OrEmpty(f.accountMask) != "" then [] else
      var ids := Lookup(ctx.accounts, BankKey(f.bank), []);
      var expected := ExpectedType(f.emailType);
      if expected.Some? then OfType(ids, ctx.types, expected.value) else ids
  }

  /** The cascade. An ambiguous tier does not stop it: the next tier is still tried. */
  function Decide(ctx: Context, f: Facts): Decision {
    var cards := CardHits(ctx, f);
    var numbers := NumberHits(ctx, f, f.cardMask);
    var accounts := NumberHits(ctx, f, f.accountMask);
    var bank := BankHits(ctx, f);
    if |cards| == 1 then Linked(ByCard, cards[0].account, Some(cards[0].card))
    else if |numbers| == 1 then Linked(ByCardNumber, numbers[0].account, None)
    else if |accounts| == 1 then Linked(ByAccountNumber, accounts[0].account, None)
    else if |bank| == 1 then Linked(ByBank, bank[0], None)
    else Unlinked
  }

  // ---------------------------------------------------------------------------
  // Linking rows
  // ---------------------------------------------------------------------------

  class Transaction {
    const facts: Facts
    var account: Option<int>
    var card: Option<int>

    constructor (facts: Facts)
      ensures this.facts == facts && account == None && card == None
    {
      this.facts := facts;
      account, card := None, None;
    }
  }

  method FindCardMatch(ctx: Context, bank: string, mask: string) returns (hit: Option<CardEntry>)
    ensures
      var matches := MatchingCards(Lookup(ctx.cards, bank, []), mask);
      hit == if |matches| == 1 then Some(matches[0]) else None
  {
    var matches := MatchingCards(Lookup(ctx.cards, bank, []), mask);
    hit := if |matches| == 1 then Some(matches[0]) else None;
  }

  method FindAccountMatch(ctx: Context, bank: string, mask: string) returns (hit: Option<int>)
    ensures
      var matches := MatchingNumbers(Lookup(ctx.numbers, bank, []), mask);
      hit == if |matches| == 1 then Some(matches[0].account) else None
  {
    var matches := MatchingNumbers(Lookup(ctx.numbers, bank, []), mask);
    hit := if |matches| == 1 then Some(matches[0].account) else None;
  }

  /** The account a row ends up with. */
  function Resolved(ctx: Context, f: Facts, before: Option<int>): Option<int> {
    if before.Some? then before else
      match Decide(ctx, f)
      case Linked(_, account, _) => Some(account)
      case Unlinked => None
  }

  /** And the card: only a card match sets it. */
  function ResolvedCard(ctx: Context, f: Facts, before: Option<int>, card: Option<int>): Option<int> {
    if before.Some? then card else
      match Decide(ctx, f)
      case Linked(_, _, found) => if found.Some? then found else card
      case Unlinked => card
  }

  lemma {:induction false} LinkedRowsStay(ctx: Context, f: Facts, before: Option<int>, card: Option<int>)
    requires before.Some?
    ensures Resolved(ctx, f, before) == before && ResolvedCard(ctx, f, before, card) == card
  {
  }

  /** Links one row if the tables single out its account; an already linked row is left alone. */
  method LinkTransaction(ctx: Context, txn: Transaction) returns (linked: bool)
    modifies txn
    ensures txn.account == Resolved(ctx, txn.facts, old(txn.account))
    ensures txn.card == ResolvedCard(ctx, txn.facts, old(txn.account), old(txn.card))
    ensures linked <==> old(txn.account).Some? || Decide(ctx, txn.facts).Linked?
  {
    hide Matches, Normalized, BankKey, ExpectedType, TrailingDigits;
    if txn.account.Some? { return true; }
    var f := txn.facts;
    var bank := BankKey(f.bank);
    var cardMask, accountMask := Normalized(f.cardMask), Normalized(f.accountMask);
    if Usable(cardMask) {
      var hit := FindCardMatch(ctx, bank, cardMask);
      if hit.Some? {
        txn.account := Some(hit.value.account);
        txn.card := Some(hit.value.card);
        return true;
      }
      var number := FindAccountMatch(ctx, bank, cardMask);
      if number.Some? {
        txn.account := number;
        return true;
      }
    }
    if Usable(accountMask) {
      var number := FindAccountMatch(ctx, bank, accountMask);
      if number.Some? {
        txn.account := number;
        return true;
      }
    }
    if OrEmpty(f.cardMask) == "" && OrEmpty(f.accountMask) == "" {
      var ids := Lookup(ctx.accounts, bank, []);
      var expected := ExpectedType(f.emailType);
      if expected.Some? { ids := OfType(ids, ctx.types, expected.value); }
      if |ids| == 1 {
        txn.account := Some(ids[0]);
        return true;
      }
    }
    linked := false;
  }

  ghost predicate Distinct(txns: seq<Transaction>) {
    forall i, j :: 0 <= i < j < |txns| ==> txns[i] != txns[j]
  }

  /** Links every unlinked row. Each row's outcome is a function of the tables and its own facts,
      so any order of the batch gives the same rows the same accounts. */
  method RelinkOrphans(ctx: Context, txns: seq<Transaction>) returns (linked: nat, remaining: nat)
    requires Distinct(txns)
    modifies txns
    ensures forall t | t in txns :: t.account == Resolved(ctx, t.facts, old(t.account))
    ensures forall t | t in txns :: t.card == ResolvedCard(ctx, t.facts, old(t.account), old(t.card))
    ensures linked == |set t | t in txns && old(t.account).None? && Decide(ctx, t.facts).Linked?|
    ensures remaining == |set t | t in txns && t.account.None?|
  {
    hide Decide, Resolved, ResolvedCard;
    ghost var newly;
    linked, newly := LinkEach(ctx, txns);
    assert newly == set t | t in txns && old(t.account).None? && Decide(ctx, t.facts).Linked?;
    remaining := CountUnlinked(txns);
  }

  method LinkEach(ctx: Context, txns: seq<Transaction>) returns (linked: nat, ghost newly: set<Transaction>)
    requires Distinct(txns)
    modifies txns
    ensures forall t | t in txns :: t.account == Resolved(ctx, t.facts, old(t.account))
    ensures forall t | t in txns :: t.card == ResolvedCard(ctx, t.facts, old(t.account), old(t.card))
    ensures linked == |newly|
    ensures forall t :: t in newly <==> t in txns && old(t.account).None? && Decide(ctx, t.facts).Linked?
  {
    hide Decide, Resolved, ResolvedCard;
    linked, newly := 0, {};
    for i := 0 to |txns|
      invariant forall j | 0 <= j < i ::
        && txns[j].account == Resolved(ctx, txns[j].facts, old(txns[j].account))
        && txns[j].card == ResolvedCard(ctx, txns[j].facts, old(txns[j].account), old(txns[j].card))
      invariant forall j | i <= j < |txns| ::
        txns[j].account == old(txns[j].account) && txns[j].card == old(txns[j].card)
      invariant linked == |newly|
      invariant forall t :: t in newly <==> t in txns[..i] && old(t.account).None? && Decide(ctx, t.facts).Linked?
    {
      assert txns[i] in txns && txns[i] !in txns[..i];
      Sequences.PrefixStep(txns, i);
      if txns[i].account.None? {
        var r := LinkTransaction(ctx, txns[i]);
        if r {
          linked := linked + 1;
          newly := newly + {txns[i]};
        }
      } else {
        LinkedRowsStay(ctx, txns[i].facts, txns[i].account, txns[i].card);
      }
    }
    assert txns[..|txns|] == txns;
  }

  method CountUnlinked(txns: seq<Transaction>) returns (remaining: nat)
    requires Distinct(txns)
    ensures remaining == |set t | t in txns && t.account.None?|
  {
    remaining := 0;
    ghost var unlinked: set<Transaction> := {};
    for i := 0 to |txns|
      invariant remaining == |unlinked|
      invariant forall t :: t in unlinked <==> t in txns[..i] && t.account.None?
    {
      assert txns[i] !in txns[..i];
      Sequences.PrefixStep(txns, i);
      if txns[i].account.None? {
        remaining := remaining + 1;
        unlinked := unlinked + {txns[i]};
      }
    }
    assert txns[..|txns|] == txns;
    assert unlinked == set t | t in txns && t.account.None?;
  }

  /** Over unchanged accounts a second relink finds nothing. */
  method RelinkTwice(ctx: Context, txns: seq<Transaction>) returns (again: nat)
    requires Distinct(txns)
    modifies txns
    ensures again == 0
    ensures forall t | t in txns :: t.account == Resolved(ctx, t.facts, old(t.account))
  {
    var linked, remaining := RelinkOrphans(ctx, txns);
    label linkedOnce:
    assert forall t | t in txns && t.account.None? :: Decide(ctx, t.facts).Unlinked?;
    again, remaining := RelinkOrphans(ctx, txns);
    assert (set t | t in txns && old@linkedOnce(t.account).None? && Decide(ctx, t.facts).Linked?) == {};
  }

  // ---------------------------------------------------------------------------
  // Attribution never guesses
  // ---------------------------------------------------------------------------

  /** The card row is registered under the transaction's bank and its mask matches. */
  ghost predicate CardFits(accounts: seq<Account>, c: Card, f: Facts) {
    var owner := Owner(accounts, c.account);
    && Normalized(c.mask) != "" && owner.Some? && BankKey(owner.value.bank) == BankKey(f.bank)
    && Matches(Normalized(f.cardMask), Normalized(c.mask))
  }

  /** The account is with the transaction's bank and its number matches the mask. */
  ghost predicate NumberFits(a: Account, f: Facts, m: Option<string>) {
    && BankKey(a.bank) == BankKey(f.bank) && Normalized(a.number) != ""
    && Matches(Normalized(m), Normalized(a.number))
  }

  /** The account is with the transaction's bank and of the kind its message implies. */
  ghost predicate BankFits(a: Account, f: Facts) {
    && BankKey(a.bank) == BankKey(f.bank)
    && (ExpectedType(f.emailType).Some? ==> a.accountType == ExpectedType(f.emailType).value)
  }

  /** The card rows that fit, picked straight from the table. */
  ghost function FittingCards(accounts: seq<Account>, cards: seq<Card>, f: Facts): seq<Card> {
    if cards == [] then [] else
      var c := cards[|cards| - 1];
      FittingCards(accounts, cards[..|cards| - 1], f) + if CardFits(accounts, c, f) then [c] else []
  }

  ghost function FittingNumbers(accounts: seq<Account>, f: Facts, m: Option<string>): seq<Account> {
    if accounts == [] then [] else
      var a := accounts[|accounts| - 1];
      FittingNumbers(accounts[..|accounts| - 1], f, m) + if NumberFits(a, f, m) then [a] else []
  }

  ghost function FittingAccounts(accounts: seq<Account>, f: Facts): seq<Account> {
    if accounts == [] then [] else
      var a := accounts[|accounts| - 1];
      FittingAccounts(accounts[..|accounts| - 1], f) + if BankFits(a, f) then [a] else []
  }

  lemma {:induction false} FittingCard(accounts: seq<Account>, cards: seq<Card>, f: Facts, c: Card)
    ensures c in FittingCards(accounts, cards, f) <==> c in cards && CardFits(accounts, c, f)
  {
    hide CardFits;
    if cards != [] {
      var front := cards[..|cards| - 1];
      assert cards == front + [cards[|front|]];
      FittingCard(accounts, front, f, c);
    }
  }

  lemma {:induction false} FittingNumber(accounts: seq<Account>, f: Facts, m: Option<string>, a: Account)
    ensures a in FittingNumbers(accounts, f, m) <==> a in accounts && NumberFits(a, f, m)
  {
    hide NumberFits;
    if accounts != [] {
      var front := accounts[..|accounts| - 1];
      assert accounts == front + [accounts[|front|]];
      FittingNumber(front, f, m, a);
    }
  }

  lemma {:induction false} FittingAccount(accounts: seq<Account>, f: Facts, a: Account)
    ensures a in FittingAccounts(accounts, f) <==> a in accounts && BankFits(a, f)
  {
    hide BankFits;
    if accounts != [] {
      var front := accounts[..|accounts| - 1];
      assert accounts == front + [accounts[|front|]];
      FittingAccount(front, f, a);
    }
  }

  lemma {:induction false} MatchingCardsStep(entries: seq<CardEntry>, e: CardEntry, mask: string)
    ensures MatchingCards(entries + [e], mask)
      == MatchingCards(entries, mask) + if Matches(mask, e.mask) then [e] else []
  {
  }

  lemma {:induction false} MatchingNumbersStep(entries: seq<AccountEntry>, e: AccountEntry, mask: string)
    ensures MatchingNumbers(entries + [e], mask)
      == MatchingNumbers(entries, mask) + if Matches(mask, e.mask) then [e] else []
  {
  }

  lemma {:induction false} CardHitsFit(accounts: seq<Account>, cards: seq<Card>, f: Facts)
    ensures
      var hits := MatchingCards(CardsOf(accounts, cards, BankKey(f.bank)), Normalized(f.cardMask));
      var fits := FittingCards(accounts, cards, f);
      |hits| == |fits| && forall k | 0 <= k < |fits| :: hits[k].account == fits[k].account && hits[k].card == fits[k].id
  {
    hide Matches, BankKey, Normalized;
    if cards != [] {
      var front, c := cards[..|cards| - 1], cards[|cards| - 1];
      CardHitsFit(accounts, front, f);
      MatchingCardsStep(CardsOf(accounts, front, BankKey(f.bank)), CardEntry(Normalized(c.mask), c.account, c.id),
                        Normalized(f.cardMask));
    }
  }

  lemma {:induction false} NumberHitsFit(accounts: seq<Account>, f: Facts, m: Option<string>)
    ensures
      var hits := MatchingNumbers(NumbersOf(accounts, BankKey(f.bank)), Normalized(m));
      var fits := FittingNumbers(accounts, f, m);
      |hits| == |fits| && forall k | 0 <= k < |fits| :: hits[k].account == fits[k].id
  {
    hide Matches, BankKey, Normalized;
    if accounts != [] {
      var front, a := accounts[..|accounts| - 1], accounts[|accounts| - 1];
      NumberHitsFit(front, f, m);
      MatchingNumbersStep(NumbersOf(front, BankKey(f.bank)), AccountEntry(Normalized(a.number), a.id), Normalized(m));
    }
  }

  /** The account ids of the bank, narrowed to the kind the message implies. */
  function Narrowed(ids: seq<int>, types: map<int, string>, f: Facts): seq<int> {
    var expected := ExpectedType(f.emailType);
    if expected.Some? then OfType(ids, types, expected.value) else ids
  }

  lemma {:induction false} NarrowedStep(ids: seq<int>, id: int, types: map<int, string>, f: Facts)
    ensures
      var expected := ExpectedType(f.emailType);
      Narrowed(ids + [id], types, f) ==
        Narrowed(ids, types, f)
        + if expected.None? || (id in types && types[id] == expected.value) then [id] else []
  {
  }

  lemma {:induction false} BankHitsFit(accounts: seq<Account>, types: map<int, string>, f: Facts)
    requires forall a | a in accounts :: TypeKnown(types, a)
    ensures
      var hits := Narrowed(AccountsOf(accounts, BankKey(f.bank)), types, f);
      var fits := FittingAccounts(accounts, f);
      |hits| == |fits| && forall k | 0 <= k < |fits| :: hits[k] == fits[k].id
  {
    KnownTypes(f.emailType);
    hide BankKey, ExpectedType;
    if accounts != [] {
      var front, a := accounts[..|accounts| - 1], accounts[|accounts| - 1];
      assert accounts == front + [a];
      BankHitsFit(front, types, f);
      NarrowedStep(AccountsOf(front, BankKey(f.bank)), a.id, types, f);
      assert TypeKnown(types, a);
    } else {
      assert Narrowed([], types, f) == [];
    }
  }

  ghost predicate TypeKnown(types: map<int, string>, a: Account) {
    if a.accountType == "" then a.id !in types else a.id in types && types[a.id] == a.accountType
  }

  ghost predicate DistinctAccounts(accounts: seq<Account>) {
    forall i, j :: 0 <= i < j < |accounts| ==> accounts[i].id != accounts[j].id
  }

  lemma {:induction false} TypeOfAccount(accounts: seq<Account>, a: Account)
    requires DistinctAccounts(accounts) && a in accounts
    ensures a.id in TypesOf(accounts) <==> a.accountType != ""
    ensures a.accountType != "" ==> TypesOf(accounts)[a.id] == a.accountType
  {
    var front, last := accounts[..|accounts| - 1], accounts[|accounts| - 1];
    assert accounts == front + [last];
    if last == a {
      TypesAreOfAccounts(front, a.id);
    } else {
      assert a in front;
      var i :| 0 <= i < |front| && front[i] == a;
      assert accounts[i].id != last.id;
      TypeOfAccount(front, a);
    }
  }

  lemma {:induction false} TypesAreOfAccounts(accounts: seq<Account>, id: int)
    ensures id in TypesOf(accounts) ==> exists i | 0 <= i < |accounts| :: accounts[i].id == id
  {
    if accounts != [] {
      var n := |accounts| - 1;
      TypesAreOfAccounts(accounts[..n], id);
      if id in TypesOf(accounts[..n]) {
        var i :| 0 <= i < n && accounts[..n][i].id == id;
        assert accounts[i].id == id;
      }
    }
  }

  /** The link a row gets, read off the tables: the first tier for which exactly one row fits - a
      card row, then an account number against the card mask, then one against the account mask
      (each mask with at least three trailing digits), then, without any mask, an account of the
      bank. A tier with several fitting rows is passed over, never guessed at. */
  ghost function SoleFit(accounts: seq<Account>, cards: seq<Card>, f: Facts): Decision {
    var byCard := if Usable(Normalized(f.cardMask)) then FittingCards(accounts, cards, f) else [];
    var byCardNumber := if Usable(Normalized(f.cardMask)) then FittingNumbers(accounts, f, f.cardMask) else [];
    var byNumber := if Usable(Normalized(f.accountMask)) then FittingNumbers(accounts, f, f.accountMask) else [];
    var maskless := OrEmpty(f.cardMask) == "" && OrEmpty(f.accountMask) == "";
    var byBank := if maskless then FittingAccounts(accounts, f) else [];
    if |byCard| == 1 then Linked(ByCard, byCard[0].account, Some(byCard[0].id))
    else if |byCardNumber| == 1 then Linked(ByCardNumber, byCardNumber[0].id, None)
    else if |byNumber| == 1 then Linked(ByAccountNumber, byNumber[0].id, None)
    else if |byBank| == 1 then Linked(ByBank, byBank[0].id, None)
    else Unlinked
  }

  /** The lookup tables decide exactly that, for any accounts with distinct ids and any cards. */
  lemma {:induction false} LinksTheSoleFit(ctx: Context, accounts: seq<Account>, cards: seq<Card>, f: Facts)
    requires Describes(ctx, accounts, cards) && DistinctAccounts(accounts)
    ensures Decide(ctx, f) == SoleFit(accounts, cards, f)
  {
    hide Matches, BankKey, Normalized, Usable, ExpectedType, FittingCards, FittingNumbers, FittingAccounts;
    hide MatchingCards, MatchingNumbers, CardsOf, NumbersOf, AccountsOf, OfType;
    var bank := BankKey(f.bank);
    CardHitsFit(accounts, cards, f);
    NumberHitsFit(accounts, f, f.cardMask);
    NumberHitsFit(accounts, f, f.accountMask);
    forall a | a in accounts ensures TypeKnown(ctx.types, a) { TypeOfAccount(accounts, a); }
    BankHitsFit(accounts, ctx.types, f);
    assert Lookup(ctx.cards, bank, []) == CardsOf(accounts, cards, bank);
    assert Lookup(ctx.numbers, bank, []) == NumbersOf(accounts, bank);
    assert Lookup(ctx.accounts, bank, []) == AccountsOf(accounts, bank);
  }

  /** Two or more fitting cards are not the end: the row stays unlinked exactly when no account
      number singles one account out either, under the card mask or a usable account mask. If one
      does, the row is linked to that account, without a card. */
  lemma {:induction false} AmbiguousCardsFallThrough(ctx: Context, accounts: seq<Account>, cards: seq<Card>, f: Facts)
    requires Describes(ctx, accounts, cards) && DistinctAccounts(accounts)
    requires Usable(Normalized(f.cardMask)) && |FittingCards(accounts, cards, f)| >= 2
    ensures Decide(ctx, f).Unlinked? <==>
      && |FittingNumbers(accounts, f, f.cardMask)| != 1
      && !(Usable(Normalized(f.accountMask)) && |FittingNumbers(accounts, f, f.accountMask)| == 1)
    ensures Decide(ctx, f).Linked? ==>
      Decide(ctx, f).card == None && Decide(ctx, f).tier in {ByCardNumber, ByAccountNumber}
  {
    hide Describes, Decide, DistinctAccounts, FittingCards, FittingNumbers, FittingAccounts, Usable;
    LinksTheSoleFit(ctx, accounts, cards, f);
    assert OrEmpty(f.cardMask) != "" by { UsableIsPresent(f.cardMask); }
  }

  lemma {:induction false} UsableIsPresent(mask: Option<string>)
    requires Usable(Normalized(mask))
    ensures OrEmpty(mask) != ""
  {
    assert TrailingDigits("") == 0;
  }

  /** So a match that is ambiguous among the cards can still be linked: two cards of one account
      carry its number, and the row goes to the account. */
  lemma {:induction false} AmbiguousCardsStillLink(ctx: Context, a: Account, c: Card, d: Card, f: Facts, number: string)
    requires |number| >= MIN_MASK_DIGITS && forall i | 0 <= i < |number| :: Text.IsDigit(number[i])
    requires a.number == c.mask == d.mask == f.cardMask == Some(number)
    requires c.account == d.account == a.id && f.bank == a.bank
    requires Describes(ctx, [a], [c, d])
    ensures |FittingCards([a], [c, d], f)| == 2
    ensures Decide(ctx, f) == Linked(ByCardNumber, a.id, None)
  {
    hide Describes, Decide, BankKey;
    NumberMatchesItself(number);
    hide Normalized, Usable, Matches;
    assert [c, d][..1] == [c] && [c][..0] == [] && [a][..0] == [];
    assert CardFits([a], c, f) && CardFits([a], d, f);
    assert FittingCards([a], [c], f) == [c];
    assert NumberFits(a, f, f.cardMask);
    assert FittingNumbers([a], f, f.cardMask) == [a];
    LinksTheSoleFit(ctx, [a], [c, d], f);
  }

  lemma {:induction false} NumberMatchesItself(number: string)
    requires |number| >= MIN_MASK_DIGITS && forall i | 0 <= i < |number| :: Text.IsDigit(number[i])
    ensures Normalized(Some(number)) == number && Usable(number) && Matches(number, number)
  {
    NormalIsFixed(number);
    assert TrailingDigits(number) == |number|;
  }

  /** A card link: exactly one card row fits, and it is the linked card of the linked account. */
  lemma {:induction false} CardLinkNeverGuesses(
    ctx: Context, accounts: seq<Account>, cards: seq<Card>, f: Facts, c: Card)
    requires Describes(ctx, accounts, cards) && DistinctAccounts(accounts)
    requires Decide(ctx, f).Linked? && Decide(ctx, f).tier == ByCard && c in cards
    ensures CardFits(accounts, c, f) ==> c.account == Decide(ctx, f).account && Some(c.id) == Decide(ctx, f).card
    ensures exists x | x in cards :: CardFits(accounts, x, f)
  {
    hide CardFits, Describes, Decide, DistinctAccounts, FittingCards, FittingNumbers, FittingAccounts, Usable,
      Normalized;
    LinksTheSoleFit(ctx, accounts, cards, f);
    var fits := FittingCards(accounts, cards, f);
    FittingCard(accounts, cards, f, c);
    FittingCard(accounts, cards, f, fits[0]);
  }

  /** A link through an account number or the bank: exactly one account fits, and it is linked. */
  lemma {:induction false} AccountLinkNeverGuesses(
    ctx: Context, accounts: seq<Account>, cards: seq<Card>, f: Facts, a: Account)
    requires Describes(ctx, accounts, cards) && DistinctAccounts(accounts)
    requires Decide(ctx, f).Linked? && Decide(ctx, f).tier != ByCard && a in accounts
    ensures Decide(ctx, f).card == None
    ensures a.id == Decide(ctx, f).account <==> TierFits(Decide(ctx, f).tier, a, f)
  {
    hide NumberFits, BankFits, Describes, Decide, FittingNumbers, FittingAccounts, Usable, Normalized;
    LinksTheSoleFit(ctx, accounts, cards, f);
    FittingNumber(accounts, f, f.cardMask, a);
    FittingNumber(accounts, f, f.accountMask, a);
    FittingAccount(accounts, f, a);
    SameRow(accounts);
    var tier := Decide(ctx, f).tier;
    var fits := if tier == ByCardNumber then FittingNumbers(accounts, f, f.cardMask)
                else if tier == ByAccountNumber then FittingNumbers(accounts, f, f.accountMask)
                else FittingAccounts(accounts, f);
    FittingNumber(accounts, f, f.cardMask, fits[0]);
    FittingNumber(accounts, f, f.accountMask, fits[0]);
    FittingAccount(accounts, f, fits[0]);
  }

  ghost predicate TierFits(tier: Tier, a: Account, f: Facts)
    requires tier != ByCard
  {
    match tier
    case ByCardNumber => NumberFits(a, f, f.cardMask)
    case ByAccountNumber => NumberFits(a, f, f.accountMask)
    case ByBank => BankFits(a, f)
  }

  lemma {:induction false} KnownTypes(emailType: Option<string>)
    ensures ExpectedType(emailType).Some? ==> ExpectedType(emailType).value != ""
  {
  }

  lemma {:induction false} SameRow(accounts: seq<Account>)
    requires DistinctAccounts(accounts)
    ensures forall a, b | a in accounts && b in accounts && a.id == b.id :: a == b
  {
  }
}
