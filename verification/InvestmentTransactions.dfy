/** CAS transaction facts, their classification into acquisition lots, and the
    source-identity occurrence number of every lot. */
module InvestmentTransactions {
  import Occurrences
  import Sequences
  import Text
  import opened Wrappers

  /** One JSON number field: absent or empty, text that is no finite decimal, or a decimal
      together with its normalized printed form. */
  datatype Field = Absent | Unreadable(text: string) | Number(printed: string, value: real)

  /** One JSON date field: absent, text that holds no date, or a calendar day with its
      ISO form. */
  datatype RawDate = NoDate | Blank(text: string) | Day(iso: string, day: int)

  datatype Raw = Raw(
    scope: Option<string>,
    sourceRef: Option<string>,
    isin: Option<string>,
    txnType: Option<string>,
    reference: Option<string>,
    date: RawDate,
    units: Field,
    nav: Field,
    amount: Field,
    description: Option<string>)

  datatype Lot = Lot(
    instrument: string,
    name: string,
    quantity: real,
    unitCost: real,
    costBasis: real,
    currency: string,
    acquiredOn: int,
    sourceRef: string,
    txnType: string,
    reference: Option<string>,
    occurrence: nat)

  datatype Reason =
    | NotMutualFund
    | DisposalTransaction
    | AmbiguousType
    | MissingLotFacts
    | CostBasisInconsistent

  datatype Exclusion = Exclusion(reason: Reason, instrument: Option<string>, sourceRef: Option<string>)

  datatype Classified = Complete(lot: Lot) | Excluded(exclusion: Exclusion)

  const CAS_CURRENCY := "INR"
  const ACQUISITION_TYPES := {"purchase", "switch_in", "switch-in", "buy", "allotment"}
  const DISPOSAL_TYPES := {"redemption", "switch_out", "switch-out", "sell", "sold"}

  function Abs(x: real): real { if x < 0.0 then -x else x }

  function OrEmpty(s: Option<string>): string { if s.Some? then s.value else "" }

  /** A present, non-blank text, trimmed. */
  function NonBlank(s: Option<string>): Option<string> {
    if s.Some? && Text.Strip(s.value) != "" then Some(Text.Strip(s.value)) else None
  }

  function TxnIsin(raw: Raw): Option<string> {
    var t := NonBlank(raw.isin);
    if t.Some? then Some(Text.Upper(t.value)) else None
  }

  function TypeText(raw: Raw): string { Text.Lower(OrEmpty(NonBlank(raw.txnType))) }

  /** `any(marker in text for marker in markers)`. */
  predicate HasMarker(text: string, markers: set<string>) {
    || (exists marker | marker in markers :: marker <= text)
    || (text != "" && HasMarker(text[1..], markers))
  }

  predicate IsDisposal(raw: Raw) { TypeText(raw) != "" && HasMarker(TypeText(raw), DISPOSAL_TYPES) }

  predicate IsAcquisition(raw: Raw) { TypeText(raw) != "" && HasMarker(TypeText(raw), ACQUISITION_TYPES) }

  function NormalizedRef(ref: Option<string>): string { Text.Strip(OrEmpty(ref)) }

  function NormalizedReference(reference: Option<string>): Option<string> { NonBlank(reference) }

  predicate Positive(f: Field) { f.Number? && f.value > 0.0 }

  /** `Decimal.quantize(Decimal("0.01"))`: the nearest hundredth, ties to even. */
  function QuantizePaisa(x: real): (r: real)
    ensures Abs(r - x) <= 0.005
    ensures (r * 100.0).Floor as real == r * 100.0
    ensures Abs(r - x) == 0.005 ==> (r * 100.0).Floor % 2 == 0
  {
    var hundredths := x * 100.0;
    var low := hundredths.Floor;
    var rest := hundredths - low as real;
    var n := if rest < 0.5 || (rest == 0.5 && low % 2 == 0) then low else low + 1;
    assert n as real / 100.0 * 100.0 == n as real;
    n as real / 100.0
  }

  predicate StatesLotFacts(raw: Raw) {
    && Positive(raw.units) && Positive(raw.nav) && Positive(raw.amount)
    && raw.date.Day? && TxnIsin(raw).Some?
  }

  /** Units times price against the printed amount: a full paisa of difference disagrees. */
  predicate CostAgrees(units: real, nav: real, amount: real) {
    Abs(units * nav - amount) < 0.01
  }

  function LotFrom(raw: Raw): Lot
    requires StatesLotFacts(raw)
  {
    var isin := TxnIsin(raw).value;
    var name := NonBlank(raw.description);
    Lot(
      isin,
      if name.Some? then name.value else isin,
      raw.units.value,
      raw.nav.value,
      QuantizePaisa(raw.units.value * raw.nav.value),
      CAS_CURRENCY,
      raw.date.day,
      if raw.sourceRef.Some? then raw.sourceRef.value else "None",
      TypeText(raw),
      NonBlank(raw.reference),
      0)
  }

  function Classify(raw: Raw): Classified {
    var isin := TxnIsin(raw);
    if Text.Lower(OrEmpty(raw.scope)) != "mf" then
      Excluded(Exclusion(NotMutualFund, isin, raw.sourceRef))
    else if IsDisposal(raw) then
      Excluded(Exclusion(DisposalTransaction, isin, raw.sourceRef))
    else if !IsAcquisition(raw) then
      Excluded(Exclusion(AmbiguousType, isin, raw.sourceRef))
    else if !StatesLotFacts(raw) then
      Excluded(Exclusion(MissingLotFacts, isin, raw.sourceRef))
    else if !CostAgrees(raw.units.value, raw.nav.value, raw.amount.value) then
      Excluded(Exclusion(CostBasisInconsistent, isin, raw.sourceRef))
    else
      Complete(LotFrom(raw))
  }

  /** No lot is fabricated and none is dropped: a row gives a lot exactly when it is a mutual-fund
      acquisition and no disposal, states all lot facts, and its amount agrees with units times
      price; and then each field of the lot is the stated fact. */
  lemma {:induction false} LotStatesSourceFacts(raw: Raw)
    ensures Classify(raw).Complete? <==>
      && Text.Lower(OrEmpty(raw.scope)) == "mf" && IsAcquisition(raw) && !IsDisposal(raw) && StatesLotFacts(raw)
      && Abs(raw.units.value * raw.nav.value - raw.amount.value) < 0.01
    ensures Classify(raw).Complete? ==>
      var lot := Classify(raw).lot;
      && Some(lot.instrument) == TxnIsin(raw) && lot.acquiredOn == raw.date.day
      && lot.quantity == raw.units.value > 0.0 && lot.unitCost == raw.nav.value
      && Abs(lot.costBasis - raw.units.value * raw.nav.value) <= 0.005
      && lot.reference == NormalizedReference(raw.reference) && lot.currency == CAS_CURRENCY
  {
    hide HasMarker, TypeText, TxnIsin, OrEmpty, Text.Lower, NonBlank;
  }

  /** The reason a rejected row gets says what is wrong with it, the first of these that applies:
      not a mutual fund, a disposal, no recognised acquisition, a missing fact, or an amount a
      paisa or more away from units times price. The row's instrument and source stay named. */
  lemma {:induction false} ExclusionNamesTheFault(raw: Raw)
    requires Classify(raw).Excluded?
    ensures
      var e := Classify(raw).exclusion;
      var mf := Text.Lower(OrEmpty(raw.scope)) == "mf";
      && e.instrument == TxnIsin(raw) && e.sourceRef == raw.sourceRef
      && (e.reason.NotMutualFund? <==> !mf)
      && (e.reason.DisposalTransaction? <==> mf && IsDisposal(raw))
      && (e.reason.AmbiguousType? <==> mf && !IsDisposal(raw) && !IsAcquisition(raw))
      && (e.reason.MissingLotFacts? <==> mf && !IsDisposal(raw) && IsAcquisition(raw) && !StatesLotFacts(raw))
      && (e.reason.CostBasisInconsistent? <==>
            && mf && !IsDisposal(raw) && IsAcquisition(raw) && StatesLotFacts(raw)
            && Abs(raw.units.value * raw.nav.value - raw.amount.value) >= 0.01)
  {
  }

  /** The cost of a lot is the product of units and price to the paisa, so it never strays more
      than one and a half paise from the printed amount. */
  lemma {:induction false} CostWithinTolerance(units: real, nav: real, amount: real)
    requires CostAgrees(units, nav, amount)
    ensures Abs(QuantizePaisa(units * nav) - units * nav) <= 0.005
    ensures Abs(QuantizePaisa(units * nav) - amount) < 0.015
  {
  }

  // ---------------------------------------------------------------------------
  // Lots of a row list and their occurrence numbers
  // ---------------------------------------------------------------------------

  function ExclusionsOf(rows: seq<Raw>): seq<Exclusion> {
    if rows == [] then [] else
      var c := Classify(rows[|rows| - 1]);
      ExclusionsOf(rows[..|rows| - 1]) + if c.Complete? then [] else [c.exclusion]
  }

  /** Identity under which one payload numbers its lots (source reference as printed). */
  datatype SourceIdentity = SourceIdentity(sourceRef: string, instrument: string, acquiredOn: int,
    reference: Option<string>)

  function IdentityOf(lot: Lot): SourceIdentity {
    SourceIdentity(lot.sourceRef, lot.instrument, lot.acquiredOn, lot.reference)
  }

  function Identities(lots: seq<Lot>): (ids: seq<SourceIdentity>)
    ensures |ids| == |lots|
  {
    if lots == [] then [] else Identities(lots[..|lots| - 1]) + [IdentityOf(lots[|lots| - 1])]
  }

  /** The complete lots of `rows`, each numbered within its identity. */
  ghost function NumberedLots(rows: seq<Raw>): seq<Lot> {
    if rows == [] then [] else
      var before := NumberedLots(rows[..|rows| - 1]);
      match Classify(rows[|rows| - 1])
      case Complete(lot) => before + [lot.(occurrence := multiset(Identities(before))[IdentityOf(lot)])]
      case Excluded(_) => before
  }

  lemma {:induction false} NoRowsNoLots()
    ensures NumberedLots([]) == [] && ExclusionsOf([]) == []
    ensures Occurrences.Counts(map[], Identities([]))
  {
  }

  lemma {:induction false} ExtractStep(rows: seq<Raw>, raw: Raw)
    ensures
      var before := NumberedLots(rows);
      && (Classify(raw).Complete? ==>
            var lot := Classify(raw).lot;
            && NumberedLots(rows + [raw])
              == before + [lot.(occurrence := multiset(Identities(before))[IdentityOf(lot)])]
            && ExclusionsOf(rows + [raw]) == ExclusionsOf(rows))
      && (Classify(raw).Excluded? ==>
            && NumberedLots(rows + [raw]) == before
            && ExclusionsOf(rows + [raw]) == ExclusionsOf(rows) + [Classify(raw).exclusion])
  {
    hide Classify, Identities;
    assert (rows + [raw])[..|rows|] == rows;
  }

  /** Splits one payload's rows into numbered lots and exclusions. */
  method ExtractLotsFromPayload(rows: seq<Raw>) returns (lots: seq<Lot>, exclusions: seq<Exclusion>)
    ensures lots == NumberedLots(rows)
    ensures exclusions == ExclusionsOf(rows)
  {
    hide Classify, NumberedLots, ExclusionsOf, Identities, Occurrences.Counts;
    lots, exclusions := [], [];
    var occurrences: map<SourceIdentity, nat> := map[];
    NoRowsNoLots();
    for i := 0 to |rows|
      invariant lots == NumberedLots(rows[..i])
      invariant exclusions == ExclusionsOf(rows[..i])
      invariant Occurrences.Counts(occurrences, Identities(lots))
    {
      Sequences.PrefixStep(rows, i);
      ExtractStep(rows[..i], rows[i]);
      match Classify(rows[i]) {
        case Complete(lot) =>
          var key := IdentityOf(lot);
          Occurrences.CountsBump(occurrences, Identities(lots), key);
          var occurrence := Occurrences.Lookup(occurrences, key, 0);
          occurrences := occurrences[key := occurrence + 1];
          IdentitiesAppend(lots, lot.(occurrence := occurrence));
          lots := lots + [lot.(occurrence := occurrence)];
        case Excluded(exclusion) =>
          exclusions := exclusions + [exclusion];
      }
    }
    assert rows[..|rows|] == rows;
  }

  /** Every row is accounted for once, as a lot or as an exclusion. */
  lemma {:induction false} EveryRowClassified(rows: seq<Raw>)
    ensures |NumberedLots(rows)| + |ExclusionsOf(rows)| == |rows|
  {
    hide Classify;
    if rows != [] { EveryRowClassified(rows[..|rows| - 1]); }
  }

  /** The natural key under which one upload may store a lot once. */
  function NaturalKey(lot: Lot): (SourceIdentity, nat) { (IdentityOf(lot), lot.occurrence) }

  lemma {:induction false} IdentitiesAppend(lots: seq<Lot>, lot: Lot)
    ensures Identities(lots + [lot]) == Identities(lots) + [IdentityOf(lot)]
  {
    assert (lots + [lot])[..|lots|] == lots;
  }

  lemma {:induction false} NumberedByOccurrence(rows: seq<Raw>, i: nat)
    requires i < |NumberedLots(rows)|
    ensures
      var lots := NumberedLots(rows);
      && Identities(lots)[i] == IdentityOf(lots[i])
      && lots[i].occurrence == Occurrences.Occ(Identities(lots), i)
  {
    hide Classify, Identities, Occurrences.Occ;
    var lots, before := NumberedLots(rows), NumberedLots(rows[..|rows| - 1]);
    if i < |before| { NumberedByOccurrence(rows[..|rows| - 1], i); }
    if lots != before {
      var last := lots[|before|];
      assert lots == before + [last];
      IdentitiesAppend(before, last);
      if i < |before| {
        Occurrences.OccStable(Identities(before), [IdentityOf(last)], i);
      } else {
        Occurrences.OccOfLast(Identities(before), IdentityOf(last));
      }
    }
  }

  /** Extraction never produces two lots with one natural key, so storing them all violates no
      uniqueness constraint and storing them again finds every one present. */
  lemma {:induction false} ExtractedKeysDistinct(rows: seq<Raw>, i: nat, j: nat)
    requires i < j < |NumberedLots(rows)|
    ensures NaturalKey(NumberedLots(rows)[i]) != NaturalKey(NumberedLots(rows)[j])
  {
    NumberedByOccurrence(rows, i);
    NumberedByOccurrence(rows, j);
    var ids := Identities(NumberedLots(rows));
    if ids[i] == ids[j] {
      Occurrences.OccDistinct(ids, i, j);
    }
  }
}
