# Verification of the dashboard's money logic

This project models the part of the financial dashboard that decides what money
belongs where, and proves properties of it that hold for every input or every run.
Amounts of the investment side are exact reals, amounts of the card side whole
paise, dates day numbers (calendar dates in the net-worth modules), tables maps and
sequences of rows.

- **CAS investments** (`InvestmentTransactions`, `LotConsumption` and its laws,
  `Overlap` and its laws, `CanonicalTransactions`, `CanonicalLots`,
  `CanonicalConsumption`, `CasStore`, `CasReads`): classification of statement rows into
  lots; netting of disposals against lots only when the source identifies one
  lot; removal of the overlap between monthly statements by a max-multiset
  union; the agreement of two independent occurrence numberings; the upload,
  snapshot, holding and lot tables under ingest and backfill; and both canonical
  reads of those tables, which agree after every run.
- **Credit-card payments** (`CcCycle`, `Payments`, `PaymentTriggers`,
  `Reminders`, `CardLedger`, `CcDisambiguation`): billing windows that tile
  time, the self-healing paid amount and status, the events that trigger it,
  reminders over whole runs, and placing a payment without a mask.
- **Net worth** (`Calendar`, `Snapshots`, `Tally`, `SnapshotGroups`, `NetWorth`): the
  summary with its groups and holdings, and the single-pass trend against the simple
  definition.
- **Masks and linking** (`Masks`, `Linker`): right-aligned wildcard matching and
  the four-tier cascade on top of it.
- **Smaller protocols and algorithms** (`AmPm`, `SourceSlots`, `HealthCache`,
  `RupeeFormat`): the half of the day a 12-hour alert leaves out, claims of a
  transaction's source slot by racing sessions, the single-flight cached
  database scan, and the Indian-grouping rupee printer.

`Wrappers`, `Sequences`, `Sorting`, `Text` and `Occurrences` hold what the others
share. `dfyconfig.toml` covers every file.

Where the code updates something in place the model does too: `CasStore.Store`,
`CardLedger.Tables`, `LotConsumption.LotNetting`, `Linker.Transaction`,
`CcDisambiguation.PaymentRow`, `SourceSlots.Session` and
`HealthCache.QuickCheckCacheState` are classes, and the code's loops are methods
with invariants. Each method is proved against a function of its inputs or of the
old state; the laws are lemmas about those functions. Lemmas that read a function's
guards back (`LotStatesSourceFacts`, `ExclusionNamesTheFault`, `ResyncSparesPaid`) are
helpers and have no row below. Automatic induction is switched off throughout: every
inductive proof makes its own recursive calls.

Where the code and its documentation differ, the model follows the code:

- `check_payment_received` is documented as safe to fire again. It is while the
  bill stays unpaid; once the latest bill is paid, another firing reaches an older
  bill that is still open and marks it partially paid
  (`PaymentTriggers.RefireAfterPaymentReachesOlderBill`, with the exact condition
  in `RefireChangesNothingExactly`).
- `recompute_cc_payment_state` is documented as idempotent. For a statement
  without a creation time the first recompute of a new day records a snapshot
  under that day (`Payments.RecomputeIdempotentExactly`). The creation time has a
  default in the table definition, so only rows written around it are affected.
- A poll sets a statement with nothing owed to paid without a paid-at time
  (`Reminders.PollStatementLaws`).
- The route that reverts a statement to unpaid is documented to preserve any real
  partial payment. It keeps the amount exactly when the statement is untracked, reads
  as partially paid, or has nothing on it (`PaymentTriggers.RevertKeepsAmountExactly`).
  A bill paid in full by real credits, a partly paid one that was marked paid by hand,
  and a partly paid one that a poll turned late all go to zero, until the next
  recompute (`RevertAfterRecompute`, `RevertedMarkForgetsPartialPayment`,
  `Reminders.RevertAfterLatePoll`, `RecomputeAfterRevert`). The page offers the revert
  for paid statements only.
- A bill marked paid by hand is protected from resyncs, not from the deletion of a
  payment (`PaymentTriggers.DeletionReopensMark`).
- Tracking a new statement is documented to count payments made before it was
  ingested. It counts those on the days the bill claims (`CcCycle.WindowByDay`,
  `Payments.CreditCountsByDay`); for an account's first bill that excludes every day
  before its creation (`PaymentTriggers.FirstBillMissesEarlierPayment`).
- The linker is documented to leave a row unlinked when several cards share the matched
  suffix. It goes on to the account numbers and links the row if one of them fits alone
  (`Linker.AmbiguousCardsFallThrough`, `AmbiguousCardsStillLink`).
- `should_auto_reconcile_statement` calls the paid amount cumulative; it is
  recomputed as a sum.
- That consumption keys are canonical lot keys needs no agreement between rows
  on scope or printed amount: look-alike lots are never consumed
  (`CanonicalConsumption.TouchedLotIsAlone`), so only first occurrences appear.

## Model

| member | source | states |
|---|---|---|
| InvestmentTransactions.CostWithinTolerance | financial_dashboard/services/investment_transactions.py:161-177 | the stored cost is units times price to the paisa, and never strays 1.5 paise or more from the printed amount |
| InvestmentTransactions.QuantizePaisa | financial_dashboard/services/investment_transactions.py:177 | rounding to the paisa moves an amount by at most half a paisa, lands on a whole one, and on a tie on an even one |
| InvestmentTransactions.ExtractLotsFromPayload | financial_dashboard/services/investment_transactions.py:207-235 | the loop with its occurrence counters yields the lots of the rows, each numbered by how often its identity came before, and the exclusions in row order |
| InvestmentTransactions.EveryRowClassified | financial_dashboard/services/investment_transactions.py:219-235 | every row is accounted for exactly once, as a lot or as an exclusion |
| InvestmentTransactions.ExtractedKeysDistinct | financial_dashboard/services/investment_transactions.py:224-232 | no two lots of one payload share a natural key (source identity and occurrence) |
| LotConsumption.LotNetting.AllocateExact | financial_dashboard/services/investment_transactions.py:277-314 | decrements the shared dictionary for exactly the lot the facts choose, or leaves it alone and says so |
| LotConsumption.LotNetting.NetInstrument | financial_dashboard/services/investment_transactions.py:404-429 | the loop over one instrument's ordered disposals, stopping at the first that needs a guess, computes the instrument's netting on the shared dictionary |
| LotConsumption.AllocationNeverGuesses | financial_dashboard/services/investment_transactions.py:277-314 | a consumed lot is a candidate, not acquired after the disposal, holds at least the disposed quantity, and is singled out by the facts |
| LotConsumptionLaws.AllocatesExactlyWhatIsIdentified | financial_dashboard/services/investment_transactions.py:277-314 | of the candidates that the rows give a disposal, a lot is consumed if and only if the facts identify it: source and positive quantity stated, enough held, not acquired later, singled out by reference or alone eligible, and no ambiguous acquisition competes |
| LotConsumptionLaws.DisposalsTakenInOrder | financial_dashboard/services/investment_transactions.py:394-404 | an instrument's disposals are each taken once: dated ones by date, undated ones last, ties in source order |
| LotConsumption.CollectFacts | financial_dashboard/services/investment_transactions.py:326-383 | one pass over all payloads files acquisitions by instrument and source, numbered within their identity, disposals by instrument with their position, and ambiguous references, all as a function of the rows |
| LotConsumption.ResolveLotConsumption | financial_dashboard/services/investment_transactions.py:317-439 | netting every instrument in turn on one shared dictionary gives each instrument its own netting: the unresolved set and the sparse map of changed remainders |
| LotConsumption.NetLocal | financial_dashboard/services/investment_transactions.py:394-429 | netting one instrument reads and writes no other instrument's lots |
| LotConsumptionLaws.AcquisitionKeysDistinct | financial_dashboard/services/investment_transactions.py:372-383 | no two acquisitions of any row list share a lot key |
| LotConsumptionLaws.NetPerLot | financial_dashboard/services/investment_transactions.py:404-429 | after any number of disposals each lot has lost exactly what the disposals assigned to it dispose, and stays between zero and what it held |
| LotConsumptionLaws.NetTotal | financial_dashboard/services/investment_transactions.py:404-429 | what the instrument's lots lose together is what the allocated disposals dispose together |
| LotConsumptionLaws.ResolvedInstrumentsConserve | financial_dashboard/services/investment_transactions.py:385-439 | for every row list: reported remainders lie in [0, original); the reported lots are exactly those of resolved instruments that some disposal consumed; and a resolved instrument's original total less its reported total is the total of all its disposals |
| LotConsumptionLaws.NettingOfSides | financial_dashboard/services/investment_transactions.py:333-429 | an instrument's netting is determined by its acquisition rows alone and its disposal rows alone |
| LotConsumptionLaws.NettingIgnoresOtherRows | financial_dashboard/services/investment_transactions.py:333-439 | same verdict and remainders for any two row lists that agree on one instrument's acquisition subsequence and disposal subsequence, whatever the interleaving and the other instruments' rows |
| LotConsumptionLaws.OtherInstrumentsIrrelevant | financial_dashboard/services/investment_transactions.py:333-439 | removing every other instrument's rows changes nothing for one instrument |
| Overlap.MaxUnion | financial_dashboard/services/investments.py:579-603 | grouping by key and upload, taking the largest multiplicity and the earliest report of each occurrence, yields each (key, occurrence) below the largest multiplicity exactly once, keys in the order of their first report |
| OverlapLaws.UnionCounts | financial_dashboard/services/investments.py:588-603 | each key occurs in the union exactly as often as in the upload that has it most |
| CanonicalTransactions.CanonicalRawTransactions | financial_dashboard/services/investments.py:562-605 | the canonical rows are that union of the uploads' rows under their fingerprints, in list order (date text, fingerprint, occurrence) |
| CanonicalTransactions.CanonicalIsMaxUnion | financial_dashboard/services/investments.py:562-605 | every fingerprint occurs at least as often as in each upload, and exactly as often as in one of them |
| CanonicalTransactions.CanonicalRowIsReported | financial_dashboard/services/investments.py:595-605 | every canonical row is a row of some upload |
| CanonicalTransactions.SortedDetermined | financial_dashboard/services/investments.py:604 | the sort key is total: a list in order is determined by which (fingerprint, occurrence) pairs it holds |
| CanonicalTransactions.CanonicalIgnoresOrder | financial_dashboard/services/investments.py:562-605 | uploads with distinct ids listed in any order give the same list, row for row |
| CanonicalTransactions.ContainedUploadChangesNothing | financial_dashboard/services/investments.py:588-605 | adding an upload whose rows are already covered changes no fingerprint of the list |
| CanonicalTransactions.SingleUploadKeepsRows | financial_dashboard/services/investments.py:562-605 | one upload alone keeps its rows, each as often as it lists them |
| CanonicalLots.GetCanonicalLots | financial_dashboard/services/investments.py:366-471 | the canonical lots are one per (identity, occurrence) below the largest multiplicity, each represented by the earliest reporting upload's row, with every reporting upload in its provenance; listed by day, portfolio, instrument, source, reference, quantity, unit cost and occurrence, and lots equal in all of these by first report |
| CanonicalLots.CanonicalLotsDetermined | financial_dashboard/services/investments.py:366-471 | the uploads determine the list: every field of every lot, and the place of each |
| CanonicalLots.RepresentativeIsFirstProvenance | financial_dashboard/services/investments.py:416-437 | the representative is the row of the first upload in the provenance |
| CanonicalLots.StoringKeepsIdentity | financial_dashboard/services/investments.py:343-363 | a lot read back from its stored row has the identity it was classified with, although two pieces of code normalize it |
| CanonicalLots.CanonicalConsumptionKeyMap | financial_dashboard/services/investments.py:608-656 | the loop with its two counters builds the map from coarse lot keys to canonical keys |
| CanonicalConsumption.KeyMapAt | financial_dashboard/services/investments.py:616-655 | the i-th acquisition's coarse key, as netting numbers it, maps to its identity with its own occurrence number there |
| CanonicalConsumption.KeyMapIsBijection | financial_dashboard/services/investments.py:608-656 | for every row list the key map's domain is exactly the lot keys of netting, it is injective, its image is every identity's occurrences from zero up, and instrument and quantity survive |
| CanonicalConsumption.RenameKeys | financial_dashboard/services/investments.py:699-704 | every remainder moves to its canonical key, none lost or merged; the branch for a lot without a canonical key is unreachable |
| CanonicalConsumption.PortfolioConsumption | financial_dashboard/services/investments.py:690-704 | one portfolio's part is the netting of its canonical rows under canonical keys |
| CanonicalConsumption.GetCanonicalLotConsumption | financial_dashboard/services/investments.py:659-710 | the result is that part for every portfolio with a readable payload, and nothing else; the closing filter removes nothing |
| CanonicalConsumption.NetSparesTwins | financial_dashboard/services/investment_transactions.py:277-314 | a lot that shares its natural identity with another is never consumed |
| CanonicalConsumption.TouchedLotIsAlone | financial_dashboard/services/investment_transactions.py:317-439 | every reported lot is alone in its natural identity |
| CanonicalConsumption.StatedLotIsCanonical | financial_dashboard/services/investments.py:366-471 | a lot stated by any upload's payload is the first occurrence of a canonical lot |
| CanonicalConsumption.ConsumptionKeysAreCanonicalLots | financial_dashboard/services/investments.py:659-710 | for any two listings of the uploads, one read for disposals and one for lots: every key of the consumption result is the key of a canonical lot, with a remainder from zero to less than its quantity, although one side is built from payload rows and the other from stored rows |
| CasStore.Breakdown | financial_dashboard/services/cas_ingestion.py:126-151 | the holdings are the payload's valued holdings and folios added up by class, one row per class, with the excess of the grand total under other; they add up to the larger of grand total and classified total |
| CasStore.Store.CreateInvestmentLots | financial_dashboard/services/investments.py:194-242 | stores exactly the missing lots of a payload: none twice, nothing when all are there, and for a new upload exactly the extracted lots; returns how many, and the exclusions in row order |
| CasStore.Store.DeleteUpload | financial_dashboard/services/cas_ingestion.py:71-95 | removes an upload with its snapshots, their holdings and its lots, and nothing else |
| CasStore.Store.Ingest | financial_dashboard/services/cas_ingestion.py:29-161 | rejects for the first reason that applies and then changes nothing, an NSDL upload surviving CDSL without force; otherwise replaces the same portfolio and date's uploads by one row with the payload's facts, its snapshot, breakdown and lots; keeps at most one upload per portfolio and date and no orphan rows |
| CasStore.Store.BackfillInvestmentLots | financial_dashboard/services/investments.py:277-316 | completes every decodable upload's lots, reports exactly the malformed ones in id order, only adds rows, and creates nothing when all uploads are complete |
| CasStore.Store.IngestAll | financial_dashboard/services/cas_ingestion.py:29-161 | any run of ingests keeps the tables valid, every upload's lots complete, and exactly one snapshot with its breakdown for every upload |
| CasStore.Store.IngestThenBackfill | financial_dashboard/services/investments.py:277-316 | a backfill after any run of ingests creates nothing |
| CasStore.StoredKeysDistinct | financial_dashboard/services/investments.py:194-242 | no upload of a valid store holds two lots with one natural key |
| CasReads.CompleteStoreAgrees | financial_dashboard/services/investments.py:277-316 | every lot that a payload of a complete store states is among the joined lot rows of its upload |
| CasReads.ReadById | financial_dashboard/services/investments.py:669-689 | the consumption read lists every upload of the tables once, in id order, with its payload rows and its lot rows |
| CasReads.ByDate | financial_dashboard/services/investments.py:376-392 | sorted by statement date and id, as the lot read takes them, they are the same uploads |
| CasReads.ReadCanonical | financial_dashboard/services/investments.py:366-710 | over the tables of a store with complete uploads both reads agree: every consumption key is a listed lot with a remainder below its quantity, and every lot's row is from the first upload of its provenance |
| CasReads.IngestThenRead | financial_dashboard/services/investments.py:659-710 | so they do after any run of ingests, forced or not and whatever it rejects |
| CasReads.BackfillThenRead | financial_dashboard/services/investments.py:277-316 | and after a backfill of any valid store |
| CcCycle.CcCycleWindow | financial_dashboard/services/cc_cycle.py:75-140 | the loop, sort and neighbour look-up compute the window of the statement's place among its account's cycles, or its ingestion range when it has no readable due date |
| CcCycle.WindowsAdjacent | financial_dashboard/services/cc_cycle.py:63-72 | each window ends where the next begins, duplicate due dates included |
| CcCycle.WindowsDisjoint | financial_dashboard/services/cc_cycle.py:75-140 | no day lies in two windows of one account's cycles |
| CcCycle.WindowsTile | financial_dashboard/services/cc_cycle.py:75-140 | a day lies in exactly one window when it is covered - after the first due date once there are two bills, or from the first statement on - and in none otherwise |
| CcCycle.StatementWindowsDisjoint | financial_dashboard/services/cc_cycle.py:75-140 | the same for two dated statements of the table: their windows share no day |
| CcCycle.CoveredDayHasItsStatement | financial_dashboard/services/cc_cycle.py:75-140 | a covered day lies in the window of one of the account's statements |
| CcCycle.WindowByDay | financial_dashboard/services/cc_cycle.py:75-140 | read off the table, a dated bill claims the days after every earlier bill's due day - for the account's first bill those from its creation day on - and, once a later bill exists, up to its own due day |
| CcCycle.PaymentClearsNextDue | financial_dashboard/services/cc_cycle.py:3-15 | a payment clears the bill with the earliest due date on or after it, or the latest bill when all are past due |
| Payments.PlacedByDay | financial_dashboard/services/cc_cycle.py:143-159 | the row predicate places a dated row by its date and a dateless one by its creation day, in the same windows |
| Payments.QualifyingPaymentCreditSum | financial_dashboard/services/reminders.py:352-385 | the summing loop is the sum of the account's bill-payment credits in the statement's window |
| Payments.CreditCountsByDay | financial_dashboard/services/reminders.py:352-385 | one more credit raises a dated bill's sum exactly when it qualifies and falls on a day the bill claims, whether or not it came before the bill |
| Payments.CycleSumsAddUp | financial_dashboard/services/reminders.py:352-385 | over the table: the credit sums of an account's dated statements, each over its own window, add up to its qualifying credits on covered days; none counted twice or dropped |
| Payments.RecomputeHeals | financial_dashboard/services/reminders.py:388-430 | after any history, a recompute sets the paid amount to the window sum, paid exactly when that covers the amount due, the paid-at time on the transition only, and the snapshot to what is left; it touches nothing else |
| Payments.RecomputeIdempotent | financial_dashboard/services/reminders.py:388-430 | a second recompute with the same flag changes nothing, paid-at included |
| Payments.RecomputeIdempotentExactly | financial_dashboard/services/snapshots.py:133-144 | for every ledger it does so exactly when the statement has a creation time or the day has not changed, or the new day's window has the same sum and its snapshot says so already |
| Payments.RecomputeOnNewDayDiffers | financial_dashboard/services/snapshots.py:133-144 | a concrete statement without a creation time whose second recompute, a day later, adds a snapshot |
| Payments.DeletingPaymentUnwindsExactly | financial_dashboard/services/reminders.py:388-430 | inserting a credit, recomputing, deleting it and recomputing equals one recompute without it, exactly when the detour reopens no covered bill |
| Payments.DeletingPaymentUnwinds | financial_dashboard/services/reminders.py:394-397 | deleting any payment that is not negative unwinds it, down to the paid-at time and the snapshot |
| Payments.CollapseToLatest | financial_dashboard/services/reminders.py:59-77 | the dictionary loop collapses the uploads to the latest per account |
| Payments.CollapseIsLatest | financial_dashboard/services/reminders.py:59-77 | exactly one statement stays for each account with a dated one, the one its own scan finds latest |
| Payments.LatestLeads | financial_dashboard/services/reminders.py:74-76 | that one is due after every earlier dated statement of the account and not before any later one |
| PaymentTriggers.LatestCycleIsLatest | financial_dashboard/services/reminders.py:433-463 | a trigger acts on a tracked statement of the account than which none is due later, or on none when no tracked one is dated |
| PaymentTriggers.MarkSurvivesResyncs | financial_dashboard/services/reminders.py:302-338 | after a manual mark any number of resyncs leaves the ledger alone, the statement paid |
| PaymentTriggers.DeletionReopensMark | financial_dashboard/services/reminders.py:487-506 | when a payment transaction of the account is deleted, its latest bill, marked by hand, stays paid if and only if the credits left cover it |
| PaymentTriggers.RevertKeepsAmountExactly | financial_dashboard/web/statements.py:495-537 | reverting to unpaid keeps the paid amount if and only if the row is untracked, reads as partially paid, or has nothing on it |
| PaymentTriggers.RevertAfterRecompute | financial_dashboard/web/statements.py:495-537 | of the credits a recompute has counted, a revert keeps a part payment and forgets a payment in full: the bill and its snapshot then owe everything |
| PaymentTriggers.RevertedMarkForgetsPartialPayment | financial_dashboard/web/statements.py:495-537 | a manual mark in between makes a revert forget a part payment too |
| Reminders.RevertAfterLatePoll | financial_dashboard/web/statements.py:524-535 | so does a poll that turns the partly paid bill late: the poll keeps the amount and the revert sets it to zero |
| PaymentTriggers.RecomputeAfterRevert | financial_dashboard/services/reminders.py:388-430 | what a revert forgot comes back with the next recompute |
| PaymentTriggers.TrackingCountsEarlierCredits | financial_dashboard/services/reminders.py:80-132 | a statement starts being tracked exactly when it is due this month or later with a readable total and no status; it is born paid exactly when nothing is owed or earlier credits cover it, with the window sum as paid amount and a snapshot of what is left; tracking it again does nothing |
| PaymentTriggers.FirstBillMissesEarlierPayment | financial_dashboard/services/reminders.py:107-114 | a concrete first bill, paid in full by a qualifying payment two days before it was ingested, that is born unpaid |
| PaymentTriggers.RefireChangesNothing | financial_dashboard/services/reminders.py:509-543 | while the bill stays unpaid, firing the payment trigger again changes nothing, however much later |
| PaymentTriggers.RefireChangesNothingExactly | financial_dashboard/services/reminders.py:509-543 | the exact condition: the bill is unpaid, or no other active bill with a readable total is left, or that one is up to date |
| PaymentTriggers.RefireAfterPaymentReachesOlderBill | financial_dashboard/services/reminders.py:509-543 | two concrete bills and one bank-detected payment: the trigger it fires finds the newer bill fully paid and leaves the older one alone, and firing again marks the older bill partially paid with nothing on it |
| PaymentTriggers.TriggersSparePaid | financial_dashboard/services/reminders.py:509-543 | any number of triggers leaves every paid statement as it is |
| Reminders.SweepSchedule | financial_dashboard/services/reminders.py:205-235 | the loop over the schedule grows the used offsets and sends at most one notification |
| Reminders.SweepExact | financial_dashboard/services/reminders.py:209-235 | it uses up exactly the offsets whose day has come (advance ones too when late), and notifies exactly when one of them is new and not an advance one come late |
| Reminders.PollStatementLaws | financial_dashboard/services/reminders.py:169-235 | one statement in one poll, exactly: offsets used, whether a reminder goes out and its time, the move to late, and the zero-due path that sets paid without a paid-at time |
| Reminders.PollListedAt | financial_dashboard/services/reminders.py:153-237 | each latest active statement is polled exactly once, from its state at the start, and no other row changes |
| Reminders.PollLaws | financial_dashboard/services/reminders.py:135-239 | a poll reminds about a statement at most once and then uses up an offset; never about a paid one or one more than seven days past due |
| Reminders.RemindersBounded | financial_dashboard/services/reminders.py:135-239 | over any run of polls, payments, deletions, marks, reverts, reprocessings, resyncs and uploads a statement gets at most as many reminders as the schedule has unused offsets, plus the whole schedule once for each time it was reverted to unpaid or its bill parsed differently; between those its used offsets only grow |
| CardLedger.Tables.HandleAll | financial_dashboard/services/reminders.py:135-576 | a run of events on the tables is the run of the ledger, and no statement gets more reminders than the schedule's offsets times one more than its restarts |
| CardLedger.Tables.EmitSnapshot | financial_dashboard/services/snapshots.py:115-145 | overwrites the account's snapshot of the creation day with what is outstanding, or nothing when the total is unreadable |
| CardLedger.Tables.UpsertAccountSnapshot | financial_dashboard/services/snapshots.py:24-55 | keeps at most one row per account, category and day: a row of that day is overwritten under its own id, otherwise one is inserted under a new id; of the outstanding balances only that day's changes |
| CardLedger.Tables.RecomputeCcPaymentState | financial_dashboard/services/reminders.py:388-430 | the field-by-field update equals one recompute of the ledger |
| CardLedger.Tables.OnPaymentReceived | financial_dashboard/services/reminders.py:509-576 | updates the tables as the payment trigger, and says whether the bill is fully paid |
| CardLedger.Tables.OnPaymentDeleted | financial_dashboard/services/reminders.py:487-506 | updates the tables as the delete trigger, paid cycles included |
| CardLedger.Tables.ResyncTracked | financial_dashboard/services/reminders.py:466-484 | updates the tables as a resync |
| CardLedger.Tables.OnMarkedPaid | financial_dashboard/services/reminders.py:302-339 | updates the tables as a manual mark |
| CardLedger.Tables.OnMarkedUnpaid | financial_dashboard/web/statements.py:524-535 | updates the tables as a revert to unpaid |
| CardLedger.Tables.OnReprocessed | financial_dashboard/web/statements.py:756-785 | updates the tables as a statement parsed anew: payment state starts over when due date or total reads differently |
| CardLedger.Tables.StartTracking | financial_dashboard/services/reminders.py:80-132 | updates the tables as the start of tracking |
| CardLedger.Tables.CheckAndSendReminders | financial_dashboard/services/reminders.py:135-239 | the poll loop over the rows in place equals one poll of the ledger, and returns the reminders sent; nothing happens while reminders are switched off |
| Snapshots.LatestPerSource | financial_dashboard/services/networth.py:45-59 | the dictionary loop keeps, for each source with a snapshot by the date, its latest by (date, id), whatever the order, and lists the sources by first appearance |
| Snapshots.SumSnapshots | financial_dashboard/services/networth.py:260-269 | assets and liabilities are the totals over INR snapshots, in whatever order the sources are visited |
| Snapshots.NetWorthUnique | financial_dashboard/services/networth.py:45-59 | latest per source names one net worth |
| Snapshots.ReadSnapshots | financial_dashboard/services/networth.py:77-98 | the query lists, by date and id, exactly the snapshots that no inactive account or manual item hides |
| Snapshots.StaleCountsDays | financial_dashboard/services/networth.py:116-118 | a snapshot is stale exactly when today comes more calendar days after it than its category allows, counted day by day through months and leap years |
| SnapshotGroups.GroupByCategory | financial_dashboard/services/networth.py:104-146 | one group per category and kind that a counted source has, with that group's total and its sources sorted by name, in order |
| SnapshotGroups.GroupsAddUp | financial_dashboard/services/networth.py:102-146 | the groups of a kind add up to the kind's total over latest per source: no source is left out or counted twice |
| SnapshotGroups.StaleShown | financial_dashboard/services/networth.py:116-180 | the groups show a stale row exactly when a counted source's latest snapshot is stale |
| SnapshotGroups.HoldingBreakdown | financial_dashboard/services/networth.py:148-172 | one line per asset class and name of the holdings behind counted investments, with its sum, in order |
| Tally.TallyAddsUp | financial_dashboard/services/networth.py:134-172 | sums by key add up to what was summed, over all keys and over any selection of them |
| NetWorth.CurrentNetworth | financial_dashboard/services/networth.py:72-182 | assets less liabilities over latest per source; the groups, which add up to both, with their sources; the holding breakdown; and whether any counted source is stale |
| NetWorth.MonthlyTrend | financial_dashboard/services/networth.py:185-280 | the single pass over the snapshots yields one point per month from the first snapshot's to today's, each the net worth by the simple definition at that month's cutoff, the last one at today; empty exactly without history |
| NetWorth.TrendEndsAtCurrent | financial_dashboard/services/networth.py:185-280 | over one table the last point of the trend is the current net worth; an empty trend means that no shown snapshot is dated by today |
| Masks.NormalizeMask | financial_dashboard/core/masks.py:34-65 | the character loop keeps digits and wildcards in place, drops separators, and rejects the whole mask on any other character |
| Masks.NormalizeIdempotent | financial_dashboard/core/masks.py:34-65 | the result holds only digits and the one wildcard, and normalizing it again changes nothing |
| Masks.TrailingVisibleDigits | financial_dashboard/core/masks.py:68-86 | the loop counts the maximal run of digits at the right edge |
| Masks.MaskMatches | financial_dashboard/core/masks.py:89-109 | the right-aligned loop decides compatibility at every overlapping position |
| Masks.MatchesIffCommonNumber | financial_dashboard/core/masks.py:89-109 | two normalized masks match if and only if some digit string of the longer length agrees, right-aligned, with every visible digit of both |
| Masks.MatchesSymmetric | financial_dashboard/core/masks.py:89-109 | which side is the pattern does not matter |
| Masks.MatchesNumber | financial_dashboard/core/masks.py:89-109 | a mask matches a longer number if and only if the number agrees with its visible digits |
| Masks.MaskedSuffixMatches | financial_dashboard/core/masks.py:89-109 | hiding any digits of a suffix leaves a mask that matches the whole number |
| Linker.BuildLinkContext | financial_dashboard/services/linker.py:150-193 | the lookup tables hold, per normalized bank, exactly the usable cards, numbers and accounts of the rows |
| Linker.LinkTransaction | financial_dashboard/services/linker.py:255-380 | sets account and card as the cascade decides, leaves an already linked row alone, and says whether the row is linked |
| Linker.LinksTheSoleFit | financial_dashboard/services/linker.py:255-380 | the cascade equals its reading off the tables: the first tier with exactly one fitting row, ambiguous tiers passed over |
| Linker.AmbiguousCardsFallThrough | financial_dashboard/services/linker.py:292-335 | with two or more fitting cards a row stays unlinked if and only if no account number singles one account out, under the card mask or a usable account mask; otherwise it is linked to that account, without a card |
| Linker.AmbiguousCardsStillLink | financial_dashboard/services/linker.py:292-321 | two cards that carry their account's number, and a message with it: ambiguous among the cards, linked to the account |
| Linker.CardLinkNeverGuesses | financial_dashboard/services/linker.py:196-221 | a card link means that a card fits, and every fitting card row is the linked card of the linked account |
| Linker.AccountLinkNeverGuesses | financial_dashboard/services/linker.py:224-247 | any other link sets no card, and an account fits the deciding tier if and only if it is the linked one |
| Linker.RelinkOrphans | financial_dashboard/services/linker.py:388-425 | each row's account and card are a function of the tables and its own facts, hence independent of the batch order; the two counts are exact |
| Linker.RelinkTwice | financial_dashboard/services/linker.py:388-425 | a second relink over unchanged accounts links nothing |
| CcDisambiguation.FindCcAccountByTotalDue | financial_dashboard/services/cc_disambiguation.py:173-249 | the loop finds the sole candidate whose latest open bill has the amount as its total |
| CcDisambiguation.ResolveCcPaymentAccount | financial_dashboard/services/cc_disambiguation.py:116-383 | takes the bank's credit cards as candidates and assigns, asks with their ids and names, or leaves alone as the tiers decide; an assigned row, a debit or another kind of message is never touched |
| CcDisambiguation.ByTotalDueExactly | financial_dashboard/services/cc_disambiguation.py:173-249 | a match by total happens if and only if the assigned card is the only one whose latest open bill has that total |
| CcDisambiguation.ByOutstandingExactly | financial_dashboard/services/cc_disambiguation.py:323-359 | a match by balance happens if and only if no total decides, every candidate's latest statement is known, and the card alone owes exactly the amount |
| CcDisambiguation.BySoleOutstandingExactly | financial_dashboard/services/cc_disambiguation.py:361-379 | a match on the only indebted card happens if and only if neither decides before, all are known, and its balance does not go below zero |
| AmPm.DisambiguateAmPm | financial_dashboard/services/emails.py:92-154 | the loop over the candidates returns the plausible reading nearest to the arrival, the morning one on a tie, and the printed time when none is plausible or nothing is ambiguous |
| AmPm.ResolvesOnce | financial_dashboard/services/emails.py:92-154 | that promise names one time |
| AmPm.OnlyTheHalfChanges | financial_dashboard/services/emails.py:92-154 | only the half of the day can change |
| AmPm.RecoveredExactly | financial_dashboard/services/emails.py:78-154 | the true time of a transaction comes back from its 12-hour rendering if and only if the alert's delay allows it, for every delay |
| AmPm.WindowIsWidest | financial_dashboard/services/emails.py:78-89 | five minutes early up to, not at, 11 h 55 min late is the widest range of delays that brings back every time |
| AmPm.LateMorningAlertMisread | financial_dashboard/services/emails.py:78-89 | at exactly 11 h 55 min every morning time is misread as evening |
| SourceSlots.Session.ClaimTransactionSourceSlot | financial_dashboard/services/email_attachments.py:53-101 | the conditional update and the cached row change as the transition says: kept, claimed, lost or locked out |
| SourceSlots.Session.ExecuteUpdate | financial_dashboard/services/email_attachments.py:81-96 | the update matches its row exactly when the slot is open or already holds the source |
| SourceSlots.SlotsAreNeverStolen | financial_dashboard/services/email_attachments.py:53-101 | over any interleaving of loads, claims, commits and rollbacks a recorded owner stays |
| SourceSlots.OneSourceWinsEachSlot | financial_dashboard/services/email_attachments.py:53-101 | all committed enrichments that found a slot open were made for one source, the recorded owner |
| SourceSlots.ReturnedClaimOwns | financial_dashboard/services/email_attachments.py:53-101 | a claim that saw an open slot and returned owns it once committed, whatever the others do meanwhile and ever after |
| SourceSlots.LoserRaisesFirst | financial_dashboard/services/email_attachments.py:93-96 | a racer that still sees the slot open fails before any enrichment and changes no row |
| SourceSlots.OpenSlotIsClaimed | financial_dashboard/services/email_attachments.py:81-101 | an open slot nobody is writing can be claimed, and the commit records the source in that slot alone |
| HealthCache.QuickCheckCacheState.CachedQuickCheck | financial_dashboard/services/database.py:233-239 | returns the stored verdict exactly while it is unexpired |
| HealthCache.QuickCheckCacheState.CacheQuickCheck | financial_dashboard/services/database.py:242-248 | a lookup at any later time finds the stored verdict until the time to live has passed, and nothing from then on |
| HealthCache.QuickCheckCacheState.EnterLock | financial_dashboard/services/database.py:416-418 | taking the lock and looking again keeps the lock only if there is nothing to use |
| HealthCache.QuickCheckCacheState.LeaveLock | financial_dashboard/services/database.py:419-427 | leaving stores a completed live scan's verdict and nothing else, and frees the lock |
| HealthCache.StepKeeps | financial_dashboard/services/database.py:398-432 | every step of requests, cancellations and clock keeps the protocol's invariant |
| HealthCache.SingleFlight | financial_dashboard/services/database.py:398-432 | over any run at most one request scans an engine at a time |
| HealthCache.ScansDoNotOverlap | financial_dashboard/services/database.py:416-427 | between two scans of one engine the earlier one ends |
| HealthCache.ScansAreSpaced | financial_dashboard/services/database.py:233-248 | a scan begins at least the time to live after any stored one on its engine |
| HealthCache.CachedResponsesAreRecent | financial_dashboard/services/database.py:409-414 | every cache-served response repeats a completed live scan of its engine, unexpired at the lookup |
| HealthCache.FailureFreesTheLock | financial_dashboard/services/database.py:416-427 | a failed or cancelled scan stores nothing and frees the lock, and any waiting request can then scan |
| RupeeFormat.GroupDigits | financial_dashboard/core/templating.py:59-67 | the loop that shrinks the head and grows the list of groups gives Indian grouping |
| RupeeFormat.FormatInrExact | financial_dashboard/core/templating.py:36-68 | the printed text is sign, symbol, grouped rupees and two digits of paise of the amount rounded half up |
| RupeeFormat.RoundingIsUnique | financial_dashboard/core/templating.py:56 | half-up rounding names one number of paise |
| RupeeFormat.PrintedReadsBack | financial_dashboard/core/templating.py:56-68 | dropping sign, symbol and commas and reading back gives the paise, for every amount |
| RupeeFormat.FormattedAmountReadsBack | financial_dashboard/core/templating.py:56-68 | a printed amount reads back as p paise if and only if p is the amount rounded half up |
| RupeeFormat.GroupingShape | financial_dashboard/core/templating.py:39-41 | counted from the right a comma stands at exactly every third place from the fourth on and never in front, so the last group has three digits, inner ones two, the first one or two |

## Left out

- Dates and amounts as text: dates, due dates and totals come parsed, absent or unreadable; a date string on which the parser itself raises is not modelled.
- JSON values of the wrong type in text fields: every text field is absent or text, every number field absent, unreadable or a number with its normalized printed form.
- Decimal context precision, the rounding of SQL numeric columns and negative zero: arithmetic is exact except for the code's own quantize and tolerance steps.
- Case mapping beyond ASCII letters in upper and lower.
- The detail texts of exclusions, log messages, chart labels and notification texts.
- CasReads.ReadCanonical: a lot row is identified by its upload and its position among that upload's rows, which is the order of their row ids.
- CasStore.Store.Ingest: a payload whose amounts are no numbers, on which the code raises, is not modelled.
- CardLedger.Tables.CheckAndSendReminders: the two settings that switch reminders off are one flag and the schedule is a list of whole days; whether a message reaches Telegram does not matter to the code either. Commit and notification order are not modelled.
- Reminders.RemindersBounded: the deletion of a statement is not an event of a run.
- PaymentTriggers.MarkSurvivesResyncs: the checks of the Telegram callback (chat, message, id) are not modelled.
- CcDisambiguation.ResolveCcPaymentAccount: the candidates come in table order, as the query without an order returns them in practice; nothing but the order of the question depends on it.
- SourceSlots.SlotsAreNeverStolen: covers claims, commits and rollbacks of whole transactions; savepoints and other code that writes the slot column or deletes transactions are not part of this model. One writer at a time is SQLite's rule; a session that cannot get the lock fails without effect.
- HealthCache.SingleFlight: concerns requests whose engine is known; a request without one scans on its own, as in the code. Engines are never collected.
- AmPm.DisambiguateAmPm: Indian standard time is a fixed offset; which message types are ambiguous is decided by the caller.
- RupeeFormat.FormatInrExact: the type error for floats has no counterpart, since amounts are exact.
- get_current_valuations, get_positions and the bounded read endpoints: single queries and branches that would only add easy members.
- merge_transaction, find_match, the statement reconcilers, the Paisa projection and the inline migrations: not part of this model.
- Mailbox access, PDF, e-mail and SMS parsing, routes, templates, settings and encryption: input and output around the modelled logic.
