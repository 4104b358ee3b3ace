# ServeProof: a verified model of tips, payouts and income

ServeProof pools a venue's tips for a business date, splits the pool among the people who
worked, pays the shares in USDC on Solana or by older rails, and keeps an income record of
what was earned, allocated, paid and reported. This project models the parts of it that move
or account for money and proves what they promise.

- `SettlementProgram`: the on-chain program, as a function from accounts to accounts and as a
  class whose methods write the accounts.
- `Chain`, `BlockhashRules`: the cluster: one surviving fork of landed transactions, dropped
  forks, confirmed height, finalized root, signature statuses.
- `Ledger`, `PayoutHandlers`, `LedgerHandlers`: batches, allocation rows and payouts, and what
  every handler of the API and the worker does to them.
- `Database`, `PayoutsService`, `SettlementWorker`, `BatchServices`: the same handlers as
  methods over mutable tables, statement by statement, each proved equal to its function.
- `Protocol`, `ProtocolInvariant`, `ProtocolTheorems`, `LedgerInvariant`: API, worker, program
  and cluster as one transition system, its invariant, and what holds in every run.
- `Shortfalls`, `RollUps`: what payouts lack of their rows and when batch statuses are exact, over every run.
- `Refusals`: which refusals of a settlement are for good and which other calls can lift.
- `LatePayments`, `CarefulRuns`: settlements that come after a payout was given up, by evidence on
  another rail or for an error: when they can come, when they cannot, and what careful runs keep.
- `VenueDays`: what a venue's day pays over all its batches, one per policy version.
- `ProtocolWitness`, `MergeWitness`, `LateWitness`, `DayWitness`: whole runs, to a paid batch, to shares
  merged too late, to settlements that come too late and to a day paid twice.
- `Apportionment`, `AllocationEngine`, `IncomeSplit`: the largest-remainder split as a property
  of the shares, and the two implementations of it.
- `MappingTiming`, `MappingNeutral`, `MappingLedger`, `MappingWitness`: connecting a held worker before or after the calculation.
- `IncomeProjection`, `IncomeLineage`, `IncomeRebuild`: income entries, rebuilt and corrected.
- `ProgramAnswers`, `PayoutAnswers`, `BatchAnswers`, `EngineAnswers`, `IncomeAnswers`, `CsvAnswers`: what each operation
  answers and writes, said of the accounts, rows, shares and entries themselves and not by way of the
  functions that compute it; and over runs, who ends up with the money.
- `Base58`, `Csv`, `Money`: the text formats.
- `Sums`, `Wrappers`: finite sums and result types.

## How the payout protocol is modelled

Each handler, and each payout's turn in the reconcile sweep, is one step. Submitting is two
steps, the check and the compare-and-set claim, because two tabs may both pass the check; any
number of requests may be in between. Sending a transaction and its landing are separate
steps. The cluster moves on its own: any transaction that was sent may land while it is
valid, forks are dropped, heights and roots advance. What the handlers read from the cluster is a
parameter of the step, constrained only as follows.

Assumptions about the cluster and the clients:

1. The confirmed height and the finalized root never go back, and no rollback reaches a block
   at or below the confirmed height.
2. A transaction lands at most once on a fork, in a block not above its last valid block height.
3. A signature status names the surviving inclusion if there is one. If there is none it is
   absent, or a stale observation that is not finalized.
4. In the confirmation handler status and height are one snapshot; the sweep's height was
   sampled earlier; a submit's height was sampled before its claim.
5. Signed bytes handed to submit are those of a transaction built for that payout (the code
   compares the blockhash only), and only built transactions carry settle_payout.
6. A blockhash just fetched is still valid, and every blockhash has one last valid height.
7. Database ids are never reused. Weights are non-negative and tips positive, as the policy
   endpoint (apps/api/src/policies/policies.controller.ts:10) and ingestion
   (apps/api/src/evidence/csv-normalizer.ts:125) check.

## Where the code does less than one might expect

- A held share merged into a row after the row's payout was made is not part of that payout, whatever
  its status, and stays unpaid once it is finalized. The `Shortfalls` results say exactly how much a
  payout lacks after any run; the `MergeWitness` runs show it.
- Attaching does not refresh the batch: its status is exact until the last unpaid row is merged away,
  and wrong from then on (`RollUps.RollUpIsExact`).
- Mapping a held worker who already has a share in the batch can move a cent between people although
  no two remainders tie (`MappingWitness.MappingCanMoveACent`); `MappingNeutral.MappingTimeIsIrrelevantIff`
  says exactly when.
- A venue's deposits less its balance are its settlements only as long as nobody is paid into a
  vault: `SettlementProgram.DepositsAreSpentOnSettlements` is an equivalence, `SettlementProgram.AVaultCanBePaid`
  a run in which it fails.
- An all-zero byte string is encoded with one "1" too many: `Base58.DecodeOfEncode`.
- Payroll reports with overlapping periods overwrite each other's shares (`IncomeProjection.OverlapReplacesCents`):
  a report's shifts show its cents plus what later reports changed (`IncomeProjection.ReportShowsWhatWasNotTakenOver`),
  so only a report whose shifts no later one covers is sure to be conserved.
- Evidence of a payment on another rail is accepted while a USDC transaction is still out, and then a share
  can be paid twice: `LateWitness.ADollarCanBePaidTwice`. Evidence is the last word when the payment is quiet,
  that is, has no record yet and nothing out in time (`LatePayments.QuietEvidenceIsFinal`). When a transaction
  could still be accepted, at once or after a dropped fork, it is not (`LatePayments.EvidenceCanBePaidTwice`);
  `LatePayments.EvidenceIsFinalIff` says exactly when.
- An on-chain error is believed at any commitment level, and below "finalized" a fork can take it back: the
  payment settles, the payout stays failed, the sweep no longer looks at it and a rebuild is refused
  (`LateWitness.AnErrorCanBeTakenBack`, `CarefulRuns.GivenUpIsNeverNoticed`). Read at "finalized", or past the
  blockhash's expiry, it is final (`CarefulRuns.FinalErrorsAreFinal`); `CarefulRuns.ErrorIsFinalIff` says exactly when.
- A day's tips can be calculated, approved and paid once per policy version: `DayWitness.ADayCanPayItsTipsTwice`.
  `VenueDays.OneApprovedIff` and `VenueDays.ADayPaysItsTipsOnce` say when a day pays one pool only.

## Model

| member | source | states |
|---|---|---|
| `ProtocolTheorems.NewBlockhashOnlyWhenOldOnesAreSpent` | apps/api/src/payouts/payouts.service.ts:165-221 | in every reachable state, when a new blockhash is recorded for a payout, every signature sent for it before is expired at the confirmed height and has not settled it |
| `ProtocolTheorems.AtMostOneCanStillLand` | apps/api/src/payouts/payouts.service.ts:104-114 | in every reachable state at most one signature of a payout is sent, unexpired and not yet on the fork |
| `ProtocolTheorems.AtMostOneCanLandNext` | packages/shared/src/solana-transaction.ts:5-10 | whatever settlements of a payment the cluster could take into a block next are one and the same |
| `ProtocolTheorems.OneSettlementOnTheFork` | onchain/programs/serveproof/src/lib.rs:268-311 | the surviving fork never holds two successful settlements of one payment |
| `ProtocolTheorems.DropVerdictsAreSound` | apps/worker/src/solana-settlement.service.ts:133-160 | a payout failed as dropped, by either handler, has a signature that is in no finalized block then or after any further steps |
| `ProtocolTheorems.DroppedPaymentStaysUnpaid` | apps/worker/src/solana-settlement.service.ts:223-262 | nor is its payment settled on any fork for as long as nobody builds it a new transaction |
| `ProtocolTheorems.SettlementsAreForever` | onchain/programs/serveproof/src/lib.rs:109-118 | a finalized settlement keeps its terms through every later step of the whole protocol |
| `ProtocolTheorems.PaidMeansSettled` | apps/worker/src/solana-settlement.service.ts:330-364 | in every reachable state a row is paid exactly when its payout is finalized, and a finalized USDC payout has a finalized record of exactly its cents, wallet, venue and batch hash; `CarefulRuns.SettledMeansFollowed` is the way back |
| `ProtocolTheorems.RollUpIsSound` | apps/worker/src/solana-settlement.service.ts:405-419 | PAYABLE means no row paid, PARTIALLY_PAID some, PAID all, in every reachable state |
| `RollUps.StepKeepsExact` | apps/worker/src/solana-settlement.service.ts:405-419 | every step keeps an approved batch's status exact, or wrong, except that merging away its last unpaid row makes it wrong |
| `RollUps.RollUpIsExact` | apps/api/src/payouts/payouts.service.ts:444-452 | after any run from the start an approved batch's status is exactly what its rows deserve if and only if its last unpaid row was never merged away |
| `ProtocolTheorems.RowsCarryThePool` | apps/api/src/allocations/allocations.service.ts:136-187 | the rows of a calculated, payable or paid batch add up to its pool in every reachable state |
| `ProtocolTheorems.NoBatchPaysMoreThanItsPool` | apps/api/src/payouts/payouts.service.ts:116-152 | payout amounts over a batch add up to at most its pool, and settled amounts, taken alone, to at most 10,000 times it, merges between attempts included |
| `CarefulRuns.CashAndChainWithinPool` | apps/api/src/payouts/payouts.service.ts:365-430 | what a batch paid by evidence and what it paid on the chain, finalized or not, stay within its pool together in every run that takes evidence for quiet payments only |
| `VenueDays.ADayPaysItsApprovedPools` | apps/api/src/allocations/allocations.service.ts:70-80 | in every reachable state the payouts of a venue and date, and its settlements, stay within the pools of the batches approved for it |
| `VenueDays.StepApproves` | apps/api/src/allocations/allocations.service.ts:231-262 | an approved batch stays approved in every step, and approving a calculated one is the only way there |
| `VenueDays.OneApprovedIff` | apps/api/src/allocations/allocations.service.ts:231-262 | after any run a day has at most one approved batch if and only if none was approved while another of the day already was |
| `VenueDays.ADayPaysItsTipsOnce` | apps/api/src/allocations/allocations.service.ts:70-80 | and then, with evidence taken for quiet payments only, the day has paid at most that one pool, in cash and on the chain together |
| `DayWitness.ADayCanPayItsTipsTwice` | apps/api/src/allocations/allocations.service.ts:70-80 | a run in which a day's one tip is calculated and approved under two policy versions: a dollar on the chain and a dollar in cash |
| `LatePayments.QuietEvidenceIsFinal` | apps/api/src/payouts/payouts.service.ts:365-430 | evidence accepted for a payment without a record, whose last blockhash is missing or expired or unused, is the last word: no later state of any run has a record of the payment, and the payout stays finalized on its rail |
| `LatePayments.EvidenceCanBePaidTwice` | apps/api/src/payouts/payouts.service.ts:365-430 | if the cluster could accept a transaction of the payment, at once or after dropping blocks that are not confirmed, evidence accepted now can be followed by that very settlement |
| `LatePayments.EvidenceIsFinalIff` | apps/api/src/payouts/payouts.service.ts:365-430 | evidence is followed by no settlement in any run if and only if each transaction built for the payment has not paid and is expired, was never sent, is in a confirmed block, or is barred by the program; otherwise the cluster alone can settle the payment as well (payments into a venue's vault must fit into it) |
| `LateWitness.ADollarCanBePaidTwice` | apps/api/src/payouts/payouts.service.ts:365-430 | a run to two dollars paid from a pool of one: evidence accepted while the transaction was out, which then lands |
| `LatePayments.NeverSettlesIff` | apps/worker/src/solana-settlement.service.ts:223-262 | the same equivalence for a payout out of flight for any reason, failed ones included, until somebody rebuilds it |
| `CarefulRuns.FinalErrorsAreFinal` | apps/worker/src/solana-settlement.service.ts:91-98 | failed by either handler for an error read at finalized, or after its blockhash expired, a payment is settled in no later state of any run without a rebuild |
| `CarefulRuns.EarlyErrorsCanBeTakenBack` | apps/worker/src/solana-settlement.service.ts:209-211 | if the cluster could accept the payment's transaction, at once or after dropping the very fork on which it failed, the error was not final, and that block pays a payout that is failed |
| `CarefulRuns.ErrorIsFinalIff` | apps/worker/src/solana-settlement.service.ts:91-98 | for both handlers: after an error is believed the payment is never settled without a rebuild if and only if the signature is expired, in a confirmed block, or barred by the program; otherwise the cluster alone can settle it while the payout stays failed |
| `Refusals.RefusalIsForGoodIff` | onchain/programs/serveproof/src/lib.rs:77-107 | other calls can lift the refusal of a payment to an ordinary wallet if and only if it is not settled already and not barred: bad terms, a venue under another authority or inactive, a wallet too full |
| `Refusals.BarredOverCalls` | onchain/programs/serveproof/src/lib.rs:50-165 | what is barred stays barred over any run of calls |
| `LateWitness.AnErrorCanBeTakenBack` | apps/worker/src/solana-settlement.service.ts:91-98 | a run in which an error seen at processed is believed, on a fork still to be dropped, and taken back: payout and row failed, the settlement finalized |
| `CarefulRuns.GivenUpIsNeverNoticed` | apps/worker/src/solana-settlement.service.ts:176-190 | a failed payout whose payment is finalized stays failed, or is made anew and never built, over every run without evidence for it |
| `CarefulRuns.SettledMeansFollowed` | apps/worker/src/solana-settlement.service.ts:330-364 | after any run that takes evidence for quiet payments only and believes final errors only, every settled payment has a payout that is finalized as USDC, or in flight and tracking the transaction that settled it |
| `CarefulRuns.FinalizedMeansFollowed` | apps/worker/src/solana-settlement.service.ts:330-364 | in particular every payment with a finalized record |
| `CarefulRuns.StepKeepsFollowed` | apps/worker/src/solana-settlement.service.ts:73-270 | every such step keeps each payout in flight, finalized as USDC, or without anything that could still pay it |
| `Shortfalls.StepMovesShortfall` | apps/api/src/mappings/mappings.service.ts:244-253 | every step moves what a payout lacks of its row's net by exactly the cents it merges into the row, or starts the payout anew lacking nothing |
| `Shortfalls.WholeUntilAMerge` | apps/api/src/payouts/payouts.service.ts:116-127 | a payout of its row's whole net, in any status, is one after a step if and only if the step merges no share worth something into the row |
| `Shortfalls.PayoutsLackWhatWasMerged` | apps/api/src/payouts/payouts.service.ts:76-152 | in every run from the start a payout lacks exactly what was merged into its row since it was last made |
| `Shortfalls.FinalizedIsForGood` | apps/worker/src/solana-settlement.service.ts:330-337 | a finalized payout never changes in any later step |
| `Shortfalls.MergedAfterwardsStaysUnpaid` | apps/api/src/mappings/mappings.service.ts:244-253 | cents merged into a row after its payout is finalized are exactly what stays unpaid in every later state |
| `MergeWitness.AMergeCanStayUnpaid` | apps/api/src/mappings/mappings.service.ts:244-253 | a run to a worker paid half a dollar in cash whose other half is merged in afterwards: all rows paid, half unpaid, the batch still partially paid |
| `MergeWitness.AMergeCanComeTooLate` | apps/api/src/payouts/payouts.service.ts:116-127 | a run in which the row is not even paid: a payout just created already has its amount |
| `ProtocolTheorems.ReconcileResolves` | apps/worker/src/solana-settlement.service.ts:176-270 | past expiry and past any observed slot, the next reconcile turn ends the payout in FINALIZED or FAILED |
| `ProtocolTheorems.PatienceNeverGrows` | apps/worker/src/solana-settlement.service.ts:204-207 | over any run without a rebuild the measure of how long a payout may stay in flight never grows, shrinks with every confirmed block, and is down to one turn once the height has passed the expiry |
| `ProtocolTheorems.LastTurnEndsTheFlight` | apps/worker/src/solana-settlement.service.ts:305-328 | at the measure's last value a reconcile turn behind the root brings it to zero |
| `ProtocolWitness.ADollarCanBePaid` | apps/worker/src/solana-settlement.service.ts:189-194 | a run from an empty database to a calculated, approved, built, submitted, landed and reconciled payout: finalized, its row and batch paid, its settlement on the chain |
| `ProtocolInvariant.StepKeepsInv` | apps/api/src/payouts/payouts.service.ts:159-344 | every step of API, worker, program and cluster keeps the invariant that the theorems rest on |
| `ProtocolInvariant.RunKeepsInv` | apps/worker/src/solana-settlement.service.ts:73-270 | so does every run |
| `ProtocolInvariant.EarlierAreSpent` | apps/api/src/payouts/payouts.service.ts:171-183 | the record and height checks of a rebuild together imply that nothing built before can still pay |
| `ProtocolInvariant.CheckedLastValid` | apps/api/src/payouts/payouts.service.ts:262-269 | comparing blockhashes pins the expiry height the submit will be judged by |
| `ProtocolInvariant.FinalizedTermsAgree` | apps/worker/src/solana-settlement.service.ts:338-342 | a finalized record of a payout in flight carries the payout's amount, wallet and venue and its batch's hash, so the amount mismatch is never logged |
| `ProtocolInvariant.DropIsFounded` | apps/worker/src/solana-settlement.service.ts:305-328 | a dead tracked signature with an expired row blockhash means nothing ever built settles the payment |
| `ProtocolInvariant.DroppedIsDead` | apps/worker/src/solana-settlement.service.ts:187-252 | either drop reason is given for a dead signature only |
| `ProtocolInvariant.ConfirmationIsFounded` | apps/worker/src/solana-settlement.service.ts:73-160 | every verdict of the confirmation handler is founded in the cluster's state |
| `ProtocolInvariant.ReconcileIsFounded` | apps/worker/src/solana-settlement.service.ts:190-265 | and every verdict of the sweep |
| `ProtocolInvariant.ResendKeepsNetwork` | apps/worker/src/solana-settlement.service.ts:272-303 | a rebroadcast sends only bytes that were sent before |
| `ProtocolTheorems.NeverResendsAndRetires` | apps/worker/src/solana-settlement.service.ts:133-167 | no turn of either handler sends a payout's bytes again and also finalizes, fails or confirms the payout |
| `BlockhashRules.ReplaceableIsDead` | packages/shared/src/solana-transaction.ts:22-31 | a blockhash that may be replaced belongs to a transaction that can never land |
| `Chain.RecordComesFromTx` | onchain/programs/serveproof/src/lib.rs:109-118 | every record on the fork was written by a landed settlement with exactly its terms |
| `Chain.FinalizedRecordsAreForever` | onchain/programs/serveproof/src/lib.rs:109-118 | a finalized record survives whatever the cluster does, with its terms |
| `Chain.ObservedForkWasDropped` | apps/worker/src/solana-settlement.service.ts:305-318 | an observed slot behind the root with no finalized transaction means the signature is dead |
| `Chain.ExpiredSettlementIsVisible` | apps/api/src/payouts/payouts.service.ts:171-175 | an expired transaction that settled has a record visible at "confirmed" |
| `SettlementProgram.AtMostOneSettlement` | onchain/programs/serveproof/src/lib.rs:268-311 | over any run of calls a payment is settled at most once, exactly when its record appears, and no record loses its terms |
| `SettlementProgram.DepositsAreSpentOnSettlements` | onchain/programs/serveproof/src/lib.rs:87-118 | from deployment on, deposits less vault balance equal the sum of the venue's settlements if and only if nobody was paid into that vault |
| `SettlementProgram.AVaultCanBePaid` | onchain/programs/serveproof/src/lib.rs:87-118 | four calls after which a venue has paid its own vault and its books no longer add up |
| `SettlementProgram.NothingSettlesWhilePaused` | onchain/programs/serveproof/src/lib.rs:77-77 | over any run from a paused state without an unpause, no call settles anything |
| `SettlementProgram.OnlyAuthorityFlags` | onchain/programs/serveproof/src/lib.rs:314-332 | a record changes only by mark_corrected of its venue, signed by that authority or the admin, and only in status and reference |
| `ProgramAnswers.WalletsHoldTheirSettlements` | onchain/programs/serveproof/src/lib.rs:94-107 | over any run of calls from deployment an ordinary wallet's balance is the sum of the amounts of the records that name it |
| `ProgramAnswers.ForksPayTheWallets` | onchain/programs/serveproof/src/lib.rs:94-118 | on any fork of the cluster, at every length, a wallet holds what it held at the start and what the fork's records settled to it |
| `ProgramAnswers.AnAcceptedSettlementPays` | onchain/programs/serveproof/src/lib.rs:70-118 | an accepted settlement puts exactly the amount on the wallet, takes it from the vault, leaves every other balance and record alone and writes one record with the call's terms |
| `ProgramAnswers.SettlesExactlyWhen` | onchain/programs/serveproof/src/lib.rs:77-107 | it is accepted if and only if all ten checks hold |
| `ProgramAnswers.SettleChecksInOrder` | onchain/programs/serveproof/src/lib.rs:268-311 | and otherwise refused for the first check that fails |
| `ProgramAnswers.MarksExactlyWhen` | onchain/programs/serveproof/src/lib.rs:314-332 | a record is flagged if and only if the signer is its venue's authority or the admin; status and reference are those given and nothing else changes |
| `ProgramAnswers.OnlyTheAdminPauses` | onchain/programs/serveproof/src/lib.rs:334-341 | the flag changes only by the admin's signature, and always by it |
| `ProgramAnswers.OnlyTheAdminRegisters` | onchain/programs/serveproof/src/lib.rs:224-239 | a venue appears only by the admin's signature, active, with the authority given, and never changes again |
| `ProgramAnswers.MarkRefusals` | onchain/programs/serveproof/src/lib.rs:314-332 | and refused exactly for a missing account, another venue's record, or a foreign signer, in this order |
| `ProgramAnswers.VaultsOpenEmpty` | onchain/programs/serveproof/src/lib.rs:241-266 | a vault opens once, empty, for a registered venue; no balance changes |
| `ProgramAnswers.DepositsArrive` | onchain/programs/serveproof/src/lib.rs:87-93 | tokens put into a vault are in it and nowhere else |
| `ProgramAnswers.ConfigIsFixed` | onchain/programs/serveproof/src/lib.rs:170-178 | admin and mint never change |
| `ProgramAnswers.ARefusalChangesNothing` | onchain/programs/serveproof/src/lib.rs:70-128 | no refused call of any instruction changes any account |
| `SettlementProgram.ProgramAccounts.SettlePayout` | onchain/programs/serveproof/src/lib.rs:70-128 | the instruction's refusals in order, and accounts afterwards exactly those of the specification, wallet and vault balances and record spelled out; a refused call changes nothing |
| `SettlementProgram.ProgramAccounts.TransferChecked` | onchain/programs/serveproof/src/lib.rs:87-107 | tokens move between the two accounts, or nothing changes on overflow |
| `SettlementProgram.ProgramAccounts.MarkCorrected` | onchain/programs/serveproof/src/lib.rs:132-152 | only venue authority or admin may flag a record, and only its status and reference change |
| `SettlementProgram.ProgramAccounts.SetPaused` | onchain/programs/serveproof/src/lib.rs:155-165 | only the admin pauses and unpauses |
| `LedgerInvariant.CreateKeepsLedger` | apps/api/src/payouts/payouts.service.ts:45-152 | creating or healing a payout keeps the ledger consistent |
| `LedgerInvariant.LegacyKeepsLedger` | apps/api/src/payouts/payouts.service.ts:365-430 | so does registering legacy evidence |
| `LedgerInvariant.CalculateKeepsLedger` | apps/api/src/allocations/allocations.service.ts:136-187 | a calculation replaces the batch's rows by rows that carry its pool, and touches no paid row |
| `LedgerInvariant.RowsAreShares` | apps/api/src/allocations/allocations.service.ts:173-185 | after a calculation the batch's rows are exactly its shares, for the right recipient and amount, unpaid; other batches keep theirs |
| `LedgerInvariant.ConfirmationKeepsLedger` | apps/worker/src/solana-settlement.service.ts:73-173 | the confirmation handler keeps the ledger consistent |
| `LedgerInvariant.ReconcileKeepsLedger` | apps/worker/src/solana-settlement.service.ts:176-270 | so does every turn of the sweep |
| `LedgerInvariant.AttachKeepsTotals` | apps/api/src/mappings/mappings.service.ts:240-261 | attaching a held share, merged or taken over, changes the total of no batch |
| `LedgerInvariant.AttachKeepsLedger` | apps/api/src/mappings/mappings.service.ts:240-261 | and keeps the ledger consistent |
| `LedgerInvariant.AttachKeepsRollUp` | apps/api/src/mappings/mappings.service.ts:240-261 | the batch's roll-up stays right after an attach unless the last unpaid row was merged away, and then it is wrong |
| `LedgerInvariant.BatchChangeKeepsLedger` | apps/api/src/allocations/allocations.service.ts:231-285 | approving and rejecting keep the ledger consistent |
| `Database.Tables.RefreshBatchPaymentStatus` | apps/api/src/payouts/payouts.service.ts:444-452 | counting paid rows sets an approved batch to what its rows deserve and changes nothing else |
| `Database.CountsRollUp` | apps/worker/src/solana-settlement.service.ts:411-418 | the two counts tell nobody, somebody and everybody paid apart |
| `PayoutAnswers.SettlementsPayTheWalletAskedFor` | apps/api/src/payouts/payouts.service.ts:116-149 | after any run a finalized USDC payout has been settled to the wallet that the last request to make it found |
| `PayoutAnswers.LiveTransactionsPayTheWalletAskedFor` | apps/api/src/payouts/payouts.service.ts:192-202 | and whatever was built for a payout and is still in time pays that wallet |
| `PayoutAnswers.ANewPayoutIsForTheWalletFound` | apps/api/src/payouts/payouts.service.ts:116-152 | a payout made for the first time or after a failed one is to the wallet given, the row's worker and the batch's venue, for all of the row's net, with nothing left of an attempt before |
| `PayoutAnswers.CreatesExactlyWhen` | apps/api/src/payouts/payouts.service.ts:45-114 | create succeeds if and only if the share is somebody's, positive, unpaid and approved, there is a wallet, and a failed payout's blockhash is out of time |
| `PayoutAnswers.CreateChecksInOrder` | apps/api/src/payouts/payouts.service.ts:45-114 | and otherwise is refused for the first check that fails |
| `PayoutAnswers.CreatingAgainOnlyHealsTheRow` | apps/api/src/payouts/payouts.service.ts:78-102 | asked for again, a payout that is not failed stays as it is, and its row says pending, or paid once it is finalized |
| `PayoutAnswers.BuildsExactlyWhen` | apps/api/src/payouts/payouts.service.ts:163-191 | build succeeds if and only if the payout may be rebuilt, has no record, nothing in time, and everything needed is configured |
| `PayoutAnswers.BuildChecksInOrder` | apps/api/src/payouts/payouts.service.ts:163-191 | and otherwise is refused for the first check that fails |
| `PayoutAnswers.TheTransactionPaysThePayout` | apps/api/src/payouts/payouts.service.ts:192-225 | the transaction pays the payout's amount to its wallet under its batch's hash, and the row tracks its blockhash and forgets the attempt before |
| `PayoutAnswers.SubmitAnswers` | apps/api/src/payouts/payouts.service.ts:246-269 | a submit is answered as repeated, allowed, or refused, each exactly when the payout's status and blockhash call for it |
| `PayoutAnswers.ClaimWrites` | apps/api/src/payouts/payouts.service.ts:275-342 | a claim persists the bytes as submitted once, or fails the payout as too late, or finds it claimed and does nothing |
| `PayoutAnswers.EvidenceTakenExactlyWhen` | apps/api/src/payouts/payouts.service.ts:365-395 | evidence is taken if and only if the share is somebody's and its batch open, or the payout finalized already |
| `PayoutAnswers.EvidencePaysTheRow` | apps/api/src/payouts/payouts.service.ts:396-430 | it finalizes the payout and pays the row by the rail given, with the payout's amount or else the row's net |
| `PayoutsService.PayoutsApi.CreateUsdcPayout` | apps/api/src/payouts/payouts.service.ts:45-152 | refusals in the code's order; otherwise the tables become those of the specification: idempotent, healing, or a fresh payout to the wallet found, its fields spelled out |
| `PayoutsService.PayoutsApi.BuildTransaction` | apps/api/src/payouts/payouts.service.ts:159-234 | refusals in the code's order; otherwise the row tracks the new blockhash and the transaction carries the row's terms |
| `PayoutsService.PayoutsApi.ClaimSubmission` | apps/api/src/payouts/payouts.service.ts:275-342 | the claim succeeds for one request only; the signature is written before the one transaction is sent |
| `PayoutsService.PayoutsApi.SubmitSigned` | apps/api/src/payouts/payouts.service.ts:246-344 | a repeated or refused submit sends nothing, an accepted one in time its bytes once |
| `PayoutsService.PayoutsApi.RegisterLegacyEvidence` | apps/api/src/payouts/payouts.service.ts:365-430 | legacy evidence finalizes payout and row and rolls up the batch, once |
| `PayoutAnswers.ConfirmationDecides` | apps/worker/src/solana-settlement.service.ts:73-160 | each decision of the confirmation handler is taken if and only if status, expiry, root and record call for it |
| `PayoutAnswers.ConfirmationResendsWhen` | apps/worker/src/solana-settlement.service.ts:162-166 | the stored bytes are sent again exactly while the signature is in time and not seen beyond processed, unseen included |
| `PayoutAnswers.SweepDecides` | apps/worker/src/solana-settlement.service.ts:190-265 | the same for a turn of the sweep |
| `PayoutAnswers.SweepResendsWhen` | apps/worker/src/solana-settlement.service.ts:233-257 | and for its resends |
| `PayoutAnswers.TurnsWriteOneThing` | apps/worker/src/solana-settlement.service.ts:133-167 | a turn of either handler counts a resend or writes its decision, never both |
| `PayoutAnswers.ResendsAreCounted` | apps/worker/src/solana-settlement.service.ts:272-303 | a resend is counted while the payout is submitted or confirmed and changes nothing else |
| `PayoutAnswers.TheQueryMissesNothing` | apps/worker/src/solana-settlement.service.ts:177-184 | a payout the sweep's query leaves out is one a turn would leave alone |
| `PayoutAnswers.VerdictsWrite` | apps/worker/src/solana-settlement.service.ts:330-403 | payout and row are finalized or failed together, a confirmed payout leaves the row, and nothing of any other payout changes |
| `PayoutAnswers.TheEventConfirms` | apps/worker/src/solana-settlement.service.ts:51-68 | the event makes an initiated or submitted payout confirmed, and changes nothing else |
| `SettlementWorker.Worker.ProcessConfirmation` | apps/worker/src/solana-settlement.service.ts:73-173 | the confirmation handler's writes and its one possible resend |
| `SettlementWorker.Worker.FailIfObservedForkWasDropped` | apps/worker/src/solana-settlement.service.ts:305-328 | fails or finalizes exactly when the observed slot is behind the root, expired and in no finalized block |
| `SettlementWorker.Worker.FinalizeFromChain` | apps/worker/src/solana-settlement.service.ts:330-364 | leaves a missing or finalized payout alone, finalizes payout, row and batch on a finalized record, and throws without one |
| `SettlementWorker.Worker.MarkFailed` | apps/worker/src/solana-settlement.service.ts:391-403 | fails payout and row together |
| `SettlementWorker.Worker.RebroadcastSameTransaction` | apps/worker/src/solana-settlement.service.ts:272-303 | sends the stored bytes and counts it while in flight |
| `SettlementWorker.Worker.ReconcileTurn` | apps/worker/src/solana-settlement.service.ts:190-265 | one payout's turn in the sweep |
| `SettlementWorker.Worker.ReconcileStalePayouts` | apps/worker/src/solana-settlement.service.ts:176-270 | the sweep on its snapshot writes what one fresh turn per payout would, and sends exactly the stored bytes of the payouts whose turn resends |
| `SettlementWorker.TurnsAreApart` | apps/worker/src/solana-settlement.service.ts:189-265 | turns of other payouts leave a payout as it was |
| `SettlementWorker.Worker.OnPayoutSettled` | apps/worker/src/solana-settlement.service.ts:51-68 | the event moves only a payout that is initiated or submitted |
| `BatchAnswers.CalculationStoresTheBatch` | apps/api/src/allocations/allocations.service.ts:127-172 | a calculated batch has its allocation's pool and hash, and goes to review if and only if an issue blocks it |
| `BatchAnswers.CalculationStoresTheRows` | apps/api/src/allocations/allocations.service.ts:173-185 | its rows are one for each share, for its recipient and amount, with the worker's planned rail; rows of other batches stay |
| `BatchAnswers.CalculatesExactlyWhen` | apps/api/src/allocations/allocations.service.ts:40-84 | each refusal is given exactly when it is the first to apply |
| `BatchAnswers.DecisionsStore` | apps/api/src/allocations/allocations.service.ts:231-285 | approval makes a calculated batch payable, rejection a calculated or reviewed one a draft; nothing else changes |
| `BatchServices.PlanRails` | apps/api/src/allocations/allocations.service.ts:105-117 | a rail is planned for a worker exactly when the worker's shifts name one rail only; the conflict set is exactly those with two |
| `BatchServices.AllocationsApi.Calculate` | apps/api/src/allocations/allocations.service.ts:40-190 | refused without venue, policy or evidence or on a locked batch, in that order; otherwise the stored batch and rows are those of a correct allocation, hashed over pool and shares |
| `BatchServices.AllocationsApi.Approve` | apps/api/src/allocations/allocations.service.ts:231-262 | only a calculated batch becomes payable |
| `BatchServices.AllocationsApi.Reject` | apps/api/src/allocations/allocations.service.ts:264-285 | only a calculated or reviewed batch goes back to draft |
| `BatchServices.AttachWrites` | apps/api/src/mappings/mappings.service.ts:240-261 | attaching puts the worker on the share, or its cents, pooled and net, on the worker's own row and removes it |
| `BatchServices.MappingsApi.VerifyMapping` | apps/api/src/mappings/mappings.service.ts:184-219 | a rejected mapping changes nothing; any other is confirmed, the venue's matching shifts are mapped and every share held there for the external worker is the worker's; other venues' rows and shifts stay |
| `BatchServices.MappingsApi.BackfillShifts` | apps/api/src/mappings/mappings.service.ts:196-204 | exactly the unmapped shifts of the external worker at the venue get the worker, and are counted |
| `BatchServices.MappingsApi.AttachHeldAllocations` | apps/api/src/mappings/mappings.service.ts:226-263 | afterwards every share held at the venue for the external worker is the worker's, as a row or merged into one; no row of another venue and nobody else's row has changed, and the worker's claims in every batch keep their sum |
| `Apportionment.Unique` | packages/shared/src/allocation.ts:168-183 | there is at most one largest-remainder split for given quotas and tie-break |
| `Apportionment.LargestRemainder` | packages/shared/src/allocation.ts:175-183 | and there is one |
| `Apportionment.FloorOrCeiling` | packages/shared/src/allocation.ts:170-183 | every share is the floor or the true ceiling of its quota |
| `Apportionment.TieBreakMattersByACent` | packages/shared/src/allocation.ts:176-178 | another tie-break moves nobody by more than a cent, and nobody at all without a tie |
| `Apportionment.ApartOrTogether` | packages/shared/src/allocation.ts:168-183 | splitting two recipients apart or as one differs by at most a cent for them |
| `AllocationEngine.PoolTips` | packages/shared/src/allocation.ts:77-98 | the pool is the included tips neither fully refunded nor canceled |
| `AllocationEngine.ScoreShifts` | packages/shared/src/allocation.ts:110-156 | every recipient's score is the sum over their eligible shifts |
| `AllocationEngine.LargestRemainderSplit` | packages/shared/src/allocation.ts:175-183 | floors and left-over cents make the largest-remainder split |
| `EngineAnswers.ScoresAreWeightedMinutes` | packages/shared/src/allocation.ts:110-156 | a score is the sum over the roles of the role's weight times the minutes of the recipient's completed or approved, not excluded, positive shifts in it; who has no such shift has none |
| `EngineAnswers.SharesFollowWeightedMinutes` | packages/shared/src/allocation.ts:145-173 | every share is that part of the pool, to within a cent |
| `EngineAnswers.TwoShiftsShareByWeight` | packages/shared/src/allocation.ts:145-173 | two recipients of one shift each share the pool as minutes times weight to minutes times weight, to within a cent |
| `EngineAnswers.ThePoolByType` | packages/shared/src/allocation.ts:77-98 | the pool is the sum over the included types of their cents, without full refunds and cancellations |
| `EngineAnswers.ReportedExactlyWhen` | packages/shared/src/allocation.ts:79-165 | each issue is reported if and only if a tip, a shift or the totals give cause for it, blocking or not as the code says |
| `EngineAnswers.BlockedExactlyWhen` | packages/shared/src/allocation.ts:128-165 | an allocation is held up for review if and only if a shift counts without positive minutes or without a weight, or there is money and nobody to pay |
| `EngineAnswers.EqualScoresFirstComeFirst` | packages/shared/src/allocation.ts:176-183 | of two equal scores the one first in order gets as much or a cent more |
| `EngineAnswers.SharesAreInOrder` | packages/shared/src/allocation.ts:169-169 | shares are listed held ones first, then workers, each in order of their ids |
| `AllocationEngine.ComputeAllocationBatch` | packages/shared/src/allocation.ts:70-203 | the engine never throws and returns a correct allocation |
| `AllocationEngine.SplitIsExact` | packages/shared/src/allocation.ts:168-200 | shares add up to the pool, none is a cent or more off its quota, a zero score gets nothing |
| `AllocationEngine.SplitIsFair` | packages/shared/src/allocation.ts:168-183 | a strictly larger score never gets a smaller share |
| `AllocationEngine.EvidenceOrderDoesNotMatter` | packages/shared/src/allocation.ts:79-183 | any order of tips and shifts gives the same pool, scores and list of shares |
| `AllocationEngine.UnblockedAllocationIsExact` | packages/shared/src/allocation.ts:160-200 | an allocation without blocking issue hands out its pool, except a negative one with nobody to pay |
| `MappingTiming.MappingMovesTheScore` | apps/api/src/mappings/mappings.service.ts:191-205 | mapping first moves exactly the held score to the worker's key |
| `MappingNeutral.MappingTimeMattersByACent` | apps/api/src/mappings/mappings.service.ts:240-261 | between two runs of the engine, before the mapping with the held share merged and over the mapped shifts, nobody's cents differ by more than one |
| `MappingNeutral.MappingTimeIsIrrelevantIff` | packages/shared/src/allocation.ts:169-183 | and nobody's differ at all if and only if the worker's two late shares are the rounding of their merged quota that its place among the remainders calls for |
| `MappingNeutral.NeutralCases` | packages/shared/src/allocation.ts:175-183 | without ties that means: one of the two was rounded up; or neither, and together they stay under a cent and behind every winner; or both, and together they pass a cent and stay ahead of every loser |
| `MappingNeutral.OnlyDivision` | packages/shared/src/allocation.ts:168-183 | recipient by recipient, nothing but the engine's list divides a pool by largest remainder |
| `MappingLedger.LateOrEarlyPaysTheSame` | apps/api/src/mappings/mappings.service.ts:240-261 | the rows left by calculating and attaching and by calculating over mapped shifts are of the same people, differ by at most a cent each, and by nothing if and only if that condition holds |
| `MappingNeutral.WithoutTiesTimingIsIrrelevant` | packages/shared/src/allocation.ts:169-183 | in particular when remainders differ and the worker had no share yet |
| `MappingWitness.MappingCanMoveACent` | apps/api/src/mappings/mappings.service.ts:244-253 | one 1-cent tip and shifts of 31, 29 (held) and 40 minutes: two runs of the engine, before the mapping and over the mapped shifts, give the cent to different people although no remainders tie |
| `IncomeSplit.SplitProportionally` | packages/db/src/income-projector.ts:10-26 | for any fractions as weights the projector's split is the same largest-remainder split, with equal weights when they sum to nothing |
| `IncomeSplit.RoundAlong` | packages/db/src/income-projector.ts:16-24 | its wrapping cursor never comes round |
| `IncomeSplit.SliceNearQuota` | packages/db/src/income-projector.ts:14-24 | every slice is within a cent of its weight's exact part |
| `IncomeSplit.SplitsAsTheEngine` | packages/db/src/income-projector.ts:10-26 | on the key-sorted scores of any batch, fractions included, it returns the engine's shares |
| `IncomeSplit.WeightlessSplitIsEven` | packages/db/src/income-projector.ts:13-14 | weights that sum to nothing give an even split of the whole total, left-over cents to the first |
| `IncomeProjection.TipsByShift` | packages/db/src/income-projector.ts:67-72 | earned tips by provider and shift, refunds and cancellations left out |
| `IncomeProjection.GroupByWorkerDay` | packages/db/src/income-projector.ts:74-79 | shifts grouped by worker and day, in order |
| `IncomeProjection.DayShares` | packages/db/src/income-projector.ts:81-97 | every shift's share of the allocation and of the finalized payout |
| `IncomeProjection.PayrollShares` | packages/db/src/income-projector.ts:99-113 | every shift's share of the last payroll report that covers it |
| `IncomeProjection.DayConservesCents` | packages/db/src/income-projector.ts:83-97 | a worker-day's shares add up to the allocation's net and to the finalized payout |
| `IncomeProjection.PayrollConservesCents` | packages/db/src/income-projector.ts:99-113 | a payroll report not overlapped by a later one is spread to the cent |
| `IncomeProjection.ShareFollowsMinutes` | packages/db/src/income-projector.ts:90-96 | a shift's share of the net is its minutes' exact part, to within a cent |
| `IncomeProjection.PayrollFollowsAllocation` | packages/db/src/income-projector.ts:110-112 | a shift's share of a payroll report is its allocation share's exact part, to within a cent |
| `IncomeProjection.ReportShowsWhatWasNotTakenOver` | packages/db/src/income-projector.ts:99-113 | the shifts of any report show its cents plus what the shifts later reports cover show, less their slices of this report |
| `IncomeProjection.OverlapReplacesCents` | packages/db/src/income-projector.ts:99-113 | two reports of one period over one shift: the earlier one's cents are gone |
| `IncomeAnswers.EntriesSayWhatTheEvidenceSays` | packages/db/src/income-projector.ts:140-187 | every figure of an entry and where it comes from: tips, the day's row and finalized payout, the first covering report, its withholding and the rail |
| `IncomeAnswers.TheBatchOfTheDay` | packages/db/src/income-projector.ts:86-88 | the batch read is the first of the shift's day |
| `IncomeAnswers.TheRowOfTheWorker` | packages/db/src/income-projector.ts:86-89 | the net is that of the worker's row in it, if there is one |
| `IncomeAnswers.TheFinalizedPayout` | packages/db/src/income-projector.ts:89-92 | the payment is that of a finalized payout of the row, if there is one |
| `IncomeAnswers.ReportsCover` | packages/db/src/income-projector.ts:101-107 | a report covers its worker's shifts whose noon is in its period, ends included |
| `IncomeAnswers.TheFirstReport` | packages/db/src/income-projector.ts:149-155 | withholding is read from the first report that covers the shift |
| `IncomeAnswers.ATipIsEarnedOnce` | packages/db/src/income-projector.ts:67-72 | a tip adds its cents to the one shift it names unless fully refunded or canceled |
| `IncomeAnswers.PaymentFollowsMinutes` | packages/db/src/income-projector.ts:90-97 | a shift's part of the payout is its minutes' exact part, to within a cent |
| `IncomeAnswers.GapsExactlyWhen` | packages/db/src/income-projector.ts:202-235 | each gap is reported for an entry if and only if its figures show it, and with those figures |
| `IncomeAnswers.GapsAreReportedOnce` | packages/db/src/income-projector.ts:202-235 | and none twice |
| `IncomeAnswers.ShiftsAreReportedFor` | packages/db/src/income-projector.ts:129-176 | an unconnected shift is reported as such, a corrected one not at all, any other for its gaps |
| `IncomeAnswers.ResolvedAreKept` | packages/db/src/income-projector.ts:248-248 | of the stored alerts a rebuild keeps exactly the resolved ones |
| `IncomeAnswers.RefundsExactlyWhen` | packages/db/src/income-projector.ts:236-246 | a refund calls for an adjustment if and only if somebody of the day's batch has been paid |
| `IncomeLineage.GradesAreBacked` | packages/db/src/income-projector.ts:163-170 | each grade is given if and only if the evidence has what it vouches for: tips seen, an allocation, a finalized USDC or other payout of the worker's row, confirmed withholding |
| `IncomeLineage.BetterEvidenceBetterGrade` | packages/db/src/income-projector.ts:28-44 | evidence that shows no less of a shift never gives it a lower grade |
| `IncomeLineage.EveryHistoryIsOneChain` | apps/api/src/income/income.service.ts:205-235 | after any rebuilds and corrections the entries of a worker and shift form one chain with one active entry, one base, and that base as everybody's original |
| `IncomeLineage.StepsKeepLineages` | packages/db/src/income-projector.ts:172-200 | every rebuild and every correction keeps that |
| `IncomeRebuild.RebuildTwiceIsOnce` | packages/db/src/income-projector.ts:129-257 | rebuilding twice gives the entries and alerts of rebuilding once |
| `IncomeRebuild.CorrectedLineagesUntouched` | packages/db/src/income-projector.ts:172-176 | a rebuild leaves every entry of a corrected worker and shift as it is |
| `IncomeRebuild.EntriesConserveCents` | packages/db/src/income-projector.ts:129-200 | after a rebuild the entries of an uncorrected worker-day carry exactly the net and exactly the finalized payout |
| `IncomeRebuild.EntriesConservePayroll` | packages/db/src/income-projector.ts:150-156 | and the entries of a payroll report's uncorrected shifts exactly its cents, if no later report covers any of them |
| `IncomeRebuild.OverlappedEntriesShowTheRest` | packages/db/src/income-projector.ts:99-113 | in general they carry its cents plus what later reports changed on its shifts, less their slices of it |
| `IncomeRebuild.IncomeStore.RebuildVenueIncome` | packages/db/src/income-projector.ts:51-270 | the rebuild's maps, upserts and alert list give exactly the specified book and alerts, and the counts it reports |
| `IncomeRebuild.IncomeStore.UpsertBase` | packages/db/src/income-projector.ts:192-199 | the base entry is updated or created |
| `IncomeAnswers.CorrectionsCarryTheChanges` | apps/api/src/income/income.service.ts:205-235 | a correction has each figure that is given and otherwise the corrected entry's, which changes in nothing but being superseded |
| `IncomeAnswers.CorrectsExactlyWhen` | apps/api/src/income/income.service.ts:205-209 | a correction is refused exactly when the entry is missing or not active |
| `IncomeAnswers.FiguresAreTheLastGiven` | apps/api/src/income/income.service.ts:205-235 | over any corrections, and once corrected over any rebuilds too, each figure of the active entry is the last one given for it |
| `IncomeRebuild.IncomeStore.CorrectEntry` | apps/api/src/income/income.service.ts:194-235 | only an active entry is corrected; a new active one is appended that corrects it, its figures spelled out |
| `Base58.EncodeBase58` | packages/shared/src/base58.ts:4-27 | one "1" per leading zero byte, then the byte string's value in base 58 |
| `Base58.AddByte` | packages/shared/src/base58.ts:8-18 | the digit loops multiply the list by 256 and add the byte |
| `Base58.CarriedWeight` | packages/shared/src/base58.ts:10-18 | sum(digit * 58^i) becomes 256 times itself plus the byte, digits staying below 58 |
| `Base58.DecodeOfEncode` | packages/shared/src/base58.ts:4-27 | decoding an encoding returns the input if and only if it has a nonzero byte; otherwise one zero byte more |
| `Base58.EncodeOfDecode` | packages/shared/src/base58.ts:20-26 | encoding a decoded text returns the text, one first letter longer when it has no other |
| `Base58.EncodeIsInjective` | packages/shared/src/base58.ts:4-27 | no two inputs share an encoding |
| `Base58.AlphabetIsOne` | packages/shared/src/base58.ts:1-1 | the alphabet has 58 different letters |
| `Csv.SplitCsvLine` | apps/api/src/evidence/csv-normalizer.ts:45-71 | the scanning loop returns the fields of the line |
| `Csv.SplitOfPrint` | apps/api/src/organizations/organizations.service.ts:538-538 | a printed row, whatever is in its values, splits into exactly that row |
| `Csv.SplitReadsEveryWriting` | apps/api/src/evidence/csv-normalizer.ts:46-71 | every writing of a row that section 2 of RFC 4180 allows is read back as the row |
| `Csv.CommasSeparate` | apps/api/src/evidence/csv-normalizer.ts:60-68 | in any line at all, fields end at exactly the commas outside quotes |
| `CsvAnswers.SplitsAtTheComma` | apps/api/src/evidence/csv-normalizer.ts:60-68 | at a comma outside quotes any line, quotes closed or not before it, falls into two lines split on their own |
| `CsvAnswers.OneFieldKeepsItsText` | apps/api/src/evidence/csv-normalizer.ts:46-71 | and a line without one is a single field with every character of it that is no quote |
| `CsvAnswers.EveryFieldIsQuoted` | apps/api/src/organizations/organizations.service.ts:538-538 | the printer puts every value in quotes and doubles the quotes inside |
| `Csv.PrintIsInjective` | apps/api/src/organizations/organizations.service.ts:564-565 | no two rows print the same |
| `Csv.ReprintedLineSplitsTheSame` | apps/api/src/evidence/csv-normalizer.ts:46-71 | printing the fields of any line gives a line with the same fields |
| `Money.AcceptsExactlyAmounts` | packages/shared/src/money.ts:11-19 | a text is accepted exactly when it reads as an amount, worth its digits read as one number of hundredths |
| `Money.TrimStripsBlanks` | packages/shared/src/money.ts:12-12 | trimming takes away blanks at the ends, all of them, and nothing else |
| `Money.ParseOfFormat` | packages/shared/src/money.ts:21-25 | any number of cents survives printing and parsing, and is printed canonically |
| `Money.FormatOfParse` | packages/shared/src/money.ts:11-25 | parsing and printing returns a text if and only if it was canonical |
| `Money.ConversionsAreInverse` | packages/shared/src/money.ts:28-41 | cents and base units convert back and forth; fractions of a cent are refused |

## Left out

- Prisma, Redis, BullMQ, NestJS, HTTP, JWT, mail, PDF, the Square client, encryption: tables are maps, conditional updates are atomic steps, and what is read from outside is a parameter.
- Interleaving inside a handler, except between a submit's check and its claim: each handler and each turn of a sweep runs as one step.
- SHA-256 and address derivation: a payment id stands for its hash and its record address, an allocation hash is a function of what is hashed.
- JavaScript doubles: amounts are unbounded integers and scores exact fractions, so rounding of products, the 2^53 limit and 32-bit columns are not modelled; token balances do have the program's 64-bit limit.
- The order of recipient keys: a strict total order that puts held keys first stands for localeCompare.
- Text encodings: CSV and money texts are sequences of characters, base58 inputs sequences of bytes.
- The sweep's limit of 50 rows and its order, retry timing, audit logs and time stamps other than the record's.
- Report status changes that follow a correction, disclosure levels, staffing, editing policies, refresh tokens, the web app: mostly one-branch guards.
- Business dates in a venue's time zone: they depend on tables that are not part of this model.
- What people do with their own wallets: in the model a wallet's balance only grows, so one too full for a payment stays so.
- LatePayments.NeverSettlesIff: assumes, as do EvidenceIsFinalIff and ErrorIsFinalIff, that a payment into a vault fits; only further settlements out of that vault could make room for it.
- The order in which stored rows are returned: where the code takes the first match of a query, any match is allowed.
- Editing planned rails by hand and automatic rail assignment: they touch no amount.
- The unlocked race of two rebuilds of one venue: the code locks the venue row, and a rebuild is one step here.
- Multi-line CSV fields in an imported file: the import cuts the text into lines before splitting, so only single lines are modelled.
- That a finalized payout or a verified mapping triggers an income rebuild: a rebuild is modelled as its own step over whatever evidence there is.
