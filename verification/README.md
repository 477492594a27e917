# FiberPass ledgers, in Dafny

A model of the money-moving core of the FiberPass payment backend, with proofs about every run of it. Each Mongo
transaction and each single conditional update is one atomic step; a throw inside a transaction is a step that changes
nothing. Balance observations and Bitcoin creations are not atomic in the code: their read and their write are two
steps in `FundingRaces.dfy` and `PsbtRaces.dfy`, whose runs interleave them freely: they show which part of the
invariants no interleaving breaks, and say exactly when the rest survives.
Rows of a collection are identified by their position in an append-only sequence.

| file | what it models |
|---|---|
| `Money.dfy`, `Decimals.dfy`, `BitcoinAmounts.dfy` | exact decimal parsing and printing of amounts |
| `Receipts.dfy` | fee apportionment and the rule of one immutable receipt per source |
| `Vault.dfy`, `VaultRuns.dfy`, `VaultAnswers.dfy` | the vault v2 transition validator, whole runs of accepted transitions, and exactly what is accepted |
| `Funding.dfy`, `FundingInvariant.dfy`, `FundingAnswers.dfy`, `FundingRaces.dfy`, `FundingStore.dfy`, `Migration.dfy` | funding sources, allocations, late balance writes, and the legacy snapshot that starts them |
| `Charges.dfy`, `ChargesInvariant.dfy`, `ChargesTheorems.dfy`, `ChargeAnswers.dfy`, `ChargeStore.dfy` | the reserve, debit or release protocol of direct charges |
| `Metered.dfy`, `MeteredInvariant.dfy`, `MeteredSteps.dfy`, `MeteredTheorems.dfy`, `MeteredAnswers.dfy`, `MeteredWorker.dfy`, `MeteredVisits.dfy`, `MeteredGiveBack.dfy`, `MeteredStore.dfy` | metered usage: grants, batches, events, rate windows and the settlement worker |
| `Psbt.dfy`, `PsbtRecords.dfy`, `PsbtChains.dfy`, `PsbtAnswers.dfy`, `PsbtRaces.dfy`, `PsbtReplacements.dfy`, `PsbtStore.dfy` | Bitcoin transaction plans, fee caps, replacement chains, coin exclusivity, late inserts, and what can be replaced |
| `Payments.dfy`, `PaymentTheorems.dfy`, `PaymentAnswers.dfy`, `PaymentStore.dfy` | BTCPay and NWC payments as interleaved calls |
| `Tally.dfy`, `Wrappers.dfy` | sums over collections; optional values and results |

A file that ends in `Store` holds the classes whose methods update the stored collections field by field and are proved
against the functions of the model; the lemmas are about those functions. A file that ends in `Answers` says of each of
these functions, on the stored rows and without naming what it is computed with, exactly when it commits, with which
error it refuses, and what it leaves of every row. `dafny verify dfyconfig.toml` checks everything.

## Where the code does not keep a promise

Each is stated with a concrete input or run that shows it and, for all inputs, with exactly when the code does keep it.
The runs start from the empty system, for charges from one unused pass.

- A metered batch whose payment the provider confirmed can end failed with its money returned, although
  docs/metered-payments.md says a submitted batch is not discarded: `MeteredGiveBack.PaidYetReturned` is a run in which
  the funding source falls into a shortfall while the fifth attempt looks the payment up. Exactly when a visit gives a
  submitted batch back: `MeteredGiveBack.SubmittedReturnedIff`.
- A balance observation saved late can hide a shortfall or overstate what is reclaimable:
  `FundingRaces.LateWriteHidesShortfall`, `FundingRaces.LateWriteOverstates`. Exactly which movement between the read
  and the save does it: `FundingRaces.LateSecuredIff`, `FundingRaces.LateConnectedIff`, and over whole runs
  `FundingRaces.ExactAlongIff`. Conservation survives every race: `FundingRaces.ReachableConserves`.
- Two creations can promise the same coin: `PsbtRaces.SameCoinTwice`. Exactly when a run keeps coins exclusive:
  `PsbtRaces.ExclusiveAlongIff`. Plans, chains and keys survive every race: `PsbtRaces.RacyRunChained`.
- A broadcast Bitcoin payment may be impossible to replace at any fee: one whose change was given up as fee
  (`PsbtReplacements.NoChangeIsFinal`) and one whose change cannot pay for one more satoshi per virtual byte
  (`PsbtReplacements.SmallChangeIsFinal`). Exactly when it can be replaced: `PsbtReplacements.ReplaceableIff`.
- An attempt reserved on one day and stored on the next is counted on both days: `ChargesTheorems.SkewCountsTwice`.
  Exactly when the days of a run add up: `ChargesTheorems.DaysAddUpIff`.
- The legacy snapshot of an overspent session does not start a consistent ledger: `Migration.OverspentSnapshot`. Exactly
  when a snapshot does: `Migration.SnapshotEstablishesInvariant`.
- A finished NWC payment can go back to uncertain: `PaymentTheorems.NwcSuccessIsNotFinal`. Exactly which write does it:
  `PaymentTheorems.TerminalChangesIff`.

## What the code never uses

- Three guards never fire: the event count when a collecting batch is joined (`MeteredTheorems.CountNeverCloses`), the
  minimum fee of a plan without change (`Psbt.PlanExistsIff`) and the higher absolute fee of a replacement
  (`PsbtReplacements.FeeTooLowUnreachable`).
- The expired status a grant is given in src/services/meteredPayment.service.ts:580-583 is rolled back by the throw that
  follows it, so the model has no expired grants.

## Model

| member | source | states |
|---|---|---|
| Money.ParseExactlyPrints | src/lib/money.ts:25-47 | an atomic amount string is accepted exactly when it is the canonical print of a 256-bit amount, so canonical strings are unique |
| Money.FitsStorageField | src/models/moneyFields.ts:4-13 | every accepted amount fits the 78-character storage field |
| Money.MajorToAtomicExact | src/lib/money.ts:89-109 | text in major units, spaces around it ignored, converts to n atomic units if and only if it denotes exactly n of them and n has 256 bits: no rounding |
| Money.MajorRoundTrip | src/lib/money.ts:76-109 | converting back a printed amount returns it, trimmed or not, for every asset precision and every 256-bit amount |
| BitcoinAmounts.ParseBtcIsExact | src/connectors/bitcoinProtocol.ts:25-46 | BTC text, spaces around it ignored, parses to n millisatoshis if and only if it denotes exactly n within the supply, with at most 11 decimals (8 on chain) |
| BitcoinAmounts.BtcRoundTrip | src/connectors/bitcoinProtocol.ts:25-53 | parsing inverts printing up to the supply cap, on chain too for whole satoshis |
| BitcoinAmounts.SatsRoundTrip | src/connectors/bitcoinProtocol.ts:55-66 | satoshis to millisatoshis and back |
| BitcoinAmounts.SatsIff | src/connectors/bitcoinProtocol.ts:55-66 | millisatoshis convert exactly when they are whole satoshis, satoshis exactly when they fit 256 bits; and the error otherwise |
| BitcoinAmounts.FormatsAgree | src/connectors/bitcoinProtocol.ts:48-53 | the division form of the BTC text is the generic decimal text of 11 decimals |
| Receipts.RemainderInRange | src/domain/receipt.ts:73-78 | what rounding down leaves of the fee is below the number of parts, so the wrapping loop ends within one pass |
| Receipts.SharesExact | src/domain/receipt.ts:64-80 | the shares add up to the fee and each is its proportional part rounded down, or one more |
| Receipts.ShareIs | src/domain/receipt.ts:73-79 | each share on its own: its proportional part rounded down, one more exactly for as many of the first amounts as rounding all of them left over |
| Receipts.HandOut | src/domain/receipt.ts:75-78 | the in-place wrapping loop hands any remainder out evenly: every part gets the quotient and the first ones one more; nothing for a remainder that is not positive |
| Receipts.AllocateAtomicFee | src/domain/receipt.ts:64-80 | the whole function on text, its errors included, refines the shares |
| Receipts.Issue | src/services/receipt.service.ts:84-133 | a source has one receipt: the first is stored, an identical one replays, a different one is refused |
| VaultRuns.StepConserves | src/domain/vaultV2.ts:150-182 | one accepted transition moves exactly the amounts it states |
| VaultRuns.StepKeepsState | src/domain/vaultV2.ts:118-129 | an accepted transition starts and ends in a valid state and raises the nonce by one |
| VaultRuns.RunConserves | src/domain/vaultV2.ts:150-307 | over any accepted run, initial amount plus top-ups equals payouts, native fees, the owner's net and what is left; UDT fees never come from the vault |
| VaultRuns.RunKeepsState | src/domain/vaultV2.ts:104-182 | every state of a run commits to the policy and stays within the total cap, and the nonce counts the transitions that left a cell |
| VaultRuns.OnlyPayoutsPay | src/domain/vaultV2.ts:193-230 | only operator payouts pay, and only the committed recipient |
| VaultRuns.RunPayouts | src/domain/vaultV2.ts:184-230 | payouts of a run are a cadence apart, before expiry, within the per-payment cap and the occurrence limit |
| VaultRuns.PayoutsApart | src/domain/vaultV2.ts:184-230 | the j-th and i-th payouts are at least (j - i) cadences apart |
| VaultRuns.WindowPaysAtMost | src/domain/vaultV2.ts:184-256 | any window of a width pays at most width / cadence + 1 capped payments, with top-ups anywhere |
| VaultRuns.AfterRevocation | src/domain/vaultV2.ts:196-307 | after a revocation no continuation pays the recipient, tops up or changes the amount before exit |
| VaultRuns.ReclaimAlwaysAccepted | src/domain/vaultV2.ts:284-307 | from every reachable state, at any time, the owner's reclaim of everything is accepted |
| VaultAnswers.PayoutAcceptedIff | src/domain/vaultV2.ts:184-230 | exactly which payouts are accepted: operator's lock hash present, active, verified time past the cadence and before expiry, an occurrence left, at most the cap to the committed recipient, nothing else moving, and the state left |
| VaultAnswers.TopUpAcceptedIff | src/domain/vaultV2.ts:232-256 | exactly which top-ups are accepted, the owner's lock hash among the conditions |
| VaultAnswers.RevokeAcceptedIff | src/domain/vaultV2.ts:258-282 | exactly which revocations are accepted: the owner's, moving nothing, leaving the same state revoked under the next nonce |
| VaultAnswers.ExitAcceptedIff | src/domain/vaultV2.ts:284-307 | exactly which reclaims and migrations are accepted: the owner's, leaving no state and no change, paying everything but a native fee to the owner's lock or the named 32-byte target |
| VaultAnswers.RefusedFor | src/domain/vaultV2.ts:86-327 | every transition is refused for the first of its reasons, in order, and accepted if there is none |
| VaultAnswers.AuthorityFirst | src/domain/vaultV2.ts:114-116 | a transition that is well formed otherwise is refused for its authority exactly when the operator's, or for every other action the owner's, lock hash is missing |
| VaultAnswers.RunAuthorized | src/domain/vaultV2.ts:184-307 | every transition of an accepted run carries its authority's lock hash; an exit is the last and pays the owner's lock or the named target |
| FundingInvariant.StepKeeps | src/services/fundingSource.service.ts:176-491 | every funding transaction, and every observation that is not raced, keeps conservation, shortfall marking and one allocation a pass |
| FundingInvariant.RunKeeps | src/services/fundingSource.service.ts:176-491 | over every run whose observations are not raced, authorized = spent + released + remaining on each allocation, each source's counters are the sums over its allocations, reclaimable amounts are exact and shortfalls recorded |
| FundingInvariant.SpendCommitsIff | src/services/fundingSource.service.ts:442-468 | a spend returns a ledger exactly when its allocation, if there is one, is active and covers it, its source is not in a shortfall and its counter stays safe |
| FundingInvariant.SpendIffCanSpend | src/services/fundingSource.service.ts:442-468 | the same as one condition a caller can check |
| FundingInvariant.ReleaseCommitsIff | src/services/fundingSource.service.ts:470-491 | a release of an active allocation commits exactly when it ends outside a shortfall with a safe counter |
| FundingInvariant.ConsistencyGuardsUnreachable | src/services/fundingSource.service.ts:449-480 | the authorization and reservation guards of spend and release never fire; only a shortfall can fire the counter guard |
| FundingInvariant.ShortfallBlocks | src/services/fundingSource.service.ts:379-530 | while locked is below reserved, recorded or hidden by a late save, nothing is allocated, topped up or spent, and no pass on the source is reported ready |
| FundingInvariant.ReadyCanSpend | src/services/fundingSource.service.ts:507-530 | a pass reported ready for an amount can spend it |
| FundingAnswers.AllocateCommitsIff | src/services/fundingSource.service.ts:379-421 | an allocation commits exactly when its source exists, a secured one is proved, freshly observed and has the amount unreserved, its counter stays safe and the pass has none yet; and the error of each |
| FundingAnswers.AllocateMoves | src/services/fundingSource.service.ts:379-421 | the allocation it adds and the amount its source alone promises more |
| FundingAnswers.TopUpCommitsIff | src/services/fundingSource.service.ts:423-440 | a top-up of an active allocation commits exactly under the same conditions of its source and safe counters; and the error of each |
| FundingAnswers.TopUpMoves | src/services/fundingSource.service.ts:423-440 | what a top-up leaves of its allocation and its source, and nothing else |
| FundingAnswers.SpendRefusals | src/services/fundingSource.service.ts:442-468 | the error of a spend that does not commit, by the first condition that fails |
| FundingAnswers.SpendMoves | src/services/fundingSource.service.ts:442-468 | a spend takes the amount from the allocation, exhausted when nothing remains, and from its source, out of the locked funds of a secured one |
| FundingAnswers.ReleaseMoves | src/services/fundingSource.service.ts:470-491 | a release gives back all that remains, and takes nothing from the locked funds |
| FundingAnswers.SecuredObserved | src/services/fundingSource.service.ts:294-325 | what a network observation writes, and that it records a shortfall exactly when fewer funds are locked than reserved |
| FundingAnswers.ReadyIff | src/services/fundingSource.service.ts:507-530 | a pass is reported ready exactly when its active allocation covers the amount on a source without failure that holds it freshly; and the reason otherwise |
| FundingRaces.LateSecuredIff | src/services/fundingSource.service.ts:294-325 | whatever runs between the read and the save of a network observation, the save keeps conservation, and shortfall safety if and only if what was locked and reserved then, what is now, and what was observed compare as stated, half by half |
| FundingRaces.LateConnectedIff | src/services/fundingSource.service.ts:217-237 | the same for a connected wallet's balance, by its available and authorized amounts |
| FundingRaces.ReachableConserves | src/services/fundingSource.service.ts:176-491 | in every ledger reachable from the empty one, with observations saved as late as they may be, allocations add up, each source's counters are the sums over its allocations, and a secured source reserves what it promised |
| FundingRaces.ExactAlongIff | src/services/fundingSource.service.ts:217-325 | reclaimable amounts stay exact and shortfalls recorded all along a run with reads and saves apart if and only if every save of it is harmless for what moved since its read |
| FundingRaces.UnracedIsAtomic | src/services/fundingSource.service.ts:217-325 | with nothing in between, the read and the save are the atomic observation |
| FundingRaces.UnmovedIsHarmless | src/services/fundingSource.service.ts:217-325 | if the counters an observation reads did not move meanwhile, saving it late keeps the invariant |
| FundingRaces.LateWriteHidesShortfall | src/services/fundingSource.service.ts:294-325 | for any amounts, a run from the empty ledger after which a secured source holds less than it promised and no failure is recorded |
| FundingRaces.LateWriteOverstates | src/services/fundingSource.service.ts:217-237 | for any amounts, a run from the empty ledger after which a connected source reports its whole balance reclaimable although part of it is promised |
| FundingStores.FundingStore.constructor | src/services/fundingSource.service.ts:176-216 | an empty store satisfies the invariant |
| FundingStores.FundingStore.DrawFrom | src/services/fundingSource.service.ts:449-457 | the field by field update of a source by a spend is the drawn source, or its error |
| FundingStores.FundingStore.ReturnTo | src/services/fundingSource.service.ts:476-482 | the field by field update of a source by a release |
| FundingStores.FundingStore.SpendFundingAllocation | src/services/fundingSource.service.ts:442-468 | the stored rows after a spend, nothing after a throw, and whether there was an allocation |
| FundingStores.FundingStore.ReleaseFundingAllocation | src/services/fundingSource.service.ts:470-491 | the stored rows after a release and the amount it reports |
| FundingStores.FundingStore.TopUpFundingAllocation | src/services/fundingSource.service.ts:423-440 | the stored rows after a top-up, nothing after a throw |
| FundingStores.FundingStore.AllocateFunding | src/services/fundingSource.service.ts:379-421 | the stored rows after an allocation, nothing after a throw |
| FundingStores.FundingStore.RecordSecuredFundingBalance | src/services/fundingSource.service.ts:294-325 | the stored rows after a balance observation whose save follows whatever other operations did since its read, and when the invariant survives; with nothing in between, the atomic observation |
| Migration.BuildLegacyFundingMigrationSnapshot | src/migrations/fundingSources.ts:40-185 | the one-pass builder with its two loops computes exactly the totals, allocations and patches row by row |
| Migration.ScanFunding | src/migrations/fundingSources.ts:40-60 | the scan sums the proved records and keeps the first with the latest chain confirmation |
| Migration.SnapshotEstablishesInvariant | src/migrations/fundingSources.ts:61-130 | the snapshot satisfies the funding invariant if and only if every session has spent at most its limit |
| Migration.SessionBecomes | src/migrations/fundingSources.ts:61-73 | the allocation of an open and of a closed session: what remains, what is released, and its state |
| Migration.SnapshotSays | src/migrations/fundingSources.ts:130-183 | the source's sums, state, failure and staleness, and the one patch all sessions get |
| Migration.OverspentSnapshot | src/migrations/fundingSources.ts:61-130 | for any amounts, the snapshot of one overspent session is stored and is not consistent |
| ChargesInvariant.StartHolds | src/services/chargeReservation.service.ts:139-278 | a ledger with history, rows from before reservations still pending included, and no day counters satisfies the invariant |
| ChargesInvariant.StepKeeps | src/services/chargeReservation.service.ts:139-468 | every charge operation keeps the invariant |
| ChargesInvariant.RunKeeps | src/services/chargeReservation.service.ts:101-468 | over every run, passes created during it included, a pass's reserved and spent are its reserved and debited attempts within its limit, and each day's counters are that day's attempts plus its seed |
| ChargesTheorems.ConsistencyGuardsUnreachable | src/services/chargeReservation.service.ts:396-446 | the counter guards of release and finalize and the receipt conflict never fire |
| ChargesTheorems.RunLater | src/services/chargeReservation.service.ts:280-468 | over every run an attempt leaves "reserved" at most once and keeps its outcome and receipt |
| ChargesTheorems.RunCapped | src/services/chargeReservation.service.ts:116-129 | with a fixed daily limit no day ever exceeds it, historical spending included |
| ChargesTheorems.RunSingleUse | src/services/chargeReservation.service.ts:189-220 | with positive amounts a single-use pass never has two attempts reserved or debited |
| ChargesTheorems.ZeroAmountsDefeatSingleUse | src/services/chargeReservation.service.ts:189-220 | why the amounts must be positive, which the caller ensures (src/services/session.service.ts:2769-2771): the guard alone lets two zero amounts be reserved on one single-use pass |
| ChargesTheorems.DaysAddUpIff | src/services/chargeReservation.service.ts:160-187 | over any run a pass has spent, beyond its opening, the sum over its days if and only if no reservation of the run opened one of its day counters after attempts stored on that day had succeeded |
| ChargesTheorems.RunUnseeded | src/services/chargeReservation.service.ts:160-187 | without history and clock skew the days always add up to the pass |
| ChargesTheorems.SkewCountsTwice | src/services/chargeReservation.service.ts:160-187 | an attempt stored on another day than it was reserved for is counted twice, the run is given |
| ChargesTheorems.PaidAttemptFinalizes | src/services/chargeReservation.service.ts:411-468 | a paid, reserved attempt of an undisturbed pass can be finalized when its source is not in a shortfall |
| ChargesTheorems.Progress | src/services/chargeReservation.service.ts:411-468 | from the moment an unused pass of any run is funded with its whole limit, the same after any further run, for single-use passes too |
| ChargeAnswers.ReserveOnDayIff | src/services/chargeReservation.service.ts:139-278 | on a day with a counter a charge is reserved exactly when its pass serves it and the counter has room; the error otherwise, and all rows it leaves |
| ChargeAnswers.ReserveOpensDayIff | src/services/chargeReservation.service.ts:139-278 | on a day without one the same beside what was stored as succeeded that day, from which the counter starts |
| ChargeAnswers.MarksMove | src/services/chargeReservation.service.ts:280-375 | a claim takes over exactly a waiting attempt whose lease ran out, only the holder marks it submitted, and an outcome is recorded only while it is open |
| ChargeAnswers.ReleaseAnswer | src/services/chargeReservation.service.ts:377-409 | which attempts a release gives back, ignores and refuses |
| ChargeAnswers.ReleaseMoves | src/services/chargeReservation.service.ts:377-409 | a release gives the held amount back on the pass and its day, and ends the attempt |
| ChargeAnswers.FinalizeCommitsIff | src/services/chargeReservation.service.ts:411-468 | an attempt not debited yet is debited exactly when its payment was made, its money is held for a day, and the pass's funding can pay and, on a single-use pass, be released |
| ChargeAnswers.FinalizeMoves | src/services/chargeReservation.service.ts:411-468 | the pass, the day, the attempt and the receipt a debit leaves, and no other row |
| ChargeAnswers.FinalizePays | src/services/chargeReservation.service.ts:447-448 | after a debit the pass's allocation has spent the amount more; on a single-use pass it is over with nothing remaining and the rest released, on any other the amount less remains |
| ChargeStores.ChargeStore.ReserveChargeAttempt | src/services/chargeReservation.service.ts:139-278 | the stored rows after a reservation: session, day counter and attempt, or nothing after a rejection |
| ChargeStores.ChargeStore.ReleaseChargeReservation | src/services/chargeReservation.service.ts:377-409 | the stored rows after a release, or nothing after a throw |
| ChargeStores.ChargeStore.DebitAttempt | src/services/chargeReservation.service.ts:427-468 | the stored rows after a debit: both counters, funding, attempt and receipt together, or nothing |
| ChargeStores.ChargeStore.FinalizeChargeReservation | src/services/chargeReservation.service.ts:411-468 | a finalization, replays included |
| MeteredSteps.AcceptKeeps | src/services/meteredPayment.service.ts:566-760 | accepting an event keeps the metered invariant |
| MeteredSteps.ReleaseKeeps | src/services/meteredPayment.service.ts:840-903 | releasing a batch keeps the metered invariant |
| MeteredSteps.FinalizeKeeps | src/services/meteredPaymentWorker.service.ts:194-318 | settling a batch keeps the metered invariant |
| MeteredSteps.StepKeeps | src/services/meteredPaymentWorker.service.ts:194-414 | every step of the protocol, in any interleaving, keeps the metered invariant |
| MeteredSteps.RunKeeps | src/services/meteredPayment.service.ts:566-903 | over every run grant, session, batch and window counters are sums over events, event statuses follow their batch, and all limits hold |
| MeteredTheorems.GrantConserves | src/services/meteredPayment.service.ts:574-760 | everything accepted on a grant is reserved, spent or returned, within its total; a depleted grant holds nothing |
| MeteredTheorems.SessionConserves | src/services/meteredPayment.service.ts:596-601 | in every reachable ledger a session's metered reserved and spent are the sums over its grants, within its limit |
| MeteredTheorems.BatchMoney | src/services/meteredPaymentWorker.service.ts:201-238 | a batch's total is its events' sum and is all reserved, all spent or all returned, by its status |
| MeteredTheorems.RunLater | src/services/meteredPaymentWorker.service.ts:201-362 | over every run an event leaves "reserved" at most once, closed batches keep their totals, ended batches never change, grants never spend less or become active again |
| MeteredTheorems.MismatchIffEnded | src/services/meteredPaymentWorker.service.ts:202-225 | the mismatch check never fires on a live batch and always stops a failed or released one; the counter, owner and receipt checks never fire |
| MeteredTheorems.FinalizeOutcome | src/services/meteredPaymentWorker.service.ts:194-318 | what a finalization returns, case by case: mismatch, unsafe counter, funding, fee, or commit |
| MeteredTheorems.FinalizeCommitsIff | src/services/meteredPaymentWorker.service.ts:194-318 | a live batch is settled if and only if the spent mirror stays safe, its funding can be spent and the fee is well formed with shares of at most 256 bits, all conditions on the stored rows and the answer |
| MeteredTheorems.ReleaseAlwaysCommits | src/services/meteredPayment.service.ts:846-862 | releasing never throws |
| MeteredTheorems.CountNeverCloses | src/services/meteredPayment.service.ts:644-652 | in every reachable ledger, of the two reasons to close a batch before an event joins, the count never applies |
| MeteredTheorems.BatchBounds | src/services/meteredPayment.service.ts:636-696 | in every reachable ledger every batch stays within its grant's limits, accepts exactly while collecting, is then below every closing bound, and is its grant's only one |
| MeteredTheorems.ReceiptsCoverBatch | src/services/meteredPaymentWorker.service.ts:276-300 | the receipts of a batch add up to its total once it succeeded, and there are none before |
| MeteredTheorems.ReceiptFeesExact | src/services/meteredPaymentWorker.service.ts:276-300 | the receipts of a finalization add up to the provider's fee exactly |
| MeteredTheorems.RunFeesStay | src/services/meteredPaymentWorker.service.ts:194-318 | what the receipts of an ended batch add up to never changes again |
| MeteredTheorems.ReplayForever | src/services/meteredPayment.service.ts:540-571 | after any run resubmitting an accepted event changes nothing and returns it, other terms under its id conflict, and no second event has its id |
| MeteredTheorems.InactiveAcceptsNothing | src/services/meteredPayment.service.ts:579-579 | after any run a grant that is not active accepts nothing new |
| MeteredTheorems.RateBound | src/domain/meteredPayment.ts:74-78 | any stretch of time no longer than the rate window admits at most twice the rate |
| MeteredAnswers.GrantCreatedIff | src/services/meteredPayment.service.ts:428-535 | a grant is created exactly for its owner's own pass that serves the application, with limits in order and within the pass and an expiry ahead and not after the pass's |
| MeteredAnswers.NewEventAcceptedIff | src/services/meteredPayment.service.ts:549-760 | a usage event with a new external id is accepted exactly when its grant is the caller's, active, unexpired and covers it, and its pass is open to the application, unattended, unexpired and covers it, within the rate |
| MeteredAnswers.NewEventAnswer | src/services/meteredPayment.service.ts:549-625 | the error of the first condition that fails, in order |
| MeteredAnswers.StoredEventAnswer | src/services/meteredPayment.service.ts:540-547 | a stored external id replays exactly its own request |
| MeteredAnswers.AddedEventsWereAllowed | src/services/meteredPayment.service.ts:415-426 | over every run from the empty ledger, whenever a submission adds an event its grant and its pass allow it at that moment |
| MeteredAnswers.AcceptMoves | src/services/meteredPayment.service.ts:684-760 | an accepted event reserves its amount on its grant and its pass, and is stored last |
| MeteredAnswers.AcceptCounts | src/services/meteredPayment.service.ts:603-622 | it counts in its rate window and in no other |
| MeteredAnswers.AcceptJoins | src/services/meteredPayment.service.ts:637-698 | a small event joins its grant's collecting batch with room, and closes it exactly when a bound is reached |
| MeteredAnswers.AcceptOpens | src/services/meteredPayment.service.ts:637-698 | any other event opens a new batch; a small one that found no room closes the collecting one, a large one leaves it |
| MeteredAnswers.SettledReceipts | src/services/meteredPaymentWorker.service.ts:276-292 | after a settlement every listed event has a receipt of its amount and its own part of the fee, rounded down and one more for the first ones, or nothing of an unknown fee; no other event changes |
| MeteredAnswers.SettledMoves | src/services/meteredPaymentWorker.service.ts:201-318 | a settlement spends the batch's total on grant, pass and funding, depletes the grant and expires the pass exactly when their limit is spent, and ends the batch |
| MeteredAnswers.ReleasedMoves | src/services/meteredPayment.service.ts:840-903 | a release gives a live batch's total back on grant and pass and ends its open events and itself |
| MeteredAnswers.BackoffDoubles | src/services/meteredPaymentWorker.service.ts:388-407 | the wait before a retry doubles from one second up to a minute |
| MeteredWorker.ListingIsListing | src/services/meteredPaymentWorker.service.ts:197-200 | the worker's listing holds every open event of the batch once, by acceptance time |
| MeteredWorker.Earliest | src/services/meteredPaymentWorker.service.ts:341-362 | a claim picks the claimable batch due first, the oldest of several, and none only if none is claimable |
| MeteredWorker.WorkIsRun | src/services/meteredPaymentWorker.service.ts:426-590 | whatever the provider answers and other processes do meanwhile, the worker's loop is a run of the ledger's steps |
| MeteredWorker.VisitKeeps | src/services/meteredPaymentWorker.service.ts:445-588 | a visit keeps the invariant and its error handler never throws |
| MeteredVisits.ListingIs | src/services/meteredPaymentWorker.service.ts:197-200 | the worker settles exactly the open events of the batch, each once and in the order they were accepted |
| MeteredVisits.VisitIs | src/services/meteredPaymentWorker.service.ts:445-500 | which way a visit goes: an unsubmitted batch of a revoked grant is released, another one executed, a submitted one looked up and executed only if not found |
| MeteredVisits.ExecutionIs | src/services/meteredPaymentWorker.service.ts:486-560 | an execution that cannot be prepared is handled as a throw, a lost lease ends the visit without a write, and otherwise the answer decides |
| MeteredVisits.ConfirmedIs | src/services/meteredPaymentWorker.service.ts:456-587 | a confirmation settles the open events exactly when it can, and is otherwise handled as a throw, hopeless only for an unsafe counter |
| MeteredVisits.OtherAnswersAre | src/services/meteredPaymentWorker.service.ts:456-587 | the ledger step of every other answer |
| MeteredGiveBack.ReturnedIff | src/services/meteredPaymentWorker.service.ts:456-587 | exactly when an answer ends in giving a batch back: a refusal, a failure not worth retrying or on the last attempt, or a confirmation that cannot be settled, for good or on the last attempt |
| MeteredGiveBack.SubmittedReturnedIff | src/services/meteredPaymentWorker.service.ts:418-589 | exactly when a whole visit to a submitted batch gives it back, the payment not found and the request not prepared included, with any interference in between |
| MeteredGiveBack.ReturnedIsFailed | src/services/meteredPaymentWorker.service.ts:575-587 | a live batch given back ends failed: nothing of it is spent and all of it leaves its grant's reservations |
| MeteredGiveBack.PaidYetReturned | src/services/meteredPaymentWorker.service.ts:575-587 | a run from the empty ledger in which a submitted batch, confirmed by the provider on the fifth attempt during a shortfall, ends failed with its money returned |
| MeteredStores.MeteredStore.FindOrCreateBatch | src/services/meteredPayment.service.ts:637-683 | the batches after room is made for an event, and the one it joins |
| MeteredStores.MeteredStore.AddToBatch | src/services/meteredPayment.service.ts:684-698 | the joined batch's new total and count, closed when a bound is reached |
| MeteredStores.MeteredStore.AcceptEvent | src/services/meteredPayment.service.ts:603-760 | window, batch, event, grant and session after an acceptance |
| MeteredStores.MeteredStore.SubmitUsageEvent | src/services/meteredPayment.service.ts:549-809 | the stored rows after a submission: replay, conflict, rejection or acceptance |
| MeteredStores.MeteredStore.OpenTotal | src/services/meteredPayment.service.ts:849-853 | the reduction over the open events is their sum |
| MeteredStores.MeteredStore.ReleaseMeteredBatchReservation | src/services/meteredPayment.service.ts:840-903 | the stored rows after a release, or nothing after a throw |
| MeteredStores.MeteredStore.CreateReceipts | src/services/meteredPaymentWorker.service.ts:276-300 | the loop issues one receipt per listed event with its share, or stops at a conflict |
| MeteredStores.MeteredStore.FinalizeMeteredBatch | src/services/meteredPaymentWorker.service.ts:191-318 | the stored rows after a settlement, or nothing after a throw |
| MeteredStores.MeteredStore.ClaimMeteredBatch | src/services/meteredPaymentWorker.service.ts:341-362 | the search loop claims the batch due first under a new lease |
| MeteredStores.MeteredStore.RetryMeteredBatch | src/services/meteredPaymentWorker.service.ts:388-407 | a retry writes only under its own lease, with bounded backoff |
| MeteredStores.MeteredStore.RevokeMeteredGrant | src/services/meteredPayment.service.ts:905-943 | the stored rows after a revocation and the release of each listed batch |
| MeteredStores.RevocationReleases | src/services/meteredPayment.service.ts:905-931 | a revocation releases every unsubmitted batch of the grant that no worker is busy with, and touches no other |
| MeteredStores.MeteredStore.ServeBatch | src/services/meteredPaymentWorker.service.ts:445-588 | one visit, every branch of it |
| MeteredStores.MeteredStore.RunMeteredPaymentWorker | src/services/meteredPaymentWorker.service.ts:418-589 | the loop's stored rows and its counters: every claimed batch is counted under exactly one outcome |
| MeteredStores.CountsAddUp | src/services/meteredPaymentWorker.service.ts:429-436 | when the loop is not stopped the claimed batches are succeeded + pending + retried + released + skipped |
| MeteredStores.WorkKeeps | src/services/meteredPaymentWorker.service.ts:418-589 | from a consistent ledger the loop leaves a consistent one and is never stopped by its own handler |
| Psbt.PlanProperties | src/services/bitcoinPsbt.service.ts:319-332 | inputs = amount + fee + change, no dust change, the fee covers rate times the size actually built, is within the review, and gives up less than 546 satoshis |
| Psbt.PlanExistsIff | src/services/bitcoinPsbt.service.ts:319-332 | exactly when a plan is refused and why; the minimum check without change never fires |
| Psbt.PlanFee | src/services/bitcoinPsbt.service.ts:319-332 | the arithmetic that reassigns fee and change computes the plan |
| Psbt.CapAdmitsFee | src/services/bitcoinPsbt.service.ts:227-230 | the fee-rate cap admits the reviewed fee with less than 2 sat/kvB of slack |
| Psbt.CapReadsBack | src/services/bitcoinPsbt.service.ts:227-230 | the cap's text is read back as exactly that rate, within the supply |
| Psbt.FinalIffReviewed | src/services/bitcoinPsbt.service.ts:448-472 | a final transaction is accepted exactly when version, locktime, inputs and outputs are the reviewed ones; the fee check never fires |
| PsbtChains.RunKeeps | src/services/bitcoinPsbt.service.ts:232-415 | over every run of atomic steps plans stay valid, the fee covering rate times size included, coins stay exclusive, reviewed terms never change and a record that left the active statuses never changes |
| PsbtRaces.CoinsAreExclusive | src/services/bitcoinPsbt.service.ts:310-317 | after a run without collisions two active records sharing a coin are an original and its replacement, and never three share one |
| PsbtChains.ChainRaises | src/services/bitcoinPsbt.service.ts:282-334 | replacement chains keep inputs, recipient, amount and network, raise the rate, raise the fee by at least the size at every link, and are no longer than the size goes into inputs - amount - first fee |
| PsbtChains.CreateReplays | src/services/bitcoinPsbt.service.ts:268-275 | creating the same request again, after any run, returns the stored record and changes nothing |
| PsbtAnswers.SizesAdd | src/services/bitcoinPsbt.service.ts:138-149 | every input and output adds its own bytes: 58 or 68, and eight, the script and its length of one or three bytes |
| PsbtAnswers.CreateRefusesMalformed | src/services/bitcoinPsbt.service.ts:232-262 | what is wrong with a request by itself, in order |
| PsbtAnswers.CreateOfStored | src/services/bitcoinPsbt.service.ts:268-275 | a stored key replays exactly its own request |
| PsbtAnswers.CreateOfNew | src/services/bitcoinPsbt.service.ts:276-334 | a new request is created exactly when the node is ready, its coins are found, its original is out with its terms kept, and the coins are free and cover amount and fee within the limit; and the error of each |
| PsbtAnswers.CreateStores | src/services/bitcoinPsbt.service.ts:318-385 | the record it stores, field by field |
| PsbtAnswers.FinalAcceptedIff | src/services/bitcoinPsbt.service.ts:448-472 | a final transaction is accepted for a stored record exactly when version, lock time, every outpoint and sequence, and the outputs to recipient and change are the reviewed ones |
| PsbtAnswers.ClaimMoves | src/services/bitcoinPsbt.service.ts:505-530 | only a record that awaits its signature is claimed, or failed by a rejection |
| PsbtAnswers.ReconcileMoves | src/services/bitcoinPsbt.service.ts:585-605 | confirmed exactly from the required confirmations on, confirming from the first, and only a record out on the network moves |
| PsbtAnswers.MarkMoves | src/services/bitcoinPsbt.service.ts:606-611 | only the original of the same owner, still out on the network, is retired |
| PsbtAnswers.AbandonMoves | src/services/bitcoinPsbt.service.ts:625-642 | only its owner abandons a record, and only while it awaits its signature |
| PsbtRaces.InsertKeepsIff | src/services/bitcoinPsbt.service.ts:310-413 | whatever runs between the reads and the insert of a creation, the insert keeps exclusivity, chains and unique keys if and only if its key was taken meanwhile or its coins are still in no other active record |
| PsbtRaces.UnracedIsAtomic | src/services/bitcoinPsbt.service.ts:232-413 | with nothing in between, reading and inserting are the atomic creation, its replay included |
| PsbtRaces.RacyRunChained | src/services/bitcoinPsbt.service.ts:232-413 | however creations overlap, in every reachable collection each record has its own valid plan, each replacement raises its original and keys are unique |
| PsbtRaces.RacyRunPersists | src/services/bitcoinPsbt.service.ts:232-642 | however creations overlap, reviewed terms never change along a run and a record that left the active statuses never changes |
| PsbtRaces.ExclusiveAlongIff | src/services/bitcoinPsbt.service.ts:310-413 | coins stay exclusive all along a run if and only if no insert of it finds its key free and its coins taken since its read |
| PsbtReplacements.ReplaceableIff | src/services/bitcoinPsbt.service.ts:282-334 | in every reachable collection some request under an unused key replaces a record if and only if the record is on the network below the highest rate, its change is at least its size with change, and no other active record spends its coins |
| PsbtReplacements.InUseIff | src/services/bitcoinPsbt.service.ts:310-317 | the coins of an active record are in use exactly by its active original or an active replacement of it |
| PsbtReplacements.FeeTooLowUnreachable | src/services/bitcoinPsbt.service.ts:332-334 | the guard against a replacement whose absolute fee is not higher never fires |
| PsbtReplacements.NoChangeIsFinal | src/services/bitcoinPsbt.service.ts:289-297 | a run to a broadcast record without change that no request replaces |
| PsbtReplacements.SmallChangeIsFinal | src/services/bitcoinPsbt.service.ts:319-324 | a run to a broadcast record with change that no request replaces |
| PsbtRaces.SameCoinTwice | src/models/bitcoin.model.ts:149 | only the key is unique: two overlapping creations both insert and await signatures for the same coin |
| PsbtStores.PsbtStore.FindConflict | src/services/bitcoinPsbt.service.ts:310-317 | the conflict search finds another active record exactly when one spends a wanted coin |
| PsbtStores.PsbtStore.CreateBitcoinPsbt | src/services/bitcoinPsbt.service.ts:232-415 | the stored records after a creation, its replay or its rejection, every check in order, with whatever other calls do between the reads and the insert |
| PsbtStores.PsbtStore.SubmitSignedBitcoinPsbt | src/services/bitcoinPsbt.service.ts:474-545 | a record is broadcast exactly when it still awaits its signature and everything matches, and then with the reviewed inputs, outputs and fee; one past its signature, before or during the checks, is reconciled |
| PsbtStores.PsbtStore.ReconcileBitcoinPsbt | src/services/bitcoinPsbt.service.ts:553-612 | the statuses after a reconciliation, the original retired when the replacement was seen |
| PsbtStores.PsbtStore.AbandonBitcoinPsbt | src/services/bitcoinPsbt.service.ts:625-642 | only an unbroadcast record of its owner is abandoned |
| PaymentTheorems.AtMostOnce | src/services/btcpay.service.ts:708-777 | in every interleaving the provider is asked to execute at most once per owner and payment hash, and per owner, connection and key, for BTCPay and NWC |
| PaymentTheorems.RunKeepsOnce | src/services/nwc.service.ts:612-681 | the invariant behind it: unique keys and hashes, and each record executed or about to be at most once |
| PaymentTheorems.SuccessIff | src/connectors/btcpayConnector.ts:44-108 | a reply counts as success exactly when it is complete, for the right hash, with its preimage, a fee within the limit and an exact total |
| PaymentTheorems.SucceededIsProven | src/services/btcpay.service.ts:617-650 | every BTCPay payment ever succeeded has a verified preimage and a fee within its limit |
| PaymentTheorems.RunIsFinal | src/services/btcpay.service.ts:636-667 | for BTCPay succeeded and failed are final over every interleaving |
| PaymentTheorems.TerminalChangesIff | src/services/nwc.service.ts:563-570 | a step changes a finished record exactly when it is the NWC reconciliation write that ignores the status |
| PaymentTheorems.NwcSuccessIsNotFinal | src/services/nwc.service.ts:563-570 | a run from the empty system in which a succeeded NWC payment becomes uncertain again |
| PaymentAnswers.BtcpayMeans | src/connectors/btcpayConnector.ts:44-108 | what every BTCPay reply to an execution or a lookup means: success, in progress, unclear, refused, or undecided |
| PaymentAnswers.ExecutionWrites | src/services/nwc.service.ts:655-719 | what is written after an execution, for both providers, and that a finished record is left alone |
| PaymentAnswers.LookupWrites | src/services/nwc.service.ts:535-570 | what is written after a lookup, and the one write that ignores the stored status |
| PaymentAnswers.LookingMoves | src/services/btcpay.service.ts:708-725 | a stored payment of the same key or hash is reconciled exactly if it has the same terms, is undecided and is not being executed |
| PaymentAnswers.CreatingMoves | src/services/btcpay.service.ts:727-760 | an insert happens exactly if key and hash are free, and what a raced call does otherwise |
| PaymentAnswers.AskingMoves | src/services/btcpay.service.ts:760-777 | the provider is asked to execute once per insert, for that record, and lookups execute nothing |
| PaymentStores.PaymentStore.PersistPaymentResult | src/services/btcpay.service.ts:617-650 | the conditional write of a result, and that it leaves finished records alone |
| PaymentStores.PaymentStore.MarkPaymentUncertain | src/services/btcpay.service.ts:652-667 | the conditional write of an uncertain outcome, and that it leaves finished records alone |
| PaymentStores.PaymentStore.CreatePayment | src/models/bitcoin.model.ts:94-95 | an insert succeeds exactly when neither its key nor its hash is taken, and keeps both unique |
| PaymentStores.PaymentStore.Pay | src/services/btcpay.service.ts:687-777 | one whole call with other writers in between: the records it leaves, and that it executes only the record it inserted |

The `Answers` files also hold the cases that do nothing or are plain (`ReserveReplays`, `FinalizeReplays`, `NoSuchAttempt`,
`TopUpWithout`, `ReleaseWithout`, `ReadyWithout`, `ReleaseStays`, `ReleaseRefusals`, `NegativeSats`, `ParseBtcRefusals`,
`OthersMean`), what the remaining observations and writes leave (`ConnectedObserved`, `ConnectedStartsEmpty`, `ProofAdds`,
`ObservationsStay`, `RevokeMoves`, `LeasedWrites`, `BeginMoves`, `CheckMoves`), that a step keeps what commits and nothing of
what throws (`StepIs`, `TransactionsAre`, `OthersAre`, `WritesAre`, `WorkerWritesAre`, `LoopIs`), and the meaning of the small
words the other statements use (`DayIs`, `HistoryCounts`, `WindowIs`, `OpenIs`, `LowerIs`, `ProofTimes`).

## Left out

- Network clients, relays, resolvers, encryption, signatures, address and invoice decoding: their answers are parameters.
- Identifiers, hashes and fingerprints: rows are identified by position and a fingerprint is the tuple it commits to.
- String mirrors of numeric counters, audit logs, webhooks, notifications and metadata fields.
- Clocks: every operation takes its time as a parameter; the several `new Date()` of one operation are one time.
- 256-bit overflow of grant and batch totals: grant totals are themselves 256-bit amounts that bound them.
- Charge-attempt mirror rows of metering, and any joint invariant of metering and direct charges on one session: the two read and write different session fields (src/services/meteredPayment.service.ts:197-209, src/services/chargeReservation.service.ts:216), so they are modelled on separate sessions.
- Connection, destination and recipient checks of grants and batches, which enter as one condition each.
- Real-time exclusivity of worker leases: only the filtering of writes by lease is modelled.
- The choice of a funding source for a new pass (src/services/fundingSource.service.ts:336-377) and its owner filter.
- PsbtStores.PsbtStore.SubmitSignedBitcoinPsbt: an unconfirmed send leaves the record broadcast without its failure text.
- PsbtStores.PsbtStore.CreateBitcoinPsbt: its reads are taken at one time; what happens between them and the insert is a parameter.
- FundingInvariant.StepKeeps: a balance observation is one step here; `FundingRaces` has its read and its save apart.
- FundingInvariant.RunKeeps: the same; the charge and metered ledgers embed these runs, so their funding is observed atomically.
- Money.MajorToAtomicExact: an amount given as a number enters as the text it prints, after the check that it is a finite, safe number.
- BitcoinAmounts.ParseBtcIsExact: the same, for a number Core answers with.
- Receipts.Issue: one source's receipt at a time; the collection, receipt identifiers and the hashed fields other than amounts, fee, proof and time are not modelled.
- PaymentStores.PaymentStore.Pay: the NWC allowance and the connection checks are not modelled.
- PaymentTheorems.AtMostOnce: it counts requests to the provider, not what a provider does with one; a call that stops half way is a call that is never moved again.
- The conversion of charge amounts written before atomic fields existed (src/services/chargeReservation.service.ts:175), and a receipt owner that is missing.
- Limits on the length of listings, and pagination.
- Calendar recurrence, automation jobs, session administration, privacy deletion and the other migrations.
