# AvaSettle: verified model

AvaSettle moves stablecoins in and out of a treasury. Its guarantees sit in a few state
machines that race with each other and are arbitrated by guarded SQL updates and by two
contracts. This project models those machines in Dafny and proves what holds over every
run: at most one submission per payout, exact pay-in scans, replay-safe and conserving
contracts, bounded webhook retries, and the bounds of the small stateful cores.

`dafny verify dfyconfig.toml` checks everything. There is one module per file.

## How the model is built

- **Requests that race** (payouts, pay-ins, pay-in creation, webhook deliveries, key
  resolution) are tasks of a state machine. Every `await` is a yield point, one step is at
  most one SQL statement or one outside call, and the event carries what the environment
  answered: a head, a balance, a receipt, a response, or a database fault that strikes
  before or after the statement took effect. The transition functions are total (an event
  that does not fit changes nothing), so a run is any sequence of events and a theorem
  about all runs covers every interleaving, every crash and any number of requests.
- **Objects that the source updates in place** (ledgers, the partial-UPDATE builder, both
  contracts, the outbox, the rate limiter, the clients service, the counter) are classes.
  Their methods are proved against the functions the machines and theorems use.
- **Contracts** run over an ERC-20 model with balances and allowances (EIP-20), where an
  unlimited allowance is not spent. keccak256 is an injective constructor.

| part | modules |
|---|---|
| partial UPDATE, ledgers | `SqlPatch`, `PayoutLedger`, `PayInLedger` |
| payouts | `PayoutProtocol`, `PayoutSafety`, `PayoutTheorems`, `PayoutMeaning`, `PayoutFunding`, `PayoutConfirmations`, `PayoutOwnership`, `PayoutStranded`, `PayoutFailures`, `PayoutAbsorption`, `PayoutChainFate`, `PayoutClaims` |
| contracts | `Keccak`, `Erc20`, `SettlementVault`, `VaultTheorems`, `VaultBatches`, `VaultAuthority`, `PaymentRouter`, `RouterTheorems`, `RouterPayments` |
| pay-ins | `ChainScan`, `PayInProtocol`, `PayInScan`, `PayInFullScan`, `ScanMeaning`, `PayInMeaning`, `PayInSerial`, `PayInSweeps`, `PayInSweepFailures`, `PayInAbsorption`, `PayInRaces`, `RouterPayIn`, `PayInCreation`, `CreationTheorems`, `CreationReplays`, `CreationRecords`, `RouterWatches` |
| webhooks | `WebhookOutbox`, `OutboxProtocol`, `OutboxTheorems` |
| small cores | `Throttle`, `ApiKeyCache`, `RevokedKeys`, `ClientsService`, `BatchRef` |

## Assumptions

- The chain is append-only (no reorganisations) and gives every log of a transaction its own
  index; stored transfers carry that index.
- A pay-in's `startBlock` is positive, or none of its scans skips unread blocks
  (`ReadsEverything`). `ScanReadsEverythingIff` says exactly when a scan from block 0 does, and
  `LaterScanMayMissBlocks` that a first scan which does not is no guarantee for the next.
- The unique index on (client, external id) does not bind rows whose client is NULL, as in
  PostgreSQL, so uniqueness is stated for clients that are set.
- Client ids contain no `:` and are not `global` (they are UUIDs).
- Row ids are fresh random UUIDs.
- Tokens are standard: no fee on transfer, no rebasing, no callbacks.
- Only `ensureVaultAllowance` and the treasury balance check raise a conflict after a claim,
  and both come before the transaction is written
  (src/blockchain/blockchain.service.ts:665-688).

## Where the code falls short of what it says

- The catch block of a batch says nothing was paid on any failure
  (src/payouts/payouts.service.ts:449-451). An error after the network took the transaction
  leaves a paid payout `failed` without a hash: `FailedMayHaveBeenSubmitted`.
  `FailedWithoutHashWasSentIff` says exactly when; such a payout is never sent again.
- The batch is called all-or-nothing (src/payouts/payouts.service.ts:351-352). A lost claim
  does release every claimed leg, but a database error in the claim loop, an audit that
  throws after the claims (both outside the try block), or a failing release or fail write
  leaves legs in `authorized` for good: `ClaimFailureStrandsEarlierLegs`,
  `AuditFailureStrandsTheClaim`. `StrandedIff` names every such event, and
  `SmoothRunsLeaveNothingBehind` is the guarantee in their absence.
- Racing reconciles can overwrite `confirmed` with an older status, for payouts
  (`StaleReconcileOverwritesConfirmed`) and for pay-ins (`StaleReconcileUndoesAcceptance`).
  The two `FirmConfirmationIsAbsorbing` theorems and their converses
  `InfirmConfirmationCanBeUndone` say exactly from when on a confirmation is safe; serialised
  operations are one such case.
- The external id is described as the business idempotency key of a pay-in
  (src/payins/dto/create-payin.dto.ts:21), but a request idempotency key that is stored for
  another pay-in wins over it (`ReusedKeyReturnsAnotherPayIn`). `AnswerMatchesIff` and
  `LookupDecidesTheAnswer` say exactly when the answer is the pay-in the request names.
- The default router reference is the digest of the external id alone, so pay-ins of different
  clients can share an invoice (`TwoClientsMayShareAnInvoice`); `DefaultInvoicesCoincideIff`
  and `RouterPayInsShareWatchIff` say exactly which do.
- A failed sweep may have been sent; `UnsweptWasSentIff` says exactly when.
- A failed client load reschedules a webhook without looking at the attempt limit
  (`FailedLoadsOutrunTheLimit`; `AttemptsAreBounded` is what does hold), and a write of
  `delivered` that succeeds behind an error is treated as a failed POST
  (`LostAckRevivesDelivered`; `TerminalRowChangesIff` says when a finished row changes).
- A key resolution in flight during a rotation caches the old key again
  (`InFlightResolveRevivesRotatedKey`); `ClearingRemovesKeyIff` says exactly when a
  revocation is final, and `ResolvedClientIsRecent` bounds how old an answer can be.

## Model

| member | source | states |
|---|---|---|
| SqlPatch.BuildPatchSet | src/database/sql-patch.ts:8-27 | succeeds exactly when every defined property is whitelisted, with assignments numbered after the caller's values and the update stamp at the end; otherwise names the first unsupported property and what was pushed before it |
| SqlPatch.BuiltSetWritesExactlyThePatch | src/database/sql-patch.ts:8-27 | the built SET list always executes, wherever its parameters sit in the full list, writes each patched column with its value and leaves every other column alone |
| SqlPatch.BuiltUpdateIsAccepted | src/database/sql-patch.ts:15-26 | with the closing updated_at assignment every whitelisted patch, the empty one included, gives a statement that executes, writes the patch and stamps the row; without it exactly the patches that define nothing would be refused |
| Common.DedupKeepsFirsts | src/payouts/payouts.service.ts:313-313 | deduplicating the requested ids keeps each where it first occurred, in order |
| PayoutLedger.WrittenPatchIsTypedUpdate | src/payouts/payout-ledger.service.ts:7-16 | reading back a row after the built statement gives the typed update of the record |
| PayoutLedger.JsonColumn | src/payouts/payout-ledger.service.ts:7-16 | JSON text goes to the metadata alone |
| PayoutLedger.Ledger.CreateOrGetExisting | src/payouts/payout-ledger.service.ts:33-59 | inserts unless the client has the external id already, and then returns that row and changes nothing |
| PayoutLedger.Ledger.Update | src/payouts/payout-ledger.service.ts:123-142 | one guarded UPDATE: the patched row exactly when the guard matches, nothing else changed, fixed columns kept |
| PayoutSafety.ClaimIsSound | src/payouts/payouts.service.ts:159-180 | a claim, won, lost or failing either side of the statement, only takes a prepared row nobody holds |
| PayoutSafety.SendIsSound | src/payouts/payouts.service.ts:190-218 | balance, allowance and conflict steps before the network keep the claim or hand it to a release |
| PayoutSafety.OnlyWritingSends | src/blockchain/blockchain.service.ts:609-630 | a transaction leaves only from the write phase, with the legs of that task |
| PayoutSafety.RecordIsSound | src/payouts/payouts.service.ts:407-422 | the guarded result writes of a send, landing in any order and overlapping the catch block's writes, keep the invariant |
| PayoutSafety.SettleIsSound | src/payouts/payouts.service.ts:263-279 | releasing or failing legs keeps the invariant |
| PayoutSafety.ReconcileIsSound | src/payouts/payouts.service.ts:491-524 | the unguarded write of a stale snapshot never frees a payout for another submission |
| PayoutSafety.SubmitKeepsInv | src/payouts/payouts.service.ts:205-218 | handing a held job to the network raises the count of each of its payouts from 0 to 1 and keeps everything else in order |
| PayoutSafety.EventKeepsInv | src/payouts/payouts.service.ts:143-534 | every event keeps the protocol invariant; rows are never removed, fixed columns and recorded hashes never move |
| PayoutMeaning.CreationStartsIff | src/payouts/payouts.service.ts:41-55 | createPayout starts exactly for a positive amount within the asset's maximum |
| PayoutMeaning.StoredPayoutsAreWithinLimits | src/payouts/payouts.service.ts:41-55 | in every run each stored payout has a positive amount within the configured maximum |
| PayoutMeaning.InsertStoresIff | src/payouts/payout-ledger.service.ts:33-59 | an insert stores the prepared record exactly when its client has no payout under that external id, and an authorization follows exactly with immediate execution |
| PayoutMeaning.BatchStartsIff | src/payouts/payouts.service.ts:307-319 | a batch starts exactly when a vault is configured and some payout is named |
| PayoutMeaning.AuthorizationGoesOnIff | src/payouts/payouts.service.ts:148-163 | a single authorization goes on to its claim exactly for a payout of its client that is neither broadcasted nor confirmed |
| PayoutMeaning.RequestsStartAsAsked | src/payouts/payouts.service.ts:143-149 | an authorization and a reconcile start for the payout and the client asked for |
| PayoutMeaning.ClaimTakesEffectIff | src/payouts/payouts.service.ts:159-180 | a claim takes effect exactly on a prepared row, field by field; too late, a single one reads again and a batch releases what it has |
| PayoutMeaning.BatchGoesOnIff | src/payouts/payouts.service.ts:321-338 | a batch goes on to the treasury exactly when every leg belongs to its client, is prepared and of one asset |
| PayoutMeaning.SubmissionsStayWithinTheClient | src/payouts/payouts.service.ts:536-545 | over every run a request limited to a client never pays anybody else's payout |
| PayoutFunding.TreasuryBalanceDecides | src/payouts/payouts.service.ts:191-200 | told what the treasury holds, a single authorization goes on exactly when that is at least its payout's stored amount, and is released as a conflict exactly when it is below |
| PayoutFunding.BatchBalanceDecides | src/payouts/payouts.service.ts:340-349 | told what the treasury holds, a batch starts claiming exactly when that covers the sum of its payouts' stored amounts, and otherwise ends with nothing claimed |
| PayoutFunding.AllowanceDecides | src/blockchain/blockchain.service.ts:665-688 | told what the vault may draw, an authorization goes on exactly when that covers its legs, and otherwise releases every one of them as a conflict |
| PayoutFunding.EverySubmissionWasCovered | src/payouts/payouts.service.ts:190-218 | over every run each transaction was preceded, in its own request, by a reported balance of at least what it pays, and through the vault by a covering allowance |
| PayoutMeaning.WriteSubmitsIff | src/blockchain/blockchain.service.ts:612-628 | the network takes a task's transaction exactly when its write succeeds or errs after the network took it |
| PayoutMeaning.ErrorsOnTheWayFail | src/payouts/payouts.service.ts:263-279 | an error on the way other than a shortfall fails the legs; a failing audit ends the request |
| PayoutMeaning.ReceiptDecides | src/blockchain/blockchain.service.ts:632-644 | a sent transaction counts as confirmed exactly when the service waits for receipts and the receipt is a success |
| PayoutMeaning.RecordWritesLeg | src/payouts/payouts.service.ts:219-233 | the record of a leg: its hash, status and times, no reason, the rest kept |
| PayoutMeaning.LateErrorsFailEveryLeg | src/payouts/payouts.service.ts:443-468 | the first failing record write, or an error after all of them, sets every leg to be failed |
| PayoutMeaning.SettlingWritesLeg | src/payouts/payouts.service.ts:263-279 | a release or failure of a leg: status and reason, the rest kept |
| PayoutMeaning.ReconcileAsksIff | src/payouts/payouts.service.ts:495-504 | a reconcile asks the chain exactly for a payout of its client that has a hash |
| PayoutMeaning.ReconcileStores | src/payouts/payouts.service.ts:505-522 | what a reconcile stores from its snapshot and the receipt: failed on a revert, confirmed once a success is deep enough, the snapshot's own status otherwise, and nothing else moves |
| PayoutMeaning.ColumnsFollowStatus | src/payouts/payouts.service.ts:143-534 | in every interleaving times and reason follow the status, stale writes included |
| PayoutTheorems.EachPayoutIsSubmittedAtMostOnce | src/payouts/payouts.service.ts:143-534 | in every interleaving each payout is submitted at most once; submitted means not prepared; a hash means submitted with it and broadcasted, confirmed or failed |
| PayoutTheorems.HashIsWriteOnce | src/payouts/payouts.service.ts:491-524 | a recorded hash never changes and its payout never re-enters prepared or authorized, whatever happens later |
| PayoutTheorems.SubmittedNeverReturnsToPrepared | src/payouts/payouts.service.ts:263-271 | once submitted a payout is prepared in no later state, so a return to prepared means the claim sent nothing |
| PayoutTheorems.SubmitterHoldsEveryLeg | src/payouts/payouts.service.ts:351-401 | whoever submits exclusively holds every deduplicated requested leg, authorized and unsent |
| PayoutTheorems.SubmissionIsTheWholeRequest | src/payouts/payouts.service.ts:340-401 | each transaction pays the deduplicated request, recipient and amount aligned per leg, one asset, summing to the checked total |
| PayoutTheorems.TaskWorksForItsRequest | src/payouts/payouts.service.ts:143-321 | every task on its way to the network works for what its own request asked: the ids of a batch, the id of a single authorization, or the payout a creation with immediate execution stored |
| PayoutTheorems.SubmissionWasRequested | src/payouts/payouts.service.ts:105-401 | every transaction, single or batch, answers an actual request by the same task for exactly what it pays |
| PayoutTheorems.LostClaimReleasesItsLegs | src/payouts/payouts.service.ts:355-375 | when a claim of a batch finds its row taken, the batch writes nothing and goes on to release exactly the legs it holds |
| PayoutTheorems.ReleaseReturnsLegToPrepared | src/payouts/payouts.service.ts:362-370 | a release write cannot be lost to a race: the leg is prepared after it |
| PayoutTheorems.OnlyClaimedLegsAreWritten | src/payouts/payouts.service.ts:313-401 | an authorization writes only rows it claimed; a claim itself only moves one prepared row of the request to authorized |
| PayoutTheorems.OnePayoutPerExternalId | src/payouts/payout-ledger.service.ts:28-59 | each client has at most one payout per external id in every interleaving |
| PayoutOwnership.StrandedIff | src/payouts/payouts.service.ts:351-391 | in every interleaving an authorized payout has a request that still answers for it, except exactly when one of the named events struck it: a database error in the claim loop, an audit throwing after the claims, or a last release, fail or record write that errs; and then it stays authorized for good |
| PayoutOwnership.StepStrandsIff | src/payouts/payouts.service.ts:351-391 | one step leaves a payout authorized without an owner exactly when it already was, or the step is one of those events |
| PayoutOwnership.SmoothRunsLeaveNothingBehind | src/payouts/payouts.service.ts:351-376 | batches are all-or-nothing as long as no statement fails and no audit throws: every authorized payout still has its request at work |
| PayoutOwnership.AuthorizedIsWrittenByItsTask | src/payouts/payouts.service.ts:143-534 | only the task that holds or has sent an authorized payout ever writes it |
| PayoutStranded.ClaimFailureStrandsEarlierLegs | src/payouts/payouts.service.ts:355-376 | a run in which a database error at the second claim of a batch leaves its first leg authorized for good |
| PayoutStranded.AuditFailureStrandsTheClaim | src/payouts/payouts.service.ts:180-188 | a run in which an audit failure after the claim leaves the payout authorized for good |
| PayoutFailures.FailedWithoutHashWasSentIff | src/payouts/payouts.service.ts:448-475 | a payout that is failed without a hash was handed to the network exactly when its request met a send error after the network took it, a throwing wait for the receipt, or a failing record write; in every other run nothing was sent |
| PayoutFailures.SentIsClearOrMuddled | src/payouts/payouts.service.ts:219-279 | a submitted payout has its hash, or a request about to record it, or its run contains one of those mishaps, which befall submitted payouts only |
| PayoutAbsorption.FirmConfirmationIsAbsorbing | src/payouts/payouts.service.ts:491-524 | once a payout is confirmed and no reconcile under way holds an older status of it, it stays confirmed in every interleaving as long as no reconcile of it is told of a revert |
| PayoutAbsorption.InfirmConfirmationCanBeUndone | src/payouts/payouts.service.ts:505-522 | conversely, from any confirmation that is not firm some run without word of a revert takes it back |
| PayoutAbsorption.StepUndoesIff | src/payouts/payouts.service.ts:518-522 | one step undoes a confirmation exactly when it is the write of a reconcile carrying another status, and a reconcile loses it exactly when told of a revert |
| PayoutAbsorption.IdleConfirmationIsAbsorbing | src/payouts/payouts.service.ts:491-524 | a payout confirmed while no reconcile of it is under way stays confirmed |
| PayoutChainFate.TruthfulChainKeepsConfirmed | src/payouts/payouts.service.ts:491-524 | with a chain that answers one way per transaction, a firm confirmation is final: no reconcile of the payout is ever told of a revert |
| PayoutChainFate.ConfirmedTransactionSucceeded | src/payouts/payouts.service.ts:219-233 | with such a chain the transaction recorded for a confirmed payout is one that succeeded |
| PayoutTheorems.StaleReconcileOverwritesConfirmed | src/payouts/payouts.service.ts:518-522 | a run in which the slower of two reconciles takes a payout from confirmed back to broadcasted |
| PayoutTheorems.FailedMayHaveBeenSubmitted | src/payouts/payouts.service.ts:273-279 | a run that ends with a submitted payout marked failed, without a hash |
| PayoutConfirmations.ConfirmedOnlyOnTheChainsWord | src/payouts/payouts.service.ts:219-233 | in every interleaving a confirmed payout was vouched for: a request working on that very payout was told by the chain that its transaction succeeded |
| PayoutClaims.ClaimLegs | src/payouts/payouts.service.ts:353-376 | undisturbed, the loop claims all legs or restores every row's status, hash and fixed columns, and never touches other rows |
| PayoutClaims.Release | src/payouts/payouts.service.ts:362-370 | returns each claimed leg to prepared and nothing else |
| Erc20.TransferFromBalances | contracts/src/SettlementVault.sol:206-207 | transferFrom moves exactly the amount from payer to payee in that token and keeps allowances bounded |
| SettlementVault.Deploy | contracts/src/SettlementVault.sol:80-84 | deployment refuses a zero funder and otherwise gives a fresh vault |
| SettlementVault.Vault.SetFunder | contracts/src/SettlementVault.sol:95-100 | owner only, nonzero, logged with the previous funder |
| SettlementVault.Vault.SetOperator | contracts/src/SettlementVault.sol:102-106 | owner only, nonzero, allows or removes and logs |
| SettlementVault.Vault.SetTokenSupported | contracts/src/SettlementVault.sol:108-112 | owner only, nonzero, supports or removes and logs |
| SettlementVault.Vault.ExecuteLeg | contracts/src/SettlementVault.sol:188-210 | one leg: checks in order, id consumed before the token moves, the event last |
| SettlementVault.Vault.SendPayout | contracts/src/SettlementVault.sol:136-145 | a single payout, with nothing changed when it reverts |
| SettlementVault.Vault.ExecuteNext | contracts/src/SettlementVault.sol:170-180 | one round of the leg loop with the checked addition to the total |
| SettlementVault.Vault.ExecuteLegs | contracts/src/SettlementVault.sol:170-181 | the loop stops at the first failing leg with its error, or ends with the sum of the amounts |
| SettlementVault.Vault.SendBatch | contracts/src/SettlementVault.sol:151-184 | a batch takes effect as a whole or reverts with nothing changed |
| VaultAuthority.PayoutSucceedsIff | contracts/src/SettlementVault.sol:136-145 | a payout succeeds exactly when the caller is an operator, the vault is not paused, the token is supported, reference, payee and amount are not zero, the id is unused, and allowance and balance cover it |
| VaultAuthority.PayoutRefusals | contracts/src/SettlementVault.sol:136-145 | which error a refused payout names, in the order of the checks |
| VaultAuthority.PayoutLeaves | contracts/src/SettlementVault.sol:188-210 | what a payout leaves: its id used, its event logged, its tokens moved, nothing else changed |
| VaultAuthority.BatchPaysIff | contracts/src/SettlementVault.sol:151-184 | a batch succeeds exactly under its entry conditions, well-formed unused legs, an allowance for the sum and a balance for each leg in turn, all in terms of storage |
| VaultAuthority.BatchRefusals | contracts/src/SettlementVault.sol:157-166 | which error refuses a batch before its legs, in the order of the checks |
| VaultAuthority.OwnerCalls | contracts/src/SettlementVault.sol:95-120 | the owner's calls: who may make them, with what, and exactly what they change |
| VaultAuthority.HolderCalls | contracts/src/SettlementVault.sol:206-207 | approve, transfer and transferFrom by token holders: exactly when they succeed and what an approval changes |
| VaultAuthority.TransferFromSucceedsIff | contracts/src/SettlementVault.sol:206-207 | transferFrom succeeds exactly when the payee is not zero and allowance and balance cover the amount |
| VaultAuthority.TransferFromSpends | contracts/src/SettlementVault.sol:206-207 | it takes the amount off that one allowance unless that is unlimited |
| VaultAuthority.EveryEventIsAuthorized | contracts/src/SettlementVault.sol:88-184 | over every run a payment came from a caller the log before it allows as operator, while not paused, in a supported token, out of the funder last set; operators, tokens and funder changed by the owner alone |
| VaultTheorems.EveryRunIsAccountedFor | contracts/src/SettlementVault.sol:136-210 | over every run each payout id and batch id takes effect at most once and exactly when logged, each balance moves by exactly what the log says, each batch total is the sum of its legs |
| VaultTheorems.ExecuteKeepsLegInv | contracts/src/SettlementVault.sol:188-210 | a leg consumes a fresh id and moves what its event says |
| VaultTheorems.BatchKeepsInv | contracts/src/SettlementVault.sol:151-184 | a batch keeps all of it, its own record included |
| VaultBatches.LegIdsDistinct | contracts/src/SettlementVault.sol:170-175 | legs of one batch have pairwise distinct ids, even with equal recipients and amounts |
| VaultBatches.LegsGoIff | contracts/src/SettlementVault.sol:164-181 | the first n legs pass exactly when each is well formed, unused and covered when its turn comes; the exact balance and allowance left after them |
| VaultBatches.BatchSucceedsIff | contracts/src/SettlementVault.sol:151-184 | a batch succeeds if and only if the entry checks pass, every leg is ready and the funder's allowance and balance cover the legs in turn |
| VaultBatches.FreshLegIsUnused | contracts/src/SettlementVault.sol:170-175 | a leg of a batch never executed is unused unless a single payout took that very leg reference |
| VaultBatches.CoveredFreshBatchNeverReverts | src/blockchain/blockchain.service.ts:609-610 | in any run, a fresh well-formed batch whose sum the funder's balance and allowance cover never reverts, so checking the total up front suffices |
| PaymentRouter.Deploy | contracts/src/PaymentRouter.sol:71-75 | deployment refuses a zero treasury and otherwise gives a fresh router |
| PaymentRouter.Router.SetTreasury | contracts/src/PaymentRouter.sol:79-84 | owner only, nonzero, logged with the previous treasury |
| PaymentRouter.Router.SettleInvoice | contracts/src/PaymentRouter.sol:211-235 | checks in order, id consumed before the transfer, paid to the treasury of that moment |
| PaymentRouter.Router.Pay | contracts/src/PaymentRouter.sol:150-157 | a plain payment, with nothing changed when it reverts |
| PaymentRouter.Router.PayWithPermit | contracts/src/PaymentRouter.sol:167-179 | a refused permit is swallowed, then the payment proceeds or reverts as a whole |
| PaymentRouter.Router.PayWithExpiry | contracts/src/PaymentRouter.sol:188-198 | refuses after a nonzero deadline, otherwise settles the id that binds the deadline |
| RouterPayments.PaymentSucceedsIff | contracts/src/PaymentRouter.sol:201-235 | a plain payment succeeds exactly when the router is not paused, reference and token are not zero, the token is supported, the amount is positive and at least the minimum, the id is unpaid, there is a treasury, and allowance and balance cover it |
| RouterPayments.ExpiringPaymentSucceedsIff | contracts/src/PaymentRouter.sol:188-198 | the same for an expiring payment and its own id, up to a nonzero deadline |
| RouterPayments.PermitPaymentSucceedsIff | contracts/src/PaymentRouter.sol:167-179 | the same for a payment with a permit, where a good permit stands in for the allowance |
| RouterPayments.PaymentRefusals | contracts/src/PaymentRouter.sol:150-235 | which error a refused payment names, in the order of the checks |
| RouterPayments.PaymentLeaves | contracts/src/PaymentRouter.sol:211-235 | what a payment leaves: its id paid, its event logged, its tokens moved to the treasury of that moment, nothing else changed |
| RouterPayments.OwnerCalls | contracts/src/PaymentRouter.sol:79-101 | the owner's calls: who may make them, with what, and exactly what they change |
| RouterPayments.EmergencyWithdrawIff | contracts/src/PaymentRouter.sol:107-112 | a withdrawal succeeds exactly for the owner, with a token, a recipient and the balance, and moves just that |
| RouterPayments.EveryEventIsEntitled | contracts/src/PaymentRouter.sol:79-235 | over every run a payment was logged while not paused, for its caller, in a supported token and at least at its minimum; treasury, tokens and withdrawals in the owner's hands alone |
| RouterTheorems.EveryRunIsAccountedFor | contracts/src/PaymentRouter.sol:79-235 | over every run an id is marked paid exactly when one event, and only one, carries it; each payment went to the treasury in force then; every balance moves exactly as the log says |
| RouterTheorems.IdsAreInjective | contracts/src/PaymentRouter.sol:118-139 | plain and expiring ids never coincide and each binds its arguments |
| RouterTheorems.NoExpiredInvoiceSettles | contracts/src/PaymentRouter.sol:188-198 | no expiring invoice is ever settled after its nonzero deadline |
| RouterTheorems.PermitPaysIff | contracts/src/PaymentRouter.sol:167-179 | without a working permit the call does what a plain payment does; with one it needs no allowance beforehand |
| RouterTheorems.FrontRunPermitStillPays | contracts/src/PaymentRouter.sol:161-179 | when someone else submits the payer's permit first, the payer's call still does what it would have done undisturbed, although its own permit is refused |
| ChainScan.PaginateLogs | src/blockchain/blockchain.service.ts:888-903 | reading by pages returns what one read of the whole range would |
| ChainScan.ScanFromBlock | src/payins/payins.service.ts:663-668 | the resume point is never before startBlock and leaves no gap after the cursor |
| ChainScan.SameKeyIff | src/payins/payins.service.ts:670-676 | two transfers count as one exactly when both name the same log of one transaction, or, without log indexes, agree on transaction, sender, amount and block |
| ChainScan.MergeTransfers | src/payins/payins.service.ts:678-689 | keeps the last transfer of each key, once, and nothing else, in some order |
| ChainScan.MergedIsUnion | src/payins/payins.service.ts:670-689 | when equal keys mean equal transfers, merging keeps every transfer exactly once |
| PayInLedger.WrittenPatchIsTypedUpdate | src/payins/payin-ledger.service.ts:15-32 | reading back a row after the built statement gives the typed update of the record |
| PayInLedger.JsonColumns | src/payins/payin-ledger.service.ts:15-32 | JSON text goes to the metadata and the transfers alone |
| PayInLedger.NamespacedKeyIsInjective | src/payins/payin-ledger.service.ts:221-223 | two clients never share a stored idempotency key |
| PayInLedger.Ledger.CreateOrGetExisting | src/payins/payin-ledger.service.ts:51-78 | inserts unless the client has the external id already, and then returns that row and changes nothing |
| PayInLedger.Ledger.FindByIdempotencyKey | src/payins/payin-ledger.service.ts:194-204 | the pay-in stored under the client's key, if there is one |
| PayInLedger.Ledger.StoreIdempotencyKey | src/payins/payin-ledger.service.ts:206-217 | the first value stored under a key stays |
| PayInLedger.Ledger.Update | src/payins/payin-ledger.service.ts:142-165 | one UPDATE under both guards: the patched row exactly when they match, nothing else changed |
| PayInScan.StoredTransfersAreExact | src/payins/payins.service.ts:176-239 | in every interleaving, lost updates and lagging heads included, stored transfers are exactly the matching logs of [startBlock, h], once each, for some h at or above the cursor, and the stored total is theirs; from block 0 on provided no scan skips unread blocks |
| ScanMeaning.DepositPayInHoldsItsLogs | src/blockchain/blockchain.service.ts:268-318 | in every interleaving the stored transfers of a derived-address pay-in are, one for one, the logs of [startBlock, h] that transfer its token to its address, each with the log's own sender, value, block, hash and index, and the stored total is the sum of their values |
| ScanMeaning.RouterPayInHoldsItsLogs | src/blockchain/blockchain.service.ts:320-400 | the same for a router pay-in and the payments of its invoice, in its token, to its router |
| ScanMeaning.ReconcileSaysWhatTheLogsSay | src/payins/payins.service.ts:176-239 | serialised, a reconcile stores the sum of the deposits the chain holds up to its head and the one status that sum, their depth and the expiry call for |
| PayInMeaning.ScanStartsAt | src/payins/payins.service.ts:663-668 | a scan resumes 30 blocks before the first unread one, never before startBlock, and looks back from the head at block 0 |
| PayInMeaning.PagesAreBounded | src/blockchain/blockchain.service.ts:888-903 | a page holds at most 2,000 blocks and only the last one fewer |
| PayInScan.ReconcileStepOk | src/payins/payins.service.ts:184-190 | reading page by page from a snapshot while the chain grows, then merging, covers the range up to its head |
| PayInScan.ScanReadsEverythingIff | src/blockchain/blockchain.service.ts:277-282 | a scan, first or later, reads every unread block on every chain exactly when it does not resume at block 0 with a head beyond the look-back and the blocks already read |
| PayInScan.LaterScanMayMissBlocks | src/blockchain/blockchain.service.ts:277-282 | fitting at the first scan is not enough at block 0: a later scan can skip blocks |
| PayInFullScan.ReconcileAgreesWithFullScan | src/payins/payins.service.ts:176-239 | serialised and with heads that do not go back, each reconcile stores the total and status of one full scan, and confirms only on the exact sum with every transfer at least max(1, minConfirmations) deep |
| PayInSerial.EnoughMeansEveryTransferDeep | src/payins/payins.service.ts:198-209 | comparing with the latest transfer is the same as asking every transfer to be deep enough |
| PayInSerial.StatusSaysWhatWasPaid | src/payins/payins.service.ts:214-226 | each of the six statuses holds exactly when the total, the expiry and the depth of every transfer say so; the cases are exclusive and exhaustive |
| PayInSerial.ClassifyOfPermutation | src/payins/payins.service.ts:191-226 | status and total do not depend on the order of the transfers |
| PayInMeaning.ReconcileGoesOnIff | src/payins/payins.service.ts:180-183 | a reconcile goes on to the chain exactly when it does not find the pay-in confirmed |
| PayInMeaning.ReconcileStores | src/payins/payins.service.ts:214-239 | what its write stores, field by field: transfers, total, head, the status they call for, and the times of first detection and confirmation |
| PayInMeaning.ReconcileNotifies | src/payins/payins.service.ts:227-273 | the webhooks it goes on to: detected for a first detection, then confirmed for a first confirmation |
| PayInMeaning.AcceptanceTakesEffectIff | src/payins/payins.service.ts:404-434 | an acceptance takes effect exactly on an underpaid or overpaid pay-in, field by field, and otherwise changes nothing |
| PayInMeaning.WebhookIsEnqueuedIff | src/webhooks/webhook.service.ts:39-63 | a webhook is enqueued exactly when the pay-in has a client and the enqueue does not fail |
| PayInMeaning.FailedAuditSendsNothing | src/payins/payins.service.ts:241-250 | a failed audit ends the request with its webhooks unsent |
| PayInMeaning.NoClientNoWebhook | src/webhooks/webhook.service.ts:39-44 | a pay-in without a client never has a webhook, in any run |
| PayInMeaning.TimesFollowStatus | src/payins/payins.service.ts:227-239 | in every interleaving a pay-in with transfers has its detection time and a confirmed one its confirmation time |
| PayInSerial.WebhooksComeOnceAndInOrder | src/payins/payins.service.ts:252-273 | serialised, a client's webhooks are at most detected then confirmed, each once and only after it happened, and a prefix of exactly those unless a failure lost one |
| PayInAbsorption.FirmConfirmationIsAbsorbing | src/payins/payins.service.ts:176-239 | a confirmed pay-in stays confirmed in every interleaving of any requests when no reconcile has yet to get its head and every scan or write under way is bound to confirm |
| PayInAbsorption.InfirmConfirmationCanBeUndone | src/payins/payins.service.ts:176-239 | conversely, from any confirmation that is not firm some run takes it back |
| PayInAbsorption.FinishScan | src/payins/payins.service.ts:189-190 | left alone, a scan under way ends in the verdict the chain has already settled |
| PayInAbsorption.StepUndoesIff | src/payins/payins.service.ts:227-238 | one step takes a pay-in out of confirmed exactly when it is the write of a reconcile that classified otherwise |
| PayInAbsorption.PendingReconcileDecides | src/payins/payins.service.ts:227-238 | a reconcile waiting to write settles the status by its own classification, whatever the row says by then |
| PayInAbsorption.ConfirmedWhileIdleIsAbsorbing | src/payins/payins.service.ts:181-183 | a pay-in confirmed while no reconcile of it is under way stays confirmed, without serialisation and whoever owns it |
| PayInAbsorption.SerialConfirmedIsAbsorbing | src/payins/payins.service.ts:181-183 | with serialised requests confirmed is absorbing |
| PayInRaces.StaleReconcileUndoesAcceptance | src/payins/payins.service.ts:230-238 | a run in which a reconcile that read before an acceptance takes the pay-in from confirmed back to underpaid |
| PayInMeaning.SweepGoesOnIff | src/payins/payins.service.ts:295-310 | a sweep request marks a router pay-in, leaves a recorded sweep alone, and otherwise goes on to the chain |
| PayInMeaning.SweepResultIsStored | src/payins/payins.service.ts:318-347 | the result of a sweep goes to a pending or failed one, field by field, confirmed exactly when its receipt was a success |
| PayInMeaning.SweepErrorsGoOnToFailure | src/payins/payins.service.ts:349-384 | a sweep whose record write or audit fails goes on to recording a failure |
| PayInMeaning.SweepFailureIsStored | src/payins/payins.service.ts:369-384 | a failure is recorded, with a reason, exactly on a pending or failed sweep |
| PayInMeaning.RecordedSweepWasReported | src/payins/payins.service.ts:318-347 | in every interleaving a recorded sweep is one the chain reported, with its hash, amount and time, confirmed exactly when the report said so |
| PayInSweeps.RecordedSweepIsFinal | src/payins/payins.service.ts:318-347 | in every interleaving, once a sweep is broadcasted or confirmed its status, hash, amount and time never change |
| PayInSweepFailures.UnsweptWasSentIff | src/payins/payins.service.ts:312-380 | a pay-in whose sweep is pending or failed had nevertheless reached the network exactly when a result still waits to be written, the send erred after the network took the transaction, or the write of the result erred |
| PayInSweeps.RouterPayInsStayNotRequired | src/payins/payins.service.ts:296-303 | router pay-ins are never swept |
| RouterPayIn.RouterFeedIsSingle | src/blockchain/blockchain.service.ts:335-400 | whatever the contract's run, the scan for one (reference, token, amount) id finds at most one payment, of exactly that amount |
| RouterPayIn.RouterPayInIsNeverMispaid | src/payins/payins.service.ts:214-225 | a router pay-in is never underpaid or overpaid: the received total is 0 or exactly the expected amount and no acceptance applies |
| PayInCreation.Counters.ClaimNextPayInIndex | src/database/database.service.ts:125-138 | returns the old value and increments, or fails when the row is missing |
| CreationRecords.RequestBeginsIff | src/payins/payins.service.ts:63-74 | past its key a request goes on exactly for a positive amount and, in router mode, with a router configured |
| CreationRecords.KeyIsLookedUp | src/payins/payins.service.ts:53-60 | a given, nonempty key is looked up first, under its client, and leads to its pay-in if stored |
| CreationRecords.KeyAnswers | src/payins/payin-ledger.service.ts:194-204 | a pay-in found through a key is the answer |
| CreationRecords.InsertIsFinished | src/payins/payins.service.ts:131-156 | after its insert a request stores its key unless it is taken, audits and answers |
| CreationRecords.IndexIsClaimed | src/database/database.service.ts:125-138 | a derived pay-in gets the counter's index, which moves on by one; without the row the request fails |
| CreationRecords.InsertStoresIff | src/payins/payin-ledger.service.ts:51-78 | an insert stores its record exactly when the client has no pay-in under that external id |
| CreationRecords.NewRecordIsBlank | src/payins/payins.service.ts:94-129 | a new record is pending, with nothing received, seen or swept |
| CreationRecords.StoredPayInWasAskedFor | src/payins/payins.service.ts:66-129 | in every interleaving a stored pay-in is one that some request asked for, field by field, and starts at a head read from the chain |
| CreationTheorems.DerivationIndexesAreDistinct | src/payins/payins.service.ts:84-92 | in every interleaving stored derived pay-ins have pairwise distinct indexes below the counter |
| CreationTheorems.DepositAddressesAreDistinct | src/payins/payins.service.ts:91-92 | with an injective derivation no two of them share a deposit address, so no log matches two of them |
| CreationReplays.AnswerMatchesIff | src/payins/payins.service.ts:53-60 | in every run an answer is the pay-in the request named by its external id if and only if, at its lookup, its key was not stored or led to that pay-in; without a key it always is |
| CreationReplays.LookupDecidesTheAnswer | src/payins/payins.service.ts:53-60 | decided before the lookup: whatever happens afterwards, the request gets the pay-in it names, if it gets an answer, exactly when its key is not stored or leads there at that moment |
| CreationReplays.EveryReplayReturnsTheOnePayIn | src/payins/payin-ledger.service.ts:51-78 | a client has one pay-in per external id, and an answer to a request for that id is that pay-in if and only if the request's key fitted at its lookup |
| CreationReplays.AnswerMatchesUnlessKeyIsReused | src/payins/payins.service.ts:53-60 | in particular the answer is right whenever the client uses the key for one external id only |
| CreationReplays.ReusedKeyReturnsAnotherPayIn | src/payins/payins.service.ts:53-60 | a run in which a reused key returns the older pay-in although the client has one under the external id it names |
| RouterWatches.RouterPayInsShareWatchIff | src/blockchain/blockchain.service.ts:176-187 | two router pay-ins watch one invoice exactly when reference, token and amount agree; then every payment counts for both, and otherwise none does |
| RouterWatches.DefaultInvoicesCoincideIff | src/payins/payins.service.ts:71-74 | the default reference leaves the client out: two requests without their own reference share an invoice exactly when external id, token and amount agree, whoever asks |
| RouterWatches.StoredReference | src/payins/payins.service.ts:71-74 | every stored router pay-in watches the invoice of some reference |
| RouterWatches.TwoClientsMayShareAnInvoice | src/payins/payins.service.ts:71-74 | a run in which two clients' pay-ins wait for the same invoice and one payment counts for both |
| CreationTheorems.AnswersStayWithinTheClient | src/payins/payin-ledger.service.ts:194-204 | every answer is a stored pay-in of the asking client, also through an idempotency key, although that lookup does not filter by client |
| CreationTheorems.KeysAndTermsAreWriteOnce | src/payins/payin-ledger.service.ts:206-217 | what an idempotency key leads to and the fixed columns of a pay-in never change, updates included |
| CreationTheorems.NewPayInIsFresh | src/payins/payins.service.ts:94-129 | the stored record is an initial state of the pay-in machine |
| CreationTheorems.CreatedRouterPayInIsNeverMispaid | src/payins/payins.service.ts:66-74 | end to end: created by any race, collected by any other while the contract runs, a router pay-in is never mispaid |
| WebhookOutbox.Outbox.Enqueue | src/webhooks/webhook.service.ts:39-63 | adds a pending row due at once; without a client, or when the insert fails, nothing changes and the caller sees no error |
| WebhookOutbox.Outbox.RecoverStuck | src/webhooks/webhook.service.ts:73-78 | returns exactly the rows delivering for more than five minutes to pending |
| WebhookOutbox.Outbox.ClaimDue | src/webhooks/webhook.service.ts:80-91 | claims the oldest due unlocked rows, as many as the batch allows, and only those |
| WebhookOutbox.Outbox.Retry | src/webhooks/webhook.service.ts:237-251 | back to pending, due after the delay for that many attempts |
| WebhookOutbox.Outbox.DeliverOnce | src/webhooks/webhook.service.ts:149-235 | one delivery of a claimed row; with an endpoint, delivered exactly on 200..299 and pending exactly below the limit on a network error, 429 or a code from 500 on |
| WebhookOutbox.AnswerDecides | src/webhooks/webhook.service.ts:185-235 | one delivery by the answer's code alone: delivered on 200..299, failed on another code below 500 but 429 or at the limit, otherwise pending and due after 1 s, 5 s or 30 s |
| WebhookOutbox.LoadDecides | src/webhooks/webhook.service.ts:149-171 | without an endpoint the row is skipped; when the client cannot be loaded it is pending again, whatever the limit |
| WebhookOutbox.RecoveryAndClaim | src/webhooks/webhook.service.ts:73-91 | recovery takes exactly rows delivering, untouched, for more than five minutes; claims take pending rows whose time has come |
| WebhookOutbox.LimitIsAtLeastOne | src/webhooks/webhook.service.ts:186-186 | the attempt limit is the configured number, and at least one |
| WebhookOutbox.Outbox.DispatchDueEvents | src/webhooks/webhook.service.ts:71-97 | one uninterrupted dispatch puts each claimed row through one delivery and changes no other row but by recovery |
| OutboxTheorems.PostsAreBounded | src/webhooks/webhook.service.ts:71-235 | in every run where no delivery outlives its lease, POSTs are at most max(1, retryAttempts) plus the recoveries of the row |
| OutboxTheorems.OneDeliveryAtATime | src/webhooks/webhook.service.ts:80-95 | under the same condition no two deliveries of one event are ever under way |
| OutboxTheorems.TerminalIsFinal | src/webhooks/webhook.service.ts:253-265 | a delivered, failed or skipped row never changes again when leases are kept and no write of delivered succeeds behind an error |
| OutboxTheorems.TerminalRowChangesIff | src/webhooks/webhook.service.ts:190-234 | with leases kept, a terminal row changes exactly when the catch block of such a lost acknowledgement writes |
| OutboxTheorems.RestingRowIsFinal | src/webhooks/webhook.service.ts:71-97 | in every run, leases kept or not, a terminal row that no delivery holds never changes again and is never POSTed again |
| OutboxTheorems.HolderDecides | src/webhooks/webhook.service.ts:237-265 | a delivery waiting to write settles the row by its own decision, whatever another one has written |
| OutboxTheorems.StatusIsJustified | src/webhooks/webhook.service.ts:185-234 | in every run a delivered row was answered with a 2xx, and a failed one with a code below 500 other than 2xx and 429, or after its last attempt |
| OutboxTheorems.AnswerIsWritten | src/webhooks/webhook.service.ts:185-265 | the same decision in the machine, through the write that follows the answer |
| OutboxTheorems.DeliveriesTerminate | src/webhooks/webhook.service.ts:149-251 | absent crashes and load failures, at most 6 * max + 5 steps move a row, and after that many it is terminal |
| OutboxTheorems.UnfinishedCanAdvance | src/webhooks/webhook.service.ts:80-95 | until it is terminal, waiting for its due time is all it takes for another such step |
| OutboxTheorems.AttemptsAreBounded | src/webhooks/webhook.service.ts:149-251 | in every run, leases kept or not, attempts exceed the limit by no more than the number of failed loads |
| OutboxTheorems.FailedLoadsOutrunTheLimit | src/webhooks/webhook.service.ts:151-160 | whatever the limit, failed loads alone bring a pending row to any number of attempts without a POST |
| OutboxTheorems.LostAckRevivesDelivered | src/webhooks/webhook.service.ts:196-214 | a run in which a delivered row goes back to pending because its own write reported an error |
| OutboxTheorems.LateWriteRevivesDelivered | src/webhooks/webhook.service.ts:73-78 | a run in which a delivery past its lease puts a row delivered by another back to pending |
| Throttle.Middleware.Use | src/common/throttle.middleware.ts:21-47 | one request: opens a window, counts, or refuses with the time left; a limit of 0 or less admits all |
| Throttle.Middleware.Prune | src/common/throttle.middleware.ts:63-68 | removes exactly the windows that are over |
| Throttle.RefusalsAreExact | src/common/throttle.middleware.ts:21-43 | a request is refused exactly under a positive limit, inside its bucket's open window, once that has admitted the limit; after the wait it is told, and not before, it is admitted |
| Throttle.AdmissionsAreCounted | src/common/throttle.middleware.ts:28-46 | an admitted request opens a window of one second that counts it, or counts one more in the open one; other buckets are untouched |
| Throttle.NoLimitAdmitsAll | src/common/throttle.middleware.ts:22-23 | without a positive limit every request of a run is admitted |
| Throttle.AdmissionsAreBounded | src/common/throttle.middleware.ts:21-47 | any bucket admits at most (k+1) * limit requests in any half-open interval of k windows, whatever other buckets and the cleanup do |
| Throttle.RefusedOnlyAfterLimitAdmissions | src/common/throttle.middleware.ts:35-43 | a request is refused only if its bucket admitted at least limit requests less than one window before |
| Throttle.PruningNeverChangesADecision | src/common/throttle.middleware.ts:63-68 | with a clock that does not go back, cleanups at any moments never change a decision |
| ApiKeyCache.FindActive | src/clients/clients.repository.ts:69-78 | the one active client holding the key, if any |
| ApiKeyCache.FillLasts | src/clients/clients.service.ts:82-92 | a fill answers for its key, and only for it, for 30 seconds; an empty answer empties its place |
| ApiKeyCache.ChangesAreExact | src/clients/clients.repository.ts:94-127 | an update writes what it is given and keeps the rest, a rotation only replaces the key, and only a rotation to a key in use is refused |
| ApiKeyCache.ResolvedClientIsRecent | src/clients/clients.service.ts:77-95 | under any interleaving, other instances included, a resolved client was the repository's own answer less than 30,000 ms plus the duration of the read that fetched it ago |
| ClientsService.Service.CreateClient | src/clients/clients.service.ts:23-36 | inserts an active client, or fails on a taken id or key |
| ClientsService.Service.ChangeClient | src/clients/clients.service.ts:47-76 | updates or rotates, clears the cache, and the replaced or disabled key resolves to nothing |
| ClientsService.Service.ResolveActiveClientByApiKey | src/clients/clients.service.ts:77-95 | answers what the repository would, whatever is cached |
| ClientsService.CacheIsTransparent | src/clients/clients.service.ts:47-95 | with atomic operations a resolve always answers exactly what the repository holds |
| ClientsService.RevokedKeyNeverResolves | src/clients/clients.service.ts:47-76 | once a rotation or disable has returned, the old key resolves to nothing until something restores that very key |
| RevokedKeys.ChangeRunsToItsEnd | src/clients/clients.service.ts:47-76 | a change of an existing client, left alone, rewrites its row, clears the whole cache and ends |
| RevokedKeys.ResolveRunsToItsEnd | src/clients/clients.service.ts:77-95 | a resolve answers from a good entry, and otherwise what the repository holds, cached for 30 seconds |
| RevokedKeys.GoneKeyNeverResolves | src/clients/clients.service.ts:47-95 | under any interleaving, other instances included, a key that is dead, not cached and not about to be restored or cached never resolves again until someone asks for it to be valid |
| RevokedKeys.ClearingRemovesKeyIff | src/clients/clients.service.ts:47-76 | when a rotation or disable returns the key is gone for good exactly when it is dead and no resolve answered earlier, nor a change restoring it, is still under way |
| RevokedKeys.PendingAnswerRevivesKey | src/clients/clients.service.ts:84-90 | conversely a resolve that still holds an earlier answer makes the key resolve again, whatever the repository says |
| ClientsService.InFlightResolveRevivesRotatedKey | src/clients/clients.service.ts:82-90 | a run in which a resolve answered before a rotation makes the old key resolve after it |
| BatchRef.BeforeIffFirstDifference | src/blockchain/blockchain.service.ts:547-549 | the order is prefix first, else by the first differing code unit |
| BatchRef.Sort | src/blockchain/blockchain.service.ts:547-549 | a sorted permutation of the ids |
| BatchRef.SortedIsCanonical | src/blockchain/blockchain.service.ts:547-549 | two sorted lists of the same ids are equal |
| BatchRef.JoinIsInjective | src/blockchain/blockchain.service.ts:547-549 | joining valid ids with the separator loses nothing |
| BatchRef.SameRefIffSameIds | src/blockchain/blockchain.service.ts:542-549 | two batches of valid ids share a reference exactly when they hold the same multiset of ids |
| BatchRef.SeparatorInIdCollides | src/payouts/dto/create-payout.dto.ts:23-23 | ids with the separator could collide, which is what the id pattern rules out |
| BatchRef.SameIdsAreNeverBatchedTwice | src/blockchain/blockchain.service.ts:542-549 | over every run of the vault two batch executions in one token never come from the same ids |

## Left out

- Controllers, guards, DTO decorators, the SDK, the landing page, the checkout script and shell scripts: I/O and UI.
- Amount parsing and formatting, signing, HD derivation and transaction encoding: amounts are atomic integers, derivation is an arbitrary function.
- SHA-256, HMAC and permit signatures: keys appear as their hashes, a permit is authentic or not.
- Chain reorganisations: the log only grows, so the 30-block overlap is modelled but its purpose is not.
- AVAX top-ups, gas, the sweep retry job and the automatic sweep after a confirmation: sweeps may start at any time in the model, which covers the automatic ones.
- Ownership transfer, the zero-owner check of the inherited constructor, pause events, metadata bytes and reentrancy of the contracts; the reentrancy guards are taken at their word.
- The contents of audit records, response formatting, `updated_at` of pay-ins and payouts, and the text of error messages.
- Display amounts, acceptance notes and metadata columns: they are in the whitelist of the ledgers but carry no modelled value.
- ChainScan.MergeTransfers: does not fix the order of the result, because the comparator never returns 0 on equal blocks; every claim is about the set, the sum and the maximum.
- PayoutClaims.Release: runs the release writes one after the other and without faults; the payout machine lets them land in any order and fail.
- PayoutClaims.ClaimLegs: runs the loop without interference; interference is covered by the payout machine.
- WebhookOutbox.Outbox.DispatchDueEvents: runs without database faults or other dispatchers; both are covered by the outbox machine.
- ClientsService.Service.ResolveActiveClientByApiKey: runs as one atomic operation; interleavings are covered by ApiKeyCache.
- The outbox and pay-in machines follow one row at a time, since a delivery, reconcile, acceptance or sweep touches only its own row; the order of rows within one dispatch is not modelled there.
- The client filter of requests on an existing pay-in: the pay-in machine starts after it. For payouts it is modelled.
- Listing and filtering queries, the sweep retry candidates query and the delivery log.
- src/settlements/ and contracts/src/PrivateSettlementRegistry.sol: a two-state record that would only add easy members.
- src/reports/, src/reconciliation/, src/observability/, src/chain-flow/, src/configuration/ and the migration runner: plumbing.
