# Verified model of the migration script, the stateful test machines, signing and the log iterator

This project models, in Dafny, the parts of the repository whose correctness is about whole runs rather than single
calls, and proves what every run keeps.

* **The FLIP migration** (`scripts/snapshot_and_airdrop.py`, `contracts/mocks/MultiSend.sol`). `SnapshotEvents` fetches
  the Transfer log page by page and folds it into holder balances; `SnapshotFile` sorts, writes and re-reads the
  checksummed file; `MigrationSpec`, `MigrationRuns` and `MigrationMachine` model the airdrop as a program that may
  die before any transaction or log line and is started again; `MigrationVerifier` is the separate checking pass;
  `MigrationSafety` and `MigrationProgress` hold the results over every sequence of runs, `MigrationInFlight` and
  `MigrationDoubleTopUp` those about transactions not yet mined when a run dies, `MigrationExample` and
  `MigrationCrowd` concrete migrations, and `MigrationEndToEnd` the whole script from the old chain to the verifier's
  verdict.
* **The reference state machine** (`tests/stateful/*.py`, `tests/utils.py`). `KeyManager`, `VaultSpec`/`VaultMachine`,
  `GatewaySpec`/`GatewayMachine` and `SystemSpec`/`SystemMachine` give each rule as a method on mutable state, proved
  equal to a step function; a revert leaves the state unchanged; time only advances; a deposit address is an
  injective function of Vault, swap ID and asset (CREATE2, EIP-1014). `SystemMachine` builds the machine as the tests
  set it up and runs any sequence of rules on it. `VaultAccounts`, `GatewayAccounts` and `Accounts` state account by
  account what each rule, each upgrade and every run leaves where, `Registers` what every run leaves in keys, flags,
  limits and the clock, and `Safety` what every run keeps, with upgrades of any contract in between. `Batches` holds
  the list helpers.
* **Signing** (`tests/crypto.py`, `tests/consts.py`, `contracts/KeyManager.sol`). `Schnorr` works over any commutative
  group whose generator has the order of secp256k1 (SEC 2 version 2, section 2.4.1); `Signing` has the shared nonce
  counter, the message binding, and at-most-once execution, with hashes taken as injective; `SigningAuthority` says
  whose signatures are accepted.
* **The log iterator** (`StakeHub.go`). `LogIterator` is one event type's `Next` and `Watch` loop under every
  interleaving with the producer and every choice of the `select`.

`Books` (balances and their totals), `Protocol` (addresses, assets, outcomes, timeouts) and `Common` are shared.

## What the proofs show about the code

* An honest migration pays each eligible holder exactly once however often it is interrupted between its transactions
  and log lines, and none of its assertions after the top-up can fail (`MigrationMachine.Migration.RunAirdrop`).
* Interruptions are otherwise invisible: after any runs the chain is where a single run of a computed length would
  have left it, and from the lengths alone it follows whether the migration is finished
  (`MigrationProgress.RunsAreOneRun`, `MigrationProgress.FinishesExactlyWhen`). A run that dies with only the success
  line left costs the next one an approval of nothing.
* That includes interruptions with a transaction sent and not yet mined, as long as it is mined or dropped before the
  next run starts (`MigrationInFlight.SettledRunsAreRuns`). The script does not wait for that: nothing calls
  `waitForLogTXsToComplete` (`scripts/snapshot_and_airdrop.py:651-663`). A batch still in flight when a run starts is
  sent again, and its receivers are paid twice if and only if the later of the two copies is mined while the approval
  left covers it (`MigrationInFlight.BatchInFlight`, `MigrationInFlight.BatchMinedDuringRun`). With four hundred
  holders of 7000 FLIP each it is covered, and two hundred of them get 14000 (`MigrationCrowd.CrowdIsPaidTwice`).
* A top-up in flight when a run starts is sent again too. The later of the two goes through if and only if the
  airdropper's mint is at least two top-ups and what was paid by then (`MigrationDoubleTopUp.SecondTopUp`). If it is
  the run's own, the migration is wedged whether it goes through or not (`MigrationDoubleTopUp.EarlierOneMinedFirst`).
  If it is the earlier one, the gateway has one top-up too many, which the verifier notices
  (`MigrationDoubleTopUp.VerifierSeesSecondTopUp`), and the holders are still paid if and only if the mint covers two
  top-ups and all that is due (`MigrationDoubleTopUp.CanStillPay`, `MigrationDoubleTopUp.RunsAfterSecondTopUp`).
* One interruption wedges it: dying between the gateway's top-up transaction and its log line. The comment at
  `scripts/snapshot_and_airdrop.py:340-342` suggests that a rerun helps when the gateway's balance is no longer the
  minted one; it does not, because every rerun fails the same assertion (`MigrationSafety.StuckExactlyWhen`,
  `MigrationSafety.StuckForever`). This happens if and only if the first run that does anything performs exactly one
  action.
* `verifyAirdrop` accepts a finished migration if and only if the new gateway is not itself an old holder of at
  least 6000 FLIP, and any other chain if and only if all it asserts holds there
  (`MigrationVerifier.Verifier.VerifyAirdrop`, `MigrationVerifier.AcceptanceMeans`). The batch-count check that the
  comment at `scripts/snapshot_and_airdrop.py:548-549` expects could fail cannot, on a finished migration.
* The snapshot fetches exactly the events up to its block if and only if that block is at least one step past the
  deployment; otherwise the first page overshoots (`SnapshotEvents.FetchIsExactAfterOneStep`).
* The snapshot reader rejects a file that lost a holder row but accepts one that was cut short before its checksum
  row (`SnapshotFile.LostHolderIsDetected`, `SnapshotFile.TruncationIsNotDetected`).
* The reader refuses a written snapshot only if the two known contracts were not the largest holders, in that order;
  only equal balances leave it open (`MigrationEndToEnd.LargestAreAccepted`).
* The "NOT ENOUGH TOKENS" branches of the batch rules are unreachable (`VaultMachine.Rules.ApplyBatch`,
  `VaultMachine.Rules.RuleTransferBatch`).
* The emergency timeouts hold per KeyManager only: upgrading the KeyManager sets the time of the last validated
  signature to zero. The governor can act without the timeout having passed since the last accepted signature if and
  only if that signature replaced the KeyManager less than the timeout ago, on a chain older than the timeout
  (`Safety.GovernorReplacesKeyExactlyWhen`, `Safety.GovernorWithdrawsExactlyWhen`). The gateway's withdrawal waits for
  no timeout at all (`Safety.GatewayWithdrawalIsGuarded`).

## Model

| member | source | states |
|---|---|---|
| `SnapshotEvents.FetchEvents` | scripts/snapshot_and_airdrop.py:185-213 | the paging loop terminates for every snapshot block and collects, in order, what its pages hold |
| `SnapshotEvents.PagesTile` | scripts/snapshot_and_airdrop.py:206-213 | pages follow each other without gap or overlap from the first block to the snapshot block; none is empty unless the first overshoots |
| `SnapshotEvents.PagesFetch` | scripts/snapshot_and_airdrop.py:193-213 | together the pages give each event of an ordered chain once, up to the snapshot block or the end of the first page |
| `SnapshotEvents.FetchIsExactAfterOneStep` | scripts/snapshot_and_airdrop.py:187-213 | exactly the events up to the snapshot block are fetched, on every chain, if and only if that block is at least one step past the deployment |
| `SnapshotEvents.ProcessEvent` | scripts/snapshot_and_airdrop.py:219-237 | one turn of the fold, with its missing key and its two assertions |
| `SnapshotEvents.TurnPosts` | scripts/snapshot_and_airdrop.py:219-237 | a turn fails exactly on a transfer its sender cannot cover, and otherwise keeps the positive part of the EIP-20 ledger, self-transfers, mints, burns and zero values included |
| `SnapshotEvents.LedgerIsSound` | scripts/snapshot_and_airdrop.py:217-237 | on a valid log no balance is negative and the balances add up to mints less burns |
| `SnapshotEvents.Fold` | scripts/snapshot_and_airdrop.py:217-257 | the fold succeeds if and only if the log is one a token can emit; then it is the ledger restricted to positive balances and its total is the supply and the sum |
| `SnapshotFile.SortHolders` | scripts/snapshot_and_airdrop.py:239-252 | the two columns list every holder once with its balance, in descending order |
| `SnapshotFile.ListTotal` | scripts/snapshot_and_airdrop.py:251-257 | the column of balances adds up to the holders' total |
| `SnapshotFile.ParseDecimal` | scripts/snapshot_and_airdrop.py:273-282 | numbers written as text read back as themselves |
| `SnapshotFile.ReadSnapshot` | scripts/snapshot_and_airdrop.py:666-707 | the reader with its checksum row checks and its assertions on the two largest holders |
| `SnapshotFile.RoundTrip` | scripts/snapshot_and_airdrop.py:273-282 | what was written reads back as the same holders, balances, order and total if and only if the two largest holders are the expected ones |
| `SnapshotFile.WrittenReads` | scripts/snapshot_and_airdrop.py:666-707 | any written columns read back unchanged up to the two assertions on the largest holders |
| `SnapshotFile.LostHolderIsDetected` | scripts/snapshot_and_airdrop.py:682-687 | losing any one holder row fails the checksum, whatever total it states |
| `SnapshotFile.TruncationIsNotDetected` | scripts/snapshot_and_airdrop.py:676-699 | without a checksum row the reader accepts any holder rows that start with the two expected ones |
| `MigrationSpec.Resume` | scripts/snapshot_and_airdrop.py:402-419 | a run that finds the first k payments on chain computes exactly the other ones as still to send |
| `MigrationSpec.Owes` | scripts/snapshot_and_airdrop.py:411-416 | what is owed are exactly the holders outside the skip list at or above the cutoff, with their snapshot balances |
| `MigrationSpec.OwesOnce` | scripts/snapshot_and_airdrop.py:411-416 | all payments owed to a holder add up to its balance or to nothing |
| `MigrationSpec.PayOutEffect` | contracts/mocks/MultiSend.sol:24-30 | the transfers of a batch go through exactly when the contract holds their sum, and move exactly it |
| `MigrationSpec.MultiSendEffect` | contracts/mocks/MultiSend.sol:17-34 | a batch goes through exactly when it is approved, funded and its total is the sum of its transfers; it pays each receiver and leaves nothing behind |
| `MigrationMachine.Migration.MultiSendToken` | contracts/mocks/MultiSend.sol:17-34 | the contract call, statement by statement, restoring all state on a revert |
| `MigrationMachine.Migration.ReadChain` | scripts/snapshot_and_airdrop.py:608-638 | the events are split into airdrop transfers and mints as the chain of conditions says |
| `MigrationMachine.Migration.SkipList` | scripts/snapshot_and_airdrop.py:322-402 | the skip list is the base list and every receiver already paid |
| `MigrationMachine.Migration.BuildList` | scripts/snapshot_and_airdrop.py:407-420 | the list and total of the transfers to send |
| `MigrationMachine.Migration.AirdropToGateway` | scripts/snapshot_and_airdrop.py:333-393 | the top-up with its assertions and log line, dying before either; the assertion after the transfer cannot fail |
| `MigrationMachine.Migration.SendBatches` | scripts/snapshot_and_airdrop.py:436-456 | the loop over batches of 200 |
| `MigrationMachine.SendingAsPlanned` | scripts/snapshot_and_airdrop.py:436-456 | once everything unpaid is approved no batch reverts, and the loop does what was planned |
| `MigrationMachine.SendingPaysAll` | scripts/snapshot_and_airdrop.py:458-462 | a loop that survives uses up the approval and sends as many batches as the list needs, so the final assertions hold |
| `MigrationMachine.Migration.SendAll` | scripts/snapshot_and_airdrop.py:429-478 | approval, batches, final assertions and success line do what was planned; no assertion fails |
| `MigrationMachine.Migration.RunAirdrop` | scripts/snapshot_and_airdrop.py:299-478 | one run that may die anywhere changes the chain as planned; an assertion fails exactly when the run is blocked at its start |
| `MigrationMachine.AirdropperHasFunds` | scripts/snapshot_and_airdrop.py:422-423 | the balance assertion before the batches cannot fail |
| `MigrationRuns.AirdropperCanPay` | scripts/snapshot_and_airdrop.py:349-369 | conservation and the top-up leave the airdropper what is owed plus the old deployer's and its own old balance |
| `MigrationRuns.TopUpKeeps` | scripts/snapshot_and_airdrop.py:349-386 | the top-up keeps the run invariant |
| `MigrationRuns.SendKeeps` | scripts/snapshot_and_airdrop.py:437-452 | sending the batch that heads the unpaid transfers succeeds, pays exactly it and shrinks the approval by it |
| `MigrationRuns.PlanIsSound` | scripts/snapshot_and_airdrop.py:333-478 | whatever earlier runs did, each planned action is enabled when its turn comes |
| `MigrationRuns.WhenBlocked` | scripts/snapshot_and_airdrop.py:333-369 | a run fails its first assertions if and only if the top-up is not logged and was made already or must not be made |
| `MigrationRuns.RunsKeep` | scripts/snapshot_and_airdrop.py:287-478 | after any runs, each dying anywhere: the payments on chain are a prefix of what is due, every balance is accounted for, approval and stages agree |
| `MigrationSafety.EachHolderIsPaidAtMostOnce` | scripts/snapshot_and_airdrop.py:288-293 | airdrop transfers go to different eligible holders with their balances, and to all of them once finished |
| `MigrationSafety.HoldersGetTheirBalances` | scripts/snapshot_and_airdrop.py:288-293 | each holder has nothing or its snapshot balance at any time, and in the end exactly the eligible ones have it |
| `MigrationSafety.OutsidersGetNothing` | scripts/snapshot_and_airdrop.py:288-293 | nobody else receives anything |
| `MigrationSafety.ApprovalMatchesDebt` | scripts/snapshot_and_airdrop.py:429-434 | the approval is unset with nothing sent or exactly what is still owed; zero once finished |
| `MigrationSafety.GatewayIsToppedUpOnce` | scripts/snapshot_and_airdrop.py:349-386 | at most one top-up, before any holder is paid; then the gateway exceeds the old one by the supply difference |
| `MigrationSafety.BatchCount` | scripts/snapshot_and_airdrop.py:460-462 | the number of batches is the rounded-up quotient |
| `MigrationSafety.LongRunFinishes` | scripts/snapshot_and_airdrop.py:299-478 | a run that is not blocked and lives for the due batches and four more actions finishes the migration |
| `MigrationSafety.StuckExactlyWhen` | scripts/snapshot_and_airdrop.py:340-393 | the migration is blocked if and only if the first run that did anything died right after the top-up |
| `MigrationSafety.StuckForever` | scripts/snapshot_and_airdrop.py:340-346 | a blocked migration stays as it is under all further runs |
| `MigrationProgress.TwoRunsAreOne` | scripts/snapshot_and_airdrop.py:402-478 | once the top-up is logged, a run and its restart get exactly as far as one run, but for the approval of nothing when only the success line was left |
| `MigrationProgress.RunsAreOneRun` | scripts/snapshot_and_airdrop.py:287-293 | after any runs of a migration that may start, the chain equals that after one run whose length is computed from theirs, and it is finished exactly if that is the whole run |
| `MigrationProgress.FinishesExactlyWhen` | scripts/snapshot_and_airdrop.py:299-478 | a migration is finished if and only if it may start and its runs add up to all its actions |
| `MigrationProgress.LongBudgetFinishes` | scripts/snapshot_and_airdrop.py:299-478 | with some run as long as the due batches and four more actions, and no wedge, it is finished, whatever runs before and after |
| `MigrationInFlight.SettledRunsAreRuns` | scripts/snapshot_and_airdrop.py:287-293 | runs that die with a transaction sent are runs of atomic actions, if that transaction is mined or dropped before the next run starts |
| `MigrationInFlight.NextRunSendsItAgain` | scripts/snapshot_and_airdrop.py:402-456 | a run that starts with a transaction in flight sends that transaction first |
| `MigrationDoubleTopUp.SecondTopUp` | scripts/snapshot_and_airdrop.py:371-386 | the later of two top-ups goes through if and only if the airdropper's mint is at least two of them and what was paid by then; the gateway then got two, in two transfers |
| `MigrationDoubleTopUp.EarlierOneMinedFirst` | scripts/snapshot_and_airdrop.py:377-387 | if the transfer in flight is mined before the run's own, that one reverts or the assertion after it fails, and no later run does anything |
| `MigrationDoubleTopUp.LaterOneDoubles` | scripts/snapshot_and_airdrop.py:377-386 | if it is mined last, only the gateway's and the airdropper's balances and one transfer differ |
| `MigrationDoubleTopUp.CanStillPay` | scripts/snapshot_and_airdrop.py:422-423 | after a second top-up the airdropper holds what is still owed if and only if its mint covers two top-ups and all that is due |
| `MigrationDoubleTopUp.RunsAfterSecondTopUp` | scripts/snapshot_and_airdrop.py:299-478 | if it does, all later runs pay what they would have paid without it; if not, each fails the assertion before its batches and changes nothing |
| `MigrationDoubleTopUp.CheckedIsRan` | scripts/snapshot_and_airdrop.py:422-423 | without a second top-up that assertion never stops a run |
| `MigrationDoubleTopUp.VerifierSeesSecondTopUp` | scripts/snapshot_and_airdrop.py:576-580 | the verifier's supply assertion holds after one top-up, and the verifier refuses after two |
| `MigrationInFlight.SecondApproval` | scripts/snapshot_and_airdrop.py:429-434 | an approval in flight that is mined late matches the debt if and only if nothing was paid meanwhile |
| `MigrationInFlight.BatchInFlight` | scripts/snapshot_and_airdrop.py:436-452 | a batch in flight that is mined after the next run goes through if and only if the approval left covers it, and then pays each of its receivers twice |
| `MigrationInFlight.BatchMinedDuringRun` | scripts/snapshot_and_airdrop.py:402-452 | mined after the run read the chain and before the run's own copy, the same holds of the run's copy |
| `MigrationInFlight.EqualPaymentsAreAtRisk` | scripts/snapshot_and_airdrop.py:436-452 | with two full batches of equal payments left, a run of one batch leaves enough approval for the one in flight |
| `MigrationInFlight.EqualDuesArePaidTwice` | scripts/snapshot_and_airdrop.py:429-452 | every migration with two full batches of equal payments reaches that: a first run of three actions sends its first batch, the next run sends it again, and then both are paid |
| `MigrationCrowd.CrowdIsPaidTwice` | scripts/snapshot_and_airdrop.py:436-452 | four hundred holders of 7000 FLIP are such a migration, and two hundred of them are paid twice |
| `MigrationExample.ExampleWedges` | scripts/snapshot_and_airdrop.py:340-393 | a concrete migration is wedged by a first run of one action, for ever, and not by one of two |
| `MigrationExample.ExamplePays` | scripts/snapshot_and_airdrop.py:299-478 | otherwise its one eligible holder gets its balance |
| `MigrationExample.VerifyExample` | scripts/snapshot_and_airdrop.py:487-581 | running this migration and the verifier, the verdict is to accept, and to refuse if that holder is the new gateway |
| `MigrationExample.SecondTopUpReverts` | scripts/snapshot_and_airdrop.py:371-386 | in this migration a second top-up is refused |
| `MigrationExample.SecondTopUpGoesThrough` | scripts/snapshot_and_airdrop.py:371-386 | in another one it goes through and everybody can still be paid |
| `MigrationVerifier.CheckFinds` | scripts/snapshot_and_airdrop.py:556-567 | for a checked holder the verifier finds the right transfer if and only if it is not the new gateway |
| `MigrationVerifier.DueCount` | scripts/snapshot_and_airdrop.py:548-552 | there are never more payments than holders left to check |
| `MigrationVerifier.AirdropperKeeps` | scripts/snapshot_and_airdrop.py:523-537 | the lower bound on the airdropper's balance holds after every finished migration |
| `MigrationVerifier.Verifier.CheckHolder` | scripts/snapshot_and_airdrop.py:560-566 | the inner search accepts exactly if the first transfer to the holder has its balance |
| `MigrationVerifier.Verifier.DropLargest` | scripts/snapshot_and_airdrop.py:514-540 | the two largest holders are removed; the assertions pass exactly if the airdropper kept enough |
| `MigrationVerifier.Verifier.DropAirdropper` | scripts/snapshot_and_airdrop.py:542-546 | the airdropper is removed from both lists |
| `MigrationVerifier.Verifier.CheckHolders` | scripts/snapshot_and_airdrop.py:554-567 | on any list of transfers, the loop passes if and only if the first transfer to each checked holder at or above the cutoff has its balance |
| `MigrationVerifier.Verifier.VerifyAirdrop` | scripts/snapshot_and_airdrop.py:487-581 | on any chain it accepts if and only if all its assertions hold, and a finished migration with that one exception |
| `MigrationVerifier.HonestPasses` | scripts/snapshot_and_airdrop.py:487-581 | a finished migration meets all the assertions if and only if the new gateway is not an old holder at or above the verification cutoff |
| `MigrationVerifier.AcceptanceMeans` | scripts/snapshot_and_airdrop.py:487-581 | on any accepted chain the supplies differ as they should, the airdropper kept its own and the deployer's share, every checked holder was first paid its balance, and no more payments were made than there are other holders |
| `MigrationEndToEnd.SnapshotIsMigratable` | scripts/snapshot_and_airdrop.py:217-282 | a snapshot of a valid log that reads back can be migrated, and its total is the old token's supply |
| `MigrationEndToEnd.MigrationCarriesBalancesOver` | scripts/snapshot_and_airdrop.py:174-478 | for every valid old log and all runs that end finished, each account outside the base skip list holds its old balance if that reaches the cutoff, else nothing |
| `MigrationEndToEnd.TakeSnapshot` | scripts/snapshot_and_airdrop.py:174-284 | from the ordered chain of the old token the snapshot succeeds if and only if its log up to the block is valid, and writes that log's holders |
| `MigrationEndToEnd.LargestAreAccepted` | scripts/snapshot_and_airdrop.py:688-699 | a snapshot is accepted only if nobody held more than the two known contracts, and always if everybody else held less |
| `MigrationEndToEnd.RunScript` | scripts/snapshot_and_airdrop.py:57-169 | the whole script, exactly: no snapshot if and only if the log is invalid, a bad one with the reader's reason if and only if the two largest holders are not the known ones, and otherwise the balances that all the runs leave, finished exactly if their lengths add up, verified except for a new gateway that was a large holder; finished balances are carried over |
| `Batches.GetValidTranIdxs` | tests/utils.py:73-83 | exactly the entries of the asset that fit after the fitting ones before them, in order |
| `Batches.TrimToShortest` | tests/utils.py:65-70 | both lists are cut to the shorter length |
| `VaultSpec.SelectionMatchesSequentialRun` | tests/utils.py:73-83 | the pass for one asset alone selects a transfer exactly when the mixed batch, run in order, can pay it |
| `VaultSpec.FetchedSoFar` | tests/stateful/test_vault.py:180-223 | with distinct swap IDs, the fetches of a batch bring exactly the precomputed total of each asset |
| `VaultSpec.LaterSourcesStay` | tests/stateful/test_vault.py:310-343 | with distinct swap IDs, a fetch neither moves nor empties what a later one will fetch |
| `VaultSpec.StepKeeps` | tests/stateful/test_vault.py:180-880 | every rule conserves each asset including what was sent out, keeps balances nonnegative and deployed deposits free of native |
| `VaultSpec.StepDeploysOnce` | tests/stateful/test_vault.py:310-763 | no rule deploys a swap ID again or moves a deployed deposit |
| `VaultSpec.WithdrawalTakesAll` | tests/stateful/test_all.py:2531-2569 | while the governor holds the withdrawn tokens it has all of both and nothing else moved or was lost; giving them back restores every balance |
| `VaultMachine.Rules.SumFetches` | tests/stateful/test_all.py:329-372 | the fetch totals computed before any balance is touched |
| `VaultMachine.Rules.PaySelected` | tests/stateful/test_all.py:502-520 | paying by precomputed indices ends as paying one by one and skipping what is not covered; who gets what is `VaultAccounts.PaymentsReach` |
| `VaultMachine.Rules.ApplyBatch` | tests/stateful/test_all.py:455-520 | selection before the fetches, then fetches, then payments, ends as the sequential run and leaves every account what its statement says; the branch for missing tokens is dead |
| `VaultMachine.Rules.RuleAllBatch` | tests/stateful/test_all.py:329-520 | refused while suspended, then for a wrong key; otherwise every account holds what it held, deposits named are emptied into the Vault, and each recipient has all its payments that the funds allowed in turn |
| `VaultAccounts.PaymentsReach` | tests/stateful/test_all.py:502-518 | after a batch of payments each account has what it had and exactly the entries that name it and fit |
| `VaultAccounts.FetchesEmpty` | tests/stateful/test_all.py:455-500 | fetches, of repeated or distinct swap IDs, empty exactly the deposits they name of the assets they name, and leave all other accounts alone |
| `VaultAccounts.FetchesCollect` | tests/stateful/test_all.py:455-500 | and bring the Vault what those deposits held |
| `VaultAccounts.BatchBalances` | tests/stateful/test_all.py:329-520 | fetches and payments together, for every account and asset, from the state before the batch |
| `VaultAccounts.StepBalances` | tests/stateful/test_all.py:329-1546 | after each rule of the Vault every account holds exactly what its statement says, and after a refused one what it held |
| `VaultAccounts.SignedCallsNeedTheKey` | tests/stateful/test_all.py:329-520 | a call signed by another key, or on a suspended Vault, is refused and changes nothing; one by the aggregate key is accepted but for empty or uncovered amounts |
| `VaultAccounts.AcceptedExactlyIf` | tests/stateful/test_all.py:687-1380 | which of the calls without a signature the Vault accepts |
| `VaultAccounts.UsersLoseOnlyWhatTheyPay` | tests/stateful/test_all.py:687-1380 | an account loses funds only by paying itself |
| `VaultAccounts.FundsLeaveOnlyByKey` | tests/stateful/test_all.py:329-1546 | the Vault and the deposits lose funds only by a call that the aggregate key signed while the Vault was not suspended |
| `VaultAccounts.SuspendedVaultIsStill` | tests/stateful/test_all.py:2395-2425 | a suspended Vault pays, fetches, sends and takes in nothing; only deposits can still be sent to |
| `VaultAccounts.StepDeploys` | tests/stateful/test_vault.py:310-763 | the deposits deployed after a rule are those before and those it fetched, where it found them |
| `VaultMachine.Rules.RuleTransfer` | tests/stateful/test_all.py:525-573 | a single transfer that moves nothing when the Vault cannot cover it |
| `VaultMachine.Rules.RuleTransferBatch` | tests/stateful/test_all.py:593-684 | a mixed batch ends as paying in order and skipping, with every account holding what its statement says; the branch for missing tokens is dead |
| `VaultMachine.Rules.RuleNativeToDeposit` | tests/stateful/test_all.py:687-712 | native funds reach the deposit address, or the Vault once it is deployed; see `Safety.DeployedDepositsHoldNoNative` |
| `VaultMachine.Rules.RuleTokenToDeposit` | tests/stateful/test_all.py:717-754 | tokens reach the token's deposit address |
| `VaultMachine.Rules.RuleFetchNative` | tests/stateful/test_all.py:757-806 | a first fetch deploys the deposit and empties it into the Vault; see `Safety.SwapIDsAreDeployedOnce` |
| `VaultMachine.Rules.RuleFetchNativeBatch` | tests/stateful/test_all.py:808-870 | each swap ID is deployed and fetched once, however often the batch repeats it |
| `VaultMachine.Rules.RuleFetchToken` | tests/stateful/test_all.py:873-929 | a token fetch from a new or deployed deposit |
| `VaultMachine.Rules.RuleFetchTokenBatch` | tests/stateful/test_all.py:939-1013 | token fetches one after the other |
| `VaultMachine.Rules.RulePayIn` | tests/stateful/test_all.py:1016-1378 | the swap, call and gas top-up rules, with their different ends for empty and uncovered amounts |
| `VaultMachine.Rules.RuleExecuteSwapAndCall` | tests/stateful/test_all.py:1380-1546 | what leaves the Vault is accounted for as sent out; see `Safety.EveryRunLosesOnlyExecutions` |
| `VaultMachine.Rules.RuleExecuteCall` | tests/stateful/test_all.py:1548-1599 | a signed call moves nothing |
| `VaultMachine.Rules.RuleSuspend` | tests/stateful/test_all.py:2395-2412 | a drawn governor suspends only if drawn twice; anyone else is refused, and so is a second suspension |
| `VaultMachine.Rules.RuleResume` | tests/stateful/test_all.py:2415-2427 | a wrong sender is refused, then the governor resumes if suspended |
| `VaultMachine.Rules.RuleEnableCommunityGuard` | tests/stateful/test_all.py:2466-2481 | a wrong sender is refused, then the community key enables a disabled guard |
| `VaultMachine.Rules.RuleDisableCommunityGuard` | tests/stateful/test_all.py:2484-2499 | a wrong sender is refused, then the community key disables an enabled guard |
| `VaultMachine.Rules.RuleGovWithdrawal` | tests/stateful/test_all.py:2531-2569 | a wrong sender is refused; the governor withdraws all of both tokens only while suspended, with the guard disabled and after the emergency timeout, and what everyone holds meanwhile; see `Safety.EmergencyWithdrawalIsGuarded` |
| `VaultMachine.Rules.RunRule` | tests/stateful/test_all.py:329-2569 | every rule does what the step function says and keeps the Vault invariant |
| `GatewaySpec.PaidAtMostRegistered` | tests/stateful/test_stateChainGateway.py:139-289 | no node is ever paid more than was registered for it |
| `GatewaySpec.DrainPays` | tests/stateful/test_all.py:2289-2330 | the redemption that empties an old gateway is accepted and paid in full |
| `GatewaySpec.StepKeeps` | tests/stateful/test_stateChainGateway.py:108-332 | every rule keeps each redemption event justified by the one before it, the gap between gateway FLIP, funding and supply, and increasing block numbers |
| `GatewaySpec.FundingFollowsPayments` | tests/stateful/test_stateChainGateway.py:108-289 | the tracked funding moves only by what is funded and what redemptions pay |
| `GatewaySpec.SuspendedFreezesRedemptions` | tests/stateful/test_stateChainGateway.py:139-289 | a suspended gateway registers, pays, clears and issues nothing |
| `GatewaySpec.NewestIsNewest` | tests/stateful/test_all.py:1990-2065 | the update a delivery settles on is acceptable and the newest that is |
| `GatewaySpec.DeliverySettles` | tests/stateful/test_all.py:1990-2065 | delivering updates in any order ends where its newest acceptable update alone leads |
| `GatewaySpec.DeliveryIsConfluent` | tests/stateful/test_all.py:1990-2065 | two deliveries of the same updates with distinct block numbers, reordered or repeated, end in the same state |
| `GatewayMachine.Rules.RuleFundStateChainAccount` | tests/stateful/test_all.py:1786-1821 | funding with its three reverts; what it adds is counted in `Safety.EveryRunBalancesTheGateway` |
| `GatewayMachine.Rules.RuleRegisterRedemption` | tests/stateful/test_all.py:1824-1914 | registration with its six reverts, in order; see `Safety.RedemptionsAreSafe` |
| `GatewayMachine.Rules.RuleExecuteRedemption` | tests/stateful/test_all.py:1917-1951 | payment inside the window, clearing after it, refusal before it; who gets what is `GatewayAccounts.ExecutionPays` |
| `GatewayAccounts.ExecutionPays` | tests/stateful/test_all.py:1917-1951 | inside its window a redemption pays the registered recipient the registered amount and moves nothing else; after it nothing moves and it is cleared; otherwise nothing happens |
| `GatewayAccounts.RegistrationRecords` | tests/stateful/test_all.py:1824-1915 | a registration makes exactly the redemption asked for pending, if nothing live is |
| `GatewayAccounts.StepBalances` | tests/stateful/test_all.py:1786-2064 | after each rule of the gateway every account holds exactly the FLIP its statement says |
| `GatewayAccounts.UserBalance` | tests/stateful/test_all.py:1786-2064 | an account gains what logged payments name it for and loses what it funds |
| `GatewayAccounts.FlipLeavesOnlyBy` | tests/stateful/test_all.py:1786-2064 | FLIP leaves an account only by its own funding, and the gateway only by a redemption in its window or a signed supply update |
| `GatewayAccounts.WithdrawalTakesAll` | tests/stateful/test_all.py:2502-2528 | meanwhile the governor holds all of the gateway's FLIP and nobody else more or less; giving it back restores every balance |
| `GatewayAccounts.AcceptedExactlyIf` | tests/stateful/test_all.py:1786-2528 | which calls the gateway accepts, and which of them count as signed |
| `GatewayMachine.Rules.RuleUpdateFlipSupply` | tests/stateful/test_all.py:1990-2065 | minting or burning at the gateway to an absolute supply; see `Safety.AcceptedBlocksIncrease` and `GatewaySpec.DeliveryIsConfluent` |
| `GatewayMachine.Rules.RuleSetMinFunding` | tests/stateful/test_all.py:1955-1977 | only the governor sets a nonzero minimum |
| `GatewayMachine.Rules.RuleSuspend` | tests/stateful/test_all.py:2360-2377 | a drawn governor suspends only if drawn twice; anyone else is refused, and so is a second suspension |
| `GatewayMachine.Rules.RuleResume` | tests/stateful/test_all.py:2380-2392 | a wrong sender is refused, then the governor resumes if suspended |
| `GatewayMachine.Rules.RuleEnableCommunityGuard` | tests/stateful/test_all.py:2430-2445 | a wrong sender is refused, then the community key enables a disabled guard |
| `GatewayMachine.Rules.RuleDisableCommunityGuard` | tests/stateful/test_all.py:2448-2463 | a wrong sender is refused, then the community key disables an enabled guard |
| `GatewayMachine.Rules.RuleGovWithdrawal` | tests/stateful/test_all.py:2502-2528 | a wrong sender is refused; while suspended with the guard disabled the governor receives all FLIP and becomes the issuer, and gives both back |
| `GatewayMachine.Rules.RunRule` | tests/stateful/test_all.py:1786-2528 | every rule does what the step function says and keeps the gateway invariant |
| `GatewayMachine.Rules.Drain` | tests/stateful/test_all.py:2289-2330 | registration, refused early execution and payment of the draining redemption |
| `GatewayMachine.Rules.Replace` | tests/stateful/test_all.py:2289-2355 | the new gateway takes over all FLIP and the tracked funding |
| `KeyManager.Machine.Validate` | contracts/KeyManager.sol:54-69 | a valid signature, and nothing else, records the time |
| `KeyManager.Machine.RuleSetAggKeyWithAggKey` | tests/stateful/test_keyManager.py:56-80 | the aggregate key is replaced by its own signature |
| `KeyManager.Machine.RuleSetAggKeyWithGovKey` | tests/stateful/test_all.py:1704-1730 | the governor replaces it only after the timeout; see `Safety.GovernorWaitsForSilence` |
| `KeyManager.Machine.RuleSetGovKeyWithAggKey` | tests/stateful/test_all.py:1733-1748 | the aggregate key names the governor; see `KeyManager.KeysChangeOnlyByAuthority` |
| `KeyManager.Machine.RuleSetGovKeyWithGovKey` | tests/stateful/test_all.py:1682-1694 | the governor names its successor; see `KeyManager.KeysChangeOnlyByAuthority` |
| `KeyManager.Machine.RuleSetCommKeyWithAggKey` | tests/stateful/test_all.py:1751-1766 | the aggregate key names the community key; see `KeyManager.KeysChangeOnlyByAuthority` |
| `KeyManager.Machine.RuleSetCommKeyWithCommKey` | tests/stateful/test_all.py:1769-1781 | the community key names its successor; see `KeyManager.KeysChangeOnlyByAuthority` |
| `KeyManager.Machine.RuleConsumeKeyNonce` | tests/stateful/test_all.py:1612-1637 | a bare signature is accepted from the aggregate key only |
| `KeyManager.Machine.RuleGovAction` | tests/stateful/test_all.py:2589-2599 | a wrong sender is refused, then the governor's action goes through |
| `KeyManager.KeysChangeOnlyByAuthority` | tests/stateful/test_keyManager.py:56-196 | each key changes only on the authority of its holder or of the aggregate key, which itself falls to the governor after the timeout; only validated signatures move the recorded time |
| `KeyManager.AcceptedExactlyIf` | tests/stateful/test_keyManager.py:56-196 | accepted are exactly the calls that the aggregate key signed and those of the holder of the power |
| `KeyManager.OutsidersChangeNothing` | tests/stateful/test_keyManager.py:56-196 | whoever holds none of the three keys changes nothing by any sequence of calls |
| `SystemMachine.StateMachine.UpdateBalancesOnUpgrade` | tests/stateful/test_all.py:2666-2679 | in every book, what the old address held is at the new one, the old one is empty, and no other balance moves |
| `SystemMachine.StateMachine.RuleUpgradeKeyManager` | tests/stateful/test_all.py:2082-2133 | both consumers follow the new KeyManager, whose recorded time starts at zero |
| `SystemMachine.StateMachine.RuleUpgradeVault` | tests/stateful/test_all.py:2136-2247 | one signed batch carries every asset over and moves nothing else; deposits, suspension and guard start afresh |
| `Accounts.KeyManagerUpgradeCarries` | tests/stateful/test_all.py:2082-2133 | the whole state after an upgrade of the KeyManager, accepted or refused |
| `Accounts.VaultUpgradeCarries` | tests/stateful/test_all.py:2136-2247 | the whole state after an upgrade of the Vault: each asset of the old one is at the new one |
| `Accounts.GatewayUpgradeCarries` | tests/stateful/test_all.py:2250-2355 | the whole state after an upgrade of the gateway: all FLIP, supply and tracked funding carried over, all else afresh |
| `SystemMachine.StateMachine.RuleUpgradeStateChainGateway` | tests/stateful/test_all.py:2250-2355 | the draining redemption and the hand-over of the issuer |
| `SystemMachine.StateMachine.RunRule` | tests/stateful/test_all.py:329-2599 | any rule of the full machine does what the step function says and keeps the invariant |
| `SystemMachine.StateMachine.RunRules` | tests/stateful/test_all.py:329-2599 | a test run of any rules goes through the states that the run properties speak about |
| `SystemMachine.SetUp` | tests/stateful/test_all.py:196-276 | the machine as the tests set it up satisfies the invariant |
| `SystemSpec.SetupHolds` | tests/stateful/test_all.py:196-276 | every initial state satisfies the invariant: three fresh contracts, no validated signature, nothing deployed or pending |
| `SystemSpec.StepKeeps` | tests/stateful/test_all.py:2082-2355 | every rule of the full machine, upgrades included, keeps the invariant and the conserved quantities |
| `SystemSpec.RunKeeps` | tests/stateful/test_all.py:2607-2660 | so does every run |
| `Safety.EveryRunConservesVaultAssets` | tests/stateful/test_all.py:2607-2617 | for native and both tokens, tracked balances plus what was sent out are constant over every run |
| `Safety.EveryRunAccountsForFlip` | tests/stateful/test_all.py:1819-2064 | FLIP balances move only with the supply, and the gateway holds its start plus funding plus supply change |
| `Safety.EveryRunBalancesTheGateway` | tests/stateful/test_all.py:1786-2064 | through any upgrades the gateway's FLIP is its start, plus every accepted funding, less every redemption paid, plus the net supply change |
| `Safety.EveryRunLosesOnlyExecutions` | tests/stateful/test_all.py:1380-1546 | the Vault assets that tracked addresses lose over a run are exactly the accepted executions |
| `Safety.NoRunOverdraws` | tests/stateful/test_all.py:2607-2617 | no balance is ever negative |
| `Accounts.EveryRunStatesAccounts` | tests/stateful/test_all.py:2607-2617 | over every run an account or deposit holds of each Vault asset what it started with and what accepted rules booked on it |
| `Accounts.EveryRunStatesTheVault` | tests/stateful/test_all.py:2607-2617 | so does the Vault in use, through every upgrade |
| `Accounts.EveryRunStatesFlip` | tests/stateful/test_all.py:1786-1951 | over every run an account's FLIP is what it started with, less what it funded, plus the logged payments that name it |
| `Accounts.SuspendedVaultKeepsFunds` | tests/stateful/test_all.py:2395-2425 | as long as it stays suspended a Vault is not replaced and loses nothing |
| `Registers.EveryRunSetsKeys` | tests/stateful/test_all.py:2623-2640 | after every run each of the three keys is the one that the last accepted rule to name it named |
| `Registers.EveryRunSetsVaultFlags` | tests/stateful/test_all.py:2643-2652 | suspension and guard of the Vault are what their last accepted rule or the last upgrade made them |
| `Registers.EveryRunSetsGatewayFlags` | tests/stateful/test_all.py:2643-2652 | so are those of the gateway |
| `Registers.EveryRunSetsGatewayNumbers` | tests/stateful/test_all.py:2642-2660 | minimum funding, supply and block number are those of the last accepted rule that set them |
| `Registers.EveryRunTakesItsSleeps` | tests/stateful/test_all.py:1699-1701 | the clock is at its start plus every sleep, those within accepted upgrades included |
| `Safety.DeployedDepositsHoldNoNative` | tests/stateful/test_vault.py:310-343 | a deployed deposit holds no native funds, for whichever asset it was deployed, and fetching native from it changes no balance |
| `Safety.SwapIDsAreDeployedOnce` | tests/stateful/test_vault.py:310-763 | while a Vault is not replaced, a deployed swap ID keeps its deposit address over every run |
| `Safety.NewVaultDepositsAreEmpty` | tests/stateful/test_all.py:2682-2690 | a new Vault's deposit addresses hold nothing when they are first tracked |
| `Safety.AcceptedBlocksIncrease` | tests/stateful/test_all.py:1990-2065 | on one gateway the block numbers of accepted supply updates strictly increase over every run |
| `Safety.RedemptionsAreSafe` | tests/stateful/test_stateChainGateway.py:139-289 | on every gateway ever used, each payment consumes one registration of its amount and recipient inside its window, a live one is never replaced, and payments never exceed registrations |
| `Safety.SuspendedGatewayFreezesRedemptions` | tests/stateful/test_all.py:1824-1951 | no rule registers, pays or clears a redemption of a suspended gateway |
| `Safety.AggKeyChangesOnlyByKeyOrTimeout` | tests/stateful/test_all.py:1666-1730 | the aggregate key changes only by its own signature or by the current governor after the timeout |
| `Safety.LastValidateTimeIsRecent` | tests/stateful/test_keyManager.py:56-196 | within one KeyManager the recorded time is never older than an accepted signature |
| `Safety.GovernorWaitsForSilence` | tests/stateful/test_all.py:1704-1730 | when the governor can replace the key, this KeyManager accepted no signature for the timeout |
| `Safety.GuardWasDisabled` | tests/stateful/test_all.py:2205-2499 | a disabled guard was disabled by the community key of that time, on the Vault still in use, and neither its rule nor an upgrade has enabled it since |
| `Safety.EmergencyWithdrawalIsGuarded` | tests/stateful/test_all.py:2531-2569 | a Vault withdrawal is the governor's and needs suspension, a guard that the community key disabled on this very Vault and nothing enabled since, and no accepted signature for the longer timeout; the governor could then replace the key too |
| `Safety.RecordedTimeIsOfTheLastSignature` | tests/stateful/test_all.py:2082-2133 | the recorded time is that of the last signature any KeyManager accepted, or zero if that one replaced the KeyManager |
| `Safety.GovernorReplacesKeyExactlyWhen` | tests/stateful/test_all.py:1704-1730 | over every run the governor can replace the key if and only if the timeout has passed since the recorded time; without silence since the last accepted signature if and only if that one was a KeyManager upgrade younger than the timeout |
| `Safety.GovernorWithdrawsExactlyWhen` | tests/stateful/test_all.py:2531-2569 | the same for the Vault withdrawal, which also needs suspension and a disabled guard, with the longer timeout |
| `Safety.GovernorPowersWithoutSignatures` | tests/stateful/test_all.py:1704-1730 | before any signature both timeouts count from the time recorded at the start |
| `Safety.KeyManagerUpgradeOpensEmergencyPowers` | tests/stateful/test_all.py:2082-2133 | on a chain older than the longer timeout both powers open right after a KeyManager upgrade |
| `Safety.GatewayWithdrawalIsGuarded` | tests/stateful/test_all.py:2502-2528 | a gateway withdrawal goes through if and only if it is the governor's, the gateway is suspended, and the community key disabled the guard of this very gateway with nothing enabling it since |
| `Schnorr.OnlySignVerifies` | tests/crypto.py:157-188 | among reduced values, the one that `sign` returns and no other satisfies the verification equation, for every key, challenge and unreduced nonce |
| `Schnorr.TimesInjective` | tests/crypto.py:157-188 | below the group order, multiples of the generator are distinct |
| `Signing.Nonces.SyncNonce` | tests/consts.py:76-81 | the loop ends at the least unused nonce not below its start |
| `Signing.Signer.GetSigData` | tests/crypto.py:65-91 | a signature binds call, nonce, consumer, chain and KeyManager, and uses up one nonce |
| `Signing.SignAll` | tests/crypto.py:80-91 | nonces drawn from the shared counter by any signers are pairwise distinct |
| `Signing.RunKeeps` | contracts/KeyManager.sol:54-85 | every accepted call was bound by its signature, and a KeyManager accepts a nonce once |
| `Signing.EachSignatureExecutesAtMostOnce` | tests/unit/keyManager/test_consumeKeyNonce.py:110-125 | under duplication, reordering, rotation, new KeyManagers and consumers, a signature is accepted at most once and only for what it binds |
| `Signing.NothingExecutesTwiceFromAFreshChain` | tests/unit/keyManager/test_consumeKeyNonce.py:110-125 | from any chain with nothing accepted, no two acceptances carry the same signature |
| `SigningAuthority.AcceptedExactlyIfAuthorised` | contracts/KeyManager.sol:54-85 | after any events a call is accepted if and only if the key installed last at the KeyManager it goes to signed exactly it, with a nonce not used there |
| `SigningAuthority.SignedByTheInstalledKey` | contracts/KeyManager.sol:54-60 | every acceptance was made at an event before which its signature's key was the installed one, by the last deployment or rotation |
| `SigningAuthority.OldKeyIsRefused` | contracts/KeyManager.sol:54-60 | once another key is installed, signatures of the old one are refused until it is installed again |
| `SigningAuthority.NonceIsUsedExactlyIf` | contracts/KeyManager.sol:62-69 | a nonce counts as used exactly if it was at the start or in a call accepted since |
| `Signing.FirstDeliveryIsAccepted` | tests/integration/keyManager/test_sig_verif.py:303-335 | a properly signed call is accepted the first time it is delivered, in whatever order |
| `Signing.EachRequestExecutesOnce` | tests/integration/keyManager/test_sig_verif.py:303-335 | under every schedule of one set of signed requests the chain accepts each delivered request at its first delivery and nothing else |
| `Signing.AcceptedIfDelivered` | tests/integration/keyManager/test_sig_verif.py:303-335 | a request is among the acceptances if and only if the schedule delivers it |
| `Signing.AcceptancesDiffer` | tests/unit/keyManager/test_consumeKeyNonce.py:110-125 | no two acceptances are of the same request |
| `LogIterator.Iterator.Deliver` | ci/docker/bsc/create-validator/abi/StakeHub.go:1664-1671 | the next log is unpacked into the event, or the iterator fails |
| `LogIterator.Iterator.Next` | ci/docker/bsc/create-validator/abi/StakeHub.go:1656-1693 | one call, which calls itself at most once; true means the event shown is the next one |
| `LogIterator.FalseWithoutErrorMeansComplete` | ci/docker/bsc/create-validator/abi/StakeHub.go:1653-1693 | under every interleaving and select, false without an error means exactly all logs were exposed in order; with an error, a prefix |
| `LogIterator.OverIsFinal` | ci/docker/bsc/create-validator/abi/StakeHub.go:1657-1677 | failure and completion are absorbing |
| `LogIterator.FalseMeansOver` | ci/docker/bsc/create-validator/abi/StakeHub.go:1656-1693 | a call returns false exactly when no later call can return true |
| `LogIterator.ErrorIsTheCause` | ci/docker/bsc/create-validator/abi/StakeHub.go:1656-1693 | the error shown is the unpacking one if a log that does not unpack was received, else the one that ended the subscription once that was taken, else none |
| `LogIterator.Watch` | ci/docker/bsc/create-validator/abi/StakeHub.go:1752-1777 | the loop ends as its turns say; whatever the schedule, a prefix is forwarded in order with at most one log taken and not forwarded |
| `LogIterator.WatchForwards` | ci/docker/bsc/create-validator/abi/StakeHub.go:1752-1777 | while the subscription lasts, at least n logs are forwarded if and only if the first n unpack and the schedule has n turns of the log channel, each followed by one of the sink |
| `LogIterator.WatchStops` | ci/docker/bsc/create-validator/abi/StakeHub.go:1752-1777 | the loop ends with the reason of the first turn that ends it, unless it received a log that does not unpack before |

## Left out

- MigrationMachine.Migration.RunAirdrop: prompts are always confirmed; transaction hash log lines, which no run reads back to decide anything, are not actions of their own; and a transaction is mined before the next action, `MigrationInFlight` treating the ones that are not.
- MigrationInFlight.BatchInFlight: whether a repeated transaction, a top-up included, reuses the account nonce of the one in flight, so that only one of them can be mined, is up to the wallet library and not modelled.
- MigrationSpec.MultiSendEffect: an approval of the largest 256-bit number, which OpenZeppelin never decreases, does not occur, and the owner check is left out because only the airdropper calls.
- MigrationRuns.RunsKeep: no account outside the script moves the new token during the migration, and the log file is not lost between runs.
- SnapshotEvents.FetchEvents: a node returns nothing for a range whose first block is after its last; a provider that refuses such a range would stop the script instead. The deployment block is a parameter.
- SnapshotFile.ReadSnapshot: cells are the digits that the writer produces; other spellings that Python's `int` accepts, CSV quoting and file access are not modelled, and balances are read as numbers at once. The two known holders are parameters.
- SnapshotFile.SortHolders: holders of equal balance may come in any order; the order in which Python's dictionary and stable sort leave them is not fixed.
- The comparison of the largest snapshot balances with the old token contract (scripts/snapshot_and_airdrop.py:241-249), deployment of MultiSend, and main's choice of what to skip, beyond skipping a finished airdrop.
- GatewaySpec.Verdict: the executor of a redemption is not modelled, nor the check of who executes it.
- GatewaySpec.WellFormed: redeem addresses are accounts, as the test strategies choose them; only an upgrade's redemption goes to a contract.
- KeyManager.Machine.RuleSetAggKeyWithGovKey: a transaction is mined at the machine's current time; the one second by which the test helper runs ahead of the chain is not modelled.
- VaultMachine.Rules.RulePayIn: cross-chain payloads, destination checks and emitted events are not modelled.
- VaultMachine.Rules.RuleExecuteSwapAndCall: the receiving contract is only the amount that leaves the Vault; which of the receivers got it is not tracked.
- Signing.EachSignatureExecutesAtMostOnce: hashing is injective and a signature verifies for its own key and message only; nothing is said about the cost of forging one.
- Schnorr.OnlySignVerifies: the contract's verifier, which recovers an address instead of comparing points, is not part of this model; neither is key generation.
- LogIterator.FalseWithoutErrorMeansComplete: the other event types of StakeHub.go have the same code; the generated call, transact and session wrappers only forward.
- Random sampling and the probabilities of the test strategies: every input they can choose is covered instead.
- `allBatchV2`, `transferFallback`, the list of executed actions, the FLIP setter rule, and the reverting issuer rule: they change no tracked state.
- The supply rule of tests/stateful/test_stateChainGateway.py:291-332 as a rule of its own: it is two supply updates of this machine in a row.
- VaultMachine.Rules.RuleGovWithdrawal: the withdrawal and the transfers back are one step of a run, since no other rule can come between them; a withdrawal whose funds are kept is not a step.
- Gas, events, the token vesting contracts, and the scripts that deploy or plainly loop over transfers.
