# Custodial payment pipeline: a verified model

A Dafny model of a service that holds blockchain wallets on behalf of merchants. Users pay into wallets that the
service makes for them; the service notices the balances, moves the funds through a processing wallet to the merchant,
and takes a commission. Merchants ask for withdrawals, which are collected from the merchant's sending wallet and paid
out. Wallets may need several signatures, some of which a merchant's own signing service provides.

The state of the model is a table of transactions (a class whose methods are the UPDATE and SELECT statements), the
balances on one blockchain, the table of wallets with the cursor of the deposit stream, the merchants' records and the
keys of the signing service. Methods with loops follow the original's loops, branch by branch and early return by early
return; each is proved equal to a function of the old state, and the theorems are about those functions and about runs
of them. The settlement theorems hold for every commission rule; the service's own is `Scheduler.Commission.Charge`.
Everything outside (broadcasts, status queries, failing row writes, callback look-ups, the chain's balances) is an
input, given per transaction or per position, so that every theorem holds for all of its outcomes.

| file | content |
|---|---|
| `Transactions.dfy` | the transaction table; a loop of writes over a fetched batch is one walk over the table |
| `Ledger.dfy`, `Sums.dfy`, `Strings.dfy`, `Denoms.dfy` | balances, sums over the table, string functions, denoms |
| `Settlement.dfy`, `SettlementTheorems.dfy` | the nested settlement loop and its exact result |
| `Deposits.dfy`, `Withdrawals.dfy`, `Scheduler.dfy` | the other phases, and the tick over all merchants |
| `Passes.dfy`, `Lifecycle.dfy`, `Isolation.dfy`, `TickTheorems.dfy` | what phases, passes and ticks keep |
| `TickAccounts.dfy`, `TickSafety.dfy`, `TickOrder.dfy` | whole ticks: accounts, safety, and the order of the merchants |
| `Effects.dfy`, `PayoutLedger.dfy` | what a tick does to single rows and accounts, in the table's columns; what payouts bring to their addressees |
| `Runs.dfy`, `Drain.dfy`, `TickRuns.dfy` | runs of ticks, new rows and API calls, and when everything gets done |
| `Stall.dfy`, `StallConditions.dfy` | when nothing is ever settled again |
| `Callbacks.dfy`, `CallbackTheorems.dfy`, `Crediting.dfy` | how balances become deposits, and that none is credited twice |
| `ReceivingLedger.dfy` | the account of the processing receiving wallet and of what is settled to merchants |
| `WithdrawApi.dfy`, `WithdrawLedger.dfy`, `Commissions.dfy` | withdrawals: every transfer accounted for |
| `KeyStore.dfy`, `DepositStream.dfy`, `Merchants.dfy`, `InternalWallets.dfy` | wallets, the cursor, and who owns what |
| `MultiSign.dfy`, `MultiSigWallets.dfy`, `MultiSigTheorems.dfy` | the multi-signature protocol, end to end |

## Findings

Places where the code does something other than its comments or a first reading suggest. Each is a theorem here.

- A settlement pass sends the sum of all positive prefix sums of the net amounts, not the net total: with several
  deposits in a batch it pays early ones again (`SentIsPositivePrefixes`, `GroupedSettlementIff`, `TwoTensSendThirty`).
- Deposits visited after the last transfer of a settlement loop end as `processed`, but keep the hash of that transfer
  (`ExactFinalState`).
- If its oldest `processed` deposit nets more than nothing and less than the minimum, and every older `init` deposit in
  reach does, too, a merchant's settlement on that blockchain is blocked for good: no newer deposit, however large, helps
  (`SmallHeadsStall`, `BlockedIsStalled`). What helps is an older deposit that reaches the minimum
  (`OlderDepositFreesTheQueue`), or older deposits below their commission, if together they outweigh the blocking one
  (`AnOlderLossFrees`, `StalledForeverIff`).
- `UpdateWithdraw` and `DeleteWithdraw` check neither status nor action. They keep the counts of the withdrawals exactly
  for rows that are not collected withdrawals; a `done` withdrawal that is updated is collected and paid again
  (`ApiCallKeepsCountsIff`, `UpdatedAgainIsPaidAgain`). They keep the invariant by which no deposit is credited twice
  exactly if they update no deposit whose funds have not landed yet; one that they do update is credited again by the
  next callback (`ApiCallIsSafeIff`, `UpdatedDepositIsCreditedTwice`, `TenIsCreditedTwice`).
- A settlement goes to the wallet address inside the merchant's stored wallet; all other token transfers of the service
  use the address that a wallet is stored under. The two are the same exactly for wallets without external signers
  (`AddressIsKeyIff`). What is settled to a merchant with a multi-signature receiving wallet does not reach that wallet,
  and no transfer of the service takes it from where it went (`SettlementReachesTheWalletIff`, `SettledToOwnKeyStays`).
- A wallet that holds a foreign denom without a '-' makes the tick of the deposit stream that visits it panic, and with
  it the service; no wallet with a later id is visited before (`Stream.Tick`, `NobodyPastAStop`).
- The test that should exempt a merchant's own wallets from the sending commission exempts nobody
  (`StoredExceedsChecked`), and for an asset of the native denom's name with an issuer the balance of another coin is
  checked than the one paid (`CheckedCoinIff`, `UncheckedCoinCanBeMissing`).
- If the signing service also holds the processing key, the assembled signature is one short (`BroadcastCarriesThreshold`).
- A fresh address that is already in the wallet table replaces the stored wallet of its owner and leaves the new user
  unbound (`FirstDepositBindsIff`).

## Model

| member | source | states |
|---|---|---|
| `Transactions.TransactionTable.CreateTransaction` | modules/storage/transactions.go:183-198 | inserts one `init` row at the end, unless the write fails or the guid is taken; unique guids are kept |
| `Transactions.TransactionTable.RejectTransaction` | modules/storage/transactions.go:201-211 | only the addressed row becomes `rejected`; nothing else changes |
| `Transactions.TransactionTable.PutInitiatedPendingTransaction` | modules/storage/transactions.go:215-224 | only the addressed row gets the transfer hash and status `init` |
| `Transactions.TransactionTable.PutProcessedTransaction` | modules/storage/transactions.go:226-235 | only the addressed row gets the hash, the commission and status `processed` |
| `Transactions.TransactionTable.PutSettledTransaction` | modules/storage/transactions.go:237-246 | only the addressed row gets the settlement hash and status `settle` |
| `Transactions.TransactionTable.PutDoneTransaction` | modules/storage/transactions.go:248-257 | only the addressed row gets the last hash and status `done` |
| `Transactions.TransactionTable.GetMerchantTrxForProcessingInBlockChain` | modules/storage/transactions.go:132-152 | the oldest `limit` matching rows in order; not found exactly when there is none |
| `Transactions.TransactionTable.GetInitTransactions` | modules/storage/transactions.go:156-179 | all `init` rows of one user, in order, without a limit |
| `Transactions.TransactionTable.GetTransactionByGuid` | modules/storage/transactions.go:56-73 | the merchant's transaction with a guid, if it is the only one |
| `Transactions.FoundByGuid` | modules/storage/transactions.go:56-73 | every transaction is found by its guid under its own merchant, and under no other |
| `Transactions.UpdatesWriteColumns` | modules/storage/transactions.go:200-257 | the columns that each of the five UPDATEs writes, on exactly the rows with the addressed guid, merchant and external id |
| `Transactions.FetchedInOrder` | modules/storage/transactions.go:132-152 | a matching row with fewer than `limit` older ones is in the batch, at the position that their number gives |
| `Transactions.FetchedIsAll` | modules/storage/transactions.go:132-152 | and the batch holds nothing else |
| `Transactions.PutsOfFetchIsWalk` | modules/service/processing-deposit.go:31-80 | fetching a batch and writing its rows one after the other equals one walk over the table that edits the first `limit` matching rows in place |
| `Settlement.SettlementService.TransferFromReceiving` | modules/service/processor-coreum/processor.go:150-201 | refuses amounts below the minimum; otherwise moves exactly the truncated amount, and nothing when the broadcast fails |
| `Settlement.SettlementService.ProcessDepositProcessed` | modules/service/processing-deposit.go:83-138 | the nested loop with its two early returns leaves exactly the table and the balances of the loop-free definition; a row that becomes settled carries the hash of a transfer that was executed in this pass |
| `Settlement.Settlement.InnerLoop` | modules/service/processing-deposit.go:128-134 | after the inner loop of a transfer the whole batch is `settle` with the hash that its broadcast returned, whatever the rows were before |
| `SettlementTheorems.ExactFinalState` | modules/service/processing-deposit.go:99-136 | with `m` the last index whose inner loop ran and `k` the last visited, exactly the deposits in (m, k] end as `processed` and all others as `settle`; all carry the hash that the broadcast of transfer m returned; the whole final row is given; rows outside the batch are untouched |
| `SettlementTheorems.WhereItStops` | modules/service/processing-deposit.go:102-127 | which `m` and `k` these are: the loop goes on past a deposit whose running total is not positive, or reaches the minimum and has its transfer executed and its callback found, and stops after any other |
| `SettlementTheorems.SettlesSomethingIff` | modules/service/processing-deposit.go:109-127 | a pass settles something if and only if its first attempted transfer reaches the minimum, is executed and finds its callback |
| `SettlementTheorems.SentIsPositivePrefixes` | modules/service/processing-deposit.go:99-116 | if all attempted transfers succeed, the pass visits everything and sends the sum of the positive prefix sums of amount less commission |
| `SettlementTheorems.GroupedSettlementIff` | modules/service/processing-deposit.go:99-116 | that equals a single grouped settlement of the net total if and only if no earlier prefix sum is positive |
| `SettlementTheorems.TwoDepositsOverpay` | modules/service/processing-deposit.go:102-116 | two deposits with positive net amounts in one batch pay the first one twice |
| `SettlementTheorems.TwoTensSendThirty` | modules/service/processing-deposit.go:102-116 | two deposits of 10 without commission: 20 are due, 30 are sent |
| `SettlementTheorems.DisburseMovesSentUnits` | modules/service/processor-coreum/processor.go:181-186 | the processing receiving wallet loses and the account at the merchant's wallet address gains the same units, the sum of the truncated transfers; no other account changes |
| `SettlementTheorems.OneDepositSplit` | modules/service/processing-deposit.go:103-116 | a one-deposit settlement splits the amount into units sent, commission and a rest in [0, 1) |
| `Deposits.DepositService.ProcessDepositInitiated` | modules/service/processing-deposit.go:29-81 | table and balances after the transfers to the receiving wallet and their confirmations, for all broadcast, status and write outcomes |
| `Deposits.DepositService.ProcessDepositSettled` | modules/service/processing-deposit.go:140-184 | the table after the confirmation of settlements: done, reset, or left alone |
| `Deposits.DepositService.ProcessDeposit` | modules/service/processing-deposit.go:15-27 | the three phases in their order |
| `Effects.InitiatedRow` | modules/service/processing-deposit.go:29-81 | each row after the first phase: one of the thousand oldest `init` deposits gets its transfer's hash, is processed, or loses the hash; no other row changes |
| `Effects.GatheringMoves` | modules/service/processor-coreum/processor.go:117-147 | which transfers to the receiving wallet are made, between which accounts, and of how much |
| `Effects.ConfirmedRow` | modules/service/processing-deposit.go:140-184 | each row after the confirmation phase: done after a success, without hash but still `settle` after a failure |
| `Effects.SettledRow` | modules/service/processing-deposit.go:83-138 | each row of the table after the settlement phase, by its number among the thousand oldest `processed` deposits |
| `Effects.TransferAt` | modules/service/processing-deposit.go:102-116 | the settlement transfer at one deposit: when it is made, of how many units of which coin, and that no account but the two changes |
| `Effects.JobSettles` | modules/service/processor-coreum/processor.go:150-201 | a tick settles a wallet under the merchant's receiving commission and the processor's minimum, to the wallet address of its receiving wallet |
| `Withdrawals.WithdrawService.Collect` | modules/service/processor-coreum/withdraw.go:12-65 | collects exactly when the checked balance covers amount and commission and the broadcast succeeds; then moves the truncated amount to the processing sending wallet |
| `Withdrawals.WithdrawService.ProcessWithdrawProcessed` | modules/service/processing-withdraw.go:26-70 | rows, balances and transfer counts after collecting a batch |
| `Withdrawals.WithdrawService.ProcessWithdrawSettled` | modules/service/processing-withdraw.go:71-113 | rows, balances and transfer counts after paying a batch up to the first failed row write |
| `Effects.CollectionMoves` | modules/service/processor-coreum/withdraw.go:12-65 | a withdrawal is collected exactly when the merchant's sending wallet holds amount + Fix + Percent / 100 * (amount - Fix) of the checked coin, by the sending commission, and the chain executes the transfer; then exactly the truncated amount moves from there to the processing sending wallet |
| `Effects.CollectionWrites` | modules/service/processing-withdraw.go:34-53 | its row then has the commission Fix + Percent * amount / 100 of the sending rule, and is `settle` with the transfer's hash if it was collected |
| `Effects.JobCollects` | modules/service/processing-withdraw.go:26-53 | in a tick each of the thousand oldest `processed` withdrawals ends so, checked against the balances that deposits and earlier collections leave |
| `Effects.PayoutMoves` | modules/service/processor-coreum/processor.go:247-286 | an executed payout brings exactly the truncated amount from the processing sending wallet to the address that the withdrawal names, and changes no other account |
| `Effects.PaidRow` | modules/service/processing-withdraw.go:71-113 | each row after the payouts: `done` with the payout's hash exactly if it is among the thousand oldest, no older one stopped the loop, and the payout is executed and written |
| `Effects.JobPays` | modules/service/processing.go:95-99 | so in a tick, on what its deposit phases and collections leave |
| `PayoutLedger.EveryPayoutArrives` | modules/service/processing-withdraw.go:79-95 | in every run each outside address holds, of every coin, its start plus the units of all executed payouts addressed to it |
| `PayoutLedger.DoneWithdrawalsArrive` | modules/service/processing-withdraw.go:79-95 | without failed row writes of payouts that is its start plus the truncated amounts of the `done` withdrawals that name it |
| `PayoutLedger.TickKeepsPaid` | modules/service/processing.go:70-102 | a whole tick over all wallets, for all outcomes, keeps that account |
| `Scheduler.ProcessingService.ProcessTransaction` | modules/service/processing.go:70-102 | a tick is the fold of deposit and withdraw processing over all wallets with a processor, skipping unreadable records |
| `Scheduler.OwnNameHasJob` | modules/service/processing.go:85-90 | a merchant with a wallet under the processor's own name, in small letters, is served for it |
| `TickTheorems.JobIsPass` | modules/service/processing.go:95-99 | what a tick does to the table for one wallet, balance checks included, is one pass of the five phases with that wallet's commission and minimum |
| `TickTheorems.TickIsPasses` | modules/service/processing.go:77-101 | a whole tick leaves the table that its passes leave, one per wallet in order |
| `Lifecycle.EveryPhaseAdvances` | modules/storage/transactions.go:200-257 | across each of the five phases every row keeps its rank or rises by one, `done` and `rejected` rows do not change, and none becomes rejected |
| `Lifecycle.SchedulerNeverGoesBack` | modules/service/processing.go:70-102 | no sequence of passes lowers a row's rank, touches a final row or changes what identifies a row |
| `Lifecycle.SettledRowDropsInsideTheLoop` | modules/service/processing-deposit.go:102-134 | inside the settlement loop a row does drop from `settle` to `processed` |
| `Isolation.PassIsLocal` | modules/service/processing.go:84-100 | a pass changes only rows of its own merchant and blockchain, and what it does to them depends on those rows alone |
| `Isolation.TickIsPairwise` | modules/service/processing.go:77-101 | after a tick of distinct pairs each row is what the one pass of its own pair alone makes of it |
| `TickOrder.TickOrderIsIrrelevant` | modules/service/processing.go:77-101 | two orders of the same wallets leave the same table after a tick, balance checks of the withdrawals included, so map iteration order does not matter |
| `Drain.StageSumDrops` | modules/service/processing-deposit.go:15-27 | when nothing fails and every deposit of the pair that is not final nets something positive and at least the minimum, each pass, withdrawals included, strictly lowers the stage sum of any n oldest rows until all of the pair's deposits among them are final |
| `Drain.DrainBound` | modules/service/processing-deposit.go:11-27 | under the same conditions n fresh deposits, next to any final ones, are all `done` after 2 * ceil(n / 1000) of the pair's passes in any run, whatever other pairs, withdrawals, new rows and API calls come in between; final ones stay as they were |
| `TickRuns.TickIsRun` | modules/service/processing.go:70-102 | a tick as the code runs it is such a run with a pass for every wallet it serves, in which nothing fails that does not fail in the chain's answers |
| `TickRuns.TicksDrain` | modules/service/processing.go:70-102 | so n fresh deposits are all `done` after 2 * ceil(n / 1000) ticks of `ProcessTransaction` over any merchants, with new rows and API calls between them and balances changing freely |
| `Stall.StalledIffNeverRipe` | modules/service/processing-deposit.go:83-138 | no run of ticks, new rows and API calls ever settles a deposit of the pair, if and only if no table that confirmations and newcomers of positive whole amounts can make of the present one would settle something at once; for all tables, commissions and minimums |
| `StallConditions.BlockedIsStalled` | modules/service/processing-deposit.go:102-119 | that is so if the running total cannot be kept down past some deposit, and no waiting deposit up to there reaches the minimum by itself |
| `StallConditions.SmallHeadsStall` | modules/service/processing-deposit.go:102-119 | in particular if the oldest `processed` deposit and every older `init` deposit in reach of the next batch net more than zero and less than the minimum |
| `StallConditions.PositiveStallIff` | modules/service/processing-deposit.go:102-119 | with the oldest `processed` deposit too small and positive older net amounts: stalled for good if and only if every older `init` deposit in reach is below the minimum |
| `StallConditions.StalledForeverIff` | modules/service/processing-deposit.go:102-119 | losses included: with the oldest `processed` deposit too small and no other one gaining, stalled for good if and only if every older `init` deposit is below the minimum and all older losses together do not outweigh it |
| `StallConditions.SinkingFreesTheQueue` | modules/service/processing-deposit.go:102-119 | if the losses that can be confirmed keep the running total from ever becoming positive, one large enough new deposit gets settled |
| `StallConditions.AnOlderLossFrees` | modules/service/processing-deposit.go:102-119 | a table where no older deposit reaches the minimum and an older loss frees the queue |
| `StallConditions.EmptyStallIff` | modules/service/processing-deposit.go:102-119 | a merchant without deposits yet never gets one settled, if and only if no whole amount nets the minimum |
| `Commissions.FullChargeStalls` | modules/service/processing-deposit.go:103-104 | that is so for a commission of a hundred per cent or more |
| `StallConditions.OlderDepositFreesTheQueue` | modules/service/processing-deposit.go:29-138 | an `init` deposit in reach, older than every `processed` one and not below the minimum, can be confirmed and settled |
| `Commissions.ChargeLeavesAnything` | modules/service/processing-deposit.go:103-104 | a commission below a hundred per cent leaves any net amount of some deposit, as the losses' condition needs |
| `Callbacks.DepositCallback.Call` | modules/service/processing.go:14-68 | leaves the table that `Callbacks.Called` gives, for every lookup, table and outcome of the insert |
| `Callbacks.CalledRows` | modules/service/processing.go:14-68 | nothing changes without a processor, without a merchant, for the merchant's own two wallets, for a covered balance or a failed insert; otherwise one `init` deposit is added, for the part of the balance that no `init` deposit covers |
| `CallbackTheorems.ReportIsCredited` | modules/service/processing.go:25-65 | for all records that requests can lead to: a report of the stream for a wallet that is not internal brings its user's total to the maximum of old total and amount, and no other user's changes |
| `CallbackTheorems.HeldDenomIsCredited` | modules/service/processor-coreum/deposit.go:75-92 | so whatever a visited wallet holds of a foreign denom is credited to its user |
| `CallbackTheorems.OthersAreNotCredited` | modules/service/processing.go:15-40 | without a processor, without a merchant, or for one of the record's own two ids the table stays |
| `Callbacks.ObserveIsMax` | modules/service/processing.go:42-65 | a callback makes the user's total of `init` deposits the maximum of the old total and the amount, and changes no other user's |
| `Callbacks.ObserveAllIsMax` | modules/service/processing.go:42-65 | any callbacks without a scheduler step in between yield the maximum of the old total and all amounts |
| `Callbacks.CallbackOrderIsIrrelevant` | modules/service/processing.go:42-65 | callbacks with the same observations in any order and multiplicity yield the same total |
| `Callbacks.RepeatedCallbackIsIdle` | modules/service/processing.go:55-58 | repeating a callback creates nothing |
| `Crediting.NeverOverCredited` | modules/service/processing-deposit.go:41-80 | in every run of incoming funds, callbacks, transfers, confirmations, harmless API calls and all other phases, a user's deposits of a coin never sum to more than the wallet received |
| `Crediting.ExactAfterCallback` | modules/service/processing.go:42-65 | right after a callback they equal what was received, those rejected after their transfer included, if the user's `init` deposits are of that coin and carry no transfer hash |
| `Crediting.ApiCallIsSafeIff` | modules/service/service.go:314-345 | of the API calls on any row, exactly those keep this invariant that reject, name no deposit, or update a deposit whose funds have landed |
| `Crediting.UpdatedDepositIsCreditedTwice` | modules/service/service.go:314-337 | after an update that names a deposit whose funds are still in the wallet, the next callback credits its amount once more than received |
| `Crediting.TenIsCreditedTwice` | modules/service/service.go:314-337 | ten received, an `init` deposit of ten, an update and a callback: twenty credited |
| `TickSafety.SettlementIsLater` | modules/service/processing-deposit.go:83-138 | the settlement phase, with the rows and balances it leaves, is a step of such runs |
| `TickSafety.DoneIsLater` | modules/service/processing-deposit.go:140-184 | so is the confirmation of settlements |
| `TickSafety.CollectIsLater` | modules/service/processing-withdraw.go:26-70 | so is the collection of withdrawals, rows and balances |
| `TickSafety.PayIsLater` | modules/service/processing-withdraw.go:71-113 | so is their payout |
| `TickSafety.TickKeepsSafe` | modules/service/processing.go:70-102 | a whole tick over all wallets, with the books the code leaves, credits no user with more than the wallet received |
| `TickSafety.ReachableJobsOwnWallets` | modules/service/merchant.go:44-113 | the wallets that a tick over reachable merchant records works on are the merchants' own |
| `TickSafety.ServiceTickKeepsSafe` | modules/service/processing.go:70-102 | so a tick of `ProcessTransaction` over any records that requests can lead to credits no user with more than received |
| `Crediting.InitiatedPhaseKeeps` | modules/service/processing-deposit.go:29-81 | the first phase as a whole, with its own table and balances, keeps the books safe |
| `WithdrawApi.WithdrawRequests.InitWithdraw` | modules/service/service.go:294-312 | one new `init` withdrawal, exactly for a known blockchain and a merchant with a wallet on it |
| `WithdrawApi.WithdrawRequests.UpdateWithdraw` | modules/service/service.go:314-337 | writes the addressed row as processed whatever its status, with the commission of the merchant's sending rule, as the scheduler stores it |
| `WithdrawApi.WithdrawRequests.DeleteWithdraw` | modules/service/service.go:339-345 | writes the addressed row as rejected whatever its status |
| `WithdrawLedger.EveryRunIsAccounted` | modules/service/processing-withdraw.go:34-95 | in every run, collections of a withdrawal = (1 if settle or done) + failed settle writes, payouts = (1 if done) + failed done writes, and the processing sending wallet's balance of every issued coin is its start plus what was collected and not paid |
| `WithdrawLedger.CleanRunPaysOnce` | modules/service/processor-coreum/processor.go:247-286 | without failed writes each withdrawal is collected once and paid once, and the wallet differs from its start by exactly the truncated amounts still in `settle` |
| `WithdrawLedger.PhasesKeepAccounts` | modules/service/processing-withdraw.go:15-24 | both withdraw phases as the code runs them, with early return, keep those accounts |
| `TickAccounts.DepositBooksIsElsewhere` | modules/service/processing-deposit.go:11-27 | the deposit phases of a wallet, with their transfers, are a step of such runs, for all outcomes |
| `TickAccounts.CallbackIsElsewhere` | modules/service/processing.go:42-65 | so is a deposit callback |
| `TickAccounts.TickKeepsAccounts` | modules/service/processing.go:70-102 | a whole tick over all wallets, for all outcomes, keeps those accounts |
| `ReceivingLedger.EveryRunIsBalanced` | modules/service/processor-coreum/processor.go:117-201 | in every run the processing receiving wallet holds, of each issued coin, its start plus the units of landed deposits, counted as often as they landed, and of payouts to its own address, less the units disbursed in settlements; a service key of a multi-signature wallet holds its start plus what was settled to it |
| `ReceivingLedger.TickKeepsBalanced` | modules/service/processing.go:70-102 | a whole tick over all wallets, for all outcomes, keeps that account |
| `ReceivingLedger.CallbackIsElsewhere` | modules/service/processing.go:42-65 | a deposit callback is a step of such runs |
| `ReceivingLedger.BetweenIsElsewhere` | modules/service/processor-coreum/processor.go:203-245 | a transfer from a merchant's receiving to its sending wallet moves the truncated amount between these two, and is a step of such runs |
| `ReceivingLedger.SettlementReachesTheWalletIff` | modules/service/processor-coreum/processor.go:156-186 | a settlement raises the balance at the address the merchant's wallet is stored under, if and only if that is no multi-signature wallet |
| `ReceivingLedger.SettledToOwnKeyStays` | modules/service/processor-coreum/processor.go:181-186 | in no run does the service's key of a multi-signature wallet ever hold less of an issued coin than before |
| `WithdrawLedger.ApiCallKeepsCountsIff` | modules/storage/transactions.go:200-235 | an API call keeps the counts of the withdrawals if and only if it does not hit a collected withdrawal |
| `WithdrawLedger.UpdatedAgainIsPaidAgain` | modules/service/service.go:314-337 | a `done` withdrawal that is updated can be collected and paid a second time |
| `Commissions.DepositSplit` | modules/service/processing-deposit.go:103-104 | under a merchant's receiving commission a one-deposit settlement splits amount = sent + Fix + amount * Percent / 100 + rest with 0 <= rest < 1 |
| `Commissions.StoredExceedsChecked` | modules/service/processor-coreum/withdraw.go:15-19 | the stored commission exceeds the checked one by exactly Fix * Percent / 100, for every user |
| `Commissions.CheckedCoinIff` | modules/service/processor-coreum/withdraw.go:20-30 | when the coin whose balance is checked is the coin that is paid |
| `Commissions.CollectionLeavesCommission` | modules/service/processor-coreum/withdraw.go:32-58 | after a successful collection the merchant's sending wallet still holds at least the checked commission |
| `Commissions.CollectionsNeverOverdraw` | modules/service/processing-withdraw.go:34-53 | however many withdrawals one phase collects, the sending wallet is never overdrawn |
| `Commissions.UncheckedCoinCanBeMissing` | modules/service/processor-coreum/withdraw.go:20-36 | where the check looks at another coin, a balance can pass it and hold none of the coin paid |
| `KeyStore.KeysPSQL.Put` | modules/storage/keys.go:42-56 | a taken address updates the value only, a taken user is an error, otherwise a row is added with the next id; both unique indexes are kept |
| `KeyStore.PutAnswersTheRecord` | modules/storage/keys.go:42-56 | it answers the id of the record that then holds address and value, and fails exactly if the user is bound and the address is new |
| `KeyStore.CoreumProcessing.Deposit` | modules/service/processor-coreum/deposit.go:14-51 | the bound address, or a new wallet that is stored and bound |
| `KeyStore.CoreumProcessing.CreateWallet` | modules/service/processor-coreum/createwallet.go:22-46 | stores a new wallet without looking for a bound one |
| `KeyStore.ViewsAgree` | cmd/scripts/011-coreum_wallets.sql:1-14 | after any operations, looking up a user yields an address if and only if looking up the address yields the user |
| `KeyStore.BindingIsPermanent` | modules/storage/keys.go:42-56 | no sequence of operations changes the address or id of a bound user |
| `KeyStore.DepositsAgree` | modules/service/processor-coreum/deposit.go:18-46 | all deposit requests of a bound user answer the bound address, whatever else happens |
| `KeyStore.FirstDepositBindsIff` | modules/service/processor-coreum/deposit.go:19-37 | a first request binds the user if and only if the made address is not in the table yet; otherwise it replaces the owner's stored wallet |
| `KeyStore.FirstDepositAdds` | modules/storage/keys.go:42-56 | if user and address are new, it adds one record: live, with the next id, the made address and the stored wallet |
| `KeyStore.CreateWalletOfBoundUser` | modules/service/processor-coreum/createwallet.go:22-46 | at any time, creating a wallet for a bound user fails and changes no record; only if the made address is taken, it is answered, and its owner's stored wallet replaced |
| `DepositStream.GetNext` | modules/storage/keys.go:191-227 | the first `limit` live records beyond an id, in id order |
| `DepositStream.GetAssetsBalance` | modules/service/processor-coreum/processor.go:347-374 | every held denom scanned in order, or the failure that one without a separator causes |
| `DepositStream.ReportedDenomIsHeld` | modules/service/processor-coreum/processor.go:134-139 | the denom sent for a reported balance is the very denom the wallet holds, if it has one separator |
| `DepositStream.HeldDenomIsReported` | modules/service/processor-coreum/deposit.go:79-92 | every foreign denom that a visited wallet holds any of is reported, with its amount, asset and issuer |
| `DepositStream.Stream.Tick` | modules/service/processor-coreum/deposit.go:66-95 | one step of the cursor and what it reports: every positive balance that is not native, of wallets that are not the merchant's own; a panic exactly if the visited wallet holds a denom that cannot be scanned |
| `DepositStream.NobodyPastAStop` | modules/service/processor-coreum/deposit.go:61-95 | started again, the stream visits no wallet with a later id before that one |
| `DepositStream.CycleVisitsAllOnce` | modules/service/processor-coreum/deposit.go:61-95 | from one wrap to the next ids strictly increase and every wallet live at the first wrap is visited exactly once, whatever is inserted or updated meanwhile |
| `DepositStream.UnchangedCycle` | modules/service/processor-coreum/deposit.go:69-74 | with n live wallets and no inserts, tick i visits the i-th of them and tick n wraps |
| `DepositStream.CycleIsShort` | modules/service/processor-coreum/deposit.go:69-74 | with inserts, a cycle takes at most one tick more than there are live wallets in the end |
| `DepositStream.OperationsGrow` | modules/storage/keys.go:42-56 | the store's operations only insert larger ids and update values, as the cursor theorems assume |
| `Denoms.DenomRoundTripIff` | modules/service/processor-coreum/processor.go:357-371 | scanning a printed denom returns asset and issuer if and only if neither contains a '-' |
| `Merchants.MerchantStore.UpdateMerchantCommission` | modules/service/merchant.go:80-115 | changes the commissions of one wallet and keeps its ids, or adds it with the merchant's own ids |
| `Merchants.MerchantStore.CreateWallet` | modules/handler/merchants.go:101-161 | adds a wallet with the merchant's own ids and the default commission, unless there is one |
| `Merchants.CommissionsAreTheLatest` | modules/service/merchant.go:80-115 | a wallet has the commissions of its latest update, a new one the default of 1 and 1 per cent; other wallets and merchants stay |
| `Merchants.ReachableIdsAreOwn` | modules/service/merchant.go:44-113 | every reachable merchant record has wallet ids id-R and id-S |
| `Merchants.WalletIdsArePermanent` | modules/service/merchant.go:56-113 | no sequence of requests changes the ids of a wallet, unless the merchant is created anew |
| `Merchants.MerchantsOwnAreInternal` | modules/service/processor-coreum/issue.go:70 | receiving, sending and issuer wallets all have an id that contains the merchant's |
| `Merchants.ReceivingIsNotSending` | modules/handler/merchants.go:138-142 | receiving and sending wallet of a merchant differ |
| `InternalWallets.InternalWalletsAreNeverQueued` | modules/service/processor-coreum/deposit.go:75-77 | in every run no deposit is ever created for a receiving, sending or issuer wallet of its merchant |
| `MultiSign.MultiSignService.GetMultiSignAddresses` | cmd/multisign-service/service/multisign-service.go:123-135 | exactly the service's public keys, each once with weight one |
| `MultiSign.MultiSignService.MultiSignTransaction` | cmd/multisign-service/service/multisign-service.go:145-187 | succeeds if and only if the transaction is approved and at least `threshold` entries can be signed, and returns the signatures of the first of them |
| `MultiSign.MultiSignService.CollectsThreshold` | cmd/multisign-service/service/multisign-service.go:155-186 | for a threshold of at least one: uses exactly the first `threshold` signable entries; exactly `threshold` signatures if the addresses are distinct, at most that many otherwise |
| `MultiSign.MultiSignService.SignAllIsGenuine` | cmd/multisign-service/service/multisign-service.go:155-186 | whatever is collected under a public key is the signature of the data by the service's own key of that address |
| `MultiSigWallets.MultiSignature.AddAll` | modules/service/processor-coreum/broadcasttx.go:118-142 | adding collected signatures in any order succeeds if and only if all are members', and then adds exactly those |
| `MultiSigWallets.SignForBroadcast` | modules/service/processor-coreum/broadcasttx.go:64-160 | the signatures of a broadcast: nothing without a service; otherwise those of `Broadcast`, for every account, service and approval |
| `MultiSigWallets.CreateCoreumWallet` | modules/service/processor-coreum/createwallet.go:79-271 | which wallet is made: single-key, multi-signature, a failure or a panic, for every offer of the callback and every outcome |
| `MultiSigTheorems.BroadcastCarriesThreshold` | modules/service/processor-coreum/broadcasttx.go:64-160 | for a wallet made for external threshold t over distinct keys: signed if and only if the service approves and holds enough member keys; then all signers are members, each entry is that key's own signature of the data, and they are exactly t + 1, the wallet's threshold, if and only if the service does not sign for the processing key |
| `MultiSigTheorems.ActivatedWalletsSign` | modules/service/processor-coreum/createwallet.go:95-245 | a wallet is activated if and only if it is funded and accepted, its threshold is a whole number, the service approves and holds that many external keys; the activation carries exactly the wallet's threshold, each entry that key's own signature |
| `MultiSigTheorems.LonelyWallets` | modules/service/processor-coreum/createwallet.go:79-110 | without a service, external keys or a positive threshold the wallet is that of the processing key alone; without an answer to the request for keys there is none |
| `MultiSigTheorems.BundledServiceSigns` | cmd/multisign-service/handler/handler.go:16-28 | with the bundled service, which asks for all its keys, approved creations and broadcasts carry every party's signature, made by that party's key |
| `MultiSigTheorems.AddressIsKeyIff` | modules/service/processor-coreum/createwallet.go:79-271 | a wallet that is made is stored under its own wallet address if and only if it has no external signers |

## Left out

- Store failures in the settlement loop: the results of its row writes are ignored by the code; the model lets them succeed. A failing SELECT makes a phase do nothing.
- Several processors: the service is wired with one, and so is the model.
- `deleted_at` of transactions: nothing sets it, and the model has no such column.
- Crediting.NeverOverCredited: balance read and callback are one step, each loop iteration is one step, status answers are truthful, row writes succeed and a failed broadcast moves nothing; no API call updates a deposit whose funds have not landed (exactly then it fails, see `Crediting.ApiCallIsSafeIff`).
- Crediting.ExactAfterCallback: needs one coin per user, because the callback counts all `init` deposits of a user whatever their asset.
- Drain.DrainBound: while nothing fails for the pair, as the bound needs; the deposits that are not final are fresh.
- TickRuns.TicksDrain: a merchant's wallets that share a blockchain after lowercasing have the same commission.
- StallConditions.StalledForeverIff: where several `processed` deposits gain, whether the queue can be freed is a question of subset sums; `Stall.StalledIffNeverRipe` is exact there, too. It needs room for one more deposit in the batch, and a commission that some deposit exceeds by any amount.
- Stall.StalledIffNeverRipe: with the pair's commission and minimum fixed, and API calls that address withdrawals; one that names a deposit's guid rejects or re-processes that deposit.
- TickOrder.TickOrderIsIrrelevant: one wallet per merchant on the blockchain, and the same answers of the chain in both orders.
- TickSafety.TickKeepsSafe: with truthful status answers and row writes that succeed, as in `Crediting.NeverOverCredited`, and the merchants' own wallets, as reachable records have them (`TickSafety.ServiceTickKeepsSafe`).
- ReceivingLedger.EveryRunIsBalanced: without funds that somebody else sends to the processing receiving wallet or to a service key.
- PayoutLedger.EveryPayoutArrives: nobody else moves funds of outside addresses.
- Effects.CollectionMoves: receiving and sending wallet have different ids, as in all reachable records (`Merchants.ReceivingIsNotSending`).
- Payout addresses other than those of the two processing wallets are taken to be outside the service.
- DepositStream.CycleVisitsAllOnce: without failing SELECTs, which restart the scan.
- Balances of the native denom: gas top-ups move it in ways the model does not follow.
- Negative withdrawal amounts, which the chain library refuses by a panic.
- `GetTransactionStatus` of the Coreum processor always answers success; the model allows every status.
- float64 is modelled as real, so rounding errors are not; truncation to int64 is, its range is not.
- strings.ToLower on ASCII text only.
- The merchants' callbacks are HTTP requests; only whether one is configured and can be looked up matters here.
- Account keys, addresses and signatures are abstract; addresses of different keys are assumed different.
- Token issue, mint, burn and NFT flows, the request side of transfers between merchant wallets, the HTTP and HTML layers, authentication, SQL text, gRPC and configuration.
