# PayCore money movement, in Dafny

A model of the wallet back end's money engine and proofs about every run of it: wallets,
the ledger, the transaction state machine, the asynchronous Paystack flows, the limits and
KYC tiers that guard them, and the merchant-webhook retry machine. `dafny verify dfyconfig.toml`
checks the whole project.

## How it is built

- `Records`, `Sums`, `Options`: rows, queries, sums over rows. Money is in kobo. A wallet id is
  its UUID read as a number, which orders wallets as `str(uuid)` does. A transaction's id is its
  place in an append-only table.
- `Effects`: the eight ways a committed handler changes money, each with the guards it holds when
  it writes. `Ledger`: the accounting invariant, kept by each effect. `Lifecycle`: how a row may
  change over time.
- `Fraud`, `Decisions`: what each handler decides when it runs alone, branch by branch.
- `Session` (module `Sessions`), `Transfers`, `Fundings`, `PaystackWebhooks`, `Withdrawals`,
  `Reconciliation`, `Kyc`, `BankAccounts`: the services as classes over a session that flushes,
  commits and rolls back; every method is proved to leave the committed database as its decision
  says.
- `Guards`: invariants that rest on guards read without a lock. `System`: one request is one
  handler run to its end, a run is any sequence of requests, and every run keeps every invariant.
- `Confluence`: deliveries in any order. `Paystack`: the back end and Paystack together, with lost,
  repeated and reordered messages and workers that die after calling Paystack. `Locks`: all
  eight kinds of handler interleaved one statement at a time.
- `Outcomes`: exactly when each handler commits, returns or raises, said of the rows a caller sees.
- `WebhookRetries`: the merchant-webhook delivery row. `Theorems`: the headlines in plain terms.

Readings of the code:

- `lock_for_update` is taken by its docstring (app/repositories/wallet.py:44-51): a blocking row
  lock whose row is the current committed one. README.md:472 says NOWAIT; the code does not. The
  session has read the wallet before locking it (app/services/transfer.py:64, 107); that the second
  read is fresh is an assumption of `Locks`.
- Funding and withdrawal post one entry each, although app/models/ledger_entry.py:22 promises two
  for every movement; funding credits the amount in Paystack's event, not the row's amount.
- Wallets are permanent: no service deletes one. The early returns of `process_charge_success`
  (app/services/paystack_webhook.py:129-141) followed by the sweep's commit
  (app/workers/reconciliation_tasks.py:154) would otherwise commit a half-done funding; the proof
  of `ProcessChargeSuccess` shows these branches are never taken.
- Handlers of one transaction run one at a time: they read its status without a lock. In `Locks` a
  handler starts only when no other is between its read and its commit of the same transaction;
  handlers of different transactions, and all inserts, interleave freely.
- Limits are the defaults of app/core/config.py:41-48. The proofs need only that tier 1's daily
  limit is at most tier 2's.
- Request schemas keep amounts positive; that is the one precondition on requests.
- Paystack is assumed to answer a new charge with a reference not used before, to accept one
  payment per charge, to deduplicate transfers by reference, and to send only true messages
  (webhooks are signed).

One promise of the code's own documentation is false of the code: a sweep does not pick up
deliveries whose first task was never enqueued (`UnenqueuedIsNeverSwept`, against
app/services/webhook_delivery.py:41-43); it can pick up a waiting delivery exactly when one of its
runs has failed (`SweptIffTried`). And a true Paystack event can be lost: `LostOutcome` and
`LostPayment` give the runs, `DeliveryCountsIff` the exact condition under which an event counts.

## Model

| member | source | states |
|---|---|---|
| Records.ScalarOneOrNone | app/repositories/transaction.py:59-89 | a lookup finds no row, the only matching row, or fails because two rows match |
| Ledger.KeepsRows | app/models/transaction.py:30-113 | each effect keeps every row well formed for its type: who may have which status, wallets, account and provider reference |
| Ledger.KeepsUnique | app/models/transaction.py:61-63 | references and idempotency keys stay unique (keys: line 101) under every effect |
| Ledger.KeepsPostings | app/services/ledger.py:31-85 | after every effect each transaction's entries are exactly what its type and status call for: debit on source and credit on destination, one debit, one credit, or none |
| Ledger.KeepsIdentity | app/services/withdrawal.py:262-264 | after every effect each balance is nonnegative and equals credits minus debits minus amounts of PENDING and PROCESSING withdrawals |
| Ledger.KeepsTotal | app/services/transfer.py:123-157 | after every effect balances plus holds over all wallets equal the ledger's signed sum |
| Ledger.Conservation | app/services/paystack_webhook.py:143-159 | balances plus holds are fundings credited minus withdrawals completed; transfers and payments cancel |
| Ledger.SnapshotGap | app/services/withdrawal.py:350-359 | a new entry's balance snapshot is the running ledger sum minus exactly what is held in the state it is committed with |
| Ledger.KeepsHistory | app/models/ledger_entry.py:56-58 | every snapshot ever written lies between 0 and the wallet's running ledger sum, and equals it if the wallet never withdrew |
| Ledger.ApplyKeepsInv | app/repositories/wallet.py:62-75 | every effect, under the guards rechecked under the lock, keeps the whole accounting invariant |
| Lifecycle.EffectEvolves | app/repositories/transaction.py:160-191 | an effect removes no row or entry, moves a status only along the state machine, and rewrites no other column except a withdrawal's empty provider reference |
| Lifecycle.NoWayBack | app/models/transaction.py:30-38 | no walk of the state machine leaves FAILED or REVERSED, and COMPLETED leads only to REVERSED |
| Decisions.DecideTransfer | app/services/transfer.py:63-169 | a transfer can only commit a move of this amount from the sender's own wallet to the recipient's, under the guards the accounting proofs need |
| Decisions.DecidePayment | app/services/merchant_payment.py:66-168 | the same from the payer's wallet to that of the merchant's user |
| Decisions.DecideCharge | app/services/paystack_webhook.py:90-159 | a charge event can only credit a pending funding that carries its reference, by the event's amount |
| Decisions.DecidePayoutResult | app/services/withdrawal.py:303-435 | a payout outcome can only settle or refund a dispatched withdrawal that carries its reference |
| Decisions.DecidePayout | app/services/withdrawal.py:479-558 | what a payout task commits is the dispatch of that very withdrawal with Paystack's transfer code, to the cached recipient or else the new one |
| Decisions.DecideWithdrawal | app/services/withdrawal.py:217-264 | a withdrawal can only commit a hold of exactly this amount on the user's own wallet, for this account |
| Decisions.DecideFunding | app/services/wallet_funding.py:72-135 | a funding can only commit a PENDING row for this amount under the charge reference Paystack gave |
| Outcomes.ReplayOutcome | app/services/transfer.py:89-93 | the idempotency lookup answers, with the key's transaction, exactly when one carries the non-empty key |
| Outcomes.TransferOutcome | app/services/transfer.py:63-169 | exactly when a transfer commits, returns the key's transaction, or raises each of its errors, the duplicate within sixty seconds included |
| Outcomes.PaymentOutcome | app/services/merchant_payment.py:66-168 | the same for a merchant payment |
| Outcomes.FundingOutcome | app/services/wallet_funding.py:72-135 | the same for a funding request |
| Outcomes.WithdrawalOutcome | app/services/withdrawal.py:217-264 | the same for a withdrawal request: tier, limits, one at a time, own live account, balance |
| Outcomes.PayoutOutcome | app/services/withdrawal.py:479-535 | a payout task dispatches exactly a pending withdrawal whose account is live and has, or is given, a recipient |
| Outcomes.SubmissionOutcome | app/services/kyc.py:60-96 | a submission is added exactly when it asks for the next tier and none for it is under review; rejected ones do not count |
| Outcomes.ReviewOutcome | app/services/kyc.py:137-205 | a review takes effect exactly on a submission under review that is not the reviewer's own |
| Outcomes.RemovalOutcome | app/services/withdrawal.py:160-185 | an account is refused exactly when it is not the user's live one or a withdrawal in progress pays to it |
| Outcomes.AccountRows | app/repositories/bank_account.py:81-117 | adding, choosing and deleting write one row and otherwise only default flags of the same user |
| Sessions.Session.UpdateStatus | app/repositories/transaction.py:160-191 | the status changes exactly when the state machine allows it |
| Sessions.Session.CreateTxn | app/repositories/transaction.py:24-57 | the row is inserted exactly when its reference and key are unused |
| Sessions.Session.PostDoubleEntry | app/services/ledger.py:31-85 | a debit then a credit entry are appended, nothing else changes |
| Transfers.MoveMoney | app/services/transfer.py:103-169 | locking in id order, balance check, insert, entries, balances and commit amount to one atomic move, or to the fallback after a unique violation |
| Transfers.TransferService.InitiateTransfer | app/services/transfer.py:34-169 | the committed database and the answer are those of the transfer's decision, and the session ends clean |
| Transfers.MerchantPaymentService.InitiatePayment | app/services/merchant_payment.py:38-168 | the same for a merchant payment |
| Fundings.WalletFundingService.InitiateFunding | app/services/wallet_funding.py:43-151 | a PENDING funding is committed only after Paystack answered; no row when it is unreachable; a known key answers with its transaction |
| PaystackWebhooks.PaystackWebhookService.ProcessChargeSuccess | app/services/paystack_webhook.py:75-162 | two status updates, credit, entry and commit amount to one atomic credit, or to nothing; the early returns that would leave PROCESSING flushed are never taken |
| PaystackWebhooks.PaystackWebhookService.ProcessTransferResult | app/services/paystack_webhook.py:182-217 | success settles, failure and reversal refund, anything else changes nothing |
| Withdrawals.WithdrawalService.InitiateWithdrawal | app/services/withdrawal.py:189-267 | the hold is committed whole or not at all, as decided |
| Withdrawals.WithdrawalService.ProcessPayoutSuccess | app/services/withdrawal.py:303-364 | the debit entry and COMPLETED are committed together, or nothing |
| Withdrawals.WithdrawalService.ProcessPayoutFailure | app/services/withdrawal.py:382-435 | the refund and FAILED are committed together, or nothing |
| Withdrawals.WithdrawalService.ExecutePayout | app/services/withdrawal.py:461-558 | dispatch is committed as decided; when a Paystack call raises, nothing flushed survives |
| Reconciliation.ReconciliationTask.ReconcileFunding | app/workers/reconciliation_tasks.py:117-190 | one stale funding is credited, failed or left alone as Paystack answers |
| Reconciliation.ReconciliationTask.ReconcileFundings | app/workers/reconciliation_tasks.py:72-92 | with at most fifty fundings stale each is FAILED if unpaid, or COMPLETED with one credit of the answered amount if paid; rows that are not stale stay |
| Reconciliation.FundingBatch | app/workers/reconciliation_tasks.py:73-82 | the stale fundings with their references; one is left out only when fifty older ones are in |
| Reconciliation.ReconciliationTask.EnqueueWithdrawals | app/workers/reconciliation_tasks.py:94-110 | only stale PENDING withdrawals are handed back, and all of them when fewer than fifty are |
| Reconciliation.Batch | app/workers/reconciliation_tasks.py:73-103 | at most 50 stale rows, none twice; a stale row is left out only when the batch is full |
| Reconciliation.SweepSettles | app/workers/reconciliation_tasks.py:139-172 | after the sweep each batch row is settled by the answer about its own charge and every other transaction is untouched |
| Reconciliation.SweepIsRight | app/workers/reconciliation_tasks.py:72-172 | the sweep as a run settles every stale funding when at most fifty are stale |
| Guards.DailySumIsToday | app/repositories/fraud.py:20-39 | the daily query sums exactly the rows created on the current UTC day |
| Guards.NothingInFlight | app/services/withdrawal.py:226-235 | with no active withdrawal the COMPLETED sum is all that is outstanding today |
| Guards.KeepsOneActive | app/services/withdrawal.py:228-235 | a user never has two active withdrawals |
| Guards.KeepsWithdrawalCap | app/services/fraud.py:69-87 | non-FAILED withdrawals of a user and day stay within the tier 2 daily limit, in-flight money included |
| Guards.KeepsSpendingCap | app/services/fraud.py:157-178 | a day's completed transfers, or payments, stay within the limit of the user's tier |
| Guards.ApplyKeepsGuards | app/services/fraud.py:32-87 | every effect that passed its unlocked guards keeps all of these |
| Guards.PayoutFindsAccount | app/services/withdrawal.py:503-520 | a pending withdrawal's account is live and its initiator's, so the payout task never misses it |
| Kyc.SubmitKeepsKyc | app/services/kyc.py:60-96 | submitting keeps: approved tiers are 1 to the user's tier, one live submission per tier, pending ones ask for the next tier |
| Kyc.ApprovalRaisesByOne | app/services/kyc.py:154-162 | an approval raises the user's tier by exactly one and changes nobody else |
| Kyc.ApproveKeepsKyc | app/services/kyc.py:137-162 | approving keeps the same invariant |
| Kyc.RejectKeepsKyc | app/services/kyc.py:189-205 | rejecting keeps the same invariant |
| Kyc.KycService.SubmitKyc | app/services/kyc.py:29-109 | a submission is added exactly when no rule refuses it, and never when the upload fails |
| Kyc.KycService.ApproveKyc | app/services/kyc.py:125-162 | status and tier change together, or not at all |
| Kyc.KycService.RejectKyc | app/services/kyc.py:180-205 | only a pending submission of somebody else is rejected |
| BankAccounts.AddKeepsDefaults | app/services/withdrawal.py:142-154 | adding keeps: one default per user with a live account, none deleted |
| BankAccounts.SetDefaultKeepsDefaults | app/repositories/bank_account.py:81-98 | setting a default keeps it and makes that account the default |
| BankAccounts.DeleteKeepsDefaults | app/repositories/bank_account.py:108-117 | deleting keeps it, and deleting the default promotes the oldest account left |
| BankAccounts.RemoveKeepsPayoutAccounts | app/services/withdrawal.py:171-185 | the account an active withdrawal pays to is never removed |
| BankAccounts.BankAccountService.RemoveBankAccount | app/services/withdrawal.py:160-185 | removal succeeds exactly when no rule refuses it |
| BankAccounts.BankAccountService.SoftDelete | app/repositories/bank_account.py:108-117 | the flag updates amount to deletion with promotion |
| BankAccounts.BankAccountService.AddBankAccount | app/services/withdrawal.py:119-155 | the new account is the default exactly when it is the only live one |
| System.ServeKeepsGood | app/services/withdrawal.py:189-558 | any request, whatever its outcome, keeps every invariant: accounting, limits, KYC, accounts |
| System.HistoryIsAWalk | app/models/transaction.py:30-38 | over any run each committed history is a path of the state machine, other columns are written once, the ledger is append-only |
| System.CommittedStatuses | app/services/paystack_webhook.py:110-126 | in any run fundings are never PROCESSING, moves only COMPLETED, and a PROCESSING row is a withdrawal with its transfer code |
| System.AnswerCarriesKey | app/services/transfer.py:89-93 | a keyed call that answers with a transaction answers with the key's own, and moves money only if the key was unused |
| System.SameKeySameTransaction | app/services/transfer.py:161-169 | over any run every later call that answers for a key gives the same transaction and changes nothing |
| Confluence.DeliverOne | app/services/paystack_webhook.py:182-217 | a delivery is a local step of the one transaction it addresses |
| Confluence.DeliveryCountsIff | app/services/withdrawal.py:321-334 | a delivery changes something if and only if its transaction is in the status it needs |
| Paystack.FundingGoesThrough | app/services/wallet_funding.py:110-135 | asked for, paid and reported, a funding ends in the user's wallet with what the customer paid |
| Paystack.WithdrawalGoesThrough | app/services/paystack_webhook.py:205-212 | dispatched and reported, a withdrawal ends COMPLETED on success and FAILED on failure or reversal |
| Paystack.LostOutcome | app/services/withdrawal.py:328-334 | from any world, a crash after the transfer call and a success event before the next dispatch: Paystack has paid, the event changes nothing |
| Paystack.LostPayment | app/services/paystack_webhook.py:117-123 | a funding reconciled as unpaid and paid afterwards stays FAILED and credits nobody when its charge event comes |
| Confluence.TerminalAbsorbs | app/services/withdrawal.py:397-410 | deliveries to a terminal transaction, or to none, change nothing |
| Confluence.DuplicateIsIgnored | app/services/paystack_webhook.py:110-123 | delivering an event twice is delivering it once |
| Confluence.DeliverAll | app/workers/paystack_tasks.py:41-71 | after any deliveries each transaction's status and postings are its own deliveries applied in order |
| Confluence.JournalsFixBalances | app/models/wallet.py:18-22 | rows and postings determine every balance |
| Confluence.DeliveriesCommute | app/workers/reconciliation_tasks.py:143-172 | two delivery sequences that agree on each transaction's own subsequence end with equal rows, wallets and postings |
| Paystack.StepKeepsWorld | app/services/withdrawal.py:543-558 | every action of either system, crashes after a Paystack call included, keeps the tie between rows and Paystack's books |
| Paystack.Solvency | app/workers/withdrawal_tasks.py:26-37 | in every reachable state balances never exceed what Paystack collected minus what it paid out |
| Paystack.PayoutsAndHolds | app/services/withdrawal.py:543-552 | a transfer at Paystack belongs to exactly one withdrawal, for its amount, which stays held or debited unless Paystack reported failure or reversal |
| Locks.StartsAsDecided | app/services/withdrawal.py:314-334 | an event's unlocked read lets its handler go on exactly when the handler, alone, would commit |
| Locks.WritesTheEffect | app/services/transfer.py:119-159 | what a worker writes from the balances read under its locks and the row read without one is the atomic effect on the committed rows |
| Locks.OthersUndisturbed | app/repositories/wallet.py:44-51 | no commit makes stale a balance another worker read under its lock, the transaction it read, or the free key it checked: no update is lost |
| Locks.StepKeeps | app/services/merchant_payment.py:103-168 | every statement of every worker keeps lock ownership, current snapshots and distinct uncommitted unique columns |
| Locks.InterleavingsAreSerial | app/services/transfer.py:103-169 | every interleaving of all eight kinds of handler ends with the database that running the committed jobs atomically in commit order gives, each under its own guard |
| Locks.LogIsTheCommits | app/services/transfer.py:159 | that order lists exactly the jobs reported committed, once each |
| Locks.EveryInterleaving | app/services/paystack_webhook.py:136-162 | all of this from any good database, any population of jobs and any schedule |
| Locks.InterleavingsKeepInv | app/repositories/wallet.py:44-60 | so every interleaving keeps the accounting invariant |
| Locks.RacersAgree | app/services/transfer.py:126-169 | racing callers with one key that get a transaction get the same one, and at most one committed it |
| Locks.LoserIsAnswered | app/services/transfer.py:161-169 | a transfer or payment that has begun its insert, or has not begun, when another holds its key ends with that transaction |
| Locks.AloneAsDecided | app/services/transfer.py:89-169 | a worker that runs alone ends, statement by statement, exactly as layer one decides, for all eight kinds of handler |
| Locks.NoDeadlock | app/services/withdrawal.py:343-419 | while any worker is unfinished some worker can step: moves, holds, credits, settlements and refunds wait for wallet rows, inserts for unique columns |
| Locks.StepsRunOut | app/services/merchant_payment.py:103-158 | every step shortens what is left to run |
| Locks.EveryScheduleFinishes | app/services/transfer.py:103-142 | every schedule takes a bounded number of steps, and where nobody can step everybody has finished |
| Locks.AllCanFinish | app/services/withdrawal.py:243-267 | whatever each worker's checks come to, some schedule finishes every worker |
| Theorems.EveryBalance | app/models/wallet.py:18-26 | the balance identity, for every run from the empty database |
| Theorems.EveryPosting | app/services/ledger.py:31-85 | in every run each transaction has exactly the entries its type and status call for |
| Theorems.EverySnapshot | app/models/ledger_entry.py:56-58 | in every run each snapshot lies between zero and the running ledger sum |
| Theorems.EveryTotal | app/services/ledger.py:14-24 | conservation, for every run |
| Theorems.EveryWithdrawalDay | app/services/withdrawal.py:226-235 | in every run a user's withdrawals of a day, in flight included, stay within the tier 2 limit |
| Theorems.EverySpendingDay | app/services/fraud.py:138-178 | the spending caps, for every run and promotion |
| Theorems.EveryTransferApart | app/services/fraud.py:180-193 | in every run two transfers of one amount between the same wallets lie more than sixty seconds apart |
| Theorems.TransferMoves | app/services/transfer.py:114-157 | a committed transfer lowers the sender's wallet, raises the recipient's by the same, touches no other, and leaves one row and two entries that say so |
| Theorems.FundingOpens | app/services/wallet_funding.py:122-135 | a committed funding request adds one PENDING row for the amount asked and changes nothing else |
| Theorems.WithdrawalHolds | app/services/withdrawal.py:243-264 | a committed withdrawal lowers the user's wallet by exactly the amount and adds the PENDING row that says so |
| Theorems.PayoutWrites | app/services/withdrawal.py:522-556 | the transaction gets the transfer code, a cached recipient stays, a missing one is filled, nothing else changes |
| Theorems.PaymentMoves | app/services/merchant_payment.py:113-156 | the same for payer and merchant |
| Theorems.RefundUndoesHold | app/services/withdrawal.py:418-435 | request, dispatch and failure leave wallets and ledger as they were |
| Theorems.SettlementKeepsHold | app/services/withdrawal.py:342-364 | settlement leaves the balance where the hold put it and posts the debit with that snapshot |
| WebhookRetries.RetryHistory | app/workers/webhook_tasks.py:51-141 | over any task runs DELIVERED stays, attempts never decrease, a waiting row has attempts left and is due 2^n minutes after its n-th failure |
| WebhookRetries.WaitsIff | app/workers/webhook_tasks.py:51-134 | a row still waits exactly when every run found a URL and failed and fewer than six attempts are made |
| WebhookRetries.DueAfterDelay | app/workers/webhook_tasks.py:133-162 | the sweep picks a row up from 2^n minutes after its n-th failure on, and not before |
| WebhookRetries.AttemptsAreCounted | app/workers/webhook_tasks.py:68-136 | every POST is counted, the successful one included |
| WebhookRetries.RetriesRunOut | app/workers/webhook_tasks.py:103-134 | as many runs as attempts are left take a row out of PENDING |
| WebhookRetries.GivenUpCanDeliver | app/workers/webhook_tasks.py:51-62 | FAILED is not final: any row not yet delivered ends DELIVERED exactly when some later run finds a URL and succeeds |
| WebhookRetries.UnenqueuedIsNeverSwept | app/services/webhook_delivery.py:41-43 | a new row whose task was never enqueued is passed over by every sweep |
| WebhookRetries.SweptIffTried | app/workers/webhook_tasks.py:155-164 | the sweep can ever pick up a waiting row if and only if one of its runs has failed |
| WebhookRetries.DeliveryTask.Deliver | app/workers/webhook_tasks.py:33-141 | one task run updates the row as the retry machine says |
| WebhookRetries.RetryPending | app/workers/webhook_tasks.py:145-167 | the sweep returns due rows only, each once, at most 100, and all of them when fewer |

## Left out

- HTTP routers, schemas, middleware, rate limiting and configuration loading: plumbing; only positive amounts and the default limits are kept.
- HMAC, bcrypt, JWT and API keys: opaque cryptography; inbound Paystack messages are taken as true.
- Paystack's HTTP client, S3 uploads and the webhook POST: replaced by Paystack's books and message pool, and by a given success or failure.
- SQLAlchemy identity maps, migrations and the broker: a session is committed rows, flushed rows, commit, rollback, row locks and unique columns.
- Audit logging and risk flags: they follow the commit and move no money.
- User profiles, merchant profiles, refresh tokens, pagination, admin listings: plain queries. A merchant enters as the result of its lookup.
- Currencies, failure reasons, reviewer notes and document keys: columns no decision reads.
- REVERSAL transactions, COMPLETED to REVERSED, and the generic transaction service: no flow uses them.
- Liveness: no claim that a withdrawal or funding is ever settled; `DeliveryCountsIff` says which events are lost.
- Two overlapping handlers of one transaction, or of one user's limits: those guards are read without a lock, so what rests on them is claimed only for handlers that run one at a time.
- Locks.Step: the row locks that updates of a transaction or a bank account take besides the wallet lock, workers that die between two statements (their locks are freed), and what the unlocked limit checks answer, which is left open.
- Reconciliation.Batch: takes the oldest stale rows when there are more than fifty; the query leaves the choice open.
- Two bank accounts created at the same instant: their order is that of insertion.
