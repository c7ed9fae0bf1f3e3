# GarudaPanel: a verified model

GarudaPanel sells proxy services for vendors. A user holds a wallet; buying a catalog item debits
the wallet, places an order, remembers the caller's idempotency key and enqueues a job; a worker
claims the job, has the vendor's panel provision the service, and links service and order; a
renewal buys the item again and moves the service's expiry. This project models that engine and
four smaller parts of the repository, and proves what they promise.

## The order engine

`Schema` holds the tables: one finite map from row addresses to rows, and Go's 64-bit integers.
`Repository` gives each query as a function of the tables its statement sees. `Calls` runs
`Create`, `Renew` and `ApplyTransaction` one SQL statement at a time, `Workers` the handling of a
job. A transaction is a write set over the committed tables plus the row and key locks it holds
until it ends; any statement may fail.

`Engine` runs any number of these calls at once, with workers, registrations, manual provisioning,
suspend and resume, catalog inserts, expiry sweeps, crashes and a clock; one label is one statement
of one call, and a run is any sequence of labels that are possible in turn. A commit that takes
effect may go unheard: its caller is then told of a fault. A statement reads the latest committed
rows under its own transaction's writes: nothing rests on the SERIALIZABLE isolation the code asks
for, only on its row locks and unique keys.

`Isolation`, `Local`, `CoreInvariant` and `CoreSteps` prove the invariant of the statement-level
interleaving: each process's knowledge of the tables survives everyone else's commits, because of
the locks it holds. On it rest the results about runs: `Serializable` (the interleaving refines
serial execution), `SoloRuns` (and contains it), `Outcomes` (when a call alone succeeds and what it
does), `Refusals` (which error it gives, and when), `Accounts` (conservation of money), `Ordering`
(exactly-once ordering and replay), `Retries` (what an answer tells about the commit behind it,
real-time order, and trying again), `Locking` (no double spend, no deadlock), `Provisioning` and
`Queue` (at-most-once provisioning, fairness, drain), `Expiry` and `Sweeps` (renewals, who sets a
status, and the expiry sweep), and `Boundaries` (inputs and runs at which a promise stops).

`Store`, `Repositories`, `OrderService`, `WalletService`, `JobRunner` and `LifecycleService` are the
program's own objects: classes over a mutable database, whose methods execute the statements in the
source's order, branch by branch, and are proved to leave the tables, sequences and reply that the
functions of the engine give (`Sequential` keeps count of how far such a call has come). The database
counts, as a ghost, the statements that failed or went unheard, and a method may report a fault, or
stop short of its work, only as often as the count has risen.

## The other parts

- `RateLimit`: the limiter's map of mutable buckets, its cleanup loop, and the theorems about
  histories of requests.
- `Hub`: bounded client channels, and the interleavings of notify, register, read, leave and close.
- `Adapter`: the panel adapter's retry loop and its expiry arithmetic.
- `Base64`, `Utf8`, `Json`, `Tokens`, `Secrets`: base64 (sections 4 and 5 of RFC 4648) and the
  framing of tokens (section 7.1 of RFC 7515), passwords and panel tokens. SHA-256, HMAC and AES-GCM
  are function parameters.

## Results that differ from what one might expect

- The ledger of a wallet does not always add up to its balance. It does exactly when the user has no
  order whose amount is the least int64, which is its own negation (`Accounts.LedgerAgrees`); a
  purchase keeps the two in agreement if and only if its price is not that number
  (`Boundaries.PurchaseKeepsAgreementIff`), and `Boundaries.LeastPriceBreaksLedger` is a run from the
  empty system that breaks it. The balance itself is always top-ups less orders.
- A call answered by an error may still have placed its order: exactly when the acknowledgement of
  its commit was lost (`Retries.HiddenCommitIff`; `Boundaries.FaultHidesOrder` is such a run). A
  Create's key makes that harmless: a retry returns the order (`Retries.RetryFindsOrder`). A renewal
  formats a new key at each reading of the clock, so trying one again buys it again
  (`Retries.RetriedRenewal`, `Boundaries.RenewedTwice`).
- A failed job's order may have its service after all: exactly when the worker never heard that its
  commit took effect (`Provisioning.FailedLinkedIff`; `Boundaries.FailedJobIsLinked` is such a run).
- The doc comment of `Create` lists the idempotency row after the order; the code inserts it first
  and links it later. The model follows the code.
- UNIQUE(user_id, vendor_id) does not limit a user to one wallet (`Boundaries.EnsureTwice`); that a
  user has one rests on `Register` (`Accounts.AtMostOneWallet`).
- The rate limiter admits at most (k+1) limits less one over k windows' length
  (`RateLimit.WindowBound`), one request fewer than the obvious bound. Some history admits so many if
  and only if the window is at least k long, or k-1 when the limit is one (`RateLimit.BoundMetIff`);
  the exact maximum for every limit, window and k is `RateLimit.Peak`, which no history exceeds
  (`RateLimit.PeakBounds`) and some history reaches (`RateLimit.PeakReached`). The code's comment
  speaks of a sliding window; its windows are fixed, from a key's first request.
- Durations are exact up to 106751 days and for no longer one (`Adapter.ExpiryExact`).

## Model

| member | source | states |
|---|---|---|
| Serializable.InterleavingIsSerial | internal/order/service.go:206-260 | in every reachable state of any interleaving, with any statement failing and any acknowledgement lost, the committed tables are those of the committed calls and job handlings, each run alone from its first statement, and of single statements, in commit order; each successful answer is the one its call gives there, a committed call without one was answered by a fault, and calls that did not commit leave no trace |
| Serializable.RunsAloneTo | internal/order/service.go:206-258 | a call interleaved with others up to its commit ends, with the same ids, as it does when run alone from its first statement on the tables it commits to |
| Serializable.HandlesAloneTo | internal/provisioning/worker_v2.go:64-126 | a worker interleaved with others up to its commit commits what the handling of its job commits when run alone from its first statement, with the same service id and panel answer |
| SoloRuns.AloneIsRun | internal/order/service.go:175-270 | conversely, where nothing else is under way a call can be submitted and stepped to its end, with the tables, reply, sequences and log of its run alone, and its commit may go unheard |
| SoloRuns.WorkIsRun | internal/provisioning/worker_v2.go:41-58 | the same for a worker: stepped to the end of its job it leaves the tables that it leaves alone, and its commit may go unheard |
| CoreSteps.NextKeepsCore | internal/repository/order_repository.go:117-135 | every step of every process keeps the core invariant, and changes no row locked by a process other than the one that steps |
| Local.BuyerStays | internal/repository/order_repository.go:194-218 | what a call has read, checked and written stays right under every commit of others that respects its locks |
| Local.BuyerCovered | internal/order/service.go:218-256 | a transaction writes only rows and keys it has locked, and changes no immutable column |
| CoreInvariant.BuyerStep | internal/order/service.go:175-260 | each successful statement leads to the knowledge, write set and locks of the next point of the call, adding only the lock it asked for or that of the row it inserted |
| Isolation.CommitPreserves | internal/repository/order_repository.go:194-200 | a commit is invisible to every holder of other locks |
| Isolation.WalletStays | internal/repository/order_repository.go:195-199 | the wallet a user's reads find stays the same whatever commits |
| Effects.AdvanceEffect | internal/order/service.go:206-260 | only the commit changes the tables, and it then changes exactly the key, wallet, ledger, order and job rows, and for a renewal the service row, each to the value stated |
| Outcomes.SucceedsIff | internal/order/service.go:175-270 | a call alone succeeds if and only if its key is new and not empty, its item is found (for Create active), its service and order are found (for Renew), and the balance covers the price and stays an int64 |
| Refusals.RefusedIff | internal/order/service.go:54-262 | a call alone is refused with an error if and only if the check of that error is the first that the rows fail: key, linked order, item under its vendor, active, key free, wallet, price covered, int64 (Create); owner, original order, order and item under the vendor, and the payment checks (Renew); wallet and int64 (top-up) |
| Refusals.DuplicateIff | internal/order/service.go:181-191 | a Create alone is answered as a duplicate if and only if its key is linked to an order of its vendor, and then by that order in the state it is in; no other call is |
| Refusals.EndedIff | internal/order/service.go:54-262 | the replies of the methods Create, Renew and ApplyTransaction, when nothing failed or went unheard, are refusals under exactly the same conditions |
| Refusals.RenewByStranger | internal/repository/proxy_repository.go:79-98 | a renewal by anyone but the user in the service row is refused with no rows and changes nothing |
| Refusals.RenewedByOwner | internal/order/service.go:66-70 | over runs every committed renewal is by the user in its service row |
| Outcomes.PurchaseOutcome | internal/order/service.go:193-260 | an accepted purchase debits the item's price from the user's wallet, writes one debit row, the order, its linked key and its job, extends a renewed service, and leaves all else as it was |
| Outcomes.PurchaseRowsAre | internal/order/service.go:224-256 | the order, job, ledger and, for a renewal, service rows of a purchase, column by column, the expiry in seconds |
| Outcomes.FailureChangesNothing | internal/order/service.go:210-216 | a call run alone that does not succeed, for any error and any failing statement whose transaction is rolled back, leaves the tables as they were; for a commit that took effect unheard see AllOrNothing |
| Outcomes.AllOrNothing | internal/order/service.go:258-262 | a method that ends with an error of its own has left the tables as they were, and one that ends with a fault has left them so, or as the success of the same call leaves them when only the acknowledgement of its commit was lost |
| Outcomes.RefusedForMoney | internal/repository/order_repository.go:202-204 | want of money is reported only after the key and catalog checks have passed |
| Outcomes.RetryAfterTopUp | internal/order/service.go:218-228 | a Create refused for want of money has not burnt its key: after any sufficient top-up the same Create, at whatever time, places an order |
| Ordering.ExactlyOnce | internal/order/service.go:181-256 | all successful answers to Creates for one vendor, user and key name one order, and at most one of them placed it, even when many of them found no key |
| Ordering.KeysMatchOrders | migrations/003_order_wallet_engine.sql:5-13 | committed key rows and orders are in bijection: no key row is without its order, and every order, renewals included, has its key row |
| Ordering.OrderChain | internal/order/service.go:78-113 | every order is for an active item of its own vendor at exactly that item's price, and keeps the state it was created in |
| Ordering.IdempotentReplay | internal/order/service.go:181-191 | once a key has bought order n, every Create for it in any later state of any run returns n as a duplicate with the same status and changes nothing, whatever its catalog id |
| Ordering.LateCreateReturnsOrder | internal/order/service.go:181-191 | the same for Creates interleaved with anything: submitted after the order, they are answered by it unless a statement fails |
| Retries.RetryFindsOrder | internal/order/service.go:181-191 | a Create whose commit took effect, even if it was answered by an error because the acknowledgement was lost, is not lost: in every later state a retry with its key returns its order as a duplicate and changes nothing |
| Retries.OnlyFaultsHideCommits | internal/order/service.go:258-260 | a call whose commit took effect is answered by no error but a fault |
| Retries.HiddenCommitIff | internal/order/service.go:258-262 | in any run a call was answered by an error and has nonetheless committed if and only if one of its steps was a commit that went unheard |
| Retries.HeardErrorsPlaceNothing | internal/order/service.go:258-262 | in a run in which every acknowledgement is heard, a call that reports an error has committed nothing |
| Retries.RealTimeOrder | internal/order/service.go:206-260 | the serial order respects real time: a committed call that was answered before another was submitted comes before it in the log |
| Retries.RetryAfterRefusal | internal/order/service.go:218-228 | a Create refused for want of money under any interleaving has not burnt its key: in every later state, whatever ran in between, it places an order if and only if the key is unused and the wallet covers the price, and returns the order of a key used since |
| Retries.RetriedRenewal | internal/order/service.go:91-142 | in every state after a committed renewal, the renewal tried again at a clock reading succeeds if and only if the key of that reading is unused and the wallet covers the price, and then places a second order for the same item and amount; at the same reading it never succeeds |
| Ordering.HitRunsAlone | internal/order/service.go:185-191 | the fast path returns the stored order and writes nothing |
| Accounts.BalanceConserved | internal/repository/order_repository.go:194-218 | in every reachable state a balance is the sum of the wallet's top-up rows less the sum of the user's order amounts |
| Accounts.LedgerAgrees | internal/repository/order_repository.go:211-213 | a wallet's ledger adds up to its balance if and only if no order of the user has the int64 amount that is its own negation |
| Accounts.OneDebitPerOrder | internal/order/service.go:224-240 | orders and order_debit rows correspond one to one, with the user's id and the amount negated |
| Accounts.AtMostOneWallet | internal/auth/service.go:17-27 | no reachable state has two wallets for one user |
| Accounts.FirstWallet | internal/repository/wallet_repository.go:8-11 | the wallet a registration opens is empty, under an id never used, its user's only one, with no ledger rows and no orders; every other row stays |
| Accounts.EmailsUnique | migrations/001_init.sql:2-10 | no two users of a reachable state have one email |
| Boundaries.EnsureTwice | migrations/001_init.sql:23-32 | two EnsureForUser calls for one user both insert a wallet: the unique constraint with a null vendor does not stop them |
| Boundaries.LeastPriceBreaksLedger | internal/repository/order_repository.go:205-216 | a run from the empty system (a registration, a top-up by -1, the purchase of an item at the least int64 price) reaches a state whose ledger total differs from the balance by 2 to the 64th |
| Boundaries.PurchaseKeepsAgreementIff | internal/repository/order_repository.go:205-216 | a committed purchase keeps a wallet's ledger in agreement with its balance if and only if its price is not the least int64 |
| Boundaries.FaultHidesOrder | internal/order/service.go:258-262 | a run from the empty system ends with a Create answered by a fault whose order has been placed |
| Boundaries.FailedJobIsLinked | internal/provisioning/worker_v2.go:45-126 | the run goes on to a failed job whose order is linked to the service its worker made |
| Boundaries.RenewKeysDiffer | internal/order/service.go:91-96 | two renewals draw the same key if and only if they renew one service at one reading of the nanosecond clock |
| Boundaries.RenewedTwice | internal/order/service.go:91-142 | a renewal accepted once and tried again at another clock reading, with money for both, places two orders, takes the price twice and extends the expiry twice |
| Locking.BalanceHeld | internal/repository/order_repository.go:194-218 | from the locked read until the transaction ends, no run of other processes changes that balance, so the check against the price stays true |
| Locking.LockedRowsStay | internal/repository/order_repository.go:195-200 | a locked row stays the same, or absent, over any run in which its holder does not step |
| Locking.BalancesNonNegative | internal/repository/wallet_repository.go:17-34 | if no top-up is negative, no committed balance is ever negative, over all interleavings and prices |
| Locking.Ascending | internal/order/service.go:66-102 | every lock is asked for above all locks held: service row, then key, then wallet row |
| Locking.NoWaitCycle | internal/repository/order_repository.go:152-167 | no path of waiting processes in a reachable state returns to its start |
| Locking.SomeoneCanStep | internal/repository/order_repository.go:152-167 | while any process is under way, one of them can take its next step |
| Provisioning.OneJobPerOrder | internal/order/service.go:252-256 | each order has exactly one job, of its own vendor |
| Provisioning.JobTellsLink | internal/provisioning/worker_v2.go:92-126 | a done job's order is linked to a service that points back to it, with its user, vendor and its item's protocol, traffic and duration; a pending job's order has no link, and a failed job's order has one if and only if its worker never heard that its commit took effect; retries stay at most 1 and dead_letter false |
| Provisioning.FailedLinkedIff | internal/provisioning/worker_v2.go:45-58 | in any run a failed job's order is linked if and only if the commit of its worker went unheard |
| Provisioning.FailedUnlinked | internal/provisioning/worker_v2.go:45-58 | in a run in which every worker hears of its commits, a failed job's order has no link |
| Provisioning.WorkersApart | internal/provisioning/worker_v2.go:41-58 | no two workers ever handle one job, and the jobs they handle are in progress |
| Provisioning.LinkedAtMostOnce | internal/repository/order_repository.go:41-45 | once an order has a service link it keeps that link over every run |
| Queue.ClaimedAtMostOnce | internal/repository/order_repository.go:152-167 | with any number of workers, each job is claimed at most once in any run |
| Queue.ClaimTakesLeast | internal/repository/order_repository.go:152-167 | a claim takes the least pending id, changes that row's status alone, and leaves every other row as it is |
| Queue.PendingJobWaits | internal/repository/order_repository.go:152-167 | a run in which job j stays pending contains at most j-1 claims |
| Queue.QueueConserved | internal/repository/order_repository.go:144-167 | over any run, pending jobs plus claims equal the pending jobs at the start plus the jobs enqueued |
| Queue.QueueDrains | internal/repository/order_repository.go:152-183 | without new jobs, as many claims as there were pending jobs empty the queue, and until then another claim is possible |
| Expiry.RenewalClosedForm | internal/repository/proxy_repository.go:157-169 | after n renewals the expiry is the greatest of the first expiry plus n durations and of each renewal's time plus the durations from it on |
| Expiry.ExpiryOverRuns | internal/order/service.go:132-140 | over any run a service's expiry is the one its committed renewals build up, in that closed form, whatever runs in between |
| Expiry.ExpiryNeverMovesBack | internal/repository/proxy_repository.go:157-169 | with a duration that is not negative an expiry never moves back, and lies at least a duration after the last renewal's start |
| Sweeps.SweepSettles | internal/repository/proxy_repository.go:248-258 | after a sweep at t no active service has an expiry before t, a second sweep at t or earlier changes nothing, and the count is the number of rows changed, each from active to expired |
| Sweeps.WhoChangesStatus | internal/repository/proxy_repository.go:227-245 | only a panel's reply, a suspend or resume, and a sweep change a service's status; a renewal never does |
| Sweeps.ReadServiceIff | internal/proxy/service.go:173-200 | the read of a Suspend or Resume goes on exactly for a service row of the caller's vendor whose status allows it |
| Sweeps.StatusSetInVendor | internal/repository/proxy_repository.go:228-235 | in every reachable state a panel's reply or the update of a Suspend or Resume sets the status of a service row of its own process's vendor, to what was answered or asked for, and changes nothing else |
| Sweeps.ProvisionIff | internal/proxy/service.go:76-120 | a service is inserted by hand exactly when the vendor has an active panel and an order that is named exists, with the row stated, its expiry in seconds |
| Sweeps.ExpiresOnlyAfterRenewals | internal/repository/proxy_repository.go:247-258 | a service turns expired only in a sweep, strictly after the expiry that its renewals have built up |
| OrderService.Service.Create | internal/order/service.go:175-270 | the method, statement by statement with rollback, leaves the tables, sequences and reply of the call run alone, whichever statement fails, or commits as that run does and reports a fault; a fault is answered exactly when one statement failed or went unheard, and without one the reply is that of the run without faults |
| OrderService.Service.Renew | internal/order/service.go:54-145 | the same for a renewal, whose key is formatted from the clock |
| OrderService.Service.Original | internal/order/service.go:66-89 | the locked service read, the original order and the item's price, or the refusal the call ends with |
| OrderService.Service.Pay | internal/order/service.go:218-228 | the key reserved and the price deducted, or the refusal with nothing committed |
| OrderService.Service.Place | internal/order/service.go:230-256 | the order inserted, the key linked to it and its job enqueued, in the transaction |
| OrderService.Service.Extend | internal/order/service.go:132-140 | the expiry moves on in the transaction, or the statement failed |
| OrderService.Service.Finish | internal/order/service.go:258-260 | the commit makes the write set durable and is acknowledged, or makes it durable and reports a fault, or fails and leaves the tables as they were |
| Repositories.WalletTxRepository.DeductTx | internal/repository/order_repository.go:194-218 | either the wallet's row is debited and one negated ledger row added, or the error is the one that the balance calls for, or a statement failed |
| Repositories.IdempotencyRepository.Resolve | internal/repository/order_repository.go:97-114 | the linked order of the key, or 0 for no row and for a row not yet linked |
| Repositories.IdempotencyRepository.ReserveTx | internal/repository/order_repository.go:118-125 | fails on a key that the transaction can see and otherwise adds it, unlinked |
| Repositories.IdempotencyRepository.LinkOrderTx | internal/repository/order_repository.go:128-135 | links the key row to the order; no row is no error |
| Repositories.OrderRepository.ById | internal/repository/order_repository.go:57-65 | the order, if it is the vendor's own |
| Repositories.OrderRepository.CreateTx | internal/repository/order_repository.go:31-39 | inserts the row in the transaction under the next id, which stays drawn on failure |
| Repositories.OrderRepository.LinkServiceTx | internal/repository/order_repository.go:42-45 | sets the order's service in the transaction and no other column |
| Repositories.ProvisioningJobRepository.EnqueueTx | internal/repository/order_repository.go:144-150 | inserts a pending job without retries in the transaction |
| Repositories.ProvisioningJobRepository.ClaimNext | internal/repository/order_repository.go:152-167 | moves the least pending job that is not dead to provisioning, or finds none; on an error the job may have been moved unheard |
| Repositories.ProvisioningJobRepository.MarkDone | internal/repository/order_repository.go:169-173 | sets the job's status to done and nothing else; on an error it may have done so |
| Repositories.ProvisioningJobRepository.MarkFailed | internal/repository/order_repository.go:175-183 | sets the status to failed, adds one retry and sets the dead letter flag; on an error it may have done so |
| Repositories.CatalogPriceRepository.Get | internal/repository/order_repository.go:234-242 | the item, if it is the vendor's own, active or not |
| Repositories.CatalogRepository.GetById | internal/repository/commerce_repository.go:23-29 | the item, whichever vendor's |
| Repositories.ProxyServiceRepository.ByIdForUserTx | internal/repository/proxy_repository.go:79-98 | the service row, if its user is the caller, and no rows otherwise |
| Repositories.ProxyServiceRepository.ExtendExpiryTx | internal/repository/proxy_repository.go:157-169 | adds the days to the expiry, or to the transaction's start when the expiry is null or earlier; the status stays |
| Repositories.ProxyServiceRepository.UpdateStatus | internal/repository/proxy_repository.go:228-235 | sets the status of a row of the vendor and of no other; on an error it may have done so |
| Repositories.ProxyServiceRepository.MarkExpired | internal/repository/proxy_repository.go:248-258 | expires the active services whose expiry has passed, and counts them; on an error it may have expired them |
| Repositories.XUIPanelRepository.FirstActive | internal/repository/proxy_repository.go:296-317 | the vendor's active panel with the least id |
| Repositories.UserRepository.Create | internal/repository/user_repository.go:11-15 | inserts the user unless the email is taken, the id staying drawn; on an error it may have inserted it |
| WalletService.WalletRepository.EnsureForUser | internal/repository/wallet_repository.go:8-11 | inserts an empty wallet, whether or not the user has one; on an error it may have inserted it |
| WalletService.WalletRepository.ApplyTransaction | internal/repository/wallet_repository.go:17-34 | the method leaves the tables, sequences and reply of the top-up run alone, whichever statement fails, or commits as that run does and reports a fault; a fault is answered exactly when one statement failed or went unheard |
| WalletService.WalletRepository.Credit | internal/repository/wallet_repository.go:24-31 | the new balance and one ledger row enter the transaction, or the refusal with nothing committed |
| WalletService.Auth.Register | internal/auth/service.go:17-27 | on success exactly the user and one empty wallet are added; a taken email is refused; a fault is reported exactly when a statement failed or went unheard, and then nothing, the user alone, or both have been added |
| JobRunner.WorkerV2.Tick | internal/provisioning/worker_v2.go:41-58 | claims the least pending job; when nothing fails or goes unheard the job is done, with its service and link, exactly if it can be delivered, and failed otherwise; with mishaps the tables are those of working on it with as many faults at most, and the job still ends done or failed unless the statement that marks it fails |
| JobRunner.WorkerV2.HandleJob | internal/provisioning/worker_v2.go:64-132 | on an error the tables are as before, unless the commit took effect unheard; otherwise the service and the order's link have been committed together |
| JobRunner.WorkerV2.Persist | internal/provisioning/worker_v2.go:91-126 | the service and the order's link to it are committed in one transaction or not at all |
| JobRunner.WorkerV2.Fail | internal/provisioning/worker_v2.go:46-56 | the job is marked failed with one more retry, dead only when the retries are used up |
| JobRunner.JobOutcome | internal/provisioning/worker_v2.go:64-132 | without faults a job is done, with a service made from its order's item and linked both ways, exactly when order and active panel of its vendor, item and panel answer are there; otherwise it is failed and nothing else changes, dead at the fifth retry |
| JobRunner.UnheardOutcome | internal/provisioning/worker_v2.go:45-126 | a job whose commit goes unheard is marked failed all the same, with its service made and its order linked |
| JobRunner.JobSettles | internal/provisioning/worker_v2.go:45-58 | whatever fails in its handling, a job ends done or failed unless the marking statement itself fails |
| LifecycleService.LifecycleManager.Provision | internal/proxy/service.go:76-170 | the service is inserted only when the vendor has an active panel; when nothing fails or goes unheard it is inserted exactly then, ends active or failed by the panel's answer, and the reply says which |
| LifecycleService.LifecycleManager.Suspend | internal/proxy/service.go:173-188 | sets a row of the caller's vendor that is not suspended to suspended and changes nothing else; unless a statement failed or went unheard the reply is no rows for any other row, wrong status for a suspended one and success otherwise |
| LifecycleService.LifecycleManager.Resume | internal/proxy/service.go:191-206 | sets a suspended row of the caller's vendor to active and changes nothing else; unless a statement failed or went unheard the reply is no rows for any other row, wrong status for one not suspended and success otherwise |
| LifecycleService.LifecycleManager.RunExpiryJob | internal/proxy/service.go:209-218 | on success no active service is overdue and the count is the number of rows that changed; there is no count exactly when the statement failed or went unheard |
| RateLimit.PeakBounds | internal/middleware/ratelimit.go:53-67 | no history admits more of one key's requests over k windows' length than the stated peak: the full windows that fit when the first begins at the interval's start, or, less one request, when it began a window's length before |
| RateLimit.FixedWindows | internal/middleware/ratelimit.go:53-67 | in any history with cleanups a key's request is admitted exactly when it is among the first limit of its fixed window, which begins with its first request and which no request, admitted or refused, makes longer |
| RateLimit.PeakReached | internal/middleware/ratelimit.go:53-67 | for every limit, window and k some history admits exactly the peak, so it is the maximum |
| RateLimit.WindowBound | internal/middleware/ratelimit.go:53-67 | in any history with cleanups, on a clock that does not run back, a closed interval of k windows' length, one or more, admits at most (k+1) limits of one key's requests, less one |
| RateLimit.BoundMetIff | internal/middleware/ratelimit.go:53-67 | some history admits (k+1) limits less one over k windows' length if and only if the window is at least k long, or k-1 when the limit is one |
| RateLimit.CleanupTransparent | internal/middleware/ratelimit.go:69-78 | cleanups, wherever they come, change no answer |
| RateLimit.KeysIndependent | internal/middleware/ratelimit.go:53-67 | the answers to a key's requests are those of a limiter that sees no other key |
| RateLimit.RefusedUnchanged | internal/middleware/ratelimit.go:62-64 | a refused request leaves the buckets as they are |
| RateLimit.NegativeWindowAdmitsAll | internal/middleware/ratelimit.go:58-61 | with a negative window every request is admitted |
| RateLimit.RateLimiter.Allow | internal/middleware/ratelimit.go:53-67 | the answer and the new buckets are those of the value-level limiter; buckets are never shared between keys |
| RateLimit.RateLimiter.Cleanup | internal/middleware/ratelimit.go:69-78 | the loop deletes exactly the expired buckets |
| RateLimit.RealIp | internal/middleware/ratelimit.go:80-102 | the key is the text before the first comma of the forwarded chain, else the proxy's header, else the peer's address without what follows its last colon |
| Hub.HubSafety | internal/notification/hub.go:26-52 | over all interleavings no send hits a closed channel, no buffer exceeds 16, and what a client has read and has buffered is in order its part of the history, less what its flags mark as dropped |
| Hub.OfferedMeanwhile | internal/notification/hub.go:26-52 | in any run a client has been offered, in order, exactly what was notified between its registration and its departure, but for a message whose Notify has yet to come to it; it has read and buffered that, less what found its buffer full |
| Hub.LostOnlyWhenFull | internal/notification/hub.go:46-51 | a step adds a message to what a client has or will read exactly when it visits the client with room left; no other step adds or removes one |
| Hub.NothingMissed | internal/notification/hub.go:26-52 | a client whose buffer always had room has every message notified between its registration and its departure, but for one whose Notify has yet to come to it |
| Hub.NotifyGoesOn | internal/notification/hub.go:44-51 | a Notify that holds the mutex can visit any client left without panic, and release the mutex after the last |
| Hub.NotificationHub.Notify | internal/notification/hub.go:41-52 | the loop offers the message once to every client in the set, none of which is closed |
| Hub.NotificationHub.Leave | internal/notification/hub.go:30 | the channel leaves the set and is then closed, once |
| Adapter.MultiPanelAdapter.Provision | internal/xui/adapter.go:38-50 | at most three attempts with one UUID and one expiry, ending with the first success; failure only after three failures |
| Adapter.ExpiryExact | internal/xui/adapter.go:39 | the expiry is the clock plus the days if and only if the days lie between -106751 and 106751 |
| Adapter.Wraps | internal/xui/adapter.go:39 | a duration is an int64 and off by a multiple of 2 to the 64th |
| Base64.RoundTrip | internal/security/jwt.go:26-30 | every byte string decodes to itself after encoding, in either alphabet |
| Base64.EncodingSpells | internal/security/jwt.go:26-30 | an encoding spells its bytes: every four digits the number of three bytes, the last two or three that of the last one or two bytes with zero bits after it |
| Base64.DigitsOf | internal/security/password.go:18 | the digits of the two alphabets are those of sections 4 and 5 of RFC 4648 |
| Base64.DecodedEncodes | internal/middleware/jwt.go:125-128 | encoding a decoded text gives the text back if and only if its last digit carries no spare bits |
| Base64.EncodingPlain | internal/security/password.go:18 | an encoding holds no dot and no line break |
| Json.StringRoundTrip | internal/security/jwt.go:14 | a string literal reads back byte for byte where it is UTF-8 and with U+FFFD for every other byte, HTML and line separator escapes included |
| Json.IntRoundTrip | internal/security/jwt.go:14 | every integer reads back from its decimal form, whatever follows it that is no digit |
| Json.ReadsMarshalled | internal/security/jwt.go:14 | the payload reads as an object of exactly the members exp, role and sub, as written |
| Json.ClaimsRoundTrip | internal/middleware/jwt.go:129-133 | the claims of a signed payload are decoded as written, with vendor 0, by a reader of all JSON texts that matches keys in any case |
| Json.SurrogatePair | internal/middleware/jwt.go:129-133 | two surrogate escapes are read as the code point they stand for |
| Json.HexEscape | internal/middleware/jwt.go:129-133 | any other escape is read as its code point, a surrogate alone as U+FFFD |
| Json.LastMemberCounts | internal/middleware/jwt.go:129-133 | the last member for a field counts, null leaves it as it is, a value of another type or out of range is an error, other keys are ignored |
| Json.DecodesIff | internal/middleware/jwt.go:129-133 | a text decodes exactly if it is null or an object whose members can be stored |
| Json.FoldedKeys | internal/middleware/jwt.go:129-133 | keys name a field in any case, and with a long s |
| Utf8.ValidUnchanged | internal/security/jwt.go:14 | replacing stray bytes leaves exactly the UTF-8 strings unchanged |
| Utf8.EncodedRune | internal/middleware/jwt.go:129-133 | the bytes of a scalar value are one well-formed rune of that value, in the fewest bytes |
| Utf8.DecodedRune | internal/middleware/jwt.go:129-133 | every well-formed rune is the bytes of the scalar value its payload bits spell |
| Tokens.TokenRoundTrip | internal/security/jwt.go:12-19 | a signed token has exactly three parts, validates, and parses to the user and role it was signed with |
| Tokens.SignedParts | internal/security/jwt.go:12-18 | the three parts of a signed token decode to the header, the claims and the MAC of the text before the second dot |
| Tokens.RoleSurvives | internal/middleware/jwt.go:117-134 | the role comes back unchanged if and only if it is UTF-8 |
| Tokens.ParsesIff | internal/middleware/jwt.go:117-141 | a text is accepted if and only if it is two dotless parts and their signature, the second of them decoding to the claims returned |
| Tokens.SignatureNeeded | internal/middleware/jwt.go:117-141 | three dotless parts are accepted, by either check, only if the third is the encoded MAC of the other two; validation exactly then |
| Tokens.ForgeryNeedsCollision | internal/middleware/jwt.go:117-141 | a payload put beside the signature of another is accepted only where the two MACs agree |
| Tokens.SplitJoins | internal/middleware/jwt.go:118 | joining the parts with dots gives the text back, and no part holds a dot |
| Tokens.TokenReachesHandler | internal/middleware/jwt.go:28-75 | through the chain a signed token reaches the handler with its own user and its role, stray bytes replaced, exactly when that role is allowed, and is otherwise forbidden |
| Tokens.NoTokenNoEntry | internal/middleware/jwt.go:33-42 | a request without a token that parses is answered 401 and never reaches the handler |
| Tokens.BearerOnly | internal/middleware/jwt.go:109-115 | a token is what follows Bearer and a space, and nothing else is one |
| Tokens.RoleNeeded | internal/middleware/jwt.go:52-66 | a request passes the role check exactly when its role, or the empty one when it carries none, is allowed, and is otherwise answered 403 |
| Tokens.Chain | internal/middleware/jwt.go:70-75 | the loop from the right composes the middlewares with the first one outermost |
| Tokens.AllowedRoles | internal/middleware/jwt.go:52-56 | the set built by the loop holds exactly the roles listed |
| Secrets.ComparePassword | internal/security/password.go:19-38 | the scanning loop splits at the first dot and compares the hashes as the specification does |
| Secrets.StoredParts | internal/security/password.go:10-18 | the stored text is the encoded salt, a dot, and the encoded hash of salt and password; only an empty password has none |
| Secrets.PasswordRoundTrip | internal/security/password.go:10-38 | a stored hash is accepted with exactly the passwords that hash alike under its salt, so always with its own |
| Secrets.NoDotNoMatch | internal/security/password.go:19-38 | a stored text without a dot is accepted only if the hash is empty |
| Secrets.EncryptedParts | internal/security/crypto.go:18-36 | an encryption decodes to twelve zero bytes and the plaintext sealed under the hash of the passphrase with that nonce |
| Secrets.DecryptedParts | internal/security/crypto.go:37-62 | a decryption opens all after the first twelve bytes, with those as nonce, under the hash of the passphrase; anything shorter or not base64 does not decrypt |
| Secrets.EncryptionRoundTrip | internal/security/crypto.go:18-62 | decrypting an encrypted text under the same passphrase gives the plaintext |
| Secrets.EncryptionInjective | internal/security/crypto.go:18-36 | under one passphrase, different plaintexts have different encryptions |

## Left out

- The SQL text, the driver, retries and the connection pool: a statement that fails for any such reason, a serialization failure included, is a fault that may strike any statement. Deadlock freedom is about row and key locks.
- Foreign keys and the unique service uuid: a violation is one more way an insert may fail; only a service's order id is checked, because a link depends on it.
- Engine.SweepExpired: waits for all its rows at once rather than row by row; PostgreSQL would re-test each row after waiting for it.
- Engine.ProvisionService: takes days as exact seconds, where the code multiplies int64 nanoseconds; `Adapter.ExpiryExact` says when that is the same. Its insert and commit are one step.
- Calls.RunAlone: a second wallet of one user is never read, since the least id is taken where the SQL names no order; with one wallet per user (`Accounts.AtMostOneWallet`) nothing is lost.
- Serializable.InterleavingIsSerial: replays calls and job handlings from their first statement; single autocommitted statements (claims, done and failed marks, status changes, sweeps, inserts) are replayed as the write sets they committed, and a panel's answer as it was given.
- OrderService.Service.Pay: with Place and Finish holds the statements that Create and Renew have in common, which the source writes out twice; Original and Extend are the first and the last statements of Renew, and WalletService.WalletRepository.Credit and Finish those of ApplyTransaction.
- Soft deletion: deleted_at is never set by the code modelled, so no row is ever hidden.
- Columns that no modelled statement reads: timestamps, subscription URLs, panel tokens in the panels table, last_error, traffic used.
- Hub: the event bus, which has no subscriber, the JSON of a message and the text of a frame.
- Adapter.MultiPanelAdapter.Provision: the pauses between attempts; Client.CreateClient's HTTP exchange is an arbitrary answer.
- Login, listings, HTTP handlers, templates, the dashboard, audit and health probes: they would add only easy members.
- Token expiry: exp is written and, as in the code, never read.
