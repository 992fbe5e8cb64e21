# Verified model of the cost ledgers

The repository accounts for money before it is spent. A caller reserves an
estimate against a limit, runs an action, and then commits the actual cost or
releases the reservation. The same protocol is implemented five times, with
quite different concurrency and failure mechanics, and used through guard hooks
and quota middleware. This project models those implementations and proves what
they keep.

`Budgets` (budget.dfy) is the protocol as one abstract machine: money spent,
money held per reservation, a limit (negative means unlimited), and the steps
Reserve, Commit, Release, Expire and SetLimit. In a *prepaid* budget a Commit
additionally needs funds. Every backend is shown to refine it (two of them
exactly as long as no unguarded addition has overflowed): each of its steps is
a run of the machine, so what is proved of the machine's runs
(`WithinIffFunded`, `OvershootBound`, `PrepaidNeverOverdrawn`,
`SettledExactlyOnce`) holds of the backend.

| module | what it models | main results |
|---|---|---|
| `LocalAtomics` | the in-process ledger as single atomic loads, swaps and adds, any number of goroutines | counter meaning with no size assumption, when the limit is kept, refinement, lock-free progress of all goroutines |
| `LocalLedger`, `Report` | the same ledger as code: the retry loop against arbitrary interference, the one-shot handle, the 1024-entry ring and the report over it | ring and report refine a plain log |
| `Guard` | the After / OnPanic / OnCancel hooks on one reservation | the first hook decides, and what it charges; when the audit trail agrees with the spend |
| `Middleware` | the quota middleware composed with the abstract machine, under every environment | one run per grant, one settlement per run, no silent hold |
| `Wallet` | prepaid wallets: wallet, hold and entry tables, all-or-nothing transactions with ambiguous commits | never overdrawn, conservation, exactly-once settlement and credit, who may be charged, exact leases |
| `WalletLocks` | the same transactions interleaved read by read under the wallet's row lock | serialisability, no deadlock |
| `Monthly` | the PostgreSQL monthly ledger, statements of concurrent transactions interleaved under row locks | serialisability, no lost update, exact admission and leases, exactly when it deadlocks |
| `Redis` | three Lua scripts over a counter, keys and an expiry set, line by line | conservation, exact admission and leases, backlog drain, when keys can leak |
| `Storage`, `Decimal` | tenant budgets in one key-value record of decimal strings | exact int64 admission in any map order, life cycle under changing policy, holds stay settleable, round trips |

`Leases` is the reclaim statement the PostgreSQL ledgers share, `Costs` the
charge for a reported cost, `Int64` Go's 64-bit arithmetic (`Wrap` for silent
wrap-around, the newtype `int64` for arithmetic proved free of it), `Sums` sums
over finite maps, `Transactions` the three fates of a transaction: delivered,
lost, or applied although the client is told of a failure. Every class method
is proved against a specification function of the old state; the lemmas are
about those functions.

## Where the code does not do what one might expect

* **Audit without spend.** `After` on a reservation that `OnCancel` or `OnPanic`
  already released commits nothing and still records an audit event, because
  the second terminal call returns nil (adapters/kernel/guard.go:53-74,
  reservation.go:27-29). `Guard.AuditMatchesSpendIff` gives the exact condition
  and `Guard.CancelledYetAudited` the smallest case.
* **Deadlock in the monthly ledger.** `Reserve` locks the budget row and then
  deletes expired reservation rows; `Commit` and `Release` delete their row and
  then lock the budget row. All transactions in progress can run to their ends
  if and only if no `Reserve` among them meets a settlement of a reservation
  that had expired for it (`Monthly.CompletesIff`); from such a meeting on
  neither can commit until one is aborted (`Monthly.DeadlockLasts`), and it is
  reachable (`Monthly.DeadlockReachable`). A caller who settles before the
  lease ends never deadlocks (`Monthly.TimelyNeverDeadlocks`). Safety is not
  affected.
* **Zero estimates in Redis.** A reservation of 0 is granted and then answered
  "reservation not found" (adapters/redis/ledger.go:77-81):
  `Redis.SettleableIffPositive`.
* **Keys that die in Redis.** A reservation key is dropped a day after its lease
  ended (adapters/redis/ledger.go:50-51); if no script has reclaimed it by then,
  its amount stays counted for good (`Redis.LeakWitness`). On a server clock
  that does not run backwards, no key ever grows old enough to be dropped if and
  only if, whenever a day has passed since some time, the scripts of that day
  were enough for what was due at it: each reclaims 100 entries, and a Commit or
  Release of an overdue hold beyond its batch one more
  (`Redis.NoLeakIffMaintained`, over any mix of scripts). Then nothing leaks and
  the counter is exact.
* **Unlimited monthly scopes.** `Reserve` adds without an overflow guard.
  used_micros is right throughout a run if and only if no unlimited reservation
  overflows (`Monthly.NoLostUpdate`); one micro-unit on a full scope does
  (`Monthly.OverflowLosesTotal`).
* **Unguarded commits in memory.** The local `Commit` adds without an overflow
  guard. Totals fit in an int64 throughout a run if and only if every commit
  passes the guard it does not make (`LocalAtomics.FitIffCommitsFit`); `Reserve`
  needs no such condition. Two commits of the largest cost are enough to carry
  the total of a new ledger to 2^64 and its counter to 0, and the ledger then
  grants what its limit should refuse (`LocalAtomics.OutOfRangeReachable`).
* **Retries.** Failed swaps are not bounded by counter changes: for every n, one
  change can fail the swaps of n goroutines (`LocalAtomics.OneChangeFailsManySwaps`).
  They are bounded once every change is counted for each goroutine that was
  about to swap when it happened (`LocalAtomics.AllRetriesArePaidFor`), and so by
  the changes alone where each finds at most one (`LocalAtomics.UncontendedRetries`).
* **Concurrent callers and the limit.** README.md:111 promises that concurrent
  callers cannot exceed the limit. A commit may charge more than it reserved,
  so outside the wallet usage can pass any limit by any amount
  (`Budgets.OverLimitReachable`). It stays within the limit in exactly the runs
  whose every commit is covered by what the limit leaves beside the other holds
  when it is applied (`Budgets.WithinIffFunded`, and `WithinIffFunded` of
  `LocalAtomics`, `Monthly`, `Redis` and `Storage` for their own steps); however
  many callers reserve at once makes no difference. Otherwise it passes the
  limit by no more than commits overran their reservations
  (`Budgets.OvershootBound`), and nothing is admitted until it has drained
  (`Budgets.OverAdmitsNothing`).

## Model

| member | source | states |
|---|---|---|
| `Budgets.UsedAfter` | docs/semantics.md:3 | what each step of the protocol does to usage: a reservation adds, a release or expiry takes back exactly what was held, a commit replaces the hold by the actual cost |
| `Budgets.OvershootBound` | nexssflow/README.md:69 | over any run, with limits moving and holds expiring, usage is at most the highest limit (or the usage it began with) plus the sum of what commits charged beyond their reservations |
| `Budgets.WithinIffFunded` | README.md:111 | usage is within the limit in every state of a run if and only if every commit passes the funds guard of a prepaid budget and every new limit covers what is in use |
| `Budgets.OverLimitReachable` | README.md:111 | for every limit and every excess a run of two steps whose commit carries usage past the limit by that excess |
| `Budgets.OverAdmitsNothing` | nexssflow/README.md:69 | as long as usage is over the limit no reservation is admitted |
| `Budgets.PrepaidNeverOverdrawn` | nexssflow/README.md:79 | a prepaid budget within its limit stays within it over every run |
| `Budgets.SettledExactlyOnce` | docs/semantics.md:5 | spend grows by commits only, and every opening of a hold is matched by one closing or is still open |
| `Int64.WrapAdd` | reservation.go:31-34 | reducing modulo 2^64 before or after an atomic add makes no difference |
| `LocalAtomics.AdmitMeans` | ledger.go:68-81 | the two wrapping int64 guards hold exactly when the counter is non-negative, the sum fits and a limit, if any, covers it |
| `LocalAtomics.FreshLedger` | ledger.go:26-31 | a new ledger satisfies the invariant |
| `LocalAtomics.InvKept` | ledger.go:65-94 | every atomic step of every goroutine keeps: usedMicros is open holds, plus holds claimed but not yet adjusted, plus what was charged; spentMicros lags by exactly the commits between their two adds; each claimed hold has one claimant |
| `LocalAtomics.Conservation` | reservation.go:27-35 | the same in every reachable state of every interleaving, whatever commits charge and modulo 2^64 with no assumption on sizes |
| `LocalAtomics.NeverOverLimit` | ledger.go:65-94 | if commits report at most their estimates, then 0 <= used <= limit and used is the exact total in every reachable state, ABA on the counter included |
| `LocalAtomics.StepRefines` | reservation.go:27-35 | each atomic step is one budget step or none, Reserve taking effect at its swap and settlement at its add to usedMicros, if and only if it is not a grant under a limit on a total that has left the int64 range |
| `LocalAtomics.TraceRefines` | ledger.go:65-94 | an interleaving is a run of the budget machine if and only if none of its steps is such a grant |
| `LocalAtomics.FitIffCommitsFit` | reservation.go:31 | totals fit in an int64 throughout a run if and only if the add of every commit does, and then the run refines the budget |
| `LocalAtomics.OutOfRangeReachable` | reservation.go:31 | a run of a new ledger with a limit of 2 whose total reaches 2^64 and which then grants a further reservation |
| `LocalAtomics.WithinIffFunded` | README.md:111 | in every interleaving the counter stays exact and within the limit if and only if every settlement, when it is added, leaves the counter within the limit; no assumption on the size of totals |
| `LocalAtomics.UsageBound` | ledger.go:76-83 | with a limit, the counter passes it by no more than commits overran their reservations, even if totals leave the int64 range |
| `LocalAtomics.DenialIsExact` | ledger.go:66-81 | the budget admits an estimate and the new total fits if and only if the Reserve goes on from its load and the total fits: no Reserve is wrongly turned away |
| `LocalAtomics.RetriesArePaidFor` | ledger.go:83-93 | every failed swap of a goroutine is paid for by its own counter change of another goroutine since the paired load |
| `LocalAtomics.AllRetriesArePaidFor` | ledger.go:83-93 | all failed swaps of all goroutines together are paid for by counter changes, each counted once for every goroutine about to swap when it happened |
| `LocalAtomics.UncontendedRetries` | ledger.go:83-93 | where each change of the counter finds at most one goroutine about to swap, changes bound the retries of all goroutines |
| `LocalAtomics.OneChangeFailsManySwaps` | ledger.go:83-93 | for every n a run of a new ledger in which one change fails the swaps of n goroutines, so counting changes alone does not bound retries |
| `LocalLedger.Ledger.Reserve` | ledger.go:49-94 | against any interference: it retries only after a real change of the counter, grants or denies exactly by the counter at its last load, and rejects bad contexts and estimates first |
| `LocalLedger.Ledger.Record` | ledger.go:96-130 | appends one event to the log with currency and time filled in, or changes nothing and says why |
| `LocalLedger.Ledger.Entries` | ledger.go:132-147 | the last min(n, 1024) events in order, out of the ring, the uint64 head wrapping included |
| `LocalLedger.LocalReservation.Commit` | reservation.go:14-38 | charges on the first terminal call on a live context, negative costs as zero, and changes nothing on any other |
| `LocalLedger.LocalReservation.Release` | reservation.go:40-56 | gives the hold back on the first terminal call on a live context, and changes nothing on any other |
| `LocalLedger.SettleIsItsSteps` | reservation.go:23-35 | run without interruption, the atomic steps of a terminal call have exactly the effect specified for the call |
| `LocalLedger.SameSlot` | ledger.go:124-127 | a head that wrapped at 2^64 still names the right ring slot |
| `Report.FirstSeenOrder` | nexssflow/report.go:34-46 | bucket keys are distinct, are exactly the keys that occur, every event has the bucket of its domain and operation, and they come in the order of their first occurrences |
| `Report.BucketsAddUp` | nexssflow/report.go:44-45 | counts and sums of the buckets add up to those of the entries |
| `Report.BucketMeans` | nexssflow/report.go:32-46 | a bucket carries its own domain and operation, counts exactly the events that have both, and sums their costs |
| `Report.Aggregate` | nexssflow/report.go:30-51 | the aggregation loop yields one bucket per key in that order, with the count and the wrapped int64 sum of its events |
| `Guard.SettledIsFinal` | reservation.go:27-29 | no sequence of hooks changes an account that is already settled |
| `Guard.FirstHookWins` | adapters/kernel/guard.go:35-82 | in any order and multiplicity of After, OnPanic and OnCancel, the first hook alone decides both counters |
| `Guard.ChargedAsReported` | adapters/kernel/guard.go:41-82 | whatever hooks follow, the first charges what a successful run reported, nothing if that is negative, the estimate if it reported nothing, and nothing after an error, a panic or a cancellation; the whole hold is given back, and the first hook audits what it charges |
| `Guard.AuditedIsEverySuccess` | adapters/kernel/guard.go:57-73 | the audit trail grows by the cost of every successful After, settled already or not |
| `Guard.AuditMatchesSpendIff` | nexssflow/dynamic_guard.go:54-76 | audit and spend agree if and only if no hook after the first reports a positive cost |
| `Guard.CancelledYetAudited` | adapters/kernel/guard.go:53-82 | OnCancel followed by a successful After spends nothing and audits the whole estimate |
| `Guard.Guarded.Run` | adapters/kernel/guard.go:35-104 | one hook against the real local ledger does to the account and the audit log exactly what the hook specification says |
| `Middleware.ProperMeans` | nexssflow/postgres.go:199-246 | in a proper request the target runs once if and only if the reservation was granted, and every run has one successful commit or one release attempt, never both and never neither |
| `Middleware.ChargedPerRequest` | nexssflow/postgres.go:221-225 | what a stretch of a run adds to the spend is the sum of what the request was charged and what all others were |
| `Middleware.Host.Reserve` | nexssflow/postgres.go:191-197 | the abstract Reserve under any weather: grant, denial, failure or panic, with or without its effect, and one step of its own id at most |
| `Middleware.Host.Settle` | nexssflow/postgres.go:412-419 | the abstract Commit or Release under any weather; when nothing fails it succeeds exactly when the machine enables it |
| `Middleware.Host.Meanwhile` | nexssflow/postgres.go:217 | other requests, lapsing leases and policy changes use the same budget while the target runs: they can end this lease and touch nothing else of it |
| `Middleware.Host.Conclude` | nexssflow/postgres.go:217-243 | from the return of the target to the deferred cleanup: settled means committed, and the spend grew by what the target reported, by nothing if that is negative, by the estimate if it reported nothing; a positive charge is recorded once, except in wallet mode; an error or panic of the target is passed on; and when the budget enables the commit and nothing fails it is settled |
| `Middleware.Host.Cleanup` | nexssflow/postgres.go:200-215 | a settled request is left alone; any other gets one release attempt, whose failure becomes an error unless a panic is being re-raised |
| `Middleware.Host.Run` | nexssflow/postgres.go:199-245 | the target, what others do meanwhile, settlement and cleanup: one commit or one release attempt, and an affordable cost on a live lease is committed |
| `Middleware.Host.Handle` | nexssflow/postgres.go:180-246 | for every environment, other requests included: proper call order, and no call at all without estimate and identity; of its own id at most a reservation and then one commit, of the reported cost, zero if negative, the estimate if none, or one release; a positive charge recorded once except in wallet mode; all other steps are those of others; success exactly if committed, recorded where due and answered with an object, and a denial answered without running; a hold left behind comes with an error or a panic; and with a healthy backend a covered request runs, a completed run is committed (in wallet mode if it cost no more than its estimate or still fits), any other run is released |
| `Wallet.AttemptRefines` | nexssflow/wallet.go:35-360 | every transaction keeps the invariant and is, for its own wallet, reclaiming followed by at most one step of the prepaid budget; for every other wallet nothing |
| `Wallet.RunRefines` | nexssflow/wallet.go:35-360 | over any run by anyone with any failures: reserved equals the hold rows of each wallet, 0 <= reserved <= balance, balance equals credits minus debits, and each wallet goes through a prepaid budget run |
| `Wallet.FromEmptyTables` | nexssflow/examples/durable_quota/schema.sql:20-58 | all of that holds of a database that starts with empty tables |
| `Wallet.AbsMeans` | nexssflow/examples/durable_quota/schema.sql:25-32 | in budget terms the available balance is limit minus usage and is never negative |
| `Wallet.ReclaimedKeeps` | nexssflow/wallet.go:110-133 | reclaiming keeps the invariant, is one Expire step, and touches no other wallet |
| `Wallet.EntryBooksItsBalance` | nexssflow/wallet.go:290-306 | each transaction moves the balance by exactly the entry it books under its key; entries never change |
| `Wallet.KeyBooksOnce` | nexssflow/examples/durable_quota/schema.sql:47-58 | over any run with retries, ambiguous commits and crashes, settlements and credits under one key move the balance by one immutable entry in all |
| `Wallet.CreditReplay` | nexssflow/examples/durable_quota/schema.sql:108-129 | a credit that took effect is acknowledged and does nothing ever after, among any other transactions; its key is refused to any other amount |
| `Wallet.SettledOnce` | nexssflow/wallet.go:236-360 | over any run a hold is removed at most once, whichever of reclaim, commit and release comes first |
| `Wallet.GoneForGood` | nexssflow/wallet.go:271-279 | once a hold is gone every later Commit or Release of it changes nothing and never reports success |
| `Wallet.AdmissionExact` | nexssflow/wallet.go:50-72 | Reserve grants exactly when the balance covers the estimate beside the wallet's holds whose lease has not ended, and denies in every other case; grant or denial, the expired holds are durably gone |
| `Wallet.SettlementExact` | nexssflow/wallet.go:270-311 | Commit is refused as not found exactly when the lease expired, as exceeded exactly when what is left beside all other holds does not cover the actual cost, and charges exactly in all other cases, except that a debit is refused if its key is taken |
| `Wallet.OnlyActiveOwners` | nexssflow/wallet.go:190-227 | Reserve and Commit of anyone change a wallet, or answer anything but a refusal, only if it is active, the caller gives its own tenant, user and currency, and both of these are active; to such a caller they refuse nothing but an estimate out of range, a used id and a debit under a used key |
| `Wallet.FrozenNeverCharged` | nexssflow/wallet.go:46-48 | over any run in whose every state a wallet, its tenant or its user is suspended, no hold is added and no debit booked, its balance moves by credits alone, and Reserve and Commit are refused |
| `Wallet.SuspensionLasts` | nexssflow/examples/durable_quota/schema.sql:27 | which is so from a suspension of the wallet until it is set active again |
| `Wallet.OwnerSuspensionLasts` | nexssflow/examples/durable_quota/schema.sql:4-18 | and from one of its tenant or user until both are active |
| `Wallet.HoldStep` | nexssflow/wallet.go:110-119 | other transactions leave a hold as it is, except that a Reserve on its wallet that is not refused removes it if and only if its lease has ended |
| `Wallet.HeldForItsLease` | nexssflow/wallet.go:135-144 | over any run of other transactions a granted reservation is not found exactly from the end of its lease on, one second at least, or once a Reserve on the wallet for which the end had come has reclaimed it; until then a Commit of up to the estimate succeeds |
| `Wallet.ReleaseExact` | nexssflow/wallet.go:313-360 | Release is refused exactly to a caller who gives another tenant, user or currency, succeeds exactly if the hold is there, and frees its amount and nothing else, at any time and whatever the status of the owner |
| `Wallet.ReleasableWhileHeld` | nexssflow/wallet.go:332-357 | so over any run a hold can be released for as long as it is there |
| `Wallet.CreditExact` | nexssflow/examples/durable_quota/schema.sql:96-130 | exactly when a credit succeeds, and that a new key moves the balance by its amount while a used one changes nothing |
| `Wallet.CreditMakesRoom` | nexssflow/examples/durable_quota/schema.sql:112-118 | a new credit raises what Reserve admits by exactly its amount |
| `Wallet.OpenExact` | nexssflow/examples/durable_quota/seed.sql:14-21 | exactly when a wallet is opened, and that it is then active with that balance and its opening entry |
| `Wallet.OwnersStayUnique` | nexssflow/examples/durable_quota/schema.sql:30 | over any run nobody comes to have two wallets in one currency |
| `Wallet.AnswersAreTrue` | nexssflow/wallet.go:57-71 | any answer but a refusal is what happened to the tables; a refusal replaces it exactly if the transaction was lost, or committed while COMMIT reported a failure, a denial included |
| `Wallet.AmbiguousCommit` | nexssflow/wallet.go:307-309 | a commit that was applied while the client was told of a failure has settled its hold: a retry after any run finds nothing and charges nothing |
| `Wallet.InvSizes` | nexssflow/wallet.go:54-68 | the sizes that keep all Go arithmetic in int64 follow from the invariant alone, so "invalid balance" and "invariant violated" cannot happen |
| `Wallet.OpenMoves` | nexssflow/examples/durable_quota/seed.sql:14-21 | a wallet created together with its opening credit satisfies the invariant and touches no other wallet |
| `Wallet.SeedingAgain` | nexssflow/examples/durable_quota/seed.sql:1-2 | seeding a wallet again after any run changes nothing, whatever its balance has become |
| `Leases.DeleteReturning` | nexssflow/wallet.go:112-119 | deletes exactly the given rows and returns the sum of their amounts, in any row order |
| `Wallet.ReclaimStatements` | nexssflow/wallet.go:110-133 | the reclaim statements, in int64, are the specified reclaim |
| `Wallet.ReserveStatements` | nexssflow/wallet.go:35-73 | the statements of Reserve, in int64 without overflow, are the specified transaction |
| `Wallet.CommitStatements` | nexssflow/wallet.go:236-268 | Commit clamps a negative cost, checks wallet, tenant and user, and settles as specified |
| `Wallet.SettleStatements` | nexssflow/wallet.go:270-311 | the statements of settle, in int64 without overflow, are the specified settlement |
| `Wallet.ReleaseStatements` | nexssflow/wallet.go:332-357 | the statements of Release are the specified transaction: any owner status, expired holds included |
| `Wallet.CreditStatements` | nexssflow/examples/durable_quota/schema.sql:96-130 | cost_credit_wallet, statement by statement, is the specified credit |
| `Wallet.Database.Reserve` | nexssflow/wallet.go:35-73 | from any state satisfying the invariant the whole call is one specified transaction with its fate |
| `Wallet.Database.Commit` | nexssflow/wallet.go:236-311 | the same for the settlement transaction |
| `Wallet.Database.Release` | nexssflow/wallet.go:327-357 | the same for the release transaction |
| `Wallet.Database.CreditWallet` | nexssflow/examples/durable_quota/schema.sql:83-131 | the same for the credit function |
| `Wallet.Reservation.Commit` | nexssflow/wallet.go:236-268 | the handle stops after one reported success and otherwise runs one settlement transaction |
| `Wallet.Reservation.Release` | nexssflow/wallet.go:313-360 | the handle stops after one reported success and otherwise runs one release transaction |
| `WalletLocks.AttemptIsLocal` | nexssflow/wallet.go:190-227 | a transaction does the same whether it sees all tables or only its own wallet's row, holds and entries |
| `WalletLocks.InvKept` | nexssflow/wallet.go:198-208 | under the row lock what a transaction has read of its wallet, at whatever different times, is still so |
| `WalletLocks.WrittenIsSerial` | nexssflow/wallet.go:35-360 | a commit is its transaction run alone on the tables as they are, with the owners' status as it was when the wallet was locked |
| `WalletLocks.InterleavingsAreRuns` | nexssflow/README.md:77 | whatever is interleaved, delayed or aborted, the tables are those of a run of whole transactions one after another |
| `WalletLocks.AloneIsAttempt` | nexssflow/wallet.go:35-360 | and every whole transaction on a wallet is an interleaving: run alone, read after read, it leaves what it is specified to leave |
| `WalletLocks.NeverDeadlocks` | nexssflow/wallet.go:198-208 | from any state all transactions in progress can commit, with no abort and no help |
| `WalletLocks.InterleavedNeverOverdrawn` | nexssflow/README.md:79 | no interleaving overdraws a wallet, breaks conservation, or leaves the prepaid budget's runs |
| `Monthly.InvKept` | adapters/postgres/ledger.go:123-329 | between any two statements of any transactions, what each has read is still true under the locks it holds |
| `Monthly.InvThroughout` | adapters/postgres/ledger.go:123-329 | the same in every reachable state, whatever is interleaved and aborted |
| `Monthly.CommitsAreSerial` | adapters/postgres/ledger.go:151-183 | committed data change only when a transaction commits, and then as if it had run alone |
| `Monthly.TestedIsLive` | adapters/postgres/ledger.go:354-376 | the counter Reserve tests is committed usage plus unexpired rows only |
| `Monthly.AdmissionExact` | adapters/postgres/ledger.go:156-181 | Reserve grants exactly if there is no limit or committed usage, unexpired reservations and the estimate are together within it, denies in every other case, and leaves the unexpired rows, and the new one if granted, with the total right |
| `Monthly.GrantIsExact` | adapters/postgres/ledger.go:151-185 | the same in every interleaving, for what is committed when the Reserve commits |
| `Monthly.SettlementExact` | adapters/postgres/ledger.go:258-275 | a settlement is not found exactly if there is no row, succeeds exactly if there is one, expired or not, and the new total fits in a bigint, which after a Release it always does |
| `Monthly.AttemptIsSerial` | adapters/postgres/ledger.go:151-183 | the transaction as issued and the one of the interleaved system have the same effect, and an error has none |
| `Monthly.AloneIsAttempt` | adapters/postgres/ledger.go:123-329 | each transaction, uninterrupted, is a run of the interleaved system that leaves exactly what the transaction is specified to leave |
| `Monthly.AnswersAreTrue` | adapters/postgres/ledger.go:156-185 | the client is told of a failure exactly if the transaction was lost, or committed, a denial included, while COMMIT reported a failure |
| `Monthly.GrantedRow` | adapters/postgres/ledger.go:164-172 | a granted reservation is stored with its estimate and a lease of the given seconds, one at least |
| `Monthly.LeaseExact` | adapters/postgres/ledger.go:354-362 | over any interleaving of other transactions it stays, amount unchanged, if and only if no Reserve commits for which its lease has ended |
| `Monthly.SerialRefines` | adapters/postgres/ledger.go:156-179 | from a right counter each transaction is reclaiming followed by at most one budget step, and it keeps used_micros equal to committed usage plus reservation rows if and only if it does not overflow |
| `Monthly.SerialSteps` | adapters/postgres/ledger.go:164-183 | a transaction is steps of the budget machine if and only if it is not a grant under a limit on a total that has left the int64 range |
| `Monthly.BalancedIffNoOverflow` | adapters/postgres/ledger.go:174-181 | that equality survives a transaction if and only if it is not an unlimited-scope reservation whose addition overflows |
| `Monthly.OverflowLosesTotal` | adapters/postgres/ledger.go:174-179 | a full unlimited scope grants one micro-unit more and its counter becomes the least int64 |
| `Monthly.NoLostUpdate` | adapters/postgres/ledger.go:258-278 | over any interleaving with any aborts the equality holds in every state if and only if no unlimited reservation overflows, although Reserve writes absolute values and settlements relative ones |
| `Monthly.TraceRefines` | adapters/postgres/ledger.go:123-329 | the counter is always right modulo 2^64, and an interleaving is a run of the budget machine, one transaction at a time, if and only if each grant under a limit finds a total that fits in an int64 |
| `Monthly.NoOverflowInRange` | adapters/postgres/ledger.go:123-329 | which every grant does where no unlimited reservation overflows |
| `Monthly.UnlimitedRefines` | adapters/postgres/ledger.go:164-183 | a scope that never has a limit goes through a run of the budget machine whatever overflows |
| `Monthly.LimitRefines` | nexssflow/postgres.go:312-335 | changing the limit of a scope keeps spend and holds |
| `Monthly.UsageBound` | adapters/postgres/ledger.go:156-179 | usage passes the highest limit by no more than commits overran their reservations |
| `Monthly.WithinIffFunded` | README.md:111 | in every interleaving used_micros stays within the limit if and only if every commit and every limit change is covered when it takes effect |
| `Monthly.BlockedIsDeadlock` | adapters/postgres/ledger.go:354-362 | a Reserve blocked on an expired row waits for a settlement that can itself only abort |
| `Monthly.StuckIffExpired` | adapters/postgres/ledger.go:354-362 | a Reserve reclaiming and a settlement waiting block each other if and only if the row settled had expired when the Reserve began |
| `Monthly.DeadlockLasts` | adapters/postgres/ledger.go:258-275 | from the meeting of a Reserve with a settlement expired for it, already before the DELETE, neither can commit until one of the two is aborted |
| `Monthly.Progress` | adapters/postgres/ledger.go:123-329 | nothing else blocks: without such a pair some transaction in progress can go on |
| `Monthly.CompletesIff` | adapters/postgres/ledger.go:123-329 | all transactions in progress can run to their ends without a victim if and only if there is no such pair |
| `Monthly.TimelyNeverDeadlocks` | adapters/postgres/ledger.go:233-282 | if no settlement is on when its lease has ended for a Reserve in progress, no reachable state has such a pair |
| `Monthly.DeadlockReachable` | adapters/postgres/ledger.go:258-278 | a three-statement run from a quiet state into the deadlock |
| `Monthly.ReserveStatements` | adapters/postgres/ledger.go:151-183 | the statements of Reserve are the specified transaction, for any scope the columns can hold |
| `Monthly.SettleStatements` | adapters/postgres/ledger.go:258-275 | the statements of Commit and Release are the specified transaction, out-of-range totals rolling back |
| `Monthly.Ledger.Reserve` | adapters/postgres/ledger.go:123-191 | validation, then one specified transaction with its fate; a denial makes the reclaim durable |
| `Monthly.Reservation.Settle` | adapters/postgres/ledger.go:284-329 | the handle stops after one reported success and otherwise runs one settlement transaction |
| `Monthly.Reservation.Commit` | adapters/postgres/ledger.go:233-282 | the same for Commit, a negative cost charged as zero; expired holds are accepted |
| `Monthly.Reservation.Release` | adapters/postgres/ledger.go:284-329 | the same for Release; expired holds are accepted |
| `Redis.ApplyKeeps` | adapters/redis/ledger.go:25-122 | every script run, error replies after writing included, keeps the counter equal to committed usage plus stored keys plus leaked amounts, keeps keys and sorted set on the same ids, and is reclaiming followed by at most one budget step; a key dies a day after its lease at the earliest |
| `Redis.TraceRefines` | adapters/redis/ledger.go:18-122 | the same over any run: each hold is subtracted once, whichever of reclaim, commit and release comes first |
| `Redis.SameIds` | adapters/redis/ledger.go:33-34 | over any run in which no key dies, keys and sorted set hold the same ids and nothing leaks |
| `Redis.UsageBound` | adapters/redis/ledger.go:42-48 | with a limit, committed usage and stored holds pass it by no more than commits overran their reservations |
| `Redis.WithinIffFunded` | README.md:111 | the counter stays within the limit over a run if and only if every commit that finds its hold is covered, whatever backlog or leak is counted |
| `Redis.AdmissionExact` | adapters/redis/ledger.go:42-54 | grant and denial exactly, by the counter with backlog and leak; a grant keeps committed usage and stored holds within the limit; without a limit nothing is denied |
| `Redis.AdmissionWithoutBacklog` | adapters/redis/ledger.go:25-48 | with at most 100 entries due and nothing leaked, Reserve grants exactly if there is no limit or committed usage, unexpired reservations and the estimate are together within it |
| `Redis.SettleableIffPositive` | adapters/redis/ledger.go:77-81 | a granted reservation can be settled by its holder before its lease ends, whatever other scripts run meanwhile, if and only if its estimate was positive |
| `Redis.SettledStays` | adapters/redis/ledger.go:108-114 | a reservation whose key is gone can never be settled again |
| `Redis.BatchDrains` | adapters/redis/ledger.go:26 | a batch takes exactly min(100, backlog) of the entries due at any earlier time |
| `Redis.ScriptDrains` | adapters/redis/ledger.go:25-35 | of the entries due at an earlier time each script run drains exactly min(100, backlog), denied or not, and a settlement beyond its batch its own |
| `Redis.BacklogDrains` | adapters/redis/ledger.go:63-72 | what is left of the entries due at time t after any mix of scripts, to the entry, no matter what expires meanwhile |
| `Redis.DrainedKeys` | adapters/redis/ledger.go:25-35 | after enough scripts for what was due at time t no key is left whose lease ended by t |
| `Redis.AbandonedIsReclaimed` | adapters/redis/ledger.go:26-52 | a granted reservation left alone is gone once its lease of ttl seconds has ended and as many scripts have run from then on as 100 at a time need for what was due |
| `Redis.LeaseExact` | adapters/redis/ledger.go:25-52 | after any scripts of others before the end of a lease the next one leaves the reservation if and only if the end has not come, with at most 100 entries due |
| `Redis.DeathPossibleIff` | adapters/redis/ledger.go:26 | after any mix of scripts a key due at time t can die a day later if and only if the scripts were too few for what was due at t |
| `Redis.NoLeakIffMaintained` | adapters/redis/ledger.go:50-51 | over any run, no key ever grows old enough to die if and only if within a day of any time the scripts were enough for what was due at it; and then the counter is exactly committed usage plus stored reservations |
| `Redis.LeakWitness` | adapters/redis/ledger.go:50-51 | for every positive estimate a run that leaks all of it |
| `Redis.RangeByScore` | adapters/redis/ledger.go:26 | ZRANGEBYSCORE with LIMIT 0 100: distinct due ids, the oldest ones, as many as fit |
| `Redis.Ledger.Reclaim` | adapters/redis/ledger.go:25-35 | the reclaim loop subtracts each batch member once and removes key and score |
| `Redis.Ledger.RunReserve` | adapters/redis/ledger.go:18-55 | the reserve script, line by line, is its specification for some oldest batch |
| `Redis.Ledger.RunCommit` | adapters/redis/ledger.go:57-89 | the terminal script is its specification, a script that reclaims its own id included |
| `Redis.Ledger.RunRelease` | adapters/redis/ledger.go:91-122 | the release script is its specification |
| `Redis.Ledger.Reserve` | adapters/redis/ledger.go:168-209 | validation, then at most one script run, whose failure report may hide an applied one |
| `Redis.Reservation.Commit` | adapters/redis/ledger.go:247-278 | the handle stops after one reported success and otherwise runs one terminal script |
| `Redis.Reservation.Release` | adapters/redis/ledger.go:280-307 | the handle stops after one reported success and otherwise runs one release script |
| `Decimal.FormatValue` | nexssflow/storage_backend.go:390 | what is formatted is all digits with no leading zero and denotes the amount |
| `Decimal.RoundTrip` | nexssflow/storage_backend.go:249-255 | every non-negative int64 reads back from its decimal string |
| `Decimal.ParseIntExact` | nexssflow/storage_backend.go:249-255 | for every string: an optional sign and at least one digit, read by value, is accepted exactly if it fits in an int64 |
| `Decimal.LeadingZero` | nexssflow/storage_backend.go:250 | a leading zero makes no difference |
| `Storage.DecodeEncode` | nexssflow/storage_backend.go:214-247 | decoding yields valid records only, is idempotent, and inverts encoding exactly on valid records |
| `Storage.ReadableIff` | nexssflow/storage_backend.go:214-247 | exactly which stored values can be read, and what is read from them, an absent spend as zero |
| `Storage.UpdateRefines` | nexssflow/storage_backend.go:271-428 | each atomic update errors and leaves the stored value as it was, or is one budget step |
| `Storage.FailsClosed` | nexssflow/README.md:85 | without a readable policy no update grants or reports exhaustion and none changes the record, except that a first budget starts an empty one |
| `Storage.LifeCycle` | nexssflow/storage_backend.go:166-428 | over any mix of policy changes, reservations, settlements and failures the record stays readable, stored spend grows by exactly the committed actuals, and the tenant goes through a budget run |
| `Storage.UsageBound` | nexssflow/README.md:87-89 | usage passes the highest limit ever set by no more than commits overran their reservations |
| `Storage.WithinIffFunded` | nexssflow/README.md:87 | usage stays within the policy over a run if and only if every commit and every policy change is covered when it takes effect |
| `Storage.PolicyNeverBlocks` | nexssflow/README.md:87 | a policy change keeps spend and holds and never changes the answer to an in-flight Commit or Release |
| `Storage.AdmissionExact` | nexssflow/storage_backend.go:300-327 | Reserve grants exactly what the abstract budget admits, is invalid exactly if the policy cannot be read or the total exceeds MaxInt64, and exceeded otherwise; a grant stores the hold and nothing else changes |
| `Storage.SettlementExact` | nexssflow/storage_backend.go:370-422 | a Commit succeeds exactly if the reservation is on record and the new spend fits in an int64, whatever was reserved; a Release exactly if it is on record; each is not found exactly if it is not; and what each stores |
| `Storage.StaysSettleable` | nexssflow/README.md:87 | over any run of other updates, policy changes included, a reservation on record stays there with its amount and can be settled |
| `Storage.PolicyExact` | nexssflow/storage_backend.go:173-191 | a policy is stored exactly if it is not negative and there is no record yet or a readable one, and then it is what Reserve goes by |
| `Storage.AnswersAreTrue` | nexssflow/storage_backend.go:292-331 | the caller is told of a failure exactly if the update was lost, or applied while the store reported a failure |
| `Storage.Admit` | nexssflow/storage_backend.go:300-325 | for every map order the int64 loop decides by the mathematical total: invalid if and only if it exceeds MaxInt64, exceeded if and only if it passes the limit, granted otherwise |
| `Storage.Tenant.SetRuntimeBudget` | nexssflow/storage_backend.go:166-196 | one specified update with its fate, creating the record if absent |
| `Storage.Tenant.Reserve` | nexssflow/storage_backend.go:271-333 | validation, then one specified update with its fate |
| `Storage.Reservation.Commit` | nexssflow/storage_backend.go:355-398 | the handle stops after one reported success and otherwise runs one specified update; an error after the delete leaves the record untouched |
| `Storage.Reservation.Release` | nexssflow/storage_backend.go:400-428 | the handle stops after one reported success and otherwise runs one specified update |

## Left out

- Redis.TraceRefines: Lua numbers are modelled as exact integers, so the claims are for amounts and totals below 2^53; amounts of keys that die by themselves appear as a leaked amount.
- Redis.NoLeakIffMaintained: takes the Redis server clock not to run backwards.
- One scope of the monthly ledger is modelled; scopes share nothing but their tables.
- Monthly.Reservation.Settle: the reservation amounts of the scope are taken not to be negative, which Reserve sees to.
- Monthly.InvKept: a settlement that finds no row changes nothing and is no step of the interleaved model; the deadlock detector and lock timeouts appear as an abort step that may strike any transaction at any time.
- Guard.Guarded.Run: the five-second accounting deadline is taken never to pass, since local terminal calls do not block.
- WalletLocks.InterleavingsAreRuns: reservation ids of transactions in progress are distinct and unused; opening a wallet and changing a status are single statements; foreign keys to tenants and users are not modelled.
- Reservation ids are fresh and key digests injective: random generation and SHA-256 are not modelled.
- Time is an arbitrary number given to each step, so no clock needs to be monotone except where a lemma compares times; deadlines, logging and client-side retries of the Redis script are not modelled.
- Drivers, pools, DSNs, schema creation and JSON byte syntax: a stored record is its fields, and an atomic key-value update stores only when its callback returns no error.
- Record of the durable backends, which changes no balance, and the usage tables it fills.
- Estimate parsing and resolution (nexssflow/estimate.go), floating point, reflection, currency text, option parsing, identifier checks and snapshot fields: short case analyses with nothing to prove across steps.
- The Flow compiler and the action kernel that call the hooks and middleware.
