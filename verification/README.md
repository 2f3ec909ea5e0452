# txmill: a verified model of the relay protocol

txmill is a single-process relayer for EVM chains. A caller asks it to send a transaction; it records the
request, borrows one of the application's signers, takes a nonce, writes an attempt row, broadcasts, and leaves
the rest to a receipt watcher, a webhook worker and a gas worker. This project models that behaviour in Dafny
and proves what holds in every run: any number of concurrent calls, any interleaving, any failing statement,
any crash and restart.

`dafny verify dfyconfig.toml` checks everything.

## Layout

| files | subject |
|---|---|
| `Common` | options, duplicate-free sequences, 64-bit counters |
| `Signer` | the nonce counter of one signer |
| `RelayState`, `RelaySteps` | database rows, chain and process memory; one atomic step per SQL statement or transaction, RPC, mutex section and channel operation |
| `RelayInv`, `RelayPoolProof`, `RelayNonceProof`, `RelayRowProof`, `RelayNotify` | the invariants and why every step keeps them |
| `RelayTheorems`, `RelayProgress`, `RelayAbandon`, `RelayReports` | what follows for every reachable state and every run |
| `RelayWatch`, `RelayWall`, `RelayBatch`, `RelaySettle`, `RelayFate` | how long an attempt waits for the watcher, which attempts block it for ever, and exactly what can still change |
| `RelayOverwrite`, `RelayRefused` | concrete runs: a final status overwritten, a watcher stopped by a crash, a retry refused |
| `RelayCall`, `RelaySubmit` | `Service.Submit` as a program, statement by statement, with arbitrary steps of everybody else in between |
| `Recovery` | the startup report |
| `WatcherQueue`, `RelayTick` | the receipt watcher's tick as a program, and as a run of the state machine |
| `Webhook`, `WebhookLiveness` | the delivery queue: bounded retries, spacing, no starvation, termination |
| `Gas`, `GasBounds`, `GasThrash`, `GasPolicy` | the gas worker, its rate and spending bounds, the policy check |
| `Throttle` | the alert throttle |

## The relay state machine

`RelayState.State` holds the rows of `signers`, `relay_requests`, `tx_attempts` and `webhook_deliveries`, the
chain (accepted transactions per account, receipts), the loaded pools with their idle queues and nonce counters,
one thread per `Submit` in flight (its next statement and the signer it holds) and the watcher. `RelaySteps.Step`
lists all steps; `RelaySteps.Apply` is their effect; `Reachable` is what finite runs from empty tables reach. A
database write has three outcomes: it succeeds, it fails, or it commits and reports an error. `Crash` forgets
pools, threads and the watcher's batch and keeps rows and chain. `log`, `dropped`, `tries` and `lost` are history
variables: nothing reads them.

`RelaySubmit.Relayer.Submit` is the source's `Submit` as a program over that state. Before each of its statements
others may take any steps, given by the parameter `others`; the answers of clock, database, keystore and RPC are
the parameter `fate`.

### Hypotheses

- `SendTransaction` is atomic, and an error means that the chain did not accept (internal/signer/signer.go:25-28).
- `PendingNonceAt` is the account's first nonce plus the transactions accepted since; accepted transactions are
  not dropped. Nonces are per account, as in section 6 of the Ethereum Yellow Paper. That every broadcast carries
  the pending nonce is proved, not assumed: the modelled node takes a transaction with any nonce.
- A receipt exists only for an accepted transaction and never changes.
- Signer and treasury keys are used by this process only; there is one process and one monotone clock.
- Hashing is injective, so a transaction stands for its hash. The unique index on `tx_hash` and the primary key
  of `signers` are enforced by the database (migrations/00003_relay.sql:33, migrations/00002_apps_signers.sql:16).

### What the code does that its documentation does not say

- A final status is not always final. The watcher also examines `submitting` attempts and `markSubmitted` writes
  without looking, so `confirmed` can become `submitted` and then `confirmed` again
  (`RelayOverwrite.ConfirmedThenSubmittedThenConfirmed`). It happens at most once per request and exactly while
  the request's own `Submit` is between broadcast and marking
  (`RelayTheorems.TerminalIsAbsorbingIffSubmitIsPastMarking`). A webhook saying `submitted` may carry receipt fields.
- docs/integration.md:332-352 promises a terminal request status `failed`. No statement writes it: after a failed
  signature, insert or broadcast the request stays `pending` in every continuation (`RelaySubmit.Relayer.Submit`,
  `RelayFate.UnsentForever`), and once its attempt is marked failed the startup report lists it nowhere
  (`Recovery.ReportMissesFailedAttempts`).
- An error from `Submit` means that the transaction is never sent, with one exception: the error of
  `markSubmitted` is returned for a transaction that is on its way.
- A crash between the attempt row and its broadcast, or an unlucky write error, leaves a doomed attempt: open for
  ever, never accepted. `batchSize` of them stop the watcher for everything younger
  (`RelayWall.DoomedStopTheWatcher`; with a batch size of one a single crash does it,
  `RelayRefused.OneCrashStopsTheWatcher`). That is the only obstacle: an accepted attempt can still be settled if and
  only if it is in the current batch or fewer than `batchSize` doomed attempts are older (`RelaySettle.SettledIff`).
- The uniqueness of `tx_hash` bites: after a refused broadcast the nonce is reused, and an identical call then
  yields an identical transaction, which the index refuses (`RelayRefused.IdenticalRetryIsRefused`).
- internal/webhook/webhook.go:18-19 says that a delivery is dead once its attempts reach the length of the
  schedule; the code makes one attempt more.
- The comment at internal/app/app.go:182-184 says that a refill not above the minimum is repeated for ever. The
  exact condition for a signer that spends nothing to be topped up at most once is refill >= minimum, so the
  check is stricter by one case (`GasThrash.IdleSignersSettleIff`). It also misses amounts in exponent form, which it
  reads as zero and the database does not (`GasPolicy.ExponentFormEscapesTheCheck`), and it accepts amounts of more
  than 78 digits, which the database refuses (`GasPolicy.AcceptedButNotStored`).
- The throttle marks a key before it calls the transport, so an alert that fails to go out still silences its key.

## Model

| member | source | states |
|---|---|---|
| Signer.Signer.UseNonce | internal/signer/signer.go:21-23 | returns the old counter and advances it by one modulo 2^64 |
| Signer.Signer.RewindNonce | internal/signer/signer.go:29-31 | the counter goes back by one modulo 2^64 |
| Signer.Signer.ResetNonce | internal/signer/signer.go:33-35 | the counter is the given value |
| Signer.AddThenUndo | internal/signer/signer.go:25-31 | taking and rewinding a nonce is the identity, at the wrap-around too |
| Common.ToInt64IsCongruent | internal/relay/service.go:204-204 | the conversion to int64 gives the congruent number in range, and small numbers unchanged |
| RelayTheorems.InvStep | internal/relay/service.go:87-253 | every step of every goroutine, with every outcome, and a crash keep the joint invariant on pools, nonces, chain, rows and notifications |
| RelayTheorems.InvReachable | internal/relay/service.go:87-253 | every reachable state satisfies that invariant |
| RelayTheorems.BroadcastCarriesPendingNonce | internal/relay/service.go:135-153 | in every run a broadcast carries exactly the chain's pending nonce of the signer its call holds, and was not accepted before |
| RelayTheorems.AcceptedNoncesAreAnInterval | internal/relay/service.go:135-153 | the accepted nonces of an account leave no gap and repeat none before wrap-around |
| RelayTheorems.RacingLoadsAreSafe | internal/signer/pool.go:53-93 | the Load that installs a pool installs the current pending nonce of each of its signers, all idle; a Load that comes second changes nothing shared |
| RelayTheorems.StatusHistory | internal/relay/service.go:235-253 | every request's status history lies in: pending, then nothing, or rejected, or submitted[,T], or T[,submitted[,T]], T being confirmed if its receipt succeeded and reverted if not |
| RelayTheorems.OnlyOwnSubmitOverwrites | internal/relay/service.go:242-251 | the one step that changes a final status is the request's own Submit marking it submitted |
| RelayTheorems.FinalForever | internal/relay/watcher.go:122-187 | a final status of a request whose Submit is not about to mark it never changes again, in any continuation |
| RelayTheorems.TerminalIsAbsorbingIffSubmitIsPastMarking | internal/relay/service.go:149-157 | a final status can still change if and only if the request's Submit stands between broadcast and marking |
| RelayOverwrite.ConfirmedThenSubmittedThenConfirmed | internal/relay/watcher.go:90-90 | a run in which a confirmed request becomes submitted and confirmed again, with three deliveries |
| RelayTheorems.JointStatus | internal/relay/watcher.go:136-180 | each attempt and its request form one of five status pairs; one attempt per request; a settled attempt and its request are confirmed if and only if the receipt succeeded, reverted if and only if it did not, and hold block, gas and price of the receipt |
| RelayTheorems.RecordedIffOutcomeSeen | internal/relay/watcher.go:151-176 | receipt columns are filled if and only if the request's history has met a final status, and then agree with the receipt field by field |
| RelayTheorems.ReceiptSettlesOneRequest | internal/relay/watcher.go:122-187 | two attempts with one transaction are the same attempt of the same request |
| RelayTheorems.AcceptedIsOnRecord | internal/relay/service.go:143-157 | at every point, after any crash too, an accepted transaction has exactly one attempt row, open or settled and never failed, with its signer, nonce and call and a signer of the request's application |
| RelayTheorems.OneTransactionPerRequest | internal/relay/service.go:143-157 | no request yields two accepted transactions |
| RelayPoolProof.PoolsKept | internal/signer/pool.go:53-120 | every step keeps: a signer of a loaded pool is idle exactly once or held by exactly one call |
| RelayNonceProof.NoncesKept | internal/signer/pool.go:69-92 | every step keeps: counters of idle signers equal the pending nonce, of signers in use they are ahead by one exactly between UseNonce and send or rewind, and what an unfinished Load has read is current while no pool is installed |
| RelayNonceProof.ChainKept | internal/relay/service.go:149-153 | every step keeps the accepted nonces of each account consecutive |
| RelayRowProof.RowsKept | internal/relay/service.go:167-253 | every step keeps the relation between rows, histories, chain, calls and the watcher's batch |
| RelayNotify.PayloadsKept | internal/relay/get.go:32-119 | every step keeps: each payload, queued or under way, is for a request with a callback and tells a status it had: rejected and nothing else, or its transaction with the receipt's fields if recorded, confirmed only after success and reverted only after failure |
| RelayNotify.NotifyKept | internal/webhook/webhook.go:44-61 | every step keeps: deliveries done and under way do not exceed status changes, and a final status is delivered or about to be unless its notification was lost |
| RelayProgress.SignersAreConserved | internal/signer/pool.go:97-120 | idle signers and calls holding one always add up to the pool's size |
| RelayProgress.ReleaseNeverBlocks | internal/signer/pool.go:112-120 | a call that returns finds its pool loaded and room in the idle channel |
| RelayProgress.StuckOnlyOnEmptyPool | internal/signer/pool.go:97-110 | a call can take its next step by itself unless it waits at a pool without idle signers |
| RelayProgress.SomebodyCanMove | internal/signer/pool.go:97-110 | whoever waits, some call of the same application can move: no deadlock |
| RelayProgress.OwnStepDescends | internal/relay/service.go:87-165 | every statement of a call lowers its rank |
| RelayProgress.EverySubmitEnds | internal/relay/service.go:87-165 | in any run a call executes at most 15 statements plus one per signer of its application |
| RelayAbandon.AbandonedForever | internal/relay/service.go:149-153 | a request without a call in flight and without an accepted transaction keeps its attempts as they are and never gets one accepted |
| RelayAbandon.RecoveryTrichotomy | internal/relay/recovery.go:29-66 | each unfinished request is exactly one of: stuck without attempt, with an open attempt, with a failed attempt; right after a restart nothing is ever accepted for the first and the last |
| RelayWatch.AttemptMoves | internal/relay/service.go:219-253 | an attempt keeps its identity and changes status in three ways only: its call gives it up, its call marks it submitted, the watcher settles it |
| RelayWatch.TodoShrinks | internal/relay/watcher.go:111-119 | between two ticks the batch only shrinks, and without errors an attempt with a receipt leaves it settled |
| RelayWatch.BoundedWait | internal/relay/watcher.go:83-120 | in every run of the relayer without crash and watcher errors, with calls starting, marking and failing meanwhile: behind k < batchSize open attempts without receipt at the start and m possible picks of attempts with one, an attempt is in one of the first floor(m / (batchSize - k)) + 1 batches unless its own call fails to broadcast it |
| RelayWall.CrashDooms | internal/relay/service.go:143-149 | a crash makes an open attempt doomed if and only if the chain has not accepted it |
| RelayWall.DoomedForever | internal/relay/watcher.go:84-93 | an open, unaccepted attempt whose call can neither broadcast nor fail it stays open without a receipt in every continuation |
| RelayWall.NeverExamined | internal/relay/watcher.go:83-120 | an unsettled attempt behind batchSize or more older doomed ones is in no batch and never settled, in any run |
| RelayWall.DoomedStopTheWatcher | internal/relay/watcher.go:83-120 | from batchSize doomed attempts on, no batch of any continuation has an attempt younger than all of them, whenever it was recorded |
| RelayBatch.FindBatch | internal/relay/watcher.go:84-93 | the query always has an answer, and one with a given open attempt if fewer than batchSize are older |
| RelaySettle.SettledIff | internal/relay/watcher.go:83-187 | an accepted open attempt can still be settled by some run if and only if it is in the current batch or fewer than batchSize doomed attempts are older |
| RelayFate.UnsentForever | internal/relay/service.go:138-153 | a request without a call and without an accepted transaction keeps its row, status included, in every continuation |
| RelayFate.AbandonedChangesIff | internal/relay/watcher.go:122-187 | the status of a request without a call can still change if and only if it has an open accepted attempt in the current batch or behind fewer than batchSize doomed ones |
| RelayRefused.OneCrashStopsTheWatcher | internal/relay/service.go:143-149 | a reachable state, one crash after an attempt row, from which on a watcher with batch size one never examines a younger attempt |
| RelayRefused.IdenticalRetryIsRefused | migrations/00003_relay.sql:33-33 | a reachable state in which the insert of an identical retry after a refused broadcast can only fail |
| RelayReports.AtMostThreeDeliveries | internal/webhook/webhook.go:44-61 | a request gets at most three deliveries, a rejected one at most one |
| RelayReports.DeliveriesTellTheTruth | internal/relay/get.go:32-119 | every delivery is for a request with a callback and reports a status it really had, with its transaction unless rejected, and a final one as the receipt says, with the receipt's fields |
| RelayReports.FinalStatusIsDelivered | internal/webhook/webhook.go:44-61 | in a run without crash, failing enqueue or unacknowledged commit, a closed request with a callback has a delivery carrying its current final status |
| RelaySubmit.Relayer.Yield | internal/relay/service.go:87-165 | the others take those of the given steps that are possible; the call itself stays where it is, and its request is neither sent nor rejected nor its attempts touched |
| RelayCall.AnythingCanIntervene | internal/relay/service.go:87-165 | that can be any step but a crash and the call's own |
| RelaySubmit.Relayer.Load | internal/signer/pool.go:53-93 | on success the call goes on to the lookup, otherwise to the rejection, and then the listing failed, was empty, or a signer could not be read; others run between any two statements and nothing is sent or rejected for the request |
| RelaySubmit.Relayer.HydrateAll | internal/signer/pool.go:71-84 | succeeds if and only if every address can be read, others running between any two reads |
| RelaySubmit.Relayer.FindPool | internal/signer/pool.go:97-103 | after a successful Load the pool is found, so the not-loaded error cannot occur in Submit |
| RelaySubmit.Relayer.Receive | internal/signer/pool.go:104-109 | on success the context was alive and the call holds the signer that was idle longest, the others staying idle in order; it fails only when the context has ended or no signer is idle |
| RelaySubmit.Relayer.Prepare | internal/relay/service.go:103-133 | Load, Checkout and gas: an error is one that rejects the request, and the statement it blames did fail, in a state of the run where the state matters |
| RelaySubmit.Relayer.PriceGas | internal/relay/service.go:114-133 | the gas limit is the caller's or twelve tenths of the estimate rounded down, the price the suggested one, and an error names the RPC that failed |
| RelaySubmit.Relayer.InsertRow | internal/relay/service.go:188-209 | the attempt row is written before the broadcast, column by column as stated; it fails only on a failed write or an existing hash, and then leaves a row only if the insert took place after all |
| RelaySubmit.Relayer.Broadcast | internal/relay/service.go:135-153 | on success the accepted transaction carries the call, comes from the held signer and stands in the attempt row; on failure nothing was accepted and the attempts left are exactly those the failing statement leaves |
| RelaySubmit.Relayer.Undo | internal/relay/service.go:138-153 | after a failed signature or insert the attempts are as they were; after a refused broadcast the request's one attempt is failed, or still submitting if that write failed |
| RelaySubmit.Relayer.Refuse | internal/relay/service.go:104-104 | an early failure leaves the request rejected, or pending when that write fails, without an attempt and never sent; an acknowledged rejection is delivered if the caller can be notified |
| RelaySubmit.Relayer.RejectRequest | internal/relay/service.go:211-217 | the rejection is on record unless its write failed, and the webhook follows exactly when it was acknowledged |
| RelaySubmit.Relayer.MarkRowsSubmitted | internal/relay/service.go:235-253 | the request's history gets submitted if and only if the write did not fail, and then the attempt is submitted, too; the transaction stays accepted and on record in any case |
| RelaySubmit.Relayer.FireWebhook | internal/relay/service.go:224-233 | the call goes on to its return whatever snapshot and insert answer; a request with a callback has a delivery if neither fails |
| RelaySubmit.Relayer.Return | internal/relay/service.go:112-112 | the call is gone, its signer is at the end of the idle queue, nobody works for its request any more, and nothing on record was lost |
| RelaySubmit.Relayer.InsertRequest | internal/relay/service.go:167-186 | a new pending request with the caller's data, or nothing; an unknown application is refused |
| RelaySubmit.Relayer.Submit | internal/relay/service.go:87-165 | chain-id, deadline and insert errors exactly when they apply, the first two without effect; on success the accepted transaction is the caller's, from a signer of its application, with the right gas, on record, marked, and reported if the caller can be notified; on any other error the blamed statement did fail, the request is never sent if and only if the error is not that of markSubmitted, and then its history is exactly pending or pending, rejected, for ever, and its attempts exactly what the failing statement leaves; without a callback there is no delivery |
| Recovery.Recover | internal/relay/recovery.go:29-66 | counts of open attempts and pending deliveries, and the stuck requests by age; no report if and only if a query or a row fails |
| Recovery.StuckAmongIsStuck | internal/relay/recovery.go:44-61 | every stuck request is listed once and nothing else |
| Recovery.StuckAmongIsByAge | internal/relay/recovery.go:49-49 | of two listed requests the older one comes first |
| Recovery.ReportMissesFailedAttempts | internal/relay/recovery.go:32-50 | open attempts, stuck requests and failed attempts add up to the unfinished requests, so the report misses exactly the failed ones |
| WatcherQueue.Watcher.Process | internal/relay/watcher.go:122-187 | without a receipt or after an error nothing changes; otherwise attempt and request change together to confirmed if the receipt succeeded and to reverted if not, with the receipt's fields |
| WatcherQueue.Watcher.Tick | internal/relay/watcher.go:83-120 | every attempt of the batch with a receipt and without an error is settled, the others are untouched, and the count is of those without an error |
| WatcherQueue.TickSettlesRequests | internal/relay/watcher.go:111-119 | a tick makes each request of the batch confirmed or reverted as its own receipt says, once, and touches no other |
| RelayTick.TickIsARun | internal/relay/watcher.go:83-120 | for every pattern of errors some run of the state machine takes a batch through the tick and leaves attempts and requests exactly as the program Watcher.Tick does |
| Webhook.Worker.Insert | internal/webhook/webhook.go:53-56 | a new pending delivery without attempts, due at the time of the insert; no other row changes |
| Webhook.Worker.Deliver | internal/webhook/webhook.go:155-188 | the row after one POST, by answer and by whether the update succeeded |
| Webhook.Worker.RecordFailure | internal/webhook/webhook.go:190-211 | next attempt after the scheduled gap while the schedule lasts, dead after that |
| Webhook.Worker.Tick | internal/webhook/webhook.go:120-153 | the table after a batch, each of its rows attempted in order |
| Webhook.AfterBatchRow | internal/webhook/webhook.go:145-152 | a delivery is attempted at most once per batch and others keep their row |
| Webhook.RunKeepsRows | internal/webhook/webhook.go:155-211 | in any run, batches cut short included, delivered and dead rows never change, and attempts, tries and gaps stay within their bounds |
| Webhook.AttemptsAreBoundedAndSpaced | internal/webhook/webhook.go:155-211 | for any schedule of length n: at most n+1 POSTs, dead exactly after n+1 failures, delivered exactly after a 2xx answer, try j+1 no earlier than schedule[j] after failure j |
| Webhook.DeadAfterFiveFailures | internal/webhook/webhook.go:18-25 | with the source's schedule a delivery is dead exactly after five failures, which are at least 5 s, 30 s, 5 min and 30 min apart |
| Webhook.LostUpdatesCostOnePostEach | internal/webhook/webhook.go:174-184 | each failed row update costs one extra POST and no more |
| WebhookLiveness.PassedOverMovesUp | internal/webhook/webhook.go:121-127 | a due delivery that a tick passes over keeps its row and loses at least a batch of predecessors |
| WebhookLiveness.NoStarvation | internal/webhook/webhook.go:120-153 | a due delivery with r predecessors is attempted within floor(r / batchSize) + 1 ticks, whatever arrives |
| WebhookLiveness.ArrivalIsDue | migrations/00006_webhooks.sql:10-16 | a delivery enqueued by the time of a tick is untried and due at that tick |
| WebhookLiveness.ArrivalIsServed | internal/webhook/webhook.go:120-153 | and is attempted within floor(r / batchSize) + 1 ticks of its arrival |
| WebhookLiveness.EveryDeliveryEnds | internal/webhook/webhook.go:120-211 | in every endless run with advancing time every delivery becomes delivered or dead |
| Gas.Worker.Refill | internal/gas/worker.go:234-272 | an accepted top-up is sent whether or not its row can be inserted; a failed one leaves no trace |
| Gas.Worker.VisitSigners | internal/gas/worker.go:176-198 | the loop visits every signer and takes the next nonce only after an accepted refill |
| Gas.Worker.ProcessApp | internal/gas/worker.go:128-200 | alert and error exactly when the source raises them, and rows and top-ups as the visits of the loop produce them |
| GasBounds.PassIsGapFree | internal/gas/worker.go:167-198 | for any pattern of skips and failures the k-th accepted refill uses start nonce + k and goes to a signer below the minimum, without a recent top-up and not refilled before in the pass |
| GasBounds.PassTopsUpTheNeedy | internal/gas/worker.go:176-232 | in one pass a visited signer gets exactly one top-up if its check, balance read, signature and send succeed, its balance is below the minimum and no row of its own is younger than 60 s, and none otherwise |
| GasBounds.VisitTopsUpIff | internal/gas/worker.go:176-198 | a visit tops up a needy signer with the policy's amount and leaves the ledger alone otherwise |
| GasBounds.TopupsAreSpaced | internal/gas/worker.go:176-232 | over any number of passes two top-ups of a signer are at least 60 s apart and treasury nonces are consecutive |
| GasBounds.DedupeNeedsTheRecord | internal/gas/worker.go:220-232 | within the window a signer seen below the minimum is refilled again if and only if the row of its previous top-up was not inserted |
| GasBounds.RateBound | internal/gas/worker.go:220-232 | in any window of length L a treasury sends at most (floor(L / 60 s) + 1) * signers * refill, over any run visiting those signers |
| GasThrash.NoRecentMeansMined | internal/gas/worker.go:176-189 | when no top-up of a signer is recent, every earlier one mined inside its window shows in the balance |
| GasThrash.TopupsArePaidFor | internal/gas/worker.go:185-197 | over any run with top-ups recorded and mined inside the window, at every time: m top-ups so far mean spending above first balance + (m-1) * refill - minimum, and the balance is at most its first value or below minimum + refill |
| GasThrash.IdleSignersSettleIff | internal/app/app.go:180-185 | in every run of the worker signers that spend nothing are topped up at most once, if and only if refill >= minimum |
| GasThrash.RefilledTwice | internal/app/app.go:182-184 | with a smaller refill, a run of two passes that tops up a signer twice that spends nothing |
| GasPolicy.PolicyIsAcceptedIff | internal/app/app.go:186-200 | a policy is accepted if and only if neither amount is positive or 0 < minimum < refill; it must be set together exactly when one amount is positive, and the refill is too small exactly when 0 < refill <= minimum |
| GasPolicy.DecimalPolicyIsAcceptedIff | internal/app/app.go:186-211 | on numbers written in decimal: accepted if and only if both are zero or 0 < minimum < refill |
| GasPolicy.SignedRoundTrip | internal/app/app.go:206-206 | reading a number written in decimal, with or without a sign, gives that number |
| GasPolicy.CheckedAsStoredIff | internal/app/app.go:202-211 | the check reads an amount as the database does if and only if it is plain decimal or not positive |
| GasPolicy.AcceptedPolicyRefillsAboveMinimum | internal/app/app.go:186-200 | a plain-decimal policy that is accepted is stored as it is if and only if both amounts fit the column; the worker acts on it if and only if the minimum is positive, and then its refill exceeds its minimum |
| GasPolicy.AcceptedButNotStored | migrations/00007_gas_topup.sql:3-4 | a minimum of 1 with a refill of 10^78 or more is accepted by the check and refused by the column |
| GasPolicy.AcceptedPolicyDoesNotThrash | internal/app/app.go:180-200 | under such a policy, in every run of the worker, a signer that spends nothing is topped up at most once |
| GasPolicy.ExponentFormEscapesTheCheck | internal/app/app.go:202-211 | "2e1" and "1e1" are accepted and stored as minimum 20 and refill 10 |
| Throttle.Throttled.Notify | internal/alert/throttle.go:30-40 | forwards exactly when no alert of the key was marked within the interval, and marks before the transport is called |
| Throttle.SentIsLast | internal/alert/throttle.go:33-37 | the throttle remembers exactly the last forwarded alert of each key |
| Throttle.ForwardedAlertsAreSpaced | internal/alert/throttle.go:30-40 | forwarded alerts of one key are at least the interval apart |
| Throttle.SuppressedIffRecentlyForwarded | internal/alert/throttle.go:33-36 | an alert is suppressed if and only if one of its key was forwarded less than the interval before |
| Throttle.MemoryProjects | internal/alert/throttle.go:14-19 | what is remembered of a key does not depend on other keys |
| Throttle.OutputProjects | internal/alert/throttle.go:30-40 | the forwarded alerts of a key are those of a throttle that sees this key only |

## Left out

- HTTP routing, JSON binding, bearer authentication, configuration and wiring: plumbing with easy branches.
- Keystore encryption, HMAC, ECDSA, token generation: cryptography; signing can fail, hashing is injective.
- `treasury.Sweep`: a subtraction and a sign check; its nonce interplay with the gas worker depends on mempool replacement rules.
- Ambiguous sends (an error for an accepted transaction), reorganisations, dropped transactions and several processes on one database: excluded by the hypotheses.
- Revert reasons, receipt logs, `response_code`, `last_error`, `updated_at` and `gas_price` columns: text and bookkeeping nothing else depends on.
- The deadline after entry: the code checks it once, so no claim about a whole run holds.
- Webhook payload encoding and callback URL resolution: `notify` says whether URL and secret are configured when the request is made; changes of them later are not modelled.
- Deleting applications and requests, and `Pool.Size`.
- NUMERIC text forms other than sign, digits and a lower-case exponent (fractions, spaces, upper-case E, other radixes).
- A webhook row whose URL cannot be parsed counts as a failed POST, as it does in the row's attempt counter.
- The in-place update of signer objects by the pool: in the relay state machine the counters of all signers are one map, and `Signer` is the object on its own.
- RelaySubmit.Relayer.Receive: waits as long as the given steps of others last; if no signer is idle then, the context ends. `RelayProgress.SomebodyCanMove` is the statement that waiting is not a deadlock.
- RelayWatch.BoundedWait: counts ticks of runs without crash and without RPC or database errors in the watcher, and takes attempts recorded later to be younger, as one monotone clock makes them; attempts mined after the start count as not mined, so the bound applies anew from then on.
- WebhookLiveness.NoStarvation: row updates succeed; a failing update leaves the row where it was in the queue, and no bound is stated for that case.
- GasBounds.TopupsAreSpaced: every accepted refill is recorded; `GasBounds.DedupeNeedsTheRecord` says what happens otherwise.
- GasThrash.TopupsArePaidFor: no other deposits, and each top-up is mined within 60 s of being sent; without that the dedupe window says nothing about balances.
