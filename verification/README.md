# IG trader verification model

A Dafny 4.11 model of the parts of the IG trading application whose correctness rests on state,
order and arithmetic, with proofs of what they promise. `dafny verify dfyconfig.toml` checks all of it.

## What is modelled

| modules | component |
|---|---|
| `ExecutionLease`, `LeaseFencing`, `LeaseDuration`, `LeaseSteps` | Replicas competing for one lease row. The SQL lease functions fix the steps; replies may be lost, leases expire, processes crash. How long a lease protects its holder. |
| `ShadowExecution`, `ShadowLives`, `ShadowPostgres`, `ShadowAnswers`, `ShadowSimulation` | Hypothetical positions: the in-memory store as specification, the two-table fenced store that refines it and grants the same calls, and the core over either, from quote to figures. |
| `HttpClient`, `DemoExecution`, `DemoOutcomes`, `DemoSafety`, `DemoCloses`, `DemoWriters`, `DemoAuthority`, `DemoLives`, `DemoFlatten` | The demo dealing state machine over a broker that may answer anything or nothing, with a crash after any durable effect; its close calls; several writers at once; the facts each broker call needs; a deal with a broker that does what it is asked; and the operator's flattening loop on top of it. |
| `DemoCodec`, `DemoTexts`, `DemoStore`, `DemoProvenance`, `DemoTransport`, `DemoRestart`, `DemoDurable`, `Json` | The durable form of a dealing record, text forms that read back, its table, where its facts come from, what the REST transport hands on, what a restart finds, and the core over that form. |
| `DemoOperator`, `WorkerSafety`, `WorkerStates` | The single control row shared by starters, workers and operators, and what its state means over time. |
| `CandleNormalization`, `CandleGaps`, `CandleGrouping`, `CandleCalendar`, `CandleMissing`, `CandleStale`, `CandleAggregation`, `CandleQuality` | Candle evidence from the broker answer to the verdict QUALIFIED. |
| `RateLimit` | The rolling request limiter. |
| `DemoQualification` | Drawdown, losing streak and classification of a demo series. |
| `Migrations` | Planning, applying and resuming schema migrations. |
| `Privileges`, `PrivilegeRepair` | Auditing and repairing the runtime role's privileges. |
| `Outcomes`, `Sets`, `Strings`, `Decimals`, `Runs` | Shared result types, set sizes, text checks, decimals and their rounding, and runs of a step relation. |

Objects whose methods update fields are classes, and each method is proved against a function of the
old state; theorems over runs are stated about those functions. Loops of the source are loops here.

Conventions: prices and seconds of the limiter are reals; the decimals of the dealing core are the
reals that finitely many digits write (`Decimals.Decimal`); a shadow price is the decimal that its
shortest text writes; instants are integers (microseconds since 1970-01-01 UTC for candles and
leases); identifiers are integers. The clock, the broker, the database's failures and the outcome of
a commit are parameters of the operation they affect, so a statement for all parameters covers every
environment. Hashes are injective functions.

## What the proofs found

- Tokens of committed fenced writes can go back. The acquire statement draws its token before it
  waits for the lease row, so of two overlapping acquires the earlier draw may install last. The
  order holds in every run exactly when acquires never overlap; that no superseded token commits,
  and that a holder without authority needs a newer token, hold without that condition.
- A fenced commit may take effect after its client has given up and is no longer authorized; it still
  carries the token and owner of the row, because the row stays locked from the check to the commit.
- A lease is current for the duration asked from its draw or its last renewal, and no other is
  installed before, unless a release takes effect; from then on an acquire is. A release in the very
  microsecond of the acquisition leaves the lease current for one more.
- The numeric columns of a shadow position keep fifteen significant digits of a float, as the
  database's conversion does (tests/test_shadow_postgres_store.py:122-135 shows one). So a close
  returns the in-memory record exactly when fifteen digits write the exit price; and an intent opens
  exactly when its three prices lie within the tolerance of their rounded forms. Below 1000 they
  always do, and the three currency pairs of the one registry in the repository
  (src/ig_trader/shadow_execution.py:57-64) are quoted far below that. With another registry a
  computed price such as 17999.899999999998 does not: that intent is put, never opens and,
  unresolved, refuses every other intent for the rest of the run.
- The same rounding can carry an exit across its level, so that a stopped record has R above -1. It
  cannot if fifteen digits write the level, or the quotes.
- A commit whose acknowledgement is lost is a third outcome beside success and rollback.
- `request_close` writes nothing before its broker call: a crash between the two lets one opening
  carry two close calls. The surplus of close calls over openings is the number of such crashes;
  without one, each close call follows an open reconciliation of its own.
- A record left SUBMITTING by a crash is never resumed by any operation.
- The SAFE_STOP write of a refused start is undone by the exception that follows it.
- A candle window that does not start on the resolution's grid invents a missing slot.
- A stored dealing record with an empty mandatory text is accepted by `put` and `replace` and can
  then not be read back; a blank optional text reads back as absent. Through the core only a
  rejection with an empty status or reference could become unreadable, and that is not
  restart-sensitive. The REST transport of the repository puts "UNKNOWN" and the requested reference
  in their place (src/ig_trader/demo_transport.py:221-227) and drops blank optional texts, so over it
  every record reads back as itself; another transport could hand such a rejection on.
- Two operations on one dealing record that overlap can overwrite CLOSED_RECONCILED, or call the
  broker twice for one intent, without any crash: `replace` compares only the request, and the
  operator's `start` and flattening (src/ig_trader/demo_operator.py:485-611) do not hold the worker
  row. Both promises hold in every run exactly when operations never overlap.
- Flattening reads the control row into its gate and calls the broker afterwards. A close call
  therefore needs RUNNING or STOP_REQUESTED and no kill at the reading; an Emergency Kill between the
  two does not stop it. That no close call is made under a kill holds in every run exactly when no
  transaction of the row falls between a reading and its use.
- The privilege repair leaves its temporary owner membership when the commit of its grants is applied
  but not acknowledged, because the cleanup is tied to the acknowledgement; the drift repair is not
  exposed to this.
- A privilege audit can be clean without the event sequence's privileges exactly when that sequence
  is absent.

## Model

| member | source | states |
|---|---|---|
| `ExecutionLease.StepsKeepCoherent` | src/ig_trader/execution_lease.py:289-393 | Whatever the lease store answers, a coordinator is either LEADER with a proven generation, ACQUIRED and healthy, or fail-closed without a lease; no operation leaves a mixture |
| `ExecutionLease.AnswersMean` | src/ig_trader/execution_lease.py:305-393 | Which lease and which lease state each answer of the store, and each end of a fenced transaction, leaves behind: a lost lease, an unavailable database, a refusal and a release are told apart |
| `ExecutionLease.DisabledStays` | src/ig_trader/execution_lease.py:289-325 | A replica without the feature takes no lease from any answer |
| `ExecutionLease.ExecutionLeaseCoordinator.TryAcquire` | src/ig_trader/execution_lease.py:305-325 | Leader exactly when enabled and the store returned a generation; a database error and a refused lease demote to different states |
| `ExecutionLease.ExecutionLeaseCoordinator.Renew` | src/ig_trader/execution_lease.py:327-342 | Authority survives a renewal only if it was held and renewed; every other answer ends it |
| `ExecutionLease.ExecutionLeaseCoordinator.Release` | src/ig_trader/execution_lease.py:344-355 | Ends authority locally whatever the database answers, and reports success only for a confirmed release |
| `ExecutionLease.ExecutionLeaseCoordinator.RunStateChange` | src/ig_trader/execution_lease.py:357-393 | A callback rejection keeps leadership unchanged; any other failure of the fenced transaction demotes |
| `LeaseFencing.StepInv` | migrations/postgresql/002_execution_lease_fencing.sql:22-229 | One step of any replica, of the clock or of the lease functions keeps the system invariant: tokens drawn, installed, held and logged stay consistent |
| `LeaseFencing.HistoryGrows` | migrations/postgresql/002_execution_lease_fencing.sql:22-76 | Installed leases and committed writes only accumulate over a run |
| `LeaseFencing.SupersededNeverCommits` | src/ig_trader/execution_lease.py:235-261 | Over every interleaving, once another lease has been installed no write under the old token commits |
| `LeaseFencing.CommitsUnderTheRow` | migrations/postgresql/002_execution_lease_fencing.sql:181-229 | Every committed fenced write, those that take effect after their client gave up included, carries the token and owner of the lease row at its commit, from a process that was authorized when its transaction began and under a row unchanged since |
| `LeaseFencing.LateCommit` | src/ig_trader/execution_lease.py:235-261 | A run in which a commit takes effect while its process is no longer authorized |
| `LeaseFencing.RejectedNeedsNewerToken` | src/ig_trader/execution_lease.py:357-393 | A holder that the fence refuses, at its check, inside the transaction or by an unacknowledged commit, was authorized, loses that at once, and is authorized again only under a strictly larger token; only an unacknowledged commit wrote anything in that step |
| `LeaseFencing.LostAuthorityNeedsNewerToken` | src/ig_trader/execution_lease.py:305-393 | A process that loses its authority in any way, by a failed renewal, a release or a crash too, is authorized again only under a strictly larger token |
| `LeaseFencing.TokensAreExclusive` | migrations/postgresql/002_execution_lease_fencing.sql:56-76 | No two processes hold the same token, even while several believe themselves authorized |
| `LeaseFencing.TwoLeadersAtOnce` | src/ig_trader/execution_lease.py:289-291 | A run in which two replicas are authorized at once; only one passes the fence |
| `LeaseFencing.OvertakenAcquire` | migrations/postgresql/002_execution_lease_fencing.sql:45-76 | A run with two overlapping acquires in which the tokens of committed writes go back |
| `LeaseFencing.TokenOrderNeedsSerialAcquires` | migrations/postgresql/002_execution_lease_fencing.sql:45-76 | Tokens of committed writes never decrease in any run if and only if at most one acquire statement is ever in flight |
| `LeaseSteps.OthersStay` | src/ig_trader/execution_lease.py:235-393 | No step changes a replica that it does not concern: not a late effect, nor another's crash, failure or answer |
| `LeaseSteps.OnlyAnswersAuthorize` | src/ig_trader/execution_lease.py:305-393 | A replica that a step concerns is authorized after it exactly by a delivered grant; any other answer, and silence, ends its authority |
| `LeaseSteps.LockMoves` | src/ig_trader/execution_lease.py:235-261 | The row is locked from a fence check that passes to the end of that transaction; a crash ends only the process's own, if it still awaits it |
| `LeaseSteps.LateMoves` | src/ig_trader/execution_lease.py:189-233 | A renewal or release that a replica gave up on stays in flight once and takes effect once |
| `LeaseDuration.RowMoves` | migrations/postgresql/002_execution_lease_fencing.sql:45-165 | The row changes only by an acquire that finds it free or expired, a renewal of the current lease or a release of it, waited for or not, and with which times |
| `LeaseDuration.TicketWasDrawn` | migrations/postgresql/002_execution_lease_fencing.sql:45-63 | Every acquire in flight carries the owner, the time and the duration of the step that drew its token |
| `LeaseDuration.EffectsGrant` | migrations/postgresql/002_execution_lease_fencing.sql:45-127 | Every acquire or renewal that takes effect grants a lease for some duration from the draw or the renewal |
| `LeaseDuration.LeaseProtects` | migrations/postgresql/002_execution_lease_fencing.sql:64-127 | A lease granted at t for ttl is current until t + ttl, later renewals included, and no other lease is installed before, unless a release of it takes effect |
| `LeaseDuration.LeaseEndsOnTime` | migrations/postgresql/002_execution_lease_fencing.sql:64-71 | If nothing meets the row since the grant, an acquire that concludes is installed if and only if t + ttl has come |
| `LeaseDuration.FenceFollowsTheLease` | migrations/postgresql/002_execution_lease_fencing.sql:181-229 | In the same case the holder's fence check passes, and its authority survives, if and only if t + ttl has not come |
| `LeaseDuration.ReleaseEnds` | migrations/postgresql/002_execution_lease_fencing.sql:140-165 | A release that takes effect ends its lease at once and for good, and the next acquire is installed; in the very instant of the acquisition the lease stays current for one more microsecond |
| `LeaseDuration.RepliesTellTheRow` | src/ig_trader/execution_lease.py:305-342 | The lease that a delivered acquire or renewal leaves with a replica is the row as just written |
| `ShadowExecution.InMemoryShadowStore.PutRecord` | src/ig_trader/shadow_execution.py:165-171 | Idempotent insert under the current token; a different intent under the same id and a stale token are refused without a change |
| `ShadowExecution.InMemoryShadowStore.TransitionRecord` | src/ig_trader/shadow_execution.py:173-212 | Moves a record only from the expected lifecycle, along the allowed graph, under the current token |
| `ShadowExecution.RunsKeepInv` | src/ig_trader/shadow_execution.py:249-363 | Over whole runs with stale handles, every record made or moved by the core has valid geometry and exit facts that match its lifecycle |
| `ShadowExecution.ExitsBoundR` | src/ig_trader/shadow_execution.py:315-391 | For every record the core ever hands out: figures exist exactly once it is closed, the risk is never zero, a STOP exit has R at most -1 and a TARGET exit at least reward/risk, which is positive |
| `ShadowLives.PutMeans` | src/ig_trader/shadow_execution.py:165-171 | A put is stale, conflicting in some fact, a repetition that changes nothing, or new |
| `ShadowLives.TransitionMeans` | src/ig_trader/shadow_execution.py:173-212 | A transition is stale, conflicting, off the four edges, or moves the record and keeps what it is not given |
| `ShadowLives.CreatedIff` | src/ig_trader/shadow_execution.py:249-300 | A record for a new intent is made if and only if every named fact holds, bought at the offer and sold at the bid |
| `ShadowLives.CreateRefusals` | src/ig_trader/shadow_execution.py:249-300 | Which refusal a creation meets, in the order of its checks |
| `ShadowLives.RepeatedCreation` | src/ig_trader/shadow_execution.py:293-300 | A repeated creation hands back the stored record or conflicts |
| `ShadowLives.ClosedIff` | src/ig_trader/shadow_execution.py:315-349 | An open record is closed if and only if a usable quote reaches its stop or target, at that quote, the stop taking precedence |
| `ShadowLives.MovedIff` | src/ig_trader/shadow_execution.py:302-363 | When opening and reconciling move a record, and what they write |
| `ShadowLives.MoveRefusals` | src/ig_trader/shadow_execution.py:302-363 | The refusals of opening, closing and reconciling; a state already reached is handed back |
| `ShadowLives.FiguresMean` | src/ig_trader/shadow_execution.py:365-391 | The delta is the gain of the direction, pips times the pip size and R times the risk give it back |
| `ShadowLives.FiguresRefused` | src/ig_trader/shadow_execution.py:365-391 | When a record has no figures, and why |
| `ShadowLives.WholeLife` | src/ig_trader/shadow_execution.py:249-391 | A record created, opened, closed and reconciled under one lease carries the signal, the two quotes and the four instants; closed on the quote of its entry it loses exactly the spread, in both directions, by its stop |
| `ShadowPostgres.PostgresShadowStore.PutRecord` | src/ig_trader/shadow_postgres_store.py:96-156 | The statements of put against both tables, with rollback, demotion and a lost commit acknowledgement |
| `ShadowPostgres.PostgresShadowStore.TransitionRecord` | src/ig_trader/shadow_postgres_store.py:158-242 | The statements of transition against both tables, with rollback, demotion and a lost commit acknowledgement |
| `ShadowPostgres.PutRefines` | src/ig_trader/shadow_postgres_store.py:96-156 | A returned put is the in-memory store's put on the abstracted tables; an error leaves both tables unchanged, unless only the acknowledgement was lost, and then the tables hold the in-memory result |
| `ShadowPostgres.TransitionRefines` | src/ig_trader/shadow_postgres_store.py:158-242 | The same for every transition the core issues, with the exit price rounded to the fifteen significant digits its column keeps |
| `ShadowAnswers.TransitionGrantedIff` | src/ig_trader/shadow_postgres_store.py:158-242 | Under a held fence and a commit, with times, prices and texts in order, the durable store grants a transition if and only if the in-memory store does, on each of the four edges, and with its record |
| `ShadowAnswers.TransitionAnswers` | src/ig_trader/shadow_postgres_store.py:158-242 | Without that: which answer a transition gets, for every state and update |
| `ShadowAnswers.PutGrantedIff` | src/ig_trader/shadow_postgres_store.py:96-156 | The durable put is granted if and only if the in-memory put is, no other position is unresolved and a known intent keeps its position identifier |
| `ShadowAnswers.ReadMeans` | src/ig_trader/shadow_postgres_store.py:273-321 | A stored intent is read if and only if its two rows agree, with the payload's prices and the position's progress |
| `ShadowAnswers.PutAnswers` | src/ig_trader/shadow_postgres_store.py:96-156 | Which answer a put gets; a repeated one changes nothing and returns the stored record |
| `ShadowAnswers.FailuresDemote` | src/ig_trader/shadow_postgres_store.py:244-265 | What a refused fence, a rollback and a lost acknowledgement do to an answer: domain refusals keep the lease, other failures end it, only a lost acknowledgement writes |
| `ShadowAnswers.RunKeepsRows` | migrations/postgresql/003_shadow_position_state.sql:10-31 | In every durable state of every run the rows meet the constraints of their tables |
| `ShadowPostgres.CloseIsExactIffShort` | src/ig_trader/shadow_postgres_store.py:204-242 | A close returns exactly the in-memory record if and only if fifteen significant digits write the exit price |
| `ShadowPostgres.LongPriceIsLong` | src/ig_trader/shadow_postgres_store.py:204-242 | A price that fifteen digits do not write |
| `ShadowPostgres.OpensIffPricesNear` | src/ig_trader/shadow_postgres_store.py:176-242 | An intent against which nothing else stands opens if and only if each of its prices is within the tolerance of its rounded form; otherwise the read after the write refuses it |
| `ShadowPostgres.ShortPricesAreNear` | src/ig_trader/shadow_postgres_store.py:376-382 | Prices below 1000, and all that fifteen digits write, are within the tolerance |
| `ShadowPostgres.LongPriceIsNotNear` | src/ig_trader/shadow_postgres_store.py:376-382 | A price that is not |
| `ShadowPostgres.StuckIntentBlocks` | src/ig_trader/shadow_postgres_store.py:104-204 | Once put, an intent with a price that is not never opens, and every other intent is refused for the rest of the run |
| `ShadowPostgres.StuckIntentRun` | src/ig_trader/shadow_postgres_store.py:96-242 | A run from the empty tables that puts such an intent, against which nothing but its prices stands, and whose opening the read after the write refuses |
| `ShadowPostgres.RunKeepsInv` | src/ig_trader/shadow_postgres_store.py:273-321 | In every durable state both lifecycles agree and every stored row can be read back |
| `ShadowPostgres.OneUnresolvedPosition` | src/ig_trader/shadow_postgres_store.py:67-94 | In every durable state the active count is the count over abstract records and is at most one |
| `ShadowPostgres.FailedSafeBlocks` | src/ig_trader/shadow_postgres_store.py:104-156 | Once a record is FAILED_SAFE it stays so, and every other intent is refused for the rest of the run |
| `ShadowSimulation.CoreAsks` | src/ig_trader/shadow_execution.py:249-363 | What the core puts and moves has the shape the refinement of the store needs |
| `ShadowSimulation.DurableCoreIsInMemoryCore` | src/ig_trader/shadow_execution.py:249-363 | For every run of the core over the durable store, with refused fences, rolled-back and unacknowledged commits, failed reads and changing leases, an in-memory run ends with the same records and has handed out the same ones, up to the rounding of exit prices |
| `ShadowSimulation.DurableRecordsWellMade` | src/ig_trader/shadow_execution.py:302-391 | Every record the core hands out over the durable store is the rounded form of a well-made one, has a non-zero risk, and has figures exactly once it is closed |
| `ShadowSimulation.DurableExitsBoundR` | src/ig_trader/shadow_execution.py:315-391 | Over the durable store a STOP exit has R at most -1 and a TARGET exit at least reward/risk, if fifteen digits write the level of the record or the quotes of the run |
| `ShadowSimulation.RoundedStopRun` | src/ig_trader/shadow_execution.py:315-391 | A durable run with neither, in which a stopped record has R above -1 |
| `HttpClient.Request` | src/ig_trader/http_client.py:87-145 | At most max_retries physical requests, all but the last followed by a retryable error; none when max_retries is not positive |
| `HttpClient.CallMeans` | src/ig_trader/http_client.py:102-145 | How many requests a call sends and what it answers, by the first pass that is not a retryable error |
| `DemoExecution.Prepare` | src/ig_trader/demo_execution.py:571-588 | What submit continues from: the stored record or a new one, only with metadata and a gate that allow it and no other intent in the cycle |
| `DemoAuthority.ContinuesIff` | src/ig_trader/demo_execution.py:571-588 | Submit dispatches if and only if every fact of market and gate holds by itself and nothing stored stands against the request |
| `DemoAuthority.SubmitAnswers` | src/ig_trader/demo_execution.py:571-588 | Which refusal a submit meets, in the order of its checks, and which record it goes on with |
| `DemoAuthority.MetadataMeans` | src/ig_trader/demo_execution.py:687-744 | The market facts one by one |
| `DemoExecution.DemoExecutionCore.Submit` | src/ig_trader/demo_execution.py:401-429 | The durable states of submit: PREPARED, SUBMITTING before the broker call, the call and its POSTs, then the outcome |
| `DemoExecution.DemoExecutionCore.ReconcileOpen` | src/ig_trader/demo_execution.py:431-481 | The durable states of open reconciliation, for every confirmation and position answer |
| `DemoExecution.DemoExecutionCore.RequestClose` | src/ig_trader/demo_execution.py:483-521 | The close call comes first and nothing is written before it; each answer has its own lifecycle |
| `DemoExecution.DemoExecutionCore.ReconcileClose` | src/ig_trader/demo_execution.py:523-555 | Only an exact opposite fill and the absence of the deal reach CLOSED_RECONCILED |
| `DemoOutcomes.DispatchEnds` | src/ig_trader/demo_execution.py:412-429 | SUBMITTED, FAILED_SAFE and AMBIGUOUS each for exactly their answers, one create call, and nothing else of the record moved |
| `DemoOutcomes.ReconciledOpenEnds` | src/ig_trader/demo_execution.py:443-481 | Each outcome of open reconciliation for exactly its answers, in terms of the broker's own fields: open only by an exact fill and exactly one listed position of that deal |
| `DemoOutcomes.RequestedCloseEnds` | src/ig_trader/demo_execution.py:498-521 | Each outcome of a close request for exactly its answers |
| `DemoOutcomes.ReconciledCloseEnds` | src/ig_trader/demo_execution.py:535-555 | Closed only by an exact opposite fill of a deal the positions no longer list; the other outcomes for exactly their answers |
| `DemoOutcomes.OneMatch` | src/ig_trader/demo_execution.py:785-797 | The list of matching positions has one entry if and only if exactly one position of the answer is the deal; a repeated one is two |
| `DemoOutcomes.EffectsFollowTheGraph` | src/ig_trader/demo_execution.py:401-555 | Every durable effect of every operation moves records along the lifecycle graph, and records appear only as PREPARED |
| `DemoLives.OrdersStateTheRequest` | src/ig_trader/demo_execution.py:617-634 | In every durable state each create call and POST asks for exactly the terms of the stored request |
| `DemoLives.CloseOrdersNet` | src/ig_trader/demo_execution.py:499-507 | In every durable state the close order of an open record is for its confirmed deal and nets its opening order to nothing |
| `DemoLives.CloseReferencesDiffer` | src/ig_trader/demo_execution.py:610-615 | Two deals of one opening have different close references |
| `DemoLives.WholeLife` | src/ig_trader/demo_execution.py:401-555 | With a broker that fills exactly what it is asked, an admissible request is submitted, opened, close-requested and closed, by one create call, one POST and one close call, and no other record changes |
| `DemoSafety.StepInv` | src/ig_trader/demo_execution.py:401-555 | Every durable state inside any operation, crash points included, keeps evidence, call and close accounting |
| `DemoSafety.CreateAtMostOnce` | src/ig_trader/demo_execution.py:401-429 | Over whole runs with a crash after any store write or broker call: at most one create call per intent and per cycle, and at most max_retries POSTs, all with its deal reference |
| `DemoAuthority.GateMeans` | src/ig_trader/demo_execution.py:194-246 | The gate facts one by one: mode, authority, environment, one proven account, a valid lease, the current token, capacity, an approved epic, a released kill and allowed risk |
| `DemoAuthority.OpeningNeedsEveryFact` | src/ig_trader/demo_execution.py:401-429 | The broker hears of an opening only with every market and gate fact, for an admissible request |
| `DemoAuthority.OpeningWithEveryFact` | src/ig_trader/demo_execution.py:401-429 | And with all of them a submit that is not interrupted makes its create call |
| `DemoAuthority.CloseCallIff` | src/ig_trader/demo_execution.py:483-505 | A step makes a close call if and only if its record is open with its position and every gate fact holds |
| `DemoAuthority.CloseAnswers` | src/ig_trader/demo_execution.py:483-498 | The answers of a close request that makes no call: a close already asked for or done is handed back, any other record is refused for its reason |
| `DemoAuthority.RowGateAllowsIff` | src/ig_trader/demo_operator.py:715-734 | The operator's gate allows a close if and only if the control row is RUNNING or STOP_REQUESTED without a kill and the account, token and risk are in order |
| `DemoAuthority.CloseHasItsReading` | src/ig_trader/demo_operator.py:571-611 | Over runs of processes, control row and dealing store: each close call of flattening was allowed by a row in RUNNING or STOP_REQUESTED without a kill, read for that very close |
| `DemoAuthority.KilledCloseRun` | src/ig_trader/demo_operator.py:591-596 | A run in which an Emergency Kill falls between that reading and the close call, which is made |
| `DemoAuthority.UnderTheRowNeedsPromptUse` | src/ig_trader/demo_operator.py:591-596 | No close call is made while the row is killed or outside the two states, in any run, if and only if no transaction of the row falls between reading and use |
| `DemoSafety.EvidenceInEveryState` | src/ig_trader/demo_execution.py:747-797 | In every durable state OPEN_RECONCILED has an accepted matching confirmation and a position with the request's economics, and CLOSED_RECONCILED has an opposite fill of the same deal that nets to zero |
| `DemoSafety.FrozenForever` | src/ig_trader/demo_execution.py:431-442 | Rejected, failed-safe and closed records, and one left SUBMITTING by a crash, never change and never reach the broker again |
| `DemoCloses.ClosesFollowOpenings` | src/ig_trader/demo_execution.py:483-521 | In every durable state of every run, close calls are openings less what is still open plus close calls without a written outcome, and those are the steps that crashed between the call and the write, with the call in progress |
| `DemoCloses.CloseCallsNeverExceed` | src/ig_trader/demo_execution.py:483-521 | Without such a crash close calls never exceed openings, and between calls every outcome is written and the count is exact |
| `DemoCloses.EachCloseHasItsOpening` | src/ig_trader/demo_execution.py:431-521 | Before the first close call, and between any two unless the earlier one crashed before its write, there is an open reconciliation of that record |
| `DemoCloses.InterruptedCloseRepeats` | src/ig_trader/demo_execution.py:483-521 | A run from the empty store with one such crash, in which a single opening carries two close calls |
| `DemoWriters.SerialIsDurable` | src/ig_trader/demo_execution.py:401-555 | Interleaved effect by effect but one operation at a time, every state is a durable state of a run of the core |
| `DemoWriters.CoreIsSerial` | src/ig_trader/demo_execution.py:401-555 | And every run of the core is such an interleaving |
| `DemoWriters.FinalNeedsOneAtATime` | src/ig_trader/demo_store.py:97-123 | Rejected, failed-safe and closed records never change in any run of any number of writers if and only if operations never overlap |
| `DemoWriters.CreateOnceNeedsOneAtATime` | src/ig_trader/demo_store.py:62-95 | At most one create call per intent in any run of any number of writers if and only if operations never overlap |
| `DemoWriters.QuietFinalStays` | src/ig_trader/demo_store.py:97-123 | With any number of writers, a final record stays what it is once no operation on it has an effect to come |
| `DemoWriters.StaleReplaceRun` | src/ig_trader/demo_operator.py:485-611 | A run from the empty store in which two overlapping close reconciliations overwrite CLOSED_RECONCILED |
| `DemoWriters.DoubleCreateRun` | src/ig_trader/demo_execution.py:571-588 | A run from the empty store in which two overlapping submits of one intent make two create calls |
| `DemoFlatten.CloseAllDemoPositions` | src/ig_trader/demo_operator.py:571-611 | An unowned broker position blocks everything before the first close; on success every owner is CLOSED_RECONCILED by exactly one close call; on failure the first that is not proven closed stops the rest |
| `DemoFlatten.OwnersAre` | src/ig_trader/demo_operator.py:582-587 | A deal is owned if and only if some record is OPEN_RECONCILED with a position of that deal, and the last such record in the listing is its owner |
| `DemoFlatten.OneClose` | src/ig_trader/demo_operator.py:594-605 | One attempt touches one record and adds at most one close call, never a second one for a record already closed |
| `DemoOperator.SQLiteWorkerRegistry.AcquireStartFor` | src/ig_trader/demo_operator.py:166-193 | A refused start leaves the row unchanged, the SAFE_STOP write before the stale-heartbeat refusal included |
| `DemoOperator.SQLiteWorkerRegistry.AssignWorker` | src/ig_trader/demo_operator.py:195-204 | The row is handed to a worker only from STARTING with the kill switch released |
| `DemoOperator.SQLiteWorkerRegistry.Beat` | src/ig_trader/demo_operator.py:206-225 | Only the pid in the row passes, and only in the three working states |
| `WorkerStates.BeatsOnlyBeat` | src/ig_trader/demo_operator.py:206-225 | A heartbeat passes exactly for the row's pid in a working state, and changes only the heartbeat time and a missing start time |
| `DemoOperator.SQLiteWorkerRegistry.Kill` | src/ig_trader/demo_operator.py:286-299 | Emergency Kill blocks from any state |
| `DemoOperator.SQLiteWorkerRegistry.ReleaseKillForRecovery` | src/ig_trader/demo_operator.py:301-318 | The release is refused while the pid in the row is alive |
| `DemoOperator.SQLiteWorkerRegistry.ReportStopped` | src/ig_trader/demo_operator.py:320-336 | Only the pid in the row can clear it |
| `WorkerSafety.StepInv` | src/ig_trader/demo_operator.py:166-336 | Every transaction, and every process starting or dying between them, keeps the row's owner the only unstopped live worker or starter |
| `WorkerSafety.OneWorker` | src/ig_trader/demo_operator.py:166-225 | At any moment at most one process that ever owned the row is alive and unstopped |
| `WorkerSafety.HeartbeatPassesOnce` | src/ig_trader/demo_operator.py:206-225 | Once another process passes heartbeat, the earlier one is dead or has stopped |
| `WorkerSafety.HandOver` | src/ig_trader/demo_operator.py:166-204 | The row passes only from a starter to its own child, or from a dead pid whose heartbeat is over 20 seconds old |
| `WorkerSafety.StartNeedsSilence` | src/ig_trader/demo_operator.py:166-193 | No start succeeds while any earlier worker or starter is alive and unstopped |
| `WorkerSafety.KillSticks` | src/ig_trader/demo_operator.py:286-318 | After Emergency Kill only a successful release leaves SAFE_STOP or STOPPED, and until then no process starts, resumes or passes heartbeat |
| `WorkerStates.StopSticks` | src/ig_trader/demo_operator.py:227-241 | A requested stop stays requested until its owner ends, a kill, a recovery of a dead owner's row or a takeover from one; every heartbeat meanwhile is the owner's and sees it, and the owner's report then leaves STOPPED |
| `WorkerStates.PauseSticks` | src/ig_trader/demo_operator.py:243-262 | A pause lasts until a resume, a stop request or one of these, under the same owner |
| `WorkerStates.StartMoves` | src/ig_trader/demo_operator.py:166-284 | STARTING: exactly which transactions enter and leave it |
| `WorkerStates.WorkMoves` | src/ig_trader/demo_operator.py:195-284 | RUNNING: exactly which transactions enter and leave it |
| `WorkerStates.PauseMoves` | src/ig_trader/demo_operator.py:227-284 | PAUSED: exactly which transactions enter and leave it |
| `WorkerStates.StopMoves` | src/ig_trader/demo_operator.py:227-284 | STOP_REQUESTED: exactly which transactions enter and leave it |
| `WorkerStates.RestMoves` | src/ig_trader/demo_operator.py:286-336 | What a stopping owner, a failed start, a recovery and a kill leave, and that a row at rest is otherwise untouched |
| `WorkerStates.SwitchMoves` | src/ig_trader/demo_operator.py:286-318 | Only a kill engages the switch and only a recovery with the owner gone releases it |
| `WorkerStates.WritesAreStamped` | src/ig_trader/demo_operator.py:377-399 | Every write carries its time; which writes set the start time, and which set, keep or clear the error |
| `CandleGaps.MissingTimestamps` | src/ig_trader/g3a_data.py:882-888 | The loop lists exactly the grid slots strictly inside the gap |
| `CandleGaps.GridContains` | src/ig_trader/g3a_data.py:882-888 | Which instants the grid of a window contains, both directions |
| `CandleGaps.PresentAndMissingPartition` | src/ig_trader/g3a_data.py:854-888 | In a window of grid candles each slot is present or missing, never both, and the missing ones come once and in order |
| `CandleGaps.AlignmentDecides` | src/ig_trader/g3a_data.py:865-888 | Missing slots lie on the resolution's grid if and only if the window starts on it or is empty: a misaligned start is itself reported missing |
| `CandleGrouping.GroupClassifiedGaps` | src/ig_trader/g3a_data.py:904-938 | The findings expand to exactly the classified slots in order with their classes, count all of them, and no two neighbours could be merged |
| `CandleGrouping.GroupingUnique` | src/ig_trader/g3a_data.py:904-938 | No other list of unmergeable findings stands for the same slots |
| `CandleGrouping.TotalOfIsCount` | src/ig_trader/g3a_data.py:424-428 | The reported total of a class is the number of slots classified so |
| `CandleCalendar.ExpectedMarketCount` | src/ig_trader/g3a_data.py:952-959 | The loop counts the grid slots outside the closure |
| `CandleCalendar.ClosureByHour` | src/ig_trader/g3a_data.py:941-949 | The weekday and hour test is the interval from Friday 22:00 to Sunday 21:00 in whole hours of the week |
| `CandleCalendar.WholeWeeks` | src/ig_trader/g3a_data.py:941-959 | From any start, aligned or not, k whole weeks hold k times 121 hours of slots, for every interval that divides the hour |
| `CandleNormalization.KeptIff` | src/ig_trader/g3a_data.py:270-366 | A broker candle is kept if and only if its time, its four price blocks and its volume are sound |
| `CandleNormalization.KeptIsValid` | src/ig_trader/g3a_data.py:270-366 | A kept candle has valid geometry on both sides, is uncrossed and positive, and lies on its grid inside the window |
| `CandleNormalization.KeptReadsItsPaths` | src/ig_trader/g3a_data.py:270-366 | Each of the eight quotes, the four last trades, the volume and the times of a kept candle is what the document holds at its own path |
| `CandleNormalization.CountersMean` | src/ig_trader/g3a_data.py:316-333 | Which defect raises which counter, both directions, the zero-or-negative spread included |
| `CandleNormalization.CountersAddUp` | src/ig_trader/g3a_data.py:135-145 | Over a whole answer each counter is how often its candles raise that very one |
| `CandleNormalization.AnswerAccounted` | src/ig_trader/g3a_data.py:135-145 | Over a whole answer every raw candle is kept or counted as rejected, and the eight counters stay consistent with one another |
| `CandleNormalization.KeptOnGrid` | src/ig_trader/g3a_data.py:294-300 | In an aligned window the kept candles are valid and on the window's grid |
| `CandleAggregation.AggregationKeepsValidity` | src/ig_trader/g3a_data.py:697-773 | From valid second bars the minute bar has valid geometry on both sides and is uncrossed in all four fields |
| `CandleAggregation.MinuteBarMeans` | src/ig_trader/g3a_data.py:742-773 | The bar opens at the earliest second, closes at the latest, and its extremes are those of its seconds, on both sides |
| `CandleAggregation.AggregationIgnoresOrder` | src/ig_trader/g3a_data.py:711-732 | The minute bar or its refusal depends on which bars are given, not on their order |
| `CandleAggregation.StrictIffComplete` | src/ig_trader/g3a_data.py:719-732 | Strict mode yields a bar exactly when the minute holds its sixty seconds once each, for this instrument |
| `CandleAggregation.LooseIffSomeSeconds` | src/ig_trader/g3a_data.py:708-731 | Outside strict mode any seconds of the instrument, no two of one instant, make a bar; a start inside a minute is the error in both modes |
| `CandleAggregation.MinuteBarCarries` | src/ig_trader/g3a_data.py:732-773 | Last trades and volume are those of the seconds if every second has them and absent otherwise; the bar is a derived minute of its instrument at its start |
| `CandleAggregation.SortIsStable` | src/ig_trader/g3a_data.py:711-718 | Candles of one instant keep the order in which they came |
| `CandleMissing.CountMissing` | src/ig_trader/g3a_data.py:391-396 | The nested counting loops |
| `CandleMissing.OccurrenceIsCount` | src/ig_trader/g3a_data.py:391-396 | The counter at a slot is the number of series of that resolution that lack it |
| `CandleMissing.AbsentIncreasing` | src/ig_trader/g3a_data.py:854-888 | A series never reports a slot twice, whatever its candles and window |
| `CandleMissing.AbsentHasNoCandle` | src/ig_trader/g3a_data.py:854-888 | A slot that a series reports missing holds no candle of it, whatever its candles and window |
| `CandleMissing.OpenAbsences` | src/ig_trader/g3a_data.py:891-901 | Absent slots outside the weekend are session gaps or actually missing |
| `CandleStale.StaleSequences` | src/ig_trader/g3a_data.py:962-982 | The reported sequences are, one for one and in order, the longest runs of unchanged quotes of at least five candles |
| `CandleQuality.QualifyOne` | src/ig_trader/g3a_data.py:399-483 | One series: its findings stand for its classified missing slots across all raw gaps, and every figure, status and reason code follows |
| `CandleQuality.QualifySeries` | src/ig_trader/g3a_data.py:386-484 | Every series has the right verdict; an unsupported resolution fails the whole call; a later series with the same key replaces an earlier one |
| `CandleQuality.LastWins` | src/ig_trader/g3a_data.py:466-484 | The entry of a key is the verdict of its last series |
| `CandleQuality.CleanIffIncreasing` | src/ig_trader/g3a_data.py:401-405 | No duplicate and no backward step together mean strictly increasing timestamps |
| `CandleQuality.QualifiedByAbsences` | src/ig_trader/g3a_data.py:447-460 | QUALIFIED if and only if nothing was rejected or flagged, timestamps strictly increase, sixty candles are present, and each reported absence is weekend or missing in exactly three series, for every window |
| `CandleQuality.QualifiedIff` | src/ig_trader/g3a_data.py:447-460 | In an aligned window QUALIFIED if and only if nothing was rejected or flagged, timestamps strictly increase, sixty candles are present, and each slot of the grid is present, weekend, or missing in exactly three series |
| `CandleQuality.OtherStatuses` | src/ig_trader/g3a_data.py:447-460 | When a series is TIMEZONE_GAP or PARTIAL_DATA instead, both directions |
| `CandleQuality.FiguresMean` | src/ig_trader/g3a_data.py:466-483 | The span is that of the candles, the missing count is the number of absent slots, and the large gaps are those of at least five |
| `CandleQuality.QualifiedSound` | src/ig_trader/g3a_data.py:447-460 | With one series per instrument, a slot that a qualified series reports absent is weekend closure or absent, without a candle, from all three instruments, for every window |
| `CandleQuality.MarketSlotsConserved` | src/ig_trader/g3a_data.py:420-465 | In an aligned series without duplicates, expected market slots are open candles plus session-gap slots plus actually missing slots |
| `CandleQuality.CodesExplainStatus` | src/ig_trader/g3a_data.py:429-460 | With counters as the normalizer leaves them, a series is QUALIFIED exactly when staleness is its only reason code |
| `CandleQuality.CodesMean` | src/ig_trader/g3a_data.py:429-446 | A verdict carries each of the twelve reason codes exactly when its own figures or the counters warrant it |
| `CandleQuality.GapsDetermined` | src/ig_trader/g3a_data.py:406-418 | The reported gaps of a series are determined by its missing slots |
| `RateLimit.DQ03RateLimiter.BeforeRequest` | src/ig_trader/dq03/rate_limit.py:38-55 | Discard, wait once, discard again, then admit or refuse |
| `RateLimit.DQ03RateLimiter.Create` | src/ig_trader/dq03/rate_limit.py:20-36 | A policy is accepted exactly when both its numbers are positive |
| `RateLimit.WindowNeverExceeded` | src/ig_trader/dq03/rate_limit.py:38-59 | For any run with a forward clock and any sleeper, no window holds more admissions than the maximum, over the full history, and the counter is the number admitted |
| `RateLimit.SpacedIffWindowLimit` | src/ig_trader/dq03/rate_limit.py:15-18 | The window limit is the same as: any maximum + 1 successive admissions span the window |
| `RateLimit.RefusedIffExhausted` | src/ig_trader/dq03/rate_limit.py:38-55 | In every run and judged by the full history: a request is refused exactly when the limit is reached at its last reading; it sleeps exactly when it is reached at its first, until the oldest of those admissions leaves |
| `RateLimit.WaitingSucceeds` | src/ig_trader/dq03/rate_limit.py:43-53 | A run whose sleeper really waits as long as asked admits every request |
| `DemoQualification.MaxDrawdown` | src/ig_trader/demo_qualification_evaluator.py:125-133 | The one pass computes the largest fall from any equity, the start included, to any later one |
| `DemoQualification.LosingStreak` | src/ig_trader/demo_qualification_evaluator.py:136-142 | The longest losing run at the end |
| `DemoQualification.EvaluateDemoResults` | src/ig_trader/demo_qualification_evaluator.py:48-102 | All metrics and the classification; a minimum that is not positive is an error |
| `DemoQualification.QualifiedIff` | src/ig_trader/demo_qualification_evaluator.py:86-102 | DEMO_QUALIFIED if and only if enough trades, positive net R, a losing trade, wins at least 1.1 times losses, every contiguous block at least -2R, and no five losses at the end |
| `DemoQualification.OtherClassifications` | src/ig_trader/demo_qualification_evaluator.py:86-102 | When a series is not started, a low sample or rejected, and that wins and losses count the trades above and below zero |
| `DemoQualification.NetIsWinLessLoss` | src/ig_trader/demo_qualification_evaluator.py:59-61 | Net R is gross win less gross loss |
| `DemoQualification.OneMoreTrade` | src/ig_trader/demo_qualification_evaluator.py:57-83 | A further trade adds its own R, profit, costs and rejection to those of the series |
| `DemoQualification.RatesMean` | src/ig_trader/demo_qualification_evaluator.py:64-71 | The win rate and expectancy over the winning trades and the sum of R themselves; the profit factor is missing exactly without a losing trade, and is else what was won over what was lost |
| `Migrations.AcceptedIffPrefix` | src/ig_trader/db_bootstrap.py:562-592 | A plan accepts exactly the states in which a prefix of the migrations is complete and recorded with its checksums, and returns the rest |
| `Migrations.ClassNamesPrefix` | src/ig_trader/db_bootstrap.py:595-607 | Classification names that prefix and never fails on a state the plan accepts |
| `Migrations.RefusalsMean` | src/ig_trader/db_bootstrap.py:562-592 | Every other state is refused for its reason: unknown objects first, then the first migration objected to, then a hole in the order |
| `Migrations.ObjectionMeans` | src/ig_trader/db_bootstrap.py:244-250 | What one migration is objected to for: some but not all of its objects, objects without their checksum, or a record without objects |
| `Migrations.Database.ApplyRequiredMigrations` | src/ig_trader/db_bootstrap.py:610-642 | Commits one migration at a time and verifies it, for scripts with any effect; every committed state is recorded |
| `Migrations.StepMeans` | src/ig_trader/db_bootstrap.py:619-639 | One migration commits once or not at all, and each failure has its own cause; a committed one stops the job exactly if an object of it is missing |
| `Migrations.FirstFailureStops` | src/ig_trader/db_bootstrap.py:619-639 | The first migration that fails stops the job, and what was committed until then stays |
| `Migrations.JobCompletes` | src/ig_trader/db_bootstrap.py:610-642 | From any accepted state the job commits one longer prefix after another and ends complete |
| `Migrations.StopAndResume` | src/ig_trader/db_bootstrap.py:610-642 | A stop after any commit leaves an accepted state; a rerun makes exactly the remaining commits; once complete it is a no-op |
| `Migrations.SuccessIsComplete` | src/ig_trader/db_bootstrap.py:630-642 | Whatever the scripts did, a reported success leaves every migration complete and recorded |
| `Privileges.CleanIff` | src/ig_trader/db_bootstrap.py:1057-1248 | A clean audit means every needed privilege, no prohibited one, and no attribute, membership or ownership of the role |
| `Privileges.CleanIsExactly` | src/ig_trader/db_bootstrap.py:1035-1054 | The same object by object: read the ten tables, append to eight, update five, delete from none; use and read the event sequence; execute the five lease functions and no other; no attribute, membership or ownership |
| `Privileges.AuditedIff` | src/ig_trader/db_bootstrap.py:1057-1105 | An audit needs the role, the schema, exactly the ten tables and the five functions |
| `Privileges.CleanWithoutSequenceIffAbsent` | src/ig_trader/db_bootstrap.py:1121-1144 | Over the same objects some clean audit leaves the role without anything on the event sequence if and only if that sequence is absent |
| `Privileges.NeededIsSupported` | src/ig_trader/db_bootstrap.py:1035-1054 | Every privilege an audit can miss is one the repair can grant |
| `Privileges.GrantsComplete` | src/ig_trader/db_bootstrap.py:1446-1477 | Granting what an audit found missing leaves nothing missing and adds nothing prohibited |
| `PrivilegeRepair.Session.GrantMissing` | src/ig_trader/db_bootstrap.py:1446-1477 | Grants exactly the missing supported labels and nothing else, at one statement each; the unsupported-grant error is raised exactly when a missing label is none of them |
| `PrivilegeRepair.Server.RunPrivilegeRepair` | src/ig_trader/db_bootstrap.py:1514-1557 | Succeeds exactly when the grants were applied, acknowledged and cleaned up; never meets the unsupported-grant error; ends clean; the temporary membership outlives a run exactly when the grants were applied and the commit was unacknowledged or the cleanup was not applied |
| `PrivilegeRepair.Server.RunPrivilegeDriftRepair` | src/ig_trader/db_bootstrap.py:1575-1660 | The same with the one known excess taken back; its cleanup runs whenever the membership statement succeeded, so only a failed cleanup leaves the membership |
| `DemoCodec.ShapeMeans` | src/ig_trader/demo_execution.py:653-684 | A request can be constructed if and only if each of its facts has its form, character by character |
| `DemoCodec.StoredForm` | src/ig_trader/demo_store.py:190-266 | A stored record reads back as itself with blank optional texts absent, or not at all when a mandatory text is empty |
| `DemoCodec.RoundTripIff` | src/ig_trader/demo_store.py:190-399 | The round trip is exact if and only if the request is well-shaped, no mandatory text is empty and no optional text is blank |
| `DemoCodec.TextsDecode` | src/ig_trader/demo_store.py:220-341 | A stored text decodes exactly to the lifecycle, direction, status or order type whose text it is, and any other text to none |
| `DemoCodec.ReadersFail` | src/ig_trader/demo_store.py:343-399 | A member of the wrong kind, and an identifier or instant that does not read, is the store's own error; only a decimal fails differently; a decoded request is well-shaped |
| `DemoCodec.LifecycleKept` | src/ig_trader/demo_store.py:220-262 | The ten lifecycle texts read back |
| `DemoTexts.FaithfulTexts` | src/ig_trader/demo_store.py:190-266 | Text forms under which every identifier, decimal and instant reads back exist |
| `DemoStore.SQLiteDemoExecutionStore.Put` | src/ig_trader/demo_store.py:62-95 | One record per intent and per deal reference; a known intent returns the stored record or conflicts |
| `DemoStore.SQLiteDemoExecutionStore.Replace` | src/ig_trader/demo_store.py:97-123 | Overwrites a known intent with the same request and keeps the lifecycle column equal to the document's |
| `DemoStore.SQLiteDemoExecutionStore.HasOtherCycleRecord` | src/ig_trader/demo_store.py:125-134 | Whether another intent of the cycle is stored |
| `DemoStore.SQLiteDemoExecutionStore.IncompleteRecords` | src/ig_trader/demo_store.py:136-149 | Exactly the records in the four restart-sensitive lifecycles, or the error of one that cannot be decoded |
| `DemoStore.IncompleteIsSensitive` | src/ig_trader/demo_store.py:42-47 | The four texts of the query are the four restart-sensitive lifecycles |
| `DemoProvenance.EvidenceIsTheBrokers` | src/ig_trader/demo_execution.py:401-555 | In every durable state each confirmation, submission, close submission and position of a record is one that a call of the run had returned |
| `DemoTransport.GetConfirmation` | src/ig_trader/demo_transport.py:214-235 | A confirmation handed on has a status and a reference and no blank optional text, whatever the broker answered |
| `DemoTransport.Acknowledged` | src/ig_trader/demo_transport.py:359-363 | A submission handed on has a reference and no blank deal id |
| `DemoTransport.ConfirmedIff` | src/ig_trader/demo_transport.py:214-226 | A confirmation is handed on if and only if its reference can be asked for and the answer states one of the two outcomes |
| `DemoTransport.ConfirmationReads` | src/ig_trader/demo_transport.py:222-235 | Each of its fields is what the answer holds at that member; only a missing reference and status have a substitute |
| `DemoTransport.AcknowledgementReads` | src/ig_trader/demo_transport.py:359-363 | A submission is handed on if and only if the acknowledgement has a reference, with that reference and deal |
| `DemoTransport.StrippedMeans` | src/ig_trader/demo_transport.py:443-444 | Of a text only the blanks at its ends go |
| `DemoRestart.ReadsBackIff` | src/ig_trader/demo_store.py:220-399 | In every durable state of every run of constructed requests, a record reads back unless it is a rejection with an empty status or reference |
| `DemoRestart.AllReadBack` | src/ig_trader/demo_store.py:220-399 | If every confirmation has a status and a reference, every record of every durable state reads back |
| `DemoRestart.TransportRecordsKept` | src/ig_trader/demo_transport.py:214-235 | With the transport's texts every record of every durable state reads back as exactly itself |
| `DemoRestart.SilentRejectionIsUnreadable` | src/ig_trader/demo_store.py:303-341 | A run from the empty store in which a rejection without a status becomes a record that cannot be read back |
| `DemoRestart.RestartQueryNeverFails` | src/ig_trader/demo_store.py:136-149 | So the restart query never fails in such a state |
| `DemoRestart.CleanKeepsEvidence` | src/ig_trader/demo_store.py:303-341 | Reading back takes no evidence away |
| `DemoRestart.RestartKeepsEvidence` | src/ig_trader/demo_store.py:54-60 | After a restart at any durable state of any run, a record that reads back still has the evidence behind its lifecycle |
| `DemoDurable.StoredRunIsCoreRun` | src/ig_trader/demo_store.py:54-134 | For every run of the core over the stored form, where each operation works on what reading back gives or raises, the run of the same steps in memory makes the same calls and holds the same records up to blank optional texts, crash points included |
| `DemoDurable.WritesSucceed` | src/ig_trader/demo_store.py:97-123 | Every write of such an operation finds a readable record with its own request, so none of them raises midway |
| `DemoDurable.StoredCreateAtMostOnce` | src/ig_trader/demo_execution.py:401-429 | At most one create call per intent and cycle, over the stored form |
| `DemoDurable.StoredEvidence` | src/ig_trader/demo_execution.py:747-797 | What reads back as open or closed in any state of such a run has the evidence of it |

## Left out

- Broker REST and streaming payloads other than confirmations and dealing acknowledgements, HTTP transport details, Azure identity, connection handling and logging: their results are parameters.
- SQL text and catalogue queries of the bootstrap jobs: the catalogue is a set of markers, a ledger and a set of privilege labels; migration scripts are functions on markers.
- Privileges that the runtime role has through PUBLIC or other roles: held privileges are effective ones, and only the drift repair's known excess is tied to PUBLIC.
- `DemoExecutionRequest` validation inside the dealing core: `DemoCodec.ShapeValid` models it where a record is decoded and where `DemoRestart` starts from constructed requests; the other theorems do not need it.
- JSON byte syntax, UUID and decimal text forms: `DemoCodec.Texts` stands for any faithful text forms, of which `DemoTexts` gives one.
- Row order of `incomplete_records` and `all_records`: the model returns a set, and flattening takes the order as given.
- Between the reads of one dealing operation: an overlapping operation can act after they are done, not between two of them.
- Rounding of binary floats and of 28-digit decimals in arithmetic; where a shadow price lies midway between two fifteen-digit decimals, the model rounds it to even and the database by its binary value.
- Average holding time in the demo metrics.
- The parsing of broker timestamps: a function parameter of the normalizer.
- Request counters shared with other observers: the limiter's counters start at zero.
- Manifests, replay sufficiency, overall classification, canonical row loading and decimal comparison of candles: single-branch members beside the quality verdict.
- Recovery inspection, ownership remediation and principal checks of the database jobs.
- Indicators, strategies, portfolio and risk rules, dashboard, command-line parsers and evidence rendering.
- LeaseFencing.CommitsUnderTheRow: a fence check and its commit are two steps that hold the row lock; statement timeouts inside the transaction appear only as failures of the whole transaction.
