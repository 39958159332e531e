# ValidatorForge: a verified model of the orchestration core

ValidatorForge runs deployments of validator nodes: provision, upgrade, failover and
decommission. A deployment passes a rate limiter and a bulkhead, reads its node, stores an
opened run, executes a plan of agent calls as a compensating saga, walks the node along a
lifecycle path and stores both records again. Every agent call goes through a circuit
breaker, a bounded retry and a timeout.

This project models that core in Dafny and proves what it keeps. `dafny verify
dfyconfig.toml` verifies all of it.

## Structure

| File | What it holds |
|---|---|
| domain.dfy, records.dfy | values, errors and events; the two records the engine mutates |
| ratelimit.dfy | the lazy token bucket, and the window law it stands for |
| breaker.dfy | the circuit breaker, and the stateless reading of its history that it refines |
| retry.dfy | backoff arithmetic with its saturations written out, and the retry loop |
| agent.dfy | the resilient agent: breaker, retry and timeout around an arbitrary raw agent |
| saga.dfy, plan.dfy | the saga executor for any list of steps, and the concrete plans |
| hostmodel.dfy | what a saga does to the hosts, and what a rollback restores |
| rollback.dfy, lostrollback.dfy | whether a rollback can run at all behind the breaker that its own failure fed; inputs at which it is lost |
| repo.dfy, runid.dfy | the in-memory repository; run ids as printed and as read back |
| lifecycle.dfy, bulkhead.dfy, engine.dfy | lifecycle paths, slots, one deployment from admission to its end |
| machine.dfy | all deployments, registrations and the clock as an interleaving step machine |
| history.dfy | stored lifecycles over whole histories |
| refinement.dfy | the sequential engine is one schedule of the step machine |
| drift.dfy | what a deployment does to the hosts, and where they and the records part |
| outcomes.dfy | what deployments come to, written out case by case for the engine and for the machine |

Code that changes things step by step is a class with loops and frames (`RateLimiter`,
`CircuitBreaker`, `ResilientNodeAgent`, `SagaExecutor`, `InMemoryNodeRepository`,
`OpsEngine`, the records and the bulkhead), each method tied to a function of the old state.
The properties are proved about those functions, and about the histories that ghost logs
record. The step machine takes every lock, atomic operation, port call and published event
as one step. Its environment is arbitrary: which call moves next, what the agent answers,
whether a port call fails, whether the write of a failed call landed all the same, and
when a call is abandoned.

## Main results

- The lazy bucket grants a request exactly when every window since its creation allows it,
  for any clock readings (`RateLimiter.TryAcquireN`).
- The breaker is a function of its log; questions leave no mark (`RefinesItsLog`,
  `QuestionsLeaveNoMark`).
- A guarded call in closed form, with its exact number of attempts (`GuardClosedForm`).
- The exact trace of a saga, for every step list and every behaviour (`ExactTrace`), and the
  undo law (`RolledBackRestores`).
- The exact threshold at which a rollback loses a compensation to the breaker
  (`RollbackThresholdExact`), with the free and the blocked case (`RollbackNotBlocked`,
  `RollbackBlocked`), and at the default settings a provision that loses the destruction of
  its half-made host (`DefaultsLoseDestroy`).
- The end of every saga and the fleet it leaves, read off which of its calls fail
  (`SagaEnding`), hence exactly when a rollback restores the fleet (`ProvisionRollback`,
  `RollbackLeavesHostDrained`) and when a refused deployment left it alone
  (`RefusedDeploymentActs`).
- Over every interleaving, failure and abandonment: slots, ids and admission
  (`AdmissionSafety`), the run store (`StoredRuns`, `TerminalRunsNeverChange`), the node store
  (`OnlyRestingStatesStored`), acceptance (`AcceptanceExact`), and exactly which steps take a
  stored node off its lifecycle (`StepLeavesLifecycle`, `StoredLifecycleExactly`).
- What each kind of deployment comes to, state by state and event by event: for the engine
  (`AcceptedDeployment`, `RefusedDeployment`, `DeploymentStored`), on the hosts
  (`FailoverMovesVote`, `WorkingCallsAct`) and for every answered call of the machine
  (`AnsweredCallIs`). Likewise the calls a plan makes (`ProvisionCalls` and its three
  siblings), which errors are retried (`OneAttemptEnough`, `HangingAgent`), and the limiter
  and the backoff in milliseconds and nanoseconds (`WindowsInMillis`, `BackoffExact`).
- The sequential engine is one of these schedules, under any clock and with equal records
  (`EngineIsASchedule`).

## Where the code is not what its documentation says

The model follows the code.

- The breaker's comments speak of a single half-open probe (breaker.rs:3-5, 19). `acquire`
  lets every caller through while half-open (breaker.rs:97-104): `HalfOpenAdmitsEveryCaller`
  says when a second caller is refused.
- README.md:264 and EVALUATION.md:56 promise `CircuitOpen` from an open breaker. `guard` returns
  `PortError::Unavailable` (agent.rs:54-58), and so does `GuardedCall`.
- engine.rs:197 says that compensation restored a safe state. A drain has no compensation, and a
  start is undone by draining. `RollbackLeavesHostDrained` gives the fleet a rolled-back upgrade,
  failover or decommission leaves, and that it is the old one exactly when the first call failed,
  the host does not exist, or it was drained before and, if an upgrade's start got through, ran
  the target version already. `RollbackLeavesTargetVersion` is an input on a drained host;
  `RolledBackUpgradeDrifts` shows the record keeping the old version.
- node.rs:71-73 says that a node never silently ends up in an inconsistent state. There is no lock
  per node and a registration is an upsert. `StepLeavesLifecycle` says exactly which steps take a
  stored state off the graph: saving a node whose path ends elsewhere than the terminal state
  stored, or in provisioning over active; and registering over anything but provisioning.
  `OverlapRevivesFailedNode` and `ReRegistrationRevivesFailedNode` are histories of each kind.
- The lifecycle is asked only after the saga ran (engine.rs:134-143). `ProvisionOfActiveNode`:
  provisioning an active node is always refused, and once rolled back its live host is gone.
- Run ids are printed in hexadecimal and queried in decimal: `QueryByPrintedId` shows that the
  printed id finds its run exactly when the id is below ten, and `SixteenReadsAsTen` that it can
  find another.
- `backoff_for` divides by zero when the truncated span of its jitter is zero: `PanicsExactly`
  gives the condition on the policy, `LongDelayPanics` a policy.

## Assumptions

- `f64` is idealised as `real`.
- The breaker's clock is monotone. The limiter's clock need not be; a reading that goes back
  counts as the latest one seen.
- `consecutive_failures`, `next_run` and the clocks do not overflow.
- Where a retry loop runs, half of `max_delay` fits in 64 bits of nanoseconds (`Usable`). The
  backoff lemmas do not need it.
- Tokens requested are at least zero in `NeverOverAdmits`; the class does not need it.
- The clock readings that end up in a deployment's records are numbered; the readings of events are not kept.
- tokio's timeout cuts an attempt off exactly at `op_timeout`; its semaphore is a count of permits.
- In hostmodel.dfy a successful agent call has the effect ports.rs documents, and a failed one
  changes no host.

## Model

| member | source | states |
|---|---|---|
| RateLimit.RefillKeepsLeastSlack | crates/validatorforge-resilience/src/ratelimit.rs:39-47 | after a refill at any clock reading the level is still the least slack over all windows that end at the latest time seen |
| RateLimit.LevelDecides | crates/validatorforge-resilience/src/ratelimit.rs:58-63 | the bucket holds n tokens if and only if every window allows n more |
| RateLimit.TryTakeConforms | crates/validatorforge-resilience/src/ratelimit.rs:55-64 | one request is granted exactly when every window since creation stays within capacity plus rate times length, and the bucket then explains the longer log |
| RateLimit.ReplayExplains | crates/validatorforge-resilience/src/ratelimit.rs:26-64 | after any sequence of requests from creation on, under any clock, the stored numbers are the least slack of the whole log |
| RateLimit.NeverOverAdmits | crates/validatorforge-resilience/src/ratelimit.rs:39-64 | the tokens granted from any moment to the last call are at most the capacity plus what the rate earned since that moment |
| RateLimit.WindowsInMillis | crates/validatorforge-resilience/src/ratelimit.rs:39-63 | the window law in tokens and milliseconds: a thousand times what a window took beyond the capacity is at most the rate times its milliseconds |
| RateLimit.EmptiedBucket | crates/validatorforge-resilience/src/ratelimit.rs:39-64 | a bucket emptied at some moment grants n tokens, up to its capacity, exactly when a thousand times n is at most the rate times the milliseconds since |
| RateLimit.GrantedOverSeconds | crates/validatorforge-resilience/src/ratelimit.rs:39-64 | over any whole seconds at most the capacity and the rate times the seconds is granted, negative settings counting as zero |
| RateLimit.RateLimiter.Refill | crates/validatorforge-resilience/src/ratelimit.rs:39-47 | the in-place update is the refill function of the old level and keeps the invariant |
| RateLimit.RateLimiter.TryAcquireN | crates/validatorforge-resilience/src/ratelimit.rs:55-64 | granted if and only if in no window since creation a thousand times the tokens beyond the capacity would exceed the rate times its milliseconds; the log gains exactly what was taken |
| RateLimit.RateLimiter.Available | crates/validatorforge-resilience/src/ratelimit.rs:67-71 | the level returned is the largest request that every window would allow now, and reading it takes nothing |
| Breaker.ReplayEncodes | crates/validatorforge-resilience/src/breaker.rs:84-130 | after any monotone history the three fields encode the failure streak and the time of the last failure |
| Breaker.RefinesItsLog | crates/validatorforge-resilience/src/breaker.rs:84-130 | refused exactly when at least threshold failures followed the last success and the latest is less than a cooldown ago; the stored opening time is that latest failure's |
| Breaker.TripsAtThreshold | crates/validatorforge-resilience/src/breaker.rs:84-130 | fresh or after a success, fewer than threshold failures in a row leave it closed; from then on it is open until a cooldown after the latest and half-open afterwards |
| Breaker.QuestionsLeaveNoMark | crates/validatorforge-resilience/src/breaker.rs:73-104 | after two histories with the same recorded outcomes the machine answers alike at every later time, however often it was asked in between |
| Breaker.HalfOpenAdmitsEveryCaller | crates/validatorforge-resilience/src/breaker.rs:97-104 | a cooled-down breaker admits a caller, and a second one exactly unless a failure was recorded since and still cools down |
| Breaker.CircuitBreaker.Refresh | crates/validatorforge-resilience/src/breaker.rs:84-91 | the stored state becomes the state the outcomes determine now |
| Breaker.CircuitBreaker.State | crates/validatorforge-resilience/src/breaker.rs:73-77 | returns the state the outcomes determine now |
| Breaker.CircuitBreaker.Acquire | crates/validatorforge-resilience/src/breaker.rs:97-104 | refuses exactly on a tripped streak within the cooldown; half-open admits every caller |
| Breaker.CircuitBreaker.OnSuccess | crates/validatorforge-resilience/src/breaker.rs:107-111 | closes the breaker from any state and keeps it an encoding of its log |
| Breaker.CircuitBreaker.OnFailure | crates/validatorforge-resilience/src/breaker.rs:114-130 | counts, trips or re-opens, and keeps the fields an encoding of the log |
| Retry.FactorIsClampedPower | crates/validatorforge-resilience/src/retry.rs:48-51 | the shift that goes missing at 64 and the conversion that fails at 32 together are one clamp of the power of two |
| Retry.CapExact | crates/validatorforge-resilience/src/retry.rs:47-52 | the cap through both saturations is the minimum of max_delay and base times the clamped power, so at most base times the power |
| Retry.CapGrows | crates/validatorforge-resilience/src/retry.rs:47-52 | the next cap is no smaller and at most twice as large |
| Retry.CapMonotone | crates/validatorforge-resilience/src/retry.rs:47-52 | caps never fall as retries go on |
| Retry.CapsByDoubling | crates/validatorforge-resilience/src/retry.rs:47-52 | the first cap is the base delay, each next one twice the last, none above max_delay, and from retry 32 on they stay at 2^32 - 1 base delays |
| Retry.BackoffRange | crates/validatorforge-resilience/src/retry.rs:53-66 | a nonzero cap gives a delay in its upper half and below it, a zero cap gives none, and the jitter panics exactly when its span is a nonzero multiple of 2^64 nanoseconds |
| Retry.BackoffExact | crates/validatorforge-resilience/src/retry.rs:53-66 | the delay is the lower half of the cap plus the clock's nanoseconds modulo the rest of it; none for a zero cap |
| Retry.PanicsExactly | crates/validatorforge-resilience/src/retry.rs:47-63 | the division by zero on the policy's own fields: the closed form of the cap, less its half, is a nonzero multiple of 2^64 nanoseconds |
| Retry.LongDelayPanics | crates/validatorforge-resilience/src/retry.rs:54-63 | a policy whose first backoff divides by zero |
| Retry.TotalSleepBound | crates/validatorforge-resilience/src/retry.rs:42-66 | k sleeps add up to at most k times max_delay and at most base times (2^k - 1) |
| Retry.StopsOnce | crates/validatorforge-resilience/src/retry.rs:79-94 | at most one attempt number can be where the loop stops |
| Retry.RunRetry | crates/validatorforge-resilience/src/retry.rs:73-95 | the loop stops at the first success, the first error that may not be retried or the last attempt of the budget, returns that attempt's result and slept exactly between its attempts |
| Agent.GuardClosedForm | crates/validatorforge-core/src/agent.rs:49-86 | refused exactly on a tripped streak within the cooldown and then without an attempt; else exactly k attempts, the last one's reply with timeouts mapped, exactly these outcomes logged; closed with zero failures exactly on success |
| Agent.GuardCost | crates/validatorforge-core/src/agent.rs:49-86 | at most max_attempts raw calls and one call budget of time, whatever the agent does; the time spent is the time that passed |
| Agent.OneAttemptEnough | crates/validatorforge-core/src/error.rs:26-28 | an admitted call whose first attempt ends in time with success, a rejection or an internal error makes that one attempt, returns its reply and takes its time |
| Agent.HangingAgent | crates/validatorforge-core/src/error.rs:26-28 | an agent that never answers in time is asked max_attempts times, and the call times out |
| Agent.UnavailableAgent | crates/validatorforge-core/src/error.rs:26-28 | an agent that is always unavailable is asked max_attempts times, and the call says so |
| Agent.OneRetry | crates/validatorforge-resilience/src/retry.rs:79-94 | one unavailable attempt and one that succeeds take their own time and, in between, the first backoff to the nanosecond |
| Agent.GuardWaits | crates/validatorforge-resilience/src/retry.rs:79-94 | a call of k attempts sleeps at least the lower halves of the first k - 1 caps and at most these caps |
| Agent.RefusedInMillis | crates/validatorforge-resilience/src/breaker.rs:84-104 | no attempt is made exactly when at least threshold failures followed the last success and the millisecond of the call is less than cooldown after the last of them |
| Agent.AttemptsClosedForm | crates/validatorforge-core/src/agent.rs:59-85 | from any attempt number on, the rest of the retry loop is determined by the raw agent's replies alone |
| Agent.ResilientNodeAgent.constructor | crates/validatorforge-core/src/agent.rs:28-40 | for any attempts and threshold, zero of either counting as one, a fresh breaker and counters at zero |
| Agent.ResilientNodeAgent.Guard | crates/validatorforge-core/src/agent.rs:49-86 | the imperative composition of breaker, retry and timeout computes exactly the guarded call of the old state |
| Agent.ResilientNodeAgent.Ask | crates/validatorforge-core/src/agent.rs:54-58 | the breaker is asked once, before all attempts |
| Agent.ResilientNodeAgent.RetryAttempts | crates/validatorforge-core/src/agent.rs:59-85 | the loop over attempts is the recursive attempts function, clock and breaker included |
| Agent.ResilientNodeAgent.AttemptOnce | crates/validatorforge-resilience/src/timeout.rs:17-24 | an attempt that outlasts op_timeout is cut off there, reads as a timeout and counts as a failure |
| Saga.SagaExecutor.Run | crates/validatorforge-core/src/saga.rs:183-228 | the loop with its early return computes status, world, completed steps and events of the recursive saga, in order |
| Saga.SagaExecutor.Unwind | crates/validatorforge-core/src/saga.rs:205-223 | compensates every completed step in reverse past failures; the flag says whether all succeeded; only successes are published |
| Saga.ExactTrace | crates/validatorforge-core/src/saga.rs:189-227 | for every step list and behaviour: execute on a prefix, at most one failing execute, one compensate per completed step in reverse; the status by whether a step and a compensation failed |
| Saga.CompletedEventsExact | crates/validatorforge-core/src/saga.rs:193-200 | the progress events are the completed prefix, in order |
| Saga.CompensatedEventsExact | crates/validatorforge-core/src/saga.rs:206-217 | the compensation events are the reverse order restricted to the successful ones |
| Saga.SagaEventsExact | crates/validatorforge-core/src/saga.rs:190-218 | all events of a saga: one per completed step in order, then one per successful compensation, each at its place, and no other |
| Saga.RolledBackRestores | crates/validatorforge-core/src/saga.rs:177-228 | if failed effects change nothing and compensations invert, RolledBack means the world is as it was, for any step list |
| Saga.StepMachineAgrees | crates/validatorforge-core/src/saga.rs:189-227 | the step-by-step reading of the executor ends with the same status, progress and world as the loop |
| Plan.ReachableStatuses | crates/validatorforge-core/src/saga.rs:144-162 | failover and decommission never end Failed; an upgrade does exactly when drain and start had completed and the draining compensation failed |
| Plan.ProvisionCalls | crates/validatorforge-core/src/saga.rs:47-162 | the calls a provision makes of its agent, in order up to the first failure, and then the undoing ones |
| Plan.UpgradeCalls | crates/validatorforge-core/src/saga.rs:47-162 | the same for an upgrade |
| Plan.FailoverCalls | crates/validatorforge-core/src/saga.rs:47-162 | the same for a failover to a known spare, which undoes nothing |
| Plan.DecommissionCalls | crates/validatorforge-core/src/saga.rs:47-162 | the same for a decommission, which undoes nothing |
| Plan.IdentityNeverSwappedBack | crates/validatorforge-core/src/saga.rs:121-162 | no plan ever compensates an identity swap, whatever the agent does |
| Plan.UnwindDrainAndStart | crates/validatorforge-core/src/saga.rs:81-106 | undoing drain and start is one more drain call, and succeeds exactly when that call does |
| HostModel.SagaEnding | crates/validatorforge-core/src/saga.rs:47-227 | the status of every plan's saga and the fleet it leaves are determined by which of its calls fail |
| HostModel.RolledBackExactly | crates/validatorforge-core/src/saga.rs:144-224 | which failing calls make a saga of each kind end rolled back |
| HostModel.ProvisionRollback | crates/validatorforge-core/src/saga.rs:47-84 | a rolled-back provision whose first call got through leaves every other host alone and the target gone; the fleet is restored exactly when that call failed or the host did not exist |
| HostModel.RollbackLeavesHostDrained | crates/validatorforge-core/src/engine.rs:192-200 | the fleet every other rolled-back plan leaves, host drained and possibly on the target version; restored exactly when the first call failed, the host does not exist, or it was drained before and already ran what was started |
| HostModel.RollbackLeavesTargetVersion | crates/validatorforge-core/src/saga.rs:72-106 | a drained host whose rolled-back upgrade leaves it on the target version |
| HostModel.SwapIsUndone | crates/validatorforge-core/src/saga.rs:121-129 | the compensation no plan comes to: a step failing after a swap puts the vote back on the host |
| Rollback.RollbackNotBlocked | crates/validatorforge-core/src/agent.rs:49-86 | in a lone saga the i-th compensation that calls the agent is admitted whenever threshold exceeds max_attempts times (1 + i), from any breaker state |
| Rollback.RollbackBlocked | crates/validatorforge-core/src/saga.rs:203-224 | with threshold at most max_attempts, after an exhausted failing step and within the cooldown, every compensation is refused without a raw call, and the saga ends Failed exactly when some completed step has one |
| Rollback.RollbackThresholdExact | crates/validatorforge-core/src/agent.rs:49-86 | when the failing step and the first i compensations used up their attempts within the cooldown, the next is refused if and only if threshold is at most max_attempts times (1 + i) |
| Rollback.AuditedOps | crates/validatorforge-core/src/saga.rs:206-207 | compensation i of those that call the agent makes call i of the plan's undoing calls, last completed step first |
| LostRollback.DyingSaga | crates/validatorforge-core/src/agent.rs:49-86 | for every plan, an agent that dies after k steps and a rollback that fits in the cooldown: compensation i is refused if and only if threshold is at most max_attempts times (1 + i), and the saga ends Failed |
| LostRollback.ProvisionLoses | crates/validatorforge-core/src/config.rs:36-54 | at the default settings but for the threshold, a provision failing to catch up loses its drain up to a threshold of 3 and the destruction of its host up to 6 |
| LostRollback.DefaultsLoseDestroy | crates/validatorforge-core/src/config.rs:36-54 | at the default settings the drain gets through and the destruction is refused |
| Rollback.SagaBudget | crates/validatorforge-resilience/src/retry.rs:79-94 | a saga of n steps makes at most max_attempts times (2n - 1) raw calls and spends at most 2n - 1 call budgets |
| Rollback.PlansAreBacked | crates/validatorforge-core/src/engine.rs:99-109 | once the spare is found every step of every plan is an agent call, and no prefix has more than two compensations that call the agent |
| Repo.UpsertIsMapUpdate | crates/validatorforge-infra/src/repo.rs:47-55 | saving a run is a map update for every id, keeps ids unique and moves no record |
| Repo.NewestFirstIsListing | crates/validatorforge-infra/src/repo.rs:61-67 | the listing is a permutation of the store, newest first, ties in insertion order |
| Repo.ListingIsUnique | crates/validatorforge-infra/src/repo.rs:61-67 | there is only one such arrangement, so it is what any stable sort gives |
| Repo.TopOfListing | crates/validatorforge-infra/src/repo.rs:61-67 | a limited listing is the front of that arrangement: no omitted run is newer than a shown one |
| Repo.ListedInOrder | crates/validatorforge-infra/src/repo.rs:61-67 | a limited listing read off the store: stored runs, newest first, those started together in the order of the store, and none left out that is newer than one shown |
| Repo.InMemoryNodeRepository.SaveRun | crates/validatorforge-infra/src/repo.rs:47-55 | the search loop and overwrite or push is the upsert, hence a map update |
| Repo.InMemoryNodeRepository.GetRun | crates/validatorforge-infra/src/repo.rs:57-59 | returns what the map view holds |
| Repo.InMemoryNodeRepository.ListRuns | crates/validatorforge-infra/src/repo.rs:61-67 | the first min(limit, size) entries of the unique listing |
| RunIds.HexRoundTrip | crates/validatorforge-types/src/ids.rs:192-196 | a hexadecimal reader inverts the 32-digit form on every 128-bit id |
| RunIds.DisplayByDigit | crates/validatorforge-types/src/ids.rs:192-196 | the last character is the lower-case digit of the remainder by 16, after the printed form of the quotient; zero is 32 zeros |
| RunIds.DisplayInjective | crates/validatorforge-types/src/ids.rs:192-196 | no two 128-bit ids print alike |
| RunIds.DecimalReader | crates/validatorforge-api/src/query.rs:42-45 | decimal digits, with or without a leading plus, are read to their value exactly when there is one and it fits 128 bits |
| RunIds.DecimalReading | crates/validatorforge-api/src/query.rs:40-45 | the decimal reader returns a printed id exactly when it is below ten; it rejects exactly the forms with a letter and never reads a larger number |
| RunIds.QueryByPrintedId | crates/validatorforge-api/src/query.rs:40-48 | the run query answers a printed id with its run exactly when the id is below ten, and rejects it exactly when a letter was printed |
| RunIds.SixteenReadsAsTen | crates/validatorforge-api/src/query.rs:42-45 | a printed id can name another run |
| Records.ValidatorNode.TransitionTo | crates/validatorforge-types/src/node.rs:264-278 | moves exactly along legal edges; a refused move changes nothing |
| Lifecycle.LifecycleGraph | crates/validatorforge-types/src/node.rs:123-155 | the twelve legal edges; the terminal states are those no edge leaves, decommissioned and failed |
| Lifecycle.AcceptsExactly | crates/validatorforge-core/src/engine.rs:174-200 | the whole path is legal exactly in the accepted states; a walk fails at its first edge or not at all; from a resting state it ends in one |
| Lifecycle.TerminalIsFinal | crates/validatorforge-types/src/node.rs:123-155 | no chain of legal edges leaves a terminal state |
| Lifecycle.LinkedMovesAreLegal | crates/validatorforge-core/src/engine.rs:141-152 | a linked chain of published moves is a legal path |
| Bulkheads.Bulkhead.TryAcquire | crates/validatorforge-resilience/src/bulkhead.rs:33-39 | a slot exactly when fewer than capacity guards are out |
| Engine.OpsEngine.StartDeployment | crates/validatorforge-core/src/engine.rs:82-171 | throttled exactly when a limiter window is full or no slot is free, and then nothing else changes; an unknown target, or else spare, is named in the answer and nothing changes; otherwise the complete result; the slot is free again on every return |
| Engine.OpsEngine.RunAdmitted | crates/validatorforge-core/src/engine.rs:93-113 | an unknown target, or else spare, is reported by its id before anything is written |
| Engine.OpsEngine.Deploy | crates/validatorforge-core/src/engine.rs:115-170 | accepted exactly when the node fits the finished saga; answer, records, node, world and events are determined, clock readings included |
| Engine.OpsEngine.OpenRun | crates/validatorforge-core/src/engine.rs:115-125 | takes the next id, stores the opened run and announces it |
| Engine.OpsEngine.RunPlan | crates/validatorforge-core/src/engine.rs:127-134 | the run's steps are the completed prefix of the plan's actions, world and events those of the saga |
| Engine.OpsEngine.Close | crates/validatorforge-core/src/engine.rs:153-170 | the version moves only on a successful upgrade; node and closed run are stored and the end announced |
| Engine.OpsEngine.Conclude | crates/validatorforge-core/src/engine.rs:136-170 | saves node and run and publishes the whole path, or on refusal writes and publishes nothing |
| Engine.OpsEngine.WalkPath | crates/validatorforge-core/src/engine.rs:141-152 | the walk reaches its end exactly when the whole path is legal, publishing exactly the moves made |
| Engine.StopsAtOnce | crates/validatorforge-core/src/engine.rs:141-143 | a walk that is refused was refused before anything was published |
| Engine.EndsStored | crates/validatorforge-core/src/engine.rs:115-170 | after a deployment the run store answers its closed or open record under its id and what it answered before under every other |
| Outcomes.AcceptedDeployment | crates/validatorforge-core/src/engine.rs:136-200 | an accepted deployment: the state, version and time its node is stored with, every node-state event, the record with its actions and clock readings, for each kind and status |
| Outcomes.RefusedDeployment | crates/validatorforge-core/src/engine.rs:136-200 | which states refuse a deployment of each kind and ending, with which illegal edge, the nodes as they were |
| Outcomes.DeploymentStored | crates/validatorforge-core/src/engine.rs:115-170 | the run stored under the new id is the answer, or the run as it was opened; every other id answers as before |
| Machine.CallStepKeeps | crates/validatorforge-core/src/engine.rs:82-171 | every step of every call, whatever the environment decides, keeps the call's and the stores' invariants, its slot account and all foreign and terminal runs |
| Machine.EndKeeps | crates/validatorforge-core/src/engine.rs:87-117 | a call may end early or be abandoned at any point and gives back exactly the slot it held |
| Machine.AlwaysInv | crates/validatorforge-core/src/engine.rs:82-171 | the invariant holds in every reachable state |
| Machine.AdmissionSafety | crates/validatorforge-core/src/engine.rs:87-115 | free slots plus calls in flight is the capacity; ids are distinct and below the counter; ids handed out never exceed the capacity plus what the rate earned in a lifetime, in milliseconds and in whole seconds |
| Machine.StoredRuns | crates/validatorforge-core/src/engine.rs:115-170 | a stored run belongs to the one call with its id and is open and empty, or closed with a prefix of its plan that is whole exactly on success |
| Machine.AnsweredIsStored | crates/validatorforge-core/src/engine.rs:160-170 | a call that returned a run returned the stored record, and announced its end |
| Machine.TerminalRunsNeverChange | crates/validatorforge-core/src/engine.rs:115-170 | a terminal record is the same in every later state |
| Machine.OnlyRestingStatesStored | crates/validatorforge-core/src/engine.rs:136-158 | stored nodes are provisioning, active, decommissioned or failed, even with overlapping runs |
| Machine.AcceptanceExact | crates/validatorforge-core/src/engine.rs:141-168 | without port failure or abandonment after its saga, a call is answered exactly when the node it read fits; otherwise no node write, no move, no end of run, and the stored run stays open |
| Outcomes.AnsweredCallIs | crates/validatorforge-core/src/engine.rs:136-170 | an answered call in every interleaving: its node-state events, the node write it made and the actions of a successful run, for each kind |
| Outcomes.StoredRunIs | crates/validatorforge-core/src/engine.rs:115-170 | every stored run is open and empty, or ended with the first actions of its kind, all of them exactly on success |
| Outcomes.RefusedExactly | crates/validatorforge-core/src/engine.rs:87-161 | when a step refuses its call, error by error |
| Outcomes.AbandonedAnywhere | crates/validatorforge-core/src/engine.rs:91 | a call dropped at any point frees the slot it held and changes nothing else |
| Outcomes.FailedSaveLands | crates/validatorforge-core/src/engine.rs:117-161 | a save that fails after its write landed refuses the call and leaves the record or node stored |
| Outcomes.LetInExactly | crates/validatorforge-core/src/engine.rs:87-90 | a deployment is let in exactly when every window still allows one token, in milliseconds |
| Outcomes.RestOfTheWorld | crates/validatorforge-core/src/engine.rs:68-71 | time passes, and a registration stores its node as provisioning |
| History.AlwaysHistory | crates/validatorforge-core/src/engine.rs:93-158 | without overlap and new registration, what a call in flight read is what is stored |
| History.RestingConnected | crates/validatorforge-types/src/node.rs:135-155 | which resting states are linked by legal edges |
| History.StepLeavesLifecycle | crates/validatorforge-types/src/node.rs:71-73 | in every history, a step takes a stored state off the lifecycle if and only if it is a landed save ending elsewhere than a stored terminal state, or in provisioning over active, or a landed registration over anything but provisioning |
| History.StoredLifecycleExactly | crates/validatorforge-types/src/node.rs:71-73 | over every history the stored states of a node are linked, each to every later one, if and only if no step is of that kind |
| History.StoredLifecycleIsLegal | crates/validatorforge-types/src/node.rs:135-155 | without overlap and new registration any two successive stored states are joined by legal edges, and decommissioned and failed are never left |
| History.StoredVersion | crates/validatorforge-core/src/engine.rs:153-158 | without overlap and new registration the stored version is the target of the latest upgrade saved as succeeded, else the registered one |
| History.MovesAreLinked | crates/validatorforge-core/src/engine.rs:141-152 | in every history a call's node-state events are a linked chain of legal edges from the state it read |
| History.OverlapRevivesFailedNode | crates/validatorforge-core/src/engine.rs:93-158 | with overlapping runs a failed node can be stored as provisioning again |
| History.ReRegistrationRevivesFailedNode | crates/validatorforge-core/src/engine.rs:68-71 | with a single call, registering a failed node again stores it as provisioning |
| Refinement.DriveSaga | crates/validatorforge-core/src/saga.rs:189-227 | the machine, driven by the agent's answers, makes the steps and publishes the events of the saga |
| Refinement.CallEndsLikeEngine | crates/validatorforge-core/src/engine.rs:82-171 | under any clock a fresh call can be driven to the same answer, records, node and events as the sequential engine |
| Refinement.EngineIsASchedule | crates/validatorforge-core/src/engine.rs:82-171 | the same as an execution in which only that call moves |
| Drift.RefusedDeploymentActs | crates/validatorforge-core/src/engine.rs:134-143 | a refused deployment stores no node, and left the fleet alone exactly when its calls came to nothing: for a provision by which of them failed, else by what was true of the hosts before |
| Drift.ProvisionOfActiveNode | crates/validatorforge-core/src/engine.rs:134-143 | a provision of an active node is always refused; rolled back after its first call, the live host is gone and its record says active |
| Drift.LiveHostDestroyed | crates/validatorforge-core/src/engine.rs:134-143 | so when tuning fails and destroying works |
| Drift.RolledBackUpgradeDrifts | crates/validatorforge-core/src/engine.rs:153-158 | a rolled-back upgrade whose start got through keeps the version on record while its host runs the target version |
| Drift.FailoverMovesVote | crates/validatorforge-core/src/engine.rs:99-132 | a failover whose calls work takes the vote from its node's host and gives it to its spare's, and changes nothing else |
| Drift.WorkingCallsAct | crates/validatorforge-core/src/engine.rs:110-134 | after a provision whose calls work the node's host runs the node's version and votes; after an upgrade the target version; after a decommission the host is gone |

## Left out

- GraphQL schema, DTO conversions, subscriptions, the web server, the CLI and telemetry: plumbing without an algorithm of its own; of the queries only the run lookup by id is modelled.
- The Postgres repository: SQL that cannot be seen here; the machine's arbitrary port failures cover its errors.
- The advisors, `evaluate_health` and `advise`, the configuration renderer: a network call, flat decision lists and templates.
- The broadcast event sink: publishing appends to a log; ring buffer and lag belong to tokio.
- `HealthSnapshot::classify` and the length checks of the newtypes: single-branch facts.
- The simulated agent: replaced by an arbitrary agent.
- Metrics, tracing, wire strings, serialisation, the text of error messages, the slot number of `await_catchup`, the timestamps of events.
- `Bulkhead::acquire`, which waits for a slot, and `list_nodes`: the engine's deployments use neither.
- Cluster, cluster name and role of a node are one field, `Placement`, since nothing reads them.
- Engine.OpsEngine.StartDeployment: the sequential engine's repository does not fail and its caller waits; every port failure, abandonment and interleaving of a deployment is in machine.dfy.
- Engine.OpsEngine.RunAdmitted: failing reads are in machine.dfy (`ReadNode`, `ReadSpare`), as above.
- Engine.OpsEngine.Deploy: failing writes are in machine.dfy (`FirstSave`, `NodeSave`, `LastSave`), as above.
- Engine.OpsEngine.OpenRun: a failing first save is in machine.dfy (`FirstSave`), as above.
- Engine.OpsEngine.Conclude: failing node and run saves are in machine.dfy (`NodeSave`, `LastSave`), as above.
- Engine.OpsEngine.Close: the same two saves, as above.
- Engine.OpsEngine.RegisterNode: a failing registration is in machine.dfy (the `Register` step), as above.
- Drift.RefusedDeploymentActs: about the sequential engine; in machine.dfy the agent's effects are not modelled.
- Machine.CallStepKeeps: the machine keeps an agent call's answer and not its arguments, so the spare's host does not appear in it; `Engine.OpsEngine.RunAdmitted` has it.
- Repo.InMemoryNodeRepository.ListRuns: the library's sort is an insertion into an ordered list here; `ListingIsUnique` shows that any stable sort agrees.
- Rollback.RollbackThresholdExact: concurrent sagas on one breaker are not modelled; the rollback results are about a saga that has the breaker to itself, as time and the raw agent's answers stay arbitrary.
