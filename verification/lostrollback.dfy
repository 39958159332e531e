/** A rollback that its own breaker loses, shown at inputs: an agent that completes a
    number of calls and is unavailable from then on. */
module LostRollback {
  import opened Domain
  import opened Breaker
  import opened Retry
  import opened Agent
  import opened Saga
  import opened Plan
  import opened Rollback

  /** The raw state is how many more calls succeed. No call takes time, and the clock
      reading behind the jitter is always `jitter`. */
  function Dying(jitter: Subsec): Env<int> {
    Env(
      (op: AgentOp, left: int) =>
        if left > 0 then RawAttempt(Done, 0, jitter, left - 1)
        else RawAttempt(Reply.Err(Unavailable), 0, jitter, left),
      (left: int, now: nat) => 0)
  }

  // Its calls.

  /** The longest a call can sleep between its attempts. */
  function RetryTime(cfg: GuardConfig): nat
    requires cfg.Valid()
  {
    cfg.policy.baseDelay * (Pow2(cfg.policy.maxAttempts - 1) - 1)
  }

  lemma SleepsFit(base: nat, pow: nat, top: nat)
    requires 2 * pow <= top
    ensures base * pow + base * (top - 2 * pow) == base * (top - pow)
    ensures base * (top - pow) >= 0
  {
  }

  lemma NoSleepLeft(base: nat, top: nat, pow: nat)
    requires pow <= top
    ensures base * (top - pow) >= 0
  {
  }

  lemma {:induction false} AttemptsTime(cfg: GuardConfig, jitter: Subsec, op: AgentOp, w: Guarded<int>, made: nat)
    requires cfg.Valid() && made < cfg.policy.maxAttempts
    ensures Pow2(made) <= Pow2(cfg.policy.maxAttempts - 1)
    ensures Attempts(cfg, Dying(jitter), op, w, made).1.now
      <= w.now + cfg.policy.baseDelay * (Pow2(cfg.policy.maxAttempts - 1) - Pow2(made))
    decreases cfg.policy.maxAttempts - made
  {
    var p, top := cfg.policy, Pow2(cfg.policy.maxAttempts - 1);
    Pow2Monotone(made, p.maxAttempts - 1);
    NoSleepLeft(p.baseDelay, top, Pow2(made));
    AttemptsUnroll(cfg, Dying(jitter), op, w, made);
    var w' := TryOnce(cfg, Dying(jitter), op, w);
    assert w'.now == w.now;
    if made + 1 < p.maxAttempts {
      var delay := p.SleepFor(made, jitter);
      hide TryOnce, Attempts;
      Pow2Monotone(made + 1, p.maxAttempts - 1);
      SleepsFit(p.baseDelay, Pow2(made), top);
      DelayBelowPower(p, made, jitter);
      AttemptsTime(cfg, jitter, op, Sleep(w', delay), made + 1);
    }
  }

  lemma DelayBelowPower(p: RetryPolicy, n: nat, subsec: Subsec)
    requires p.Usable()
    ensures p.SleepFor(n, subsec) <= p.baseDelay * Pow2(n)
  {
    BackoffRange(p, n, subsec);
    CapExact(p, n);
  }

  lemma {:induction false} DeadReplies(cfg: GuardConfig, jitter: Subsec, op: AgentOp, n: nat)
    ensures RawAfter(Dying(jitter), op, 0, n) == 0
    ensures ReplyAt(cfg, Dying(jitter), op, 0, n) == Reply.Err(Unavailable)
  {
    if n > 0 {
      DeadReplies(cfg, jitter, op, n - 1);
    }
  }

  lemma DeadAttempts(cfg: GuardConfig, jitter: Subsec, op: AgentOp, w: Guarded<int>)
    requires WellFormed(cfg, w) && cfg.Valid() && w.raw == 0
    ensures var (reply, w') := Attempts(cfg, Dying(jitter), op, w, 0);
      && reply == Reply.Err(Unavailable) && w'.raw == 0
      && w'.rawCalls == w.rawCalls + cfg.policy.maxAttempts
      && w'.now <= w.now + RetryTime(cfg)
  {
    assert cfg.policy.maxAttempts >= 1;
    hide *;
    var env := Dying(jitter);
    var (reply, w') := Attempts(cfg, env, op, w, 0);
    AttemptsClosedForm(cfg, env, op, w, 0);
    var k := DoneParts(cfg, env, op, w, cfg.policy.maxAttempts, reply, w');
    DeadStops(cfg, jitter, op, cfg.policy.maxAttempts, k);
    DeadReplies(cfg, jitter, op, k - 1);
    DeadReplies(cfg, jitter, op, k);
    DeadTime(cfg, jitter, op, w);
  }

  lemma DeadStops(cfg: GuardConfig, jitter: Subsec, op: AgentOp, budget: nat, k: nat)
    requires StopsAt(cfg, Dying(jitter), op, 0, budget, k)
    ensures k == budget
  {
    DeadReplies(cfg, jitter, op, k - 1);
  }

  lemma DeadTime(cfg: GuardConfig, jitter: Subsec, op: AgentOp, w: Guarded<int>)
    requires cfg.Valid()
    ensures Attempts(cfg, Dying(jitter), op, w, 0).1.now <= w.now + RetryTime(cfg)
  {
    AttemptsTime(cfg, jitter, op, w, 0);
    hide Attempts, Dying;
  }

  /** A call after the agent died: it fails, and uses up its attempts unless refused. */
  lemma DeadCall(cfg: GuardConfig, jitter: Subsec, op: AgentOp, w: Audited<int>)
    requires WellFormed(cfg, w.g) && w.g.raw == 0
    ensures var (reply, w') := AuditedCall(cfg, Dying(jitter), op, w);
      && reply == Reply.Err(Unavailable) && w'.g.raw == 0
      && |w'.audit| > |w.audit|
      && (!w'.audit[|w.audit|].refused ==> w'.audit[|w.audit|].attempts == cfg.policy.maxAttempts)
      && w'.g.now <= w.g.now + RetryTime(cfg)
  {
    AskedFacts(cfg, Dying(jitter), w.g);
    assert Asked(cfg, Dying(jitter), w.g).now == w.g.now;
    hide WellFormed, Attempts, Dying, Asked;
    DeadAttempts(cfg, jitter, op, Asked(cfg, Dying(jitter), w.g));
    NoSleepLeft(cfg.policy.baseDelay, Pow2(cfg.policy.maxAttempts - 1), 1);
  }

  /** A call before that, on a breaker without failures: one attempt, and it succeeds. */
  lemma LiveCall(cfg: GuardConfig, jitter: Subsec, op: AgentOp, w: Audited<int>)
    requires WellFormed(cfg, w.g) && w.g.raw > 0 && Streak(w.g.log) == 0
    ensures var (reply, w') := AuditedCall(cfg, Dying(jitter), op, w);
      reply == Done && w'.g.raw == w.g.raw - 1
  {
    AskedFacts(cfg, Dying(jitter), w.g);
  }

  // Its saga.

  lemma {:induction false} DyingForward(
    cfg: GuardConfig, jitter: Subsec, ctx: Context, steps: seq<PlanStep>, w: Audited<int>)
    requires WellFormed(cfg, w.g) && AllBacked(ctx, steps)
    requires 0 <= w.g.raw < |steps| && Streak(w.g.log) == 0
    ensures var p := RunForward(StepBehaviour(ctx, AuditedAgent(cfg, Dying(jitter))), steps, w);
      && p.done == w.g.raw && p.failed && p.world.g.raw == 0
      && |p.world.audit| == |w.audit| + p.done + 1
      && p.world.audit[|w.audit| + p.done].attempts == cfg.policy.maxAttempts
  {
    var b := StepBehaviour(ctx, AuditedAgent(cfg, Dying(jitter)));
    var s, rest := steps[0], steps[1..];
    assert s in steps;
    assert AllBacked(ctx, rest);
    var op := ForwardOp(ctx, s).value;
    CallFacts(cfg, Dying(jitter), op, w);
    if w.g.raw == 0 {
      DeadCall(cfg, jitter, op, w);
      assert cfg.threshold >= 1;
    } else {
      LiveCall(cfg, jitter, op, w);
      hide AuditedCall, WellFormed, Streak, LastFailure, AllBacked;
      DyingForward(cfg, jitter, ctx, rest, b.execute(s, w).world);
    }
  }

  lemma {:induction false} DyingTime(
    cfg: GuardConfig, jitter: Subsec, ctx: Context, done: seq<PlanStep>, w: Audited<int>)
    requires WellFormed(cfg, w.g) && w.g.raw == 0
    ensures var u := RunBackward(StepBehaviour(ctx, AuditedAgent(cfg, Dying(jitter))), done, w);
      && u.world.g.now <= w.g.now + Total(BackedCount(ctx, done), RetryTime(cfg))
      && (BackedCount(ctx, done) > 0 ==> !AllOk(u.oks))
  {
    assert cfg.Valid();
    if done != [] {
      hide AuditedAgent, AuditedCall, StepBehaviour, WellFormed, Streak, LastFailure, RetryTime, AllOk;
      var b := StepBehaviour(ctx, AuditedAgent(cfg, Dying(jitter)));
      var s, rest := done[|done| - 1], done[..|done| - 1];
      var a := b.compensate(s, w);
      DyingUndo(cfg, jitter, ctx, s, w);
      DyingTime(cfg, jitter, ctx, rest, a.world);
      AllOkCons(a.ok, RunBackward(b, rest, a.world).oks);
    }
  }

  lemma DyingUndo(cfg: GuardConfig, jitter: Subsec, ctx: Context, s: PlanStep, w: Audited<int>)
    requires WellFormed(cfg, w.g) && w.g.raw == 0
    ensures var a := StepBehaviour(ctx, AuditedAgent(cfg, Dying(jitter))).compensate(s, w);
      && WellFormed(cfg, a.world.g) && a.world.g.raw == 0
      && (UndoOp(ctx, s).None? ==> a.world == w)
      && (UndoOp(ctx, s).Some? ==> !a.ok && a.world.g.now <= w.g.now + RetryTime(cfg))
  {
    if UndoOp(ctx, s).Some? {
      CallFacts(cfg, Dying(jitter), UndoOp(ctx, s).value, w);
      DeadCall(cfg, jitter, UndoOp(ctx, s).value, w);
    }
    hide AuditedCall, WellFormed, Streak, LastFailure, RetryTime;
  }

  predicate RefusedAt(audit: seq<CallRecord>, k: nat) {
    k < |audit| && audit[k].refused
  }

  /** A rollback was over within the cooldown of a failure recorded at `since` or later. */
  predicate OverBy<R>(cfg: GuardConfig, since: nat, w: Audited<R>) {
    w.g.Millis() < since + cfg.cooldown
  }

  lemma TrippedRefuses<R>(
    cfg: GuardConfig, env: Env<R>, ctx: Context, done: seq<PlanStep>, w: Audited<R>, i: nat, since: nat)
    requires WellFormed(cfg, w.g) && Streak(w.g.log) >= cfg.threshold && i < BackedCount(ctx, done)
    requires LastFailure(w.g.log) >= since
    requires OverBy(cfg, since, RunBackward(StepBehaviour(ctx, AuditedAgent(cfg, env)), done, w).world)
    ensures var u := RunBackward(StepBehaviour(ctx, AuditedAgent(cfg, env)), done, w);
      RefusedAt(u.world.audit, |w.audit| + i)
  {
    OpenBreakerRefusesAll(cfg, env, ctx, done, w);
    AuditGrows(cfg, env, ctx, done, w);
    hide AuditedAgent, AuditedCall, StepBehaviour, RunBackward, WellFormed, Streak, LastFailure, BackedCount;
    var u := RunBackward(StepBehaviour(ctx, AuditedAgent(cfg, env)), done, w);
    assert u.world.audit[|w.audit|..][i].refused;
  }

  /** An admitted call after the agent died adds its whole budget to the streak. */
  lemma DeadStreak(cfg: GuardConfig, jitter: Subsec, op: AgentOp, w: Audited<int>)
    requires WellFormed(cfg, w.g) && w.g.raw == 0 && Streak(w.g.log) < cfg.threshold
    ensures var w1 := AuditedCall(cfg, Dying(jitter), op, w).1;
      && WellFormed(cfg, w1.g) && w1.g.raw == 0 && |w1.audit| == |w.audit| + 1
      && LastFailure(w1.g.log) >= LastFailure(w.g.log)
      && Streak(w1.g.log) == Streak(w.g.log) + cfg.policy.maxAttempts
  {
    hide AuditedCall, WellFormed, Streak, LastFailure;
    CallFacts(cfg, Dying(jitter), op, w);
    DeadCall(cfg, jitter, op, w);
    LastFailureMoves(cfg, Dying(jitter), op, w);
  }

  /** Compensation `i` of those that call the agent, from a streak already standing. */
  lemma {:induction false} DyingBackward(
    cfg: GuardConfig, jitter: Subsec, ctx: Context, done: seq<PlanStep>, w: Audited<int>, i: nat, since: nat)
    requires WellFormed(cfg, w.g) && w.g.raw == 0 && LastFailure(w.g.log) >= since
    requires i < BackedCount(ctx, done)
    requires cfg.threshold <= Streak(w.g.log) + Total(i, cfg.policy.maxAttempts)
    requires OverBy(cfg, since, RunBackward(StepBehaviour(ctx, AuditedAgent(cfg, Dying(jitter))), done, w).world)
    ensures var u := RunBackward(StepBehaviour(ctx, AuditedAgent(cfg, Dying(jitter))), done, w);
      RefusedAt(u.world.audit, |w.audit| + i)
  {
    assert cfg.Valid() && done != [] && Total(0, cfg.policy.maxAttempts) == 0;
    hide *;
    if Streak(w.g.log) >= cfg.threshold {
      TrippedRefuses(cfg, Dying(jitter), ctx, done, w, i, since);
    } else {
      BackwardOne(cfg, Dying(jitter), ctx, done, w);
      UndoOpsOne(ctx, done);
      var op, rest := UndoOp(ctx, done[|done| - 1]), done[..|done| - 1];
      if op.None? {
        DyingBackward(cfg, jitter, ctx, rest, w, i, since);
      } else {
        var w1 := AuditedCall(cfg, Dying(jitter), op.value, w).1;
        TotalOneMore(i, cfg.policy.maxAttempts);
        DeadStreak(cfg, jitter, op.value, w);
        DyingBackward(cfg, jitter, ctx, rest, w1, i - 1, since);
      }
    }
  }

  /** Within a cooldown of `cooldown` milliseconds, counted in whole ones. */
  lemma StillCooling(now: nat, later: nat, cooldown: nat)
    requires later + NANOS_PER_MILLI <= now + cooldown * NANOS_PER_MILLI
    ensures later / NANOS_PER_MILLI < now / NANOS_PER_MILLI + cooldown
  {
  }

  /** The threshold decides at every input of this kind: the agent completes the first
      `k` steps of a saga and is unavailable from then on, and the sleeps of the rollback
      fit in the cooldown. The saga fails; its compensations are made in reverse, and
      the one numbered `i` is refused if and only if `threshold <= maxAttempts * (1 + i)`. */
  lemma DyingSaga(
    cfg: GuardConfig, jitter: Subsec, ctx: Context, steps: seq<PlanStep>, k: nat, now: nat, i: nat)
    requires cfg.Valid() && AllBacked(ctx, steps) && 1 <= k < |steps|
    requires i < BackedCount(ctx, steps[..k])
    requires BackedCount(ctx, steps[..k]) * RetryTime(cfg) + NANOS_PER_MILLI <= cfg.cooldown * NANOS_PER_MILLI
    ensures var r := GuardedSaga(cfg, Dying(jitter), ctx, steps, Audited(Guarded(k, now, Inner.FRESH, [], 0, 0), []));
      && r.done == k && r.status == RunFailed
      && |r.world.audit| == k + 1 + BackedCount(ctx, steps[..k])
      && r.world.audit[k + 1 + i].op == UndoOps(ctx, steps[..k])[i]
      && (r.world.audit[k + 1 + i].refused <==> cfg.threshold <= cfg.policy.maxAttempts * (1 + i))
  {
    var env := Dying(jitter);
    var g := Guarded(k, now, Inner.FRESH, [], 0, 0);
    hide *;
    FreshIsWellFormed(cfg, g);
    var p := RollbackStart(cfg, env, ctx, steps, g);
    DyingForward(cfg, jitter, ctx, steps, Audited(g, []));
    DyingRollback(cfg, jitter, ctx, steps[..k], p.world, i);
  }

  lemma FreshIsWellFormed(cfg: GuardConfig, g: Guarded<int>)
    requires cfg.Valid() && g.breaker == Inner.FRESH && g.log == []
    ensures WellFormed(cfg, g) && Streak(g.log) == 0
  {
  }

  /** The rollback of such a saga, from the world its failing step left. */
  lemma DyingRollback(
    cfg: GuardConfig, jitter: Subsec, ctx: Context, done: seq<PlanStep>, w: Audited<int>, i: nat)
    requires WellFormed(cfg, w.g) && w.g.raw == 0 && i < BackedCount(ctx, done)
    requires w.audit != [] && StreakIsOneCall(cfg, w.audit[|w.audit| - 1], w.g)
    requires w.audit[|w.audit| - 1].attempts == cfg.policy.maxAttempts
    requires BackedCount(ctx, done) * RetryTime(cfg) + NANOS_PER_MILLI <= cfg.cooldown * NANOS_PER_MILLI
    ensures var u := RunBackward(StepBehaviour(ctx, AuditedAgent(cfg, Dying(jitter))), done, w);
      && !AllOk(u.oks)
      && |u.world.audit| == |w.audit| + BackedCount(ctx, done)
      && u.world.audit[|w.audit| + i].op == UndoOps(ctx, done)[i]
      && (u.world.audit[|w.audit| + i].refused <==> cfg.threshold <= cfg.policy.maxAttempts * (1 + i))
  {
    var env := Dying(jitter);
    assert cfg.Valid() && Streak(w.g.log) == cfg.policy.maxAttempts && LastFailure(w.g.log) == w.g.Millis();
    hide AuditedAgent, StepBehaviour, RunBackward, BackedCount, WellFormed, Streak, LastFailure, StreakIsOneCall, RetryTime, Total;
    var u := RunBackward(StepBehaviour(ctx, AuditedAgent(cfg, env)), done, w);
    AuditGrows(cfg, env, ctx, done, w);
    AuditedOps(cfg, env, ctx, done, w, i);
    DyingTime(cfg, jitter, ctx, done, w);
    TotalIsProduct(BackedCount(ctx, done), RetryTime(cfg));
    StillCooling(w.g.now, u.world.g.now, cfg.cooldown);
    TotalIsProduct(i, cfg.policy.maxAttempts);
    Distribute(cfg.policy.maxAttempts, i);
    if cfg.threshold <= cfg.policy.maxAttempts * (1 + i) {
      DyingBackward(cfg, jitter, ctx, done, w, i, w.g.Millis());
    } else {
      EarlyCompensationsAdmitted(cfg, env, ctx, done, w, i);
    }
  }

  const MILLI: nat := 1_000_000

  /** The settings the engine comes with. */
  const DEFAULTS := GuardConfig.New(3, 50 * MILLI, 5_000 * MILLI, 30_000 * MILLI, 5, 10_000)

  /** A provision whose agent dies before the catch-up, at the default settings but for
      the breaker's threshold: its rollback drains the host and then destroys it, and
      loses the drain up to a threshold of 3 and the destruction up to one of 6. */
  lemma ProvisionLoses(threshold: nat, jitter: Subsec, ctx: Context, now: nat)
    requires threshold >= 1
    ensures DEFAULTS.(threshold := threshold).Valid()
    ensures var r := GuardedSaga(DEFAULTS.(threshold := threshold), Dying(jitter), ctx, BuildPlan(Provision),
        Audited(Guarded(3, now, Inner.FRESH, [], 0, 0), []));
      && r.done == 3 && r.status == RunFailed && |r.world.audit| == 6
      && r.world.audit[4].op == CallDrain(ctx.host) && (r.world.audit[4].refused <==> threshold <= 3)
      && r.world.audit[5].op == CallDestroyInfra(ctx.host) && (r.world.audit[5].refused <==> threshold <= 6)
  {
    var cfg, steps := DEFAULTS.(threshold := threshold), BuildPlan(Provision);
    PlansAreBacked(ctx, Provision);
    BackedPrefix(ctx, steps, 3);
    assert steps[..3] == [ApplyInfraStep, TuneHostStep, StartValidatorStep];
    UndoOfThree(ctx);
    assert Pow2(2) == 4 && cfg.Valid();
    assert RetryTime(cfg) == 150 * MILLI;
    hide *;
    DyingSaga(cfg, jitter, ctx, steps, 3, now, 0);
    DyingSaga(cfg, jitter, ctx, steps, 3, now, 1);
  }

  /** At the default settings the drain still gets through and trips the breaker, and the
      call that would destroy the half-made host is refused. */
  lemma DefaultsLoseDestroy(jitter: Subsec, ctx: Context, now: nat)
    ensures DEFAULTS.Valid()
    ensures var r := GuardedSaga(DEFAULTS, Dying(jitter), ctx, BuildPlan(Provision),
        Audited(Guarded(3, now, Inner.FRESH, [], 0, 0), []));
      && r.done == 3 && r.status == RunFailed && |r.world.audit| == 6
      && r.world.audit[4].op == CallDrain(ctx.host) && !r.world.audit[4].refused
      && r.world.audit[5].op == CallDestroyInfra(ctx.host) && r.world.audit[5].refused
  {
    assert DEFAULTS.(threshold := 5) == DEFAULTS;
    hide *;
    ProvisionLoses(5, jitter, ctx, now);
  }
}
