/** Whether a rollback can run at all: the same breaker guards forward steps and
    compensations, so it depends on how the attempt budget, the breaker threshold
    and the plan compare. */
module Rollback {
  import opened Domain
  import opened Breaker
  import opened Agent
  import opened Saga
  import opened Plan

  /** One guarded call as an outside observer sees it. */
  datatype CallRecord = CallRecord(op: AgentOp, refused: bool, attempts: nat, reply: Reply)

  /** The guarded world, with every guarded call written down. */
  datatype Audited<+R> = Audited(g: Guarded<R>, audit: seq<CallRecord>)

  function AuditedCall<R>(cfg: GuardConfig, env: Env<R>, op: AgentOp, w: Audited<R>): (Reply, Audited<R>)
    requires cfg.Valid()
  {
    var (reply, g) := GuardedCall(cfg, env, op, w.g);
    var refused := Asked(cfg, env, w.g).breaker.state.Open?;
    var attempts := if g.rawCalls >= w.g.rawCalls then g.rawCalls - w.g.rawCalls else 0;
    (reply, Audited(g, w.audit + [CallRecord(op, refused, attempts, reply)]))
  }

  function AuditedAgent<R>(cfg: GuardConfig, env: Env<R>): NodeAgent<Audited<R>>
    requires cfg.Valid()
  {
    (op: AgentOp, w: Audited<R>) => AuditedCall(cfg, env, op, w)
  }

  function GuardedSaga<R>(
    cfg: GuardConfig, env: Env<R>, ctx: Context, steps: seq<PlanStep>, w: Audited<R>): SagaRun<Audited<R>>
    requires cfg.Valid()
  {
    RunSaga(StepBehaviour(ctx, AuditedAgent(cfg, env)), steps, w)
  }

  // One call.

  /** The facts of one audited call that the saga arguments use. */
  lemma CallFacts<R>(cfg: GuardConfig, env: Env<R>, op: AgentOp, w: Audited<R>)
    requires WellFormed(cfg, w.g)
    ensures var (reply, w') := AuditedCall(cfg, env, op, w);
      && |w'.audit| == |w.audit| + 1 && w'.audit[..|w.audit|] == w.audit
      && var rec := w'.audit[|w.audit|];
      && rec.op == op && rec.reply == reply
      && WellFormed(cfg, w'.g) && w'.g.now >= w.g.now
      && w'.g.rawCalls == w.g.rawCalls + rec.attempts && rec.attempts <= cfg.policy.maxAttempts
      && w'.g.spent <= w.g.spent + cfg.CallBudget()
      && (rec.refused <==> Refuses(cfg, env, w.g))
      && (rec.refused ==>
        && reply.Err? && rec.attempts == 0 && w'.g.raw == w.g.raw
        && Streak(w'.g.log) == Streak(w.g.log) && LastFailure(w'.g.log) == LastFailure(w.g.log))
      && (!rec.refused ==> Streak(w'.g.log) == (if reply.Done? then 0 else Streak(w.g.log) + rec.attempts))
      && (!rec.refused && reply.Err? ==> LastFailure(w'.g.log) == w'.g.Millis())
  {
    GuardClosedForm(cfg, env, op, w.g);
    GuardCost(cfg, env, op, w.g);
    AskedFacts(cfg, env, w.g);
  }

  // Forward: the breaker a failing step leaves behind.

  /** The forward part of a saga that failed: one call for each completed step and
      one for the failing step, whose attempts are the whole failure streak. */
  ghost predicate FailedAfter<R>(cfg: GuardConfig, k: nat, w: Audited<R>, p: Progress<Audited<R>>) {
    && WellFormed(cfg, p.world.g)
    && |p.world.audit| == |w.audit| + k + 1
    && p.world.audit[..|w.audit|] == w.audit
    && var last := p.world.audit[|w.audit| + k];
    && (k > 0 ==> StreakIsOneCall(cfg, last, p.world.g))
  }

  /** The whole failure streak is the attempts of this one, admitted call. */
  ghost predicate StreakIsOneCall<R>(cfg: GuardConfig, call: CallRecord, g: Guarded<R>) {
    && !call.refused
    && Streak(g.log) == call.attempts <= cfg.policy.maxAttempts
    && LastFailure(g.log) == g.Millis()
  }

  /** One completed step more in front. */
  lemma FailedLater<R>(cfg: GuardConfig, k: nat, w: Audited<R>, w1: Audited<R>, p: Progress<Audited<R>>)
    requires |w1.audit| == |w.audit| + 1 && w1.audit[..|w.audit|] == w.audit
    requires FailedAfter(cfg, k, w1, p)
    requires |p.world.audit| == |w1.audit| + k + 1 && StreakIsOneCall(cfg, p.world.audit[|w1.audit| + k], p.world.g)
    ensures FailedAfter(cfg, k + 1, w, ShiftBy(1, p))
  {
    assert p.world.audit[..|w.audit|] == p.world.audit[..|w1.audit|][..|w.audit|];
  }

  lemma StepLeaves<R>(cfg: GuardConfig, env: Env<R>, ctx: Context, s: PlanStep, w: Audited<R>)
    requires WellFormed(cfg, w.g) && ForwardOp(ctx, s).Some?
    ensures var a := StepBehaviour(ctx, AuditedAgent(cfg, env)).execute(s, w);
      && WellFormed(cfg, a.world.g)
      && |a.world.audit| == |w.audit| + 1 && a.world.audit[..|w.audit|] == w.audit
      && (a.ok ==> Streak(a.world.g.log) == 0)
      && (!a.ok ==> FailedAfter(cfg, 0, w, Progress(0, true, a.world)))
      && (!a.ok && Streak(w.g.log) == 0 ==> StreakIsOneCall(cfg, a.world.audit[|w.audit|], a.world.g))
  {
    CallFacts(cfg, env, ForwardOp(ctx, s).value, w);
    hide AuditedCall, WellFormed, Streak, LastFailure;
  }

  lemma BackedRest(ctx: Context, steps: seq<PlanStep>)
    requires AllBacked(ctx, steps) && steps != []
    ensures ForwardOp(ctx, steps[0]).Some? && AllBacked(ctx, steps[1..])
  {
    assert steps[0] in steps;
  }

  lemma {:induction false} ForwardLeaves<R>(
    cfg: GuardConfig, env: Env<R>, ctx: Context, steps: seq<PlanStep>, w: Audited<R>, clean: bool)
    requires WellFormed(cfg, w.g) && AllBacked(ctx, steps)
    requires clean ==> Streak(w.g.log) == 0
    ensures var p := RunForward(StepBehaviour(ctx, AuditedAgent(cfg, env)), steps, w);
      p.failed ==>
        && FailedAfter(cfg, p.done, w, p)
        && |p.world.audit| == |w.audit| + p.done + 1
        && (clean ==> StreakIsOneCall(cfg, p.world.audit[|w.audit| + p.done], p.world.g))
  {
    assert cfg.Valid();
    hide *;
    if steps != [] {
      var b := StepBehaviour(ctx, AuditedAgent(cfg, env));
      BackedRest(ctx, steps);
      ForwardFirst(b, steps, w);
      StepLeaves(cfg, env, ctx, steps[0], w);
      var a := b.execute(steps[0], w);
      if a.ok {
        ForwardLeaves(cfg, env, ctx, steps[1..], a.world, true);
        var p := RunForward(b, steps[1..], a.world);
        if p.failed {
          FailedLater(cfg, p.done, w, a.world, p);
        }
      }
    }
  }

  // Backward, while the streak is short: every compensation gets through.

  lemma Distribute(m: nat, k: nat)
    ensures m * (k + 1) == m * k + m
  {
  }

  /** `n` times `each`, added up. */
  function Total(n: nat, each: nat): nat {
    if n == 0 then 0 else Total(n - 1, each) + each
  }

  lemma {:induction false} TotalAdds(a: nat, b: nat, each: nat)
    ensures Total(a + b, each) == Total(a, each) + Total(b, each)
  {
    if b > 0 {
      TotalAdds(a, b - 1, each);
      assert a + b - 1 == a + (b - 1);
    }
  }

  lemma {:induction false} TotalIsProduct(n: nat, each: nat)
    ensures Total(n, each) == n * each
  {
    if n > 0 {
      TotalIsProduct(n - 1, each);
      Distribute(each, n - 1);
    }
  }

  /** One step of a rollback, in terms of the guarded call it makes, if it makes one. */
  lemma BackwardOne<R>(cfg: GuardConfig, env: Env<R>, ctx: Context, done: seq<PlanStep>, w: Audited<R>)
    requires cfg.Valid() && done != []
    ensures var b := StepBehaviour(ctx, AuditedAgent(cfg, env));
      var rest, op := done[..|done| - 1], UndoOp(ctx, done[|done| - 1]);
      RunBackward(b, done, w).world ==
        RunBackward(b, rest, if op.None? then w else AuditedCall(cfg, env, op.value, w).1).world
  {
    hide AuditedCall;
  }

  lemma {:induction false} AuditGrows<R>(
    cfg: GuardConfig, env: Env<R>, ctx: Context, done: seq<PlanStep>, w: Audited<R>)
    requires WellFormed(cfg, w.g)
    ensures var u := RunBackward(StepBehaviour(ctx, AuditedAgent(cfg, env)), done, w);
      |u.world.audit| == |w.audit| + BackedCount(ctx, done) && u.world.audit[..|w.audit|] == w.audit
  {
    assert cfg.Valid();
    if done != [] {
      hide *;
      BackwardOne(cfg, env, ctx, done, w);
      UndoOpsOne(ctx, done);
      var op, rest := UndoOp(ctx, done[|done| - 1]), done[..|done| - 1];
      if op.None? {
        AuditGrows(cfg, env, ctx, rest, w);
      } else {
        CallGrows(cfg, env, op.value, w);
        var w1 := AuditedCall(cfg, env, op.value, w).1;
        AuditGrows(cfg, env, ctx, rest, w1);
        PrefixOfPrefix(w.audit, w1.audit, RunBackward(StepBehaviour(ctx, AuditedAgent(cfg, env)), rest, w1).world.audit);
      }
    }
  }

  lemma CallGrows<R>(cfg: GuardConfig, env: Env<R>, op: AgentOp, w: Audited<R>)
    requires WellFormed(cfg, w.g)
    ensures var w1 := AuditedCall(cfg, env, op, w).1;
      WellFormed(cfg, w1.g) && |w1.audit| == |w.audit| + 1 && w1.audit[..|w.audit|] == w.audit
  {
    CallFacts(cfg, env, op, w);
    hide AuditedCall, WellFormed, Streak, LastFailure;
  }

  lemma PrefixOfPrefix<T>(a: seq<T>, b: seq<T>, c: seq<T>)
    requires |a| <= |b| <= |c| && b[..|a|] == a && c[..|b|] == b
    ensures c[..|a|] == a
  {
    assert c[..|a|] == c[..|b|][..|a|];
  }

  lemma UndoOpsOne(ctx: Context, done: seq<PlanStep>)
    requires done != []
    ensures var op, rest := UndoOp(ctx, done[|done| - 1]), done[..|done| - 1];
      && (op.None? ==> UndoOps(ctx, done) == UndoOps(ctx, rest) && BackedCount(ctx, done) == BackedCount(ctx, rest))
      && (op.Some? ==>
        && UndoOps(ctx, done) == [op.value] + UndoOps(ctx, rest)
        && BackedCount(ctx, done) == BackedCount(ctx, rest) + 1)
  {
    assert [] + UndoOps(ctx, done[..|done| - 1]) == UndoOps(ctx, done[..|done| - 1]);
  }

  /** A guarded call adds one record, of itself, and a rollback keeps every record. */
  lemma OneRecord<R>(
    cfg: GuardConfig, env: Env<R>, ctx: Context, op: AgentOp, rest: seq<PlanStep>, w: Audited<R>)
    requires WellFormed(cfg, w.g)
    ensures var w1 := AuditedCall(cfg, env, op, w).1;
      var u := RunBackward(StepBehaviour(ctx, AuditedAgent(cfg, env)), rest, w1);
      && WellFormed(cfg, w1.g) && |w1.audit| == |w.audit| + 1
      && |u.world.audit| > |w.audit| && u.world.audit[|w.audit|] == w1.audit[|w.audit|] && w1.audit[|w.audit|].op == op
  {
    assert cfg.Valid();
    hide AuditedAgent, AuditedCall, StepBehaviour, RunBackward, WellFormed, Streak, LastFailure;
    CallFacts(cfg, env, op, w);
    var w1 := AuditedCall(cfg, env, op, w).1;
    AuditGrows(cfg, env, ctx, rest, w1);
    var u := RunBackward(StepBehaviour(ctx, AuditedAgent(cfg, env)), rest, w1);
    assert u.world.audit[|w.audit|] == u.world.audit[..|w1.audit|][|w.audit|];
  }

  /** Compensation `i` of those that call the agent makes call `i` of that list. */
  lemma {:induction false} AuditedOps<R>(
    cfg: GuardConfig, env: Env<R>, ctx: Context, done: seq<PlanStep>, w: Audited<R>, i: nat)
    requires WellFormed(cfg, w.g) && i < BackedCount(ctx, done)
    ensures var u := RunBackward(StepBehaviour(ctx, AuditedAgent(cfg, env)), done, w);
      |u.world.audit| > |w.audit| + i && u.world.audit[|w.audit| + i].op == UndoOps(ctx, done)[i]
  {
    assert cfg.Valid() && done != [];
    hide *;
    BackwardOne(cfg, env, ctx, done, w);
    UndoOpsOne(ctx, done);
    var op, rest := UndoOp(ctx, done[|done| - 1]), done[..|done| - 1];
    if op.None? {
      AuditedOps(cfg, env, ctx, rest, w, i);
    } else {
      OneRecord(cfg, env, ctx, op.value, rest, w);
      if i > 0 {
        AuditedOps(cfg, env, ctx, rest, AuditedCall(cfg, env, op.value, w).1, i - 1);
      }
    }
  }

  lemma TotalOneMore(n: nat, each: nat)
    requires n > 0
    ensures Total(n, each) == Total(n - 1, each) + each
  {
  }

  /** Compensation `i` of those that call the agent is admitted if the failures
      that can have piled up before it, those on the log and one budget for each
      earlier compensation, stay below the threshold. */
  lemma {:induction false} EarlyCompensationsAdmitted<R>(
    cfg: GuardConfig, env: Env<R>, ctx: Context, done: seq<PlanStep>, w: Audited<R>, i: nat)
    requires WellFormed(cfg, w.g)
    requires i < BackedCount(ctx, done)
    requires cfg.threshold > Streak(w.g.log) + Total(i, cfg.policy.maxAttempts)
    ensures var u := RunBackward(StepBehaviour(ctx, AuditedAgent(cfg, env)), done, w);
      |u.world.audit| > |w.audit| + i && !u.world.audit[|w.audit| + i].refused
  {
    assert cfg.Valid() && done != [] && Total(0, cfg.policy.maxAttempts) == 0;
    hide *;
    BackwardOne(cfg, env, ctx, done, w);
    UndoOpsOne(ctx, done);
    var op, rest := UndoOp(ctx, done[|done| - 1]), done[..|done| - 1];
    if op.None? {
      EarlyCompensationsAdmitted(cfg, env, ctx, rest, w, i);
    } else {
      OneRecord(cfg, env, ctx, op.value, rest, w);
      ShortOfThreshold(cfg, env, op.value, w);
      if i > 0 {
        TotalOneMore(i, cfg.policy.maxAttempts);
        EarlyCompensationsAdmitted(cfg, env, ctx, rest, AuditedCall(cfg, env, op.value, w).1, i - 1);
      }
    }
  }

  /** A call below the threshold gets through, and adds at most its budget to the streak. */
  lemma ShortOfThreshold<R>(cfg: GuardConfig, env: Env<R>, op: AgentOp, w: Audited<R>)
    requires WellFormed(cfg, w.g) && Streak(w.g.log) < cfg.threshold
    ensures var w1 := AuditedCall(cfg, env, op, w).1;
      && |w1.audit| == |w.audit| + 1 && !w1.audit[|w.audit|].refused
      && Streak(w1.g.log) <= Streak(w.g.log) + cfg.policy.maxAttempts
  {
    CallFacts(cfg, env, op, w);
    hide AuditedCall, WellFormed, Streak, LastFailure;
  }

  lemma ShortStreak<R>(cfg: GuardConfig, call: CallRecord, g: Guarded<R>)
    requires StreakIsOneCall(cfg, call, g)
    ensures Streak(g.log) <= cfg.policy.maxAttempts
  {
  }

  lemma BackwardNotBlocked<R>(
    cfg: GuardConfig, env: Env<R>, ctx: Context, done: seq<PlanStep>, w: Audited<R>, i: nat)
    requires WellFormed(cfg, w.g) && Streak(w.g.log) <= cfg.policy.maxAttempts
    ensures var u := RunBackward(StepBehaviour(ctx, AuditedAgent(cfg, env)), done, w);
      && |u.world.audit| == |w.audit| + BackedCount(ctx, done)
      && (i < BackedCount(ctx, done) && cfg.threshold > cfg.policy.maxAttempts * (1 + i) ==>
        !u.world.audit[|w.audit| + i].refused)
  {
    assert cfg.Valid();
    hide *;
    AuditGrows(cfg, env, ctx, done, w);
    if i < BackedCount(ctx, done) && cfg.threshold > cfg.policy.maxAttempts * (1 + i) {
      TotalIsProduct(i, cfg.policy.maxAttempts);
      Distribute(cfg.policy.maxAttempts, i);
      EarlyCompensationsAdmitted(cfg, env, ctx, done, w, i);
    }
  }

  /** Where the rollback of a saga that failed after `p.done >= 1` steps starts: the
      first `p.done` calls of the audit are the completed steps', the next is the
      failing step's, and its attempts are the whole failure streak. */
  lemma RollbackStart<R>(cfg: GuardConfig, env: Env<R>, ctx: Context, steps: seq<PlanStep>, g: Guarded<R>)
    returns (p: Progress<Audited<R>>)
    requires WellFormed(cfg, g) && AllBacked(ctx, steps)
    ensures cfg.Valid() && p == RunForward(StepBehaviour(ctx, AuditedAgent(cfg, env)), steps, Audited(g, []))
    ensures GuardedSaga(cfg, env, ctx, steps, Audited(g, [])).done == p.done
    ensures 1 <= p.done < |steps| ==>
      && WellFormed(cfg, p.world.g) && |p.world.audit| == p.done + 1
      && StreakIsOneCall(cfg, p.world.audit[p.done], p.world.g)
      && var r := GuardedSaga(cfg, env, ctx, steps, Audited(g, []));
      var u := RunBackward(StepBehaviour(ctx, AuditedAgent(cfg, env)), steps[..p.done], p.world);
      r.world == u.world && (r.status == RunFailed <==> !AllOk(u.oks))
  {
    assert cfg.Valid();
    hide AuditedAgent, RunForward, RunBackward, StreakIsOneCall, WellFormed, AllBacked, StepBehaviour, AllOk;
    var w := Audited(g, []);
    ForwardLeaves(cfg, env, ctx, steps, w, false);
    p := RunForward(StepBehaviour(ctx, AuditedAgent(cfg, env)), steps, w);
  }

  /** A rollback is not blocked by the failures that caused it. In a saga that has
      the breaker to itself, started with any breaker state, when a step fails after
      at least one completed, compensation `i` of those that call the agent is
      admitted whenever `threshold > maxAttempts * (1 + i)`. In the audit, the first
      `k` calls are the completed steps', call `k` is the failing step's, and the
      compensations' follow. */
  lemma RollbackNotBlocked<R>(
    cfg: GuardConfig, env: Env<R>, ctx: Context, steps: seq<PlanStep>, g: Guarded<R>, i: nat)
    requires WellFormed(cfg, g) && AllBacked(ctx, steps)
    ensures var r := GuardedSaga(cfg, env, ctx, steps, Audited(g, []));
      var k := r.done;
      1 <= k < |steps| ==>
        && |r.world.audit| == k + 1 + BackedCount(ctx, steps[..k])
        && (i < BackedCount(ctx, steps[..k]) && cfg.threshold > cfg.policy.maxAttempts * (1 + i) ==>
          !r.world.audit[k + 1 + i].refused)
  {
    hide *;
    var p := RollbackStart(cfg, env, ctx, steps, g);
    if 1 <= p.done < |steps| {
      ShortStreak(cfg, p.world.audit[p.done], p.world.g);
      BackwardNotBlocked(cfg, env, ctx, steps[..p.done], p.world, i);
    }
  }

  // Backward, once the breaker is open: nothing gets through.

  lemma {:induction false} TimeMovesOn<R>(
    cfg: GuardConfig, env: Env<R>, ctx: Context, done: seq<PlanStep>, w: Audited<R>)
    requires WellFormed(cfg, w.g)
    ensures var u := RunBackward(StepBehaviour(ctx, AuditedAgent(cfg, env)), done, w);
      WellFormed(cfg, u.world.g) && u.world.g.now >= w.g.now
  {
    if done != [] {
      var s := done[|done| - 1];
      if UndoOp(ctx, s).Some? {
        CallFacts(cfg, env, UndoOp(ctx, s).value, w);
      }
      var a := StepBehaviour(ctx, AuditedAgent(cfg, env)).compensate(s, w);
      TimeMovesOn(cfg, env, ctx, done[..|done| - 1], a.world);
    }
  }

  /** Refused calls only: an audit tail without a single raw attempt. */
  predicate AllRefused(calls: seq<CallRecord>) {
    forall i :: 0 <= i < |calls| ==> calls[i].refused && calls[i].attempts == 0 && calls[i].reply == Reply.Err(Unavailable)
  }

  lemma {:induction false} OpenBreakerRefusesAll<R>(
    cfg: GuardConfig, env: Env<R>, ctx: Context, done: seq<PlanStep>, w: Audited<R>)
    requires WellFormed(cfg, w.g)
    requires Streak(w.g.log) >= cfg.threshold
    ensures var u := RunBackward(StepBehaviour(ctx, AuditedAgent(cfg, env)), done, w);
      u.world.g.Millis() < LastFailure(w.g.log) + cfg.cooldown ==>
        && |u.world.audit| >= |w.audit|
        && u.world.audit[..|w.audit|] == w.audit
        && AllRefused(u.world.audit[|w.audit|..])
        && u.world.g.rawCalls == w.g.rawCalls && u.world.g.raw == w.g.raw
        && (AllOk(u.oks) <==> BackedCount(ctx, done) == 0)
  {
    var b := StepBehaviour(ctx, AuditedAgent(cfg, env));
    var u := RunBackward(b, done, w);
    if done != [] && u.world.g.Millis() < LastFailure(w.g.log) + cfg.cooldown {
      var s, rest := done[|done| - 1], done[..|done| - 1];
      var a := b.compensate(s, w);
      var v := RunBackward(b, rest, a.world);
      AllOkCons(a.ok, v.oks);
      if UndoOp(ctx, s).Some? {
        var op := UndoOp(ctx, s).value;
        CallFacts(cfg, env, op, w);
        TimeMovesOn(cfg, env, ctx, rest, a.world);
        RefusedWhileCooling(cfg, env, op, w, u.world.g.now);
        OpenBreakerRefusesAll(cfg, env, ctx, rest, a.world);
        RefusedFirst(w.audit, a.world.audit, u.world.audit);
      } else {
        OpenBreakerRefusesAll(cfg, env, ctx, rest, w);
      }
    }
  }

  lemma RefusedFirst(before: seq<CallRecord>, after: seq<CallRecord>, final: seq<CallRecord>)
    requires |after| == |before| + 1 && after[..|before|] == before
    requires after[|before|].refused && after[|before|].attempts == 0
    requires after[|before|].reply == Reply.Err(Unavailable)
    requires |final| >= |after| && final[..|after|] == after && AllRefused(final[|after|..])
    ensures final[..|before|] == before && AllRefused(final[|before|..])
  {
    assert final[..|before|] == final[..|after|][..|before|];
    forall i | 0 <= i < |final[|before|..]|
      ensures final[|before|..][i].refused && final[|before|..][i].attempts == 0
        && final[|before|..][i].reply == Reply.Err(Unavailable)
    {
      if i == 0 {
        assert final[|before|] == final[..|after|][|before|];
      } else {
        assert final[|before|..][i] == final[|after|..][i - 1];
      }
    }
  }

  /** A call made while the breaker cools down is refused. */
  lemma RefusedWhileCooling<R>(cfg: GuardConfig, env: Env<R>, op: AgentOp, w: Audited<R>, later: nat)
    requires WellFormed(cfg, w.g)
    requires Streak(w.g.log) >= cfg.threshold
    requires AuditedCall(cfg, env, op, w).1.g.now <= later
    requires later / NANOS_PER_MILLI < LastFailure(w.g.log) + cfg.cooldown
    ensures var (reply, w') := AuditedCall(cfg, env, op, w);
      reply == Reply.Err(Unavailable) && w'.audit[|w.audit|].refused && w'.audit[|w.audit|].attempts == 0
  {
    CallFacts(cfg, env, op, w);
    GuardClosedForm(cfg, env, op, w.g);
    AskedFacts(cfg, env, w.g);
    var asked := Asked(cfg, env, w.g);
    assert asked.now <= AuditedCall(cfg, env, op, w).1.g.now;
    LaterMillis(asked.now, later - asked.now);
    assert asked.Millis() <= later / NANOS_PER_MILLI;
  }

  /** The other way round: with `threshold <= maxAttempts`, a failing step that used
      up its attempts has tripped the breaker. If the whole rollback then takes
      place within the cooldown, every compensation that calls the agent is refused
      without a raw call, and the saga ends `RunFailed` exactly when some completed
      step has such a compensation. */
  lemma RollbackBlocked<R>(
    cfg: GuardConfig, env: Env<R>, ctx: Context, steps: seq<PlanStep>, g: Guarded<R>)
    requires WellFormed(cfg, g) && AllBacked(ctx, steps)
    requires cfg.threshold <= cfg.policy.maxAttempts
    ensures var r := GuardedSaga(cfg, env, ctx, steps, Audited(g, []));
      var k := r.done;
      1 <= k < |steps| ==>
        && |r.world.audit| == k + 1 + BackedCount(ctx, steps[..k])
        && var p := RunForward(StepBehaviour(ctx, AuditedAgent(cfg, env)), steps, Audited(g, []));
        (r.world.audit[k].attempts == cfg.policy.maxAttempts
          && r.world.g.Millis() < p.world.g.Millis() + cfg.cooldown ==>
            && AllRefused(r.world.audit[k + 1..])
            && r.world.g.rawCalls == p.world.g.rawCalls && r.world.g.raw == p.world.g.raw
            && (r.status == RunFailed <==> BackedCount(ctx, steps[..k]) > 0))
  {
    hide AuditedAgent, RunForward, RunBackward, BackedCount, WellFormed, AllBacked, StepBehaviour, GuardedSaga, AllOk, AllRefused;
    var p := RollbackStart(cfg, env, ctx, steps, g);
    if 1 <= p.done < |steps| {
      AuditGrows(cfg, env, ctx, steps[..p.done], p.world);
      var r := GuardedSaga(cfg, env, ctx, steps, Audited(g, []));
      assert r.world.audit[p.done] == r.world.audit[..|p.world.audit|][p.done] == p.world.audit[p.done];
      if r.world.audit[p.done].attempts == cfg.policy.maxAttempts {
        OpenBreakerRefusesAll(cfg, env, ctx, steps[..p.done], p.world);
      }
    }
  }

  // Between the two: the threshold at which a compensation is lost.

  /** The `count` calls from `start` on all failed and used up their attempts. */
  predicate Exhausted(cfg: GuardConfig, audit: seq<CallRecord>, start: nat, count: nat) {
    start + count <= |audit|
    && forall j :: start <= j < start + count ==> audit[j].reply.Err? && audit[j].attempts == cfg.policy.maxAttempts
  }

  /** A call made at a streak of `streak` failures, within the cooldown of the last. */
  lemma AdmittedBelowThreshold<R>(cfg: GuardConfig, env: Env<R>, op: AgentOp, w: Audited<R>, since: nat, later: nat)
    requires WellFormed(cfg, w.g) && LastFailure(w.g.log) >= since
    requires AuditedCall(cfg, env, op, w).1.g.now <= later && later / NANOS_PER_MILLI < since + cfg.cooldown
    ensures AuditedCall(cfg, env, op, w).1.audit[|w.audit|].refused <==> cfg.threshold <= Streak(w.g.log)
  {
    CallFacts(cfg, env, op, w);
    if cfg.threshold <= Streak(w.g.log) {
      RefusedWhileCooling(cfg, env, op, w, later);
    }
  }

  /** Whether compensation `i` of those still to run that call the agent is refused,
      when the streak stands at `streak` and every call before it adds a whole budget. */
  lemma {:induction false} ExactAdmission<R>(
    cfg: GuardConfig, env: Env<R>, ctx: Context, done: seq<PlanStep>, w: Audited<R>, i: nat, since: nat)
    requires WellFormed(cfg, w.g) && LastFailure(w.g.log) >= since
    requires i < BackedCount(ctx, done)
    requires var u := RunBackward(StepBehaviour(ctx, AuditedAgent(cfg, env)), done, w);
      Exhausted(cfg, u.world.audit, |w.audit|, i) && u.world.g.Millis() < since + cfg.cooldown
    ensures var u := RunBackward(StepBehaviour(ctx, AuditedAgent(cfg, env)), done, w);
      && |u.world.audit| > |w.audit| + i
      && (u.world.audit[|w.audit| + i].refused <==> cfg.threshold <= Streak(w.g.log) + Total(i, cfg.policy.maxAttempts))
  {
    hide AuditedCall, Streak, LastFailure;
    var b := StepBehaviour(ctx, AuditedAgent(cfg, env));
    var s, rest := done[|done| - 1], done[..|done| - 1];
    var a := b.compensate(s, w);
    var u := RunBackward(b, rest, a.world);
    if UndoOp(ctx, s).None? {
      ExactAdmission(cfg, env, ctx, rest, w, i, since);
    } else {
      var op := UndoOp(ctx, s).value;
      CallFacts(cfg, env, op, w);
      TimeMovesOn(cfg, env, ctx, rest, a.world);
      AuditGrows(cfg, env, ctx, rest, a.world);
      assert u.world.audit[|w.audit|] == u.world.audit[..|a.world.audit|][|w.audit|] == a.world.audit[|w.audit|];
      if i == 0 {
        AdmittedBelowThreshold(cfg, env, op, w, since, u.world.g.now);
      } else {
        assert u.world.audit[|w.audit|].attempts == cfg.policy.maxAttempts >= 1;
        LastFailureMoves(cfg, env, op, w);
        ExactAdmission(cfg, env, ctx, rest, a.world, i - 1, since);
      }
    }
  }

  lemma LastFailureMoves<R>(cfg: GuardConfig, env: Env<R>, op: AgentOp, w: Audited<R>)
    requires WellFormed(cfg, w.g)
    ensures var (reply, w') := AuditedCall(cfg, env, op, w);
      reply.Err? ==> LastFailure(w'.g.log) >= LastFailure(w.g.log)
  {
    CallFacts(cfg, env, op, w);
    LastFailureIsPast(w.g.log);
    LaterMillis(w.g.now, AuditedCall(cfg, env, op, w).1.g.now - w.g.now);
  }

  /** The same, from the world in which a step has just used up its attempts. */
  lemma BackwardThreshold<R>(
    cfg: GuardConfig, env: Env<R>, ctx: Context, done: seq<PlanStep>, w: Audited<R>, i: nat)
    requires WellFormed(cfg, w.g) && w.audit != []
    requires StreakIsOneCall(cfg, w.audit[|w.audit| - 1], w.g)
    ensures var u := RunBackward(StepBehaviour(ctx, AuditedAgent(cfg, env)), done, w);
      var k := |w.audit| - 1;
      && |u.world.audit| == k + 1 + BackedCount(ctx, done)
      && (i < BackedCount(ctx, done)
        && Exhausted(cfg, u.world.audit, k, 1 + i)
        && u.world.g.Millis() < w.g.Millis() + cfg.cooldown
        ==> (u.world.audit[k + 1 + i].refused <==> cfg.threshold <= cfg.policy.maxAttempts * (1 + i)))
  {
    var u := RunBackward(StepBehaviour(ctx, AuditedAgent(cfg, env)), done, w);
    var k := |w.audit| - 1;
    AuditGrows(cfg, env, ctx, done, w);
    if i < BackedCount(ctx, done) && Exhausted(cfg, u.world.audit, k, 1 + i)
      && u.world.g.Millis() < w.g.Millis() + cfg.cooldown
    {
      assert u.world.audit[k] == u.world.audit[..|w.audit|][k] == w.audit[k];
      assert Exhausted(cfg, u.world.audit, k + 1, i) && w.audit[k].attempts == cfg.policy.maxAttempts;
      assert Streak(w.g.log) == cfg.policy.maxAttempts && LastFailure(w.g.log) == w.g.Millis();
      hide *;
      ExactAdmission(cfg, env, ctx, done, w, i, w.g.Millis());
      TotalIsProduct(i, cfg.policy.maxAttempts);
      Distribute(cfg.policy.maxAttempts, i);
    }
  }

  /** The threshold is exact. When the failing step and the first `i` compensations
      that call the agent have all used up their attempts, and the rollback takes place
      within the cooldown, the next compensation is refused if and only if
      `threshold <= maxAttempts * (1 + i)`. */
  lemma RollbackThresholdExact<R>(
    cfg: GuardConfig, env: Env<R>, ctx: Context, steps: seq<PlanStep>, g: Guarded<R>, i: nat)
    requires WellFormed(cfg, g) && AllBacked(ctx, steps)
    ensures var r := GuardedSaga(cfg, env, ctx, steps, Audited(g, []));
      var k := r.done;
      1 <= k < |steps| ==>
        && |r.world.audit| == k + 1 + BackedCount(ctx, steps[..k])
        && var p := RunForward(StepBehaviour(ctx, AuditedAgent(cfg, env)), steps, Audited(g, []));
        (i < BackedCount(ctx, steps[..k])
          && Exhausted(cfg, r.world.audit, k, 1 + i)
          && r.world.g.Millis() < p.world.g.Millis() + cfg.cooldown ==>
            (r.world.audit[k + 1 + i].refused <==> cfg.threshold <= cfg.policy.maxAttempts * (1 + i)))
  {
    hide *;
    var p := RollbackStart(cfg, env, ctx, steps, g);
    if 1 <= p.done < |steps| {
      BackwardThreshold(cfg, env, ctx, steps[..p.done], p.world, i);
    }
  }

  /** Every plan the engine builds makes an agent call in each step, since a failover's
      spare is looked up before its saga starts. */
  lemma PlansAreBacked(ctx: Context, kind: DeploymentKind)
    requires kind.Failover? ==> ctx.spareHost.Some?
    ensures AllBacked(ctx, BuildPlan(kind))
    ensures forall k :: 0 <= k < |BuildPlan(kind)| ==> BackedCount(ctx, BuildPlan(kind)[..k]) <= 2
  {
    var steps := BuildPlan(kind);
    forall k | 0 <= k < |steps|
      ensures BackedCount(ctx, steps[..k]) <= 2
    {
      BackedPrefix(ctx, steps, k);
    }
  }

  /** Counting along the first steps of a plan. */
  lemma BackedPrefix(ctx: Context, steps: seq<PlanStep>, k: nat)
    requires k <= 3 && k <= |steps|
    ensures BackedCount(ctx, steps[..k]) ==
      (if k > 0 && UndoOp(ctx, steps[0]).Some? then 1 else 0)
      + (if k > 1 && UndoOp(ctx, steps[1]).Some? then 1 else 0)
      + (if k > 2 && UndoOp(ctx, steps[2]).Some? then 1 else 0)
  {
    assert k > 0 ==> steps[..k][..k - 1] == steps[..k - 1];
    if k > 0 {
      BackedPrefix(ctx, steps, k - 1);
    }
  }

  // How much a saga can ask of the agent, and for how long.

  /** At most `n` guarded calls lie between the two worlds. */
  ghost predicate WithinCalls<R>(cfg: GuardConfig, n: nat, w: Guarded<R>, w': Guarded<R>)
    requires cfg.Valid()
  {
    && w'.rawCalls <= w.rawCalls + Total(n, cfg.policy.maxAttempts)
    && w'.spent <= w.spent + Total(n, cfg.CallBudget())
  }

  lemma OneCallMore<R>(cfg: GuardConfig, n: nat, w: Guarded<R>, w1: Guarded<R>, w2: Guarded<R>)
    requires cfg.Valid()
    requires w1.rawCalls <= w.rawCalls + cfg.policy.maxAttempts
    requires w1.spent <= w.spent + cfg.CallBudget()
    requires WithinCalls(cfg, n, w1, w2)
    ensures WithinCalls(cfg, n + 1, w, w2)
  {
  }

  /** The cost of one step's forward action; without an agent call it is nothing. */
  lemma StepBudget<R>(cfg: GuardConfig, env: Env<R>, ctx: Context, s: PlanStep, w: Audited<R>)
    requires WellFormed(cfg, w.g)
    ensures var a := StepBehaviour(ctx, AuditedAgent(cfg, env)).execute(s, w);
      && WellFormed(cfg, a.world.g)
      && a.world.g.rawCalls <= w.g.rawCalls + cfg.policy.maxAttempts
      && a.world.g.spent <= w.g.spent + cfg.CallBudget()
  {
    if ForwardOp(ctx, s).Some? {
      CallFacts(cfg, env, ForwardOp(ctx, s).value, w);
    }
    hide AuditedCall, Streak, LastFailure;
  }

  lemma {:induction false} ForwardBudget<R>(
    cfg: GuardConfig, env: Env<R>, ctx: Context, steps: seq<PlanStep>, w: Audited<R>)
    requires WellFormed(cfg, w.g)
    ensures var p := RunForward(StepBehaviour(ctx, AuditedAgent(cfg, env)), steps, w);
      && WellFormed(cfg, p.world.g)
      && WithinCalls(cfg, p.done + if p.failed then 1 else 0, w.g, p.world.g)
  {
    assert cfg.Valid();
    hide *;
    var b := StepBehaviour(ctx, AuditedAgent(cfg, env));
    if steps == [] {
      NoCalls(cfg, w.g);
    } else {
      ForwardFirst(b, steps, w);
      StepBudget(cfg, env, ctx, steps[0], w);
      var a := b.execute(steps[0], w);
      NoCalls(cfg, a.world.g);
      if a.ok {
        ForwardBudget(cfg, env, ctx, steps[1..], a.world);
        var p := RunForward(b, steps[1..], a.world);
        OneCallMore(cfg, p.done + if p.failed then 1 else 0, w.g, a.world.g, p.world.g);
      } else {
        OneCallMore(cfg, 0, w.g, a.world.g, a.world.g);
      }
    }
  }

  lemma NoCalls<R>(cfg: GuardConfig, w: Guarded<R>)
    requires cfg.Valid()
    ensures WithinCalls(cfg, 0, w, w)
  {
  }

  lemma {:induction false} BackwardBudget<R>(
    cfg: GuardConfig, env: Env<R>, ctx: Context, done: seq<PlanStep>, w: Audited<R>)
    requires WellFormed(cfg, w.g)
    ensures WithinCalls(cfg, |done|, w.g, RunBackward(StepBehaviour(ctx, AuditedAgent(cfg, env)), done, w).world.g)
  {
    if done != [] {
      var s := done[|done| - 1];
      if UndoOp(ctx, s).Some? {
        CallFacts(cfg, env, UndoOp(ctx, s).value, w);
      }
      var b := StepBehaviour(ctx, AuditedAgent(cfg, env));
      var a := b.compensate(s, w);
      var rest := done[..|done| - 1];
      BackwardBudget(cfg, env, ctx, rest, a.world);
      OneCallMore(cfg, |rest|, w.g, a.world.g, RunBackward(b, rest, a.world).world.g);
    }
  }

  lemma CallsAddUp<R>(
    cfg: GuardConfig, n: nat, m: nat, all: nat, w: Guarded<R>, w1: Guarded<R>, w2: Guarded<R>)
    requires cfg.Valid()
    requires WithinCalls(cfg, n, w, w1) && WithinCalls(cfg, m, w1, w2)
    requires n + m <= all
    ensures WithinCalls(cfg, all, w, w2)
  {
    TotalAdds(n, m, cfg.policy.maxAttempts);
    TotalAdds(n, m, cfg.CallBudget());
    TotalAdds(n + m, all - (n + m), cfg.policy.maxAttempts);
    TotalAdds(n + m, all - (n + m), cfg.CallBudget());
  }

  lemma SagaCalls<R>(
    cfg: GuardConfig, env: Env<R>, ctx: Context, steps: seq<PlanStep>, g: Guarded<R>)
    requires WellFormed(cfg, g) && |steps| >= 1
    ensures WithinCalls(cfg, 2 * |steps| - 1, g, GuardedSaga(cfg, env, ctx, steps, Audited(g, [])).world.g)
  {
    var w := Audited(g, []);
    var b := StepBehaviour(ctx, AuditedAgent(cfg, env));
    ForwardBudget(cfg, env, ctx, steps, w);
    var p := RunForward(b, steps, w);
    if p.failed {
      BackwardBudget(cfg, env, ctx, steps[..p.done], p.world);
      var u := RunBackward(b, steps[..p.done], p.world);
      CallsAddUp(cfg, p.done + 1, p.done, 2 * |steps| - 1, g, p.world.g, u.world.g);
    } else {
      CallsAddUp(cfg, p.done, 0, 2 * |steps| - 1, g, p.world.g, p.world.g);
    }
  }

  /** A saga of `n >= 1` steps makes at most `maxAttempts * (2n - 1)` raw agent calls
      and spends at most `2n - 1` call budgets in guarded calls, whatever the agent
      replies and however long it hangs. */
  lemma SagaBudget<R>(
    cfg: GuardConfig, env: Env<R>, ctx: Context, steps: seq<PlanStep>, g: Guarded<R>)
    requires WellFormed(cfg, g) && |steps| >= 1
    ensures var r := GuardedSaga(cfg, env, ctx, steps, Audited(g, []));
      && r.world.g.rawCalls <= g.rawCalls + (2 * |steps| - 1) * cfg.policy.maxAttempts
      && r.world.g.spent <= g.spent + (2 * |steps| - 1)
        * (cfg.policy.maxAttempts * cfg.opTimeout + (cfg.policy.maxAttempts - 1) * cfg.policy.maxDelay)
  {
    SagaCalls(cfg, env, ctx, steps, g);
    TotalIsProduct(2 * |steps| - 1, cfg.policy.maxAttempts);
    TotalIsProduct(2 * |steps| - 1, cfg.CallBudget());
  }
}
