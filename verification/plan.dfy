/** The concrete saga steps, the plan of each deployment kind, and what the plans
    imply for every behaviour of the node agent. */
module Plan {
  import opened Domain
  import opened Agent
  import opened Saga

  datatype PlanStep =
    | ApplyInfraStep
    | TuneHostStep
    | StartValidatorStep
    | AwaitCatchupStep
    | DrainStep
    | SwapIdentityStep
    | DestroyInfraStep

  datatype Context = Context(host: HostAddr, version: Version, spareHost: Option<HostAddr>)

  function ActionOf(s: PlanStep): OpsActionKind {
    match s
    case ApplyInfraStep => ApplyInfra
    case TuneHostStep => TuneHost
    case StartValidatorStep => StartValidator
    case AwaitCatchupStep => AwaitCatchup
    case DrainStep => Drain
    case SwapIdentityStep => SwapIdentity
    case DestroyInfraStep => DestroyInfra
  }

  /** The agent call of a step's forward action; a failover without a spare makes
      none and is rejected on the spot. */
  function ForwardOp(ctx: Context, s: PlanStep): Option<AgentOp> {
    match s
    case ApplyInfraStep => Some(CallApplyInfra(ctx.host))
    case TuneHostStep => Some(CallTuneHost(ctx.host))
    case StartValidatorStep => Some(CallStartValidator(ctx.host, ctx.version))
    case AwaitCatchupStep => Some(CallAwaitCatchup(ctx.host))
    case DrainStep => Some(CallDrain(ctx.host))
    case SwapIdentityStep =>
      if ctx.spareHost.Some? then Some(CallSwapIdentity(ctx.host, ctx.spareHost.value)) else None
    case DestroyInfraStep => Some(CallDestroyInfra(ctx.host))
  }

  /** The agent call of a step's compensation; most steps have none. */
  function UndoOp(ctx: Context, s: PlanStep): Option<AgentOp> {
    match s
    case ApplyInfraStep => Some(CallDestroyInfra(ctx.host))
    case StartValidatorStep => Some(CallDrain(ctx.host))
    case SwapIdentityStep =>
      if ctx.spareHost.Some? then Some(CallSwapIdentity(ctx.spareHost.value, ctx.host)) else None
    case _ => None
  }

  /** A node agent over a world `W`: any reply, any effect. */
  type NodeAgent<!W> = (AgentOp, W) -> (Reply, W)

  function Perform<W>(agent: NodeAgent<W>, op: AgentOp, w: W): Answer<W> {
    var r := agent(op, w);
    Answer(r.0.Done?, r.1)
  }

  function Execute<W>(ctx: Context, agent: NodeAgent<W>, s: PlanStep, w: W): Answer<W> {
    var op := ForwardOp(ctx, s);
    if op.None? then Answer(false, w) else Perform(agent, op.value, w)
  }

  function Compensate<W>(ctx: Context, agent: NodeAgent<W>, s: PlanStep, w: W): Answer<W> {
    var op := UndoOp(ctx, s);
    if op.None? then Answer(true, w) else Perform(agent, op.value, w)
  }

  function StepBehaviour<W>(ctx: Context, agent: NodeAgent<W>): Behaviour<PlanStep, W> {
    Behaviour(
      ActionOf,
      (s: PlanStep, w: W) => Execute(ctx, agent, s, w),
      (s: PlanStep, w: W) => Compensate(ctx, agent, s, w))
  }

  function BuildPlan(kind: DeploymentKind): (steps: seq<PlanStep>)
    ensures 2 <= |steps| <= 4
  {
    match kind
    case Provision => [ApplyInfraStep, TuneHostStep, StartValidatorStep, AwaitCatchupStep]
    case Upgrade(_) => [DrainStep, StartValidatorStep, AwaitCatchupStep]
    case Failover(_) => [DrainStep, SwapIdentityStep]
    case Decommission => [DrainStep, DestroyInfraStep]
  }

  function PlanActions(kind: DeploymentKind): (r: seq<OpsActionKind>)
    ensures |r| == |BuildPlan(kind)|
    ensures forall i :: 0 <= i < |r| ==> r[i] == ActionOf(BuildPlan(kind)[i])
  {
    match kind
    case Provision => [ApplyInfra, TuneHost, StartValidator, AwaitCatchup]
    case Upgrade(_) => [Drain, StartValidator, AwaitCatchup]
    case Failover(_) => [Drain, SwapIdentity]
    case Decommission => [Drain, DestroyInfra]
  }

  lemma ActionsOfPrefix<W>(ctx: Context, agent: NodeAgent<W>, kind: DeploymentKind, k: nat)
    requires k <= |BuildPlan(kind)|
    ensures Actions(StepBehaviour(ctx, agent), BuildPlan(kind)[..k]) == PlanActions(kind)[..k]
  {
  }

  // Which compensations can fail.

  lemma {:induction false} SilentUndo<W>(ctx: Context, agent: NodeAgent<W>, done: seq<PlanStep>, w: W)
    requires forall s :: s in done ==> UndoOp(ctx, s).None?
    ensures AllOk(RunBackward(StepBehaviour(ctx, agent), done, w).oks)
    ensures RunBackward(StepBehaviour(ctx, agent), done, w).world == w
  {
    if done != [] {
      assert done[|done| - 1] in done;
      SilentUndo(ctx, agent, done[..|done| - 1], w);
    }
  }

  lemma UnwindDrainAndStart<W>(ctx: Context, agent: NodeAgent<W>, w: W)
    ensures var u := RunBackward(StepBehaviour(ctx, agent), [DrainStep, StartValidatorStep], w);
      && u.oks == [agent(CallDrain(ctx.host), w).0.Done?, true]
      && (AllOk(u.oks) <==> agent(CallDrain(ctx.host), w).0.Done?)
      && u.world == agent(CallDrain(ctx.host), w).1
  {
    var b := StepBehaviour(ctx, agent);
    var done := [DrainStep, StartValidatorStep];
    assert done[..1] == [DrainStep];
    var a := b.compensate(StartValidatorStep, w);
    SilentUndo(ctx, agent, [DrainStep], a.world);
    var u := RunBackward(b, [DrainStep], a.world);
    assert u.oks == [u.oks[0]];
    assert RunBackward(b, done, w).oks == [a.ok] + [true];
    AllOkSnoc([a.ok], true);
    assert AllOk([a.ok]) <==> [a.ok][0];
  }

  /** Which statuses each plan can end with, whatever the agent does. `Failover`
      and `Decommission` can never end `RunFailed`; an `Upgrade` does only when it
      had completed exactly the drain and the start, and draining again failed. */
  lemma ReachableStatuses<W>(ctx: Context, agent: NodeAgent<W>, kind: DeploymentKind, w: W)
    ensures var r := RunSaga(StepBehaviour(ctx, agent), BuildPlan(kind), w);
      && (kind.Failover? || kind.Decommission? ==> r.status != RunFailed)
      && (kind.Upgrade? ==> (r.status == RunFailed <==>
        r.done == 2 && agent(CallDrain(ctx.host), RunForward(StepBehaviour(ctx, agent), BuildPlan(kind), w).world).0.Err?))
      && (kind.Provision? && r.status == RunFailed ==> 1 <= r.done <= 3)
  {
    var b := StepBehaviour(ctx, agent);
    var steps := BuildPlan(kind);
    var r := RunSaga(b, steps, w);
    var p := RunForward(b, steps, w);
    if p.failed && kind.Upgrade? && r.done == 2 {
      assert steps[..2] == [DrainStep, StartValidatorStep];
      UnwindDrainAndStart(ctx, agent, p.world);
    } else if p.failed && (!kind.Provision? || r.done == 0) {
      SilentUndo(ctx, agent, steps[..r.done], p.world);
    }
  }

  /** The plans never swap an identity back: the step that would is always last,
      and a plan's last step is never compensated. */
  lemma IdentityNeverSwappedBack<W>(ctx: Context, agent: NodeAgent<W>, kind: DeploymentKind, w: W, ok: bool)
    ensures Compensated(SwapIdentityStep, ok)
      !in RunSaga(Recorder(StepBehaviour(ctx, agent)), BuildPlan(kind), Taped([], w)).world.tape
  {
    var b, steps := StepBehaviour(ctx, agent), BuildPlan(kind);
    assert forall m :: 0 <= m < |steps| - 1 ==> steps[m] != SwapIdentityStep;
    hide *;
    TapedSaga(b, steps, w);
    var r := RunSaga(b, steps, w);
    assert Compensated(SwapIdentityStep, ok) !in ForwardCalls(steps, r.done);
    if r.done < |steps| {
      assert Compensated(SwapIdentityStep, ok) !in BackwardCalls(steps[..r.done], r.undone);
    }
  }

  // Which calls a saga makes of its agent.

  /** Every step's forward action is an agent call; for a failover this is the
      engine's guarantee that the spare was found. */
  predicate AllBacked(ctx: Context, steps: seq<PlanStep>) {
    forall s :: s in steps ==> ForwardOp(ctx, s).Some?
  }

  function BackedCount(ctx: Context, done: seq<PlanStep>): nat {
    if done == [] then 0
    else BackedCount(ctx, done[..|done| - 1]) + if UndoOp(ctx, done[|done| - 1]).Some? then 1 else 0
  }

  /** The calls a rollback of `done` makes, in the order it makes them. */
  function UndoOps(ctx: Context, done: seq<PlanStep>): (ops: seq<AgentOp>)
    ensures |ops| == BackedCount(ctx, done)
  {
    if done == [] then []
    else
      var op := UndoOp(ctx, done[|done| - 1]);
      (if op.Some? then [op.value] else []) + UndoOps(ctx, done[..|done| - 1])
  }

  /** An agent that also writes down every operation it is asked for. */
  function Scribe<W>(agent: NodeAgent<W>): NodeAgent<(W, seq<AgentOp>)> {
    (op: AgentOp, t: (W, seq<AgentOp>)) => var r := agent(op, t.0); (r.0, (r.1, t.1 + [op]))
  }

  /** The operations of some steps' forward actions. */
  function ForwardOps(ctx: Context, steps: seq<PlanStep>): (ops: seq<AgentOp>)
    requires AllBacked(ctx, steps)
    ensures |ops| == |steps|
    ensures forall i :: 0 <= i < |ops| ==> ops[i] == ForwardOp(ctx, steps[i]).value
  {
    seq(|steps|, i requires 0 <= i < |steps| => assert steps[i] in steps; ForwardOp(ctx, steps[i]).value)
  }

  lemma ScribedStep<W>(ctx: Context, agent: NodeAgent<W>, s: PlanStep, t: (W, seq<AgentOp>))
    ensures var b := StepBehaviour(ctx, Scribe(agent));
      && b.execute(s, t).world.1 == t.1 + (if ForwardOp(ctx, s).Some? then [ForwardOp(ctx, s).value] else [])
      && b.compensate(s, t).world.1 == t.1 + (if UndoOp(ctx, s).Some? then [UndoOp(ctx, s).value] else [])
      && (ForwardOp(ctx, s).None? ==> !b.execute(s, t).ok)
  {
    hide ForwardOp, UndoOp;
    assert t.1 + [] == t.1;
  }

  lemma ConsSlice<T>(x: T, xs: seq<T>, k: nat)
    requires k <= |xs|
    ensures ([x] + xs)[..k + 1] == [x] + xs[..k] && [x] + xs[..0] == [x]
  {
  }

  lemma ForwardOpsOne(ctx: Context, steps: seq<PlanStep>)
    requires AllBacked(ctx, steps)
    ensures steps == [] ==> ForwardOps(ctx, steps) == []
    ensures steps != [] ==>
      && ForwardOp(ctx, steps[0]).Some? && AllBacked(ctx, steps[1..])
      && ForwardOps(ctx, steps) == [ForwardOp(ctx, steps[0]).value] + ForwardOps(ctx, steps[1..])
  {
    if steps != [] {
      assert steps[0] in steps;
      assert AllBacked(ctx, steps[1..]);
    }
  }

  lemma {:induction false} ScribedForward<W>(ctx: Context, agent: NodeAgent<W>, steps: seq<PlanStep>, t: (W, seq<AgentOp>))
    requires AllBacked(ctx, steps)
    ensures var p := RunForward(StepBehaviour(ctx, Scribe(agent)), steps, t);
      p.world.1 == t.1 + ForwardOps(ctx, steps)[..if p.failed then p.done + 1 else p.done]
  {
    hide *;
    var b := StepBehaviour(ctx, Scribe(agent));
    ForwardFirst(b, steps, t);
    ForwardOpsOne(ctx, steps);
    if steps == [] {
      ConcatAssoc(t.1, [], []);
    } else {
      var op, ops := ForwardOp(ctx, steps[0]).value, ForwardOps(ctx, steps[1..]);
      ScribedStep(ctx, agent, steps[0], t);
      var a := b.execute(steps[0], t);
      if a.ok {
        ScribedForward(ctx, agent, steps[1..], a.world);
        var q := RunForward(b, steps[1..], a.world);
        var made := if q.failed then q.done + 1 else q.done;
        ConcatAssoc(t.1, [op], ops[..made]);
        ConsSlice(op, ops, made);
      } else {
        ConsSlice(op, ops, 0);
      }
    }
  }

  lemma {:induction false} ScribedBackward<W>(ctx: Context, agent: NodeAgent<W>, done: seq<PlanStep>, t: (W, seq<AgentOp>))
    ensures RunBackward(StepBehaviour(ctx, Scribe(agent)), done, t).world.1 == t.1 + UndoOps(ctx, done)
  {
    if done == [] {
      assert t.1 + [] == t.1;
    } else {
      var b := StepBehaviour(ctx, Scribe(agent));
      var s, rest := done[|done| - 1], done[..|done| - 1];
      ScribedStep(ctx, agent, s, t);
      hide StepBehaviour, Scribe, UndoOp;
      ScribedBackward(ctx, agent, rest, b.compensate(s, t).world);
      ConcatAssoc(t.1, if UndoOp(ctx, s).Some? then [UndoOp(ctx, s).value] else [], UndoOps(ctx, rest));
    }
  }

  /** The calls of a saga: its steps' up to and including the one that fails, then the
      undoing ones of the completed steps. */
  lemma ScribedSaga<W>(ctx: Context, agent: NodeAgent<W>, steps: seq<PlanStep>, w: W)
    requires AllBacked(ctx, steps)
    ensures var r := RunSaga(StepBehaviour(ctx, Scribe(agent)), steps, (w, []));
      r.world.1 == if r.done == |steps| then ForwardOps(ctx, steps)
        else ForwardOps(ctx, steps)[..r.done + 1] + UndoOps(ctx, steps[..r.done])
  {
    var b := StepBehaviour(ctx, Scribe(agent));
    ScribedForward(ctx, agent, steps, (w, []));
    hide StepBehaviour, Scribe, ForwardOps, UndoOps, RunForward, RunBackward, AllBacked;
    var p := RunForward(b, steps, (w, []));
    var made := ForwardOps(ctx, steps)[..if p.failed then p.done + 1 else p.done];
    assert [] + made == made;
    assert ForwardOps(ctx, steps)[..|steps|] == ForwardOps(ctx, steps);
    if p.failed {
      ScribedBackward(ctx, agent, steps[..p.done], p.world);
    }
  }

  lemma UndoOfThree(ctx: Context)
    ensures UndoOps(ctx, []) == []
    ensures UndoOps(ctx, [ApplyInfraStep]) == [CallDestroyInfra(ctx.host)]
    ensures UndoOps(ctx, [ApplyInfraStep, TuneHostStep]) == [CallDestroyInfra(ctx.host)]
    ensures UndoOps(ctx, [ApplyInfraStep, TuneHostStep, StartValidatorStep]) == [CallDrain(ctx.host), CallDestroyInfra(ctx.host)]
  {
    var three, two := [ApplyInfraStep, TuneHostStep, StartValidatorStep], [ApplyInfraStep, TuneHostStep];
    assert three[..2] == two && two[..1] == [ApplyInfraStep] && [ApplyInfraStep][..0] == [];
  }

  lemma UndoOfTwo(ctx: Context)
    ensures UndoOps(ctx, [DrainStep]) == []
    ensures UndoOps(ctx, [DrainStep, StartValidatorStep]) == [CallDrain(ctx.host)]
  {
    assert [DrainStep, StartValidatorStep][..1] == [DrainStep] && [DrainStep][..0] == [];
  }

  /** What each plan asks for, and what a rollback after `k` steps undoes. */
  lemma ProvisionOps(ctx: Context, k: nat)
    requires k < 4
    ensures var h, steps := ctx.host, BuildPlan(Provision);
      && AllBacked(ctx, steps) && |steps| == 4
      && ForwardOps(ctx, steps) == [CallApplyInfra(h), CallTuneHost(h), CallStartValidator(h, ctx.version), CallAwaitCatchup(h)]
      && UndoOps(ctx, steps[..k]) ==
        if k == 0 then [] else if k == 3 then [CallDrain(h), CallDestroyInfra(h)] else [CallDestroyInfra(h)]
  {
    UndoOfThree(ctx);
    assert BuildPlan(Provision)[..k] ==
      if k == 0 then []
      else if k == 1 then [ApplyInfraStep]
      else if k == 2 then [ApplyInfraStep, TuneHostStep]
      else [ApplyInfraStep, TuneHostStep, StartValidatorStep];
  }

  lemma UpgradeOps(ctx: Context, version: Version, k: nat)
    requires k < 3
    ensures var h, steps := ctx.host, BuildPlan(Upgrade(version));
      && AllBacked(ctx, steps) && |steps| == 3
      && ForwardOps(ctx, steps) == [CallDrain(h), CallStartValidator(h, ctx.version), CallAwaitCatchup(h)]
      && UndoOps(ctx, steps[..k]) == if k == 2 then [CallDrain(h)] else []
  {
    UndoOfThree(ctx);
    UndoOfTwo(ctx);
    assert BuildPlan(Upgrade(version))[..k] ==
      if k == 0 then [] else if k == 1 then [DrainStep] else [DrainStep, StartValidatorStep];
  }

  lemma ShortOps(ctx: Context, kind: DeploymentKind, k: nat)
    requires k < 2 && (kind.Decommission? || (kind.Failover? && ctx.spareHost.Some?))
    ensures var h, steps := ctx.host, BuildPlan(kind);
      && AllBacked(ctx, steps) && |steps| == 2
      && ForwardOps(ctx, steps) ==
        [CallDrain(h), if kind.Failover? then CallSwapIdentity(h, ctx.spareHost.value) else CallDestroyInfra(h)]
      && UndoOps(ctx, steps[..k]) == []
  {
    UndoOfThree(ctx);
    UndoOfTwo(ctx);
    assert BuildPlan(kind)[..k] == if k == 0 then [] else [DrainStep];
  }

  lemma WholeSlice<T>(xs: seq<T>, k: nat)
    requires k <= |xs|
    ensures xs[..|xs|] == xs && xs[..k] + [] == xs[..k]
  {
  }

  /** A provision asks its agent for these calls, in this order, up to its first failure;
      then it drains if the start had worked, and destroys if anything had. */
  lemma ProvisionCalls<W>(ctx: Context, agent: NodeAgent<W>, w: W)
    ensures var r := RunSaga(StepBehaviour(ctx, Scribe(agent)), BuildPlan(Provision), (w, []));
      var h := ctx.host;
      r.world.1 == [CallApplyInfra(h), CallTuneHost(h), CallStartValidator(h, ctx.version), CallAwaitCatchup(h)][..
        if r.done < 4 then r.done + 1 else 4]
        + if r.done == 0 || r.done == 4 then []
          else if r.done == 3 then [CallDrain(h), CallDestroyInfra(h)]
          else [CallDestroyInfra(h)]
  {
    hide *;
    var r := RunSaga(StepBehaviour(ctx, Scribe(agent)), BuildPlan(Provision), (w, []));
    ProvisionOps(ctx, if r.done < 4 then r.done else 0);
    ScribedSaga(ctx, agent, BuildPlan(Provision), w);
    WholeSlice(ForwardOps(ctx, BuildPlan(Provision)), 4);
  }

  /** An upgrade; a start that had worked is undone by draining again. */
  lemma UpgradeCalls<W>(ctx: Context, agent: NodeAgent<W>, version: Version, w: W)
    ensures var r := RunSaga(StepBehaviour(ctx, Scribe(agent)), BuildPlan(Upgrade(version)), (w, []));
      var h := ctx.host;
      r.world.1 == [CallDrain(h), CallStartValidator(h, ctx.version), CallAwaitCatchup(h)][..
        if r.done < 3 then r.done + 1 else 3]
        + if r.done == 2 then [CallDrain(h)] else []
  {
    hide *;
    var r := RunSaga(StepBehaviour(ctx, Scribe(agent)), BuildPlan(Upgrade(version)), (w, []));
    UpgradeOps(ctx, version, if r.done < 3 then r.done else 0);
    ScribedSaga(ctx, agent, BuildPlan(Upgrade(version)), w);
    WholeSlice(ForwardOps(ctx, BuildPlan(Upgrade(version))), 3);
  }

  /** A failover to a known spare, and a decommission; neither undoes anything. */
  lemma FailoverCalls<W>(ctx: Context, agent: NodeAgent<W>, spare: NodeId, w: W)
    requires ctx.spareHost.Some?
    ensures var r := RunSaga(StepBehaviour(ctx, Scribe(agent)), BuildPlan(Failover(spare)), (w, []));
      r.world.1 == [CallDrain(ctx.host), CallSwapIdentity(ctx.host, ctx.spareHost.value)][..if r.done < 2 then r.done + 1 else 2]
  {
    hide *;
    var r := RunSaga(StepBehaviour(ctx, Scribe(agent)), BuildPlan(Failover(spare)), (w, []));
    ShortOps(ctx, Failover(spare), if r.done < 2 then r.done else 0);
    ScribedSaga(ctx, agent, BuildPlan(Failover(spare)), w);
    WholeSlice(ForwardOps(ctx, BuildPlan(Failover(spare))), if r.done < 2 then r.done + 1 else 2);
  }

  lemma DecommissionCalls<W>(ctx: Context, agent: NodeAgent<W>, w: W)
    ensures var r := RunSaga(StepBehaviour(ctx, Scribe(agent)), BuildPlan(Decommission), (w, []));
      r.world.1 == [CallDrain(ctx.host), CallDestroyInfra(ctx.host)][..if r.done < 2 then r.done + 1 else 2]
  {
    hide *;
    var r := RunSaga(StepBehaviour(ctx, Scribe(agent)), BuildPlan(Decommission), (w, []));
    ShortOps(ctx, Decommission, if r.done < 2 then r.done else 0);
    ScribedSaga(ctx, agent, BuildPlan(Decommission), w);
    WholeSlice(ForwardOps(ctx, BuildPlan(Decommission)), if r.done < 2 then r.done + 1 else 2);
  }
}
