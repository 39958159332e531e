/** What a rollback leaves on the hosts. The agent's operations act on a map of
    hosts as their port documents them; any call may fail, and a failed call
    changes nothing. */
module HostModel {
  import opened Domain
  import opened Agent
  import opened Saga
  import opened Plan

  datatype HostState = HostState(tuned: bool, running: Option<Version>, voting: bool)

  type Fleet = map<HostAddr, HostState>

  /** The fleet, and how many calls were made so far. */
  datatype HostWorld = HostWorld(hosts: Fleet, calls: nat)

  /** Whether, and how, each call in turn fails. */
  type Faults = nat -> Option<PortError>

  function Update(hosts: Fleet, h: HostAddr, f: HostState -> HostState): Fleet {
    if h in hosts then hosts[h := f(hosts[h])] else hosts
  }

  /** The effect of a successful call. */
  function Effect(op: AgentOp, hosts: Fleet): Fleet {
    match op
    case CallApplyInfra(h) => if h in hosts then hosts else hosts[h := HostState(false, None, false)]
    case CallTuneHost(h) => Update(hosts, h, (s: HostState) => s.(tuned := true))
    case CallStartValidator(h, v) => Update(hosts, h, (s: HostState) => s.(running := Some(v), voting := true))
    case CallAwaitCatchup(h) => hosts
    case CallDrain(h) => Update(hosts, h, (s: HostState) => s.(voting := false))
    case CallSwapIdentity(source, target) =>
      Update(Update(hosts, source, (s: HostState) => s.(voting := false)), target, (s: HostState) => s.(voting := true))
    case CallDestroyInfra(h) => hosts - {h}
  }

  function HostAgent(faults: Faults): NodeAgent<HostWorld> {
    (op: AgentOp, w: HostWorld) =>
      match faults(w.calls)
      case Some(e) => (Reply.Err(e), w.(calls := w.calls + 1))
      case None => (Done, HostWorld(Effect(op, w.hosts), w.calls + 1))
  }

  function HostSaga(ctx: Context, faults: Faults, kind: DeploymentKind, w: HostWorld): SagaRun<HostWorld> {
    RunSaga(StepBehaviour(ctx, HostAgent(faults)), BuildPlan(kind), w)
  }

  // What a saga does to the fleet, call by call.

  /** How a saga of `kind` ends and what it leaves of `hosts`, read off which of its calls
      fail, counted from number `c` on. */
  function Ending(ctx: Context, faults: Faults, kind: DeploymentKind, c: nat, hosts: Fleet): (RunStatus, Fleet) {
    var h, v := ctx.host, ctx.version;
    match kind
    case Provision =>
      var applied := Effect(CallApplyInfra(h), hosts);
      var tuned := Effect(CallTuneHost(h), applied);
      var started := Effect(CallStartValidator(h, v), tuned);
      if faults(c).Some? then (RolledBack, hosts)
      else if faults(c + 1).Some? then Destroyed(faults, c + 2, h, applied, true)
      else if faults(c + 2).Some? then Destroyed(faults, c + 3, h, tuned, true)
      else if faults(c + 3).Some? then
        if faults(c + 4).Some? then Destroyed(faults, c + 5, h, started, false)
        else Destroyed(faults, c + 5, h, Effect(CallDrain(h), started), true)
      else (Succeeded, started)
    case Upgrade(_) =>
      var drained := Effect(CallDrain(h), hosts);
      var started := Effect(CallStartValidator(h, v), drained);
      if faults(c).Some? then (RolledBack, hosts)
      else if faults(c + 1).Some? then (RolledBack, drained)
      else if faults(c + 2).Some? then
        if faults(c + 3).Some? then (RunFailed, started) else (RolledBack, Effect(CallDrain(h), started))
      else (Succeeded, started)
    case _ =>
      var drained := Effect(CallDrain(h), hosts);
      if faults(c).Some? then (RolledBack, hosts)
      else if LastOp(ctx, kind).None? || faults(c + 1).Some? then (RolledBack, drained)
      else (Succeeded, Effect(LastOp(ctx, kind).value, drained))
  }

  /** The final compensation of a provision, call number `c`. */
  function Destroyed(faults: Faults, c: nat, h: HostAddr, hosts: Fleet, clean: bool): (RunStatus, Fleet) {
    if faults(c).Some? then (RunFailed, hosts) else (if clean then RolledBack else RunFailed, hosts - {h})
  }

  /** The second call of a failover or a decommission. */
  function LastOp(ctx: Context, kind: DeploymentKind): Option<AgentOp> {
    ForwardOp(ctx, if kind.Failover? then SwapIdentityStep else DestroyInfraStep)
  }

  /** A step's forward action, and its compensation. */
  lemma HostCalls(ctx: Context, faults: Faults, s: PlanStep, w: HostWorld)
    ensures var b, fails := StepBehaviour(ctx, HostAgent(faults)), faults(w.calls).Some?;
      && (ForwardOp(ctx, s).Some? ==>
        b.execute(s, w) ==
          Answer(!fails, HostWorld(if fails then w.hosts else Effect(ForwardOp(ctx, s).value, w.hosts), w.calls + 1)))
      && (ForwardOp(ctx, s).None? ==> b.execute(s, w) == Answer(false, w))
      && (UndoOp(ctx, s).Some? ==>
        b.compensate(s, w) ==
          Answer(!fails, HostWorld(if fails then w.hosts else Effect(UndoOp(ctx, s).value, w.hosts), w.calls + 1)))
      && (UndoOp(ctx, s).None? ==> b.compensate(s, w) == Answer(true, w))
  {
    hide Effect;
  }

  /** The world after a step's call succeeded. */
  function After(op: AgentOp, w: HostWorld): HostWorld {
    HostWorld(Effect(op, w.hosts), w.calls + 1)
  }

  /** The forward part: as many steps as calls in a row succeed. */
  function Forwarded(ctx: Context, faults: Faults, steps: seq<PlanStep>, w: HostWorld): Progress<HostWorld> {
    if steps == [] then Progress(0, false, w)
    else if ForwardOp(ctx, steps[0]).None? then Progress(0, true, w)
    else if faults(w.calls).Some? then Progress(0, true, w.(calls := w.calls + 1))
    else
      var p := Forwarded(ctx, faults, steps[1..], After(ForwardOp(ctx, steps[0]).value, w));
      Progress(p.done + 1, p.failed, p.world)
  }

  lemma {:induction false} ForwardIs(ctx: Context, faults: Faults, steps: seq<PlanStep>, w: HostWorld)
    ensures RunForward(StepBehaviour(ctx, HostAgent(faults)), steps, w) == Forwarded(ctx, faults, steps, w)
  {
    if steps != [] {
      HostCalls(ctx, faults, steps[0], w);
      hide Effect, StepBehaviour, HostAgent;
      var a := StepBehaviour(ctx, HostAgent(faults)).execute(steps[0], w);
      if a.ok {
        ForwardIs(ctx, faults, steps[1..], a.world);
      }
    }
  }

  lemma ForwardedOne(ctx: Context, faults: Faults, s: PlanStep, rest: seq<PlanStep>, w: HostWorld)
    ensures Forwarded(ctx, faults, [s] + rest, w) ==
      var op := ForwardOp(ctx, s);
      if op.None? then Progress(0, true, w)
      else if faults(w.calls).Some? then Progress(0, true, w.(calls := w.calls + 1))
      else
        var p := Forwarded(ctx, faults, rest, After(op.value, w));
        Progress(p.done + 1, p.failed, p.world)
    ensures Forwarded(ctx, faults, [], w) == Progress(0, false, w)
  {
    assert ([s] + rest)[1..] == rest;
  }

  /** The last step is compensated first. */
  lemma BackwardSnoc(ctx: Context, faults: Faults, done: seq<PlanStep>, s: PlanStep, w: HostWorld)
    ensures var b := StepBehaviour(ctx, HostAgent(faults));
      var a := b.compensate(s, w);
      var u, v := RunBackward(b, done + [s], w), RunBackward(b, done, a.world);
      u.world == v.world && (AllOk(u.oks) <==> a.ok && AllOk(v.oks))
  {
    hide StepBehaviour, HostAgent, AllOk;
    assert (done + [s])[..|done|] == done;
    var b := StepBehaviour(ctx, HostAgent(faults));
    var a := b.compensate(s, w);
    AllOkCons(a.ok, RunBackward(b, done, a.world).oks);
  }

  lemma BackwardNone(ctx: Context, faults: Faults, w: HostWorld)
    ensures RunBackward(StepBehaviour(ctx, HostAgent(faults)), [], w) == Unwound([], w) && AllOk([])
  {
  }

  /** Undoing an applied host is one destroying call. */
  lemma UndoApplied(ctx: Context, faults: Faults, w: HostWorld)
    ensures var u := RunBackward(StepBehaviour(ctx, HostAgent(faults)), [ApplyInfraStep], w);
      (if AllOk(u.oks) then RolledBack else RunFailed, u.world.hosts)
        == Destroyed(faults, w.calls, ctx.host, w.hosts, true)
  {
    hide StepBehaviour, HostAgent, RunBackward, AllOk;
    assert [] + [ApplyInfraStep] == [ApplyInfraStep];
    BackwardSnoc(ctx, faults, [], ApplyInfraStep, w);
    HostCalls(ctx, faults, ApplyInfraStep, w);
    BackwardNone(ctx, faults, StepBehaviour(ctx, HostAgent(faults)).compensate(ApplyInfraStep, w).world);
  }

  /** The tuning has no compensation of its own: destroying the host undoes it. */
  lemma UndoTuned(ctx: Context, faults: Faults, w: HostWorld)
    ensures var u := RunBackward(StepBehaviour(ctx, HostAgent(faults)), [ApplyInfraStep, TuneHostStep], w);
      (if AllOk(u.oks) then RolledBack else RunFailed, u.world.hosts)
        == Destroyed(faults, w.calls, ctx.host, w.hosts, true)
  {
    hide StepBehaviour, HostAgent, RunBackward, AllOk, Destroyed;
    assert [ApplyInfraStep] + [TuneHostStep] == [ApplyInfraStep, TuneHostStep];
    BackwardSnoc(ctx, faults, [ApplyInfraStep], TuneHostStep, w);
    HostCalls(ctx, faults, TuneHostStep, w);
    UndoApplied(ctx, faults, w);
  }

  lemma UndoStarted(ctx: Context, faults: Faults, w: HostWorld)
    ensures var u := RunBackward(StepBehaviour(ctx, HostAgent(faults)), [ApplyInfraStep, TuneHostStep, StartValidatorStep], w);
      (if AllOk(u.oks) then RolledBack else RunFailed, u.world.hosts) ==
        if faults(w.calls).Some? then Destroyed(faults, w.calls + 1, ctx.host, w.hosts, false)
        else Destroyed(faults, w.calls + 1, ctx.host, Effect(CallDrain(ctx.host), w.hosts), true)
  {
    hide StepBehaviour, HostAgent, RunBackward, AllOk, Effect;
    assert [ApplyInfraStep, TuneHostStep] + [StartValidatorStep] == [ApplyInfraStep, TuneHostStep, StartValidatorStep];
    BackwardSnoc(ctx, faults, [ApplyInfraStep, TuneHostStep], StartValidatorStep, w);
    HostCalls(ctx, faults, StartValidatorStep, w);
    UndoTuned(ctx, faults, StepBehaviour(ctx, HostAgent(faults)).compensate(StartValidatorStep, w).world);
  }

  lemma ProvisionForward(ctx: Context, faults: Faults, w: HostWorld)
    ensures var applied := After(CallApplyInfra(ctx.host), w);
      var tuned := After(CallTuneHost(ctx.host), applied);
      var started := After(CallStartValidator(ctx.host, ctx.version), tuned);
      Forwarded(ctx, faults, BuildPlan(Provision), w) ==
        if faults(w.calls).Some? then Progress(0, true, w.(calls := w.calls + 1))
        else if faults(w.calls + 1).Some? then Progress(1, true, applied.(calls := w.calls + 2))
        else if faults(w.calls + 2).Some? then Progress(2, true, tuned.(calls := w.calls + 3))
        else
          var fails := faults(w.calls + 3).Some?;
          Progress(if fails then 3 else 4, fails, started.(calls := w.calls + 4))
  {
    hide Effect, Forwarded;
    var applied := After(CallApplyInfra(ctx.host), w);
    var tuned := After(CallTuneHost(ctx.host), applied);
    var started := After(CallStartValidator(ctx.host, ctx.version), tuned);
    assert BuildPlan(Provision) == [ApplyInfraStep] + [TuneHostStep, StartValidatorStep, AwaitCatchupStep];
    assert [TuneHostStep, StartValidatorStep, AwaitCatchupStep] == [TuneHostStep] + [StartValidatorStep, AwaitCatchupStep];
    assert [StartValidatorStep, AwaitCatchupStep] == [StartValidatorStep] + [AwaitCatchupStep];
    assert [AwaitCatchupStep] == [AwaitCatchupStep] + [];
    ForwardedOne(ctx, faults, ApplyInfraStep, [TuneHostStep, StartValidatorStep, AwaitCatchupStep], w);
    ForwardedOne(ctx, faults, TuneHostStep, [StartValidatorStep, AwaitCatchupStep], applied);
    ForwardedOne(ctx, faults, StartValidatorStep, [AwaitCatchupStep], tuned);
    ForwardedOne(ctx, faults, AwaitCatchupStep, [], started);
    ForwardedOne(ctx, faults, AwaitCatchupStep, [], After(CallAwaitCatchup(ctx.host), started));
    NoEffect(ctx.host, started.hosts);
  }

  lemma ProvisionEnding(ctx: Context, faults: Faults, w: HostWorld)
    ensures var r := HostSaga(ctx, faults, Provision, w);
      (r.status, r.world.hosts) == Ending(ctx, faults, Provision, w.calls, w.hosts)
  {
    hide StepBehaviour, HostAgent, RunForward, RunBackward, AllOk, Effect, Destroyed, Forwarded;
    var steps := BuildPlan(Provision);
    ForwardIs(ctx, faults, steps, w);
    ProvisionForward(ctx, faults, w);
    var p := Forwarded(ctx, faults, steps, w);
    if p.failed {
      assert steps[..p.done] ==
        if p.done == 0 then []
        else if p.done == 1 then [ApplyInfraStep]
        else if p.done == 2 then [ApplyInfraStep, TuneHostStep]
        else [ApplyInfraStep, TuneHostStep, StartValidatorStep];
      BackwardNone(ctx, faults, p.world);
      UndoApplied(ctx, faults, p.world);
      UndoTuned(ctx, faults, p.world);
      UndoStarted(ctx, faults, p.world);
    }
  }

  lemma NoEffect(h: HostAddr, hosts: Fleet)
    ensures Effect(CallAwaitCatchup(h), hosts) == hosts
  {
  }

  lemma UpgradeForward(ctx: Context, faults: Faults, version: Version, w: HostWorld)
    ensures var drained := After(CallDrain(ctx.host), w);
      var started := After(CallStartValidator(ctx.host, ctx.version), drained);
      Forwarded(ctx, faults, BuildPlan(Upgrade(version)), w) ==
        if faults(w.calls).Some? then Progress(0, true, w.(calls := w.calls + 1))
        else if faults(w.calls + 1).Some? then Progress(1, true, drained.(calls := w.calls + 2))
        else
          var fails := faults(w.calls + 2).Some?;
          Progress(if fails then 2 else 3, fails, started.(calls := w.calls + 3))
  {
    hide Effect, Forwarded;
    var drained := After(CallDrain(ctx.host), w);
    var started := After(CallStartValidator(ctx.host, ctx.version), drained);
    assert BuildPlan(Upgrade(version)) == [DrainStep] + [StartValidatorStep, AwaitCatchupStep];
    assert [StartValidatorStep, AwaitCatchupStep] == [StartValidatorStep] + [AwaitCatchupStep];
    assert [AwaitCatchupStep] == [AwaitCatchupStep] + [];
    ForwardedOne(ctx, faults, DrainStep, [StartValidatorStep, AwaitCatchupStep], w);
    ForwardedOne(ctx, faults, StartValidatorStep, [AwaitCatchupStep], drained);
    ForwardedOne(ctx, faults, AwaitCatchupStep, [], started);
    ForwardedOne(ctx, faults, AwaitCatchupStep, [], After(CallAwaitCatchup(ctx.host), started));
    NoEffect(ctx.host, started.hosts);
  }

  lemma UpgradeEnding(ctx: Context, faults: Faults, version: Version, w: HostWorld)
    ensures var r := HostSaga(ctx, faults, Upgrade(version), w);
      (r.status, r.world.hosts) == Ending(ctx, faults, Upgrade(version), w.calls, w.hosts)
  {
    hide StepBehaviour, HostAgent, RunForward, RunBackward, AllOk, Effect, Forwarded;
    var steps := BuildPlan(Upgrade(version));
    ForwardIs(ctx, faults, steps, w);
    UpgradeForward(ctx, faults, version, w);
    var p := Forwarded(ctx, faults, steps, w);
    if p.failed {
      assert steps[..p.done] ==
        if p.done == 0 then [] else if p.done == 1 then [DrainStep] else [DrainStep, StartValidatorStep];
      BackwardNone(ctx, faults, p.world);
      SilentUndo(ctx, HostAgent(faults), [DrainStep], p.world);
      UnwindDrainAndStart(ctx, HostAgent(faults), p.world);
      AgentCall(faults, CallDrain(ctx.host), p.world);
    }
  }

  lemma AgentCall(faults: Faults, op: AgentOp, w: HostWorld)
    ensures var (reply, w') := HostAgent(faults)(op, w);
      && (reply.Done? <==> faults(w.calls).None?)
      && w'.hosts == if faults(w.calls).Some? then w.hosts else Effect(op, w.hosts)
  {
  }

  lemma ShortEnding(ctx: Context, faults: Faults, kind: DeploymentKind, w: HostWorld)
    requires kind.Failover? || kind.Decommission?
    ensures var r := HostSaga(ctx, faults, kind, w);
      (r.status, r.world.hosts) == Ending(ctx, faults, kind, w.calls, w.hosts)
  {
    hide StepBehaviour, HostAgent, RunForward, RunBackward, AllOk, Effect;
    var steps := BuildPlan(kind);
    ForwardIs(ctx, faults, steps, w);
    var drained := After(CallDrain(ctx.host), w);
    assert steps == [DrainStep] + [steps[1]] && [steps[1]] == [steps[1]] + [];
    ForwardedOne(ctx, faults, DrainStep, [steps[1]], w);
    ForwardedOne(ctx, faults, steps[1], [], drained);
    if LastOp(ctx, kind).Some? {
      ForwardedOne(ctx, faults, steps[1], [], After(LastOp(ctx, kind).value, drained));
    }
    hide Forwarded;
    var p := Forwarded(ctx, faults, steps, w);
    assert steps[..p.done] == if p.done == 0 then [] else if p.done == 1 then [DrainStep] else steps;
    BackwardNone(ctx, faults, p.world);
    SilentUndo(ctx, HostAgent(faults), [DrainStep], p.world);
  }

  /** The end of every saga and the fleet it leaves are determined by which calls fail. */
  lemma SagaEnding(ctx: Context, faults: Faults, kind: DeploymentKind, w: HostWorld)
    ensures var r := HostSaga(ctx, faults, kind, w);
      (r.status, r.world.hosts) == Ending(ctx, faults, kind, w.calls, w.hosts)
  {
    hide HostSaga, Ending;
    match kind
    case Provision => ProvisionEnding(ctx, faults, w);
    case Upgrade(version) => UpgradeEnding(ctx, faults, version, w);
    case _ => ShortEnding(ctx, faults, kind, w);
  }

  // What a rollback restores.

  /** A rolled-back provision: if its first call failed nothing changed, otherwise the
      target host is gone and every other host is as before. So the fleet is restored
      exactly when the first call failed or the host did not exist before. */
  lemma ProvisionRollback(ctx: Context, faults: Faults, w: HostWorld)
    ensures var r := HostSaga(ctx, faults, Provision, w);
      r.status == RolledBack ==>
        && r.world.hosts == (if faults(w.calls).Some? then w.hosts else w.hosts - {ctx.host})
        && (r.world.hosts == w.hosts <==> faults(w.calls).Some? || ctx.host !in w.hosts)
  {
    SagaEnding(ctx, faults, Provision, w);
    hide HostSaga;
  }

  /** What a rolled-back upgrade, failover or decommission makes of its host once the
      drain got through. */
  function LeftDrained(ctx: Context, faults: Faults, kind: DeploymentKind, c: nat, host: HostState): HostState {
    HostState(host.tuned, if kind.Upgrade? && faults(c + 1).None? then Some(ctx.version) else host.running, false)
  }

  /** A rollback of any other plan. Draining has no compensation, and undoing a start
      drains: once the first call got through, the host is left drained, and after an
      upgrade whose start got through as well it is left with the target version; no
      other host changes. So the fleet is restored exactly when the first call failed,
      the host does not exist, or it was drained before and, if the start got through,
      already ran the target version. */
  lemma RollbackLeavesHostDrained(ctx: Context, faults: Faults, kind: DeploymentKind, w: HostWorld)
    requires !kind.Provision?
    ensures var r := HostSaga(ctx, faults, kind, w);
      var c, h := w.calls, ctx.host;
      r.status == RolledBack ==>
        && r.world.hosts == (if faults(c).Some? || h !in w.hosts then w.hosts
          else w.hosts[h := LeftDrained(ctx, faults, kind, c, w.hosts[h])])
        && (r.world.hosts == w.hosts <==>
          || faults(c).Some? || h !in w.hosts
          || (!w.hosts[h].voting && (kind.Upgrade? && faults(c + 1).None? ==> w.hosts[h].running == Some(ctx.version))))
  {
    SagaEnding(ctx, faults, kind, w);
    hide HostSaga;
    var r, h := HostSaga(ctx, faults, kind, w), ctx.host;
    if r.status == RolledBack && faults(w.calls).None? && h in w.hosts {
      var left := LeftDrained(ctx, faults, kind, w.calls, w.hosts[h]);
      assert r.world.hosts == w.hosts[h := left];
      assert w.hosts[h := left][h] == left;
    }
  }

  /** When a saga is rolled back at all: its first failing call, and the calls that undo
      what was done before. */
  lemma RolledBackExactly(ctx: Context, faults: Faults, kind: DeploymentKind, w: HostWorld)
    ensures var ok := (k: nat) => faults(w.calls + k).None?;
      HostSaga(ctx, faults, kind, w).status == RolledBack <==>
        match kind
        case Provision =>
          !ok(0) || (!ok(1) && ok(2)) || (ok(1) && !ok(2) && ok(3)) || (ok(1) && ok(2) && !ok(3) && ok(4) && ok(5))
        case Upgrade(_) => !ok(0) || !ok(1) || (!ok(2) && ok(3))
        case _ => !ok(0) || LastOp(ctx, kind).None? || !ok(1)
  {
    SagaEnding(ctx, faults, kind, w);
    hide HostSaga, Effect;
  }

  /** A host that was drained before is not restored either: an upgrade that drains and
      starts it, fails to catch up and drains it again ends rolled back, and the host is
      left with the target version. */
  lemma RollbackLeavesTargetVersion(ctx: Context, was: Version)
    requires ctx.version != was
    ensures var w := HostWorld(map[ctx.host := HostState(true, Some(was), false)], 0);
      var r := HostSaga(ctx, (c: nat) => if c == 2 then Some(Timeout) else None, Upgrade(ctx.version), w);
      && r.status == RolledBack
      && r.world.hosts == map[ctx.host := HostState(true, Some(ctx.version), false)]
      && r.world.hosts != w.hosts
  {
    var w := HostWorld(map[ctx.host := HostState(true, Some(was), false)], 0);
    var faults: Faults := (c: nat) => if c == 2 then Some(Timeout) else None;
    RolledBackExactly(ctx, faults, Upgrade(ctx.version), w);
    RollbackLeavesHostDrained(ctx, faults, Upgrade(ctx.version), w);
  }

  /** The swap's own compensation, which no plan comes to: were a step to fail after the
      swap, the vote would be back on the host. */
  lemma SwapIsUndone(ctx: Context, faults: Faults, last: PlanStep, w: HostWorld)
    requires ctx.spareHost.Some? && ctx.host in w.hosts && ctx.spareHost.value in w.hosts
    requires w.hosts[ctx.host].voting && !w.hosts[ctx.spareHost.value].voting
    requires faults(w.calls).None? && faults(w.calls + 1).Some? && faults(w.calls + 2).None?
    ensures var r := RunSaga(StepBehaviour(ctx, HostAgent(faults)), [SwapIdentityStep, last], w);
      r.status == RolledBack && r.world.hosts == w.hosts
  {
    var steps, swap := [SwapIdentityStep, last], CallSwapIdentity(ctx.host, ctx.spareHost.value);
    var swapped := After(swap, w);
    var failed := swapped.(calls := w.calls + 2);
    BackAndForth(ctx.host, ctx.spareHost.value, w.hosts);
    SwapForward(ctx, faults, last, w);
    SwapBackward(ctx, faults, failed);
    hide StepBehaviour, HostAgent, RunForward, RunBackward, AllOk, Effect;
    assert steps[..1] == [SwapIdentityStep];
  }

  lemma SwapForward(ctx: Context, faults: Faults, last: PlanStep, w: HostWorld)
    requires ctx.spareHost.Some? && faults(w.calls).None? && faults(w.calls + 1).Some?
    ensures RunForward(StepBehaviour(ctx, HostAgent(faults)), [SwapIdentityStep, last], w)
      == Progress(1, true, After(CallSwapIdentity(ctx.host, ctx.spareHost.value), w).(calls := w.calls + 2))
  {
    hide StepBehaviour, HostAgent, RunForward, Effect, Forwarded;
    assert [SwapIdentityStep, last] == [SwapIdentityStep] + [last] && [last] == [last] + [];
    ForwardIs(ctx, faults, [SwapIdentityStep, last], w);
    ForwardedOne(ctx, faults, SwapIdentityStep, [last], w);
    ForwardedOne(ctx, faults, last, [], After(CallSwapIdentity(ctx.host, ctx.spareHost.value), w));
  }

  lemma SwapBackward(ctx: Context, faults: Faults, w: HostWorld)
    requires ctx.spareHost.Some? && faults(w.calls).None?
    ensures var u := RunBackward(StepBehaviour(ctx, HostAgent(faults)), [SwapIdentityStep], w);
      AllOk(u.oks) && u.world == After(CallSwapIdentity(ctx.spareHost.value, ctx.host), w)
  {
    hide StepBehaviour, HostAgent, RunBackward, AllOk, Effect;
    assert [] + [SwapIdentityStep] == [SwapIdentityStep];
    BackwardSnoc(ctx, faults, [], SwapIdentityStep, w);
    HostCalls(ctx, faults, SwapIdentityStep, w);
    BackwardNone(ctx, faults, After(CallSwapIdentity(ctx.spareHost.value, ctx.host), w));
  }

  lemma BackAndForth(h: HostAddr, spare: HostAddr, hosts: Fleet)
    requires h in hosts && spare in hosts && hosts[h].voting && !hosts[spare].voting
    ensures Effect(CallSwapIdentity(spare, h), Effect(CallSwapIdentity(h, spare), hosts)) == hosts
  {
  }
}
