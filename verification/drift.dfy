/** Where the records and the hosts part: a deployment acts on hosts before the lifecycle
    is asked, so what it did can stand while its record is refused. */
module Drift {
  import opened Domain
  import opened Agent
  import opened Saga
  import opened Plan
  import opened HostModel
  import opened Engine

  /** When a provision leaves the fleet as it was, read off which of its calls fail,
      counted from number `c` on: its first call failed; or it destroyed again a host that
      did not exist; or what stands of it had been true of the host before. */
  predicate ProvisionLeaves(ctx: Context, faults: Faults, c: nat, hosts: Fleet) {
    var h := ctx.host;
    var ok := (k: nat) => faults(c + k).None?;
    if !ok(0) then true
    else if !ok(1) then if ok(2) then h !in hosts else h in hosts
    else if !ok(2) then if ok(3) then h !in hosts else h in hosts && hosts[h].tuned
    else if ok(3) then h in hosts && hosts[h] == HostState(true, Some(ctx.version), true)
    else if ok(5) then h !in hosts
    else h in hosts && hosts[h] == HostState(true, Some(ctx.version), !ok(4))
  }

  /** When a successful saga of another kind leaves the fleet as it was: it did to each
      host what was true of it already. */
  predicate SuccessLeaves(ctx: Context, kind: DeploymentKind, hosts: Fleet)
    requires kind.Failover? ==> ctx.spareHost.Some?
  {
    var h := ctx.host;
    match kind
    case Upgrade(_) => h !in hosts || (hosts[h].voting && hosts[h].running == Some(ctx.version))
    case Failover(_) =>
      var spare := ctx.spareHost.value;
      && (spare !in hosts || hosts[spare].voting)
      && (h == spare || h !in hosts || !hosts[h].voting)
    case _ => h !in hosts
  }

  lemma ProvisionFleet(ctx: Context, faults: Faults, w: HostWorld)
    ensures HostSaga(ctx, faults, Provision, w).world.hosts == w.hosts <==> ProvisionLeaves(ctx, faults, w.calls, w.hosts)
  {
    SagaEnding(ctx, faults, Provision, w);
    hide HostSaga, Effect;
    var h, v, hosts := ctx.host, ctx.version, w.hosts;
    var applied := Effect(CallApplyInfra(h), hosts);
    var tuned := Effect(CallTuneHost(h), applied);
    var started := Effect(CallStartValidator(h, v), tuned);
    ProvisionEffects(h, v, hosts);
    assert (hosts - {h} == hosts <==> h !in hosts);
  }

  /** The fleet after each call of a provision, and whether it is the one it started from. */
  lemma ProvisionEffects(h: HostAddr, v: Version, hosts: Fleet)
    ensures var applied := Effect(CallApplyInfra(h), hosts);
      var tuned := Effect(CallTuneHost(h), applied);
      var started := Effect(CallStartValidator(h, v), tuned);
      var drained := Effect(CallDrain(h), started);
      && (applied == hosts <==> h in hosts) && applied - {h} == hosts - {h}
      && (tuned == hosts <==> h in hosts && hosts[h].tuned) && tuned - {h} == hosts - {h}
      && (started == hosts <==> h in hosts && hosts[h] == HostState(true, Some(v), true)) && started - {h} == hosts - {h}
      && (drained == hosts <==> h in hosts && hosts[h] == HostState(true, Some(v), false)) && drained - {h} == hosts - {h}
  {
    var was := if h in hosts then hosts[h] else HostState(false, None, false);
    assert Effect(CallApplyInfra(h), hosts) == hosts[h := was];
    var tuned := Effect(CallTuneHost(h), hosts[h := was]);
    assert tuned == hosts[h := was.(tuned := true)];
    var started := Effect(CallStartValidator(h, v), tuned);
    assert started == hosts[h := HostState(true, Some(v), true)];
    assert Effect(CallDrain(h), started) == hosts[h := HostState(true, Some(v), false)];
    hide Effect;
    OneHost(hosts, h, was);
    OneHost(hosts, h, was.(tuned := true));
    OneHost(hosts, h, HostState(true, Some(v), true));
    OneHost(hosts, h, HostState(true, Some(v), false));
  }

  lemma OneHost(hosts: Fleet, h: HostAddr, s: HostState)
    ensures hosts[h := s] == hosts <==> h in hosts && hosts[h] == s
    ensures hosts[h := s] - {h} == hosts - {h}
  {
    if h in hosts && hosts[h] == s {
      assert hosts[h := s] == hosts;
    } else {
      assert hosts[h := s][h] == s;
    }
  }

  lemma SuccessFleet(ctx: Context, faults: Faults, kind: DeploymentKind, w: HostWorld)
    requires !kind.Provision? && (kind.Failover? ==> ctx.spareHost.Some?)
    requires HostSaga(ctx, faults, kind, w).status == Succeeded
    ensures HostSaga(ctx, faults, kind, w).world.hosts == w.hosts <==> SuccessLeaves(ctx, kind, w.hosts)
  {
    SagaEnding(ctx, faults, kind, w);
    hide HostSaga;
    var h, hosts := ctx.host, w.hosts;
    match kind {
      case Upgrade(_) =>
        if h in hosts {
          var started := hosts[h].(running := Some(ctx.version), voting := true);
          assert Effect(CallStartValidator(h, ctx.version), Effect(CallDrain(h), hosts)) == hosts[h := started];
          OneHost(hosts, h, started);
        }
      case Failover(_) => SwapFleet(h, ctx.spareHost.value, hosts);
      case _ => DestroyFleet(h, hosts);
    }
  }

  lemma SwapFleet(h: HostAddr, spare: HostAddr, hosts: Fleet)
    ensures Effect(CallSwapIdentity(h, spare), Effect(CallDrain(h), hosts)) == hosts <==>
      (spare !in hosts || hosts[spare].voting) && (h == spare || h !in hosts || !hosts[h].voting)
  {
    var left := Effect(CallSwapIdentity(h, spare), Effect(CallDrain(h), hosts));
    assert left.Keys == hosts.Keys;
    assert h in hosts && h != spare ==> left[h] == hosts[h].(voting := false);
    assert spare in hosts ==> left[spare] == hosts[spare].(voting := true);
    assert forall x :: x in hosts && x != h && x != spare ==> left[x] == hosts[x];
  }

  lemma DestroyFleet(h: HostAddr, hosts: Fleet)
    ensures Effect(CallDestroyInfra(h), Effect(CallDrain(h), hosts)) == hosts <==> h !in hosts
  {
    var left := Effect(CallDestroyInfra(h), Effect(CallDrain(h), hosts));
    assert h !in left;
    assert h !in hosts ==> left == hosts;
  }

  /** The saga of the engine, when its agent acts on this fleet. */
  lemma SagaOnFleet(faults: Faults, nodes: map<NodeId, Node>, n: Node, kind: DeploymentKind, w: HostWorld)
    ensures SagaOf(HostAgent(faults), nodes, n, kind, w) == HostSaga(ContextOf(nodes, n, kind), faults, kind, w)
  {
    hide RunSaga;
  }

  /** A refused deployment has acted all the same. Its record, node and announcements are
      as if the saga had not run, but the fleet is unchanged exactly when the saga's calls
      came to nothing: for a provision by which of them failed, for the other kinds, which
      are refused only after a saga that succeeded, by what was true of the hosts before. */
  lemma RefusedDeploymentActs(
    e: OpsEngine<HostWorld>, faults: Faults, nodes0: map<NodeId, Node>, runs0: seq<Run>, runId: RunId, w0: HostWorld,
    events0: seq<OpsEvent>, id: NodeId, kind: DeploymentKind, clock: nat -> Instant, r: Result<Run>)
    requires Known(nodes0, id, kind) && e.agent == HostAgent(faults)
    requires e.DeploymentDone(nodes0, runs0, runId, w0, events0, id, kind, clock, r)
    requires r.Failure?
    ensures e.repo.nodes == nodes0
    ensures var ctx := ContextOf(nodes0, nodes0[id], kind);
      e.world.hosts == w0.hosts <==>
        if kind.Provision? then ProvisionLeaves(ctx, faults, w0.calls, w0.hosts)
        else SuccessLeaves(ctx, kind, w0.hosts)
  {
    var n := nodes0[id];
    var ctx := ContextOf(nodes0, n, kind);
    SagaOnFleet(faults, nodes0, n, kind, w0);
    hide HostSaga, HostAgent, SagaOf, ProvisionLeaves, SuccessLeaves, SagaEvents, PlanActions;
    if kind.Provision? {
      ProvisionFleet(ctx, faults, w0);
    } else {
      SuccessFleet(ctx, faults, kind, w0);
    }
  }

  /** A provision of a node that is already active is always refused, after it has run. If
      it was rolled back and its first call had got through, the live host is gone while
      its record still says active. */
  lemma ProvisionOfActiveNode(
    e: OpsEngine<HostWorld>, faults: Faults, nodes0: map<NodeId, Node>, runs0: seq<Run>, runId: RunId, w0: HostWorld,
    events0: seq<OpsEvent>, id: NodeId, clock: nat -> Instant, r: Result<Run>)
    requires id in nodes0 && nodes0[id].state == Active && e.agent == HostAgent(faults)
    requires e.DeploymentDone(nodes0, runs0, runId, w0, events0, id, Provision, clock, r)
    ensures r == Failure(IllegalTransition(Active,
      if SagaOf(e.agent, nodes0, nodes0[id], Provision, w0).status == Succeeded then Bootstrapping else NodeState.Failed))
    ensures e.repo.nodes == nodes0 && e.repo.nodes[id].state == Active
    ensures SagaOf(e.agent, nodes0, nodes0[id], Provision, w0).status == RolledBack && faults(w0.calls).None? ==>
      e.world.hosts == w0.hosts - {nodes0[id].host}
  {
    SagaOnFleet(faults, nodes0, nodes0[id], Provision, w0);
    ProvisionRollback(ContextOf(nodes0, nodes0[id], Provision), faults, w0);
    hide HostSaga, HostAgent, SagaOf, SagaEvents, PlanActions;
  }

  /** Such a provision, at an input: tuning fails and destroying works. */
  lemma LiveHostDestroyed(
    e: OpsEngine<HostWorld>, faults: Faults, nodes0: map<NodeId, Node>, runs0: seq<Run>, runId: RunId, w0: HostWorld,
    events0: seq<OpsEvent>, id: NodeId, clock: nat -> Instant, r: Result<Run>)
    requires id in nodes0 && nodes0[id].state == Active && e.agent == HostAgent(faults)
    requires e.DeploymentDone(nodes0, runs0, runId, w0, events0, id, Provision, clock, r)
    requires faults(w0.calls).None? && faults(w0.calls + 1).Some? && faults(w0.calls + 2).None?
    ensures nodes0[id].host !in e.world.hosts && e.repo.nodes[id].state == Active
  {
    var ctx := ContextOf(nodes0, nodes0[id], Provision);
    SagaOnFleet(faults, nodes0, nodes0[id], Provision, w0);
    RolledBackExactly(ctx, faults, Provision, w0);
    ProvisionOfActiveNode(e, faults, nodes0, runs0, runId, w0, events0, id, clock, r);
    hide HostSaga, HostAgent, SagaOf;
  }

  /** A rolled-back upgrade is accepted and keeps the version on record; if its start had
      got through, its host runs the other one. */
  lemma RolledBackUpgradeDrifts(
    e: OpsEngine<HostWorld>, faults: Faults, nodes0: map<NodeId, Node>, runs0: seq<Run>, runId: RunId, w0: HostWorld,
    events0: seq<OpsEvent>, id: NodeId, kind: DeploymentKind, clock: nat -> Instant, r: Result<Run>)
    requires id in nodes0 && nodes0[id].host in w0.hosts && kind.Upgrade? && e.agent == HostAgent(faults)
    requires e.DeploymentDone(nodes0, runs0, runId, w0, events0, id, kind, clock, r)
    requires SagaOf(e.agent, nodes0, nodes0[id], kind, w0).status == RolledBack
    requires faults(w0.calls).None? && faults(w0.calls + 1).None?
    ensures r.Ok? && id in e.repo.nodes && e.repo.nodes[id].version == nodes0[id].version
    ensures nodes0[id].host in e.world.hosts && e.world.hosts[nodes0[id].host].running == Some(kind.targetVersion)
  {
    SagaOnFleet(faults, nodes0, nodes0[id], kind, w0);
    RollbackLeavesHostDrained(ContextOf(nodes0, nodes0[id], kind), faults, kind, w0);
    hide HostSaga, HostAgent, SagaOf, SagaEvents, PlanActions;
  }

  // What works, written out: which hosts a deployment whose calls all work has acted on.

  lemma DoneOnFleet(
    e: OpsEngine<HostWorld>, faults: Faults, nodes0: map<NodeId, Node>, runs0: seq<Run>, runId: RunId, w0: HostWorld,
    events0: seq<OpsEvent>, id: NodeId, kind: DeploymentKind, clock: nat -> Instant, r: Result<Run>)
    requires id in nodes0 && e.agent == HostAgent(faults)
    requires e.DeploymentDone(nodes0, runs0, runId, w0, events0, id, kind, clock, r)
    ensures e.world.hosts == Ending(ContextOf(nodes0, nodes0[id], kind), faults, kind, w0.calls, w0.hosts).1
  {
    SagaOnFleet(faults, nodes0, nodes0[id], kind, w0);
    SagaEnding(ContextOf(nodes0, nodes0[id], kind), faults, kind, w0);
    hide HostSaga, HostAgent, SagaOf, Ending, ContextOf, Ends;
  }

  /** A failover whose two calls work moves the vote from the host of its node to the host
      of its spare, and changes nothing else. */
  lemma FailoverMovesVote(
    e: OpsEngine<HostWorld>, faults: Faults, nodes0: map<NodeId, Node>, runs0: seq<Run>, runId: RunId, w0: HostWorld,
    events0: seq<OpsEvent>, id: NodeId, kind: DeploymentKind, clock: nat -> Instant, r: Result<Run>)
    requires id in nodes0 && kind.Failover? && kind.spare in nodes0 && e.agent == HostAgent(faults)
    requires e.DeploymentDone(nodes0, runs0, runId, w0, events0, id, kind, clock, r)
    requires faults(w0.calls).None? && faults(w0.calls + 1).None?
    ensures e.world.hosts.Keys == w0.hosts.Keys
    ensures forall h :: h in w0.hosts ==>
      e.world.hosts[h] == w0.hosts[h].(voting :=
        if h == nodes0[kind.spare].host then true
        else if h == nodes0[id].host then false
        else w0.hosts[h].voting)
  {
    DoneOnFleet(e, faults, nodes0, runs0, runId, w0, events0, id, kind, clock, r);
    hide HostAgent, Ends, SagaOf, Effect;
    SwappedFleet(nodes0[id].host, nodes0[kind.spare].host, w0.hosts);
  }

  lemma SwappedFleet(h: HostAddr, spare: HostAddr, hosts: Fleet)
    ensures var left := Effect(CallSwapIdentity(h, spare), Effect(CallDrain(h), hosts));
      && left.Keys == hosts.Keys
      && forall x :: x in hosts ==>
        left[x] == hosts[x].(voting := if x == spare then true else if x == h then false else hosts[x].voting)
  {
  }

  /** A provision whose four calls work leaves the host of its node tuned, voting and on
      the version on record; an upgrade whose three work, voting and on the target version;
      a decommission whose two work, gone. No other host changes. */
  lemma WorkingCallsAct(
    e: OpsEngine<HostWorld>, faults: Faults, nodes0: map<NodeId, Node>, runs0: seq<Run>, runId: RunId, w0: HostWorld,
    events0: seq<OpsEvent>, id: NodeId, kind: DeploymentKind, clock: nat -> Instant, r: Result<Run>)
    requires id in nodes0 && !kind.Failover? && e.agent == HostAgent(faults)
    requires e.DeploymentDone(nodes0, runs0, runId, w0, events0, id, kind, clock, r)
    requires faults(w0.calls).None? && faults(w0.calls + 1).None?
    requires !kind.Decommission? ==> faults(w0.calls + 2).None?
    requires kind.Provision? ==> faults(w0.calls + 3).None?
    ensures var h := nodes0[id].host;
      match kind
      case Provision => e.world.hosts == w0.hosts[h := HostState(true, Some(nodes0[id].version), true)]
      case Upgrade(version) => e.world.hosts ==
        if h in w0.hosts then w0.hosts[h := HostState(w0.hosts[h].tuned, Some(version), true)] else w0.hosts
      case _ => e.world.hosts == w0.hosts - {h}
  {
    DoneOnFleet(e, faults, nodes0, runs0, runId, w0, events0, id, kind, clock, r);
    hide HostAgent, Ends, SagaOf, Effect;
    StartedFleet(nodes0[id].host, nodes0[id].version, w0.hosts);
    if kind.Upgrade? {
      RestartedFleet(nodes0[id].host, kind.targetVersion, w0.hosts);
    }
    RemovedFleet(nodes0[id].host, w0.hosts);
  }

  lemma StartedFleet(h: HostAddr, v: Version, hosts: Fleet)
    ensures Effect(CallStartValidator(h, v), Effect(CallTuneHost(h), Effect(CallApplyInfra(h), hosts)))
      == hosts[h := HostState(true, Some(v), true)]
  {
  }

  lemma RestartedFleet(h: HostAddr, v: Version, hosts: Fleet)
    ensures Effect(CallStartValidator(h, v), Effect(CallDrain(h), hosts))
      == if h in hosts then hosts[h := HostState(hosts[h].tuned, Some(v), true)] else hosts
  {
  }

  lemma RemovedFleet(h: HostAddr, hosts: Fleet)
    ensures Effect(CallDestroyInfra(h), Effect(CallDrain(h), hosts)) == hosts - {h}
  {
  }
}
