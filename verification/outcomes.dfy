/** What deployments come to, written out case by case: the state, version and record each
    kind leaves, and the events it publishes. */
module Outcomes {
  import opened Domain
  import opened RateLimit
  import opened Repo
  import opened Saga
  import opened Plan
  import opened Lifecycle
  import opened Engine
  import opened Machine

  // The engine.

  lemma ActionsAre(kind: DeploymentKind)
    ensures PlanActions(kind) ==
      match kind
      case Provision => [ApplyInfra, TuneHost, StartValidator, AwaitCatchup]
      case Upgrade(_) => [Drain, StartValidator, AwaitCatchup]
      case Failover(_) => [Drain, SwapIdentity]
      case Decommission => [Drain, DestroyInfra]
  {
  }

  /** The events of a saga are all progress and compensation; those of one that
      succeeded are its completed actions. */
  lemma SagaEventsAre<W>(b: Behaviour<PlanStep, W>, id: RunId, kind: DeploymentKind, w: W)
    requires b.action == ActionOf
    ensures var s := RunSaga(b, BuildPlan(kind), w);
      var events := SagaEvents(b, id, BuildPlan(kind), s);
      && (forall e :: e in events ==> e.StepCompleted? || e.StepCompensated?)
      && (s.status == Succeeded ==>
        && s.done == |PlanActions(kind)| == |events|
        && forall i :: 0 <= i < |events| ==> events[i] == StepCompleted(id, PlanActions(kind)[i]))
  {
    var s := RunSaga(b, BuildPlan(kind), w);
    StatusSays(b, BuildPlan(kind), w);
    OnlySteps(b, id, BuildPlan(kind)[..s.done]);
    if s.done < |BuildPlan(kind)| {
      OnlyCompensations(b, id, BuildPlan(kind)[..s.done], s.undone);
    } else {
      assert s.undone == [];
      CompletedEventsExact(b, id, BuildPlan(kind)[..s.done]);
    }
  }

  lemma {:induction false} OnlySteps<W>(b: Behaviour<PlanStep, W>, id: RunId, steps: seq<PlanStep>)
    ensures forall e :: e in CompletedEvents(b, id, steps) ==> e.StepCompleted?
  {
    if steps != [] {
      OnlySteps(b, id, steps[..|steps| - 1]);
    }
  }

  lemma {:induction false} OnlyCompensations<W>(b: Behaviour<PlanStep, W>, id: RunId, done: seq<PlanStep>, oks: seq<bool>)
    requires |done| == |oks|
    ensures forall e :: e in CompensatedEvents(b, id, done, oks) ==> e.StepCompensated?
  {
    if done != [] {
      OnlyCompensations(b, id, done[..|done| - 1], oks[1..]);
    }
  }

  lemma MovesWritten(id: NodeId, n: NodeState, kind: DeploymentKind, status: RunStatus)
    requires Accepts(kind, n, status)
    ensures MoveEvents(id, n, PathFor(kind, status)) ==
      if kind.Provision? && status == Succeeded then
        [NodeStateChanged(id, n, Bootstrapping), NodeStateChanged(id, Bootstrapping, CatchingUp), NodeStateChanged(id, CatchingUp, Active)]
      else if kind.Provision? then [NodeStateChanged(id, n, NodeState.Failed)]
      else if status != Succeeded then []
      else if kind.Upgrade? then
        [NodeStateChanged(id, n, Draining), NodeStateChanged(id, Draining, CatchingUp), NodeStateChanged(id, CatchingUp, Active)]
      else [NodeStateChanged(id, n, Draining), NodeStateChanged(id, Draining, Decommissioned)]
  {
    var path := PathFor(kind, status);
    assert MoveEvents(id, n, []) == [];
    if |path| >= 1 {
      assert path[..1] == [path[0]] && path[..1][..0] == [];
      assert MoveEvents(id, n, path[..1]) == [NodeStateChanged(id, n, path[0])];
    }
    if |path| >= 2 {
      assert path[..2] == [path[0], path[1]] && path[..2][..1] == path[..1];
      assert MoveEvents(id, n, path[..2]) == [NodeStateChanged(id, n, path[0]), NodeStateChanged(id, path[0], path[1])];
    }
    assert path[..|path|] == path;
  }

  /** An accepted deployment, written out. A provision that succeeded leaves its node
      active, one that did not leaves it failed. An upgrade that succeeded leaves it active
      on the target version, a failover or decommission decommissioned; when these did not
      succeed, the node keeps state and version. `steps` are the events of its saga. */
  lemma AcceptedDeployment<W>(
    e: OpsEngine<W>, nodes0: map<NodeId, Node>, runs0: seq<Run>, runId: RunId, w0: W, events0: seq<OpsEvent>,
    id: NodeId, kind: DeploymentKind, clock: nat -> Instant, r: Result<Run>)
    returns (steps: seq<OpsEvent>)
    requires id in nodes0 && nodes0[id].id == id
    requires e.DeploymentDone(nodes0, runs0, runId, w0, events0, id, kind, clock, r)
    requires r.Ok?
    ensures id in e.repo.nodes && e.repo.nodes == nodes0[id := e.repo.nodes[id]]
    ensures var n, n', status := nodes0[id], e.repo.nodes[id], r.value.status;
      && n' == n.(state := n'.state, version := n'.version, updatedAt := n'.updatedAt)
      && n'.state == (
        if kind.Provision? then if status == Succeeded then Active else NodeState.Failed
        else if status != Succeeded then n.state
        else if kind.Upgrade? then Active
        else Decommissioned)
      && n'.version == (if kind.Upgrade? && status == Succeeded then kind.targetVersion else n.version)
      && n'.updatedAt == (
        if status == Succeeded then clock(match kind case Provision => 3 case Upgrade(_) => 4 case _ => 2)
        else if kind.Provision? then clock(1)
        else n.updatedAt)
    ensures forall x :: x in steps ==> x.StepCompleted? || x.StepCompensated?
    ensures var s, status := nodes0[id].state, r.value.status;
      e.events.entries == events0 + [RunStarted(runId, id, kind)] + steps + (
        if kind.Provision? && status == Succeeded then
          [NodeStateChanged(id, s, Bootstrapping), NodeStateChanged(id, Bootstrapping, CatchingUp), NodeStateChanged(id, CatchingUp, Active)]
        else if kind.Provision? then [NodeStateChanged(id, s, NodeState.Failed)]
        else if status != Succeeded then []
        else if kind.Upgrade? then
          [NodeStateChanged(id, s, Draining), NodeStateChanged(id, Draining, CatchingUp), NodeStateChanged(id, CatchingUp, Active)]
        else [NodeStateChanged(id, s, Draining), NodeStateChanged(id, Draining, Decommissioned)])
        + [RunFinished(runId, status)]
    ensures r.value == Run(runId, id, kind, r.value.status, r.value.completedSteps, clock(0), r.value.finishedAt)
    ensures r.value.finishedAt == Some(clock(
      if r.value.status == Succeeded then if kind.Provision? || kind.Upgrade? then 5 else 4
      else if kind.Provision? then 3 else 2))
    ensures r.value.status == Succeeded ==>
      && r.value.completedSteps == (
        match kind
        case Provision => [ApplyInfra, TuneHost, StartValidator, AwaitCatchup]
        case Upgrade(_) => [Drain, StartValidator, AwaitCatchup]
        case Failover(_) => [Drain, SwapIdentity]
        case Decommission => [Drain, DestroyInfra])
      && |steps| == |r.value.completedSteps|
      && forall i :: 0 <= i < |steps| ==> steps[i] == StepCompleted(runId, r.value.completedSteps[i])
  {
    var n := nodes0[id];
    var b := StepBehaviour(ContextOf(nodes0, n, kind), e.agent);
    assert b.action == ActionOf;
    hide *;
    var s := SagaOf(e.agent, nodes0, n, kind, w0);
    AcceptedEnds(e, nodes0, runs0, runId, w0, events0, id, kind, clock, r);
    SagaEventsAre(b, runId, kind, w0);
    MovesWritten(id, n.state, kind, s.status);
    SavedNodeIs(n, kind, s.status, clock);
    ClosedRunIs(runId, n, kind, s, clock);
    steps := SagaEvents(b, runId, BuildPlan(kind), s);
  }

  /** The parts an accepted deployment ends with. */
  lemma AcceptedEnds<W>(
    e: OpsEngine<W>, nodes0: map<NodeId, Node>, runs0: seq<Run>, runId: RunId, w0: W, events0: seq<OpsEvent>,
    id: NodeId, kind: DeploymentKind, clock: nat -> Instant, r: Result<Run>)
    requires id in nodes0 && nodes0[id].id == id
    requires e.DeploymentDone(nodes0, runs0, runId, w0, events0, id, kind, clock, r)
    requires r.Ok?
    ensures var n := nodes0[id];
      var s := SagaOf(e.agent, nodes0, n, kind, w0);
      var b := StepBehaviour(ContextOf(nodes0, n, kind), e.agent);
      && s == RunSaga(b, BuildPlan(kind), w0)
      && Accepts(kind, n.state, s.status) && r.value == ClosedRun(runId, n, kind, s, clock)
      && e.repo.nodes == nodes0[id := SavedNode(n, kind, s.status, clock)]
      && e.events.entries == events0 + [RunStarted(runId, id, kind)] + SagaEvents(b, runId, BuildPlan(kind), s)
        + MoveEvents(id, n.state, PathFor(kind, s.status)) + [RunFinished(runId, s.status)]
  {
    hide RunSaga, SagaEvents, MoveEvents, BuildPlan, PlanActions, StepBehaviour, Upsert, ContextOf, Accepts, SavedNode, PathFor;
  }

  lemma ClosedRunIs<W>(id: RunId, n: Node, kind: DeploymentKind, s: SagaRun<W>, clock: nat -> Instant)
    requires s.done <= |PlanActions(kind)|
    ensures var run := ClosedRun(id, n, kind, s, clock);
      && run == Run(id, n.id, kind, s.status, run.completedSteps, clock(0), run.finishedAt)
      && run.finishedAt == Some(clock(
        if s.status == Succeeded then if kind.Provision? || kind.Upgrade? then 5 else 4
        else if kind.Provision? then 3 else 2))
      && (s.done == |PlanActions(kind)| ==> run.completedSteps == PlanActions(kind))
      && PlanActions(kind) ==
        match kind
        case Provision => [ApplyInfra, TuneHost, StartValidator, AwaitCatchup]
        case Upgrade(_) => [Drain, StartValidator, AwaitCatchup]
        case Failover(_) => [Drain, SwapIdentity]
        case Decommission => [Drain, DestroyInfra]
  {
    ActionsAre(kind);
    PathsAre(kind, s.status);
    hide PathFor, PlanActions;
    assert PlanActions(kind)[..|PlanActions(kind)|] == PlanActions(kind);
  }

  lemma SavedNodeIs(n: Node, kind: DeploymentKind, status: RunStatus, clock: nat -> Instant)
    ensures var n' := SavedNode(n, kind, status, clock);
      && n' == n.(state := n'.state, version := n'.version, updatedAt := n'.updatedAt)
      && n'.state == (
        if kind.Provision? then if status == Succeeded then Active else NodeState.Failed
        else if status != Succeeded then n.state
        else if kind.Upgrade? then Active
        else Decommissioned)
      && n'.version == (if kind.Upgrade? && status == Succeeded then kind.targetVersion else n.version)
      && n'.updatedAt == (
        if status == Succeeded then clock(match kind case Provision => 3 case Upgrade(_) => 4 case _ => 2)
        else if kind.Provision? then clock(1)
        else n.updatedAt)
  {
    PathsAre(kind, status);
    hide PathFor;
  }

  /** A refused deployment, written out: which states refuse it, with which edge. */
  lemma RefusedDeployment<W>(
    e: OpsEngine<W>, nodes0: map<NodeId, Node>, runs0: seq<Run>, runId: RunId, w0: W, events0: seq<OpsEvent>,
    id: NodeId, kind: DeploymentKind, clock: nat -> Instant, r: Result<Run>)
    requires id in nodes0
    requires e.DeploymentDone(nodes0, runs0, runId, w0, events0, id, kind, clock, r)
    ensures var s, status := nodes0[id].state, SagaOf(e.agent, nodes0, nodes0[id], kind, w0).status;
      && (r.Failure? <==>
        if kind.Provision? && status == Succeeded then s != Provisioning
        else if kind.Provision? then s != Provisioning && s != Bootstrapping && s != CatchingUp
        else status == Succeeded && s != Active && s != Delinquent)
      && (r.Failure? ==>
        && e.repo.nodes == nodes0
        && r.error == IllegalTransition(s,
          if !kind.Provision? then Draining else if status == Succeeded then Bootstrapping else NodeState.Failed))
  {
    hide RunSaga, SagaEvents, MoveEvents, BuildPlan, PlanActions, StepBehaviour, Upsert, ContextOf, SagaOf;
  }

  /** What the run store holds after a deployment, written out: the answer, or the record
      as it was opened; and under every other id what it held before. */
  lemma DeploymentStored<W>(
    e: OpsEngine<W>, nodes0: map<NodeId, Node>, runs0: seq<Run>, runId: RunId, w0: W, events0: seq<OpsEvent>,
    id: NodeId, kind: DeploymentKind, clock: nat -> Instant, r: Result<Run>, other: RunId)
    requires id in nodes0 && nodes0[id].id == id
    requires e.DeploymentDone(nodes0, runs0, runId, w0, events0, id, kind, clock, r)
    ensures Lookup(e.repo.runs, other) ==
      if other != runId then Lookup(runs0, other)
      else Some(if r.Ok? then r.value else Run(runId, id, kind, Running, [], clock(0), None))
  {
    EndsStored(e.agent, clock, nodes0, runs0, runId, w0, events0, id, kind, r, e.repo.nodes, e.repo.runs, e.events.entries, other);
    hide Ends, Lookup;
  }

  // The machine.

  lemma LinkedAre(id: NodeId, s: NodeState, moves: seq<OpsEvent>)
    requires LinkedMoves(id, s, moves)
    ensures |Targets(moves)| == |moves|
    ensures forall k :: 0 <= k < |moves| ==>
      moves[k] == NodeStateChanged(id, if k == 0 then s else Targets(moves)[k - 1], Targets(moves)[k])
  {
    forall k | 0 <= k < |moves|
      ensures moves[k] == NodeStateChanged(id, if k == 0 then s else Targets(moves)[k - 1], Targets(moves)[k])
    {
      if k > 0 {
        var j := k - 1;
        assert moves[k].source == moves[j].target;
      }
    }
  }

  /** The save a call made: the node it read at the end of its path. */
  ghost predicate SavedBy(c: Call, save: Save) {
    && save.Deployed? && save.kind == c.kind && c.verdict == Some(save.status) && c.read.Some?
    && save.node == c.read.value.(state := save.node.state, version := save.node.version, updatedAt := save.node.updatedAt)
    && save.node.state == EndOf(c.read.value.state, PathFor(c.kind, save.status))
    && save.node.version == NewVersion(c.kind, save.status, c.read.value.version)
  }

  ghost predicate Traced(saves: seq<Save>, c: Call) {
    c.wrote ==> exists k :: 0 <= k < |saves| && SavedBy(c, saves[k])
  }

  lemma NodeSaveTraced(g: Shared, c: Call, x: Choice, n: Node, run: Run, status: RunStatus)
    requires CallOk(c) && c.pc == NeedNodeSave(n, run, status)
    ensures var (g', c') := NodeSave(g, c, x, n, run, status);
      g.saves <= g'.saves && Traced(g'.saves, c')
  {
    SavedNodeRests(c, n, run, status);
    var save := Deployed(c.kind, status, n);
    var (g', c') := NodeSave(g, c, x, n, run, status);
    NodeSaveFacts(c, n, run, status);
    SaveIsTracked(c, n, run, status);
    hide CallOk, LinkedMoves, PathFor, EndOf, NewVersion, MovesOf, Accepts;
    assert SavedBy(c', save);
    if Landed(x.port) {
      assert g'.saves[|g.saves|] == save;
    }
  }

  lemma SaveIsTracked(c: Call, n: Node, run: Run, status: RunStatus)
    requires CallOk(c) && c.pc == NeedNodeSave(n, run, status)
    ensures c.read.Some? && n == c.read.value.(state := n.state, version := n.version, updatedAt := n.updatedAt)
    ensures n.version == NewVersion(c.kind, status, c.read.value.version)
  {
    hide MovesOf, LinkedMoves, Targets, PathFor, Reached, IsProgress, NewVersion;
  }

  /** Any other step: nothing is saved for nodes, and a call that has written stays as it is. */
  lemma OtherTraced(g: Shared, c: Call, l: Label)
    requires CallOk(c) && Traced(g.saves, c)
    requires !(l.Act? && c.pc.NeedNodeSave?)
    ensures var (g', c') := CallStep(g, c, l);
      g'.saves == g.saves && Traced(g'.saves, c')
  {
    hide SavedBy, PlanActions, PathFor, Upsert, LinkedMoves, MovesOf, Accepts, IsProgress, StoredOk;
    var (g', c') := CallStep(g, c, l);
    SavesKept(g, c, l);
    hide CallStep, CallOk;
    if c'.wrote {
      var k :| 0 <= k < |g.saves| && SavedBy(c, g.saves[k]);
      SavedByKept(c, c', g.saves[k]);
    }
  }

  /** What a step that saves no node keeps: the saves, the call's request, and all that a
      call which has written knows. */
  ghost predicate Keeps(g: Shared, c: Call, g': Shared, c': Call) {
    && g'.saves == g.saves && c'.kind == c.kind
    && (c'.wrote ==> c.wrote && c'.read == c.read && c'.verdict == c.verdict)
  }

  lemma SagaKept(g: Shared, c: Call, x: Choice)
    requires c.pc.InSaga? && !c.wrote
    ensures Keeps(g, c, Advanced(g, c, x).0, Advanced(g, c, x).1)
  {
    hide PlanActions, PathFor, TakeSlot, ReadNode, ReadSpare, TakeId, FirstSave, WalkStep, NodeSave, LastSave, Publish;
  }

  lemma WalkKept(g: Shared, c: Call, x: Choice)
    requires c.pc.Walking?
    ensures Keeps(g, c, Advanced(g, c, x).0, Advanced(g, c, x).1)
  {
    hide TakeSlot, ReadNode, ReadSpare, TakeId, FirstSave, SagaStep, NodeSave, LastSave, Publish;
  }

  lemma PublishKept(g: Shared, c: Call, x: Choice)
    requires c.pc.Publishing?
    ensures Keeps(g, c, Advanced(g, c, x).0, Advanced(g, c, x).1)
  {
    hide TakeSlot, ReadNode, ReadSpare, TakeId, FirstSave, SagaStep, NodeSave, LastSave, WalkStep;
  }

  lemma PlainKept(g: Shared, c: Call, x: Choice)
    requires !c.pc.InSaga? && !c.pc.Walking? && !c.pc.Publishing? && !c.pc.NeedNodeSave?
    requires c.pc.NeedNode? ==> !c.wrote
    ensures Keeps(g, c, Advanced(g, c, x).0, Advanced(g, c, x).1)
  {
    hide Upsert, SagaStep, WalkStep, Publish, NodeSave;
  }

  lemma SavesKept(g: Shared, c: Call, l: Label)
    requires CallOk(c) && !(l.Act? && c.pc.NeedNodeSave?)
    ensures Keeps(g, c, CallStep(g, c, l).0, CallStep(g, c, l).1)
  {
    assert c.pc.NeedNode? || c.pc.InSaga? ==> !c.wrote;
    hide CallOk, CoreOk, Advanced;
    if l.Act? {
      hide Keeps;
      if c.pc.InSaga? {
        SagaKept(g, c, l.choice);
      } else if c.pc.Walking? {
        WalkKept(g, c, l.choice);
      } else if c.pc.Publishing? {
        PublishKept(g, c, l.choice);
      } else {
        PlainKept(g, c, l.choice);
      }
    }
  }

  lemma SavedByKept(c: Call, c': Call, save: Save)
    requires SavedBy(c, save) && c'.kind == c.kind && c'.verdict == c.verdict && c'.read == c.read
    ensures SavedBy(c', save)
  {
  }

  lemma TracedGrows(saves: seq<Save>, saves': seq<Save>, c: Call)
    requires Traced(saves, c) && saves <= saves'
    ensures Traced(saves', c)
  {
    hide SavedBy;
    if c.wrote {
      var k :| 0 <= k < |saves| && SavedBy(c, saves[k]);
      assert saves'[k] == saves[k];
    }
  }

  lemma StepTraced(s: State, l: Label)
    requires CallsOk(s) && forall i :: 0 <= i < |s.calls| ==> Traced(s.g.saves, s.calls[i])
    ensures forall i :: 0 <= i < |Step(s, l).calls| ==> Traced(Step(s, l).g.saves, Step(s, l).calls[i])
  {
    hide CallOk, StoredOk, NodesOk, RunsOk, SavedBy;
    var s' := Step(s, l);
    if (l.Act? || l.Drop?) && l.i < |s.calls| {
      var c := s.calls[l.i];
      if l.Act? && c.pc.NeedNodeSave? {
        NodeSaveTraced(s.g, c, l.choice, c.pc.node, c.pc.run, c.pc.status);
      } else {
        OtherTraced(s.g, c, l);
      }
    }
    assert s.g.saves <= s'.g.saves;
    forall i | 0 <= i < |s'.calls|
      ensures Traced(s'.g.saves, s'.calls[i])
    {
      if i < |s.calls| {
        TracedGrows(s.g.saves, s'.g.saves, s.calls[i]);
      }
    }
  }

  lemma {:induction false} AlwaysTraced(cfg: Config, labels: seq<Label>)
    ensures forall i :: 0 <= i < |Exec(cfg, labels).calls| ==> Traced(Exec(cfg, labels).g.saves, Exec(cfg, labels).calls[i])
  {
    if labels != [] {
      var before, l := labels[..|labels| - 1], labels[|labels| - 1];
      AlwaysTraced(cfg, before);
      AlwaysInv(cfg, before);
      hide Step, Traced, LimiterOk, SlotsOk, IdsOk, RunsOwned;
      StepTraced(Exec(cfg, before), l);
    }
  }

  /** An answered call of the machine, written out, in every interleaving: the moves it
      published, the node write it made, and the steps of a run that succeeded. */
  lemma AnsweredCallIs(cfg: Config, labels: seq<Label>, i: nat) returns (k: nat)
    requires i < |Exec(cfg, labels).calls|
    requires Exec(cfg, labels).calls[i].pc.Finished? && Exec(cfg, labels).calls[i].pc.outcome.Answered?
    ensures var c := Exec(cfg, labels).calls[i];
      var run := c.pc.outcome.run;
      && c.read.Some? && c.verdict == Some(run.status)
      && var s := c.read.value.state;
      Moves(c.posted) == (
        if c.kind.Provision? && run.status == Succeeded then
          [NodeStateChanged(c.target, Provisioning, Bootstrapping), NodeStateChanged(c.target, Bootstrapping, CatchingUp),
            NodeStateChanged(c.target, CatchingUp, Active)]
        else if c.kind.Provision? then [NodeStateChanged(c.target, Provisioning, NodeState.Failed)]
        else if run.status != Succeeded then []
        else if c.kind.Upgrade? then
          [NodeStateChanged(c.target, Active, Draining), NodeStateChanged(c.target, Draining, CatchingUp),
            NodeStateChanged(c.target, CatchingUp, Active)]
        else [NodeStateChanged(c.target, Active, Draining), NodeStateChanged(c.target, Draining, Decommissioned)])
    ensures var c, saves := Exec(cfg, labels).calls[i], Exec(cfg, labels).g.saves;
      && k < |saves| && saves[k].Deployed? && saves[k].kind == c.kind && saves[k].status == c.pc.outcome.run.status
      && var n := saves[k].node;
      && n == c.read.value.(state := n.state, version := n.version, updatedAt := n.updatedAt)
      && n.state == (
        if c.kind.Provision? then if saves[k].status == Succeeded then Active else NodeState.Failed
        else if saves[k].status != Succeeded then c.read.value.state
        else if c.kind.Upgrade? then Active
        else Decommissioned)
      && n.version == if c.kind.Upgrade? && saves[k].status == Succeeded then c.kind.targetVersion else c.read.value.version
    ensures var c := Exec(cfg, labels).calls[i];
      c.pc.outcome.run.status == Succeeded ==>
        c.pc.outcome.run.completedSteps ==
          match c.kind
          case Provision => [ApplyInfra, TuneHost, StartValidator, AwaitCatchup]
          case Upgrade(_) => [Drain, StartValidator, AwaitCatchup]
          case Failover(_) => [Drain, SwapIdentity]
          case Decommission => [Drain, DestroyInfra]
  {
    hide *;
    var s := Exec(cfg, labels);
    var c := s.calls[i];
    AlwaysTraced(cfg, labels);
    AnsweredIsStored(cfg, labels, i);
    CallIsOk(cfg, labels, i);
    AnsweredWrote(c);
    AcceptanceExact(cfg, labels, i);
    AnsweredMoves(c, c.pc.outcome.run.status);
    AnsweredSteps(c.pc.outcome.run);
    k := AnsweredSave(s.g.saves, c, c.pc.outcome.run.status);
  }

  lemma CallIsOk(cfg: Config, labels: seq<Label>, i: nat)
    requires i < |Exec(cfg, labels).calls|
    ensures CallOk(Exec(cfg, labels).calls[i])
  {
    AlwaysInv(cfg, labels);
    hide Exec, CallOk, StoredOk, LimiterOk, SlotsOk, IdsOk, RunsOwned;
  }

  lemma AnsweredSteps(run: Run)
    requires IsClosed(run)
    ensures run.status == Succeeded ==>
      run.completedSteps ==
        match run.kind
        case Provision => [ApplyInfra, TuneHost, StartValidator, AwaitCatchup]
        case Upgrade(_) => [Drain, StartValidator, AwaitCatchup]
        case Failover(_) => [Drain, SwapIdentity]
        case Decommission => [Drain, DestroyInfra]
  {
    ActionsAre(run.kind);
    hide PlanActions;
    assert PlanActions(run.kind)[..|PlanActions(run.kind)|] == PlanActions(run.kind);
  }

  lemma AnsweredMoves(c: Call, status: RunStatus)
    requires c.read.Some? && LinkedMoves(c.target, c.read.value.state, Moves(c.posted))
    requires Targets(Moves(c.posted)) == PathFor(c.kind, status)
    requires if c.kind.Provision? then c.read.value.state == Provisioning
      else status != Succeeded || c.read.value.state == Active
    ensures Moves(c.posted) == (
      if c.kind.Provision? && status == Succeeded then
        [NodeStateChanged(c.target, Provisioning, Bootstrapping), NodeStateChanged(c.target, Bootstrapping, CatchingUp),
          NodeStateChanged(c.target, CatchingUp, Active)]
      else if c.kind.Provision? then [NodeStateChanged(c.target, Provisioning, NodeState.Failed)]
      else if status != Succeeded then []
      else if c.kind.Upgrade? then
        [NodeStateChanged(c.target, Active, Draining), NodeStateChanged(c.target, Draining, CatchingUp),
          NodeStateChanged(c.target, CatchingUp, Active)]
      else [NodeStateChanged(c.target, Active, Draining), NodeStateChanged(c.target, Draining, Decommissioned)])
  {
    LinkedAre(c.target, c.read.value.state, Moves(c.posted));
    PathsAre(c.kind, status);
    hide LinkedMoves, Moves, Targets, PathFor;
  }

  lemma AnsweredSave(saves: seq<Save>, c: Call, status: RunStatus) returns (k: nat)
    requires Traced(saves, c) && c.wrote && c.verdict == Some(status)
    ensures k < |saves| && saves[k].Deployed? && saves[k].kind == c.kind && saves[k].status == status && c.read.Some?
    ensures var n := saves[k].node;
      && n == c.read.value.(state := n.state, version := n.version, updatedAt := n.updatedAt)
      && n.state == (
        if c.kind.Provision? then if status == Succeeded then Active else NodeState.Failed
        else if status != Succeeded then c.read.value.state
        else if c.kind.Upgrade? then Active
        else Decommissioned)
      && n.version == if c.kind.Upgrade? && status == Succeeded then c.kind.targetVersion else c.read.value.version
  {
    k :| 0 <= k < |saves| && SavedBy(c, saves[k]);
    PathsAre(c.kind, status);
    hide PathFor;
  }

  lemma AnsweredWrote(c: Call)
    requires CallOk(c) && c.pc.Finished? && c.pc.outcome.Answered?
    ensures c.wrote && c.verdict == Some(c.pc.outcome.run.status)
  {
    hide LinkedMoves, MovesOf, Targets, PathFor;
  }

  lemma PathsAre(kind: DeploymentKind, status: RunStatus)
    ensures PathFor(kind, status) ==
      if kind.Provision? && status == Succeeded then [Bootstrapping, CatchingUp, Active]
      else if kind.Provision? then [NodeState.Failed]
      else if status != Succeeded then []
      else if kind.Upgrade? then [Draining, CatchingUp, Active]
      else [Draining, Decommissioned]
  {
  }

  /** When a step refuses its call, error by error. */
  lemma RefusedExactly(g: Shared, c: Call, x: Choice, error: CoreError)
    requires CallOk(c) && !c.pc.Finished?
    ensures Advanced(g, c, x).1.pc == Finished(Refused(error)) <==>
      match error
      case Throttled => c.pc.NeedSlot? && g.free == 0
      case NotFound(id) =>
        && x.port.PortOk? && id !in g.nodes
        && ((c.pc.NeedNode? && id == c.target) || (c.pc.NeedSpare? && c.kind.Failover? && id == c.kind.spare))
      case Port(cause) =>
        && x.port.PortErr? && x.port.error == cause
        && (c.pc.NeedNode? || c.pc.NeedSpare? || c.pc.NeedFirstSave? || c.pc.NeedNodeSave? || c.pc.NeedLastSave?)
      case IllegalTransition(source, target) =>
        && c.pc.Walking? && c.pc.path != [] && source == c.pc.node.state && target == c.pc.path[0]
        && !source.CanTransitionTo(target)
  {
    assert c.pc.Publishing? && c.pc.next.Finished? ==> c.pc.next.outcome.Answered?;
    hide CallOk, CoreOk, Advanced;
    if c.pc.InSaga? {
      SagaGoesOn(g, c, x);
    } else if c.pc.Publishing? {
      PublishGoesOn(g, c, x);
    } else if c.pc.Walking? {
      WalkRefusesWith(g, c, x, error);
    } else if c.pc.NeedSlot? || c.pc.NeedNode? || c.pc.NeedSpare? || c.pc.NeedId? {
      OpeningRefusesWith(g, c, x, error);
    } else {
      SaveRefusesWith(g, c, x, error);
    }
  }

  lemma SagaGoesOn(g: Shared, c: Call, x: Choice)
    requires c.pc.InSaga?
    ensures !Advanced(g, c, x).1.pc.Finished?
  {
    hide PlanActions, PathFor;
  }

  lemma PublishGoesOn(g: Shared, c: Call, x: Choice)
    requires c.pc.Publishing? && (c.pc.next.Finished? ==> c.pc.next.outcome.Answered?)
    ensures var pc := Advanced(g, c, x).1.pc;
      pc.Finished? ==> pc.outcome.Answered?
  {
  }

  lemma WalkRefusesWith(g: Shared, c: Call, x: Choice, error: CoreError)
    requires c.pc.Walking?
    ensures Advanced(g, c, x).1.pc == Finished(Refused(error)) <==>
      && c.pc.path != [] && !c.pc.node.state.CanTransitionTo(c.pc.path[0])
      && error == IllegalTransition(c.pc.node.state, c.pc.path[0])
  {
  }

  lemma OpeningRefusesWith(g: Shared, c: Call, x: Choice, error: CoreError)
    requires c.pc.NeedSlot? || c.pc.NeedNode? || c.pc.NeedSpare? || c.pc.NeedId?
    ensures Advanced(g, c, x).1.pc == Finished(Refused(error)) <==>
      || (error == Throttled && c.pc.NeedSlot? && g.free == 0)
      || (error.NotFound? && x.port.PortOk? && error.id !in g.nodes
        && ((c.pc.NeedNode? && error.id == c.target) || (c.pc.NeedSpare? && c.kind.Failover? && error.id == c.kind.spare)))
      || (error.Port? && x.port.PortErr? && error.cause == x.port.error && (c.pc.NeedNode? || c.pc.NeedSpare?))
  {
  }

  lemma SaveRefusesWith(g: Shared, c: Call, x: Choice, error: CoreError)
    requires c.pc.NeedFirstSave? || c.pc.NeedNodeSave? || c.pc.NeedLastSave?
    ensures Advanced(g, c, x).1.pc == Finished(Refused(error)) <==>
      error.Port? && x.port.PortErr? && error.cause == x.port.error
  {
    hide Upsert;
  }

  /** A stored run of the machine, written out, in every interleaving: open and empty, or
      ended and with the first of its plan's actions, all of them exactly if it succeeded. */
  lemma StoredRunIs(cfg: Config, labels: seq<Label>, r: Run)
    requires r in Exec(cfg, labels).g.runs
    ensures
      || (r.status == Running && r.completedSteps == [] && r.finishedAt == None)
      || (r.status != Running && r.finishedAt.Some?
        && var plan := (
          match r.kind
          case Provision => [ApplyInfra, TuneHost, StartValidator, AwaitCatchup]
          case Upgrade(_) => [Drain, StartValidator, AwaitCatchup]
          case Failover(_) => [Drain, SwapIdentity]
          case Decommission => [Drain, DestroyInfra]);
        r.completedSteps <= plan && (r.status == Succeeded <==> r.completedSteps == plan))
  {
    StoredRuns(cfg, labels, r);
    ActionsAre(r.kind);
    hide Exec, PlanActions;
  }

  // What the environment may do.

  /** A call can be abandoned at any moment: it ends, its slot is free again if it held
      one, and nothing else changes. */
  lemma AbandonedAnywhere(s: State, i: nat)
    requires i < |s.calls| && !s.calls[i].pc.Finished?
    ensures var c := s.calls[i];
      Step(s, Drop(i)) == s.(
        g := s.g.(free := s.g.free + if c.pc.NeedSlot? then 0 else 1),
        calls := s.calls[i := c.(pc := Finished(Abandoned))])
  {
  }

  /** A save can fail although its write took effect: the call is refused, and the record
      or the node is stored. */
  lemma FailedSaveLands(g: Shared, c: Call, x: Choice)
    requires x.port.PortErr? && x.port.landed
    requires c.pc.NeedFirstSave? || c.pc.NeedLastSave? || c.pc.NeedNodeSave?
    ensures var (g', c') := Advanced(g, c, x);
      && c'.pc == Finished(Refused(Port(x.port.error)))
      && (c.pc.NeedNodeSave? ==>
        c.pc.node.id in g'.nodes && g'.nodes[c.pc.node.id] == c.pc.node && g'.runs == g.runs)
      && (!c.pc.NeedNodeSave? ==> Lookup(g'.runs, c.pc.run.id) == Some(c.pc.run) && g'.nodes == g.nodes)
  {
    if !c.pc.NeedNodeSave? {
      UpsertIsMapUpdate(g.runs, c.pc.run, c.pc.run.id);
    }
    hide Upsert, Lookup;
  }

  /** Time passes, and nodes are registered as provisioning. */
  lemma RestOfTheWorld(s: State, l: Label)
    ensures l.Tick? ==> Step(s, l) == s.(now := s.now + l.ms)
    ensures l.Register? && l.reply == PortOk ==>
      && Step(s, l).g.nodes == s.g.nodes[l.id := Node(l.id, l.placement, l.host, l.version, Provisioning, l.at, l.at)]
      && Step(s, l).calls == s.calls && Step(s, l).g.runs == s.g.runs
  {
  }

  /** A deployment is let in exactly when every window of the limiter still allows one
      token; a negative capacity or rate counts as zero. */
  lemma LetInExactly(cfg: Config, s: State, target: NodeId, kind: DeploymentKind, capacity: real, rate: real)
    returns (granted: bool)
    requires LimiterOk(cfg, s)
    requires capacity == (if cfg.capacity < 0.0 then 0.0 else cfg.capacity) && rate == if cfg.rate < 0.0 then 0.0 else cfg.rate
    ensures granted <==> forall since: nat :: cfg.start <= since <= s.now ==>
      1000.0 * (TakenSince(s.log, since) + 1.0 - capacity) <= rate * (s.now - since) as real
    ensures Step(s, Start(target, kind)).calls ==
      if granted then s.calls + [Call(target, kind, None, None, NeedSlot, None, false, [])] else s.calls
  {
    hide *;
    LimiterShape(cfg, s, capacity, rate);
    granted := OneTokenLetsIn(s.bucket, capacity, rate, cfg.start, s.log, s.now);
    StartSteps(s, target, kind);
  }

  lemma LimiterShape(cfg: Config, s: State, capacity: real, rate: real)
    requires LimiterOk(cfg, s)
    requires capacity == (if cfg.capacity < 0.0 then 0.0 else cfg.capacity) && rate == if cfg.rate < 0.0 then 0.0 else cfg.rate
    ensures Explains(s.bucket, cfg.start, s.log) && cfg.start <= s.bucket.last <= s.now
    ensures s.bucket.capacity == capacity && s.bucket.rate == rate
  {
    hide Explains, TakenSince;
  }

  lemma OneTokenLetsIn(b: Bucket, capacity: real, rate: real, start: nat, log: seq<Entry>, now: nat)
    returns (granted: bool)
    requires Explains(b, start, log) && start <= b.last <= now && b.capacity == capacity && b.rate == rate
    ensures granted == b.TryTake(1.0, now).0
    ensures granted <==> forall since: nat :: start <= since <= now ==>
      1000.0 * (TakenSince(log, since) + 1.0 - capacity) <= rate * (now - since) as real
  {
    hide WithinEveryWindow, TakenSince, Explains, Refilled;
    TryTakeConforms(b, start, log, 1.0, now);
    WindowsInMillis(capacity, rate, start, log, now, 1.0);
    granted := b.TryTake(1.0, now).0;
  }

  lemma StartSteps(s: State, target: NodeId, kind: DeploymentKind)
    ensures Step(s, Start(target, kind)).calls ==
      if s.bucket.TryTake(1.0, s.now).0 then s.calls + [Call(target, kind, None, None, NeedSlot, None, false, [])]
      else s.calls
  {
    hide Refilled;
  }
}
