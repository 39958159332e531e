/** The orchestration service: one deployment from admission to its terminal record,
    over the in-memory repository and an arbitrary node agent. */
module Engine {
  import opened Domain
  import opened Records
  import opened RateLimit
  import opened Bulkheads
  import opened Repo
  import opened Saga
  import opened Plan
  import opened Lifecycle

  /** The events of a lifecycle path walked from `source`. */
  function MoveEvents(id: NodeId, source: NodeState, path: seq<NodeState>): seq<OpsEvent> {
    if path == [] then []
    else
      var k := |path| - 1;
      MoveEvents(id, source, path[..k]) + [NodeStateChanged(id, EndOf(source, path[..k]), path[k])]
  }

  /** A walk that stopped before edge `k` with `error`, the moves up to there published. */
  ghost predicate StoppedAt(
    id: NodeId, source: NodeState, path: seq<NodeState>, k: nat, before: seq<OpsEvent>, after: seq<OpsEvent>,
    error: CoreError)
  {
    && k < |path|
    && LegalPath(source, path[..k]) && !EndOf(source, path[..k]).CanTransitionTo(path[k])
    && after == before + MoveEvents(id, source, path[..k])
    && error == IllegalTransition(EndOf(source, path[..k]), path[k])
  }

  lemma FirstOfPrefix(source: NodeState, path: seq<NodeState>, k: nat)
    requires k < |path|
    ensures k > 0 && LegalPath(source, path[..k]) ==> source.CanTransitionTo(path[0])
  {
    assert k > 0 ==> path[..k][0] == path[0];
  }

  /** The error of a deployment whose finished saga is not accepted. */
  function Refusal(kind: DeploymentKind, source: NodeState, status: RunStatus): CoreError
    requires !Accepts(kind, source, status)
  {
    IllegalTransition(source, PathFor(kind, status)[0])
  }

  /** A deployment's path stops, if at all, before its first edge. */
  lemma StopsAtOnce(
    id: NodeId, source: NodeState, kind: DeploymentKind, status: RunStatus, k: nat,
    before: seq<OpsEvent>, after: seq<OpsEvent>, error: CoreError)
    requires StoppedAt(id, source, PathFor(kind, status), k, before, after, error)
    ensures !Accepts(kind, source, status) && after == before && error == Refusal(kind, source, status)
  {
    var path := PathFor(kind, status);
    AcceptsExactly(kind, source, status);
    LegalPathAppend(source, path[..k], path[k..]);
    assert path[..k] + path[k..] == path;
    assert path[k..][0] == path[k];
    FirstOfPrefix(source, path, k);
    assert k == 0 && before + [] == before;
  }

  /** One edge more of a path: what is legal so far, and what cannot become legal again. */
  lemma WalkOne(source: NodeState, path: seq<NodeState>, k: nat)
    requires k < |path| && LegalPath(source, path[..k])
    ensures EndOf(source, path[..k]).CanTransitionTo(path[k]) ==> LegalPath(source, path[..k + 1])
    ensures !EndOf(source, path[..k]).CanTransitionTo(path[k]) ==> !LegalPath(source, path)
  {
    var end := EndOf(source, path[..k]);
    LegalPathAppend(source, path[..k], path[k..]);
    LegalPathAppend(source, path[..k], [path[k]]);
    assert path[..k] + path[k..] == path && path[k..][0] == path[k];
    assert path[..k + 1] == path[..k] + [path[k]];
    assert LegalPath(end, [path[k]]) <==> end.CanTransitionTo(path[k]) by {
      assert [path[k]][1..] == [];
    }
  }

  /** The saga of an admitted deployment, as a function of what it read. */
  function SagaOf<W>(agent: NodeAgent<W>, nodes: map<NodeId, Node>, n: Node, kind: DeploymentKind, w: W): SagaRun<W> {
    RunSaga(StepBehaviour(ContextOf(nodes, n, kind), agent), BuildPlan(kind), w)
  }

  function ContextOf(nodes: map<NodeId, Node>, n: Node, kind: DeploymentKind): Context {
    Context(n.host,
      if kind.Upgrade? then kind.targetVersion else n.version,
      if kind.Failover? && kind.spare in nodes then Some(nodes[kind.spare].host) else None)
  }

  /** The target and, for a failover, the spare are both known. */
  predicate Known(nodes: map<NodeId, Node>, id: NodeId, kind: DeploymentKind) {
    id in nodes && (kind.Failover? ==> kind.spare in nodes)
  }

  // What a deployment leaves behind. `clock(k)` is the clock reading number `k` of those
  // that end up in a record: the start, each move, a new version, and the finish.

  function OpenedRun(id: RunId, n: Node, kind: DeploymentKind, clock: nat -> Instant): Run {
    Run(id, n.id, kind, Running, [], clock(0), None)
  }

  /** The record a deployment closes with. */
  function ClosedRun<W>(id: RunId, n: Node, kind: DeploymentKind, saga: SagaRun<W>, clock: nat -> Instant): Run
    requires saga.done <= |PlanActions(kind)|
  {
    Run(id, n.id, kind, saga.status, PlanActions(kind)[..saga.done], clock(0),
      Some(clock(2 + |PathFor(kind, saga.status)|)))
  }

  /** A node at the end of its path, whose moves were made at the clock readings from number `i` on. */
  function Walked(n: Node, path: seq<NodeState>, i: nat, clock: nat -> Instant): Node {
    if path == [] then n else n.(state := path[|path| - 1], updatedAt := clock(i + |path| - 1))
  }

  /** The node a deployment saves: the one it read, at the end of its path, with the
      target version after a successful upgrade. */
  function SavedNode(n: Node, kind: DeploymentKind, status: RunStatus, clock: nat -> Instant): Node {
    var path := PathFor(kind, status);
    Versioned(Walked(n, path, 1, clock), kind, status, clock(1 + |path|))
  }

  function Versioned(n: Node, kind: DeploymentKind, status: RunStatus, at: Instant): Node {
    if status == Succeeded && kind.Upgrade? then n.(version := kind.targetVersion, updatedAt := at) else n
  }

  /** How a deployment of a known target ends: its answer and the nodes, runs and events
      it leaves, from those it started with. It is accepted exactly when the node it read
      fits; if not, the stored node is untouched, no move and no end of the run is
      published, and the stored run stays open. */
  ghost predicate Ends<W>(
    agent: NodeAgent<W>, clock: nat -> Instant, nodes: map<NodeId, Node>, runs: seq<Run>, runId: RunId, world: W,
    events: seq<OpsEvent>, id: NodeId, kind: DeploymentKind, r: Result<Run>,
    nodes': map<NodeId, Node>, runs': seq<Run>, events': seq<OpsEvent>)
    requires id in nodes
  {
    var n := nodes[id];
    var s := SagaOf(agent, nodes, n, kind, world);
    var b := StepBehaviour(ContextOf(nodes, n, kind), agent);
    var begun := Upsert(runs, OpenedRun(runId, n, kind, clock));
    var progress := events + [RunStarted(runId, id, kind)] + SagaEvents(b, runId, BuildPlan(kind), s);
    if Accepts(kind, n.state, s.status) then
      && r == Ok(ClosedRun(runId, n, kind, s, clock))
      && nodes' == nodes[id := SavedNode(n, kind, s.status, clock)]
      && runs' == Upsert(begun, ClosedRun(runId, n, kind, s, clock))
      && events' == progress + MoveEvents(id, n.state, PathFor(kind, s.status)) + [RunFinished(runId, s.status)]
    else
      r == Failure(Refusal(kind, n.state, s.status)) && nodes' == nodes && runs' == begun && events' == progress
  }

  /** The parts of a deployment, put together: it opened `begun`, its saga left `run`, and
      then it was concluded. */
  lemma EndsByParts<W>(
    agent: NodeAgent<W>, clock: nat -> Instant, nodes: map<NodeId, Node>, runs: seq<Run>, runId: RunId, world: W,
    events: seq<OpsEvent>, id: NodeId, kind: DeploymentKind, begun: Run, run: Run, progress: seq<OpsEvent>,
    r: Result<Run>, nodes': map<NodeId, Node>, runs': seq<Run>, events': seq<OpsEvent>)
    requires id in nodes && nodes[id].id == id && begun == OpenedRun(runId, nodes[id], kind, clock)
    requires var s := SagaOf(agent, nodes, nodes[id], kind, world);
      && run == begun.(completedSteps := PlanActions(kind)[..s.done])
      && progress == events + [RunStarted(runId, id, kind)]
        + SagaEvents(StepBehaviour(ContextOf(nodes, nodes[id], kind), agent), runId, BuildPlan(kind), s)
      && (Accepts(kind, nodes[id].state, s.status) ==>
        var closed := run.(status := s.status, finishedAt := Some(clock(2 + |PathFor(kind, s.status)|)));
        && r == Ok(closed) && runs' == Upsert(Upsert(runs, begun), closed)
        && nodes' == nodes[id := SavedNode(nodes[id], kind, s.status, clock)]
        && events' == progress + MoveEvents(id, nodes[id].state, PathFor(kind, s.status)) + [RunFinished(runId, s.status)])
      && (!Accepts(kind, nodes[id].state, s.status) ==>
        && r == Failure(Refusal(kind, nodes[id].state, s.status))
        && nodes' == nodes && runs' == Upsert(runs, begun) && events' == progress)
    ensures Ends(agent, clock, nodes, runs, runId, world, events, id, kind, r, nodes', runs', events')
  {
    hide Upsert, SagaEvents, MoveEvents, RunSaga, Accepts, SavedNode, BuildPlan, PlanActions, PathFor, StepBehaviour, ContextOf;
  }

  /** What the run store then answers: the closed record or the open one under the
      deployment's id, and for every other id what it answered before. */
  lemma EndsStored<W>(
    agent: NodeAgent<W>, clock: nat -> Instant, nodes: map<NodeId, Node>, runs: seq<Run>, runId: RunId, world: W,
    events: seq<OpsEvent>, id: NodeId, kind: DeploymentKind, r: Result<Run>,
    nodes': map<NodeId, Node>, runs': seq<Run>, events': seq<OpsEvent>, other: RunId)
    requires id in nodes
    requires Ends(agent, clock, nodes, runs, runId, world, events, id, kind, r, nodes', runs', events')
    ensures Lookup(runs', other) ==
      if other != runId then Lookup(runs, other)
      else if r.Ok? then Some(r.value)
      else Some(OpenedRun(runId, nodes[id], kind, clock))
  {
    var first := OpenedRun(runId, nodes[id], kind, clock);
    UpsertIsMapUpdate(runs, first, other);
    if r.Ok? {
      UpsertIsMapUpdate(Upsert(runs, first), r.value, other);
    }
  }

  class OpsEngine<W> {
    const repo: InMemoryNodeRepository
    const events: EventLog
    const saga: SagaExecutor
    const limiter: RateLimiter
    const bulkhead: Bulkhead
    const agent: NodeAgent<W>
    /** Everything the agent acts on. */
    var world: W
    var nextRun: nat

    ghost predicate Valid()
      reads this, repo, limiter, bulkhead
    {
      && repo.Valid() && limiter.Valid() && bulkhead.Valid()
      && saga.events == events
      && nextRun >= 1
    }

    constructor (repo: InMemoryNodeRepository, agent: NodeAgent<W>, world: W,
                 capacity: real, rate: real, slots: nat, now: nat)
      requires repo.Valid()
      ensures Valid() && this.repo == repo && this.agent == agent && this.world == world
      ensures fresh(limiter) && fresh(bulkhead) && fresh(events)
      ensures nextRun == 1 && events.entries == [] && bulkhead.held == 0 && limiter.log == []
      ensures limiter.capacity == (if capacity < 0.0 then 0.0 else capacity)
      ensures limiter.refillPerSec == (if rate < 0.0 then 0.0 else rate) && limiter.start == now
      ensures bulkhead.capacity == if slots == 0 then 1 else slots
    {
      this.repo, this.agent, this.world := repo, agent, world;
      var log := new EventLog();
      events := log;
      saga := new SagaExecutor(log);
      limiter := new RateLimiter(capacity, rate, now);
      bulkhead := new Bulkhead(slots);
      nextRun := 1;
    }

    method RegisterNode(n: Node)
      requires Valid()
      modifies repo`nodes
      ensures Valid()
      ensures repo.nodes == old(repo.nodes)[n.id := n]
    {
      repo.SaveNode(n);
    }

    /** Moves `node` along `path`, publishing each move; stops at the first illegal
        edge. The walk reaches the end exactly when the whole path is legal. */
    method WalkPath(node: ValidatorNode, path: seq<NodeState>, clock: nat -> Instant) returns (refused: Option<CoreError>)
      modifies node`state, node`updatedAt, events
      ensures refused.None? <==> LegalPath(old(node.state), path)
      ensures refused.None? ==>
        && node.Value() == Walked(old(node.Value()), path, 1, clock)
        && events.entries == old(events.entries) + MoveEvents(node.id, old(node.state), path)
      ensures refused.Some? ==>
        exists k :: StoppedAt(node.id, old(node.state), path, k, old(events.entries), events.entries, refused.value)
    {
      ghost var source, start, log := node.state, node.Value(), events.entries;
      assert path[..0] == [];
      for k := 0 to |path|
        invariant node.Value() == Walked(start, path[..k], 1, clock)
        invariant LegalPath(source, path[..k])
        invariant events.entries == log + MoveEvents(node.id, source, path[..k])
      {
        var was := node.state;
        assert was == EndOf(source, path[..k]);
        var ok := node.TransitionTo(path[k], clock(1 + k));
        WalkOne(source, path, k);
        if !ok {
          assert StoppedAt(node.id, source, path, k, log, events.entries, IllegalTransition(was, path[k]));
          return Some(IllegalTransition(was, path[k]));
        }
        events.Publish(NodeStateChanged(node.id, was, path[k]));
        assert path[..k + 1][..k] == path[..k];
      }
      assert path[..|path|] == path;
      refused := None;
    }

    /** The engine after a deployment of a known target. */
    ghost predicate DeploymentDone(
      nodes0: map<NodeId, Node>, runs0: seq<Run>, runId: RunId, world0: W, events0: seq<OpsEvent>,
      id: NodeId, kind: DeploymentKind, clock: nat -> Instant, r: Result<Run>)
      requires id in nodes0
      reads this, repo, events
    {
      && nextRun == runId + 1
      && world == SagaOf(agent, nodes0, nodes0[id], kind, world0).world
      && Ends(agent, clock, nodes0, runs0, runId, world0, events0, id, kind, r, repo.nodes, repo.runs, events.entries)
    }

    /** Saves the walked node and the finished run. */
    method Close(
      node: ValidatorNode, kind: DeploymentKind, status: RunStatus, run: DeploymentRun, upgradedAt: Instant, finishedAt: Instant)
      returns (r: Result<Run>)
      requires Valid()
      modifies node`version, node`updatedAt, run, repo, events
      ensures Valid()
      ensures var closed := old(run.Value()).(status := status, finishedAt := Some(finishedAt));
        r == Ok(closed) && repo.runs == Upsert(old(repo.runs), closed)
      ensures repo.nodes == old(repo.nodes)[node.id := Versioned(old(node.Value()), kind, status, upgradedAt)]
      ensures events.entries == old(events.entries) + [RunFinished(run.id, status)]
    {
      if status == Succeeded && kind.Upgrade? {
        node.SetVersion(kind.targetVersion, upgradedAt);
      }
      repo.SaveNode(node.Value());
      run.Finish(status, finishedAt);
      repo.SaveRun(run.Value());
      events.Publish(RunFinished(run.id, status));
      r := Ok(run.Value());
    }

    /** From the end of the saga to the terminal record. */
    method Conclude(n: Node, kind: DeploymentKind, status: RunStatus, run: DeploymentRun, clock: nat -> Instant)
      returns (r: Result<Run>)
      requires Valid()
      modifies run, repo, events
      ensures Valid()
      ensures Accepts(kind, n.state, status) ==>
        var closed := old(run.Value()).(status := status, finishedAt := Some(clock(2 + |PathFor(kind, status)|)));
        && r == Ok(closed)
        && repo.runs == Upsert(old(repo.runs), closed)
        && repo.nodes == old(repo.nodes)[n.id := SavedNode(n, kind, status, clock)]
        && events.entries == old(events.entries)
          + MoveEvents(n.id, n.state, PathFor(kind, status)) + [RunFinished(run.id, status)]
      ensures !Accepts(kind, n.state, status) ==>
        && r == Failure(Refusal(kind, n.state, status))
        && repo.nodes == old(repo.nodes) && repo.runs == old(repo.runs)
        && events.entries == old(events.entries)
    {
      ghost var log := events.entries;
      var node := new ValidatorNode.FromValue(n);
      var path := PathFor(kind, status);
      AcceptsExactly(kind, n.state, status);
      hide LegalPath, EndOf, MoveEvents, Accepts, Upsert, PathFor;
      var refused := WalkPath(node, path, clock);
      if refused.Some? {
        ghost var k :| StoppedAt(n.id, n.state, path, k, log, events.entries, refused.value);
        StopsAtOnce(n.id, n.state, kind, status, k, log, events.entries, refused.value);
        return Failure(refused.value);
      }
      r := Close(node, kind, status, run, clock(1 + |path|), clock(2 + |path|));
    }

    /** Allocates an id and stores the opened run under it. */
    method OpenRun(n: Node, kind: DeploymentKind, startedAt: Instant) returns (run: DeploymentRun)
      requires Valid()
      modifies this`nextRun, repo`runs, events
      ensures Valid() && fresh(run)
      ensures nextRun == old(nextRun) + 1
      ensures run.Value() == Run(old(nextRun), n.id, kind, Running, [], startedAt, None)
      ensures repo.runs == Upsert(old(repo.runs), run.Value())
      ensures events.entries == old(events.entries) + [RunStarted(run.id, n.id, kind)]
    {
      run := new DeploymentRun(nextRun, n.id, kind, startedAt);
      nextRun := nextRun + 1;
      repo.SaveRun(run.Value());
      events.Publish(RunStarted(run.id, n.id, kind));
    }

    /** Runs the plan against the agent. */
    method RunPlan(n: Node, ctx: Context, kind: DeploymentKind, run: DeploymentRun) returns (status: RunStatus)
      requires Valid() && run.completedSteps == []
      modifies this`world, run`completedSteps, events
      ensures Valid()
      ensures var s := RunSaga(StepBehaviour(ctx, agent), BuildPlan(kind), old(world));
        && status == s.status && world == s.world
        && s.done <= |PlanActions(kind)| && run.completedSteps == PlanActions(kind)[..s.done]
        && events.entries == old(events.entries) + SagaEvents(StepBehaviour(ctx, agent), run.id, BuildPlan(kind), s)
    {
      var b := StepBehaviour(ctx, agent);
      var w;
      ghost var r;
      status, w, r := saga.Run(b, BuildPlan(kind), world, run);
      ActionsOfPrefix(ctx, agent, kind, r.done);
      world := w;
    }

    /** The part of a deployment that runs under a bulkhead slot. */
    method RunAdmitted(id: NodeId, kind: DeploymentKind, clock: nat -> Instant) returns (r: Result<Run>)
      requires Valid()
      modifies this, repo, events
      ensures Valid()
      ensures id !in old(repo.nodes) ==> r == Failure(NotFound(id))
      ensures id in old(repo.nodes) && kind.Failover? && kind.spare !in old(repo.nodes) ==> r == Failure(NotFound(kind.spare))
      ensures !Known(old(repo.nodes), id, kind) ==>
        && r.Failure? && r.error.NotFound?
        && repo.nodes == old(repo.nodes) && repo.runs == old(repo.runs) && nextRun == old(nextRun)
        && world == old(world) && events.entries == old(events.entries)
      ensures Known(old(repo.nodes), id, kind) ==>
        DeploymentDone(old(repo.nodes), old(repo.runs), old(nextRun), old(world), old(events.entries), id, kind, clock, r)
    {
      var target := repo.GetNode(id);
      if target.None? {
        return Failure(NotFound(id));
      }
      var spareHost: Option<HostAddr> := None;
      if kind.Failover? {
        var spare := repo.GetNode(kind.spare);
        if spare.None? {
          return Failure(NotFound(kind.spare));
        }
        spareHost := Some(spare.value.host);
      }
      var n := target.value;
      var ctx := Context(n.host, if kind.Upgrade? then kind.targetVersion else n.version, spareHost);
      r := Deploy(id, n, ctx, kind, clock);
    }

    method Deploy(id: NodeId, n: Node, ctx: Context, kind: DeploymentKind, clock: nat -> Instant) returns (r: Result<Run>)
      requires Valid()
      requires id in repo.nodes && repo.nodes[id] == n && ctx == ContextOf(repo.nodes, n, kind)
      modifies this, repo, events
      ensures Valid()
      ensures DeploymentDone(old(repo.nodes), old(repo.runs), old(nextRun), old(world), old(events.entries), id, kind, clock, r)
    {
      ghost var nodes, runs, runId, start, log := repo.nodes, repo.runs, nextRun, world, events.entries;
      hide *;
      assert n.id == id && ctx == ContextOf(nodes, n, kind);
      var run := OpenRun(n, kind, clock(0));
      ghost var begun := run.Value();
      var status := RunPlan(n, ctx, kind, run);
      ghost var left, progress := run.Value(), events.entries;
      r := Conclude(n, kind, status, run, clock);
      EndsByParts(agent, clock, nodes, runs, runId, start, log, id, kind, begun, left, progress,
        r, repo.nodes, repo.runs, events.entries);
    }

    /** One deployment from admission to its terminal record. It is throttled exactly
        when some window of the rate limiter is full or no bulkhead slot is free, and
        then nothing but the limiter changes; on every return the slot is free again. */
    method StartDeployment(id: NodeId, kind: DeploymentKind, now: nat, clock: nat -> Instant) returns (r: Result<Run>)
      requires Valid()
      modifies this, repo, events, limiter, bulkhead
      ensures Valid()
      ensures bulkhead.held == old(bulkhead.held)
      ensures limiter.start <= limiter.lastRefillMillis == Max(old(limiter.lastRefillMillis), now)
      ensures var admitted := WithinEveryWindow(limiter.capacity, limiter.refillPerSec, limiter.start,
          old(limiter.log), limiter.lastRefillMillis, 1.0);
        && limiter.log == old(limiter.log) + [Entry(limiter.lastRefillMillis, if admitted then 1.0 else 0.0)]
        && (r == Failure(Throttled) <==> !admitted || old(bulkhead.held) == bulkhead.capacity)
        && (r == Failure(Throttled) || !Known(old(repo.nodes), id, kind) ==>
          && repo.nodes == old(repo.nodes) && repo.runs == old(repo.runs) && nextRun == old(nextRun)
          && world == old(world) && events.entries == old(events.entries))
        && (r != Failure(Throttled) && id !in old(repo.nodes) ==> r == Failure(NotFound(id)))
        && (r != Failure(Throttled) && id in old(repo.nodes) && kind.Failover? && kind.spare !in old(repo.nodes) ==>
          r == Failure(NotFound(kind.spare)))
        && (r != Failure(Throttled) && Known(old(repo.nodes), id, kind) ==>
          DeploymentDone(old(repo.nodes), old(repo.runs), old(nextRun), old(world), old(events.entries), id, kind, clock, r))
    {
      var ok := limiter.TryAcquire(now);
      if !ok {
        return Failure(Throttled);
      }
      var slot := bulkhead.TryAcquire();
      if !slot {
        return Failure(Throttled);
      }
      r := RunAdmitted(id, kind, clock);
      bulkhead.Release();
    }
  }
}
