/** The two records the engine mutates while a deployment runs. Repositories and
    callers only ever see clones of them, which `Value` stands for. */
module Records {
  import opened Domain

  class ValidatorNode {
    const id: NodeId
    const placement: Placement
    const host: HostAddr
    const createdAt: Instant
    var version: Version
    var state: NodeState
    var updatedAt: Instant

    function Value(): Node
      reads this
    {
      Node(id, placement, host, version, state, createdAt, updatedAt)
    }

    /** A brand-new node always starts in `Provisioning`. */
    constructor (id: NodeId, placement: Placement, host: HostAddr, version: Version, now: Instant)
      ensures Value() == Node(id, placement, host, version, Provisioning, now, now)
    {
      this.id, this.placement, this.host, this.version := id, placement, host, version;
      state, createdAt, updatedAt := Provisioning, now, now;
    }

    /** The engine's own copy of a node it read. */
    constructor FromValue(n: Node)
      ensures Value() == n
    {
      id, placement, host, version := n.id, n.placement, n.host, n.version;
      state, createdAt, updatedAt := n.state, n.createdAt, n.updatedAt;
    }

    /** Moves along a legal edge only; a refused move changes nothing. */
    method TransitionTo(next: NodeState, now: Instant) returns (ok: bool)
      modifies this`state, this`updatedAt
      ensures ok <==> old(state).CanTransitionTo(next)
      ensures Value() == if ok then old(Value()).(state := next, updatedAt := now) else old(Value())
    {
      if !state.CanTransitionTo(next) {
        return false;
      }
      state := next;
      updatedAt := now;
      ok := true;
    }

    method SetVersion(version: Version, now: Instant)
      modifies this`version, this`updatedAt
      ensures Value() == old(Value()).(version := version, updatedAt := now)
    {
      this.version := version;
      updatedAt := now;
    }
  }

  class DeploymentRun {
    const id: RunId
    const target: NodeId
    const kind: DeploymentKind
    const startedAt: Instant
    var status: RunStatus
    var completedSteps: seq<OpsActionKind>
    var finishedAt: Option<Instant>

    function Value(): Run
      reads this
    {
      Run(id, target, kind, status, completedSteps, startedAt, finishedAt)
    }

    constructor (id: RunId, target: NodeId, kind: DeploymentKind, startedAt: Instant)
      ensures Value() == Run(id, target, kind, Running, [], startedAt, None)
    {
      this.id, this.target, this.kind, this.startedAt := id, target, kind, startedAt;
      status, completedSteps, finishedAt := Running, [], None;
    }

    method RecordStep(action: OpsActionKind)
      modifies this`completedSteps
      ensures Value() == old(Value()).(completedSteps := old(completedSteps) + [action])
    {
      completedSteps := completedSteps + [action];
    }

    method Finish(status: RunStatus, now: Instant)
      modifies this`status, this`finishedAt
      ensures Value() == old(Value()).(status := status, finishedAt := Some(now))
    {
      this.status := status;
      finishedAt := Some(now);
    }
  }

  /** An event sink that keeps what was published, in order. */
  class EventLog {
    var entries: seq<OpsEvent>

    constructor ()
      ensures entries == []
    {
      entries := [];
    }

    method Publish(e: OpsEvent)
      modifies this
      ensures entries == old(entries) + [e]
    {
      entries := entries + [e];
    }
  }
}
