/** The lifecycle paths a finished deployment walks, and when they are legal. */
module Lifecycle {
  import opened Domain

  /** The transitions to apply after a successful saga. */
  function SuccessPath(kind: DeploymentKind): seq<NodeState> {
    match kind
    case Provision => [Bootstrapping, CatchingUp, Active]
    case Upgrade(_) => [Draining, CatchingUp, Active]
    case Failover(_) => [Draining, Decommissioned]
    case Decommission => [Draining, Decommissioned]
  }

  /** The transitions to apply after a saga that did not succeed. */
  function FailurePath(kind: DeploymentKind): seq<NodeState> {
    if kind.Provision? then [NodeState.Failed] else []
  }

  function PathFor(kind: DeploymentKind, status: RunStatus): seq<NodeState> {
    if status == Succeeded then SuccessPath(kind) else FailurePath(kind)
  }

  /** The states `path` visits one after the other are joined by legal edges. */
  predicate LegalPath(source: NodeState, path: seq<NodeState>)
    decreases |path|
  {
    path == [] || (source.CanTransitionTo(path[0]) && LegalPath(path[0], path[1..]))
  }

  function EndOf(source: NodeState, path: seq<NodeState>): NodeState {
    if path == [] then source else path[|path| - 1]
  }

  /** Some chain of legal edges leads from `a` to `b`. */
  ghost predicate Connected(a: NodeState, b: NodeState) {
    exists path :: LegalPath(a, path) && EndOf(a, path) == b
  }

  lemma {:induction false} LegalPathAppend(a: NodeState, p: seq<NodeState>, q: seq<NodeState>)
    ensures LegalPath(a, p + q) <==> LegalPath(a, p) && LegalPath(EndOf(a, p), q)
    ensures EndOf(a, p + q) == EndOf(EndOf(a, p), q)
    decreases |p|
  {
    if p == [] {
      assert p + q == q;
    } else {
      assert (p + q)[1..] == p[1..] + q;
      LegalPathAppend(p[0], p[1..], q);
    }
  }

  lemma ConnectedRefl(a: NodeState)
    ensures Connected(a, a)
  {
    assert LegalPath(a, []) && EndOf(a, []) == a;
  }

  lemma ConnectedTrans(a: NodeState, b: NodeState, c: NodeState)
    requires Connected(a, b) && Connected(b, c)
    ensures Connected(a, c)
  {
    var p :| LegalPath(a, p) && EndOf(a, p) == b;
    var q :| LegalPath(b, q) && EndOf(b, q) == c;
    LegalPathAppend(a, p, q);
  }

  /** Nothing but itself can be reached from a terminal state. */
  lemma TerminalIsFinal(a: NodeState, b: NodeState)
    requires Connected(a, b) && a.IsTerminal()
    ensures a == b
  {
    var p :| LegalPath(a, p) && EndOf(a, p) == b;
    assert p == [];
  }

  /** The legal edges, as the documented graph draws them. A state is terminal exactly when
      no edge leaves it, and those are the decommissioned and the failed. */
  lemma LifecycleGraph(a: NodeState, b: NodeState)
    ensures a.CanTransitionTo(b) <==> (a, b) in {
      (Provisioning, Bootstrapping), (Bootstrapping, CatchingUp), (CatchingUp, Active), (Active, Delinquent),
      (Provisioning, NodeState.Failed), (Bootstrapping, NodeState.Failed), (CatchingUp, NodeState.Failed),
      (Active, Draining), (Delinquent, CatchingUp), (Delinquent, Draining),
      (Draining, CatchingUp), (Draining, Decommissioned)}
    ensures a.IsTerminal() <==> forall t: NodeState :: !a.CanTransitionTo(t)
    ensures a.IsTerminal() <==> a == Decommissioned || a == NodeState.Failed
  {
    var next := match a
      case Provisioning => Bootstrapping
      case Bootstrapping => CatchingUp
      case CatchingUp => Active
      case Active => Draining
      case Delinquent => Draining
      case _ => CatchingUp;
    assert !a.IsTerminal() ==> a.CanTransitionTo(next);
  }

  /** The states a node may rest in between deployments. */
  predicate Resting(s: NodeState) {
    s == Provisioning || s == Active || s == Decommissioned || s == NodeState.Failed
  }

  /** When the engine accepts a finished saga for a node that was in state `s`. */
  predicate Accepts(kind: DeploymentKind, s: NodeState, status: RunStatus) {
    if kind.Provision? then
      s == Provisioning || (status != Succeeded && (s == Bootstrapping || s == CatchingUp))
    else status != Succeeded || s == Active || s == Delinquent
  }

  /** Acceptance is exactly legality of the whole path, and a path whose first edge
      is legal is legal to its end: the walk fails at once or not at all. */
  lemma AcceptsExactly(kind: DeploymentKind, s: NodeState, status: RunStatus)
    ensures Accepts(kind, s, status) <==> LegalPath(s, PathFor(kind, status))
    ensures var path := PathFor(kind, status);
      path != [] ==> (LegalPath(s, path) <==> s.CanTransitionTo(path[0]))
    ensures Resting(s) ==> (Accepts(kind, s, status) <==>
      if kind.Provision? then s == Provisioning else status != Succeeded || s == Active)
    ensures Accepts(kind, s, status) && Resting(s) ==> Resting(EndOf(s, PathFor(kind, status)))
  {
    var path := PathFor(kind, status);
    if path != [] {
      LegalTail(kind, status);
    }
  }

  lemma LegalTail(kind: DeploymentKind, status: RunStatus)
    requires PathFor(kind, status) != []
    ensures LegalPath(PathFor(kind, status)[0], PathFor(kind, status)[1..])
  {
    var tail := PathFor(kind, status)[1..];
    if tail != [] {
      assert tail[1..] == [] || tail[1..] == [Active];
      assert LegalPath(tail[0], tail[1..]) by {
        if tail[1..] == [Active] {
          assert tail[1..][1..] == [];
        }
      }
    }
  }

  // Chains of published moves.

  /** Consecutive legal edges of one node, the first leaving `source`. */
  ghost predicate LinkedMoves(id: NodeId, source: NodeState, moves: seq<OpsEvent>) {
    && (forall k :: 0 <= k < |moves| ==> moves[k].NodeStateChanged? && moves[k].node == id)
    && (forall k :: 0 <= k < |moves| ==> moves[k].source.CanTransitionTo(moves[k].target))
    && (moves != [] ==> moves[0].source == source)
    && (forall j, k :: 0 <= j && k == j + 1 < |moves| ==> moves[k].source == moves[j].target)
  }

  function Targets(moves: seq<OpsEvent>): (r: seq<NodeState>)
    requires forall k :: 0 <= k < |moves| ==> moves[k].NodeStateChanged?
    ensures |r| == |moves|
    ensures forall k :: 0 <= k < |r| ==> r[k] == moves[k].target
  {
    seq(|moves|, k requires 0 <= k < |moves| => moves[k].target)
  }

  lemma {:induction false} LinkedMovesAreLegal(id: NodeId, source: NodeState, moves: seq<OpsEvent>)
    requires LinkedMoves(id, source, moves)
    ensures LegalPath(source, Targets(moves))
    decreases |moves|
  {
    if moves != [] {
      var rest := moves[1..];
      assert forall k :: 0 <= k < |rest| ==> rest[k] == moves[k + 1];
      LinkedMovesAreLegal(id, moves[0].target, rest);
      assert Targets(moves)[1..] == Targets(rest);
      assert Targets(moves)[0] == moves[0].target;
    }
  }
}
