/** The stored lifecycle of a node over whole histories, when runs on one node do not
    overlap and nodes are not registered twice; and what an overlap can do. */
module History {
  import opened Domain
  import opened Repo
  import opened Saga
  import opened Plan
  import opened Lifecycle
  import opened Machine

  /** No two unfinished calls target the same node. */
  ghost predicate OneRunPerNode(s: State) {
    forall i, j :: 0 <= i < j < |s.calls| && !s.calls[i].pc.Finished? && !s.calls[j].pc.Finished? ==>
      s.calls[i].target != s.calls[j].target
  }

  /** The next step registers no node that is already stored. */
  ghost predicate NoReRegistration(s: State, l: Label) {
    l.Register? ==> l.id !in s.g.nodes
  }

  ghost predicate Disciplined(cfg: Config, labels: seq<Label>) {
    forall k :: 0 <= k < |labels| ==>
      OneRunPerNode(Exec(cfg, labels[..k])) && NoReRegistration(Exec(cfg, labels[..k]), labels[k])
  }

  /** Between reading its node and saving it. */
  predicate InFlight(pc: Pc) {
    var core := Core(pc);
    core.NeedSpare? || core.NeedId? || core.NeedFirstSave? || core.InSaga? || core.Walking? || core.NeedNodeSave?
  }

  /** The version of a node according to its writes: the target of the last upgrade
      saved as succeeded, else the version it was registered with. */
  function VersionFrom(saves: seq<Save>, id: NodeId): Option<Version> {
    if saves == [] then None
    else
      var last := saves[|saves| - 1];
      var before := VersionFrom(saves[..|saves| - 1], id);
      if last.node.id != id then before
      else
        match last
        case Registered(n) => Some(n.version)
        case Deployed(kind, status, _) => if kind.Upgrade? && status == Succeeded then Some(kind.targetVersion) else before
  }

  /** What an in-flight call read is still what is stored. */
  ghost predicate ReadIsCurrent(g: Shared, c: Call) {
    InFlight(c.pc) ==> c.read.Some? && c.target in g.nodes && g.nodes[c.target] == c.read.value
  }

  ghost predicate HistoryInv(s: State) {
    && (forall i :: 0 <= i < |s.calls| ==> ReadIsCurrent(s.g, s.calls[i]))
    && (forall id :: id in s.g.nodes ==> VersionFrom(s.g.saves, id) == Some(s.g.nodes[id].version))
  }

  lemma VersionSnoc(saves: seq<Save>, save: Save, id: NodeId)
    ensures VersionFrom(saves + [save], id) ==
      if save.node.id != id then VersionFrom(saves, id)
      else if save.Registered? then Some(save.node.version)
      else if save.kind.Upgrade? && save.status == Succeeded then Some(save.kind.targetVersion)
      else VersionFrom(saves, id)
  {
    assert (saves + [save])[..|saves|] == saves;
  }

  /** One step of a call, seen from the node store: only the save of its own target
      changes it, along legal edges and to the version the save stands for. */
  ghost predicate NodesAdvance(g: Shared, c: Call, g': Shared, c': Call) {
    && ReadIsCurrent(g', c')
    && c'.target == c.target
    && (forall id :: id in g.nodes ==> id in g'.nodes)
    && (forall id :: id in g'.nodes && id != c.target ==> id in g.nodes && g'.nodes[id] == g.nodes[id])
    && (forall id :: id in g.nodes ==> Connected(g.nodes[id].state, g'.nodes[id].state))
    && (c.pc.Finished? ==> g'.nodes == g.nodes)
    && (forall id :: id in g'.nodes ==> VersionFrom(g'.saves, id) == Some(g'.nodes[id].version))
  }

  lemma Unwritten(g: Shared, c: Call, g': Shared, c': Call)
    requires g'.nodes == g.nodes && g'.saves == g.saves
    requires ReadIsCurrent(g', c') && c'.target == c.target
    requires forall id :: id in g.nodes ==> VersionFrom(g.saves, id) == Some(g.nodes[id].version)
    ensures NodesAdvance(g, c, g', c')
  {
    forall id | id in g.nodes
      ensures Connected(g.nodes[id].state, g'.nodes[id].state)
    {
      ConnectedRefl(g.nodes[id].state);
    }
  }

  /** The save of an accepted node, by what it is rather than how it was reached. */
  lemma SaveWrites(g: Shared, c: Call, x: Choice, n: Node, run: Run, status: RunStatus)
    requires c.pc == NeedNodeSave(n, run, status) && c.target in g.nodes
    requires n.id == c.target && Connected(g.nodes[c.target].state, n.state)
    requires n.version == NewVersion(c.kind, status, g.nodes[c.target].version)
    requires forall id :: id in g.nodes ==> VersionFrom(g.saves, id) == Some(g.nodes[id].version)
    ensures NodesAdvance(g, c, NodeSave(g, c, x, n, run, status).0, NodeSave(g, c, x, n, run, status).1)
  {
    hide Connected, VersionFrom;
    var (g', c') := NodeSave(g, c, x, n, run, status);
    forall id | id in g.nodes
      ensures Connected(g.nodes[id].state, g'.nodes[id].state)
    {
      ConnectedRefl(g.nodes[id].state);
    }
    forall id | id in g'.nodes
      ensures VersionFrom(g'.saves, id) == Some(g'.nodes[id].version)
    {
      VersionSnoc(g.saves, Deployed(c.kind, status, n), id);
    }
  }

  lemma SavedNodeFacts(c: Call, n: Node, run: Run, status: RunStatus)
    requires CallOk(c) && c.pc == NeedNodeSave(n, run, status)
    ensures n.id == c.target && n.version == NewVersion(c.kind, status, c.read.value.version)
    ensures Connected(c.read.value.state, n.state)
  {
    SavedNodeRests(c, n, run, status);
    hide MovesOf, Targets, LinkedMoves, LegalPath, PathFor, EndOf, IsProgress, Reached, NewVersion;
  }

  lemma SaveAdvances(g: Shared, c: Call, x: Choice, n: Node, run: Run, status: RunStatus)
    requires CallOk(c) && c.pc == NeedNodeSave(n, run, status) && ReadIsCurrent(g, c)
    requires forall id :: id in g.nodes ==> VersionFrom(g.saves, id) == Some(g.nodes[id].version)
    ensures NodesAdvance(g, c, NodeSave(g, c, x, n, run, status).0, NodeSave(g, c, x, n, run, status).1)
  {
    hide CallOk, NodesAdvance, Connected, VersionFrom, NewVersion, NodeSave;
    SavedNodeFacts(c, n, run, status);
    SaveWrites(g, c, x, n, run, status);
  }

  lemma CallAdvances(g: Shared, c: Call, l: Label)
    requires CallOk(c) && ReadIsCurrent(g, c)
    requires forall id :: id in g.nodes ==> VersionFrom(g.saves, id) == Some(g.nodes[id].version)
    ensures NodesAdvance(g, c, CallStep(g, c, l).0, CallStep(g, c, l).1)
  {
    if l.Act? && c.pc.NeedNodeSave? {
      SaveAdvances(g, c, l.choice, c.pc.node, c.pc.run, c.pc.status);
    } else {
      assert c.pc.Publishing? ==> !c.pc.next.Publishing?;
      hide CallOk, CoreOk, NodesAdvance, VersionFrom;
      var (g', c') := CallStep(g, c, l);
      WritesNoNode(g, c, l);
      Unwritten(g, c, g', c');
    }
  }

  lemma WritesNoNode(g: Shared, c: Call, l: Label)
    requires ReadIsCurrent(g, c)
    requires c.pc.Publishing? ==> !c.pc.next.Publishing?
    requires !(l.Act? && c.pc.NeedNodeSave?)
    ensures var (g', c') := CallStep(g, c, l);
      g'.nodes == g.nodes && g'.saves == g.saves && c'.target == c.target && ReadIsCurrent(g', c')
  {
    hide Advanced;
    if l.Act? {
      ActWritesNoNode(g, c, l.choice);
    }
  }

  lemma ActWritesNoNode(g: Shared, c: Call, x: Choice)
    requires ReadIsCurrent(g, c)
    requires c.pc.Publishing? ==> !c.pc.next.Publishing?
    requires !c.pc.NeedNodeSave?
    ensures var (g', c') := Advanced(g, c, x);
      g'.nodes == g.nodes && g'.saves == g.saves && c'.target == c.target && ReadIsCurrent(g', c')
  {
    hide PlanActions, PathFor, Upsert, Accepts;
    if c.pc.InSaga? || c.pc.Walking? {
      hide ReadNode, ReadSpare, TakeId, TakeSlot, FirstSave, LastSave, Publish;
    } else {
      hide SagaStep, WalkStep;
    }
  }

  lemma CallHistory(s: State, l: Label)
    requires HistoryInv(s) && OneRunPerNode(s)
    requires (l.Act? || l.Drop?) && l.i < |s.calls| && CallOk(s.calls[l.i])
    ensures HistoryInv(Step(s, l))
    ensures forall id :: id in s.g.nodes ==>
      id in Step(s, l).g.nodes && Connected(s.g.nodes[id].state, Step(s, l).g.nodes[id].state)
  {
    hide CallOk, OneRunPerNode, Advanced, VersionFrom;
    var (g', c') := CallStep(s.g, s.calls[l.i], l);
    CallAdvances(s.g, s.calls[l.i], l);
    OthersStayCurrent(s, l.i, g', c');
  }

  lemma StepHistory(cfg: Config, s: State, l: Label)
    requires Inv(cfg, s) && HistoryInv(s)
    requires OneRunPerNode(s) && NoReRegistration(s, l)
    ensures HistoryInv(Step(s, l))
    ensures forall id :: id in s.g.nodes ==>
      id in Step(s, l).g.nodes && Connected(s.g.nodes[id].state, Step(s, l).g.nodes[id].state)
  {
    hide LimiterOk, SlotsOk, IdsOk, RunsOwned, CallOk, OneRunPerNode, VersionFrom;
    forall id | id in s.g.nodes
      ensures Connected(s.g.nodes[id].state, s.g.nodes[id].state)
    {
      ConnectedRefl(s.g.nodes[id].state);
    }
    match l
    case Tick(_) =>
    case Start(_, _) =>
    case Register(_, _, _, _, _, _) => RegisterHistory(s, l);
    case Act(i, _) => if i < |s.calls| { CallHistory(s, l); }
    case Drop(i) => if i < |s.calls| { CallHistory(s, l); }
  }

  lemma OthersStayCurrent(s: State, i: nat, g': Shared, c': Call)
    requires HistoryInv(s) && OneRunPerNode(s) && i < |s.calls|
    requires NodesAdvance(s.g, s.calls[i], g', c')
    ensures HistoryInv(s.(g := g', calls := s.calls[i := c']))
  {
    forall j | 0 <= j < |s.calls| && j != i
      ensures ReadIsCurrent(g', s.calls[j])
    {
      if InFlight(s.calls[j].pc) && !s.calls[i].pc.Finished? {
        assert s.calls[j].target != s.calls[i].target;
      }
    }
  }

  lemma RegisterHistory(s: State, l: Label)
    requires HistoryInv(s) && l.Register? && l.id !in s.g.nodes
    ensures HistoryInv(Step(s, l))
    ensures forall id :: id in s.g.nodes ==> id in Step(s, l).g.nodes && Step(s, l).g.nodes[id] == s.g.nodes[id]
  {
    var save := Registered(Node(l.id, l.placement, l.host, l.version, Provisioning, l.at, l.at));
    forall id | id in Step(s, l).g.nodes
      ensures VersionFrom(Step(s, l).g.saves, id) == Some(Step(s, l).g.nodes[id].version)
    {
      VersionSnoc(s.g.saves, save, id);
    }
    assert forall i :: 0 <= i < |s.calls| ==> ReadIsCurrent(s.g, s.calls[i]);
  }

  lemma DisciplinedPrefix(cfg: Config, labels: seq<Label>, k: nat)
    requires Disciplined(cfg, labels) && k <= |labels|
    ensures Disciplined(cfg, labels[..k])
  {
    assert forall j :: 0 <= j < k ==> labels[..k][..j] == labels[..j];
  }

  lemma {:induction false} AlwaysHistory(cfg: Config, labels: seq<Label>)
    requires Disciplined(cfg, labels)
    ensures HistoryInv(Exec(cfg, labels))
  {
    if labels != [] {
      var k := |labels| - 1;
      DisciplinedPrefix(cfg, labels, k);
      AlwaysHistory(cfg, labels[..k]);
      AlwaysInv(cfg, labels[..k]);
      StepHistory(cfg, Exec(cfg, labels[..k]), labels[k]);
    }
  }

  /** Between any two moments of a disciplined history a stored node stays stored, and
      its later state is reached from the earlier one along legal lifecycle edges; so a
      node that is decommissioned or failed stays exactly that. */
  lemma {:induction false} StoredLifecycleIsLegal(cfg: Config, labels: seq<Label>, k: nat, id: NodeId)
    requires Disciplined(cfg, labels) && k <= |labels|
    requires id in Exec(cfg, labels[..k]).g.nodes
    ensures id in Exec(cfg, labels).g.nodes
    ensures var before, after := Exec(cfg, labels[..k]).g.nodes[id].state, Exec(cfg, labels).g.nodes[id].state;
      Connected(before, after) && (before.IsTerminal() ==> after == before)
    decreases |labels|
  {
    if k == |labels| {
      assert labels[..k] == labels;
      ConnectedRefl(Exec(cfg, labels).g.nodes[id].state);
    } else {
      var last := |labels| - 1;
      var shorter := labels[..last];
      assert shorter[..k] == labels[..k];
      DisciplinedPrefix(cfg, labels, last);
      StoredLifecycleIsLegal(cfg, shorter, k, id);
      LastStepIsLegal(cfg, labels, id);
      var a, b, c := Exec(cfg, labels[..k]).g.nodes[id].state, Exec(cfg, shorter).g.nodes[id].state, Exec(cfg, labels).g.nodes[id].state;
      hide Exec, Disciplined, LegalPath;
      ConnectedTrans(a, b, c);
      if a.IsTerminal() {
        TerminalIsFinal(a, c);
      }
    }
  }

  lemma LastStepIsLegal(cfg: Config, labels: seq<Label>, id: NodeId)
    requires Disciplined(cfg, labels) && labels != []
    requires id in Exec(cfg, labels[..|labels| - 1]).g.nodes
    ensures id in Exec(cfg, labels).g.nodes
    ensures Connected(Exec(cfg, labels[..|labels| - 1]).g.nodes[id].state, Exec(cfg, labels).g.nodes[id].state)
  {
    var last := |labels| - 1;
    DisciplinedPrefix(cfg, labels, last);
    AlwaysHistory(cfg, labels[..last]);
    AlwaysInv(cfg, labels[..last]);
    assert OneRunPerNode(Exec(cfg, labels[..last])) && NoReRegistration(Exec(cfg, labels[..last]), labels[last]);
    assert Exec(cfg, labels) == Step(Exec(cfg, labels[..last]), labels[last]);
    hide Inv, HistoryInv, Step, OneRunPerNode, NoReRegistration, Connected;
    StepHistory(cfg, Exec(cfg, labels[..last]), labels[last]);
  }

  // Without any discipline: exactly which steps leave the lifecycle.

  /** Between resting states: `b` is reached from `a` along legal edges exactly when they
      are equal, `a` is provisioning, or `a` is active and `b` is not provisioning. */
  lemma RestingConnected(a: NodeState, b: NodeState)
    requires Resting(a) && Resting(b)
    ensures Connected(a, b) <==> a == b || a == Provisioning || (a == Active && b != Provisioning)
  {
    if a == b {
      ConnectedRefl(a);
    } else if a.IsTerminal() {
      if Connected(a, b) {
        TerminalIsFinal(a, b);
      }
    } else if a == Provisioning {
      ReachableFrom(Provisioning, b);
    } else if b == Provisioning {
      if Connected(a, b) {
        var path :| LegalPath(a, path) && EndOf(a, path) == b;
        NeverProvisioning(a, path);
      }
    } else {
      ReachableFrom(Active, b);
    }
  }

  lemma ReachableFrom(a: NodeState, b: NodeState)
    requires a == Provisioning || a == Active
    requires b == Decommissioned || b == NodeState.Failed || (a == Provisioning && b == Active)
    ensures Connected(a, b)
  {
    ConnectedRefl(Active);
    if b == Decommissioned {
      EdgeBefore(Draining, b, b);
      EdgeBefore(Active, Draining, b);
    } else if b == NodeState.Failed {
      EdgeBefore(CatchingUp, b, b);
      EdgeBefore(Draining, CatchingUp, b);
      EdgeBefore(Active, Draining, b);
    }
    if a == Provisioning {
      EdgeBefore(CatchingUp, Active, b);
      EdgeBefore(Bootstrapping, CatchingUp, b);
      EdgeBefore(Provisioning, Bootstrapping, b);
    }
  }

  lemma EdgeBefore(a: NodeState, next: NodeState, b: NodeState)
    requires a.CanTransitionTo(next) && (next == b || Connected(next, b))
    ensures Connected(a, b)
  {
    ConnectedRefl(b);
    var path :| LegalPath(next, path) && EndOf(next, path) == b;
    var longer := [next] + path;
    assert longer[1..] == path;
    assert LegalPath(a, longer) && EndOf(a, longer) == b;
  }

  lemma {:induction false} NeverProvisioning(a: NodeState, path: seq<NodeState>)
    requires LegalPath(a, path) && path != []
    ensures path[|path| - 1] != Provisioning
    decreases |path|
  {
    if |path| > 1 {
      NeverProvisioning(path[0], path[1..]);
    }
  }

  /** Where the node that a call is about to save ends its path. */
  ghost predicate SavesAt(c: Call, x: Choice, id: NodeId, end: NodeState) {
    && c.pc.NeedNodeSave? && c.target == id && Landed(x.port)
    && c.read.Some? && end == EndOf(c.read.value.state, PathFor(c.kind, c.pc.status))
  }

  /** The steps that take the stored state of a node off the lifecycle, by what can be
      seen before the step: a landed node save whose path ends elsewhere than the
      terminal state that is stored, or in `Provisioning` while `Active` is stored; or a
      landed registration over any stored state but `Provisioning`. */
  ghost predicate Offends(s: State, l: Label, id: NodeId)
    requires id in s.g.nodes
  {
    var was := s.g.nodes[id].state;
    || (l.Act? && l.i < |s.calls| && exists end ::
          SavesAt(s.calls[l.i], l.choice, id, end)
          && ((was.IsTerminal() && end != was) || (was == Active && end == Provisioning)))
    || (l.Register? && l.id == id && Landed(l.reply) && was != Provisioning)
  }

  lemma OnlySavesWrite(g: Shared, c: Call, l: Label)
    requires !(l.Act? && c.pc.NeedNodeSave?)
    ensures CallStep(g, c, l).0.nodes == g.nodes
  {
    hide PlanActions, PathFor, Upsert, Accepts;
  }

  lemma SavedAt(c: Call, n: Node, run: Run, status: RunStatus)
    requires CallOk(c) && c.pc == NeedNodeSave(n, run, status)
    ensures c.read.Some?
  {
    hide MovesOf, LinkedMoves, Targets;
  }

  /** The state a step leaves stored under `id`. */
  lemma StoredAfter(s: State, l: Label, id: NodeId)
    requires CallsOk(s) && id in s.g.nodes
    ensures id in Step(s, l).g.nodes
    ensures var was, now := s.g.nodes[id].state, Step(s, l).g.nodes[id].state;
      if l.Register? && l.id == id && Landed(l.reply) then now == Provisioning
      else if l.Act? && l.i < |s.calls| && s.calls[l.i].pc.NeedNodeSave? && s.calls[l.i].target == id && Landed(l.choice.port) then
        SavesAt(s.calls[l.i], l.choice, id, now)
      else now == was
  {
    hide CallOk, StoredOk, NodesOk, RunsOk, EndOf, PathFor;
    if (l.Act? || l.Drop?) && l.i < |s.calls| {
      var c := s.calls[l.i];
      if l.Act? && c.pc.NeedNodeSave? {
        SavedNodeRests(c, c.pc.node, c.pc.run, c.pc.status);
        SavedAt(c, c.pc.node, c.pc.run, c.pc.status);
      } else {
        hide CallStep;
        OnlySavesWrite(s.g, c, l);
      }
    }
  }

  /** One step between states that satisfy the invariant of all calls. */
  lemma StepFromInvariant(s: State, l: Label, id: NodeId)
    requires CallsOk(s) && CallsOk(Step(s, l)) && id in s.g.nodes
    ensures id in Step(s, l).g.nodes
    ensures Connected(s.g.nodes[id].state, Step(s, l).g.nodes[id].state) <==> !Offends(s, l, id)
  {
    StoredAfter(s, l, id);
    RestingConnected(s.g.nodes[id].state, Step(s, l).g.nodes[id].state);
    hide Connected, CallOk, StoredOk, Step;
  }

  /** A node's stored states along a history, each linked to every later one. */
  ghost predicate OnLifecycle(cfg: Config, labels: seq<Label>, id: NodeId) {
    forall j, k :: 0 <= j <= k <= |labels| && id in Exec(cfg, labels[..j]).g.nodes ==>
      && id in Exec(cfg, labels[..k]).g.nodes
      && Connected(Exec(cfg, labels[..j]).g.nodes[id].state, Exec(cfg, labels[..k]).g.nodes[id].state)
  }

  ghost predicate NeverOffends(cfg: Config, labels: seq<Label>, id: NodeId) {
    forall k :: 0 <= k < |labels| && id in Exec(cfg, labels[..k]).g.nodes ==> !Offends(Exec(cfg, labels[..k]), labels[k], id)
  }

  lemma ExecSnoc(cfg: Config, labels: seq<Label>, l: Label)
    ensures Exec(cfg, labels + [l]) == Step(Exec(cfg, labels), l)
  {
    assert (labels + [l])[..|labels|] == labels;
  }

  /** Any step of any history, disciplined or not, takes a stored state off the lifecycle
      if and only if it offends. */
  lemma StepLeavesLifecycle(cfg: Config, labels: seq<Label>, k: nat, id: NodeId)
    requires k < |labels| && id in Exec(cfg, labels[..k]).g.nodes
    ensures id in Exec(cfg, labels[..k + 1]).g.nodes
    ensures Connected(Exec(cfg, labels[..k]).g.nodes[id].state, Exec(cfg, labels[..k + 1]).g.nodes[id].state)
      <==> !Offends(Exec(cfg, labels[..k]), labels[k], id)
  {
    AlwaysInv(cfg, labels[..k]);
    AlwaysInv(cfg, labels[..k + 1]);
    ExecSnoc(cfg, labels[..k], labels[k]);
    assert labels[..k] + [labels[k]] == labels[..k + 1];
    hide Exec, Step, Connected, Offends, LimiterOk, SlotsOk, IdsOk, RunsOwned, CallsOk;
    StepFromInvariant(Exec(cfg, labels[..k]), labels[k], id);
  }

  lemma NoOffenceAt(cfg: Config, labels: seq<Label>, k: nat, id: NodeId)
    requires NeverOffends(cfg, labels, id) && k < |labels| && id in Exec(cfg, labels[..k]).g.nodes
    ensures !Offends(Exec(cfg, labels[..k]), labels[k], id)
  {
    hide Exec, Offends;
  }

  lemma {:induction false} LinkedMoments(cfg: Config, labels: seq<Label>, j: nat, k: nat, id: NodeId)
    requires j <= k <= |labels| && id in Exec(cfg, labels[..j]).g.nodes
    requires NeverOffends(cfg, labels, id)
    ensures id in Exec(cfg, labels[..k]).g.nodes
    ensures Connected(Exec(cfg, labels[..j]).g.nodes[id].state, Exec(cfg, labels[..k]).g.nodes[id].state)
    decreases k
  {
    hide *;
    if j == k {
      ConnectedRefl(Exec(cfg, labels[..j]).g.nodes[id].state);
    } else {
      LinkedMoments(cfg, labels, j, k - 1, id);
      NoOffenceAt(cfg, labels, k - 1, id);
      StepLeavesLifecycle(cfg, labels, k - 1, id);
      ConnectedTrans(Exec(cfg, labels[..j]).g.nodes[id].state, Exec(cfg, labels[..k - 1]).g.nodes[id].state,
        Exec(cfg, labels[..k]).g.nodes[id].state);
    }
  }

  /** The lifecycle of a stored node over a whole history, overlapping runs and repeated
      registrations included: its stored states are linked by legal edges, each to every
      later one, if and only if no step of the history offends. */
  lemma StoredLifecycleExactly(cfg: Config, labels: seq<Label>, id: NodeId)
    ensures OnLifecycle(cfg, labels, id) <==> NeverOffends(cfg, labels, id)
  {
    if OnLifecycle(cfg, labels, id) {
      forall k | 0 <= k < |labels| && id in Exec(cfg, labels[..k]).g.nodes
        ensures !Offends(Exec(cfg, labels[..k]), labels[k], id)
      {
        hide Exec, Connected, Offends;
        StepLeavesLifecycle(cfg, labels, k, id);
        assert 0 <= k <= k + 1 <= |labels|;
        assert Connected(Exec(cfg, labels[..k]).g.nodes[id].state, Exec(cfg, labels[..k + 1]).g.nodes[id].state);
      }
    }
    if NeverOffends(cfg, labels, id) {
      forall j, k | 0 <= j <= k <= |labels| && id in Exec(cfg, labels[..j]).g.nodes
        ensures id in Exec(cfg, labels[..k]).g.nodes
        ensures Connected(Exec(cfg, labels[..j]).g.nodes[id].state, Exec(cfg, labels[..k]).g.nodes[id].state)
      {
        LinkedMoments(cfg, labels, j, k, id);
      }
    }
  }

  /** The stored version is the target of the latest upgrade whose node save took
      effect as succeeded, else the version the node was registered with. */
  lemma StoredVersion(cfg: Config, labels: seq<Label>, id: NodeId)
    requires Disciplined(cfg, labels)
    requires id in Exec(cfg, labels).g.nodes
    ensures VersionFrom(Exec(cfg, labels).g.saves, id) == Some(Exec(cfg, labels).g.nodes[id].version)
  {
    AlwaysHistory(cfg, labels);
  }

  /** The node-state events of every call form a chain of legal edges that leaves the
      state it read, in every history, disciplined or not. */
  lemma MovesAreLinked(cfg: Config, labels: seq<Label>, i: nat)
    requires i < |Exec(cfg, labels).calls|
    ensures var c := Exec(cfg, labels).calls[i];
      (c.read.Some? ==> LinkedMoves(c.target, c.read.value.state, Moves(c.posted)))
      && (c.read.None? ==> Moves(c.posted) == [])
  {
    AlwaysInv(cfg, labels);
    var c := Exec(cfg, labels).calls[i];
    var published, rest := Moves(c.posted), MovesOf(c)[|Moves(c.posted)|..];
    assert published + rest == MovesOf(c);
    if c.read.Some? {
      LinkedPrefix(c.target, c.read.value.state, published, rest);
    }
  }

  // Without the discipline: overlapping runs are last-writer-wins.

  /** One more step of call `i`, as the state it leads to. */
  lemma OneAct(cfg: Config, labels: seq<Label>, i: nat, x: Choice) returns (longer: seq<Label>)
    requires i < |Exec(cfg, labels).calls|
    ensures longer == labels + [Act(i, x)]
    ensures var s := Exec(cfg, labels);
      Exec(cfg, longer) ==
        s.(g := Advanced(s.g, s.calls[i], x).0, calls := s.calls[i := Advanced(s.g, s.calls[i], x).1])
  {
    ExecSnoc(cfg, labels, Act(i, x));
    longer := labels + [Act(i, x)];
  }

  /** Nothing but the steps of call `i` separates the two histories. */
  ghost predicate OnlyActs(labels: seq<Label>, longer: seq<Label>, i: nat) {
    && |labels| <= |longer| && longer[..|labels|] == labels
    && forall k :: |labels| <= k < |longer| ==> longer[k].Act? && longer[k].i == i
  }

  /** Call `i` opens its run and its first agent call fails; with nothing to
      compensate, the saga is rolled back. */
  lemma FirstCallFails(cfg: Config, labels: seq<Label>, i: nat, n: Node) returns (longer: seq<Label>, run: Run)
    requires i < |Exec(cfg, labels).calls| && Exec(cfg, labels).calls[i].pc == NeedId(n)
    ensures OnlyActs(labels, longer, i)
    ensures var s, s' := Exec(cfg, labels), Exec(cfg, longer);
      && s'.g.nodes == s.g.nodes && |s'.calls| == |s.calls|
      && (forall j :: 0 <= j < |s.calls| && j != i ==> s'.calls[j] == s.calls[j])
      && s'.calls[i].kind == s.calls[i].kind
      && s'.calls[i].pc == Walking(n, run, RolledBack, FailurePath(s.calls[i].kind))
  {
    hide Exec, Step, Upsert;
    var s := Exec(cfg, labels);
    run := Run(s.g.nextRun, n.id, s.calls[i].kind, Running, [], WORKS.at, None);
    longer := OneAct(cfg, labels, i, WORKS);
    longer := OneAct(cfg, longer, i, WORKS);
    longer := OneAct(cfg, longer, i, WORKS);
    assert Exec(cfg, longer).calls[i].pc == InSaga(n, run, Forward(0));
    longer := OneAct(cfg, longer, i, FAILS);
    assert Exec(cfg, longer).calls[i].pc == InSaga(n, run, Backward(0, 0, true));
    longer := OneAct(cfg, longer, i, WORKS);
  }

  /** The rest of such a call up to and including its node save. */
  lemma RolledBackSave(cfg: Config, labels: seq<Label>, i: nat, n: Node, run: Run) returns (longer: seq<Label>)
    requires i < |Exec(cfg, labels).calls|
    requires var c := Exec(cfg, labels).calls[i];
      c.pc == Walking(n, run, RolledBack, FailurePath(c.kind)) && (c.kind.Provision? ==> n.state == Provisioning)
    ensures OnlyActs(labels, longer, i)
    ensures var s, s' := Exec(cfg, labels), Exec(cfg, longer);
      && |s'.calls| == |s.calls|
      && (forall j :: 0 <= j < |s.calls| && j != i ==> s'.calls[j] == s.calls[j])
      && s'.g.nodes == s.g.nodes[n.id :=
        if s.calls[i].kind.Provision? then n.(state := NodeState.Failed, updatedAt := WORKS.at) else n]
  {
    hide Exec, Step, Upsert;
    longer := labels;
    var kind := Exec(cfg, labels).calls[i].kind;
    if kind.Provision? {
      longer := OneAct(cfg, longer, i, WORKS);
      longer := OneAct(cfg, longer, i, WORKS);
      assert Exec(cfg, longer).calls[i].pc
        == Walking(n.(state := NodeState.Failed, updatedAt := WORKS.at), run, RolledBack, []);
    }
    longer := OneAct(cfg, longer, i, WORKS);
    longer := OneAct(cfg, longer, i, WORKS);
  }

  /** Two calls on one freshly registered node, both of which have read it. */
  lemma TwoReaders(cfg: Config, n: Node, a: DeploymentKind, b: DeploymentKind) returns (labels: seq<Label>)
    requires cfg == Config(2.0, 0.0, 2, 0)
    requires n == Node(n.id, n.placement, n.host, n.version, Provisioning, 0, 0)
    requires !a.Failover? && !b.Failover?
    ensures var s := Exec(cfg, labels);
      && s.g.nodes == map[n.id := n] && |s.calls| == 2
      && s.calls[0].kind == a && s.calls[0].pc == NeedId(n)
      && s.calls[1].kind == b && s.calls[1].pc == NeedId(n)
    ensures |labels| > 0 && forall k :: 1 <= k < |labels| ==> !labels[k].Register?
  {
    labels := [];
    ExecSnoc(cfg, labels, Register(n.id, n.placement, n.host, n.version, 0, PortOk));
    labels := labels + [Register(n.id, n.placement, n.host, n.version, 0, PortOk)];
    assert Exec(cfg, labels).g.nodes == map[n.id := n];
    ExecSnoc(cfg, labels, Start(n.id, a));
    labels := labels + [Start(n.id, a)];
    assert Exec(cfg, labels).bucket.tokens == 1.0 && |Exec(cfg, labels).calls| == 1;
    ExecSnoc(cfg, labels, Start(n.id, b));
    labels := labels + [Start(n.id, b)];
    assert |Exec(cfg, labels).calls| == 2 && Exec(cfg, labels).g.free == 2;
    labels := OneAct(cfg, labels, 0, WORKS);
    labels := OneAct(cfg, labels, 1, WORKS);
    labels := OneAct(cfg, labels, 0, WORKS);
    labels := OneAct(cfg, labels, 1, WORKS);
  }

  /** Without one run at a time per node, a terminal state can be left: a provision
      and an upgrade both read a provisioning node, the provision fails and stores it
      as failed, and the upgrade, rolled back as well, stores the node it had read.
      Nothing is registered in between. */
  lemma OverlapRevivesFailedNode(n: Node) returns (cfg: Config, labels: seq<Label>, k: nat)
    requires n == Node(n.id, n.placement, n.host, n.version, Provisioning, 0, 0)
    ensures 1 <= k <= |labels| && forall m :: 1 <= m < |labels| ==> !labels[m].Register?
    ensures n.id in Exec(cfg, labels[..k]).g.nodes && Exec(cfg, labels[..k]).g.nodes[n.id].state == NodeState.Failed
    ensures n.id in Exec(cfg, labels).g.nodes && Exec(cfg, labels).g.nodes[n.id].state == Provisioning
  {
    cfg := Config(2.0, 0.0, 2, 0);
    var start := TwoReaders(cfg, n, Provision, Upgrade(n.version));
    var walkA, runA := FirstCallFails(cfg, start, 0, n);
    var savedA := RolledBackSave(cfg, walkA, 0, n, runA);
    k := |savedA|;
    var walkB, runB := FirstCallFails(cfg, savedA, 1, n);
    labels := RolledBackSave(cfg, walkB, 1, n, runB);
    assert labels[..k] == walkB[..k] == savedA;
    assert savedA[..|start|] == walkA[..|start|] == start;
    forall m | 1 <= m < |labels|
      ensures !labels[m].Register?
    {
      assert m < |start| ==> labels[m] == labels[..k][m] == savedA[..|start|][m];
      assert |start| <= m < |walkA| ==> labels[m] == labels[..k][m] == savedA[..|walkA|][m] == walkA[m];
      assert |walkA| <= m < k ==> labels[m] == labels[..k][m];
      assert k <= m < |walkB| ==> labels[m] == labels[..|walkB|][m];
    }
  }

  /** Registering a stored node again leaves the lifecycle with a single call and no
      overlap: a provision fails, the node is stored as failed, and the registration
      stores it as provisioning. */
  lemma ReRegistrationRevivesFailedNode(n: Node) returns (cfg: Config, labels: seq<Label>, k: nat)
    requires n == Node(n.id, n.placement, n.host, n.version, Provisioning, 0, 0)
    ensures k < |labels| && labels[k].Register?
    ensures |Exec(cfg, labels).calls| == 1
    ensures n.id in Exec(cfg, labels[..k]).g.nodes && Exec(cfg, labels[..k]).g.nodes[n.id].state == NodeState.Failed
    ensures Offends(Exec(cfg, labels[..k]), labels[k], n.id)
    ensures n.id in Exec(cfg, labels).g.nodes && Exec(cfg, labels).g.nodes[n.id].state == Provisioning
  {
    cfg := Config(2.0, 0.0, 2, 0);
    var again := Register(n.id, n.placement, n.host, n.version, 0, PortOk);
    var start := OneReader(cfg, n);
    var walk, run := FirstCallFails(cfg, start, 0, n);
    var saved := RolledBackSave(cfg, walk, 0, n, run);
    k := |saved|;
    labels := saved + [again];
    ExecSnoc(cfg, saved, again);
    assert labels[..k] == saved;
  }

  lemma OneReader(cfg: Config, n: Node) returns (labels: seq<Label>)
    requires cfg == Config(2.0, 0.0, 2, 0)
    requires n == Node(n.id, n.placement, n.host, n.version, Provisioning, 0, 0)
    ensures var s := Exec(cfg, labels);
      && s.g.nodes == map[n.id := n] && |s.calls| == 1
      && s.calls[0].kind == Provision && s.calls[0].pc == NeedId(n)
  {
    labels := [];
    ExecSnoc(cfg, labels, Register(n.id, n.placement, n.host, n.version, 0, PortOk));
    labels := labels + [Register(n.id, n.placement, n.host, n.version, 0, PortOk)];
    assert Exec(cfg, labels).g.nodes == map[n.id := n];
    ExecSnoc(cfg, labels, Start(n.id, Provision));
    labels := labels + [Start(n.id, Provision)];
    assert |Exec(cfg, labels).calls| == 1;
    labels := OneAct(cfg, labels, 0, WORKS);
    labels := OneAct(cfg, labels, 0, WORKS);
  }
}
