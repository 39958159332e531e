/** Deployments as an interleaving step machine. Every lock, atomic operation, port
    call and published event is one step; deployments, registrations and the clock
    interleave freely; a port call may fail, with or without its write having taken
    effect; an agent call may answer anything; a call may be abandoned at any point. */
module Machine {
  import opened Domain
  import opened RateLimit
  import opened Repo
  import opened Saga
  import opened Plan
  import opened Lifecycle

  datatype Config = Config(capacity: real, rate: real, slots: nat, start: nat)

  /** How one call of `start_deployment` ended. */
  datatype Outcome = Answered(run: Run) | Refused(error: CoreError) | Abandoned

  /** What a call does next. */
  datatype Pc =
    | NeedSlot
    | NeedNode
    | NeedSpare(node: Node)
    | NeedId(node: Node)
    | NeedFirstSave(node: Node, run: Run)
    | InSaga(node: Node, run: Run, phase: Phase)
    | Walking(node: Node, run: Run, status: RunStatus, path: seq<NodeState>)
    | NeedNodeSave(node: Node, run: Run, status: RunStatus)
    | NeedLastSave(run: Run)
    | Publishing(event: OpsEvent, next: Pc)
    | Finished(outcome: Outcome)

  /** One call past the rate limiter: its request, the id it was given, the node it
      read and what it does next. The rest is history: how its saga ended, whether a
      node write of it took effect, and the events it published. */
  datatype Call = Call(
    target: NodeId, kind: DeploymentKind, runId: Option<RunId>, read: Option<Node>, pc: Pc,
    verdict: Option<RunStatus>, wrote: bool, posted: seq<OpsEvent>)

  /** A node write that took effect. */
  datatype Save =
    | Registered(node: Node)
    | Deployed(kind: DeploymentKind, status: RunStatus, node: Node)

  /** What the calls share, the limiter aside. */
  datatype Shared = Shared(
    free: nat, nextRun: nat, nodes: map<NodeId, Node>, runs: seq<Run>, saves: seq<Save>, events: seq<OpsEvent>)

  datatype State = State(now: nat, bucket: Bucket, log: seq<Entry>, g: Shared, calls: seq<Call>)

  datatype PortReply = PortOk | PortErr(error: PortError, landed: bool)

  /** What the environment decides in one step of a call. */
  datatype Choice = Choice(port: PortReply, ok: bool, at: Instant)

  const WORKS := Choice(PortOk, true, 0)
  const FAILS := Choice(PortOk, false, 0)

  /** A step that works while the clock reads `at`. */
  function WorksAt(at: Instant): Choice {
    WORKS.(at := at)
  }

  datatype Label =
    | Tick(ms: nat)
    | Start(target: NodeId, kind: DeploymentKind)
    | Register(id: NodeId, placement: Placement, host: HostAddr, version: Version, at: Instant, reply: PortReply)
    | Act(i: nat, choice: Choice)
    | Drop(i: nat)

  function Init(cfg: Config): State {
    State(cfg.start, Bucket.New(cfg.capacity, cfg.rate, cfg.start), [],
      Shared(Max(cfg.slots, 1), 1, map[], [], [], []), [])
  }

  predicate Landed(reply: PortReply) {
    reply.PortOk? || reply.landed
  }

  /** A call holds its bulkhead slot from admission until it ends. */
  predicate Holds(pc: Pc) {
    !pc.NeedSlot? && !pc.Finished?
  }

  function Goto(g: Shared, c: Call, pc: Pc): (Shared, Call) {
    (g, c.(pc := pc))
  }

  /** Ending a call, however it ends, drops its slot guard. */
  function End(g: Shared, c: Call, outcome: Outcome): (Shared, Call) {
    (g.(free := g.free + if Holds(c.pc) then 1 else 0), c.(pc := Finished(outcome)))
  }

  function SaveRun(g: Shared, run: Run, reply: PortReply): Shared {
    if Landed(reply) then g.(runs := Upsert(g.runs, run)) else g
  }

  function SaveNode(g: Shared, save: Save, reply: PortReply): Shared {
    if Landed(reply) then g.(nodes := g.nodes[save.node.id := save.node], saves := g.saves + [save]) else g
  }

  function Publish(g: Shared, c: Call, event: OpsEvent, next: Pc): (Shared, Call) {
    var g' := g.(events := g.events + [event]);
    var c' := c.(posted := c.posted + [event]);
    if next.Finished? then End(g', c', next.outcome) else Goto(g', c', next)
  }

  function TakeSlot(g: Shared, c: Call): (Shared, Call) {
    if g.free > 0 then Goto(g.(free := g.free - 1), c, NeedNode) else End(g, c, Refused(Throttled))
  }

  function ReadNode(g: Shared, c: Call, x: Choice): (Shared, Call) {
    if x.port.PortErr? then End(g, c, Refused(Port(x.port.error)))
    else if c.target !in g.nodes then End(g, c, Refused(NotFound(c.target)))
    else
      var n := g.nodes[c.target];
      Goto(g, c.(read := Some(n)), if c.kind.Failover? then NeedSpare(n) else NeedId(n))
  }

  function ReadSpare(g: Shared, c: Call, x: Choice, n: Node): (Shared, Call) {
    if x.port.PortErr? then End(g, c, Refused(Port(x.port.error)))
    else if c.kind.Failover? && c.kind.spare !in g.nodes then End(g, c, Refused(NotFound(c.kind.spare)))
    else Goto(g, c, NeedId(n))
  }

  function TakeId(g: Shared, c: Call, x: Choice, n: Node): (Shared, Call) {
    var run := Run(g.nextRun, n.id, c.kind, Running, [], x.at, None);
    Goto(g.(nextRun := g.nextRun + 1), c.(runId := Some(g.nextRun)), NeedFirstSave(n, run))
  }

  function FirstSave(g: Shared, c: Call, x: Choice, n: Node, run: Run): (Shared, Call) {
    var g' := SaveRun(g, run, x.port);
    if x.port.PortErr? then End(g', c, Refused(Port(x.port.error)))
    else Goto(g', c, Publishing(RunStarted(run.id, n.id, c.kind), InSaga(n, run, Forward(0))))
  }

  /** One agent call of the saga, or the turn from the saga to the lifecycle walk. */
  function SagaStep(g: Shared, c: Call, x: Choice, n: Node, run: Run, ph: Phase): (Shared, Call) {
    var actions := PlanActions(c.kind);
    if !ph.Valid(|actions|) || ph.IsOver(|actions|) then
      Goto(g, c.(verdict := Some(ph.Status())), Walking(n, run, ph.Status(), PathFor(c.kind, ph.Status())))
    else
      var ph' := ph.Advance(x.ok);
      if !x.ok then Goto(g, c, InSaga(n, run, ph'))
      else if ph.Forward? then
        var run' := run.(completedSteps := run.completedSteps + [actions[ph.done]]);
        Goto(g, c, Publishing(StepCompleted(run.id, actions[ph.done]), InSaga(n, run', ph')))
      else Goto(g, c, Publishing(StepCompensated(run.id, actions[ph.left - 1]), InSaga(n, run, ph')))
  }

  function WalkStep(
    g: Shared, c: Call, x: Choice, n: Node, run: Run, status: RunStatus, path: seq<NodeState>): (Shared, Call)
  {
    if path == [] then
      var n' := if status == Succeeded && c.kind.Upgrade? then n.(version := c.kind.targetVersion, updatedAt := x.at) else n;
      Goto(g, c, NeedNodeSave(n', run, status))
    else if n.state.CanTransitionTo(path[0]) then
      var n' := n.(state := path[0], updatedAt := x.at);
      Goto(g, c, Publishing(NodeStateChanged(n.id, n.state, path[0]), Walking(n', run, status, path[1..])))
    else End(g, c, Refused(IllegalTransition(n.state, path[0])))
  }

  function NodeSave(g: Shared, c: Call, x: Choice, n: Node, run: Run, status: RunStatus): (Shared, Call) {
    var g' := SaveNode(g, Deployed(c.kind, status, n), x.port);
    var c' := c.(wrote := Landed(x.port));
    if x.port.PortErr? then End(g', c', Refused(Port(x.port.error)))
    else Goto(g', c', NeedLastSave(run.(status := status, finishedAt := Some(x.at))))
  }

  function LastSave(g: Shared, c: Call, x: Choice, run: Run): (Shared, Call) {
    var g' := SaveRun(g, run, x.port);
    if x.port.PortErr? then End(g', c, Refused(Port(x.port.error)))
    else Goto(g', c, Publishing(RunFinished(run.id, run.status), Finished(Answered(run))))
  }

  function Advanced(g: Shared, c: Call, x: Choice): (Shared, Call) {
    match c.pc
    case NeedSlot => TakeSlot(g, c)
    case NeedNode => ReadNode(g, c, x)
    case NeedSpare(n) => ReadSpare(g, c, x, n)
    case NeedId(n) => TakeId(g, c, x, n)
    case NeedFirstSave(n, run) => FirstSave(g, c, x, n, run)
    case InSaga(n, run, ph) => SagaStep(g, c, x, n, run, ph)
    case Walking(n, run, status, path) => WalkStep(g, c, x, n, run, status, path)
    case NeedNodeSave(n, run, status) => NodeSave(g, c, x, n, run, status)
    case NeedLastSave(run) => LastSave(g, c, x, run)
    case Publishing(e, next) => Publish(g, c, e, next)
    case Finished(_) => (g, c)
  }

  /** What one call does to the shared state and to itself. */
  function CallStep(g: Shared, c: Call, l: Label): (Shared, Call) {
    match l
    case Act(_, x) => Advanced(g, c, x)
    case Drop(_) => if c.pc.Finished? then (g, c) else End(g, c, Abandoned)
    case _ => (g, c)
  }

  function Step(s: State, l: Label): State {
    match l
    case Tick(ms) => s.(now := s.now + ms)
    case Start(target, kind) =>
      var (ok, b) := s.bucket.TryTake(1.0, s.now);
      s.(bucket := b,
        log := s.log + [Entry(Max(s.bucket.last, s.now), if ok then 1.0 else 0.0)],
        calls := if ok then s.calls + [Call(target, kind, None, None, NeedSlot, None, false, [])] else s.calls)
    case Register(id, placement, host, version, at, reply) =>
      s.(g := SaveNode(s.g, Registered(Node(id, placement, host, version, Provisioning, at, at)), reply))
    case _ =>
      if l.i >= |s.calls| then s
      else
        var (g, c) := CallStep(s.g, s.calls[l.i], l);
        s.(g := g, calls := s.calls[l.i := c])
  }

  /** The state after any sequence of steps: every reachable state is one of these. */
  function Exec(cfg: Config, labels: seq<Label>): State {
    if labels == [] then Init(cfg)
    else Step(Exec(cfg, labels[..|labels| - 1]), labels[|labels| - 1])
  }

  // What a run record looks like.

  /** A run as it was opened. */
  ghost predicate IsOpen(r: Run) {
    r.status == Running && r.completedSteps == [] && r.finishedAt == None
  }

  /** Progress of a run of this kind: a prefix of the plan, whole exactly on success. */
  ghost predicate IsProgress(kind: DeploymentKind, completed: seq<OpsActionKind>, status: RunStatus) {
    && |completed| <= |PlanActions(kind)|
    && completed == PlanActions(kind)[..|completed|]
    && status.IsTerminal()
    && (status == Succeeded <==> |completed| == |PlanActions(kind)|)
  }

  ghost predicate IsClosed(r: Run) {
    r.finishedAt.Some? && IsProgress(r.kind, r.completedSteps, r.status)
  }

  function Opened(r: Run): Run {
    r.(status := Running, completedSteps := [], finishedAt := None)
  }

  // What each call knows.

  /** The step a call is at, an event about to be published aside. */
  function Core(pc: Pc): Pc {
    if pc.Publishing? then pc.next else pc
  }

  /** The node-state events among `events`. */
  function Moves(events: seq<OpsEvent>): (r: seq<OpsEvent>)
    ensures forall k :: 0 <= k < |r| ==> r[k].NodeStateChanged?
  {
    if events == [] then []
    else
      Moves(events[..|events| - 1])
      + if events[|events| - 1].NodeStateChanged? then [events[|events| - 1]] else []
  }

  /** The moves a call has published, and the one it is publishing. */
  function MovesOf(c: Call): (r: seq<OpsEvent>)
    ensures forall k :: 0 <= k < |r| ==> r[k].NodeStateChanged?
  {
    Moves(c.posted) + if c.pc.Publishing? && c.pc.event.NodeStateChanged? then [c.pc.event] else []
  }

  function Reached(source: NodeState, moves: seq<OpsEvent>): NodeState
    requires forall k :: 0 <= k < |moves| ==> moves[k].NodeStateChanged?
  {
    if moves == [] then source else moves[|moves| - 1].target
  }

  /** The node a call works on is the one it read, moved along its published path. */
  ghost predicate Tracks(c: Call, n: Node) {
    && c.read.Some?
    && n == c.read.value.(state := n.state, version := n.version, updatedAt := n.updatedAt)
    && n.state == Reached(c.read.value.state, MovesOf(c))
  }

  /** The version a call leaves on the node it read. */
  function NewVersion(kind: DeploymentKind, status: RunStatus, was: Version): Version {
    if kind.Upgrade? && status == Succeeded then kind.targetVersion else was
  }

  /** The run record a call works on. */
  ghost predicate OwnRun(c: Call, r: Run) {
    c.runId == Some(r.id) && r.kind == c.kind && r.target == c.target
  }

  /** The saga of the call ended with `status`, and the whole path fits the node it read. */
  ghost predicate AcceptedWith(c: Call, status: RunStatus) {
    && c.read.Some? && c.verdict == Some(status)
    && Accepts(c.kind, c.read.value.state, status)
    && Targets(MovesOf(c)) == PathFor(c.kind, status)
  }

  /** The saga has not ended yet. */
  predicate Undecided(c: Call) {
    c.verdict.None? && !c.wrote
  }

  /** What holds of a call by itself, at each step. */
  ghost predicate CoreOk(c: Call, pc: Pc) {
    match pc
    case NeedSlot => c.runId.None? && c.read.None? && Undecided(c)
    case NeedNode => c.runId.None? && c.read.None? && Undecided(c)
    case NeedSpare(n) => c.runId.None? && c.read == Some(n) && MovesOf(c) == [] && Undecided(c)
    case NeedId(n) => c.runId.None? && c.read == Some(n) && MovesOf(c) == [] && Undecided(c)
    case NeedFirstSave(n, r) => OwnRun(c, r) && IsOpen(r) && c.read == Some(n) && MovesOf(c) == [] && Undecided(c)
    case InSaga(n, r, ph) =>
      && OwnRun(c, r) && ph.Valid(|PlanActions(c.kind)|)
      && r == Opened(r).(completedSteps := PlanActions(c.kind)[..ph.done])
      && c.read == Some(n) && MovesOf(c) == [] && Undecided(c)
    case Walking(n, r, status, path) =>
      && OwnRun(c, r) && r == Opened(r).(completedSteps := r.completedSteps)
      && IsProgress(c.kind, r.completedSteps, status) && c.verdict == Some(status)
      && Tracks(c, n) && n.version == c.read.value.version
      && Targets(MovesOf(c)) + path == PathFor(c.kind, status) && !c.wrote
    case NeedNodeSave(n, r, status) =>
      && OwnRun(c, r) && r == Opened(r).(completedSteps := r.completedSteps)
      && IsProgress(c.kind, r.completedSteps, status) && AcceptedWith(c, status)
      && Tracks(c, n) && n.version == NewVersion(c.kind, status, c.read.value.version) && !c.wrote
    case NeedLastSave(r) => OwnRun(c, r) && IsClosed(r) && AcceptedWith(c, r.status) && c.wrote
    case Finished(Answered(r)) => OwnRun(c, r) && IsClosed(r) && AcceptedWith(c, r.status) && c.wrote
    case Finished(Refused(IllegalTransition(_, _))) =>
      && c.read.Some? && c.verdict.Some? && !Accepts(c.kind, c.read.value.state, c.verdict.value)
      && MovesOf(c) == [] && !c.wrote && c.runId.Some?
    case Publishing(_, _) => false
    case Finished(Refused(Throttled)) => Undecided(c)
    case Finished(Refused(NotFound(_))) => Undecided(c)
    case Finished(_) => c.wrote ==> c.verdict.Some? && AcceptedWith(c, c.verdict.value)
  }

  ghost predicate CallOk(c: Call) {
    && CoreOk(c, Core(c.pc))
    && (c.read.Some? ==>
      && c.read.value.id == c.target && Resting(c.read.value.state)
      && LinkedMoves(c.target, c.read.value.state, MovesOf(c)))
    && (c.read.None? ==> MovesOf(c) == [])
    && (c.pc.Publishing? ==>
      && (c.pc.event.RunFinished? <==> c.pc.next.Finished?)
      && (c.pc.next.Finished? ==>
        && c.pc.next.outcome.Answered?
        && c.pc.event == RunFinished(c.pc.next.outcome.run.id, c.pc.next.outcome.run.status))
      && (c.pc.next.InSaga? || c.pc.next.Walking? || c.pc.next.Finished?))
    && (forall e :: e in c.posted && e.RunFinished? ==> c.pc.Finished? && c.pc.outcome.Answered?)
    && (c.pc.Finished? && c.pc.outcome.Answered? ==>
      RunFinished(c.pc.outcome.run.id, c.pc.outcome.run.status) in c.posted)
  }

  /** What the run store says about a call's run. */
  ghost predicate StoredOk(runs: seq<Run>, c: Call) {
    c.runId.Some? ==>
      var found := Lookup(runs, c.runId.value);
      match Core(c.pc)
      case NeedFirstSave(_, r) => found == None
      case InSaga(_, r, _) => found == Some(Opened(r))
      case Walking(_, r, _, _) => found == Some(Opened(r))
      case NeedNodeSave(_, r, _) => found == Some(Opened(r))
      case NeedLastSave(r) => found == Some(Opened(r))
      case Finished(Answered(r)) => found == Some(r)
      case Finished(Refused(IllegalTransition(_, _))) => found.Some? && IsOpen(found.value) && OwnRun(c, found.value)
      case _ => found.Some? ==> OwnRun(c, found.value) && (IsOpen(found.value) || IsClosed(found.value))
  }

  // What the shared state keeps.

  ghost predicate NodesOk(g: Shared) {
    forall id :: id in g.nodes ==> g.nodes[id].id == id && Resting(g.nodes[id].state)
  }

  ghost predicate RunsOk(g: Shared) {
    && UniqueIds(g.runs)
    && forall r :: r in g.runs ==> r.id < g.nextRun
  }

  function Holding(c: Call): nat {
    if Holds(c.pc) then 1 else 0
  }

  function Allocated(c: Call): nat {
    if c.runId.Some? then 1 else 0
  }

  /** One step of one call: what it may change, and what it leaves alone. */
  ghost predicate StepOk(g: Shared, c: Call, g': Shared, c': Call) {
    CallOk(c') && StoredOk(g'.runs, c') && SharedOk(g, c, g', c')
  }

  ghost predicate SharedOk(g: Shared, c: Call, g': Shared, c': Call) {
    && NodesOk(g') && RunsOk(g')
    && g'.free + Holding(c') == g.free + Holding(c)
    && (if c'.runId == c.runId then g'.nextRun == g.nextRun
        else c.runId.None? && c'.runId == Some(g.nextRun) && g'.nextRun == g.nextRun + 1)
    && (forall id: RunId :: Some(id) != c.runId ==> Lookup(g'.runs, id) == Lookup(g.runs, id))
    && (forall r :: r in g'.runs ==> r in g.runs || c.runId == Some(r.id))
    && (forall id: RunId :: var found := Lookup(g.runs, id);
      found.Some? && found.value.status.IsTerminal() ==> Lookup(g'.runs, id) == found)
  }

  ghost predicate Ready(g: Shared, c: Call) {
    && NodesOk(g) && RunsOk(g) && CallOk(c) && StoredOk(g.runs, c)
    && (c.runId.Some? ==> c.runId.value < g.nextRun)
  }

  lemma MovesSnoc(events: seq<OpsEvent>, e: OpsEvent)
    ensures Moves(events + [e]) == Moves(events) + if e.NodeStateChanged? then [e] else []
  {
    assert (events + [e])[..|events|] == events;
  }

  lemma LinkedPrefix(id: NodeId, source: NodeState, moves: seq<OpsEvent>, more: seq<OpsEvent>)
    requires LinkedMoves(id, source, moves + more)
    ensures LinkedMoves(id, source, moves)
  {
    var all := moves + more;
    assert forall k :: 0 <= k < |moves| ==> all[k] == moves[k];
  }

  /** The run store knows at most an open or closed record of the call's own run. */
  ghost predicate StoredLoosely(runs: seq<Run>, c: Call) {
    c.runId.Some? ==>
      var found := Lookup(runs, c.runId.value);
      found.Some? ==> OwnRun(c, found.value) && (IsOpen(found.value) || IsClosed(found.value))
  }

  ghost predicate HistoryOk(c: Call) {
    && (c.read.Some? ==>
      && c.read.value.id == c.target && Resting(c.read.value.state)
      && LinkedMoves(c.target, c.read.value.state, MovesOf(c)))
    && (c.read.None? ==> MovesOf(c) == [])
    && (forall e :: e in c.posted ==> !e.RunFinished?)
  }

  lemma StoredIsLoose(runs: seq<Run>, c: Call)
    requires CallOk(c) && StoredOk(runs, c)
    ensures StoredLoosely(runs, c)
  {
    if c.runId.Some? && Lookup(runs, c.runId.value).Some? {
      match Core(c.pc) {
        case Finished(Answered(r)) =>
        case Finished(Refused(IllegalTransition(_, _))) =>
        case _ =>
      }
    }
  }

  /** A call may end anywhere: what it leaves behind is in order. */
  lemma EndKeeps(g: Shared, c: Call, outcome: Outcome)
    requires HistoryOk(c) && StoredLoosely(g.runs, c)
    requires outcome.Abandoned? || (outcome.Refused? && !outcome.error.IllegalTransition?)
    requires outcome.Refused? && !outcome.error.Port? ==> Undecided(c)
    requires c.wrote ==> c.verdict.Some? && AcceptedWith(c, c.verdict.value) && MovesOf(c) == Moves(c.posted)
    ensures var (g', c') := End(g, c, outcome);
      && CallOk(c') && StoredOk(g.runs, c')
      && g' == g.(free := g'.free) && g'.free + Holding(c') == g.free + Holding(c)
      && c'.runId == c.runId
  {
    var c' := End(g, c, outcome).1;
    var published := Moves(c.posted);
    assert MovesOf(c') == published;
    assert published + MovesOf(c)[|published|..] == MovesOf(c);
    if c.read.Some? {
      LinkedPrefix(c.target, c.read.value.state, published, MovesOf(c)[|published|..]);
    }
    if c.wrote {
      assert MovesOf(c) == published;
    }
  }

  lemma SaveRunKeeps(g: Shared, c: Call, run: Run, reply: PortReply)
    requires RunsOk(g) && NodesOk(g)
    requires c.runId == Some(run.id) && run.id < g.nextRun
    ensures var g' := SaveRun(g, run, reply);
      && RunsOk(g') && NodesOk(g')
      && g' == g.(runs := g'.runs)
      && (forall id: RunId :: id != run.id || !Landed(reply) ==> Lookup(g'.runs, id) == Lookup(g.runs, id))
      && (Landed(reply) ==> Lookup(g'.runs, run.id) == Some(run))
      && (forall r :: r in g'.runs ==> r in g.runs || r == run)
  {
    forall id: RunId
      ensures Lookup(SaveRun(g, run, reply).runs, id) ==
        if id == run.id && Landed(reply) then Some(run) else Lookup(g.runs, id)
    {
      UpsertIsMapUpdate(g.runs, run, id);
    }
    UpsertIsMapUpdate(g.runs, run, run.id);
  }

  lemma SlotStep(g: Shared, c: Call)
    requires Ready(g, c) && c.pc.NeedSlot?
    ensures StepOk(g, c, TakeSlot(g, c).0, TakeSlot(g, c).1)
  {
    if g.free == 0 {
      EndKeeps(g, c, Refused(Throttled));
    }
  }

  lemma ReadStep(g: Shared, c: Call, x: Choice)
    requires Ready(g, c) && c.pc.NeedNode?
    ensures StepOk(g, c, ReadNode(g, c, x).0, ReadNode(g, c, x).1)
  {
    if x.port.PortErr? {
      EndKeeps(g, c, Refused(Port(x.port.error)));
    } else if c.target !in g.nodes {
      EndKeeps(g, c, Refused(NotFound(c.target)));
    }
  }

  lemma SpareStep(g: Shared, c: Call, x: Choice, n: Node)
    requires Ready(g, c) && c.pc == NeedSpare(n)
    ensures StepOk(g, c, ReadSpare(g, c, x, n).0, ReadSpare(g, c, x, n).1)
  {
    if x.port.PortErr? {
      EndKeeps(g, c, Refused(Port(x.port.error)));
    } else if c.kind.Failover? && c.kind.spare !in g.nodes {
      EndKeeps(g, c, Refused(NotFound(c.kind.spare)));
    }
  }

  lemma IdStep(g: Shared, c: Call, x: Choice, n: Node)
    requires Ready(g, c) && c.pc == NeedId(n)
    ensures StepOk(g, c, TakeId(g, c, x, n).0, TakeId(g, c, x, n).1)
  {
    assert IndexOf(g.runs, g.nextRun) == |g.runs|;
  }

  /** A run write of the call's own, unfinished run. */
  lemma RunSavedShared(g: Shared, c: Call, run: Run, reply: PortReply, g': Shared, c': Call)
    requires NodesOk(g) && RunsOk(g) && c.runId == Some(run.id) && run.id < g.nextRun
    requires Lookup(g.runs, run.id).Some? ==> !Lookup(g.runs, run.id).value.status.IsTerminal()
    requires g' == SaveRun(g, run, reply).(free := g'.free)
    requires g'.free + Holding(c') == g.free + Holding(c) && c'.runId == c.runId
    ensures SharedOk(g, c, g', c')
  {
    hide SaveRun, Lookup, NodesOk, Holding;
    SaveRunKeeps(g, c, run, reply);
    SameNodes(SaveRun(g, run, reply), g');
  }

  lemma SameNodes(g: Shared, g': Shared)
    requires NodesOk(g) && RunsOk(g) && g' == g.(free := g'.free)
    ensures NodesOk(g') && RunsOk(g')
  {
  }

  /** A call about to store its opened run, which the store does not hold yet. */
  lemma FirstSaveFacts(g: Shared, c: Call, n: Node, run: Run, reply: PortReply)
    requires Ready(g, c) && c.pc == NeedFirstSave(n, run)
    ensures c.runId == Some(run.id) && run.id < g.nextRun && Lookup(g.runs, run.id) == None
    ensures HistoryOk(c) && StoredLoosely(SaveRun(g, run, reply).runs, c) && Undecided(c)
    ensures Opened(run) == run
  {
    SaveRunKeeps(g, c, run, reply);
    hide SaveRun, Lookup, LinkedMoves, Moves;
  }

  lemma MovesPublishing(c: Call, e: OpsEvent, next: Pc)
    requires !c.pc.Publishing?
    ensures MovesOf(c.(pc := Publishing(e, next))) == MovesOf(c) + if e.NodeStateChanged? then [e] else []
  {
    hide Moves;
  }

  lemma FirstSaveCall(c: Call, n: Node, run: Run)
    requires CallOk(c) && c.pc == NeedFirstSave(n, run)
    ensures CallOk(c.(pc := Publishing(RunStarted(run.id, n.id, c.kind), InSaga(n, run, Forward(0)))))
  {
    hide LinkedMoves, Moves;
    MovesPublishing(c, RunStarted(run.id, n.id, c.kind), InSaga(n, run, Forward(0)));
  }

  lemma OpenStored(runs: seq<Run>, c: Call, run: Run)
    requires c.runId == Some(run.id) && Core(c.pc).InSaga? && Core(c.pc).run == run
    requires Lookup(runs, run.id) == Some(Opened(run))
    ensures StoredOk(runs, c)
  {
    hide Lookup, Opened;
  }

  lemma FirstSaveStep(g: Shared, c: Call, x: Choice, n: Node, run: Run)
    requires Ready(g, c) && c.pc == NeedFirstSave(n, run)
    ensures StepOk(g, c, FirstSave(g, c, x, n, run).0, FirstSave(g, c, x, n, run).1)
  {
    hide CallOk, StoredOk, HistoryOk, StoredLoosely, SharedOk, NodesOk, RunsOk, SaveRun, Lookup, Opened, AcceptedWith, MovesOf, Moves;
    var (g', c') := FirstSave(g, c, x, n, run);
    FirstSaveFacts(g, c, n, run, x.port);
    SaveRunKeeps(g, c, run, x.port);
    if x.port.PortErr? {
      EndKeeps(SaveRun(g, run, x.port), c, Refused(Port(x.port.error)));
    } else {
      FirstSaveCall(c, n, run);
      OpenStored(g'.runs, c', run);
    }
    RunSavedShared(g, c, run, x.port, g', c');
  }

  /** Nothing shared changes but events and slots; the call keeps its id. */
  lemma EventsOnly(g: Shared, c: Call, g': Shared, c': Call)
    requires NodesOk(g) && RunsOk(g)
    requires g' == g.(free := g'.free, events := g'.events)
    requires g'.free + Holding(c') == g.free + Holding(c) && c'.runId == c.runId
    ensures SharedOk(g, c, g', c')
  {
  }

  lemma SagaStepCall(g: Shared, c: Call, x: Choice, n: Node, run: Run, ph: Phase)
    requires CallOk(c) && c.pc == InSaga(n, run, ph)
    ensures CallOk(SagaStep(g, c, x, n, run, ph).1)
  {
    hide LinkedMoves, PathFor, Accepts, PlanActions;
    var actions := PlanActions(c.kind);
    var c' := SagaStep(g, c, x, n, run, ph).1;
    assert MovesOf(c) == [];
    assert MovesOf(c') == [] by {
      hide CoreOk;
    }
    hide Moves, MovesOf, Targets;
    if !ph.IsOver(|actions|) && ph.Forward? && x.ok {
      PrefixSnoc(actions, ph.done);
    }
  }

  lemma SagaStepStored(runs: seq<Run>, c: Call, c': Call)
    requires StoredOk(runs, c) && c.pc.InSaga? && c'.runId == c.runId
    requires Core(c'.pc).InSaga? || Core(c'.pc).Walking?
    requires Opened(Core(c'.pc).run) == Opened(c.pc.run)
    ensures StoredOk(runs, c')
  {
    hide Lookup, Opened;
  }

  lemma SagaStepKeeps(g: Shared, c: Call, x: Choice, n: Node, run: Run, ph: Phase)
    requires Ready(g, c) && c.pc == InSaga(n, run, ph)
    ensures StepOk(g, c, SagaStep(g, c, x, n, run, ph).0, SagaStep(g, c, x, n, run, ph).1)
  {
    hide CallOk, StoredOk, SharedOk, NodesOk, RunsOk, PlanActions, PathFor;
    var c' := SagaStep(g, c, x, n, run, ph).1;
    SagaStepCall(g, c, x, n, run, ph);
    SagaStepStored(g.runs, c, c');
    EventsOnly(g, c, g, c');
  }

  /** A call whose path is walked to its end was accepted. */
  lemma WalkDoneFacts(c: Call, n: Node, run: Run, status: RunStatus)
    requires CallOk(c) && c.pc == Walking(n, run, status, [])
    ensures AcceptedWith(c, status)
  {
    WalkingFacts(c, n, run, status, []);
    assert c.verdict == Some(status);
    hide CallOk, CoreOk, MovesOf, Reached;
    var moves := MovesOf(c);
    assert Targets(moves) + [] == Targets(moves);
    LinkedMovesAreLegal(c.target, c.read.value.state, moves);
    AcceptsExactly(c.kind, c.read.value.state, status);
  }

  lemma SameMoves(c: Call, c': Call)
    requires c'.posted == c.posted && !c.pc.Publishing? && !c'.pc.Publishing?
    ensures MovesOf(c') == MovesOf(c)
  {
    hide Moves;
  }

  lemma WalkDoneCall(c: Call, n: Node, n': Node, run: Run, status: RunStatus)
    requires CallOk(c) && c.pc == Walking(n, run, status, [])
    requires n' == n.(version := NewVersion(c.kind, status, n.version), updatedAt := n'.updatedAt)
    ensures CallOk(c.(pc := NeedNodeSave(n', run, status)))
  {
    hide LinkedMoves, Targets, MovesOf, PathFor, IsProgress, Accepts, Reached, NewVersion;
    WalkDoneFacts(c, n, run, status);
    SameMoves(c, c.(pc := NeedNodeSave(n', run, status)));
  }

  lemma WalkStored(runs: seq<Run>, c: Call, run: Run, c': Call)
    requires StoredOk(runs, c) && c.pc.Walking? && c.pc.run == run && c'.runId == c.runId
    requires (Core(c'.pc).Walking? || Core(c'.pc).NeedNodeSave?) && Core(c'.pc).run == run
    ensures StoredOk(runs, c')
  {
    hide Lookup, Opened;
  }

  lemma WalkDone(g: Shared, c: Call, x: Choice, n: Node, run: Run, status: RunStatus)
    requires Ready(g, c) && c.pc == Walking(n, run, status, [])
    ensures StepOk(g, c, WalkStep(g, c, x, n, run, status, []).0, WalkStep(g, c, x, n, run, status, []).1)
  {
    hide CallOk, StoredOk, SharedOk, NodesOk, RunsOk;
    var c' := WalkStep(g, c, x, n, run, status, []).1;
    WalkDoneCall(c, n, c'.pc.node, run, status);
    EventsOnly(g, c, g, c');
    WalkStored(g.runs, c, run, c');
  }

  lemma LinkedSnoc(id: NodeId, source: NodeState, moves: seq<OpsEvent>, target: NodeState)
    requires LinkedMoves(id, source, moves)
    requires Reached(source, moves).CanTransitionTo(target)
    ensures LinkedMoves(id, source, moves + [NodeStateChanged(id, Reached(source, moves), target)])
    ensures Reached(source, moves + [NodeStateChanged(id, Reached(source, moves), target)]) == target
  {
  }

  /** What a walking call knows of its moves. */
  lemma WalkingFacts(c: Call, n: Node, run: Run, status: RunStatus, path: seq<NodeState>)
    requires CallOk(c) && c.pc == Walking(n, run, status, path)
    ensures c.read.Some? && n.id == c.target && n.state == Reached(c.read.value.state, MovesOf(c))
    ensures Targets(MovesOf(c)) + path == PathFor(c.kind, status)
    ensures LinkedMoves(c.target, c.read.value.state, MovesOf(c))
  {
    hide MovesOf, Targets, Reached, LinkedMoves, PathFor, IsProgress;
  }

  lemma TargetsSnoc(moves: seq<OpsEvent>, e: OpsEvent, path: seq<NodeState>)
    requires (forall k :: 0 <= k < |moves| ==> moves[k].NodeStateChanged?) && e.NodeStateChanged?
    requires path != [] && e.target == path[0]
    ensures Targets(moves + [e]) + path[1..] == Targets(moves) + path
  {
    assert Targets(moves + [e]) == Targets(moves) + [path[0]];
    assert [path[0]] + path[1..] == path;
  }

  lemma WalkMoveMoves(
    c: Call, n: Node, n': Node, run: Run, status: RunStatus, path: seq<NodeState>)
    requires CallOk(c) && c.pc == Walking(n, run, status, path)
    requires path != [] && n.state.CanTransitionTo(path[0])
    ensures var e := NodeStateChanged(n.id, n.state, path[0]);
      var c' := c.(pc := Publishing(e, Walking(n', run, status, path[1..])));
      var moves' := MovesOf(c');
      && LinkedMoves(c.target, c.read.value.state, moves') && Reached(c.read.value.state, moves') == path[0]
      && Targets(moves') + path[1..] == PathFor(c.kind, status)
  {
    hide *;
    var e := NodeStateChanged(n.id, n.state, path[0]);
    WalkingFacts(c, n, run, status, path);
    MovesPublishing(c, e, Walking(n', run, status, path[1..]));
    LinkedSnoc(c.target, c.read.value.state, MovesOf(c), path[0]);
    TargetsSnoc(MovesOf(c), e, path);
  }

  lemma WalkMoveCall(
    c: Call, n: Node, n': Node, run: Run, status: RunStatus, path: seq<NodeState>)
    requires CallOk(c) && c.pc == Walking(n, run, status, path)
    requires path != [] && n.state.CanTransitionTo(path[0])
    requires n' == n.(state := path[0], updatedAt := n'.updatedAt)
    ensures CallOk(c.(pc :=
      Publishing(NodeStateChanged(n.id, n.state, path[0]), Walking(n', run, status, path[1..]))))
  {
    hide LinkedMoves, Targets, Reached, MovesOf, PathFor, IsProgress, Accepts;
    WalkMoveMoves(c, n, n', run, status, path);
  }

  lemma WalkMove(
    g: Shared, c: Call, x: Choice, n: Node, run: Run, status: RunStatus, path: seq<NodeState>)
    requires Ready(g, c) && c.pc == Walking(n, run, status, path)
    requires path != [] && n.state.CanTransitionTo(path[0])
    ensures StepOk(g, c, WalkStep(g, c, x, n, run, status, path).0, WalkStep(g, c, x, n, run, status, path).1)
  {
    hide CallOk, StoredOk, SharedOk, NodesOk, RunsOk;
    var c' := WalkStep(g, c, x, n, run, status, path).1;
    WalkMoveCall(c, n, c'.pc.next.node, run, status, path);
    EventsOnly(g, c, g, c');
    WalkStored(g.runs, c, run, c');
  }

  /** A path that cannot be walked fails at its first edge, before anything was published. */
  lemma RefusedAtOnce(c: Call, n: Node, run: Run, status: RunStatus, path: seq<NodeState>)
    requires CallOk(c) && c.pc == Walking(n, run, status, path)
    requires path != [] && !n.state.CanTransitionTo(path[0])
    ensures MovesOf(c) == [] && !Accepts(c.kind, c.read.value.state, status)
  {
    var moves, source := MovesOf(c), c.read.value.state;
    LinkedMovesAreLegal(c.target, source, moves);
    AcceptsExactly(c.kind, source, status);
    LegalPathAppend(source, Targets(moves), path);
    assert EndOf(source, Targets(moves)) == n.state;
    FirstEdgeLegal(c.target, source, moves, path);
  }

  lemma FirstEdgeLegal(id: NodeId, source: NodeState, moves: seq<OpsEvent>, path: seq<NodeState>)
    requires LinkedMoves(id, source, moves)
    ensures moves != [] ==> source.CanTransitionTo((Targets(moves) + path)[0])
  {
  }

  lemma WalkRefused(
    g: Shared, c: Call, x: Choice, n: Node, run: Run, status: RunStatus, path: seq<NodeState>)
    requires Ready(g, c) && c.pc == Walking(n, run, status, path)
    requires path != [] && !n.state.CanTransitionTo(path[0])
    ensures StepOk(g, c, WalkStep(g, c, x, n, run, status, path).0, WalkStep(g, c, x, n, run, status, path).1)
  {
    RefusedAtOnce(c, n, run, status, path);
    assert MovesOf(WalkStep(g, c, x, n, run, status, path).1) == [];
  }

  lemma WalkStepKeeps(
    g: Shared, c: Call, x: Choice, n: Node, run: Run, status: RunStatus, path: seq<NodeState>)
    requires Ready(g, c) && c.pc == Walking(n, run, status, path)
    ensures StepOk(g, c, WalkStep(g, c, x, n, run, status, path).0, WalkStep(g, c, x, n, run, status, path).1)
  {
    hide StepOk, Ready;
    if path == [] {
      WalkDone(g, c, x, n, run, status);
    } else if n.state.CanTransitionTo(path[0]) {
      WalkMove(g, c, x, n, run, status, path);
    } else {
      WalkRefused(g, c, x, n, run, status, path);
    }
  }

  /** The node about to be saved rests where the accepted path ends. */
  lemma SavedNodeRests(c: Call, n: Node, run: Run, status: RunStatus)
    requires CallOk(c) && c.pc == NeedNodeSave(n, run, status)
    ensures n.id == c.target && Resting(n.state)
    ensures n.state == EndOf(c.read.value.state, PathFor(c.kind, status))
    ensures LegalPath(c.read.value.state, PathFor(c.kind, status))
  {
    AcceptsExactly(c.kind, c.read.value.state, status);
    assert Targets(MovesOf(c)) == PathFor(c.kind, status);
  }

  lemma SaveNodeShared(g: Shared, c: Call, save: Save, reply: PortReply, free: nat, c': Call)
    requires NodesOk(g) && RunsOk(g)
    requires Resting(save.node.state)
    requires free + Holding(c') == g.free + Holding(c) && c'.runId == c.runId
    ensures SharedOk(g, c, SaveNode(g, save, reply).(free := free), c')
  {
  }

  lemma NodeSaveFacts(c: Call, n: Node, run: Run, status: RunStatus)
    requires CallOk(c) && c.pc == NeedNodeSave(n, run, status)
    ensures HistoryOk(c) && AcceptedWith(c, status) && c.verdict == Some(status) && MovesOf(c) == Moves(c.posted)
  {
    hide LinkedMoves, Moves, Targets, PathFor, Accepts, IsProgress, Reached;
  }

  lemma NodeSaveEnds(g: Shared, c: Call, x: Choice, n: Node, run: Run, status: RunStatus)
    requires Ready(g, c) && c.pc == NeedNodeSave(n, run, status) && x.port.PortErr?
    ensures var (g', c') := NodeSave(g, c, x, n, run, status);
      CallOk(c') && StoredOk(g'.runs, c')
  {
    StoredIsLoose(g.runs, c);
    NodeSaveFacts(c, n, run, status);
    hide CallOk, StoredOk, StoredLoosely, Moves, LinkedMoves, PathFor, Accepts;
    var g1 := SaveNode(g, Deployed(c.kind, status, n), x.port);
    var c1 := c.(wrote := Landed(x.port));
    assert MovesOf(c1) == MovesOf(c);
    assert HistoryOk(c1) && StoredLoosely(g1.runs, c1) by {
      assert StoredLoosely(g.runs, c);
      LooseStays(g.runs, c, c1);
    }
    EndKeeps(g1, c1, Refused(Port(x.port.error)));
  }

  lemma LooseStays(runs: seq<Run>, c: Call, c': Call)
    requires StoredLoosely(runs, c) && c'.runId == c.runId && c'.kind == c.kind && c'.target == c.target
    ensures StoredLoosely(runs, c')
  {
  }

  lemma NodeSaveWorks(g: Shared, c: Call, x: Choice, n: Node, run: Run, status: RunStatus)
    requires Ready(g, c) && c.pc == NeedNodeSave(n, run, status) && x.port.PortOk?
    ensures var (g', c') := NodeSave(g, c, x, n, run, status);
      CallOk(c') && StoredOk(g'.runs, c')
  {
    hide LinkedMoves, Targets, PathFor, Accepts, Lookup, Moves;
    var (g', c') := NodeSave(g, c, x, n, run, status);
    assert MovesOf(c') == MovesOf(c);
    hide MovesOf;
  }

  lemma NodeSaveStep(g: Shared, c: Call, x: Choice, n: Node, run: Run, status: RunStatus)
    requires Ready(g, c) && c.pc == NeedNodeSave(n, run, status)
    ensures StepOk(g, c, NodeSave(g, c, x, n, run, status).0, NodeSave(g, c, x, n, run, status).1)
  {
    hide CallOk, StoredOk, SharedOk, NodesOk, RunsOk, Resting;
    SavedNodeRests(c, n, run, status);
    if x.port.PortErr? {
      NodeSaveEnds(g, c, x, n, run, status);
    } else {
      NodeSaveWorks(g, c, x, n, run, status);
    }
    var (g', c') := NodeSave(g, c, x, n, run, status);
    SaveNodeShared(g, c, Deployed(c.kind, status, n), x.port, g'.free, c');
  }

  lemma LastSaveStep(g: Shared, c: Call, x: Choice, run: Run)
    requires Ready(g, c) && c.pc == NeedLastSave(run)
    ensures StepOk(g, c, LastSave(g, c, x, run).0, LastSave(g, c, x, run).1)
  {
    hide CallOk, StoredOk, HistoryOk, StoredLoosely, SharedOk, NodesOk, RunsOk, SaveRun, Lookup, AcceptedWith, MovesOf, Moves;
    var (g', c') := LastSave(g, c, x, run);
    if x.port.PortErr? {
      LastSaveEnds(g, c, x, run);
    } else {
      LastSaveCall(c, c', run);
      LastSaveStored(g, c, x, run);
    }
    LastSaveFacts(g, c, run, x.port);
    SaveRunKeeps(g, c, run, x.port);
    RunSavedShared(g, c, run, x.port, g', c');
  }

  /** A call about to save its closed run, with a store that holds it open or closed. */
  lemma LastSaveFacts(g: Shared, c: Call, run: Run, reply: PortReply)
    requires Ready(g, c) && c.pc == NeedLastSave(run)
    ensures c.runId == Some(run.id) && run.id < g.nextRun
    ensures Lookup(g.runs, run.id).Some? && !Lookup(g.runs, run.id).value.status.IsTerminal()
    ensures HistoryOk(c) && StoredLoosely(SaveRun(g, run, reply).runs, c)
    ensures c.wrote && c.verdict.Some? && AcceptedWith(c, c.verdict.value) && MovesOf(c) == Moves(c.posted)
  {
    SaveRunKeeps(g, c, run, reply);
    hide SaveRun, Lookup, LinkedMoves, Moves, PathFor, Accepts, IsProgress;
  }

  lemma LastSaveEnds(g: Shared, c: Call, x: Choice, run: Run)
    requires Ready(g, c) && c.pc == NeedLastSave(run) && x.port.PortErr?
    ensures var (g', c') := LastSave(g, c, x, run);
      CallOk(c') && StoredOk(g'.runs, c')
  {
    hide CallOk, StoredOk, HistoryOk, StoredLoosely, AcceptedWith, Ready, SaveRun, MovesOf, Moves;
    LastSaveFacts(g, c, run, x.port);
    EndKeeps(SaveRun(g, run, x.port), c, Refused(Port(x.port.error)));
  }

  lemma LastSaveStored(g: Shared, c: Call, x: Choice, run: Run)
    requires Ready(g, c) && c.pc == NeedLastSave(run) && x.port.PortOk?
    ensures var (g', c') := LastSave(g, c, x, run);
      StoredOk(g'.runs, c')
  {
    hide SaveRun, CallOk, CoreOk, Lookup, NodesOk, RunsOk, HistoryOk, StoredOk, StoredLoosely, MovesOf, Moves, AcceptedWith;
    LastSaveFacts(g, c, run, x.port);
    SaveRunKeeps(g, c, run, x.port);
    var (g', c') := LastSave(g, c, x, run);
    AnsweredStored(g'.runs, c', run);
  }

  lemma AnsweredStored(runs: seq<Run>, c: Call, run: Run)
    requires c.runId == Some(run.id) && Core(c.pc) == Finished(Answered(run))
    requires Lookup(runs, run.id) == Some(run)
    ensures StoredOk(runs, c)
  {
    hide Lookup;
  }

  lemma LastSaveCall(c: Call, c': Call, run: Run)
    requires CallOk(c) && c.pc == NeedLastSave(run)
    requires c' == c.(pc := Publishing(RunFinished(run.id, run.status), Finished(Answered(run))))
    ensures CallOk(c')
  {
    assert MovesOf(c') == MovesOf(c);
  }

  lemma PublishCall(c: Call, e: OpsEvent, next: Pc, c': Call)
    requires CallOk(c) && c.pc == Publishing(e, next)
    requires c' == c.(posted := c.posted + [e], pc := next)
    ensures CallOk(c') && (next.InSaga? || next.Walking? || next.Finished?)
  {
    MovesSnoc(c.posted, e);
    assert MovesOf(c') == MovesOf(c);
  }

  lemma PublishStep(g: Shared, c: Call, e: OpsEvent, next: Pc)
    requires Ready(g, c) && c.pc == Publishing(e, next)
    ensures StepOk(g, c, Publish(g, c, e, next).0, Publish(g, c, e, next).1)
  {
    hide CallOk, StoredOk, SharedOk, NodesOk, RunsOk;
    var (g', c') := Publish(g, c, e, next);
    assert c' == c.(posted := c.posted + [e], pc := next);
    PublishCall(c, e, next, c');
    PublishStored(g.runs, c, c');
    EventsOnly(g, c, g', c');
  }

  lemma PublishStored(runs: seq<Run>, c: Call, c': Call)
    requires StoredOk(runs, c)
    requires Core(c'.pc) == Core(c.pc) && c'.runId == c.runId && c'.kind == c.kind && c'.target == c.target
    ensures StoredOk(runs, c')
  {
    hide Lookup, IsOpen, IsClosed, Opened;
  }

  lemma NoStep(g: Shared, c: Call)
    requires Ready(g, c)
    ensures StepOk(g, c, g, c)
  {
  }

  lemma DropStep(g: Shared, c: Call)
    requires Ready(g, c) && !c.pc.Finished?
    ensures StepOk(g, c, End(g, c, Abandoned).0, End(g, c, Abandoned).1)
  {
    StoredIsLoose(g.runs, c);
    assert c.wrote ==> MovesOf(c) == Moves(c.posted);
    EndKeeps(g, c, Abandoned);
  }

  /** Every step of every call, whatever the environment decides. */
  lemma CallStepKeeps(g: Shared, c: Call, l: Label)
    requires Ready(g, c)
    ensures StepOk(g, c, CallStep(g, c, l).0, CallStep(g, c, l).1)
  {
    hide StepOk, Ready;
    match l
    case Act(_, x) =>
      match c.pc {
        case NeedSlot => SlotStep(g, c);
        case NeedNode => ReadStep(g, c, x);
        case NeedSpare(n) => SpareStep(g, c, x, n);
        case NeedId(n) => IdStep(g, c, x, n);
        case NeedFirstSave(n, run) => FirstSaveStep(g, c, x, n, run);
        case InSaga(n, run, ph) => SagaStepKeeps(g, c, x, n, run, ph);
        case Walking(n, run, status, path) => WalkStepKeeps(g, c, x, n, run, status, path);
        case NeedNodeSave(n, run, status) => NodeSaveStep(g, c, x, n, run, status);
        case NeedLastSave(run) => LastSaveStep(g, c, x, run);
        case Publishing(e, next) => PublishStep(g, c, e, next);
        case Finished(_) => NoStep(g, c);
      }
    case Drop(_) =>
      if c.pc.Finished? {
        NoStep(g, c);
      } else {
        DropStep(g, c);
      }
    case _ => NoStep(g, c);
  }

  // The whole machine.

  function Sum(f: Call -> nat, calls: seq<Call>): nat {
    if calls == [] then 0 else Sum(f, calls[..|calls| - 1]) + f(calls[|calls| - 1])
  }

  lemma {:induction false} SumUpdate(f: Call -> nat, calls: seq<Call>, i: nat, c: Call)
    requires i < |calls|
    ensures Sum(f, calls[i := c]) + f(calls[i]) == Sum(f, calls) + f(c)
  {
    var last := |calls| - 1;
    if i == last {
      assert calls[i := c][..last] == calls[..last];
    } else {
      assert calls[i := c][..last] == calls[..last][i := c];
      SumUpdate(f, calls[..last], i, c);
    }
  }

  lemma SumAppend(f: Call -> nat, calls: seq<Call>, c: Call)
    ensures Sum(f, calls + [c]) == Sum(f, calls) + f(c)
  {
    assert (calls + [c])[..|calls|] == calls;
  }

  lemma {:induction false} SumAtMostLength(calls: seq<Call>)
    ensures Sum(Allocated, calls) <= |calls|
  {
    if calls != [] {
      SumAtMostLength(calls[..|calls| - 1]);
    }
  }

  /** The limiter's level explains its history, in which every admitted call took one token. */
  ghost predicate LimiterOk(cfg: Config, s: State) {
    && Explains(s.bucket, cfg.start, s.log)
    && s.bucket.capacity == Bucket.New(cfg.capacity, cfg.rate, cfg.start).capacity
    && s.bucket.rate == Bucket.New(cfg.capacity, cfg.rate, cfg.start).rate
    && s.bucket.tokens >= 0.0
    && cfg.start <= s.bucket.last <= s.now
    && (forall e :: e in s.log ==> e.at >= cfg.start)
    && TakenSince(s.log, cfg.start) == |s.calls| as real
  }

  ghost predicate IdsOk(s: State) {
    && s.g.nextRun == 1 + Sum(Allocated, s.calls)
    && (forall i :: 0 <= i < |s.calls| && s.calls[i].runId.Some? ==> 1 <= s.calls[i].runId.value < s.g.nextRun)
    && (forall i, j :: 0 <= i < j < |s.calls| && s.calls[i].runId.Some? ==> s.calls[i].runId != s.calls[j].runId)
  }

  /** Every stored run belongs to the call that was given its id. */
  ghost predicate RunsOwned(s: State) {
    forall r :: r in s.g.runs ==> exists i :: 0 <= i < |s.calls| && s.calls[i].runId == Some(r.id)
  }

  ghost predicate CallsOk(s: State) {
    && NodesOk(s.g) && RunsOk(s.g)
    && (forall i :: 0 <= i < |s.calls| ==> CallOk(s.calls[i]))
    && (forall i :: 0 <= i < |s.calls| ==> StoredOk(s.g.runs, s.calls[i]))
  }

  ghost predicate SlotsOk(cfg: Config, s: State) {
    s.g.free + Sum(Holding, s.calls) == Max(cfg.slots, 1)
  }

  ghost predicate Inv(cfg: Config, s: State) {
    LimiterOk(cfg, s) && SlotsOk(cfg, s) && IdsOk(s) && RunsOwned(s) && CallsOk(s)
  }

  lemma InitInv(cfg: Config)
    ensures Inv(cfg, Init(cfg))
  {
    NewExplains(cfg.capacity, cfg.rate, cfg.start);
  }

  lemma StartInv(cfg: Config, s: State, target: NodeId, kind: DeploymentKind)
    requires Inv(cfg, s)
    ensures Inv(cfg, Step(s, Start(target, kind)))
  {
    var s' := Step(s, Start(target, kind));
    var c := Call(target, kind, None, None, NeedSlot, None, false, []);
    StartLimiter(cfg, s, target, kind);
    assert s'.g == s.g && (s'.calls == s.calls || s'.calls == s.calls + [c]);
    if s'.calls == s.calls {
      SameCalls(cfg, s, s');
    } else {
      StartCalls(cfg, s, c, s');
      StartOwned(s, c, s');
    }
    hide LimiterOk, SlotsOk, IdsOk, RunsOwned, CallsOk, Step;
  }

  /** The clock and the limiter are no concern of the calls. */
  lemma SameCalls(cfg: Config, s: State, s': State)
    requires SlotsOk(cfg, s) && IdsOk(s) && RunsOwned(s) && CallsOk(s)
    requires s'.g == s.g && s'.calls == s.calls
    ensures SlotsOk(cfg, s') && IdsOk(s') && RunsOwned(s') && CallsOk(s')
  {
  }

  /** A call that has just passed the limiter joins the others. */
  lemma StartCalls(cfg: Config, s: State, c: Call, s': State)
    requires SlotsOk(cfg, s) && IdsOk(s) && CallsOk(s)
    requires c == Call(c.target, c.kind, None, None, NeedSlot, None, false, [])
    requires s'.g == s.g && s'.calls == s.calls + [c]
    ensures SlotsOk(cfg, s') && IdsOk(s') && CallsOk(s')
  {
    FreshCall(s.g.runs, c);
    SumAppend(Holding, s.calls, c);
    StartIds(s, c, s');
    hide CallOk, StoredOk, NodesOk, RunsOk, Sum, IdsOk;
  }

  lemma StartIds(s: State, c: Call, s': State)
    requires IdsOk(s) && c.runId.None?
    requires s'.g == s.g && s'.calls == s.calls + [c]
    ensures IdsOk(s')
  {
    hide Sum;
    SumAppend(Allocated, s.calls, c);
  }

  lemma FreshCall(runs: seq<Run>, c: Call)
    requires c == Call(c.target, c.kind, None, None, NeedSlot, None, false, [])
    ensures CallOk(c) && StoredOk(runs, c)
  {
  }

  lemma StartOwned(s: State, c: Call, s': State)
    requires RunsOwned(s) && s'.g == s.g && s'.calls == s.calls + [c]
    ensures RunsOwned(s')
  {
    forall r | r in s.g.runs
      ensures exists i :: 0 <= i < |s'.calls| && s'.calls[i].runId == Some(r.id)
    {
      var i :| 0 <= i < |s.calls| && s.calls[i].runId == Some(r.id);
      assert s'.calls[i].runId == Some(r.id);
    }
  }

  lemma StartLimiter(cfg: Config, s: State, target: NodeId, kind: DeploymentKind)
    requires LimiterOk(cfg, s)
    ensures LimiterOk(cfg, Step(s, Start(target, kind)))
  {
    var (ok, b) := s.bucket.TryTake(1.0, s.now);
    TryTakeConforms(s.bucket, cfg.start, s.log, 1.0, s.now);
    CreditAdds(s.bucket.rate, if s.now > s.bucket.last then s.now - s.bucket.last else 0, 0);
    TakenSinceSnoc(s.log, Entry(Max(s.bucket.last, s.now), if ok then 1.0 else 0.0), cfg.start);
  }

  lemma RegisterInv(cfg: Config, s: State, l: Label)
    requires Inv(cfg, s) && l.Register?
    ensures Inv(cfg, Step(s, l))
  {
    assert Step(s, l).g.runs == s.g.runs;
  }

  /** One call moved; every other call still finds its run as it was. */
  lemma CallInv(cfg: Config, s: State, l: Label)
    requires Inv(cfg, s)
    requires (l.Act? || l.Drop?) && l.i < |s.calls|
    ensures Inv(cfg, Step(s, l))
  {
    hide CallStep, SharedOk, Ready, CallsOk, RunsOwned, IdsOk, SlotsOk, CallOk, StoredOk;
    var c := s.calls[l.i];
    var (g', c') := CallStep(s.g, c, l);
    AllReady(s, l.i);
    CallStepKeeps(s.g, c, l);
    CallInvSlots(cfg, s, l.i, g', c');
    CallInvIds(s, l.i, g', c');
    CallInvOthers(s, l, g', c');
    CallInvOwners(s, l, g', c');
  }

  lemma AllReady(s: State, i: nat)
    requires IdsOk(s) && CallsOk(s) && i < |s.calls|
    ensures Ready(s.g, s.calls[i])
  {
    hide CallOk, StoredOk, NodesOk, RunsOk;
  }

  lemma CallInvSlots(cfg: Config, s: State, i: nat, g': Shared, c': Call)
    requires SlotsOk(cfg, s) && i < |s.calls| && SharedOk(s.g, s.calls[i], g', c')
    ensures SlotsOk(cfg, s.(g := g', calls := s.calls[i := c']))
  {
    assert g'.free + Holding(c') == s.g.free + Holding(s.calls[i]);
    hide SharedOk, Sum;
    SumUpdate(Holding, s.calls, i, c');
  }

  lemma CallInvIds(s: State, i: nat, g': Shared, c': Call)
    requires IdsOk(s) && i < |s.calls| && SharedOk(s.g, s.calls[i], g', c')
    ensures IdsOk(s.(g := g', calls := s.calls[i := c']))
  {
    var c := s.calls[i];
    assert if c'.runId == c.runId then g'.nextRun == s.g.nextRun
      else c.runId.None? && c'.runId == Some(s.g.nextRun) && g'.nextRun == s.g.nextRun + 1;
    hide SharedOk, Sum;
    SumUpdate(Allocated, s.calls, i, c');
  }

  lemma CallInvOthers(s: State, l: Label, g': Shared, c': Call)
    requires CallsOk(s) && IdsOk(s)
    requires (l.Act? || l.Drop?) && l.i < |s.calls|
    requires StepOk(s.g, s.calls[l.i], g', c')
    ensures CallsOk(s.(g := g', calls := s.calls[l.i := c']))
  {
    var calls' := s.calls[l.i := c'];
    forall j | 0 <= j < |calls'|
      ensures CallOk(calls'[j]) && StoredOk(g'.runs, calls'[j])
    {
      if j != l.i && s.calls[j].runId.Some? {
        assert s.calls[j].runId != s.calls[l.i].runId;
        assert Lookup(g'.runs, s.calls[j].runId.value) == Lookup(s.g.runs, s.calls[j].runId.value);
      }
    }
  }

  lemma CallInvOwners(s: State, l: Label, g': Shared, c': Call)
    requires RunsOwned(s)
    requires (l.Act? || l.Drop?) && l.i < |s.calls|
    requires SharedOk(s.g, s.calls[l.i], g', c')
    ensures RunsOwned(s.(g := g', calls := s.calls[l.i := c']))
  {
    var calls' := s.calls[l.i := c'];
    forall r | r in g'.runs
      ensures exists i :: 0 <= i < |calls'| && calls'[i].runId == Some(r.id)
    {
      if s.calls[l.i].runId == Some(r.id) {
        assert calls'[l.i].runId == Some(r.id);
      } else {
        var i :| 0 <= i < |s.calls| && s.calls[i].runId == Some(r.id);
        assert calls'[i].runId == Some(r.id);
      }
    }
  }

  lemma StepInv(cfg: Config, s: State, l: Label)
    requires Inv(cfg, s)
    ensures Inv(cfg, Step(s, l))
  {
    match l
    case Tick(_) =>
    case Start(target, kind) => StartInv(cfg, s, target, kind);
    case Register(_, _, _, _, _, _) => RegisterInv(cfg, s, l);
    case Act(i, _) => if i < |s.calls| { CallInv(cfg, s, l); }
    case Drop(i) => if i < |s.calls| { CallInv(cfg, s, l); }
  }

  /** Every reachable state satisfies the invariant. */
  lemma {:induction false} AlwaysInv(cfg: Config, labels: seq<Label>)
    ensures Inv(cfg, Exec(cfg, labels))
  {
    if labels == [] {
      InitInv(cfg);
    } else {
      AlwaysInv(cfg, labels[..|labels| - 1]);
      StepInv(cfg, Exec(cfg, labels[..|labels| - 1]), labels[|labels| - 1]);
    }
  }

  // The main results, over every interleaving, failure and abandonment.

  /** Admission: slots are conserved, run ids are distinct and below the counter, and
      no more ids are ever handed out than the token bucket's bound for the lifetime. */
  lemma AdmissionSafety(cfg: Config, labels: seq<Label>)
    ensures var s := Exec(cfg, labels);
      var b := Bucket.New(cfg.capacity, cfg.rate, cfg.start);
      && cfg.start <= s.now
      && s.g.free + Sum(Holding, s.calls) == Max(cfg.slots, 1)
      && (forall i :: 0 <= i < |s.calls| && s.calls[i].runId.Some? ==> 1 <= s.calls[i].runId.value < s.g.nextRun)
      && (forall i, j :: 0 <= i < j < |s.calls| && s.calls[i].runId.Some? ==> s.calls[i].runId != s.calls[j].runId)
      && (s.g.nextRun - 1) as real <= b.capacity + Credit(b.rate, s.now - cfg.start)
    ensures var s := Exec(cfg, labels);
      s.g.free + |set i | 0 <= i < |s.calls| && !s.calls[i].pc.NeedSlot? && !s.calls[i].pc.Finished?|
        == if cfg.slots == 0 then 1 else cfg.slots
    ensures var s := Exec(cfg, labels);
      var capacity, rate := if cfg.capacity < 0.0 then 0.0 else cfg.capacity, if cfg.rate < 0.0 then 0.0 else cfg.rate;
      && s.g.nextRun >= 1
      && 1000.0 * ((s.g.nextRun - 1) as real - capacity) <= rate * (s.now - cfg.start) as real
      && forall seconds: nat :: s.now <= cfg.start + 1000 * seconds ==>
        (s.g.nextRun - 1) as real <= capacity + rate * seconds as real
  {
    AlwaysInv(cfg, labels);
    var s := Exec(cfg, labels);
    InFlightCounted(s.calls);
    SumAtMostLength(s.calls);
    hide Exec, LimiterOk, CallsOk, RunsOwned, Credit, Sum;
    AdmittedBound(cfg, s);
    AdmittedInMillis(cfg, s, s.g.nextRun - 1);
  }

  /** The same bound in tokens and milliseconds, and over whole seconds. */
  lemma AdmittedInMillis(cfg: Config, s: State, ids: nat)
    requires cfg.start <= s.now
    requires var b := Bucket.New(cfg.capacity, cfg.rate, cfg.start);
      ids as real <= b.capacity + Credit(b.rate, s.now - cfg.start)
    ensures var capacity, rate := if cfg.capacity < 0.0 then 0.0 else cfg.capacity, if cfg.rate < 0.0 then 0.0 else cfg.rate;
      && 1000.0 * (ids as real - capacity) <= rate * (s.now - cfg.start) as real
      && forall seconds: nat :: s.now <= cfg.start + 1000 * seconds ==> ids as real <= capacity + rate * seconds as real
  {
    var b := Bucket.New(cfg.capacity, cfg.rate, cfg.start);
    CreditInMillis(b.rate, s.now - cfg.start);
    forall seconds: nat | s.now <= cfg.start + 1000 * seconds
      ensures ids as real <= b.capacity + b.rate * seconds as real
    {
      SecondsEarn(b.rate, s.now - cfg.start, seconds);
    }
    hide Credit;
  }

  lemma {:induction false} InFlightCounted(calls: seq<Call>)
    ensures |set i | 0 <= i < |calls| && !calls[i].pc.NeedSlot? && !calls[i].pc.Finished?| == Sum(Holding, calls)
  {
    var all := set i | 0 <= i < |calls| && !calls[i].pc.NeedSlot? && !calls[i].pc.Finished?;
    if calls == [] {
      assert all == {};
    } else {
      var k := |calls| - 1;
      var before := calls[..k];
      InFlightCounted(before);
      var less := set i | 0 <= i < |before| && !before[i].pc.NeedSlot? && !before[i].pc.Finished?;
      assert all == less + if Holds(calls[k].pc) then {k} else {};
    }
  }

  lemma AdmittedBound(cfg: Config, s: State)
    requires LimiterOk(cfg, s)
    ensures var b := Bucket.New(cfg.capacity, cfg.rate, cfg.start);
      cfg.start <= s.now && |s.calls| as real <= b.capacity + Credit(b.rate, s.now - cfg.start)
  {
    assert TakenSince(s.log, cfg.start) + s.bucket.tokens
      <= s.bucket.capacity + Credit(s.bucket.rate, s.bucket.last - cfg.start);
    CreditAdds(s.bucket.rate, s.bucket.last - cfg.start, s.now - s.bucket.last);
    CreditAdds(s.bucket.rate, s.now - s.bucket.last, 0);
  }

  /** The run store: ids are unique; each record belongs to the one call that was
      given its id and matches its target and kind; it is either as it was opened, or
      closed with a prefix of its plan that is the whole plan exactly on success; and
      a call that answered returned the stored record. */
  lemma StoredRuns(cfg: Config, labels: seq<Label>, r: Run)
    requires r in Exec(cfg, labels).g.runs
    ensures var s := Exec(cfg, labels);
      && UniqueIds(s.g.runs)
      && (IsOpen(r) || IsClosed(r))
      && exists i :: OwnerOf(s, i, r)
  {
    AlwaysInv(cfg, labels);
    var s := Exec(cfg, labels);
    var i :| 0 <= i < |s.calls| && s.calls[i].runId == Some(r.id);
    StoredIsLoose(s.g.runs, s.calls[i]);
    var k :| 0 <= k < |s.g.runs| && s.g.runs[k] == r;
    IndexIsUnique(s.g.runs, k);
    assert OwnerOf(s, i, r);
  }

  /** Call `i`, and no other, was given the id of this run; the run is for its target and kind. */
  ghost predicate OwnerOf(s: State, i: nat, r: Run) {
    && i < |s.calls| && OwnRun(s.calls[i], r)
    && forall j :: 0 <= j < |s.calls| && j != i ==> s.calls[j].runId != Some(r.id)
  }

  lemma AnsweredIsStored(cfg: Config, labels: seq<Label>, i: nat)
    requires i < |Exec(cfg, labels).calls|
    requires Exec(cfg, labels).calls[i].pc.Finished? && Exec(cfg, labels).calls[i].pc.outcome.Answered?
    ensures var s := Exec(cfg, labels);
      var r := s.calls[i].pc.outcome.run;
      && Lookup(s.g.runs, r.id) == Some(r) && IsClosed(r) && OwnRun(s.calls[i], r)
      && RunFinished(r.id, r.status) in s.calls[i].posted
  {
    AlwaysInv(cfg, labels);
    AnsweredCall(Exec(cfg, labels).g.runs, Exec(cfg, labels).calls[i]);
  }

  lemma AnsweredCall(runs: seq<Run>, c: Call)
    requires CallOk(c) && StoredOk(runs, c)
    requires c.pc.Finished? && c.pc.outcome.Answered?
    ensures var r := c.pc.outcome.run;
      Lookup(runs, r.id) == Some(r) && IsClosed(r) && OwnRun(c, r) && RunFinished(r.id, r.status) in c.posted
  {
  }

  lemma StepKeepsTerminal(cfg: Config, s: State, l: Label, id: RunId)
    requires Inv(cfg, s)
    requires Lookup(s.g.runs, id).Some? && Lookup(s.g.runs, id).value.status.IsTerminal()
    ensures Lookup(Step(s, l).g.runs, id) == Lookup(s.g.runs, id)
  {
    if (l.Act? || l.Drop?) && l.i < |s.calls| {
      assert Ready(s.g, s.calls[l.i]);
      CallStepKeeps(s.g, s.calls[l.i], l);
    }
  }

  /** A terminal run record is never changed again, whatever happens after. */
  lemma {:induction false} TerminalRunsNeverChange(cfg: Config, labels: seq<Label>, more: seq<Label>, id: RunId)
    requires var found := Lookup(Exec(cfg, labels).g.runs, id);
      found.Some? && found.value.status.IsTerminal()
    ensures Lookup(Exec(cfg, labels + more).g.runs, id) == Lookup(Exec(cfg, labels).g.runs, id)
  {
    if more == [] {
      assert labels + more == labels;
    } else {
      var before := labels + more[..|more| - 1];
      assert (labels + more)[..|labels + more| - 1] == before;
      TerminalRunsNeverChange(cfg, labels, more[..|more| - 1], id);
      AlwaysInv(cfg, before);
      StepKeepsTerminal(cfg, Exec(cfg, before), (labels + more)[|labels + more| - 1], id);
    }
  }

  /** Only resting states are ever stored, even when deployments of one node overlap:
      a lifecycle path is walked in full or not at all, and only its end is saved. */
  lemma OnlyRestingStatesStored(cfg: Config, labels: seq<Label>, id: NodeId)
    requires id in Exec(cfg, labels).g.nodes
    ensures var n := Exec(cfg, labels).g.nodes[id];
      n.id == id && (n.state == Provisioning || n.state == Active || n.state == Decommissioned || n.state == NodeState.Failed)
  {
    AlwaysInv(cfg, labels);
  }

  /** Acceptance of a finished saga. A call whose saga ended, and that neither met a
      port failure nor was abandoned, is answered exactly when the node it read fits:
      still provisioning for a provision, and for the other kinds active, or any state
      if the saga did not succeed. When it is not answered, it wrote no node,
      published no node-state change and no run-finished event, and its stored run
      stays open. When it is, its moves are the whole path, in legal linked edges. */
  lemma AcceptanceExact(cfg: Config, labels: seq<Label>, i: nat)
    requires i < |Exec(cfg, labels).calls|
    requires var c := Exec(cfg, labels).calls[i];
      c.pc.Finished? && c.verdict.Some?
      && !c.pc.outcome.Abandoned? && !(c.pc.outcome.Refused? && c.pc.outcome.error.Port?)
    ensures var s := Exec(cfg, labels);
      var c := s.calls[i];
      && c.read.Some? && c.runId.Some?
      && (c.pc.outcome.Answered? <==>
        if c.kind.Provision? then c.read.value.state == Provisioning
        else c.verdict.value != Succeeded || c.read.value.state == Active)
      && (c.pc.outcome.Answered? ==>
        && c.pc.outcome.run.status == c.verdict.value
        && LinkedMoves(c.target, c.read.value.state, Moves(c.posted))
        && Targets(Moves(c.posted)) == PathFor(c.kind, c.verdict.value))
      && (!c.pc.outcome.Answered? ==>
        && c.pc.outcome.error.IllegalTransition?
        && !c.wrote && Moves(c.posted) == [] && (forall e :: e in c.posted ==> !e.RunFinished?)
        && Lookup(s.g.runs, c.runId.value).Some? && IsOpen(Lookup(s.g.runs, c.runId.value).value))
  {
    AlwaysInv(cfg, labels);
    var s := Exec(cfg, labels);
    hide Exec, CallOk, StoredOk, LimiterOk, SlotsOk, IdsOk, RunsOwned, PathFor, Moves, Accepts, LinkedMoves;
    FinishedCall(s.g.runs, s.calls[i]);
  }

  lemma FinishedCall(runs: seq<Run>, c: Call)
    requires CallOk(c) && StoredOk(runs, c)
    requires c.pc.Finished? && c.verdict.Some?
    requires !c.pc.outcome.Abandoned? && !(c.pc.outcome.Refused? && c.pc.outcome.error.Port?)
    ensures c.read.Some? && c.runId.Some?
    ensures c.pc.outcome.Answered? <==>
      if c.kind.Provision? then c.read.value.state == Provisioning
      else c.verdict.value != Succeeded || c.read.value.state == Active
    ensures c.pc.outcome.Answered? ==>
      && c.pc.outcome.run.status == c.verdict.value
      && LinkedMoves(c.target, c.read.value.state, Moves(c.posted))
      && Targets(Moves(c.posted)) == PathFor(c.kind, c.verdict.value)
    ensures !c.pc.outcome.Answered? ==>
      && c.pc.outcome.error.IllegalTransition?
      && !c.wrote && Moves(c.posted) == [] && (forall e :: e in c.posted ==> !e.RunFinished?)
      && Lookup(runs, c.runId.value).Some? && IsOpen(Lookup(runs, c.runId.value).value)
  {
    assert MovesOf(c) == Moves(c.posted);
    AcceptsExactly(c.kind, c.read.value.state, c.verdict.value);
    hide LinkedMoves, LegalPath, PathFor, Accepts, Moves;
  }
}
