/** The sequential engine is one schedule of the step machine: driven by the answers
    of the same agent and without port failures, a call of the machine ends as
    `StartDeployment` does. What holds over all schedules therefore holds of it. */
module Refinement {
  import opened Domain
  import opened Repo
  import opened Saga
  import opened Plan
  import opened Lifecycle
  import opened Engine
  import opened Machine

  /** One call, driven through a list of choices. */
  function Drive(g: Shared, c: Call, xs: seq<Choice>): (Shared, Call)
    decreases |xs|
  {
    if xs == [] then (g, c)
    else
      var (g', c') := Advanced(g, c, xs[0]);
      Drive(g', c', xs[1..])
  }

  lemma {:induction false} DriveAppend(g: Shared, c: Call, xs: seq<Choice>, ys: seq<Choice>)
    ensures Drive(g, c, xs + ys) == Drive(Drive(g, c, xs).0, Drive(g, c, xs).1, ys)
    decreases |xs|
  {
    if xs == [] {
      assert xs + ys == ys;
    } else {
      var (g', c') := Advanced(g, c, xs[0]);
      assert (xs + ys)[1..] == xs[1..] + ys;
      DriveAppend(g', c', xs[1..], ys);
    }
  }

  function Acts(i: nat, xs: seq<Choice>): (ls: seq<Label>)
    ensures |ls| == |xs|
    ensures forall k :: 0 <= k < |ls| ==> ls[k].Act? && ls[k].i == i
  {
    seq(|xs|, k requires 0 <= k < |xs| => Act(i, xs[k]))
  }

  lemma ActsCons(i: nat, x: Choice, xs: seq<Choice>)
    ensures Acts(i, [x] + xs) == [Act(i, x)] + Acts(i, xs)
    ensures Acts(i, []) == []
  {
  }

  /** One step of call `i`. */
  lemma ActStep(cfg: Config, labels: seq<Label>, i: nat, x: Choice)
    requires i < |Exec(cfg, labels).calls|
    ensures var s := Exec(cfg, labels);
      var (g, c) := Advanced(s.g, s.calls[i], x);
      Exec(cfg, labels + [Act(i, x)]) == s.(g := g, calls := s.calls[i := c])
  {
    assert (labels + [Act(i, x)])[..|labels|] == labels;
    hide Advanced;
  }

  lemma UpdateTwice<T>(xs: seq<T>, i: nat, x: T, y: T)
    requires i < |xs|
    ensures xs[i := x][i := y] == xs[i := y] && xs[i := xs[i]] == xs
  {
  }

  /** Driving call `i` is running the machine with that call's steps only. */
  lemma {:induction false} DriveIsExec(cfg: Config, labels: seq<Label>, i: nat, xs: seq<Choice>)
    requires i < |Exec(cfg, labels).calls|
    ensures var s := Exec(cfg, labels);
      var (g, c) := Drive(s.g, s.calls[i], xs);
      Exec(cfg, labels + Acts(i, xs)) == s.(g := g, calls := s.calls[i := c])
    decreases |xs|
  {
    var s := Exec(cfg, labels);
    hide Exec, Advanced, Acts;
    if xs == [] {
      ActsCons(i, WORKS, []);
      assert labels + [] == labels;
      UpdateTwice(s.calls, i, s.calls[i], s.calls[i]);
    } else {
      var x, rest := xs[0], xs[1..];
      assert xs == [x] + rest;
      ActsCons(i, x, rest);
      ActStep(cfg, labels, i, x);
      ConcatAssoc(labels, [Act(i, x)], Acts(i, rest));
      var (g, c) := Advanced(s.g, s.calls[i], x);
      UpdateTwice(s.calls, i, c, Drive(g, c, rest).1);
      DriveIsExec(cfg, labels + [Act(i, x)], i, rest);
    }
  }

  /** The call at `pc`, having published `events` more than `c` and `g` had. */
  function At(g: Shared, c: Call, pc: Pc, events: seq<OpsEvent>): (Shared, Call) {
    (g.(events := g.events + events), c.(pc := pc, posted := c.posted + events))
  }

  lemma AtAgain(g: Shared, c: Call, pc: Pc, a: seq<OpsEvent>, pc': Pc, b: seq<OpsEvent>)
    ensures At(At(g, c, pc, a).0, At(g, c, pc, a).1, pc', b) == At(g, c, pc', a + b)
  {
    assert g.events + a + b == g.events + (a + b);
    assert c.posted + a + b == c.posted + (a + b);
  }

  /** Two consecutive drives, as one. */
  lemma Then(g: Shared, c: Call, xs: seq<Choice>, pc: Pc, a: seq<OpsEvent>, ys: seq<Choice>, pc': Pc, b: seq<OpsEvent>)
    requires Drive(g, c, xs) == At(g, c, pc, a)
    requires Drive(At(g, c, pc, a).0, At(g, c, pc, a).1, ys) == At(At(g, c, pc, a).0, At(g, c, pc, a).1, pc', b)
    ensures Drive(g, c, xs + ys) == At(g, c, pc', a + b)
  {
    DriveAppend(g, c, xs, ys);
    AtAgain(g, c, pc, a, pc', b);
  }

  /** The completed-step events of steps `d` to `k`. */
  function StepEvents(id: RunId, kind: DeploymentKind, d: nat, k: nat): seq<OpsEvent>
    requires d <= k <= |PlanActions(kind)|
    decreases k - d
  {
    if d == k then [] else [StepCompleted(id, PlanActions(kind)[d])] + StepEvents(id, kind, d + 1, k)
  }

  function WithSteps(run: Run, kind: DeploymentKind, k: nat): Run
    requires k <= |PlanActions(kind)|
  {
    run.(completedSteps := PlanActions(kind)[..k])
  }

  lemma StepWorks(d: nat, g: Shared, c: Call, n: Node, run: Run)
    requires d < |PlanActions(c.kind)|
    requires c.pc == InSaga(n, WithSteps(run, c.kind, d), Forward(d))
    ensures Drive(g, c, [WORKS, WORKS]) == At(g, c,
      InSaga(n, WithSteps(run, c.kind, d + 1), Forward(d + 1)), [StepCompleted(run.id, PlanActions(c.kind)[d])])
  {
    assert PlanActions(c.kind)[..d] + [PlanActions(c.kind)[d]] == PlanActions(c.kind)[..d + 1];
    DriveTwo(g, c, WORKS, WORKS);
  }

  lemma StepFails(d: nat, g: Shared, c: Call, n: Node, run: Run)
    requires d < |PlanActions(c.kind)|
    requires c.pc == InSaga(n, WithSteps(run, c.kind, d), Forward(d))
    ensures Drive(g, c, [FAILS]) == At(g, c, InSaga(n, WithSteps(run, c.kind, d), Backward(d, d, true)), [])
  {
    DriveOne(g, c, FAILS);
    assert g.events + [] == g.events && c.posted + [] == c.posted;
  }

  /** Where the forward part of a saga leaves the call, once `k` steps completed. */
  function ForwardPc(n: Node, run: Run, kind: DeploymentKind, k: nat, failed: bool): Pc
    requires k <= |PlanActions(kind)|
  {
    InSaga(n, WithSteps(run, kind, k), if failed then Backward(k, k, true) else Forward(k))
  }

  /** Driven by `xs`, the call runs the steps from `d` on as `p` says. */
  ghost predicate RunsForward<W>(xs: seq<Choice>, d: nat, p: Progress<W>, g: Shared, c: Call, n: Node, run: Run) {
    && d + p.done <= |PlanActions(c.kind)|
    && Drive(g, c, xs) == At(g, c, ForwardPc(n, run, c.kind, d + p.done, p.failed),
      StepEvents(run.id, c.kind, d, d + p.done))
  }

  lemma ForwardOneMore<W>(
    rest: seq<Choice>, d: nat, p: Progress<W>, g: Shared, c: Call, n: Node, run: Run, g': Shared, c': Call)
    requires d < |PlanActions(c.kind)| && c.pc == InSaga(n, WithSteps(run, c.kind, d), Forward(d))
    requires (g', c') == At(g, c, ForwardPc(n, run, c.kind, d + 1, false), [StepCompleted(run.id, PlanActions(c.kind)[d])])
    requires RunsForward(rest, d + 1, p, g', c', n, run)
    ensures RunsForward([WORKS, WORKS] + rest, d, ShiftBy(1, p), g, c, n, run)
  {
    hide Drive, PlanActions;
    StepWorks(d, g, c, n, run);
    Then(g, c, [WORKS, WORKS], ForwardPc(n, run, c.kind, d + 1, false), [StepCompleted(run.id, PlanActions(c.kind)[d])], rest,
      ForwardPc(n, run, c.kind, d + 1 + p.done, p.failed), StepEvents(run.id, c.kind, d + 1, d + 1 + p.done));
  }

  lemma {:induction false} DriveForward<W>(
    b: Behaviour<PlanStep, W>, d: nat, w: W, g: Shared, c: Call, n: Node, run: Run) returns (xs: seq<Choice>)
    requires d <= |BuildPlan(c.kind)|
    requires c.pc == InSaga(n, WithSteps(run, c.kind, d), Forward(d))
    ensures RunsForward(xs, d, RunForward(b, BuildPlan(c.kind)[d..], w), g, c, n, run)
    decreases |BuildPlan(c.kind)| - d
  {
    var steps := BuildPlan(c.kind);
    SuffixStep(b, steps, d, w);
    xs := [];
    if d == |steps| {
      assert g.events + [] == g.events && c.posted + [] == c.posted;
    } else {
      var a := b.execute(steps[d], w);
      if !a.ok {
        xs := [FAILS];
        StepFails(d, g, c, n, run);
      } else {
        var (g', c') := At(g, c, ForwardPc(n, run, c.kind, d + 1, false), [StepCompleted(run.id, PlanActions(c.kind)[d])]);
        hide BuildPlan, RunForward, RunsForward, Drive, StepEvents;
        var rest := DriveForward(b, d + 1, a.world, g', c', n, run);
        ForwardOneMore(rest, d, RunForward(b, steps[d + 1..], a.world), g, c, n, run, g', c');
        xs := [WORKS, WORKS] + rest;
      }
    }
  }

  lemma SuffixStep<S, W>(b: Behaviour<S, W>, steps: seq<S>, d: nat, w: W)
    requires d <= |steps|
    ensures RunForward(b, steps[d..], w) ==
      if d == |steps| then Progress(0, false, w)
      else
        var a := b.execute(steps[d], w);
        if !a.ok then Progress(0, true, a.world) else ShiftBy(1, RunForward(b, steps[d + 1..], a.world))
  {
    if d < |steps| {
      assert steps[d..][1..] == steps[d + 1..];
    }
  }

  lemma DriveOne(g: Shared, c: Call, x: Choice)
    ensures Drive(g, c, [x]) == Advanced(g, c, x)
  {
    assert [x][1..] == [];
  }

  lemma DriveTwo(g: Shared, c: Call, x: Choice, y: Choice)
    ensures Drive(g, c, [x, y]) == Advanced(Advanced(g, c, x).0, Advanced(g, c, x).1, y)
  {
    assert [x, y][1..] == [y];
    DriveOne(Advanced(g, c, x).0, Advanced(g, c, x).1, y);
  }

  lemma UndoStep(k: nat, left: nat, clean: bool, ok: bool, g: Shared, c: Call, n: Node, run: Run)
    requires 0 < left <= k < |PlanActions(c.kind)| && c.pc == InSaga(n, run, Backward(k, left, clean))
    ensures Drive(g, c, if ok then [WORKS, WORKS] else [FAILS]) == At(g, c, InSaga(n, run, Backward(k, left - 1, clean && ok)),
      if ok then [StepCompensated(run.id, PlanActions(c.kind)[left - 1])] else [])
  {
    if ok {
      DriveTwo(g, c, WORKS, WORKS);
    } else {
      DriveOne(g, c, FAILS);
      assert g.events + [] == g.events && c.posted + [] == c.posted;
    }
  }

  lemma {:induction false} DriveBackward<W>(
    b: Behaviour<PlanStep, W>, k: nat, left: nat, clean: bool, w: W, g: Shared, c: Call, n: Node, run: Run)
    returns (xs: seq<Choice>)
    requires left <= k < |BuildPlan(c.kind)| && c.pc == InSaga(n, run, Backward(k, left, clean))
    requires b.action == ActionOf
    ensures var done := BuildPlan(c.kind)[..left];
      var u := RunBackward(b, done, w);
      Drive(g, c, xs) == At(g, c, InSaga(n, run, Backward(k, 0, clean && AllOk(u.oks))),
        CompensatedEvents(b, run.id, done, u.oks))
    decreases left
  {
    assert Drive(g, c, []) == (g, c);
    hide Drive, Advanced, BuildPlan, PlanActions, AllOk;
    var done := BuildPlan(c.kind)[..left];
    xs := [];
    if left == 0 {
      assert g.events + [] == g.events && c.posted + [] == c.posted;
      AllOkNone();
    } else {
      hide RunBackward, CompensatedEvents;
      assert done[..left - 1] == BuildPlan(c.kind)[..left - 1];
      UnwindStep(b, run.id, done, w);
      var a := b.compensate(done[left - 1], w);
      var oks := RunBackward(b, done[..left - 1], a.world).oks;
      AllOkCons(a.ok, oks);
      var next := InSaga(n, run, Backward(k, left - 1, clean && a.ok));
      var first := if a.ok then [WORKS, WORKS] else [FAILS];
      var shown := if a.ok then [StepCompensated(run.id, PlanActions(c.kind)[left - 1])] else [];
      UndoStep(k, left, clean, a.ok, g, c, n, run);
      var (g', c') := At(g, c, next, shown);
      var rest := DriveBackward(b, k, left - 1, clean && a.ok, a.world, g', c', n, run);
      Then(g, c, first, next, shown, rest, InSaga(n, run, Backward(k, 0, clean && a.ok && AllOk(oks))),
        CompensatedEvents(b, run.id, done[..left - 1], oks));
      xs := first + rest;
    }
  }

  lemma AllOkNone()
    ensures AllOk([])
  {
  }

  /** The moves of a legal path, from the front. */
  function MovesFrom(id: NodeId, source: NodeState, path: seq<NodeState>): seq<OpsEvent>
    decreases |path|
  {
    if path == [] then [] else [NodeStateChanged(id, source, path[0])] + MovesFrom(id, path[0], path[1..])
  }

  lemma MoveWorks(g: Shared, c: Call, n: Node, run: Run, status: RunStatus, path: seq<NodeState>, at: Instant)
    requires c.pc == Walking(n, run, status, path) && path != [] && n.state.CanTransitionTo(path[0])
    ensures Drive(g, c, [WorksAt(at), WORKS]) == At(g, c,
      Walking(n.(state := path[0], updatedAt := at), run, status, path[1..]), [NodeStateChanged(n.id, n.state, path[0])])
  {
    DriveTwo(g, c, WorksAt(at), WORKS);
  }

  lemma WalkedOne(n: Node, path: seq<NodeState>, i: nat, clock: nat -> Instant)
    requires path != []
    ensures Walked(n.(state := path[0], updatedAt := clock(i)), path[1..], i + 1, clock) == Walked(n, path, i, clock)
  {
  }

  /** A legal walk whose moves are made at the clock readings from number `i` on. */
  lemma {:induction false} DriveWalk(
    g: Shared, c: Call, n: Node, run: Run, status: RunStatus, path: seq<NodeState>, i: nat, clock: nat -> Instant)
    returns (xs: seq<Choice>)
    requires c.pc == Walking(n, run, status, path) && LegalPath(n.state, path)
    ensures Drive(g, c, xs) == At(g, c, Walking(Walked(n, path, i, clock), run, status, []), MovesFrom(n.id, n.state, path))
    decreases |path|
  {
    xs := [];
    if path == [] {
      assert g.events + [] == g.events && c.posted + [] == c.posted;
    } else {
      hide Drive, Advanced, Walked;
      var n1 := n.(state := path[0], updatedAt := clock(i));
      var next, e := Walking(n1, run, status, path[1..]), NodeStateChanged(n.id, n.state, path[0]);
      MoveWorks(g, c, n, run, status, path, clock(i));
      WalkedOne(n, path, i, clock);
      var (g', c') := At(g, c, next, [e]);
      var rest := DriveWalk(g', c', n1, run, status, path[1..], i + 1, clock);
      Then(g, c, [WorksAt(clock(i)), WORKS], next, [e], rest, Walking(Walked(n, path, i, clock), run, status, []),
        MovesFrom(n.id, path[0], path[1..]));
      xs := [WorksAt(clock(i)), WORKS] + rest;
    }
  }

  // The two ways of listing the same events.

  lemma {:induction false} MovesAgree(id: NodeId, source: NodeState, path: seq<NodeState>)
    ensures MovesFrom(id, source, path) == MoveEvents(id, source, path)
    decreases |path|
  {
    if path != [] {
      MovesAgree(id, path[0], path[1..]);
      MoveEventsCons(id, source, path[0], path[1..]);
      assert [path[0]] + path[1..] == path;
    }
  }

  lemma {:induction false} MoveEventsCons(id: NodeId, source: NodeState, first: NodeState, rest: seq<NodeState>)
    ensures MoveEvents(id, source, [first] + rest)
      == [NodeStateChanged(id, source, first)] + MoveEvents(id, first, rest)
  {
    var path := [first] + rest;
    if rest == [] {
      assert path == [first] && path[..0] == [];
    } else {
      var k := |rest| - 1;
      MoveEventsCons(id, source, first, rest[..k]);
      assert path[..|path| - 1] == [first] + rest[..k];
    }
  }

  lemma {:induction false} StepsAgree<W>(b: Behaviour<PlanStep, W>, id: RunId, kind: DeploymentKind, d: nat, k: nat)
    requires d <= k <= |BuildPlan(kind)| && b.action == ActionOf
    ensures CompletedEvents(b, id, BuildPlan(kind)[..d]) + StepEvents(id, kind, d, k)
      == CompletedEvents(b, id, BuildPlan(kind)[..k])
    decreases k - d
  {
    if d < k {
      var steps := BuildPlan(kind);
      StepsAgree(b, id, kind, d + 1, k);
      assert steps[..d + 1][..d] == steps[..d];
      var e := StepCompleted(id, PlanActions(kind)[d]);
      assert CompletedEvents(b, id, steps[..d + 1]) == CompletedEvents(b, id, steps[..d]) + [e];
      hide CompletedEvents, BuildPlan, PlanActions;
      ConcatAssoc(CompletedEvents(b, id, steps[..d]), [e], StepEvents(id, kind, d + 1, k));
    }
  }

  /** The whole saga of a call: from its first agent call to the start of its walk. */
  lemma DriveSaga<W>(b: Behaviour<PlanStep, W>, w: W, g: Shared, c: Call, n: Node, run: Run) returns (xs: seq<Choice>)
    requires c.pc == InSaga(n, run, Forward(0)) && run.completedSteps == []
    requires b.action == ActionOf
    ensures var s := RunSaga(b, BuildPlan(c.kind), w);
      Drive(g, c, xs) == At(g, c, InSaga(n, WithSteps(run, c.kind, s.done), EndPhase(s, |BuildPlan(c.kind)|)),
        SagaEvents(b, run.id, BuildPlan(c.kind), s))
  {
    var steps := BuildPlan(c.kind);
    assert steps[0..] == steps && steps[..0] == [] && PlanActions(c.kind)[..0] == [];
    var p := RunForward(b, steps, w);
    var s := RunSaga(b, steps, w);
    xs := DriveForward(b, 0, w, g, c, n, run);
    StepsAgree(b, run.id, c.kind, 0, p.done);
    var shown := CompletedEvents(b, run.id, steps[..p.done]);
    assert StepEvents(run.id, c.kind, 0, p.done) == [] + StepEvents(run.id, c.kind, 0, p.done) == shown == shown + [];
    if p.failed {
      var middle := InSaga(n, WithSteps(run, c.kind, p.done), Backward(p.done, p.done, true));
      var (g', c') := At(g, c, middle, shown);
      var back := DriveBackward(b, p.done, p.done, true, p.world, g', c', n, WithSteps(run, c.kind, p.done));
      var u := RunBackward(b, steps[..p.done], p.world);
      Then(g, c, xs, middle, shown, back,
        InSaga(n, WithSteps(run, c.kind, p.done), Backward(p.done, 0, AllOk(u.oks))),
        CompensatedEvents(b, run.id, steps[..p.done], u.oks));
      xs := xs + back;
    }
  }

  function EndPhase<W>(s: SagaRun<W>, n: nat): Phase {
    if s.done == n then Forward(n) else Backward(s.done, 0, s.status == RolledBack)
  }

  /** The answer of a call that was not abandoned. */
  function ResultOf(outcome: Outcome): Result<Run>
    requires !outcome.Abandoned?
  {
    match outcome
    case Answered(run) => Ok(run)
    case Refused(error) => Failure(error)
  }

  /** The machine ended the call as the sequential engine ends a deployment that reads the
      same clock: the same answer, records, nodes and events. */
  ghost predicate EndsLikeEngine<W>(
    agent: NodeAgent<W>, clock: nat -> Instant, w: W, g: Shared, c: Call, g': Shared, c': Call)
    requires c.target in g.nodes
  {
    && g'.nextRun == g.nextRun + 1
    && c'.pc.Finished? && !c'.pc.outcome.Abandoned?
    && Ends(agent, clock, g.nodes, g.runs, g.nextRun, w, g.events, c.target, c.kind, ResultOf(c'.pc.outcome),
        g'.nodes, g'.runs, g'.events)
  }

  /** The call once its run is open: slot taken, node read, record stored, start published. */
  function OpenedCall(g: Shared, c: Call, n: Node, clock: nat -> Instant): (Shared, Call)
    requires g.free > 0
  {
    var first := OpenedRun(g.nextRun, n, c.kind, clock);
    At(g.(free := g.free - 1, nextRun := g.nextRun + 1, runs := Upsert(g.runs, first)),
      c.(read := Some(n), runId := Some(g.nextRun)),
      InSaga(n, first, Forward(0)), [RunStarted(g.nextRun, n.id, c.kind)])
  }

  /** The call once it is about to take its id. */
  lemma DriveReading(g: Shared, c: Call, n: Node) returns (xs: seq<Choice>)
    requires c.pc == NeedSlot && g.free > 0 && Known(g.nodes, c.target, c.kind) && g.nodes[c.target] == n
    ensures Drive(g, c, xs) == (g.(free := g.free - 1), c.(read := Some(n), pc := NeedId(n)))
  {
    xs := [WORKS, WORKS];
    DriveTwo(g, c, WORKS, WORKS);
    if c.kind.Failover? {
      var (g2, c2) := Drive(g, c, xs);
      DriveAppend(g, c, xs, [WORKS]);
      DriveOne(g2, c2, WORKS);
      xs := xs + [WORKS];
    }
  }

  lemma DriveOpening(g: Shared, c: Call, n: Node, clock: nat -> Instant) returns (xs: seq<Choice>)
    requires c.pc == NeedSlot && g.free > 0 && Known(g.nodes, c.target, c.kind) && g.nodes[c.target] == n
    ensures Drive(g, c, xs) == OpenedCall(g, c, n, clock)
  {
    var begun := DriveReading(g, c, n);
    var (g3, c3) := Drive(g, c, begun);
    DriveTwo(g3, c3, WorksAt(clock(0)), WORKS);
    var (g5, c5) := Drive(g3, c3, [WorksAt(clock(0)), WORKS]);
    DriveOne(g5, c5, WORKS);
    DriveAppend(g3, c3, [WorksAt(clock(0)), WORKS], [WORKS]);
    DriveAppend(g, c, begun, [WorksAt(clock(0)), WORKS] + [WORKS]);
    xs := begun + ([WorksAt(clock(0)), WORKS] + [WORKS]);
    hide Drive, Upsert;
  }

  /** The end of an accepted call, from the last move to the answer. */
  lemma DriveAccepted(
    g: Shared, c: Call, n: Node, run: Run, status: RunStatus, upgradedAt: Instant, finishedAt: Instant)
    returns (xs: seq<Choice>)
    requires c.pc == Walking(n, run, status, [])
    ensures var final := run.(status := status, finishedAt := Some(finishedAt));
      var n' := Versioned(n, c.kind, status, upgradedAt);
      var (g', c') := Drive(g, c, xs);
      && g' == g.(free := g.free + 1, nodes := g.nodes[n.id := n'], runs := Upsert(g.runs, final),
          saves := g.saves + [Deployed(c.kind, status, n')], events := g.events + [RunFinished(run.id, status)])
      && c'.pc == Finished(Answered(final))
  {
    DriveTwo(g, c, WorksAt(upgradedAt), WorksAt(finishedAt));
    var (g2, c2) := Drive(g, c, [WorksAt(upgradedAt), WorksAt(finishedAt)]);
    assert c2.pc.NeedLastSave?;
    DriveTwo(g2, c2, WORKS, WORKS);
    DriveAppend(g, c, [WorksAt(upgradedAt), WorksAt(finishedAt)], [WORKS, WORKS]);
    xs := [WorksAt(upgradedAt), WorksAt(finishedAt)] + [WORKS, WORKS];
  }

  /** From the end of the saga to the end of a call that is accepted. */
  lemma DriveConcluded(g: Shared, c: Call, n: Node, run: Run, status: RunStatus, clock: nat -> Instant)
    returns (xs: seq<Choice>)
    requires c.pc == Walking(n, run, status, PathFor(c.kind, status)) && Accepts(c.kind, n.state, status)
    ensures var final := run.(status := status, finishedAt := Some(clock(2 + |PathFor(c.kind, status)|)));
      var (g', c') := Drive(g, c, xs);
      && c'.pc == Finished(Answered(final))
      && g'.nodes == g.nodes[n.id := SavedNode(n, c.kind, status, clock)]
      && g'.runs == Upsert(g.runs, final) && g'.nextRun == g.nextRun
      && g'.events == g.events + MoveEvents(n.id, n.state, PathFor(c.kind, status)) + [RunFinished(run.id, status)]
  {
    var path := PathFor(c.kind, status);
    AcceptsExactly(c.kind, n.state, status);
    MovesAgree(n.id, n.state, path);
    hide Drive, PathFor, Accepts, LegalPath, Upsert, MoveEvents, MovesFrom;
    var walk := DriveWalk(g, c, n, run, status, path, 1, clock);
    var (g2, c2) := Drive(g, c, walk);
    var rest := DriveAccepted(g2, c2, Walked(n, path, 1, clock), run, status, clock(1 + |path|), clock(2 + |path|));
    DriveAppend(g, c, walk, rest);
    xs := walk + rest;
  }

  /** From the end of the saga to the end of a call that is not. */
  lemma DriveRefused(g: Shared, c: Call, n: Node, run: Run, status: RunStatus) returns (xs: seq<Choice>)
    requires c.pc == Walking(n, run, status, PathFor(c.kind, status)) && !Accepts(c.kind, n.state, status)
    ensures var (g', c') := Drive(g, c, xs);
      && c'.pc == Finished(Refused(Refusal(c.kind, n.state, status)))
      && g'.nodes == g.nodes && g'.runs == g.runs && g'.nextRun == g.nextRun && g'.events == g.events
  {
    AcceptsExactly(c.kind, n.state, status);
    DriveOne(g, c, WORKS);
    xs := [WORKS];
  }

  /** The lifecycle walk and the saves, from the end of the saga. */
  lemma DriveEnding(g: Shared, c: Call, n: Node, run: Run, ph: Phase, status: RunStatus, clock: nat -> Instant)
    returns (xs: seq<Choice>)
    requires c.pc == InSaga(n, run, ph) && ph.Valid(|PlanActions(c.kind)|) && ph.IsOver(|PlanActions(c.kind)|)
    requires status == ph.Status()
    ensures var (g', c') := Drive(g, c, xs);
      if Accepts(c.kind, n.state, status) then
        var final := run.(status := status, finishedAt := Some(clock(2 + |PathFor(c.kind, status)|)));
        && c'.pc == Finished(Answered(final))
        && g'.nodes == g.nodes[n.id := SavedNode(n, c.kind, status, clock)]
        && g'.runs == Upsert(g.runs, final) && g'.nextRun == g.nextRun
        && g'.events == g.events + MoveEvents(n.id, n.state, PathFor(c.kind, status)) + [RunFinished(run.id, status)]
      else
        && c'.pc == Finished(Refused(Refusal(c.kind, n.state, status)))
        && g'.nodes == g.nodes && g'.runs == g.runs && g'.nextRun == g.nextRun && g'.events == g.events
  {
    var (g1, c1) := Advanced(g, c, WORKS);
    assert c1.pc == Walking(n, run, status, PathFor(c.kind, status)) && g1 == g && c1.kind == c.kind;
    DriveOne(g, c, WORKS);
    hide Drive, Advanced, PathFor, Accepts, Upsert, MoveEvents, PlanActions;
    if Accepts(c.kind, n.state, status) {
      xs := DriveConcluded(g1, c1, n, run, status, clock);
    } else {
      xs := DriveRefused(g1, c1, n, run, status);
    }
    DriveAppend(g, c, [WORKS], xs);
    xs := [WORKS] + xs;
  }

  /** The end of the drive, read as the end of a deployment. */
  lemma EndingIsEnds<W>(
    agent: NodeAgent<W>, clock: nat -> Instant, w: W, g: Shared, c: Call, n: Node, s: SagaRun<W>, g2: Shared, g': Shared, c': Call)
    requires c.target in g.nodes && g.nodes[c.target] == n && n.id == c.target
    requires s == SagaOf(agent, g.nodes, n, c.kind, w)
    requires g2.nodes == g.nodes && g2.nextRun == g.nextRun + 1
    requires g2.runs == Upsert(g.runs, OpenedRun(g.nextRun, n, c.kind, clock))
    requires g2.events == g.events + [RunStarted(g.nextRun, n.id, c.kind)]
      + SagaEvents(StepBehaviour(ContextOf(g.nodes, n, c.kind), agent), g.nextRun, BuildPlan(c.kind), s)
    requires var run := WithSteps(OpenedRun(g.nextRun, n, c.kind, clock), c.kind, s.done);
      if Accepts(c.kind, n.state, s.status) then
        var final := run.(status := s.status, finishedAt := Some(clock(2 + |PathFor(c.kind, s.status)|)));
        && c'.pc == Finished(Answered(final))
        && g'.nodes == g2.nodes[n.id := SavedNode(n, c.kind, s.status, clock)]
        && g'.runs == Upsert(g2.runs, final) && g'.nextRun == g2.nextRun
        && g'.events == g2.events + MoveEvents(n.id, n.state, PathFor(c.kind, s.status)) + [RunFinished(run.id, s.status)]
      else
        && c'.pc == Finished(Refused(Refusal(c.kind, n.state, s.status)))
        && g'.nodes == g2.nodes && g'.runs == g2.runs && g'.nextRun == g2.nextRun && g'.events == g2.events
    ensures EndsLikeEngine(agent, clock, w, g, c, g', c')
  {
    hide Upsert, SagaEvents, MoveEvents, SagaOf, Accepts, SavedNode, BuildPlan, PlanActions, PathFor, StepBehaviour, ContextOf;
  }

  /** A fresh call on a known target can always be driven, by the agent's own answers and
      any clock readings, to the end the sequential engine reaches. */
  lemma CallEndsLikeEngine<W>(agent: NodeAgent<W>, clock: nat -> Instant, w: W, g: Shared, c: Call)
    returns (xs: seq<Choice>)
    requires c.pc == NeedSlot && g.free > 0 && Known(g.nodes, c.target, c.kind) && NodesOk(g)
    ensures var (g', c') := Drive(g, c, xs);
      EndsLikeEngine(agent, clock, w, g, c, g', c')
  {
    var n := g.nodes[c.target];
    var b := StepBehaviour(ContextOf(g.nodes, n, c.kind), agent);
    assert b.action == ActionOf && n.id == c.target;
    var s := SagaOf(agent, g.nodes, n, c.kind, w);
    assert EndPhase(s, |BuildPlan(c.kind)|).Status() == s.status by {
      StatusSays(b, BuildPlan(c.kind), w);
    }
    hide Drive, Upsert, SagaEvents, MoveEvents, Accepts, SavedNode, BuildPlan, PlanActions, PathFor, StepBehaviour, ContextOf, RunSaga, EndsLikeEngine;
    var first := OpenedRun(g.nextRun, n, c.kind, clock);
    var open := DriveOpening(g, c, n, clock);
    var (g1, c1) := OpenedCall(g, c, n, clock);
    var saga := DriveSaga(b, w, g1, c1, n, first);
    var (g2, c2) := Drive(g1, c1, saga);
    var ending := DriveEnding(g2, c2, n, WithSteps(first, c.kind, s.done), EndPhase(s, |BuildPlan(c.kind)|), s.status, clock);
    var (g', c') := Drive(g2, c2, ending);
    EndingIsEnds(agent, clock, w, g, c, n, s, g2, g', c');
    DriveAppend(g, c, open, saga);
    DriveAppend(g, c, open + saga, ending);
    xs := open + saga + ending;
  }

  /** The same, as an execution: after any history that leaves a fresh call with a free
      slot and a known target, some steps of that call alone end it as
      `StartDeployment` would end it under the same clock, with the same answer, records,
      node and events. */
  lemma EngineIsASchedule<W>(agent: NodeAgent<W>, clock: nat -> Instant, w: W, cfg: Config, labels: seq<Label>, i: nat)
    returns (more: seq<Label>)
    requires i < |Exec(cfg, labels).calls|
    requires var s := Exec(cfg, labels);
      s.calls[i].pc == NeedSlot && s.g.free > 0 && Known(s.g.nodes, s.calls[i].target, s.calls[i].kind)
    ensures forall k :: 0 <= k < |more| ==> more[k].Act? && more[k].i == i
    ensures var s, s' := Exec(cfg, labels), Exec(cfg, labels + more);
      && |s'.calls| == |s.calls|
      && (forall j :: 0 <= j < |s.calls| && j != i ==> s'.calls[j] == s.calls[j])
      && EndsLikeEngine(agent, clock, w, s.g, s.calls[i], s'.g, s'.calls[i])
  {
    AlwaysInv(cfg, labels);
    var s := Exec(cfg, labels);
    assert NodesOk(s.g);
    hide Exec, Drive, Inv, NodesOk, EndsLikeEngine;
    var xs := CallEndsLikeEngine(agent, clock, w, s.g, s.calls[i]);
    DriveIsExec(cfg, labels, i, xs);
    more := Acts(i, xs);
  }
}
