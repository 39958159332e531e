/** The compensating-saga executor, for any list of steps over any world. */
module Saga {
  import opened Domain
  import opened Records

  /** What a step's effect returns: whether it succeeded, and the world it leaves. */
  datatype Answer<+W> = Answer(ok: bool, world: W)

  /** The operations of a saga step, each as a function of the step and the world. */
  datatype Behaviour<!S, !W> = Behaviour(
    action: S -> OpsActionKind,
    execute: (S, W) -> Answer<W>,
    compensate: (S, W) -> Answer<W>)

  datatype Progress<+W> = Progress(done: nat, failed: bool, world: W)

  /** Executes steps until the first failure. */
  function RunForward<S, W>(b: Behaviour<S, W>, steps: seq<S>, w: W): (p: Progress<W>)
    ensures p.done <= |steps|
    ensures p.failed <==> p.done < |steps|
  {
    if steps == [] then Progress(0, false, w)
    else
      var a := b.execute(steps[0], w);
      if !a.ok then Progress(0, true, a.world)
      else
        var p := RunForward(b, steps[1..], a.world);
        Progress(p.done + 1, p.failed, p.world)
  }

  datatype Unwound<+W> = Unwound(oks: seq<bool>, world: W)

  /** Compensates completed steps, last one first, carrying on past failures. */
  function RunBackward<S, W>(b: Behaviour<S, W>, done: seq<S>, w: W): (u: Unwound<W>)
    ensures |u.oks| == |done|
  {
    if done == [] then Unwound([], w)
    else
      var a := b.compensate(done[|done| - 1], w);
      var u := RunBackward(b, done[..|done| - 1], a.world);
      Unwound([a.ok] + u.oks, u.world)
  }

  predicate AllOk(oks: seq<bool>) {
    forall i :: 0 <= i < |oks| ==> oks[i]
  }

  /** A finished saga: `done` steps completed, and `undone[j]` says whether the
      `j`-th compensation, counted from the last completed step, succeeded. */
  datatype SagaRun<+W> = SagaRun(status: RunStatus, done: nat, undone: seq<bool>, world: W)

  function RunSaga<S, W>(b: Behaviour<S, W>, steps: seq<S>, w: W): (r: SagaRun<W>)
    ensures r.done <= |steps|
    ensures |r.undone| == if r.done == |steps| then 0 else r.done
  {
    var p := RunForward(b, steps, w);
    if !p.failed then SagaRun(Succeeded, p.done, [], p.world)
    else
      var u := RunBackward(b, steps[..p.done], p.world);
      SagaRun(if AllOk(u.oks) then RolledBack else RunFailed, p.done, u.oks, u.world)
  }

  function Actions<S, W>(b: Behaviour<S, W>, steps: seq<S>): (r: seq<OpsActionKind>)
    ensures |r| == |steps|
    ensures forall i :: 0 <= i < |r| ==> r[i] == b.action(steps[i])
  {
    if steps == [] then []
    else Actions(b, steps[..|steps| - 1]) + [b.action(steps[|steps| - 1])]
  }

  function CompletedEvents<S, W>(b: Behaviour<S, W>, id: RunId, steps: seq<S>): seq<OpsEvent> {
    if steps == [] then []
    else CompletedEvents(b, id, steps[..|steps| - 1]) + [StepCompleted(id, b.action(steps[|steps| - 1]))]
  }

  /** One event per successful compensation, in the order they ran. */
  function CompensatedEvents<S, W>(b: Behaviour<S, W>, id: RunId, done: seq<S>, oks: seq<bool>): seq<OpsEvent>
    requires |done| == |oks|
  {
    if done == [] then []
    else
      (if oks[0] then [StepCompensated(id, b.action(done[|done| - 1]))] else [])
      + CompensatedEvents(b, id, done[..|done| - 1], oks[1..])
  }

  function SagaEvents<S, W>(b: Behaviour<S, W>, id: RunId, steps: seq<S>, r: SagaRun<W>): seq<OpsEvent>
    requires r.done <= |steps|
    requires |r.undone| == if r.done == |steps| then 0 else r.done
  {
    CompletedEvents(b, id, steps[..r.done])
    + if r.done == |steps| then [] else CompensatedEvents(b, id, steps[..r.done], r.undone)
  }

  /** The executor object: it publishes to an event log. */
  class SagaExecutor {
    const events: EventLog

    constructor (events: EventLog)
      ensures this.events == events
    {
      this.events := events;
    }

    /** Compensates `completed` in reverse, publishing each success. */
    method Unwind<S, W>(b: Behaviour<S, W>, completed: seq<S>, w: W, run: DeploymentRun)
      returns (allCompensated: bool, w': W, ghost oks: seq<bool>)
      modifies events
      ensures Unwound(oks, w') == RunBackward(b, completed, w)
      ensures allCompensated <==> AllOk(oks)
      ensures events.entries == old(events.entries) + CompensatedEvents(b, run.id, completed, oks)
    {
      ghost var all := RunBackward(b, completed, w);
      ghost var published := CompensatedEvents(b, run.id, completed, all.oks);
      ghost var rest := all;
      allCompensated, w', oks := true, w, [];
      var left := |completed|;
      assert completed[..left] == completed;
      hide RunBackward, CompensatedEvents, AllOk;
      while left > 0
        invariant 0 <= left <= |completed|
        invariant |oks| == |completed| - left
        invariant rest == RunBackward(b, completed[..left], w')
        invariant oks + rest.oks == all.oks && rest.world == all.world
        invariant allCompensated <==> AllOk(oks)
        invariant events.entries + CompensatedEvents(b, run.id, completed[..left], rest.oks)
          == old(events.entries) + published
      {
        var done := completed[left - 1];
        assert completed[..left][..left - 1] == completed[..left - 1];
        UnwindStep(b, run.id, completed[..left], w');
        var a := b.compensate(done, w');
        var action := b.action(done);
        rest := RunBackward(b, completed[..left - 1], a.world);
        ConcatAssoc(oks, [a.ok], rest.oks);
        AllOkSnoc(oks, a.ok);
        ghost var later := CompensatedEvents(b, run.id, completed[..left - 1], rest.oks);
        ConcatAssoc(events.entries, if a.ok then [StepCompensated(run.id, action)] else [], later);
        if a.ok {
          events.Publish(StepCompensated(run.id, action));
        } else {
          allCompensated := false;
        }
        oks := oks + [a.ok];
        w' := a.world;
        left := left - 1;
      }
      assert completed[..0] == [];
      NothingLeft(b, run.id, w');
    }

    /** Runs the steps, recording progress into `run`, and returns the terminal status. */
    method Run<S, W>(b: Behaviour<S, W>, steps: seq<S>, w: W, run: DeploymentRun)
      returns (status: RunStatus, w': W, ghost r: SagaRun<W>)
      modifies run`completedSteps, events
      ensures r == RunSaga(b, steps, w) && status == r.status && w' == r.world
      ensures run.completedSteps == old(run.completedSteps) + Actions(b, steps[..r.done])
      ensures events.entries == old(events.entries) + SagaEvents(b, run.id, steps, r)
    {
      var completed: seq<S> := [];
      w' := w;
      ForwardStart(b, steps, w);
      assert Actions(b, completed) == [] && CompletedEvents(b, run.id, completed) == [];
      ghost var log, steps0 := events.entries, run.completedSteps;
      hide *;
      for i := 0 to |steps|
        invariant completed == steps[..i]
        invariant StillForward(b, steps, w, i, w')
        invariant run.completedSteps == steps0 + Actions(b, completed)
        invariant events.entries == log + CompletedEvents(b, run.id, completed)
      {
        var step := steps[i];
        ForwardStep(b, steps, w, i, w');
        var a := b.execute(step, w');
        w' := a.world;
        if !a.ok {
          var allCompensated;
          ghost var oks;
          allCompensated, w', oks := Unwind(b, completed, w', run);
          status := if allCompensated then RolledBack else RunFailed;
          r := FailedSaga(b, run.id, steps, w, i, a.world, Unwound(oks, w'), log);
          return;
        }
        var action := b.action(step);
        StepRecorded(b, run.id, completed, step, steps0, log);
        run.RecordStep(action);
        events.Publish(StepCompleted(run.id, action));
        completed := completed + [step];
        PrefixSnoc(steps, i);
      }
      status, r := Succeeded, SagaRun(Succeeded, |steps|, [], w');
      FinishedSaga(b, run.id, steps, w, w');
    }
  }

  /** After `i` successes the rest of the run starts from `w'`. */
  ghost predicate StillForward<S, W>(b: Behaviour<S, W>, steps: seq<S>, w: W, i: nat, w': W)
    requires i <= |steps|
  {
    RunForward(b, steps, w) == ShiftBy(i, RunForward(b, steps[i..], w'))
  }

  lemma ForwardStart<S, W>(b: Behaviour<S, W>, steps: seq<S>, w: W)
    ensures StillForward(b, steps, w, 0, w)
  {
    assert steps[0..] == steps;
  }

  lemma ForwardStep<S, W>(b: Behaviour<S, W>, steps: seq<S>, w: W, i: nat, w': W)
    requires i < |steps| && StillForward(b, steps, w, i, w')
    ensures var a := b.execute(steps[i], w');
      && (a.ok ==> StillForward(b, steps, w, i + 1, a.world))
      && (!a.ok ==> RunForward(b, steps, w) == Progress(i, true, a.world))
  {
    assert steps[i..][0] == steps[i] && steps[i..][1..] == steps[i + 1..];
  }

  lemma StepRecorded<S, W>(
    b: Behaviour<S, W>, id: RunId, completed: seq<S>, step: S, before: seq<OpsActionKind>, log: seq<OpsEvent>)
    ensures before + Actions(b, completed) + [b.action(step)] == before + Actions(b, completed + [step])
    ensures log + CompletedEvents(b, id, completed) + [StepCompleted(id, b.action(step))]
      == log + CompletedEvents(b, id, completed + [step])
  {
    assert (completed + [step])[..|completed|] == completed;
    ConcatAssoc(before, Actions(b, completed), [b.action(step)]);
    ConcatAssoc(log, CompletedEvents(b, id, completed), [StepCompleted(id, b.action(step))]);
  }

  lemma FailedSaga<S, W>(
    b: Behaviour<S, W>, id: RunId, steps: seq<S>, w: W, k: nat, w1: W, u: Unwound<W>, log: seq<OpsEvent>)
    returns (r: SagaRun<W>)
    requires k < |steps| && RunForward(b, steps, w) == Progress(k, true, w1)
    requires u == RunBackward(b, steps[..k], w1)
    ensures r == RunSaga(b, steps, w)
    ensures r == SagaRun(if AllOk(u.oks) then RolledBack else RunFailed, k, u.oks, u.world)
    ensures log + SagaEvents(b, id, steps, r)
      == log + CompletedEvents(b, id, steps[..k]) + CompensatedEvents(b, id, steps[..k], u.oks)
  {
    r := RunSaga(b, steps, w);
    ConcatAssoc(log, CompletedEvents(b, id, steps[..k]), CompensatedEvents(b, id, steps[..k], u.oks));
  }

  lemma FinishedSaga<S, W>(b: Behaviour<S, W>, id: RunId, steps: seq<S>, w: W, w1: W)
    requires StillForward(b, steps, w, |steps|, w1)
    ensures var r := RunSaga(b, steps, w);
      && r == SagaRun(Succeeded, |steps|, [], w1)
      && SagaEvents(b, id, steps, r) == CompletedEvents(b, id, steps[..|steps|])
  {
  }

  lemma ConcatAssoc<T>(a: seq<T>, b: seq<T>, c: seq<T>)
    ensures a + (b + c) == (a + b) + c
    ensures b == [] ==> a + b == a
  {
  }

  lemma PrefixSnoc<T>(a: seq<T>, i: nat)
    requires i < |a|
    ensures a[..i] + [a[i]] == a[..i + 1]
  {
  }

  lemma ConcatSplit<T>(a: seq<T>, b: seq<T>)
    ensures (a + b)[|a|..] == b
    ensures forall i :: 0 <= i < |a| ==> (a + b)[i] == a[i]
  {
  }

  lemma NothingLeft<S, W>(b: Behaviour<S, W>, id: RunId, w: W)
    ensures RunBackward(b, [], w) == Unwound([], w)
    ensures CompensatedEvents(b, id, [], []) == []
  {
  }

  lemma UnwindStep<S, W>(b: Behaviour<S, W>, id: RunId, done: seq<S>, w: W)
    requires done != []
    ensures var last, before := done[|done| - 1], done[..|done| - 1];
      var a := b.compensate(last, w);
      var u, rest := RunBackward(b, done, w), RunBackward(b, before, a.world);
      && u == Unwound([a.ok] + rest.oks, rest.world)
      && CompensatedEvents(b, id, done, u.oks)
        == (if a.ok then [StepCompensated(id, b.action(last))] else []) + CompensatedEvents(b, id, before, rest.oks)
  {
    var a := b.compensate(done[|done| - 1], w);
    var rest := RunBackward(b, done[..|done| - 1], a.world);
    assert ([a.ok] + rest.oks)[1..] == rest.oks;
  }

  lemma AllOkSnoc(oks: seq<bool>, ok: bool)
    ensures AllOk(oks + [ok]) <==> AllOk(oks) && ok
  {
    assert ok == (oks + [ok])[|oks|];
    assert forall i :: 0 <= i < |oks| ==> oks[i] == (oks + [ok])[i];
  }

  lemma AllOkCons(ok: bool, oks: seq<bool>)
    ensures AllOk([ok] + oks) <==> ok && AllOk(oks)
  {
    assert ok == ([ok] + oks)[0];
    assert forall i :: 0 <= i < |oks| ==> oks[i] == ([ok] + oks)[i + 1];
  }

  ghost function ShiftBy<W>(n: nat, p: Progress<W>): Progress<W> {
    Progress(p.done + n, p.failed, p.world)
  }

  /** The first step, and the rest if it works. */
  lemma ForwardFirst<S, W>(b: Behaviour<S, W>, steps: seq<S>, w: W)
    ensures steps == [] ==> RunForward(b, steps, w) == Progress(0, false, w)
    ensures steps != [] ==>
      var a := b.execute(steps[0], w);
      var p := RunForward(b, steps[1..], a.world);
      && RunForward(b, steps, w) == (if !a.ok then Progress(0, true, a.world) else ShiftBy(1, p))
      && ShiftBy(1, p) == Progress(p.done + 1, p.failed, p.world)
  {
  }

  // The exact trace, seen by a behaviour that records every call made through it.

  datatype StepCall<+S> = Executed(step: S, ok: bool) | Compensated(step: S, ok: bool)
  datatype Taped<+S, +W> = Taped(tape: seq<StepCall<S>>, world: W)

  function Recorder<S, W>(b: Behaviour<S, W>): Behaviour<S, Taped<S, W>> {
    Behaviour(
      b.action,
      (s: S, t: Taped<S, W>) =>
        var a := b.execute(s, t.world); Answer(a.ok, Taped(t.tape + [Executed(s, a.ok)], a.world)),
      (s: S, t: Taped<S, W>) =>
        var a := b.compensate(s, t.world); Answer(a.ok, Taped(t.tape + [Compensated(s, a.ok)], a.world)))
  }

  function ForwardCalls<S>(steps: seq<S>, k: nat): (r: seq<StepCall<S>>)
    requires k <= |steps|
    ensures |r| == if k < |steps| then k + 1 else k
    ensures forall i :: 0 <= i < k ==> r[i] == Executed(steps[i], true)
    ensures k < |steps| ==> r[k] == Executed(steps[k], false)
  {
    seq(k, i requires 0 <= i < k => Executed(steps[i], true))
    + if k < |steps| then [Executed(steps[k], false)] else []
  }

  function BackwardCalls<S>(done: seq<S>, oks: seq<bool>): (r: seq<StepCall<S>>)
    requires |done| == |oks|
    ensures |r| == |oks|
    ensures forall j :: 0 <= j < |r| ==> r[j] == Compensated(done[|done| - 1 - j], oks[j])
  {
    seq(|done|, j requires 0 <= j < |done| => Compensated(done[|done| - 1 - j], oks[j]))
  }

  lemma ForwardCallsCons<S>(steps: seq<S>, k: nat)
    requires 1 <= k <= |steps|
    ensures [Executed(steps[0], true)] + ForwardCalls(steps[1..], k - 1) == ForwardCalls(steps, k)
  {
    hide ForwardCalls;
  }

  lemma ForwardCallsNone<S>(steps: seq<S>)
    ensures ForwardCalls(steps, 0) == if steps == [] then [] else [Executed(steps[0], false)]
  {
  }

  lemma {:induction false} ForwardTaped<S, W>(b: Behaviour<S, W>, steps: seq<S>, t: Taped<S, W>)
    ensures var p := RunForward(b, steps, t.world);
      RunForward(Recorder(b), steps, t) == Progress(p.done, p.failed, Taped(t.tape + ForwardCalls(steps, p.done), p.world))
  {
    hide ForwardCalls;
    var p := RunForward(b, steps, t.world);
    ForwardCallsNone(steps);
    if steps == [] {
      assert t.tape + [] == t.tape;
    } else {
      var a := b.execute(steps[0], t.world);
      var t' := Taped(t.tape + [Executed(steps[0], a.ok)], a.world);
      assert Recorder(b).execute(steps[0], t) == Answer(a.ok, t');
      if a.ok {
        ForwardTaped(b, steps[1..], t');
        ForwardCallsCons(steps, p.done);
        ConcatAssoc(t.tape, [Executed(steps[0], true)], ForwardCalls(steps[1..], p.done - 1));
      }
    }
  }

  lemma BackwardCallsCons<S>(done: seq<S>, ok: bool, oks: seq<bool>)
    requires |done| == |oks| + 1
    ensures [Compensated(done[|done| - 1], ok)] + BackwardCalls(done[..|done| - 1], oks)
      == BackwardCalls(done, [ok] + oks)
  {
    hide BackwardCalls;
  }

  lemma {:induction false} BackwardTaped<S, W>(b: Behaviour<S, W>, done: seq<S>, t: Taped<S, W>)
    ensures var u := RunBackward(b, done, t.world);
      RunBackward(Recorder(b), done, t) == Unwound(u.oks, Taped(t.tape + BackwardCalls(done, u.oks), u.world))
  {
    hide BackwardCalls;
    var u := RunBackward(b, done, t.world);
    if done == [] {
      assert t.tape + BackwardCalls(done, u.oks) == t.tape;
    } else {
      var last, before := done[|done| - 1], done[..|done| - 1];
      var a := b.compensate(last, t.world);
      var t' := Taped(t.tape + [Compensated(last, a.ok)], a.world);
      assert Recorder(b).compensate(last, t) == Answer(a.ok, t');
      BackwardTaped(b, before, t');
      var rest := RunBackward(b, before, a.world).oks;
      BackwardCallsCons(done, a.ok, rest);
      ConcatAssoc(t.tape, [Compensated(last, a.ok)], BackwardCalls(before, rest));
    }
  }

  lemma BackwardCallsOk<S>(done: seq<S>, oks: seq<bool>)
    requires |done| == |oks|
    ensures (forall c :: c in BackwardCalls(done, oks) ==> c.ok) <==> AllOk(oks)
  {
    var calls := BackwardCalls(done, oks);
    if forall c :: c in calls ==> c.ok {
      forall j | 0 <= j < |oks|
        ensures oks[j]
      {
        assert calls[j] in calls;
      }
    }
  }

  lemma TapedSaga<S, W>(b: Behaviour<S, W>, steps: seq<S>, w: W)
    ensures var r := RunSaga(b, steps, w);
      RunSaga(Recorder(b), steps, Taped([], w)) == SagaRun(r.status, r.done, r.undone,
        Taped(ForwardCalls(steps, r.done)
          + (if r.done < |steps| then BackwardCalls(steps[..r.done], r.undone) else []), r.world))
  {
    hide ForwardCalls, BackwardCalls, AllOk, RunForward, RunBackward, Recorder;
    var p := RunForward(b, steps, w);
    var calls := ForwardCalls(steps, p.done);
    ForwardTaped(b, steps, Taped([], w));
    assert [] + calls == calls == calls + [];
    if p.failed {
      BackwardTaped(b, steps[..p.done], Taped(calls, p.world));
    }
  }

  lemma StatusSays<S, W>(b: Behaviour<S, W>, steps: seq<S>, w: W)
    ensures var r := RunSaga(b, steps, w);
      && (r.status == Succeeded <==> r.done == |steps|)
      && (r.status == RolledBack <==> r.done < |steps| && AllOk(r.undone))
      && (r.status == RunFailed <==> r.done < |steps| && !AllOk(r.undone))
  {
  }

  /** The calls a saga makes, for every step list and every behaviour of its steps:
      `execute` on a prefix, then at most one failing `execute`, then exactly one
      `compensate` for each completed step, in reverse. The status says whether a
      step failed and whether a compensation failed. */
  lemma ExactTrace<S, W>(b: Behaviour<S, W>, steps: seq<S>, w: W)
    ensures var r := RunSaga(Recorder(b), steps, Taped([], w));
      var k, tape := r.done, r.world.tape;
      && |tape| == (if k == |steps| then k else 2 * k + 1)
      && (forall i :: 0 <= i < k ==> tape[i] == Executed(steps[i], true))
      && (k < |steps| ==>
        && tape[k] == Executed(steps[k], false)
        && (forall j :: 0 <= j < k ==> tape[k + 1..][j] == Compensated(steps[k - 1 - j], r.undone[j]))
        && (r.status == RolledBack <==> forall c :: c in tape[k + 1..] ==> c.ok)
        && (r.status == RunFailed <==> exists c :: c in tape[k + 1..] && !c.ok))
      && (r.status == Succeeded <==> k == |steps|)
      && SagaRun(r.status, k, r.undone, r.world.world) == RunSaga(b, steps, w)
  {
    hide Recorder, RunSaga, AllOk, ForwardCalls, BackwardCalls;
    TapedSaga(b, steps, w);
    StatusSays(b, steps, w);
    var r := RunSaga(b, steps, w);
    var k := r.done;
    if k < |steps| {
      var forward, backward := ForwardCalls(steps, k), BackwardCalls(steps[..k], r.undone);
      ConcatSplit(forward, backward);
      BackwardCallsOk(steps[..k], r.undone);
    }
  }

  /** The progress events are the completed prefix in order. */
  lemma {:induction false} CompletedEventsExact<S, W>(b: Behaviour<S, W>, id: RunId, steps: seq<S>)
    ensures |CompletedEvents(b, id, steps)| == |steps|
    ensures forall i :: 0 <= i < |steps| ==> CompletedEvents(b, id, steps)[i] == StepCompleted(id, b.action(steps[i]))
  {
    if steps != [] {
      CompletedEventsExact(b, id, steps[..|steps| - 1]);
    }
  }

  function CountTrue(oks: seq<bool>): nat {
    if oks == [] then 0 else (if oks[0] then 1 else 0) + CountTrue(oks[1..])
  }

  /** A compensation event sits where the successful compensations before it put
      it: compensation `j` publishes, if it succeeds, as event number `CountTrue` of
      the earlier ones; nothing else is published while unwinding. */
  lemma {:induction false} CompensatedEventsExact<S, W>(
    b: Behaviour<S, W>, id: RunId, done: seq<S>, oks: seq<bool>, j: nat)
    requires |done| == |oks| && j < |oks|
    ensures |CompensatedEvents(b, id, done, oks)| == CountTrue(oks)
    ensures oks[j] ==>
      && CountTrue(oks[..j]) < CountTrue(oks)
      && CompensatedEvents(b, id, done, oks)[CountTrue(oks[..j])] == StepCompensated(id, b.action(done[|done| - 1 - j]))
  {
    var before := done[..|done| - 1];
    if |oks| == 1 {
      assert before == [] && oks[1..] == [] && oks[..0] == [];
    } else if j == 0 {
      CompensatedEventsExact(b, id, before, oks[1..], 0);
      assert oks[..0] == [];
    } else {
      CompensatedEventsExact(b, id, before, oks[1..], j - 1);
      assert oks[..j][0] == oks[0] && oks[..j][1..] == oks[1..][..j - 1];
    }
  }

  /** All the events of a saga: the progress events of the completed steps in order, then,
      if a step failed, an event for each successful compensation, each in its place. */
  lemma SagaEventsExact<S, W>(b: Behaviour<S, W>, id: RunId, steps: seq<S>, w: W)
    ensures var r := RunSaga(b, steps, w);
      var k, events := r.done, SagaEvents(b, id, steps, r);
      && |events| == k + CountTrue(r.undone)
      && (forall i :: 0 <= i < k ==> events[i] == StepCompleted(id, b.action(steps[i])))
      && (forall j :: 0 <= j < |r.undone| && r.undone[j] ==>
        && CountTrue(r.undone[..j]) < CountTrue(r.undone)
        && events[k + CountTrue(r.undone[..j])] == StepCompensated(id, b.action(steps[k - 1 - j])))
  {
    var r := RunSaga(b, steps, w);
    var k := r.done;
    CompletedEventsExact(b, id, steps[..k]);
    if k < |steps| {
      hide RunSaga, CompletedEvents, CompensatedEvents, CountTrue;
      if r.undone == [] {
        NoCompensation(b, id);
      }
      forall j | 0 <= j < |r.undone|
        ensures |CompensatedEvents(b, id, steps[..k], r.undone)| == CountTrue(r.undone)
        ensures r.undone[j] ==>
          && CountTrue(r.undone[..j]) < CountTrue(r.undone)
          && CompensatedEvents(b, id, steps[..k], r.undone)[CountTrue(r.undone[..j])]
            == StepCompensated(id, b.action(steps[k - 1 - j]))
      {
        CompensatedEventsExact(b, id, steps[..k], r.undone, j);
      }
    }
  }

  lemma NoCompensation<S, W>(b: Behaviour<S, W>, id: RunId)
    ensures CompensatedEvents(b, id, [], []) == [] && CountTrue([]) == 0
  {
  }

  // Undo.

  /** A failed `execute` of the step changes nothing. */
  ghost predicate FailsCleanly<S(!new), W(!new)>(b: Behaviour<S, W>, s: S) {
    forall w: W :: !b.execute(s, w).ok ==> b.execute(s, w).world == w
  }

  /** A successful `compensate` after a successful `execute` restores the world. */
  ghost predicate Inverts<S(!new), W(!new)>(b: Behaviour<S, W>, s: S) {
    forall w: W ::
      var a := b.execute(s, w);
      a.ok && b.compensate(s, a.world).ok ==> b.compensate(s, a.world).world == w
  }

  lemma {:induction false} BackwardFirstLast<S, W>(b: Behaviour<S, W>, s: S, done: seq<S>, w: W)
    ensures var u := RunBackward(b, done, w);
      var a := b.compensate(s, u.world);
      RunBackward(b, [s] + done, w) == Unwound(u.oks + [a.ok], a.world)
  {
    var all := [s] + done;
    if done == [] {
      assert all == [s] && all[..0] == [];
      var a := b.compensate(s, w);
      assert [a.ok] + [] == [] + [a.ok];
    } else {
      var last := done[|done| - 1];
      var a := b.compensate(last, w);
      assert all[..|all| - 1] == [s] + done[..|done| - 1];
      BackwardFirstLast(b, s, done[..|done| - 1], a.world);
      var u := RunBackward(b, done[..|done| - 1], a.world);
      var z := b.compensate(s, u.world);
      assert [a.ok] + (u.oks + [z.ok]) == ([a.ok] + u.oks) + [z.ok];
    }
  }

  lemma {:induction false} UnwindingRestores<S(!new), W(!new)>(b: Behaviour<S, W>, steps: seq<S>, w: W)
    requires forall s :: s in steps ==> FailsCleanly(b, s) && Inverts(b, s)
    ensures var p := RunForward(b, steps, w);
      var u := RunBackward(b, steps[..p.done], p.world);
      p.failed && AllOk(u.oks) ==> u.world == w
  {
    var p := RunForward(b, steps, w);
    if p.failed {
      var s := steps[0];
      var a := b.execute(s, w);
      assert s in steps;
      if a.ok {
        var rest := steps[1..];
        UnwindingRestores(b, rest, a.world);
        assert steps[..p.done] == [s] + rest[..p.done - 1];
        BackwardFirstLast(b, s, rest[..p.done - 1], p.world);
        var u := RunBackward(b, rest[..p.done - 1], p.world);
        AllOkSnoc(u.oks, b.compensate(s, u.world).ok);
      } else {
        assert steps[..0] == [];
      }
    }
  }

  /** The point of a compensating saga: when failed effects change nothing and
      compensations invert, a run that ends `RolledBack` leaves the world as it was. */
  lemma RolledBackRestores<S(!new), W(!new)>(b: Behaviour<S, W>, steps: seq<S>, w: W)
    requires forall s :: s in steps ==> FailsCleanly(b, s) && Inverts(b, s)
    ensures RunSaga(b, steps, w).status == RolledBack ==> RunSaga(b, steps, w).world == w
  {
    UnwindingRestores(b, steps, w);
  }

  // The same executor as a step machine, for models that interleave its steps.

  /** Where a saga of `n` steps stands between two agent calls. */
  datatype Phase = Forward(done: nat) | Backward(done: nat, left: nat, clean: bool) {
    predicate Valid(n: nat) {
      if Forward? then done <= n else left <= done < n
    }

    predicate IsOver(n: nat) {
      if Forward? then done == n else left == 0
    }

    function Status(): RunStatus {
      if Forward? then Succeeded else if clean then RolledBack else RunFailed
    }

    /** The phase after the next agent call answered `ok`. */
    function Advance(ok: bool): Phase
      requires Backward? ==> left > 0
    {
      match this
      case Forward(d) => if ok then Forward(d + 1) else Backward(d, d, true)
      case Backward(d, left, clean) => Backward(d, left - 1, clean && ok)
    }
  }

  /** Runs the step machine to its end. */
  function Iterate<S, W>(b: Behaviour<S, W>, steps: seq<S>, ph: Phase, w: W): (r: (Phase, W))
    requires ph.Valid(|steps|)
    ensures r.0.Valid(|steps|) && r.0.IsOver(|steps|)
    decreases if ph.Forward? then 2 * |steps| + 1 - ph.done else ph.left
  {
    if ph.IsOver(|steps|) then (ph, w)
    else
      var a := if ph.Forward? then b.execute(steps[ph.done], w) else b.compensate(steps[ph.left - 1], w);
      Iterate(b, steps, ph.Advance(a.ok), a.world)
  }

  lemma {:induction false} IterateBackward<S, W>(b: Behaviour<S, W>, steps: seq<S>, ph: Phase, w: W)
    requires ph.Backward? && ph.Valid(|steps|)
    ensures var u := RunBackward(b, steps[..ph.left], w);
      Iterate(b, steps, ph, w) == (Backward(ph.done, 0, ph.clean && AllOk(u.oks)), u.world)
    decreases ph.left
  {
    if ph.left > 0 {
      var done := steps[..ph.left];
      assert done[..|done| - 1] == steps[..ph.left - 1];
      var a := b.compensate(steps[ph.left - 1], w);
      IterateBackward(b, steps, ph.Advance(a.ok), a.world);
      var u := RunBackward(b, done, w);
      assert AllOk(u.oks) <==> u.oks[0] && AllOk(u.oks[1..]) by {
        assert forall i :: 1 <= i < |u.oks| ==> u.oks[i] == u.oks[1..][i - 1];
      }
    }
  }

  lemma {:induction false} IterateForward<S, W>(b: Behaviour<S, W>, steps: seq<S>, d: nat, w: W)
    requires d <= |steps|
    ensures var p := RunForward(b, steps[d..], w);
      Iterate(b, steps, Forward(d), w) ==
        if p.failed then Iterate(b, steps, Backward(d + p.done, d + p.done, true), p.world)
        else (Forward(|steps|), p.world)
    decreases |steps| - d
  {
    if d < |steps| {
      var a := b.execute(steps[d], w);
      assert steps[d..][1..] == steps[d + 1..];
      if a.ok {
        IterateForward(b, steps, d + 1, a.world);
      }
    }
  }

  /** Both readings of the executor agree: the step machine ends with the same
      status, the same number of completed steps and the same world. */
  lemma StepMachineAgrees<S, W>(b: Behaviour<S, W>, steps: seq<S>, w: W)
    ensures var r := RunSaga(b, steps, w);
      var (ph, w') := Iterate(b, steps, Forward(0), w);
      ph.Status() == r.status && ph.done == r.done && w' == r.world
  {
    assert steps[0..] == steps;
    IterateForward(b, steps, 0, w);
    var p := RunForward(b, steps, w);
    if p.failed {
      IterateBackward(b, steps, Backward(p.done, p.done, true), p.world);
    }
  }
}
