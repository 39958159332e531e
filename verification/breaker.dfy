/** The circuit breaker, and the stateless reading of its history that it refines. */
module Breaker {
  datatype BreakerState = Closed | Open | HalfOpen

  /** What reaches the breaker: a recorded outcome, or a question (`state` or
      `acquire`), each with the clock reading of that moment. */
  datatype Event = SuccessAt(at: nat) | FailureAt(at: nat) | QueryAt(at: nat)

  /** The outcomes recorded since the last success, all of them failures. */
  function Streak(log: seq<Event>): nat {
    if log == [] then 0
    else
      var rest := Streak(log[..|log| - 1]);
      match log[|log| - 1]
      case SuccessAt(_) => 0
      case FailureAt(_) => rest + 1
      case QueryAt(_) => rest
  }

  /** When the latest failure was recorded; 0 when there is none. */
  function LastFailure(log: seq<Event>): nat {
    if log == [] then 0
    else if log[|log| - 1].FailureAt? then log[|log| - 1].at
    else LastFailure(log[..|log| - 1])
  }

  /** The state at time `now`, read off the recorded outcomes alone. */
  function StateFromLog(threshold: nat, cooldown: nat, log: seq<Event>, now: nat): BreakerState {
    if Streak(log) < threshold then Closed
    else if now < LastFailure(log) + cooldown then Open
    else HalfOpen
  }

  predicate Monotone(log: seq<Event>) {
    forall i, j :: 0 <= i < j < |log| ==> log[i].at <= log[j].at
  }

  function LastAt(log: seq<Event>): nat {
    if log == [] then 0 else log[|log| - 1].at
  }

  /** The recorded outcomes, questions left out. */
  function Outcomes(log: seq<Event>): seq<Event> {
    if log == [] then []
    else
      var e := log[|log| - 1];
      Outcomes(log[..|log| - 1]) + if e.QueryAt? then [] else [e]
  }

  /** Questions leave no mark: two histories with the same outcomes are in the
      same state at every later moment, whatever was asked in between. */
  lemma OnlyOutcomesMatter(threshold: nat, cooldown: nat, a: seq<Event>, b: seq<Event>, now: nat)
    requires Outcomes(a) == Outcomes(b)
    ensures StateFromLog(threshold, cooldown, a, now) == StateFromLog(threshold, cooldown, b, now)
  {
    ReadFromOutcomes(a);
    ReadFromOutcomes(b);
  }

  lemma {:induction false} ReadFromOutcomes(log: seq<Event>)
    ensures Streak(log) == Streak(Outcomes(log))
    ensures LastFailure(log) == LastFailure(Outcomes(log))
  {
    if log != [] {
      var before := log[..|log| - 1];
      ReadFromOutcomes(before);
      assert Outcomes(before) + [] == Outcomes(before);
      if !log[|log| - 1].QueryAt? {
        assert Outcomes(log)[..|Outcomes(log)| - 1] == Outcomes(before);
      }
    }
  }

  lemma StreakSnoc(log: seq<Event>, e: Event)
    ensures Streak(log + [e]) == (if e.SuccessAt? then 0 else if e.FailureAt? then Streak(log) + 1 else Streak(log))
    ensures LastFailure(log + [e]) == if e.FailureAt? then e.at else LastFailure(log)
    ensures LastAt(log + [e]) == e.at
    ensures Monotone(log) && LastAt(log) <= e.at ==> Monotone(log + [e])
  {
    assert (log + [e])[..|log|] == log;
  }

  lemma {:induction false} LastFailureIsPast(log: seq<Event>)
    requires Monotone(log)
    ensures LastFailure(log) <= LastAt(log)
  {
    if log != [] && !log[|log| - 1].FailureAt? {
      LastFailureIsPast(log[..|log| - 1]);
    }
  }

  /** The three fields the breaker keeps, and its transitions on them. */
  datatype Inner = Inner(state: BreakerState, consecutiveFailures: nat, openedAt: nat) {
    static const FRESH := Inner(Closed, 0, 0)

    function Refresh(cooldown: nat, now: nat): Inner {
      if state.Open? && (if now > openedAt then now - openedAt else 0) >= cooldown then
        this.(state := HalfOpen)
      else this
    }

    function OnSuccess(): Inner {
      this.(state := Closed, consecutiveFailures := 0)
    }

    function OnFailure(threshold: nat, now: nat): Inner {
      if state.HalfOpen? then Inner(Open, threshold, now)
      else if consecutiveFailures + 1 >= threshold then Inner(Open, consecutiveFailures + 1, now)
      else this.(consecutiveFailures := consecutiveFailures + 1)
    }

    function Apply(threshold: nat, cooldown: nat, e: Event): Inner {
      match e
      case SuccessAt(_) => OnSuccess()
      case FailureAt(at) => OnFailure(threshold, at)
      case QueryAt(at) => Refresh(cooldown, at)
    }
  }

  function Replay(threshold: nat, cooldown: nat, log: seq<Event>): Inner {
    if log == [] then Inner.FRESH
    else Replay(threshold, cooldown, log[..|log| - 1]).Apply(threshold, cooldown, log[|log| - 1])
  }

  /** How the fields encode the history. */
  ghost predicate Encodes(threshold: nat, cooldown: nat, inner: Inner, log: seq<Event>) {
    match inner.state
    case Closed => inner.consecutiveFailures == Streak(log) < threshold
    case Open =>
      && threshold <= inner.consecutiveFailures <= Streak(log)
      && inner.openedAt == LastFailure(log)
    case HalfOpen =>
      && threshold <= inner.consecutiveFailures <= Streak(log)
      && inner.openedAt == LastFailure(log)
      && inner.openedAt + cooldown <= LastAt(log)
  }

  lemma ApplyKeepsEncoding(threshold: nat, cooldown: nat, inner: Inner, log: seq<Event>, e: Event)
    requires threshold >= 1
    requires Encodes(threshold, cooldown, inner, log)
    requires Monotone(log + [e])
    ensures Encodes(threshold, cooldown, inner.Apply(threshold, cooldown, e), log + [e])
  {
    StreakSnoc(log, e);
    assert log != [] ==> (log + [e])[|log| - 1].at <= (log + [e])[|log|].at;
    assert forall i :: 0 <= i < |log| ==> log[i] == (log + [e])[i];
    LastFailureIsPast(log);
  }

  lemma EncodingAnswers(threshold: nat, cooldown: nat, inner: Inner, log: seq<Event>, now: nat)
    requires Encodes(threshold, cooldown, inner, log)
    requires Monotone(log) && LastAt(log) <= now
    ensures inner.Refresh(cooldown, now).state == StateFromLog(threshold, cooldown, log, now)
  {
    LastFailureIsPast(log);
  }

  lemma {:induction false} ReplayEncodes(threshold: nat, cooldown: nat, log: seq<Event>)
    requires threshold >= 1
    requires Monotone(log)
    ensures Encodes(threshold, cooldown, Replay(threshold, cooldown, log), log)
  {
    if log != [] {
      var before := log[..|log| - 1];
      ReplayEncodes(threshold, cooldown, before);
      assert before + [log[|log| - 1]] == log;
      ApplyKeepsEncoding(threshold, cooldown, Replay(threshold, cooldown, before), before, log[|log| - 1]);
    }
  }

  /** The breaker refines its log: after any history under a monotone clock, the
      machine answers what the outcomes alone say. A call is refused exactly when
      at least `threshold` failures followed the last success and the latest of
      them is less than `cooldown` ago; whenever the machine is not closed, its
      stored opening time is the time of that latest failure. */
  lemma RefinesItsLog(threshold: nat, cooldown: nat, log: seq<Event>, now: nat)
    requires threshold >= 1
    requires Monotone(log) && LastAt(log) <= now
    ensures var inner := Replay(threshold, cooldown, log);
      && inner.Refresh(cooldown, now).state == StateFromLog(threshold, cooldown, log, now)
      && (inner.Refresh(cooldown, now).state.Open? <==>
          Streak(log) >= threshold && now < LastFailure(log) + cooldown)
      && (!inner.state.Closed? ==> inner.openedAt == LastFailure(log))
  {
    ReplayEncodes(threshold, cooldown, log);
    EncodingAnswers(threshold, cooldown, Replay(threshold, cooldown, log), log, now);
  }

  /** Questions leave no mark on the machine either: after two histories with the same
      recorded outcomes it answers alike at every later moment, however often and
      whenever it was asked in between. */
  lemma QuestionsLeaveNoMark(threshold: nat, cooldown: nat, a: seq<Event>, b: seq<Event>, now: nat)
    requires threshold >= 1
    requires Monotone(a) && LastAt(a) <= now && Monotone(b) && LastAt(b) <= now
    requires Outcomes(a) == Outcomes(b)
    ensures Replay(threshold, cooldown, a).Refresh(cooldown, now).state
      == Replay(threshold, cooldown, b).Refresh(cooldown, now).state
  {
    RefinesItsLog(threshold, cooldown, a, now);
    RefinesItsLog(threshold, cooldown, b, now);
    OnlyOutcomesMatter(threshold, cooldown, a, b, now);
  }

  predicate AnyFailure(log: seq<Event>) {
    exists i :: 0 <= i < |log| && log[i].FailureAt?
  }

  lemma {:induction false} StreakAppend(log: seq<Event>, more: seq<Event>)
    requires forall e :: e in more ==> !e.SuccessAt?
    ensures Streak(log + more) >= Streak(log)
    ensures !AnyFailure(more) ==> LastFailure(log + more) == LastFailure(log)
  {
    if more == [] {
      assert log + more == log;
    } else {
      var last, before := more[|more| - 1], more[..|more| - 1];
      assert log + more == log + before + [last];
      StreakAppend(log, before);
      StreakSnoc(log + before, last);
      assert AnyFailure(before) ==> AnyFailure(more);
    }
  }

  /** There is no single probe. A breaker that tripped and cooled down admits a caller
      at `t1`, and another one at `t2` if nothing was recorded in between; without a
      success in between, the second is refused exactly when a failure was recorded
      since and the latest one still cools down. */
  lemma HalfOpenAdmitsEveryCaller(threshold: nat, cooldown: nat, log: seq<Event>, t1: nat, more: seq<Event>, t2: nat)
    requires threshold >= 1
    requires Streak(log) >= threshold && LastFailure(log) + cooldown <= t1
    requires Monotone(log + [QueryAt(t1)] + more) && LastAt(log + [QueryAt(t1)] + more) <= t2
    requires forall e :: e in more ==> !e.SuccessAt?
    ensures Replay(threshold, cooldown, log + [QueryAt(t1)]).state == HalfOpen
    ensures var all := log + [QueryAt(t1)] + more;
      Replay(threshold, cooldown, all).Refresh(cooldown, t2).state ==
        if AnyFailure(more) && t2 < LastFailure(all) + cooldown then Open else HalfOpen
  {
    var asked := log + [QueryAt(t1)];
    var all := asked + more;
    assert forall i :: 0 <= i < |asked| ==> asked[i] == all[i];
    assert forall i :: 0 <= i < |log| ==> log[i] == all[i];
    assert all[|log|] == QueryAt(t1) && (log != [] ==> all[|log| - 1].at <= all[|log|].at <= all[|all| - 1].at);
    assert LastAt(log) <= t1 <= t2;
    RefinesItsLog(threshold, cooldown, log, t1);
    assert asked[..|log|] == log;
    StreakSnoc(log, QueryAt(t1));
    StreakAppend(asked, more);
    RefinesItsLog(threshold, cooldown, all, t2);
  }

  lemma {:induction false} OnlyFailures(before: seq<Event>, fails: seq<Event>)
    requires before == [] || before[|before| - 1].SuccessAt?
    requires forall i :: 0 <= i < |fails| ==> fails[i].FailureAt?
    ensures Streak(before + fails) == |fails|
    ensures fails != [] ==> LastFailure(before + fails) == fails[|fails| - 1].at
  {
    if fails == [] {
      assert before + fails == before;
    } else {
      var shorter, last := fails[..|fails| - 1], fails[|fails| - 1];
      assert before + fails == before + shorter + [last];
      OnlyFailures(before, shorter);
      StreakSnoc(before + shorter, last);
    }
  }

  /** The life of the breaker in its own words. Fresh, or after a success, fewer than
      `threshold` failures in a row leave it closed; from the `threshold`-th on it is open
      until `cooldown` milliseconds after the latest one, and half-open from then on. */
  lemma TripsAtThreshold(threshold: nat, cooldown: nat, before: seq<Event>, fails: seq<Event>, now: nat)
    requires threshold >= 1
    requires before == [] || before[|before| - 1].SuccessAt?
    requires forall i :: 0 <= i < |fails| ==> fails[i].FailureAt?
    requires Monotone(before + fails) && LastAt(before + fails) <= now
    ensures Replay(threshold, cooldown, before + fails).Refresh(cooldown, now).state ==
      if |fails| < threshold then Closed
      else if now < fails[|fails| - 1].at + cooldown then Open
      else HalfOpen
  {
    OnlyFailures(before, fails);
    RefinesItsLog(threshold, cooldown, before + fails, now);
  }

  /** The breaker object. `now` is the clock reading taken under its lock. */
  class CircuitBreaker {
    const failureThreshold: nat
    const cooldownMillis: nat
    var state: BreakerState
    var consecutiveFailures: nat
    var openedAtMillis: nat

    ghost var log: seq<Event>

    function Value(): Inner
      reads this
    {
      Inner(state, consecutiveFailures, openedAtMillis)
    }

    ghost predicate Valid()
      reads this
    {
      && failureThreshold >= 1
      && Monotone(log)
      && Encodes(failureThreshold, cooldownMillis, Value(), log)
    }

    constructor (failureThreshold: nat, cooldownMillis: nat)
      ensures Valid() && log == [] && Value() == Inner.FRESH
      ensures this.failureThreshold == (if failureThreshold == 0 then 1 else failureThreshold)
      ensures this.cooldownMillis == cooldownMillis
    {
      this.failureThreshold := if failureThreshold < 1 then 1 else failureThreshold;
      this.cooldownMillis := cooldownMillis;
      state, consecutiveFailures, openedAtMillis := Closed, 0, 0;
      log := [];
    }

    method Refresh(now: nat)
      requires Valid() && LastAt(log) <= now
      modifies this`state, this`log
      ensures Valid()
      ensures log == old(log) + [QueryAt(now)]
      ensures Value() == old(Value()).Refresh(cooldownMillis, now)
      ensures state == StateFromLog(failureThreshold, cooldownMillis, old(log), now)
    {
      ghost var before := Value();
      EncodingAnswers(failureThreshold, cooldownMillis, before, log, now);
      StreakSnoc(log, QueryAt(now));
      ApplyKeepsEncoding(failureThreshold, cooldownMillis, before, log, QueryAt(now));
      if state == Open {
        var elapsed := if now > openedAtMillis then now - openedAtMillis else 0;
        if elapsed >= cooldownMillis {
          state := HalfOpen;
        }
      }
      assert Value() == before.Refresh(cooldownMillis, now);
      log := log + [QueryAt(now)];
    }

    /** The state the outcomes so far determine at `now`. */
    method State(now: nat) returns (s: BreakerState)
      requires Valid() && LastAt(log) <= now
      modifies this`state, this`log
      ensures Valid()
      ensures log == old(log) + [QueryAt(now)]
      ensures Value() == old(Value()).Refresh(cooldownMillis, now)
      ensures s == StateFromLog(failureThreshold, cooldownMillis, old(log), now)
    {
      Refresh(now);
      s := state;
    }

    /** Refuses exactly when the failure streak has reached the threshold and its
        latest failure is less than a cooldown ago; half-open lets every caller in. */
    method Acquire(now: nat) returns (admitted: bool)
      requires Valid() && LastAt(log) <= now
      modifies this`state, this`log
      ensures Valid()
      ensures log == old(log) + [QueryAt(now)]
      ensures Value() == old(Value()).Refresh(cooldownMillis, now)
      ensures !admitted <==>
        Streak(old(log)) >= failureThreshold && now < LastFailure(old(log)) + cooldownMillis
    {
      Refresh(now);
      match state {
        case Open => admitted := false;
        case Closed => admitted := true;
        case HalfOpen => admitted := true;
      }
    }

    method OnSuccess(now: nat)
      requires Valid() && LastAt(log) <= now
      modifies this
      ensures Valid()
      ensures log == old(log) + [SuccessAt(now)]
      ensures Value() == old(Value()).OnSuccess()
    {
      StreakSnoc(log, SuccessAt(now));
      ApplyKeepsEncoding(failureThreshold, cooldownMillis, Value(), log, SuccessAt(now));
      consecutiveFailures := 0;
      state := Closed;
      log := log + [SuccessAt(now)];
    }

    method OnFailure(now: nat)
      requires Valid() && LastAt(log) <= now
      modifies this
      ensures Valid()
      ensures log == old(log) + [FailureAt(now)]
      ensures Value() == old(Value()).OnFailure(failureThreshold, now)
    {
      StreakSnoc(log, FailureAt(now));
      ApplyKeepsEncoding(failureThreshold, cooldownMillis, Value(), log, FailureAt(now));
      match state {
        case HalfOpen =>
          state := Open;
          openedAtMillis := now;
          consecutiveFailures := failureThreshold;
        case _ =>
          consecutiveFailures := consecutiveFailures + 1;
          if consecutiveFailures >= failureThreshold {
            state := Open;
            openedAtMillis := now;
          }
      }
      log := log + [FailureAt(now)];
    }
  }
}
