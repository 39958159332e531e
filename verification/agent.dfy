/** The resilient agent: every outbound call runs under the circuit breaker, a
    bounded retry and a per-attempt timeout. The raw agent is an arbitrary state
    machine over a state `R`; nothing is assumed about its replies or its delays. */
module Agent {
  import opened Domain
  import opened Breaker
  import opened Retry

  const NANOS_PER_MILLI: nat := 1_000_000

  datatype AgentOp =
    | CallApplyInfra(host: HostAddr)
    | CallTuneHost(host: HostAddr)
    | CallStartValidator(host: HostAddr, version: Version)
    | CallAwaitCatchup(host: HostAddr)
    | CallDrain(host: HostAddr)
    | CallSwapIdentity(source: HostAddr, target: HostAddr)
    | CallDestroyInfra(host: HostAddr)

  /** One attempt of the raw agent: its reply, the nanoseconds it needs, the clock
      reading that would jitter a following sleep, and its next state. */
  datatype RawAttempt<+R> = RawAttempt(reply: Reply, took: nat, subsec: Subsec, next: R)

  /** The raw agent, and the time that passes between two guarded calls. */
  datatype Env<!R> = Env(attempt: (AgentOp, R) -> RawAttempt<R>, idle: (R, nat) -> nat)

  datatype GuardConfig = GuardConfig(policy: RetryPolicy, opTimeout: nat, threshold: nat, cooldown: nat) {
    /** What the constructors of policy and breaker make of raw settings: at least one
        attempt, and a threshold of at least one. */
    static function New(
      maxAttempts: nat, retryBase: Duration, retryMax: Duration, opTimeout: nat, threshold: nat, cooldown: nat): GuardConfig
    {
      GuardConfig(RetryPolicy.New(maxAttempts, retryBase, retryMax), opTimeout, Max(threshold, 1), cooldown)
    }

    predicate Valid() {
      policy.Usable() && threshold >= 1
    }

    /** What one guarded call may cost, in nanoseconds. */
    function CallBudget(): nat
      requires Valid()
    {
      policy.maxAttempts * opTimeout + (policy.maxAttempts - 1) * policy.maxDelay
    }
  }

  /** Everything one task sees through the guard: the raw agent, the clock, the
      breaker with its history, and counters of attempts made and time spent. */
  datatype Guarded<+R> = Guarded(
    raw: R, now: nat, breaker: Inner, log: seq<Breaker.Event>, rawCalls: nat, spent: nat)
  {
    function Millis(): nat {
      now / NANOS_PER_MILLI
    }
  }

  ghost predicate WellFormed<R>(cfg: GuardConfig, w: Guarded<R>) {
    && cfg.Valid()
    && Monotone(w.log)
    && LastAt(w.log) <= w.Millis()
    && Encodes(cfg.threshold, cfg.cooldown, w.breaker, w.log)
  }

  /** The timeout wrapper: an attempt that needs longer is cut off and reads as `Timeout`. */
  function Settle<R>(cfg: GuardConfig, a: RawAttempt<R>): Reply {
    if a.took <= cfg.opTimeout then a.reply else Reply.Err(Timeout)
  }

  function RecordEvent<R>(cfg: GuardConfig, w: Guarded<R>, e: Breaker.Event): Guarded<R> {
    w.(breaker := w.breaker.Apply(cfg.threshold, cfg.cooldown, e), log := w.log + [e])
  }

  /** One attempt, with its outcome recorded in the breaker. */
  function TryOnce<R>(cfg: GuardConfig, env: Env<R>, op: AgentOp, w: Guarded<R>): Guarded<R> {
    var a := env.attempt(op, w.raw);
    var cost := Min(a.took, cfg.opTimeout);
    var w' := w.(raw := a.next, now := w.now + cost, rawCalls := w.rawCalls + 1, spent := w.spent + cost);
    RecordEvent(cfg, w', if Settle(cfg, a).Done? then SuccessAt(w'.Millis()) else FailureAt(w'.Millis()))
  }

  function Sleep<R>(w: Guarded<R>, delay: nat): Guarded<R> {
    w.(now := w.now + delay, spent := w.spent + delay)
  }

  /** The retry loop once `made` attempts have failed. */
  function Attempts<R>(cfg: GuardConfig, env: Env<R>, op: AgentOp, w: Guarded<R>, made: nat): (Reply, Guarded<R>)
    requires cfg.Valid() && made < cfg.policy.maxAttempts
    decreases cfg.policy.maxAttempts - made
  {
    var a := env.attempt(op, w.raw);
    var reply := Settle(cfg, a);
    var w' := TryOnce(cfg, env, op, w);
    if reply.Done? || made + 1 >= cfg.policy.maxAttempts || !reply.error.IsRetryable() then (reply, w')
    else Attempts(cfg, env, op, Sleep(w', cfg.policy.SleepFor(made, a.subsec)), made + 1)
  }

  /** The moment a guarded call asks the breaker. */
  function Asked<R>(cfg: GuardConfig, env: Env<R>, w: Guarded<R>): Guarded<R> {
    var w' := w.(now := w.now + env.idle(w.raw, w.now));
    RecordEvent(cfg, w', QueryAt(w'.Millis()))
  }

  /** One guarded call: the breaker is asked once, then all attempts run. */
  function GuardedCall<R>(cfg: GuardConfig, env: Env<R>, op: AgentOp, w: Guarded<R>): (Reply, Guarded<R>)
    requires cfg.Valid()
  {
    var w' := Asked(cfg, env, w);
    if w'.breaker.state.Open? then (Reply.Err(Unavailable), w') else Attempts(cfg, env, op, w', 0)
  }

  // What the attempts return, read off the raw agent alone.

  function RawAfter<R>(env: Env<R>, op: AgentOp, raw: R, n: nat): R {
    if n == 0 then raw else RawAfter(env, op, env.attempt(op, raw).next, n - 1)
  }

  /** The reply of attempt `n` (from 0), with timeouts mapped. */
  function ReplyAt<R>(cfg: GuardConfig, env: Env<R>, op: AgentOp, raw: R, n: nat): Reply {
    Settle(cfg, env.attempt(op, RawAfter(env, op, raw, n)))
  }

  predicate MayRetry(reply: Reply) {
    reply.Err? && reply.error.IsRetryable()
  }

  /** `k` is the smaller of the budget and one past the first reply that ends the loop. */
  ghost predicate StopsAt<R>(cfg: GuardConfig, env: Env<R>, op: AgentOp, raw: R, budget: nat, k: nat) {
    && 1 <= k <= budget
    && (forall j: nat :: j < k - 1 ==> MayRetry(ReplyAt(cfg, env, op, raw, j)))
    && (k == budget || !MayRetry(ReplyAt(cfg, env, op, raw, k - 1)))
  }

  /** The breaker log gained exactly the outcomes of `k` attempts, in order. */
  ghost predicate LoggedAttempts<R>(
    cfg: GuardConfig, env: Env<R>, op: AgentOp, raw: R, k: nat, before: seq<Breaker.Event>, after: seq<Breaker.Event>)
  {
    && |after| == |before| + k
    && after[..|before|] == before
    && forall j: nat :: j < k ==>
        after[|before| + j] ==
          if ReplyAt(cfg, env, op, raw, j).Done? then SuccessAt(after[|before| + j].at)
          else FailureAt(after[|before| + j].at)
  }

  lemma RecordKeepsForm<R>(cfg: GuardConfig, w: Guarded<R>, e: Breaker.Event)
    requires WellFormed(cfg, w)
    requires e.at == w.Millis()
    ensures WellFormed(cfg, RecordEvent(cfg, w, e))
  {
    StreakSnoc(w.log, e);
    ApplyKeepsEncoding(cfg.threshold, cfg.cooldown, w.breaker, w.log, e);
  }

  lemma LaterKeepsForm<R>(cfg: GuardConfig, w: Guarded<R>, later: Guarded<R>)
    requires WellFormed(cfg, w)
    requires later.now >= w.now && later.log == w.log && later.breaker == w.breaker
    ensures WellFormed(cfg, later)
  {
    assert later.Millis() >= w.Millis();
  }

  lemma TryOnceFacts<R>(cfg: GuardConfig, env: Env<R>, op: AgentOp, w: Guarded<R>)
    requires WellFormed(cfg, w)
    ensures var w' := TryOnce(cfg, env, op, w);
      var reply := Settle(cfg, env.attempt(op, w.raw));
      && WellFormed(cfg, w')
      && w'.now >= w.now
      && w'.log == w.log + [if reply.Done? then SuccessAt(w'.Millis()) else FailureAt(w'.Millis())]
      && Streak(w'.log) == (if reply.Done? then 0 else Streak(w.log) + 1)
      && w'.spent <= w.spent + cfg.opTimeout
      && w'.rawCalls == w.rawCalls + 1
  {
    hide WellFormed, Streak, LastFailure, Settle;
    var a := env.attempt(op, w.raw);
    var cost := Min(a.took, cfg.opTimeout);
    var w' := w.(raw := a.next, now := w.now + cost, rawCalls := w.rawCalls + 1, spent := w.spent + cost);
    var e := if Settle(cfg, a).Done? then SuccessAt(w'.Millis()) else FailureAt(w'.Millis());
    LaterKeepsForm(cfg, w, w');
    RecordKeepsForm(cfg, w', e);
    StreakSnoc(w.log, e);
  }

  /** What the attempts of one call leave behind. */
  ghost predicate AttemptsDone<R>(
    cfg: GuardConfig, env: Env<R>, op: AgentOp, w: Guarded<R>, budget: nat, reply: Reply, w': Guarded<R>)
  {
    && w'.rawCalls >= w.rawCalls
    && var k := w'.rawCalls - w.rawCalls;
    && StopsAt(cfg, env, op, w.raw, budget, k)
    && reply == ReplyAt(cfg, env, op, w.raw, k - 1)
    && w'.raw == RawAfter(env, op, w.raw, k)
    && LoggedAttempts(cfg, env, op, w.raw, k, w.log, w'.log)
    && Streak(w'.log) == (if reply.Done? then 0 else Streak(w.log) + k)
    && (reply.Err? ==> LastFailure(w'.log) == w'.Millis())
    && w'.now >= w.now
    && WellFormed(cfg, w')
  }

  lemma LastAttemptDone<R>(cfg: GuardConfig, env: Env<R>, op: AgentOp, w: Guarded<R>, budget: nat)
    requires WellFormed(cfg, w)
    requires budget >= 1
    requires budget == 1 || !MayRetry(ReplyAt(cfg, env, op, w.raw, 0))
    ensures AttemptsDone(cfg, env, op, w, budget, ReplyAt(cfg, env, op, w.raw, 0), TryOnce(cfg, env, op, w))
  {
    var w1 := TryOnce(cfg, env, op, w);
    TryOnceFacts(cfg, env, op, w);
    assert RawAfter(env, op, w.raw, 0) == w.raw;
    assert RawAfter(env, op, w.raw, 1) == RawAfter(env, op, w1.raw, 0) == w1.raw;
    StreakSnoc(w.log, w1.log[|w.log|]);
  }

  lemma MoreAttemptsDone<R>(
    cfg: GuardConfig, env: Env<R>, op: AgentOp,
    w: Guarded<R>, delay: nat, budget: nat, reply: Reply, w': Guarded<R>)
    requires WellFormed(cfg, w)
    requires MayRetry(ReplyAt(cfg, env, op, w.raw, 0))
    requires AttemptsDone(cfg, env, op, Sleep(TryOnce(cfg, env, op, w), delay), budget, reply, w')
    ensures AttemptsDone(cfg, env, op, w, budget + 1, reply, w')
  {
    hide *;
    var w1 := TryOnce(cfg, env, op, w);
    TryOnceFacts(cfg, env, op, w);
    FirstRetried(cfg, env, op, w);
    SleepKeeps(w1, delay);
    var k := DoneParts(cfg, env, op, Sleep(w1, delay), budget, reply, w');
    StopsOneLater(cfg, env, op, w.raw, budget, k);
    LoggedOneMore(cfg, env, op, w.raw, k, w.log, w1.log[|w.log|], w'.log);
    RepliesShift(cfg, env, op, w.raw, k - 1);
    RawShift(env, op, w.raw, k);
    DoneByParts(cfg, env, op, w, budget + 1, reply, w', k + 1);
  }

  lemma SleepKeeps<R>(w: Guarded<R>, delay: nat)
    ensures var w' := Sleep(w, delay);
      w'.raw == w.raw && w'.log == w.log && w'.rawCalls == w.rawCalls && w'.now >= w.now
  {
  }

  lemma DoneParts<R>(
    cfg: GuardConfig, env: Env<R>, op: AgentOp, w: Guarded<R>, budget: nat, reply: Reply, w': Guarded<R>)
    returns (k: nat)
    requires AttemptsDone(cfg, env, op, w, budget, reply, w')
    ensures w'.rawCalls == w.rawCalls + k && k >= 1 && StopsAt(cfg, env, op, w.raw, budget, k)
    ensures reply == ReplyAt(cfg, env, op, w.raw, k - 1) && w'.raw == RawAfter(env, op, w.raw, k)
    ensures LoggedAttempts(cfg, env, op, w.raw, k, w.log, w'.log)
    ensures Streak(w'.log) == (if reply.Done? then 0 else Streak(w.log) + k)
    ensures reply.Err? ==> LastFailure(w'.log) == w'.Millis()
    ensures w'.now >= w.now && WellFormed(cfg, w')
  {
    hide ReplyAt, RawAfter, LoggedAttempts, Streak, LastFailure, WellFormed;
    k := w'.rawCalls - w.rawCalls;
  }

  lemma DoneByParts<R>(
    cfg: GuardConfig, env: Env<R>, op: AgentOp, w: Guarded<R>, budget: nat, reply: Reply, w': Guarded<R>, k: nat)
    requires w'.rawCalls == w.rawCalls + k && k >= 1 && StopsAt(cfg, env, op, w.raw, budget, k)
    requires reply == ReplyAt(cfg, env, op, w.raw, k - 1) && w'.raw == RawAfter(env, op, w.raw, k)
    requires LoggedAttempts(cfg, env, op, w.raw, k, w.log, w'.log)
    requires Streak(w'.log) == (if reply.Done? then 0 else Streak(w.log) + k)
    requires reply.Err? ==> LastFailure(w'.log) == w'.Millis()
    requires w'.now >= w.now && WellFormed(cfg, w')
    ensures AttemptsDone(cfg, env, op, w, budget, reply, w')
  {
    hide StopsAt, ReplyAt, RawAfter, LoggedAttempts, Streak, LastFailure, WellFormed;
  }

  lemma FirstRetried<R>(cfg: GuardConfig, env: Env<R>, op: AgentOp, w: Guarded<R>)
    requires MayRetry(ReplyAt(cfg, env, op, w.raw, 0))
    ensures TryOnce(cfg, env, op, w).raw == env.attempt(op, w.raw).next
    ensures !Settle(cfg, env.attempt(op, w.raw)).Done?
    ensures ReplyAt(cfg, env, op, w.raw, 0) == Settle(cfg, env.attempt(op, w.raw)) && ReplyAt(cfg, env, op, w.raw, 0).Err?
  {
  }

  lemma RawShift<R>(env: Env<R>, op: AgentOp, raw: R, n: nat)
    ensures RawAfter(env, op, raw, n + 1) == RawAfter(env, op, env.attempt(op, raw).next, n)
  {
  }

  lemma {:induction false} AttemptsClosedForm<R>(
    cfg: GuardConfig, env: Env<R>, op: AgentOp, w: Guarded<R>, made: nat)
    requires WellFormed(cfg, w) && made < cfg.policy.maxAttempts
    ensures AttemptsDone(cfg, env, op, w, cfg.policy.maxAttempts - made,
      Attempts(cfg, env, op, w, made).0, Attempts(cfg, env, op, w, made).1)
    decreases cfg.policy.maxAttempts - made
  {
    AttemptsUnroll(cfg, env, op, w, made);
    assert ReplyAt(cfg, env, op, w.raw, 0) == Settle(cfg, env.attempt(op, w.raw));
    hide Attempts, TryOnce, Settle, ReplyAt, AttemptsDone, WellFormed, MayRetry, Streak, LastFailure;
    if made + 1 >= cfg.policy.maxAttempts || !MayRetry(ReplyAt(cfg, env, op, w.raw, 0)) {
      LastAttemptDone(cfg, env, op, w, cfg.policy.maxAttempts - made);
    } else {
      var w1 := TryOnce(cfg, env, op, w);
      TryOnceFacts(cfg, env, op, w);
      var delay := cfg.policy.SleepFor(made, env.attempt(op, w.raw).subsec);
      LaterKeepsForm(cfg, w1, Sleep(w1, delay));
      AttemptsClosedForm(cfg, env, op, Sleep(w1, delay), made + 1);
      var (reply, w') := Attempts(cfg, env, op, w, made);
      MoreAttemptsDone(cfg, env, op, w, delay, cfg.policy.maxAttempts - made - 1, reply, w');
    }
  }

  lemma AttemptsUnroll<R>(cfg: GuardConfig, env: Env<R>, op: AgentOp, w: Guarded<R>, made: nat)
    requires cfg.Valid() && made < cfg.policy.maxAttempts
    ensures var a := env.attempt(op, w.raw);
      var w' := TryOnce(cfg, env, op, w);
      Attempts(cfg, env, op, w, made) ==
        if made + 1 >= cfg.policy.maxAttempts || !MayRetry(Settle(cfg, a)) then (Settle(cfg, a), w')
        else Attempts(cfg, env, op, Sleep(w', cfg.policy.SleepFor(made, a.subsec)), made + 1)
  {
  }

  lemma RepliesShift<R>(cfg: GuardConfig, env: Env<R>, op: AgentOp, raw: R, n: nat)
    ensures ReplyAt(cfg, env, op, raw, n + 1) == ReplyAt(cfg, env, op, env.attempt(op, raw).next, n)
  {
  }

  lemma StopsOneLater<R>(cfg: GuardConfig, env: Env<R>, op: AgentOp, raw: R, budget: nat, k: nat)
    requires MayRetry(ReplyAt(cfg, env, op, raw, 0))
    requires StopsAt(cfg, env, op, env.attempt(op, raw).next, budget, k)
    ensures StopsAt(cfg, env, op, raw, budget + 1, k + 1)
  {
    forall j: nat | j < k
      ensures MayRetry(ReplyAt(cfg, env, op, raw, j))
    {
      if j > 0 {
        var i: nat := j - 1;
        RepliesShift(cfg, env, op, raw, i);
      }
    }
    RepliesShift(cfg, env, op, raw, k - 1);
  }

  lemma LoggedOneMore<R>(
    cfg: GuardConfig, env: Env<R>, op: AgentOp, raw: R, k: nat,
    before: seq<Breaker.Event>, e: Breaker.Event, after: seq<Breaker.Event>)
    requires e == if ReplyAt(cfg, env, op, raw, 0).Done? then SuccessAt(e.at) else FailureAt(e.at)
    requires LoggedAttempts(cfg, env, op, env.attempt(op, raw).next, k, before + [e], after)
    ensures LoggedAttempts(cfg, env, op, raw, k + 1, before, after)
  {
    var grown := before + [e];
    assert after[..|before|] == after[..|grown|][..|before|] == before;
    assert after[|before|] == after[..|grown|][|before|] == e;
    forall j: nat | 1 <= j < k + 1
      ensures after[|before| + j] ==
        if ReplyAt(cfg, env, op, raw, j).Done? then SuccessAt(after[|before| + j].at)
        else FailureAt(after[|before| + j].at)
    {
      var i: nat := j - 1;
      RepliesShift(cfg, env, op, raw, i);
      assert |grown| + i == |before| + j;
    }
  }

  lemma {:induction false} AttemptsCost<R>(cfg: GuardConfig, env: Env<R>, op: AgentOp, w: Guarded<R>, made: nat)
    requires WellFormed(cfg, w) && made < cfg.policy.maxAttempts
    ensures var left := cfg.policy.maxAttempts - made;
      Attempts(cfg, env, op, w, made).1.spent <=
        w.spent + left * cfg.opTimeout + (left - 1) * cfg.policy.maxDelay
    ensures var w' := Attempts(cfg, env, op, w, made).1;
      w'.spent - w.spent == w'.now - w.now
    decreases cfg.policy.maxAttempts - made
  {
    var a := env.attempt(op, w.raw);
    var first := Settle(cfg, a);
    var w1 := TryOnce(cfg, env, op, w);
    TryOnceFacts(cfg, env, op, w);
    var left := cfg.policy.maxAttempts - made;
    CostStep(left, cfg.opTimeout, cfg.policy.maxDelay);
    if !first.Done? && made + 1 < cfg.policy.maxAttempts && first.error.IsRetryable() {
      var w2 := Sleep(w1, cfg.policy.SleepFor(made, a.subsec));
      LaterKeepsForm(cfg, w1, w2);
      AttemptsCost(cfg, env, op, w2, made + 1);
    }
  }

  lemma CostStep(left: nat, timeout: nat, delay: nat)
    requires left >= 1
    ensures left * timeout == timeout + (left - 1) * timeout
    ensures left >= 2 ==> (left - 1) * delay == delay + (left - 2) * delay
    ensures left * timeout >= timeout && (left - 1) * delay >= 0
  {
  }

  /** Whether the breaker, as its history stands, refuses a call made now. */
  ghost predicate Refuses<R>(cfg: GuardConfig, env: Env<R>, w: Guarded<R>) {
    && Streak(w.log) >= cfg.threshold
    && Asked(cfg, env, w).Millis() < LastFailure(w.log) + cfg.cooldown
  }

  lemma AskedFacts<R>(cfg: GuardConfig, env: Env<R>, w: Guarded<R>)
    requires WellFormed(cfg, w)
    ensures var asked := Asked(cfg, env, w);
      && WellFormed(cfg, asked)
      && (asked.breaker.state.Open? <==> Refuses(cfg, env, w))
      && Streak(asked.log) == Streak(w.log)
      && LastFailure(asked.log) == LastFailure(w.log)
      && asked.log == w.log + [QueryAt(asked.Millis())]
      && asked.now >= w.now && asked.raw == w.raw && asked.spent == w.spent && asked.rawCalls == w.rawCalls
  {
    var later := w.(now := w.now + env.idle(w.raw, w.now));
    LaterKeepsForm(cfg, w, later);
    RecordKeepsForm(cfg, later, QueryAt(later.Millis()));
    StreakSnoc(w.log, QueryAt(later.Millis()));
    EncodingAnswers(cfg.threshold, cfg.cooldown, w.breaker, w.log, later.Millis());
  }

  /** A guarded call in closed form. Refused exactly when the failure streak has
      tripped the breaker within the cooldown: then no attempt is made and the
      reply is `Unavailable`. Admitted, it makes exactly `k` attempts, `k` being
      the smaller of the budget and one past the first reply that may not be
      retried; it returns the last of these replies and records exactly these
      `k` outcomes. It leaves the breaker closed with no failure counted exactly
      when it succeeds. */
  lemma GuardClosedForm<R>(cfg: GuardConfig, env: Env<R>, op: AgentOp, w: Guarded<R>)
    requires WellFormed(cfg, w)
    ensures var (reply, w') := GuardedCall(cfg, env, op, w);
      && WellFormed(cfg, w')
      && w'.now >= w.now
      && (Refuses(cfg, env, w) ==>
        reply == Reply.Err(Unavailable) && w' == Asked(cfg, env, w) && w'.rawCalls == w.rawCalls && w'.raw == w.raw)
      && (!Refuses(cfg, env, w) ==>
        AttemptsDone(cfg, env, op, Asked(cfg, env, w), cfg.policy.maxAttempts, reply, w'))
      && (reply.Done? <==> w'.breaker.state == Closed && w'.breaker.consecutiveFailures == 0)
  {
    AskedFacts(cfg, env, w);
    var asked := Asked(cfg, env, w);
    var (reply, w') := GuardedCall(cfg, env, op, w);
    if !Refuses(cfg, env, w) {
      AttemptsClosedForm(cfg, env, op, asked, 0);
      var k := w'.rawCalls - asked.rawCalls;
      if reply.Err? {
        assert Streak(w'.log) >= 1;
      }
    }
  }

  /** Every guarded call ends within its attempt and time budgets, whatever the agent does. */
  lemma GuardCost<R>(cfg: GuardConfig, env: Env<R>, op: AgentOp, w: Guarded<R>)
    requires WellFormed(cfg, w)
    ensures var w' := GuardedCall(cfg, env, op, w).1;
      && w.rawCalls <= w'.rawCalls <= w.rawCalls + cfg.policy.maxAttempts
      && w'.spent <= w.spent + cfg.CallBudget()
      && w'.spent - w.spent == w'.now - (w.now + env.idle(w.raw, w.now))
  {
    GuardClosedForm(cfg, env, op, w);
    AskedFacts(cfg, env, w);
    hide WellFormed, Attempts, Asked, Refuses, Streak, LastFailure, LoggedAttempts;
    if !Refuses(cfg, env, w) {
      AttemptsCost(cfg, env, op, Asked(cfg, env, w), 0);
    }
  }

  // What ends the retries, reply by reply.

  /** An admitted call runs from the moment it asked. */
  lemma AdmittedCall<R>(cfg: GuardConfig, env: Env<R>, op: AgentOp, w: Guarded<R>)
    requires WellFormed(cfg, w) && !Refuses(cfg, env, w)
    ensures var asked := Asked(cfg, env, w);
      && GuardedCall(cfg, env, op, w) == Attempts(cfg, env, op, asked, 0)
      && WellFormed(cfg, asked) && asked.raw == w.raw && asked.rawCalls == w.rawCalls && asked.spent == w.spent
      && asked.now == w.now + env.idle(w.raw, w.now)
  {
    AskedFacts(cfg, env, w);
  }

  /** A first attempt that ends in time with success, a rejection or an internal error is
      the only one: the call returns its reply and takes its time. */
  lemma OneAttemptEnough<R>(cfg: GuardConfig, env: Env<R>, op: AgentOp, w: Guarded<R>)
    requires WellFormed(cfg, w) && !Refuses(cfg, env, w)
    requires var a := env.attempt(op, w.raw);
      a.took <= cfg.opTimeout
      && (a.reply == Done || a.reply == Reply.Err(Rejected) || a.reply == Reply.Err(PortError.Internal))
    ensures var a := env.attempt(op, w.raw);
      var (reply, w') := GuardedCall(cfg, env, op, w);
      && reply == a.reply && w'.rawCalls == w.rawCalls + 1 && w'.raw == a.next
      && w'.now == w.now + env.idle(w.raw, w.now) + a.took && w'.spent == w.spent + a.took
      && Streak(w'.log) == if a.reply == Done then 0 else Streak(w.log) + 1
  {
    AdmittedCall(cfg, env, op, w);
    AskedFacts(cfg, env, w);
    TryOnceFacts(cfg, env, op, Asked(cfg, env, w));
    AttemptsUnroll(cfg, env, op, Asked(cfg, env, w), 0);
    hide Asked, WellFormed, Refuses, GuardedCall, Attempts;
  }

  lemma {:induction false} RetriesAllAttempts<R>(
    cfg: GuardConfig, env: Env<R>, op: AgentOp, w: Guarded<R>, made: nat, slow: bool)
    requires cfg.Valid() && made < cfg.policy.maxAttempts
    requires forall raw :: RetriedAttempt(cfg, env.attempt(op, raw), slow)
    ensures var (reply, w') := Attempts(cfg, env, op, w, made);
      && w'.rawCalls == w.rawCalls + (cfg.policy.maxAttempts - made)
      && reply == Reply.Err(if slow then Timeout else Unavailable)
    decreases cfg.policy.maxAttempts - made
  {
    AttemptsUnroll(cfg, env, op, w, made);
    var a := env.attempt(op, w.raw);
    assert RetriedAttempt(cfg, a, slow);
    var w' := TryOnce(cfg, env, op, w);
    assert w'.rawCalls == w.rawCalls + 1;
    if made + 1 < cfg.policy.maxAttempts {
      hide TryOnce, Attempts, RetriedAttempt;
      RetriesAllAttempts(cfg, env, op, Sleep(w', cfg.policy.SleepFor(made, a.subsec)), made + 1, slow);
    }
  }

  /** An attempt that needs too long, or one that ends in time as unavailable. */
  ghost predicate RetriedAttempt<R>(cfg: GuardConfig, a: RawAttempt<R>, slow: bool) {
    if slow then a.took > cfg.opTimeout else a.took <= cfg.opTimeout && a.reply == Reply.Err(Unavailable)
  }

  /** An agent that hangs, or is unavailable, is asked `maxAttempts` times; if it hangs,
      the reply is a timeout whatever it would have replied. */
  lemma HangingAgent<R(!new)>(cfg: GuardConfig, env: Env<R>, op: AgentOp, w: Guarded<R>)
    requires WellFormed(cfg, w) && !Refuses(cfg, env, w)
    requires forall raw: R :: env.attempt(op, raw).took > cfg.opTimeout
    ensures var (reply, w') := GuardedCall(cfg, env, op, w);
      reply == Reply.Err(Timeout) && w'.rawCalls == w.rawCalls + cfg.policy.maxAttempts
  {
    AdmittedCall(cfg, env, op, w);
    RetriesAllAttempts(cfg, env, op, Asked(cfg, env, w), 0, true);
  }

  lemma UnavailableAgent<R(!new)>(cfg: GuardConfig, env: Env<R>, op: AgentOp, w: Guarded<R>)
    requires WellFormed(cfg, w) && !Refuses(cfg, env, w)
    requires forall raw: R ::
      env.attempt(op, raw).took <= cfg.opTimeout && env.attempt(op, raw).reply == Reply.Err(Unavailable)
    ensures var (reply, w') := GuardedCall(cfg, env, op, w);
      reply == Reply.Err(Unavailable) && w'.rawCalls == w.rawCalls + cfg.policy.maxAttempts
  {
    AdmittedCall(cfg, env, op, w);
    RetriesAllAttempts(cfg, env, op, Asked(cfg, env, w), 0, false);
  }

  /** The caps of retries `made` to `made + n - 1`, added up, and their lower halves. */
  function Caps(p: RetryPolicy, made: nat, n: nat): nat
    decreases n
  {
    if n == 0 then 0 else p.Cap(made) + Caps(p, made + 1, n - 1)
  }

  function HalfCaps(p: RetryPolicy, made: nat, n: nat): nat
    decreases n
  {
    if n == 0 then 0 else p.Cap(made) / 2 + HalfCaps(p, made + 1, n - 1)
  }

  /** What `k` attempts can take, between the sleeps and with them. */
  ghost predicate Waited<R>(cfg: GuardConfig, w: Guarded<R>, made: nat, w': Guarded<R>) {
    && w'.rawCalls > w.rawCalls
    && var k := w'.rawCalls - w.rawCalls;
    && w.now + HalfCaps(cfg.policy, made, k - 1) <= w'.now
    && w'.now <= w.now + Caps(cfg.policy, made, k - 1) + k * cfg.opTimeout
  }

  lemma WaitedOneMore<R>(cfg: GuardConfig, w: Guarded<R>, made: nat, w1: Guarded<R>, delay: nat, w': Guarded<R>)
    requires w1.rawCalls == w.rawCalls + 1 && w.now <= w1.now <= w.now + cfg.opTimeout
    requires cfg.policy.Cap(made) / 2 <= delay <= cfg.policy.Cap(made)
    requires Waited(cfg, Sleep(w1, delay), made + 1, w')
    ensures Waited(cfg, w, made, w')
  {
    TimesOneMore(w'.rawCalls - w1.rawCalls, cfg.opTimeout);
  }

  lemma TimesOneMore(k: int, t: nat)
    ensures (k + 1) * t == k * t + t
  {
  }

  lemma {:induction false} AttemptsWait<R>(cfg: GuardConfig, env: Env<R>, op: AgentOp, w: Guarded<R>, made: nat)
    requires cfg.Valid() && made < cfg.policy.maxAttempts
    ensures Waited(cfg, w, made, Attempts(cfg, env, op, w, made).1)
    decreases cfg.policy.maxAttempts - made
  {
    AttemptsUnroll(cfg, env, op, w, made);
    var a := env.attempt(op, w.raw);
    var w1 := TryOnce(cfg, env, op, w);
    assert w1.rawCalls == w.rawCalls + 1 && w.now <= w1.now <= w.now + cfg.opTimeout;
    if made + 1 < cfg.policy.maxAttempts && MayRetry(Settle(cfg, a)) {
      var delay := cfg.policy.SleepFor(made, a.subsec);
      hide TryOnce, Settle, Attempts, Waited;
      BackoffRange(cfg.policy, made, a.subsec);
      AttemptsWait(cfg, env, op, Sleep(w1, delay), made + 1);
      WaitedOneMore(cfg, w, made, w1, delay, Attempts(cfg, env, op, w, made).1);
    }
  }

  /** A call that makes `k` attempts sleeps at least the lower halves of the first `k - 1`
      caps and at most these caps, and each attempt is cut off in time. */
  lemma GuardWaits<R>(cfg: GuardConfig, env: Env<R>, op: AgentOp, w: Guarded<R>)
    requires WellFormed(cfg, w) && !Refuses(cfg, env, w)
    ensures var w' := GuardedCall(cfg, env, op, w).1;
      var asked, k := w.now + env.idle(w.raw, w.now), w'.rawCalls - w.rawCalls;
      && k >= 1
      && asked + HalfCaps(cfg.policy, 0, k - 1) <= w'.now
      && w'.now <= asked + Caps(cfg.policy, 0, k - 1) + k * cfg.opTimeout
  {
    AdmittedCall(cfg, env, op, w);
    AttemptsWait(cfg, env, op, Asked(cfg, env, w), 0);
    hide Asked, WellFormed, Refuses, GuardedCall, Attempts, Caps, HalfCaps;
  }

  /** One retry, to the nanosecond: an attempt that is unavailable, the sleep before the
      first retry, and an attempt that succeeds. */
  lemma OneRetry<R>(cfg: GuardConfig, env: Env<R>, op: AgentOp, w: Guarded<R>)
    requires WellFormed(cfg, w) && !Refuses(cfg, env, w) && cfg.policy.maxAttempts >= 2
    requires var a := env.attempt(op, w.raw);
      && a.took <= cfg.opTimeout && a.reply == Reply.Err(Unavailable)
      && env.attempt(op, a.next).took <= cfg.opTimeout && env.attempt(op, a.next).reply == Done
    ensures var a := env.attempt(op, w.raw);
      var a' := env.attempt(op, a.next);
      var (reply, w') := GuardedCall(cfg, env, op, w);
      var cap := if cfg.policy.baseDelay < cfg.policy.maxDelay then cfg.policy.baseDelay else cfg.policy.maxDelay;
      && reply == Done && w'.rawCalls == w.rawCalls + 2 && w'.raw == a'.next
      && w'.now == w.now + env.idle(w.raw, w.now) + a.took + a'.took
        + if cap == 0 then 0 else cap / 2 + a.subsec % (cap - cap / 2)
  {
    AdmittedCall(cfg, env, op, w);
    var asked := Asked(cfg, env, w);
    var a := env.attempt(op, w.raw);
    var delay := cfg.policy.SleepFor(0, a.subsec);
    AttemptsUnroll(cfg, env, op, asked, 0);
    var w1 := TryOnce(cfg, env, op, asked);
    assert w1.raw == a.next && w1.now == asked.now + a.took && w1.rawCalls == asked.rawCalls + 1;
    AttemptsUnroll(cfg, env, op, Sleep(w1, delay), 1);
    CapsByDoubling(cfg.policy, 0);
    BackoffExact(cfg.policy, 0, a.subsec);
    hide Asked, WellFormed, Refuses, GuardedCall, Attempts;
  }

  /** Refusal in nanoseconds: a tripped breaker refuses while the millisecond of the call
      is less than `cooldown` milliseconds after that of the last failure. */
  lemma RefusedInMillis<R>(cfg: GuardConfig, env: Env<R>, op: AgentOp, w: Guarded<R>)
    requires WellFormed(cfg, w)
    ensures var (reply, w') := GuardedCall(cfg, env, op, w);
      w'.rawCalls == w.rawCalls <==>
        Streak(w.log) >= cfg.threshold
        && (w.now + env.idle(w.raw, w.now)) / 1_000_000 < LastFailure(w.log) + cfg.cooldown
  {
    GuardClosedForm(cfg, env, op, w);
    AskedFacts(cfg, env, w);
    assert Asked(cfg, env, w).now == w.now + env.idle(w.raw, w.now);
    hide Asked, WellFormed, GuardedCall, Streak, LastFailure;
  }

  lemma LaterMillis(now: nat, more: nat)
    ensures now / NANOS_PER_MILLI <= (now + more) / NANOS_PER_MILLI
  {
  }

  /** The decorator object: it owns the breaker and drives the raw agent. */
  class ResilientNodeAgent<R> {
    const cfg: GuardConfig
    const env: Env<R>
    const breaker: CircuitBreaker
    var raw: R
    var now: nat
    ghost var rawCalls: nat
    ghost var spent: nat

    ghost function Value(): Guarded<R>
      reads this, breaker
    {
      Guarded(raw, now, breaker.Value(), breaker.log, rawCalls, spent)
    }

    ghost predicate Valid()
      reads this, breaker
    {
      && cfg.Valid()
      && breaker.failureThreshold == cfg.threshold
      && breaker.cooldownMillis == cfg.cooldown
      && breaker.Valid()
      && LastAt(breaker.log) <= now / NANOS_PER_MILLI
    }

    /** Any setting of attempts and threshold will do: zero of either counts as one. */
    constructor (
      env: Env<R>, raw: R, now: nat, maxAttempts: nat, retryBase: Duration, retryMax: Duration,
      opTimeout: nat, threshold: nat, cooldown: nat)
      requires (retryMax + 1) / 2 <= U64_MAX
      ensures Valid() && fresh(breaker)
      ensures cfg.policy == RetryPolicy(if maxAttempts == 0 then 1 else maxAttempts, retryBase, retryMax)
      ensures cfg.opTimeout == opTimeout && cfg.cooldown == cooldown
      ensures cfg.threshold == if threshold == 0 then 1 else threshold
      ensures this.env == env && Value() == Guarded(raw, now, Inner.FRESH, [], 0, 0)
    {
      cfg := GuardConfig.New(maxAttempts, retryBase, retryMax, opTimeout, threshold, cooldown);
      this.env := env;
      this.raw := raw;
      this.now := now;
      breaker := new CircuitBreaker(threshold, cooldown);
      rawCalls, spent := 0, 0;
    }

    method AttemptOnce(op: AgentOp) returns (reply: Reply, subsec: Subsec)
      requires Valid()
      modifies this, breaker
      ensures Valid()
      ensures reply == Settle(cfg, env.attempt(op, old(raw)))
      ensures subsec == env.attempt(op, old(raw)).subsec
      ensures Value() == TryOnce(cfg, env, op, old(Value()))
    {
      hide Encodes, Monotone, Streak, LastFailure;
      var a := env.attempt(op, raw);
      var cost := if a.took <= cfg.opTimeout then a.took else cfg.opTimeout;
      LaterMillis(now, cost);
      reply := if a.took <= cfg.opTimeout then a.reply else Reply.Err(Timeout);
      subsec := a.subsec;
      raw, now := a.next, now + cost;
      rawCalls, spent := rawCalls + 1, spent + cost;
      match reply {
        case Done => breaker.OnSuccess(now / NANOS_PER_MILLI);
        case Err(_) => breaker.OnFailure(now / NANOS_PER_MILLI);
      }
    }

    method Ask() returns (admitted: bool)
      requires Valid()
      modifies this, breaker
      ensures Valid()
      ensures Value() == Asked(cfg, env, old(Value()))
      ensures admitted <==> !breaker.state.Open?
    {
      ghost var before := Value();
      var pause := env.idle(raw, now);
      LaterMillis(now, pause);
      AskedFacts(cfg, env, before);
      now := now + pause;
      admitted := breaker.Acquire(now / NANOS_PER_MILLI);
    }

    method SleepBefore(n: nat, subsec: Subsec)
      requires Valid()
      modifies this
      ensures Valid()
      ensures Value() == Sleep(old(Value()), cfg.policy.SleepFor(n, subsec))
    {
      var delay := cfg.policy.SleepFor(n, subsec);
      LaterMillis(now, delay);
      now := now + delay;
      spent := spent + delay;
    }

    method RetryAttempts(op: AgentOp) returns (reply: Reply)
      requires Valid()
      modifies this, breaker
      ensures Valid()
      ensures (reply, Value()) == Attempts(cfg, env, op, old(Value()), 0)
    {
      ghost var start := Value();
      var attempt := 0;
      while true
        invariant Valid() && attempt < cfg.policy.maxAttempts
        invariant Attempts(cfg, env, op, start, 0) == Attempts(cfg, env, op, Value(), attempt)
        decreases cfg.policy.maxAttempts - attempt
      {
        AttemptsUnroll(cfg, env, op, Value(), attempt);
        var subsec;
        reply, subsec := AttemptOnce(op);
        match reply {
          case Done => return;
          case Err(e) =>
            attempt := attempt + 1;
            if attempt >= cfg.policy.maxAttempts || !e.IsRetryable() {
              return;
            }
            SleepBefore(attempt - 1, subsec);
        }
      }
    }

    /** Breaker, then bounded retry with a timeout on each attempt. */
    method Guard(op: AgentOp) returns (reply: Reply)
      requires Valid()
      modifies this, breaker
      ensures Valid()
      ensures (reply, Value()) == GuardedCall(cfg, env, op, old(Value()))
    {
      var admitted := Ask();
      if !admitted {
        return Reply.Err(Unavailable);
      }
      reply := RetryAttempts(op);
    }
  }
}
