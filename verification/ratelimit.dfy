/** The lazy token-bucket rate limiter, and its conformance to the window bound
    that a token bucket stands for. */
module RateLimit {
  import opened Domain

  /** One call that touched the bucket: when, and how many tokens it took. */
  datatype Entry = Entry(at: nat, taken: real)

  /** Tokens the bucket gains over `ms` milliseconds at `rate` tokens a second. */
  function Credit(rate: real, ms: nat): real {
    (ms as real / 1000.0) * rate
  }

  lemma CreditAdds(rate: real, a: nat, b: nat)
    ensures Credit(rate, a + b) == Credit(rate, a) + Credit(rate, b)
    ensures rate >= 0.0 ==> Credit(rate, a) >= 0.0
  {
    assert (a + b) as real / 1000.0 == a as real / 1000.0 + b as real / 1000.0;
  }

  /** Tokens taken by the calls made at time `since` or later. */
  ghost function TakenSince(log: seq<Entry>, since: nat): real {
    if log == [] then 0.0
    else
      var last := log[|log| - 1];
      TakenSince(log[..|log| - 1], since) + if last.at >= since then last.taken else 0.0
  }

  lemma TakenSinceSnoc(log: seq<Entry>, e: Entry, since: nat)
    ensures TakenSince(log + [e], since) == TakenSince(log, since) + if e.at >= since then e.taken else 0.0
  {
    assert (log + [e])[..|log|] == log;
  }

  lemma {:induction false} NothingTakenAfterLast(log: seq<Entry>, since: nat)
    requires forall e :: e in log ==> e.at < since
    ensures TakenSince(log, since) == 0.0
  {
    if log != [] {
      NothingTakenAfterLast(log[..|log| - 1], since);
    }
  }

  /** The token-bucket law: taking `n` more tokens at `now` keeps every window
      that ends now, and starts at or after the limiter's creation, within the
      burst capacity plus what the rate earns over the window. */
  ghost predicate WithinEveryWindow(
    capacity: real, rate: real, start: nat, log: seq<Entry>, now: nat, n: real)
    requires start <= now
  {
    forall since: nat :: start <= since <= now ==>
      TakenSince(log, since) + n <= capacity + Credit(rate, now - since)
  }

  /** A window `[since, last]` that the bucket's level exactly measures. */
  ghost predicate Binding(
    capacity: real, rate: real, start: nat, log: seq<Entry>, tokens: real, last: nat, since: nat)
  {
    start <= since <= last
    && tokens == capacity + Credit(rate, last - since) - TakenSince(log, since)
  }

  /** What the two stored numbers mean: the level is the smallest slack over all
      windows ending at the last refill. */
  ghost predicate LevelIsLeastSlack(
    capacity: real, rate: real, start: nat, log: seq<Entry>, tokens: real, last: nat)
  {
    start <= last
    && (forall e :: e in log ==> e.at <= last)
    && WithinEveryWindow(capacity, rate, start, log, last, tokens)
    && exists since :: Binding(capacity, rate, start, log, tokens, last, since)
  }

  /** The bucket after the clock reads `now`: the values `refill` stores. */
  function Refilled(capacity: real, rate: real, tokens: real, last: nat, now: nat): (r: (real, nat)) {
    if now > last then
      var sum := tokens + Credit(rate, now - last);
      (if sum <= capacity then sum else capacity, now)
    else (tokens, last)
  }

  lemma RefillKeepsLeastSlack(
    capacity: real, rate: real, start: nat, log: seq<Entry>, tokens: real, last: nat, now: nat)
    requires rate >= 0.0
    requires LevelIsLeastSlack(capacity, rate, start, log, tokens, last)
    ensures Refilled(capacity, rate, tokens, last, now).1 == Max(last, now)
    ensures LevelIsLeastSlack(capacity, rate, start, log,
      Refilled(capacity, rate, tokens, last, now).0, Max(last, now))
  {
    if now > last {
      var level := Refilled(capacity, rate, tokens, last, now).0;
      forall since: nat | start <= since <= now
        ensures TakenSince(log, since) + level <= capacity + Credit(rate, now - since)
      {
        if since <= last {
          CreditAdds(rate, last - since, now - last);
        } else {
          NothingTakenAfterLast(log, since);
          CreditAdds(rate, now - since, 0);
        }
      }
      if level == capacity {
        NothingTakenAfterLast(log, now);
        assert Credit(rate, 0) == 0.0;
        assert Binding(capacity, rate, start, log, level, now, now);
      } else {
        var since :| Binding(capacity, rate, start, log, tokens, last, since);
        CreditAdds(rate, last - since, now - last);
        assert Binding(capacity, rate, start, log, level, now, since);
      }
    }
  }

  /** A bucket that holds `n` tokens is exactly one whose windows all allow `n`. */
  lemma LevelDecides(
    capacity: real, rate: real, start: nat, log: seq<Entry>, tokens: real, last: nat, n: real)
    requires LevelIsLeastSlack(capacity, rate, start, log, tokens, last)
    ensures tokens >= n <==> WithinEveryWindow(capacity, rate, start, log, last, n)
  {
    var since :| Binding(capacity, rate, start, log, tokens, last, since);
    if WithinEveryWindow(capacity, rate, start, log, last, n) {
      assert TakenSince(log, since) + n <= capacity + Credit(rate, last - since);
    }
    if tokens >= n {
      forall s: nat | start <= s <= last
        ensures TakenSince(log, s) + n <= capacity + Credit(rate, last - s)
      {
        assert TakenSince(log, s) + tokens <= capacity + Credit(rate, last - s);
      }
    }
  }

  lemma TakingKeepsLeastSlack(
    capacity: real, rate: real, start: nat, log: seq<Entry>, tokens: real, last: nat, taken: real)
    requires LevelIsLeastSlack(capacity, rate, start, log, tokens, last)
    ensures LevelIsLeastSlack(capacity, rate, start, log + [Entry(last, taken)], tokens - taken, last)
  {
    var log' := log + [Entry(last, taken)];
    forall since: nat | start <= since <= last
      ensures TakenSince(log', since) + (tokens - taken) <= capacity + Credit(rate, last - since)
    {
      TakenSinceSnoc(log, Entry(last, taken), since);
      assert TakenSince(log, since) + tokens <= capacity + Credit(rate, last - since);
    }
    var since :| Binding(capacity, rate, start, log, tokens, last, since);
    TakenSinceSnoc(log, Entry(last, taken), since);
    assert Binding(capacity, rate, start, log', tokens - taken, last, since);
  }

  /** The limiter's numbers as one value, for models that replay it. */
  datatype Bucket = Bucket(capacity: real, rate: real, tokens: real, last: nat) {
    static function New(capacity: real, rate: real, now: nat): Bucket {
      var cap := if capacity <= 0.0 then 0.0 else capacity;
      Bucket(cap, if rate <= 0.0 then 0.0 else rate, cap, now)
    }

    function Refill(now: nat): Bucket {
      var (level, at) := Refilled(capacity, rate, tokens, last, now);
      this.(tokens := level, last := at)
    }

    function TryTake(n: real, now: nat): (r: (bool, Bucket)) {
      var b := Refill(now);
      if b.tokens >= n then (true, b.(tokens := b.tokens - n)) else (false, b)
    }
  }

  /** A bucket whose numbers say what its log of calls makes them mean. */
  ghost predicate Explains(b: Bucket, start: nat, log: seq<Entry>) {
    b.rate >= 0.0 && LevelIsLeastSlack(b.capacity, b.rate, start, log, b.tokens, b.last)
  }

  lemma RefillExplains(b: Bucket, start: nat, log: seq<Entry>, now: nat)
    requires Explains(b, start, log)
    ensures Explains(b.Refill(now), start, log)
  {
    RefillKeepsLeastSlack(b.capacity, b.rate, start, log, b.tokens, b.last, now);
  }

  lemma NewExplains(capacity: real, rate: real, now: nat)
    ensures Explains(Bucket.New(capacity, rate, now), now, [])
  {
    var b := Bucket.New(capacity, rate, now);
    assert Credit(b.rate, 0) == 0.0;
    assert Binding(b.capacity, b.rate, now, [], b.tokens, now, now);
  }

  /** One request, both directions: it is granted exactly when every window
      allows it, and the bucket still explains the log with this call added. */
  lemma TryTakeConforms(b: Bucket, start: nat, log: seq<Entry>, n: real, now: nat)
    requires Explains(b, start, log)
    ensures start <= Max(b.last, now)
    ensures var (ok, b') := b.TryTake(n, now);
      && (ok <==> WithinEveryWindow(b.capacity, b.rate, start, log, Max(b.last, now), n))
      && Explains(b', start, log + [Entry(Max(b.last, now), if ok then n else 0.0)])
      && b'.last == Max(b.last, now) && b'.capacity == b.capacity && b'.rate == b.rate
  {
    RefillKeepsLeastSlack(b.capacity, b.rate, start, log, b.tokens, b.last, now);
    var r := b.Refill(now);
    LevelDecides(b.capacity, b.rate, start, log, r.tokens, r.last, n);
    TakingKeepsLeastSlack(b.capacity, b.rate, start, log, r.tokens, r.last, if r.tokens >= n then n else 0.0);
  }

  /** A clock-driven request sequence: clock readings and requested amounts. */
  datatype Request = Request(at: nat, n: real)

  ghost function Replay(b: Bucket, log: seq<Entry>, requests: seq<Request>): (r: (Bucket, seq<Entry>)) {
    if requests == [] then (b, log)
    else
      var (b', log') := Replay(b, log, requests[..|requests| - 1]);
      var q := requests[|requests| - 1];
      var (ok, b'') := b'.TryTake(q.n, q.at);
      (b'', log' + [Entry(Max(b'.last, q.at), if ok then q.n else 0.0)])
  }

  lemma {:induction false} ReplayExplains(capacity: real, rate: real, start: nat, requests: seq<Request>)
    ensures var b := Bucket.New(capacity, rate, start);
      var (b', log) := Replay(b, [], requests);
      Explains(b', start, log) && b'.capacity == b.capacity && b'.rate == b.rate
  {
    NewExplains(capacity, rate, start);
    if requests != [] {
      var before := requests[..|requests| - 1];
      ReplayExplains(capacity, rate, start, before);
      var (b, log) := Replay(Bucket.New(capacity, rate, start), [], before);
      TryTakeConforms(b, start, log, requests[|requests| - 1].n, requests[|requests| - 1].at);
    }
  }

  /** However the limiter was used, and whatever its clock did, the tokens ever
      granted stay within the capacity plus the rate times its lifetime. */
  lemma NeverOverAdmits(capacity: real, rate: real, start: nat, requests: seq<Request>, since: nat)
    requires start <= since
    ensures var b := Bucket.New(capacity, rate, start);
      var (b', log) := Replay(b, [], requests);
      (forall q :: q in requests ==> q.n >= 0.0) && since <= b'.last ==>
        TakenSince(log, since) <= b.capacity + Credit(b.rate, b'.last - since)
  {
    if forall q :: q in requests ==> q.n >= 0.0 {
      ReplayExplains(capacity, rate, start, requests);
      LevelStaysNonNegative(capacity, rate, start, requests);
    }
  }

  lemma {:induction false} LevelStaysNonNegative(capacity: real, rate: real, start: nat, requests: seq<Request>)
    requires forall q :: q in requests ==> q.n >= 0.0
    ensures Replay(Bucket.New(capacity, rate, start), [], requests).0.tokens >= 0.0
  {
    if requests != [] {
      var before := requests[..|requests| - 1];
      LevelStaysNonNegative(capacity, rate, start, before);
      ReplayExplains(capacity, rate, start, before);
      var b := Replay(Bucket.New(capacity, rate, start), [], before).0;
      CreditAdds(b.rate, if requests[|requests| - 1].at > b.last then requests[|requests| - 1].at - b.last else 0, 0);
    }
  }

  // The law in tokens and milliseconds.

  /** The window law written out: `rate` tokens are earned in a thousand milliseconds. */
  lemma WindowsInMillis(capacity: real, rate: real, start: nat, log: seq<Entry>, now: nat, n: real)
    requires start <= now
    ensures WithinEveryWindow(capacity, rate, start, log, now, n) <==>
      forall since: nat :: start <= since <= now ==>
        1000.0 * (TakenSince(log, since) + n - capacity) <= rate * (now - since) as real
  {
    hide TakenSince, WithinEveryWindow;
    WindowsFit(capacity, rate, start, log, now, n);
  }

  /** One window, in tokens and milliseconds. */
  ghost predicate WindowFits(capacity: real, rate: real, taken: real, ms: nat) {
    1000.0 * (taken - capacity) <= rate * ms as real
  }

  lemma WindowsFit(capacity: real, rate: real, start: nat, log: seq<Entry>, now: nat, n: real)
    requires start <= now
    ensures WithinEveryWindow(capacity, rate, start, log, now, n) <==>
      forall since: nat :: start <= since <= now ==> WindowFits(capacity, rate, TakenSince(log, since) + n, now - since)
  {
    hide Credit, TakenSince, WindowFits;
    if WithinEveryWindow(capacity, rate, start, log, now, n) {
      forall since: nat | start <= since <= now
        ensures WindowFits(capacity, rate, TakenSince(log, since) + n, now - since)
      {
        assert TakenSince(log, since) + n <= capacity + Credit(rate, now - since);
        OneWindowInMillis(capacity, rate, TakenSince(log, since) + n, now - since);
      }
    } else {
      var since: nat :| start <= since <= now && !(TakenSince(log, since) + n <= capacity + Credit(rate, now - since));
      OneWindowInMillis(capacity, rate, TakenSince(log, since) + n, now - since);
      assert !WindowFits(capacity, rate, TakenSince(log, since) + n, now - since);
    }
  }

  lemma OneWindowInMillis(capacity: real, rate: real, taken: real, ms: nat)
    ensures taken <= capacity + Credit(rate, ms) <==> WindowFits(capacity, rate, taken, ms)
  {
    CreditInMillis(rate, ms);
  }

  lemma CreditInMillis(rate: real, ms: nat)
    ensures 1000.0 * Credit(rate, ms) == rate * ms as real
  {
  }

  /** A bucket emptied at `last` grants a request that fits its capacity exactly when the
      milliseconds since then earned it. */
  lemma EmptiedBucket(capacity: real, rate: real, last: nat, ms: nat, n: real)
    requires n <= capacity
    ensures Bucket(capacity, rate, 0.0, last).TryTake(n, last + ms).0 <==> 1000.0 * n <= rate * ms as real
  {
    var earned := Credit(rate, last + ms - last);
    CreditInMillis(rate, ms);
    hide Credit;
    assert ms == 0 ==> rate * ms as real == 0.0;
    assert ms > 0 ==> Refilled(capacity, rate, 0.0, last, last + ms).0 == if earned <= capacity then earned else capacity;
  }

  /** Over any `seconds` whole seconds of a limiter's life it grants at most its capacity
      and `seconds` times its rate; a negative capacity or rate counts as zero. */
  lemma GrantedOverSeconds(capacity: real, rate: real, start: nat, requests: seq<Request>, since: nat, seconds: nat)
    requires start <= since && (forall q :: q in requests ==> q.n >= 0.0)
    ensures var (b, log) := Replay(Bucket.New(capacity, rate, start), [], requests);
      since <= b.last <= since + 1000 * seconds ==>
        TakenSince(log, since) <=
          (if capacity < 0.0 then 0.0 else capacity) + (if rate < 0.0 then 0.0 else rate) * seconds as real
  {
    NeverOverAdmits(capacity, rate, start, requests, since);
    var b := Replay(Bucket.New(capacity, rate, start), [], requests).0;
    if since <= b.last <= since + 1000 * seconds {
      SecondsEarn(Bucket.New(capacity, rate, start).rate, b.last - since, seconds);
    }
    hide Replay, TakenSince, Credit;
  }

  lemma SecondsEarn(rate: real, ms: nat, seconds: nat)
    requires rate >= 0.0 && ms <= 1000 * seconds
    ensures Credit(rate, ms) <= rate * seconds as real
  {
    CreditInMillis(rate, ms);
    var more := 1000 * seconds - ms;
    assert rate * more as real >= 0.0;
    assert rate * (ms + more) as real == rate * ms as real + rate * more as real;
    assert (1000 * seconds) as real == 1000.0 * seconds as real;
    assert 1000.0 * (rate * seconds as real) == rate * (1000.0 * seconds as real);
  }

  /** The limiter object. `now` is the clock reading a method takes under its lock. */
  class RateLimiter {
    const capacity: real
    const refillPerSec: real
    var tokens: real
    var lastRefillMillis: nat

    /** When the limiter was made, and every call that refilled it since. */
    ghost const start: nat
    ghost var log: seq<Entry>

    ghost predicate Valid()
      reads this
    {
      Explains(Value(), start, log)
    }

    function Value(): Bucket
      reads this
    {
      Bucket(capacity, refillPerSec, tokens, lastRefillMillis)
    }

    constructor (capacity: real, refillPerSec: real, now: nat)
      ensures Valid() && start == now && log == []
      ensures Value() == Bucket.New(capacity, refillPerSec, now)
      ensures this.capacity == (if capacity < 0.0 then 0.0 else capacity) && tokens == this.capacity
      ensures this.refillPerSec == if refillPerSec < 0.0 then 0.0 else refillPerSec
    {
      this.capacity := if capacity <= 0.0 then 0.0 else capacity;
      this.refillPerSec := if refillPerSec <= 0.0 then 0.0 else refillPerSec;
      tokens := if capacity <= 0.0 then 0.0 else capacity;
      lastRefillMillis := now;
      start := now;
      log := [];
      new;
      NewExplains(capacity, refillPerSec, now);
    }

    method Refill(now: nat)
      requires Valid()
      modifies this`tokens, this`lastRefillMillis
      ensures Valid()
      ensures Value() == old(Value()).Refill(now)
    {
      ghost var before := Value();
      RefillExplains(before, start, log, now);
      var elapsedMs := if now > lastRefillMillis then now - lastRefillMillis else 0;
      if elapsedMs > 0 {
        var added := (elapsedMs as real / 1000.0) * refillPerSec;
        tokens := if tokens + added <= capacity then tokens + added else capacity;
        lastRefillMillis := now;
      }
      assert Value() == before.Refill(now);
    }

    /** Grants `n` tokens exactly when no window since creation would exceed the
        capacity plus what the rate earned over it. */
    method TryAcquireN(n: real, now: nat) returns (ok: bool)
      requires Valid()
      modifies this
      ensures Valid()
      ensures start <= lastRefillMillis == Max(old(lastRefillMillis), now)
      ensures ok <==> WithinEveryWindow(capacity, refillPerSec, start, old(log), lastRefillMillis, n)
      ensures ok <==> forall since: nat :: start <= since <= lastRefillMillis ==>
        1000.0 * (TakenSince(old(log), since) + n - capacity) <= refillPerSec * (lastRefillMillis - since) as real
      ensures log == old(log) + [Entry(lastRefillMillis, if ok then n else 0.0)]
      ensures (ok, Value()) == old(Value()).TryTake(n, now)
    {
      hide WithinEveryWindow, TakenSince, LevelIsLeastSlack;
      TryTakeConforms(Value(), start, log, n, now);
      WindowsInMillis(capacity, refillPerSec, start, log, if now > lastRefillMillis then now else lastRefillMillis, n);
      Refill(now);
      ok := tokens >= n;
      if ok {
        tokens := tokens - n;
      }
      log := log + [Entry(lastRefillMillis, if ok then n else 0.0)];
    }

    method TryAcquire(now: nat) returns (ok: bool)
      requires Valid()
      modifies this
      ensures Valid()
      ensures start <= lastRefillMillis == Max(old(lastRefillMillis), now)
      ensures ok <==> WithinEveryWindow(capacity, refillPerSec, start, old(log), lastRefillMillis, 1.0)
      ensures log == old(log) + [Entry(lastRefillMillis, if ok then 1.0 else 0.0)]
      ensures (ok, Value()) == old(Value()).TryTake(1.0, now)
    {
      ok := TryAcquireN(1.0, now);
    }

    /** The level after a refill: the largest request that would be granted now. */
    method Available(now: nat) returns (level: real)
      requires Valid()
      modifies this
      ensures Valid()
      ensures log == old(log)
      ensures Value() == old(Value()).Refill(now) && level == tokens
      ensures start <= lastRefillMillis
      ensures forall n: real :: n <= level <==>
        WithinEveryWindow(capacity, refillPerSec, start, log, lastRefillMillis, n)
    {
      Refill(now);
      level := tokens;
      forall n: real
        ensures n <= level <==> WithinEveryWindow(capacity, refillPerSec, start, log, lastRefillMillis, n)
      {
        LevelDecides(capacity, refillPerSec, start, log, tokens, lastRefillMillis, n);
      }
    }
  }
}
