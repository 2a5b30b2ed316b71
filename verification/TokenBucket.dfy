/** The token bucket that paces broker calls, under any interleaving of threads.
    The lock makes each try one step; between two tries only the clock moves, and it never goes back. */
module TokenBucket {
  import opened Dict

  /** Tokens that arrive in a stretch of time. */
  function Earned(rate: real, span: real): real { rate * span }

  lemma EarnedLaws(rate: real, a: real, b: real)
    requires rate > 0.0
    ensures Earned(rate, a) + Earned(rate, b) == Earned(rate, a + b)
    ensures a >= 0.0 ==> Earned(rate, a) >= 0.0
  {
  }

  function Min(a: real, b: real): real { if a < b then a else b }

  datatype Settings = Settings(rate: real, capacity: real)

  datatype State = State(tokens: real, last: real)

  /** One attempt by some thread: when it held the lock, and how many tokens it asked for. */
  datatype Try = Try(now: real, n: nat)

  function Refilled(c: Settings, b: State, now: real): real {
    Min(c.capacity, b.tokens + Earned(c.rate, now - b.last))
  }

  function Granted(c: Settings, b: State, t: Try): bool {
    Refilled(c, b, t.now) >= t.n as real
  }

  function After(c: Settings, b: State, t: Try): State {
    State(Refilled(c, b, t.now) - if Granted(c, b, t) then t.n as real else 0.0, t.now)
  }

  predicate Usable(c: Settings) {
    c.rate > 0.0 && c.capacity >= 0.0
  }

  class TokenBucket {
    const settings: Settings
    var tokens: real
    var last: real

    constructor (rate: real, capacity: Option<real>, now: real)
      ensures settings == Settings(rate, if capacity.Some? then capacity.value else 1.0)
      ensures Value() == Full(settings, now) && tokens == settings.capacity && last == now
    {
      settings := Settings(rate, if capacity.Some? then capacity.value else 1.0);
      tokens, last := if capacity.Some? then capacity.value else 1.0, now;
    }

    function Value(): State
      reads this
    {
      State(tokens, last)
    }

    /** The body of the lock: takes the tokens, or says how long to sleep. */
    method TryAcquire(n: nat, now: real) returns (wait: Option<real>)
      requires Usable(settings)
      modifies this
      ensures Value() == After(settings, old(Value()), Try(now, n))
      ensures wait.None? <==> Granted(settings, old(Value()), Try(now, n))
      ensures wait.Some? ==> wait.value == Wait(settings, Value(), n)
      ensures var refilled := old(tokens) + settings.rate * (now - old(last));
        var filled := if refilled < settings.capacity then refilled else settings.capacity;
        && last == now
        && (filled >= n as real ==> wait.None? && tokens == filled - n as real)
        && (filled < n as real ==> wait.Some? && tokens == filled && wait.value * settings.rate == n as real - filled)
    {
      tokens := Min(settings.capacity, tokens + Earned(settings.rate, now - last));
      last := now;
      if tokens >= n as real {
        tokens := tokens - n as real;
        return None;
      }
      return Some((n as real - tokens) / settings.rate);
    }

    /** acquire with nobody else on the bucket: at most one sleep, however long the system oversleeps. */
    method AcquireAlone(n: nat, start: real, overslept: nat) returns (done: real, tries: nat)
      requires Usable(settings) && n as real <= settings.capacity
      requires 0.0 <= tokens <= settings.capacity && last <= start
      modifies this
      ensures tries <= 2 && done >= start && last == done
      ensures 0.0 <= tokens <= settings.capacity
      ensures tries == 1 <==> Granted(settings, old(Value()), Try(start, n))
      ensures tries == 1 ==> Value() == After(settings, old(Value()), Try(start, n))
      ensures tries == 2 ==>
        var failed := After(settings, old(Value()), Try(start, n));
        && done == start + Wait(settings, failed, n) + overslept as real
        && Value() == After(settings, failed, Try(done, n)) && Granted(settings, failed, Try(done, n))
    {
      done, tries := start, 0;
      while true
        invariant tries <= 1 && done >= start && last <= done && 0.0 <= tokens <= settings.capacity
        invariant tries == 0 ==> done == start && Value() == old(Value())
        invariant tries == 1 ==> Granted(settings, Value(), Try(done, n))
                                 && !Granted(settings, old(Value()), Try(start, n))
                                 && Value() == After(settings, old(Value()), Try(start, n))
                                 && done == start + Wait(settings, Value(), n) + overslept as real
        decreases 2 - tries
      {
        StepInRange(settings, Value(), Try(done, n));
        var wait := TryAcquire(n, done);
        tries := tries + 1;
        if wait.None? {
          return;
        }
        WaitIsEnoughIff(settings, Value(), n, overslept as real);
        done := done + wait.value + overslept as real;
      }
    }
  }

  function Full(c: Settings, now: real): State { State(c.capacity, now) }

  function Wait(c: Settings, b: State, n: nat): real
    requires Usable(c)
  {
    (n as real - b.tokens) / c.rate
  }

  predicate InRange(c: Settings, b: State) {
    0.0 <= b.tokens <= c.capacity
  }

  lemma StepInRange(c: Settings, b: State, t: Try)
    requires Usable(c) && InRange(c, b) && b.last <= t.now
    ensures InRange(c, After(c, b, t))
  {
    EarnedLaws(c.rate, t.now - b.last, 0.0);
  }

  /** Undisturbed, the computed sleep makes the next try succeed exactly when the request fits the capacity. */
  lemma WaitIsEnoughIff(c: Settings, b: State, n: nat, extra: real)
    requires Usable(c) && InRange(c, b) && b.tokens < n as real && extra >= 0.0
    ensures Wait(c, b, n) > 0.0
    ensures Granted(c, b, Try(b.last + Wait(c, b, n) + extra, n)) <==> n as real <= c.capacity
  {
    var missing := n as real - b.tokens;
    var wait := Wait(c, b, n);
    assert Earned(c.rate, wait) == missing;
    if wait <= 0.0 {
      EarnedLaws(c.rate, -wait, wait);
    }
    EarnedLaws(c.rate, extra, wait);
  }

  /** Undisturbed, the next try succeeds exactly when the request fits the capacity and the sleep lasts as long as the
      missing tokens need at the refill rate. */
  lemma SleepIsEnoughIff(c: Settings, b: State, n: nat, sleep: real)
    requires Usable(c) && InRange(c, b) && b.tokens < n as real && sleep >= 0.0
    ensures Granted(c, b, Try(b.last + sleep, n)) <==>
              (n as real <= c.capacity && c.rate * sleep >= n as real - b.tokens)
  {
    assert b.last + sleep - b.last == sleep;
  }

  /** No sleep shorter than the computed wait is enough. */
  lemma ShorterIsTooShort(c: Settings, b: State, n: nat, sleep: real)
    requires Usable(c) && InRange(c, b) && b.tokens < n as real && 0.0 <= sleep < Wait(c, b, n)
    ensures !Granted(c, b, Try(b.last + sleep, n))
  {
    hide Granted;
    SleepIsEnoughIff(c, b, n, sleep);
    Slower(c.rate, sleep, Wait(c, b, n), n as real - b.tokens);
  }

  lemma Slower(rate: real, sleep: real, wait: real, missing: real)
    requires rate > 0.0 && sleep < wait && wait == missing / rate
    ensures rate * sleep < missing
  {
    var gap := wait - sleep;
    assert wait * rate == missing;
    assert rate * gap > 0.0;
    assert rate * gap == wait * rate - rate * sleep;
  }

  // ----- Runs -----

  /** Attempts in the order the lock served them, on a clock that never goes back. */
  ghost predicate Served(start: real, tries: seq<Try>) {
    && (tries != [] ==> start <= tries[0].now)
    && forall i :: 0 < i < |tries| ==> tries[i - 1].now <= tries[i].now
  }

  function Run(c: Settings, start: real, tries: seq<Try>, k: nat): State
    requires k <= |tries|
  {
    if k == 0 then Full(c, start) else After(c, Run(c, start, tries, k - 1), tries[k - 1])
  }

  /** Tokens handed out by the first k attempts to those made in [s, t]. */
  function GrantedIn(c: Settings, start: real, tries: seq<Try>, k: nat, s: real, t: real): real
    requires k <= |tries|
  {
    if k == 0 then 0.0
    else
      GrantedIn(c, start, tries, k - 1, s, t)
      + (if s <= tries[k - 1].now <= t && Granted(c, Run(c, start, tries, k - 1), tries[k - 1])
         then tries[k - 1].n as real else 0.0)
  }

  lemma {:induction false} TokensInRange(c: Settings, start: real, tries: seq<Try>, k: nat)
    requires Usable(c) && Served(start, tries) && k <= |tries|
    ensures InRange(c, Run(c, start, tries, k))
    ensures Run(c, start, tries, k).last == if k == 0 then start else tries[k - 1].now
  {
    if k > 0 {
      TokensInRange(c, start, tries, k - 1);
      StepInRange(c, Run(c, start, tries, k - 1), tries[k - 1]);
    }
  }

  /** What the window has given out and what the bucket still holds are covered by one full bucket plus the refill. */
  lemma {:induction false} WindowCredit(c: Settings, start: real, tries: seq<Try>, k: nat, s: real, t: real)
    requires Usable(c) && Served(start, tries) && k <= |tries| && s <= t
    ensures var b := Run(c, start, tries, k); var g := GrantedIn(c, start, tries, k, s, t);
      && g <= c.capacity + Earned(c.rate, t - s)
      && (b.last < s ==> g == 0.0)
      && (s <= b.last <= t ==> b.tokens + g <= c.capacity + Earned(c.rate, b.last - s))
  {
    hide Earned;
    TokensInRange(c, start, tries, k);
    EarnedLaws(c.rate, t - s, 0.0);
    var b := Run(c, start, tries, k);
    EarnedLaws(c.rate, b.last - s, t - b.last);
    EarnedLaws(c.rate, t - b.last, 0.0);
    if k > 0 {
      WindowCredit(c, start, tries, k - 1, s, t);
      TokensInRange(c, start, tries, k - 1);
      EarnedLaws(c.rate, Run(c, start, tries, k - 1).last - s, b.last - Run(c, start, tries, k - 1).last);
    }
    EarnedLaws(c.rate, b.last - s, 0.0);
  }

  /** In any run, the tokens granted in [s, t] are at most capacity + rate * (t - s). */
  lemma WindowBound(c: Settings, start: real, tries: seq<Try>, s: real, t: real)
    requires Usable(c) && Served(start, tries) && s <= t
    ensures GrantedIn(c, start, tries, |tries|, s, t) <= c.capacity + c.rate * (t - s)
  {
    hide After, Granted;
    WindowCredit(c, start, tries, |tries|, s, t);
  }

  lemma StepConserves(c: Settings, b: State, t: Try)
    requires b.tokens + Earned(c.rate, t.now - b.last) <= c.capacity
    ensures After(c, b, t).last == t.now
    ensures After(c, b, t).tokens + (if Granted(c, b, t) then t.n as real else 0.0)
            == b.tokens + Earned(c.rate, t.now - b.last)
  {
    hide Earned;
  }

  lemma {:induction false} Conserved(c: Settings, start: real, tries: seq<Try>, k: nat, s: real, t: real)
    requires Usable(c) && k <= |tries| && s <= start
    requires forall j :: 0 <= j < k ==> s <= tries[j].now <= t
    requires forall j :: 0 <= j < k ==>
      var b := Run(c, start, tries, j); b.tokens + Earned(c.rate, tries[j].now - b.last) <= c.capacity
    ensures var b := Run(c, start, tries, k);
      b.tokens + GrantedIn(c, start, tries, k, s, t) == c.capacity + Earned(c.rate, b.last - start)
  {
    hide Earned, Granted, Refilled, After;
    if k > 0 {
      Conserved(c, start, tries, k - 1, s, t);
      var b := Run(c, start, tries, k - 1);
      StepConserves(c, b, tries[k - 1]);
      EarnedLaws(c.rate, b.last - start, tries[k - 1].now - b.last);
    } else {
      EarnedLaws(c.rate, 0.0, 0.0);
    }
  }

  /** Nothing is lost but what a full bucket spills: while none spills, what was granted and what is left are the first
      filling and the refill since the start. */
  lemma TokensAreConserved(c: Settings, start: real, tries: seq<Try>, s: real, t: real)
    requires Usable(c) && s <= start && forall j :: 0 <= j < |tries| ==> s <= tries[j].now <= t
    requires forall j :: 0 <= j < |tries| ==>
      var b := Run(c, start, tries, j); b.tokens + c.rate * (tries[j].now - b.last) <= c.capacity
    ensures var b := Run(c, start, tries, |tries|);
      b.tokens + GrantedIn(c, start, tries, |tries|, s, t) == c.capacity + c.rate * (b.last - start)
  {
    hide Run, GrantedIn;
    forall j | 0 <= j < |tries|
      ensures var b := Run(c, start, tries, j); b.tokens + Earned(c.rate, tries[j].now - b.last) <= c.capacity
    {
    }
    Conserved(c, start, tries, |tries|, s, t);
  }

  /** A request larger than the capacity is never granted, whatever happens. */
  lemma TooLargeIsNeverGranted(c: Settings, start: real, tries: seq<Try>, k: nat)
    requires Usable(c) && Served(start, tries) && k < |tries| && tries[k].n as real > c.capacity
    ensures !Granted(c, Run(c, start, tries, k), tries[k])
  {
    TokensInRange(c, start, tries, k);
  }
}
