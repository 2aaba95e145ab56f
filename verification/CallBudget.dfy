/** The arithmetic of the extension host's call limits, over the whole history of admitted calls.
    Instants are nanoseconds; the token bucket counts whole milliseconds, as the host does. */
module CallBudget {

  const NANOS_PER_MILLI: nat := 1_000_000

  /** The limits every host runs with; `window` is in nanoseconds. */
  datatype Limits = Limits(windowMs: nat, callsPerWindow: nat, burst: nat) {
    ghost predicate Valid() { 0 < windowMs && 0 < callsPerWindow && 0 < burst }
    function Window(): nat { windowMs * NANOS_PER_MILLI }
    function RefillPerMilli(): real
      requires 0 < windowMs
    { callsPerWindow as real / windowMs as real }
  }

  ghost predicate Nondecreasing(times: seq<int>) {
    forall i, j | 0 <= i < j < |times| :: times[i] <= times[j]
  }

  /** Admissions with lo <= time < hi. */
  ghost function CountIn(times: seq<int>, lo: int, hi: int): nat {
    if times == [] then 0
    else CountIn(times[..|times| - 1], lo, hi) + if lo <= times[|times| - 1] < hi then 1 else 0
  }

  /** The n-th admission after any other comes at least one window later. */
  ghost predicate Spaced(times: seq<int>, n: nat, window: nat) {
    forall i, j | 0 <= i && j == i + n && j < |times| :: times[j] - times[i] >= window
  }

  /** What `count` calls may cost over `nanos`: the burst plus what the bucket refills in that time. */
  ghost function Allowance(limits: Limits, nanos: int): real
    requires limits.Valid()
  { limits.burst as real + limits.RefillPerMilli() * (nanos as real / NANOS_PER_MILLI as real) }

  /** Every run of consecutive admissions fits in the burst plus the refill over its own duration. */
  ghost predicate RateBounded(times: seq<int>, limits: Limits)
    requires limits.Valid()
  {
    forall i, j | 0 <= i <= j < |times| :: (j - i + 1) as real <= Allowance(limits, times[j] - times[i])
  }

  /** The bucket never holds more than the allowance since any admission, less what was spent since. */
  ghost predicate TokensCovered(times: seq<int>, limits: Limits, tokens: real, updatedAt: int)
    requires limits.Valid()
  {
    && 0.0 <= tokens <= limits.burst as real
    && forall i | 0 <= i < |times| ::
      (|times| - i) as real + tokens <= Allowance(limits, updatedAt - times[i])
  }

  /** Both limits hold of the whole history of admitted calls, given the bucket as last updated. */
  ghost predicate WithinLimits(times: seq<int>, limits: Limits, tokens: real, updatedAt: int) {
    && limits.Valid()
    && Spaced(times, limits.callsPerWindow, limits.Window())
    && TokensCovered(times, limits, tokens, updatedAt)
    && RateBounded(times, limits)
  }

  /** The bucket's content at `now`: whole milliseconds since the last refill, capped at the burst. */
  function Refilled(limits: Limits, tokens: real, updatedAt: int, now: int): real
    requires 0 < limits.windowMs
  {
    var filled := tokens + ((now - updatedAt) / NANOS_PER_MILLI) as real * limits.RefillPerMilli();
    if filled < limits.burst as real then filled else limits.burst as real
  }

  lemma AllowanceStep(limits: Limits, since: int, elapsed: nat)
    requires limits.Valid()
    ensures Allowance(limits, since) + (elapsed / NANOS_PER_MILLI) as real * limits.RefillPerMilli()
         <= Allowance(limits, since + elapsed)
  {
    var rate := limits.RefillPerMilli();
    var unit := NANOS_PER_MILLI as real;
    var whole := (elapsed / NANOS_PER_MILLI) as real;
    assert whole <= elapsed as real / unit;
    assert rate >= 0.0;
    assert (since + elapsed) as real / unit == since as real / unit + elapsed as real / unit;
    assert rate * (since as real / unit + elapsed as real / unit)
        == rate * (since as real / unit) + rate * (elapsed as real / unit);
    assert whole * rate <= (elapsed as real / unit) * rate;
  }

  /** Refilling keeps the bucket covered, although milliseconds are truncated. */
  lemma RefillKeepsCover(times: seq<int>, limits: Limits, tokens: real, updatedAt: int, now: int)
    requires limits.Valid() && updatedAt <= now
    requires TokensCovered(times, limits, tokens, updatedAt)
    ensures TokensCovered(times, limits, Refilled(limits, tokens, updatedAt, now), now)
  {
    var filled := Refilled(limits, tokens, updatedAt, now);
    assert ((now - updatedAt) / NANOS_PER_MILLI) as real * limits.RefillPerMilli() >= 0.0;
    forall i | 0 <= i < |times|
      ensures (|times| - i) as real + filled <= Allowance(limits, now - times[i])
    {
      AllowanceStep(limits, updatedAt - times[i], now - updatedAt);
    }
  }

  lemma Scaled(rate: real, less: real, more: real)
    requires 0.0 < rate && less <= more
    ensures rate * less <= rate * more
  {}

  /** Refilling loses no more than what one millisecond is worth, and never takes any away: the bucket is full, or has what
      it had and what the time since is worth, but for that. */
  lemma RefillIsEnough(limits: Limits, tokens: real, updatedAt: int, now: int)
    requires limits.Valid() && updatedAt <= now && tokens <= limits.burst as real
    ensures var filled, rate := Refilled(limits, tokens, updatedAt, now), limits.RefillPerMilli();
      && tokens <= filled <= limits.burst as real
      && (filled == limits.burst as real
          || tokens + rate * ((now - updatedAt) as real / NANOS_PER_MILLI as real - 1.0) <= filled)
  {
    var rate, whole, exact := limits.RefillPerMilli(), ((now - updatedAt) / NANOS_PER_MILLI) as real,
                              (now - updatedAt) as real / NANOS_PER_MILLI as real;
    assert 0.0 < rate && 0.0 <= whole && exact - 1.0 < whole;
    Scaled(rate, exact - 1.0, whole);
    Scaled(rate, 0.0, whole);
  }

  /** Whoever has asked for nothing over a whole window is not refused for want of a token. */
  lemma PausedIsServed(limits: Limits, tokens: real, updatedAt: int, now: int)
    requires limits.Valid() && 0.0 <= tokens <= limits.burst as real && limits.Window() <= now - updatedAt
    ensures 1.0 <= Refilled(limits, tokens, updatedAt, now)
  {
    var rate, millis := limits.RefillPerMilli(), (now - updatedAt) / NANOS_PER_MILLI;
    var window := limits.windowMs as real;
    assert window <= millis as real;
    assert rate * window == limits.callsPerWindow as real;
    Scaled(rate, window, millis as real);
    assert 1.0 <= limits.callsPerWindow as real <= millis as real * rate && 1.0 <= limits.burst as real;
  }

  /** Each request comes within a millisecond of the one before it. */
  predicate Restless(updatedAt: int, times: seq<int>)
    decreases |times|
  {
    times == [] || (0 <= times[0] - updatedAt < NANOS_PER_MILLI && Restless(times[0], times[1..]))
  }

  /** What is in the bucket after requests that were refused for want of a token. */
  function AfterRefusals(limits: Limits, tokens: real, updatedAt: int, times: seq<int>): real
    requires 0 < limits.windowMs
    decreases |times|
  {
    if times == [] then tokens
    else AfterRefusals(limits, Refilled(limits, tokens, updatedAt, times[0]), times[0], times[1..])
  }

  /** But whoever asks again within every millisecond gets nothing however long it goes on: what a
      refusal leaves of a millisecond is forgotten. */
  lemma {:induction false} RestlessIsStarved(limits: Limits, tokens: real, updatedAt: int, times: seq<int>)
    requires limits.Valid() && tokens < 1.0
    requires Restless(updatedAt, times)
    ensures AfterRefusals(limits, tokens, updatedAt, times) == tokens
    decreases |times|
  {
    if times != [] {
      assert (times[0] - updatedAt) / NANOS_PER_MILLI == 0;
      assert 1.0 <= limits.burst as real;
      assert Refilled(limits, tokens, updatedAt, times[0]) == tokens;
      RestlessIsStarved(limits, tokens, times[0], times[1..]);
    }
  }

  lemma RefillKeepsLimits(times: seq<int>, limits: Limits, tokens: real, updatedAt: int, now: int)
    requires WithinLimits(times, limits, tokens, updatedAt) && updatedAt <= now
    ensures WithinLimits(times, limits, Refilled(limits, tokens, updatedAt, now), now)
  {
    RefillKeepsCover(times, limits, tokens, updatedAt, now);
  }

  /** Admitting a call under both limits keeps both limits. */
  lemma AdmitKeepsLimits(times: seq<int>, limits: Limits, tokens: real, now: int)
    requires WithinLimits(times, limits, tokens, now) && 1.0 <= tokens
    requires Nondecreasing(times) && (times != [] ==> times[|times| - 1] <= now)
    requires CountIn(times, now - limits.Window() + 1, now + 1) < limits.callsPerWindow
    ensures Nondecreasing(times + [now]) && WithinLimits(times + [now], limits, tokens - 1.0, now)
  {
    SpendKeepsBound(times, limits, tokens, now);
    AdmitKeepsSpacing(times, limits.callsPerWindow, limits.Window(), now);
  }

  /** Spending one token for a call admitted now keeps both the cover and the bound on every run. */
  lemma SpendKeepsBound(times: seq<int>, limits: Limits, tokens: real, now: int)
    requires limits.Valid() && 1.0 <= tokens
    requires TokensCovered(times, limits, tokens, now) && RateBounded(times, limits)
    ensures TokensCovered(times + [now], limits, tokens - 1.0, now)
    ensures RateBounded(times + [now], limits)
  {
    var next := times + [now];
    assert Allowance(limits, 0) == limits.burst as real;
    hide Allowance;
    forall i | 0 <= i < |next|
      ensures (|next| - i) as real + (tokens - 1.0) <= Allowance(limits, now - next[i])
    {
      if i < |times| {
        assert (|next| - i) as real == (|times| - i) as real + 1.0;
      }
    }
    forall i, j | 0 <= i <= j < |next|
      ensures (j - i + 1) as real <= Allowance(limits, next[j] - next[i])
    {
      if j == |times| && i < j {
        assert (j - i + 1) as real == (|times| - i) as real + 1.0;
      }
    }
  }

  /** Admitting a call keeps the spacing when fewer than n admissions are still inside the window. */
  lemma AdmitKeepsSpacing(times: seq<int>, n: nat, window: nat, now: int)
    requires 0 < n && Nondecreasing(times) && (times != [] ==> times[|times| - 1] <= now)
    requires Spaced(times, n, window) && CountIn(times, now - window + 1, now + 1) < n
    ensures Nondecreasing(times + [now]) && Spaced(times + [now], n, window)
  {
    var next := times + [now];
    if n <= |times| && now - times[|times| - n] < window {
      CountSuffix(times, |times| - n, now - window + 1, now + 1);
      assert false;
    }
  }

  /** All of a sorted history from index k on is counted when it lies inside the interval. */
  lemma {:induction false} CountSuffix(times: seq<int>, k: nat, lo: int, hi: int)
    requires k <= |times| && Nondecreasing(times)
    requires k < |times| ==> lo <= times[k] && times[|times| - 1] < hi
    ensures CountIn(times, lo, hi) >= |times| - k
  {
    if k < |times| {
      CountSuffix(times[..|times| - 1], k, lo, hi);
    }
  }

  /** Nothing before index k is counted when it lies before the interval. */
  lemma {:induction false} CountAtMostSuffix(times: seq<int>, k: nat, lo: int, hi: int)
    requires k <= |times| && forall i | 0 <= i < k :: times[i] < lo
    ensures CountIn(times, lo, hi) <= |times| - k
  {
    if k < |times| {
      CountAtMostSuffix(times[..|times| - 1], k, lo, hi);
    } else if 0 < k {
      CountAtMostSuffix(times[..k - 1], k - 1, lo, hi);
    }
  }

  /** The sliding-window promise: no half-open interval one window long holds more than n admitted calls. */
  lemma {:induction false} WindowBound(times: seq<int>, n: nat, window: nat, start: int)
    requires Nondecreasing(times) && Spaced(times, n, window)
    ensures CountIn(times, start, start + window) <= n
  {
    if times != [] {
      var last := |times| - 1;
      if start <= times[last] < start + window {
        if n <= last {
          var k := last - n + 1;
          assert times[last] - times[last - n] >= window;
          CountAtMostSuffix(times, k, start, start + window);
        } else {
          CountAtMostSuffix(times, 0, start, start + window);
        }
      } else {
        WindowBound(times[..last], n, window, start);
      }
    }
  }

  /** The calls counted in an interval are one run of consecutive admissions, if there are any. */
  lemma {:induction false} IntervalIsRun(times: seq<int>, lo: int, hi: int) returns (i: nat, j: nat)
    requires Nondecreasing(times) && 0 < CountIn(times, lo, hi)
    ensures i <= j < |times| && CountIn(times, lo, hi) == j - i + 1
    ensures lo <= times[i] && times[j] < hi && (0 < i ==> times[i - 1] < lo)
  {
    var last := |times| - 1;
    if !(lo <= times[last] < hi) {
      i, j := IntervalIsRun(times[..last], lo, hi);
    } else if 0 < CountIn(times[..last], lo, hi) {
      i, j := IntervalIsRun(times[..last], lo, hi);
      CountSuffix(times, i, lo, hi);
      CountAtMostSuffix(times, i, lo, hi);
      j := last;
    } else {
      i, j := last, last;
      if 0 < last {
        assert times[..last][last - 1] == times[last - 1];
      }
    }
  }

  /** The token-bucket promise: an interval holds no more calls than the burst plus its own refill. */
  lemma RateBound(times: seq<int>, limits: Limits, start: int, duration: nat)
    requires limits.Valid() && Nondecreasing(times) && RateBounded(times, limits)
    ensures CountIn(times, start, start + duration) as real <= Allowance(limits, duration)
  {
    AllowanceGrows(limits, 0, duration);
    assert Allowance(limits, 0) == limits.burst as real;
    if 0 < CountIn(times, start, start + duration) {
      var i, j := IntervalIsRun(times, start, start + duration);
      AllowanceGrows(limits, times[j] - times[i], duration);
    }
  }

  lemma AllowanceGrows(limits: Limits, shorter: int, longer: int)
    requires limits.Valid() && shorter <= longer
    ensures Allowance(limits, shorter) <= Allowance(limits, longer)
  {
    var unit := NANOS_PER_MILLI as real;
    assert limits.RefillPerMilli() >= 0.0;
    assert shorter as real / unit <= longer as real / unit;
  }
}
