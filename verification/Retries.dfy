/** The retry strategies, and how long a task may sleep between its attempts. */
module Retries {
  import opened Options

  /** The keys of a retry configuration that pick the strategy. */
  datatype RetryConfig = RetryConfig(
      strategy: Option<string>, delaySeconds: Option<real>, maxDelaySeconds: Option<real>)

  datatype Strategy =
    | Fixed(delay: real)
    | Exponential(baseDelay: real, maxDelay: real, jitter: bool)
    | Linear(initialDelay: real, increment: real, maxDelay: real)

  function OrElse<T>(o: Option<T>, default: T): T {
    if o.Some? then o.value else default
  }

  function GetRetryStrategy(config: Option<RetryConfig>): Strategy {
    if config.None? then Fixed(5.0)
    else
      var c := config.value;
      if c.strategy == Some("exponential") then
        Exponential(OrElse(c.delaySeconds, 2.0), OrElse(c.maxDelaySeconds, 300.0), true)
      else if c.strategy == Some("linear") then
        var d := OrElse(c.delaySeconds, 5.0);
        Linear(d, d, OrElse(c.maxDelaySeconds, 300.0))
      else Fixed(OrElse(c.delaySeconds, 5.0))
  }

  function Min(a: real, b: real): real {
    if a <= b then a else b
  }

  function Pow2(n: nat): (p: nat)
    ensures p >= 1
  {
    if n == 0 then 1 else 2 * Pow2(n - 1)
  }

  /** random.random() draws `u`, and the delay is scaled by a factor from one half up to three halves. */
  function Jitter(delay: real, u: real): real {
    delay * (0.5 + u)
  }

  /** The delay after an attempt; `u` is the draw of random.random(). */
  function GetDelay(s: Strategy, attempt: nat, u: real): real
    requires attempt >= 1
  {
    match s
    case Fixed(d) => d
    case Exponential(b, m, jitter) =>
      var delay := Min(b * Pow2(attempt - 1) as real, m);
      if jitter then Jitter(delay, u) else delay
    case Linear(d, inc, m) => Min(d + inc * (attempt - 1) as real, m)
  }

  /** Time slept after the attempts from `a` up to, but not including, `b`. */
  function Slept(s: Strategy, u: nat -> real, a: nat, b: nat): real
    requires 1 <= a <= b
    decreases b
  {
    if a == b then 0.0 else Slept(s, u, a, b - 1) + GetDelay(s, b - 1, u(b - 1))
  }

  ghost predicate Draws(u: nat -> real) {
    forall k :: 0.0 <= u(k) < 1.0
  }

  lemma Product(x: real, y: real)
    requires 0.0 <= x && 0.0 <= y
    ensures 0.0 <= x * y
  {
  }

  lemma JitterRange(d: real, u: real)
    requires 0.0 <= d && 0.0 <= u <= 1.0
    ensures 0.0 <= Jitter(d, u) <= 1.5 * d
  {
    Product(d, u);
    Product(d, 1.0 - u);
  }

  ghost function Times(k: nat, x: real): real {
    k as real * x
  }

  lemma TimesAdd(j: nat, k: nat, x: real)
    ensures Times(j + k, x) == Times(j, x) + Times(k, x) && Times(0, x) == 0.0 && Times(1, x) == x
    ensures x >= 0.0 ==> Times(k, x) >= 0.0
  {
    assert (j + k) as real * x == (j as real + k as real) * x;
  }

  lemma ExponentialDelay(b: real, m: real, u: real, k: nat)
    requires b >= 0.0 && m >= 0.0 && 0.0 <= u < 1.0 && k >= 1
    ensures var delay := GetDelay(Exponential(b, m, true), k, u);
            0.0 <= delay <= 1.5 * Times(Pow2(k - 1), b) && delay <= 1.5 * m
  {
    hide Jitter;
    TimesAdd(0, Pow2(k - 1), b);
    JitterRange(Min(b * Pow2(k - 1) as real, m), u);
  }

  lemma {:induction false} ExponentialSum(b: real, m: real, u: nat -> real, n: nat)
    requires b >= 0.0 && m >= 0.0 && Draws(u) && n >= 1
    ensures var slept := Slept(Exponential(b, m, true), u, 1, n);
            0.0 <= slept <= 1.5 * Times(Pow2(n - 1) - 1, b) && slept <= 1.5 * Times(n - 1, m)
  {
    hide GetDelay, Times;
    if n == 1 {
      TimesAdd(0, 0, b);
      TimesAdd(0, 0, m);
    } else {
      ExponentialSum(b, m, u, n - 1);
      ExponentialDelay(b, m, u(n - 1), n - 1);
      TimesAdd(Pow2(n - 2) - 1, Pow2(n - 2), b);
      TimesAdd(n - 2, 1, m);
    }
  }

  /** Over n attempts from the first, exponential backoff sleeps at most half as much again as either plain sum. */
  lemma ExponentialBackoffBound(b: real, m: real, u: nat -> real, n: nat)
    requires b >= 0.0 && m >= 0.0 && Draws(u) && n >= 1
    ensures 0.0 <= Slept(Exponential(b, m, true), u, 1, n) <=
        1.5 * Min(b * (Pow2(n - 1) - 1) as real, (n - 1) as real * m)
  {
    hide Slept, Pow2;
    ExponentialSum(b, m, u, n);
    assert b * (Pow2(n - 1) - 1) as real == Times(Pow2(n - 1) - 1, b);
  }

  lemma LinearDelay(d: real, m: real, u: real, k: nat)
    requires d >= 0.0 && m >= 0.0 && k >= 1
    ensures var delay := GetDelay(Linear(d, d, m), k, u);
            0.0 <= delay <= Times(k, d) && delay <= m
  {
    TimesAdd(1, k - 1, d);
    TimesAdd(0, k - 1, d);
  }

  lemma Triangle(n: nat)
    requires n >= 2
    ensures n * (n - 1) / 2 == (n - 1) * (n - 2) / 2 + (n - 1)
  {
    assert n * (n - 1) == (n - 1) * (n - 2) + 2 * (n - 1);
  }

  lemma {:induction false} LinearSum(d: real, m: real, u: nat -> real, n: nat)
    requires d >= 0.0 && m >= 0.0 && n >= 1
    ensures var slept := Slept(Linear(d, d, m), u, 1, n);
            0.0 <= slept <= Times(n * (n - 1) / 2, d) && slept <= Times(n - 1, m)
  {
    hide GetDelay, Times;
    if n == 1 {
      TimesAdd(0, 0, d);
      TimesAdd(0, 0, m);
    } else {
      LinearSum(d, m, u, n - 1);
      LinearDelay(d, m, u(n - 1), n - 1);
      Triangle(n);
      TimesAdd((n - 1) * (n - 2) / 2, n - 1, d);
      TimesAdd(n - 2, 1, m);
    }
  }

  /** Linear backoff, with one number for the first delay and the increment, as get_retry_strategy sets it. */
  lemma LinearBackoffBound(d: real, m: real, u: nat -> real, n: nat)
    requires d >= 0.0 && m >= 0.0 && n >= 1
    ensures 0.0 <= Slept(Linear(d, d, m), u, 1, n) <= Min(d * (n * (n - 1) / 2) as real, (n - 1) as real * m)
  {
    hide Slept;
    LinearSum(d, m, u, n);
  }

  // ---- The delays themselves ----

  /** A fixed delay is the same after every attempt; a linear one starts at its first delay, capped, ... */
  lemma FirstDelays(d: real, inc: real, m: real, k: nat, u: real)
    requires k >= 1
    ensures GetDelay(Fixed(d), k, u) == d
    ensures GetDelay(Linear(d, inc, m), 1, u) == if d <= m then d else m
  {
  }

  /** ... and grows by the increment until it meets the cap. */
  lemma LinearGrows(d: real, inc: real, m: real, k: nat, u: real, u': real)
    requires inc >= 0.0 && k >= 1
    ensures var delay := GetDelay(Linear(d, inc, m), k, u);
            GetDelay(Linear(d, inc, m), k + 1, u') == if delay + inc <= m then delay + inc else m
  {
    Distribute(inc, (k - 1) as real);
    Product(inc, 1.0);
  }

  lemma Distribute(x: real, y: real)
    ensures x * (y + 1.0) == x * y + x
  {
  }

  /** An exponential delay starts at the base, capped, times the jitter, which is at least 0.5 and below 1.5, ... */
  lemma ExponentialStarts(b: real, m: real, u: real)
    requires 0.0 <= u < 1.0
    ensures GetDelay(Exponential(b, m, false), 1, u) == if b <= m then b else m
    ensures GetDelay(Exponential(b, m, true), 1, u) == (if b <= m then b else m) * (0.5 + u)
  {
    assert Pow2(0) == 1;
    assert b * 1 as real == b;
  }

  lemma ExponentialIs(b: real, m: real, k: nat, u: real)
    requires k >= 1
    ensures GetDelay(Exponential(b, m, false), k, u) == Min(Times(Pow2(k - 1), b), m)
    ensures GetDelay(Exponential(b, m, true), k, u) == GetDelay(Exponential(b, m, false), k, u) * (0.5 + u)
  {
    hide Pow2;
  }

  /** ... and doubles until it meets the cap; the jitter is drawn anew, after the cap. */
  lemma ExponentialDoubles(b: real, m: real, k: nat, u: real)
    requires b >= 0.0 && m >= 0.0 && k >= 1
    ensures var delay := GetDelay(Exponential(b, m, false), k, u);
            GetDelay(Exponential(b, m, false), k + 1, u) == if delay + delay <= m then delay + delay else m
    ensures GetDelay(Exponential(b, m, true), k, u) == GetDelay(Exponential(b, m, false), k, u) * (0.5 + u)
  {
    hide GetDelay, Times;
    ExponentialIs(b, m, k, u);
    ExponentialIs(b, m, k + 1, u);
    TimesAdd(Pow2(k - 1), Pow2(k - 1), b);
  }

  /** The first delay under a configuration, with its defaults; without one it is five seconds. */
  lemma ConfiguredFirstDelay(c: RetryConfig, u: real)
    requires 0.0 <= u < 1.0
    ensures var cap := if c.maxDelaySeconds == None then 300.0 else c.maxDelaySeconds.value;
            var long := if c.delaySeconds == None then 5.0 else c.delaySeconds.value;
            var short := if c.delaySeconds == None then 2.0 else c.delaySeconds.value;
            var delay := GetDelay(GetRetryStrategy(Some(c)), 1, u);
            delay == if c.strategy == Some("exponential") then (if short <= cap then short else cap) * (0.5 + u)
                     else if c.strategy == Some("linear") then (if long <= cap then long else cap)
                     else long
    ensures c.strategy == Some("linear") ==>
              var s := GetRetryStrategy(Some(c)); s.Linear? && s.increment == s.initialDelay
    ensures GetDelay(GetRetryStrategy(None), 1, u) == 5.0
  {
    if c.strategy == Some("exponential") {
      ExponentialStarts(OrElse(c.delaySeconds, 2.0), OrElse(c.maxDelaySeconds, 300.0), u);
    }
  }

  lemma LinearBelowCap(d: real, m: real, u: real, k: nat)
    requires k >= 1 && Times(k, d) <= m
    ensures GetDelay(Linear(d, d, m), k, u) == Times(k, d)
  {
    Distribute(d, (k - 1) as real);
  }

  lemma {:induction false} LinearExactly(d: real, m: real, u: nat -> real, n: nat)
    requires d >= 0.0 && n >= 1 && Times(n - 1, d) <= m
    ensures Slept(Linear(d, d, m), u, 1, n) == Times(n * (n - 1) / 2, d)
  {
    hide GetDelay, Times;
    if n == 1 {
      TimesAdd(0, 0, d);
    } else {
      TimesAdd(n - 2, 1, d);
      LinearExactly(d, m, u, n - 1);
      LinearBelowCap(d, m, u(n - 1), n - 1);
      Triangle(n);
      TimesAdd((n - 1) * (n - 2) / 2, n - 1, d);
    }
  }

  /** Below the cap linear backoff sleeps exactly the triangular sum. */
  lemma LinearExactSum(d: real, m: real, u: nat -> real, n: nat)
    requires d >= 0.0 && n >= 1 && (n - 1) as real * d <= m
    ensures Slept(Linear(d, d, m), u, 1, n) == d * (n * (n - 1) / 2) as real
  {
    hide Slept;
    LinearExactly(d, m, u, n);
  }

  lemma {:induction false} FixedDelaysAddUp(d: real, u: nat -> real, n: nat)
    requires n >= 1
    ensures Slept(Fixed(d), u, 1, n) == (n - 1) as real * d
  {
    if n > 1 {
      FixedDelaysAddUp(d, u, n - 1);
      assert (n - 1) as real * d == (n - 2) as real * d + d;
    }
  }

  /** The whole backoff of a task over n attempts, in terms of the configuration its author wrote. */
  lemma ConfiguredBackoffBound(c: RetryConfig, u: nat -> real, n: nat)
    requires Draws(u) && n >= 1
    requires OrElse(c.delaySeconds, 0.0) >= 0.0 && OrElse(c.maxDelaySeconds, 0.0) >= 0.0
    ensures var slept := Slept(GetRetryStrategy(Some(c)), u, 1, n);
            var m := (n - 1) as real * OrElse(c.maxDelaySeconds, 300.0);
            if c.strategy == Some("exponential") then
              0.0 <= slept <= 1.5 * Min(OrElse(c.delaySeconds, 2.0) * (Pow2(n - 1) - 1) as real, m)
            else if c.strategy == Some("linear") then
              0.0 <= slept <= Min(OrElse(c.delaySeconds, 5.0) * (n * (n - 1) / 2) as real, m)
            else
              slept == (n - 1) as real * OrElse(c.delaySeconds, 5.0)
    ensures Slept(GetRetryStrategy(None), u, 1, n) == (n - 1) as real * 5.0
  {
    hide Slept, Min, Pow2;
    FixedDelaysAddUp(5.0, u, n);
    var m := OrElse(c.maxDelaySeconds, 300.0);
    if c.strategy == Some("exponential") {
      ExponentialBackoffBound(OrElse(c.delaySeconds, 2.0), m, u, n);
    } else if c.strategy == Some("linear") {
      LinearBackoffBound(OrElse(c.delaySeconds, 5.0), m, u, n);
    } else {
      FixedDelaysAddUp(OrElse(c.delaySeconds, 5.0), u, n);
    }
  }

  /**
   Jitter is applied after the cap, so max_delay does not cap the delay: with base 2 and max 300, the
   tenth delay can be 375 seconds.
   */
  lemma JitterCanExceedCap()
    ensures GetDelay(Exponential(2.0, 300.0, true), 10, 0.75) == 375.0
  {
    assert Pow2(9) == 512;
  }

  /** Every draw respects the cap exactly when the uncapped delay, with the largest jitter, already does. */
  lemma JitterRespectsCapIff(b: real, m: real, k: nat)
    requires b >= 0.0 && m > 0.0 && k >= 1
    ensures (forall u | 0.0 <= u < 1.0 :: GetDelay(Exponential(b, m, true), k, u) <= m)
       <==> 1.5 * (b * Pow2(k - 1) as real) <= m
  {
    var x := b * Pow2(k - 1) as real;
    Product(b, Pow2(k - 1) as real);
    if 1.5 * x <= m {
      forall u | 0.0 <= u < 1.0 ensures GetDelay(Exponential(b, m, true), k, u) <= m { JitterRange(x, u); }
    } else {
      var u := OverCap(Min(x, m), m);
      assert GetDelay(Exponential(b, m, true), k, u) > m;
    }
  }

  lemma OverCap(d: real, m: real) returns (u: real)
    requires 0.0 < d <= m < 1.5 * d
    ensures 0.0 <= u < 1.0 && d * (0.5 + u) > m
  {
    var q := m / d;
    assert d * q == m;
    if q >= 1.5 { Product(d, q - 1.5); }
    if q < 1.0 { Product(d, 1.0 - q); }
    u := (q + 0.5) / 2.0;
    assert d * (0.5 + u) == 0.75 * d + 0.5 * (d * q);
  }
}
