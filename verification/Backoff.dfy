/**
 * Exponential backoff with proportional jitter, over the reals.
 *
 * The outbox relay and the registration process carry the same policy; both are
 * this datatype.
 */
module Backoff {
  import opened Prelude

  datatype PolicyError =
    | InitialNotPositive
    | MaxBelowInitial
    | ExponentBelowOne
    | JitterOutOfRange
    | AttemptsNotPositive

  datatype RetryPolicy = RetryPolicy(
    initialSeconds: real,
    maxSeconds: real,
    exponent: real,
    jitterRatio: real,
    maxAttempts: int)
  {
    predicate Valid() {
      && 0.0 < initialSeconds <= maxSeconds
      && 1.0 <= exponent
      && 0.0 <= jitterRatio <= 1.0
      && 0 < maxAttempts
    }
  }

  /** Construction checks its fields in order and reports the first that is wrong. */
  function Make(p: RetryPolicy): (r: Result<RetryPolicy, PolicyError>)
    ensures r.Ok? <==> p.Valid()
    ensures r.Ok? ==> r.value == p
  {
    if p.initialSeconds <= 0.0 then Err(InitialNotPositive)
    else if p.maxSeconds < p.initialSeconds then Err(MaxBelowInitial)
    else if p.exponent < 1.0 then Err(ExponentBelowOne)
    else if !(0.0 <= p.jitterRatio <= 1.0) then Err(JitterOutOfRange)
    else if p.maxAttempts <= 0 then Err(AttemptsNotPositive)
    else Ok(p)
  }

  function Min(a: real, b: real): real { if a <= b then a else b }

  function Max(a: real, b: real): real { if a <= b then b else a }

  function Pow(b: real, n: nat): real {
    if n == 0 then 1.0 else b * Pow(b, n - 1)
  }

  function GrowthSteps(attempt: int): nat {
    if attempt - 1 <= 0 then 0 else attempt - 1
  }

  /** The delay before jitter: exponential growth, capped. */
  function Base(p: RetryPolicy, attempt: int): real {
    Capped(p.maxSeconds, p.initialSeconds, Pow(p.exponent, GrowthSteps(attempt)))
  }

  function Capped(cap: real, initial: real, growth: real): real { Min(cap, initial * growth) }

  function DelaySeconds(p: RetryPolicy, attempt: int, sample: real): real {
    Jittered(p.maxSeconds, p.jitterRatio, Base(p, attempt), sample)
  }

  function Jittered(cap: real, ratio: real, base: real, sample: real): real {
    Clamp(cap, base * (1.0 + ratio * sample))
  }

  function Clamp(cap: real, jittered: real): real {
    Min(cap, Max(0.1, jittered))
  }

  lemma {:induction false} PowMonotone(b: real, m: nat, n: nat)
    requires 1.0 <= b
    requires m <= n
    ensures 1.0 <= Pow(b, m) <= Pow(b, n)
    decreases n
  {
    if n == 0 {
    } else if m == n {
      PowMonotone(b, m - 1, m - 1);
      Scale(Pow(b, m - 1), 1.0, b);
    } else {
      PowMonotone(b, m, n - 1);
      Scale(Pow(b, n - 1), 1.0, b);
    }
  }

  lemma Scale(c: real, a: real, b: real)
    requires 0.0 <= c
    requires a <= b
    ensures c * a <= c * b
  {
    assert 0.0 <= c * (b - a);
  }

  lemma ScaleUp(c: real, x: real)
    requires 0.0 <= c && 1.0 <= x
    ensures c <= c * x
  {
    Scale(c, 1.0, x);
    assert c * 1.0 == c;
  }

  lemma BaseMonotone(p: RetryPolicy, a: int, b: int)
    requires p.Valid()
    requires a <= b
    ensures 0.0 < p.initialSeconds <= Base(p, a) <= Base(p, b) <= p.maxSeconds
  {
    var x, y := Pow(p.exponent, GrowthSteps(a)), Pow(p.exponent, GrowthSteps(b));
    PowMonotone(p.exponent, GrowthSteps(a), GrowthSteps(b));
    CappedMonotone(p.maxSeconds, p.initialSeconds, x, y);
    assert Base(p, a) == Capped(p.maxSeconds, p.initialSeconds, x);
    assert Base(p, b) == Capped(p.maxSeconds, p.initialSeconds, y);
  }

  lemma CappedMonotone(cap: real, initial: real, x: real, y: real)
    requires 0.0 < initial <= cap && 1.0 <= x <= y
    ensures initial <= Capped(cap, initial, x) <= Capped(cap, initial, y) <= cap
  {
    ScaleUp(initial, x);
    Scale(initial, x, y);
    MinMonotone(cap, initial, initial * x);
    MinMonotone(cap, initial * x, initial * y);
  }

  lemma MinMonotone(cap: real, x: real, y: real)
    requires x <= y
    ensures Min(cap, x) <= Min(cap, y) <= cap
  {
  }

  lemma JitterFactor(ratio: real, sample: real)
    requires 0.0 <= ratio <= 1.0
    requires -1.0 <= sample <= 1.0
    ensures 0.0 <= 1.0 - ratio <= 1.0 + ratio * sample <= 1.0 + ratio
  {
    Scale(ratio, -1.0, sample);
    Scale(ratio, sample, 1.0);
  }

  lemma JitteredInSample(cap: real, ratio: real, base: real, low: real, high: real)
    requires 0.0 <= base && 0.0 <= ratio
    requires low <= high
    ensures Min(0.1, cap) <= Jittered(cap, ratio, base, low)
    ensures Jittered(cap, ratio, base, low) <= Jittered(cap, ratio, base, high) <= cap
  {
    Scale(ratio, low, high);
    Scale(base, 1.0 + ratio * low, 1.0 + ratio * high);
  }

  lemma JitteredMonotone(cap: real, ratio: real, x: real, y: real, sample: real)
    requires x <= y
    requires 0.0 <= ratio <= 1.0
    requires -1.0 <= sample <= 1.0
    ensures Jittered(cap, ratio, x, sample) <= Jittered(cap, ratio, y, sample)
  {
    JitterFactor(ratio, sample);
    ScaleBoth(x, y, 1.0 + ratio * sample);
    ClampMonotone(cap, x * (1.0 + ratio * sample), y * (1.0 + ratio * sample));
  }

  lemma ScaleBoth(x: real, y: real, c: real)
    requires 0.0 <= c && x <= y
    ensures x * c <= y * c
  {
    Scale(c, x, y);
    assert x * c == c * x && y * c == c * y;
  }

  lemma ClampMonotone(cap: real, x: real, y: real)
    requires x <= y
    ensures Clamp(cap, x) <= Clamp(cap, y)
  {
  }

  /**
   * Every delay stays between the smaller of 0.1 s and the cap, and the cap, and
   * between the delays of the two extreme samples.
   */
  lemma DelayBounds(p: RetryPolicy, attempt: int, sample: real)
    requires p.Valid()
    requires -1.0 <= sample <= 1.0
    ensures Min(0.1, p.maxSeconds) <= DelaySeconds(p, attempt, sample) <= p.maxSeconds
    ensures DelaySeconds(p, attempt, -1.0)
            <= DelaySeconds(p, attempt, sample)
            <= DelaySeconds(p, attempt, 1.0)
  {
    BaseMonotone(p, attempt, attempt);
    JitteredInSample(p.maxSeconds, p.jitterRatio, Base(p, attempt), -1.0, sample);
    JitteredInSample(p.maxSeconds, p.jitterRatio, Base(p, attempt), sample, 1.0);
  }

  /** For one jitter sample a later attempt never waits less. */
  lemma DelayMonotone(p: RetryPolicy, a: int, b: int, sample: real)
    requires p.Valid()
    requires -1.0 <= sample <= 1.0
    requires a <= b
    ensures DelaySeconds(p, a, sample) <= DelaySeconds(p, b, sample)
  {
    BaseMonotone(p, a, b);
    JitteredMonotone(p.maxSeconds, p.jitterRatio, Base(p, a), Base(p, b), sample);
  }

  lemma {:induction false} Bernoulli(b: real, n: nat)
    requires 1.0 <= b
    ensures 1.0 + n as real * (b - 1.0) <= Pow(b, n)
  {
    if n != 0 {
      Bernoulli(b, n - 1);
      PowMonotone(b, 0, n - 1);
      var d := b - 1.0;
      Scale(d, 1.0, Pow(b, n - 1));
      assert Pow(b, n) == Pow(b, n - 1) + d * Pow(b, n - 1);
      assert n as real * d == (n - 1) as real * d + d;
    }
  }

  /** The attempt from which the unjittered delay is the cap. */
  function SaturationAttempt(p: RetryPolicy): nat
    requires p.Valid() && 1.0 < p.exponent
  {
    var steps := (p.maxSeconds / p.initialSeconds / (p.exponent - 1.0)).Floor + 1;
    if steps < 0 then 1 else steps + 1
  }

  lemma Saturates(p: RetryPolicy, attempt: int)
    requires p.Valid() && 1.0 < p.exponent
    requires SaturationAttempt(p) <= attempt
    ensures Base(p, attempt) == p.maxSeconds
  {
    var d := p.exponent - 1.0;
    var ratio := p.maxSeconds / p.initialSeconds;
    var n := GrowthSteps(attempt);
    assert ratio / d <= n as real;
    GrowthReaches(ratio, p.exponent, n);
    CapReached(p.maxSeconds, p.initialSeconds, Pow(p.exponent, n));
  }

  lemma GrowthReaches(ratio: real, b: real, n: nat)
    requires 1.0 < b && ratio / (b - 1.0) <= n as real
    ensures ratio <= Pow(b, n)
  {
    QuotientScales(ratio, b - 1.0, n as real);
    Bernoulli(b, n);
  }

  lemma CapReached(cap: real, initial: real, growth: real)
    requires 0.0 < initial && cap / initial <= growth
    ensures Capped(cap, initial, growth) == cap
  {
    QuotientScales(cap, initial, growth);
  }

  lemma QuotientScales(a: real, d: real, x: real)
    requires 0.0 < d && a / d <= x
    ensures a <= d * x && a <= x * d
  {
    Scale(d, a / d, x);
    assert d * (a / d) == a;
  }

  lemma {:induction false} PowOne(n: nat)
    ensures Pow(1.0, n) == 1.0
  {
    if n != 0 {
      PowOne(n - 1);
    }
  }

  /** The cap is reached after finitely many attempts exactly when the delay grows or starts at it. */
  lemma ReachesCapExactlyWhenGrowing(p: RetryPolicy)
    requires p.Valid()
    ensures (exists k: int :: Base(p, k) == p.maxSeconds)
            <==> (1.0 < p.exponent || p.initialSeconds == p.maxSeconds)
  {
    if 1.0 < p.exponent {
      Saturates(p, SaturationAttempt(p));
    } else {
      forall k: int
        ensures Base(p, k) == p.initialSeconds
      {
        PowOne(GrowthSteps(k));
      }
      assert Base(p, 0) == p.initialSeconds;
    }
  }

  /** The first attempt, and any number below it, starts from the initial delay. */
  lemma FirstDelay(p: RetryPolicy, attempt: int, sample: real)
    requires p.Valid() && -1.0 <= sample <= 1.0 && attempt <= 1
    ensures Base(p, attempt) == p.initialSeconds
    ensures var jittered := p.initialSeconds * (1.0 + p.jitterRatio * sample);
            DelaySeconds(p, attempt, sample) ==
              if p.maxSeconds <= 0.1 || p.maxSeconds <= jittered then p.maxSeconds
              else if jittered <= 0.1 then 0.1 else jittered
  {
    assert Pow(p.exponent, 0) == 1.0;
    assert p.initialSeconds * 1.0 == p.initialSeconds;
  }

  /** Each further attempt multiplies an uncapped delay by the exponent. */
  lemma DelayGrowsByExponent(p: RetryPolicy, attempt: int)
    requires p.Valid() && 1 <= attempt
    ensures Base(p, attempt + 1) == Min(p.maxSeconds, p.exponent * Base(p, attempt))
  {
    var y, y' := Pow(p.exponent, GrowthSteps(attempt)), Pow(p.exponent, GrowthSteps(attempt + 1));
    PowMonotone(p.exponent, 0, GrowthSteps(attempt));
    GrowthStep(p, attempt);
    CappedGrowth(p.maxSeconds, p.initialSeconds, y, y', p.exponent);
    assert Base(p, attempt) == Capped(p.maxSeconds, p.initialSeconds, y);
    assert Base(p, attempt + 1) == Capped(p.maxSeconds, p.initialSeconds, y');
  }

  lemma CappedGrowth(cap: real, initial: real, y: real, y': real, e: real)
    requires 0.0 < cap && 0.0 < initial && 1.0 <= y && 1.0 <= e
    requires y' == e * y
    ensures Capped(cap, initial, y') == Min(cap, e * Capped(cap, initial, y))
  {
    ScaleUp(initial, y);
    Commute(initial, e, y);
    CapGrowth(cap, initial * y, e);
  }

  /** Growing before or after the cap is the same. */
  lemma CapGrowth(cap: real, x: real, e: real)
    requires 0.0 < cap && 0.0 <= x && 1.0 <= e
    ensures Min(cap, e * x) == Min(cap, e * Min(cap, x))
  {
    Grown(x, e);
    Grown(cap, e);
  }

  lemma Grown(x: real, e: real)
    requires 0.0 <= x && 1.0 <= e
    ensures x <= e * x
  {
    ScaleUp(x, e);
    assert x * e == e * x;
  }

  lemma GrowthStep(p: RetryPolicy, attempt: int)
    requires 1 <= attempt
    ensures Pow(p.exponent, GrowthSteps(attempt + 1)) == p.exponent * Pow(p.exponent, GrowthSteps(attempt))
  {
    assert GrowthSteps(attempt + 1) == GrowthSteps(attempt) + 1;
  }

  lemma Commute(a: real, b: real, c: real)
    ensures a * (b * c) == b * (a * c)
  {
  }

  /** Jitter is proportional wherever the delay is strictly inside its bounds. */
  lemma JitterIsProportional(p: RetryPolicy, attempt: int, sample: real)
    requires p.Valid() && -1.0 <= sample <= 1.0
    requires 0.1 < DelaySeconds(p, attempt, sample) < p.maxSeconds
    ensures DelaySeconds(p, attempt, sample) == Base(p, attempt) * (1.0 + p.jitterRatio * sample)
  {
  }
}
