/** Reconnect policy: what to retry, how often, and how long to wait.  Durations and the
    growth factor are real numbers; rounding is not modelled. */
module Backoff {

  datatype RetryClass = Transient | ServerRejected | AuthFailure | ProtocolIncompatible

  datatype RetryDecision = Retry | Stop

  datatype RetryLimit = Unlimited | Count(limit: nat)

  datatype Jitter = NoJitter | Deterministic(fraction: real)

  type Duration = d: real | d >= 0.0

  datatype ReconnectPolicy = ReconnectPolicy(
    enabled: bool, maxRetries: RetryLimit,
    initialDelay: Duration, maxDelay: Duration, multiplier: real, jitter: Jitter,
    onTransient: RetryDecision, onServerRejected: RetryDecision,
    onAuthFailure: RetryDecision, onProtocolIncompatible: RetryDecision)

  function DecisionFor(p: ReconnectPolicy, c: RetryClass): RetryDecision {
    if !p.enabled then Stop
    else
      match c
      case Transient => p.onTransient
      case ServerRejected => p.onServerRejected
      case AuthFailure => p.onAuthFailure
      case ProtocolIncompatible => p.onProtocolIncompatible
  }

  predicate RetriesExhausted(p: ReconnectPolicy, attempt: nat) {
    p.maxRetries.Count? && attempt >= p.maxRetries.limit
  }

  function MinR(a: real, b: real): real {
    if a <= b then a else b
  }

  function MaxR(a: real, b: real): real {
    if a >= b then a else b
  }

  function Pow(x: real, n: nat): real {
    if n == 0 then 1.0 else x * Pow(x, n - 1)
  }

  /** The exponential delay before retry `attempt`, before the cap. */
  function Uncapped(p: ReconnectPolicy, attempt: nat): real {
    p.initialDelay * Pow(MaxR(p.multiplier, 0.0), if attempt == 0 then 0 else attempt - 1)
  }

  function Capped(p: ReconnectPolicy, attempt: nat): real {
    MinR(Uncapped(p, attempt), MaxR(p.maxDelay, 0.0))
  }

  /** The share added by jitter: a fixed cycle over attempt numbers. */
  function Extra(p: ReconnectPolicy, attempt: nat): real {
    match p.jitter
    case NoJitter => 0.0
    case Deterministic(f) => Clamped(f) * Cycle(attempt)
  }

  function Clamped(f: real): real {
    MaxR(0.0, MinR(f, 1.0))
  }

  function Cycle(attempt: nat): (c: real)
    ensures 0.0 <= c <= 0.8
  {
    (attempt % 5) as real / 5.0
  }

  function BackoffDelay(p: ReconnectPolicy, attempt: nat): Duration {
    MaxR(Capped(p, attempt) + Capped(p, attempt) * Extra(p, attempt), 0.0)
  }

  lemma {:induction false} PowNonNegative(x: real, n: nat)
    requires x >= 0.0
    ensures Pow(x, n) >= 0.0
  {
    if n > 0 {
      PowNonNegative(x, n - 1);
    }
  }

  lemma {:induction false} PowGrows(x: real, m: nat, n: nat)
    requires x >= 1.0 && m <= n
    ensures 0.0 <= Pow(x, m) <= Pow(x, n)
    decreases n
  {
    if m == n {
      PowNonNegative(x, m);
    } else {
      PowGrows(x, m, n - 1);
      Scaled(Pow(x, n - 1), 1.0, x);
    }
  }

  /** Multiplying by something non-negative keeps the order. */
  lemma Scaled(k: real, a: real, b: real)
    requires k >= 0.0 && a <= b
    ensures k * a <= k * b && a * k <= b * k
  {
  }

  lemma UncappedNonNegative(p: ReconnectPolicy, attempt: nat)
    ensures Uncapped(p, attempt) >= 0.0
  {
    var n := if attempt == 0 then 0 else attempt - 1;
    PowNonNegative(MaxR(p.multiplier, 0.0), n);
    Scaled(p.initialDelay, 0.0, Pow(MaxR(p.multiplier, 0.0), n));
  }

  lemma CappedInRange(p: ReconnectPolicy, attempt: nat)
    ensures 0.0 <= Capped(p, attempt) <= p.maxDelay
  {
    UncappedNonNegative(p, attempt);
  }

  lemma UncappedGrows(p: ReconnectPolicy, a: nat, b: nat)
    requires p.multiplier >= 1.0 && a <= b
    ensures Uncapped(p, a) <= Uncapped(p, b)
  {
    var m := if a == 0 then 0 else a - 1;
    var n := if b == 0 then 0 else b - 1;
    PowGrows(p.multiplier, m, n);
    Scaled(p.initialDelay, Pow(p.multiplier, m), Pow(p.multiplier, n));
  }

  lemma PlainDelay(p: ReconnectPolicy, attempt: nat)
    requires p.jitter == NoJitter
    ensures BackoffDelay(p, attempt) == Capped(p, attempt) <= p.maxDelay
  {
    CappedInRange(p, attempt);
    assert Capped(p, attempt) * 0.0 == 0.0;
  }

  /** Without jitter, and with a growth factor of at least one, waiting times never
      shrink as attempts accumulate and never exceed the maximum. */
  lemma DelaysNeverShrink(p: ReconnectPolicy, a: nat, b: nat)
    requires p.jitter == NoJitter && p.multiplier >= 1.0 && a <= b
    ensures BackoffDelay(p, a) <= BackoffDelay(p, b) <= p.maxDelay
  {
    UncappedGrows(p, a, b);
    PlainDelay(p, a);
    PlainDelay(p, b);
  }

  /** Without jitter the waiting times are the initial delay, multiplied once more for each
      further attempt, and cut off at the maximum. */
  lemma DelaysAreGeometric(p: ReconnectPolicy, attempt: nat)
    requires p.jitter == NoJitter && p.multiplier >= 0.0 && attempt >= 1
    ensures Uncapped(p, 1) == p.initialDelay
    ensures Uncapped(p, attempt + 1) == p.multiplier * Uncapped(p, attempt)
    ensures BackoffDelay(p, attempt) == MinR(Uncapped(p, attempt), p.maxDelay)
  {
    PlainDelay(p, attempt);
    Regroup(p.initialDelay, p.multiplier, Pow(p.multiplier, attempt - 1));
  }

  lemma Regroup(a: real, b: real, c: real)
    ensures a * (b * c) == b * (a * c)
  {
  }

  lemma ShareBounds(f: real, cycle: real, x: real)
    requires f >= 0.0 && 0.0 <= cycle <= 0.8 && x == f * cycle
    ensures 0.0 <= x <= 0.8 * f
  {
  }

  lemma ExtraInRange(p: ReconnectPolicy, attempt: nat)
    ensures 0.0 <= Extra(p, attempt)
    ensures p.jitter.Deterministic? ==> Extra(p, attempt) <= 0.8 * Clamped(p.jitter.fraction)
  {
    if p.jitter.Deterministic? {
      ShareBounds(Clamped(p.jitter.fraction), Cycle(attempt), Extra(p, attempt));
    }
  }

  /** A capped delay `c` with a share `x` of at most `y` on top stays below `m` plus that share. */
  lemma DelayBounds(c: real, x: real, y: real, m: real)
    requires 0.0 <= c <= m && 0.0 <= x <= y
    ensures c <= c + c * x <= m * (1.0 + y)
  {
  }

  /** Jitter only lengthens the wait, by at most four fifths of the clamped fraction. */
  lemma JitterIsBounded(p: ReconnectPolicy, attempt: nat)
    ensures Capped(p, attempt) <= BackoffDelay(p, attempt)
    ensures p.jitter.Deterministic? ==>
              BackoffDelay(p, attempt) <= p.maxDelay * (1.0 + 0.8 * Clamped(p.jitter.fraction))
  {
    CappedInRange(p, attempt);
    ExtraInRange(p, attempt);
    var y := if p.jitter.Deterministic? then 0.8 * Clamped(p.jitter.fraction) else 0.0;
    DelayBounds(Capped(p, attempt), Extra(p, attempt), y, p.maxDelay);
  }

  /** For a delay `u`, capped at `m`, with a share `x` on top. */
  lemma CapHoldsExactlyWhen(u: real, x: real, m: real)
    requires u >= 0.0 && x >= 0.0 && m >= 0.0
    ensures MinR(u, m) + MinR(u, m) * x >= 0.0
    ensures MinR(u, m) + MinR(u, m) * x <= m <==> x == 0.0 || m == 0.0 || u * (1.0 + x) <= m
  {
  }

  /** The configured maximum bounds the wait exactly when no share is added, or the
      maximum is zero, or the uncapped delay with its share still fits below it. */
  lemma MaximumHoldsExactlyWhen(p: ReconnectPolicy, attempt: nat)
    ensures BackoffDelay(p, attempt) <= p.maxDelay <==>
            || Extra(p, attempt) == 0.0
            || p.maxDelay == 0.0
            || Uncapped(p, attempt) * (1.0 + Extra(p, attempt)) <= p.maxDelay
  {
    UncappedNonNegative(p, attempt);
    ExtraInRange(p, attempt);
    CapHoldsExactlyWhen(Uncapped(p, attempt), Extra(p, attempt), p.maxDelay);
  }

  /** A policy whose delay is already at its cap waits longer than the maximum. */
  lemma JitterCanExceedMaximum()
    ensures exists p: ReconnectPolicy, attempt: nat :: BackoffDelay(p, attempt) > p.maxDelay
  {
    var p := ReconnectPolicy(true, Unlimited, 60.0, 60.0, 2.0, Deterministic(0.5), Retry, Stop, Stop, Stop);
    assert Pow(2.0, 0) == 1.0;
    assert BackoffDelay(p, 1) == 66.0;
  }

  // -------------------------------------------------------- the policy, one field at a time

  /** Each class of failure has a decision of its own, and the master switch overrides all. */
  lemma DecisionsAreSeparate(p: ReconnectPolicy, c: RetryClass, d: RetryDecision)
    ensures !p.enabled ==> DecisionFor(p, c) == Stop
    ensures p.enabled ==> DecisionFor(p.(onTransient := d), c) == if c == Transient then d else DecisionFor(p, c)
    ensures p.enabled ==> DecisionFor(p.(onServerRejected := d), c) == if c == ServerRejected then d else DecisionFor(p, c)
    ensures p.enabled ==> DecisionFor(p.(onAuthFailure := d), c) == if c == AuthFailure then d else DecisionFor(p, c)
    ensures p.enabled ==>
              DecisionFor(p.(onProtocolIncompatible := d), c) == if c == ProtocolIncompatible then d else DecisionFor(p, c)
  {
  }

  /** The share added by jitter is `j` fifths of the fraction, `j` being the attempt modulo five;
      a negative fraction adds nothing, and one above one counts as one. */
  lemma JitterInFifths(p: ReconnectPolicy, attempt: nat, j: nat, f: real, g: real)
    requires p.jitter == Deterministic(f) && attempt % 5 == j
    requires g == if f <= 0.0 then 0.0 else if f >= 1.0 then 1.0 else f
    ensures Extra(p, attempt) == g * (j as real / 5.0)
  {
    assert Clamped(f) == g && Cycle(attempt) == j as real / 5.0;
  }

  /** That share of the capped delay comes on top of it. */
  lemma JitterOnTop(p: ReconnectPolicy, attempt: nat)
    ensures BackoffDelay(p, attempt) == Capped(p, attempt) + Capped(p, attempt) * Extra(p, attempt)
    ensures Capped(p, attempt) == if Uncapped(p, attempt) <= p.maxDelay then Uncapped(p, attempt) else p.maxDelay
  {
    CappedInRange(p, attempt);
    ExtraInRange(p, attempt);
    Scaled(Capped(p, attempt), 0.0, Extra(p, attempt));
  }
}
