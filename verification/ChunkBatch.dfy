/** Chunk-batch pacing: a running estimate of the time one chunk costs, from which the
    wanted number of chunks per tick follows.  Times are real numbers of nanoseconds;
    rounding is not modelled. */
module ChunkBatch {
  import opened Basics

  const NANOS_PER_TICK_BUDGET: real := 7_000_000.0
  const INITIAL_NANOS_PER_CHUNK: real := 2_000_000.0
  const CLAMP_COEFFICIENT: real := 3.0
  const MAX_OLD_SAMPLES_WEIGHT: nat := 49

  datatype Batch = Batch(elapsed: nat, size: nat)

  /** The cost per chunk of each non-empty batch. */
  function Samples(h: Log<Batch>): Log<real> {
    match h
    case Empty => Empty
    case Then(g, b) => if b.size == 0 then Samples(g) else Then(Samples(g), b.elapsed as real / b.size as real)
  }

  function Clamp(x: real, lo: real, hi: real): real {
    if x < lo then lo else if x > hi then hi else x
  }

  /** A sample counts for at most three times, at least a third of the estimate. */
  function Clamped(estimate: real, sample: real): real {
    Clamp(sample, estimate / CLAMP_COEFFICIENT, estimate * CLAMP_COEFFICIENT)
  }

  /** The average of `x` with weight `k` and `y` with weight one. */
  function Mix(x: real, k: real, y: real): real
    requires k >= 0.0
  {
    (x * k + y) / (k + 1.0)
  }

  function Fold(estimate: real, weight: nat, sample: real): real {
    Mix(estimate, weight as real, Clamped(estimate, sample))
  }

  function Weight(count: nat): nat {
    if count + 1 <= MAX_OLD_SAMPLES_WEIGHT then count + 1 else MAX_OLD_SAMPLES_WEIGHT
  }

  /** The estimate after these samples. */
  function Estimate(s: Log<real>): real {
    match s
    case Empty => INITIAL_NANOS_PER_CHUNK
    case Then(g, x) => Fold(Estimate(g), Weight(Length(g)), x)
  }

  /** How many batches were not empty. */
  function NonEmpty(h: Log<Batch>): nat {
    match h
    case Empty => 0
    case Then(g, b) => NonEmpty(g) + if b.size > 0 then 1 else 0
  }

  /** `b` is the average of `a` with weight `w` and of the cost per chunk of a batch of `k`
      chunks that took `t`, which counts for at least a third and at most three times `a`. */
  predicate Averages(a: real, w: real, t: real, k: real, b: real) {
    (b * (w + 1.0) - a * w) * k ==
    if 3.0 * t < a * k then a * k / 3.0 else if t > 3.0 * (a * k) then 3.0 * (a * k) else t
  }

  /** A slower batch raises the estimate from `a` to `b`, a faster one lowers it. */
  predicate Follows(a: real, t: real, k: real, b: real) {
    && (t > a * k ==> b > a)
    && (t < a * k ==> b < a)
    && (t == a * k ==> b == a)
  }

  class ChunkBatchSizeCalculator {
    var aggregatedNanosPerChunk: real
    var oldSamplesWeight: nat
    ghost var history: Log<Batch>

    ghost predicate Valid()
      reads this
    {
      && aggregatedNanosPerChunk == Estimate(Samples(history)) && aggregatedNanosPerChunk > 0.0
      && oldSamplesWeight == (if NonEmpty(history) < 48 then NonEmpty(history) + 1 else 49)
      && oldSamplesWeight == Weight(Length(Samples(history)))
    }

    constructor ()
      ensures Valid() && history == Empty && aggregatedNanosPerChunk == 2_000_000.0 && oldSamplesWeight == 1
    {
      aggregatedNanosPerChunk, oldSamplesWeight, history := INITIAL_NANOS_PER_CHUNK, 1, Empty;
    }

    method RecordBatch(elapsed: nat, batchSize: nat)
      requires Valid()
      modifies this
      ensures Valid() && history == Then(old(history), Batch(elapsed, batchSize))
      ensures batchSize == 0 ==>
                aggregatedNanosPerChunk == old(aggregatedNanosPerChunk) && oldSamplesWeight == old(oldSamplesWeight)
      ensures batchSize > 0 ==>
                && Averages(old(aggregatedNanosPerChunk), old(oldSamplesWeight) as real, elapsed as real, batchSize as real,
                            aggregatedNanosPerChunk)
                && Follows(old(aggregatedNanosPerChunk), elapsed as real, batchSize as real, aggregatedNanosPerChunk)
    {
      history := Then(history, Batch(elapsed, batchSize));
      if batchSize == 0 {
        return;
      }
      EstimatePositive(Samples(history));
      var nanosPerChunk := elapsed as real / batchSize as real;
      FoldAverages(aggregatedNanosPerChunk, oldSamplesWeight, nanosPerChunk, elapsed as real, batchSize as real);
      aggregatedNanosPerChunk := Blend(aggregatedNanosPerChunk, oldSamplesWeight, nanosPerChunk);
      oldSamplesWeight := if oldSamplesWeight + 1 <= MAX_OLD_SAMPLES_WEIGHT
                          then oldSamplesWeight + 1 else MAX_OLD_SAMPLES_WEIGHT;
    }

    /** Always positive; as many chunks as fit into the tick's budget at the estimate. */
    method DesiredChunksPerTick() returns (n: real)
      requires aggregatedNanosPerChunk > 0.0
      ensures n > 0.0 && n * aggregatedNanosPerChunk == 7_000_000.0
    {
      n := BudgetOver(aggregatedNanosPerChunk);
    }
  }

  method Blend(estimate: real, weight: nat, sample: real) returns (r: real)
    ensures r == Fold(estimate, weight, sample)
  {
    var clamped := Clamp(sample, estimate / CLAMP_COEFFICIENT, estimate * CLAMP_COEFFICIENT);
    r := (estimate * weight as real + clamped) / (weight as real + 1.0);
  }

  method BudgetOver(estimate: real) returns (n: real)
    requires estimate > 0.0
    ensures n > 0.0 && n * estimate == NANOS_PER_TICK_BUDGET
  {
    n := NANOS_PER_TICK_BUDGET / estimate;
    Quotient(NANOS_PER_TICK_BUDGET, estimate);
  }

  // -------------------------------------------------------------------------- algebra

  lemma Quotient(a: real, d: real)
    requires d > 0.0
    ensures a / d * d == a && (a > 0.0 ==> a / d > 0.0)
  {
  }

  /** An average with weights `k` and 1 lies between its arguments. */
  lemma Average(x: real, y: real, k: real, lo: real, hi: real)
    requires k >= 0.0 && lo <= x <= hi && lo <= y <= hi
    ensures lo <= Mix(x, k, y) <= hi
  {
  }

  lemma AverageMonotone(a: real, b: real, x: real, y: real, k: real)
    requires k >= 0.0 && a <= b && x <= y
    ensures Mix(a, k, x) <= Mix(b, k, y)
  {
  }

  lemma FoldBetween(e: real, w: nat, x: real, lo: real, hi: real)
    requires e > 0.0 && lo <= e <= hi && lo <= Clamped(e, x) <= hi
    ensures lo <= Fold(e, w, x) <= hi
  {
    Average(e, Clamped(e, x), w as real, lo, hi);
  }

  /** A clamped sample, multiplied by the number of chunks. */
  lemma ClampedTimes(e: real, x: real, t: real, k: real, c: real)
    requires e > 0.0 && k > 0.0 && x * k == t && c == Clamped(e, x)
    ensures c * k == if 3.0 * t < e * k then e * k / 3.0 else if t > 3.0 * (e * k) then 3.0 * (e * k) else t
  {
    Compared(x, e / 3.0, k, t, e / 3.0 * k);
    Compared(e * 3.0, x, k, e * 3.0 * k, t);
    assert e / 3.0 * k == e * k / 3.0 && e * 3.0 * k == 3.0 * (e * k);
  }

  lemma Compared(a: real, b: real, k: real, ak: real, bk: real)
    requires k > 0.0 && ak == a * k && bk == b * k
    ensures a < b <==> ak < bk
  {
    assert (b - a) * k == bk - ak;
  }

  lemma FoldAverages(e: real, w: nat, x: real, t: real, k: real)
    requires e > 0.0 && k > 0.0 && x == t / k
    ensures Averages(e, w as real, t, k, Fold(e, w, x)) && Follows(e, t, k, Fold(e, w, x))
  {
    Quotient(t, k);
    var c := Clamped(e, x);
    ClampedTimes(e, x, t, k, c);
    Compared(e, x, k, e * k, t);
    Compared(x, e, k, t, e * k);
    MixMoves(e, w as real, c, Fold(e, w, x));
  }

  lemma MixMoves(e: real, w: real, c: real, b: real)
    requires w >= 0.0 && b == Mix(e, w, c)
    ensures b * (w + 1.0) - e * w == c
    ensures (c > e ==> b > e) && (c < e ==> b < e) && (c == e ==> b == e)
  {
    Quotient(e * w + c, w + 1.0);
    Compared(e, b, w + 1.0, e * (w + 1.0), e * w + c);
    Compared(b, e, w + 1.0, e * w + c, e * (w + 1.0));
  }

  /** The first batch counts as much as the initial value: six milliseconds for one chunk move
      the estimate from two to four. */
  method FirstBatch() returns (c: ChunkBatchSizeCalculator)
    ensures fresh(c) && c.Valid() && c.aggregatedNanosPerChunk == 4_000_000.0 && c.oldSamplesWeight == 2
  {
    c := new ChunkBatchSizeCalculator();
    c.RecordBatch(6_000_000, 1);
  }

  // ------------------------------------------------------------------------- theorems

  /** The estimate is always positive: no sample can pull it below a third of itself. */
  lemma {:induction false} EstimatePositive(s: Log<real>)
    ensures Estimate(s) > 0.0
  {
    if s.Then? {
      EstimatePositive(s.before);
      var e := Estimate(s.before);
      FoldBetween(e, Weight(Length(s.before)), s.last, e / 3.0, e * 3.0);
    }
  }

  predicate Within(s: Log<real>, lo: real, hi: real) {
    match s
    case Empty => true
    case Then(g, x) => Within(g, lo, hi) && lo <= x <= hi
  }

  /** The estimate stays between any bounds that hold of the initial value and of every
      sample: it never leaves the range that was observed. */
  lemma {:induction false} EstimateWithinObserved(s: Log<real>, lo: real, hi: real)
    requires Within(s, lo, hi) && lo <= INITIAL_NANOS_PER_CHUNK <= hi
    ensures lo <= Estimate(s) <= hi
  {
    if s.Then? {
      EstimateWithinObserved(s.before, lo, hi);
      EstimatePositive(s.before);
      FoldBetween(Estimate(s.before), Weight(Length(s.before)), s.last, lo, hi);
    }
  }

  /** The bound after `k` samples: (k+2)(k+3)/6. */
  function Growth(k: nat): real {
    ((k + 2) * (k + 3)) as real / 6.0
  }

  /** One sample multiplies the estimate by at most (w+3)/(w+1). */
  lemma FoldGrowth(e: real, w: nat, x: real, b: real)
    requires e > 0.0 && e <= b
    ensures Fold(e, w, x) * (w as real + 1.0) <= b * (w as real + 3.0)
  {
  }

  lemma GrowthStep(k: nat, x: real)
    requires x * (k as real + 2.0) <= INITIAL_NANOS_PER_CHUNK * Growth(k) * (k as real + 4.0)
    ensures x <= INITIAL_NANOS_PER_CHUNK * Growth(k + 1)
  {
  }

  lemma FoldStaysBelow(k: nat, e: real, x: real)
    requires 0.0 < e <= INITIAL_NANOS_PER_CHUNK * Growth(k)
    ensures Fold(e, k + 1, x) <= INITIAL_NANOS_PER_CHUNK * Growth(k + 1)
  {
    var b := INITIAL_NANOS_PER_CHUNK * Growth(k);
    FoldGrowth(e, k + 1, x, b);
    assert (k + 1) as real + 1.0 == k as real + 2.0 && (k + 1) as real + 3.0 == k as real + 4.0;
    GrowthStep(k, Fold(e, k + 1, x));
  }

  /** However slow the batches, after `k` of them the estimate has grown at most by the
      factor (k+2)(k+3)/6, as long as the weight still grows. */
  lemma {:induction false} EstimateGrowthBounded(s: Log<real>)
    requires Length(s) <= MAX_OLD_SAMPLES_WEIGHT
    ensures Estimate(s) <= INITIAL_NANOS_PER_CHUNK * Growth(Length(s))
  {
    if s.Then? {
      var k := Length(s.before);
      EstimateGrowthBounded(s.before);
      EstimatePositive(s.before);
      FoldStaysBelow(k, Estimate(s.before), s.last);
    } else {
      assert Growth(0) == 1.0;
    }
  }

  predicate Faster(s: Log<real>, t: Log<real>) {
    match s
    case Empty => t == Empty
    case Then(g, x) => t.Then? && Faster(g, t.before) && x <= t.last
  }

  lemma ClampMonotone(d: real, e: real, x: real, y: real)
    requires 0.0 < d <= e && x <= y
    ensures Clamped(d, x) <= Clamped(e, y)
  {
  }

  lemma FoldMonotone(d: real, e: real, w: nat, x: real, y: real)
    requires 0.0 < d <= e && x <= y
    ensures Fold(d, w, x) <= Fold(e, w, y)
  {
    ClampMonotone(d, e, x, y);
    AverageMonotone(d, e, Clamped(d, x), Clamped(e, y), w as real);
  }

  /** A client that was at least as fast at every batch has at most the same estimate, and
      so never asks for fewer chunks per tick. */
  lemma {:induction false} FasterNeverAsksForFewer(s: Log<real>, t: Log<real>)
    requires Faster(s, t)
    ensures Length(s) == Length(t) && 0.0 < Estimate(s) <= Estimate(t)
    ensures NANOS_PER_TICK_BUDGET / Estimate(s) >= NANOS_PER_TICK_BUDGET / Estimate(t)
  {
    if s.Then? {
      FasterNeverAsksForFewer(s.before, t.before);
      FoldMonotone(Estimate(s.before), Estimate(t.before), Weight(Length(s.before)), s.last, t.last);
    }
    EstimatePositive(s);
    Reciprocal(NANOS_PER_TICK_BUDGET, Estimate(s), Estimate(t));
  }

  lemma Reciprocal(a: real, d: real, e: real)
    requires a >= 0.0 && 0.0 < d <= e
    ensures a / d >= a / e
  {
  }
}
