/** The fixed-memory histogram of the C++ runtime: sixteen linear buckets per power of two. */
module BucketedHistogram {
  import opened Common
  import opened OrderStatistics

  const SUB_BUCKETS := 16
  const SUB_BUCKET_BITS := 4
  const MAGNITUDES := 40
  const BUCKET_COUNT := SUB_BUCKETS * MAGNITUDES
  const UINT64_LIMIT := 0x1_0000_0000_0000_0000
  /** The first value the last bucket does not describe, 2^43. */
  const CEILING := 0x800_0000_0000

  function Pow2(n: nat): (p: nat)
    ensures p > 0
  {
    if n == 0 then 1 else 2 * Pow2(n - 1)
  }

  /** The position of the highest set bit. */
  function Magnitude(value: nat): nat
    requires value > 0
  {
    if value == 1 then 0 else 1 + Magnitude(value / 2)
  }

  function BucketIndex(value: nat): (index: nat)
    ensures index < BUCKET_COUNT
  {
    if value < SUB_BUCKETS then value
    else
      HighEnough(value);
      var magnitude := Magnitude(value);
      var shift := magnitude - SUB_BUCKET_BITS;
      var sub := value / Pow2(shift) % SUB_BUCKETS;
      var base := (magnitude - SUB_BUCKET_BITS + 1) * SUB_BUCKETS;
      if base + sub < BUCKET_COUNT - 1 then base + sub else BUCKET_COUNT - 1
  }

  function UpperBound(index: nat): nat {
    if index < SUB_BUCKETS then index
    else
      var magnitude := index / SUB_BUCKETS + SUB_BUCKET_BITS - 1;
      var sub := index % SUB_BUCKETS;
      var shift := magnitude - SUB_BUCKET_BITS;
      (SUB_BUCKETS + sub + 1) * Pow2(shift) - 1
  }

  lemma {:induction false} MagnitudeBounds(value: nat)
    requires value > 0
    ensures Pow2(Magnitude(value)) <= value < Pow2(Magnitude(value) + 1)
  {
    if value > 1 {
      MagnitudeBounds(value / 2);
    }
  }

  lemma {:induction false} Pow2Grows(m: nat, n: nat)
    requires m <= n
    ensures Pow2(m) <= Pow2(n)
  {
    if m == n {
    } else {
      Pow2Grows(m, n - 1);
    }
  }

  lemma HighEnough(value: nat)
    requires value >= SUB_BUCKETS
    ensures Magnitude(value) >= SUB_BUCKET_BITS
  {
    MagnitudeBounds(value);
    if Magnitude(value) < 4 {
      Pow2Grows(Magnitude(value) + 1, 4);
    }
  }

  /** The magnitude is the only power of two that brackets the value. */
  lemma MagnitudeIs(value: nat, m: nat)
    requires Pow2(m) <= value < Pow2(m + 1)
    ensures Magnitude(value) == m
  {
    MagnitudeBounds(value);
    if Magnitude(value) < m {
      Pow2Grows(Magnitude(value) + 1, m);
    } else if Magnitude(value) > m {
      Pow2Grows(m + 1, Magnitude(value));
    }
  }

  lemma {:induction false} Pow2Adds(m: nat, n: nat)
    ensures Pow2(m + n) == Pow2(m) * Pow2(n)
  {
    if n == 0 {
    } else {
      Pow2Adds(m, n - 1);
      assert Pow2(m + n) == 2 * Pow2(m + (n - 1));
    }
  }

  /** The bucket before clamping: `shift` low bits dropped, the rest read as 16 to 31. */
  ghost predicate InCell(value: nat, shift: nat, quotient: nat) {
    16 <= quotient < 32 && quotient * Pow2(shift) <= value < (quotient + 1) * Pow2(shift)
  }

  function Clamped(index: nat): nat {
    if index < BUCKET_COUNT - 1 then index else BUCKET_COUNT - 1
  }

  lemma QuotientIs(value: nat, d: nat, q: nat)
    requires d > 0 && q * d <= value < (q + 1) * d
    ensures value / d == q
  {
    var k := value / d;
    Division(value, d);
    if k < q {
      Scale(k + 1, q, d);
    } else if k > q {
      Scale(q + 1, k, d);
    }
  }

  lemma Scale(a: nat, b: nat, d: nat)
    requires a <= b
    ensures a * d <= b * d
  {
  }

  lemma Twice(n: nat)
    ensures Pow2(n + 1) == 2 * Pow2(n)
  {
  }

  /** The powers of two a cell spans. */
  lemma Span(shift: nat)
    ensures Pow2(shift + 4) == 16 * Pow2(shift) && Pow2(shift + 5) == 32 * Pow2(shift)
  {
    assert Pow2(shift + 2) == 4 * Pow2(shift);
    assert Pow2(shift + 4) == 4 * Pow2(shift + 2);
  }

  /** A value in a cell has that cell's index. */
  lemma CellIndex(value: nat, shift: nat, quotient: nat)
    requires InCell(value, shift, quotient)
    ensures value >= SUB_BUCKETS && BucketIndex(value) == Clamped(16 * shift + quotient)
  {
    var d := Pow2(shift);
    Span(shift);
    Scale(16, quotient, d);
    Scale(quotient + 1, 32, d);
    hide Pow2, Magnitude;
    assert shift + 4 + 1 == shift + 5;
    MagnitudeIs(value, shift + 4);
    QuotientIs(value, d, quotient);
    Scale(1, d, 16);
  }

  /** Every value of at least sixteen is in a cell. */
  lemma CellOf(value: nat) returns (shift: nat, quotient: nat)
    requires value >= SUB_BUCKETS
    ensures InCell(value, shift, quotient)
  {
    HighEnough(value);
    MagnitudeBounds(value);
    shift := Magnitude(value) - 4;
    hide Magnitude, Pow2;
    var d := Pow2(shift);
    Span(shift);
    quotient := value / d;
    Division(value, d);
    if quotient < 16 {
      Scale(quotient + 1, 16, d);
    }
    if quotient >= 32 {
      Scale(32, quotient, d);
    }
  }

  lemma Division(value: nat, d: nat)
    requires d > 0
    ensures value / d * d <= value < (value / d + 1) * d
  {
  }

  lemma Monotone(x: nat, y: nat)
    requires x <= y
    ensures BucketIndex(x) <= BucketIndex(y)
  {
    if x < SUB_BUCKETS {
      if y >= SUB_BUCKETS {
        var s, q := CellOf(y);
        CellIndex(y, s, q);
      }
    } else {
      var s, q := CellOf(x);
      var s', q' := CellOf(y);
      CellIndex(x, s, q);
      CellIndex(y, s', q');
      CellsInOrder(x, s, q, y, s', q');
    }
  }

  lemma CellsInOrder(x: nat, s: nat, q: nat, y: nat, s': nat, q': nat)
    requires InCell(x, s, q) && InCell(y, s', q') && x <= y
    ensures 16 * s + q <= 16 * s' + q'
  {
    hide Pow2;
    if s' < s {
      Pow2Grows(s' + 1, s);
      Twice(s');
      Scale(q' + 1, 32, Pow2(s'));
      Scale(16, q, Pow2(s));
    } else if s == s' && q' < q {
      Scale(q' + 1, q, Pow2(s));
    }
  }

  /** The upper bound is in its bucket, and the next value is in the next bucket. */
  lemma UpperIsLast(index: nat)
    requires index < BUCKET_COUNT
    ensures BucketIndex(UpperBound(index)) == index
    ensures index + 1 < BUCKET_COUNT ==> BucketIndex(UpperBound(index) + 1) == index + 1
  {
    if index < SUB_BUCKETS {
      if index == 15 {
        assert InCell(16, 0, 16);
        CellIndex(16, 0, 16);
      }
    } else {
      var shift, q := index / 16 - 1, 16 + index % 16;
      var d := Pow2(shift);
      assert UpperBound(index) == (q + 1) * d - 1;
      assert (q + 1) * d == q * d + d;
      CellIndex(UpperBound(index), shift, q);
      if q < 31 {
        assert (q + 2) * d == (q + 1) * d + d;
        CellIndex(UpperBound(index) + 1, shift, q + 1);
      } else {
        assert Pow2(shift + 1) == 2 * d;
        assert 32 * d == 16 * (2 * d);
        CellIndex(UpperBound(index) + 1, shift + 1, 16);
      }
    }
  }

  /** Below the last bucket, being in a bucket up to `index` is being at most its upper bound. */
  lemma BucketOrder(value: nat, index: nat)
    requires index < BUCKET_COUNT
    ensures BucketIndex(value) <= index <==> value <= UpperBound(index) || index == BUCKET_COUNT - 1
  {
    if index < BUCKET_COUNT - 1 {
      UpperIsLast(index);
      if value <= UpperBound(index) {
        Monotone(value, UpperBound(index));
      } else {
        Monotone(UpperBound(index) + 1, value);
      }
    }
  }

  /** A bucket's upper bound overstates a value in it by less than a sixteenth of the value. */
  lemma RelativeError(value: nat)
    requires value < CEILING
    ensures value <= UpperBound(BucketIndex(value))
    ensures value >= SUB_BUCKETS ==> 16 * (UpperBound(BucketIndex(value)) - value) < value
    ensures value < SUB_BUCKETS ==> UpperBound(BucketIndex(value)) == value
  {
    if value >= SUB_BUCKETS {
      hide BucketIndex, UpperBound, Pow2;
      var s, q := CellOf(value);
      BelowCeiling(value, s, q);
      CellIndex(value, s, q);
      var d := Pow2(s);
      UpperOfCell(s, q);
      assert (q + 1) * d == q * d + d;
      Scale(16, q, d);
    }
  }

  lemma UpperOfCell(shift: nat, quotient: nat)
    requires 16 <= quotient < 32
    ensures UpperBound(16 * shift + quotient) == (quotient + 1) * Pow2(shift) - 1
  {
    hide Pow2;
    assert (16 * shift + quotient) / 16 - 1 == shift && 16 + (16 * shift + quotient) % 16 == quotient;
  }

  lemma BelowCeiling(value: nat, shift: nat, quotient: nat)
    requires InCell(value, shift, quotient) && value < CEILING
    ensures 16 * shift + quotient <= BUCKET_COUNT - 1
  {
    if shift >= 39 {
      Pow2Grows(39, shift);
      Pow2Is39();
      Scale(16, quotient, Pow2(shift));
    }
  }

  lemma Pow2Is39()
    ensures Pow2(39) == 0x80_0000_0000
  {
    Pow2Adds(13, 13);
    Pow2Adds(26, 13);
    assert Pow2(13) == 8192;
  }

  /** The ceiling itself is reported as the value before it. */
  lemma CeilingUnderstated()
    ensures UpperBound(BucketIndex(CEILING)) == CEILING - 1
  {
    CeilingIsExact(CEILING);
    Pow2Adds(38, 1);
    Pow2Is39();
    BucketOrder(CEILING, BUCKET_COUNT - 2);
    assert Pow2(38) == 0x40_0000_0000;
    assert UpperBound(BUCKET_COUNT - 2) == 31 * Pow2(38) - 1;
    assert UpperBound(BUCKET_COUNT - 1) == 32 * Pow2(38) - 1;
  }

  /** Past the ceiling the last bucket understates; so the bound holds exactly below it. */
  lemma CeilingIsExact(value: nat)
    ensures value <= UpperBound(BucketIndex(value)) <==> value < CEILING
  {
    if value < CEILING {
      RelativeError(value);
    } else {
      Pow2Adds(38, 1);
      Pow2Is39();
      assert Pow2(38) == 0x40_0000_0000;
      assert UpperBound(BUCKET_COUNT - 1) == 32 * Pow2(38) - 1;
      BucketOrder(value, BUCKET_COUNT - 2);
      assert UpperBound(BUCKET_COUNT - 2) == 31 * Pow2(38) - 1;
    }
  }

  // Counting samples by bucket.

  function InBucket(samples: seq<nat>, index: nat): nat {
    if samples == [] then 0
    else InBucket(samples[..|samples| - 1], index) + if BucketIndex(samples[|samples| - 1]) == index then 1 else 0
  }

  /** Samples in the buckets before `index`. */
  function Before(samples: seq<nat>, index: nat): nat {
    if samples == [] then 0
    else Before(samples[..|samples| - 1], index) + if BucketIndex(samples[|samples| - 1]) < index then 1 else 0
  }

  lemma {:induction false} BeforeSteps(samples: seq<nat>, index: nat)
    ensures Before(samples, index + 1) == Before(samples, index) + InBucket(samples, index)
    ensures Before(samples, 0) == 0 && Before(samples, BUCKET_COUNT) == |samples|
  {
    hide BucketIndex;
    if samples != [] {
      BeforeSteps(samples[..|samples| - 1], index);
      BucketOrder(samples[|samples| - 1], BUCKET_COUNT - 1);
    }
  }

  lemma {:induction false} BeforeIsAtMost(samples: seq<nat>, index: nat)
    requires index < BUCKET_COUNT - 1
    ensures Before(samples, index + 1) == AtMost(samples, UpperBound(index))
  {
    hide BucketIndex, UpperBound;
    if samples != [] {
      BeforeIsAtMost(samples[..|samples| - 1], index);
      BucketOrder(samples[|samples| - 1], index);
    }
  }

  /** The sample at a one-based rank. */
  function AtRank(samples: seq<nat>, rank: nat): (value: nat)
    requires 1 <= rank <= |samples|
    ensures value in samples
  {
    SortSorts(samples);
    assert Sort(samples)[rank - 1] in multiset(samples);
    Sort(samples)[rank - 1]
  }

  /** Counting buckets up to the rank stops in the bucket of the sample ranked there. */
  lemma FirstBucket(samples: seq<nat>, rank: nat, index: nat)
    requires 1 <= rank <= |samples| && index < BUCKET_COUNT
    requires Before(samples, index) < rank <= Before(samples, index + 1)
    ensures index == BucketIndex(AtRank(samples, rank))
  {
    hide BucketIndex, UpperBound;
    var value := AtRank(samples, rank);
    if index < BUCKET_COUNT - 1 {
      BeforeIsAtMost(samples, index);
      RankAtMost(samples, rank, UpperBound(index));
    }
    BucketOrder(value, index);
    if index > 0 {
      BeforeIsAtMost(samples, index - 1);
      RankAtMost(samples, rank, UpperBound(index - 1));
      BucketOrder(value, index - 1);
    }
  }

  lemma WrapsOnce(a: nat, b: nat)
    ensures (a % UINT64_LIMIT + b) % UINT64_LIMIT == (a + b) % UINT64_LIMIT
  {
  }

  /** The rank a quantile asks for: a floor, and at least one. */
  function Rank(quantile: real, count: nat): (rank: nat)
    requires count > 0
    ensures 1 <= rank <= count
  {
    var clamped := if quantile < 0.0 then 0.0 else if quantile > 1.0 then 1.0 else quantile;
    ShareWithin(clamped, count);
    var rank := Share(clamped, count).Floor;
    if rank == 0 then 1 else rank
  }

  /** The smallest whole number at least `x`. */
  function Ceiling(x: real): int {
    if x.Floor as real == x then x.Floor else x.Floor + 1
  }

  /** The rank is the ceiling its description names only for a whole product, or below one. */
  lemma RankIsCeiling(quantile: real, count: nat)
    requires 0.0 <= quantile <= 1.0 && count > 0
    ensures var product := Share(quantile, count);
      Rank(quantile, count) == (if Ceiling(product) < 1 then 1 else Ceiling(product))
      <==> product == product.Floor as real || product < 1.0
  {
    ShareWithin(quantile, count);
  }

  /** From one on it is the floor: the last rank the product reaches. Below one it is the first. */
  lemma RankIsFloor(quantile: real, count: nat)
    requires 0.0 <= quantile <= 1.0 && count > 0
    ensures var product, rank := Share(quantile, count), Rank(quantile, count) as real;
      if product < 1.0 then rank == 1.0 else rank <= product < rank + 1.0
  {
    ShareWithin(quantile, count);
  }

  /** The median of three samples is read at rank one, not two. */
  lemma RankBelowCeiling()
    ensures Rank(0.5, 3) == 1 && Ceiling(Share(0.5, 3)) == 2
  {
    assert Share(0.5, 3) == 1.5;
  }

  /** The reported percentile is never below the exact one, and above it by less than a sixteenth. */
  lemma PercentileRefines(samples: seq<nat>, quantile: real)
    requires samples != [] && forall k :: 0 <= k < |samples| ==> samples[k] < CEILING
    ensures var exact := AtRank(samples, Rank(quantile, |samples|));
      var reported := UpperBound(BucketIndex(exact));
      exact <= reported && (reported == exact || 16 * (reported - exact) < exact)
  {
    RelativeError(AtRank(samples, Rank(quantile, |samples|)));
  }

  function Least(samples: seq<nat>): nat {
    if samples == [] then UINT64_LIMIT - 1 else Min(Least(samples[..|samples| - 1]), samples[|samples| - 1])
  }

  function Greatest(samples: seq<nat>): nat {
    if samples == [] then 0 else Max(Greatest(samples[..|samples| - 1]), samples[|samples| - 1])
  }

  function Total(samples: seq<nat>): nat {
    if samples == [] then 0 else Total(samples[..|samples| - 1]) + samples[|samples| - 1]
  }

  lemma {:induction false} OneMore(samples: seq<nat>, value: nat)
    ensures forall i ::
      InBucket(samples + [value], i) == InBucket(samples, i) + if BucketIndex(value) == i then 1 else 0
    ensures Least(samples + [value]) == Min(Least(samples), value)
    ensures Greatest(samples + [value]) == Max(Greatest(samples), value)
    ensures Total(samples + [value]) == Total(samples) + value
  {
    assert (samples + [value])[..|samples|] == samples;
  }

  lemma {:induction false} Extremes(samples: seq<nat>)
    requires forall k :: 0 <= k < |samples| ==> samples[k] < UINT64_LIMIT
    ensures forall k :: 0 <= k < |samples| ==> Least(samples) <= samples[k] <= Greatest(samples)
    ensures samples != [] ==> Least(samples) in samples && Greatest(samples) in samples
  {
    if samples == [] {
    } else {
      Extremes(samples[..|samples| - 1]);
    }
  }

  class LatencyHistogram {
    const counts: array<nat>
    var totalCount: nat
    /** A 64-bit accumulator, which wraps. */
    var sumNs: nat
    var minNs: nat
    var maxNs: nat
    ghost var samples: seq<nat>

    ghost predicate Valid()
      reads this, counts
    {
      && counts.Length == BUCKET_COUNT && totalCount == |samples|
      && (forall i :: 0 <= i < BUCKET_COUNT ==> counts[i] == InBucket(samples, i))
      && sumNs == Total(samples) % UINT64_LIMIT
      && minNs == Least(samples) && maxNs == Greatest(samples)
    }

    constructor ()
      ensures Valid() && samples == [] && fresh(counts)
    {
      counts := new nat[BUCKET_COUNT](_ => 0);
      totalCount, sumNs, minNs, maxNs, samples := 0, 0, UINT64_LIMIT - 1, 0, [];
    }

    method Record(valueNs: nat)
      requires Valid() && valueNs < UINT64_LIMIT
      modifies this, counts
      ensures Valid() && samples == old(samples) + [valueNs]
    {
      hide BucketIndex, InBucket, Total, Least, Greatest, Min, Max;
      OneMore(samples, valueNs);
      WrapsOnce(Total(samples), valueNs);
      var index := BucketIndex(valueNs);
      counts[index] := counts[index] + 1;
      totalCount := totalCount + 1;
      sumNs := (sumNs + valueNs) % UINT64_LIMIT;
      minNs := Min(minNs, valueNs);
      maxNs := Max(maxNs, valueNs);
      samples := samples + [valueNs];
    }

    /** The upper bound of the bucket of the sample at the asked rank; zero with no samples.
        The loop always finds it. */
    method Percentile(quantile: real) returns (value: nat)
      requires Valid()
      ensures samples == [] ==> value == 0
      ensures samples != [] ==> value == UpperBound(BucketIndex(AtRank(samples, Rank(quantile, |samples|))))
    {
      hide BucketIndex, UpperBound, Rank, AtRank, InBucket, Before;
      if totalCount == 0 {
        return 0;
      }
      var rank := Rank(quantile, totalCount);
      var cumulative := 0;
      BeforeSteps(samples, 0);
      for i := 0 to BUCKET_COUNT
        invariant cumulative == Before(samples, i) < rank
      {
        BeforeSteps(samples, i);
        cumulative := cumulative + counts[i];
        if cumulative >= rank {
          FirstBucket(samples, rank, i);
          return UpperBound(i);
        }
      }
      assert false;
      return maxNs;
    }

    method Reset()
      requires Valid()
      modifies this, counts
      ensures Valid() && samples == []
    {
      forall i | 0 <= i < BUCKET_COUNT {
        counts[i] := 0;
      }
      totalCount, sumNs, minNs, maxNs, samples := 0, 0, UINT64_LIMIT - 1, 0, [];
    }
  }
}
