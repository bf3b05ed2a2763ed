/** Nearest-rank latency summaries (crates/evoxy-bench/src/lib.rs) over 64-bit samples. */
module Bench {
  import opened Common

  const TWO64: int := 0x1_0000_0000_0000_0000

  type u64 = x: int | 0 <= x < TWO64

  /** Multiplication of two 64-bit numbers keeps the low 64 bits. */
  function WrappingMul(a: u64, b: u64): u64 {
    (a * b) % TWO64
  }

  function DivCeil(a: nat, b: nat): nat
    requires b > 0
  {
    (a + b - 1) / b
  }

  // ----- sorting -----

  predicate Ascending(s: seq<u64>) {
    forall i, j :: 0 <= i < j < |s| ==> s[i] <= s[j]
  }

  function InsertSorted(x: u64, s: seq<u64>): (r: seq<u64>)
    ensures |r| == |s| + 1
  {
    if s == [] || x <= s[0] then [x] + s else [s[0]] + InsertSorted(x, s[1..])
  }

  /** The samples in ascending order. */
  function Sorted(s: seq<u64>): (r: seq<u64>)
    ensures |r| == |s|
  {
    if s == [] then [] else InsertSorted(s[0], Sorted(s[1..]))
  }

  lemma {:induction false} InsertPermutes(x: u64, s: seq<u64>)
    ensures multiset(InsertSorted(x, s)) == multiset([x] + s)
  {
    if s != [] && x > s[0] {
      InsertPermutes(x, s[1..]);
      assert s == [s[0]] + s[1..];
    }
  }

  lemma {:induction false} SortedPermutes(s: seq<u64>)
    ensures multiset(Sorted(s)) == multiset(s)
  {
    if s != [] {
      SortedPermutes(s[1..]);
      InsertPermutes(s[0], Sorted(s[1..]));
      assert s == [s[0]] + s[1..];
    }
  }

  lemma SameMembers(a: seq<u64>, b: seq<u64>, x: u64)
    requires multiset(a) == multiset(b)
    ensures x in a <==> x in b
  {
    assert x in multiset(a) <==> x in multiset(b);
  }

  lemma {:induction false} InsertAbove(x: u64, s: seq<u64>, lo: u64)
    requires lo <= x && forall i :: 0 <= i < |s| ==> lo <= s[i]
    ensures forall i :: 0 <= i < |InsertSorted(x, s)| ==> lo <= InsertSorted(x, s)[i]
  {
    if s != [] && x > s[0] { InsertAbove(x, s[1..], lo); }
  }

  lemma {:induction false} InsertAscending(x: u64, s: seq<u64>)
    requires Ascending(s)
    ensures Ascending(InsertSorted(x, s))
  {
    if s != [] && x > s[0] {
      InsertAscending(x, s[1..]);
      InsertAbove(x, s[1..], s[0]);
    }
  }

  lemma {:induction false} SortedAscending(s: seq<u64>)
    ensures Ascending(Sorted(s))
  {
    if s != [] {
      SortedAscending(s[1..]);
      InsertAscending(s[0], Sorted(s[1..]));
    }
  }

  lemma SameTails(a: seq<u64>, b: seq<u64>)
    requires a != [] && b != [] && a[0] == b[0] && multiset(a) == multiset(b)
    ensures multiset(a[1..]) == multiset(b[1..])
  {
    assert a == [a[0]] + a[1..] && b == [b[0]] + b[1..];
    assert multiset(a[1..]) == multiset(a) - multiset{a[0]};
    assert multiset(b[1..]) == multiset(b) - multiset{b[0]};
  }

  lemma SameHead(a: seq<u64>, b: seq<u64>)
    requires a != [] && b != [] && Ascending(a) && Ascending(b) && multiset(a) == multiset(b)
    ensures a[0] == b[0]
  {
    SameMembers(a, b, a[0]);
    SameMembers(a, b, b[0]);
  }

  /** There is one ascending order: however a list is sorted, the result is the same. */
  lemma {:induction false} AscendingUnique(a: seq<u64>, b: seq<u64>)
    requires Ascending(a) && Ascending(b) && multiset(a) == multiset(b)
    ensures a == b
  {
    assert |multiset(a)| == |a| && |multiset(b)| == |b|;
    if a != [] {
      SameHead(a, b);
      SameTails(a, b);
      AscendingUnique(a[1..], b[1..]);
      assert a == [a[0]] + a[1..] && b == [b[0]] + b[1..];
    }
  }

  // ----- the summary -----

  /** `rank = ceil(p/100 * n)`, clamped to `[1, n]`, in 64-bit arithmetic. */
  function Rank(p: u64, n: u64): nat {
    var rank := DivCeil(WrappingMul(p, n), 100);
    var atLeast1 := if rank < 1 then 1 else rank;
    if atLeast1 > n then n else atLeast1
  }

  function NearestRank(sorted: seq<u64>, p: u64): u64
    requires 0 < |sorted| < TWO64
  {
    sorted[Rank(p, |sorted|) - 1]
  }

  function Sum(s: seq<u64>): nat {
    if s == [] then 0 else s[0] + Sum(s[1..])
  }

  function Mean(s: seq<u64>): u64
    requires s != []
  {
    var mean := Sum(s) / |s|;
    if mean < TWO64 then mean else TWO64 - 1
  }

  datatype LatencySummary = LatencySummary(
    count: u64, min: u64, max: u64, mean: u64, p50: u64, p90: u64, p99: u64)

  /** The summary of a list of samples; a list is shorter than 2^64. */
  function FromNanos(samples: seq<u64>): Option<LatencySummary>
    requires |samples| < TWO64
  {
    if samples == [] then None
    else
      var sorted := Sorted(samples);
      Some(LatencySummary(
        |sorted|,
        sorted[0],
        sorted[|sorted| - 1],
        Mean(sorted),
        NearestRank(sorted, 50),
        NearestRank(sorted, 90),
        NearestRank(sorted, 99)))
  }

  // ----- what a percentile is -----

  function Below(s: seq<u64>, v: u64): nat {
    if s == [] then 0 else (if s[0] < v then 1 else 0) + Below(s[1..], v)
  }

  function AtMost(s: seq<u64>, v: u64): nat {
    if s == [] then 0 else (if s[0] <= v then 1 else 0) + AtMost(s[1..], v)
  }

  /** A sample with at least p percent of the samples at or below it, and fewer than p percent
      strictly below it. */
  predicate IsPercentile(samples: seq<u64>, p: nat, v: u64) {
    && v in samples
    && 100 * AtMost(samples, v) >= p * |samples|
    && 100 * Below(samples, v) < p * |samples|
  }

  lemma {:induction false} InsertCounts(x: u64, s: seq<u64>, v: u64)
    ensures Below(InsertSorted(x, s), v) == Below([x] + s, v)
    ensures AtMost(InsertSorted(x, s), v) == AtMost([x] + s, v)
    ensures Sum(InsertSorted(x, s)) == Sum([x] + s)
  {
    assert ([x] + s)[1..] == s;
    if s != [] && x > s[0] {
      InsertCounts(x, s[1..], v);
      assert ([x] + s[1..])[1..] == s[1..];
    }
  }

  lemma {:induction false} SortedCounts(s: seq<u64>, v: u64)
    ensures Below(Sorted(s), v) == Below(s, v) && AtMost(Sorted(s), v) == AtMost(s, v)
    ensures Sum(Sorted(s)) == Sum(s)
  {
    if s != [] {
      SortedCounts(s[1..], v);
      InsertCounts(s[0], Sorted(s[1..]), v);
      assert ([s[0]] + Sorted(s[1..]))[1..] == Sorted(s[1..]);
    }
  }

  /** In ascending order, the element at place k has at most k elements below it and more
      than k at or below it. */
  lemma {:induction false} CountsAt(s: seq<u64>, k: nat)
    requires Ascending(s) && k < |s|
    ensures Below(s, s[k]) <= k < AtMost(s, s[k])
  {
    if k == 0 {
      NoneBelow(s, s[0]);
    } else {
      CountsAt(s[1..], k - 1);
    }
  }

  lemma {:induction false} NoneBelow(s: seq<u64>, v: u64)
    requires forall i :: 0 <= i < |s| ==> v <= s[i]
    ensures Below(s, v) == 0
  {
    if s != [] { NoneBelow(s[1..], v); }
  }

  lemma {:induction false} BelowLarger(s: seq<u64>, v: u64, w: u64)
    requires v < w
    ensures AtMost(s, v) <= Below(s, w)
  {
    if s != [] { BelowLarger(s[1..], v, w); }
  }

  lemma RankBounds(p: u64, n: u64)
    requires 1 <= p <= 100 && n > 0 && p * n < TWO64
    ensures 1 <= Rank(p, n) <= n && 100 * Rank(p, n) >= p * n && 100 * (Rank(p, n) - 1) < p * n
  {
    var m := p * n;
    assert m <= 100 * n by { MulMono(p, 100, n); }
    assert m >= 1 by { MulMono(1, p, n); }
    assert m % TWO64 == m;
  }

  lemma MulMono(a: nat, b: nat, n: nat)
    requires a <= b
    ensures a * n <= b * n
  {
  }

  /** The nearest-rank value is the percentile: the one sample with at least p percent of the
      samples at or below it and fewer than p percent below it. */
  lemma PercentileIff(samples: seq<u64>, p: u64, v: u64)
    requires samples != [] && |samples| < TWO64
    requires 1 <= p <= 100 && p * |samples| < TWO64
    ensures NearestRank(Sorted(samples), p) == v <==> IsPercentile(samples, p, v)
  {
    var w := NearestRank(Sorted(samples), p);
    RankIsPercentile(samples, p);
    if v < w { BelowLarger(samples, v, w); }
    if w < v { BelowLarger(samples, w, v); }
  }

  /** What the place of the nearest rank says of any ascending list. */
  lemma RankCounts(s: seq<u64>, p: u64)
    requires s != [] && |s| < TWO64 && Ascending(s)
    requires 1 <= p <= 100 && p * |s| < TWO64
    ensures var w := NearestRank(s, p);
            w in s && 100 * AtMost(s, w) >= p * |s| && 100 * Below(s, w) < p * |s|
  {
    RankBounds(p, |s|);
    CountsAt(s, Rank(p, |s|) - 1);
  }

  lemma RankIsPercentile(samples: seq<u64>, p: u64)
    requires samples != [] && |samples| < TWO64
    requires 1 <= p <= 100 && p * |samples| < TWO64
    ensures IsPercentile(samples, p, NearestRank(Sorted(samples), p))
  {
    var w := NearestRank(Sorted(samples), p);
    SortedAscending(samples);
    RankCounts(Sorted(samples), p);
    SortedPermutes(samples);
    SortedCounts(samples, w);
    SameMembers(Sorted(samples), samples, w);
  }

  /** The reported percentiles are the percentiles. */
  predicate PercentilesHold(samples: seq<u64>, r: LatencySummary) {
    IsPercentile(samples, 50, r.p50) && IsPercentile(samples, 90, r.p90) && IsPercentile(samples, 99, r.p99)
  }

  predicate InOrder(r: LatencySummary) {
    r.min <= r.p50 <= r.p90 <= r.p99 <= r.max && r.min <= r.mean <= r.max
  }

  lemma SummaryPercentiles(samples: seq<u64>)
    requires samples != [] && 99 * |samples| < TWO64
    ensures PercentilesHold(samples, FromNanos(samples).value)
  {
    RankIsPercentile(samples, 50);
    RankIsPercentile(samples, 90);
    RankIsPercentile(samples, 99);
  }

  lemma SummaryInOrder(samples: seq<u64>)
    requires samples != [] && 99 * |samples| < TWO64
    ensures InOrder(FromNanos(samples).value)
  {
    SortedAscending(samples);
    RanksInOrder(Sorted(samples));
    MeanBounds(Sorted(samples));
  }

  lemma SummaryEnds(samples: seq<u64>)
    requires samples != [] && |samples| < TWO64
    ensures Extremes(samples, FromNanos(samples).value.min, FromNanos(samples).value.max)
    ensures IsAverage(samples, FromNanos(samples).value.mean)
  {
    SortedAscending(samples);
    SortedPermutes(samples);
    SortedCounts(samples, 0);
    EndsAreExtremes(samples, Sorted(samples));
    MeanBounds(Sorted(samples));
  }

  /** Every reported percentile is one, the reported values are in order, and the mean is the
      exact average rounded down, between the least and the greatest sample. */
  lemma SummarySound(samples: seq<u64>)
    requires samples != [] && 99 * |samples| < TWO64
    ensures FromNanos(samples).Some?
    ensures var r := FromNanos(samples).value;
            && r.count == |samples| && PercentilesHold(samples, r) && InOrder(r)
            && Extremes(samples, r.min, r.max) && IsAverage(samples, r.mean)
  {
    SummaryPercentiles(samples);
    SummaryInOrder(samples);
    SummaryEnds(samples);
  }

  /** The least and the greatest sample. */
  predicate Extremes(samples: seq<u64>, lo: u64, hi: u64) {
    lo in samples && hi in samples && forall i :: 0 <= i < |samples| ==> lo <= samples[i] <= hi
  }

  /** The average of the samples, rounded down. */
  predicate IsAverage(samples: seq<u64>, mean: nat) {
    mean * |samples| <= Sum(samples) < (mean + 1) * |samples|
  }

  lemma RanksOrdered(n: u64)
    requires n > 0 && 99 * n < TWO64
    ensures 1 <= Rank(50, n) <= Rank(90, n) <= Rank(99, n) <= n
  {
    assert WrappingMul(50, n) == 50 * n by { Fits(50 * n); }
    assert WrappingMul(90, n) == 90 * n by { Fits(90 * n); }
    assert WrappingMul(99, n) == 99 * n by { Fits(99 * n); }
  }

  lemma Fits(m: nat)
    requires m < TWO64
    ensures m % TWO64 == m
  {
  }

  lemma RanksInOrder(s: seq<u64>)
    requires s != [] && 99 * |s| < TWO64 && Ascending(s)
    ensures s[0] <= NearestRank(s, 50) <= NearestRank(s, 90) <= NearestRank(s, 99) <= s[|s| - 1]
  {
    RanksOrdered(|s|);
    NoLater(s, 0, Rank(50, |s|) - 1);
    NoLater(s, Rank(50, |s|) - 1, Rank(90, |s|) - 1);
    NoLater(s, Rank(90, |s|) - 1, Rank(99, |s|) - 1);
    NoLater(s, Rank(99, |s|) - 1, |s| - 1);
  }

  lemma NoLater(s: seq<u64>, i: nat, j: nat)
    requires Ascending(s) && i <= j < |s|
    ensures s[i] <= s[j]
  {
  }

  lemma EndsAreExtremes(samples: seq<u64>, s: seq<u64>)
    requires s != [] && Ascending(s) && multiset(s) == multiset(samples)
    ensures Extremes(samples, s[0], s[|s| - 1])
  {
    SameMembers(s, samples, s[0]);
    SameMembers(s, samples, s[|s| - 1]);
    forall i | 0 <= i < |samples| ensures s[0] <= samples[i] <= s[|s| - 1] {
      SameMembers(s, samples, samples[i]);
      var j :| 0 <= j < |s| && s[j] == samples[i];
      NoLater(s, 0, j);
      NoLater(s, j, |s| - 1);
    }
  }

  lemma {:induction false} SumBounds(s: seq<u64>, lo: u64, hi: u64)
    requires forall i :: 0 <= i < |s| ==> lo <= s[i] <= hi
    ensures lo * |s| <= Sum(s) <= hi * |s|
  {
    if s != [] { SumBounds(s[1..], lo, hi); }
  }

  lemma MeanBounds(s: seq<u64>)
    requires s != [] && Ascending(s)
    ensures s[0] <= Mean(s) <= s[|s| - 1] && IsAverage(s, Mean(s))
  {
    forall i | 0 <= i < |s| ensures s[0] <= s[i] <= s[|s| - 1] {
      NoLater(s, 0, i);
      NoLater(s, i, |s| - 1);
    }
    SumBounds(s, s[0], s[|s| - 1]);
    Quotient(Sum(s), |s|, s[0], s[|s| - 1]);
  }

  lemma Quotient(sum: nat, n: nat, lo: nat, hi: nat)
    requires n > 0 && lo * n <= sum <= hi * n
    ensures lo <= sum / n <= hi
    ensures (sum / n) * n <= sum < (sum / n + 1) * n
  {
    var q := sum / n;
    assert sum == q * n + sum % n;
    assert (q + 1) * n == q * n + n && (hi + 1) * n == hi * n + n;
    if q < lo {
      MulMono(q + 1, lo, n);
      assert false;
    }
    if hi < q {
      MulMono(hi + 1, q, n);
      assert false;
    }
  }

  /** The order in which the samples were taken does not matter. */
  lemma OrderIndependent(a: seq<u64>, b: seq<u64>)
    requires multiset(a) == multiset(b) && |a| < TWO64 && |b| < TWO64
    ensures FromNanos(a) == FromNanos(b)
  {
    SortedAscending(a);
    SortedAscending(b);
    SortedPermutes(a);
    SortedPermutes(b);
    AscendingUnique(Sorted(a), Sorted(b));
    assert |multiset(a)| == |a| && |multiset(b)| == |b|;
  }

  /** The rank is the ceiling of p percent of n exactly when the product fits 64 bits; past
      that the product wraps and the rank is too small. */
  lemma RankExactIff(p: u64, n: u64)
    requires 1 <= p <= 100 && n > 0
    ensures Rank(p, n) == DivCeil(p * n, 100) <==> p * n < TWO64
  {
    var m := p * n;
    assert 1 <= m <= 100 * n by { MulMono(p, 100, n); MulMono(1, p, n); }
    if m < TWO64 {
      assert m % TWO64 == m;
    } else {
      assert m == TWO64 * (m / TWO64) + m % TWO64;
      assert m / TWO64 >= 1;
    }
  }
}
