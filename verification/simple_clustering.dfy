/**
 The simplified cluster assigner `performSimpleKMeans`: spend and purchase
 count are normalised by their cohort maxima, their mean picks one of `k`
 equal-width buckets and their sum, scaled to 0..100 and rounded, is the score.
 Arithmetic is exact over `real`.
 */
module SimpleClustering {

  /** One row of the k-means aggregation (the unused `categories` set is left out). */
  datatype ClusterRow = ClusterRow(
    userId: string,
    totalSpent: real,
    frequency: int,
    avgOrderValue: real)

  /** One entry of the list `performSimpleKMeans` returns (the `addedAt` stamp is left out). */
  datatype ClusterAssignment = ClusterAssignment(userId: string, score: int, clusterIndex: int)

  /** The spend column, `data.map(d => d.totalSpent)`. */
  function Spends(rows: seq<ClusterRow>): (xs: seq<real>)
    ensures |xs| == |rows| && forall i :: 0 <= i < |rows| ==> xs[i] == rows[i].totalSpent
  {
    seq(|rows|, i requires 0 <= i < |rows| => rows[i].totalSpent)
  }

  /** The purchase-count column, `data.map(d => d.frequency)`, as numbers. */
  function Frequencies(rows: seq<ClusterRow>): (xs: seq<real>)
    ensures |xs| == |rows| && forall i :: 0 <= i < |rows| ==> xs[i] == rows[i].frequency as real
  {
    seq(|rows|, i requires 0 <= i < |rows| => rows[i].frequency as real)
  }

  /** `Math.max(...xs)` on a non-empty list: an upper bound that is attained. */
  function MaxReal(xs: seq<real>): (m: real)
    requires |xs| > 0
    ensures forall i :: 0 <= i < |xs| ==> xs[i] <= m
    ensures exists i :: 0 <= i < |xs| && xs[i] == m
  {
    if |xs| == 1 then xs[0]
    else
      var rest := MaxReal(xs[1..]);
      assert forall i :: 1 <= i < |xs| ==> xs[i] == xs[1..][i - 1];
      if xs[0] >= rest then xs[0] else rest
  }

  function MaxSpent(rows: seq<ClusterRow>): real
    requires |rows| > 0
  {
    MaxReal(Spends(rows))
  }

  function MaxFrequency(rows: seq<ClusterRow>): real
    requires |rows| > 0
  {
    MaxReal(Frequencies(rows))
  }

  /**
   Input on which the source computes numbers rather than NaN: spends and
   counts are non-negative and, unless the cohort is empty, both maxima are
   positive (an empty cohort yields an empty list without dividing).
   */
  predicate WellFormedInput(rows: seq<ClusterRow>)
  {
    && (forall i :: 0 <= i < |rows| ==> rows[i].totalSpent >= 0.0 && rows[i].frequency >= 0)
    && (|rows| > 0 ==> MaxSpent(rows) > 0.0 && MaxFrequency(rows) > 0.0)
  }

  /** `Math.round(x)`: the nearest integer, halves rounded up. */
  function RoundHalfUp(x: real): (r: int)
    ensures r as real - 0.5 <= x < r as real + 0.5
  {
    (x + 0.5).Floor
  }

  /**
   `Math.floor(avg * k)`, lowered to `k - 1` when it reaches `k`: for an
   average in [0, 1] the bucket whose width-1/k interval holds it, the last
   bucket also taking the closing point 1.
   */
  function Bucket(avg: real, k: int): (c: int)
    ensures k >= 1 && 0.0 <= avg <= 1.0 ==> 0 <= c < k
    ensures k >= 1 && 0.0 <= avg <= 1.0 ==>
      c as real <= avg * k as real && (avg * k as real < (c + 1) as real || c == k - 1)
  {
    var c := (avg * k as real).Floor;
    ScaleWithin(avg, k as real);
    if c >= k then k - 1 else c
  }

  lemma ScaleWithin(x: real, k: real)
    ensures 0.0 <= x <= 1.0 && k >= 0.0 ==> 0.0 <= x * k <= k
  {
    assert k - x * k == (1.0 - x) * k;
  }

  /** `x / m` for `0 <= x <= m` lies in [0, 1]. */
  lemma NormalizedInUnit(x: real, m: real)
    requires 0.0 <= x <= m && m > 0.0
    ensures 0.0 <= x / m <= 1.0
  {
    assert m / m == 1.0;
    DivideMonotone(x, m, m);
    DivideMonotone(0.0, x, m);
  }

  lemma DivideMonotone(x: real, y: real, m: real)
    requires x <= y && m > 0.0
    ensures x / m <= y / m
  {
    assert y / m - x / m == (y - x) / m;
  }

  /**
   `normalizedSpent + normalizedFreq`: spend and purchase count each divided
   by its cohort maximum, then added. A row within the maxima lands in
   [0, 2], and exactly on both maxima at 2.
   */
  function NormalizedSum(spent: real, freq: real, maxSpent: real, maxFreq: real): (sum: real)
    requires maxSpent != 0.0 && maxFreq != 0.0
    ensures 0.0 <= spent <= maxSpent && 0.0 <= freq <= maxFreq ==> 0.0 <= sum <= 2.0
    ensures spent == maxSpent && freq == maxFreq ==> sum == 2.0
  {
    assert 0.0 <= spent <= maxSpent && 0.0 <= freq <= maxFreq ==>
      0.0 <= spent / maxSpent <= 1.0 && 0.0 <= freq / maxFreq <= 1.0 by {
      if 0.0 <= spent <= maxSpent && 0.0 <= freq <= maxFreq {
        NormalizedInUnit(spent, maxSpent);
        NormalizedInUnit(freq, maxFreq);
      }
    }
    assert spent == maxSpent ==> spent / maxSpent == 1.0;
    assert freq == maxFreq ==> freq / maxFreq == 1.0;
    spent / maxSpent + freq / maxFreq
  }

  /** `Math.round(sum * 50)`: the score, in [0, 100] for a sum in [0, 2]. */
  function ClusterScore(sum: real): (s: int)
    ensures 0.0 <= sum <= 2.0 ==> 0 <= s <= 100
    ensures s as real - 0.5 <= sum * 50.0 < s as real + 0.5
  {
    RoundHalfUp(sum * 50.0)
  }

  /** The bucket of the average `sum / 2`, in [0, k - 1] for a sum in [0, 2] and `k >= 1`. */
  function ClusterIndex(sum: real, k: int): (c: int)
    ensures k >= 1 && 0.0 <= sum <= 2.0 ==> 0 <= c < k
  {
    Bucket(sum / 2.0, k)
  }

  /**
   The per-row body of the `forEach`, given the cohort maxima: the row keeps
   its user id and, when it lies within the maxima, gets a score in [0, 100]
   and, for `k >= 1`, a cluster in [0, k - 1].
   */
  function AssignRow(row: ClusterRow, maxSpent: real, maxFreq: real, k: int): (a: ClusterAssignment)
    requires maxSpent != 0.0 && maxFreq != 0.0
    ensures a.userId == row.userId
    ensures 0.0 <= row.totalSpent <= maxSpent && 0.0 <= row.frequency as real <= maxFreq ==>
      0 <= a.score <= 100 && (k >= 1 ==> 0 <= a.clusterIndex < k)
  {
    var sum := NormalizedSum(row.totalSpent, row.frequency as real, maxSpent, maxFreq);
    ClusterAssignment(row.userId, ClusterScore(sum), ClusterIndex(sum, k))
  }

  /**
   `performSimpleKMeans`: one assignment per row, same order and user id, a
   score in [0, 100] and, for `k >= 1`, a cluster index in [0, k - 1]; both
   are read off the row's own spend and count against the cohort maxima.
   */
  function PerformSimpleKMeans(rows: seq<ClusterRow>, k: int): (r: seq<ClusterAssignment>)
    requires WellFormedInput(rows)
    ensures |r| == |rows|
    ensures forall i :: 0 <= i < |rows| ==>
      && r[i].userId == rows[i].userId
      && 0 <= r[i].score <= 100
      && (k >= 1 ==> 0 <= r[i].clusterIndex < k)
    ensures forall i :: 0 <= i < |rows| ==>
      var sum := NormalizedSum(rows[i].totalSpent, rows[i].frequency as real, MaxSpent(rows), MaxFrequency(rows));
      r[i].score == ClusterScore(sum) && r[i].clusterIndex == ClusterIndex(sum, k)
  {
    if |rows| == 0 then []
    else
      var maxSpent := MaxSpent(rows);
      var maxFreq := MaxFrequency(rows);
      assert forall i :: 0 <= i < |rows| ==>
        0.0 <= NormalizedSum(rows[i].totalSpent, rows[i].frequency as real, maxSpent, maxFreq) <= 2.0 by {
        forall i | 0 <= i < |rows|
          ensures 0.0 <= NormalizedSum(rows[i].totalSpent, rows[i].frequency as real, maxSpent, maxFreq) <= 2.0
        {
          assert Spends(rows)[i] == rows[i].totalSpent;
          assert Frequencies(rows)[i] == rows[i].frequency as real;
        }
      }
      seq(|rows|, i requires 0 <= i < |rows| => AssignRow(rows[i], maxSpent, maxFreq, k))
  }

  /** The floor never goes down as its argument goes up. */
  lemma FloorMonotone(x: real, y: real)
    requires x <= y
    ensures x.Floor <= y.Floor
  {
    assert x.Floor as real <= x;
    assert y < y.Floor as real + 1.0;
  }

  /** Clamping the floor to `k - 1` keeps it monotone. */
  lemma ClampedFloorMonotone(x: real, y: real, k: int)
    requires x <= y
    ensures (if x.Floor >= k then k - 1 else x.Floor) <= (if y.Floor >= k then k - 1 else y.Floor)
  {
    FloorMonotone(x, y);
  }

  /** For a negative `k` every scaled average in [k, 0] floors to at least `k`, so its bucket is `k - 1`. */
  lemma NegativeBucket(avg: real, k: int)
    requires 0.0 <= avg <= 1.0 && k < 0
    ensures Bucket(avg, k) == k - 1
  {
    var x := avg * k as real;
    ScaleWithinNegative(avg, k as real);
    assert (k as real).Floor == k;
    FloorMonotone(k as real, x);
  }

  /** The bucket never goes down as the normalised average goes up. */
  lemma BucketMonotone(a: real, b: real, k: int)
    requires 0.0 <= a <= b <= 1.0
    ensures Bucket(a, k) <= Bucket(b, k)
  {
    if k >= 0 {
      var x, y := a * k as real, b * k as real;
      ScaleMonotone(a, b, k);
      ClampedFloorMonotone(x, y, k);
    } else {
      NegativeBucket(a, k);
      NegativeBucket(b, k);
    }
  }

  lemma ScaleMonotone(a: real, b: real, k: int)
    requires a <= b && k >= 0
    ensures a * k as real <= b * k as real
  {
    assert b * k as real - a * k as real == (b - a) * k as real;
  }

  lemma ScaleWithinNegative(x: real, k: real)
    requires 0.0 <= x <= 1.0 && k < 0.0
    ensures k <= x * k
  {
    assert x * k - k == (1.0 - x) * (-k);
  }

  /** A larger normalised sum never gets a smaller score nor a lower cluster. */
  lemma AssignmentMonotone(s: real, t: real, k: int)
    requires 0.0 <= s <= t <= 2.0
    ensures ClusterScore(s) <= ClusterScore(t)
    ensures ClusterIndex(s, k) <= ClusterIndex(t, k)
  {
    FloorMonotone(s * 50.0 + 0.5, t * 50.0 + 0.5);
    BucketMonotone(s / 2.0, t / 2.0, k);
  }

  /**
   A customer who spends no more and buys no more often than another is
   never placed in a higher cluster nor given a higher score.
   */
  lemma ClusterMonotone(rows: seq<ClusterRow>, k: int, i: nat, j: nat)
    requires WellFormedInput(rows) && i < |rows| && j < |rows|
    requires rows[i].totalSpent <= rows[j].totalSpent && rows[i].frequency <= rows[j].frequency
    ensures PerformSimpleKMeans(rows, k)[i].clusterIndex <= PerformSimpleKMeans(rows, k)[j].clusterIndex
    ensures PerformSimpleKMeans(rows, k)[i].score <= PerformSimpleKMeans(rows, k)[j].score
  {
    var maxSpent := MaxSpent(rows);
    var maxFreq := MaxFrequency(rows);
    assert Spends(rows)[i] == rows[i].totalSpent && Spends(rows)[j] == rows[j].totalSpent;
    assert Frequencies(rows)[i] == rows[i].frequency as real && Frequencies(rows)[j] == rows[j].frequency as real;
    DivideMonotone(rows[i].totalSpent, rows[j].totalSpent, maxSpent);
    DivideMonotone(rows[i].frequency as real, rows[j].frequency as real, maxFreq);
    AssignmentMonotone(
      NormalizedSum(rows[i].totalSpent, rows[i].frequency as real, maxSpent, maxFreq),
      NormalizedSum(rows[j].totalSpent, rows[j].frequency as real, maxSpent, maxFreq), k);
  }

  /** The customer holding both cohort maxima lands in the last cluster with score 100. */
  lemma TopCustomerCluster(rows: seq<ClusterRow>, k: int, i: nat)
    requires WellFormedInput(rows) && i < |rows| && k >= 1
    requires rows[i].totalSpent == MaxSpent(rows) && rows[i].frequency as real == MaxFrequency(rows)
    ensures PerformSimpleKMeans(rows, k)[i] == ClusterAssignment(rows[i].userId, 100, k - 1)
  {
    var maxSpent := MaxSpent(rows);
    var maxFreq := MaxFrequency(rows);
    assert maxSpent > 0.0 && maxFreq > 0.0;
    assert NormalizedSum(rows[i].totalSpent, rows[i].frequency as real, maxSpent, maxFreq) == 2.0;
  }

  /**
   Score 100 does not need both maxima: spending 199 against a maximum of 200
   with the top purchase count gives (0.995 + 1) * 50 = 99.75, rounded to 100.
   */
  lemma FullScoreBelowMaxima()
    ensures PerformSimpleKMeans(
      [ClusterRow("a", 200.0, 10, 20.0), ClusterRow("b", 199.0, 10, 19.9)], 4)[1]
      == ClusterAssignment("b", 100, 3)
  {
    var rows := [ClusterRow("a", 200.0, 10, 20.0), ClusterRow("b", 199.0, 10, 19.9)];
    assert Spends(rows) == [200.0, 199.0];
    assert Frequencies(rows) == [10.0, 10.0];
    assert MaxSpent(rows) == 200.0;
    assert MaxFrequency(rows) == 10.0;
    assert NormalizedSum(199.0, 10.0, 200.0, 10.0) == 1.995;
  }
}
