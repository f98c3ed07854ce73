/**
 The summary statistics attached to a segmentation result:
 `calculateSegmentMetrics` for RFM segments and `calculateClusterMetrics`
 for clusters. Both count how many assignments carry each label, in list
 order, and divide the sum of the scores by the number of assignments.
 */
module SegmentMetrics {
  import opened RfmScoring
  import opened SegmentClassifier
  import opened SimpleClustering

  /** How many entries of `keys` equal `key`. */
  function Count<K(==)>(keys: seq<K>, key: K): (c: nat)
    ensures c <= |keys|
    ensures c == 0 <==> key !in keys
  {
    if |keys| == 0 then 0
    else
      var last := keys[|keys| - 1];
      assert keys == keys[..|keys| - 1] + [last];
      Count(keys[..|keys| - 1], key) + (if last == key then 1 else 0)
  }

  /**
   The counting loop `if (!counts[key]) counts[key] = 0; counts[key]++`, run
   over `keys` from first to last: exactly the keys that occur are present,
   each with its number of occurrences.
   */
  function Histogram<K(==,!new)>(keys: seq<K>): (h: map<K, nat>)
    ensures forall key :: key in h <==> key in keys
    ensures forall key :: key in h ==> h[key] == Count(keys, key)
  {
    if |keys| == 0 then map[]
    else
      var last := keys[|keys| - 1];
      var before := Histogram(keys[..|keys| - 1]);
      assert keys == keys[..|keys| - 1] + [last];
      before[last := (if last in before then before[last] else 0) + 1]
  }

  /** Some key of a non-empty map. */
  ghost function Pick<K>(m: map<K, nat>): (key: K)
    requires |m| > 0
    ensures key in m
  {
    assert m.Keys != {} by {
      assert |m.Keys| == |m|;
    }
    var key :| key in m;
    key
  }

  /** Taking a key out of a map shrinks it by one. */
  lemma RemoveShrinks<K>(m: map<K, nat>, key: K)
    requires key in m
    ensures |m - {key}| == |m| - 1
  {
    assert (m - {key}).Keys == m.Keys - {key};
  }

  /** The sum of the counts in a histogram, taken in an arbitrary key order. */
  ghost function SumValues<K>(m: map<K, nat>): nat
    decreases |m|
  {
    if |m| == 0 then 0
    else
      var key := Pick(m);
      RemoveShrinks(m, key);
      m[key] + SumValues(m - {key})
  }

  /** The sum does not depend on which key is taken out first. */
  lemma {:induction false} SumValuesRemove<K>(m: map<K, nat>, key: K)
    requires key in m
    ensures SumValues(m) == m[key] + SumValues(m - {key})
    decreases |m|
  {
    var first := Pick(m);
    if first != key {
      RemoveShrinks(m, first);
      RemoveShrinks(m, key);
      SumValuesRemove(m - {first}, key);
      SumValuesRemove(m - {key}, first);
      assert m - {first} - {key} == m - {key} - {first};
    }
  }

  /** Removing a key undoes any update of it. */
  lemma UpdateThenRemove<K>(m: map<K, nat>, key: K, v: nat)
    ensures m[key := v] - {key} == m - {key}
  {
  }

  /** Counting one more occurrence of `key` raises the sum of the counts by one. */
  lemma SumValuesIncrement<K>(m: map<K, nat>, key: K)
    ensures SumValues(m[key := (if key in m then m[key] else 0) + 1]) == SumValues(m) + 1
  {
    var h := m[key := (if key in m then m[key] else 0) + 1];
    UpdateThenRemove(m, key, h[key]);
    var rest := SumValues(m - {key});
    assert SumValues(h) == h[key] + rest by {
      SumValuesRemove(h, key);
    }
    assert SumValues(m) == (if key in m then m[key] else 0) + rest by {
      if key in m {
        SumValuesRemove(m, key);
      } else {
        assert m - {key} == m;
      }
    }
  }

  /** The counts of a histogram add up to the length of the list it was built from. */
  lemma {:induction false} HistogramTotal<K(!new)>(keys: seq<K>)
    ensures SumValues(Histogram(keys)) == |keys|
  {
    if |keys| > 0 {
      var before := Histogram(keys[..|keys| - 1]);
      var last := keys[|keys| - 1];
      assert Histogram(keys) == before[last := (if last in before then before[last] else 0) + 1];
      HistogramTotal(keys[..|keys| - 1]);
      SumValuesIncrement(before, last);
    }
  }

  /**
   `reduce((sum, x) => sum + x, 0)`: the running total adds the last element
   last. A list of non-negative entries has a non-negative total.
   */
  function Sum(xs: seq<int>): (s: int)
    ensures (forall i :: 0 <= i < |xs| ==> xs[i] >= 0) ==> s >= 0
  {
    if |xs| == 0 then 0 else Sum(xs[..|xs| - 1]) + xs[|xs| - 1]
  }

  /** The left-to-right total is also the first element plus the total of the rest. */
  lemma {:induction false} SumSplitFirst(xs: seq<int>)
    requires |xs| > 0
    ensures Sum(xs) == xs[0] + Sum(xs[1..])
  {
    if |xs| > 1 {
      var init := xs[..|xs| - 1];
      SumSplitFirst(init);
      assert xs[1..][..|xs| - 2] == init[1..];
    }
  }

  /** The quotient `sum / length`: a number, or NaN when the list is empty (0 / 0). */
  datatype Average = Mean(value: real) | NotANumber

  /** The mean of `xs`: NaN exactly on the empty list, otherwise the value that times the length gives the sum. */
  function AverageOf(xs: seq<int>): (a: Average)
    ensures a.NotANumber? <==> |xs| == 0
    ensures a.Mean? ==> a.value * |xs| as real == Sum(xs) as real
  {
    if |xs| == 0 then NotANumber else Mean(Sum(xs) as real / |xs| as real)
  }

  /** Bounds on every entry bound the sum by the length times the bounds. */
  lemma {:induction false} SumBounds(xs: seq<int>, lo: int, hi: int)
    requires forall i :: 0 <= i < |xs| ==> lo <= xs[i] <= hi
    ensures lo * |xs| <= Sum(xs) <= hi * |xs|
  {
    if |xs| > 0 {
      SumBounds(xs[..|xs| - 1], lo, hi);
      assert lo * |xs| == lo * (|xs| - 1) + lo;
      assert hi * |xs| == hi * (|xs| - 1) + hi;
    }
  }

  /** The mean of entries within [lo, hi] lies within [lo, hi]. */
  lemma AverageBounds(xs: seq<int>, lo: int, hi: int)
    requires |xs| > 0
    requires forall i :: 0 <= i < |xs| ==> lo <= xs[i] <= hi
    ensures lo as real <= AverageOf(xs).value <= hi as real
  {
    SumBounds(xs, lo, hi);
    var total, n := Sum(xs), |xs|;
    assert AverageOf(xs).value == total as real / n as real;
    MeanBounds(total, n, lo, hi);
  }

  lemma MeanBounds(total: int, n: int, lo: int, hi: int)
    requires n > 0 && lo * n <= total <= hi * n
    ensures lo as real <= total as real / n as real <= hi as real
  {
    ProductAsReal(lo, n);
    ProductAsReal(hi, n);
    QuotientBounds(total as real, n as real, lo as real, hi as real);
  }

  lemma ProductAsReal(x: int, n: int)
    ensures (x * n) as real == x as real * n as real
  {
  }

  lemma QuotientBounds(s: real, n: real, lo: real, hi: real)
    requires n > 0.0 && lo * n <= s <= hi * n
    ensures lo <= s / n <= hi
  {
    var q := s / n;
    assert q * n == s;
    assert (q - lo) * n >= 0.0;
    assert (hi - q) * n >= 0.0;
  }

  /** `{ totalUsers, <label>Distribution, averageScore }`. */
  datatype Metrics<K> = Metrics(totalUsers: nat, distribution: map<K, nat>, averageScore: Average)

  function SegmentNames(segments: seq<SegmentAssignment>): (names: seq<string>)
    ensures |names| == |segments| && forall i :: 0 <= i < |segments| ==> names[i] == segments[i].segmentName
  {
    seq(|segments|, i requires 0 <= i < |segments| => segments[i].segmentName)
  }

  function SegmentScores(segments: seq<SegmentAssignment>): (scores: seq<int>)
    ensures |scores| == |segments| && forall i :: 0 <= i < |segments| ==> scores[i] == segments[i].score
  {
    seq(|segments|, i requires 0 <= i < |segments| => segments[i].score)
  }

  /**
   `calculateSegmentMetrics`: the number of assignments, how many carry each
   segment name (only names that occur appear), and the mean score, NaN on
   an empty list.
   */
  function CalculateSegmentMetrics(segments: seq<SegmentAssignment>): (m: Metrics<string>)
    ensures m.totalUsers == |segments|
    ensures forall name :: name in m.distribution <==>
      exists i :: 0 <= i < |segments| && segments[i].segmentName == name
    ensures forall name :: name in m.distribution ==> m.distribution[name] == Count(SegmentNames(segments), name)
    ensures m.averageScore == AverageOf(SegmentScores(segments))
  {
    var names := SegmentNames(segments);
    NameMembership(names, segments);
    Metrics(|segments|, Histogram(names), AverageOf(SegmentScores(segments)))
  }

  lemma NameMembership(names: seq<string>, segments: seq<SegmentAssignment>)
    requires names == SegmentNames(segments)
    ensures forall name :: name in names <==> exists i :: 0 <= i < |segments| && segments[i].segmentName == name
  {
    forall name | name in names
      ensures exists i :: 0 <= i < |segments| && segments[i].segmentName == name
    {
      var i :| 0 <= i < |names| && names[i] == name;
      assert segments[i].segmentName == name;
    }
  }

  function ClusterIndices(clusters: seq<ClusterAssignment>): (indices: seq<int>)
    ensures |indices| == |clusters| && forall i :: 0 <= i < |clusters| ==> indices[i] == clusters[i].clusterIndex
  {
    seq(|clusters|, i requires 0 <= i < |clusters| => clusters[i].clusterIndex)
  }

  lemma IndexMembership(indices: seq<int>, clusters: seq<ClusterAssignment>)
    requires indices == ClusterIndices(clusters)
    ensures forall c :: c in indices <==> exists i :: 0 <= i < |clusters| && clusters[i].clusterIndex == c
  {
    forall c | c in indices
      ensures exists i :: 0 <= i < |clusters| && clusters[i].clusterIndex == c
    {
      var i :| 0 <= i < |indices| && indices[i] == c;
      assert clusters[i].clusterIndex == c;
    }
  }

  function ClusterScores(clusters: seq<ClusterAssignment>): (scores: seq<int>)
    ensures |scores| == |clusters| && forall i :: 0 <= i < |clusters| ==> scores[i] == clusters[i].score
  {
    seq(|clusters|, i requires 0 <= i < |clusters| => clusters[i].score)
  }

  /**
   `calculateClusterMetrics`: the number of assignments, how many fall in
   each cluster index that occurs, and the mean score, NaN on an empty list.
   */
  function CalculateClusterMetrics(clusters: seq<ClusterAssignment>): (m: Metrics<int>)
    ensures m.totalUsers == |clusters|
    ensures forall c :: c in m.distribution <==>
      exists i :: 0 <= i < |clusters| && clusters[i].clusterIndex == c
    ensures forall c :: c in m.distribution ==> m.distribution[c] == Count(ClusterIndices(clusters), c)
    ensures m.averageScore == AverageOf(ClusterScores(clusters))
  {
    var indices := ClusterIndices(clusters);
    IndexMembership(indices, clusters);
    Metrics(|clusters|, Histogram(indices), AverageOf(ClusterScores(clusters)))
  }

  /** The segment counts add up to the number of users. */
  lemma SegmentDistributionTotal(segments: seq<SegmentAssignment>)
    ensures SumValues(CalculateSegmentMetrics(segments).distribution) == CalculateSegmentMetrics(segments).totalUsers
  {
    HistogramTotal(SegmentNames(segments));
  }

  /** The cluster counts add up to the number of users. */
  lemma ClusterDistributionTotal(clusters: seq<ClusterAssignment>)
    ensures SumValues(CalculateClusterMetrics(clusters).distribution) == CalculateClusterMetrics(clusters).totalUsers
  {
    HistogramTotal(ClusterIndices(clusters));
  }

  /**
   On the output of `createRFMSegments` the distribution only names the six
   segments and the mean score lies between the Lost Customers score 20 and
   the Champions score 100.
   */
  lemma RfmMetricsBounds(data: seq<ScoredCustomer>)
    requires |data| > 0
    ensures forall name :: name in CalculateSegmentMetrics(CreateRfmSegments(data)).distribution ==>
      exists seg: Segment :: seg.Name() == name
    ensures 20.0 <= CalculateSegmentMetrics(CreateRfmSegments(data)).averageScore.value <= 100.0
  {
    var segments := CreateRfmSegments(data);
    forall name | name in CalculateSegmentMetrics(segments).distribution
      ensures exists seg: Segment :: seg.Name() == name
    {
      var i :| 0 <= i < |segments| && segments[i].segmentName == name;
      assert Classify(data[i].scores).Name() == name;
    }
    AverageBounds(SegmentScores(segments), 20, 100);
  }

  /**
   On the output of `performSimpleKMeans` with `k >= 1` every counted cluster
   index lies in [0, k - 1] and the mean score lies in [0, 100].
   */
  lemma KMeansMetricsBounds(rows: seq<ClusterRow>, k: int)
    requires WellFormedInput(rows) && |rows| > 0 && k >= 1
    ensures forall c :: c in CalculateClusterMetrics(PerformSimpleKMeans(rows, k)).distribution ==> 0 <= c < k
    ensures 0.0 <= CalculateClusterMetrics(PerformSimpleKMeans(rows, k)).averageScore.value <= 100.0
  {
    AverageBounds(ClusterScores(PerformSimpleKMeans(rows, k)), 0, 100);
  }

  /** Scores 100, 60 and 20 average to 60, and an empty list averages to NaN. */
  lemma AverageExamples()
    ensures AverageOf([100, 60, 20]) == Mean(60.0)
    ensures AverageOf([]) == NotANumber
  {
    assert Sum([100, 60, 20]) == 180 by {
      assert [100, 60, 20][..2] == [100, 60];
      assert [100, 60][..1] == [100];
      assert [100][..0] == [];
    }
  }
}
