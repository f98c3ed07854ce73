/**
 RFM scoring (`runRFMAnalysis` up to `calculateRFMScores` in
 src/services/segmentationService.js): recency in whole days, then a rank-based
 1..5 score per dimension.
 */
module RfmScoring {
  import opened StableRank

  /** `1000 * 60 * 60 * 24`: milliseconds in one day. */
  const MillisPerDay: int := 1000 * 60 * 60 * 24

  /** One row of the completed-purchase aggregation, grouped by user id. */
  datatype PurchaseAggregate = PurchaseAggregate(
    userId: string,
    lastPurchaseDate: int,   // milliseconds since the epoch
    totalSpent: real,
    frequency: int,
    avgOrderValue: real)

  /** A cohort row after the recency conversion (`analysisData`). */
  datatype AnalysisRow = AnalysisRow(
    userId: string,
    recency: int,            // whole days since the last purchase
    frequency: int,
    monetary: real,
    avgOrderValue: real)

  datatype RfmScores = RfmScores(recency: int, frequency: int, monetary: int)

  /** A cohort row with its score triple attached (`{...user, scores}`). */
  datatype ScoredCustomer = ScoredCustomer(customer: AnalysisRow, scores: RfmScores)

  datatype Dimension = Recency | Frequency | Monetary

  /**
   `Math.floor((now - last) / 86400000)`. The divisor is positive, so Dafny's
   Euclidean division is the floor the source takes, also for a last purchase
   dated after `now`.
   */
  function DaysSince(now: int, last: int): (d: int)
    ensures d * MillisPerDay <= now - last < (d + 1) * MillisPerDay
  {
    (now - last) / MillisPerDay
  }

  /** The `purchases.map(...)` step: one analysis row per aggregate row, same order. */
  function AnalysisRows(items: seq<PurchaseAggregate>, now: int): (rows: seq<AnalysisRow>)
    ensures |rows| == |items|
    ensures forall i :: 0 <= i < |items| ==>
      && rows[i].userId == items[i].userId
      && rows[i].frequency == items[i].frequency
      && rows[i].monetary == items[i].totalSpent
      && rows[i].avgOrderValue == items[i].avgOrderValue
      && rows[i].recency * MillisPerDay <= now - items[i].lastPurchaseDate
      && now - items[i].lastPurchaseDate < (rows[i].recency + 1) * MillisPerDay
  {
    seq(|items|, i requires 0 <= i < |items| =>
      var item := items[i];
      AnalysisRow(item.userId, DaysSince(now, item.lastPurchaseDate),
                  item.frequency, item.totalSpent, item.avgOrderValue))
  }

  /**
   Sort key of a row in one dimension, ascending: days for recency
   (`a.recency - b.recency`), negated count and spend for the two descending
   sorts (`b.frequency - a.frequency`, `b.monetary - a.monetary`).
   */
  function Key(row: AnalysisRow, dim: Dimension): real
  {
    match dim
    case Recency => row.recency as real
    case Frequency => -(row.frequency as real)
    case Monetary => -row.monetary
  }

  function Keys(data: seq<AnalysisRow>, dim: Dimension): (keys: seq<real>)
    ensures |keys| == |data|
    ensures forall i :: 0 <= i < |data| ==> keys[i] == Key(data[i], dim)
  {
    seq(|data|, i requires 0 <= i < |data| => Key(data[i], dim))
  }

  function Ids(data: seq<AnalysisRow>): (ids: seq<string>)
    ensures |ids| == |data|
    ensures forall i :: 0 <= i < |data| ==> ids[i] == data[i].userId
  {
    seq(|data|, i requires 0 <= i < |data| => data[i].userId)
  }

  /** Position of row `i` in the dimension's sorted copy, 1-based. */
  function DimensionRank(data: seq<AnalysisRow>, dim: Dimension, i: nat): (r: int)
    requires i < |data|
    ensures 1 <= r <= |data|
  {
    Rank(Keys(data, dim), Ids(data), i)
  }

  /**
   `Math.ceil((rank / totalUsers) * 5)` in exact arithmetic: the least `s`
   with `rank * 5 <= s * n`.
   */
  function RankScore(rank: int, n: int): (s: int)
    requires 1 <= rank <= n
    ensures 1 <= s <= 5
    ensures (s - 1) * n < rank * 5 <= s * n
  {
    CeilDivBounds(rank * 5, n);
    var s := (rank * 5 + n - 1) / n;
    MulMonotone(s, 0, n);
    MulMonotone(5, s - 1, n);
    s
  }

  lemma CeilDivBounds(a: int, n: int)
    requires n > 0
    ensures a <= ((a + n - 1) / n) * n
    ensures ((a + n - 1) / n - 1) * n < a
  {
    var q := (a + n - 1) / n;
    var m := (a + n - 1) % n;
    assert a + n - 1 == q * n + m;
    assert (q - 1) * n == q * n - n;
  }

  /** Multiplying by a positive `n` keeps `<=`; stated as its contrapositive for cancelling. */
  lemma MulMonotone(x: int, y: int, n: int)
    requires n > 0
    ensures x <= y ==> x * n <= y * n
  {
    if x <= y {
      assert y * n == x * n + (y - x) * n;
    }
  }

  /** The score conversion never decreases as the rank grows. */
  lemma RankScoreMonotone(r1: int, r2: int, n: int)
    requires 1 <= r1 <= r2 <= n
    ensures RankScore(r1, n) <= RankScore(r2, n)
  {
    var s1 := RankScore(r1, n);
    var s2 := RankScore(r2, n);
    MulMonotone(s2, s1 - 1, n);
  }

  /** Scores of row `i` of a cohort of `|data|` rows. */
  function ScoreOf(data: seq<AnalysisRow>, i: nat): (s: RfmScores)
    requires i < |data|
    ensures ValidScores(s)
  {
    var n := |data|;
    RfmScores(
      6 - RankScore(DimensionRank(data, Recency, i), n),
      RankScore(DimensionRank(data, Frequency, i), n),
      RankScore(DimensionRank(data, Monetary, i), n))
  }

  predicate ValidScores(s: RfmScores)
  {
    && 1 <= s.recency <= 5
    && 1 <= s.frequency <= 5
    && 1 <= s.monetary <= 5
  }

  /** `calculateRFMScores`: every row kept in place, a score triple in 1..5 attached. */
  function CalculateRfmScores(data: seq<AnalysisRow>): (r: seq<ScoredCustomer>)
    ensures |r| == |data|
    ensures forall i :: 0 <= i < |data| ==> r[i].customer == data[i] && ValidScores(r[i].scores)
  {
    seq(|data|, i requires 0 <= i < |data| => ScoredCustomer(data[i], ScoreOf(data, i)))
  }

  /** A cohort of one gets recency 1 (the inverted 5), frequency 5 and monetary 5. */
  lemma SingleCustomerScores(data: seq<AnalysisRow>)
    requires |data| == 1
    ensures CalculateRfmScores(data)[0].scores == RfmScores(1, 5, 5)
  {
    assert DimensionRank(data, Recency, 0) == 1;
    assert DimensionRank(data, Frequency, 0) == 1;
    assert DimensionRank(data, Monetary, 0) == 1;
  }

  predicate DistinctUsers(data: seq<AnalysisRow>)
  {
    forall p, q :: 0 <= p < |data| && 0 <= q < |data| && p != q ==> data[p].userId != data[q].userId
  }

  lemma DimensionRankByCount(data: seq<AnalysisRow>, dim: Dimension, i: nat)
    requires i < |data| && DistinctUsers(data)
    ensures DimensionRank(data, dim, i) == CountRank(Keys(data, dim), i)
  {
    assert DistinctIds(Ids(data));
    RankIsCount(Keys(data, dim), Ids(data), i);
  }

  /**
   With distinct user ids, each score is the ceiling conversion of the counting
   rank: one plus the rows strictly ahead in the dimension plus the earlier
   rows tied with it.
   */
  lemma ScoresByCount(data: seq<AnalysisRow>, i: nat)
    requires i < |data| && DistinctUsers(data)
    ensures CalculateRfmScores(data)[i].scores == RfmScores(
      6 - RankScore(CountRank(Keys(data, Recency), i), |data|),
      RankScore(CountRank(Keys(data, Frequency), i), |data|),
      RankScore(CountRank(Keys(data, Monetary), i), |data|))
  {
    var n := |data|;
    var rr := DimensionRank(data, Recency, i);
    var fr := DimensionRank(data, Frequency, i);
    var mr := DimensionRank(data, Monetary, i);
    assert CalculateRfmScores(data)[i].scores == RfmScores(6 - RankScore(rr, n), RankScore(fr, n), RankScore(mr, n));
    DimensionRankByCount(data, Recency, i);
    DimensionRankByCount(data, Frequency, i);
    DimensionRankByCount(data, Monetary, i);
  }

  /** In each dimension the ranks of a cohort with distinct ids are a permutation of 1..n. */
  lemma DimensionRanksArePermutation(data: seq<AnalysisRow>, dim: Dimension)
    requires DistinctUsers(data)
    ensures forall i, j :: 0 <= i < |data| && 0 <= j < |data| && i != j ==>
      DimensionRank(data, dim, i) != DimensionRank(data, dim, j)
    ensures forall p :: 0 <= p < |data| ==>
      DimensionRank(data, dim, StableSort(Keys(data, dim))[p]) == p + 1
  {
    assert DistinctIds(Ids(data));
    RanksArePermutation(Keys(data, dim), Ids(data));
  }

  /**
   Along ascending days (ties in input order) the recency score never rises:
   a more recent customer scores at least as high.
   */
  lemma RecencyScoreNonIncreasing(data: seq<AnalysisRow>, i: nat, j: nat)
    requires i < |data| && j < |data| && DistinctUsers(data)
    requires data[i].recency < data[j].recency || (data[i].recency == data[j].recency && i < j)
    ensures ScoreOf(data, i).recency >= ScoreOf(data, j).recency
  {
    assert DistinctIds(Ids(data));
    assert Precedes(Keys(data, Recency), i, j);
    RankMonotone(Keys(data, Recency), Ids(data), i, j);
    RankScoreMonotone(DimensionRank(data, Recency, i), DimensionRank(data, Recency, j), |data|);
  }

  /**
   Along descending purchase count (ties in input order) the frequency score
   never falls: the most frequent buyer gets the smallest score, as written
   (the frequency score is not inverted).
   */
  lemma FrequencyScoreNonDecreasing(data: seq<AnalysisRow>, i: nat, j: nat)
    requires i < |data| && j < |data| && DistinctUsers(data)
    requires data[i].frequency > data[j].frequency || (data[i].frequency == data[j].frequency && i < j)
    ensures ScoreOf(data, i).frequency <= ScoreOf(data, j).frequency
  {
    assert DistinctIds(Ids(data));
    assert Precedes(Keys(data, Frequency), i, j);
    RankMonotone(Keys(data, Frequency), Ids(data), i, j);
    RankScoreMonotone(DimensionRank(data, Frequency, i), DimensionRank(data, Frequency, j), |data|);
  }

  /** Along descending spend the monetary score never falls (not inverted either). */
  lemma MonetaryScoreNonDecreasing(data: seq<AnalysisRow>, i: nat, j: nat)
    requires i < |data| && j < |data| && DistinctUsers(data)
    requires data[i].monetary > data[j].monetary || (data[i].monetary == data[j].monetary && i < j)
    ensures ScoreOf(data, i).monetary <= ScoreOf(data, j).monetary
  {
    assert DistinctIds(Ids(data));
    assert Precedes(Keys(data, Monetary), i, j);
    RankMonotone(Keys(data, Monetary), Ids(data), i, j);
    RankScoreMonotone(DimensionRank(data, Monetary, i), DimensionRank(data, Monetary, j), |data|);
  }

  /**
   The customer who strictly out-spends everyone else is ranked first and, in a
   cohort of five or more, gets monetary score 1: the lowest.
   */
  lemma TopSpenderGetsLowestScore(data: seq<AnalysisRow>, i: nat)
    requires i < |data| && DistinctUsers(data)
    requires forall j :: 0 <= j < |data| && j != i ==> data[j].monetary < data[i].monetary
    ensures DimensionRank(data, Monetary, i) == 1
    ensures |data| >= 5 ==> ScoreOf(data, i).monetary == 1
  {
    var keys := Keys(data, Monetary);
    DimensionRankByCount(data, Monetary, i);
    forall j | 0 <= j < |keys| && j != i
      ensures keys[i] < keys[j]
    {
      assert data[j].monetary < data[i].monetary;
    }
    assert Smaller(keys, i) == {};
    assert TiedBefore(keys, i) == {};
    if |data| >= 5 {
      FirstRankScore(|data|);
    }
  }

  /** Rank 1 of a cohort of five or more converts to score 1. */
  lemma FirstRankScore(n: int)
    requires n >= 5
    ensures RankScore(1, n) == 1
  {
    var sc := RankScore(1, n);
    MulMonotone(1, sc - 1, n);
  }
}
