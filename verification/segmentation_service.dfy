/**
 The segmentation runner: `runRFMAnalysis` and `runKMeansAnalysis` without
 their database queries (the aggregated rows are parameters, as is the
 current time), and the `runSegmentation` dispatch on the algorithm name.
 */
module SegmentationService {
  import opened StableRank
  import opened RfmScoring
  import opened SegmentClassifier
  import opened SimpleClustering
  import opened SegmentMetrics

  datatype Result<T> = Success(value: T) | Failure(error: string)

  /** The default `k = 4` of `runKMeansAnalysis`, the only `k` the dispatch ever uses. */
  const DefaultK: int := 4

  /** The `parameters` object of each algorithm. */
  datatype Parameters =
    | RfmParameters(algorithm: string, totalUsers: nat, segments: nat)
    | KMeansParameters(algorithm: string, k: int, totalUsers: nat)

  /** What a run returns (the placeholder `accuracy` constant is left out). */
  datatype Analysis =
    | RfmAnalysis(segmentUsers: seq<SegmentAssignment>, parameters: Parameters, segmentMetrics: Metrics<string>)
    | KMeansAnalysis(clusterUsers: seq<ClusterAssignment>, parameters: Parameters, clusterMetrics: Metrics<int>)

  /**
   `runRFMAnalysis` after the aggregation: one assignment per aggregated
   customer, in order, carrying the score triple its recency (against `now`),
   purchase count and spend earn within the cohort, and the segment that
   triple classifies to; `parameters.segments` is `Object.keys` of the
   assignment array, i.e. its length; the metrics describe the assignments.
   */
  function RunRfmAnalysis(purchases: seq<PurchaseAggregate>, now: int): (a: Analysis)
    ensures a.RfmAnalysis?
    ensures |a.segmentUsers| == |purchases|
    ensures forall i :: 0 <= i < |purchases| ==>
      && a.segmentUsers[i].userId == purchases[i].userId
      && a.segmentUsers[i].rfmScores == ScoreOf(AnalysisRows(purchases, now), i)
      && ValidScores(a.segmentUsers[i].rfmScores)
      && a.segmentUsers[i].segmentName == Classify(a.segmentUsers[i].rfmScores).Name()
      && a.segmentUsers[i].score == Classify(a.segmentUsers[i].rfmScores).Score()
    ensures a.parameters == RfmParameters("rfm", |purchases|, |purchases|)
    ensures a.segmentMetrics.totalUsers == |purchases|
    ensures a.segmentMetrics == CalculateSegmentMetrics(a.segmentUsers)
  {
    var rows := AnalysisRows(purchases, now);
    var scored := CalculateRfmScores(rows);
    var segments := CreateRfmSegments(scored);
    RfmAnalysis(segments, RfmParameters("rfm", |rows|, |segments|), CalculateSegmentMetrics(segments))
  }

  /**
   `runKMeansAnalysis` after the aggregation: exactly the assignments of
   `performSimpleKMeans(rows, k)`, the parameters `{ algorithm: "kmeans", k, totalUsers }`
   and the metrics of the assignments.
   */
  function RunKMeansAnalysis(rows: seq<ClusterRow>, k: int): (a: Analysis)
    requires WellFormedInput(rows)
    ensures a.KMeansAnalysis?
    ensures |a.clusterUsers| == |rows|
    ensures forall i :: 0 <= i < |rows| ==>
      && a.clusterUsers[i].userId == rows[i].userId
      && 0 <= a.clusterUsers[i].score <= 100
      && (k >= 1 ==> 0 <= a.clusterUsers[i].clusterIndex < k)
    ensures a.clusterUsers == PerformSimpleKMeans(rows, k)
    ensures a.parameters == KMeansParameters("kmeans", k, |rows|)
    ensures a.clusterMetrics == CalculateClusterMetrics(a.clusterUsers)
  {
    var clusters := PerformSimpleKMeans(rows, k);
    KMeansAnalysis(clusters, KMeansParameters("kmeans", k, |rows|), CalculateClusterMetrics(clusters))
  }

  /**
   `runSegmentation`: "rfm" runs the RFM path, "kmeans" the cluster path with
   the default `k`, any other name fails with "Unsupported algorithm".
   */
  function RunSegmentation(algorithm: string, purchases: seq<PurchaseAggregate>, clusterRows: seq<ClusterRow>, now: int): (r: Result<Analysis>)
    requires algorithm == "kmeans" ==> WellFormedInput(clusterRows)
    ensures r.Success? <==> algorithm == "rfm" || algorithm == "kmeans"
    ensures r.Failure? ==> r.error == "Unsupported algorithm"
    ensures algorithm == "rfm" ==>
      && r.Success? && r.value.RfmAnalysis?
      && r.value.parameters == RfmParameters("rfm", |purchases|, |purchases|)
      && |r.value.segmentUsers| == |purchases|
      && forall i :: 0 <= i < |purchases| ==> r.value.segmentUsers[i].rfmScores == ScoreOf(AnalysisRows(purchases, now), i)
    ensures algorithm == "kmeans" ==>
      && r.Success? && r.value.KMeansAnalysis?
      && r.value.parameters == KMeansParameters("kmeans", DefaultK, |clusterRows|)
      && r.value.clusterUsers == PerformSimpleKMeans(clusterRows, DefaultK)
      && forall i :: 0 <= i < |clusterRows| ==> 0 <= r.value.clusterUsers[i].clusterIndex < DefaultK
  {
    match algorithm
    case "rfm" => Success(RunRfmAnalysis(purchases, now))
    case "kmeans" => Success(RunKMeansAnalysis(clusterRows, DefaultK))
    case _ => Failure("Unsupported algorithm")
  }

  /**
   Through the dispatch, a customer with distinct ids in the cohort gets,
   in each dimension, the ceiling score of its counting rank: one plus the
   customers strictly ahead of it plus the earlier ones tied with it.
   */
  lemma RfmRunScoresByCount(purchases: seq<PurchaseAggregate>, clusterRows: seq<ClusterRow>, now: int, i: nat)
    requires i < |purchases| && DistinctUsers(AnalysisRows(purchases, now))
    ensures var r := RunSegmentation("rfm", purchases, clusterRows, now);
      var data := AnalysisRows(purchases, now);
      && r.Success? && r.value.RfmAnalysis?
      && r.value.segmentUsers[i].rfmScores == RfmScores(
        6 - RankScore(CountRank(Keys(data, Recency), i), |purchases|),
        RankScore(CountRank(Keys(data, Frequency), i), |purchases|),
        RankScore(CountRank(Keys(data, Monetary), i), |purchases|))
  {
    var data := AnalysisRows(purchases, now);
    ScoresByCount(data, i);
    assert CalculateRfmScores(data)[i].scores == ScoreOf(data, i);
  }

  /**
   Through the dispatch with the default `k`, a customer who spends no more
   and buys no more often than another never gets a higher cluster.
   */
  lemma KMeansRunMonotone(purchases: seq<PurchaseAggregate>, clusterRows: seq<ClusterRow>, now: int, i: nat, j: nat)
    requires WellFormedInput(clusterRows) && i < |clusterRows| && j < |clusterRows|
    requires clusterRows[i].totalSpent <= clusterRows[j].totalSpent && clusterRows[i].frequency <= clusterRows[j].frequency
    ensures var r := RunSegmentation("kmeans", purchases, clusterRows, now);
      && r.Success? && r.value.KMeansAnalysis?
      && r.value.clusterUsers[i].clusterIndex <= r.value.clusterUsers[j].clusterIndex
      && r.value.clusterUsers[i].score <= r.value.clusterUsers[j].score
  {
    ClusterMonotone(clusterRows, DefaultK, i, j);
  }

  /** The six segment names. */
  function AllSegmentNames(): (names: set<string>)
    ensures forall seg: Segment :: seg.Name() in names
    ensures |names| == 6
  {
    {"Champions", "Loyal Customers", "New Customers", "At Risk", "Lost Customers", "Potential Loyalists"}
  }

  /**
   `parameters.segments` counts assignments, not distinct segments: the
   distribution never has more than six keys, so on a cohort of more than
   six customers the parameter exceeds the number of segments in use.
   */
  lemma SegmentsParameterCountsUsers(purchases: seq<PurchaseAggregate>, now: int)
    requires |purchases| > 6
    ensures RunRfmAnalysis(purchases, now).parameters.segments > |RunRfmAnalysis(purchases, now).segmentMetrics.distribution|
  {
    var rows := AnalysisRows(purchases, now);
    var scored := CalculateRfmScores(rows);
    RfmMetricsBounds(scored);
    var keys := RunRfmAnalysis(purchases, now).segmentMetrics.distribution.Keys;
    assert keys <= AllSegmentNames();
    SubsetCardinality(keys, AllSegmentNames());
  }

  lemma {:induction false} SubsetCardinality(a: set<string>, b: set<string>)
    requires a <= b
    ensures |a| <= |b|
    decreases |b|
  {
    if a != {} {
      var x :| x in a;
      SubsetCardinality(a - {x}, b - {x});
    }
  }

  /** The only other algorithm name of the segment model, "custom", is rejected. */
  lemma CustomAlgorithmRejected(purchases: seq<PurchaseAggregate>, clusterRows: seq<ClusterRow>, now: int)
    ensures RunSegmentation("custom", purchases, clusterRows, now) == Failure("Unsupported algorithm")
  {
  }
}
