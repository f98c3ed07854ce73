# Customer segmentation engine in Dafny

This project models the in-memory part of the segmentation service of a
customer-analytics backend (`src/services/segmentationService.js`). The
service takes per-customer purchase aggregates and either:

- **RFM**: converts each customer's last purchase date into recency in whole
  days, ranks the cohort three ways (ascending days, descending purchase
  count, descending spend), turns each 1-based rank into a score
  `ceil(rank / n * 5)` (recency inverted as `6 - score`) and classifies the
  score triple with an ordered decision list into one of six named segments;
  or
- **k-means** (a simplified bucketing, not real clustering): normalises
  spend and purchase count by their cohort maxima, puts each customer in
  one of `k` equal-width buckets of the average, and scores it
  `round((spend + count) * 50)`;

and then reports the number of assignments, a count per segment name or
cluster index, and the mean score. `runSegmentation` dispatches on the
algorithm name.

Files (one module each, imported in this order):

- `stable_rank.dfy` (`StableRank`): JavaScript's stable sort as an insertion
  sort of row positions, `findIndex` over the sorted copy, and the counting
  characterisation of the resulting rank.
- `rfm_scoring.dfy` (`RfmScoring`): recency days, sort keys, rank-to-score
  conversion, `calculateRFMScores`.
- `segment_classifier.dfy` (`SegmentClassifier`): the six segments and
  `createRFMSegments`.
- `simple_clustering.dfy` (`SimpleClustering`): `performSimpleKMeans`.
- `segment_metrics.dfy` (`SegmentMetrics`): `calculateSegmentMetrics` and
  `calculateClusterMetrics`.
- `segmentation_service.dfy` (`SegmentationService`): the two analysis
  runners after their database queries, and `runSegmentation`.

Arithmetic is exact: timestamps and counts are `int`, money and
normalised values are `real`, and the score ceiling is the integer
expression `(rank * 5 + n - 1) / n`.

Points where the code does something other than what one might expect, as
modelled:

- Rule order decides (4, 4, 2). It fails Champions and Loyal Customers on
  monetary and New Customers on frequency (`recency >= 4 && frequency <= 2`),
  so it ends as Potential Loyalists with score 60, not New Customers.
  `SegmentClassifier.ClassifyExamples` states this.
- A cohort of one customer gets recency 1, frequency 5 and monetary 5:
  every rank is 1, so every raw score is 5, and only recency is inverted.
  Frequency and monetary are not inverted, so the biggest buyer gets the
  smallest score.
- Tied customers do not share a rank. The sort is stable, so ties keep
  input order and take consecutive ranks.
- A score of 100 does not need both maxima. Spending 199 against a maximum
  of 200, with the top purchase count, rounds 99.75 up to 100.
- `parameters.segments` is `Object.keys` of the assignment array. That is
  the number of customers, not the number of segments in use.
- Empty input is not rejected. `performSimpleKMeans` returns an empty list,
  and the mean score of an empty list is NaN (`0 / 0`), modelled as
  `NotANumber`. Division by a zero maximum is excluded by a precondition
  (see Left out).

## Model

| member | source | states |
|---|---|---|
| StableRank.StableSort | src/services/segmentationService.js:75-77 | the sorted copy holds every row position exactly once, ordered by key with equal keys kept in input order, as a stable sort leaves them |
| StableRank.FindFirst | src/services/segmentationService.js:82-84 | `findIndex` gives -1 exactly when no sorted entry has the id, otherwise the first position whose entry has it |
| StableRank.Rank | src/services/segmentationService.js:82-84 | `findIndex(...) + 1` of a row's own id always lies in 1..n, even without distinct ids |
| StableRank.CountRank | src/services/segmentationService.js:75-84 | one plus the rows with a strictly smaller key plus the earlier rows with an equal key lies in 1..n |
| StableRank.PositionIsCount | src/services/segmentationService.js:75-77 | the row at sorted position p has exactly p rows sorted before it |
| StableRank.RankLocates | src/services/segmentationService.js:82-84 | with distinct ids, the sorted copy at position rank - 1 is the row itself |
| StableRank.RankIsCount | src/services/segmentationService.js:75-84 | with distinct ids, the rank equals the counting rank, so it can be stated without sorting |
| StableRank.RankMonotone | src/services/segmentationService.js:75-84 | a row ahead in key order, ties broken by input order, gets a strictly smaller rank |
| StableRank.RanksArePermutation | src/services/segmentationService.js:75-84 | with distinct ids, the ranks of a cohort are pairwise different and position p of the sorted copy has rank p + 1, so they are a permutation of 1..n |
| RfmScoring.DaysSince | src/services/segmentationService.js:37-39 | the recency in days d is the floor of the elapsed milliseconds over one day: d days fit in the elapsed time and d + 1 do not |
| RfmScoring.AnalysisRows | src/services/segmentationService.js:36-50 | one analysis row per aggregate, in order, with id, count, spend and average order value carried over and recency the whole days since the last purchase |
| RfmScoring.DimensionRank | src/services/segmentationService.js:82-84 | the rank of a row in any of the three orders lies in 1..n |
| RfmScoring.RankScore | src/services/segmentationService.js:87-89 | the score is the least s with rank * 5 <= s * n, i.e. `ceil(rank / n * 5)`, and lies in 1..5 |
| RfmScoring.RankScoreMonotone | src/services/segmentationService.js:87-89 | a larger rank never gets a smaller score |
| RfmScoring.ScoreOf | src/services/segmentationService.js:87-96 | each of the three scores of a row, recency after `6 - score`, lies in 1..5 |
| RfmScoring.CalculateRfmScores | src/services/segmentationService.js:73-100 | one scored row per input row, same order, the row itself carried unchanged, every score in 1..5 |
| RfmScoring.SingleCustomerScores | src/services/segmentationService.js:87-96 | a cohort of one customer gets recency 1, frequency 5 and monetary 5 |
| RfmScoring.DimensionRankByCount | src/services/segmentationService.js:75-84 | with distinct user ids, a row's rank in a dimension equals its counting rank |
| RfmScoring.ScoresByCount | src/services/segmentationService.js:75-96 | with distinct user ids, each score is the ceiling conversion of the counting rank, recency inverted |
| RfmScoring.DimensionRanksArePermutation | src/services/segmentationService.js:75-84 | with distinct user ids, the ranks in each dimension are a permutation of 1..n |
| RfmScoring.RecencyScoreNonIncreasing | src/services/segmentationService.js:75-94 | along ascending days, ties in input order, the recency score never rises |
| RfmScoring.FrequencyScoreNonDecreasing | src/services/segmentationService.js:76-95 | along descending purchase count, ties in input order, the frequency score never falls |
| RfmScoring.MonetaryScoreNonDecreasing | src/services/segmentationService.js:77-96 | along descending spend, ties in input order, the monetary score never falls |
| RfmScoring.TopSpenderGetsLowestScore | src/services/segmentationService.js:77-96 | the customer who strictly out-spends all others has monetary rank 1, and in a cohort of five or more a monetary score of 1 |
| RfmScoring.FirstRankScore | src/services/segmentationService.js:87-89 | rank 1 of a cohort of five or more converts to score 1 |
| SegmentClassifier.Classify | src/services/segmentationService.js:113-131 | the first-match decision list, given as the region of score space each segment owns once the earlier rules have taken their share; the six regions partition all triples |
| SegmentClassifier.Segment.Name | src/services/segmentationService.js:113-131 | each segment's `segmentName` is one of the six literals, paired with that segment's own score |
| SegmentClassifier.Segment.Score | src/services/segmentationService.js:113-131 | each segment's `score` lies in [20, 100]; 100 belongs to Champions alone and 20 to Lost Customers alone |
| SegmentClassifier.SegmentNamesDistinct | src/services/segmentationService.js:113-131 | segment names tell segments apart, so do segment scores, and each segment carries one of the six (name, score) pairs |
| SegmentClassifier.CreateRfmSegments | src/services/segmentationService.js:102-143 | one assignment per scored row, same order, user id and score triple unchanged, name and score a paired value of the classified segment |
| SegmentClassifier.ClassifyExamples | src/services/segmentationService.js:113-131 | (4,4,2) gives Potential Loyalists, (4,2,2) New Customers, (3,3,3) Loyal Customers, (5,5,5) Champions, (1,3,3) At Risk and (1,1,5) Lost Customers |
| SimpleClustering.MaxReal | src/services/segmentationService.js:206-207 | `Math.max` of a column (spends, or purchase counts as numbers) is an upper bound that some row attains |
| SimpleClustering.RoundHalfUp | src/services/segmentationService.js:219 | `Math.round` gives the integer within half a unit, halves rounded up |
| SimpleClustering.Bucket | src/services/segmentationService.js:214-215 | for an average in [0, 1] and k >= 1 the clamped floor lies in [0, k - 1], is at most avg * k, and is the floor unless clamped to k - 1 |
| SimpleClustering.NormalizedInUnit | src/services/segmentationService.js:210-211 | a non-negative value divided by a positive maximum at least as large lies in [0, 1] |
| SimpleClustering.NormalizedSum | src/services/segmentationService.js:210-214 | for a row within the cohort maxima the sum of the two normalised measures lies in [0, 2], and is exactly 2 on both maxima |
| SimpleClustering.ClusterScore | src/services/segmentationService.js:219 | the score is within half a unit of sum * 50 and lies in [0, 100] for a sum in [0, 2] |
| SimpleClustering.ClusterIndex | src/services/segmentationService.js:214-215 | the cluster index of a sum in [0, 2] lies in [0, k - 1] for k >= 1 |
| SimpleClustering.AssignRow | src/services/segmentationService.js:209-222 | the row keeps its user id and, lying within the maxima, gets a score in [0, 100] and, for k >= 1, a cluster in [0, k - 1] |
| SimpleClustering.PerformSimpleKMeans | src/services/segmentationService.js:203-226 | one assignment per row, same order and user id, score in [0, 100], and for k >= 1 a cluster index in [0, k - 1]; each row's score and cluster are the rounding and bucket of its own spend and count normalised by the column maxima |
| SimpleClustering.BucketMonotone | src/services/segmentationService.js:214-215 | a larger average never gets a lower bucket, for every k |
| SimpleClustering.AssignmentMonotone | src/services/segmentationService.js:214-219 | a larger normalised sum never gets a lower score or a lower cluster |
| SimpleClustering.ClusterMonotone | src/services/segmentationService.js:203-226 | a customer who spends no more and buys no more often than another never gets a higher cluster or a higher score |
| SimpleClustering.TopCustomerCluster | src/services/segmentationService.js:209-222 | the customer holding both cohort maxima gets score 100 and the last cluster k - 1 |
| SimpleClustering.FullScoreBelowMaxima | src/services/segmentationService.js:209-222 | spend 199 against a maximum of 200 with the top count already gets score 100, in cluster 3 of 4 |
| SegmentMetrics.Count | src/services/segmentationService.js:150-155 | the number of occurrences of a key is at most the length and is zero exactly when the key does not occur |
| SegmentMetrics.Histogram | src/services/segmentationService.js:150-155 | the counting loop produces exactly the keys that occur, each mapped to its number of occurrences |
| SegmentMetrics.SumValuesRemove | src/services/segmentationService.js:150-155 | the sum of the counts does not depend on the order the keys are taken in |
| SegmentMetrics.SumValuesIncrement | src/services/segmentationService.js:151-154 | one loop step, creating the count at 0 when missing and then incrementing it, raises the total by one |
| SegmentMetrics.HistogramTotal | src/services/segmentationService.js:150-155 | the counts of the distribution add up to the length of the list |
| SegmentMetrics.Sum | src/services/segmentationService.js:160 | the `reduce` total of non-negative scores is non-negative |
| SegmentMetrics.SumSplitFirst | src/services/segmentationService.js:160 | the left-to-right `reduce` total equals the first score plus the total of the rest, so it is the ordinary sum whichever end it is taken from |
| SegmentMetrics.AverageOf | src/services/segmentationService.js:160 | the mean is NaN exactly for the empty list, and otherwise times the length gives the sum of the scores |
| SegmentMetrics.SumBounds | src/services/segmentationService.js:160 | entries within [lo, hi] give a sum between lo * n and hi * n |
| SegmentMetrics.AverageBounds | src/services/segmentationService.js:160 | the mean of entries within [lo, hi] lies within [lo, hi] |
| SegmentMetrics.CalculateSegmentMetrics | src/services/segmentationService.js:145-162 | totalUsers is the list length, the distribution has exactly the names that occur with their occurrence counts, and the average is the mean of the scores |
| SegmentMetrics.CalculateClusterMetrics | src/services/segmentationService.js:228-242 | totalUsers is the list length, the distribution has exactly the cluster indices that occur with their occurrence counts, and the average is the mean of the scores |
| SegmentMetrics.SegmentDistributionTotal | src/services/segmentationService.js:145-162 | the segment counts add up to totalUsers |
| SegmentMetrics.ClusterDistributionTotal | src/services/segmentationService.js:228-242 | the cluster counts add up to totalUsers |
| SegmentMetrics.RfmMetricsBounds | src/services/segmentationService.js:145-162 | on RFM assignments every distribution key is one of the six segment names and the mean score lies in [20, 100] |
| SegmentMetrics.KMeansMetricsBounds | src/services/segmentationService.js:228-242 | on k-means assignments every distribution key lies in [0, k - 1] and the mean score lies in [0, 100] |
| SegmentMetrics.AverageExamples | src/services/segmentationService.js:160 | scores 100, 60, 20 average to 60, and the empty list averages to NaN |
| SegmentationService.RunRfmAnalysis | src/services/segmentationService.js:35-66 | one assignment per aggregate, in order, carrying the score triple that aggregate earns within the cohort (recency measured against the current time) and the name and score of the segment it classifies to; parameters say "rfm" with the cohort size twice; the metrics describe the assignments |
| SegmentationService.RunKMeansAnalysis | src/services/segmentationService.js:185-196 | the assignments are exactly those of the cluster assigner on the rows with that k (so in order, score in [0, 100], cluster in [0, k - 1]); parameters say "kmeans" with k and the cohort size; the metrics describe the assignments |
| SegmentationService.RunSegmentation | src/services/segmentationService.js:245-254 | succeeds exactly for "rfm" and "kmeans"; "rfm" assigns each aggregate its cohort score triple; "kmeans" runs the cluster assigner with the default k = 4, so every cluster index lies in [0, 3]; any other name fails with "Unsupported algorithm" |
| SegmentationService.RfmRunScoresByCount | src/services/segmentationService.js:73-100 | through the dispatch, with distinct ids, each score is the ceiling score of one plus the customers strictly ahead plus the earlier ones tied, recency inverted |
| SegmentationService.KMeansRunMonotone | src/services/segmentationService.js:203-226 | through the dispatch with k = 4, a customer who spends no more and buys no more often than another never gets a higher cluster or score |
| SegmentationService.AllSegmentNames | src/services/segmentationService.js:113-131 | the six segment names form a set of six that contains every segment's name |
| SegmentationService.SegmentsParameterCountsUsers | src/services/segmentationService.js:60-64 | on more than six customers, `parameters.segments` exceeds the number of distinct segments in the distribution |
| SegmentationService.CustomAlgorithmRejected | src/models/Segment.js:43 | "custom", the third algorithm the segment schema allows, is rejected by the dispatch |

## Left out

- The database aggregations: grouping completed purchases per user, the user
  lookup and unwind, and `getAnalytics`. The aggregated rows are parameters.
- `new Date()`. The current time is a parameter in milliseconds. The
  `addedAt` stamps are dropped.
- The fixed `accuracy` placeholders 0.85 and 0.78, the unused `categories`
  set, and the unused `totalScore` and `totalRevenue` locals.
- Other modules: controllers, routes, middleware, the payment client,
  schemas, server setup and seeding. The segment schema is consulted only
  for its list of algorithm names.
- IEEE-754 rounding. `Math.ceil((rank / n) * 5)` and the normalisations are
  computed in exact integer and rational arithmetic, so a rare float
  rounding at an exact multiple is not captured.
- `Math.max(...array)` on very large cohorts, which can exceed the engine's
  argument limit. This is not modelled.
- JavaScript object key order in the distributions. A distribution is a
  `map`, and cluster indices are integer keys rather than their string forms.
  Distinct integers give distinct strings, so the counts are the same.
- SimpleClustering.PerformSimpleKMeans: requires non-negative spends and
  counts and, for a non-empty cohort, positive maxima. The source divides by
  a zero maximum and yields NaN scores and indices. That case is excluded,
  not modelled.
- SegmentMetrics.CalculateSegmentMetrics: the average is stated through
  `AverageOf`, whose own contract characterises it, rather than repeating
  the sum-over-length equation.
- SegmentMetrics.CalculateClusterMetrics: same as above for the cluster
  average.
- SegmentationService.RunSegmentation: the "kmeans" branch carries the same
  input requirement as `PerformSimpleKMeans`. The `criteria` argument is
  unused by the source and is not a parameter.
- Comparison of user ids through `toString()` is plain string equality.
