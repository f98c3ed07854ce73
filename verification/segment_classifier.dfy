/**
 The segment classifier of `createRFMSegments`: an ordered, first-match
 decision list from a score triple to one of six named segments.
 */
module SegmentClassifier {
  import opened RfmScoring

  datatype Segment =
    | Champions
    | LoyalCustomers
    | NewCustomers
    | AtRisk
    | LostCustomers
    | PotentialLoyalists
  {
    /** The `segmentName` string stored with an assignment, one of the six pairs with its score. */
    function Name(): (n: string)
      ensures IsSegmentPair(n, Score())
    {
      match this
      case Champions => "Champions"
      case LoyalCustomers => "Loyal Customers"
      case NewCustomers => "New Customers"
      case AtRisk => "At Risk"
      case LostCustomers => "Lost Customers"
      case PotentialLoyalists => "Potential Loyalists"
    }

    /** The fixed `score` paired with the segment, from 20 (lost) to 100 (champions). */
    function Score(): (s: int)
      ensures 20 <= s <= 100
      ensures s == 100 <==> this == Champions
      ensures s == 20 <==> this == LostCustomers
    {
      match this
      case Champions => 100
      case LoyalCustomers => 85
      case NewCustomers => 70
      case AtRisk => 45
      case LostCustomers => 20
      case PotentialLoyalists => 60
    }
  }

  /**
   The if / else-if chain, first match wins. The ensures give the region of
   score space each segment ends up owning once the earlier rules have taken
   their share; together they partition all integer triples.
   */
  function Classify(s: RfmScores): (seg: Segment)
    ensures seg == Champions <==> s.recency >= 4 && s.frequency >= 4 && s.monetary >= 4
    ensures seg == LoyalCustomers <==>
      s.recency >= 3 && s.frequency >= 3 && s.monetary >= 3 && !(s.recency >= 4 && s.frequency >= 4 && s.monetary >= 4)
    ensures seg == NewCustomers <==> s.recency >= 4 && s.frequency <= 2
    ensures seg == AtRisk <==> s.recency <= 2 && s.frequency >= 3 && s.monetary >= 3
    ensures seg == LostCustomers <==> s.recency <= 2 && s.frequency <= 2
    ensures seg == PotentialLoyalists <==>
      (s.frequency >= 3 && s.monetary <= 2) || (s.recency == 3 && s.frequency <= 2)
  {
    if s.recency >= 4 && s.frequency >= 4 && s.monetary >= 4 then Champions
    else if s.recency >= 3 && s.frequency >= 3 && s.monetary >= 3 then LoyalCustomers
    else if s.recency >= 4 && s.frequency <= 2 then NewCustomers
    else if s.recency <= 2 && s.frequency >= 3 && s.monetary >= 3 then AtRisk
    else if s.recency <= 2 && s.frequency <= 2 then LostCustomers
    else PotentialLoyalists
  }

  /** The six (name, score) pairs an assignment can carry. */
  predicate IsSegmentPair(name: string, score: int)
  {
    || (name == "Champions" && score == 100)
    || (name == "Loyal Customers" && score == 85)
    || (name == "New Customers" && score == 70)
    || (name == "At Risk" && score == 45)
    || (name == "Lost Customers" && score == 20)
    || (name == "Potential Loyalists" && score == 60)
  }

  /** Names and scores each tell segments apart, and each segment carries one of the six pairs. */
  lemma SegmentNamesDistinct(a: Segment, b: Segment)
    ensures a.Name() == b.Name() <==> a == b
    ensures a.Score() == b.Score() <==> a == b
    ensures IsSegmentPair(a.Name(), a.Score())
  {
  }

  /** One entry of the list `createRFMSegments` returns (the `addedAt` stamp is left out). */
  datatype SegmentAssignment = SegmentAssignment(
    userId: string,
    score: int,
    segmentName: string,
    rfmScores: RfmScores)

  /**
   `createRFMSegments`: one assignment per scored row, same order, carrying the
   user id and score triple unchanged and the classified segment's name and score.
   */
  function CreateRfmSegments(data: seq<ScoredCustomer>): (r: seq<SegmentAssignment>)
    ensures |r| == |data|
    ensures forall i :: 0 <= i < |data| ==>
      && r[i].userId == data[i].customer.userId
      && r[i].rfmScores == data[i].scores
      && IsSegmentPair(r[i].segmentName, r[i].score)
      && r[i].segmentName == Classify(data[i].scores).Name()
  {
    seq(|data|, i requires 0 <= i < |data| =>
      var seg := Classify(data[i].scores);
      SegmentAssignment(data[i].customer.userId, seg.Score(), seg.Name(), data[i].scores))
  }

  /**
   Rule order matters: (4,4,2) fails rules 1 and 2 on monetary and rule 3 on
   frequency, so it falls through to Potential Loyalists; (4,2,2) is caught by
   rule 3; (3,3,3) and (5,5,5) land on rules 2 and 1, the latter although it
   also satisfies rule 2.
   */
  lemma ClassifyExamples()
    ensures Classify(RfmScores(4, 4, 2)) == PotentialLoyalists
    ensures Classify(RfmScores(4, 2, 2)) == NewCustomers
    ensures Classify(RfmScores(3, 3, 3)) == LoyalCustomers
    ensures Classify(RfmScores(5, 5, 5)) == Champions
    ensures Classify(RfmScores(1, 3, 3)) == AtRisk
    ensures Classify(RfmScores(1, 1, 5)) == LostCustomers
  {
  }
}
