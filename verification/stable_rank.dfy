/**
 Rank of a customer in one dimension of the cohort.

 The service sorts a copy of the cohort with `Array.prototype.sort`, which is
 stable, and then looks each customer up again with `findIndex` on its user id.
 Here the sort is modelled on row indices: sorting ascending by a real key with
 ties kept in input order is sorting the indices 0..n-1 by the strict order
 `Precedes` (key first, index second). A descending sort is the ascending sort
 of the negated key.
 */
module StableRank {

  /** Row `i` comes strictly before row `j` in the stable ascending order of `keys`. */
  predicate Precedes(keys: seq<real>, i: nat, j: nat)
    requires i < |keys| && j < |keys|
  {
    keys[i] < keys[j] || (keys[i] == keys[j] && i < j)
  }

  predicate ValidIndices(keys: seq<real>, s: seq<nat>)
  {
    forall p :: 0 <= p < |s| ==> s[p] < |keys|
  }

  predicate StrictlySorted(keys: seq<real>, s: seq<nat>)
    requires ValidIndices(keys, s)
  {
    forall p, q :: 0 <= p < q < |s| ==> Precedes(keys, s[p], s[q])
  }

  /** Insert index `x` into the sorted index list `s` before the first element it precedes. */
  function Insert(keys: seq<real>, x: nat, s: seq<nat>): (r: seq<nat>)
    requires x < |keys| && ValidIndices(keys, s)
    ensures |r| == |s| + 1
    ensures ValidIndices(keys, r)
    ensures forall y :: y in r <==> y == x || y in s
  {
    if |s| == 0 then [x]
    else if Precedes(keys, x, s[0]) then [x] + s
    else
      var t := Insert(keys, x, s[1..]);
      assert forall y :: y in s[1..] ==> y in s;
      [s[0]] + t
  }

  /** Inserting a new index into a strictly sorted list keeps it strictly sorted. */
  lemma {:induction false} InsertKeepsSorted(keys: seq<real>, x: nat, s: seq<nat>)
    requires x < |keys| && ValidIndices(keys, s)
    requires StrictlySorted(keys, s) && x !in s
    ensures StrictlySorted(keys, Insert(keys, x, s))
  {
    if |s| > 0 && !Precedes(keys, x, s[0]) {
      var t := Insert(keys, x, s[1..]);
      InsertKeepsSorted(keys, x, s[1..]);
      assert Precedes(keys, s[0], x);
      forall q | 0 <= q < |t|
        ensures Precedes(keys, s[0], t[q])
      {
        if t[q] != x {
          assert t[q] in s[1..];
          var q' :| 0 <= q' < |s[1..]| && s[1..][q'] == t[q];
          assert s[q' + 1] == t[q];
        }
      }
    }
  }

  /** The first `m` row indices, stably sorted by `keys`. */
  function SortPrefix(keys: seq<real>, m: nat): (r: seq<nat>)
    requires m <= |keys|
    ensures |r| == m && ValidIndices(keys, r)
    ensures forall y :: y in r <==> 0 <= y < m
    ensures StrictlySorted(keys, r)
  {
    if m == 0 then []
    else
      var s := SortPrefix(keys, m - 1);
      InsertKeepsSorted(keys, m - 1, s);
      Insert(keys, m - 1, s)
  }

  /** `[...data].sort(cmp)`, as the list of original row indices in sorted order. */
  function StableSort(keys: seq<real>): (r: seq<nat>)
    ensures |r| == |keys| && ValidIndices(keys, r)
    ensures forall y :: y in r <==> 0 <= y < |keys|
    ensures StrictlySorted(keys, r)
  {
    SortPrefix(keys, |keys|)
  }

  /** `findIndex(u => u.userId === id)` over the sorted rows: first position holding `id`, or -1. */
  function FindFirst<Id(==)>(order: seq<nat>, ids: seq<Id>, id: Id): (p: int)
    requires forall q :: 0 <= q < |order| ==> order[q] < |ids|
    ensures -1 <= p < |order|
    ensures p == -1 <==> forall q :: 0 <= q < |order| ==> ids[order[q]] != id
    ensures p >= 0 ==> ids[order[p]] == id && forall q :: 0 <= q < p ==> ids[order[q]] != id
  {
    if |order| == 0 then -1
    else if ids[order[0]] == id then 0
    else
      var t := FindFirst(order[1..], ids, id);
      if t == -1 then -1 else t + 1
  }

  /** The 1-based rank the service computes for row `i`: `findIndex(...) + 1`. */
  function Rank<Id(==)>(keys: seq<real>, ids: seq<Id>, i: nat): (r: int)
    requires |ids| == |keys| && i < |keys|
    ensures 1 <= r <= |keys|
  {
    var order := StableSort(keys);
    assert i in order;
    FindFirst(order, ids, ids[i]) + 1
  }

  /** User ids are group keys of the aggregation, hence pairwise distinct. */
  predicate DistinctIds<Id(==)>(ids: seq<Id>)
  {
    forall p, q :: 0 <= p < |ids| && 0 <= q < |ids| && p != q ==> ids[p] != ids[q]
  }

  /** Rows whose key is strictly smaller than row `i`'s. */
  function Smaller(keys: seq<real>, i: nat): set<nat>
    requires i < |keys|
  {
    set j | 0 <= j < |keys| && keys[j] < keys[i]
  }

  /** Earlier rows whose key equals row `i`'s. */
  function TiedBefore(keys: seq<real>, i: nat): set<nat>
    requires i < |keys|
  {
    set j | 0 <= j < i && keys[j] == keys[i]
  }

  /** All rows that precede row `i` in the stable order. */
  function Preceding(keys: seq<real>, i: nat): set<nat>
    requires i < |keys|
  {
    set j | 0 <= j < |keys| && Precedes(keys, j, i)
  }

  /**
   Rank stated without sorting: one plus the rows with a strictly smaller key
   plus the earlier rows with an equal key.
   */
  function CountRank(keys: seq<real>, i: nat): (r: nat)
    requires i < |keys|
    ensures 1 <= r <= |keys|
  {
    PrecedingSplits(keys, i);
    PrecedingBound(keys, i);
    1 + |Smaller(keys, i)| + |TiedBefore(keys, i)|
  }

  lemma PrecedingSplits(keys: seq<real>, i: nat)
    requires i < |keys|
    ensures |Preceding(keys, i)| == |Smaller(keys, i)| + |TiedBefore(keys, i)|
  {
    assert Preceding(keys, i) == Smaller(keys, i) + TiedBefore(keys, i);
    assert Smaller(keys, i) * TiedBefore(keys, i) == {};
  }

  lemma PrecedingBound(keys: seq<real>, i: nat)
    requires i < |keys|
    ensures |Preceding(keys, i)| < |keys|
  {
    var order := StableSort(keys);
    assert i in order;
    var p :| 0 <= p < |order| && order[p] == i;
    PositionIsCount(keys, p);
  }

  function Elements(s: seq<nat>): set<nat>
  {
    set x | x in s
  }

  lemma {:induction false} DistinctSeqCard(s: seq<nat>)
    requires forall p, q :: 0 <= p < q < |s| ==> s[p] != s[q]
    ensures |Elements(s)| == |s|
  {
    if |s| == 0 {
      assert Elements(s) == {};
    } else {
      DistinctSeqCard(s[1..]);
      assert s[0] !in Elements(s[1..]);
      assert Elements(s) == {s[0]} + Elements(s[1..]);
    }
  }

  /** In the stable order, the row at position `p` is preceded by exactly `p` rows. */
  lemma PositionIsCount(keys: seq<real>, p: nat)
    requires p < |keys|
    ensures |Preceding(keys, StableSort(keys)[p])| == p
  {
    var s := StableSort(keys);
    var x := s[p];
    var before := Preceding(keys, x);
    assert before == Elements(s[..p]) by {
      forall j | 0 <= j < |keys| && Precedes(keys, j, x)
        ensures j in s[..p]
      {
        assert j in s;
        var q :| 0 <= q < |s| && s[q] == j;
        assert q != p;
        assert !(p < q);
        assert s[..p][q] == j;
      }
      forall y | y in s[..p]
        ensures 0 <= y < |keys| && Precedes(keys, y, x)
      {
        var q :| 0 <= q < p && s[..p][q] == y;
        assert s[q] == y;
      }
    }
    DistinctSeqCard(s[..p]);
  }

  /** With distinct ids, `findIndex` lands on the row itself. */
  lemma RankLocates<Id>(keys: seq<real>, ids: seq<Id>, i: nat)
    requires |ids| == |keys| && i < |keys| && DistinctIds(ids)
    ensures StableSort(keys)[Rank(keys, ids, i) - 1] == i
  {
    var order := StableSort(keys);
    var p := Rank(keys, ids, i) - 1;
    assert ids[order[p]] == ids[i];
  }

  /** The rank the service computes equals the counting rank when user ids are distinct. */
  lemma RankIsCount<Id>(keys: seq<real>, ids: seq<Id>, i: nat)
    requires |ids| == |keys| && i < |keys| && DistinctIds(ids)
    ensures Rank(keys, ids, i) == CountRank(keys, i)
  {
    var p := Rank(keys, ids, i) - 1;
    RankLocates(keys, ids, i);
    PositionIsCount(keys, p);
    PrecedingSplits(keys, i);
  }

  /** Earlier in the stable order means a strictly smaller rank. */
  lemma {:induction false} RankMonotone<Id>(keys: seq<real>, ids: seq<Id>, i: nat, j: nat)
    requires |ids| == |keys| && i < |keys| && j < |keys| && DistinctIds(ids)
    requires Precedes(keys, i, j)
    ensures Rank(keys, ids, i) < Rank(keys, ids, j)
  {
    var order := StableSort(keys);
    RankLocates(keys, ids, i);
    RankLocates(keys, ids, j);
    var pi := Rank(keys, ids, i) - 1;
    var pj := Rank(keys, ids, j) - 1;
    assert pi != pj;
    assert !(pj < pi);
  }

  /**
   With distinct ids the ranks of a cohort of n rows are exactly 1..n, each
   taken once: every rank lies in 1..n, no two rows share one, and the row at
   sorted position p has rank p + 1.
   */
  lemma RanksArePermutation<Id>(keys: seq<real>, ids: seq<Id>)
    requires |ids| == |keys| && DistinctIds(ids)
    ensures forall i, j :: 0 <= i < |keys| && 0 <= j < |keys| && i != j ==>
      Rank(keys, ids, i) != Rank(keys, ids, j)
    ensures forall p :: 0 <= p < |keys| ==> Rank(keys, ids, StableSort(keys)[p]) == p + 1
  {
    var order := StableSort(keys);
    forall i | 0 <= i < |keys|
      ensures order[Rank(keys, ids, i) - 1] == i
    {
      RankLocates(keys, ids, i);
    }
    forall p | 0 <= p < |keys|
      ensures Rank(keys, ids, order[p]) == p + 1
    {
      var i := order[p];
      var p' := Rank(keys, ids, i) - 1;
      assert order[p'] == i;
      assert !(p' < p);
      assert !(p < p');
    }
  }
}
