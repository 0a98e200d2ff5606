/**
 * The end of `prioritize`: keep the rows whose score is strictly positive
 * and order them by score, highest first.
 */
module Ranking {
  import opened Domain

  /** A catalogue work with its score. */
  datatype Row = Row(work: Work, score: real)

  predicate NonIncreasing(rows: seq<Row>)
  {
    forall i, j :: 0 <= i < j < |rows| ==> rows[i].score >= rows[j].score
  }

  /**
   * `ranked` is a valid result for `table`: exactly the rows of positive
   * score, each as often as in the table, by non-increasing score. How
   * rows of equal score are ordered is left open.
   */
  ghost predicate IsRanking(table: seq<Row>, ranked: seq<Row>)
  {
    NonIncreasing(ranked) &&
    forall x :: multiset(ranked)[x] == if x.score > 0.0 then multiset(table)[x] else 0
  }

  /** `df[df['Score'] > 0]`: the rows of positive score, in table order. */
  function Positive(table: seq<Row>): (r: seq<Row>)
    ensures forall x :: multiset(r)[x] == if x.score > 0.0 then multiset(table)[x] else 0
  {
    if table == [] then []
    else
      var rest := Positive(table[1..]);
      assert table == [table[0]] + table[1..];
      if table[0].score > 0.0 then [table[0]] + rest else rest
  }

  /** Every row of a non-increasing list scores at most its head. */
  lemma HeadIsHighest(sorted: seq<Row>, y: Row)
    requires NonIncreasing(sorted) && y in multiset(sorted)
    ensures sorted != [] && y.score <= sorted[0].score
  {
    var k :| 0 <= k < |sorted| && sorted[k] == y;
  }

  /** Putting the head back in front of the insertion into the tail keeps the order. */
  lemma ConsHead(x: Row, sorted: seq<Row>, rest: seq<Row>)
    requires NonIncreasing(sorted) && sorted != [] && x.score < sorted[0].score
    requires NonIncreasing(rest) && multiset(rest) == multiset(sorted[1..]) + multiset{x}
    ensures NonIncreasing([sorted[0]] + rest)
    ensures multiset([sorted[0]] + rest) == multiset(sorted) + multiset{x}
  {
    assert sorted == [sorted[0]] + sorted[1..];
    forall j | 0 <= j < |rest|
      ensures rest[j].score <= sorted[0].score
    {
      assert rest[j] in multiset(rest);
      if rest[j] != x {
        HeadIsHighest(sorted, rest[j]);
      }
    }
  }

  /** Inserts `x` into a list sorted by non-increasing score. */
  function Insert(x: Row, sorted: seq<Row>): (r: seq<Row>)
    requires NonIncreasing(sorted)
    ensures NonIncreasing(r)
    ensures multiset(r) == multiset(sorted) + multiset{x}
  {
    if sorted == [] then [x]
    else if x.score >= sorted[0].score then [x] + sorted
    else
      var rest := Insert(x, sorted[1..]);
      ConsHead(x, sorted, rest);
      [sorted[0]] + rest
  }

  /** `sort_values(by='Score', ascending=False)`, as an insertion sort. */
  function SortByScore(rows: seq<Row>): (r: seq<Row>)
    ensures NonIncreasing(r)
    ensures multiset(r) == multiset(rows)
  {
    if rows == [] then []
    else
      assert rows == [rows[0]] + rows[1..];
      Insert(rows[0], SortByScore(rows[1..]))
  }

  /** Filter, then sort. */
  function Rank(table: seq<Row>): (r: seq<Row>)
    ensures IsRanking(table, r)
  {
    SortByScore(Positive(table))
  }

  /** Every ranked row has a positive score and comes from the table. */
  lemma RankedRowsPositive(table: seq<Row>, ranked: seq<Row>)
    requires IsRanking(table, ranked)
    ensures forall x :: x in ranked ==> x.score > 0.0 && x in table
  {
    forall x | x in ranked
      ensures x.score > 0.0 && x in table
    {
      assert multiset(ranked)[x] > 0;
    }
  }

  /** A row of positive score in the table is ranked. */
  lemma PositiveRowsRanked(table: seq<Row>, ranked: seq<Row>, x: Row)
    requires IsRanking(table, ranked) && x in table && x.score > 0.0
    ensures x in ranked
  {
    assert multiset(table)[x] > 0;
    assert multiset(ranked)[x] > 0;
  }

  /** Any two rankings of a table hold the same rows, in the same score order. */
  lemma RankingsAgree(table: seq<Row>, r1: seq<Row>, r2: seq<Row>)
    requires IsRanking(table, r1) && IsRanking(table, r2)
    ensures multiset(r1) == multiset(r2) && |r1| == |r2|
    ensures forall i :: 0 <= i < |r1| ==> r1[i].score == r2[i].score
  {
    assert multiset(r1) == multiset(r2) by {
      forall x ensures multiset(r1)[x] == multiset(r2)[x] {}
    }
    assert |r1| == |multiset(r1)| == |multiset(r2)| == |r2|;
    SortedScoresEqual(r1, r2);
  }

  /** Removing one row from a non-increasing list keeps it non-increasing. */
  lemma RemoveAt(r: seq<Row>, k: nat)
    requires NonIncreasing(r) && k < |r|
    ensures NonIncreasing(r[..k] + r[k + 1..])
    ensures multiset(r[..k] + r[k + 1..]) == multiset(r) - multiset{r[k]}
  {
    var r' := r[..k] + r[k + 1..];
    assert r == r[..k] + [r[k]] + r[k + 1..];
    forall i, j | 0 <= i < j < |r'|
      ensures r'[i].score >= r'[j].score
    {
      var i0 := if i < k then i else i + 1;
      var j0 := if j < k then j else j + 1;
      assert r'[i] == r[i0] && r'[j] == r[j0];
    }
  }

  /**
   * When the row removed at `k` scores as much as the head, the list shifted
   * by one after the removal has the same score at every later position.
   */
  lemma ScoresAfterRemoval(r: seq<Row>, k: nat)
    requires NonIncreasing(r) && k < |r| && r[k].score == r[0].score
    ensures forall i :: 1 <= i < |r| ==> (r[..k] + r[k + 1..])[i - 1].score == r[i].score
  {
    var r' := r[..k] + r[k + 1..];
    forall i | 1 <= i < |r|
      ensures r'[i - 1].score == r[i].score
    {
      if i <= k {
        assert r'[i - 1] == r[i - 1];
      } else {
        assert r'[i - 1] == r[i];
      }
    }
  }

  lemma DropHead(r: seq<Row>)
    requires r != []
    ensures multiset(r[1..]) == multiset(r) - multiset{r[0]}
  {
    assert r == [r[0]] + r[1..];
  }

  /** Two score-sorted permutations of each other have the same score at each position. */
  lemma {:induction false} SortedScoresEqual(r1: seq<Row>, r2: seq<Row>)
    requires NonIncreasing(r1) && NonIncreasing(r2) && multiset(r1) == multiset(r2)
    ensures |r1| == |r2| && forall i :: 0 <= i < |r1| ==> r1[i].score == r2[i].score
    decreases |r1|
  {
    assert |r1| == |multiset(r1)| == |multiset(r2)| == |r2|;
    if r1 != [] {
      assert r1[0] in multiset(r1) && r2[0] in multiset(r2);
      HeadIsHighest(r1, r2[0]);
      HeadIsHighest(r2, r1[0]);
      assert r1[0].score == r2[0].score;
      var k :| 0 <= k < |r2| && r2[k] == r1[0];
      var r2' := r2[..k] + r2[k + 1..];
      RemoveAt(r2, k);
      ScoresAfterRemoval(r2, k);
      var tail := r1[1..];
      DropHead(r1);
      SortedScoresEqual(tail, r2');
      forall i | 1 <= i < |r1|
        ensures r1[i].score == r2[i].score
      {
        assert r1[i] == tail[i - 1];
        assert tail[i - 1].score == r2'[i - 1].score;
      }
    }
  }
}
