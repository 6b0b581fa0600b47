/**
 * The final ordering of the result table: by score, highest first. The
 * underlying sort is not stable, so only the order of the scores is
 * promised, not the order among rows with equal scores.
 */
module Ranking {
  import opened Evaluation

  /** Scores never increase from one row to a later one. */
  predicate SortedByScore(s: seq<Record>) {
    forall i, j :: 0 <= i < j < |s| ==> s[i].score >= s[j].score
  }

  /** Two tables with the same score column. */
  predicate SameScores(a: seq<Record>, b: seq<Record>) {
    |a| == |b| && forall i :: 0 <= i < |a| ==> a[i].score == b[i].score
  }

  /** A row whose score is at least the first score of an ordered table can go in front of it. */
  lemma SortedCons(x: Record, s: seq<Record>)
    requires SortedByScore(s)
    requires s != [] ==> x.score >= s[0].score
    ensures SortedByScore([x] + s)
  {
  }

  /** Inserts one row into a table that is already in score order. */
  function Insert(x: Record, s: seq<Record>): (r: seq<Record>)
    requires SortedByScore(s)
    ensures SortedByScore(r)
    ensures multiset(r) == multiset(s) + multiset{x}
    ensures r != [] && (r[0] == x || (s != [] && r[0] == s[0]))
  {
    if s == [] then [x]
    else if x.score >= s[0].score then
      SortedCons(x, s);
      [x] + s
    else
      var tail := Insert(x, s[1..]);
      assert s == [s[0]] + s[1..];
      SortedCons(s[0], tail);
      [s[0]] + tail
  }

  /** The table in score order: a permutation of its rows with non-increasing scores. */
  function Rank(s: seq<Record>): (r: seq<Record>)
    ensures SortedByScore(r)
    ensures multiset(r) == multiset(s)
  {
    if s == [] then []
    else
      assert s == [s[0]] + s[1..];
      Insert(s[0], Rank(s[1..]))
  }

  /** The table without its row at position k. */
  function RemoveAt(b: seq<Record>, k: nat): (r: seq<Record>)
    requires k < |b|
    ensures |r| == |b| - 1
    ensures forall i :: 0 <= i < |r| ==> r[i] == if i < k then b[i] else b[i + 1]
    ensures multiset(r) == multiset(b) - multiset{b[k]}
  {
    assert b == b[..k] + [b[k]] + b[k + 1..];
    b[..k] + b[k + 1..]
  }

  lemma SortedRemoveAt(b: seq<Record>, k: nat)
    requires k < |b| && SortedByScore(b)
    ensures SortedByScore(RemoveAt(b, k))
  {
  }

  /** In an ordered table no row scores more than the first one. */
  lemma HeadIsMaximal(s: seq<Record>, y: Record)
    requires SortedByScore(s) && y in multiset(s)
    ensures y.score <= s[0].score
  {
  }

  /**
   * If the rest of `a` has the scores of `b` without its row k, and the rows
   * of `b` up to k all have the score of a's first row, then `a` has the scores of `b`.
   */
  lemma ScoresAfterRemoval(a: seq<Record>, b: seq<Record>, k: nat)
    requires k < |b| && |a| == |b|
    requires SortedByScore(b)
    requires a[0].score == b[k].score == b[0].score
    requires SameScores(a[1..], RemoveAt(b, k))
    ensures SameScores(a, b)
  {
  }

  /**
   * Any two score-ordered permutations of the same rows have the same score
   * column: the unstable order among ties moves rows, never scores.
   */
  lemma {:induction false} SortedPermutationsShareScores(a: seq<Record>, b: seq<Record>)
    requires SortedByScore(a) && SortedByScore(b)
    requires multiset(a) == multiset(b)
    ensures SameScores(a, b)
    decreases |a|
  {
    assert |a| == |multiset(a)| == |multiset(b)| == |b|;
    if a != [] {
      var x := a[0];
      assert x in multiset(b);
      assert x in b;
      var k :| 0 <= k < |b| && b[k] == x;
      HeadIsMaximal(a, b[0]);
      HeadIsMaximal(b, x);
      var rest := RemoveAt(b, k);
      SortedRemoveAt(b, k);
      assert a == [x] + a[1..];
      assert multiset(a) == multiset{x} + multiset(a[1..]);
      assert multiset(rest) == multiset(a[1..]);
      SortedPermutationsShareScores(a[1..], rest);
      ScoresAfterRemoval(a, b, k);
    }
  }

  /** Every score-ordered permutation of a table has the score column that Rank produces. */
  lemma RankDeterminesScores(s: seq<Record>, t: seq<Record>)
    requires SortedByScore(t) && multiset(t) == multiset(s)
    ensures SameScores(t, Rank(s))
  {
    SortedPermutationsShareScores(t, Rank(s));
  }
}
