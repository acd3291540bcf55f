/** The aggregation step of `updateLeaderboard`: keep the fulfilled,
    non-null lookups of a settle-all join, in directory order, and sort
    them by rating, highest first, with `Array.prototype.sort`, which is
    stable. */
module Ranking {
  import opened Wrappers
  import opened Profile

  /** The records of the successful lookups, in the order of the lookups. */
  function Successes(outcomes: seq<Option<Record>>): (recs: seq<Record>)
    ensures |recs| <= |outcomes|
  {
    if outcomes == [] then []
    else (if outcomes[0].Some? then [outcomes[0].value] else []) + Successes(outcomes[1..])
  }

  /** Number of failed lookups. */
  function Failures(outcomes: seq<Option<Record>>): nat
  {
    if outcomes == [] then 0
    else (if outcomes[0].None? then 1 else 0) + Failures(outcomes[1..])
  }

  /** Every lookup either contributes exactly one record or fails. */
  lemma {:induction false} SuccessCount(outcomes: seq<Option<Record>>)
    ensures |Successes(outcomes)| + Failures(outcomes) == |outcomes|
  {
    if outcomes != [] {
      SuccessCount(outcomes[1..]);
    }
  }

  /** A record is kept exactly when some lookup produced it. */
  lemma {:induction false} SuccessMembers(outcomes: seq<Option<Record>>, x: Record)
    ensures x in Successes(outcomes) <==> Some(x) in outcomes
  {
    if outcomes != [] {
      SuccessMembers(outcomes[1..], x);
      assert outcomes == [outcomes[0]] + outcomes[1..];
    }
  }

  /** Successes works lookup by lookup, so it keeps the lookups' order. */
  lemma {:induction false} SuccessesAppend(a: seq<Option<Record>>, b: seq<Option<Record>>)
    ensures Successes(a + b) == Successes(a) + Successes(b)
  {
    if a == [] {
      assert a + b == b;
    } else {
      assert (a + b)[0] == a[0] && (a + b)[1..] == a[1..] + b;
      SuccessesAppend(a[1..], b);
    }
  }

  /** Non-increasing by rating. */
  predicate SortedDesc(s: seq<Record>)
  {
    forall i, j :: 0 <= i < j < |s| ==> s[i].rating >= s[j].rating
  }

  /** The records of `s` rated exactly `r`, in their order in `s`. A sort is
      stable when it keeps every one of these subsequences. */
  function WithRating(s: seq<Record>, r: int): (w: seq<Record>)
    ensures forall y :: y in w ==> y in s && y.rating == r
  {
    if s == [] then []
    else (if s[0].rating == r then [s[0]] else []) + WithRating(s[1..], r)
  }

  /** Places `x` in front of the first record it does not rank below: after
      every higher rating and before every equal one. */
  function Insert(x: Record, s: seq<Record>): (t: seq<Record>)
    ensures |t| == |s| + 1
  {
    if s == [] || s[0].rating <= x.rating then [x] + s else [s[0]] + Insert(x, s[1..])
  }

  lemma {:induction false} InsertPermutes(x: Record, s: seq<Record>)
    ensures multiset(Insert(x, s)) == multiset(s) + multiset{x}
  {
    if s != [] && s[0].rating > x.rating {
      InsertPermutes(x, s[1..]);
      assert s == [s[0]] + s[1..];
    }
  }

  lemma {:induction false} InsertSorted(x: Record, s: seq<Record>)
    requires SortedDesc(s)
    ensures SortedDesc(Insert(x, s))
  {
    if s != [] && s[0].rating > x.rating {
      var rest := Insert(x, s[1..]);
      InsertSorted(x, s[1..]);
      InsertPermutes(x, s[1..]);
      forall j | 0 <= j < |rest|
        ensures rest[j].rating <= s[0].rating
      {
        assert rest[j] in multiset(rest);
        if rest[j] != x {
          assert rest[j] in multiset(s[1..]);
          var k :| 0 <= k < |s[1..]| && s[1..][k] == rest[j];
          assert s[k + 1] == rest[j];
        }
      }
    }
  }

  /** Insertion keeps every equal-rating subsequence and puts `x` at the
      head of its own. */
  lemma {:induction false} InsertStable(x: Record, s: seq<Record>, r: int)
    ensures WithRating(Insert(x, s), r) == (if x.rating == r then [x] else []) + WithRating(s, r)
  {
    if s == [] || s[0].rating <= x.rating {
      assert ([x] + s)[0] == x && ([x] + s)[1..] == s;
    } else {
      var rest := Insert(x, s[1..]);
      InsertStable(x, s[1..], r);
      assert ([s[0]] + rest)[0] == s[0] && ([s[0]] + rest)[1..] == rest;
      assert WithRating(s, r) == (if s[0].rating == r then [s[0]] else []) + WithRating(s[1..], r);
    }
  }

  /** The sort of `updateLeaderboard` (line 118): an insertion sort that
      inserts each record in front of the equal ones sorted after it. */
  function SortByRating(s: seq<Record>): (t: seq<Record>)
    ensures SortedDesc(t)
    ensures multiset(t) == multiset(s)
    ensures forall r :: WithRating(t, r) == WithRating(s, r)
  {
    if s == [] then []
    else
      var rest := SortByRating(s[1..]);
      InsertPermutes(s[0], rest);
      InsertSorted(s[0], rest);
      assert s == [s[0]] + s[1..];
      forall r ensures WithRating(Insert(s[0], rest), r) == WithRating(s, r) {
        InsertStable(s[0], rest, r);
      }
      Insert(s[0], rest)
  }

  /** Two sorted sequences with the same equal-rating subsequences start
      with the same record. */
  lemma HeadsAgree(a: seq<Record>, b: seq<Record>)
    requires a != [] && b != []
    requires SortedDesc(a) && SortedDesc(b)
    requires forall r :: WithRating(a, r) == WithRating(b, r)
    ensures a[0] == b[0]
  {
    var ra, rb := a[0].rating, b[0].rating;
    assert WithRating(a, ra)[0] == a[0];
    assert WithRating(b, rb)[0] == b[0];
    assert a[0] in WithRating(b, ra);
    assert b[0] in WithRating(a, rb);
    var i :| 0 <= i < |b| && b[i] == a[0];
    var j :| 0 <= j < |a| && a[j] == b[0];
    assert ra <= rb && rb <= ra;
  }

  /** Dropping a common head keeps the equal-rating subsequences equal. */
  lemma TailsAgree(a: seq<Record>, b: seq<Record>, r: int)
    requires a != [] && b != [] && a[0] == b[0]
    requires WithRating(a, r) == WithRating(b, r)
    ensures WithRating(a[1..], r) == WithRating(b[1..], r)
  {
    var p := if a[0].rating == r then [a[0]] else [];
    assert WithRating(a[1..], r) == WithRating(a, r)[|p|..];
    assert WithRating(b[1..], r) == WithRating(b, r)[|p|..];
  }

  /** Sorted non-increasing and stable together determine the result: any
      stable sort by rating, descending, gives the same sequence as
      SortByRating. */
  lemma {:induction false} StableSortUnique(a: seq<Record>, b: seq<Record>)
    requires SortedDesc(a) && SortedDesc(b)
    requires forall r :: WithRating(a, r) == WithRating(b, r)
    ensures a == b
  {
    if a != [] && b != [] {
      HeadsAgree(a, b);
      forall r
        ensures WithRating(a[1..], r) == WithRating(b[1..], r)
      {
        TailsAgree(a, b, r);
      }
      StableSortUnique(a[1..], b[1..]);
      assert a == [a[0]] + a[1..] && b == [b[0]] + b[1..];
    } else {
      assert a != [] ==> WithRating(a, a[0].rating) != [];
      assert b != [] ==> WithRating(b, b[0].rating) != [];
    }
  }

  /** The new `leaderboardData` of a pass, from the per-user outcomes in
      directory order. */
  function Aggregate(outcomes: seq<Option<Record>>): (board: seq<Record>)
    ensures SortedDesc(board)
    ensures multiset(board) == multiset(Successes(outcomes))
    ensures forall r :: WithRating(board, r) == WithRating(Successes(outcomes), r)
    ensures |board| == |outcomes| - Failures(outcomes)
    ensures forall x :: x in board <==> Some(x) in outcomes
  {
    var board := SortByRating(Successes(outcomes));
    SuccessCount(outcomes);
    assert |board| == |Successes(outcomes)| by {
      assert |multiset(board)| == |multiset(Successes(outcomes))|;
    }
    assert forall x :: x in board <==> x in Successes(outcomes) by {
      forall x ensures x in board <==> x in Successes(outcomes) {
        assert x in board <==> x in multiset(board);
      }
    }
    forall x ensures x in Successes(outcomes) <==> Some(x) in outcomes {
      SuccessMembers(outcomes, x);
    }
    board
  }

  /** Any ordering of the successes that is sorted and stable is the
      aggregate: the model does not depend on how the sort is implemented. */
  lemma AggregateIsTheStableSort(outcomes: seq<Option<Record>>, board: seq<Record>)
    requires SortedDesc(board)
    requires forall r :: WithRating(board, r) == WithRating(Successes(outcomes), r)
    ensures board == Aggregate(outcomes)
  {
    StableSortUnique(board, Aggregate(outcomes));
  }
}
