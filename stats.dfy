/** The three summary numbers shown above the leaderboard (`updateStats`):
    how many users, their average rating rounded half up, and the highest
    rating; all three are 0 for an empty board. */
module Stats {
  import opened Profile

  datatype Summary = Summary(count: nat, average: int, maximum: int)

  /** `ratings.reduce((sum, rating) => sum + rating, 0)`. */
  function SumRatings(board: seq<Record>): int
  {
    if board == [] then 0 else board[0].rating + SumRatings(board[1..])
  }

  /** The sum works entry by entry: a board split in two sums to the sum
      of its parts, so the order of the reduction does not matter. */
  lemma {:induction false} SumRatingsAppend(a: seq<Record>, b: seq<Record>)
    ensures SumRatings(a + b) == SumRatings(a) + SumRatings(b)
  {
    if a == [] {
      assert a + b == b;
    } else {
      assert (a + b)[1..] == a[1..] + b;
      SumRatingsAppend(a[1..], b);
    }
  }

  /** `Math.max(...ratings)` for a non-empty board. */
  function MaxRating(board: seq<Record>): (m: int)
    requires |board| > 0
    ensures exists i :: 0 <= i < |board| && board[i].rating == m
    ensures forall i :: 0 <= i < |board| ==> board[i].rating <= m
  {
    if |board| == 1 then board[0].rating
    else
      var rest := MaxRating(board[1..]);
      assert forall i :: 1 <= i < |board| ==> board[i] == board[1..][i - 1];
      if board[0].rating >= rest then board[0].rating else rest
  }

  /** The lowest rating of a non-empty board (used to bound the average). */
  function MinRating(board: seq<Record>): (m: int)
    requires |board| > 0
    ensures exists i :: 0 <= i < |board| && board[i].rating == m
    ensures forall i :: 0 <= i < |board| ==> m <= board[i].rating
  {
    if |board| == 1 then board[0].rating
    else
      var rest := MinRating(board[1..]);
      assert forall i :: 1 <= i < |board| ==> board[i] == board[1..][i - 1];
      if board[0].rating <= rest then board[0].rating else rest
  }

  /** `Math.round(sum / n)` on exact rationals: the nearest integer, halves
      going up, i.e. the a with sum/n - 1/2 < a <= sum/n + 1/2. */
  function RoundHalfUp(sum: int, n: nat): (a: int)
    requires n > 0
    ensures 2 * sum - n < 2 * n * a <= 2 * sum + n
  {
    var d := 2 * n;
    var q := (2 * sum + n) / d;
    assert 2 * sum + n == d * q + (2 * sum + n) % d;
    q
  }

  /** What `updateStats` displays for a board. */
  function Summarize(board: seq<Record>): (s: Summary)
    ensures board == [] ==> s == Summary(0, 0, 0)
    ensures board != [] ==> s.count == |board|
    ensures board != [] ==> 2 * SumRatings(board) - |board| < 2 * |board| * s.average <= 2 * SumRatings(board) + |board|
    ensures board != [] ==> (exists i :: 0 <= i < |board| && board[i].rating == s.maximum)
    ensures forall i :: 0 <= i < |board| ==> board[i].rating <= s.maximum
  {
    if board == [] then Summary(0, 0, 0)
    else Summary(|board|, RoundHalfUp(SumRatings(board), |board|), MaxRating(board))
  }

  /** The sum lies between n times the lowest and n times the highest
      rating. */
  lemma {:induction false} SumBounds(board: seq<Record>, lo: int, hi: int)
    requires forall i :: 0 <= i < |board| ==> lo <= board[i].rating <= hi
    ensures |board| * lo <= SumRatings(board) <= |board| * hi
  {
    if board != [] {
      assert forall i :: 0 <= i < |board[1..]| ==> board[1..][i] == board[i + 1];
      SumBounds(board[1..], lo, hi);
      assert |board| * lo == |board[1..]| * lo + lo;
      assert |board| * hi == |board[1..]| * hi + hi;
    }
  }

  lemma MulMonotone(n: nat, x: int, y: int)
    requires x <= y
    ensures n * x <= n * y
  {
    assert n * y - n * x == n * (y - x);
  }

  /** Cancelling a positive factor keeps a strict inequality. */
  lemma MulCancelLess(n: nat, x: int, y: int)
    requires n > 0 && n * x < n * y
    ensures x < y
  {
    if x >= y {
      MulMonotone(n, y, x);
    }
  }

  /** A half-up rounding of s/n lies between lo and hi when s/n does. */
  lemma RoundedWithin(s: int, n: nat, lo: int, hi: int, a: int)
    requires n > 0
    requires n * lo <= s <= n * hi
    requires 2 * s - n < 2 * n * a <= 2 * s + n
    ensures lo <= a <= hi
  {
    assert 2 * n * a == 2 * (n * a);
    assert n * (lo - 1) == n * lo - n;
    assert n * (hi + 1) == n * hi + n;
    MulCancelLess(n, lo - 1, a);
    MulCancelLess(n, a, hi + 1);
  }

  /** The average lies between the lowest and the highest rating. */
  lemma AverageWithinRange(board: seq<Record>)
    requires board != []
    ensures MinRating(board) <= Summarize(board).average <= MaxRating(board)
  {
    SumBounds(board, MinRating(board), MaxRating(board));
    RoundedWithin(SumRatings(board), |board|, MinRating(board), MaxRating(board), Summarize(board).average);
  }

  /** A board rated 1800 and 1200 shows 2, 1500 and 1800. */
  lemma TwoUserExample(b: Record, a: Record)
    requires b.rating == 1800 && a.rating == 1200
    ensures Summarize([b, a]) == Summary(2, 1500, 1800)
  {
    assert [b, a][1..] == [a] && [a][1..] == [];
    assert SumRatings([a]) == 1200;
    assert SumRatings([b, a]) == 3000;
    assert (2 * 3000 + 2) / (2 * 2) == 1500;
  }
}
