/** The page controller `CodeforcesLeaderboard`: the directory of handles,
    the current leaderboard and the busy flag, and the two operations that
    replace them. Network replies are parameters; DOM updates are not
    modelled. */
module Leaderboard {
  import opened Wrappers
  import opened Profile
  import Directory
  import Ranking
  import Stats

  /** The settle-all join of `updateLeaderboard` (lines 108-112): one
      request per directory entry, so `lookups[i]` is what the network
      answered for `users[i]`; a handle listed twice is looked up twice and
      the two answers may differ. One outcome per entry, in directory
      order, whatever the others did. */
  function Settle(users: seq<string>, lookups: seq<Lookup>): (outcomes: seq<Option<Record>>)
    requires |lookups| == |users|
    ensures |outcomes| == |users|
    ensures forall i :: 0 <= i < |users| ==> outcomes[i] == FetchUserInfo(lookups[i])
  {
    if users == [] then [] else [FetchUserInfo(lookups[0])] + Settle(users[1..], lookups[1..])
  }

  class CodeforcesLeaderboard {
    var users: seq<string>
    var leaderboardData: seq<Record>
    var isLoading: bool

    constructor ()
      ensures users == [] && leaderboardData == [] && !isLoading
    {
      users := [];
      leaderboardData := [];
      isLoading := false;
    }

    /** `loadGoogleSheetsData`: replace the directory with the handles read
        from the sheet, or with the sample handles when the read failed.
        `failed` is whether the error banner was shown. */
    method LoadGoogleSheetsData(response: Directory.SheetResponse) returns (failed: bool)
      modifies this`users
      ensures failed <==> Directory.UsesFallback(response)
      ensures failed ==> users == Directory.Fallback
      ensures !failed ==> users == Directory.KeptNames(response.values.value[1..])
    {
      failed := Directory.UsesFallback(response);
      users := Directory.Users(response);
    }

    /** The part of `updateLeaderboard` before its `await`: a pass already
        in flight makes this trigger a no-op; otherwise the flag is raised. */
    method BeginUpdate() returns (started: bool)
      modifies this`isLoading
      ensures started <==> !old(isLoading)
      ensures isLoading
      ensures !started ==> unchanged(this)
    {
      if isLoading {
        return false;
      }
      isLoading := true;
      started := true;
    }

    /** The part of `updateLeaderboard` after its `await`: the new board is
        exactly the successful lookups, sorted by rating, and the flag is
        lowered again (the `finally` block). */
    method FinishUpdate(outcomes: seq<Option<Record>>)
      requires isLoading
      modifies this`leaderboardData, this`isLoading
      ensures leaderboardData == Ranking.Aggregate(outcomes)
      ensures !isLoading
    {
      leaderboardData := Ranking.Aggregate(outcomes);
      isLoading := false;
    }

    /** One whole `updateLeaderboard` call with nothing interleaved. */
    method UpdateLeaderboard(lookups: seq<Lookup>) returns (ran: bool)
      requires |lookups| == |users|
      modifies this`leaderboardData, this`isLoading
      ensures ran <==> !old(isLoading)
      ensures !ran ==> unchanged(this)
      ensures ran ==> leaderboardData == Ranking.Aggregate(Settle(users, lookups)) && !isLoading
    {
      ran := BeginUpdate();
      if ran {
        FinishUpdate(Settle(users, lookups));
      }
    }

    /** `init` without its timer and event wiring: load the directory, then
        run one pass over it. */
    method Init(response: Directory.SheetResponse, lookups: seq<Lookup>)
      requires |lookups| == |Directory.Users(response)|
      modifies this`users, this`leaderboardData, this`isLoading
      ensures users == Directory.Users(response)
      ensures !old(isLoading) ==> leaderboardData == Ranking.Aggregate(Settle(users, lookups)) && !isLoading
      ensures old(isLoading) ==> leaderboardData == old(leaderboardData) && isLoading
    {
      var _ := LoadGoogleSheetsData(response);
      var _ := UpdateLeaderboard(lookups);
    }
  }

  /** A second trigger (the timer or the refresh button) that arrives while
      a pass is in flight is dropped: exactly one pass takes effect. */
  method OverlappingTriggers(board: CodeforcesLeaderboard, outcomes: seq<Option<Record>>)
    returns (first: bool, second: bool)
    requires !board.isLoading
    modifies board
    ensures first && !second
    ensures board.leaderboardData == Ranking.Aggregate(outcomes) && !board.isLoading
    ensures board.users == old(board.users)
  {
    first := board.BeginUpdate();
    second := board.BeginUpdate();
    board.FinishUpdate(outcomes);
  }

  /** An end-to-end example: handles A, B and C, rated 1200, 1800 and a
      failed lookup, give the board [B, A] with count 2, average 1500 and
      maximum 1800. */
  lemma EndToEndExample(a: Record, b: Record)
    requires a.rating == 1200 && b.rating == 1800
    ensures Ranking.Aggregate([Some(a), Some(b), None]) == [b, a]
    ensures Stats.Summarize([b, a]) == Stats.Summary(2, 1500, 1800)
  {
    var outcomes := [Some(a), Some(b), None];
    assert Ranking.Successes(outcomes) == [a, b] by {
      assert outcomes[1..] == [Some(b), None] && outcomes[1..][1..] == [None];
      assert Ranking.Successes([None]) == [];
      assert Ranking.Successes([Some(b), None]) == [b];
    }
    forall r ensures Ranking.WithRating([b, a], r) == Ranking.WithRating([a, b], r) {
      assert [b, a][1..] == [a] && [a, b][1..] == [b];
      assert Ranking.WithRating([a], r) == if r == 1200 then [a] else [];
      assert Ranking.WithRating([b], r) == if r == 1800 then [b] else [];
    }
    Ranking.AggregateIsTheStableSort(outcomes, [b, a]);
    Stats.TwoUserExample(b, a);
  }
}
