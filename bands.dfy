/** The rating-band filter of the page (`filterLeaderboard`). The source
    reads each entry's rating back from its rendered text with `parseInt`;
    the rendered text is the record's rating in decimal, so the model
    applies the band test to the rating itself. The filter only sets each
    entry's visibility: entries are neither removed nor reordered. */
module Bands {
  import opened Profile
  import Tiers

  /** Whether the entry with this rating is shown under `filter`. Any value
      other than the four band names, "all" included, shows everything. */
  predicate Shows(filter: string, rating: int)
    ensures filter !in BandNames ==> Shows(filter, rating)
  {
    if filter == "expert" then rating >= 1600
    else if filter == "specialist" then rating >= 1400 && rating < 1600
    else if filter == "pupil" then rating >= 1200 && rating < 1400
    else if filter == "newbie" then rating < 1200
    else true
  }

  const BandNames: seq<string> := ["newbie", "pupil", "specialist", "expert"]

  /** The display flag the filter sets on each rendered entry, in board
      order; the board itself is untouched. */
  function Display(filter: string, board: seq<Record>): (shown: seq<bool>)
    ensures |shown| == |board|
    ensures forall i :: 0 <= i < |board| ==> (shown[i] <==> Shows(filter, board[i].rating))
  {
    seq(|board|, i requires 0 <= i < |board| => Shows(filter, board[i].rating))
  }

  /** The four bands partition the ratings: every rating is shown by
      exactly one band name. */
  lemma BandsPartition(rating: int)
    ensures exists k :: 0 <= k < |BandNames| && Shows(BandNames[k], rating)
    ensures forall k, l :: 0 <= k < l < |BandNames| ==> !(Shows(BandNames[k], rating) && Shows(BandNames[l], rating))
  {
    if rating < 1200 {
      assert Shows(BandNames[0], rating);
    } else if rating < 1400 {
      assert Shows(BandNames[1], rating);
    } else if rating < 1600 {
      assert Shows(BandNames[2], rating);
    } else {
      assert Shows(BandNames[3], rating);
    }
  }

  /** Each band is a range of tiers of the rating table: expert and above,
      specialist, pupil, newbie. */
  lemma BandsFollowTiers(rating: int)
    ensures Shows("newbie", rating) <==> Tiers.Tier(rating) == 0
    ensures Shows("pupil", rating) <==> Tiers.Tier(rating) == 1
    ensures Shows("specialist", rating) <==> Tiers.Tier(rating) == 2
    ensures Shows("expert", rating) <==> Tiers.Tier(rating) >= 3
  {
    Tiers.TierBracket(0, rating);
    Tiers.TierBracket(1, rating);
    Tiers.TierBracket(2, rating);
  }

  /** Under "all" or an unknown value every entry is shown. */
  lemma ShowAll(filter: string, board: seq<Record>)
    requires filter !in BandNames
    ensures forall i :: 0 <= i < |board| ==> Display(filter, board)[i]
  {
  }
}
