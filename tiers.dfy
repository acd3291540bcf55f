/** The Codeforces rating tiers used to style and title a leaderboard entry
    (`getRatingClass` and `getRatingTitle`). */
module Tiers {

  /** Inclusive lower bounds of the nine tiers above Newbie, lowest first. */
  const Floors: seq<int> := [1200, 1400, 1600, 1900, 2100, 2300, 2400, 2600, 3000]

  /** CSS class of each tier, indexed by the number of floors reached. */
  const ClassNames: seq<string> := [
    "newbie", "pupil", "specialist", "expert", "candidate-master", "master",
    "international-master", "grandmaster", "international-grandmaster",
    "legendary-grandmaster"]

  /** Display title of each tier, indexed like ClassNames. */
  const Titles: seq<string> := [
    "Newbie", "Pupil", "Specialist", "Expert", "Candidate Master", "Master",
    "International Master", "Grandmaster", "International Grandmaster",
    "Legendary Grandmaster"]

  /** The source's `getRatingClass`: a chain of inclusive lower bounds,
      highest first. */
  function RatingClass(rating: int): (c: string)
    ensures c in ClassNames
  {
    if rating >= 3000 then "legendary-grandmaster"
    else if rating >= 2600 then "international-grandmaster"
    else if rating >= 2400 then "grandmaster"
    else if rating >= 2300 then "international-master"
    else if rating >= 2100 then "master"
    else if rating >= 1900 then "candidate-master"
    else if rating >= 1600 then "expert"
    else if rating >= 1400 then "specialist"
    else if rating >= 1200 then "pupil"
    else "newbie"
  }

  /** The source's `getRatingTitle`, written as its own chain of bounds. */
  function RatingTitle(rating: int): (t: string)
    ensures t in Titles
  {
    if rating >= 3000 then "Legendary Grandmaster"
    else if rating >= 2600 then "International Grandmaster"
    else if rating >= 2400 then "Grandmaster"
    else if rating >= 2300 then "International Master"
    else if rating >= 2100 then "Master"
    else if rating >= 1900 then "Candidate Master"
    else if rating >= 1600 then "Expert"
    else if rating >= 1400 then "Specialist"
    else if rating >= 1200 then "Pupil"
    else "Newbie"
  }

  predicate Increasing(floors: seq<int>)
  {
    forall i, j :: 0 <= i < j < |floors| ==> floors[i] < floors[j]
  }

  /** Reference definition of a tier: how many floors the rating reaches. */
  function FloorsReached(floors: seq<int>, rating: int): (k: nat)
    ensures k <= |floors|
  {
    if floors == [] then 0
    else (if floors[0] <= rating then 1 else 0) + FloorsReached(floors[1..], rating)
  }

  /** Tier index of a rating: 0 for Newbie up to 9 for Legendary Grandmaster. */
  function Tier(rating: int): (k: nat)
    ensures k < |ClassNames| && k < |Titles|
  {
    FloorsReached(Floors, rating)
  }

  /** Over increasing floors, the count reached is the unique k with
      floors[k-1] <= rating < floors[k]. */
  lemma {:induction false} FloorsReachedBracket(floors: seq<int>, rating: int)
    requires Increasing(floors)
    ensures var k := FloorsReached(floors, rating);
      (k == 0 || floors[k - 1] <= rating) && (k == |floors| || rating < floors[k])
  {
    if floors != [] {
      var rest := floors[1..];
      assert Increasing(rest);
      FloorsReachedBracket(rest, rating);
    }
  }

  /** Reaching floors is monotone in the rating. */
  lemma {:induction false} FloorsReachedMonotone(floors: seq<int>, a: int, b: int)
    requires a <= b
    ensures FloorsReached(floors, a) <= FloorsReached(floors, b)
  {
    if floors != [] {
      FloorsReachedMonotone(floors[1..], a, b);
    }
  }

  lemma FloorsIncreasing()
    ensures Increasing(Floors)
  {
  }

  /** Both chains of the source pick the entry of their table at the tier
      index, so class and title always name the same tier. */
  lemma ClassAndTitleAtTier(rating: int)
    ensures RatingClass(rating) == ClassNames[Tier(rating)]
    ensures RatingTitle(rating) == Titles[Tier(rating)]
  {
    if rating >= 3000 { TierBracket(9, rating); }
    else if rating >= 2600 { TierBracket(8, rating); }
    else if rating >= 2400 { TierBracket(7, rating); }
    else if rating >= 2300 { TierBracket(6, rating); }
    else if rating >= 2100 { TierBracket(5, rating); }
    else if rating >= 1900 { TierBracket(4, rating); }
    else if rating >= 1600 { TierBracket(3, rating); }
    else if rating >= 1400 { TierBracket(2, rating); }
    else if rating >= 1200 { TierBracket(1, rating); }
    else { TierBracket(0, rating); }
  }

  lemma NamesDistinct()
    ensures forall i, j :: 0 <= i < j < |ClassNames| ==> ClassNames[i] != ClassNames[j]
    ensures forall i, j :: 0 <= i < j < |Titles| ==> Titles[i] != Titles[j]
  {
  }

  /** Over increasing floors at most one k brackets a rating. */
  lemma BracketUnique(floors: seq<int>, rating: int, k: nat, l: nat)
    requires Increasing(floors) && k <= |floors| && l <= |floors|
    requires (k == 0 || floors[k - 1] <= rating) && (k == |floors| || rating < floors[k])
    requires (l == 0 || floors[l - 1] <= rating) && (l == |floors| || rating < floors[l])
    ensures k == l
  {
  }

  /** Table entries name their index. */
  lemma NameAtIndex(k: nat, t: nat)
    requires k < |ClassNames| && t < |ClassNames|
    ensures ClassNames[k] == ClassNames[t] <==> k == t
    ensures Titles[k] == Titles[t] <==> k == t
  {
    NamesDistinct();
  }

  /** A rating has tier k exactly when it lies in [Floors[k-1], Floors[k]). */
  lemma TierBracket(k: nat, rating: int)
    requires k <= |Floors|
    ensures Tier(rating) == k
      <==> (k == 0 || Floors[k - 1] <= rating) && (k == |Floors| || rating < Floors[k])
  {
    FloorsIncreasing();
    FloorsReachedBracket(Floors, rating);
    if (k == 0 || Floors[k - 1] <= rating) && (k == |Floors| || rating < Floors[k]) {
      BracketUnique(Floors, rating, k, Tier(rating));
    }
  }

  /** Every threshold is exact, in both directions: a rating gets the k-th
      class if and only if it lies in [Floors[k-1], Floors[k]). */
  lemma TierExact(k: nat, rating: int)
    requires k < |ClassNames|
    ensures RatingClass(rating) == ClassNames[k]
      <==> (k == 0 || Floors[k - 1] <= rating) && (k == |Floors| || rating < Floors[k])
    ensures RatingTitle(rating) == Titles[k] <==> RatingClass(rating) == ClassNames[k]
  {
    ClassAndTitleAtTier(rating);
    NameAtIndex(k, Tier(rating));
    TierBracket(k, rating);
  }

  /** Two ratings share a class exactly when they share a title. */
  lemma ClassAndTitleAgree(a: int, b: int)
    ensures RatingClass(a) == RatingClass(b) <==> RatingTitle(a) == RatingTitle(b)
    ensures RatingClass(a) == RatingClass(b) <==> Tier(a) == Tier(b)
  {
    ClassAndTitleAtTier(a);
    ClassAndTitleAtTier(b);
    NamesDistinct();
    var i, j := Tier(a), Tier(b);
    if i < j {
      assert ClassNames[i] != ClassNames[j] && Titles[i] != Titles[j];
    } else if j < i {
      assert ClassNames[j] != ClassNames[i] && Titles[j] != Titles[i];
    }
  }

  /** A higher rating never gives a lower tier. */
  lemma TierMonotone(a: int, b: int)
    requires a <= b
    ensures Tier(a) <= Tier(b)
  {
    FloorsReachedMonotone(Floors, a, b);
  }

  /** The boundaries 1199/1200 and 2999/3000. */
  lemma TierBoundaries()
    ensures RatingTitle(2999) == "International Grandmaster" && RatingTitle(3000) == "Legendary Grandmaster"
    ensures RatingTitle(1199) == "Newbie" && RatingTitle(1200) == "Pupil"
    ensures Tier(1199) == 0 && Tier(1200) == 1 && Tier(2999) == 8 && Tier(3000) == 9
  {
    ClassAndTitleAtTier(1199);
    ClassAndTitleAtTier(1200);
    ClassAndTitleAtTier(2999);
    ClassAndTitleAtTier(3000);
    NamesDistinct();
  }
}
