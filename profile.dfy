/** One user's profile record, built from the two Codeforces API replies
    (`fetchCodeforcesUserInfo`). The HTTP requests themselves are not
    modelled: each reply is given as a parsed value, or None when the
    request was rejected or its body was not valid JSON. */
module Profile {
  import opened Wrappers

  /** One entry of `user.info`'s result; absent fields are None. */
  datatype User = User(
    handle: string,
    rating: Option<int>,
    maxRating: Option<int>,
    rank: Option<string>,
    titlePhoto: Option<string>,
    lastOnlineTimeSeconds: Option<int>)

  /** Parsed body of `user.info?handles=...`. */
  datatype UserInfoReply = UserInfoReply(status: string, result: Option<seq<User>>)

  /** One contest of `user.rating`'s result, oldest first. */
  datatype RatingEvent = RatingEvent(oldRating: int, newRating: int)

  /** Parsed body of `user.rating?handle=...`. */
  datatype RatingReply = RatingReply(status: string, result: Option<seq<RatingEvent>>)

  /** What the two requests for one user produced. The second is only
      issued when the first succeeded; its value is ignored otherwise. */
  datatype Lookup = Lookup(info: Option<UserInfoReply>, history: Option<RatingReply>)

  /** A leaderboard entry. `titlePhoto` and `lastOnlineTime` are carried
      through unchanged. */
  datatype Record = Record(
    username: string,
    rating: int,
    maxRating: int,
    rank: string,
    titlePhoto: Option<string>,
    ratingChange: int,
    contestCount: nat,
    lastOnlineTime: Option<int>)

  const Ok := "OK"
  const Unrated := "unrated"

  /** JavaScript's `x || 0` on an optional number. */
  function NumberOrZero(x: Option<int>): (n: int)
    ensures n == 0 <==> x.None? || x.value == 0
    ensures x.Some? ==> n == x.value
  {
    if x.Some? then x.value else 0
  }

  /** JavaScript's `x || 'unrated'`: an empty rank is falsy too. */
  function RankOrUnrated(x: Option<string>): (r: string)
    ensures r != ""
    ensures x.Some? && x.value != "" ==> r == x.value
    ensures x.None? || x.value == "" ==> r == Unrated
  {
    if x.Some? && x.value != "" then x.value else Unrated
  }

  /** The primary reply is usable: status OK and a non-empty result. */
  predicate PrimaryUsable(info: Option<UserInfoReply>)
  {
    info.Some? && info.value.status == Ok && info.value.result.Some? && |info.value.result.value| > 0
  }

  /** The history reply did not make the record construction throw: it was
      received and parsed, and when its status is OK it has a result. */
  predicate HistoryReadable(history: Option<RatingReply>)
  {
    history.Some? && (history.value.status == Ok ==> history.value.result.Some?)
  }

  /** Events of a history reply that counts, or none. */
  function Events(history: RatingReply): seq<RatingEvent>
  {
    if history.status == Ok && history.result.Some? then history.result.value else []
  }

  /** `fetchCodeforcesUserInfo`: a record, or None where the source
      returns null from its catch. */
  function FetchUserInfo(lookup: Lookup): (r: Option<Record>)
    ensures r.Some? <==> PrimaryUsable(lookup.info) && HistoryReadable(lookup.history)
    ensures r.Some? ==> r.value.contestCount == |Events(lookup.history.value)|
  {
    if !PrimaryUsable(lookup.info) then None
    else if !HistoryReadable(lookup.history) then None
    else
      var user := lookup.info.value.result.value[0];
      var history := lookup.history.value;
      var events := Events(history);
      var change := if |events| > 0 then events[|events| - 1].newRating - events[|events| - 1].oldRating else 0;
      Some(Record(
        user.handle,
        NumberOrZero(user.rating),
        NumberOrZero(user.maxRating),
        RankOrUnrated(user.rank),
        user.titlePhoto,
        change,
        if history.status == Ok then |history.result.value| else 0,
        user.lastOnlineTimeSeconds))
  }

  /** The primary reply is required: without it there is no record,
      whatever the history says. */
  lemma PrimaryRequired(lookup: Lookup)
    requires !PrimaryUsable(lookup.info)
    ensures FetchUserInfo(lookup) == None
  {
  }

  /** The record's profile fields come from the first user of the primary
      reply, with absent numbers as 0 and an absent or empty rank as
      "unrated"; they do not depend on the history reply. */
  lemma ProfileFields(lookup: Lookup, history: Option<RatingReply>)
    requires FetchUserInfo(lookup).Some?
    requires HistoryReadable(history)
    ensures var r := FetchUserInfo(lookup).value;
      var user := lookup.info.value.result.value[0];
      var other := FetchUserInfo(Lookup(lookup.info, history));
      && r.username == user.handle
      && r.rating == (if user.rating.Some? then user.rating.value else 0)
      && r.maxRating == (if user.maxRating.Some? then user.maxRating.value else 0)
      && (user.rank.Some? && user.rank.value != "" ==> r.rank == user.rank.value)
      && (user.rank.None? || user.rank.value == "" ==> r.rank == Unrated)
      && r.titlePhoto == user.titlePhoto && r.lastOnlineTime == user.lastOnlineTimeSeconds
      && other.Some?
      && other.value == r.(ratingChange := other.value.ratingChange, contestCount := other.value.contestCount)
  {
  }

  /** History is an enrichment: a history reply whose status is not OK
      still gives a record, with a change of 0 and no contests. */
  lemma HistoryBestEffort(lookup: Lookup)
    requires PrimaryUsable(lookup.info)
    requires lookup.history.Some? && lookup.history.value.status != Ok
    ensures FetchUserInfo(lookup).Some?
    ensures FetchUserInfo(lookup).value.ratingChange == 0
    ensures FetchUserInfo(lookup).value.contestCount == 0
  {
  }

  /** With an OK history, the change is that of the most recent contest,
      or 0 when there is none, and the contest count is the history's
      length. */
  lemma ChangeFromLastContest(lookup: Lookup)
    requires PrimaryUsable(lookup.info)
    requires lookup.history.Some? && lookup.history.value.status == Ok
    requires lookup.history.value.result.Some?
    ensures var events := lookup.history.value.result.value;
      var r := FetchUserInfo(lookup);
      && r.Some?
      && r.value.contestCount == |events|
      && (events == [] ==> r.value.ratingChange == 0)
      && (events != [] ==> r.value.ratingChange == events[|events| - 1].newRating - events[|events| - 1].oldRating)
  {
  }
}
