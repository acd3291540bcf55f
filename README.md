# Codeforces leaderboard — a Dafny model of its aggregation core

The leaderboard page reads a list of Codeforces handles from a Google
Sheet. It then looks up each handle's profile and rating history through
the Codeforces API, keeps the lookups that succeeded and sorts them by
rating, highest first. It shows three summary numbers (count, rounded
average, maximum) and can filter the rendered entries by rating band.
This project models that logic in Dafny, one module per concern:

- `Tiers` (tiers.dfy): `getRatingClass` and `getRatingTitle`. Both are
  checked against one reference definition: the tier of a rating is the
  number of tier floors it reaches.
- `Change` (change.dfy): `formatChange` and `getChangeClass`, with a
  decimal printer like JavaScript's `toString` and a parser that inverts
  `formatChange`.
- `Bands` (bands.dfy): the band test inside `filterLeaderboard`.
- `Directory` (directory.dfy): how `loadGoogleSheetsData` turns the sheet
  into handles, and its fallback list. JavaScript's `trim` is written out
  with its whitespace set.
- `Profile` (profile.dfy): how `fetchCodeforcesUserInfo` builds one record
  from the two parsed API replies.
- `Ranking` (ranking.dfy): the filter of successes and the stable sort in
  `updateLeaderboard`. The lemma `StableSortUnique` shows that any
  sequence that is sorted and keeps the order of equal ratings is the
  model's result. So the model does not depend on how the browser's sort
  is implemented.
- `Stats` (stats.dfy): `updateStats`.
- `Leaderboard` (leaderboard.dfy): the class `CodeforcesLeaderboard`. It
  has the fields `users`, `leaderboardData` and `isLoading`, and methods
  for loading the directory and for the guarded update pass.
  `updateLeaderboard` is split at its `await`. `BeginUpdate` is the busy
  guard. `FinishUpdate` filters, sorts and replaces the board, then lowers
  the flag. `OverlappingTriggers` shows that a trigger arriving during a
  pass is dropped.

The model follows the code, including these behaviours that a cleaner
design of the same page would not have:

- A sheet that was read but has only a header, or only blank rows, gives
  an empty directory. It does not fall back to the sample handles. Only a
  failed read or an absent or empty `values` field falls back.
- A kept handle is the untrimmed first cell. Trimming only decides whether
  the cell is blank.
- The history read is not fully best-effort. A history reply with a
  non-OK status gives a change of 0 and no contests. But if the second
  request is rejected, or its body is not JSON, the whole lookup returns
  null (script.js:144-145 are inside the `try`). The same happens when
  the status is OK but `result` is missing, because
  `ratingData.result.length` throws at script.js:160.
- An empty rank string also becomes `'unrated'`, because `||` treats `''`
  as false.
- After `Promise.allSettled`, nothing in `updateLeaderboard` can throw
  before `leaderboardData` is assigned. So the model has no path that
  keeps the previous board once a pass has started.

## Model

| member | source | states |
|---|---|---|
| Tiers.RatingClass | script.js:170-181 | the class is one of the ten tier class names; ClassAndTitleAtTier, TierExact and TierMonotone pin down which |
| Tiers.RatingTitle | script.js:183-194 | the title is one of the ten tier titles; ClassAndTitleAtTier and ClassAndTitleAgree tie it to the class at the same tier |
| Tiers.ClassAndTitleAtTier | script.js:170-194 | the class chain and the title chain both return their table's entry at the tier index, the number of floors the rating reaches |
| Tiers.TierBracket | script.js:170-180 | a rating has tier k iff it lies in [floor k-1, floor k) |
| Tiers.TierExact | script.js:170-194 | at every threshold, a rating gets the k-th class iff it lies in [floor k-1, floor k), and gets the k-th title iff it gets the k-th class |
| Tiers.ClassAndTitleAgree | script.js:170-194 | two ratings share a class iff they share a title iff they have the same tier |
| Tiers.TierMonotone | script.js:170-194 | a higher rating never gets a lower tier |
| Tiers.TierBoundaries | script.js:170-194 | 2999 is International Grandmaster, 3000 Legendary Grandmaster, 1199 Newbie, 1200 Pupil |
| Tiers.FloorsReachedBracket | script.js:170-180 | over increasing floors, the number reached is the unique k with floor k-1 <= rating < floor k |
| Change.Decimal | script.js:197-198 | the printed form of a natural number is non-empty, all digits, and starts with '0' only for zero |
| Change.FormatChange | script.js:196-200 | the rendering is never empty; FormatChangeRoundTrip and FormatChangeInjective show it is the signed canonical decimal of the change |
| Change.ChangeClass | script.js:202-206 | "positive" iff the change is positive, "negative" iff negative, "neutral" iff zero; SignAgreement ties it to the rendered sign |
| Change.DecimalRoundTrip | script.js:197-198 | reading the printed digits back gives the number |
| Change.FormatChangeRoundTrip | script.js:196-200 | parsing the rendered change gives the change back, for every integer |
| Change.FormatChangeInjective | script.js:196-200 | different changes are rendered as different strings |
| Change.SignAgreement | script.js:196-206 | a leading '+' goes with "positive" and a positive change; '-' with "negative" and a negative one; "0" with "neutral" |
| Bands.Display | script.js:252-282 | one visibility flag per entry, in board order, each set by the band test on that entry's rating |
| Bands.Shows | script.js:261-278 | any filter value outside the four band names shows the entry; BandsPartition and BandsFollowTiers characterise the four bands |
| Bands.BandsPartition | script.js:261-273 | every rating is shown by at least one, and at most one, of the four band names |
| Bands.BandsFollowTiers | script.js:261-273 | newbie, pupil and specialist are exactly tiers 0, 1 and 2; expert is tier 3 and above |
| Bands.ShowAll | script.js:274-277 | under "all" or any other unknown value, every entry is shown |
| Directory.TrimStart | script.js:67 | the result is a suffix of the cell, the removed part is whitespace, and the result does not start with whitespace |
| Directory.TrimEnd | script.js:67 | the result is a prefix of the cell, the removed part is whitespace, and the result does not end with whitespace |
| Directory.Trim | script.js:67 | the trimmed cell neither starts nor ends with whitespace; TrimSlice shows it is the cell with a blank prefix and a blank suffix cut off |
| Directory.TrimSlice | script.js:67 | the trimmed cell is a middle slice of the cell whose cut-off prefix and suffix are all whitespace |
| Directory.TrimEmptyIffBlank | script.js:67 | trimming leaves nothing iff the cell is all whitespace |
| Directory.Keeps | script.js:67 | a row contributes a handle iff it has a first cell that is not all whitespace |
| Directory.KeptNames | script.js:67 | at most one handle per row, and no kept handle is blank |
| Directory.KeptNamesAppend | script.js:67 | parsing works row by row: concatenated rows give concatenated handles, so sheet order is kept |
| Directory.KeptNamesMembers | script.js:67 | a handle is listed iff some row has it as a non-blank first cell |
| Directory.UsesFallback | script.js:53-77 | a failed read (any throw the catch handles) or an absent or empty `values` falls back; otherwise the read answered with a `values` list of at least one row, so the header can be skipped |
| Directory.Users | script.js:61-77 | no handle in the directory is blank, the fallback list included; a read sheet gives fewer handles than it has rows; SheetUsers covers the read path |
| Directory.SheetUsers | script.js:61-67 | a read sheet never falls back; its header is skipped; a header-only sheet gives no handles |
| Profile.RankOrUnrated | script.js:157 | a present, non-empty rank is kept; otherwise the rank is "unrated" (never empty) |
| Profile.NumberOrZero | script.js:155-156 | the result is 0 iff the number is absent or 0, and a present number is kept |
| Profile.FetchUserInfo | script.js:137-166 | a record exists iff the primary reply is OK with a non-empty result and the history reply was read without throwing; contestCount is the number of OK history events |
| Profile.PrimaryRequired | script.js:137-139 | a missing, non-OK or empty primary reply gives null, whatever the history |
| Profile.ProfileFields | script.js:153-161 | handle, rating, max rating and passthroughs come from the first user with 0 defaults; a present non-empty rank is kept and an absent or empty one becomes "unrated"; none of these depend on the history reply |
| Profile.HistoryBestEffort | script.js:147-160 | a non-OK history still gives a record, with change 0 and 0 contests |
| Profile.ChangeFromLastContest | script.js:147-160 | with OK history, the change is newRating - oldRating of the last event (0 if none), and the contest count is the history length |
| Ranking.Successes | script.js:116-117 | the kept records are no more than the lookups |
| Ranking.SuccessCount | script.js:116-117 | number kept plus number failed equals number of lookups |
| Ranking.SuccessMembers | script.js:116-117 | a record is kept iff some lookup produced it |
| Ranking.SuccessesAppend | script.js:115-117 | the filter works lookup by lookup, so the lookups' order is kept |
| Ranking.InsertPermutes | script.js:118 | inserting adds exactly the inserted record |
| Ranking.InsertSorted | script.js:118 | inserting into a non-increasing sequence keeps it non-increasing |
| Ranking.InsertStable | script.js:118 | inserting keeps every equal-rating subsequence and puts the new record first in its own |
| Ranking.SortByRating | script.js:118 | the result is non-increasing by rating, a permutation of the input, and keeps the input order among equal ratings |
| Ranking.StableSortUnique | script.js:118 | two sequences that are both non-increasing and have the same equal-rating subsequences are equal |
| Ranking.Aggregate | script.js:115-118 | the new board is sorted, a permutation of the successes, stable, of length lookups minus failures, and holds exactly the records some lookup produced |
| Ranking.AggregateIsTheStableSort | script.js:108-118 | any sorted, stable ordering of the successes equals the aggregate |
| Stats.MaxRating | script.js:298 | the maximum is one of the ratings and at least every rating |
| Stats.SumRatings | script.js:297 | the reduce over the ratings; SumRatingsAppend and SumBounds state its properties |
| Stats.SumRatingsAppend | script.js:297 | the sum of a board split in two is the sum of the parts, so the reduction's order does not matter |
| Stats.RoundHalfUp | script.js:297 | the result a satisfies s/n - 1/2 < a <= s/n + 1/2, which is Math.round on the exact quotient |
| Stats.Summarize | script.js:284-302 | an empty board gives 0, 0, 0; otherwise count is the length, average is the half-up rounding of the mean, and maximum is a rating at least every rating |
| Stats.SumBounds | script.js:297 | the rating sum lies between n times any lower bound and n times any upper bound |
| Stats.AverageWithinRange | script.js:296-302 | the displayed average lies between the lowest and the highest rating |
| Stats.TwoUserExample | script.js:289-302 | ratings 1800 and 1200 give count 2, average 1500, maximum 1800 |
| Leaderboard.Settle | script.js:108-112 | one outcome per directory entry, in directory order, each from that entry's own request, so a handle listed twice can get two different outcomes |
| Leaderboard.CodeforcesLeaderboard.constructor | script.js:16-21 | a new controller has no handles, an empty board and is not loading |
| Leaderboard.CodeforcesLeaderboard.LoadGoogleSheetsData | script.js:47-81 | the error is reported iff the read failed or `values` is absent or empty; then the handles are the fallback list, otherwise the kept first cells after the header |
| Leaderboard.CodeforcesLeaderboard.BeginUpdate | script.js:99-105 | a trigger while loading changes nothing and reports no start; otherwise the flag is raised |
| Leaderboard.CodeforcesLeaderboard.FinishUpdate | script.js:112-129 | the board becomes the aggregate of the outcomes and the flag is lowered |
| Leaderboard.CodeforcesLeaderboard.UpdateLeaderboard | script.js:99-130 | a call while loading is a no-op; otherwise the board becomes the aggregate of the settled requests, one per current directory entry, and the flag ends lowered |
| Leaderboard.CodeforcesLeaderboard.Init | script.js:23-27 | the handles come from the sheet read, and then one pass replaces the board |
| Leaderboard.OverlappingTriggers | script.js:99-103 | of two triggers the first starts a pass and the second, arriving while it is in flight, is dropped; the board is that one pass's aggregate and the handles are unchanged |
| Leaderboard.EndToEndExample | script.js:108-118 | lookups rated 1200, 1800 and a failure give the board [1800, 1200] with count 2, average 1500, maximum 1800 |

## Left out

- The Google Sheets client (`loadGoogleAPI`, `gapi.client...`, script.js:53-59, 83-97) is network I/O. The model takes its outcome as a `SheetResponse` parameter.
- The Codeforces `fetch` and `response.json()` calls (script.js:134-135, 144-145) are network I/O. Each request's two replies are a `Lookup`, one per directory entry (so duplicate handles are looked up independently), where None means a rejected request or an unparsable body. A malformed reply object (for example a result that is not an array) is not modelled.
- The concurrency of `Promise.allSettled` is not modelled. `Settle` gives the outcomes in directory order, which is the order `allSettled` reports them in. `fetchCodeforcesUserInfo` catches every error and returns null, so a rejected settlement cannot occur; a null result and a failure are both None.
- Interleaving of a second `loadGoogleSheetsData` with an update pass is not modelled. The pass uses the handles present when it starts.
- The `setInterval` auto-refresh and the event listeners (script.js:28-44) are timers and UI wiring. `Init` covers only the load-then-update sequence of script.js:23-27.
- All DOM work is left out: the HTML of `renderLeaderboard` (script.js:208-250), the `style.display` writes of `filterLeaderboard`, `showLoading`, `showError`, `hideError` (script.js:305-331) and `window.onerror` (script.js:340-343). `updateStats`'s text writes are modelled as the `Summary` value they display. The error banner is the `failed` result of `LoadGoogleSheetsData`.
- `filterLeaderboard` reads the rating back from the rendered text with `parseInt`. The model applies the band test to the record's rating directly, which is the integer the text was printed from.
- Stats.Summarize: `Math.round(sum / n)` is computed in floating point in the source. The model uses exact integers, `(2*sum + n) / (2*n)`, so it does not capture rounding error in the float division. That error could only matter for sums beyond 2^53 or very long boards.
- Ratings are unbounded integers. JavaScript numbers are doubles, but Codeforces ratings are small integers, so they never lose precision. `Change.Decimal` prints plain digits for every size, which matches JavaScript's `toString` only below 10^21, where it switches to exponent form; ratings are far below that.
- Only the `titlePhoto` and `lastOnlineTime` passthroughs are carried, as optional values. Nothing is proved about them beyond being copied.
