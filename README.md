# BetterBlend core, modelled in Dafny

BetterBlend pairs two listeners of a streaming service in a *blend
session*. A creator opens the session under a six-character code. A
partner joins it with that code, or with a link that contains
"/join/<code>". The server then does three things:

- It caches both listeners' top tracks, top artists and audio features per
  time window.
- It computes a compatibility analysis: the Jaccard similarity of the two
  artist sets, the shared artists, a 0-100 score, average audio profiles,
  rule-based personality insights and the shared tracks.
- It generates one blended playlist. The playlist interleaves each side's
  most popular tracks in a configured ratio, and it is created on both
  accounts.

This project models that core and proves what it promises:

- the ranking, capping, deduplication and interleaving rules of the
  playlist blender;
- the bounds and rules of the compatibility engine;
- the order of the access guards;
- the cache merge;
- the session state machine: create, join, lazy expiry on read, and
  bounded configuration updates;
- the join form's code extraction;
- the token-refresh and status-classification decisions of the service
  client;
- the swipe logic of the time-period picker.

Modules, in dependency order:

- `Wrappers`: `Option` and `Result`.
- `Trpc`: error codes.
- `Catalog`: tracks, artists, audio features and the per-listener cache.
- `JsNumber`: `Math.round` and `Math.abs` over reals.
- `Seqs`: `filter`, `slice(0, n)`, subsequences and distinct keys.
- `StableSort`: `Array.prototype.sort` with a descending numeric comparator, which is stable.
- `KeyedList`: the insertion-ordered `Map` and object semantics the source relies on.
- `Blender`: `generateBlendedPlaylist`.
- `Compatibility`: the analysis in `calculateInsights` and `generatePersonalityInsights`.
- `Batching`: slices of 100 ids towards the service.
- `JoinCode`: the join page.
- `Sessions`: the session router, with class `SessionStore`.
- `BlendRouter`: the blend router's three procedures, as methods on the store.
- `SpotifyAuth`: the service client's decisions, with class `AccountStore`.
- `Timeline`: the picker, with class `Picker`.

Modelling conventions:

- The database is a map field of a class, updated in place by methods.
- The current time, generated ids, nanoid's output and the service's answers are parameters.
- Session times are milliseconds, as JavaScript `Date` arithmetic gives them.
- Token times are seconds, as `Math.floor(Date.now() / 1000)` gives them.
- Ratios, popularity means and audio-feature values are exact reals.
- `Math.round(x)` is `Floor(x + 0.5)`.

## Model

| member | source | states |
|---|---|---|
| Blender.CreatorCount | src/server/api/routers/blend.ts:598-599 | creatorCount = Math.round(length·ratio), within [0, length] and within 0.5 of length·ratio |
| Blender.Interleave | src/server/api/routers/blend.ts:622-632 | the interleaving is exactly as long as both sides together (that it is a permutation of them is InterleaveMultiset) |
| Blender.InterleaveTracks | src/server/api/routers/blend.ts:621-632 | the index loop appending c[i] then p[i] up to the longer length produces exactly Interleave(c, p) |
| Blender.GenerateBlendedPlaylist | src/server/api/routers/blend.ts:591-635 | the procedure, step by step, returns the specification BlendedPlaylist: dedup, drop partner ids, sort, take the counts, interleave, slice |
| Blender.InterleaveMultiset | src/server/api/routers/blend.ts:622-632 | the interleaving is a permutation of the two sides together |
| Blender.InterleaveAt | src/server/api/routers/blend.ts:622-632 | position 2k holds c[k] and 2k+1 holds p[k] while both sides last |
| Blender.InterleaveTail | src/server/api/routers/blend.ts:622-632 | after the pairs comes the leftover tail of the longer side |
| Blender.InterleaveDistinct | src/server/api/routers/blend.ts:622-632 | interleaving two id-distinct sides with no id in common yields no repeated id |
| Blender.BlendCounts | src/server/api/routers/blend.ts:598-634 | the creator gives min(round(length·ratio), available) tracks, the partner min(length − round(length·ratio), available); no side is backfilled and the playlist has at most `length` tracks |
| Blender.BlendShape | src/server/api/routers/blend.ts:614-634 | the playlist is c0,p0,c1,p1,… followed by the leftover tail of the longer selection |
| Blender.SelectionRanked | src/server/api/routers/blend.ts:614-619 | each side's selection is in non-increasing popularity, and any candidate left out is no more popular than every selected one |
| Blender.SelectionSources | src/server/api/routers/blend.ts:602-619 | a creator-side track is the creator's last record for its id and its id is not on the partner's list; a partner-side track is the partner's last record for its id |
| Blender.BlendSources | src/server/api/routers/blend.ts:602-634 | every playlist track is a record of an input; a track whose id the partner has is the partner's record, any other the creator's |
| Blender.BlendDistinct | src/server/api/routers/blend.ts:602-634 | no track id appears twice in the playlist |
| Blender.BlendEmptyLength | src/server/api/routers/blend.ts:598-634 | a target length of 0 gives the empty playlist |
| Blender.BlendScenario | src/server/api/routers/blend.ts:591-635 | creator [A90, B50], partner [B80, C60], ratio 0.5, length 2 give [A90, B80]: the shared B is attributed to the partner |
| StableSort.InsertPos | src/server/api/routers/blend.ts:614-619 | the insertion point splits a sorted list into keys ≥ x and keys < x |
| StableSort.InsertSorted | src/server/api/routers/blend.ts:614-619 | inserting into a sorted list keeps it sorted and adds exactly the element |
| StableSort.SortDesc | src/server/api/routers/blend.ts:614-619 | sort((a, b) => b.popularity − a.popularity): a permutation of the input in non-increasing key order |
| StableSort.SortPair | src/server/api/routers/blend.ts:614-619 | two elements already in order are left as they are |
| StableSort.SortIsStable | src/server/api/routers/blend.ts:614-619 | elements with equal keys keep their input order (ECMAScript requires a stable sort) |
| StableSort.SortDistinct | src/server/api/routers/blend.ts:614-619 | sorting keeps a list free of duplicate ids |
| StableSort.TakeIsTop | src/server/api/routers/blend.ts:614-619 | slice(0, n) of the sorted list holds the n highest-ranked elements |
| KeyedList.Upsert | src/server/api/routers/blend.ts:602-607 | Map.set: an existing key is replaced in place, a new key appended, keys of earlier entries unchanged |
| KeyedList.Lookup | src/server/api/routers/blend.ts:602-607 | the record found under a key is one of the list's records with that key, and none means no record has it |
| KeyedList.LookupIsLast | src/server/api/routers/blend.ts:602-607 | the lookup finds the last record carrying the key |
| KeyedList.UpsertAll | src/server/api/routers/blend.ts:139-146 | setting every record in order keeps the old keys in place and holds only old or new records |
| KeyedList.UpsertAllDistinct | src/server/api/routers/blend.ts:139-146 | the merged object holds one record per id |
| KeyedList.LookupUpsertAll | src/server/api/routers/blend.ts:139-146 | after the merge an id holds its last new record, or its old record when no new one came |
| KeyedList.Dedup | src/server/api/routers/blend.ts:602-607 | new Map(…).values() holds no more records than the input, each one from the input |
| KeyedList.DedupIsLastWins | src/server/api/routers/blend.ts:602-607 | deduplication leaves one record per id, the last one listed for it |
| KeyedList.DedupKeys | src/server/api/routers/blend.ts:602-607 | deduplication keeps every id and adds none |
| KeyedList.DedupMember | src/server/api/routers/blend.ts:602-607 | each record kept is the input's last record for its id |
| KeyedList.FirstIndex | src/server/api/routers/blend.ts:602-607 | the first position holding the key, or the length when no record has it |
| KeyedList.UpsertKeys | src/server/api/routers/blend.ts:602-607 | Map.set on a present key keeps the key order; on a new key it appends the key |
| KeyedList.UpsertAllKeys | src/server/api/routers/blend.ts:602-607 | setting records in order keeps the old keys first and appends the new keys in the order they first occur |
| KeyedList.DedupOrder | src/server/api/routers/blend.ts:602-607 | `new Map(...)` keeps each id where it first occurs: kept records are ordered by their ids' first positions in the input |
| KeyedList.LookupFindsKeys | src/server/api/routers/blend.ts:609-611 | `Set.has` on the ids agrees with a lookup by id |
| Seqs.Filter | src/server/api/routers/blend.ts:610-611 | filter keeps only elements meeting the predicate, each from the input |
| Seqs.FilterMembers | src/server/api/routers/blend.ts:610-611 | an element is kept exactly when it is in the input and meets the predicate |
| Seqs.FilterPosition | src/server/api/routers/blend.ts:610-611 | a kept element sits in the result right after the kept elements that precede it in the input |
| Seqs.FilterIsSubsequence | src/server/api/routers/blend.ts:328-331 | filter keeps the input order |
| Seqs.FilterDistinct | src/server/api/routers/blend.ts:610-611 | filtering keeps a list free of duplicate ids |
| Seqs.Take | src/server/api/routers/blend.ts:634 | slice(0, n): the first min(n, length) elements |
| Seqs.PrefixIsSubsequence | src/server/api/routers/blend.ts:330-331 | a prefix of an order-preserving selection is order-preserving |
| Compatibility.Jaccard | src/server/api/routers/blend.ts:239-246 | \|A∩B\| / \|A∪B\|, 0 for an empty union, always within [0, 1] |
| Compatibility.JaccardZero | src/server/api/routers/blend.ts:239-246 | the similarity is 0 exactly when the artist sets are disjoint |
| Compatibility.JaccardOne | src/server/api/routers/blend.ts:239-246 | the similarity is 1 exactly when the artist sets are equal and non-empty |
| Compatibility.FindById | src/server/api/routers/blend.ts:251-253 | partnerArtists.find by id: a partner artist with that id, and none exactly when the partner lacks the id |
| Compatibility.FindIsFirst | src/server/api/routers/blend.ts:251-253 | find returns the first partner artist with the id |
| Compatibility.Annotate | src/server/api/routers/blend.ts:250-256 | each shared artist carries (creator popularity + partner popularity)/2 |
| Compatibility.SharedArtists | src/server/api/routers/blend.ts:249-259 | at most 10 shared artists |
| Compatibility.SharedArtistsSound | src/server/api/routers/blend.ts:249-259 | each shared artist is a creator artist the partner has, carries the mean popularity, the list is sorted by it and holds min(10, shared count) entries |
| Compatibility.SharedArtistsTop | src/server/api/routers/blend.ts:257-259 | a shared artist left out of the ten ranks no higher than any listed |
| Compatibility.CompatibilityScore | src/server/api/routers/blend.ts:261-263 | round(J·70 + 3·\|shared\|) lies in [0, 100] |
| Compatibility.ScoreDisjoint | src/server/api/routers/blend.ts:239-263 | disjoint artist sets score 0 |
| Compatibility.ScoreIdentical | src/server/api/routers/blend.ts:239-263 | identical non-empty lists of n artists score 70 + 3·min(n, 10) |
| Compatibility.AverageFeatures | src/server/api/routers/blend.ts:266-319 | the average profile is null exactly when the cached feature map is empty |
| Compatibility.MeanBounds | src/server/api/routers/blend.ts:269-294 | a mean lies between the least and greatest value averaged |
| Compatibility.AverageInUnit | src/server/api/routers/blend.ts:266-319 | feature records in [0, 1] average to a profile in [0, 1] |
| Compatibility.AverageScenario | src/server/api/routers/blend.ts:269-273 | danceability 0.2 and 0.8 average to exactly 0.5 |
| Compatibility.PersonalityInsights | src/server/api/routers/blend.ts:683-750 | the step-by-step appends return exactly the rule list Insights(c, p) |
| Compatibility.InsightsMissing | src/server/api/routers/blend.ts:703-705 | the result is exactly ["Not enough data to generate insights"] iff either average is null |
| Compatibility.InsightsEnergy | src/server/api/routers/blend.ts:710-719 | the first insight is exactly one of the three energy messages, chosen by a difference above 0.2, and no later insight is an energy message |
| Compatibility.InsightsOptional | src/server/api/routers/blend.ts:722-747 | the valence, danceability and acousticness insights appear exactly when their rules fire |
| Compatibility.InsightsOrder | src/server/api/routers/blend.ts:707-749 | one to four insights, the optional ones in rule order |
| Compatibility.InsightsScenario | src/server/api/routers/blend.ts:710-719 | energy 0.9 against 0.3 names the creator as the energetic one |
| Compatibility.SharedTracksSound | src/server/api/routers/blend.ts:328-331 | shared tracks are at most 10 partner tracks with creator ids, in partner order, and when fewer than 10 are listed every such track is |
| Compatibility.SharedTracksFirstTen | src/server/api/routers/blend.ts:328-331 | slice(0, 10) keeps the first ten: a qualifying partner track with fewer than ten qualifying ones before it is listed, at the position their count gives |
| Compatibility.Analyse | src/server/api/routers/blend.ts:239-331 | the stored analysis: score in [0, 100], at most 10 shared artists and tracks, an average null iff that listener has no features |
| Batching.Batches | src/server/api/routers/blend.ts:558-561 | slices of 100: they concatenate back to the ids, number ceil(n/100), hold 1 to 100 ids each, all but the last exactly 100 |
| Batching.Present | src/server/api/routers/blend.ts:581-585 | dropping nulls never lengthens an answer |
| Batching.PresentMembers | src/server/api/routers/blend.ts:581-585 | a record is kept exactly when the answer holds it |
| Batching.FetchAudioFeatures | src/server/api/routers/blend.ts:551-589 | no call for no ids; otherwise one call per batch of 1 to 100 ids, all but the last full and covering the ids in order; the outcome is Collected: every non-null answer kept, or the first failed call's error |
| Batching.CollectedFirstFailure | src/server/api/routers/blend.ts:567-584 | gathering fails exactly when some batch call fails, and then with the error of the first failed call |
| Batching.CollectedPrefixFailure | src/server/api/routers/blend.ts:567-584 | once a call has failed, the later batches do not change the outcome |
| Batching.CollectedCount | src/server/api/routers/blend.ts:558-585 | with at most one answer per id, a successful gathering has no more records than ids |
| Batching.CollectedSound | src/server/api/routers/blend.ts:558-585 | every record a successful gathering holds is a non-null entry of a successful answer to one of the batches |
| Batching.TrackUri | src/server/api/routers/blend.ts:657 | "spotify:track:" followed by the id |
| Batching.TrackUris | src/server/api/routers/blend.ts:657 | one URI per track, in order |
| Batching.TrackUriInjective | src/server/api/routers/blend.ts:657 | URIs are equal exactly when the ids are |
| BlendRouter.Guard | src/server/api/routers/blend.ts:62-81 | the guard passes exactly for an existing session, a member caller and a joined partner, and yields that session |
| BlendRouter.GuardErrors | src/server/api/routers/blend.ts:62-81 | NOT_FOUND for a missing session, else FORBIDDEN for a non-member, else BAD_REQUEST when no partner has joined |
| BlendRouter.MergeCacheEffect | src/server/api/routers/blend.ts:113-166 | a fetch replaces only the active window's lists; feature ids keep their records unless freshly fetched, in which case the last fetched record wins; the cache stays keyed by id |
| BlendRouter.MergeCacheIdempotent | src/server/api/routers/blend.ts:128-166 | merging the same fetch twice stores what merging it once stores |
| BlendRouter.TrackIds | src/server/api/routers/blend.ts:95-96 | tracks.map(t => t.id) |
| BlendRouter.FetchSessionData | src/server/api/routers/blend.ts:47-174 | guard errors and top-list errors change nothing; the creator's features are fetched first, and a failed batch for either listener returns its error (the creator's first) and stores nothing; otherwise the session's caches are merged with the fetched lists and the features gathered from the batches of the fetched track ids |
| BlendRouter.CalculateInsights | src/server/api/routers/blend.ts:179-372 | guard errors, then BAD_REQUEST "fetch data first" when any of the four lists is empty; otherwise the analysis of the cached data is returned and stored, and nothing else changes |
| BlendRouter.AnalysisKeepsSession | src/server/api/routers/blend.ts:334-360 | storing the analysis keeps the session's data, configuration and state |
| BlendRouter.PlaylistName | src/server/api/routers/blend.ts:650 | "Blend with " and the other listener's name, or "Partner" |
| BlendRouter.CreateSpotifyPlaylist | src/server/api/routers/blend.ts:637-681 | a failed creation uploads nothing; otherwise every track URI is uploaded in order, in ceil(n/100) batches of 1 to 100, all but the last full |
| BlendRouter.PlaylistOfBounds | src/server/api/routers/blend.ts:413-436 | the configured blend has at most playlistLength (default 50) tracks and no repeated id |
| BlendRouter.GeneratePlaylist | src/server/api/routers/blend.ts:377-488 | guard errors; BAD_REQUEST when either track list is empty or either service id is missing, with no creation and no upload; the blend with ratio 0.5 and length 50 unless configured; each playlist that is created receives every URI of that blend in order in batches of at most 100, the other none; a failed creation is returned as is (the creator's first); on success the session is GENERATED with both playlists |
| JsNumber.Round | src/server/api/routers/blend.ts:263 | Math.round: within half of x, halves upward |
| JsNumber.Abs | src/server/api/routers/blend.ts:710 | Math.abs |
| JsNumber.RoundOfInteger | src/server/api/routers/blend.ts:263 | rounding an integer leaves it |
| Sessions.NewSession | src/server/api/routers/session.ts:19-39 | the created record is PENDING, owned by the caller, without partner, expiring 24 hours after creation |
| Sessions.ShareUrlRoundTrip | src/server/api/routers/session.ts:37 | the join form extracts from its share link a code generated from letters and digits |
| Sessions.NanoidCodeUnjoinable | src/server/api/routers/session.ts:19 | as written: generated "ab-cde" gives code "AB-CDE"; its share link leads the form to "/join/AB" and the bare code is refused |
| Sessions.AlphanumericCodeJoinable | src/server/api/routers/session.ts:19-37 | corrected: an alphanumeric six-character code joins through both its link and the bare code |
| Sessions.LinkStopsAtNonAlnum | src/app/join/page.tsx:27-30 | a link's code is read only up to the first character that is not a letter or digit |
| Sessions.JoinChecks | src/server/api/routers/session.ts:75-119 | a past expiry fails first and stores EXPIRED; then the creator is refused; then a session with another partner |
| Sessions.JoinSucceeds | src/server/api/routers/session.ts:83-127 | join succeeds exactly for a live session not created by the caller whose partner id is absent, the falsy "", or the caller; the answer is the stored record with the caller as partner |
| Sessions.JoinAttaches | src/server/api/routers/session.ts:122-127 | a first join sets partnerId and ACTIVE and nothing else |
| Sessions.JoinIdempotent | src/server/api/routers/session.ts:103-108 | joining again as the partner before expiry answers the session unchanged |
| Sessions.JoinKeepsIdentity | src/server/api/routers/session.ts:83-127 | join never changes id, code, creator, expiry or configuration |
| Sessions.GetReads | src/server/api/routers/session.ts:210-224 | only members read; a read past expiry stores and answers EXPIRED, and otherwise nothing changes |
| Sessions.GetIdempotent | src/server/api/routers/session.ts:218-224 | reading twice stores what reading once stores |
| Sessions.ValidateConfig | src/server/api/routers/session.ts:253-261 | the input is accepted exactly when a given ratio is in [0.3, 0.7], a given length in [25, 100] and a given time range one of three names |
| Sessions.ApplyConfigChangesOnlySupplied | src/server/api/routers/session.ts:286-289 | only the supplied fields change, and the configuration stays in bounds |
| Sessions.ApplyConfigIdempotent | src/server/api/routers/session.ts:286-289 | an empty update changes nothing; applying an update twice is applying it once |
| Sessions.ReplaceKeepsWellFormed | src/server/api/routers/session.ts:122-127 | rewriting a record with the same id and code keeps the store keyed, codes unique and configurations in bounds |
| Sessions.SessionStore.constructor | src/server/api/routers/session.ts:16-40 | the empty store is well formed |
| Sessions.SessionStore.Create | src/server/api/routers/session.ts:16-40 | stores NewSession under the upper-cased code and answers id, code, "/join/"+code and the expiry; a duplicate id or code fails and stores nothing |
| Sessions.SessionStore.Join | src/server/api/routers/session.ts:46-156 | an empty code is invalid input; an unknown code is NOT_FOUND; otherwise the found record becomes JoinStep's record and the answer is JoinStep's |
| Sessions.SessionStore.Get | src/server/api/routers/session.ts:161-246 | BAD_REQUEST without id or code, NOT_FOUND without a match, otherwise GetStep on a record the id or code designates; a success is a member's designated session |
| Sessions.SessionStore.UpdateConfig | src/server/api/routers/session.ts:251-297 | invalid input, NOT_FOUND and FORBIDDEN come in that order and change nothing; valid input from a member on an existing session succeeds, and then only the supplied fields change, without any check of status or expiry |
| JoinCode.Upper | src/app/join/page.tsx:29 | toUpperCase makes alphanumerics upper-case and leaves upper-case ones alone |
| JoinCode.UpperAll | src/app/join/page.tsx:29 | upper-cases each character in place |
| JoinCode.TrimStart | src/app/join/page.tsx:24 | the result starts with a non-space or is empty |
| JoinCode.TrimEnd | src/app/join/page.tsx:24 | the result ends with a non-space or is empty |
| JoinCode.FindLink | src/app/join/page.tsx:27 | the leftmost position where /\/join\/([A-Z0-9]+)/i matches, or none anywhere |
| JoinCode.RunLength | src/app/join/page.tsx:27 | the greedy + run: every character alphanumeric, and the next one not |
| JoinCode.Extract | src/app/join/page.tsx:22-39 | a result is a non-empty upper-case alphanumeric string |
| JoinCode.ExtractBareCode | src/app/join/page.tsx:33-36 | a six-alphanumeric code comes back upper-cased, and an upper-case one unchanged |
| JoinCode.BareCodeExactlySix | src/app/join/page.tsx:33-38 | without a link a code is found exactly when the trimmed input is six alphanumerics |
| JoinCode.NoSlashNoLink | src/app/join/page.tsx:27-38 | text without '/' falls through to the bare-code rule |
| JoinCode.ExtractFromLink | src/app/join/page.tsx:27-30 | text before the first "/join/" and after the code is ignored; the whole alphanumeric run is the code, upper-cased |
| JoinCode.ExtractOwnLink | src/app/join/page.tsx:27-30 | "/join/" + an upper-case code extracts that code |
| JoinCode.ExtractIgnoresWhitespace | src/app/join/page.tsx:24 | leading and trailing whitespace does not change the result |
| JoinCode.TrimEmptyIffWhitespace | src/app/join/page.tsx:45 | the trimmed input is empty exactly when the input is all whitespace |
| JoinCode.HandleSubmitOutcomes | src/app/join/page.tsx:41-58 | blank input asks for a code, unusable input reports the format, otherwise the form navigates to "/join/" + the code, which extracts to the same code |
| SpotifyAuth.Split | src/server/api/utils/spotify.ts:36 | split(" ") gives at least one piece, none containing a space |
| SpotifyAuth.SplitJoin | src/server/api/utils/spotify.ts:36 | joining the pieces with spaces restores the text |
| SpotifyAuth.JoinSplit | src/server/api/utils/spotify.ts:36 | splitting a join of space-free pieces gives the pieces back |
| SpotifyAuth.MissingScopesExact | src/server/api/utils/spotify.ts:35-39 | a required scope is missing exactly when the stored scope string lacks it, in REQUIRED_SCOPES order |
| SpotifyAuth.AllScopesGranted | src/server/api/utils/spotify.ts:7-39 | the five required scopes granted leave none missing |
| SpotifyAuth.NeedsRefreshExact | src/server/api/utils/spotify.ts:48-51 | a refresh is due iff expires_at is non-zero and now ≥ expires_at − 300; null or 0 never refreshes |
| SpotifyAuth.Refreshed | src/server/api/utils/spotify.ts:64-71 | the new token, expires_at = clock + expires_in, and the old refresh token when none is returned |
| SpotifyAuth.RefreshedIsFresh | src/server/api/utils/spotify.ts:48-71 | a refreshed token is due for refresh only within 300 s of its new expiry |
| SpotifyAuth.PlanCases | src/server/api/utils/spotify.ts:20-89 | the stored token is used iff no refresh is due and one is stored; a refresh is tried iff one is due and a refresh token is stored; otherwise UNAUTHORIZED; scopes never change the decision |
| SpotifyAuth.AccountStore.constructor | src/server/api/utils/spotify.ts:20-25 | the store holds the given accounts |
| SpotifyAuth.AccountStore.GetAccessToken | src/server/api/utils/spotify.ts:19-90 | the planned outcome; a failed refresh is INTERNAL_SERVER_ERROR and stores nothing; a successful one stores Refreshed; the scope warning is returned beside it |
| SpotifyAuth.ClassifyExact | src/server/api/utils/spotify.ts:143-182 | 401 → UNAUTHORIZED, 403 → FORBIDDEN, 429 → TOO_MANY_REQUESTS, any other non-ok → INTERNAL_SERVER_ERROR, ok → the body |
| SpotifyAuth.RateLimitDefault | src/server/api/utils/spotify.ts:166-172 | without Retry-After the hint is 60 seconds |
| SpotifyAuth.ApiRequest | src/server/api/utils/spotify.ts:127-183 | the token outcome decides: a usable stored token or a successful refresh calls the service with that token and classifies the answer; a refused token (no account, no refresh token, no access token) is its UNAUTHORIZED error with no call; a failed refresh is INTERNAL_SERVER_ERROR; the accounts change only by a successful refresh |
| Timeline.IndexOf | src/components/blend/TimePeriodTimeline.tsx:11-40 | findIndex is within [0, 2] and finds the value |
| Timeline.IndexOfPeriod | src/components/blend/TimePeriodTimeline.tsx:11-40 | each period has one index |
| Timeline.SwipeTargetCases | src/components/blend/TimePeriodTimeline.tsx:51-64 | a gesture moves the choice iff both ends are truthy and it travels more than 50 px towards an existing period; left goes to the next, right to the previous |
| Timeline.UnrecordedSelectsNothing | src/components/blend/TimePeriodTimeline.tsx:42-52 | a tap without move, and a start or end at x = 0, change nothing |
| Timeline.ShortOrOutwardSelectsNothing | src/components/blend/TimePeriodTimeline.tsx:54-63 | \|start − end\| ≤ 50 changes nothing, nor does swiping past either end |
| Timeline.SwipeBack | src/components/blend/TimePeriodTimeline.tsx:58-63 | swiping back along the same path undoes a swipe |
| Timeline.FractionalSwipe | src/components/blend/TimePeriodTimeline.tsx:51-64 | fractional coordinates: a 50.5 px swipe moves the choice, a start at 0.4 counts as recorded, and exactly 50 px does not move it |
| Timeline.Picker.constructor | src/components/blend/TimePeriodTimeline.tsx:36-37 | the picker starts on the given value with no touch recorded |
| Timeline.Picker.TouchStart | src/components/blend/TimePeriodTimeline.tsx:42-45 | touchEnd is reset and touchStart recorded |
| Timeline.Picker.TouchMove | src/components/blend/TimePeriodTimeline.tsx:47-49 | touchEnd recorded, nothing else changes |
| Timeline.Picker.TouchEnd | src/components/blend/TimePeriodTimeline.tsx:51-64 | the value moves to the swipe target, if any |
| Timeline.Picker.Select | src/components/blend/TimePeriodTimeline.tsx:90 | a tap on a marker selects its period |

## Left out

- Network I/O and persistence are left out. The service calls (top tracks, top artists, audio features, token refresh, playlist creation and uploads) are parameters holding their answers, or the error the request raised. The database is the store classes' map fields.
- The reshaping of service payloads in fetchUserTopTracks and fetchUserTopArtists is not part of this model. Fetched records are given in model form.
- `Promise.all` parallelism is left out. When both top-list fetches or both playlist creations fail, the creator's error is the one returned.
- nanoid's randomness, the database-generated session id and the clock are parameters. `setHours(getHours() + 24)` is modelled as exactly 24 hours in milliseconds, without daylight-saving shifts.
- IEEE-754 effects are left out. Jaccard, means, ratios, `Math.round` and the picker's touch coordinates are computed over exact reals.
- A failed database write or playlist upload is left out. It would raise an error after the answers modelled here.
- console.warn is left out. The missing-scope warning is returned as an extra output.
- The response views of the procedures are not modelled (creator and partner projections, and stored sharedArtists/sharedTracks flattened for display). The model returns the stored records.
- The blend procedures never check a session's expiry or status in the source. The model keeps that.
- `Object.values` orders integer-like keys first. The model keeps insertion order for the feature map.
- BlendRouter.GeneratePlaylist: a missing user row is read as "no service id". It fails with BAD_REQUEST "Spotify IDs not found for both users", as a null column does.
- Blender.CreatorCount: playlistLength is a whole number here. The validator checks only min(25) and max(100), not `.int()`, so it also accepts fractional lengths such as 30.5; those are not modelled (the customize page offers only 25, 50 and 100).
- Sessions.ValidateConfig: takes playlistLength as a whole number, so the fractional lengths the validator accepts are not modelled.
- Sessions.SessionStore.UpdateConfig: takes playlistLength as a whole number, so it cannot store the fractional lengths the validator accepts.
- BlendRouter.FetchSessionData: a creator failure returns before the partner's features are requested; the partner's batch answers are a parameter, so the model shows only that the creator's error wins.
- Sessions.SessionStore.Create: the table's uniqueness failure is given the code INTERNAL_SERVER_ERROR. The source lets the database exception escape.
- Sessions.SessionStore.Get: when the id and the code designate different records, `findFirst` picks one of them. The model does not say which.
- SpotifyAuth.AccountStore.GetAccessToken: `at` is the clock when the refresh answer arrives. It may differ from `now`, as the source reads `Date.now()` twice.
- Timeline: the component's rendering, animation and layout are left out. Only its state and handlers are modelled.

## Findings

| source | as written | input that shows it | evidently intended | confidence | as-written member | corrected member |
|---|---|---|---|---|---|---|
| src/server/api/routers/session.ts:19 | the session code is `nanoid(6).toUpperCase()`, and nanoid's default alphabet includes '-' and '_'; the join form (src/app/join/page.tsx:27-36) accepts only letters and digits | the generated code "ab-cde" becomes "AB-CDE": its share link "/join/AB-CDE" leads the form to "/join/AB", and the bare code is refused as badly formatted | codes drawn from letters and digits only, so that both the link and the bare code reach the session | not executed | Sessions.NanoidCodeUnjoinable | Sessions.AlphanumericCodeJoinable |
