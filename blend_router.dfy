/**
 * The blend procedures (src/server/api/routers/blend.ts): fetch both
 * listeners' top lists into the session's cache, analyse the cached data,
 * and generate the blended playlist on both accounts. The streaming
 * service's answers are parameters; the session store is the one the
 * session procedures keep.
 */
module BlendRouter {
  import opened Wrappers
  import opened Catalog
  import opened Trpc
  import opened Seqs
  import opened KeyedList
  import Blender
  import Compatibility
  import Batching
  import opened Sessions

  const PartnerMissingMessage := "Partner has not joined yet"
  const NotFetchedMessage := "Session data not fetched yet. Please fetch data first."
  const NoSpotifyIdsMessage := "Spotify IDs not found for both users"
  const FetchedMessage := "Data fetched and cached successfully"
  const DefaultPartnerName := "Partner"
  const PlaylistDescription := "Created with BetterBlend"

  const DefaultRatio: real := 0.5
  const DefaultLength: nat := 50

  // Access

  /** The checks every blend procedure makes first: the session exists, the caller belongs to it, a partner has joined. */
  function Guard(sessions: map<string, Session>, sessionId: string, userId: string): (r: Result<Session, Error>)
    ensures r.Success? <==>
      sessionId in sessions && IsMember(sessions[sessionId], userId) && Given(sessions[sessionId].partnerId)
    ensures r.Success? ==> r.value == sessions[sessionId]
  {
    if sessionId !in sessions then Failure(Error(NotFound, SessionNotFoundMessage))
    else
      var s := sessions[sessionId];
      if !IsMember(s, userId) then Failure(Error(Forbidden, NoAccessMessage))
      else if !Given(s.partnerId) then Failure(Error(BadRequest, PartnerMissingMessage))
      else Success(s)
  }

  /** Which check fails decides the error: NOT_FOUND, then FORBIDDEN, then BAD_REQUEST. */
  lemma GuardErrors(sessions: map<string, Session>, sessionId: string, userId: string)
    ensures var r := Guard(sessions, sessionId, userId);
      && (r == Failure(Error(NotFound, SessionNotFoundMessage)) <==> sessionId !in sessions)
      && (r == Failure(Error(Forbidden, NoAccessMessage)) <==>
            sessionId in sessions && !IsMember(sessions[sessionId], userId))
      && (r == Failure(Error(BadRequest, PartnerMissingMessage)) <==>
            sessionId in sessions && IsMember(sessions[sessionId], userId) && !Given(sessions[sessionId].partnerId))
  {
  }

  /** The window the procedures work on: the configured one, else the medium term. */
  function ActiveWindow(s: Session): TimeRange {
    s.timeRange.GetOr(MediumTerm)
  }

  // fetchSessionData

  /** `{...existing, ...incoming.reduce(by id)}`: existing ids keep their place, new ids follow, the new record wins. */
  function MergeFeatures(existing: seq<AudioFeatures>, incoming: seq<AudioFeatures>): seq<AudioFeatures> {
    UpsertAll(existing, Dedup(incoming, FeatureId), FeatureId)
  }

  /** The cache after a fetch for window `w`: that window's lists replaced, the feature records merged. */
  function MergeCache(c: ListenerCache, w: TimeRange, tracks: seq<Track>, artists: seq<Artist>, features: seq<AudioFeatures>): ListenerCache {
    ListenerCache(c.tracks[w := tracks], c.artists[w := artists], MergeFeatures(c.features, features))
  }

  /**
   * A fetch replaces the active window's lists and no other window's; after
   * it each track id holds its last freshly fetched record, or the record
   * it had; the ids already cached keep their positions, and the cache stays
   * keyed by id.
   */
  lemma MergeCacheEffect(c: ListenerCache, w: TimeRange, tracks: seq<Track>, artists: seq<Artist>, features: seq<AudioFeatures>)
    requires DistinctBy(c.features, FeatureId)
    ensures var m := MergeCache(c, w, tracks, artists, features);
      && TracksFor(m, w) == tracks && ArtistsFor(m, w) == artists
      && (forall v :: v != w ==> TracksFor(m, v) == TracksFor(c, v) && ArtistsFor(m, v) == ArtistsFor(c, v))
      && DistinctBy(m.features, FeatureId)
      && (forall i :: 0 <= i < |c.features| ==> FeatureId(m.features[i]) == FeatureId(c.features[i]))
    ensures forall k ::
      Lookup(MergeCache(c, w, tracks, artists, features).features, k, FeatureId)
        == if Lookup(features, k, FeatureId).Some? then Lookup(features, k, FeatureId) else Lookup(c.features, k, FeatureId)
  {
    var incoming := Dedup(features, FeatureId);
    UpsertAllDistinct(c.features, incoming, FeatureId);
    DedupIsLastWins(features, FeatureId);
    forall k
      ensures Lookup(MergeFeatures(c.features, features), k, FeatureId)
        == if Lookup(features, k, FeatureId).Some? then Lookup(features, k, FeatureId) else Lookup(c.features, k, FeatureId)
    {
      LookupUpsertAll(c.features, incoming, FeatureId, k);
    }
  }

  /** Fetching the same data twice stores what fetching it once stores. */
  lemma MergeCacheIdempotent(c: ListenerCache, w: TimeRange, tracks: seq<Track>, artists: seq<Artist>, features: seq<AudioFeatures>)
    requires DistinctBy(c.features, FeatureId)
    ensures var m := MergeCache(c, w, tracks, artists, features);
      forall k :: Lookup(MergeCache(m, w, tracks, artists, features).features, k, FeatureId) == Lookup(m.features, k, FeatureId)
    ensures var m := MergeCache(c, w, tracks, artists, features);
      MergeCache(m, w, tracks, artists, features).tracks == m.tracks
      && MergeCache(m, w, tracks, artists, features).artists == m.artists
  {
    MergeCacheEffect(c, w, tracks, artists, features);
    var m := MergeCache(c, w, tracks, artists, features);
    MergeCacheEffect(m, w, tracks, artists, features);
  }

  /** The four top lists, as the service returned them. */
  datatype TopLists = TopLists(
    creatorTracks: seq<Track>, creatorArtists: seq<Artist>,
    partnerTracks: seq<Track>, partnerArtists: seq<Artist>)

  function TrackIds(tracks: seq<Track>): (r: seq<string>)
    ensures |r| == |tracks|
    ensures forall i :: 0 <= i < |r| ==> r[i] == tracks[i].id
  {
    seq(|tracks|, i requires 0 <= i < |tracks| => tracks[i].id)
  }

  /** The session after a fetch of `top` and of the feature records `cf` and `pf`. */
  function Fetched(s: Session, top: TopLists, cf: seq<AudioFeatures>, pf: seq<AudioFeatures>): Session {
    var w := ActiveWindow(s);
    s.(creatorData := MergeCache(s.creatorData, w, top.creatorTracks, top.creatorArtists, cf),
       partnerData := MergeCache(s.partnerData, w, top.partnerTracks, top.partnerArtists, pf))
  }

  /**
   * fetchSessionData: `top` is the combined answer of the four top-list
   * calls (or the error one of them raised), `creatorFetch` and
   * `partnerFetch` answer one audio-feature batch with each listener's token
   * (or raise the request's error). The creator's features are fetched
   * first; any error aborts the procedure before the session is written.
   */
  method FetchSessionData(store: SessionStore, userId: string, sessionId: string, top: Result<TopLists, Error>,
                          creatorFetch: Batching.FeatureCall, partnerFetch: Batching.FeatureCall)
    returns (r: Result<string, Error>,
             creatorFeatures: Result<seq<AudioFeatures>, Error>, partnerFeatures: Result<seq<AudioFeatures>, Error>)
    requires store.Valid()
    modifies store
    ensures store.Valid()
    ensures Guard(old(store.sessions), sessionId, userId).Failure? ==>
      r == Failure(Guard(old(store.sessions), sessionId, userId).error) && store.sessions == old(store.sessions)
    ensures Guard(old(store.sessions), sessionId, userId).Success? && top.Failure? ==>
      r == Failure(top.error) && store.sessions == old(store.sessions)
    ensures Guard(old(store.sessions), sessionId, userId).Success? && top.Success? ==>
      && (exists b :: Batching.IsBatching(b, TrackIds(top.value.creatorTracks))
                      && creatorFeatures == Batching.Collected(b, creatorFetch))
      && (creatorFeatures.Failure? ==> r == Failure(creatorFeatures.error) && store.sessions == old(store.sessions))
      && (creatorFeatures.Success? ==>
            exists b :: Batching.IsBatching(b, TrackIds(top.value.partnerTracks))
                        && partnerFeatures == Batching.Collected(b, partnerFetch))
      && (creatorFeatures.Success? && partnerFeatures.Failure? ==>
            r == Failure(partnerFeatures.error) && store.sessions == old(store.sessions))
      && (creatorFeatures.Success? && partnerFeatures.Success? ==>
            && r == Success(FetchedMessage)
            && store.sessions == old(store.sessions)[sessionId :=
                 Fetched(old(store.sessions)[sessionId], top.value, creatorFeatures.value, partnerFeatures.value)])
  {
    creatorFeatures, partnerFeatures := Success([]), Success([]);
    var guard := Guard(store.sessions, sessionId, userId);
    if guard.Failure? {
      return Failure(guard.error), creatorFeatures, partnerFeatures;
    }
    if top.Failure? {
      return Failure(top.error), creatorFeatures, partnerFeatures;
    }
    var s := guard.value;
    var creatorBatches, partnerBatches;
    creatorBatches, creatorFeatures := Batching.FetchAudioFeatures(TrackIds(top.value.creatorTracks), creatorFetch);
    if creatorFeatures.Failure? {
      return Failure(creatorFeatures.error), creatorFeatures, partnerFeatures;
    }
    partnerBatches, partnerFeatures := Batching.FetchAudioFeatures(TrackIds(top.value.partnerTracks), partnerFetch);
    if partnerFeatures.Failure? {
      return Failure(partnerFeatures.error), creatorFeatures, partnerFeatures;
    }
    var w := ActiveWindow(s);
    MergeCacheEffect(s.creatorData, w, top.value.creatorTracks, top.value.creatorArtists, creatorFeatures.value);
    MergeCacheEffect(s.partnerData, w, top.value.partnerTracks, top.value.partnerArtists, partnerFeatures.value);
    var t := Fetched(s, top.value, creatorFeatures.value, partnerFeatures.value);
    ReplaceKeepsWellFormed(store.sessions, sessionId, t);
    store.sessions := store.sessions[sessionId := t];
    r := Success(FetchedMessage);
  }

  // calculateInsights

  /** The four cached lists of the active window are all non-empty. */
  predicate HasData(s: Session) {
    var w := ActiveWindow(s);
    && TracksFor(s.creatorData, w) != [] && TracksFor(s.partnerData, w) != []
    && ArtistsFor(s.creatorData, w) != [] && ArtistsFor(s.partnerData, w) != []
  }

  /** The analysis of a session's cache: its active window's lists and all of each listener's feature records. */
  function AnalysisOf(s: Session): Compatibility.Analysis {
    var w := ActiveWindow(s);
    Compatibility.Analyse(
      TracksFor(s.creatorData, w), ArtistsFor(s.creatorData, w),
      TracksFor(s.partnerData, w), ArtistsFor(s.partnerData, w),
      s.creatorData.features, s.partnerData.features)
  }

  /** calculateInsights: refuse a session without data, else analyse it and store the analysis. */
  method CalculateInsights(store: SessionStore, userId: string, sessionId: string)
    returns (r: Result<Compatibility.Analysis, Error>)
    requires store.Valid()
    modifies store
    ensures store.Valid()
    ensures Guard(old(store.sessions), sessionId, userId).Failure? ==>
      r == Failure(Guard(old(store.sessions), sessionId, userId).error) && store.sessions == old(store.sessions)
    ensures Guard(old(store.sessions), sessionId, userId).Success? && !HasData(old(store.sessions)[sessionId]) ==>
      r == Failure(Error(BadRequest, NotFetchedMessage)) && store.sessions == old(store.sessions)
    ensures Guard(old(store.sessions), sessionId, userId).Success? && HasData(old(store.sessions)[sessionId]) ==>
      var s := old(store.sessions)[sessionId];
      && r == Success(AnalysisOf(s))
      && store.sessions == old(store.sessions)[sessionId := s.(analysis := Some(AnalysisOf(s)))]
  {
    var guard := Guard(store.sessions, sessionId, userId);
    if guard.Failure? {
      return Failure(guard.error);
    }
    var s := guard.value;
    var w := ActiveWindow(s);
    var creatorTracks, creatorArtists := TracksFor(s.creatorData, w), ArtistsFor(s.creatorData, w);
    var partnerTracks, partnerArtists := TracksFor(s.partnerData, w), ArtistsFor(s.partnerData, w);
    if |creatorTracks| == 0 || |partnerTracks| == 0 || |creatorArtists| == 0 || |partnerArtists| == 0 {
      return Failure(Error(BadRequest, NotFetchedMessage));
    }
    var score := Compatibility.CompatibilityScore(creatorArtists, partnerArtists);
    var shared := Compatibility.SharedArtists(creatorArtists, partnerArtists);
    var c := Compatibility.AverageFeatures(s.creatorData.features);
    var p := Compatibility.AverageFeatures(s.partnerData.features);
    var insights := Compatibility.PersonalityInsights(c, p);
    var sharedTracks := Compatibility.SharedTracks(creatorTracks, partnerTracks);
    var a := Compatibility.Analysis(score, shared, insights, sharedTracks, c, p);
    assert HasData(s) && a == AnalysisOf(s);
    ReplaceKeepsWellFormed(store.sessions, sessionId, s.(analysis := Some(a)));
    store.sessions := store.sessions[sessionId := s.(analysis := Some(a))];
    r := Success(a);
  }

  /** An analysis keeps the session's data, configuration and state: it only records its result. */
  lemma AnalysisKeepsSession(s: Session)
    ensures var t := s.(analysis := Some(AnalysisOf(s)));
      && t.creatorData == s.creatorData && t.partnerData == s.partnerData
      && t.status == s.status && t.ratio == s.ratio && t.playlistLength == s.playlistLength
      && AnalysisOf(t) == AnalysisOf(s)
  {
  }

  // generatePlaylist

  /** The user row a session links to: display name and streaming-service id. */
  datatype User = User(name: Option<string>, spotifyId: Option<string>)

  /** The playlist-creation call createSpotifyPlaylist makes. */
  datatype PlaylistRequest = PlaylistRequest(path: string, name: string, description: string, isPublic: bool)

  /** `Blend with ${partnerName}`, the other listener's name or "Partner" when it is null. */
  function PlaylistName(otherName: Option<string>): (n: string)
    ensures |n| == 11 + |otherName.GetOr(DefaultPartnerName)|
    ensures n[..11] == "Blend with "
    ensures n[11..] == otherName.GetOr(DefaultPartnerName)
  {
    "Blend with " + otherName.GetOr(DefaultPartnerName)
  }

  function CreateRequest(spotifyUserId: string, otherName: Option<string>): PlaylistRequest {
    PlaylistRequest("/users/" + spotifyUserId + "/playlists", PlaylistName(otherName), PlaylistDescription, true)
  }

  /**
   * createSpotifyPlaylist: `created` is the service's answer to the creation
   * call; on success every track URI is uploaded, in order, in batches of
   * at most 100.
   */
  method CreateSpotifyPlaylist(tracks: seq<Track>, created: Result<Playlist, Error>)
    returns (uploads: seq<seq<string>>, r: Result<Playlist, Error>)
    ensures r == created
    ensures created.Failure? ==> uploads == []
    ensures created.Success? ==>
      && Batching.IsBatching(uploads, Batching.TrackUris(tracks))
      && |uploads| == (|tracks| + Batching.BatchSize - 1) / Batching.BatchSize
  {
    if created.Failure? {
      return [], created;
    }
    uploads := Batching.Batches(Batching.TrackUris(tracks));
    r := created;
  }

  function NameOf(users: map<string, User>, id: string): Option<string> {
    if id in users then users[id].name else None
  }

  function SpotifyIdOf(users: map<string, User>, id: string): Option<string> {
    if id in users then users[id].spotifyId else None
  }

  /** The blended playlist a session's configuration asks for (ratio 0.5 and 50 tracks unless configured). */
  function PlaylistOf(s: Session): seq<Track>
    requires ConfigInBounds(s)
  {
    var w := ActiveWindow(s);
    var length := s.playlistLength.GetOr(DefaultLength);
    Blender.BlendedPlaylist(TracksFor(s.creatorData, w), TracksFor(s.partnerData, w),
                            s.ratio.GetOr(DefaultRatio), length)
  }

  /** The configured blend never exceeds the configured length and holds no two tracks with one id. */
  lemma PlaylistOfBounds(s: Session)
    requires ConfigInBounds(s)
    ensures |PlaylistOf(s)| <= s.playlistLength.GetOr(DefaultLength)
    ensures DistinctBy(PlaylistOf(s), TrackId)
  {
    var w := ActiveWindow(s);
    var length := s.playlistLength.GetOr(DefaultLength);
    Blender.BlendCounts(TracksFor(s.creatorData, w), TracksFor(s.partnerData, w), s.ratio.GetOr(DefaultRatio), length);
    Blender.BlendDistinct(TracksFor(s.creatorData, w), TracksFor(s.partnerData, w), s.ratio.GetOr(DefaultRatio), length);
  }

  datatype Playlists = Playlists(creatorPlaylist: Playlist, partnerPlaylist: Playlist)

  /**
   * generatePlaylist: blend the cached track lists, create one playlist on
   * each account (answers `creatorCreated` and `partnerCreated`), upload
   * the blend's URIs to each playlist that was created, and mark the
   * session generated. A failure of either creation call is returned as it
   * is and nothing is stored; the two creations run side by side, so the
   * other one still uploads.
   */
  method GeneratePlaylist(store: SessionStore, userId: string, sessionId: string, users: map<string, User>,
                          creatorCreated: Result<Playlist, Error>, partnerCreated: Result<Playlist, Error>)
    returns (r: Result<Playlists, Error>, tracks: seq<Track>, requests: seq<PlaylistRequest>,
             creatorUploads: seq<seq<string>>, partnerUploads: seq<seq<string>>)
    requires store.Valid()
    modifies store
    ensures store.Valid()
    ensures r.Failure? ==> store.sessions == old(store.sessions)
    ensures r.Failure? && requests == [] ==> creatorUploads == [] && partnerUploads == []
    ensures Guard(old(store.sessions), sessionId, userId).Failure? ==>
      r == Failure(Guard(old(store.sessions), sessionId, userId).error) && requests == []
    ensures Guard(old(store.sessions), sessionId, userId).Success? ==>
      var s := old(store.sessions)[sessionId];
      var w := ActiveWindow(s);
      if TracksFor(s.creatorData, w) == [] || TracksFor(s.partnerData, w) == [] then
        r == Failure(Error(BadRequest, NotFetchedMessage)) && requests == []
      else if !Given(SpotifyIdOf(users, s.creatorId)) || !Given(SpotifyIdOf(users, s.partnerId.value)) then
        r == Failure(Error(BadRequest, NoSpotifyIdsMessage)) && requests == []
      else
        && tracks == PlaylistOf(s)
        && requests == [CreateRequest(SpotifyIdOf(users, s.creatorId).value, NameOf(users, s.partnerId.value)),
                        CreateRequest(SpotifyIdOf(users, s.partnerId.value).value, NameOf(users, s.creatorId))]
        && (creatorCreated.Failure? ==> creatorUploads == [])
        && (creatorCreated.Success? ==> Batching.IsBatching(creatorUploads, Batching.TrackUris(tracks)))
        && (partnerCreated.Failure? ==> partnerUploads == [])
        && (partnerCreated.Success? ==> Batching.IsBatching(partnerUploads, Batching.TrackUris(tracks)))
        && (creatorCreated.Failure? ==> r == Failure(creatorCreated.error))
        && (creatorCreated.Success? && partnerCreated.Failure? ==> r == Failure(partnerCreated.error))
        && (creatorCreated.Success? && partnerCreated.Success? ==>
              && r == Success(Playlists(creatorCreated.value, partnerCreated.value))
              && store.sessions == old(store.sessions)[sessionId := s.(status := Generated,
                   creatorPlaylist := Some(creatorCreated.value), partnerPlaylist := Some(partnerCreated.value))])
  {
    tracks, requests, creatorUploads, partnerUploads := [], [], [], [];
    var guard := Guard(store.sessions, sessionId, userId);
    if guard.Failure? {
      return Failure(guard.error), [], [], [], [];
    }
    var s := guard.value;
    var w := ActiveWindow(s);
    var ratio := s.ratio.GetOr(DefaultRatio);
    var length := s.playlistLength.GetOr(DefaultLength);
    var creatorTracks, partnerTracks := TracksFor(s.creatorData, w), TracksFor(s.partnerData, w);
    if |creatorTracks| == 0 || |partnerTracks| == 0 {
      return Failure(Error(BadRequest, NotFetchedMessage)), [], [], [], [];
    }
    tracks := Blender.GenerateBlendedPlaylist(creatorTracks, partnerTracks, ratio, length);
    var creatorSpotifyId, partnerSpotifyId := SpotifyIdOf(users, s.creatorId), SpotifyIdOf(users, s.partnerId.value);
    if !Given(creatorSpotifyId) || !Given(partnerSpotifyId) {
      return Failure(Error(BadRequest, NoSpotifyIdsMessage)), tracks, [], [], [];
    }
    requests := [CreateRequest(creatorSpotifyId.value, NameOf(users, s.partnerId.value)),
                 CreateRequest(partnerSpotifyId.value, NameOf(users, s.creatorId))];
    var creatorPlaylist, partnerPlaylist;
    creatorUploads, creatorPlaylist := CreateSpotifyPlaylist(tracks, creatorCreated);
    partnerUploads, partnerPlaylist := CreateSpotifyPlaylist(tracks, partnerCreated);
    if creatorPlaylist.Failure? {
      return Failure(creatorPlaylist.error), tracks, requests, creatorUploads, partnerUploads;
    }
    if partnerPlaylist.Failure? {
      return Failure(partnerPlaylist.error), tracks, requests, creatorUploads, partnerUploads;
    }
    var t := s.(status := Generated, creatorPlaylist := Some(creatorPlaylist.value),
                partnerPlaylist := Some(partnerPlaylist.value));
    ReplaceKeepsWellFormed(store.sessions, sessionId, t);
    store.sessions := store.sessions[sessionId := t];
    r := Success(Playlists(creatorPlaylist.value, partnerPlaylist.value));
  }
}
