/**
 * The streaming catalog records the blend computation works on: tracks,
 * artists and per-track audio features, as fetched for one listener and one
 * time window, and the cache a session keeps of them.
 */
module Catalog {
  import opened Wrappers

  /** The three recency windows ("short_term", "medium_term", "long_term"). */
  datatype TimeRange = ShortTerm | MediumTerm | LongTerm

  datatype ArtistRef = ArtistRef(id: string, name: string)

  datatype Album = Album(id: string, name: string, image: Option<string>)

  datatype Track = Track(
    id: string,
    name: string,
    artists: seq<ArtistRef>,
    album: Album,
    url: string,
    popularity: int)

  datatype Artist = Artist(
    id: string,
    name: string,
    image: Option<string>,
    genres: seq<string>,
    popularity: int,
    url: string)

  /** One track's audio analysis; `tempo` is carried but never scored. */
  datatype AudioFeatures = AudioFeatures(
    id: string,
    danceability: real,
    energy: real,
    valence: real,
    acousticness: real,
    instrumentalness: real,
    liveness: real,
    speechiness: real,
    tempo: real)

  /** A listener's mean of the seven scored audio attributes. */
  datatype FeatureProfile = FeatureProfile(
    danceability: real,
    energy: real,
    valence: real,
    acousticness: real,
    instrumentalness: real,
    liveness: real,
    speechiness: real)

  /** An artist both listeners have, with the mean of the two sides' popularity. */
  datatype SharedArtist = SharedArtist(artist: Artist, combinedPopularity: real)

  /**
   * What a session caches for one listener: a track list and an artist list
   * per time window, and one audio-feature record per track id across all
   * windows, in the order the ids were first stored.
   */
  datatype ListenerCache = ListenerCache(
    tracks: map<TimeRange, seq<Track>>,
    artists: map<TimeRange, seq<Artist>>,
    features: seq<AudioFeatures>)

  const EmptyCache := ListenerCache(map[], map[], [])

  function TrackId(t: Track): string { t.id }

  function ArtistId(a: Artist): string { a.id }

  function FeatureId(f: AudioFeatures): string { f.id }

  /** The track list cached for a window; an absent window reads as empty. */
  function TracksFor(c: ListenerCache, w: TimeRange): seq<Track> {
    if w in c.tracks then c.tracks[w] else []
  }

  /** The artist list cached for a window; an absent window reads as empty. */
  function ArtistsFor(c: ListenerCache, w: TimeRange): seq<Artist> {
    if w in c.artists then c.artists[w] else []
  }
}
