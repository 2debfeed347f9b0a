/**
 * The compatibility engine of calculateInsights (blend.ts): Jaccard
 * similarity of the two listeners' artist sets, the ranked list of shared
 * artists, the 0-100 score, the per-listener audio-feature averages, the
 * rule-based personality insights and the shared tracks.
 */
module Compatibility {
  import opened Wrappers
  import opened Catalog
  import opened Seqs
  import opened StableSort
  import JsNumber

  // Artist overlap

  function ArtistIds(artists: seq<Artist>): set<string> {
    KeysOf(artists, ArtistId)
  }

  /** |a ∩ b| / |a ∪ b|, and 0 when the union is empty. */
  function Jaccard(a: set<string>, b: set<string>): (j: real)
    ensures 0.0 <= j <= 1.0
  {
    SubsetCard(a * b, a + b);
    if |a + b| > 0 then
      RatioInUnit(|a * b| as real, |a + b| as real);
      |a * b| as real / |a + b| as real
    else 0.0
  }

  lemma RatioInUnit(n: real, d: real)
    requires 0.0 <= n <= d && d > 0.0
    ensures 0.0 <= n / d <= 1.0
  {
    assert n / d * d == n;
  }

  lemma {:induction false} SubsetCard(s: set<string>, t: set<string>)
    requires s <= t
    ensures |s| <= |t|
    decreases t
  {
    if s != {} {
      var x :| x in s;
      SubsetCard(s - {x}, t - {x});
    }
  }

  lemma SubsetCardEqual(s: set<string>, t: set<string>)
    requires s <= t && |s| == |t|
    ensures s == t
  {
    if x :| x in t && x !in s {
      SubsetCard(s, t - {x});
    }
  }

  /** The similarity is 0 exactly when the artist sets are disjoint. */
  lemma JaccardZero(a: set<string>, b: set<string>)
    ensures Jaccard(a, b) == 0.0 <==> a * b == {}
  {
    if a * b != {} {
      var x :| x in a * b;
      assert x in a + b;
    }
  }

  /** The similarity is 1 exactly when both listeners have the same non-empty artist set. */
  lemma JaccardOne(a: set<string>, b: set<string>)
    ensures Jaccard(a, b) == 1.0 <==> a == b && a != {}
  {
    if a == b && a != {} {
      assert a * b == a + b;
    }
    if Jaccard(a, b) == 1.0 {
      SubsetCard(a * b, a + b);
      assert |a + b| > 0;
      assert |a * b| == |a + b|;
      SubsetCardEqual(a * b, a + b);
      assert a == b by {
        assert forall x :: x in a ==> x in a * b;
        assert forall x :: x in b ==> x in a * b;
      }
    }
  }

  // Shared artists

  /** partnerArtists.find(pa => pa.id === id): the first artist with that id. */
  function FindById(artists: seq<Artist>, id: string): (r: Option<Artist>)
    ensures r.Some? ==> r.value in artists && r.value.id == id
    ensures r.None? <==> id !in ArtistIds(artists)
  {
    if artists == [] then None
    else if artists[0].id == id then Some(artists[0])
    else
      var r := FindById(artists[1..], id);
      assert artists == [artists[0]] + artists[1..];
      r
  }

  /** The artist found is the first one listed with that id. */
  lemma {:induction false} FindIsFirst(artists: seq<Artist>, id: string, i: nat)
    requires i < |artists| && artists[i].id == id
    requires forall j :: 0 <= j < i ==> artists[j].id != id
    ensures FindById(artists, id) == Some(artists[i])
  {
    if i > 0 {
      FindIsFirst(artists[1..], id, i - 1);
    }
  }

  /** The mean of the creator's popularity and the first partner match's (0 when there is none). */
  function CombinedPopularity(a: Artist, partner: seq<Artist>): real {
    var found := FindById(partner, a.id);
    (a.popularity as real + (if found.Some? then found.value.popularity as real else 0.0)) / 2.0
  }

  function Annotate(shared: seq<Artist>, partner: seq<Artist>): (r: seq<SharedArtist>)
    ensures |r| == |shared|
    ensures forall i :: 0 <= i < |r| ==>
      r[i].artist == shared[i] && r[i].combinedPopularity == CombinedPopularity(shared[i], partner)
  {
    seq(|shared|, i requires 0 <= i < |shared| => SharedArtist(shared[i], CombinedPopularity(shared[i], partner)))
  }

  function HasIdIn(ids: set<string>): Artist -> bool {
    (a: Artist) => a.id in ids
  }

  function Combined(s: SharedArtist): real { s.combinedPopularity }

  /** The creator's artists that the partner also has, in the creator's order. */
  function SharedCandidates(creator: seq<Artist>, partner: seq<Artist>): seq<SharedArtist> {
    Annotate(Filter(creator, HasIdIn(ArtistIds(partner))), partner)
  }

  /** The ten shared artists with the highest combined popularity. */
  function SharedArtists(creator: seq<Artist>, partner: seq<Artist>): (r: seq<SharedArtist>)
    ensures |r| <= 10
  {
    Take(SortDesc(SharedCandidates(creator, partner), Combined), 10)
  }

  /**
   * Every shared artist is a creator artist the partner also has, carrying
   * the mean of its popularity and the partner's first record's; the list
   * is ranked by that mean and is capped at ten.
   */
  lemma SharedArtistsSound(creator: seq<Artist>, partner: seq<Artist>)
    ensures var r := SharedArtists(creator, partner);
      && SortedDesc(r, Combined)
      && |r| == (if |Filter(creator, HasIdIn(ArtistIds(partner)))| < 10 then |Filter(creator, HasIdIn(ArtistIds(partner)))| else 10)
      && forall s :: s in r ==>
           && s.artist in creator
           && FindById(partner, s.artist.id).Some?
           && s.combinedPopularity
              == (s.artist.popularity + FindById(partner, s.artist.id).value.popularity) as real / 2.0
  {
    forall s | s in SharedArtists(creator, partner)
      ensures && s.artist in creator
              && FindById(partner, s.artist.id).Some?
              && s.combinedPopularity
                 == (s.artist.popularity + FindById(partner, s.artist.id).value.popularity) as real / 2.0
    {
      SharedArtistMember(creator, partner, s);
    }
  }

  lemma SharedArtistMember(creator: seq<Artist>, partner: seq<Artist>, s: SharedArtist)
    requires s in SharedArtists(creator, partner)
    ensures s.artist in creator && FindById(partner, s.artist.id).Some?
    ensures s.combinedPopularity == CombinedPopularity(s.artist, partner)
  {
    var shared := Filter(creator, HasIdIn(ArtistIds(partner)));
    var cands := SharedCandidates(creator, partner);
    assert s in SortDesc(cands, Combined);
    assert s in multiset(cands);
    var i :| 0 <= i < |cands| && cands[i] == s;
    assert shared[i] in shared;
    assert HasIdIn(ArtistIds(partner))(shared[i]);
  }

  /** A shared artist left out of the ten ranks no higher than any listed. */
  lemma SharedArtistsTop(creator: seq<Artist>, partner: seq<Artist>)
    ensures forall s :: s in SharedCandidates(creator, partner) ==>
      s in SharedArtists(creator, partner) ||
      forall u :: u in SharedArtists(creator, partner) ==> u.combinedPopularity >= s.combinedPopularity
  {
    TakeIsTop(SharedCandidates(creator, partner), Combined, 10);
  }

  // Score

  /** Math.round(J * 100 * 0.7 + (sharedCount / 10) * 30). */
  function Score(j: real, sharedCount: nat): int {
    JsNumber.Round(j * 100.0 * 0.7 + (sharedCount as real / 10.0) * 30.0)
  }

  function CompatibilityScore(creator: seq<Artist>, partner: seq<Artist>): (score: int)
    ensures 0 <= score <= 100
  {
    var j := Jaccard(ArtistIds(creator), ArtistIds(partner));
    var n := |SharedArtists(creator, partner)|;
    assert 0.0 <= j * 100.0 * 0.7 <= 70.0;
    Score(j, n)
  }

  lemma NoSharedCandidates(creator: seq<Artist>, partner: seq<Artist>)
    requires ArtistIds(creator) * ArtistIds(partner) == {}
    ensures Filter(creator, HasIdIn(ArtistIds(partner))) == []
  {
    var p := HasIdIn(ArtistIds(partner));
    FilterMembers(creator, p);
    forall a | a in creator ensures !p(a) {
      assert ArtistId(a) in ArtistIds(creator);
      assert a.id !in ArtistIds(creator) * ArtistIds(partner);
    }
    assert forall a :: a !in Filter(creator, p);
  }

  /** Listeners with no artist in common score 0. */
  lemma ScoreDisjoint(creator: seq<Artist>, partner: seq<Artist>)
    requires ArtistIds(creator) * ArtistIds(partner) == {}
    ensures CompatibilityScore(creator, partner) == 0
  {
    JaccardZero(ArtistIds(creator), ArtistIds(partner));
    NoSharedCandidates(creator, partner);
    assert SharedCandidates(creator, partner) == [];
    assert |SharedArtists(creator, partner)| == 0;
    assert Score(0.0, 0) == 0;
  }

  /** Identical non-empty artist lists score 70 plus 3 per shared artist, at most 10 of them. */
  lemma ScoreIdentical(artists: seq<Artist>)
    requires artists != []
    ensures CompatibilityScore(artists, artists) == 70 + 3 * (if |artists| < 10 then |artists| else 10)
  {
    var ids := ArtistIds(artists);
    assert artists[0] in artists;
    assert ArtistId(artists[0]) in ids;
    JaccardOne(ids, ids);
    FilterAll(artists, HasIdIn(ids));
    var m := if |artists| < 10 then |artists| else 10;
    assert |SharedArtists(artists, artists)| == m;
    assert 1.0 * 100.0 * 0.7 + (m as real / 10.0) * 30.0 == (70 + 3 * m) as real;
    JsNumber.RoundOfInteger(70 + 3 * m);
  }

  /** Filtering by a predicate every element meets changes nothing. */
  lemma {:induction false} FilterAll(artists: seq<Artist>, p: Artist -> bool)
    requires forall a :: a in artists ==> p(a)
    ensures Filter(artists, p) == artists
  {
    if artists != [] {
      FilterAll(artists[1..], p);
      assert artists[0] in artists;
      assert artists == [artists[0]] + artists[1..];
    }
  }

  // Audio-feature averages

  function Danceability(f: AudioFeatures): real { f.danceability }
  function Energy(f: AudioFeatures): real { f.energy }
  function Valence(f: AudioFeatures): real { f.valence }
  function Acousticness(f: AudioFeatures): real { f.acousticness }
  function Instrumentalness(f: AudioFeatures): real { f.instrumentalness }
  function Liveness(f: AudioFeatures): real { f.liveness }
  function Speechiness(f: AudioFeatures): real { f.speechiness }

  /** values.reduce((sum, f) => sum + attr(f), 0). */
  function Sum(fs: seq<AudioFeatures>, attr: AudioFeatures -> real): real {
    if fs == [] then 0.0 else Sum(fs[..|fs| - 1], attr) + attr(fs[|fs| - 1])
  }

  function Mean(fs: seq<AudioFeatures>, attr: AudioFeatures -> real): real
    requires fs != []
  {
    Sum(fs, attr) / |fs| as real
  }

  /**
   * A listener's average profile over every cached feature record (all
   * windows, not only the active one), or None when there are none.
   */
  function AverageFeatures(fs: seq<AudioFeatures>): (r: Option<FeatureProfile>)
    ensures r.None? <==> fs == []
  {
    if |fs| > 0 then
      Some(FeatureProfile(
        Mean(fs, Danceability), Mean(fs, Energy), Mean(fs, Valence), Mean(fs, Acousticness),
        Mean(fs, Instrumentalness), Mean(fs, Liveness), Mean(fs, Speechiness)))
    else None
  }

  lemma {:induction false} SumBounds(fs: seq<AudioFeatures>, attr: AudioFeatures -> real, lo: real, hi: real)
    requires forall i :: 0 <= i < |fs| ==> lo <= attr(fs[i]) <= hi
    ensures |fs| as real * lo <= Sum(fs, attr) <= |fs| as real * hi
  {
    if fs != [] {
      var init, last := fs[..|fs| - 1], fs[|fs| - 1];
      SumBounds(init, attr, lo, hi);
      assert lo <= attr(last) <= hi;
      assert |fs| as real * lo == |init| as real * lo + lo;
      assert |fs| as real * hi == |init| as real * hi + hi;
    }
  }

  /** A mean lies between the least and the greatest value averaged. */
  lemma MeanBounds(fs: seq<AudioFeatures>, attr: AudioFeatures -> real, lo: real, hi: real)
    requires fs != []
    requires forall i :: 0 <= i < |fs| ==> lo <= attr(fs[i]) <= hi
    ensures lo <= Mean(fs, attr) <= hi
  {
    SumBounds(fs, attr, lo, hi);
    DivideBounds(Sum(fs, attr), |fs| as real, lo, hi);
  }

  lemma DivideBounds(a: real, n: real, lo: real, hi: real)
    requires n > 0.0 && n * lo <= a <= n * hi
    ensures lo <= a / n <= hi
  {
    assert a / n - lo == (a - n * lo) / n;
    assert hi - a / n == (n * hi - a) / n;
  }

  predicate InUnit(x: real) { 0.0 <= x <= 1.0 }

  predicate UnitFeatures(f: AudioFeatures) {
    && InUnit(f.danceability) && InUnit(f.energy) && InUnit(f.valence) && InUnit(f.acousticness)
    && InUnit(f.instrumentalness) && InUnit(f.liveness) && InUnit(f.speechiness)
  }

  predicate UnitProfile(p: FeatureProfile) {
    && InUnit(p.danceability) && InUnit(p.energy) && InUnit(p.valence) && InUnit(p.acousticness)
    && InUnit(p.instrumentalness) && InUnit(p.liveness) && InUnit(p.speechiness)
  }

  /** Records whose attributes lie in [0, 1] average to a profile in [0, 1]. */
  lemma AverageInUnit(fs: seq<AudioFeatures>)
    requires fs != []
    requires forall i :: 0 <= i < |fs| ==> UnitFeatures(fs[i])
    ensures UnitProfile(AverageFeatures(fs).value)
  {
    MeanBounds(fs, Danceability, 0.0, 1.0);
    MeanBounds(fs, Energy, 0.0, 1.0);
    MeanBounds(fs, Valence, 0.0, 1.0);
    MeanBounds(fs, Acousticness, 0.0, 1.0);
    MeanBounds(fs, Instrumentalness, 0.0, 1.0);
    MeanBounds(fs, Liveness, 0.0, 1.0);
    MeanBounds(fs, Speechiness, 0.0, 1.0);
  }

  /** Two records with danceability 0.2 and 0.8 average to exactly 0.5. */
  lemma AverageScenario(f1: AudioFeatures, f2: AudioFeatures)
    requires f1.danceability == 0.2 && f2.danceability == 0.8
    ensures AverageFeatures([f1, f2]).value.danceability == 0.5
  {
    assert [f1, f2][..1] == [f1];
    assert [f1][..0] == [];
    assert Sum([f1], Danceability) == 0.2;
    assert Sum([f1, f2], Danceability) == 1.0;
  }

  // Personality insights

  const NotEnoughData := "Not enough data to generate insights"
  const CreatorEnergetic := "You're the energetic one!"
  const PartnerEnergetic := "Your partner brings the energy!"
  const SimilarEnergy := "You both have similar energy levels"
  const CreatorUpbeat := "You prefer happier, more upbeat music"
  const PartnerUpbeat := "Your partner loves the upbeat vibes"
  const BothDance := "You're both dance floor ready!"
  const BothAcoustic := "You both appreciate acoustic vibes"

  /** The optional insights in the order the rules are applied. */
  const OptionalOrder := [CreatorUpbeat, PartnerUpbeat, BothDance, BothAcoustic]

  function EnergyInsight(c: FeatureProfile, p: FeatureProfile): string {
    if JsNumber.Abs(c.energy - p.energy) > 0.2 then
      if c.energy > p.energy then CreatorEnergetic else PartnerEnergetic
    else SimilarEnergy
  }

  function ValenceInsight(c: FeatureProfile, p: FeatureProfile): seq<string> {
    if JsNumber.Abs(c.valence - p.valence) > 0.2 then
      if c.valence > p.valence then [CreatorUpbeat] else [PartnerUpbeat]
    else []
  }

  function DanceInsight(c: FeatureProfile, p: FeatureProfile): seq<string> {
    if JsNumber.Abs(c.danceability - p.danceability) < 0.1 then [BothDance] else []
  }

  function AcousticInsight(c: FeatureProfile, p: FeatureProfile): seq<string> {
    if c.acousticness > 0.5 && p.acousticness > 0.5 then [BothAcoustic] else []
  }

  /** The insights for two average profiles, as generatePersonalityInsights returns them. */
  function Insights(c: Option<FeatureProfile>, p: Option<FeatureProfile>): seq<string> {
    if c.None? || p.None? then [NotEnoughData]
    else [EnergyInsight(c.value, p.value)] + ValenceInsight(c.value, p.value)
         + DanceInsight(c.value, p.value) + AcousticInsight(c.value, p.value)
  }

  /** generatePersonalityInsights: the rules append to the list one after another. */
  method PersonalityInsights(c: Option<FeatureProfile>, p: Option<FeatureProfile>) returns (insights: seq<string>)
    ensures insights == Insights(c, p)
  {
    if c.None? || p.None? {
      return [NotEnoughData];
    }
    var cf, pf := c.value, p.value;
    insights := [];
    var energyDiff := JsNumber.Abs(cf.energy - pf.energy);
    if energyDiff > 0.2 {
      if cf.energy > pf.energy {
        insights := insights + [CreatorEnergetic];
      } else {
        insights := insights + [PartnerEnergetic];
      }
    } else {
      insights := insights + [SimilarEnergy];
    }
    assert insights == [EnergyInsight(cf, pf)];
    var valenceDiff := JsNumber.Abs(cf.valence - pf.valence);
    if valenceDiff > 0.2 {
      if cf.valence > pf.valence {
        insights := insights + [CreatorUpbeat];
      } else {
        insights := insights + [PartnerUpbeat];
      }
    }
    assert insights == [EnergyInsight(cf, pf)] + ValenceInsight(cf, pf);
    var danceDiff := JsNumber.Abs(cf.danceability - pf.danceability);
    if danceDiff < 0.1 {
      insights := insights + [BothDance];
    }
    assert insights == [EnergyInsight(cf, pf)] + ValenceInsight(cf, pf) + DanceInsight(cf, pf);
    if cf.acousticness > 0.5 && pf.acousticness > 0.5 {
      insights := insights + [BothAcoustic];
    }
  }

  /** Without both profiles there is exactly one insight saying so. */
  lemma InsightsMissing(c: Option<FeatureProfile>, p: Option<FeatureProfile>)
    ensures Insights(c, p) == [NotEnoughData] <==> c.None? || p.None?
  {
    if c.Some? && p.Some? {
      assert Insights(c, p)[0] != NotEnoughData by {
        assert NotEnoughData[0] == 'N';
        assert CreatorEnergetic[0] == 'Y' && PartnerEnergetic[0] == 'Y' && SimilarEnergy[0] == 'Y';
      }
    }
  }

  /**
   * With both profiles the first insight is exactly one of the three energy
   * messages, chosen by a 0.2 difference, and no later insight speaks of energy.
   */
  lemma InsightsEnergy(c: FeatureProfile, p: FeatureProfile)
    ensures var r := Insights(Some(c), Some(p));
      && (r[0] == CreatorEnergetic <==> c.energy - p.energy > 0.2)
      && (r[0] == PartnerEnergetic <==> p.energy - c.energy > 0.2)
      && (r[0] == SimilarEnergy <==> -0.2 <= c.energy - p.energy <= 0.2)
      && forall i :: 1 <= i < |r| ==> r[i] in OptionalOrder
  {
    MessagesDistinct();
  }

  /** Each optional insight appears exactly when its rule fires. */
  lemma InsightsOptional(c: FeatureProfile, p: FeatureProfile)
    ensures var r := Insights(Some(c), Some(p));
      && (CreatorUpbeat in r <==> c.valence - p.valence > 0.2)
      && (PartnerUpbeat in r <==> p.valence - c.valence > 0.2)
      && (BothDance in r <==> -0.1 < c.danceability - p.danceability < 0.1)
      && (BothAcoustic in r <==> c.acousticness > 0.5 && p.acousticness > 0.5)
  {
    MessagesDistinct();
    var r := Insights(Some(c), Some(p));
    var v, d, a := ValenceInsight(c, p), DanceInsight(c, p), AcousticInsight(c, p);
    assert r == [EnergyInsight(c, p)] + v + d + a;
    assert forall x :: x in r <==> x == EnergyInsight(c, p) || x in v || x in d || x in a;
  }

  /** One to four insights: the energy one, then the optional ones in rule order. */
  lemma InsightsOrder(c: FeatureProfile, p: FeatureProfile)
    ensures var r := Insights(Some(c), Some(p));
      && 1 <= |r| <= 4
      && IsSubsequence(r[1..], OptionalOrder)
  {
    var v, d, a := ValenceInsight(c, p), DanceInsight(c, p), AcousticInsight(c, p);
    var r := Insights(Some(c), Some(p));
    assert r[1..] == v + d + a;
    MessagesDistinct();
    OptionalSubsequence(v, d, a);
  }

  lemma OptionalSubsequence(v: seq<string>, d: seq<string>, a: seq<string>)
    requires v == [] || v == [CreatorUpbeat] || v == [PartnerUpbeat]
    requires d == [] || d == [BothDance]
    requires a == [] || a == [BothAcoustic]
    requires CreatorUpbeat != PartnerUpbeat && CreatorUpbeat != BothDance && CreatorUpbeat != BothAcoustic
    requires PartnerUpbeat != BothDance && PartnerUpbeat != BothAcoustic && BothDance != BothAcoustic
    ensures IsSubsequence(v + d + a, OptionalOrder)
  {
    var o := OptionalOrder;
    assert o[1..] == [PartnerUpbeat, BothDance, BothAcoustic];
    assert o[2..] == [BothDance, BothAcoustic];
    assert o[3..] == [BothAcoustic];
    assert IsSubsequence([BothAcoustic], o[3..]) by { assert o[3..][1..] == []; }
    assert IsSubsequence(a, o[3..]);
    assert IsSubsequence(d + a, o[2..]) by {
      if d == [] {
        assert d + a == a;
        assert o[2..][1..] == o[3..];
      } else {
        assert (d + a)[1..] == a;
        assert o[2..][1..] == o[3..];
      }
    }
    assert IsSubsequence(d + a, o[1..]) by {
      if d + a != [] {
        assert o[1..][1..] == o[2..];
        assert (d + a)[0] != PartnerUpbeat;
      }
    }
    if v == [] {
      assert v + d + a == d + a;
      if d + a != [] {
        assert (d + a)[0] != CreatorUpbeat;
      }
    } else if v == [CreatorUpbeat] {
      assert (v + d + a)[1..] == d + a;
      assert IsSubsequence(d + a, o[1..]);
    } else {
      assert (v + d + a)[1..] == d + a;
      assert (v + d + a)[0] == PartnerUpbeat != o[0];
      assert IsSubsequence(v + d + a, o[1..]) by {
        assert o[1..][1..] == o[2..];
      }
    }
  }

  /** The eight messages are pairwise different strings. */
  lemma MessagesDistinct()
    ensures CreatorEnergetic != PartnerEnergetic && CreatorEnergetic != SimilarEnergy && PartnerEnergetic != SimilarEnergy
    ensures forall m :: m in OptionalOrder ==> m != CreatorEnergetic && m != PartnerEnergetic && m != SimilarEnergy
    ensures CreatorUpbeat != PartnerUpbeat && CreatorUpbeat != BothDance && CreatorUpbeat != BothAcoustic
    ensures PartnerUpbeat != BothDance && PartnerUpbeat != BothAcoustic && BothDance != BothAcoustic
  {
    assert |CreatorEnergetic| == 25 && |PartnerEnergetic| == 31 && |SimilarEnergy| == 35;
    assert |CreatorUpbeat| == 37 && |PartnerUpbeat| == 35 && |BothDance| == 30 && |BothAcoustic| == 34;
    assert SimilarEnergy[3] == ' ' && PartnerUpbeat[3] == 'r';
  }

  /** Energy 0.9 against 0.3: one energy insight, naming the creator, and no "similar" one. */
  lemma InsightsScenario(c: FeatureProfile, p: FeatureProfile)
    requires c.energy == 0.9 && p.energy == 0.3
    ensures var r := Insights(Some(c), Some(p));
      && r[0] == CreatorEnergetic
      && SimilarEnergy !in r && PartnerEnergetic !in r
  {
    InsightsEnergy(c, p);
    MessagesDistinct();
  }

  // Shared tracks

  function IdIn(ids: set<string>): Track -> bool {
    (t: Track) => t.id in ids
  }

  /** partnerTracks.filter(t => creatorTrackIds.has(t.id)).slice(0, 10). */
  function SharedTracks(creator: seq<Track>, partner: seq<Track>): seq<Track> {
    Take(Filter(partner, IdIn(KeysOf(creator, TrackId))), 10)
  }

  /**
   * At most ten partner tracks, in the partner's order, each with an id the
   * creator has; when fewer than ten are listed, every such track is.
   */
  lemma SharedTracksSound(creator: seq<Track>, partner: seq<Track>)
    ensures var r := SharedTracks(creator, partner);
      && |r| <= 10
      && IsSubsequence(r, partner)
      && (forall t :: t in r ==> t in partner && t.id in KeysOf(creator, TrackId))
      && (|r| < 10 ==> forall t :: t in partner && t.id in KeysOf(creator, TrackId) ==> t in r)
  {
    var f := Filter(partner, IdIn(KeysOf(creator, TrackId)));
    FilterMembers(partner, IdIn(KeysOf(creator, TrackId)));
    FilterIsSubsequence(partner, IdIn(KeysOf(creator, TrackId)));
    if |f| > 10 {
      PrefixIsSubsequence(f, partner, 10);
    }
  }

  /**
   * slice(0, 10) keeps the first ten: a partner track with an id the creator
   * has is listed whenever fewer than ten such tracks come before it, at the
   * position given by how many do.
   */
  lemma SharedTracksFirstTen(creator: seq<Track>, partner: seq<Track>, i: nat)
    requires i < |partner| && partner[i].id in KeysOf(creator, TrackId)
    ensures var before := |Filter(partner[..i], IdIn(KeysOf(creator, TrackId)))|;
      before < 10 ==> before < |SharedTracks(creator, partner)| && SharedTracks(creator, partner)[before] == partner[i]
  {
    FilterPosition(partner, IdIn(KeysOf(creator, TrackId)), i);
  }

  // The whole analysis

  /** What calculateInsights computes and stores for a session. */
  datatype Analysis = Analysis(
    score: int,
    sharedArtists: seq<SharedArtist>,
    personality: seq<string>,
    sharedTracks: seq<Track>,
    creatorAverage: Option<FeatureProfile>,
    partnerAverage: Option<FeatureProfile>)

  /**
   * The analysis of two listeners' cached data for the active window; the
   * averages cover every cached feature record of each listener.
   */
  function Analyse(
    creatorTracks: seq<Track>, creatorArtists: seq<Artist>,
    partnerTracks: seq<Track>, partnerArtists: seq<Artist>,
    creatorFeatures: seq<AudioFeatures>, partnerFeatures: seq<AudioFeatures>): (a: Analysis)
    ensures 0 <= a.score <= 100
    ensures |a.sharedArtists| <= 10 && |a.sharedTracks| <= 10
    ensures a.creatorAverage.None? <==> creatorFeatures == []
    ensures a.partnerAverage.None? <==> partnerFeatures == []
  {
    var c, p := AverageFeatures(creatorFeatures), AverageFeatures(partnerFeatures);
    SharedTracksSound(creatorTracks, partnerTracks);
    Analysis(
      CompatibilityScore(creatorArtists, partnerArtists),
      SharedArtists(creatorArtists, partnerArtists),
      Insights(c, p),
      SharedTracks(creatorTracks, partnerTracks),
      c, p)
  }
}
