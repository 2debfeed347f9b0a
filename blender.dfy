/**
 * The playlist blender: from the two listeners' cached top tracks, a
 * ratio and a target length, the blended track sequence a session
 * publishes (blend.ts, generateBlendedPlaylist).
 */
module Blender {
  import opened Wrappers
  import opened Catalog
  import opened Seqs
  import opened StableSort
  import opened KeyedList
  import JsNumber

  function Popularity(t: Track): real { t.popularity as real }

  function Min(a: int, b: int): int { if a < b then a else b }

  /** creatorCount: Math.round(length * ratio), which lies within [0, length]. */
  function CreatorCount(length: nat, ratio: real): (n: nat)
    requires 0.0 <= ratio <= 1.0
    ensures n <= length
    ensures length as real * ratio - 0.5 < n as real <= length as real * ratio + 0.5
  {
    assert 0.0 <= length as real * ratio <= length as real;
    JsNumber.Round(length as real * ratio)
  }

  /** The tracks whose id is not in `ids`. */
  function NotIn(ids: set<string>): Track -> bool {
    (t: Track) => t.id !in ids
  }

  /** One record per track id, the last one listed, at the id's first position. */
  function Unique(ts: seq<Track>): seq<Track> {
    Dedup(ts, TrackId)
  }

  /** The creator's candidates: deduplicated, minus every id the partner has. */
  function CreatorPool(creator: seq<Track>, partner: seq<Track>): seq<Track> {
    Filter(Unique(creator), NotIn(KeysOf(Unique(partner), TrackId)))
  }

  function CreatorSelected(creator: seq<Track>, partner: seq<Track>, ratio: real, length: nat): seq<Track>
    requires 0.0 <= ratio <= 1.0
  {
    Take(SortDesc(CreatorPool(creator, partner), Popularity), CreatorCount(length, ratio))
  }

  function PartnerSelected(partner: seq<Track>, ratio: real, length: nat): seq<Track>
    requires 0.0 <= ratio <= 1.0
  {
    Take(SortDesc(Unique(partner), Popularity), length - CreatorCount(length, ratio))
  }

  /** c0, p0, c1, p1, ... and then the rest of the longer sequence. */
  function Interleave<T>(c: seq<T>, p: seq<T>): (r: seq<T>)
    ensures |r| == |c| + |p|
  {
    if c == [] then p
    else if p == [] then c
    else [c[0], p[0]] + Interleave(c[1..], p[1..])
  }

  /** The specification of generateBlendedPlaylist. */
  function BlendedPlaylist(creator: seq<Track>, partner: seq<Track>, ratio: real, length: nat): seq<Track>
    requires 0.0 <= ratio <= 1.0
  {
    Take(Interleave(CreatorSelected(creator, partner, ratio, length),
                    PartnerSelected(partner, ratio, length)), length)
  }

  /** The elements the loop appends at index `i`. */
  function StepAt<T>(c: seq<T>, p: seq<T>, i: nat): seq<T> {
    (if i < |c| then [c[i]] else []) + (if i < |p| then [p[i]] else [])
  }

  lemma InterleaveStep<T>(c: seq<T>, p: seq<T>, i: nat)
    requires i < |c| || i < |p|
    ensures Interleave(c[Min(i, |c|)..], p[Min(i, |p|)..])
         == StepAt(c, p, i) + Interleave(c[Min(i + 1, |c|)..], p[Min(i + 1, |p|)..])
  {
    var restC, restP := c[Min(i, |c|)..], p[Min(i, |p|)..];
    var nextC, nextP := c[Min(i + 1, |c|)..], p[Min(i + 1, |p|)..];
    if i < |c| && i < |p| {
      assert restC[0] == c[i] && restC[1..] == nextC;
      assert restP[0] == p[i] && restP[1..] == nextP;
    } else if i < |c| {
      assert restP == [] && nextP == [];
      assert restC == [c[i]] + nextC;
    } else {
      assert restC == [] && nextC == [];
      assert restP == [p[i]] + nextP;
    }
  }

  /** What the loop has appended after `i` rounds. */
  function Woven<T>(c: seq<T>, p: seq<T>, i: nat): seq<T> {
    if i == 0 then [] else Woven(c, p, i - 1) + StepAt(c, p, i - 1)
  }

  /** What is left to append after `i` rounds: the interleaving of the two remainders. */
  function Remainder<T>(c: seq<T>, p: seq<T>, i: nat): seq<T> {
    Interleave(c[Min(i, |c|)..], p[Min(i, |p|)..])
  }

  /** What was appended and what is left make up the whole interleaving. */
  lemma {:induction false} WovenSplit<T>(c: seq<T>, p: seq<T>, i: nat)
    requires i <= |c| || i <= |p|
    ensures Woven(c, p, i) + Remainder(c, p, i) == Interleave(c, p)
  {
    if i == 0 {
      WovenStart(c, p);
    } else {
      WovenSplit(c, p, i - 1);
      WovenStep(c, p, i);
    }
  }

  lemma WovenStart<T>(c: seq<T>, p: seq<T>)
    ensures Woven(c, p, 0) + Remainder(c, p, 0) == Interleave(c, p)
  {
    assert c[Min(0, |c|)..] == c && p[Min(0, |p|)..] == p;
    assert Woven(c, p, 0) == [];
  }

  /** One round moves the elements at index `j` from the front of the remainder. */
  lemma RemainderStep<T>(c: seq<T>, p: seq<T>, j: nat, i: nat)
    requires i == j + 1 && (j < |c| || j < |p|)
    ensures Remainder(c, p, j) == StepAt(c, p, j) + Remainder(c, p, i)
  {
    InterleaveStep(c, p, j);
    assert Min(j + 1, |c|) == Min(i, |c|) && Min(j + 1, |p|) == Min(i, |p|);
  }

  /** The round before `i` moves one step from the remainders to what was appended. */
  lemma WovenStep<T>(c: seq<T>, p: seq<T>, i: nat)
    requires 1 <= i && (i - 1 < |c| || i - 1 < |p|)
    ensures Woven(c, p, i) + Remainder(c, p, i) == Woven(c, p, i - 1) + Remainder(c, p, i - 1)
  {
    var j := i - 1;
    var w, step, rest := Woven(c, p, j), StepAt(c, p, j), Remainder(c, p, i);
    RemainderStep(c, p, j, i);
    assert Woven(c, p, i) == w + step;
    assert (w + step) + rest == w + (step + rest);
  }

  /** The interleaving loop: at each index, the creator's track (if any), then the partner's. */
  method InterleaveTracks<T>(c: seq<T>, p: seq<T>) returns (blended: seq<T>)
    ensures blended == Interleave(c, p)
  {
    blended := [];
    var maxLength := if |c| > |p| then |c| else |p|;
    var i := 0;
    while i < maxLength
      invariant 0 <= i <= maxLength
      invariant blended == Woven(c, p, i)
    {
      if i < |c| {
        blended := blended + [c[i]];
      }
      if i < |p| {
        blended := blended + [p[i]];
      }
      i := i + 1;
    }
    WovenSplit(c, p, i);
    assert c[Min(i, |c|)..] == [] && p[Min(i, |p|)..] == [];
    assert Remainder(c, p, i) == [];
  }

  /** generateBlendedPlaylist, step for step. */
  method GenerateBlendedPlaylist(creator: seq<Track>, partner: seq<Track>, ratio: real, length: nat)
    returns (r: seq<Track>)
    requires 0.0 <= ratio <= 1.0
    ensures r == BlendedPlaylist(creator, partner, ratio, length)
  {
    var creatorCount := CreatorCount(length, ratio);
    var partnerCount := length - creatorCount;
    var creatorUnique := Unique(creator);
    var partnerUnique := Unique(partner);
    var partnerTrackIds := KeysOf(partnerUnique, TrackId);
    var creatorFiltered := Filter(creatorUnique, NotIn(partnerTrackIds));
    var creatorSelected := Take(SortDesc(creatorFiltered, Popularity), creatorCount);
    var partnerSelected := Take(SortDesc(partnerUnique, Popularity), partnerCount);
    var blended := InterleaveTracks(creatorSelected, partnerSelected);
    r := Take(blended, length);
  }

  // Properties of the interleaving

  lemma ConsMultiset<T>(s: seq<T>)
    requires s != []
    ensures multiset(s) == multiset{s[0]} + multiset(s[1..])
  {
    assert s == [s[0]] + s[1..];
  }

  lemma {:induction false} InterleaveMultiset<T>(c: seq<T>, p: seq<T>)
    ensures multiset(Interleave(c, p)) == multiset(c) + multiset(p)
  {
    if c != [] && p != [] {
      var c', p' := c[1..], p[1..];
      InterleaveMultiset(c', p');
      var rest := Interleave(c', p');
      assert Interleave(c, p) == [c[0], p[0]] + rest;
      assert multiset([c[0], p[0]] + rest) == multiset{c[0], p[0]} + multiset(rest);
      ConsMultiset(c);
      ConsMultiset(p);
    }
  }

  /** Position 2k holds c[k] and position 2k+1 holds p[k] while both last. */
  lemma {:induction false} InterleaveAt<T>(c: seq<T>, p: seq<T>, k: nat)
    requires k < |c| && k < |p|
    ensures Interleave(c, p)[2 * k] == c[k] && Interleave(c, p)[2 * k + 1] == p[k]
  {
    if k > 0 {
      InterleaveAt(c[1..], p[1..], k - 1);
    }
  }

  /** After the pairs comes the leftover tail of the longer side. */
  lemma {:induction false} InterleaveTail<T>(c: seq<T>, p: seq<T>)
    ensures Interleave(c, p)[2 * Min(|c|, |p|)..] == c[Min(|c|, |p|)..] + p[Min(|c|, |p|)..]
  {
    if c != [] && p != [] {
      var c', p' := c[1..], p[1..];
      InterleaveTail(c', p');
      var k := Min(|c'|, |p'|);
      assert Min(|c|, |p|) == k + 1;
      var r, rest := Interleave(c, p), Interleave(c', p');
      assert r == [c[0], p[0]] + rest;
      assert r[2 * k + 2..] == rest[2 * k..];
      assert c[k + 1..] == c'[k..] && p[k + 1..] == p'[k..];
    }
  }

  /** Nothing after the two heads shares an id with either head. */
  lemma RestIds<T(!new), K>(c: seq<T>, p: seq<T>, id: T -> K)
    requires c != [] && p != []
    requires DistinctBy(c, id) && DistinctBy(p, id)
    requires forall i, j :: 0 <= i < |c| && 0 <= j < |p| ==> id(c[i]) != id(p[j])
    ensures forall x | x in Interleave(c[1..], p[1..]) :: id(x) != id(c[0]) && id(x) != id(p[0])
  {
    var c', p' := c[1..], p[1..];
    InterleaveMultiset(c', p');
    forall x | x in Interleave(c', p') ensures id(x) != id(c[0]) && id(x) != id(p[0]) {
      assert x in multiset(c') + multiset(p');
      if x in c' {
        var j :| 0 <= j < |c'| && c'[j] == x;
        assert c[j + 1] == x;
      } else {
        var j :| 0 <= j < |p'| && p'[j] == x;
        assert p[j + 1] == x;
      }
    }
  }

  lemma {:induction false} InterleaveDistinct<T(!new), K>(c: seq<T>, p: seq<T>, id: T -> K)
    requires DistinctBy(c, id) && DistinctBy(p, id)
    requires forall i, j :: 0 <= i < |c| && 0 <= j < |p| ==> id(c[i]) != id(p[j])
    ensures DistinctBy(Interleave(c, p), id)
  {
    if c != [] && p != [] {
      var c', p' := c[1..], p[1..];
      assert DistinctBy(c', id) && DistinctBy(p', id) by {
        assert forall i :: 0 <= i < |c'| ==> c'[i] == c[i + 1];
        assert forall i :: 0 <= i < |p'| ==> p'[i] == p[i + 1];
      }
      InterleaveDistinct(c', p', id);
      RestIds(c, p, id);
      var rest := Interleave(c', p');
      var r := Interleave(c, p);
      assert r == [c[0], p[0]] + rest;
      forall i, j | 0 <= i < j < |r| ensures id(r[i]) != id(r[j]) {
        if i >= 2 {
          assert r[i] == rest[i - 2] && r[j] == rest[j - 2];
        } else if j >= 2 {
          assert r[j] == rest[j - 2];
          assert r[j] in rest;
        } else {
          assert id(c[0]) != id(p[0]);
        }
      }
    }
  }

  // Properties of the blended playlist

  /**
   * The playlist is exactly the interleaving of the two selections (the
   * final slice never cuts), and no side is backfilled: the creator gives
   * min(round(length * ratio), available) tracks and the partner
   * min(length - round(length * ratio), available).
   */
  lemma BlendCounts(creator: seq<Track>, partner: seq<Track>, ratio: real, length: nat)
    requires 0.0 <= ratio <= 1.0
    ensures
      var cs, ps := CreatorSelected(creator, partner, ratio, length), PartnerSelected(partner, ratio, length);
      var n := CreatorCount(length, ratio);
      && BlendedPlaylist(creator, partner, ratio, length) == Interleave(cs, ps)
      && |cs| == Min(n, |CreatorPool(creator, partner)|)
      && |ps| == Min(length - n, |Unique(partner)|)
      && |BlendedPlaylist(creator, partner, ratio, length)| == |cs| + |ps| <= length
  {
  }

  /** c0, p0, c1, p1, ... followed by the leftover tail of the longer selection. */
  lemma BlendShape(creator: seq<Track>, partner: seq<Track>, ratio: real, length: nat)
    requires 0.0 <= ratio <= 1.0
    ensures
      var cs, ps := CreatorSelected(creator, partner, ratio, length), PartnerSelected(partner, ratio, length);
      var r, m := BlendedPlaylist(creator, partner, ratio, length), Min(|cs|, |ps|);
      && (forall k :: 0 <= k < m ==> r[2 * k] == cs[k] && r[2 * k + 1] == ps[k])
      && r[2 * m..] == cs[m..] + ps[m..]
  {
    var cs, ps := CreatorSelected(creator, partner, ratio, length), PartnerSelected(partner, ratio, length);
    BlendCounts(creator, partner, ratio, length);
    forall k | 0 <= k < Min(|cs|, |ps|) ensures Interleave(cs, ps)[2 * k] == cs[k] && Interleave(cs, ps)[2 * k + 1] == ps[k] {
      InterleaveAt(cs, ps, k);
    }
    InterleaveTail(cs, ps);
  }

  /**
   * Each side's selection is its highest-ranked candidates in non-increasing
   * popularity: a candidate left out is no more popular than any chosen.
   */
  lemma SelectionRanked(creator: seq<Track>, partner: seq<Track>, ratio: real, length: nat)
    requires 0.0 <= ratio <= 1.0
    ensures var cs := CreatorSelected(creator, partner, ratio, length);
      && SortedDesc(cs, Popularity)
      && forall t :: t in CreatorPool(creator, partner) ==>
           t in cs || forall u :: u in cs ==> u.popularity >= t.popularity
    ensures var ps := PartnerSelected(partner, ratio, length);
      && SortedDesc(ps, Popularity)
      && forall t :: t in Unique(partner) ==>
           t in ps || forall u :: u in ps ==> u.popularity >= t.popularity
  {
    TakeIsTop(CreatorPool(creator, partner), Popularity, CreatorCount(length, ratio));
    TakeIsTop(Unique(partner), Popularity, length - CreatorCount(length, ratio));
  }

  lemma TakeSortedMember<T(!new)>(s: seq<T>, key: T -> real, n: nat, x: T)
    requires x in Take(SortDesc(s, key), n)
    ensures x in s
  {
    assert x in SortDesc(s, key);
    assert x in multiset(SortDesc(s, key));
  }

  /**
   * Where the tracks come from: a creator-sourced track is the creator's
   * last record for its id and shares no id with the partner's list; a
   * partner-sourced track is the partner's last record for its id.
   */
  lemma SelectionSources(creator: seq<Track>, partner: seq<Track>, ratio: real, length: nat)
    requires 0.0 <= ratio <= 1.0
    ensures forall t :: t in CreatorSelected(creator, partner, ratio, length) ==>
      Lookup(creator, t.id, TrackId) == Some(t) && t.id !in KeysOf(partner, TrackId)
    ensures forall t :: t in PartnerSelected(partner, ratio, length) ==>
      Lookup(partner, t.id, TrackId) == Some(t)
  {
    var pool := CreatorPool(creator, partner);
    var ids := KeysOf(Unique(partner), TrackId);
    DedupKeys(partner, TrackId);
    forall t | t in CreatorSelected(creator, partner, ratio, length)
      ensures Lookup(creator, t.id, TrackId) == Some(t) && t.id !in KeysOf(partner, TrackId)
    {
      TakeSortedMember(pool, Popularity, CreatorCount(length, ratio), t);
      FilterMembers(Unique(creator), NotIn(ids));
      DedupMember(creator, t, TrackId);
    }
    forall t | t in PartnerSelected(partner, ratio, length)
      ensures Lookup(partner, t.id, TrackId) == Some(t)
    {
      TakeSortedMember(Unique(partner), Popularity, length - CreatorCount(length, ratio), t);
      DedupMember(partner, t, TrackId);
    }
  }

  /**
   * Every track of the playlist is a record of the inputs; a track whose id
   * the partner has is the partner's record, any other the creator's.
   */
  lemma BlendSources(creator: seq<Track>, partner: seq<Track>, ratio: real, length: nat)
    requires 0.0 <= ratio <= 1.0
    ensures forall t :: t in BlendedPlaylist(creator, partner, ratio, length) ==>
      if t.id in KeysOf(partner, TrackId) then Lookup(partner, t.id, TrackId) == Some(t) && t in partner
      else Lookup(creator, t.id, TrackId) == Some(t) && t in creator
  {
    var cs, ps := CreatorSelected(creator, partner, ratio, length), PartnerSelected(partner, ratio, length);
    BlendCounts(creator, partner, ratio, length);
    SelectionSources(creator, partner, ratio, length);
    InterleaveMultiset(cs, ps);
    forall t | t in BlendedPlaylist(creator, partner, ratio, length)
      ensures if t.id in KeysOf(partner, TrackId) then Lookup(partner, t.id, TrackId) == Some(t) && t in partner
              else Lookup(creator, t.id, TrackId) == Some(t) && t in creator
    {
      assert t in multiset(cs) + multiset(ps);
      if t in ps {
        assert t in partner;
      }
    }
  }

  /** No track id appears twice in the playlist. */
  lemma BlendDistinct(creator: seq<Track>, partner: seq<Track>, ratio: real, length: nat)
    requires 0.0 <= ratio <= 1.0
    ensures DistinctBy(BlendedPlaylist(creator, partner, ratio, length), TrackId)
  {
    var cs, ps := CreatorSelected(creator, partner, ratio, length), PartnerSelected(partner, ratio, length);
    var pool := CreatorPool(creator, partner);
    BlendCounts(creator, partner, ratio, length);
    DedupIsLastWins(creator, TrackId);
    DedupIsLastWins(partner, TrackId);
    FilterDistinct(Unique(creator), NotIn(KeysOf(Unique(partner), TrackId)), TrackId);
    SortDistinct(pool, Popularity, TrackId);
    SortDistinct(Unique(partner), Popularity, TrackId);
    SelectionSources(creator, partner, ratio, length);
    forall i, j | 0 <= i < |cs| && 0 <= j < |ps| ensures cs[i].id != ps[j].id {
      assert cs[i] in cs && ps[j] in ps;
      assert ps[j].id in KeysOf(partner, TrackId);
    }
    InterleaveDistinct(cs, ps, TrackId);
  }

  /** A target length of 0 gives the empty playlist. */
  lemma BlendEmptyLength(creator: seq<Track>, partner: seq<Track>, ratio: real)
    requires 0.0 <= ratio <= 1.0
    ensures BlendedPlaylist(creator, partner, ratio, 0) == []
  {
    BlendCounts(creator, partner, ratio, 0);
  }

  function SampleTrack(id: string, popularity: int): Track {
    Track(id, id, [], Album("", "", None), "", popularity)
  }

  lemma UniquePair(x: Track, y: Track)
    requires x.id != y.id
    ensures Unique([x, y]) == [x, y]
  {
    assert [x, y][1..] == [y];
    assert [y][1..] == [];
    assert Upsert([], x, TrackId) == [x];
    assert Upsert([x], y, TrackId) == [x] + Upsert([], y, TrackId);
    assert UpsertAll([], [x, y], TrackId) == UpsertAll([x], [y], TrackId);
    assert UpsertAll([x], [y], TrackId) == UpsertAll([x, y], [], TrackId);
  }

  /** With ratio 0.5 and length 2 each side contributes one track. */
  lemma HalfOfTwo(length: nat, ratio: real)
    requires length == 2 && ratio == 0.5
    ensures CreatorCount(length, ratio) == 1
  {
  }

  /** A creator track whose id the partner also has leaves the creator's pool. */
  lemma PoolDropsShared(a: Track, b: Track, p: Track, c: Track)
    requires a.id != b.id && b.id == p.id && p.id != c.id && a.id != c.id
    ensures CreatorPool([a, b], [p, c]) == [a]
  {
    UniquePair(a, b);
    UniquePair(p, c);
    var ids := KeysOf([p, c], TrackId);
    assert a.id !in ids && b.id in ids by {
      assert p in [p, c];
      assert forall x | x in [p, c] :: x == p || x == c;
    }
    assert [a, b][1..] == [b];
    assert [b][1..] == [];
    assert Filter([b], NotIn(ids)) == [];
  }

  lemma ScenarioCreatorSide(a: Track, b5: Track, b8: Track, c: Track, ratio: real, length: nat)
    requires a.id != b5.id && b5.id == b8.id && b8.id != c.id && a.id != c.id
    requires length == 2 && ratio == 0.5
    ensures CreatorSelected([a, b5], [b8, c], ratio, length) == [a]
  {
    PoolDropsShared(a, b5, b8, c);
    HalfOfTwo(length, ratio);
    assert SortDesc([a], Popularity) == [a] by {
      assert [a][..0] == [];
    }
  }

  lemma ScenarioPartnerSide(b8: Track, c: Track, ratio: real, length: nat)
    requires b8.id != c.id && Popularity(b8) > Popularity(c)
    requires length == 2 && ratio == 0.5
    ensures PartnerSelected([b8, c], ratio, length) == [b8]
  {
    UniquePair(b8, c);
    HalfOfTwo(length, ratio);
    SortPair(b8, c, Popularity);
    assert Take([b8, c], 1) == [b8];
  }

  /**
   * Creator [A(90), B(50)], partner [B(80), C(60)], ratio 0.5, length 2:
   * B leaves the creator's pool, each side gives one track, and the
   * playlist is [A, B(80)].
   */
  lemma BlendScenario()
    ensures BlendedPlaylist([SampleTrack("A", 90), SampleTrack("B", 50)],
                            [SampleTrack("B", 80), SampleTrack("C", 60)], 0.5, 2)
            == [SampleTrack("A", 90), SampleTrack("B", 80)]
  {
    var a, b5, b8, c := SampleTrack("A", 90), SampleTrack("B", 50), SampleTrack("B", 80), SampleTrack("C", 60);
    ScenarioCreatorSide(a, b5, b8, c, 0.5, 2);
    ScenarioPartnerSide(b8, c, 0.5, 2);
    assert Interleave([a], [b8]) == [a, b8];
  }
}
