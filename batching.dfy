/**
 * Request batching towards the streaming service (blend.ts): the service
 * accepts at most 100 ids per call, so id and URI lists are cut into
 * consecutive slices of 100, and the audio-feature answers, which hold
 * null for unknown ids, are collected without the nulls.
 */
module Batching {
  import opened Wrappers
  import opened Catalog
  import opened Seqs
  import opened Trpc

  const BatchSize: nat := 100

  function MinNat(a: nat, b: nat): nat { if a < b then a else b }

  /** ids.slice(i, i + 100). */
  function SliceAt<T>(ids: seq<T>, i: nat): seq<T>
    requires i <= |ids|
  {
    ids[i..MinNat(i + BatchSize, |ids|)]
  }

  /** Flatten of the first pieces, extended by one more. */
  lemma FlattenPush<T>(pieces: seq<seq<T>>, piece: seq<T>)
    ensures Flatten(pieces + [piece]) == Flatten(pieces) + piece
  {
    assert (pieces + [piece])[..|pieces|] == pieces;
  }

  /**
   * for (let i = 0; i < ids.length; i += 100) batches.push(ids.slice(i, i + 100)):
   * the batches concatenate back to `ids`, there are ceil(n / 100) of them,
   * each holds 1 to 100 ids, and all but the last hold exactly 100.
   */
  method Batches<T>(ids: seq<T>) returns (batches: seq<seq<T>>)
    ensures Flatten(batches) == ids
    ensures |batches| == (|ids| + BatchSize - 1) / BatchSize
    ensures forall k :: 0 <= k < |batches| ==> 1 <= |batches[k]| <= BatchSize
    ensures forall k :: 0 <= k < |batches| - 1 ==> |batches[k]| == BatchSize
  {
    batches := [];
    var i: nat := 0;
    while i < |ids|
      invariant i == BatchSize * |batches|
      invariant i <= |ids| || (|ids| < i < |ids| + BatchSize)
      invariant Flatten(batches) == ids[..MinNat(i, |ids|)]
      invariant forall k :: 0 <= k < |batches| ==> 1 <= |batches[k]| <= BatchSize
      invariant forall k :: 0 <= k < |batches| - 1 ==> |batches[k]| == BatchSize
      invariant i <= |ids| ==> forall k :: 0 <= k < |batches| ==> |batches[k]| == BatchSize
      decreases |ids| - i
    {
      var batch := SliceAt(ids, i);
      FlattenPush(batches, batch);
      assert ids[..MinNat(i + BatchSize, |ids|)] == ids[..i] + batch;
      batches := batches + [batch];
      i := i + BatchSize;
    }
    assert ids[..MinNat(i, |ids|)] == ids;
  }

  /** The non-null entries of one answer, in order (filter(f => f !== null)). */
  function Present<T>(answer: seq<Option<T>>): (r: seq<T>)
    ensures |r| <= |answer|
  {
    if answer == [] then []
    else Present(answer[..|answer| - 1]) + (if answer[|answer| - 1].Some? then [answer[|answer| - 1].value] else [])
  }

  /** A value is kept exactly when some entry of the answer holds it. */
  lemma {:induction false} PresentMembers<T>(answer: seq<Option<T>>)
    ensures forall x :: x in Present(answer) <==> Some(x) in answer
  {
    if answer != [] {
      var init := answer[..|answer| - 1];
      PresentMembers(init);
      assert answer == init + [answer[|answer| - 1]];
    }
  }

  /** One audio-feature call: the service's answer for a batch, or the error the request raised. */
  type FeatureCall = seq<string> -> Result<seq<Option<AudioFeatures>>, Error>

  /** `batches` cuts `ids` into consecutive slices of 1 to 100, all but the last full. */
  predicate IsBatching<T(==)>(batches: seq<seq<T>>, ids: seq<T>) {
    && Flatten(batches) == ids
    && (forall k :: 0 <= k < |batches| ==> 1 <= |batches[k]| <= BatchSize)
    && (forall k :: 0 <= k < |batches| - 1 ==> |batches[k]| == BatchSize)
  }

  /**
   * The records gathered from the answers to the given batches, batch by
   * batch; a failed call ends the gathering with its error.
   */
  function Collected(batches: seq<seq<string>>, fetch: FeatureCall): Result<seq<AudioFeatures>, Error> {
    if batches == [] then Success([])
    else
      var before := Collected(batches[..|batches| - 1], fetch);
      var answer := fetch(batches[|batches| - 1]);
      if before.Failure? then before
      else if answer.Failure? then Failure(answer.error)
      else Success(before.value + Present(answer.value))
  }

  /** Once the gathering has failed on a prefix of the batches, later batches do not change its outcome. */
  lemma {:induction false} CollectedPrefixFailure(batches: seq<seq<string>>, m: nat, fetch: FeatureCall)
    requires m <= |batches| && Collected(batches[..m], fetch).Failure?
    ensures Collected(batches, fetch) == Collected(batches[..m], fetch)
    decreases |batches|
  {
    if m < |batches| {
      var init := batches[..|batches| - 1];
      assert init[..m] == batches[..m];
      CollectedPrefixFailure(init, m, fetch);
    } else {
      assert batches[..m] == batches;
    }
  }

  /**
   * The gathering fails exactly when some call fails, and then with the
   * error of the first call that failed.
   */
  lemma {:induction false} CollectedFirstFailure(batches: seq<seq<string>>, fetch: FeatureCall)
    ensures Collected(batches, fetch).Failure? <==> exists k :: 0 <= k < |batches| && fetch(batches[k]).Failure?
    ensures Collected(batches, fetch).Failure? ==>
      exists k :: 0 <= k < |batches| && fetch(batches[k]).Failure?
        && Collected(batches, fetch).error == fetch(batches[k]).error
        && forall j :: 0 <= j < k ==> fetch(batches[j]).Success?
  {
    if batches != [] {
      var init := batches[..|batches| - 1];
      var n := |batches| - 1;
      CollectedFirstFailure(init, fetch);
      assert forall j :: 0 <= j < n ==> init[j] == batches[j];
      if Collected(init, fetch).Failure? {
        var k :| 0 <= k < |init| && fetch(init[k]).Failure?
          && Collected(init, fetch).error == fetch(init[k]).error
          && forall j :: 0 <= j < k ==> fetch(init[j]).Success?;
        assert batches[k] == init[k];
      } else {
        assert forall j :: 0 <= j < n ==> fetch(batches[j]).Success?;
      }
    }
  }

  /**
   * fetchAudioFeatures with the service call as the parameter `fetch`: no
   * call for an empty id list, otherwise one call per batch in order, every
   * non-null answer kept, and the first failed call's error raised.
   */
  method FetchAudioFeatures(trackIds: seq<string>, fetch: FeatureCall)
    returns (batches: seq<seq<string>>, all: Result<seq<AudioFeatures>, Error>)
    ensures trackIds == [] ==> batches == [] && all == Success([])
    ensures IsBatching(batches, trackIds)
    ensures all == Collected(batches, fetch)
  {
    if |trackIds| == 0 {
      return [], Success([]);
    }
    batches := Batches(trackIds);
    var got: seq<AudioFeatures> := [];
    var k := 0;
    while k < |batches|
      invariant 0 <= k <= |batches|
      invariant Collected(batches[..k], fetch) == Success(got)
    {
      assert batches[..k + 1][..k] == batches[..k];
      var answer := fetch(batches[k]);
      if answer.Failure? {
        CollectedPrefixFailure(batches, k + 1, fetch);
        return batches, Failure(answer.error);
      }
      got := got + Present(answer.value);
      k := k + 1;
    }
    assert batches[..k] == batches;
    all := Success(got);
  }

  /** When the service answers each id with at most one entry, there are no more records than ids. */
  lemma {:induction false} CollectedCount(batches: seq<seq<string>>, fetch: FeatureCall)
    requires forall k :: 0 <= k < |batches| && fetch(batches[k]).Success? ==> |fetch(batches[k]).value| <= |batches[k]|
    ensures Collected(batches, fetch).Success? ==> |Collected(batches, fetch).value| <= |Flatten(batches)|
  {
    if batches != [] {
      CollectedCount(batches[..|batches| - 1], fetch);
    }
  }

  /** Every record gathered is a non-null entry of the answer to one of the batches. */
  lemma {:induction false} CollectedSound(batches: seq<seq<string>>, fetch: FeatureCall)
    ensures Collected(batches, fetch).Success? ==>
      forall f :: f in Collected(batches, fetch).value ==>
        exists k :: 0 <= k < |batches| && fetch(batches[k]).Success? && Some(f) in fetch(batches[k]).value
  {
    if batches != [] && Collected(batches, fetch).Success? {
      var init, last := batches[..|batches| - 1], batches[|batches| - 1];
      CollectedSound(init, fetch);
      PresentMembers(fetch(last).value);
      forall f | f in Collected(batches, fetch).value
        ensures exists k :: 0 <= k < |batches| && fetch(batches[k]).Success? && Some(f) in fetch(batches[k]).value
      {
        if f in Collected(init, fetch).value {
          var k :| 0 <= k < |init| && fetch(init[k]).Success? && Some(f) in fetch(init[k]).value;
          assert batches[k] == init[k];
        } else {
          assert Some(f) in fetch(batches[|batches| - 1]).value;
        }
      }
    }
  }

  /** The playlist URI of a track: "spotify:track:" followed by its id. */
  function TrackUri(t: Track): (u: string)
    ensures |u| == 14 + |t.id|
    ensures u[..14] == "spotify:track:" && u[14..] == t.id
  {
    "spotify:track:" + t.id
  }

  function TrackUris(tracks: seq<Track>): (r: seq<string>)
    ensures |r| == |tracks|
    ensures forall i :: 0 <= i < |r| ==> r[i] == TrackUri(tracks[i])
  {
    seq(|tracks|, i requires 0 <= i < |tracks| => TrackUri(tracks[i]))
  }

  /** Distinct track ids give distinct URIs. */
  lemma TrackUriInjective(a: Track, b: Track)
    ensures TrackUri(a) == TrackUri(b) <==> a.id == b.id
  {
    if TrackUri(a) == TrackUri(b) {
      assert a.id == TrackUri(a)[14..];
    }
  }
}
