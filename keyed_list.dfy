/**
 * Insertion-ordered collections keyed by a string, as a JavaScript `Map`
 * or a plain object behaves: assigning an existing key replaces its record
 * in place, assigning a new key appends it, and a lookup yields the record
 * assigned last.
 */
module KeyedList {
  import opened Wrappers
  import opened Seqs

  /** Assigns `x` under its key: in place when the key is present, appended otherwise. */
  function Upsert<T(==)>(s: seq<T>, x: T, key: T -> string): (r: seq<T>)
    ensures |s| <= |r| <= |s| + 1
    ensures forall i :: 0 <= i < |s| ==> key(r[i]) == key(s[i])
    ensures x in r
    ensures forall i :: 0 <= i < |r| ==> r[i] == x || r[i] in s
  {
    if s == [] then [x]
    else if key(s[0]) == key(x) then [x] + s[1..]
    else [s[0]] + Upsert(s[1..], x, key)
  }

  /** The record last assigned under key `k`, if any. */
  function Lookup<T>(s: seq<T>, k: string, key: T -> string): (r: Option<T>)
    ensures r.Some? ==> r.value in s && key(r.value) == k
    ensures r.None? ==> forall i :: 0 <= i < |s| ==> key(s[i]) != k
  {
    if s == [] then None
    else
      var later := Lookup(s[1..], k, key);
      if later.Some? then later
      else if key(s[0]) == k then Some(s[0])
      else None
  }

  /** Lookup finds the last record carrying the key. */
  lemma {:induction false} LookupIsLast<T>(s: seq<T>, k: string, key: T -> string, i: nat)
    requires i < |s| && key(s[i]) == k
    requires forall j :: i < j < |s| ==> key(s[j]) != k
    ensures Lookup(s, k, key) == Some(s[i])
  {
    if i > 0 {
      LookupIsLast(s[1..], k, key, i - 1);
    } else {
      assert Lookup(s[1..], k, key).None?;
    }
  }

  lemma {:induction false} UpsertDistinct<T(!new)>(s: seq<T>, x: T, key: T -> string)
    requires DistinctBy(s, key)
    ensures DistinctBy(Upsert(s, x, key), key)
  {
    if s != [] && key(s[0]) != key(x) {
      UpsertDistinct(s[1..], x, key);
      var rest := Upsert(s[1..], x, key);
      forall i | 0 <= i < |rest| ensures key(rest[i]) != key(s[0]) {
        if rest[i] != x {
          var j :| 0 <= j < |s[1..]| && s[1..][j] == rest[i];
          assert s[j + 1] == rest[i];
        }
      }
    }
  }

  lemma {:induction false} LookupUpsert<T(!new)>(s: seq<T>, x: T, key: T -> string, k: string)
    requires DistinctBy(s, key)
    ensures Lookup(Upsert(s, x, key), k, key)
         == if k == key(x) then Some(x) else Lookup(s, k, key)
  {
    if s == [] {
    } else if key(s[0]) == key(x) {
      assert Upsert(s, x, key)[1..] == s[1..];
      assert forall j :: 0 <= j < |s[1..]| ==> key(s[1..][j]) != key(s[0]) by {
        forall j | 0 <= j < |s[1..]| ensures key(s[1..][j]) != key(s[0]) {
          assert s[1..][j] == s[j + 1];
        }
      }
    } else {
      LookupUpsert(s[1..], x, key, k);
      assert Upsert(s, x, key)[1..] == Upsert(s[1..], x, key);
    }
  }

  /** Assigns every record of `xs` in order, as a loop of `m.set(key(x), x)` does. */
  function UpsertAll<T(==)>(s: seq<T>, xs: seq<T>, key: T -> string): (r: seq<T>)
    ensures |s| <= |r|
    ensures forall i :: 0 <= i < |s| ==> key(r[i]) == key(s[i])
    ensures forall i :: 0 <= i < |r| ==> r[i] in s || r[i] in xs
    decreases |xs|
  {
    if xs == [] then s
    else
      var s' := Upsert(s, xs[0], key);
      var r := UpsertAll(s', xs[1..], key);
      assert forall i :: 0 <= i < |r| ==> r[i] in s || r[i] == xs[0] || r[i] in xs[1..];
      r
  }

  lemma {:induction false} UpsertAllDistinct<T(!new)>(s: seq<T>, xs: seq<T>, key: T -> string)
    requires DistinctBy(s, key)
    ensures DistinctBy(UpsertAll(s, xs, key), key)
    decreases |xs|
  {
    if xs != [] {
      UpsertDistinct(s, xs[0], key);
      UpsertAllDistinct(Upsert(s, xs[0], key), xs[1..], key);
    }
  }

  /** After assigning `xs`, a key holds its last record in `xs`, or its old record when `xs` lacks it. */
  lemma {:induction false} LookupUpsertAll<T(!new)>(s: seq<T>, xs: seq<T>, key: T -> string, k: string)
    requires DistinctBy(s, key)
    ensures Lookup(UpsertAll(s, xs, key), k, key)
         == if Lookup(xs, k, key).Some? then Lookup(xs, k, key) else Lookup(s, k, key)
    decreases |xs|
  {
    if xs != [] {
      UpsertDistinct(s, xs[0], key);
      LookupUpsert(s, xs[0], key, k);
      LookupUpsertAll(Upsert(s, xs[0], key), xs[1..], key, k);
    }
  }

  /** The records of `xs` with one record per key, as `Array.from(new Map(xs.map(x => [key(x), x])).values())`. */
  function Dedup<T(==,!new)>(xs: seq<T>, key: T -> string): (r: seq<T>)
    ensures |r| <= |xs|
    ensures forall i :: 0 <= i < |r| ==> r[i] in xs
  {
    DedupLength(xs, key);
    UpsertAll([], xs, key)
  }

  lemma {:induction false} UpsertAllLength<T(!new)>(s: seq<T>, xs: seq<T>, key: T -> string)
    ensures |UpsertAll(s, xs, key)| <= |s| + |xs|
    decreases |xs|
  {
    if xs != [] {
      UpsertAllLength(Upsert(s, xs[0], key), xs[1..], key);
    }
  }

  lemma DedupLength<T(!new)>(xs: seq<T>, key: T -> string)
    ensures |UpsertAll([], xs, key)| <= |xs|
  {
    UpsertAllLength([], xs, key);
  }

  /** Deduplication leaves one record per key, and that record is the last one `xs` holds for it. */
  lemma DedupIsLastWins<T(!new)>(xs: seq<T>, key: T -> string)
    ensures DistinctBy(Dedup(xs, key), key)
    ensures forall k :: Lookup(Dedup(xs, key), k, key) == Lookup(xs, k, key)
  {
    UpsertAllDistinct([], xs, key);
    forall k ensures Lookup(Dedup(xs, key), k, key) == Lookup(xs, k, key) {
      LookupUpsertAll([], xs, key, k);
    }
  }

  // Key order

  /** The keys of `s`, in order. */
  function KeySeq<T>(s: seq<T>, key: T -> string): seq<string> {
    if s == [] then [] else [key(s[0])] + KeySeq(s[1..], key)
  }

  /** The keys of `xs` not yet in `seen`, each once, in the order they first occur. */
  function NewKeys<T>(seen: seq<string>, xs: seq<T>, key: T -> string): seq<string>
    decreases |xs|
  {
    if xs == [] then []
    else if key(xs[0]) in seen then NewKeys(seen, xs[1..], key)
    else [key(xs[0])] + NewKeys(seen + [key(xs[0])], xs[1..], key)
  }

  /** The position of the first record with key `k`, or |xs| when none has it. */
  function FirstIndex<T>(xs: seq<T>, k: string, key: T -> string): (i: nat)
    ensures i <= |xs|
    ensures i < |xs| ==> key(xs[i]) == k
    ensures forall j :: 0 <= j < i ==> key(xs[j]) != k
  {
    if xs == [] then 0
    else if key(xs[0]) == k then 0
    else 1 + FirstIndex(xs[1..], k, key)
  }

  /** Map.set on a present key keeps the key order; on a new key it appends the key. */
  lemma {:induction false} UpsertKeys<T>(s: seq<T>, x: T, key: T -> string)
    ensures KeySeq(Upsert(s, x, key), key)
         == if key(x) in KeySeq(s, key) then KeySeq(s, key) else KeySeq(s, key) + [key(x)]
  {
    if s != [] && key(s[0]) != key(x) {
      UpsertKeys(s[1..], x, key);
      assert ([s[0]] + Upsert(s[1..], x, key))[1..] == Upsert(s[1..], x, key);
    } else if s != [] {
      assert ([x] + s[1..])[1..] == s[1..];
    }
  }

  /** Assigning `xs` keeps the old keys first and appends the new ones in first-occurrence order. */
  lemma {:induction false} UpsertAllKeys<T>(s: seq<T>, xs: seq<T>, key: T -> string)
    ensures KeySeq(UpsertAll(s, xs, key), key) == KeySeq(s, key) + NewKeys(KeySeq(s, key), xs, key)
    decreases |xs|
  {
    if xs != [] {
      var ks := KeySeq(s, key);
      var k0 := key(xs[0]);
      var s' := Upsert(s, xs[0], key);
      assert UpsertAll(s, xs, key) == UpsertAll(s', xs[1..], key);
      UpsertKeys(s, xs[0], key);
      UpsertAllKeys(s', xs[1..], key);
      if k0 in ks {
        assert KeySeq(s', key) == ks;
        assert NewKeys(ks, xs, key) == NewKeys(ks, xs[1..], key);
      } else {
        assert KeySeq(s', key) == ks + [k0];
        var rest := NewKeys(ks + [k0], xs[1..], key);
        assert NewKeys(ks, xs, key) == [k0] + rest;
        assert ks + [k0] + rest == ks + ([k0] + rest);
      }
    }
  }

  lemma {:induction false} NewKeysFresh<T>(seen: seq<string>, xs: seq<T>, key: T -> string, k: string)
    requires k in NewKeys(seen, xs, key)
    ensures k !in seen
    decreases |xs|
  {
    if key(xs[0]) in seen {
      NewKeysFresh(seen, xs[1..], key, k);
    } else if k != key(xs[0]) {
      NewKeysFresh(seen + [key(xs[0])], xs[1..], key, k);
    }
  }

  /** Keys of the tail that differ from the head's key start one position later in the whole. */
  lemma FirstIndexTail<T>(xs: seq<T>, k: string, key: T -> string)
    requires xs != [] && key(xs[0]) != k
    ensures FirstIndex(xs, k, key) == 1 + FirstIndex(xs[1..], k, key)
  {
  }

  /** The new keys are listed in the order of their first positions in `xs`. */
  lemma {:induction false} NewKeysOrdered<T>(seen: seq<string>, xs: seq<T>, key: T -> string, i: nat, j: nat)
    requires i < j < |NewKeys(seen, xs, key)|
    ensures FirstIndex(xs, NewKeys(seen, xs, key)[i], key) < FirstIndex(xs, NewKeys(seen, xs, key)[j], key)
    decreases |xs|
  {
    var nk := NewKeys(seen, xs, key);
    var k0 := key(xs[0]);
    if k0 in seen {
      NewKeysFresh(seen, xs[1..], key, nk[i]);
      NewKeysFresh(seen, xs[1..], key, nk[j]);
      FirstIndexTail(xs, nk[i], key);
      FirstIndexTail(xs, nk[j], key);
      NewKeysOrdered(seen, xs[1..], key, i, j);
    } else {
      var rest := NewKeys(seen + [k0], xs[1..], key);
      assert nk == [k0] + rest;
      NewKeysFresh(seen + [k0], xs[1..], key, rest[j - 1]);
      assert nk[j] == rest[j - 1] != k0;
      FirstIndexTail(xs, nk[j], key);
      if i > 0 {
        NewKeysFresh(seen + [k0], xs[1..], key, rest[i - 1]);
        assert nk[i] == rest[i - 1] != k0;
        FirstIndexTail(xs, nk[i], key);
        NewKeysOrdered(seen + [k0], xs[1..], key, i - 1, j - 1);
      }
    }
  }

  lemma {:induction false} KeySeqAt<T>(s: seq<T>, key: T -> string, i: nat)
    requires i < |s|
    ensures |KeySeq(s, key)| == |s| && KeySeq(s, key)[i] == key(s[i])
    decreases |s|
  {
    if i > 0 {
      KeySeqAt(s[1..], key, i - 1);
    } else {
      KeySeqLength(s[1..], key);
    }
  }

  lemma {:induction false} KeySeqLength<T>(s: seq<T>, key: T -> string)
    ensures |KeySeq(s, key)| == |s|
    decreases |s|
  {
    if s != [] {
      KeySeqLength(s[1..], key);
    }
  }

  /**
   * `new Map(...)` keeps each key where it first occurs: the records it
   * keeps are in the order of their keys' first positions in `xs`.
   */
  lemma DedupOrder<T(!new)>(xs: seq<T>, key: T -> string, i: nat, j: nat)
    requires i < j < |Dedup(xs, key)|
    ensures FirstIndex(xs, key(Dedup(xs, key)[i]), key) < FirstIndex(xs, key(Dedup(xs, key)[j]), key)
  {
    var r := Dedup(xs, key);
    UpsertAllKeys([], xs, key);
    assert KeySeq(r, key) == NewKeys([], xs, key);
    KeySeqAt(r, key, i);
    KeySeqAt(r, key, j);
    NewKeysOrdered([], xs, key, i, j);
  }

  /** A key is present exactly when a lookup finds it. */
  lemma LookupFindsKeys<T(!new)>(s: seq<T>, k: string, key: T -> string)
    ensures Lookup(s, k, key).Some? <==> k in KeysOf(s, key)
  {
  }

  /** In a sequence without duplicate keys, a record is what its key looks up. */
  lemma LookupDistinctMember<T(!new)>(s: seq<T>, x: T, key: T -> string)
    requires DistinctBy(s, key) && x in s
    ensures Lookup(s, key(x), key) == Some(x)
  {
    var i :| 0 <= i < |s| && s[i] == x;
    LookupIsLast(s, key(x), key, i);
  }

  /** Deduplication keeps every key and no other. */
  lemma DedupKeys<T(!new)>(xs: seq<T>, key: T -> string)
    ensures KeysOf(Dedup(xs, key), key) == KeysOf(xs, key)
  {
    DedupIsLastWins(xs, key);
    forall k ensures k in KeysOf(Dedup(xs, key), key) <==> k in KeysOf(xs, key) {
      LookupFindsKeys(Dedup(xs, key), k, key);
      LookupFindsKeys(xs, k, key);
    }
  }

  /** Every record deduplication keeps is the last one `xs` holds for its key. */
  lemma DedupMember<T(!new)>(xs: seq<T>, x: T, key: T -> string)
    requires x in Dedup(xs, key)
    ensures Lookup(xs, key(x), key) == Some(x)
  {
    DedupIsLastWins(xs, key);
    LookupDistinctMember(Dedup(xs, key), x, key);
  }
}
