/**
 * Cutting a sequence into consecutive batches of at most ten items, the
 * largest number of entries one BatchPutAssetPropertyValue request accepts.
 * Both the time-series partitioning and the arbitrary-sample writer cut at
 * this size.
 */
module Batching {

  const Limit: nat := 10

  function Min(a: int, b: int): int
  {
    if a < b then a else b
  }

  /** The consecutive batches of `s`: every one non-empty, none longer than Limit, all but the last full. */
  function Chunks<T>(s: seq<T>): (cs: seq<seq<T>>)
    ensures forall k :: 0 <= k < |cs| ==> 0 < |cs[k]| <= Limit
    ensures forall k :: 0 <= k < |cs| - 1 ==> |cs[k]| == Limit
    decreases |s|
  {
    if |s| == 0 then []
    else if |s| <= Limit then [s]
    else [s[..Limit]] + Chunks(s[Limit..])
  }

  /** Concatenation of batches in order. */
  function Flatten<T>(cs: seq<seq<T>>): seq<T>
  {
    if cs == [] then [] else cs[0] + Flatten(cs[1..])
  }

  /** Flattening one more batch appends it. */
  lemma {:induction false} FlattenSnoc<T>(cs: seq<seq<T>>, c: seq<T>)
    ensures Flatten(cs + [c]) == Flatten(cs) + c
    decreases |cs|
  {
    if cs != [] {
      assert (cs + [c])[1..] == cs[1..] + [c];
      FlattenSnoc(cs[1..], c);
    }
  }

  /** Flattening one more leading batch of a sequence appends that batch. */
  lemma FlattenPrefixStep<T>(cs: seq<seq<T>>, k: nat)
    requires k < |cs|
    ensures Flatten(cs[..k + 1]) == Flatten(cs[..k]) + cs[k]
  {
    FlattenSnoc(cs[..k], cs[k]);
    assert cs[..k + 1] == cs[..k] + [cs[k]];
  }


  /** Flattening batches that are all empty gives nothing. */
  lemma {:induction false} FlattenEmpty<T>(cs: seq<seq<T>>)
    requires forall i :: 0 <= i < |cs| ==> cs[i] == []
    ensures Flatten(cs) == []
    decreases |cs|
  {
    if cs != [] {
      FlattenEmpty(cs[1..]);
    }
  }

  /** Putting the batches back together in order gives the original sequence. */
  lemma {:induction false} FlattenChunks<T>(s: seq<T>)
    ensures Flatten(Chunks(s)) == s
    decreases |s|
  {
    if |s| > Limit {
      var cs := Chunks(s);
      assert cs[1..] == Chunks(s[Limit..]);
      FlattenChunks(s[Limit..]);
      assert s[..Limit] + s[Limit..] == s;
    }
  }

  /** There are ceil(|s| / Limit) batches. */
  lemma {:induction false} ChunkCount<T>(s: seq<T>)
    ensures |Chunks(s)| == (|s| + Limit - 1) / Limit
    decreases |s|
  {
    if |s| > Limit {
      ChunkCount(s[Limit..]);
    }
  }

  /** Batch k is the slice starting at Limit * k. */
  lemma {:induction false} ChunkAt<T>(s: seq<T>, k: nat)
    requires k < |Chunks(s)|
    ensures Limit * k < |s|
    ensures Chunks(s)[k] == s[Limit * k .. Min(Limit * k + Limit, |s|)]
    decreases |s|
  {
    if k > 0 {
      ChunkAt(s[Limit..], k - 1);
      assert Chunks(s)[k] == Chunks(s[Limit..])[k - 1];
    }
  }

  /** A sequence of len items has a batch starting at i exactly when i < len. */
  lemma ChunkExists<T>(s: seq<T>, k: nat)
    requires Limit * k < |s|
    ensures k < |Chunks(s)|
  {
    ChunkCount(s);
  }

  /** The batches of a prefix that ends on a batch boundary are a prefix of the batches. */
  lemma {:induction false} ChunksOfFullPrefix<T>(s: seq<T>, k: nat)
    requires Limit * k <= |s|
    ensures k <= |Chunks(s)|
    ensures Chunks(s[..Limit * k]) == Chunks(s)[..k]
    decreases k
  {
    if k > 0 {
      assert |s| > Limit || |s| == Limit;
      if |s| == Limit {
        assert s[..Limit * k] == s;
      } else {
        ChunksOfFullPrefix(s[Limit..], k - 1);
        assert s[..Limit * k][Limit..] == s[Limit..][..Limit * (k - 1)];
        assert s[..Limit * k][..Limit] == s[..Limit];
      }
    }
  }

  /** The batch sizes the partition tests expect for 10, 35 and 60 samples. */
  lemma ChunkSizeExamples<T>(s: seq<T>)
    ensures |s| == 10 ==> |Chunks(s)| == 1
    ensures |s| == 35 ==> |Chunks(s)| == 4 && |Chunks(s)[3]| == 5
    ensures |s| == 60 ==> |Chunks(s)| == 6
  {
    ChunkCount(s);
    if |s| == 35 {
      ChunkAt(s, 3);
    }
  }
}
