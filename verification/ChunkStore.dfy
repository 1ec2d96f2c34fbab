/** core/remote_chunk_store.go and core/cache.go: which chunks a provider has, asked in batches and remembered in a
    cache that may forget anything at any time. */
module ChunkStore {
  import opened Hlc
  import opened Sorting

  type ChunkHash = string

  const MAX_HAS_MANY_BATCH_SIZE := 16 * 1024

  /** The provider at each call: the chunks it has when it answers the k-th request, or None when the call fails. */
  type Provider = nat -> Option<set<ChunkHash>>

  /** A provider that loses nothing: it has `before` when the first request arrives and `after` at the end. */
  ghost predicate Between(provider: Provider, before: set<ChunkHash>, after: set<ChunkHash>) {
    before <= after && forall k: nat :: provider(k).Some? ==> before <= provider(k).value <= after
  }

  class MapChunkCache {
    var has: set<ChunkHash>

    constructor ()
      ensures has == {}
    {
      has := {};
    }

    /** The two-queue cache may evict entries, old ones and even the new one. */
    method Add(h: ChunkHash)
      modifies this
      ensures has <= old(has) + {h}
    {
      var kept: set<ChunkHash> :| kept <= has + {h};
      has := kept;
    }

    method InsertHas(hs: set<ChunkHash>)
      modifies this
      ensures has <= old(has) + hs
    {
      var todo := hs;
      while todo != {}
        invariant todo <= hs && has <= old(has) + hs
        decreases todo
      {
        var h :| h in todo;
        Add(h);
        todo := todo - {h};
      }
    }

    /** The hashes that the cache does not know to be present. */
    method GetCachedHas(hs: set<ChunkHash>) returns (absent: set<ChunkHash>)
      ensures absent == hs - has
    {
      absent := {};
      var todo := hs;
      while todo != {}
        invariant todo <= hs && absent == (hs - todo) - has
        decreases todo
      {
        var h :| h in todo;
        if h !in has {
          absent := absent + {h};
        }
        todo := todo - {h};
      }
    }
  }

  /** A set as a slice, in whatever order it is iterated. */
  method HashSetToSlice(hs: set<ChunkHash>) returns (out: seq<ChunkHash>)
    ensures forall h :: h in out <==> h in hs
    ensures |out| == |hs|
  {
    out := [];
    var todo := hs;
    while todo != {}
      invariant todo <= hs && (forall h :: h in out <==> h in hs - todo)
      invariant |out| + |todo| == |hs|
      decreases todo
    {
      var h :| h in todo;
      ghost var prev := out;
      out := out + [h];
      todo := todo - {h};
      assert forall x :: x in out <==> x in prev || x == h;
    }
  }

  /** An answer names the absent positions of a request, each once, in any order. */
  ghost predicate IsAnswer(answer: seq<int>, request: seq<ChunkHash>, chunks: set<ChunkHash>) {
    && (forall i :: i in answer ==> 0 <= i < |request| && request[i] !in chunks)
    && (forall i :: 0 <= i < |request| && request[i] !in chunks ==> i in answer)
    && Distinct(answer)
  }

  /** The provider's side of HasChunks. */
  method HasChunks(request: seq<ChunkHash>, chunks: set<ChunkHash>) returns (answer: seq<int>)
    ensures IsAnswer(answer, request, chunks)
  {
    answer := [];
    for n := 0 to |request|
      invariant forall i :: i in answer <==> 0 <= i < n && request[i] !in chunks
      invariant Distinct(answer)
    {
      if request[n] !in chunks {
        assert forall i :: 0 <= i < |answer| ==> answer[i] in answer;
        answer := [n] + answer;
      }
    }
  }

  predicate IntLess(a: int, b: int) {
    a < b
  }

  method SortIndices(answer: seq<int>) returns (sorted: seq<int>)
    requires Distinct(answer)
    ensures forall x :: x in sorted <==> x in answer
    ensures forall i, j :: 0 <= i < j < |sorted| ==> sorted[i] < sorted[j]
  {
    var a := new int[|answer|](i requires 0 <= i < |answer| => answer[i]);
    assert a[..] == answer;
    SortInPlace(a, IntLess);
    sorted := a[..];
    PermutationKeepsDistinct(answer, sorted);
    forall x ensures x in sorted <==> x in answer {
      assert x in multiset(sorted) <==> x in multiset(answer);
    }
    forall i, j | 0 <= i < j < |sorted| ensures sorted[i] < sorted[j] {
      assert !IntLess(sorted[j], sorted[i]);
    }
  }

  /** The two-index loop: `j` stands at the next absent position, `i` runs over the batch. */
  method Classify(batch: seq<ChunkHash>, indices: seq<int>, absent: set<ChunkHash>, found: set<ChunkHash>,
                  ghost chunks: set<ChunkHash>) returns (absent': set<ChunkHash>, found': set<ChunkHash>)
    requires forall i :: i in indices <==> 0 <= i < |batch| && batch[i] !in chunks
    requires forall i, j :: 0 <= i < j < |indices| ==> indices[i] < indices[j]
    ensures absent' == absent + set h | h in batch && h !in chunks
    ensures found' == found + set h | h in batch && h in chunks
  {
    absent', found' := absent, found;
    var i, j := 0, 0;
    assert forall k :: 0 <= k < |indices| ==> indices[k] in indices;
    while i < |batch|
      invariant 0 <= i <= |batch| && 0 <= j <= |indices|
      invariant forall k :: 0 <= k < j ==> indices[k] < i
      invariant forall k :: j <= k < |indices| ==> indices[k] >= i
      invariant forall h :: h in absent' <==> h in absent || (h in batch[..i] && h !in chunks)
      invariant forall h :: h in found' <==> h in found || (h in batch[..i] && h in chunks)
    {
      var nextAbsent := if j < |indices| then indices[j] else -1;
      assert batch[..i + 1] == batch[..i] + [batch[i]];
      if i == nextAbsent {
        assert i in indices;
        absent' := absent' + {batch[i]};
        j := j + 1;
      } else {
        assert i !in indices;
        found' := found' + {batch[i]};
      }
      i := i + 1;
    }
    assert batch[..i] == batch;
  }

  class RemoteChunkStore {
    const cache: MapChunkCache

    constructor (cache: MapChunkCache)
      ensures this.cache == cache
    {
      this.cache := cache;
    }

    /** HasMany returns the requested hashes that the provider does not have: none that it had at the start, and all
        that it still lacks at the end, hence exactly the absent ones if it did not change meanwhile. It holds for any
        batch size, any eviction and any order of answers, and the cache holds only chunks of the provider. A failed
        call fails the whole request and leaves the cache alone. */
    method HasMany(hashes: set<ChunkHash>, batchSize: int, provider: Provider,
                   ghost before: set<ChunkHash>, ghost after: set<ChunkHash>) returns (r: Option<set<ChunkHash>>)
      requires Between(provider, before, after) && cache.has <= before
      modifies cache
      ensures r.Some? ==> hashes - after <= r.value <= hashes - before
      ensures r.Some? && before == after ==> r.value == hashes - before
      ensures r.None? ==> cache.has == old(cache.has) && exists k: nat :: provider(k).None?
      ensures cache.has <= after
    {
      var notCached := cache.GetCachedHas(hashes);
      if notCached == {} {
        return Some(notCached);
      }
      var hashSl := HashSetToSlice(notCached);
      var absent: set<ChunkHash>, found: set<ChunkHash> := {}, {};
      var step := if batchSize <= 0 then |hashSl| else batchSize;
      var st, call := 0, 0;
      while st < |hashSl|
        invariant 0 <= st && cache.has == old(cache.has)
        invariant Settled(hashSl, st, absent, found, before, after)
        decreases |hashSl| - st
      {
        var end := if st + step > |hashSl| then |hashSl| else st + step;
        var chunks := provider(call);
        if chunks.None? {
          return None;
        }
        var answer := HasChunks(hashSl[st..end], chunks.value);
        var indices := SortIndices(answer);
        ghost var absent0, found0 := absent, found;
        absent, found := Classify(hashSl[st..end], indices, absent, found, chunks.value);
        BatchDone(hashSl, st, end, absent0, found0, absent, found, chunks.value, before, after);
        st, call := st + step, call + 1;
      }
      forall h | h in hashSl ensures h in absent || h in found {
        var i :| 0 <= i < |hashSl| && hashSl[i] == h;
      }
      if |found| > 0 {
        cache.InsertHas(found);
      }
      return Some(absent);
    }

    /** Whether the provider, which may gain chunks meanwhile, has the chunk. */
    method Has(h: ChunkHash, provider: Provider, ghost before: set<ChunkHash>, ghost after: set<ChunkHash>)
      returns (r: Option<bool>)
      requires Between(provider, before, after) && cache.has <= before
      modifies cache
      ensures h in before && r.Some? ==> r.value
      ensures r == Some(true) ==> h in after
      ensures r.None? ==> cache.has == old(cache.has) && exists k: nat :: provider(k).None?
      ensures cache.has <= after
    {
      var absent := HasMany({h}, MAX_HAS_MANY_BATCH_SIZE, provider, before, after);
      if absent.None? {
        return None;
      }
      if h !in after {
        assert h in {h} - after;
      }
      return Some(absent.value == {});
    }
  }

  /** The hashes before position `st` are sorted into absent ones, which were not there at the start, and found ones,
      which are there at the end. */
  ghost predicate Settled(s: seq<ChunkHash>, st: int, absent: set<ChunkHash>, found: set<ChunkHash>,
                          before: set<ChunkHash>, after: set<ChunkHash>)
    requires 0 <= st
  {
    && (forall h :: h in absent ==> h in s && h !in before)
    && (forall h :: h in found ==> h in s && h in after)
    && (forall i :: 0 <= i < |s| && i < st ==> s[i] in absent || s[i] in found)
  }

  lemma {:induction false} BatchDone(s: seq<ChunkHash>, st: int, end: int, absent: set<ChunkHash>,
                                     found: set<ChunkHash>,
                                     absent': set<ChunkHash>, found': set<ChunkHash>, chunks: set<ChunkHash>,
                                     before: set<ChunkHash>, after: set<ChunkHash>)
    requires 0 <= st <= end <= |s| && before <= chunks <= after && Settled(s, st, absent, found, before, after)
    requires absent' == absent + set h | h in s[st..end] && h !in chunks
    requires found' == found + set h | h in s[st..end] && h in chunks
    ensures Settled(s, end, absent', found', before, after)
  {
    forall i | 0 <= i < end ensures s[i] in absent' || s[i] in found' {
      if i >= st {
        assert s[st..end][i - st] == s[i];
      }
    }
  }
}
