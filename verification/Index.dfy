/** core/index_mem.go: the in-memory commit index, keyed by rendered timestamps, as a map keyed by timestamps. */
module Index {
  import opened Hlc
  import opened Dag
  import opened Sorting
  import opened Collect

  datatype Status = Unknown | Pending | Applied | Rejected

  datatype Entry = Entry(hlc: Timestamp, hash: Hash, status: Status)

  type View = map<Timestamp, Entry>

  predicate EntryLess(a: Entry, b: Entry) {
    Less(a.hlc, b.hlc)
  }

  lemma {:induction false} EntryLessIsOrder()
    ensures WeakOrder(EntryLess)
  {
    forall x: Entry ensures !EntryLess(x, x) {
      LessTrichotomy(x.hlc, x.hlc);
    }
    forall x: Entry, y: Entry, z: Entry | EntryLess(x, y) && EntryLess(y, z) ensures EntryLess(x, z) {
      LessTransitive(x.hlc, y.hlc, z.hlc);
    }
    forall x: Entry, y: Entry, z: Entry | !EntryLess(x, y) && !EntryLess(y, z) ensures !EntryLess(x, z) {
      NotAfterTransitive(z.hlc, y.hlc, x.hlc);
    }
  }

  /** Every entry sits under the rendering of its own timestamp. */
  ghost predicate Keyed(entries: map<string, Entry>) {
    forall k :: k in entries ==> k == Render(entries[k].hlc)
  }

  /** The map keyed by timestamps that the string-keyed one stands for. */
  ghost function ViewOf(entries: map<string, Entry>): View
    requires Keyed(entries)
  {
    map h | h in (set k | k in entries :: entries[k].hlc) :: entries[Render(h)]
  }

  ghost predicate SelfNamed(v: View) {
    forall h :: h in v ==> v[h].hlc == h
  }

  /** The string key is as good as the timestamp: no two timestamps share an entry. */
  lemma {:induction false} ViewFaithful(entries: map<string, Entry>, h: Timestamp)
    requires Keyed(entries)
    ensures h in ViewOf(entries) <==> Render(h) in entries
    ensures h in ViewOf(entries) ==> ViewOf(entries)[h] == entries[Render(h)] && entries[Render(h)].hlc == h
  {
    if Render(h) in entries {
      RenderInjective(h, entries[Render(h)].hlc);
    }
  }

  lemma {:induction false} KeyedUpsert(entries: map<string, Entry>, e: Entry)
    requires Keyed(entries)
    ensures Keyed(entries[Render(e.hlc) := e])
  {
  }

  lemma {:induction false} ViewUpsertAt(entries: map<string, Entry>, e: Entry, h: Timestamp)
    requires Keyed(entries) && Keyed(entries[Render(e.hlc) := e])
    ensures var v, v' := ViewOf(entries), ViewOf(entries[Render(e.hlc) := e]);
            && (h in v' <==> h in v || h == e.hlc)
            && (h in v' ==> v'[h] == if h == e.hlc then e else v[h])
  {
    ViewFaithful(entries, h);
    ViewFaithful(entries[Render(e.hlc) := e], h);
    if Render(h) == Render(e.hlc) {
      RenderInjective(h, e.hlc);
    }
  }

  lemma {:induction false} ViewUpsert(entries: map<string, Entry>, e: Entry)
    requires Keyed(entries)
    ensures Keyed(entries[Render(e.hlc) := e])
    ensures ViewOf(entries[Render(e.hlc) := e]) == ViewOf(entries)[e.hlc := e]
  {
    KeyedUpsert(entries, e);
    var v, v' := ViewOf(entries), ViewOf(entries[Render(e.hlc) := e]);
    forall h ensures (h in v' <==> h in v || h == e.hlc) && (h in v' ==> v'[h] == if h == e.hlc then e else v[h]) {
      ViewUpsertAt(entries, e, h);
    }
    IsUpdate(v, e, v');
  }

  lemma {:induction false} IsUpdate(v: View, e: Entry, v': View)
    requires forall h :: h in v' <==> h in v || h == e.hlc
    requires forall h :: h in v' ==> v'[h] == if h == e.hlc then e else v[h]
    ensures v' == v[e.hlc := e]
  {
  }

  /** The entries strictly after a timestamp. */
  ghost function Upper(v: View, after: Timestamp): set<Entry> {
    set h | h in v && Less(after, h) :: v[h]
  }

  /** `out` is the sorted list of the smallest `limit` entries of `all`, or of all of them. */
  ghost predicate IsListing(out: seq<Entry>, all: set<Entry>, limit: int) {
    && StrictlySorted(out, EntryLess)
    && Elements(out) <= all
    && |out| == (if limit > 0 && |all| > limit then limit else |all|)
    && (forall e, i :: e in all && e !in out && 0 <= i < |out| ==> EntryLess(out[i], e))
  }

  lemma {:induction false} StrictCardinality(s: seq<Entry>)
    requires StrictlySorted(s, EntryLess)
    ensures |Elements(s)| == |s|
  {
    EntryLessIsOrder();
    if s == [] {
      assert Elements(s) == {};
    } else {
      TailElements(s, EntryLess);
      StrictCardinality(s[1..]);
      assert s[0] in Elements(s);
    }
  }

  /** Without a limit a listing holds every entry. */
  lemma {:induction false} FullListing(out: seq<Entry>, all: set<Entry>)
    requires IsListing(out, all, 0)
    ensures Elements(out) == all
  {
    StrictCardinality(out);
    SameSizeSubset(Elements(out), all);
  }

  lemma {:induction false} SameSizeSubset<T>(a: set<T>, b: set<T>)
    requires a <= b && |a| == |b|
    ensures a == b
  {
    assert |b - a| == |b| - |a|;
  }

  lemma {:induction false} CutListing(full: seq<Entry>, all: set<Entry>, limit: int)
    requires StrictlySorted(full, EntryLess) && Elements(full) == all
    ensures IsListing(if limit > 0 && |full| > limit then full[..limit] else full, all, limit)
  {
    StrictCardinality(full);
    var out := if limit > 0 && |full| > limit then full[..limit] else full;
    assert forall i :: 0 <= i < |out| ==> out[i] == full[i];
    forall e, i | e in all && e !in out && 0 <= i < |out| ensures EntryLess(out[i], e) {
      var j :| 0 <= j < |full| && full[j] == e;
      assert j >= |out|;
    }
    forall e | e in Elements(out) ensures e in all {
      var i :| 0 <= i < |out| && out[i] == e;
      assert full[i] == e;
    }
  }

  class MemoryCommitIndex {
    var entries: map<string, Entry>
    var finalizedBase: Option<FinalizedBase>

    ghost predicate Valid()
      reads this
    {
      Keyed(entries)
    }

    ghost function View(): View
      requires Valid()
      reads this
    {
      ViewOf(entries)
    }

    constructor ()
      ensures Valid() && View() == map[] && finalizedBase == None
    {
      entries, finalizedBase := map[], None;
    }

    /** Drops the entries; the finalized base outlives a rebuild. */
    method ResetForRebuild()
      modifies this`entries
      ensures Valid() && View() == map[]
    {
      entries := map[];
    }

    method Upsert(e: Entry)
      requires Valid()
      modifies this`entries
      ensures Valid() && View() == old(View())[e.hlc := e]
    {
      ViewUpsert(entries, e);
      entries := entries[Render(e.hlc) := e];
    }

    method Get(h: Timestamp) returns (r: Option<Entry>)
      requires Valid()
      ensures r == if h in View() then Some(View()[h]) else None
    {
      ViewFaithful(entries, h);
      if Render(h) in entries {
        r := Some(entries[Render(h)]);
      } else {
        r := None;
      }
    }

    /** The entries strictly after `after` in order, cut to the first `limit` when `limit` is positive. */
    method ListAfter(after: Timestamp, limit: int) returns (out: seq<Entry>)
      requires Valid()
      ensures IsListing(out, Upper(View(), after), limit)
      ensures forall i, j :: 0 <= i < j < |out| ==> Less(out[i].hlc, out[j].hlc)
      ensures forall i, h :: 0 <= i < |out| && h in View() && Less(after, h) && View()[h] !in out ==>
                Less(out[i].hlc, h)
    {
      var picked := Gather(entries, after);
      var a := new Entry[|picked|](i requires 0 <= i < |picked| => picked[i]);
      assert a[..] == picked;
      EntryLessIsOrder();
      SortInPlace(a, EntryLess);
      var full := a[..];
      PermutationKeepsElements(picked, full);
      GatheredSortedIsStrict(picked, full);
      CutListing(full, Upper(View(), after), limit);
      out := if limit > 0 && |full| > limit then full[..limit] else full;
    }

    /** Advances the finalized base; anything at or below it is ignored. */
    method SetFinalizedBase(fb: FinalizedBase)
      modifies this`finalizedBase
      ensures finalizedBase ==
              if old(finalizedBase).Some? && !Less(old(finalizedBase).value.hlc, fb.hlc) then old(finalizedBase)
              else Some(fb)
    {
      if finalizedBase.Some? {
        LessTrichotomy(fb.hlc, finalizedBase.value.hlc);
        if Less(fb.hlc, finalizedBase.value.hlc) || fb.hlc == finalizedBase.value.hlc {
          return;
        }
      }
      finalizedBase := Some(fb);
    }
  }

  ghost predicate DistinctTimes(s: seq<Entry>) {
    forall i, j :: 0 <= i < j < |s| ==> s[i].hlc != s[j].hlc
  }

  /** `out` holds the matching entries of all keys but those in `keys`. */
  ghost predicate Gathered(entries: map<string, Entry>, after: Timestamp, keys: set<string>, out: seq<Entry>) {
    && (forall e :: e in out ==>
          Render(e.hlc) in entries && Render(e.hlc) !in keys && entries[Render(e.hlc)] == e && Less(after, e.hlc))
    && (forall k :: k in entries && k !in keys && Less(after, entries[k].hlc) ==> entries[k] in out)
    && DistinctTimes(out)
  }

  lemma {:induction false} GatherSkip(entries: map<string, Entry>, after: Timestamp, keys: set<string>,
                                      out: seq<Entry>, k: string)
    requires Keyed(entries) && k in keys && keys <= entries.Keys && Gathered(entries, after, keys, out)
    requires !Less(after, entries[k].hlc)
    ensures Gathered(entries, after, keys - {k}, out)
  {
  }

  lemma {:induction false} GatherTake(entries: map<string, Entry>, after: Timestamp, keys: set<string>,
                                      out: seq<Entry>, k: string)
    requires Keyed(entries) && k in keys && keys <= entries.Keys && Gathered(entries, after, keys, out)
    requires Less(after, entries[k].hlc)
    ensures Gathered(entries, after, keys - {k}, out + [entries[k]])
  {
    forall i | 0 <= i < |out| ensures out[i].hlc != entries[k].hlc {
      assert out[i] in out;
    }
  }

  /** Collects the matching entries in whatever order the map is iterated. */
  method Gather(entries: map<string, Entry>, after: Timestamp) returns (out: seq<Entry>)
    requires Keyed(entries)
    ensures Elements(out) == Upper(ViewOf(entries), after)
    ensures DistinctTimes(out)
  {
    out := [];
    var keys := entries.Keys;
    while keys != {}
      invariant keys <= entries.Keys && Gathered(entries, after, keys, out)
      decreases keys
    {
      var k :| k in keys;
      if Less(after, entries[k].hlc) {
        GatherTake(entries, after, keys, out, k);
        out := out + [entries[k]];
      } else {
        GatherSkip(entries, after, keys, out, k);
      }
      keys := keys - {k};
    }
    GatheredIsUpper(entries, after, out);
  }

  lemma {:induction false} GatheredIsUpper(entries: map<string, Entry>, after: Timestamp, out: seq<Entry>)
    requires Keyed(entries) && Gathered(entries, after, {}, out)
    ensures Elements(out) == Upper(ViewOf(entries), after)
  {
    forall e ensures e in Elements(out) <==> e in Upper(ViewOf(entries), after) {
      assert e in Elements(out) <==> e in out;
      ViewFaithful(entries, e.hlc);
      if e in out {
        assert ViewOf(entries)[e.hlc] == e;
      }
      if e in Upper(ViewOf(entries), after) {
        var h :| h in ViewOf(entries) && Less(after, h) && ViewOf(entries)[h] == e;
        ViewFaithful(entries, h);
        assert entries[Render(h)] == e;
      }
    }
  }

  lemma {:induction false} GatheredSortedIsStrict(picked: seq<Entry>, full: seq<Entry>)
    requires DistinctTimes(picked) && multiset(picked) == multiset(full) && Sorted(full, EntryLess)
    ensures StrictlySorted(full, EntryLess)
  {
    PermutationKeepsDistinct(picked, full);
    forall i, j | 0 <= i < j < |full| ensures EntryLess(full[i], full[j]) {
      assert full[i] in multiset(picked) && full[j] in multiset(picked);
      var a :| 0 <= a < |picked| && picked[a] == full[i];
      var b :| 0 <= b < |picked| && picked[b] == full[j];
      assert full[i].hlc != full[j].hlc;
      LessTrichotomy(full[i].hlc, full[j].hlc);
    }
  }
}
