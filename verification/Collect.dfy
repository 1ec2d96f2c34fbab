/** Reconciler.collectUserCommits: filtering, deduplication by timestamp, and the sort that fixes the replay order. */
module Collect {
  import opened Text
  import opened Hlc
  import opened Dag
  import opened Walk
  import opened Sorting

  /** core/finalization.go, FinalizedBase. */
  datatype FinalizedBase = FinalizedBase(hlc: Timestamp, commit: Hash)

  /** A commit chosen for replay. */
  datatype Pick = Pick(hash: Hash, hlc: Timestamp)

  /** A timestamp the finalized-base filter lets through. */
  predicate Above(fb: Option<FinalizedBase>, t: Timestamp) {
    fb.None? || IsZero(fb.value.hlc) || Less(fb.value.hlc, t)
  }

  /** The comparison of sortCommitsByHLC: commits without a timestamp come last. */
  predicate Before(a: Pick, b: Pick) {
    if IsZero(a.hlc) && IsZero(b.hlc) then LexLess(a.hash, b.hash)
    else if IsZero(a.hlc) then false
    else if IsZero(b.hlc) then true
    else if a.hlc == b.hlc then LexLess(a.hash, b.hash)
    else Less(a.hlc, b.hlc)
  }

  /** Two picks that deduplication identifies. */
  predicate SameKey(a: Pick, b: Pick) {
    a.hlc == b.hlc && (IsZero(a.hlc) ==> a.hash == b.hash)
  }

  function Key(p: Pick): string {
    if IsZero(p.hlc) then "hash:" + p.hash else "hlc:" + Render(p.hlc)
  }

  predicate IsKept(c: Commit, fb: Option<FinalizedBase>, p: Pick) {
    c.meta.Some? && Above(fb, c.meta.value) && p == Pick(c.hash, c.meta.value)
  }

  /** The user commits above the finalized base. */
  ghost function Kept(s: set<Commit>, fb: Option<FinalizedBase>): set<Pick> {
    set c | c in s && c.meta.Some? && Above(fb, c.meta.value) :: Pick(c.hash, c.meta.value)
  }

  /** The picks with the smallest hash among those that share their key. */
  ghost function Survivors(k: set<Pick>): set<Pick> {
    set p | p in k && forall q :: q in k && SameKey(p, q) ==> !LexLess(q.hash, p.hash)
  }

  /** What a replay list must be: all survivors, strictly ordered. */
  ghost predicate IsCollection(list: seq<Pick>, s: set<Commit>, fb: Option<FinalizedBase>) {
    StrictlySorted(list, Before) && Elements(list) == Survivors(Kept(s, fb))
  }

  // ---- the order ----

  lemma {:induction false} BeforeTrichotomy(a: Pick, b: Pick)
    ensures a == b || Before(a, b) || Before(b, a)
    ensures !(Before(a, b) && Before(b, a))
    ensures a == b ==> !Before(a, b)
  {
    LexTrichotomy(a.hash, b.hash);
    LessTrichotomy(a.hlc, b.hlc);
  }

  lemma {:induction false} BeforeTransitive(a: Pick, b: Pick, c: Pick)
    requires Before(a, b) && Before(b, c)
    ensures Before(a, c)
  {
    if LexLess(a.hash, b.hash) && LexLess(b.hash, c.hash) {
      LexTransitive(a.hash, b.hash, c.hash);
    }
    if Less(a.hlc, b.hlc) && Less(b.hlc, c.hlc) {
      LessTransitive(a.hlc, b.hlc, c.hlc);
      LessTrichotomy(a.hlc, c.hlc);
    }
  }

  lemma {:induction false} BeforeIsOrder()
    ensures WeakOrder(Before)
  {
    forall x: Pick ensures !Before(x, x) {
      BeforeTrichotomy(x, x);
    }
    forall x: Pick, y: Pick, z: Pick | Before(x, y) && Before(y, z) ensures Before(x, z) {
      BeforeTransitive(x, y, z);
    }
    forall x: Pick, y: Pick, z: Pick | !Before(x, y) && !Before(y, z) ensures !Before(x, z) {
      BeforeTrichotomy(x, y);
      BeforeTrichotomy(y, z);
      BeforeTrichotomy(x, z);
      if Before(z, y) && Before(y, x) {
        BeforeTransitive(z, y, x);
      }
    }
  }

  lemma {:induction false} KeyIffSameKey(a: Pick, b: Pick)
    ensures Key(a) == Key(b) <==> SameKey(a, b)
  {
    if Key(a) == Key(b) {
      assert Key(a)[1] == Key(b)[1];
      if IsZero(a.hlc) {
        assert Key(a)[5..] == a.hash && Key(b)[5..] == b.hash;
      } else {
        assert Key(a)[4..] == Render(a.hlc) && Key(b)[4..] == Render(b.hlc);
        RenderInjective(a.hlc, b.hlc);
      }
    }
  }

  // ---- the three steps ----

  method KeepUserCommits(cs: seq<Commit>, fb: Option<FinalizedBase>) returns (picks: seq<Pick>)
    ensures Elements(picks) == Kept(Elements(cs), fb)
  {
    picks := [];
    var i := 0;
    while i < |cs|
      invariant 0 <= i <= |cs|
      invariant forall p :: p in picks <==> exists k :: 0 <= k < i && IsKept(cs[k], fb, p)
    {
      if cs[i].meta.Some? && Above(fb, cs[i].meta.value) {
        picks := picks + [Pick(cs[i].hash, cs[i].meta.value)];
      }
      i := i + 1;
    }
    forall p ensures p in Elements(picks) <==> p in Kept(Elements(cs), fb) {
      if p in Elements(picks) {
        assert p in picks;
      }
      if p in Kept(Elements(cs), fb) {
        var c :| c in Elements(cs) && c.meta.Some? && Above(fb, c.meta.value) && p == Pick(c.hash, c.meta.value);
        assert p in picks;
      }
    }
  }

  /** The table of deduplication after the picks in `done`. */
  ghost predicate Deduplicated(byKey: map<string, Pick>, done: set<Pick>) {
    && (forall k :: k in byKey ==> Key(byKey[k]) == k && byKey[k] in done)
    && (forall p :: p in done ==> Key(p) in byKey && !LexLess(p.hash, byKey[Key(p)].hash))
  }

  lemma {:induction false} DeduplicationStep(byKey: map<string, Pick>, done: set<Pick>, p: Pick)
    requires Deduplicated(byKey, done)
    ensures Key(p) !in byKey || LexLess(p.hash, byKey[Key(p)].hash) ==> Deduplicated(byKey[Key(p) := p], done + {p})
    ensures Key(p) in byKey && !LexLess(p.hash, byKey[Key(p)].hash) ==> Deduplicated(byKey, done + {p})
  {
    LexTrichotomy(p.hash, p.hash);
    if Key(p) in byKey && LexLess(p.hash, byKey[Key(p)].hash) {
      forall q | q in done && Key(q) == Key(p) ensures !LexLess(q.hash, p.hash) {
        if LexLess(q.hash, p.hash) {
          LexTransitive(q.hash, p.hash, byKey[Key(p)].hash);
        }
      }
    }
  }

  lemma {:induction false} DeduplicatedValues(byKey: map<string, Pick>, done: set<Pick>)
    requires Deduplicated(byKey, done)
    ensures byKey.Values == Survivors(done)
  {
    forall p ensures p in byKey.Values <==> p in Survivors(done) {
      if p in byKey.Values {
        forall q | q in done && SameKey(p, q) ensures !LexLess(q.hash, p.hash) {
          KeyIffSameKey(p, q);
        }
      }
      if p in Survivors(done) {
        var v := byKey[Key(p)];
        KeyIffSameKey(p, v);
        LexTrichotomy(p.hash, v.hash);
        assert v in byKey.Values;
      }
    }
  }

  /** One pick per key, the one with the smallest hash, in whatever order the table is iterated. */
  method DeduplicateByHLC(picks: seq<Pick>) returns (out: seq<Pick>)
    ensures Elements(out) == Survivors(Elements(picks))
    ensures Distinct(out)
  {
    var byKey: map<string, Pick> := map[];
    var i := 0;
    while i < |picks|
      invariant 0 <= i <= |picks|
      invariant Deduplicated(byKey, Elements(picks[..i]))
    {
      var p := picks[i];
      DeduplicationStep(byKey, Elements(picks[..i]), p);
      assert Elements(picks[..i + 1]) == Elements(picks[..i]) + {p} by { SnocElements(picks[..i], p, picks[..i + 1]); }
      if Key(p) !in byKey || LexLess(p.hash, byKey[Key(p)].hash) {
        byKey := byKey[Key(p) := p];
      }
      i := i + 1;
    }
    assert picks[..i] == picks;
    DeduplicatedValues(byKey, Elements(picks));
    out := Values(byKey);
  }

  method Values(byKey: map<string, Pick>) returns (out: seq<Pick>)
    requires forall k :: k in byKey ==> Key(byKey[k]) == k
    ensures Elements(out) == byKey.Values
    ensures Distinct(out)
  {
    out := [];
    var keys := byKey.Keys;
    while keys != {}
      invariant keys <= byKey.Keys
      invariant forall p :: p in out <==> exists k :: k in byKey && k !in keys && byKey[k] == p
      invariant Distinct(out)
      decreases keys
    {
      var k :| k in keys;
      assert byKey[k] !in out;
      ghost var before := out;
      out := out + [byKey[k]];
      keys := keys - {k};
      forall p ensures p in out <==> exists k' :: k' in byKey && k' !in keys && byKey[k'] == p {
        assert p in out <==> p in before || p == byKey[k];
      }
    }
    forall p ensures p in Elements(out) <==> p in byKey.Values {
      assert p in Elements(out) <==> p in out;
    }
  }

  /** sortCommitsByHLC works in place. */
  method SortCommitsByHLC(a: array<Pick>)
    modifies a
    ensures Sorted(a[..], Before) && multiset(a[..]) == multiset(old(a[..]))
  {
    BeforeIsOrder();
    SortInPlace(a, Before);
  }

  lemma {:induction false} DistinctSortedIsStrict(s: seq<Pick>)
    requires Sorted(s, Before)
    requires Distinct(s)
    ensures StrictlySorted(s, Before)
  {
    forall i, j | 0 <= i < j < |s| ensures Before(s[i], s[j]) {
      BeforeTrichotomy(s[i], s[j]);
    }
  }

  /** collectUserCommits: the list is the collection of the commits in `local` and `imported` together. */
  method CollectUserCommits(local: seq<Commit>, imported: seq<Commit>, fb: Option<FinalizedBase>)
    returns (list: seq<Pick>)
    ensures IsCollection(list, Elements(local) + Elements(imported), fb)
  {
    var fromLocal := KeepUserCommits(local, fb);
    var fromImported := KeepUserCommits(imported, fb);
    var all := fromLocal + fromImported;
    assert Elements(all) == Kept(Elements(local) + Elements(imported), fb) by {
      ConcatElements(fromLocal, fromImported);
      assert Kept(Elements(local) + Elements(imported), fb) == Kept(Elements(local), fb) + Kept(Elements(imported), fb);
    }
    var unique := DeduplicateByHLC(all);
    var a := new Pick[|unique|](i requires 0 <= i < |unique| => unique[i]);
    assert a[..] == unique;
    SortCommitsByHLC(a);
    list := a[..];
    PermutationKeepsElements(unique, list);
    PermutationKeepsDistinct(unique, list);
    DistinctSortedIsStrict(list);
  }

  // ---- what a collection is ----

  /** The list depends only on the set of commits: not on their order, their split between local and imported, the
      iteration order of the table, or the sorting algorithm. */
  lemma {:induction false} CollectionIsUnique(l1: seq<Pick>, l2: seq<Pick>, s: set<Commit>, fb: Option<FinalizedBase>)
    requires IsCollection(l1, s, fb) && IsCollection(l2, s, fb)
    ensures l1 == l2
  {
    BeforeIsOrder();
    StrictlySortedIsUnique(l1, l2, Before);
  }

  /** Commits without a timestamp come last, in the order of their hashes. */
  lemma {:induction false} ZerosComeLast(list: seq<Pick>, s: set<Commit>, fb: Option<FinalizedBase>, i: nat, j: nat)
    requires IsCollection(list, s, fb) && i < j < |list| && list[i].hlc == ZERO
    ensures list[j].hlc == ZERO && Smaller(list[i].hash, list[j].hash)
  {
    assert Before(list[i], list[j]);
    LexLessIff(list[i].hash, list[j].hash);
  }

  /** Exactly which commits are listed: the user commits above the finalized base, and of those with one timestamp other
      than zero the one whose hash is smallest. */
  lemma {:induction false} CollectedIff(list: seq<Pick>, s: set<Commit>, fb: Option<FinalizedBase>, p: Pick)
    requires IsCollection(list, s, fb)
    ensures p in list <==>
            && Commit(p.hash, Some(p.hlc)) in s
            && (fb.None? || fb.value.hlc == ZERO || Less(fb.value.hlc, p.hlc))
            && (p.hlc != ZERO ==> forall c :: c in s && c.meta == Some(p.hlc) ==> !Smaller(c.hash, p.hash))
  {
    assert p in list <==> p in Elements(list);
    assert p in Kept(s, fb) <==> Commit(p.hash, Some(p.hlc)) in s && Above(fb, p.hlc);
    LexTrichotomy(p.hash, p.hash);
    if p in list && p.hlc != ZERO {
      forall c | c in s && c.meta == Some(p.hlc) ensures !Smaller(c.hash, p.hash) {
        assert Pick(c.hash, p.hlc) in Kept(s, fb);
        LexLessIff(c.hash, p.hash);
      }
    }
    if p.hlc != ZERO && forall c :: c in s && c.meta == Some(p.hlc) ==> !Smaller(c.hash, p.hash) {
      forall q | q in Kept(s, fb) && SameKey(p, q) ensures !LexLess(q.hash, p.hash) {
        assert Commit(q.hash, Some(p.hlc)) in s;
        LexLessIff(q.hash, p.hash);
      }
    }
  }

  /** Every key has a survivor. */
  lemma {:induction false} SurvivorExists(k: set<Pick>, p: Pick) returns (q: Pick)
    requires p in k
    ensures q in Survivors(k) && SameKey(p, q) && !LexLess(p.hash, q.hash)
    decreases set r | r in k && LexLess(r.hash, p.hash)
  {
    LexTrichotomy(p.hash, p.hash);
    if p in Survivors(k) {
      q := p;
    } else {
      var r :| r in k && SameKey(p, r) && LexLess(r.hash, p.hash);
      LexTrichotomy(r.hash, r.hash);
      forall x | x in k && LexLess(x.hash, r.hash) ensures LexLess(x.hash, p.hash) {
        LexTransitive(x.hash, r.hash, p.hash);
      }
      var below := set x | x in k && LexLess(x.hash, r.hash);
      assert r in (set x | x in k && LexLess(x.hash, p.hash)) && r !in below;
      q := SurvivorExists(k, r);
      if LexLess(p.hash, q.hash) {
        LexTransitive(r.hash, p.hash, q.hash);
      }
    }
  }

  /** The list holds one commit per timestamp, in strictly increasing order, with the smallest hash of its timestamp,
      and it covers exactly the timestamps of user commits above the finalized base. */
  lemma {:induction false} CollectionMeaning(list: seq<Pick>, s: set<Commit>, fb: Option<FinalizedBase>)
    requires IsCollection(list, s, fb)
    ensures forall i :: 0 <= i < |list| ==> Commit(list[i].hash, Some(list[i].hlc)) in s && Above(fb, list[i].hlc)
    ensures forall i, j :: 0 <= i < j < |list| && !IsZero(list[j].hlc) ==> Less(list[i].hlc, list[j].hlc)
    ensures forall c :: c in s && c.meta.Some? && Above(fb, c.meta.value) ==>
              exists i :: 0 <= i < |list| && list[i].hlc == c.meta.value && !Smaller(c.hash, list[i].hash)
  {
    forall i | 0 <= i < |list| ensures list[i] in Survivors(Kept(s, fb)) {
      assert list[i] in Elements(list);
    }
    forall i, j | 0 <= i < j < |list| && !IsZero(list[j].hlc) ensures Less(list[i].hlc, list[j].hlc) {
      assert list[i] in Kept(s, fb) && list[j] in Kept(s, fb);
      assert Before(list[i], list[j]);
      LexTrichotomy(list[i].hash, list[j].hash);
    }
    forall c | c in s && c.meta.Some? && Above(fb, c.meta.value)
      ensures exists i :: 0 <= i < |list| && list[i].hlc == c.meta.value && !Smaller(c.hash, list[i].hash)
    {
      var q := SurvivorExists(Kept(s, fb), Pick(c.hash, c.meta.value));
      LexLessIff(c.hash, q.hash);
      assert q in Elements(list);
    }
  }
}
