/** Histories for which the promises of a replay fail, as the exact conditions foretell. */
module Counterexamples {
  import Text
  import opened Hlc
  import opened Dag
  import opened Walk
  import opened Sorting
  import opened Collect
  import opened Replay
  import opened History
  import opened Fate
  import opened Stamps
  import opened Forecast
  import opened Loss
  import opened Order

  const FIRST := Timestamp(1, 0, "p")
  const SECOND := Timestamp(2, 0, "q")
  const THIRD := Timestamp(3, 0, "r")

  lemma {:induction false} InOrderOfSize()
    ensures Less(FIRST, SECOND) && Less(SECOND, THIRD) && Less(FIRST, THIRD)
    ensures !Less(SECOND, FIRST) && !Less(THIRD, SECOND) && !Less(THIRD, FIRST)
    ensures !Less(FIRST, FIRST) && !Less(SECOND, SECOND) && !Less(THIRD, THIRD)
    ensures !IsZero(FIRST) && !IsZero(SECOND) && !IsZero(THIRD)
  {
    LessTrichotomy(FIRST, FIRST);
    LessTrichotomy(SECOND, SECOND);
    LessTrichotomy(THIRD, THIRD);
  }

  lemma {:induction false} TwoSurvive(a: Pick, b: Pick)
    requires !IsZero(a.hlc) && !IsZero(b.hlc) && Less(a.hlc, b.hlc)
    ensures StrictlySorted([a, b], Before) && Elements([a, b]) == Survivors({a, b})
  {
    LessTrichotomy(a.hlc, b.hlc);
    Text.LexTrichotomy(a.hash, a.hash);
    Text.LexTrichotomy(b.hash, b.hash);
    assert Elements([a, b]) == {a, b} by {
      assert [a, b][0] == a && [a, b][1] == b;
    }
  }

  lemma {:induction false} OneSurvives(a: Pick)
    ensures StrictlySorted([a], Before) && Elements([a]) == Survivors({a})
  {
    Text.LexTrichotomy(a.hash, a.hash);
    assert Elements([a]) == {a} by {
      assert [a][0] == a;
    }
  }

  /** What the collection keeps of a set of commits, when it can be told commit by commit. */
  lemma {:induction false} KeptOf(g: Graph, hs: set<Hash>, fb: Option<FinalizedBase>, picks: set<Pick>)
    requires forall p :: p in picks ==> p.hash in hs && p.hash in g && g[p.hash].meta == Some(p.hlc) && Above(fb, p.hlc)
    requires forall h :: h in hs && h in g && g[h].meta.Some? && Above(fb, g[h].meta.value) ==>
               Pick(h, g[h].meta.value) in picks
    ensures Kept(CommitsOf(g, hs), fb) == picks
  {
    forall p | p in picks ensures p in Kept(CommitsOf(g, hs), fb) {
      assert Commit(p.hash, Some(p.hlc)) in CommitsOf(g, hs);
    }
  }

  // ---- a timestamp that is overwritten ----

  /** `late` is a child of `base`, `early` a child of `late` with a smaller timestamp, and main stands on `local`, a
      commit without user metadata. */
  ghost predicate IsDisordered(g: Graph, base: Hash, local: Hash, late: Hash, early: Hash) {
    && g.Keys == {base, local, late, early} && "" !in g
    && base != local && base != late && base != early && local != late && local != early && late != early
    && g[base] == Vertex([], 0, None, 0) && g[local] == Vertex([base], 0, None, 1)
    && g[late] == Vertex([base], 0, Some(SECOND), 1) && g[early] == Vertex([late], 0, Some(FIRST), 2)
  }

  lemma {:induction false} DisorderedAncestors(g: Graph, base: Hash, local: Hash, late: Hash, early: Hash)
    requires IsDisordered(g, base, local, late, early)
    ensures Wf(g) && Anc(g, base) == {base} && Anc(g, local) == {local, base}
    ensures Anc(g, late) == {late, base} && Anc(g, early) == {early, late, base}
  {
    AncUnfold(g, base);
    SingleParent(g, base);
    AncUnfold(g, local);
    AncUnfold(g, late);
    SingleParent(g, late);
    AncUnfold(g, early);
  }

  ghost function DisorderedJob(g: Graph, base: Hash, late: Hash, early: Hash, names: nat -> Hash): Job {
    Job(Willing(), g, base, [Pick(early, FIRST), Pick(late, SECOND)], names)
  }

  lemma {:induction false} DisorderedIsUndone(g: Graph, base: Hash, local: Hash, late: Hash, early: Hash,
                                              names: nat -> Hash)
    requires IsDisordered(g, base, local, late, early) && Playable(DisorderedJob(g, base, late, early, names))
    ensures var j := DisorderedJob(g, base, late, early, names); Undone(j, 0) && !OtherSource(j, 0)
  {
    var j := DisorderedJob(g, base, late, early, names);
    DisorderedAncestors(g, base, local, late, early);
    assert Chain(j, 0);
  }

  lemma {:induction false} DisorderedIsStamped(g: Graph, base: Hash, local: Hash, late: Hash, early: Hash,
                                               names: nat -> Hash)
    requires IsDisordered(g, base, local, late, early) && Playable(DisorderedJob(g, base, late, early, names))
    ensures var j := DisorderedJob(g, base, late, early, names); Stamped(j) && Rooted(j.g, base)
  {
    DisorderedAncestors(g, base, local, late, early);
  }

  lemma {:induction false} DisorderedCollection(g: Graph, base: Hash, local: Hash, late: Hash, early: Hash)
    requires IsDisordered(g, base, local, late, early) && Wf(g)
    ensures var hs := Inputs(g, local, early, base, None);
            IsCollection([Pick(early, FIRST), Pick(late, SECOND)], CommitsOf(g, hs), None)
  {
    var hs := Inputs(g, local, early, base, None);
    DisorderedAncestors(g, base, local, late, early);
    InputsAreAncestors(g, local, early, base, None);
    WalkFindsTheRest(g, early, base);
    KeptOf(g, hs, None, {Pick(early, FIRST), Pick(late, SECOND)});
    InOrderOfSize();
    TwoSurvive(Pick(early, FIRST), Pick(late, SECOND));
  }

  /** When timestamps decrease along ancestry a timestamp is lost: the merge of the ancestor is a no-op, and the amend
      that follows it overwrites the metadata of the commit folded before. */
  lemma {:induction false} DisorderLosesATimestamp(g: Graph, base: Hash, local: Hash, late: Hash, early: Hash,
                                                   names: nat -> Hash)
    requires IsDisordered(g, base, local, late, early) && FreshNames(g, names)
    ensures var j := DisorderedJob(g, base, late, early, names);
            && Playable(j) && IsCollection(j.list, CommitsOf(g, Inputs(g, local, early, base, None)), None)
            && early in Anc(g, early) && Replayable(g, early, None) && g[early].meta == Some(FIRST)
            && Wf(Replayed(j).graph) && !Replayed(j).broken
            && !Accounted(Replayed(j).graph, Replayed(j).head, Replayed(j).rejected, FIRST)
  {
    var j := DisorderedJob(g, base, late, early, names);
    DisorderedAncestors(g, base, local, late, early);
    WillingIsSane();
    DisorderedIsStamped(g, base, local, late, early, names);
    DisorderedIsUndone(g, base, local, late, early, names);
    StampLostIff(j, base, 0);
    DisorderedCollection(g, base, local, late, early);
  }

  // ---- a finalized commit that is dropped ----

  /** Two concurrent commits `a` and `b` over `init`, and their merge `m`, which carries the timestamp of `b` as the
      amend leaves it. */
  ghost predicate IsFork(g: Graph, init: Hash, a: Hash, b: Hash, m: Hash) {
    && {init, a, b, m} <= g.Keys && "" !in g
    && init != a && init != b && init != m && a != b && a != m && b != m
    && g[init] == Vertex([], 0, None, 0) && g[a] == Vertex([init], 0, Some(FIRST), 1)
    && g[b] == Vertex([init], 0, Some(SECOND), 1) && g[m] == Vertex([a, b], 0, Some(SECOND), 2)
  }

  lemma {:induction false} ForkAncestors(g: Graph, init: Hash, a: Hash, b: Hash, m: Hash)
    requires Wf(g) && IsFork(g, init, a, b, m)
    ensures Anc(g, init) == {init} && Anc(g, a) == {a, init} && Anc(g, b) == {b, init} && Anc(g, m) == {m, a, b, init}
  {
    AncUnfold(g, init);
    SingleParent(g, init);
    AncUnfold(g, a);
    AncUnfold(g, b);
    PairAncestors(g, a, b);
    AncUnfold(g, m);
  }

  lemma {:induction false} ForkIsDated(g: Graph, init: Hash, a: Hash, b: Hash, m: Hash)
    requires Wf(g) && IsFork(g, init, a, b, m)
    ensures Dated(g, init) && Dated(g, a) && Dated(g, b) && Dated(g, m)
  {
    ForkAncestors(g, init, a, b, m);
    InOrderOfSize();
  }

  /** A fork with a remote commit `r` on top of `b`. */
  ghost predicate IsForked(g: Graph, init: Hash, a: Hash, b: Hash, m: Hash, r: Hash) {
    && IsFork(g, init, a, b, m) && g.Keys == {init, a, b, m, r} && r !in {init, a, b, m}
    && g[r] == Vertex([b], 0, Some(THIRD), 2)
  }

  lemma {:induction false} ForkedAncestors(g: Graph, init: Hash, a: Hash, b: Hash, m: Hash, r: Hash)
    requires IsForked(g, init, a, b, m, r)
    ensures Wf(g) && Anc(g, r) == {r, b, init} && Dated(g, r)
  {
    assert Wf(g);
    ForkAncestors(g, init, a, b, m);
    SingleParent(g, b);
    AncUnfold(g, r);
    InOrderOfSize();
  }

  lemma {:induction false} ForkedCollection(g: Graph, init: Hash, a: Hash, b: Hash, m: Hash, r: Hash)
    requires IsForked(g, init, a, b, m, r) && Wf(g)
    ensures var fb := Some(FinalizedBase(SECOND, b));
            IsCollection([Pick(r, THIRD)], CommitsOf(g, Inputs(g, m, r, b, fb)), fb)
  {
    var fb := Some(FinalizedBase(SECOND, b));
    InOrderOfSize();
    KeptOf(g, Inputs(g, m, r, b, fb), fb, {Pick(r, THIRD)});
    OneSurvives(Pick(r, THIRD));
  }

  ghost function ForkedJob(g: Graph, b: Hash, r: Hash, names: nat -> Hash): Job {
    Job(Willing(), g, b, [Pick(r, THIRD)], names)
  }

  lemma {:induction false} ForkedReplay(g: Graph, init: Hash, a: Hash, b: Hash, m: Hash, r: Hash, names: nat -> Hash)
    requires IsForked(g, init, a, b, m, r) && Playable(ForkedJob(g, b, r, names))
    ensures Replayed(ForkedJob(g, b, r, names)) == Build(g, r, [], 0, [Reset], false)
  {
    var j := ForkedJob(g, b, r, names);
    ReplayGrows(j, 0);
    assert Decide(j.d, j.g, b, r) == Reset;
    StepOutcome(j.d, ReplayTo(j, 0), j.list[0], names(0));
  }

  lemma {:induction false} ForkedUnaccounted(g: Graph, init: Hash, a: Hash, b: Hash, m: Hash, r: Hash)
    requires IsForked(g, init, a, b, m, r) && Wf(g)
    ensures a in Anc(g, m) && a !in Anc(g, r) && b in Anc(g, m) && b in Anc(g, r) && !Accounted(g, r, [], FIRST)
    ensures InOrder(g, Anc(g, m) + Anc(g, r))
  {
    ForkAncestors(g, init, a, b, m);
    ForkIsDated(g, init, a, b, m);
    ForkedAncestors(g, init, a, b, m, r);
  }

  /** A finalized commit can be dropped. The base is a single commit, so of the history at or below it a replay keeps
      only the ancestors of that commit and of what it folds: `a` was finalized before the base moved to the concurrent
      `b`, and the next replay leaves it out, though timestamps are in order and the base is an ancestor of main. */
  lemma {:induction false} FinalizedCommitIsDropped(g: Graph, init: Hash, a: Hash, b: Hash, m: Hash, r: Hash,
                                                    names: nat -> Hash)
    requires IsForked(g, init, a, b, m, r) && FreshNames(g, names)
    ensures var j, fb := ForkedJob(g, b, r, names), FinalizedBase(SECOND, b);
            && Playable(j) && Anchored(g, m, fb) && InOrder(g, Anc(g, m) + Anc(g, r)) && b in Anc(g, r)
            && IsCollection(j.list, CommitsOf(g, Inputs(g, m, r, b, Some(fb))), Some(fb))
            && a in Anc(g, m) && g[a].meta == Some(FIRST) && Less(FIRST, fb.hlc)
            && Wf(Replayed(j).graph) && !Replayed(j).broken
            && a !in Anc(Replayed(j).graph, Replayed(j).head)
            && !Accounted(Replayed(j).graph, Replayed(j).head, Replayed(j).rejected, FIRST)
  {
    ForkedAncestors(g, init, a, b, m, r);
    ForkedCollection(g, init, a, b, m, r);
    ForkedUnaccounted(g, init, a, b, m, r);
    InOrderOfSize();
    WillingIsSane();
    ForkedReplay(g, init, a, b, m, r, names);
  }

  // ---- a second exchange that breaks the order ----

  /** The state after one exchange of `a` and `b`: both peers hold a merge of the two, `m` and `n`. */
  ghost predicate IsExchanged(g: Graph, init: Hash, a: Hash, b: Hash, m: Hash, n: Hash) {
    && IsFork(g, init, a, b, m) && g.Keys == {init, a, b, m, n} && n !in {init, a, b, m}
    && g[n] == g[m] && Text.LexLess(m, n)
  }

  lemma {:induction false} ExchangedAncestors(g: Graph, init: Hash, a: Hash, b: Hash, m: Hash, n: Hash)
    requires IsExchanged(g, init, a, b, m, n)
    ensures Wf(g) && Anc(g, n) == {n, a, b, init}
  {
    ExchangedIsWf(g, init, a, b, m, n);
    ForkAncestors(g, init, a, b, m);
    PairAncestors(g, a, b);
    AncUnfold(g, n);
  }

  lemma {:induction false} ExchangedIsWf(g: Graph, init: Hash, a: Hash, b: Hash, m: Hash, n: Hash)
    requires IsExchanged(g, init, a, b, m, n)
    ensures Wf(g)
  {
  }

  lemma {:induction false} ExchangedInOrder(g: Graph, init: Hash, a: Hash, b: Hash, m: Hash, n: Hash)
    requires IsExchanged(g, init, a, b, m, n) && Wf(g)
    ensures b in Anc(g, m) && b in Anc(g, n) && InOrder(g, Anc(g, m) + Anc(g, n))
  {
    ForkAncestors(g, init, a, b, m);
    ExchangedAncestors(g, init, a, b, m, n);
    ForkIsDated(g, init, a, b, m);
  }

  ghost function ExchangedJob(g: Graph, a: Hash, b: Hash, m: Hash, names: nat -> Hash): Job {
    Job(Willing(), g, b, [Pick(a, FIRST), Pick(m, SECOND)], names)
  }

  lemma {:induction false} ThirdIsDuplicate(a: Pick, b: Pick, c: Pick)
    requires a.hlc != b.hlc && b.hlc == c.hlc && Text.LexLess(b.hash, c.hash) && !IsZero(b.hlc)
    ensures Survivors({a, b, c}) == Survivors({a, b})
  {
    Text.LexTrichotomy(b.hash, c.hash);
  }

  lemma {:induction false} ExchangedWalks(g: Graph, init: Hash, a: Hash, b: Hash, m: Hash, n: Hash)
    requires IsExchanged(g, init, a, b, m, n) && Wf(g)
    ensures var hs := Inputs(g, m, n, b, None); a in hs && m in hs && n in hs && b !in hs
  {
    ForkAncestors(g, init, a, b, m);
    ExchangedAncestors(g, init, a, b, m, n);
    WalkFindsTheRest(g, m, b);
    WalkFindsTheRest(g, n, b);
    NeverReachesAvoided(g, b, m);
    NeverReachesAvoided(g, b, n);
  }

  lemma {:induction false} ExchangedInputs(g: Graph, init: Hash, a: Hash, b: Hash, m: Hash, n: Hash)
    requires IsExchanged(g, init, a, b, m, n) && Wf(g)
    ensures Kept(CommitsOf(g, Inputs(g, m, n, b, None)), None) == {Pick(a, FIRST), Pick(m, SECOND), Pick(n, SECOND)}
  {
    ExchangedWalks(g, init, a, b, m, n);
    KeptOf(g, Inputs(g, m, n, b, None), None, {Pick(a, FIRST), Pick(m, SECOND), Pick(n, SECOND)});
  }

  lemma {:induction false} ExchangedCollection(g: Graph, init: Hash, a: Hash, b: Hash, m: Hash, n: Hash)
    requires IsExchanged(g, init, a, b, m, n) && Wf(g)
    ensures IsCollection([Pick(a, FIRST), Pick(m, SECOND)], CommitsOf(g, Inputs(g, m, n, b, None)), None)
  {
    InOrderOfSize();
    ExchangedInputs(g, init, a, b, m, n);
    ThirdIsDuplicate(Pick(a, FIRST), Pick(m, SECOND), Pick(n, SECOND));
    TwoSurvive(Pick(a, FIRST), Pick(m, SECOND));
  }

  lemma {:induction false} ExchangedIsOrdered(g: Graph, init: Hash, a: Hash, b: Hash, m: Hash, names: nat -> Hash)
    requires IsFork(g, init, a, b, m) && Wf(g)
    ensures OrderedTo(ExchangedJob(g, a, b, m, names), 2)
  {
    ForkAncestors(g, init, a, b, m);
  }

  lemma {:induction false} ForkInOrder(g: Graph, init: Hash, a: Hash, b: Hash, m: Hash)
    requires IsFork(g, init, a, b, m) && Wf(g)
    ensures InOrder(g, Anc(g, b)) && InOrder(g, Anc(g, a)) && InOrder(g, Anc(g, m))
  {
    ForkAncestors(g, init, a, b, m);
    ForkIsDated(g, init, a, b, m);
  }

  lemma {:induction false} ExchangedIsTidy(g: Graph, init: Hash, a: Hash, b: Hash, m: Hash, names: nat -> Hash)
    requires IsFork(g, init, a, b, m) && Playable(ExchangedJob(g, a, b, m, names))
    ensures Tidy(ExchangedJob(g, a, b, m, names))
  {
    InOrderOfSize();
    ExchangedIsOrdered(g, init, a, b, m, names);
    ForkInOrder(g, init, a, b, m);
  }

  lemma {:induction false} ExchangedIsUndercut(g: Graph, init: Hash, a: Hash, b: Hash, m: Hash, names: nat -> Hash)
    requires IsFork(g, init, a, b, m) && Playable(ExchangedJob(g, a, b, m, names))
    ensures var j := ExchangedJob(g, a, b, m, names); !Ascends(j, 0) && Undercut(j, 0)
  {
    InOrderOfSize();
    ForkAncestors(g, init, a, b, m);
  }

  lemma {:induction false} ExchangedIsRooted(g: Graph, init: Hash, a: Hash, b: Hash, m: Hash, n: Hash)
    requires IsExchanged(g, init, a, b, m, n) && Wf(g)
    ensures Rooted(g, init)
  {
    ForkAncestors(g, init, a, b, m);
    ExchangedAncestors(g, init, a, b, m, n);
  }

  /** Order does not survive by itself: when two peers that have merged the same two commits synchronize again, with no
      finalized base and from the later of the two, the earlier one is merged on top of it. */
  lemma {:induction false} SecondExchangeBreaksOrder(g: Graph, init: Hash, a: Hash, b: Hash, m: Hash, n: Hash,
                                                     names: nat -> Hash)
    requires IsExchanged(g, init, a, b, m, n) && FreshNames(g, names)
    ensures var j := ExchangedJob(g, a, b, m, names);
            && Playable(j) && b in Anc(g, m) && b in Anc(g, n) && InOrder(g, Anc(g, m) + Anc(g, n))
            && IsCollection(j.list, CommitsOf(g, Inputs(g, m, n, b, None)), None)
            && OrderedTo(j, |j.list|) && !BranchInOrder(Replayed(j))
  {
    var j := ExchangedJob(g, a, b, m, names);
    ExchangedIsWf(g, init, a, b, m, n);
    ExchangedInOrder(g, init, a, b, m, n);
    ExchangedCollection(g, init, a, b, m, n);
    WillingIsSane();
    ExchangedIsTidy(g, init, a, b, m, names);
    ExchangedIsUndercut(g, init, a, b, m, names);
    ExchangedIsRooted(g, init, a, b, m, n);
    OrderKeptForecast(j, init);
  }
}
