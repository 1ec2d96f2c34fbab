/** One synchronization pass over the commit graph, and that it loses no timestamp silently. */
module Loss {
  import opened Hlc
  import opened Dag
  import opened Walk
  import opened Sorting
  import opened Collect
  import opened Replay
  import opened History
  import opened Fate
  import opened Stamps
  import opened Forecast
  import opened Worst

  /** A user commit has a timestamp, and no user commit among its ancestors has a greater one. */
  ghost predicate Dated(g: Graph, x: Hash)
    requires Acyclic(g) && x in g
  {
    g[x].meta.Some? ==>
      && !IsZero(g[x].meta.value)
      && forall y {:trigger y in Anc(g, x)} ::
           y in Anc(g, x) && y in g && g[y].meta.Some? ==> !Less(g[x].meta.value, g[y].meta.value)
  }

  /** Timestamps never decrease along ancestry. The code does not establish this: an import leaves the clock alone, so
      a later local commit can carry an older timestamp than its parent, and a replay can merge an older commit on top
      of a newer base. */
  ghost predicate InOrder(g: Graph, scope: set<Hash>)
    requires Acyclic(g)
  {
    forall x {:trigger x in scope} :: x in scope && x in g ==> Dated(g, x)
  }

  /** A user commit whose timestamp the finalized-base filter lets through. */
  ghost predicate Replayable(g: Graph, h: Hash, fb: Option<FinalizedBase>) {
    h in g && g[h].meta.Some? && Above(fb, g[h].meta.value)
  }

  /** No commit to be replayed is already an ancestor of the base. */
  ghost predicate BaseIsClear(g: Graph, base: Hash, inputs: set<Hash>, fb: Option<FinalizedBase>)
    requires Acyclic(g)
  {
    forall h :: h in inputs && Replayable(g, h, fb) ==> h !in Anc(g, base)
  }

  /** The finalized base names a commit of main's history that carries its timestamp. */
  ghost predicate Anchored(g: Graph, main: Hash, fb: FinalizedBase)
    requires Acyclic(g)
  {
    fb.commit in Anc(g, main) && fb.commit in g && g[fb.commit].meta == Some(fb.hlc)
  }

  /** With a finalized base the filter alone keeps the ancestors of the base out of the list, provided no ancestor of
      the base has a greater timestamp. */
  lemma {:induction false} FilterClearsBase(g: Graph, main: Hash, inputs: set<Hash>, fb: FinalizedBase)
    requires Wf(g) && Anchored(g, main, fb) && Dated(g, fb.commit)
    ensures BaseIsClear(g, fb.commit, inputs, Some(fb))
  {
  }

  /** Ordered timestamps and a clear base put the list in an order the fold can follow. */
  lemma {:induction false} CollectedIsOrdered(j: Job, inputs: set<Hash>, scope: set<Hash>, fb: Option<FinalizedBase>)
    requires Wf(j.g) && IsCollection(j.list, CommitsOf(j.g, inputs), fb)
    requires InOrder(j.g, scope) && inputs <= scope && BaseIsClear(j.g, j.base, inputs, fb)
    ensures OrderedTo(j, |j.list|)
  {
    CollectedArePresent(j.g, inputs, fb, j.list);
    CollectionMeaning(j.list, CommitsOf(j.g, inputs), fb);
    forall k | 0 <= k < |j.list| ensures j.list[k].hash !in Feeds(j, k) {
      assert Replayable(j.g, j.list[k].hash, fb);
      assert Dated(j.g, j.list[k].hash);
      forall i | 0 <= i < k ensures j.list[k].hash !in Anc(j.g, j.list[i].hash) {
        LaterIsNoAncestor(j.g, j.list[i], j.list[k]);
      }
    }
  }

  lemma {:induction false} LaterIsNoAncestor(g: Graph, a: Pick, b: Pick)
    requires Acyclic(g) && a.hash in g && b.hash in g && Dated(g, a.hash)
    requires g[a.hash].meta == Some(a.hlc) && g[b.hash].meta == Some(b.hlc) && Less(a.hlc, b.hlc)
    ensures b.hash !in Anc(g, a.hash)
  {
  }

  /** Every commit of an ordered list is accounted for. */
  lemma {:induction false} ListedIsAccounted(j: Job, i: nat)
    requires Playable(j) && OrderedTo(j, |j.list|) && !Replayed(j).broken
    requires i < |j.list| && j.g[j.list[i].hash].meta == Some(j.list[i].hlc)
    ensures Wf(Replayed(j).graph)
    ensures Accounted(Replayed(j).graph, Replayed(j).head, Replayed(j).rejected, j.list[i].hlc)
  {
    var b, c := Replayed(j), j.list[i];
    ReplayGrows(j, |j.list|);
    ReplayKeepsHistory(j, |j.list|);
    if b.outcomes[i].Conflict? {
      RejectedAreConflicts(j, |j.list|);
      assert c in b.rejected;
    } else {
      assert Survives(b, i);
      if c.hash in Anc(b.graph, b.head) {
        assert b.graph[c.hash].meta == Some(c.hlc);
      } else {
        var x :| x in Anc(b.graph, b.head) && IsCopy(j.g, b.graph, x, c);
        assert b.graph[x].meta == Some(c.hlc);
      }
    }
  }

  /** Every ancestor of the base is accounted for. */
  lemma {:induction false} BaseIsAccounted(j: Job, x: Hash)
    requires Playable(j) && OrderedTo(j, |j.list|) && !Replayed(j).broken
    requires x in Anc(j.g, j.base) && x in j.g && j.g[x].meta.Some?
    ensures Wf(Replayed(j).graph)
    ensures Accounted(Replayed(j).graph, Replayed(j).head, Replayed(j).rejected, j.g[x].meta.value)
  {
    ReplayGrows(j, |j.list|);
    ReplayKeepsHistory(j, |j.list|);
    assert Replayed(j).graph[x].meta == j.g[x].meta;
  }

  /** Every ancestor of the two heads is an input of the replay or an ancestor of its base. */
  lemma {:induction false} InputsCover(g: Graph, main: Hash, remote: Hash, mergeBase: Hash, fb: Option<FinalizedBase>,
                                       x: Hash)
    requires Wf(g) && mergeBase in Anc(g, main)
    requires x in Anc(g, main) || x in Anc(g, remote)
    ensures x in Inputs(g, main, remote, mergeBase, fb) || x in Anc(g, EffectiveBase(mergeBase, fb))
  {
    WalkFindsTheRest(g, main, EffectiveBase(mergeBase, fb));
    WalkFindsTheRest(g, remote, mergeBase);
    AncTransitive(g, main, mergeBase);
  }

  /** No silent loss in a replay without no-op merges: every user timestamp above the finalized base that main or the
      remote head had is in the new history or was reported. */
  lemma {:induction false} ReplayLosesNothing(j: Job, main: Hash, remote: Hash, mergeBase: Hash,
                                              fb: Option<FinalizedBase>, x: Hash)
    requires Playable(j) && main in j.g && remote in j.g
    requires mergeBase in Anc(j.g, main) && j.base == EffectiveBase(mergeBase, fb)
    requires IsCollection(j.list, CommitsOf(j.g, Inputs(j.g, main, remote, mergeBase, fb)), fb)
    requires OrderedTo(j, |j.list|) && !Replayed(j).broken
    requires x in Anc(j.g, main) || x in Anc(j.g, remote)
    requires Replayable(j.g, x, fb)
    ensures Wf(Replayed(j).graph)
    ensures Accounted(Replayed(j).graph, Replayed(j).head, Replayed(j).rejected, j.g[x].meta.value)
  {
    var inputs := Inputs(j.g, main, remote, mergeBase, fb);
    InputsCover(j.g, main, remote, mergeBase, fb, x);
    if x in inputs {
      InputIsAccounted(j, inputs, fb, x);
    } else {
      BaseIsAccounted(j, x);
    }
  }

  lemma {:induction false} InputIsAccounted(j: Job, inputs: set<Hash>, fb: Option<FinalizedBase>, x: Hash)
    requires Playable(j) && OrderedTo(j, |j.list|) && !Replayed(j).broken
    requires IsCollection(j.list, CommitsOf(j.g, inputs), fb) && x in inputs && Replayable(j.g, x, fb)
    ensures Wf(Replayed(j).graph)
    ensures Accounted(Replayed(j).graph, Replayed(j).head, Replayed(j).rejected, j.g[x].meta.value)
  {
    var i := FindListed(j.g, inputs, fb, j.list, x);
    ListedIsAccounted(j, i);
  }

  lemma {:induction false} FindListed(g: Graph, inputs: set<Hash>, fb: Option<FinalizedBase>, list: seq<Pick>,
                                      x: Hash) returns (i: nat)
    requires IsCollection(list, CommitsOf(g, inputs), fb) && x in inputs && Replayable(g, x, fb)
    ensures i < |list| && list[i].hlc == g[x].meta.value && list[i].hash in g
    ensures g[list[i].hash].meta == Some(list[i].hlc)
  {
    CollectionMeaning(list, CommitsOf(g, inputs), fb);
    CollectedArePresent(g, inputs, fb, list);
    assert Commit(x, g[x].meta) in CommitsOf(g, inputs);
    i :| 0 <= i < |list| && list[i].hlc == g[x].meta.value;
  }

  lemma {:induction false} InputsAreAncestors(g: Graph, main: Hash, remote: Hash, mergeBase: Hash,
                                              fb: Option<FinalizedBase>)
    requires Acyclic(g)
    ensures Inputs(g, main, remote, mergeBase, fb) <= Anc(g, main) + Anc(g, remote)
  {
    ReachIsAncestor(g, EffectiveBase(mergeBase, fb), main);
    ReachIsAncestor(g, mergeBase, remote);
  }

  // ---- exactly when nothing is lost ----

  lemma {:induction false} CollectedIsStamped(j: Job, inputs: set<Hash>, fb: Option<FinalizedBase>)
    requires Playable(j) && BaseUnlisted(j) && IsCollection(j.list, CommitsOf(j.g, inputs), fb)
    requires forall i :: 0 <= i < |j.list| ==> !IsZero(j.list[i].hlc)
    ensures Stamped(j)
  {
    CollectedArePresent(j.g, inputs, fb, j.list);
    CollectionMeaning(j.list, CommitsOf(j.g, inputs), fb);
    forall i, k | 0 <= i < k < |j.list| ensures j.list[i].hlc != j.list[k].hlc {
      LessTrichotomy(j.list[i].hlc, j.list[k].hlc);
    }
  }

  lemma {:induction false} FilterUnlistsBase(g: Graph, main: Hash, inputs: set<Hash>, fb: FinalizedBase,
                                             list: seq<Pick>)
    requires Wf(g) && Anchored(g, main, fb) && Less(ZERO, fb.hlc) && IsCollection(list, CommitsOf(g, inputs), Some(fb))
    ensures forall i :: 0 <= i < |list| ==> list[i].hash != fb.commit
  {
    CollectedArePresent(g, inputs, Some(fb), list);
    CollectionMeaning(list, CommitsOf(g, inputs), Some(fb));
    LessTrichotomy(fb.hlc, fb.hlc);
    LessTrichotomy(ZERO, fb.hlc);
  }

  lemma {:induction false} WalksUnlistBase(g: Graph, main: Hash, remote: Hash, mergeBase: Hash, list: seq<Pick>)
    requires Wf(g) && IsCollection(list, CommitsOf(g, Inputs(g, main, remote, mergeBase, None)), None)
    ensures forall i :: 0 <= i < |list| ==> list[i].hash != mergeBase
  {
    CollectedArePresent(g, Inputs(g, main, remote, mergeBase, None), None, list);
    NeverReachesAvoided(g, mergeBase, main);
    NeverReachesAvoided(g, mergeBase, remote);
  }

  /** Every user timestamp above the finalized base that main or the remote head had is accounted for. */
  ghost predicate LosesNothing(j: Job, main: Hash, remote: Hash, fb: Option<FinalizedBase>)
    requires Playable(j)
  {
    ReplayGrows(j, |j.list|);
    forall x :: (x in Anc(j.g, main) || x in Anc(j.g, remote)) && Replayable(j.g, x, fb) ==>
      Accounted(Replayed(j).graph, Replayed(j).head, Replayed(j).rejected, j.g[x].meta.value)
  }

  /** Every timestamp of the list, and the base's own if it is to be kept, is safe or has another source. */
  ghost predicate Harmless(j: Job, fb: Option<FinalizedBase>)
    requires Playable(j)
  {
    && (forall i: nat :: i < |j.list| ==> !Undone(j, i) || OtherSource(j, i))
    && (Replayable(j.g, j.base, fb) ==> !BaseUndone(j) || BaseSource(j, j.g[j.base].meta.value))
  }

  lemma {:induction false} LosslessIsHarmless(j: Job, init: Hash, main: Hash, remote: Hash, inputs: set<Hash>,
                                              fb: Option<FinalizedBase>)
    requires Stamped(j) && NeverConflicts(j.d) && Rooted(j.g, init) && IsCollection(j.list, CommitsOf(j.g, inputs), fb)
    requires inputs <= Anc(j.g, main) + Anc(j.g, remote) && j.base in Anc(j.g, main)
    requires LosesNothing(j, main, remote, fb)
    ensures Harmless(j, fb)
  {
    CollectedArePresent(j.g, inputs, fb, j.list);
    CollectionMeaning(j.list, CommitsOf(j.g, inputs), fb);
    forall i: nat | i < |j.list| ensures !Undone(j, i) || OtherSource(j, i) {
      assert Replayable(j.g, j.list[i].hash, fb);
      StampLostIff(j, init, i);
    }
    if Replayable(j.g, j.base, fb) {
      BaseStampLostIff(j, init, j.g[j.base].meta.value);
    }
  }

  lemma {:induction false} HarmlessAccounts(j: Job, init: Hash, inputs: set<Hash>, fb: Option<FinalizedBase>, x: Hash)
    requires Stamped(j) && NeverConflicts(j.d) && Rooted(j.g, init) && IsCollection(j.list, CommitsOf(j.g, inputs), fb)
    requires Harmless(j, fb) && Replayable(j.g, x, fb) && (x in inputs || x in Anc(j.g, j.base))
    ensures Wf(Replayed(j).graph)
    ensures Accounted(Replayed(j).graph, Replayed(j).head, Replayed(j).rejected, j.g[x].meta.value)
  {
    ReplayGrows(j, |j.list|);
    if x in inputs {
      var i := FindListed(j.g, inputs, fb, j.list, x);
      StampLostIff(j, init, i);
    } else if x == j.base {
      BaseStampLostIff(j, init, j.g[x].meta.value);
    } else {
      BaseAncestorIsKept(j, |j.list|, x);
      PresentCarries(Replayed(j), x, j.g[x].meta.value);
    }
  }

  /** No silent loss, exactly, on the graph before the call: for every Dolt that never conflicts, a replay accounts for
      every user timestamp if and only if no commit of the list is undone by the next one while it is the only source of
      its timestamp, and neither is the base by the first. */
  lemma {:induction false} LosesNothingIff(j: Job, init: Hash, main: Hash, remote: Hash, mergeBase: Hash,
                                           fb: Option<FinalizedBase>)
    requires Playable(j) && BaseUnlisted(j) && NeverConflicts(j.d) && Rooted(j.g, init)
    requires mergeBase in Anc(j.g, main) && j.base == EffectiveBase(mergeBase, fb) && j.base in Anc(j.g, main)
    requires IsCollection(j.list, CommitsOf(j.g, Inputs(j.g, main, remote, mergeBase, fb)), fb)
    requires forall i :: 0 <= i < |j.list| ==> !IsZero(j.list[i].hlc)
    ensures LosesNothing(j, main, remote, fb) <==> Harmless(j, fb)
  {
    var inputs := Inputs(j.g, main, remote, mergeBase, fb);
    CollectedIsStamped(j, inputs, fb);
    InputsAreAncestors(j.g, main, remote, mergeBase, fb);
    if LosesNothing(j, main, remote, fb) {
      LosslessIsHarmless(j, init, main, remote, inputs, fb);
    }
    if Harmless(j, fb) {
      ReplayGrows(j, |j.list|);
      forall x | (x in Anc(j.g, main) || x in Anc(j.g, remote)) && Replayable(j.g, x, fb)
        ensures Accounted(Replayed(j).graph, Replayed(j).head, Replayed(j).rejected, j.g[x].meta.value)
      {
        InputsCover(j.g, main, remote, mergeBase, fb, x);
        HarmlessAccounts(j, init, inputs, fb, x);
      }
    }
  }

  // ---- the same under every merge, conflicts included ----

  /** Every timestamp of the list, and the base's own if it is to be kept, is safe from every merge. */
  ghost predicate Invulnerable(j: Job, fb: Option<FinalizedBase>)
    requires Playable(j)
  {
    && (forall i: nat :: i < |j.list| ==> !Reachable(PlanOf(j), i) || Inherited(PlanOf(j), i))
    && (Replayable(j.g, j.base, fb) ==> BaseStays(j) || BaseInherited(j, j.g[j.base].meta.value))
  }

  lemma {:induction false} InvulnerableAccounts(j: Job, init: Hash, inputs: set<Hash>, fb: Option<FinalizedBase>,
                                                x: Hash)
    requires Stamped(j) && Rooted(j.g, init) && IsCollection(j.list, CommitsOf(j.g, inputs), fb)
    requires Invulnerable(j, fb) && Replayable(j.g, x, fb) && (x in inputs || x in Anc(j.g, j.base))
    ensures Accounts(j, j.g[x].meta.value)
  {
    ReplayGrows(j, |j.list|);
    if x in inputs {
      var i := FindListed(j.g, inputs, fb, j.list, x);
      UnreachableIsAccounted(j, init, i);
    } else if x == j.base {
      BaseIsAccountedFor(j, init, j.g[x].meta.value);
    } else {
      BaseAncestorIsKept(j, |j.list|, x);
      PresentCarries(Replayed(j), x, j.g[x].meta.value);
    }
  }

  lemma {:induction false} InvulnerableLosesNothing(j: Job, init: Hash, main: Hash, remote: Hash, mergeBase: Hash,
                                                    fb: Option<FinalizedBase>)
    requires Stamped(j) && Rooted(j.g, init) && Invulnerable(j, fb)
    requires mergeBase in Anc(j.g, main) && j.base == EffectiveBase(mergeBase, fb)
    requires IsCollection(j.list, CommitsOf(j.g, Inputs(j.g, main, remote, mergeBase, fb)), fb)
    ensures LosesNothing(j, main, remote, fb)
  {
    ReplayGrows(j, |j.list|);
    forall x | (x in Anc(j.g, main) || x in Anc(j.g, remote)) && Replayable(j.g, x, fb)
      ensures Accounted(Replayed(j).graph, Replayed(j).head, Replayed(j).rejected, j.g[x].meta.value)
    {
      InputsCover(j.g, main, remote, mergeBase, fb, x);
      InvulnerableAccounts(j, init, Inputs(j.g, main, remote, mergeBase, fb), fb, x);
    }
  }

  /** What every merge accounts for, it accounts for commit by commit. */
  lemma {:induction false} LosslessIsInvulnerable(j: Job, init: Hash, main: Hash, remote: Hash, inputs: set<Hash>,
                                                  fb: Option<FinalizedBase>)
    requires Stamped(j) && Rooted(j.g, init) && IsCollection(j.list, CommitsOf(j.g, inputs), fb)
    requires inputs <= Anc(j.g, main) + Anc(j.g, remote) && j.base in Anc(j.g, main)
    requires forall merge: (int, int, int) -> Option<int> :: LosesNothing(WithMerge(j, merge), main, remote, fb)
    ensures Invulnerable(j, fb)
  {
    CollectedArePresent(j.g, inputs, fb, j.list);
    CollectionMeaning(j.list, CommitsOf(j.g, inputs), fb);
    forall i: nat | i < |j.list| ensures !Reachable(PlanOf(j), i) || Inherited(PlanOf(j), i) {
      var x := j.list[i].hash;
      assert Replayable(j.g, x, fb);
      forall merge: (int, int, int) -> Option<int> ensures Accounts(WithMerge(j, merge), j.list[i].hlc) {
        LosslessAccounts(WithMerge(j, merge), main, remote, fb, x);
      }
      AllAccountIff(j, init, i);
    }
    if Replayable(j.g, j.base, fb) {
      forall merge: (int, int, int) -> Option<int> ensures Accounts(WithMerge(j, merge), j.g[j.base].meta.value) {
        LosslessAccounts(WithMerge(j, merge), main, remote, fb, j.base);
      }
      AllAccountBaseIff(j, init, j.g[j.base].meta.value);
    }
  }

  lemma {:induction false} LosslessAccounts(j: Job, main: Hash, remote: Hash, fb: Option<FinalizedBase>, x: Hash)
    requires Playable(j) && LosesNothing(j, main, remote, fb) && Replayable(j.g, x, fb)
    requires x in Anc(j.g, main) || x in Anc(j.g, remote)
    ensures Accounts(j, j.g[x].meta.value)
  {
  }

  lemma {:induction false} SameInvulnerable(j: Job, merge: (int, int, int) -> Option<int>, fb: Option<FinalizedBase>)
    requires Playable(j) && Invulnerable(j, fb)
    ensures Invulnerable(WithMerge(j, merge), fb)
  {
    assert PlanOf(WithMerge(j, merge)) == PlanOf(j);
    if Replayable(j.g, j.base, fb) {
      SameBaseRules(j, merge, j.g[j.base].meta.value);
    }
  }

  /** No silent loss whatever Dolt's merges do, conflicts included, exactly and on the graph before the call. */
  lemma {:induction false} AllLoseNothingIff(j: Job, init: Hash, main: Hash, remote: Hash, mergeBase: Hash,
                                             fb: Option<FinalizedBase>)
    requires Playable(j) && BaseUnlisted(j) && Rooted(j.g, init)
    requires mergeBase in Anc(j.g, main) && j.base == EffectiveBase(mergeBase, fb) && j.base in Anc(j.g, main)
    requires IsCollection(j.list, CommitsOf(j.g, Inputs(j.g, main, remote, mergeBase, fb)), fb)
    requires forall i :: 0 <= i < |j.list| ==> !IsZero(j.list[i].hlc)
    ensures (forall merge: (int, int, int) -> Option<int> :: LosesNothing(WithMerge(j, merge), main, remote, fb))
            <==> Invulnerable(j, fb)
  {
    var inputs := Inputs(j.g, main, remote, mergeBase, fb);
    CollectedIsStamped(j, inputs, fb);
    if Invulnerable(j, fb) {
      forall merge: (int, int, int) -> Option<int> ensures LosesNothing(WithMerge(j, merge), main, remote, fb) {
        SameInvulnerable(j, merge, fb);
        InvulnerableLosesNothing(WithMerge(j, merge), init, main, remote, mergeBase, fb);
      }
    } else if forall merge: (int, int, int) -> Option<int> :: LosesNothing(WithMerge(j, merge), main, remote, fb) {
      InputsAreAncestors(j.g, main, remote, mergeBase, fb);
      LosslessIsInvulnerable(j, init, main, remote, inputs, fb);
    }
  }
}
