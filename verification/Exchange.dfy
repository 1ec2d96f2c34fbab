/** Two peers that synchronize with each other's heads. */
module Exchange {
  import opened Hlc
  import opened Dag
  import opened Walk
  import Sorting
  import opened Collect
  import opened Replay
  import opened Fate
  import opened Loss
  import opened Convergence
  import opened Safety

  /** When no replayed commit is below the base, what is replayed is everything above it: the user commits of the two
      histories that pass the filter and are not ancestors of the base, whichever side they came from. */
  lemma {:induction false} EverythingAboveTheBase(g: Graph, main: Hash, remote: Hash, mb: Hash,
                                                  fb: Option<FinalizedBase>)
    requires Wf(g) && mb in Anc(g, main)
    requires BaseIsClear(g, EffectiveBase(mb, fb), Inputs(g, main, remote, mb, fb), fb)
    ensures Kept(CommitsOf(g, Inputs(g, main, remote, mb, fb)), fb)
            == Kept(CommitsOf(g, Anc(g, main) + Anc(g, remote) - Anc(g, EffectiveBase(mb, fb))), fb)
  {
    var inputs, all := Inputs(g, main, remote, mb, fb), Anc(g, main) + Anc(g, remote) - Anc(g, EffectiveBase(mb, fb));
    InputsAreAncestors(g, main, remote, mb, fb);
    forall h | Replayable(g, h, fb) ensures h in inputs <==> h in all {
      if h in all {
        InputsCover(g, main, remote, mb, fb, h);
      }
    }
  }

  /** One side of the exchange: a pass that had to replay, with a finalized base, if any, that nothing replayed is
      below. */
  ghost predicate Replays(d: Dolt, names: nat -> Hash, s: Hist, remote: Hash, list: seq<Pick>, s': Hist)
    requires Wf(s.graph)
  {
    && list != [] && IsPass(d, names, s, remote, Pass.Merged(list), s') && BaseHeld(s)
    && (s.base.Some? ==>
          var mb := MergeBase(d, s, remote);
          BaseIsClear(s.graph, s.base.value.commit, Inputs(s.graph, s.main, remote, mb, s.base), s.base))
  }

  /** The commits that one side replays onto a finalized base. */
  lemma {:induction false} SideKept(d: Dolt, names: nat -> Hash, s: Hist, remote: Hash, list: seq<Pick>, s': Hist)
    requires Wf(s.graph) && Replays(d, names, s, remote, list, s') && s.base.Some?
    ensures var base := EffectiveBase(MergeBase(d, s, remote), s.base);
            Kept(CommitsOf(s.graph, Inputs(s.graph, s.main, remote, MergeBase(d, s, remote), s.base)), s.base)
            == Kept(CommitsOf(s.graph, Anc(s.graph, s.main) + Anc(s.graph, remote) - Anc(s.graph, base)), s.base)
  {
    PickIsCommon(d, s, remote);
    ReachAvoids(s.graph, "", s.main, s.base.value.commit);
    EverythingAboveTheBase(s.graph, s.main, remote, MergeBase(d, s, remote), s.base);
  }

  /** What both sides of an exchange share. */
  ghost predicate Mirrored(s1: Hist, s2: Hist) {
    && Wf(s1.graph) && Wf(s2.graph) && Agree(s1.graph, s2.graph) && s1.base == s2.base
    && s1.main in s1.graph && s1.main in s2.graph && s2.main in s1.graph && s2.main in s2.graph
  }

  lemma {:induction false} MirroredAncestors(s1: Hist, s2: Hist)
    requires Mirrored(s1, s2)
    ensures Anc(s1.graph, s1.main) == Anc(s2.graph, s1.main) && Anc(s1.graph, s2.main) == Anc(s2.graph, s2.main)
    ensures forall h :: h in Anc(s1.graph, s1.main) + Anc(s1.graph, s2.main) ==>
              h in s1.graph && h in s2.graph && s1.graph[h] == s2.graph[h] && Anc(s1.graph, h) == Anc(s2.graph, h)
  {
    AncAgrees(s1.graph, s2.graph, s1.main);
    AncAgrees(s1.graph, s2.graph, s2.main);
    forall h | h in Anc(s1.graph, s1.main) + Anc(s1.graph, s2.main)
      ensures h in s1.graph && h in s2.graph && Anc(s1.graph, h) == Anc(s2.graph, h)
    {
      AncAgrees(s1.graph, s2.graph, h);
    }
  }

  /** The base the sides replay from, when it is a commit of both histories. */
  lemma {:induction false} MirroredCommits(s1: Hist, s2: Hist, base: Hash)
    requires Mirrored(s1, s2) && base in Anc(s1.graph, s1.main) + Anc(s1.graph, s2.main)
    ensures CommitsOf(s1.graph, Anc(s1.graph, s1.main) + Anc(s1.graph, s2.main) - Anc(s1.graph, base))
            == CommitsOf(s2.graph, Anc(s2.graph, s2.main) + Anc(s2.graph, s1.main) - Anc(s2.graph, base))
  {
    MirroredAncestors(s1, s2);
    var all := Anc(s1.graph, s1.main) + Anc(s1.graph, s2.main) - Anc(s1.graph, base);
    assert all == Anc(s2.graph, s2.main) + Anc(s2.graph, s1.main) - Anc(s2.graph, base);
  }

  lemma {:induction false} SidesShareBase(d: Dolt, s1: Hist, s2: Hist)
    requires Mirrored(s1, s2) && Sane(d) && BaseHeld(s1) && Anc(s1.graph, s1.main) * Anc(s1.graph, s2.main) != {}
    ensures MergeBase(d, s1, s2.main) == MergeBase(d, s2, s1.main)
    ensures EffectiveBase(MergeBase(d, s1, s2.main), s1.base) in Anc(s1.graph, s1.main) + Anc(s1.graph, s2.main)
  {
    MirroredAncestors(s1, s2);
    assert Anc(s1.graph, s1.main) * Anc(s1.graph, s2.main) == Anc(s2.graph, s2.main) * Anc(s2.graph, s1.main);
    PickIsCommon(d, s1, s2.main);
  }

  /** Without a finalized base both sides look at the same commits from the start. */
  lemma {:induction false} MirroredInputs(s1: Hist, s2: Hist, mb: Hash)
    requires Mirrored(s1, s2)
    ensures CommitsOf(s1.graph, Inputs(s1.graph, s1.main, s2.main, mb, None))
            == CommitsOf(s2.graph, Inputs(s2.graph, s2.main, s1.main, mb, None))
  {
    ReachAgrees(s1.graph, s2.graph, mb, s1.main);
    ReachAgrees(s1.graph, s2.graph, mb, s2.main);
    ReachIsPresent(s1.graph, mb, s1.main);
    ReachIsPresent(s1.graph, mb, s2.main);
    ReachIsPresent(s2.graph, mb, s1.main);
    ReachIsPresent(s2.graph, mb, s2.main);
  }

  lemma {:induction false} SidesAgreeAboveBase(d: Dolt, names1: nat -> Hash, names2: nat -> Hash, s1: Hist, s2: Hist,
                                               list1: seq<Pick>, list2: seq<Pick>, s1': Hist, s2': Hist)
    requires Mirrored(s1, s2) && s1.base.Some? && MergeBase(d, s1, s2.main) == MergeBase(d, s2, s1.main)
    requires Replays(d, names1, s1, s2.main, list1, s1') && Replays(d, names2, s2, s1.main, list2, s2')
    ensures list1 == list2
  {
    SidesShareBase(d, s1, s2);
    MirroredCommits(s1, s2, EffectiveBase(MergeBase(d, s1, s2.main), s1.base));
    SideKept(d, names1, s1, s2.main, list1, s1');
    SideKept(d, names2, s2, s1.main, list2, s2');
    BeforeIsOrder();
    Sorting.StrictlySortedIsUnique(list1, list2, Before);
  }

  /** Both sides replay the same list from the same base. */
  lemma {:induction false} SidesAgree(d: Dolt, names1: nat -> Hash, names2: nat -> Hash, s1: Hist, s2: Hist,
                                      list1: seq<Pick>, list2: seq<Pick>, s1': Hist, s2': Hist)
    requires Mirrored(s1, s2)
    requires Replays(d, names1, s1, s2.main, list1, s1') && Replays(d, names2, s2, s1.main, list2, s2')
    ensures MergeBase(d, s1, s2.main) == MergeBase(d, s2, s1.main)
    ensures list1 == list2
  {
    SidesShareBase(d, s1, s2);
    if s1.base.Some? {
      SidesAgreeAboveBase(d, names1, names2, s1, s2, list1, list2, s1', s2');
    } else {
      var mb := MergeBase(d, s1, s2.main);
      MirroredInputs(s1, s2, mb);
      CollectionIsUnique(list1, list2, CommitsOf(s1.graph, Inputs(s1.graph, s1.main, s2.main, mb, None)), None);
    }
  }

  /** Two peers with the same finalized base that synchronize, each with the other's head, end on the same database root
      and reject the same commits, though the commits they make for it differ. */
  lemma {:induction false} ExchangeConverges(d: Dolt, names1: nat -> Hash, names2: nat -> Hash, s1: Hist, s2: Hist,
                                             list1: seq<Pick>, list2: seq<Pick>, s1': Hist, s2': Hist)
    requires Mirrored(s1, s2)
    requires Replays(d, names1, s1, s2.main, list1, s1') && Replays(d, names2, s2, s1.main, list2, s2')
    ensures s1'.main in s1'.graph && s2'.main in s2'.graph
    ensures s1'.graph[s1'.main].root == s2'.graph[s2'.main].root
    ensures Reported(d, names1, s1, s2.main, Pass.Merged(list1)) == Reported(d, names2, s2, s1.main, Pass.Merged(list2))
  {
    SidesAgree(d, names1, names2, s1, s2, list1, list2, s1', s2');
    ReplaysAreBisimilar(PassJob(d, names1, s1, s2.main, list1), PassJob(d, names2, s2, s1.main, list2), |list1|);
  }

  /** The peers need not synchronize at the same time. If the head that a peer hears of already has the peer's own head
      in its history, the peer ends on that very commit. */
  lemma {:induction false} LaterPeerFollows(d: Dolt, names: nat -> Hash, s: Hist, remote: Hash, pass: Pass, s': Hist)
    requires Wf(s.graph) && IsPass(d, names, s, remote, pass, s') && s.main in Anc(s.graph, remote)
    ensures s'.main == remote
  {
    PickIsCommon(d, s, remote);
    if remote in Anc(s.graph, s.main) {
      Antisymmetric(s.graph, s.main, remote);
    }
  }
}
