/** One node over time: its history, its index and its finalized base, through local commits, synchronization passes,
    rebuilds, advertisements and finalizations, each an atomic step. */
module Safety {
  import opened Hlc
  import opened Dag
  import opened Walk
  import opened Collect
  import opened Replay
  import opened History
  import opened Fate
  import opened Stamps
  import opened Worst
  import opened Every
  import opened Loss
  import opened Index
  import opened Peer

  datatype Hist = Hist(graph: Graph, main: Hash, index: View, base: Option<FinalizedBase>)

  /** The index after the rejection hooks have fired; they ignore commits without a timestamp. */
  ghost function WithRejections(v: View, rejected: seq<Pick>): View {
    if |rejected| == 0 then v
    else
      var w, p := WithRejections(v, rejected[..|rejected| - 1]), rejected[|rejected| - 1];
      if IsZero(p.hlc) then w else w[p.hlc := Entry(p.hlc, p.hash, Rejected)]
  }

  // ---- a synchronization pass ----

  /** What a successful pass with shared history does. `list` is what it replayed. */
  datatype Pass = NothingNew | FastForwarded | Merged(list: seq<Pick>)

  ghost function MergeBase(d: Dolt, s: Hist, remote: Hash): Hash
    requires Wf(s.graph)
  {
    d.pick(Anc(s.graph, s.main) * Anc(s.graph, remote))
  }

  ghost function PassJob(d: Dolt, names: nat -> Hash, s: Hist, remote: Hash, list: seq<Pick>): Job
    requires Wf(s.graph)
  {
    Job(d, s.graph, EffectiveBase(MergeBase(d, s, remote), s.base), list, names)
  }

  /** What the pass reported as rejected. */
  ghost function Reported(d: Dolt, names: nat -> Hash, s: Hist, remote: Hash, pass: Pass): seq<Pick>
    requires Wf(s.graph)
  {
    if pass.Merged? then Replayed(PassJob(d, names, s, remote, pass.list)).rejected else []
  }

  /** The replay that a pass performs is set up as syncOnce and ReplayImportedCommits set it up. */
  ghost predicate Prepared(d: Dolt, names: nat -> Hash, s: Hist, remote: Hash, list: seq<Pick>)
    requires Wf(s.graph)
  {
    && s.main in s.graph && remote in s.graph && Anc(s.graph, s.main) * Anc(s.graph, remote) != {}
    && Playable(PassJob(d, names, s, remote, list))
    && IsCollection(list, CommitsOf(s.graph, Inputs(s.graph, s.main, remote, MergeBase(d, s, remote), s.base)), s.base)
  }

  /** The index is rebuilt from the walk of main's history. */
  ghost predicate IsRebuiltFrom(g: Graph, main: Hash, v: View, v': View)
    requires Acyclic(g)
  {
    exists cs :: IsWalk(g, "", main, cs) && IsRebuilt(v, cs, v')
  }

  ghost predicate Moved(s: Hist, graph: Graph, main: Hash, index: View, s': Hist)
    requires Acyclic(graph)
  {
    && s'.graph == graph && s'.main == main && s'.base == s.base
    && IsRebuiltFrom(graph, main, index, s'.index)
  }

  ghost predicate IsPass(d: Dolt, names: nat -> Hash, s: Hist, remote: Hash, pass: Pass, s': Hist)
    requires Wf(s.graph)
  {
    && Sane(d) && s.main in s.graph && remote in s.graph && Anc(s.graph, s.main) * Anc(s.graph, remote) != {}
    && match pass
       case NothingNew =>
         remote == MergeBase(d, s, remote) && s' == s
       case FastForwarded =>
         && remote != MergeBase(d, s, remote)
         && (|| (remote in Anc(s.graph, s.main) && Moved(s, s.graph, s.main, s.index, s'))
             || (s.main in Anc(s.graph, remote) && Moved(s, s.graph, remote, s.index, s')))
       case Merged(list) =>
         && remote !in Anc(s.graph, s.main) && s.main !in Anc(s.graph, remote)
         && Prepared(d, names, s, remote, list)
         && var b := Replayed(PassJob(d, names, s, remote, list));
         && Wf(b.graph)
         && if list == [] then Moved(s, s.graph, s.main, s.index, s')
            else !b.broken && Moved(s, b.graph, b.head, WithRejections(s.index, b.rejected), s')
  }

  /** What a pass that ended in an error leaves behind: main where it was, or where another commit moved it, and the
      rejections already recorded. */
  ghost predicate HasFailed(d: Dolt, names: nat -> Hash, s: Hist, remote: Hash, list: seq<Pick>, error: Error,
                            curHead: Hash, s': Hist)
    requires Wf(s.graph)
  {
    && Prepared(d, names, s, remote, list)
    && var b := Replayed(PassJob(d, names, s, remote, list));
    && s'.graph == b.graph && s'.index == WithRejections(s.index, b.rejected) && s'.base == s.base
    && (if b.broken then error == MergeFailed && s'.main == s.main
        else error == MainAdvanced && curHead != s.main && s'.main == curHead)
  }

  /** Timestamps in order, and a base that no replayed commit is below: enough to put the replayed list in order. A
      finalized base in main's history meets the second by itself. */
  ghost predicate Orderly(d: Dolt, s: Hist, remote: Hash)
    requires Wf(s.graph)
  {
    && InOrder(s.graph, Anc(s.graph, s.main) + Anc(s.graph, remote))
    && (s.base.None? ==>
          var mb := MergeBase(d, s, remote);
          BaseIsClear(s.graph, mb, Inputs(s.graph, s.main, remote, mb, None), None))
  }

  /** The finalized base, if any, is a commit of main's history above zero. */
  ghost predicate BaseHeld(s: Hist)
    requires Wf(s.graph)
  {
    s.base.Some? ==> Anchored(s.graph, s.main, s.base.value) && Less(ZERO, s.base.value.hlc)
  }

  lemma {:induction false} EffectiveBaseIsClear(d: Dolt, s: Hist, remote: Hash)
    requires Wf(s.graph) && BaseHeld(s) && Orderly(d, s, remote)
    ensures var mb := MergeBase(d, s, remote);
            BaseIsClear(s.graph, EffectiveBase(mb, s.base), Inputs(s.graph, s.main, remote, mb, s.base), s.base)
  {
    var mb := MergeBase(d, s, remote);
    if s.base.Some? {
      ReachAvoids(s.graph, "", s.main, s.base.value.commit);
      FilterClearsBase(s.graph, s.main, Inputs(s.graph, s.main, remote, mb, s.base), s.base.value);
    }
  }

  lemma {:induction false} OrderlyIsOrdered(d: Dolt, names: nat -> Hash, s: Hist, remote: Hash, list: seq<Pick>)
    requires Wf(s.graph) && BaseHeld(s) && Prepared(d, names, s, remote, list) && Orderly(d, s, remote)
    ensures OrderedTo(PassJob(d, names, s, remote, list), |list|)
  {
    var mb := MergeBase(d, s, remote);
    EffectiveBaseIsClear(d, s, remote);
    InputsAreAncestors(s.graph, s.main, remote, mb, s.base);
    CollectedIsOrdered(PassJob(d, names, s, remote, list), Inputs(s.graph, s.main, remote, mb, s.base),
                       Anc(s.graph, s.main) + Anc(s.graph, remote), s.base);
  }

  /** A pass never replays its own base: the walks stop there, and the filter is strict. */
  lemma {:induction false} BaseIsUnlisted(d: Dolt, names: nat -> Hash, s: Hist, remote: Hash, list: seq<Pick>)
    requires Wf(s.graph) && BaseHeld(s) && Prepared(d, names, s, remote, list)
    ensures BaseUnlisted(PassJob(d, names, s, remote, list))
  {
    var mb := MergeBase(d, s, remote);
    if s.base.Some? {
      ReachAvoids(s.graph, "", s.main, s.base.value.commit);
      FilterUnlistsBase(s.graph, s.main, Inputs(s.graph, s.main, remote, mb, s.base), s.base.value, list);
    } else {
      WalksUnlistBase(s.graph, s.main, remote, mb, list);
    }
  }

  /** A finalized base whose ancestors have no greater timestamp stays, whatever Dolt does. */
  lemma {:induction false} DatedBaseStays(d: Dolt, names: nat -> Hash, s: Hist, remote: Hash, list: seq<Pick>)
    requires Wf(s.graph) && BaseHeld(s) && s.base.Some? && Dated(s.graph, s.base.value.commit)
    requires Prepared(d, names, s, remote, list)
    ensures BaseStays(PassJob(d, names, s, remote, list))
  {
    var inputs := Inputs(s.graph, s.main, remote, MergeBase(d, s, remote), s.base);
    CollectedArePresent(s.graph, inputs, s.base, list);
    CollectionMeaning(list, CommitsOf(s.graph, inputs), s.base);
    ReachAvoids(s.graph, "", s.main, s.base.value.commit);
    FilterClearsBase(s.graph, s.main, inputs, s.base.value);
    forall k | 0 <= k < |list| ensures list[k].hash !in Anc(s.graph, s.base.value.commit) {
      assert Replayable(s.graph, list[k].hash, s.base);
    }
  }

  lemma {:induction false} PickIsCommon(d: Dolt, s: Hist, remote: Hash)
    requires Wf(s.graph) && Sane(d) && Anc(s.graph, s.main) * Anc(s.graph, remote) != {}
    ensures MergeBase(d, s, remote) in Anc(s.graph, s.main) && MergeBase(d, s, remote) in Anc(s.graph, remote)
  {
    assert MergeBase(d, s, remote) in Anc(s.graph, s.main) * Anc(s.graph, remote);
  }

  /** With nothing to replay, every user timestamp above the base is in main already. */
  lemma {:induction false} EmptyReplayLosesNothing(d: Dolt, names: nat -> Hash, s: Hist, remote: Hash, x: Hash)
    requires Wf(s.graph) && BaseHeld(s) && Sane(d) && Prepared(d, names, s, remote, [])
    requires x in Anc(s.graph, s.main) || x in Anc(s.graph, remote)
    requires Replayable(s.graph, x, s.base)
    ensures x in Anc(s.graph, s.main)
  {
    var mb := MergeBase(d, s, remote);
    var inputs := Inputs(s.graph, s.main, remote, mb, s.base);
    PickIsCommon(d, s, remote);
    InputsCover(s.graph, s.main, remote, mb, s.base, x);
    CollectionMeaning([], CommitsOf(s.graph, inputs), s.base);
    assert x in inputs ==> Commit(x, s.graph[x].meta) in CommitsOf(s.graph, inputs);
    AncTransitive(s.graph, s.main, EffectiveBase(mb, s.base));
  }

  /** No listed commit is an ancestor of the base or of an earlier one. */
  ghost predicate InTurn(d: Dolt, names: nat -> Hash, s: Hist, remote: Hash, pass: Pass)
    requires Wf(s.graph)
  {
    pass.Merged? ==> OrderedTo(PassJob(d, names, s, remote, pass.list), |pass.list|)
  }

  /** No silent loss: after every successful pass over shared history, each user timestamp above the finalized base
      that main or the remote head had is carried by a commit of the new main or was reported as rejected. */
  lemma {:induction false} PassLosesNothing(d: Dolt, names: nat -> Hash, s: Hist, remote: Hash, pass: Pass, s': Hist,
                                            x: Hash)
    requires Wf(s.graph) && BaseHeld(s) && IsPass(d, names, s, remote, pass, s')
    requires InTurn(d, names, s, remote, pass)
    requires x in Anc(s.graph, s.main) || x in Anc(s.graph, remote)
    requires Replayable(s.graph, x, s.base)
    ensures Wf(s'.graph)
    ensures Accounted(s'.graph, s'.main, Reported(d, names, s, remote, pass), s.graph[x].meta.value)
  {
    match pass {
      case NothingNew =>
        PickIsCommon(d, s, remote);
        AncTransitive(s.graph, s.main, remote);
      case FastForwarded =>
        if remote in Anc(s.graph, s.main) {
          AncTransitive(s.graph, s.main, remote);
        }
        if s.main in Anc(s.graph, remote) {
          AncTransitive(s.graph, remote, s.main);
        }
      case Merged(list) =>
        if list == [] {
          EmptyReplayLosesNothing(d, names, s, remote, x);
        } else {
          PickIsCommon(d, s, remote);
          ReplayLosesNothing(PassJob(d, names, s, remote, list), s.main, remote, MergeBase(d, s, remote), s.base, x);
        }
    }
  }

  /** Timestamps in order and a clear base are enough: such a pass loses nothing. */
  lemma {:induction false} OrderlyPassLosesNothing(d: Dolt, names: nat -> Hash, s: Hist, remote: Hash, pass: Pass,
                                                   s': Hist, x: Hash)
    requires Wf(s.graph) && BaseHeld(s) && IsPass(d, names, s, remote, pass, s') && Orderly(d, s, remote)
    requires x in Anc(s.graph, s.main) || x in Anc(s.graph, remote)
    requires Replayable(s.graph, x, s.base)
    ensures Wf(s'.graph)
    ensures Accounted(s'.graph, s'.main, Reported(d, names, s, remote, pass), s.graph[x].meta.value)
  {
    if pass.Merged? {
      OrderlyIsOrdered(d, names, s, remote, pass.list);
    }
    PassLosesNothing(d, names, s, remote, pass, s', x);
  }

  // ---- whole runs ----

  /** What a node can do. A failed pass is a replay that ended in an error: it leaves main alone, and the hooks have
      fired; a commit that made main advance meanwhile is a move of its own. The graph may grow by a fetch at any time.
      There is no bootstrap reset: it replaces main outright. */
  datatype Move =
    | Record(hash: Hash, root: int, hlc: Timestamp, indexed: bool)
    | Fetch
    | Synchronize(d: Dolt, names: nat -> Hash, remote: Hash, pass: Pass)
    | FailToSynchronize(d: Dolt, names: nat -> Hash, remote: Hash, list: seq<Pick>)
    | Rebuild
    | Hear(entry: Entry)
    | Finalize(heard: map<string, Timestamp>)

  ghost predicate Follows(s: Hist, m: Move, s': Hist)
    requires Wf(s.graph) && s.main in s.graph
  {
    match m
    case Record(hash, root, hlc, indexed) =>
      && hash !in s.graph && hash != ""
      && s'.graph == s.graph[hash := Vertex([s.main], root, Some(hlc), s.graph[s.main].height + 1)]
      && s'.main == hash && s'.base == s.base
      && s'.index == if indexed then s.index[hlc := Entry(hlc, hash, Applied)] else s.index
    case Fetch =>
      Wf(s'.graph) && Extends(s.graph, s'.graph) && s' == s.(graph := s'.graph)
    case Synchronize(d, names, remote, pass) =>
      && IsPass(d, names, s, remote, pass, s')
      && (pass.Merged? && s.base.Some? ==> BaseStays(PassJob(d, names, s, remote, pass.list)))
    case FailToSynchronize(d, names, remote, list) =>
      && Sane(d) && Prepared(d, names, s, remote, list)
      && var b := Replayed(PassJob(d, names, s, remote, list));
      && s' == s.(graph := b.graph, index := WithRejections(s.index, b.rejected))
    case Rebuild =>
      Moved(s, s.graph, s.main, s.index, s')
    case Hear(e) =>
      !Decided(s.index, e.hlc) && !e.status.Applied? && s' == s.(index := s.index[e.hlc := e])
    case Finalize(heard) =>
      s' == s.(base := AfterFinalize(Peer(Reading(0, 0), heard, s.index, s.base)).base)
  }

  /** An applied entry names a commit of main's history that carries its timestamp. */
  ghost predicate AppliedEntry(g: Graph, main: Hash, h: Timestamp, e: Entry)
    requires Acyclic(g)
  {
    e.hash in Anc(g, main) && e.hash in g && g[e.hash].meta == Some(h)
  }

  ghost predicate AppliedOk(g: Graph, main: Hash, v: View)
    requires Acyclic(g)
  {
    forall h :: h in v && v[h].status.Applied? ==> AppliedEntry(g, main, h, v[h])
  }

  ghost predicate Safe(s: Hist) {
    Wf(s.graph) && s.main in s.graph && AppliedOk(s.graph, s.main, s.index) && BaseHeld(s)
  }

  lemma {:induction false} RebuiltIsOk(g: Graph, main: Hash, v: View, v': View)
    requires Wf(g) && IsRebuiltFrom(g, main, v, v')
    ensures AppliedOk(g, main, v')
  {
    var cs :| IsWalk(g, "", main, cs) && IsRebuilt(v, cs, v');
    forall h | h in v' && v'[h].status.Applied? ensures AppliedEntry(g, main, h, v'[h]) {
      assert Carries(cs, h) || Preserved(v, h);
    }
  }

  lemma {:induction false} RejectionsAreOk(g: Graph, main: Hash, v: View, rejected: seq<Pick>)
    requires Acyclic(g) && AppliedOk(g, main, v)
    ensures AppliedOk(g, main, WithRejections(v, rejected))
  {
    if |rejected| > 0 {
      RejectionsAreOk(g, main, v, rejected[..|rejected| - 1]);
    }
  }

  /** Growing the graph changes nothing about main's history. */
  lemma {:induction false} GrowthIsSafe(s: Hist, g: Graph)
    requires Safe(s) && Wf(g) && Extends(s.graph, g)
    ensures Safe(s.(graph := g))
  {
    AncAgrees(s.graph, g, s.main);
    forall h | h in s.index && s.index[h].status.Applied? ensures AppliedEntry(g, s.main, h, s.index[h]) {
      assert AppliedEntry(s.graph, s.main, h, s.index[h]);
    }
  }

  /** Moving main to a descendant keeps the base in its history. */
  lemma {:induction false} AscentKeepsBase(s: Hist, main: Hash)
    requires Wf(s.graph) && BaseHeld(s) && s.main in Anc(s.graph, main)
    ensures BaseHeld(s.(main := main))
  {
    AncTransitive(s.graph, main, s.main);
  }

  lemma {:induction false} RecordIsSafe(s: Hist, m: Move, s': Hist)
    requires Safe(s) && m.Record? && Follows(s, m, s')
    ensures Safe(s')
  {
    var n := Vertex([s.main], m.root, Some(m.hlc), s.graph[s.main].height + 1);
    AddCommit(s.graph, m.hash, n);
    GrowthIsSafe(s, s'.graph);
    SingleParent(s.graph, s.main);
    HeadIsAncestor(s.graph, s.main);
    AscentKeepsBase(s.(graph := s'.graph), m.hash);
    forall h | h in s.index && s.index[h].status.Applied? ensures AppliedEntry(s'.graph, s'.main, h, s.index[h]) {
      assert AppliedEntry(s.graph, s.main, h, s.index[h]);
    }
  }

  /** A replay onto the finalized base leaves it in main's history. */
  lemma {:induction false} ReplayKeepsBase(d: Dolt, names: nat -> Hash, s: Hist, remote: Hash, list: seq<Pick>)
    requires Safe(s) && Sane(d) && Prepared(d, names, s, remote, list)
    requires s.base.Some? ==> BaseStays(PassJob(d, names, s, remote, list))
    requires !Replayed(PassJob(d, names, s, remote, list)).broken
    ensures var b := Replayed(PassJob(d, names, s, remote, list));
            Wf(b.graph) && b.head in b.graph && BaseHeld(s.(graph := b.graph, main := b.head))
  {
    var j := PassJob(d, names, s, remote, list);
    ReplayGrows(j, |list|);
    if s.base.Some? {
      ReachAvoids(s.graph, "", s.main, s.base.value.commit);
      BaseIsUnlisted(d, names, s, remote, list);
      BaseIsKept(j, |list|);
      HeadIsAncestor(Replayed(j).graph, Replayed(j).head);
    }
  }

  lemma {:induction false} SynchronizeIsSafe(s: Hist, m: Move, s': Hist)
    requires Safe(s) && m.Synchronize? && Follows(s, m, s')
    ensures Safe(s')
  {
    match m.pass {
      case NothingNew =>
      case FastForwarded =>
        RebuiltIsOk(s'.graph, s'.main, s.index, s'.index);
        HeadIsAncestor(s.graph, s.main);
        AscentKeepsBase(s, s'.main);
      case Merged(list) =>
        if list == [] {
          RebuiltIsOk(s'.graph, s'.main, s.index, s'.index);
        } else {
          var b := Replayed(PassJob(m.d, m.names, s, m.remote, list));
          ReplayKeepsBase(m.d, m.names, s, m.remote, list);
          RebuiltIsOk(s'.graph, s'.main, WithRejections(s.index, b.rejected), s'.index);
        }
    }
  }

  lemma {:induction false} FailureIsSafe(s: Hist, m: Move, s': Hist)
    requires Safe(s) && m.FailToSynchronize? && Follows(s, m, s')
    ensures Safe(s')
  {
    var j := PassJob(m.d, m.names, s, m.remote, m.list);
    ReplayGrows(j, |m.list|);
    GrowthIsSafe(s, s'.graph);
    RejectionsAreOk(s'.graph, s.main, s.index, Replayed(j).rejected);
  }

  lemma {:induction false} FinalizeIsSafe(s: Hist, m: Move, s': Hist)
    requires Safe(s) && m.Finalize? && Follows(s, m, s')
    ensures Safe(s')
  {
    var p := Peer(Reading(0, 0), m.heard, s.index, s.base);
    FinalizeMovesToGreatest(p);
    if s'.base != s.base {
      var h := s'.base.value.hlc;
      assert Finalizable(p, h);
      assert AppliedEntry(s.graph, s.main, h, s.index[h]);
    }
  }

  lemma {:induction false} MoveIsSafe(s: Hist, m: Move, s': Hist)
    requires Safe(s) && Follows(s, m, s')
    ensures Safe(s')
  {
    match m {
      case Record(_, _, _, _) => RecordIsSafe(s, m, s');
      case Fetch => GrowthIsSafe(s, s'.graph);
      case Synchronize(_, _, _, _) => SynchronizeIsSafe(s, m, s');
      case FailToSynchronize(_, _, _, _) => FailureIsSafe(s, m, s');
      case Rebuild => RebuiltIsOk(s.graph, s.main, s.index, s'.index);
      case Hear(_) =>
      case Finalize(_) => FinalizeIsSafe(s, m, s');
    }
  }

  /** A run from a repository with its history, an empty index and no base. */
  ghost predicate IsRun(ss: seq<Hist>, ms: seq<Move>) {
    && |ss| == |ms| + 1
    && Wf(ss[0].graph) && ss[0].main in ss[0].graph && ss[0].index == map[] && ss[0].base == None
    && forall i {:trigger ms[i]} :: 0 <= i < |ms| ==>
         Wf(ss[i].graph) && ss[i].main in ss[i].graph && Follows(ss[i], ms[i], ss[i + 1])
  }

  lemma {:induction false} RunIsSafe(ss: seq<Hist>, ms: seq<Move>, i: nat)
    requires IsRun(ss, ms) && i < |ss|
    ensures Safe(ss[i])
  {
    if i > 0 {
      RunIsSafe(ss, ms, i - 1);
      MoveIsSafe(ss[i - 1], ms[i - 1], ss[i]);
    }
  }

  // ---- no silent loss over a whole run ----

  ghost predicate MainCarries(s: Hist, t: Timestamp) {
    Wf(s.graph) && exists x :: x in Anc(s.graph, s.main) && x in s.graph && s.graph[x].meta == Some(t)
  }

  /** The move reported the timestamp as rejected. */
  ghost predicate Reports(s: Hist, m: Move, t: Timestamp)
    requires Wf(s.graph)
  {
    m.Synchronize? &&
    exists k :: 0 <= k < |Reported(m.d, m.names, s, m.remote, m.pass)|
                && Reported(m.d, m.names, s, m.remote, m.pass)[k].hlc == t
  }

  /** What was in the branch stays when main moves up. */
  lemma {:induction false} AscentCarries(s: Hist, s': Hist, t: Timestamp)
    requires MainCarries(s, t) && Wf(s'.graph) && Extends(s.graph, s'.graph) && s.main in s.graph
    requires s.main in Anc(s'.graph, s'.main)
    ensures MainCarries(s', t)
  {
    var x :| x in Anc(s.graph, s.main) && x in s.graph && s.graph[x].meta == Some(t);
    AncAgrees(s.graph, s'.graph, s.main);
    AncTransitive(s'.graph, s'.main, s.main);
    assert s'.graph[x] == s.graph[x];
  }

  lemma {:induction false} PassCarries(s: Hist, m: Move, s': Hist, t: Timestamp)
    requires Safe(s) && m.Synchronize? && Follows(s, m, s') && InTurn(m.d, m.names, s, m.remote, m.pass)
    requires MainCarries(s, t) && Above(s.base, t)
    ensures MainCarries(s', t) || Reports(s, m, t)
  {
    var x :| x in Anc(s.graph, s.main) && x in s.graph && s.graph[x].meta == Some(t);
    PassLosesNothing(m.d, m.names, s, m.remote, m.pass, s', x);
  }

  lemma {:induction false} RecordAscends(s: Hist, m: Move, s': Hist)
    requires Safe(s) && m.Record? && Follows(s, m, s')
    ensures Wf(s'.graph) && Extends(s.graph, s'.graph) && s.main in Anc(s'.graph, s'.main)
  {
    AddCommit(s.graph, m.hash, Vertex([s.main], m.root, Some(m.hlc), s.graph[s.main].height + 1));
    SingleParent(s.graph, s.main);
    HeadIsAncestor(s.graph, s.main);
  }

  lemma {:induction false} MoveCarries(s: Hist, m: Move, s': Hist, t: Timestamp)
    requires Safe(s) && Follows(s, m, s') && MainCarries(s, t) && Above(s.base, t)
    requires m.Synchronize? ==> InTurn(m.d, m.names, s, m.remote, m.pass)
    ensures MainCarries(s', t) || Reports(s, m, t)
  {
    if m.Synchronize? {
      PassCarries(s, m, s', t);
    } else {
      MoveIsSafe(s, m, s');
      MoveAscends(s, m, s');
      AscentCarries(s, s', t);
    }
  }

  /** Whatever is not a synchronization leaves main where it is or moves it up. */
  lemma {:induction false} MoveAscends(s: Hist, m: Move, s': Hist)
    requires Safe(s) && Follows(s, m, s') && !m.Synchronize?
    ensures Wf(s'.graph) && Extends(s.graph, s'.graph) && s.main in Anc(s'.graph, s'.main)
  {
    if m.Record? {
      RecordAscends(s, m, s');
    } else {
      if m.FailToSynchronize? {
        ReplayGrows(PassJob(m.d, m.names, s, m.remote, m.list), |m.list|);
      }
      HeadIsAncestor(s'.graph, s.main);
    }
  }

  /** The base only moves up. */
  lemma {:induction false} MoveRaisesBase(s: Hist, m: Move, s': Hist, t: Timestamp)
    requires Safe(s) && Follows(s, m, s') && Above(s'.base, t)
    ensures Above(s.base, t)
  {
    if m.Finalize? {
      FinalizeMovesToGreatest(Peer(Reading(0, 0), m.heard, s.index, s.base));
      if s'.base != s.base && s.base.Some? {
        LessTransitive(s.base.value.hlc, s'.base.value.hlc, t);
      }
    }
  }

  /** Every merged pass between `i` and `n` replays a list in order. */
  ghost predicate InTurnThroughout(ss: seq<Hist>, ms: seq<Move>, i: nat, n: nat)
    requires IsRun(ss, ms) && n <= |ms|
  {
    forall k :: i <= k < n && ms[k].Synchronize? ==> InTurn(ms[k].d, ms[k].names, ss[k], ms[k].remote, ms[k].pass)
  }

  ghost predicate CarriedAt(ss: seq<Hist>, k: nat, t: Timestamp) {
    k < |ss| && MainCarries(ss[k], t)
  }

  ghost predicate AboveAt(ss: seq<Hist>, k: nat, t: Timestamp) {
    k < |ss| && Above(ss[k].base, t)
  }

  ghost predicate ReportedAt(ss: seq<Hist>, ms: seq<Move>, k: nat, t: Timestamp) {
    k < |ms| && k < |ss| && Wf(ss[k].graph) && Reports(ss[k], ms[k], t)
  }

  lemma {:induction false} StepLosesNothing(ss: seq<Hist>, ms: seq<Move>, i: nat, k: nat, n: nat, t: Timestamp)
    requires IsRun(ss, ms) && i <= k < n <= |ms| && InTurnThroughout(ss, ms, i, n) && AboveAt(ss, k + 1, t)
    ensures AboveAt(ss, k, t)
    ensures CarriedAt(ss, k, t) ==> CarriedAt(ss, k + 1, t) || ReportedAt(ss, ms, k, t)
  {
    RunIsSafe(ss, ms, k);
    MoveRaisesBase(ss[k], ms[k], ss[k + 1], t);
    if MainCarries(ss[k], t) {
      MoveCarries(ss[k], ms[k], ss[k + 1], t);
    }
  }

  /** What is carried stays carried until it is reported, as long as it is above the base. */
  lemma {:induction false} LossInduction(above: nat -> bool, carried: nat -> bool, reported: nat -> bool, i: nat,
                                         n: nat)
    requires i <= n && above(n) && carried(i)
    requires forall k: nat :: i <= k < n && above(k + 1) ==> above(k) && (carried(k) ==> carried(k + 1) || reported(k))
    ensures carried(n) || exists k: nat :: i <= k < n && reported(k)
  {
    if i < n {
      LossInduction(above, carried, reported, i, n - 1);
    }
  }

  /** No silent loss over a whole run, while the base advances: a user timestamp of main that is still above the base at
      the end is in main's history at the end, or some pass in between reported it. */
  lemma {:induction false} RunLosesNothing(ss: seq<Hist>, ms: seq<Move>, i: nat, n: nat, t: Timestamp)
    requires IsRun(ss, ms) && i <= n < |ss| && InTurnThroughout(ss, ms, i, n)
    requires MainCarries(ss[i], t) && Above(ss[n].base, t)
    ensures MainCarries(ss[n], t) || exists k: nat :: i <= k < n && ReportedAt(ss, ms, k, t)
  {
    forall k: nat | i <= k < n && AboveAt(ss, k + 1, t)
      ensures AboveAt(ss, k, t) && (CarriedAt(ss, k, t) ==> CarriedAt(ss, k + 1, t) || ReportedAt(ss, ms, k, t))
    {
      StepLosesNothing(ss, ms, i, k, n, t);
    }
    LossInduction((k: nat) => AboveAt(ss, k, t), (k: nat) => CarriedAt(ss, k, t), (k: nat) => ReportedAt(ss, ms, k, t),
                  i, n);
  }

  // ---- exactly what a pass loses ----

  /** No silent loss in a pass, exactly, on the graph before it, for every Dolt that never conflicts. */
  lemma {:induction false} PassLosesNothingIff(d: Dolt, names: nat -> Hash, s: Hist, remote: Hash, list: seq<Pick>,
                                               init: Hash)
    requires Safe(s) && Sane(d) && Prepared(d, names, s, remote, list) && NeverConflicts(d) && Rooted(s.graph, init)
    requires forall i :: 0 <= i < |list| ==> !IsZero(list[i].hlc)
    ensures var j := PassJob(d, names, s, remote, list);
            LosesNothing(j, s.main, remote, s.base) <==> Harmless(j, s.base)
  {
    PickIsCommon(d, s, remote);
    if s.base.Some? {
      ReachAvoids(s.graph, "", s.main, s.base.value.commit);
    }
    BaseIsUnlisted(d, names, s, remote, list);
    LosesNothingIff(PassJob(d, names, s, remote, list), init, s.main, remote, MergeBase(d, s, remote), s.base);
  }

  /** The same over every merge, conflicts included. */
  lemma {:induction false} AllPassesLoseNothingIff(d: Dolt, names: nat -> Hash, s: Hist, remote: Hash, list: seq<Pick>,
                                                   init: Hash)
    requires Safe(s) && Sane(d) && Prepared(d, names, s, remote, list) && Rooted(s.graph, init)
    requires forall i :: 0 <= i < |list| ==> !IsZero(list[i].hlc)
    ensures var j := PassJob(d, names, s, remote, list);
            (forall merge: (int, int, int) -> Option<int> :: LosesNothing(WithMerge(j, merge), s.main, remote, s.base))
            <==> Invulnerable(j, s.base)
  {
    PickIsCommon(d, s, remote);
    if s.base.Some? {
      ReachAvoids(s.graph, "", s.main, s.base.value.commit);
    }
    BaseIsUnlisted(d, names, s, remote, list);
    AllLoseNothingIff(PassJob(d, names, s, remote, list), init, s.main, remote, MergeBase(d, s, remote), s.base);
  }

  // ---- finalized commits ----

  /** A finalized commit other than the base is not replayed. */
  lemma {:induction false} FinalizedIsUnlisted(d: Dolt, names: nat -> Hash, s: Hist, remote: Hash, list: seq<Pick>,
                                               x: Hash)
    requires Safe(s) && s.base.Some? && Prepared(d, names, s, remote, list) && x in s.graph && x != s.base.value.commit
    requires s.graph[x].meta.Some? && !Above(s.base, s.graph[x].meta.value)
    ensures var j := PassJob(d, names, s, remote, list);
            BaseUnlisted(j) && Unlisted(j, x) && j.base == s.base.value.commit
  {
    var inputs := Inputs(s.graph, s.main, remote, MergeBase(d, s, remote), s.base);
    ReachAvoids(s.graph, "", s.main, s.base.value.commit);
    BaseIsUnlisted(d, names, s, remote, list);
    CollectedArePresent(s.graph, inputs, s.base, list);
    CollectionMeaning(list, CommitsOf(s.graph, inputs), s.base);
  }

  /** Exactly which finalized commits of main a pass keeps, for every Dolt that never conflicts: the ancestors of the
      base and of what is replayed. */
  lemma {:induction false} FinalizedKeptIff(d: Dolt, names: nat -> Hash, s: Hist, remote: Hash, list: seq<Pick>,
                                            init: Hash, x: Hash)
    requires Safe(s) && s.base.Some? && Prepared(d, names, s, remote, list)
    requires NeverConflicts(d) && Rooted(s.graph, init)
    requires x in Anc(s.graph, s.main) && x in s.graph && x != s.base.value.commit
    requires s.graph[x].meta.Some? && !Above(s.base, s.graph[x].meta.value)
    ensures var b := Replayed(PassJob(d, names, s, remote, list));
            && Wf(b.graph) && !b.broken
            && (x in Anc(b.graph, b.head) <==>
                  || x in Anc(s.graph, s.base.value.commit)
                  || exists i :: 0 <= i < |list| && x in Anc(s.graph, list[i].hash))
  {
    FinalizedIsUnlisted(d, names, s, remote, list, x);
    KeptIffFed(PassJob(d, names, s, remote, list), init, x);
  }

  /** The same over every merge, conflicts included: exactly which finalized commits of main stay whatever Dolt does. */
  lemma {:induction false} FinalizedKeptByAllIff(d: Dolt, names: nat -> Hash, s: Hist, remote: Hash, list: seq<Pick>,
                                                 init: Hash, x: Hash)
    requires Safe(s) && s.base.Some? && Prepared(d, names, s, remote, list) && Rooted(s.graph, init)
    requires x in Anc(s.graph, s.main) && x in s.graph && x != s.base.value.commit
    requires s.graph[x].meta.Some? && !Above(s.base, s.graph[x].meta.value)
    ensures var j := PassJob(d, names, s, remote, list);
            && Shared(j)
            && ((forall merge: (int, int, int) -> Option<int> :: Keeping(WithMerge(j, merge), x))
                <==> KeptByConflicts(PlanOf(j), x) && KeptByMerges(j, x))
  {
    var j := PassJob(d, names, s, remote, list);
    FinalizedIsUnlisted(d, names, s, remote, list, x);
    RootedIsShared(j, init);
    AllKeepIff(j, init, x);
  }

  /** Finalization safety: at every point of every run the finalized commit is an ancestor of main and carries the
      finalized timestamp. */
  lemma {:induction false} FinalizedIsAncestorOfMain(ss: seq<Hist>, ms: seq<Move>, i: nat)
    requires IsRun(ss, ms) && i < |ss| && ss[i].base.Some?
    ensures Wf(ss[i].graph)
    ensures ss[i].base.value.commit in Anc(ss[i].graph, ss[i].main)
    ensures ss[i].base.value.commit in ss[i].graph
    ensures ss[i].graph[ss[i].base.value.commit].meta == Some(ss[i].base.value.hlc)
  {
    RunIsSafe(ss, ms, i);
  }
}
