/** What the rebuilt index says about main: which commit it names for a timestamp, and what becomes of the commits that
    a replay reported. */
module Rebuild {
  import opened Hlc
  import opened Dag
  import opened Walk
  import opened Breadth
  import opened Collect
  import opened Replay
  import opened Index
  import opened Peer
  import opened Safety

  // ---- which commit an entry names ----

  lemma {:induction false} LastIsFarthest(g: Graph, main: Hash, cs: seq<Commit>, h: Timestamp, i: nat, x: Hash, n: nat)
    requires Wf(g) && IsWalk(g, "", main, cs) && IsLastCarrier(cs, h, i)
    requires x in Anc(g, main) && x in g && g[x].meta == Some(h) && cs[i].hash in Within(g, "", main, n)
    ensures x in Within(g, "", main, n)
  {
    var k: nat :| k < |cs| && cs[k].hash == x;
    WalkGoesByDistance(g, "", main, cs, k, i, n);
  }

  /** The entry of a timestamp names a commit of main that carries it, and no commit of main that carries it is further
      from main. */
  lemma {:induction false} RebuiltNamesFarthest(g: Graph, main: Hash, v: View, v': View, x: Hash, h: Timestamp)
    requires Wf(g) && IsRebuiltFrom(g, main, v, v') && x in Anc(g, main) && x in g && g[x].meta == Some(h)
    ensures h in v' && v'[h].hlc == h && v'[h].status == Applied && AppliedEntry(g, main, h, v'[h])
    ensures forall n: nat :: v'[h].hash in Within(g, "", main, n) ==> x in Within(g, "", main, n)
  {
    var cs: seq<Commit> :| IsWalk(g, "", main, cs) && IsRebuilt(v, cs, v');
    var k: nat :| k < |cs| && cs[k].hash == x;
    assert cs[k] in cs && Carries(cs, h);
    var i: nat :| IsLastCarrier(cs, h, i) && v'[h] == Entry(h, cs[i].hash, Applied);
    forall n: nat | v'[h].hash in Within(g, "", main, n) ensures x in Within(g, "", main, n) {
      LastIsFarthest(g, main, cs, h, i, x, n);
    }
  }

  /** A head that took its timestamp from a commit it merged is not named: the entry goes to an older commit. */
  lemma {:induction false} HeadIsNotNamed(g: Graph, main: Hash, v: View, v': View, x: Hash, h: Timestamp)
    requires Wf(g) && IsRebuiltFrom(g, main, v, v') && x in Anc(g, main) && x in g && g[x].meta == Some(h) && x != main
    ensures h in v' && v'[h].hash != main
  {
    RebuiltNamesFarthest(g, main, v, v', x, h);
    assert main in g ==> Within(g, "", main, 0) == {main};
    assert v'[h].hash in Within(g, "", main, 0) ==> x in Within(g, "", main, 0);
    ReachAvoids(g, "", main, v'[h].hash);
  }

  /** The rebuilt index is determined by main's history and the entries before. */
  lemma {:induction false} RebuildIsUnique(g: Graph, main: Hash, v: View, v1: View, v2: View)
    requires Wf(g) && IsRebuiltFrom(g, main, v, v1) && IsRebuiltFrom(g, main, v, v2)
    ensures v1 == v2
  {
    var cs: seq<Commit> :| IsWalk(g, "", main, cs) && IsRebuilt(v, cs, v1);
    var cs2 :| IsWalk(g, "", main, cs2) && IsRebuilt(v, cs2, v2);
    WalkIsUnique(g, "", main, cs, cs2);
    RebuiltAgree(cs, v, v1, v2);
  }

  lemma {:induction false} RebuiltAgree(cs: seq<Commit>, v: View, v1: View, v2: View)
    requires IsRebuilt(v, cs, v1) && IsRebuilt(v, cs, v2)
    ensures v1 == v2
  {
    forall h | h in v1 ensures v1[h] == v2[h] {
      if Carries(cs, h) {
        LastIsUnique(cs, h, v1[h], v2[h]);
      }
    }
  }

  lemma {:induction false} LastIsUnique(cs: seq<Commit>, h: Timestamp, e1: Entry, e2: Entry)
    requires NamesLast(cs, h, e1) && NamesLast(cs, h, e2)
    ensures e1 == e2
  {
    var i: nat :| IsLastCarrier(cs, h, i) && e1 == Entry(h, cs[i].hash, Applied);
    var k: nat :| IsLastCarrier(cs, h, k) && e2 == Entry(h, cs[k].hash, Applied);
    assert i == k;
  }

  /** Right after a rebuild the base moves to the commit that is furthest from main among those with its timestamp. */
  lemma {:induction false} BaseIsFarthest(s: Hist, v: View, heard: map<string, Timestamp>, x: Hash)
    requires Wf(s.graph) && IsRebuiltFrom(s.graph, s.main, v, s.index)
    requires AfterFinalize(Peer(Reading(0, 0), heard, s.index, s.base)).base != s.base
    ensures AfterFinalize(Peer(Reading(0, 0), heard, s.index, s.base)).base.Some?
    ensures var base := AfterFinalize(Peer(Reading(0, 0), heard, s.index, s.base)).base.value;
            x in Anc(s.graph, s.main) && x in s.graph && s.graph[x].meta == Some(base.hlc) ==>
              forall n: nat :: base.commit in Within(s.graph, "", s.main, n) ==> x in Within(s.graph, "", s.main, n)
  {
    FinalizeMovesToGreatest(Peer(Reading(0, 0), heard, s.index, s.base));
    var base := AfterFinalize(Peer(Reading(0, 0), heard, s.index, s.base)).base.value;
    if x in Anc(s.graph, s.main) && x in s.graph && s.graph[x].meta == Some(base.hlc) {
      RebuiltNamesFarthest(s.graph, s.main, v, s.index, x, base.hlc);
    }
  }

  /** What main does not carry: exactly the pending and rejected entries above zero are kept, as they were. */
  lemma {:induction false} RebuildKeeps(g: Graph, main: Hash, v: View, v': View, h: Timestamp)
    requires Wf(g) && IsRebuiltFrom(g, main, v, v')
    requires forall x :: x in Anc(g, main) && x in g ==> g[x].meta != Some(h)
    ensures h in v' <==> h in v && Less(ZERO, h) && v[h].status in {Pending, Rejected}
    ensures h in v' ==> v'[h] == v[h]
  {
    var cs: seq<Commit> :| IsWalk(g, "", main, cs) && IsRebuilt(v, cs, v');
    WalkCarries(g, main, cs, h);
  }

  /** Nothing that is pending or rejected is forgotten: whatever a node does, such a timestamp above zero keeps its
      entry until it is applied, rejected or advertised again. */
  lemma {:induction false} UndecidedStays(s: Hist, m: Move, s': Hist, h: Timestamp)
    requires Wf(s.graph) && s.main in s.graph && Follows(s, m, s')
    requires h in s.index && Less(ZERO, h) && s.index[h].status in {Pending, Rejected}
    ensures h in s'.index
    ensures s'.index[h] == s.index[h] || s'.index[h].status in {Applied, Rejected} || m == Hear(s'.index[h])
    ensures s.index[h].status == Rejected ==> s'.index[h].status in {Applied, Rejected}
  {
    LessTrichotomy(ZERO, h);
    match m {
      case Record(_, _, _, _) =>
      case Fetch =>
      case Synchronize(d, names, remote, pass) =>
        if pass.Merged? && pass.list != [] {
          var b := Replayed(PassJob(d, names, s, remote, pass.list));
          HooksKeep(s.index, b.rejected, h);
          RebuildKeepsUndecided(s'.graph, s'.main, WithRejections(s.index, b.rejected), s'.index, h);
        } else if !pass.NothingNew? {
          RebuildKeepsUndecided(s'.graph, s'.main, s.index, s'.index, h);
        }
      case FailToSynchronize(d, names, remote, list) =>
        HooksKeep(s.index, Replayed(PassJob(d, names, s, remote, list)).rejected, h);
      case Rebuild =>
        RebuildKeepsUndecided(s.graph, s.main, s.index, s'.index, h);
      case Hear(_) =>
      case Finalize(_) =>
    }
  }

  lemma {:induction false} HooksKeep(v: View, rejected: seq<Pick>, h: Timestamp)
    requires h in v && h != ZERO
    ensures var w := WithRejections(v, rejected); h in w && (w[h] == v[h] || w[h].status == Rejected)
  {
    if |rejected| > 0 {
      HooksKeep(v, rejected[..|rejected| - 1], h);
    }
  }

  lemma {:induction false} RebuildKeepsUndecided(g: Graph, main: Hash, v: View, v': View, h: Timestamp)
    requires Wf(g) && IsRebuiltFrom(g, main, v, v')
    requires h in v && Less(ZERO, h) && v[h].status in {Pending, Rejected}
    ensures h in v' && (v'[h] == v[h] || v'[h].status == Applied)
  {
    if x :| x in Anc(g, main) && x in g && g[x].meta == Some(h) {
      RebuiltNamesFarthest(g, main, v, v', x, h);
    } else {
      RebuildKeeps(g, main, v, v', h);
    }
  }

  /** After every pass that found something, the applied timestamps are exactly those that main carries. */
  lemma {:induction false} PassAppliesMain(d: Dolt, names: nat -> Hash, s: Hist, remote: Hash, pass: Pass, s': Hist,
                                           h: Timestamp)
    requires Wf(s.graph) && IsPass(d, names, s, remote, pass, s') && !pass.NothingNew?
    ensures h in s'.index && s'.index[h].status == Applied <==> MainCarries(s', h)
  {
    var index := if pass.Merged? && pass.list != []
                 then WithRejections(s.index, Reported(d, names, s, remote, pass)) else s.index;
    assert IsRebuiltFrom(s'.graph, s'.main, index, s'.index);
    if x :| x in Anc(s'.graph, s'.main) && x in s'.graph && s'.graph[x].meta == Some(h) {
      RebuiltNamesFarthest(s'.graph, s'.main, index, s'.index, x, h);
    } else {
      RebuildKeeps(s'.graph, s'.main, index, s'.index, h);
    }
  }

  // ---- what was reported ----

  /** Pick `i` is the last of the list with timestamp `h`. */
  ghost predicate IsLastReport(rejected: seq<Pick>, h: Timestamp, i: nat) {
    i < |rejected| && rejected[i].hlc == h && forall k :: i < k < |rejected| ==> rejected[k].hlc != h
  }

  /** The hooks mark exactly the reported timestamps other than zero as rejected, each naming the commit reported last
      under it, and leave every other entry alone. */
  lemma {:induction false} RejectionsMeaning(v: View, rejected: seq<Pick>, h: Timestamp)
    ensures var w := WithRejections(v, rejected);
            && (h == ZERO || (forall i :: 0 <= i < |rejected| ==> rejected[i].hlc != h) ==>
                  (h in w <==> h in v) && (h in v ==> w[h] == v[h]))
            && (forall i: nat :: h != ZERO && IsLastReport(rejected, h, i) ==>
                  h in w && w[h] == Entry(h, rejected[i].hash, Rejected))
  {
    if h == ZERO || forall i :: 0 <= i < |rejected| ==> rejected[i].hlc != h {
      UnreportedStays(v, rejected, h);
    }
    forall i: nat | h != ZERO && IsLastReport(rejected, h, i)
      ensures h in WithRejections(v, rejected)
              && WithRejections(v, rejected)[h] == Entry(h, rejected[i].hash, Rejected)
    {
      LastReportStands(v, rejected, h, i);
    }
  }

  lemma {:induction false} UnreportedStays(v: View, rejected: seq<Pick>, h: Timestamp)
    requires h == ZERO || forall i :: 0 <= i < |rejected| ==> rejected[i].hlc != h
    ensures var w := WithRejections(v, rejected); (h in w <==> h in v) && (h in v ==> w[h] == v[h])
  {
    if |rejected| > 0 {
      UnreportedStays(v, rejected[..|rejected| - 1], h);
    }
  }

  lemma {:induction false} LastReportStands(v: View, rejected: seq<Pick>, h: Timestamp, i: nat)
    requires h != ZERO && IsLastReport(rejected, h, i)
    ensures var w := WithRejections(v, rejected); h in w && w[h] == Entry(h, rejected[i].hash, Rejected)
  {
    if i < |rejected| - 1 {
      LastReportStands(v, rejected[..|rejected| - 1], h, i);
    }
  }

  /** A pass that fails leaves the base and the old history alone, and main unless it advanced meanwhile, but what it
      reported until then is recorded as rejected, and nothing else in the index changes. */
  lemma {:induction false} FailureMeaning(d: Dolt, names: nat -> Hash, s: Hist, remote: Hash, list: seq<Pick>,
                                          error: Error, curHead: Hash, s': Hist, h: Timestamp)
    requires Wf(s.graph) && HasFailed(d, names, s, remote, list, error, curHead, s')
    ensures Wf(s'.graph) && Extends(s.graph, s'.graph) && s'.base == s.base
    ensures s'.main == s.main || (error == MainAdvanced && s'.main == curHead)
    ensures var rejected := Reported(d, names, s, remote, Pass.Merged(list));
            if h != ZERO && exists p :: p in rejected && p.hlc == h then
              h in s'.index && s'.index[h].status == Rejected && Pick(s'.index[h].hash, h) in rejected
            else (h in s'.index <==> h in s.index) && (h in s.index ==> s'.index[h] == s.index[h])
  {
    var j := PassJob(d, names, s, remote, list);
    var rejected := Replayed(j).rejected;
    ReplayGrows(j, |list|);
    if h != ZERO && exists p :: p in rejected && p.hlc == h {
      var i := LastReportExists(rejected, h);
      LastReportStands(s.index, rejected, h, i);
      assert rejected[i] in rejected;
    } else {
      assert forall i :: 0 <= i < |rejected| ==> rejected[i] in rejected;
      UnreportedStays(s.index, rejected, h);
    }
  }

  lemma {:induction false} LastReportExists(rejected: seq<Pick>, h: Timestamp) returns (i: nat)
    requires exists p :: p in rejected && p.hlc == h
    ensures IsLastReport(rejected, h, i)
  {
    var front := rejected[..|rejected| - 1];
    if rejected[|rejected| - 1].hlc == h {
      i := |rejected| - 1;
    } else {
      var p :| p in rejected && p.hlc == h;
      assert p in front;
      i := LastReportExists(front, h);
    }
  }

  /** After a pass that merged, a reported timestamp is decided if and only if it is above zero or main carries it: it
      is applied if main carries it, and otherwise rejected, naming a reported commit. */
  lemma {:induction false} ReportedIsDecided(d: Dolt, names: nat -> Hash, s: Hist, remote: Hash, list: seq<Pick>,
                                             s': Hist, p: Pick)
    requires Wf(s.graph) && IsPass(d, names, s, remote, Pass.Merged(list), s') && list != []
    requires p in Reported(d, names, s, remote, Pass.Merged(list)) && p.hlc != ZERO
    ensures Wf(s'.graph)
    ensures var h, carried := p.hlc, MainCarries(s', p.hlc);
            && (Decided(s'.index, h) <==> carried || Less(ZERO, h))
            && (carried ==> h in s'.index && s'.index[h].status == Applied)
            && (!carried && Less(ZERO, h) ==>
                  && h in s'.index && s'.index[h].status == Rejected
                  && Pick(s'.index[h].hash, h) in Reported(d, names, s, remote, Pass.Merged(list)))
  {
    var b := Replayed(PassJob(d, names, s, remote, list));
    var i := LastReportExists(b.rejected, p.hlc);
    LastReportStands(s.index, b.rejected, p.hlc, i);
    assert b.rejected[i] in b.rejected;
    RejectedAfterRebuild(b.graph, b.head, WithRejections(s.index, b.rejected), s'.index, p.hlc);
  }

  lemma {:induction false} RejectedAfterRebuild(g: Graph, main: Hash, v: View, v': View, h: Timestamp)
    requires Wf(g) && IsRebuiltFrom(g, main, v, v') && h in v && v[h].status.Rejected?
    ensures var carried := exists x :: x in Anc(g, main) && x in g && g[x].meta == Some(h);
            && (Decided(v', h) <==> carried || Less(ZERO, h))
            && (carried ==> h in v' && v'[h].status.Applied?)
            && (!carried && Less(ZERO, h) ==> h in v' && v'[h] == v[h])
  {
    var cs: seq<Commit> :| IsWalk(g, "", main, cs) && IsRebuilt(v, cs, v');
    WalkCarries(g, main, cs, h);
  }

  lemma {:induction false} WalkCarries(g: Graph, main: Hash, cs: seq<Commit>, h: Timestamp)
    requires Wf(g) && IsWalk(g, "", main, cs)
    ensures Carries(cs, h) <==> exists x :: x in Anc(g, main) && x in g && g[x].meta == Some(h)
  {
    if c :| c in cs && c.meta == Some(h) {
      assert c.hash in Anc(g, main) && c.hash in g && g[c.hash].meta == Some(h);
    }
    if x :| x in Anc(g, main) && x in g && g[x].meta == Some(h) {
      var k :| 0 <= k < |cs| && cs[k].hash == x;
      assert cs[k] in cs;
    }
  }

  /** A commit that conflicted is not asked for again: whoever advertises it afterwards, the node stays as it is. */
  lemma {:induction false} ReportedIsIgnored(d: Dolt, names: nat -> Hash, s: Hist, remote: Hash, list: seq<Pick>,
                                             s': Hist, p: Pick, peer: Peer, self: string, skew: int, ad: Ad, now: int,
                                             physical: int)
    requires Wf(s.graph) && IsPass(d, names, s, remote, Pass.Merged(list), s') && list != []
    requires p in Reported(d, names, s, remote, Pass.Merged(list)) && Less(ZERO, p.hlc)
    requires peer.index == s'.index && ad.hlc == p.hlc
    ensures AfterAd(peer, self, skew, ad, now, physical) == peer && !Accepts(peer, self, skew, ad, now)
  {
    LessTrichotomy(ZERO, p.hlc);
    ReportedIsDecided(d, names, s, remote, list, s', p);
    DecidedIsIgnored(peer, self, skew, ad, now, physical);
  }
}
