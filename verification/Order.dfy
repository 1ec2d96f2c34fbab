/** Whether a replay leaves timestamps in order along ancestry, as it found them. */
module Order {
  import opened Hlc
  import opened Dag
  import opened Collect
  import opened Replay
  import opened History
  import opened Fate
  import opened Stamps
  import opened Forecast
  import opened Worst
  import opened Loss

  /** A user commit at or below the base has a greater timestamp than the `k`-th commit of the list. */
  ghost predicate Undercut(j: Job, k: nat)
    requires Acyclic(j.g) && k < |j.list|
  {
    exists y :: y in Anc(j.g, j.base) && y in j.g && j.g[y].meta.Some? && Less(j.list[k].hlc, j.g[y].meta.value)
  }

  /** A list in replay order whose commits, like the base, are in order with their ancestors. */
  ghost predicate Tidy(j: Job) {
    && Stamped(j) && OrderedTo(j, |j.list|) && InOrder(j.g, Anc(j.g, j.base))
    && (forall k :: 0 <= k < |j.list| ==> InOrder(j.g, Anc(j.g, j.list[k].hash)))
    && (forall i, k :: 0 <= i < k < |j.list| ==> Less(j.list[i].hlc, j.list[k].hlc))
  }

  lemma {:induction false} DatedExtends(g: Graph, g': Graph, x: Hash)
    requires Wf(g) && Wf(g') && Extends(g, g') && x in g
    ensures Dated(g, x) <==> Dated(g', x)
  {
    AncAgrees(g, g', x);
  }

  /** `t` is not before the timestamp of any user commit of the branch, commits at or below the base aside. */
  ghost predicate Leads(j: Job, b: Build, t: Timestamp)
    requires Acyclic(b.graph) && Acyclic(j.g)
  {
    forall y {:trigger y in Anc(b.graph, b.head)} ::
      y in Anc(b.graph, b.head) && y in b.graph && b.graph[y].meta.Some? && y !in Anc(j.g, j.base) ==>
        !Less(t, b.graph[y].meta.value)
  }

  lemma {:induction false} OldIsEarlier(j: Job, i: nat, k: nat, y: Hash)
    requires Tidy(j) && i < k < |j.list| && y in Anc(j.g, j.list[i].hash) && y in j.g && j.g[y].meta.Some?
    ensures !Less(j.list[k].hlc, j.g[y].meta.value)
  {
    if Less(j.list[k].hlc, j.g[y].meta.value) {
      LessTransitive(j.list[i].hlc, j.list[k].hlc, j.g[y].meta.value);
    }
  }

  lemma {:induction false} NewIsEarlier(j: Job, k: nat, y: Hash)
    requires Tidy(j) && k < |j.list| && y in ReplayTo(j, k).graph && y !in j.g && ReplayTo(j, k).graph[y].meta.Some?
    ensures !Less(j.list[k].hlc, ReplayTo(j, k).graph[y].meta.value)
  {
    OriginsHold(j, k);
    ReplayGrows(j, k);
    var i: nat :| i < |j.list| && y == j.names(i) && ReplayTo(j, k).graph[y].meta == Some(j.list[i].hlc);
    assert i < k;
    LessTrichotomy(j.list[i].hlc, j.list[k].hlc);
  }

  lemma {:induction false} NextLeads(j: Job, k: nat)
    requires Tidy(j) && k < |j.list|
    ensures Wf(ReplayTo(j, k).graph) && Leads(j, ReplayTo(j, k), j.list[k].hlc)
  {
    var b := ReplayTo(j, k);
    ReplayGrows(j, k);
    OldAncestorsBound(j, k);
    forall y | y in Anc(b.graph, b.head) && y in b.graph && b.graph[y].meta.Some? && y !in Anc(j.g, j.base)
      ensures !Less(j.list[k].hlc, b.graph[y].meta.value)
    {
      if y in j.g {
        assert y in Feeds(j, k);
        var i: nat :| i < k && y in Anc(j.g, j.list[i].hash);
        OldIsEarlier(j, i, k, y);
      } else {
        NewIsEarlier(j, k, y);
      }
    }
  }

  // ---- one step ----

  lemma {:induction false} FastForwardIsDated(b: Build, c: Pick, g': Graph, name: Hash)
    requires Wf(b.graph) && Wf(g') && Extends(b.graph, g') && c.hash in b.graph && name in g' && !IsZero(c.hlc)
    requires b.graph[c.hash].meta == Some(c.hlc) && Dated(b.graph, c.hash) && g'[name].meta == Some(c.hlc)
    requires Anc(g', name) == {name} + (Anc(b.graph, c.hash) - {c.hash})
    ensures Dated(g', name)
  {
    LessTrichotomy(c.hlc, c.hlc);
    ReachIsPresent(b.graph, "", c.hash);
  }

  lemma {:induction false} MergeIsDated(j: Job, b: Build, c: Pick, g': Graph, name: Hash)
    requires Wf(b.graph) && Wf(g') && Extends(b.graph, g') && c.hash in b.graph && b.head in b.graph && name in g'
    requires !IsZero(c.hlc) && b.graph[c.hash].meta == Some(c.hlc) && Dated(b.graph, c.hash)
    requires g'[name].meta == Some(c.hlc) && Anc(g', name) == {name} + Anc(b.graph, b.head) + Anc(b.graph, c.hash)
    requires Wf(j.g) && j.base in j.g && Extends(j.g, b.graph) && Leads(j, b, c.hlc)
    requires forall y :: y in Anc(j.g, j.base) && y in j.g && j.g[y].meta.Some? ==> !Less(c.hlc, j.g[y].meta.value)
    ensures Dated(g', name)
  {
    LessTrichotomy(c.hlc, c.hlc);
    ReachIsPresent(b.graph, "", c.hash);
    ReachIsPresent(b.graph, "", b.head);
    ReachIsPresent(j.g, "", j.base);
    forall y | y in Anc(g', name) && y in g' && g'[y].meta.Some? ensures !Less(c.hlc, g'[y].meta.value) {
      if y != name {
        assert g'[y] == b.graph[y];
      }
    }
  }

  ghost predicate BranchInOrder(b: Build) {
    Wf(b.graph) && InOrder(b.graph, Anc(b.graph, b.head))
  }

  /** The ancestors of a listed commit are in order in every later graph. */
  lemma {:induction false} ListedStaysDated(j: Job, k: nat, g: Graph)
    requires Tidy(j) && k < |j.list| && Wf(g) && Extends(j.g, g)
    ensures forall x :: x in Anc(g, j.list[k].hash) ==> x in g && Dated(g, x)
    ensures g[j.list[k].hash].meta == Some(j.list[k].hlc) && !IsZero(j.list[k].hlc)
  {
    var c := j.list[k].hash;
    AncAgrees(j.g, g, c);
    forall x | x in Anc(g, c) ensures x in g && Dated(g, x) {
      assert x in Anc(j.g, c) && x in j.g;
      DatedExtends(j.g, g, x);
    }
  }

  lemma {:induction false} NewHeadIsDated(j: Job, k: nat, b: Build, name: Hash)
    requires Tidy(j) && k < |j.list| && Ready(j.d, b, j.list[k].hash, name) && !b.broken && Extends(j.g, b.graph)
    requires Leads(j, b, j.list[k].hlc)
    requires var o := Decide(j.d, b.graph, b.head, j.list[k].hash); o.FastForward? || (o.Merged? && !Undercut(j, k))
    ensures var b' := Step(j.d, b, j.list[k], name); Wf(b'.graph) && name in b'.graph && Dated(b'.graph, name)
  {
    var c, b' := j.list[k], Step(j.d, b, j.list[k], name);
    StepShape(j.d, b, c, name);
    StepHead(j.d, b, c, name);
    ListedStaysDated(j, k, b.graph);
    HeadIsAncestor(b.graph, c.hash);
    if Decide(j.d, b.graph, b.head, c.hash).FastForward? {
      FastForwardIsDated(b, c, b'.graph, name);
    } else {
      MergeIsDated(j, b, c, b'.graph, name);
    }
  }

  lemma {:induction false} OldStaysDated(j: Job, k: nat, b: Build, name: Hash, b': Build, x: Hash)
    requires Tidy(j) && k < |j.list| && Ready(j.d, b, j.list[k].hash, name) && !b.broken && Extends(j.g, b.graph)
    requires BranchInOrder(b) && b' == Step(j.d, b, j.list[k], name) && Wf(b'.graph)
    requires x in Anc(b'.graph, b'.head) && x in b'.graph && x != name
    ensures Dated(b'.graph, x)
  {
    var c := j.list[k];
    StepShape(j.d, b, c, name);
    StepSources(j.d, b, c, name, x);
    ReachIsPresent(b.graph, "", b.head);
    if x !in Anc(b.graph, b.head) {
      ListedStaysDated(j, k, b.graph);
    }
    DatedExtends(b.graph, b'.graph, x);
  }

  lemma {:induction false} NameMeansAmended(d: Dolt, b: Build, c: Pick, name: Hash)
    requires Ready(d, b, c.hash, name) && !b.broken
    ensures var b' := Step(d, b, c, name);
            Wf(b'.graph) && (name in Anc(b'.graph, b'.head) ==> IsAmended(Decide(d, b.graph, b.head, c.hash)))
  {
    StepShape(d, b, c, name);
    ReachIsPresent(b.graph, "", b.head);
    ReachIsPresent(b.graph, "", c.hash);
  }

  lemma {:induction false} OrderStep(j: Job, k: nat, b: Build, name: Hash, b': Build)
    requires Tidy(j) && k < |j.list| && Ready(j.d, b, j.list[k].hash, name) && !b.broken && Extends(j.g, b.graph)
    requires Leads(j, b, j.list[k].hlc) && BranchInOrder(b) && b' == Step(j.d, b, j.list[k], name)
    requires var o := Decide(j.d, b.graph, b.head, j.list[k].hash); !o.UpToDate? && (o.Merged? ==> !Undercut(j, k))
    ensures BranchInOrder(b')
  {
    NameMeansAmended(j.d, b, j.list[k], name);
    forall x | x in Anc(b'.graph, b'.head) && x in b'.graph ensures Dated(b'.graph, x) {
      if x == name {
        NewHeadIsDated(j, k, b, name);
      } else {
        OldStaysDated(j, k, b, name, b', x);
      }
    }
  }

  // ---- the whole replay ----

  /** No merge so far was of a commit older than something at or below the base. */
  ghost predicate NoneUndercut(j: Job, k: nat, os: seq<Outcome>)
    requires Acyclic(j.g)
  {
    k <= |os| && k <= |j.list| && forall i: nat :: i < k && os[i].Merged? ==> !Undercut(j, i)
  }

  lemma {:induction false} OrderNext(j: Job, k: nat, n: nat)
    requires Tidy(j) && k < n <= |j.list| && !ReplayTo(j, n).broken && NoneUndercut(j, n, ReplayTo(j, n).outcomes)
    requires BranchInOrder(ReplayTo(j, k))
    ensures BranchInOrder(ReplayTo(j, k + 1))
  {
    OutcomeAt(j, k, n);
    OrderedPrefix(j, k + 1, |j.list|);
    NoStepIsNoOp(j, k);
    NextLeads(j, k);
    OrderStep(j, k, ReplayTo(j, k), j.names(k), ReplayTo(j, k + 1));
  }

  /** Without undercut merges the new history is in order. */
  lemma {:induction false} OrderIsKept(j: Job)
    requires Tidy(j) && !Replayed(j).broken && NoneUndercut(j, |j.list|, Replayed(j).outcomes)
    ensures BranchInOrder(Replayed(j))
  {
    var n := |j.list|;
    forall k: nat | k < n && BranchInOrder(ReplayTo(j, k)) ensures BranchInOrder(ReplayTo(j, k + 1)) {
      OrderNext(j, k, n);
    }
    FoldInduction(j, 0, n, (k: nat, b: Build) => BranchInOrder(b));
  }

  /** A commit of the branch is out of order. */
  ghost predicate Scrambled(b: Build) {
    Wf(b.graph) && !InOrder(b.graph, Anc(b.graph, b.head))
  }

  /** A step other than a no-op only adds to the history, so it mends nothing. */
  lemma {:induction false} ScrambledStep(d: Dolt, b: Build, c: Pick, name: Hash)
    requires Ready(d, b, c.hash, name) && !b.broken && !Decide(d, b.graph, b.head, c.hash).UpToDate? && Scrambled(b)
    ensures Scrambled(Step(d, b, c, name))
  {
    var b' := Step(d, b, c, name);
    StepShape(d, b, c, name);
    StepKeepsAncestors(d, b, c, name);
    var x :| x in Anc(b.graph, b.head) && x in b.graph && !Dated(b.graph, x);
    DatedExtends(b.graph, b'.graph, x);
  }

  lemma {:induction false} ScrambledNext(j: Job, k: nat)
    requires Playable(j) && OrderedTo(j, |j.list|) && k < |j.list| && Scrambled(ReplayTo(j, k))
    ensures Scrambled(ReplayTo(j, k + 1))
  {
    OrderedPrefix(j, k + 1, |j.list|);
    NoStepIsNoOp(j, k);
    if !ReplayTo(j, k).broken {
      ScrambledStep(j.d, ReplayTo(j, k), j.list[k], j.names(k));
    }
  }

  lemma {:induction false} LaterBelowHead(b: Build, t: Timestamp, y: Hash)
    requires Wf(b.graph) && b.head in b.graph && b.graph[b.head].meta == Some(t)
    requires y in Anc(b.graph, b.head) && y in b.graph && b.graph[y].meta.Some? && Less(t, b.graph[y].meta.value)
    ensures Scrambled(b)
  {
    HeadIsAncestor(b.graph, b.head);
    assert !Dated(b.graph, b.head);
  }

  lemma {:induction false} UndercutStep(j: Job, k: nat, b: Build, name: Hash)
    requires Wf(j.g) && k < |j.list| && Ready(j.d, b, j.list[k].hash, name) && !b.broken && Extends(j.g, b.graph)
    requires Decide(j.d, b.graph, b.head, j.list[k].hash).Merged? && Undercut(j, k)
    requires Anc(j.g, j.base) <= Anc(b.graph, b.head)
    ensures Scrambled(Step(j.d, b, j.list[k], name))
  {
    var c, b' := j.list[k], Step(j.d, b, j.list[k], name);
    StepShape(j.d, b, c, name);
    StepHead(j.d, b, c, name);
    var y :| y in Anc(j.g, j.base) && y in j.g && j.g[y].meta.Some? && Less(c.hlc, j.g[y].meta.value);
    LaterBelowHead(b', c.hlc, y);
  }

  /** The commit that an undercut merge makes is out of order. */
  lemma {:induction false} UndercutScrambles(j: Job, k: nat)
    requires Tidy(j) && k < |j.list| && !Replayed(j).broken && |Replayed(j).outcomes| == |j.list|
    requires Replayed(j).outcomes[k].Merged? && Undercut(j, k)
    ensures Scrambled(ReplayTo(j, k + 1))
  {
    OutcomeAt(j, k, |j.list|);
    OrderedPrefix(j, k, |j.list|);
    ReplayKeepsHistory(j, k);
    UndercutStep(j, k, ReplayTo(j, k), j.names(k));
  }

  lemma {:induction false} UndercutBreaksOrder(j: Job, k: nat)
    requires Tidy(j) && k < |j.list| && !Replayed(j).broken && |Replayed(j).outcomes| == |j.list|
    requires Replayed(j).outcomes[k].Merged? && Undercut(j, k)
    ensures Scrambled(Replayed(j))
  {
    forall i: nat | i < |j.list| && (i <= k || Scrambled(ReplayTo(j, i)))
      ensures i + 1 <= k || Scrambled(ReplayTo(j, i + 1))
    {
      if i == k {
        UndercutScrambles(j, k);
      } else if i > k {
        ScrambledNext(j, i);
      }
    }
    FoldInduction(j, 0, |j.list|, (i: nat, b: Build) => i <= k || Scrambled(b));
  }

  /** Exactly when a replay of a list in order leaves the history in order: unless it merged a commit older than a user
      commit at or below the base. */
  lemma {:induction false} OrderKeptIff(j: Job)
    requires Tidy(j) && !Replayed(j).broken
    ensures BranchInOrder(Replayed(j)) <==> NoneUndercut(j, |j.list|, Replayed(j).outcomes)
  {
    RejectedAreConflicts(j, |j.list|);
    if NoneUndercut(j, |j.list|, Replayed(j).outcomes) {
      OrderIsKept(j);
    } else {
      var k: nat :| k < |j.list| && Replayed(j).outcomes[k].Merged? && Undercut(j, k);
      UndercutBreaksOrder(j, k);
    }
  }

  /** The same on the graph alone, for every Dolt that never conflicts. */
  lemma {:induction false} OrderKeptForecast(j: Job, init: Hash)
    requires Tidy(j) && NeverConflicts(j.d) && Rooted(j.g, init)
    ensures BranchInOrder(Replayed(j)) <==> forall k: nat :: k < |j.list| ==> Ascends(j, k) || !Undercut(j, k)
  {
    EverythingIsFolded(j, init, |j.list|);
    OrderKeptIff(j);
    forall k: nat | k < |j.list| ensures Replayed(j).outcomes[k].Merged? <==> !Ascends(j, k) {
      MergesUnlessAscending(j, init, k);
    }
  }

  lemma {:induction false} MergesUnlessAscending(j: Job, init: Hash, k: nat)
    requires Tidy(j) && NeverConflicts(j.d) && Rooted(j.g, init) && k < |j.list|
    ensures |Replayed(j).outcomes| == |j.list|
    ensures Replayed(j).outcomes[k].Merged? <==> !Ascends(j, k)
  {
    AscendsIff(j, init, k);
    FoldsAt(j, init, k);
    OrderedPrefix(j, k + 1, |j.list|);
    NoStepIsNoOp(j, k);
  }

  /** A commit that only moves the head is never merged, whatever Dolt does. */
  lemma {:induction false} AscendingIsNoMerge(j: Job, k: nat)
    requires Stamped(j) && k < |j.list| && Ascends(j, k) && !Replayed(j).broken
    ensures |Replayed(j).outcomes| == |j.list| && !Replayed(j).outcomes[k].Merged?
  {
    OutcomeAt(j, k, |j.list|);
    ChainIsFollowed(j, k);
    StandIsNotListed(j, k);
    RelatedIsNoMerge(j.d, j.g, Previous(j, k), j.list[k].hash);
  }

  ghost predicate OnFirstParents(j: Job, k: nat, b: Build)
    requires Playable(j)
  {
    k <= |j.list| && b.graph == j.g && b.head == Previous(j, k) && b.head == Stand(PlanOf(j), k) && !b.broken
  }

  lemma {:induction false} OnFirstParentsNext(j: Job, k: nat)
    requires Playable(j) && k < |j.list| && Chain(j, k + 1) && OnFirstParents(j, k, ReplayTo(j, k))
    ensures OnFirstParents(j, k + 1, ReplayTo(j, k + 1))
  {
    ReplayGrows(j, k);
    ChainNext(j, k);
    StepHead(j.d, ReplayTo(j, k), j.list[k], j.names(k));
    StepOutcome(j.d, ReplayTo(j, k), j.list[k], j.names(k));
  }

  /** Along a chain of first parents every step is a reset, whatever Dolt does. */
  lemma {:induction false} ChainIsFollowed(j: Job, k: nat)
    requires Playable(j) && k <= |j.list| && Chain(j, k)
    ensures OnFirstParents(j, k, ReplayTo(j, k))
  {
    forall i: nat | i < k && OnFirstParents(j, i, ReplayTo(j, i)) ensures OnFirstParents(j, i + 1, ReplayTo(j, i + 1)) {
      OnFirstParentsNext(j, i);
    }
    StartOf(j);
    FoldInduction(j, 0, k, (i: nat, b: Build) => OnFirstParents(j, i, b));
  }

  lemma {:induction false} SameTidy(j: Job, merge: (int, int, int) -> Option<int>)
    requires Tidy(j)
    ensures Tidy(WithMerge(j, merge))
    ensures forall k: nat :: k < |j.list| ==>
              && (Ascends(j, k) <==> Ascends(WithMerge(j, merge), k))
              && (Undercut(j, k) <==> Undercut(WithMerge(j, merge), k))
  {
    var j' := WithMerge(j, merge);
    forall k: nat | k <= |j.list| ensures Feeds(j, k) == Feeds(j', k) && Previous(j, k) == Previous(j', k) {
    }
    forall k: nat | k <= |j.list| ensures Chain(j, k) <==> Chain(j', k) {
    }
  }

  lemma {:induction false} AscendingKeepsOrder(j: Job, init: Hash)
    requires Tidy(j) && Rooted(j.g, init) && forall k: nat :: k < |j.list| ==> Ascends(j, k) || !Undercut(j, k)
    ensures BranchInOrder(Replayed(j))
  {
    NeverBroken(j, init);
    RejectedAreConflicts(j, |j.list|);
    forall k: nat | k < |j.list| && Replayed(j).outcomes[k].Merged? ensures !Undercut(j, k) {
      if Ascends(j, k) {
        AscendingIsNoMerge(j, k);
      }
    }
    OrderKeptIff(j);
  }

  /** Exactly when every Dolt leaves the history in order, conflicts included, on the graph before the call. */
  lemma {:induction false} AllKeepOrderIff(j: Job, init: Hash)
    requires Tidy(j) && Rooted(j.g, init)
    ensures (forall merge: (int, int, int) -> Option<int> :: BranchInOrder(Replayed(WithMerge(j, merge))))
            <==> forall k: nat :: k < |j.list| ==> Ascends(j, k) || !Undercut(j, k)
  {
    if forall k: nat :: k < |j.list| ==> Ascends(j, k) || !Undercut(j, k) {
      forall merge: (int, int, int) -> Option<int> ensures BranchInOrder(Replayed(WithMerge(j, merge))) {
        SameTidy(j, merge);
        AscendingKeepsOrder(WithMerge(j, merge), init);
      }
    } else {
      var merge := (base: int, ours: int, theirs: int) => Some(0);
      SameTidy(j, merge);
      OrderKeptForecast(WithMerge(j, merge), init);
    }
  }

  /** A finalized base settles it: what is replayed is above everything at or below the base. */
  lemma {:induction false} AnchoredKeepsOrder(j: Job, main: Hash, fb: FinalizedBase)
    requires Tidy(j) && !Replayed(j).broken && j.base == fb.commit && Anchored(j.g, main, fb)
    requires forall i :: 0 <= i < |j.list| ==> Less(fb.hlc, j.list[i].hlc)
    ensures BranchInOrder(Replayed(j))
  {
    HeadIsAncestor(j.g, j.base);
    assert Dated(j.g, j.base);
    RejectedAreConflicts(j, |j.list|);
    forall k: nat | k < |j.list| ensures !Undercut(j, k) {
      forall y | y in Anc(j.g, j.base) && y in j.g && j.g[y].meta.Some?
        ensures !Less(j.list[k].hlc, j.g[y].meta.value)
      {
        if Less(j.list[k].hlc, j.g[y].meta.value) {
          LessTransitive(fb.hlc, j.list[k].hlc, j.g[y].meta.value);
        }
      }
    }
    OrderKeptIff(j);
  }
}
