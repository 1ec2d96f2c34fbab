/** What a replay is going to lose, told on the graph before it starts, for every Dolt that never conflicts. */
module Forecast {
  import opened Hlc
  import opened Dag
  import opened Collect
  import opened Replay
  import opened History
  import opened Fate
  import opened Stamps

  function Previous(j: Job, k: nat): Hash
    requires k <= |j.list|
  {
    if k == 0 then j.base else j.list[k - 1].hash
  }

  /** The first `k` commits of the list form a chain of first parents on the base. */
  ghost predicate Chain(j: Job, k: nat)
    requires Playable(j) && k <= |j.list|
  {
    forall m: nat :: m < k ==> IsFirstParent(j.g, Previous(j, m), j.list[m].hash)
  }

  lemma {:induction false} ChainNext(j: Job, k: nat)
    requires Playable(j) && k < |j.list|
    ensures Chain(j, k + 1) <==> Chain(j, k) && IsFirstParent(j.g, Previous(j, k), j.list[k].hash)
  {
  }

  /** The branch is still in the old history exactly as long as the list is a chain. */
  ghost predicate OnChain(j: Job, k: nat, b: Build)
    requires Playable(j)
  {
    k <= |j.list| && if Chain(j, k) then b.head == Previous(j, k) && b.graph == j.g else b.head !in j.g
  }

  lemma {:induction false} OnChainStep(j: Job, k: nat, b: Build)
    requires Playable(j) && k < |j.list| && !b.broken && Extends(j.g, b.graph) && OnChain(j, k, b)
    requires Ready(j.d, b, j.list[k].hash, j.names(k))
    requires var o := Decide(j.d, b.graph, b.head, j.list[k].hash); !o.Conflict? && !o.Broken?
    ensures OnChain(j, k + 1, Step(j.d, b, j.list[k], j.names(k)))
  {
    var c := j.list[k];
    ChainNext(j, k);
    StepHead(j.d, b, c, j.names(k));
    if Decide(j.d, b.graph, b.head, c.hash).Reset? {
      AscentIsOld(j.d, j.g, b, c.hash, j.names(k));
    }
  }

  lemma {:induction false} OnChainNext(j: Job, init: Hash, k: nat)
    requires Playable(j) && NeverConflicts(j.d) && Rooted(j.g, init) && BaseUnlisted(j) && k < |j.list|
    requires OnChain(j, k, ReplayTo(j, k))
    ensures OnChain(j, k + 1, ReplayTo(j, k + 1))
  {
    FoldsAt(j, init, k);
    OnChainStep(j, k, ReplayTo(j, k));
  }

  lemma {:induction false} FoldsAt(j: Job, init: Hash, k: nat)
    requires Playable(j) && NeverConflicts(j.d) && Rooted(j.g, init) && BaseUnlisted(j) && k < |j.list|
    ensures var b := ReplayTo(j, k);
            && !b.broken && |b.outcomes| == k && Grown(j.g, j.names, k, b) && Ready(j.d, b, j.list[k].hash, j.names(k))
            && !Replayed(j).broken && |Replayed(j).outcomes| == |j.list|
            && Replayed(j).outcomes[k] == Decide(j.d, b.graph, b.head, j.list[k].hash)
            && !Replayed(j).outcomes[k].Broken? && !Replayed(j).outcomes[k].Conflict?
  {
    EverythingIsFolded(j, init, |j.list|);
    OutcomeAt(j, k, |j.list|);
  }

  lemma {:induction false} ChainHolds(j: Job, init: Hash, k: nat)
    requires Playable(j) && NeverConflicts(j.d) && Rooted(j.g, init) && BaseUnlisted(j) && k <= |j.list|
    ensures OnChain(j, k, ReplayTo(j, k))
  {
    forall i: nat | i < k && OnChain(j, i, ReplayTo(j, i)) ensures OnChain(j, i + 1, ReplayTo(j, i + 1)) {
      OnChainNext(j, init, i);
    }
    StartOf(j);
    FoldInduction(j, 0, k, (i: nat, b: Build) => OnChain(j, i, b));
  }

  /** The list up to commit `i` is a chain, and commit `i` descends from the one before it: its fold only moves the
      head. */
  ghost predicate Ascends(j: Job, i: nat)
    requires Playable(j) && i < |j.list|
  {
    Chain(j, i) && Previous(j, i) in Anc(j.g, j.list[i].hash)
  }

  lemma {:induction false} AscendsIff(j: Job, init: Hash, i: nat)
    requires Stamped(j) && NeverConflicts(j.d) && Rooted(j.g, init) && i < |j.list|
    ensures |Replayed(j).outcomes| == |j.list|
    ensures var o := Replayed(j).outcomes[i]; (o.Reset? || o.FastForward?) <==> Ascends(j, i)
  {
    var b, c := ReplayTo(j, i), j.list[i].hash;
    ChainHolds(j, init, i);
    FoldsAt(j, init, i);
    OriginsHold(j, i);
    AncAgrees(j.g, b.graph, c);
    if Decide(j.d, b.graph, b.head, c).Reset? || Decide(j.d, b.graph, b.head, c).FastForward? {
      AscentIsOld(j.d, j.g, b, c, j.names(i));
    } else if Ascends(j, i) {
      RelatedIsNoMerge(j.d, b.graph, b.head, c);
    }
  }

  /** A commit that descends from the head and is not the head is a reset or a fast-forward. */
  lemma {:induction false} RelatedIsNoMerge(d: Dolt, g: Graph, head: Hash, c: Hash)
    requires Sane(d) && Wf(g) && head in g && c in g && head in Anc(g, c) && head != c
    ensures var o := Decide(d, g, head, c); o.Reset? || o.FastForward?
  {
    if c in Anc(g, head) {
      Antisymmetric(g, head, c);
    }
  }

  /** Commit `i` ascends, and the next one is an ancestor of it. */
  ghost predicate Undone(j: Job, i: nat)
    requires Playable(j) && i < |j.list|
  {
    Ascends(j, i) && i + 1 < |j.list| && j.list[i + 1].hash in Anc(j.g, j.list[i].hash)
  }

  /** After a reset or a fast-forward to a commit, another old commit is in the history exactly when it is an ancestor
      of that commit. */
  lemma {:induction false} AscentHistory(d: Dolt, b: Build, c: Pick, name: Hash, x: Hash)
    requires Ready(d, b, c.hash, name) && !b.broken && x in b.graph && x != c.hash
    requires var o := Decide(d, b.graph, b.head, c.hash); o.Reset? || o.FastForward?
    ensures var b' := Step(d, b, c, name); Wf(b'.graph) && (x in Anc(b'.graph, b'.head) <==> x in Anc(b.graph, c.hash))
  {
    StepShape(d, b, c, name);
  }

  lemma {:induction false} NextIsNoOpIff(j: Job, init: Hash, i: nat)
    requires Stamped(j) && NeverConflicts(j.d) && Rooted(j.g, init) && i + 1 < |j.list| && Ascends(j, i)
    ensures |Replayed(j).outcomes| == |j.list|
    ensures Replayed(j).outcomes[i + 1].UpToDate? <==> j.list[i + 1].hash in Anc(j.g, j.list[i].hash)
  {
    var b, c, x := ReplayTo(j, i), j.list[i], j.list[i + 1].hash;
    AscendsIff(j, init, i);
    FoldsAt(j, init, i);
    FoldsAt(j, init, i + 1);
    if c.hash == x {
      StampedIsDistinct(j, i, i + 1);
    }
    AscentHistory(j.d, b, c, j.names(i), x);
    AncAgrees(j.g, b.graph, c.hash);
    UpToDateIff(j.d, ReplayTo(j, i + 1).graph, ReplayTo(j, i + 1).head, x);
  }

  lemma {:induction false} OverwrittenIff(j: Job, init: Hash, i: nat)
    requires Stamped(j) && NeverConflicts(j.d) && Rooted(j.g, init) && i < |j.list|
    ensures |Replayed(j).outcomes| == |j.list|
    ensures Overwritten(Replayed(j).outcomes, i, |j.list|) <==> Undone(j, i)
  {
    var os := Replayed(j).outcomes;
    EverythingIsFolded(j, init, |j.list|);
    AscendsIff(j, init, i);
    if Ascends(j, i) && i + 1 < |j.list| {
      NextIsNoOpIff(j, init, i);
    }
    UnconflictedOverwritten(os, i);
  }

  lemma {:induction false} UnconflictedOverwritten(os: seq<Outcome>, i: nat)
    requires i < |os| && forall m :: 0 <= m < |os| ==> !os[m].Conflict?
    ensures Overwritten(os, i, |os|)
            <==> (os[i].Reset? || os[i].FastForward?) && i + 1 < |os| && os[i + 1].UpToDate?
  {
    if Overwritten(os, i, |os|) {
      var m :| i < m < |os| && Pending(os, i, m) && os[m].UpToDate?;
      assert !os[i + 1].Conflict?;
    }
    if (os[i].Reset? || os[i].FastForward?) && i + 1 < |os| && os[i + 1].UpToDate? {
      assert Pending(os, i, i + 1);
    }
  }

  /** `y` is an ancestor of a listed commit other than itself. */
  ghost predicate BelowListed(j: Job, y: Hash)
    requires Playable(j)
  {
    exists m: nat :: m < |j.list| && y in Anc(j.g, j.list[m].hash) && y != j.list[m].hash
  }

  /** A commit with the timestamp of commit `i` is an ancestor of the base or properly below a listed commit. */
  ghost predicate OtherSource(j: Job, i: nat)
    requires Playable(j) && i < |j.list|
  {
    exists y :: y in j.g && j.g[y].meta == Some(j.list[i].hlc) && (y in Anc(j.g, j.base) || BelowListed(j, y))
  }

  /** Exactly when a Dolt that never conflicts loses the timestamp of a listed commit, on the graph before the call: the
      list is a chain of first parents up to the commit, which descends from the one before it, the next commit of the
      list is one of its ancestors, and no other ancestor of the base or of a listed commit carries the timestamp. */
  lemma {:induction false} StampLostIff(j: Job, init: Hash, i: nat)
    requires Stamped(j) && NeverConflicts(j.d) && Rooted(j.g, init) && i < |j.list|
    ensures Wf(Replayed(j).graph) && !Replayed(j).broken
    ensures !Accounted(Replayed(j).graph, Replayed(j).head, Replayed(j).rejected, j.list[i].hlc)
            <==> Undone(j, i) && !OtherSource(j, i)
  {
    EverythingIsFolded(j, init, |j.list|);
    OverwrittenIff(j, init, i);
    StampAccountedIff(j, i);
  }

  /** The list starts with an ancestor of the base. */
  ghost predicate BaseUndone(j: Job)
    requires Playable(j)
  {
    |j.list| > 0 && j.list[0].hash in Anc(j.g, j.base)
  }

  lemma {:induction false} BaseOverwrittenIff(j: Job, init: Hash)
    requires Playable(j) && BaseUnlisted(j) && NeverConflicts(j.d) && Rooted(j.g, init)
    ensures |Replayed(j).outcomes| == |j.list|
    ensures BaseOverwritten(Replayed(j).outcomes, |j.list|) <==> BaseUndone(j)
  {
    var os := Replayed(j).outcomes;
    EverythingIsFolded(j, init, |j.list|);
    if |j.list| > 0 {
      FoldsAt(j, init, 0);
      StartOf(j);
      UpToDateIff(j.d, j.g, j.base, j.list[0].hash);
      if os[0].UpToDate? {
        assert BasePending(os, 0);
      }
      forall m | 0 < m < |os| ensures !BasePending(os, m) {
        assert !os[0].Conflict?;
      }
    }
  }

  /** The list has the timestamp, or a commit that carries it is properly below the base or below a listed commit. */
  ghost predicate BaseSource(j: Job, t: Timestamp)
    requires Playable(j)
  {
    || ListsStamp(j, t)
    || exists y :: y in j.g && j.g[y].meta == Some(t) && (BelowBase(j, y) || BelowListed(j, y))
  }

  /** The same for the timestamp of the base. */
  lemma {:induction false} BaseStampLostIff(j: Job, init: Hash, t: Timestamp)
    requires Stamped(j) && NeverConflicts(j.d) && Rooted(j.g, init) && j.g[j.base].meta == Some(t)
    ensures Wf(Replayed(j).graph) && !Replayed(j).broken
    ensures !Accounted(Replayed(j).graph, Replayed(j).head, Replayed(j).rejected, t)
            <==> BaseUndone(j) && !BaseSource(j, t)
  {
    EverythingIsFolded(j, init, |j.list|);
    BaseOverwrittenIff(j, init);
    BaseStampAccountedIff(j, t);
  }

}
