/** What a replay does under every behaviour of Dolt's three-way merge, told on the graph before it starts. The worst
    merge for timestamps is the one that always conflicts. */
module Worst {
  import opened Hlc
  import opened Dag
  import opened Collect
  import opened Replay
  import opened History
  import opened Fate
  import opened Stamps
  import opened Forecast

  // ---- as long as the branch stays in the old history ----

  /** What a replay has to go by before any merge. */
  datatype Plan = Plan(g: Graph, base: Hash, list: seq<Pick>)

  function PlanOf(j: Job): Plan {
    Plan(j.g, j.base, j.list)
  }

  ghost predicate Sound(pl: Plan) {
    && Wf(pl.g) && pl.base in pl.g
    && (forall i :: 0 <= i < |pl.list| ==> pl.list[i].hash in pl.g)
  }

  /** The old commit that the branch stands on after `k` steps, if it has made no commit of its own: the base, moved up
      along first parents. */
  ghost function Stand(pl: Plan, k: nat): Hash
    requires Sound(pl) && k <= |pl.list|
  {
    if k == 0 then pl.base
    else if IsFirstParent(pl.g, Stand(pl, k - 1), pl.list[k - 1].hash) then pl.list[k - 1].hash
    else Stand(pl, k - 1)
  }

  ghost predicate Unrelated(g: Graph, a: Hash, b: Hash)
    requires Acyclic(g)
  {
    a !in Anc(g, b) && b !in Anc(g, a)
  }

  /** Step `k` moves the branch up by a first parent or needs a three-way merge. */
  ghost predicate RestsAt(pl: Plan, k: nat)
    requires Sound(pl) && k < |pl.list|
  {
    IsFirstParent(pl.g, Stand(pl, k), pl.list[k].hash) || Unrelated(pl.g, Stand(pl, k), pl.list[k].hash)
  }

  ghost predicate Resting(pl: Plan, k: nat)
    requires Sound(pl) && k <= |pl.list|
  {
    forall m: nat :: m < k ==> RestsAt(pl, m)
  }

  /** The branch only moves up. */
  lemma {:induction false} StandRises(pl: Plan, k: nat, n: nat)
    requires Sound(pl) && k <= n <= |pl.list|
    ensures Stand(pl, n) in pl.g && Stand(pl, k) in Anc(pl.g, Stand(pl, n))
  {
    if k == n {
      StandIsPresent(pl, n);
      HeadIsAncestor(pl.g, Stand(pl, n));
    } else {
      StandRises(pl, k, n - 1);
      if IsFirstParent(pl.g, Stand(pl, n - 1), pl.list[n - 1].hash) {
        FirstParentKeeps(pl.g, Stand(pl, n - 1), pl.list[n - 1].hash);
      }
    }
  }

  lemma {:induction false} StandIsPresent(pl: Plan, k: nat)
    requires Sound(pl) && k <= |pl.list|
    ensures Stand(pl, k) in pl.g
    ensures Stand(pl, k) == pl.base || exists i :: 0 <= i < k && Stand(pl, k) == pl.list[i].hash
  {
    if k > 0 {
      StandIsPresent(pl, k - 1);
    }
  }

  /** A branch that is on an old commit has rested so far and is where `Stand` says. */
  ghost predicate OldRests(j: Job, k: nat, b: Build)
    requires Playable(j)
  {
    k <= |j.list| && (b.head in j.g && !b.broken ==>
      Resting(PlanOf(j), k) && b.head == Stand(PlanOf(j), k) && b.graph == j.g)
  }

  lemma {:induction false} OldRestsStep(j: Job, k: nat, b: Build)
    requires Playable(j) && k < |j.list| && OldRests(j, k, b) && !b.broken && Ready(j.d, b, j.list[k].hash, j.names(k))
    requires Extends(j.g, b.graph)
    ensures OldRests(j, k + 1, Step(j.d, b, j.list[k], j.names(k)))
  {
    var c, o := j.list[k], Decide(j.d, b.graph, b.head, j.list[k].hash);
    StepHead(j.d, b, c, j.names(k));
    StepOutcome(j.d, b, c, j.names(k));
    if o.Reset? {
      AscentIsOld(j.d, j.g, b, c.hash, j.names(k));
    }
  }

  lemma {:induction false} OldRestsNext(j: Job, k: nat)
    requires Playable(j) && k < |j.list| && OldRests(j, k, ReplayTo(j, k))
    ensures OldRests(j, k + 1, ReplayTo(j, k + 1))
  {
    ReplayGrows(j, k);
    if !ReplayTo(j, k).broken {
      OldRestsStep(j, k, ReplayTo(j, k));
    }
  }

  lemma {:induction false} OldRestsTo(j: Job, k: nat)
    requires Playable(j) && k <= |j.list|
    ensures OldRests(j, k, ReplayTo(j, k))
  {
    forall i: nat | i < k && OldRests(j, i, ReplayTo(j, i)) ensures OldRests(j, i + 1, ReplayTo(j, i + 1)) {
      OldRestsNext(j, i);
    }
    StartOf(j);
    FoldInduction(j, 0, k, (i: nat, b: Build) => OldRests(j, i, b));
  }

  // ---- the timestamp of a listed commit ----

  /** Commit `m` is the first after commit `i` that a branch on commit `i` has as an ancestor, and until then the branch
      stays there if every three-way merge conflicts. */
  ghost predicate WipedBy(pl: Plan, i: nat, m: nat)
    requires Sound(pl) && i < |pl.list|
  {
    && i < m < |pl.list| && pl.list[m].hash in Anc(pl.g, pl.list[i].hash)
    && forall l: nat :: i < l < m ==> Passes(pl, i, l)
  }

  /** Commit `l` conflicts with a branch that a reset or a fast-forward has put on commit `i`. */
  ghost predicate Passes(pl: Plan, i: nat, l: nat)
    requires Sound(pl) && i < |pl.list| && l < |pl.list|
  {
    && pl.list[l].hash !in Anc(pl.g, pl.list[i].hash)
    && (IsFirstParent(pl.g, Stand(pl, i), pl.list[i].hash) ==> pl.list[i].hash !in Anc(pl.g, pl.list[l].hash))
  }

  /** With conflicts everywhere, commit `i` only moves the head, and a no-op follows. */
  ghost predicate Reachable(pl: Plan, i: nat)
    requires Sound(pl) && i < |pl.list|
  {
    && Resting(pl, i) && Stand(pl, i) in Anc(pl.g, pl.list[i].hash)
    && exists m: nat :: WipedBy(pl, i, m)
  }

  /** A proper ancestor of commit `i` has its timestamp. */
  ghost predicate Inherited(pl: Plan, i: nat)
    requires Sound(pl) && i < |pl.list|
  {
    exists y :: y in Anc(pl.g, pl.list[i].hash) && y != pl.list[i].hash && y in pl.g
                && pl.g[y].meta == Some(pl.list[i].hlc)
  }

  /** While only conflicts follow, the branch does not change. */
  lemma {:induction false} ConflictStands(j: Job, k: nat, n: nat)
    requires Playable(j) && k < n <= |j.list| && !ReplayTo(j, n).broken
    requires |ReplayTo(j, n).outcomes| == n && ReplayTo(j, n).outcomes[k].Conflict?
    ensures ReplayTo(j, k + 1).graph == ReplayTo(j, k).graph && ReplayTo(j, k + 1).head == ReplayTo(j, k).head
  {
    OutcomeAt(j, k, n);
    StepHead(j.d, ReplayTo(j, k), j.list[k], j.names(k));
  }

  lemma {:induction false} ConflictsStand(j: Job, i: nat, l: nat)
    requires Playable(j) && !Replayed(j).broken && |Replayed(j).outcomes| == |j.list|
    requires i < l <= |j.list| && forall m :: i < m < l ==> Replayed(j).outcomes[m].Conflict?
    ensures ReplayTo(j, l).graph == ReplayTo(j, i + 1).graph && ReplayTo(j, l).head == ReplayTo(j, i + 1).head
  {
    var g, h := ReplayTo(j, i + 1).graph, ReplayTo(j, i + 1).head;
    forall k: nat | i + 1 <= k < l && ReplayTo(j, k).graph == g && ReplayTo(j, k).head == h
      ensures ReplayTo(j, k + 1).graph == g && ReplayTo(j, k + 1).head == h
    {
      ConflictStands(j, k, |j.list|);
    }
    FoldInduction(j, i + 1, l, (k: nat, b: Build) => b.graph == g && b.head == h);
  }

  /** Where the branch is after a reset or a fast-forward to commit `i`: on the commit, or on a copy that has the proper
      ancestors of the commit. */
  ghost predicate On(j: Job, i: nat, g: Graph, head: Hash)
    requires Playable(j) && i < |j.list|
  {
    && Wf(g) && Extends(j.g, g) && head in g
    && (forall x :: x in j.g && x != j.list[i].hash ==>
          (x in Anc(g, head) <==> x in Anc(j.g, j.list[i].hash)))
    && if IsFirstParent(j.g, Stand(PlanOf(j), i), j.list[i].hash) then head == j.list[i].hash else head !in j.g
  }

  lemma {:induction false} AscentSpot(j: Job, i: nat, b: Build)
    requires Playable(j) && i < |j.list| && !b.broken && b.graph == j.g && b.head == Stand(PlanOf(j), i)
    requires Grown(j.g, j.names, i, b) && Ready(j.d, b, j.list[i].hash, j.names(i))
    requires var o := Decide(j.d, b.graph, b.head, j.list[i].hash); o.Reset? || o.FastForward?
    ensures var b' := Step(j.d, b, j.list[i], j.names(i));
            && Wf(b'.graph) && Extends(j.g, b'.graph) && b'.head in b'.graph
            && if IsFirstParent(j.g, Stand(PlanOf(j), i), j.list[i].hash) then b'.head == j.list[i].hash
               else b'.head !in j.g
  {
    StepHead(j.d, b, j.list[i], j.names(i));
    StepGrows(j.d, j.g, j.names, i, b, j.list[i]);
  }

  lemma {:induction false} AscentIsOn(j: Job, i: nat, b: Build)
    requires Playable(j) && i < |j.list| && !b.broken && b.graph == j.g && b.head == Stand(PlanOf(j), i)
    requires Grown(j.g, j.names, i, b) && Ready(j.d, b, j.list[i].hash, j.names(i))
    requires var o := Decide(j.d, b.graph, b.head, j.list[i].hash); o.Reset? || o.FastForward?
    ensures var b' := Step(j.d, b, j.list[i], j.names(i)); On(j, i, b'.graph, b'.head)
  {
    var c, name := j.list[i], j.names(i);
    var b' := Step(j.d, b, c, name);
    AscentSpot(j, i, b);
    forall x | x in j.g && x != c.hash ensures x in Anc(b'.graph, b'.head) <==> x in Anc(j.g, c.hash) {
      AscentHistory(j.d, b, c, name, x);
    }
  }

  lemma {:induction false} AscentRests(j: Job, i: nat)
    requires Playable(j) && i < |j.list| && !Replayed(j).broken && |Replayed(j).outcomes| == |j.list|
    requires Replayed(j).outcomes[i].Reset? || Replayed(j).outcomes[i].FastForward?
    ensures Resting(PlanOf(j), i) && Stand(PlanOf(j), i) in Anc(j.g, j.list[i].hash)
    ensures On(j, i, ReplayTo(j, i + 1).graph, ReplayTo(j, i + 1).head)
  {
    OutcomeAt(j, i, |j.list|);
    AscentIsOld(j.d, j.g, ReplayTo(j, i), j.list[i].hash, j.names(i));
    OldRestsTo(j, i);
    AscentIsOn(j, i, ReplayTo(j, i));
  }

  /** A conflict with a branch on commit `i` is between commits that do not descend from each other. */
  lemma {:induction false} ConflictPasses(j: Job, i: nat, l: nat, b: Build)
    requires Stamped(j) && i < l < |j.list| && On(j, i, b.graph, b.head) && Ready(j.d, b, j.list[l].hash, j.names(l))
    requires Decide(j.d, b.graph, b.head, j.list[l].hash).Conflict?
    ensures Passes(PlanOf(j), i, l)
  {
    AncAgrees(j.g, b.graph, j.list[l].hash);
    if j.list[l].hash == j.list[i].hash {
      StampedIsDistinct(j, i, l);
    }
  }

  lemma {:induction false} PendingPasses(j: Job, i: nat, m: nat, l: nat)
    requires Stamped(j) && !Replayed(j).broken && |Replayed(j).outcomes| == |j.list| && i < l < m < |j.list|
    requires Pending(Replayed(j).outcomes, i, m) && On(j, i, ReplayTo(j, i + 1).graph, ReplayTo(j, i + 1).head)
    ensures Passes(PlanOf(j), i, l)
  {
    ConflictsStand(j, i, l);
    OutcomeAt(j, l, |j.list|);
    ConflictPasses(j, i, l, ReplayTo(j, l));
  }

  lemma {:induction false} NoOpIsBelow(j: Job, i: nat, m: nat)
    requires Stamped(j) && !Replayed(j).broken && |Replayed(j).outcomes| == |j.list| && i < m < |j.list|
    requires Pending(Replayed(j).outcomes, i, m) && On(j, i, ReplayTo(j, i + 1).graph, ReplayTo(j, i + 1).head)
    requires Replayed(j).outcomes[m].UpToDate?
    ensures j.list[m].hash in Anc(j.g, j.list[i].hash)
  {
    ConflictsStand(j, i, m);
    OutcomeAt(j, m, |j.list|);
    UpToDateIff(j.d, ReplayTo(j, m).graph, ReplayTo(j, m).head, j.list[m].hash);
    if j.list[m].hash == j.list[i].hash {
      StampedIsDistinct(j, i, m);
    }
  }

  /** Whatever Dolt does, a timestamp that is overwritten is one that conflicts everywhere would overwrite. */
  lemma {:induction false} OverwrittenIsReachable(j: Job, i: nat)
    requires Stamped(j) && !Replayed(j).broken && |Replayed(j).outcomes| == |j.list| && i < |j.list|
    requires Overwritten(Replayed(j).outcomes, i, |j.list|)
    ensures Reachable(PlanOf(j), i)
  {
    var os := Replayed(j).outcomes;
    var m: nat :| i < m < |j.list| && Pending(os, i, m) && os[m].UpToDate?;
    AscentRests(j, i);
    NoOpIsBelow(j, i, m);
    forall l: nat | i < l < m ensures Passes(PlanOf(j), i, l) {
      PendingPasses(j, i, m, l);
    }
    assert WipedBy(PlanOf(j), i, m);
  }

  /** Every commit folded so far is an ancestor of `top`. */
  ghost predicate FoldedUnder(j: Job, b: Build, top: Hash)
    requires Acyclic(j.g)
  {
    forall l: nat :: l < |j.list| && Survives(b, l) ==> j.list[l].hash in Anc(j.g, top)
  }

  lemma {:induction false} FoldedUnderNext(j: Job, b: Build, b': Build, k: nat, o: Outcome, top: Hash, top': Hash)
    requires Acyclic(j.g) && k < |j.list| && |b.outcomes| == k && b'.outcomes == b.outcomes + [o]
    requires FoldedUnder(j, b, top) && Anc(j.g, top) <= Anc(j.g, top')
    requires o.Conflict? || j.list[k].hash in Anc(j.g, top')
    ensures FoldedUnder(j, b', top')
  {
    forall l: nat | l < |j.list| && Survives(b', l) ensures j.list[l].hash in Anc(j.g, top') {
      if l < k {
        assert Survives(b, l);
      }
    }
  }

  /** Before commit `i`: the branch has only moved up along first parents. */
  ghost predicate Early(j: Job, k: nat, b: Build)
    requires Playable(j)
  {
    && k <= |j.list| && b.graph == j.g && b.head == Stand(PlanOf(j), k) && !b.broken && |b.outcomes| == k
    && FoldedUnder(j, b, Stand(PlanOf(j), k))
  }

  lemma {:induction false} EarlyStep(j: Job, init: Hash, k: nat, b: Build)
    requires Playable(j) && AlwaysConflicts(j.d) && Rooted(j.g, init) && k < |j.list| && RestsAt(PlanOf(j), k)
    requires Early(j, k, b) && Ready(j.d, b, j.list[k].hash, j.names(k))
    ensures Early(j, k + 1, Step(j.d, b, j.list[k], j.names(k)))
  {
    var c, b' := j.list[k], Step(j.d, b, j.list[k], j.names(k));
    var o := Decide(j.d, b.graph, b.head, c.hash);
    if !IsFirstParent(j.g, b.head, c.hash) {
      UnrelatedConflict(j.d, j.g, b.head, c.hash, init);
    } else {
      FirstParentKeeps(j.g, b.head, c.hash);
      HeadIsAncestor(j.g, c.hash);
    }
    StepHead(j.d, b, c, j.names(k));
    StepOutcome(j.d, b, c, j.names(k));
    FoldedUnderNext(j, b, b', k, o, b.head, b'.head);
  }

  /** From commit `i` on, until the no-op. */
  ghost predicate Middle(j: Job, i: nat, k: nat, b: Build)
    requires Playable(j) && i < |j.list|
  {
    && i < k <= |j.list| && !b.broken && |b.outcomes| == k && On(j, i, b.graph, b.head)
    && Pending(b.outcomes, i, k) && FoldedUnder(j, b, j.list[i].hash)
  }

  lemma {:induction false} StandIsNotListed(j: Job, i: nat)
    requires Stamped(j) && i < |j.list|
    ensures Stand(PlanOf(j), i) in j.g && Stand(PlanOf(j), i) != j.list[i].hash
  {
    StandIsPresent(PlanOf(j), i);
    forall m: nat | m < i ensures j.list[m].hash != j.list[i].hash {
      if j.list[m].hash == j.list[i].hash {
        StampedIsDistinct(j, m, i);
      }
    }
  }

  lemma {:induction false} MiddleStarts(j: Job, i: nat, b: Build)
    requires Stamped(j) && i < |j.list| && Early(j, i, b) && Stand(PlanOf(j), i) in Anc(j.g, j.list[i].hash)
    requires Grown(j.g, j.names, i, b) && Ready(j.d, b, j.list[i].hash, j.names(i))
    ensures Middle(j, i, i + 1, Step(j.d, b, j.list[i], j.names(i)))
  {
    var c, b' := j.list[i], Step(j.d, b, j.list[i], j.names(i));
    var o := Decide(j.d, b.graph, b.head, c.hash);
    StandIsNotListed(j, i);
    RelatedIsNoMerge(j.d, j.g, b.head, c.hash);
    AscentIsOn(j, i, b);
    StepOutcome(j.d, b, c, j.names(i));
    OverwrittenFirst(b.outcomes, o);
    AncTransitive(j.g, c.hash, b.head);
    HeadIsAncestor(j.g, c.hash);
    FoldedUnderNext(j, b, b', i, o, b.head, c.hash);
  }

  /** The initial commit is properly below commit `i`, hence in the branch. */
  lemma {:induction false} RootIsBelow(j: Job, init: Hash, i: nat)
    requires Stamped(j) && Rooted(j.g, init) && i < |j.list| && Stand(PlanOf(j), i) in Anc(j.g, j.list[i].hash)
    ensures init in j.g && init in Anc(j.g, j.list[i].hash) && init != j.list[i].hash
  {
    StandIsNotListed(j, i);
    RootIsPresent(j.g, init, j.list[i].hash);
    assert init in Anc(j.g, Stand(PlanOf(j), i));
    if init == j.list[i].hash {
      Antisymmetric(j.g, init, Stand(PlanOf(j), i));
    }
  }

  lemma {:induction false} MiddleStep(j: Job, init: Hash, i: nat, k: nat, b: Build)
    requires Stamped(j) && AlwaysConflicts(j.d) && i < k < |j.list| && Middle(j, i, k, b) && Passes(PlanOf(j), i, k)
    requires init in Anc(j.g, j.list[i].hash) && init != j.list[i].hash
    requires init in Anc(j.g, j.list[k].hash) && init in j.g
    requires Ready(j.d, b, j.list[k].hash, j.names(k))
    ensures Middle(j, i, k + 1, Step(j.d, b, j.list[k], j.names(k)))
  {
    var c, b' := j.list[k], Step(j.d, b, j.list[k], j.names(k));
    AncAgrees(j.g, b.graph, c.hash);
    if c.hash == j.list[i].hash {
      StampedIsDistinct(j, i, k);
    }
    UnrelatedConflict(j.d, b.graph, b.head, c.hash, init);
    StepHead(j.d, b, c, j.names(k));
    StepOutcome(j.d, b, c, j.names(k));
    OverwrittenNext(b.outcomes, i, Conflict);
    FoldedUnderNext(j, b, b', k, Conflict, j.list[i].hash, j.list[i].hash);
  }

  /** After the no-op: the branch has left the old history and has nothing outside the ancestors of commit `i`. */
  ghost predicate Late(j: Job, init: Hash, i: nat, k: nat, b: Build)
    requires Playable(j) && i < |j.list|
  {
    && i < k <= |j.list| && !b.broken && |b.outcomes| == k && Wf(b.graph) && Extends(j.g, b.graph)
    && Overwritten(b.outcomes, i, k) && FoldedUnder(j, b, j.list[i].hash)
    && b.head !in j.g && b.head in b.graph && init in Anc(b.graph, b.head)
    && Anc(b.graph, b.head) * j.g.Keys <= Anc(j.g, j.list[i].hash)
  }

  lemma {:induction false} LateStarts(j: Job, init: Hash, i: nat, m: nat, b: Build)
    requires Stamped(j) && i < m < |j.list| && Middle(j, i, m, b) && Ready(j.d, b, j.list[m].hash, j.names(m))
    requires init in Anc(j.g, j.list[i].hash) && init != j.list[i].hash && init in j.g
    requires j.list[m].hash in Anc(j.g, j.list[i].hash) && Grown(j.g, j.names, m, b)
    ensures Late(j, init, i, m + 1, Step(j.d, b, j.list[m], j.names(m)))
  {
    var c, top := j.list[m], j.list[i].hash;
    var b' := Step(j.d, b, c, j.names(m));
    if c.hash == top {
      StampedIsDistinct(j, i, m);
    }
    HeadIsAncestor(j.g, top);
    UpToDateIff(j.d, b.graph, b.head, c.hash);
    StepShape(j.d, b, c, j.names(m));
    StepHead(j.d, b, c, j.names(m));
    StepOutcome(j.d, b, c, j.names(m));
    StepGrows(j.d, j.g, j.names, m, b, c);
    OverwrittenNext(b.outcomes, i, UpToDate);
    FoldedUnderNext(j, b, b', m, UpToDate, top, top);
  }

  lemma {:induction false} LateStep(j: Job, init: Hash, i: nat, k: nat, b: Build)
    requires Stamped(j) && AlwaysConflicts(j.d) && Rooted(j.g, init) && i < k < |j.list| && Late(j, init, i, k, b)
    requires init in j.g && Grown(j.g, j.names, k, b) && Ready(j.d, b, j.list[k].hash, j.names(k))
    ensures Late(j, init, i, k + 1, Step(j.d, b, j.list[k], j.names(k)))
  {
    var c, top := j.list[k], j.list[i].hash;
    var b', o := Step(j.d, b, c, j.names(k)), Decide(j.d, b.graph, b.head, c.hash);
    AncAgrees(j.g, b.graph, c.hash);
    if c.hash !in Anc(b.graph, b.head) {
      UnrelatedConflict(j.d, b.graph, b.head, c.hash, init);
    }
    UpToDateIff(j.d, b.graph, b.head, c.hash);
    StepShape(j.d, b, c, j.names(k));
    StepHead(j.d, b, c, j.names(k));
    StepOutcome(j.d, b, c, j.names(k));
    StepGrows(j.d, j.g, j.names, k, b, c);
    OverwrittenNext(b.outcomes, i, o);
    FoldedUnderNext(j, b, b', k, o, top, top);
  }

  ghost predicate Stage(j: Job, init: Hash, i: nat, m: nat, k: nat, b: Build)
    requires Playable(j) && i < |j.list|
  {
    if k <= i then Early(j, k, b) else if k <= m then Middle(j, i, k, b) else Late(j, init, i, k, b)
  }

  lemma {:induction false} StageNext(j: Job, init: Hash, i: nat, m: nat, k: nat)
    requires Stamped(j) && AlwaysConflicts(j.d) && Rooted(j.g, init) && i < |j.list| && WipedBy(PlanOf(j), i, m)
    requires Resting(PlanOf(j), i) && Stand(PlanOf(j), i) in Anc(j.g, j.list[i].hash)
    requires k < |j.list| && Stage(j, init, i, m, k, ReplayTo(j, k))
    ensures Stage(j, init, i, m, k + 1, ReplayTo(j, k + 1))
  {
    var b := ReplayTo(j, k);
    ReplayGrows(j, k);
    RootIsBelow(j, init, i);
    assert init in Anc(j.g, j.list[k].hash);
    if k < i {
      EarlyStep(j, init, k, b);
    } else if k == i {
      MiddleStarts(j, i, b);
    } else if k < m {
      MiddleStep(j, init, i, k, b);
    } else if k == m {
      LateStarts(j, init, i, m, b);
    } else {
      LateStep(j, init, i, k, b);
    }
  }

  lemma {:induction false} EarlyAtStart(j: Job)
    requires Playable(j)
    ensures Early(j, 0, ReplayTo(j, 0))
  {
    StartOf(j);
  }

  lemma {:induction false} StageHolds(j: Job, init: Hash, i: nat, m: nat)
    requires Stamped(j) && AlwaysConflicts(j.d) && Rooted(j.g, init) && i < |j.list| && WipedBy(PlanOf(j), i, m)
    requires Resting(PlanOf(j), i) && Stand(PlanOf(j), i) in Anc(j.g, j.list[i].hash)
    ensures Stage(j, init, i, m, |j.list|, Replayed(j))
  {
    forall k: nat | k < |j.list| && Stage(j, init, i, m, k, ReplayTo(j, k))
      ensures Stage(j, init, i, m, k + 1, ReplayTo(j, k + 1))
    {
      StageNext(j, init, i, m, k);
    }
    EarlyAtStart(j);
    FoldInduction(j, 0, |j.list|, (k: nat, b: Build) => Stage(j, init, i, m, k, b));
  }

  /** What is found elsewhere in a branch that has nothing outside the ancestors of commit `i` is properly below it. */
  lemma {:induction false} ElsewhereIsBelow(j: Job, i: nat, b: Build, y: Hash)
    requires Stamped(j) && i < |j.list| && FoldedUnder(j, b, j.list[i].hash) && Elsewhere(j, b, y)
    requires Stand(PlanOf(j), i) in Anc(j.g, j.list[i].hash)
    ensures y in Anc(j.g, j.list[i].hash) && y != j.list[i].hash
  {
    var pl, c := PlanOf(j), j.list[i].hash;
    StandRises(pl, 0, i);
    StandIsNotListed(j, i);
    if y in Anc(j.g, j.base) {
      AncTransitive(j.g, Stand(pl, i), j.base);
      AncTransitive(j.g, c, Stand(pl, i));
      if y == c {
        Antisymmetric(j.g, c, Stand(pl, i));
      }
    } else {
      var m: nat :| m < |j.list| && Survives(b, m) && y in Anc(j.g, j.list[m].hash) && y != j.list[m].hash;
      AncTransitive(j.g, c, j.list[m].hash);
      if y == c {
        Antisymmetric(j.g, c, j.list[m].hash);
      }
    }
  }

  /** A merge that always conflicts loses a reachable timestamp that no proper ancestor has. */
  lemma {:induction false} ConflictsLose(j: Job, init: Hash, i: nat)
    requires Stamped(j) && AlwaysConflicts(j.d) && Rooted(j.g, init) && i < |j.list|
    requires Reachable(PlanOf(j), i) && !Inherited(PlanOf(j), i)
    ensures !Accounts(j, j.list[i].hlc)
  {
    var b := Replayed(j);
    var m: nat :| WipedBy(PlanOf(j), i, m);
    StageHolds(j, init, i, m);
    StampAccountedIff(j, i);
    forall y | y in j.g && j.g[y].meta == Some(j.list[i].hlc) ensures !Elsewhere(j, b, y) {
      if Elsewhere(j, b, y) {
        ElsewhereIsBelow(j, i, b, y);
      }
    }
  }

  /** The replay has the timestamp in its history or reports it. */
  ghost predicate Accounts(j: Job, t: Timestamp)
    requires Playable(j)
  {
    ReplayGrows(j, |j.list|);
    Accounted(Replayed(j).graph, Replayed(j).head, Replayed(j).rejected, t)
  }

  lemma {:induction false} NotBrokenNext(j: Job, init: Hash, k: nat)
    requires Playable(j) && Rooted(j.g, init) && BaseUnlisted(j) && k < |j.list| && !ReplayTo(j, k).broken
    ensures !ReplayTo(j, k + 1).broken
  {
    var b, c := ReplayTo(j, k), j.list[k];
    RootIsKept(j, init, k);
    ReplayGrows(j, k);
    AncAgrees(j.g, b.graph, c.hash);
    assert init in Anc(j.g, c.hash);
    assert init in Anc(b.graph, b.head) * Anc(b.graph, c.hash);
    StepOutcome(j.d, b, c, j.names(k));
  }

  /** With one initial commit every replay ends. */
  lemma {:induction false} NeverBroken(j: Job, init: Hash)
    requires Playable(j) && Rooted(j.g, init) && BaseUnlisted(j)
    ensures !Replayed(j).broken
  {
    forall k: nat | k < |j.list| && !ReplayTo(j, k).broken ensures !ReplayTo(j, k + 1).broken {
      NotBrokenNext(j, init, k);
    }
    StartOf(j);
    FoldInduction(j, 0, |j.list|, (k: nat, b: Build) => !b.broken);
  }

  lemma {:induction false} UnreachableIsAccounted(j: Job, init: Hash, i: nat)
    requires Stamped(j) && Rooted(j.g, init) && i < |j.list|
    requires !Reachable(PlanOf(j), i) || Inherited(PlanOf(j), i)
    ensures Accounts(j, j.list[i].hlc)
  {
    var b := Replayed(j);
    NeverBroken(j, init);
    StampAccountedIff(j, i);
    if Overwritten(b.outcomes, i, |j.list|) {
      OverwrittenIsReachable(j, i);
      var y :| y in Anc(j.g, j.list[i].hash) && y != j.list[i].hash && y in j.g && j.g[y].meta == Some(j.list[i].hlc);
      OverwrittenIsFolded(b, i, |j.list|);
      assert Elsewhere(j, b, y);
    }
  }

  lemma {:induction false} OverwrittenIsFolded(b: Build, i: nat, n: nat)
    requires n <= |b.outcomes| && Overwritten(b.outcomes, i, n)
    ensures Survives(b, i)
  {
  }

  ghost function Conflicting(): (int, int, int) -> Option<int> {
    (base, ours, theirs) => None
  }

  /** Exactly when a listed timestamp is safe whatever Dolt's merges do, conflicts included, on the graph before the
      call. It is not safe if the steps before only go up along first parents or need a three-way merge, the commit
      itself only moves the head, an ancestor of it follows before anything that would cover it, and no proper ancestor
      of it has the timestamp. */
  lemma {:induction false} AllAccountIff(j: Job, init: Hash, i: nat)
    requires Stamped(j) && Rooted(j.g, init) && i < |j.list|
    ensures (forall merge: (int, int, int) -> Option<int> :: Accounts(WithMerge(j, merge), j.list[i].hlc))
            <==> !Reachable(PlanOf(j), i) || Inherited(PlanOf(j), i)
  {
    if !Reachable(PlanOf(j), i) || Inherited(PlanOf(j), i) {
      forall merge: (int, int, int) -> Option<int> ensures Accounts(WithMerge(j, merge), j.list[i].hlc) {
        UnreachableIsAccounted(WithMerge(j, merge), init, i);
      }
    } else {
      ConflictsLose(WithMerge(j, Conflicting()), init, i);
    }
  }

  // ---- the timestamp of the base ----

  /** A proper ancestor of the base has the timestamp, or the list does. */
  ghost predicate BaseInherited(j: Job, t: Timestamp)
    requires Playable(j)
  {
    ListsStamp(j, t) || exists y :: BelowBase(j, y) && y in j.g && j.g[y].meta == Some(t)
  }

  lemma {:induction false} BaseIsAccountedFor(j: Job, init: Hash, t: Timestamp)
    requires Stamped(j) && Rooted(j.g, init) && j.g[j.base].meta == Some(t) && (BaseStays(j) || BaseInherited(j, t))
    ensures Accounts(j, t)
  {
    var n, b := |j.list|, Replayed(j);
    NeverBroken(j, init);
    ReplayGrows(j, n);
    if BaseStays(j) {
      BaseIsKept(j, n);
      HeadIsAncestor(b.graph, b.head);
      PresentCarries(b, j.base, t);
    } else if ListsStamp(j, t) {
      var m: nat :| m < n && j.list[m].hlc == t;
      SharedStampIsAccounted(j, m, t);
    } else {
      var y :| BelowBase(j, y) && y in j.g && j.g[y].meta == Some(t);
      BaseAncestorIsKept(j, n, y);
      PresentCarries(b, y, t);
    }
  }

  /** A branch without the base and with nothing but ancestors of the base has lost its timestamp. */
  lemma {:induction false} StrippedLoses(j: Job, init: Hash, t: Timestamp)
    requires Stamped(j) && j.g[j.base].meta == Some(t) && !BaseInherited(j, t) && Stripped(j, init, Replayed(j))
    ensures !Accounts(j, t)
  {
    var b := Replayed(j);
    ReplayGrows(j, |j.list|);
    OriginsHold(j, |j.list|);
    RejectedAreConflicts(j, |j.list|);
    forall m | 0 <= m < |b.rejected| ensures b.rejected[m].hlc != t {
      assert b.rejected[m] in b.rejected;
    }
    forall x | x in Anc(b.graph, b.head) && x in b.graph ensures b.graph[x].meta != Some(t) {
      if x in j.g {
        assert BelowBase(j, x);
      }
    }
  }

  /** Exactly when the timestamp of the base is safe whatever Dolt's merges do, conflicts included. */
  lemma {:induction false} AllAccountBaseIff(j: Job, init: Hash, t: Timestamp)
    requires Stamped(j) && Rooted(j.g, init) && j.g[j.base].meta == Some(t)
    ensures (forall merge: (int, int, int) -> Option<int> :: Accounts(WithMerge(j, merge), t))
            <==> BaseStays(j) || BaseInherited(j, t)
  {
    if BaseStays(j) || BaseInherited(j, t) {
      forall merge: (int, int, int) -> Option<int> ensures Accounts(WithMerge(j, merge), t) {
        SameBaseRules(j, merge, t);
        BaseIsAccountedFor(WithMerge(j, merge), init, t);
      }
    } else {
      var j' := WithMerge(j, Conflicting());
      SameBaseRules(j, Conflicting(), t);
      StripExists(j');
      BaseIsStripped(j', init);
      StrippedLoses(j', init, t);
    }
  }

  lemma {:induction false} SameBaseRules(j: Job, merge: (int, int, int) -> Option<int>, t: Timestamp)
    requires Playable(j)
    ensures BaseStays(j) <==> BaseStays(WithMerge(j, merge))
    ensures BaseInherited(j, t) <==> BaseInherited(WithMerge(j, merge), t)
  {
    var j' := WithMerge(j, merge);
    forall k: nat | k <= |j.list| ensures Covered(j, k) <==> Covered(j', k) {
    }
    assert ListsStamp(j, t) <==> ListsStamp(j', t);
    forall y ensures BelowBase(j, y) <==> BelowBase(j', y) {
    }
  }
}
