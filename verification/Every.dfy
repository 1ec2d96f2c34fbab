/** Which old commits a replay keeps under every behaviour of Dolt's three-way merge, told on the graph before it
    starts. A merge can drop a commit by conflicting everywhere, or by merging once and conflicting from then on. */
module Every {
  import opened Hlc
  import opened Dag
  import opened Collect
  import opened Replay
  import opened History
  import opened Fate
  import opened Worst

  /** Step `k` needs a three-way merge, if the branch is still in the old history. */
  ghost predicate Asks(pl: Plan, k: nat)
    requires Sound(pl) && k < |pl.list|
  {
    !IsFirstParent(pl.g, Stand(pl, k), pl.list[k].hash) && Unrelated(pl.g, Stand(pl, k), pl.list[k].hash)
  }

  ghost function Common(j: Job, k: nat): set<Hash>
    requires Playable(j) && k < |j.list|
  {
    Anc(j.g, Stand(PlanOf(j), k)) * Anc(j.g, j.list[k].hash)
  }

  /** The roots that the three-way merge of step `k` is asked about. */
  ghost function Question(j: Job, k: nat): (int, int, int)
    requires Playable(j) && k < |j.list| && Common(j, k) != {}
  {
    StandIsPresent(PlanOf(j), k);
    ReachIsPresent(j.g, "", j.list[k].hash);
    (j.g[j.d.pick(Common(j, k))].root, j.g[Stand(PlanOf(j), k)].root, j.g[j.list[k].hash].root)
  }

  ghost function Answer(j: Job, k: nat): Option<int>
    requires Playable(j) && k < |j.list| && Common(j, k) != {}
  {
    var q := Question(j, k);
    j.d.merge(q.0, q.1, q.2)
  }

  lemma {:induction false} AskDecides(j: Job, k: nat)
    requires Playable(j) && k < |j.list| && Common(j, k) != {} && Asks(PlanOf(j), k)
    ensures Stand(PlanOf(j), k) in j.g
    ensures var o := Decide(j.d, j.g, Stand(PlanOf(j), k), j.list[k].hash);
            match Answer(j, k) case None => o == Conflict case Some(root) => o == Merged(root)
  {
    StandIsPresent(PlanOf(j), k);
  }

  lemma {:induction false} RootIsCommon(j: Job, init: Hash, k: nat)
    requires Playable(j) && Rooted(j.g, init) && k < |j.list|
    ensures init in Common(j, k)
  {
    StandIsPresent(PlanOf(j), k);
    assert init in Anc(j.g, Stand(PlanOf(j), k)) && init in Anc(j.g, j.list[k].hash);
  }

  /** A merge can answer step `k` without having answered an earlier step the same way. */
  ghost predicate Choosable(j: Job, k: nat)
    requires Playable(j) && k < |j.list| && forall l: nat :: l < |j.list| ==> Common(j, l) != {}
  {
    && Resting(PlanOf(j), k) && Asks(PlanOf(j), k)
    && forall l: nat :: l < k && Asks(PlanOf(j), l) ==> Question(j, l) != Question(j, k)
  }

  /** The branch leaves the old history at step `r` at the latest, if every three-way merge conflicts. */
  ghost predicate LastRest(pl: Plan, r: nat)
    requires Sound(pl)
  {
    r <= |pl.list| && Resting(pl, r) && (r < |pl.list| ==> !RestsAt(pl, r))
  }

  /** What a branch that has conflicted throughout keeps: the ancestors of the commit it reached. */
  ghost function Top(pl: Plan, r: nat): Hash
    requires Sound(pl) && r <= |pl.list|
  {
    if r < |pl.list| && Stand(pl, r) in Anc(pl.g, pl.list[r].hash) then pl.list[r].hash else Stand(pl, r)
  }

  /** The step at which a branch that rests until step `k` stops resting. */
  ghost function RestTo(pl: Plan, k: nat): nat
    requires Sound(pl) && k <= |pl.list|
    decreases |pl.list| - k
  {
    if k < |pl.list| && RestsAt(pl, k) then RestTo(pl, k + 1) else k
  }

  lemma {:induction false} RestToIsLast(pl: Plan, k: nat)
    requires Sound(pl) && k <= |pl.list| && Resting(pl, k)
    ensures LastRest(pl, RestTo(pl, k))
    decreases |pl.list| - k
  {
    if k < |pl.list| && RestsAt(pl, k) {
      RestToIsLast(pl, k + 1);
    }
  }

  lemma {:induction false} LastRestIsUnique(pl: Plan, k: nat, r: nat)
    requires Sound(pl) && LastRest(pl, r) && k <= r
    ensures RestTo(pl, k) == r
    decreases r - k
  {
    if k < r {
      LastRestIsUnique(pl, k + 1, r);
    }
  }

  // ---- where a branch leaves the old history ----

  lemma {:induction false} GraphGrowsNext(j: Job, k: nat)
    requires Playable(j) && k < |j.list|
    ensures ReplayTo(j, k).graph.Keys <= ReplayTo(j, k + 1).graph.Keys
  {
    ReplayGrows(j, k);
    if !ReplayTo(j, k).broken {
      StepShape(j.d, ReplayTo(j, k), j.list[k], j.names(k));
    }
  }

  /** A branch on an old commit has been on old commits all along. */
  lemma {:induction false} OldBefore(j: Job, l: nat, k: nat)
    requires Playable(j) && l <= k <= |j.list| && ReplayTo(j, k).head in j.g && !ReplayTo(j, k).broken
    ensures ReplayTo(j, l).head in j.g
  {
    var keys := ReplayTo(j, l).graph.Keys;
    forall i: nat | l <= i < k && keys <= ReplayTo(j, i).graph.Keys ensures keys <= ReplayTo(j, i + 1).graph.Keys {
      GraphGrowsNext(j, i);
    }
    FoldInduction(j, l, k, (i: nat, b: Build) => keys <= b.graph.Keys);
    OldRestsTo(j, k);
    ReplayGrows(j, l);
  }

  lemma {:induction false} Departure(j: Job, n: nat) returns (k: nat)
    requires Playable(j) && n <= |j.list| && ReplayTo(j, n).head !in j.g
    ensures k < n && ReplayTo(j, k).head in j.g && ReplayTo(j, k + 1).head !in j.g
  {
    StartOf(j);
    if ReplayTo(j, n - 1).head in j.g {
      k := n - 1;
    } else {
      k := Departure(j, n - 1);
    }
  }

  /** The step at which a branch leaves the old history, and where it stood. */
  lemma {:induction false} DepartureShape(j: Job, k: nat)
    requires Playable(j) && !Replayed(j).broken && k < |j.list|
    requires ReplayTo(j, k).head in j.g && ReplayTo(j, k + 1).head !in j.g
    ensures var b, c := ReplayTo(j, k), j.list[k].hash;
            && !b.broken && Resting(PlanOf(j), k) && b.head == Stand(PlanOf(j), k) && b.graph == j.g
            && Ready(j.d, b, c, j.names(k)) && IsAmended(Decide(j.d, b.graph, b.head, c))
  {
    OutcomeAt(j, k, |j.list|);
    OldRestsTo(j, k);
    StepHead(j.d, ReplayTo(j, k), j.list[k], j.names(k));
  }

  lemma {:induction false} StayIsUnanswered(j: Job, l: nat)
    requires Playable(j) && !Replayed(j).broken && l < |j.list| && Common(j, l) != {} && Asks(PlanOf(j), l)
    requires ReplayTo(j, l).head in j.g && ReplayTo(j, l + 1).head in j.g
    ensures Answer(j, l).None?
  {
    OutcomeAt(j, l, |j.list|);
    OldRestsTo(j, l);
    AskDecides(j, l);
    StepHead(j.d, ReplayTo(j, l), j.list[l], j.names(l));
  }

  /** Before the departure every question was answered with a conflict. */
  lemma {:induction false} UnansweredBefore(j: Job, l: nat, k: nat)
    requires Playable(j) && !Replayed(j).broken && l < k < |j.list| && ReplayTo(j, k).head in j.g
    requires !ReplayTo(j, k).broken && Common(j, l) != {} && Asks(PlanOf(j), l)
    ensures Answer(j, l).None?
  {
    forall i: nat | i <= k ensures ReplayTo(j, i).head in j.g {
      OldBefore(j, i, k);
    }
    StayIsUnanswered(j, l);
  }

  ghost predicate Shared(j: Job)
    requires Playable(j)
  {
    forall l: nat :: l < |j.list| ==> Common(j, l) != {}
  }

  lemma {:induction false} RootedIsShared(j: Job, init: Hash)
    requires Playable(j) && Rooted(j.g, init)
    ensures Shared(j)
  {
    forall l: nat | l < |j.list| ensures Common(j, l) != {} {
      RootIsCommon(j, init, l);
    }
  }

  lemma {:induction false} MergeIsChoosable(j: Job, k: nat)
    requires Playable(j) && Shared(j) && !Replayed(j).broken && k < |j.list|
    requires ReplayTo(j, k).head in j.g && ReplayTo(j, k + 1).head !in j.g
    requires ReplayTo(j, k).graph == j.g && !ReplayTo(j, k).broken
    requires Ready(j.d, ReplayTo(j, k), j.list[k].hash, j.names(k))
    requires Decide(j.d, j.g, ReplayTo(j, k).head, j.list[k].hash).Merged?
    ensures Choosable(j, k)
  {
    DepartureShape(j, k);
    AskDecides(j, k);
    forall l: nat | l < k && Asks(PlanOf(j), l) ensures Question(j, l) != Question(j, k) {
      UnansweredBefore(j, l, k);
    }
  }

  // ---- what every merge keeps ----

  /** A branch that conflicts throughout keeps the commit. */
  ghost predicate KeptByConflicts(pl: Plan, x: Hash)
    requires Sound(pl)
  {
    RestToIsLast(pl, 0);
    x in Anc(pl.g, Top(pl, RestTo(pl, 0)))
  }

  /** A branch that merges once keeps the commit. */
  ghost predicate KeptByMerges(j: Job, x: Hash)
    requires Playable(j) && Shared(j)
  {
    forall k: nat :: k < |j.list| && Choosable(j, k) ==>
      x in Anc(j.g, Stand(PlanOf(j), k)) || x in Anc(j.g, j.list[k].hash)
  }

  lemma {:induction false} StandIsNot(j: Job, k: nat, x: Hash)
    requires Playable(j) && k <= |j.list| && x != j.base && Unlisted(j, x)
    ensures Stand(PlanOf(j), k) in j.g && x != Stand(PlanOf(j), k)
  {
    StandIsPresent(PlanOf(j), k);
  }

  lemma {:induction false} DepartureKeeps(j: Job, k: nat, x: Hash)
    requires Playable(j) && Shared(j) && !Replayed(j).broken && k < |j.list|
    requires ReplayTo(j, k).head in j.g && ReplayTo(j, k + 1).head !in j.g
    requires x in j.g && x != j.base && Unlisted(j, x) && KeptByConflicts(PlanOf(j), x) && KeptByMerges(j, x)
    ensures Wf(ReplayTo(j, k + 1).graph) && Below(ReplayTo(j, k + 1), x)
  {
    var b, c := ReplayTo(j, k), j.list[k];
    DepartureShape(j, k);
    StandIsNot(j, k, x);
    if Decide(j.d, b.graph, b.head, c.hash).Merged? {
      MergeIsChoosable(j, k);
    } else {
      TopOfDeparture(j, k, b, x);
    }
    AmendKeeps(j.d, b, c, j.names(k), x);
  }

  lemma {:induction false} TopOfDeparture(j: Job, k: nat, b: Build, x: Hash)
    requires Playable(j) && k < |j.list| && Resting(PlanOf(j), k) && KeptByConflicts(PlanOf(j), x)
    requires b.graph == j.g && b.head == Stand(PlanOf(j), k) && Ready(j.d, b, j.list[k].hash, j.names(k))
    ensures var o := Decide(j.d, b.graph, b.head, j.list[k].hash);
            (o.FastForward? ==> x in Anc(j.g, j.list[k].hash)) && (o.UpToDate? ==> x in Anc(j.g, b.head))
  {
    var o := Decide(j.d, b.graph, b.head, j.list[k].hash);
    if o.FastForward? || o.UpToDate? {
      LastRestIsUnique(PlanOf(j), 0, k);
      if j.list[k].hash in Anc(j.g, b.head) {
        AncTransitive(j.g, b.head, j.list[k].hash);
      }
    }
  }

  lemma {:induction false} AmendKeeps(d: Dolt, b: Build, c: Pick, name: Hash, x: Hash)
    requires Ready(d, b, c.hash, name) && !b.broken && x in b.graph && x != b.head && x != c.hash
    requires var o := Decide(d, b.graph, b.head, c.hash);
             && IsAmended(o)
             && (o.Merged? ==> x in Anc(b.graph, b.head) || x in Anc(b.graph, c.hash))
             && (o.FastForward? ==> x in Anc(b.graph, c.hash)) && (o.UpToDate? ==> x in Anc(b.graph, b.head))
    ensures var b' := Step(d, b, c, name); Wf(b'.graph) && Below(b', x)
  {
    StepShape(d, b, c, name);
    StepHead(d, b, c, name);
  }

  lemma {:induction false} RestingKeeps(j: Job, x: Hash)
    requires Playable(j) && !Replayed(j).broken && Replayed(j).head in j.g && KeptByConflicts(PlanOf(j), x)
    ensures Keeping(j, x)
  {
    ReplayGrows(j, |j.list|);
    OldRestsTo(j, |j.list|);
    LastRestIsUnique(PlanOf(j), 0, |j.list|);
  }

  lemma {:induction false} BelowNext(j: Job, i: nat, x: Hash)
    requires Playable(j) && i < |j.list| && Wf(ReplayTo(j, i).graph) && Below(ReplayTo(j, i), x)
    ensures Wf(ReplayTo(j, i + 1).graph) && Below(ReplayTo(j, i + 1), x)
  {
    ReplayGrows(j, i);
    BelowStays(j.d, ReplayTo(j, i), j.list[i], j.names(i), x);
  }

  lemma {:induction false} DepartureStays(j: Job, k: nat, x: Hash)
    requires Playable(j) && Shared(j) && !Replayed(j).broken && k < |j.list|
    requires ReplayTo(j, k).head in j.g && ReplayTo(j, k + 1).head !in j.g
    requires x in j.g && x != j.base && Unlisted(j, x) && KeptByConflicts(PlanOf(j), x) && KeptByMerges(j, x)
    ensures Wf(Replayed(j).graph) && Below(Replayed(j), x)
  {
    forall i: nat | i < |j.list| && (i <= k || (Wf(ReplayTo(j, i).graph) && Below(ReplayTo(j, i), x)))
      ensures i + 1 <= k || (Wf(ReplayTo(j, i + 1).graph) && Below(ReplayTo(j, i + 1), x))
    {
      if i == k {
        DepartureKeeps(j, k, x);
      } else if i > k {
        BelowNext(j, i, x);
      }
    }
    FoldInduction(j, 0, |j.list|, (i: nat, b: Build) => i <= k || (Wf(b.graph) && Below(b, x)));
  }

  lemma {:induction false} DepartedKeeps(j: Job, x: Hash)
    requires Playable(j) && Shared(j) && !Replayed(j).broken && Replayed(j).head !in j.g
    requires x in j.g && x != j.base && Unlisted(j, x) && KeptByConflicts(PlanOf(j), x) && KeptByMerges(j, x)
    ensures Keeping(j, x)
  {
    var k := Departure(j, |j.list|);
    DepartureStays(j, k, x);
  }

  lemma {:induction false} EveryMergeKeeps(j: Job, init: Hash, x: Hash)
    requires Playable(j) && Rooted(j.g, init) && BaseUnlisted(j) && Shared(j)
    requires x in j.g && x != j.base && Unlisted(j, x) && KeptByConflicts(PlanOf(j), x) && KeptByMerges(j, x)
    ensures Keeping(j, x)
  {
    NeverBroken(j, init);
    if Replayed(j).head in j.g {
      RestingKeeps(j, x);
    } else {
      DepartedKeeps(j, x);
    }
  }

  // ---- what some merge drops ----

  /** The branch is still where `Stand` says. */
  ghost predicate Rests(j: Job, k: nat, b: Build)
    requires Playable(j)
  {
    k <= |j.list| && b.graph == j.g && b.head == Stand(PlanOf(j), k) && !b.broken
  }

  /** The branch comes to step `k` without having made a commit. */
  ghost predicate Quiet(j: Job, k: nat)
    requires Playable(j) && Shared(j) && k <= |j.list|
  {
    Resting(PlanOf(j), k) && forall l: nat :: l < k && Asks(PlanOf(j), l) ==> Answer(j, l).None?
  }

  lemma {:induction false} RestsNext(j: Job, k: nat)
    requires Playable(j) && Shared(j) && k < |j.list| && RestsAt(PlanOf(j), k) && Rests(j, k, ReplayTo(j, k))
    requires Asks(PlanOf(j), k) ==> Answer(j, k).None?
    ensures Rests(j, k + 1, ReplayTo(j, k + 1))
  {
    var b, c := ReplayTo(j, k), j.list[k];
    ReplayGrows(j, k);
    if Asks(PlanOf(j), k) {
      AskDecides(j, k);
    }
    StepHead(j.d, b, c, j.names(k));
    StepOutcome(j.d, b, c, j.names(k));
  }

  /** The merge conflicts whenever the branch has this root. */
  ghost predicate Refuses(d: Dolt, root: int) {
    forall base, theirs :: d.merge(base, root, theirs).None?
  }

  /** The branch has left the old history, gets no further, and has nothing of it outside `s`. */
  ghost predicate Frozen(j: Job, init: Hash, s: set<Hash>, b: Build) {
    && Wf(b.graph) && !b.broken && Extends(j.g, b.graph) && b.head !in j.g && b.head in b.graph
    && init in Anc(b.graph, b.head) && Anc(b.graph, b.head) * j.g.Keys <= s && Refuses(j.d, b.graph[b.head].root)
  }

  lemma {:induction false} FrozenConflicts(j: Job, init: Hash, s: set<Hash>, b: Build, c: Hash)
    requires Sane(j.d) && Wf(j.g) && Frozen(j, init, s, b)
    requires c in j.g && c !in Anc(b.graph, b.head) && init in Anc(j.g, c)
    ensures Decide(j.d, b.graph, b.head, c) == Conflict
  {
    AncAgrees(j.g, b.graph, c);
    assert init in Anc(b.graph, b.head) * Anc(b.graph, c);
    if IsFirstParent(b.graph, b.head, c) {
      FirstParentKeeps(b.graph, b.head, c);
      HeadIsAncestor(b.graph, b.head);
    }
  }

  lemma {:induction false} FrozenStep(j: Job, init: Hash, s: set<Hash>, k: nat, b: Build)
    requires Playable(j) && Rooted(j.g, init) && k < |j.list| && Frozen(j, init, s, b) && init in j.g
    requires Grown(j.g, j.names, k, b) && Ready(j.d, b, j.list[k].hash, j.names(k))
    ensures Frozen(j, init, s, Step(j.d, b, j.list[k], j.names(k)))
  {
    var c := j.list[k];
    assert init in Anc(j.g, c.hash);
    UpToDateIff(j.d, b.graph, b.head, c.hash);
    if c.hash !in Anc(b.graph, b.head) {
      FrozenConflicts(j, init, s, b, c.hash);
    }
    StepShape(j.d, b, c, j.names(k));
    StepHead(j.d, b, c, j.names(k));
    StepOutcome(j.d, b, c, j.names(k));
    StepGrows(j.d, j.g, j.names, k, b, c);
  }

  ghost predicate FreezesAt(j: Job, init: Hash, s: set<Hash>, k: nat)
    requires Playable(j) && k < |j.list|
  {
    forall b {:trigger Rests(j, k, b)} ::
      Rests(j, k, b) && Grown(j.g, j.names, k, b) && Ready(j.d, b, j.list[k].hash, j.names(k)) ==>
        Frozen(j, init, s, Step(j.d, b, j.list[k], j.names(k)))
  }

  lemma {:induction false} Freezes(j: Job, init: Hash, s: set<Hash>, k: nat)
    requires Playable(j) && k < |j.list| && FreezesAt(j, init, s, k) && Rests(j, k, ReplayTo(j, k))
    ensures Frozen(j, init, s, ReplayTo(j, k + 1))
  {
    ReplayGrows(j, k);
  }

  lemma {:induction false} FrozenNext(j: Job, init: Hash, s: set<Hash>, i: nat)
    requires Playable(j) && Rooted(j.g, init) && i < |j.list| && Frozen(j, init, s, ReplayTo(j, i))
    ensures Frozen(j, init, s, ReplayTo(j, i + 1))
  {
    ReplayGrows(j, i);
    RootIsPresent(j.g, init, j.base);
    FrozenStep(j, init, s, i, ReplayTo(j, i));
  }

  ghost predicate Freezing(j: Job, init: Hash, s: set<Hash>, k: nat, i: nat, b: Build)
    requires Playable(j)
  {
    if i <= k then Rests(j, i, b) else Frozen(j, init, s, b)
  }

  lemma {:induction false} FrozenEnds(j: Job, init: Hash, s: set<Hash>, k: nat)
    requires Playable(j) && Rooted(j.g, init) && Shared(j) && k < |j.list| && Quiet(j, k) && FreezesAt(j, init, s, k)
    ensures Frozen(j, init, s, Replayed(j))
  {
    forall i: nat | i < |j.list| && Freezing(j, init, s, k, i, ReplayTo(j, i))
      ensures Freezing(j, init, s, k, i + 1, ReplayTo(j, i + 1))
    {
      if i < k {
        RestsNext(j, i);
      } else if i == k {
        Freezes(j, init, s, k);
      } else {
        FrozenNext(j, init, s, i);
      }
    }
    StartOf(j);
    FoldInduction(j, 0, |j.list|, (i: nat, b: Build) => Freezing(j, init, s, k, i, b));
  }

  lemma {:induction false} RestsEnds(j: Job)
    requires Playable(j) && Shared(j) && Quiet(j, |j.list|)
    ensures Rests(j, |j.list|, Replayed(j))
  {
    forall i: nat | i < |j.list| && Rests(j, i, ReplayTo(j, i)) ensures Rests(j, i + 1, ReplayTo(j, i + 1)) {
      RestsNext(j, i);
    }
    StartOf(j);
    FoldInduction(j, 0, |j.list|, (i: nat, b: Build) => Rests(j, i, b));
  }

  lemma {:induction false} FrozenDrops(j: Job, init: Hash, s: set<Hash>, x: Hash)
    requires Playable(j) && Frozen(j, init, s, Replayed(j)) && x in j.g && x !in s
    ensures !Keeping(j, x)
  {
  }

  // ---- by conflicting everywhere ----

  /** A branch that meets one of its own ancestors does not stand on the initial commit. */
  lemma {:induction false} RootIsLower(j: Job, init: Hash, r: nat)
    requires Playable(j) && Rooted(j.g, init) && BaseUnlisted(j) && r < |j.list|
    requires j.list[r].hash in Anc(j.g, Stand(PlanOf(j), r))
    ensures init in Anc(j.g, Stand(PlanOf(j), r)) && init != Stand(PlanOf(j), r) && init in j.g
  {
    var h, c := Stand(PlanOf(j), r), j.list[r].hash;
    StandRises(PlanOf(j), 0, r);
    RootIsPresent(j.g, init, h);
    assert init in Anc(j.g, h) && init in Anc(j.g, c) && init in Anc(j.g, j.base);
    if init == h {
      Antisymmetric(j.g, init, c);
      Antisymmetric(j.g, init, j.base);
    }
  }

  lemma {:induction false} ConflictFreezes(j: Job, init: Hash, r: nat, b: Build)
    requires Playable(j) && AlwaysConflicts(j.d) && Rooted(j.g, init) && BaseUnlisted(j) && r < |j.list|
    requires !RestsAt(PlanOf(j), r) && Rests(j, r, b) && Grown(j.g, j.names, r, b)
    requires Ready(j.d, b, j.list[r].hash, j.names(r))
    ensures Frozen(j, init, Anc(j.g, Top(PlanOf(j), r)), Step(j.d, b, j.list[r], j.names(r)))
  {
    var c, h := j.list[r], Stand(PlanOf(j), r);
    UpToDateIff(j.d, j.g, h, c.hash);
    StepShape(j.d, b, c, j.names(r));
    StepHead(j.d, b, c, j.names(r));
    StepOutcome(j.d, b, c, j.names(r));
    StepGrows(j.d, j.g, j.names, r, b, c);
    if c.hash in Anc(j.g, h) {
      RootIsLower(j, init, r);
      if h in Anc(j.g, c.hash) {
        Antisymmetric(j.g, h, c.hash);
      }
    } else {
      RootIsPresent(j.g, init, h);
      assert init in Anc(j.g, c.hash) && init in Anc(j.g, h);
    }
  }

  lemma {:induction false} ConflictFreezesAt(j: Job, init: Hash, r: nat)
    requires Playable(j) && AlwaysConflicts(j.d) && Rooted(j.g, init) && BaseUnlisted(j) && r < |j.list|
    requires !RestsAt(PlanOf(j), r)
    ensures FreezesAt(j, init, Anc(j.g, Top(PlanOf(j), r)), r)
  {
    forall b | Rests(j, r, b) && Grown(j.g, j.names, r, b) && Ready(j.d, b, j.list[r].hash, j.names(r))
      ensures Frozen(j, init, Anc(j.g, Top(PlanOf(j), r)), Step(j.d, b, j.list[r], j.names(r)))
    {
      ConflictFreezes(j, init, r, b);
    }
  }

  lemma {:induction false} ConflictsDrop(j: Job, init: Hash, r: nat, x: Hash)
    requires Playable(j) && AlwaysConflicts(j.d) && Rooted(j.g, init) && BaseUnlisted(j) && Shared(j)
    requires LastRest(PlanOf(j), r) && x in j.g && x !in Anc(j.g, Top(PlanOf(j), r))
    ensures !Keeping(j, x)
  {
    if r < |j.list| {
      ConflictFreezesAt(j, init, r);
      FrozenEnds(j, init, Anc(j.g, Top(PlanOf(j), r)), r);
      FrozenDrops(j, init, Anc(j.g, Top(PlanOf(j), r)), x);
    } else {
      RestsEnds(j);
    }
  }

  // ---- by merging once ----

  /** The merge that answers one question, with a root it then conflicts over, and no other. */
  ghost function Once(q: (int, int, int)): (int, int, int) -> Option<int> {
    (base, ours, theirs) => if (base, ours, theirs) == q then Some(ours + 1) else None
  }

  lemma {:induction false} OnceRefuses(d: Dolt, q: (int, int, int))
    requires d.merge == Once(q)
    ensures Refuses(d, q.1 + 1)
  {
  }

  lemma {:induction false} OnceIsQuiet(j: Job, k: nat)
    requires Playable(j) && Shared(j) && k < |j.list| && Choosable(j, k)
    ensures var j' := WithMerge(j, Once(Question(j, k)));
            Shared(j') && Quiet(j', k) && Answer(j', k) == Some(Question(j, k).1 + 1)
  {
    var j' := WithMerge(j, Once(Question(j, k)));
    assert PlanOf(j') == PlanOf(j);
    forall l: nat | l < |j.list| ensures Common(j', l) == Common(j, l) && Question(j', l) == Question(j, l) {
    }
  }

  lemma {:induction false} MergeFreezes(j: Job, init: Hash, k: nat, b: Build, root: int)
    requires Playable(j) && Rooted(j.g, init) && k < |j.list| && Rests(j, k, b) && Grown(j.g, j.names, k, b)
    requires Ready(j.d, b, j.list[k].hash, j.names(k)) && Refuses(j.d, root)
    requires Decide(j.d, j.g, b.head, j.list[k].hash) == Merged(root)
    ensures var s := Anc(j.g, Stand(PlanOf(j), k)) + Anc(j.g, j.list[k].hash);
            Frozen(j, init, s, Step(j.d, b, j.list[k], j.names(k)))
  {
    var c := j.list[k];
    StepShape(j.d, b, c, j.names(k));
    StepHead(j.d, b, c, j.names(k));
    StepOutcome(j.d, b, c, j.names(k));
    StepGrows(j.d, j.g, j.names, k, b, c);
    assert init in Anc(j.g, c.hash);
  }

  lemma {:induction false} MergeFreezesAt(j: Job, init: Hash, k: nat)
    requires Playable(j) && Rooted(j.g, init) && Shared(j) && k < |j.list| && Asks(PlanOf(j), k)
    requires Answer(j, k).Some? && Refuses(j.d, Answer(j, k).value)
    ensures FreezesAt(j, init, Anc(j.g, Stand(PlanOf(j), k)) + Anc(j.g, j.list[k].hash), k)
  {
    AskDecides(j, k);
    var s := Anc(j.g, Stand(PlanOf(j), k)) + Anc(j.g, j.list[k].hash);
    forall b | Rests(j, k, b) && Grown(j.g, j.names, k, b) && Ready(j.d, b, j.list[k].hash, j.names(k))
      ensures Frozen(j, init, s, Step(j.d, b, j.list[k], j.names(k)))
    {
      MergeFreezes(j, init, k, b, Answer(j, k).value);
    }
  }

  lemma {:induction false} MergeDrops(j: Job, init: Hash, k: nat, x: Hash)
    requires Playable(j) && Rooted(j.g, init) && Shared(j) && k < |j.list| && Asks(PlanOf(j), k) && Quiet(j, k)
    requires Answer(j, k).Some? && Refuses(j.d, Answer(j, k).value)
    requires x in j.g && x !in Anc(j.g, Stand(PlanOf(j), k)) && x !in Anc(j.g, j.list[k].hash)
    ensures !Keeping(j, x)
  {
    var s := Anc(j.g, Stand(PlanOf(j), k)) + Anc(j.g, j.list[k].hash);
    MergeFreezesAt(j, init, k);
    FrozenEnds(j, init, s, k);
    FrozenDrops(j, init, s, x);
  }

  lemma {:induction false} OnceDrops(j: Job, init: Hash, k: nat, x: Hash)
    requires Playable(j) && Rooted(j.g, init) && Shared(j) && k < |j.list| && Choosable(j, k)
    requires x in j.g && x !in Anc(j.g, Stand(PlanOf(j), k)) && x !in Anc(j.g, j.list[k].hash)
    ensures !Keeping(WithMerge(j, Once(Question(j, k))), x)
  {
    var j' := WithMerge(j, Once(Question(j, k)));
    OnceIsQuiet(j, k);
    OnceRefuses(j'.d, Question(j, k));
    assert PlanOf(j') == PlanOf(j);
    MergeDrops(j', init, k, x);
  }

  // ---- exactly ----

  lemma {:induction false} SameMerges(j: Job, merge: (int, int, int) -> Option<int>, x: Hash)
    requires Playable(j) && Shared(j)
    ensures Shared(WithMerge(j, merge)) && (KeptByMerges(j, x) <==> KeptByMerges(WithMerge(j, merge), x))
  {
    var j' := WithMerge(j, merge);
    assert PlanOf(j') == PlanOf(j);
    forall l: nat | l < |j.list| ensures Common(j', l) == Common(j, l) && Question(j', l) == Question(j, l) {
    }
    forall k: nat | k < |j.list| ensures Choosable(j', k) <==> Choosable(j, k) {
    }
  }

  /** Exactly which old commits stay whatever Dolt's merges do, on the graph before the call: those below the commit
      that the branch reaches if everything conflicts, provided that each merge that could come first has them on one
      of its two sides. */
  lemma {:induction false} AllKeepIff(j: Job, init: Hash, x: Hash)
    requires Playable(j) && Rooted(j.g, init) && BaseUnlisted(j) && Shared(j)
    requires x in j.g && x != j.base && Unlisted(j, x)
    ensures (forall merge: (int, int, int) -> Option<int> :: Keeping(WithMerge(j, merge), x))
            <==> KeptByConflicts(PlanOf(j), x) && KeptByMerges(j, x)
  {
    if KeptByConflicts(PlanOf(j), x) && KeptByMerges(j, x) {
      forall merge: (int, int, int) -> Option<int> ensures Keeping(WithMerge(j, merge), x) {
        SameMerges(j, merge, x);
        EveryMergeKeeps(WithMerge(j, merge), init, x);
      }
    } else if !KeptByMerges(j, x) {
      var k: nat :| k < |j.list| && Choosable(j, k)
                    && x !in Anc(j.g, Stand(PlanOf(j), k)) && x !in Anc(j.g, j.list[k].hash);
      OnceDrops(j, init, k, x);
    } else {
      RestToIsLast(PlanOf(j), 0);
      SameMerges(j, Conflicting(), x);
      ConflictsDrop(WithMerge(j, Conflicting()), init, RestTo(PlanOf(j), 0), x);
    }
  }
}
