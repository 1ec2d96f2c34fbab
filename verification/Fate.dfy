/** What becomes of the base and of the old history in a replay, whatever Dolt makes of its merges. */
module Fate {
  import opened Hlc
  import opened Dag
  import opened Collect
  import opened Replay
  import opened History

  // ---- proper ancestors of the head ----

  /** An ancestor of the head other than the head itself. */
  ghost predicate Below(b: Build, x: Hash)
    requires Acyclic(b.graph)
  {
    x in Anc(b.graph, b.head) && x != b.head
  }

  lemma {:induction false} Antisymmetric(g: Graph, x: Hash, y: Hash)
    requires Wf(g) && x in g && y in g && x in Anc(g, y) && y in Anc(g, x)
    ensures x == y
  {
    if x != y {
      ReachIsLower(g, "", y, x);
      ReachIsLower(g, "", x, y);
    }
  }

  /** Where a step can move the head. A reset moves it to a commit it did not have. */
  lemma {:induction false} StepHead(d: Dolt, b: Build, c: Pick, name: Hash)
    requires Ready(d, b, c.hash, name) && !b.broken
    ensures var o, b' := Decide(d, b.graph, b.head, c.hash), Step(d, b, c, name);
            && (o.Conflict? || o.Broken? ==> b'.head == b.head && b'.graph == b.graph)
            && (o.Reset? ==> b'.head == c.hash && b'.graph == b.graph && c.hash !in Anc(b.graph, b.head))
            && (o.UpToDate? || o.FastForward? || o.Merged? ==> b'.head == name)
  {
    if Decide(d, b.graph, b.head, c.hash).Reset? {
      AncUnfold(b.graph, c.hash);
      assert b.head in b.graph[c.hash].parents;
    }
  }

  /** A step only ever takes the head itself out of the history, so what is properly below the head stays there. */
  lemma {:induction false} BelowStays(d: Dolt, b: Build, c: Pick, name: Hash, x: Hash)
    requires Ready(d, b, c.hash, name) && Below(b, x)
    ensures var b' := Step(d, b, c, name); Wf(b'.graph) && Below(b', x)
  {
    if !b.broken {
      StepShape(d, b, c, name);
      StepHead(d, b, c, name);
      ReachIsPresent(b.graph, "", b.head);
      if !Decide(d, b.graph, b.head, c.hash).UpToDate? {
        StepKeepsAncestors(d, b, c, name);
      }
    }
  }

  lemma {:induction false} BelowStaysTo(j: Job, k: nat, n: nat, x: Hash)
    requires Playable(j) && k <= n <= |j.list|
    requires Wf(ReplayTo(j, k).graph) && Below(ReplayTo(j, k), x)
    ensures Wf(ReplayTo(j, n).graph) && Below(ReplayTo(j, n), x)
  {
    forall i: nat | k <= i < n && Wf(ReplayTo(j, i).graph) && Below(ReplayTo(j, i), x)
      ensures Wf(ReplayTo(j, i + 1).graph) && Below(ReplayTo(j, i + 1), x)
    {
      ReplayGrows(j, i);
      BelowStays(j.d, ReplayTo(j, i), j.list[i], j.names(i), x);
    }
    FoldInduction(j, k, n, (i: nat, b: Build) => Wf(b.graph) && Below(b, x));
  }

  /** A step that moves the head up puts the old head below the new one. */
  lemma {:induction false} HeadGoesBelow(d: Dolt, b: Build, c: Pick, name: Hash)
    requires Ready(d, b, c.hash, name) && !b.broken
    requires var o := Decide(d, b.graph, b.head, c.hash); o.Reset? || o.FastForward? || o.Merged?
    ensures var b' := Step(d, b, c, name); Wf(b'.graph) && Below(b', b.head)
  {
    StepKeepsAncestors(d, b, c, name);
    StepHead(d, b, c, name);
    HeadIsAncestor(b.graph, b.head);
  }

  /** A folded commit brings all its proper ancestors below the head. */
  lemma {:induction false} FoldedBrings(d: Dolt, b: Build, c: Pick, name: Hash, x: Hash)
    requires Ready(d, b, c.hash, name) && !b.broken
    requires var o := Decide(d, b.graph, b.head, c.hash); !o.Conflict? && !o.Broken?
    requires x in Anc(b.graph, c.hash) && x != c.hash
    ensures var b' := Step(d, b, c, name); Wf(b'.graph) && Below(b', x)
  {
    StepShape(d, b, c, name);
    StepHead(d, b, c, name);
    ReachIsPresent(b.graph, "", c.hash);
    if Decide(d, b.graph, b.head, c.hash).UpToDate? {
      UpToDateIff(d, b.graph, b.head, c.hash);
      AncTransitive(b.graph, b.head, c.hash);
      if x == b.head {
        Antisymmetric(b.graph, b.head, c.hash);
      }
    }
  }

  // ---- the base ----

  ghost predicate BaseUnlisted(j: Job) {
    forall i :: 0 <= i < |j.list| ==> j.list[i].hash != j.base
  }

  /** Before the list reaches an ancestor of the base it has a descendant of the base. */
  ghost predicate BaseStays(j: Job)
    requires Acyclic(j.g)
  {
    forall k :: 0 <= k < |j.list| && j.list[k].hash in Anc(j.g, j.base) ==> Covered(j, k)
  }

  /** Some commit before the `k`-th descends from the base. */
  ghost predicate Covered(j: Job, k: nat)
    requires Acyclic(j.g) && k <= |j.list|
  {
    exists i :: 0 <= i < k && j.base in Anc(j.g, j.list[i].hash)
  }

  /** A commit that descends from a head, without being it, leaves the head below the new one. */
  lemma {:induction false} DescendantCovers(d: Dolt, b: Build, c: Pick, name: Hash)
    requires Ready(d, b, c.hash, name) && !b.broken && b.head in Anc(b.graph, c.hash) && c.hash != b.head
    ensures var b' := Step(d, b, c, name); Wf(b'.graph) && Below(b', b.head)
  {
    if c.hash in Anc(b.graph, b.head) {
      Antisymmetric(b.graph, b.head, c.hash);
    }
    HeadGoesBelow(d, b, c, name);
  }

  /** What the fold keeps of the base: it is below the head, or it is the head and nothing has covered it yet. */
  ghost predicate BaseHolds(j: Job, k: nat, b: Build)
    requires Acyclic(j.g) && k <= |j.list| && Acyclic(b.graph)
  {
    Below(b, j.base) || (b.head == j.base && !Covered(j, k))
  }

  lemma {:induction false} BaseHoldsStep(j: Job, k: nat, b: Build, name: Hash)
    requires Wf(j.g) && k < |j.list| && BaseStays(j) && j.list[k].hash != j.base && j.list[k].hash in j.g
    requires j.base in j.g
    requires Ready(j.d, b, j.list[k].hash, name) && !b.broken && Extends(j.g, b.graph) && BaseHolds(j, k, b)
    ensures var b' := Step(j.d, b, j.list[k], name); Wf(b'.graph) && BaseHolds(j, k + 1, b')
  {
    var c := j.list[k];
    AncAgrees(j.g, b.graph, c.hash);
    AncAgrees(j.g, b.graph, j.base);
    if Below(b, j.base) {
      BelowStays(j.d, b, c, name, j.base);
    } else if j.base in Anc(j.g, c.hash) {
      DescendantCovers(j.d, b, c, name);
    } else {
      UpToDateIff(j.d, b.graph, b.head, c.hash);
      StepKeepsAncestors(j.d, b, c, name);
      HeadIsAncestor(b.graph, b.head);
    }
  }

  ghost predicate HoldsIfSound(j: Job, k: nat, b: Build) {
    b.broken || (Acyclic(j.g) && k <= |j.list| && Wf(b.graph) && BaseHolds(j, k, b))
  }

  lemma {:induction false} BaseHoldsNext(j: Job, k: nat)
    requires Playable(j) && BaseUnlisted(j) && BaseStays(j) && k < |j.list| && !ReplayTo(j, k).broken
    requires Wf(ReplayTo(j, k).graph) && BaseHolds(j, k, ReplayTo(j, k))
    ensures Wf(ReplayTo(j, k + 1).graph) && BaseHolds(j, k + 1, ReplayTo(j, k + 1))
  {
    ReplayGrows(j, k);
    BaseHoldsStep(j, k, ReplayTo(j, k), j.names(k));
  }

  /** Under `BaseStays` no Dolt takes the base out of the history. */
  lemma {:induction false} BaseIsKept(j: Job, k: nat)
    requires Playable(j) && BaseUnlisted(j) && BaseStays(j) && k <= |j.list| && !ReplayTo(j, k).broken
    ensures Wf(ReplayTo(j, k).graph) && BaseHolds(j, k, ReplayTo(j, k))
  {
    forall i: nat | i < k && HoldsIfSound(j, i, ReplayTo(j, i)) ensures HoldsIfSound(j, i + 1, ReplayTo(j, i + 1)) {
      if !ReplayTo(j, i + 1).broken {
        NotBrokenBefore(j, i + 1);
        BaseHoldsNext(j, i);
      }
    }
    FoldInduction(j, 0, k, (i: nat, b: Build) => HoldsIfSound(j, i, b));
  }

  /** A Dolt that reports a conflict in every three-way merge. */
  ghost predicate AlwaysConflicts(d: Dolt) {
    forall base, ours, theirs :: d.merge(base, ours, theirs).None?
  }

  /** The list reaches an ancestor of the base before any descendant of it. */
  ghost predicate Strips(j: Job, k: nat)
    requires Acyclic(j.g) && k < |j.list|
  {
    j.list[k].hash in Anc(j.g, j.base) && !Covered(j, k)
  }

  lemma {:induction false} StripExists(j: Job)
    requires Acyclic(j.g) && !BaseStays(j)
    ensures exists k: nat :: k < |j.list| && Strips(j, k)
  {
    var k :| 0 <= k < |j.list| && j.list[k].hash in Anc(j.g, j.base) && !Covered(j, k);
    assert Strips(j, k);
  }

  lemma {:induction false} FirstStrip(j: Job, n: nat) returns (k: nat)
    requires Acyclic(j.g) && n <= |j.list| && exists i: nat :: i < n && Strips(j, i)
    ensures k < n && Strips(j, k) && forall i :: 0 <= i < k ==> j.list[i].hash !in Anc(j.g, j.base)
  {
    if exists i: nat :: i < n - 1 && Strips(j, i) {
      k := FirstStrip(j, n - 1);
    } else {
      k := n - 1;
      forall i | 0 <= i < k ensures j.list[i].hash !in Anc(j.g, j.base) {
        assert !Strips(j, i);
      }
    }
  }

  /** Two commits that neither descends from the other conflict. */
  lemma {:induction false} UnrelatedConflict(d: Dolt, g: Graph, head: Hash, c: Hash, init: Hash)
    requires Sane(d) && AlwaysConflicts(d) && Wf(g) && head in g && c in g
    requires c !in Anc(g, head) && head !in Anc(g, c) && init in Anc(g, head) && init in Anc(g, c)
    ensures Decide(d, g, head, c) == Conflict
  {
    assert init in Anc(g, head) * Anc(g, c);
    if IsFirstParent(g, head, c) {
      FirstParentKeeps(g, head, c);
      HeadIsAncestor(g, head);
    }
  }

  /** The branch is still the base. */
  ghost predicate Untouched(j: Job, b: Build) {
    b.graph == j.g && b.head == j.base && !b.broken
  }

  /** A branch that has left the old history and does not have the base in its own. */
  ghost predicate Stripped(j: Job, init: Hash, b: Build)
    requires Acyclic(j.g)
  {
    && Wf(b.graph) && !b.broken && b.head !in j.g && j.base !in Anc(b.graph, b.head) && init in Anc(b.graph, b.head)
    && Anc(b.graph, b.head) * j.g.Keys <= Anc(j.g, j.base)
  }

  lemma {:induction false} Strip(j: Job, init: Hash, k: nat, b: Build, name: Hash)
    requires Playable(j) && Rooted(j.g, init) && k < |j.list| && Strips(j, k) && j.list[k].hash != j.base
    requires name !in j.g
    requires Untouched(j, b) && Ready(j.d, b, j.list[k].hash, name)
    ensures Stripped(j, init, Step(j.d, b, j.list[k], name))
  {
    var c := j.list[k];
    UpToDateIff(j.d, b.graph, b.head, c.hash);
    StepShape(j.d, b, c, name);
    StepHead(j.d, b, c, name);
    StepOutcome(j.d, b, c, name);
    if init == j.base {
      Antisymmetric(j.g, init, c.hash);
    }
  }

  lemma {:induction false} StrippedStep(j: Job, init: Hash, k: nat, b: Build, name: Hash)
    requires Wf(j.g) && AlwaysConflicts(j.d) && Rooted(j.g, init) && k < |j.list| && j.list[k].hash in j.g
    requires j.base in j.g
    requires Stripped(j, init, b) && Extends(j.g, b.graph) && Ready(j.d, b, j.list[k].hash, name) && name !in j.g
    ensures Stripped(j, init, Step(j.d, b, j.list[k], name))
  {
    var c := j.list[k];
    AncAgrees(j.g, b.graph, c.hash);
    if c.hash !in Anc(b.graph, b.head) {
      UnrelatedConflict(j.d, b.graph, b.head, c.hash, init);
    }
    UpToDateIff(j.d, b.graph, b.head, c.hash);
    StepShape(j.d, b, c, name);
    StepHead(j.d, b, c, name);
    StepOutcome(j.d, b, c, name);
    RootIsPresent(j.g, init, c.hash);
  }

  lemma {:induction false} RootIsPresent(g: Graph, init: Hash, h: Hash)
    requires Wf(g) && Rooted(g, init) && h in g
    ensures init in g
  {
    ReachIsPresent(g, "", h);
    assert init in Anc(g, h);
  }

  /** The branch is the base until step `k` strips it. */
  ghost predicate Phase(j: Job, init: Hash, k: nat, i: nat, b: Build)
    requires Acyclic(j.g)
  {
    if i <= k then Untouched(j, b) else Stripped(j, init, b)
  }

  lemma {:induction false} PhaseNext(j: Job, init: Hash, k: nat, i: nat)
    requires Playable(j) && AlwaysConflicts(j.d) && Rooted(j.g, init) && BaseUnlisted(j)
    requires k < |j.list| && Strips(j, k) && forall m :: 0 <= m < k ==> j.list[m].hash !in Anc(j.g, j.base)
    requires i < |j.list| && Phase(j, init, k, i, ReplayTo(j, i))
    ensures Phase(j, init, k, i + 1, ReplayTo(j, i + 1))
  {
    var b := ReplayTo(j, i);
    ReplayGrows(j, i);
    if i == k {
      Strip(j, init, k, b, j.names(k));
    } else if i > k {
      StrippedStep(j, init, i, b, j.names(i));
    }
  }

  lemma {:induction false} PhaseHolds(j: Job, init: Hash, k: nat)
    requires Playable(j) && AlwaysConflicts(j.d) && Rooted(j.g, init) && BaseUnlisted(j)
    requires k < |j.list| && Strips(j, k) && forall m :: 0 <= m < k ==> j.list[m].hash !in Anc(j.g, j.base)
    ensures Phase(j, init, k, |j.list|, Replayed(j))
  {
    forall i: nat | i < |j.list| && Phase(j, init, k, i, ReplayTo(j, i))
      ensures Phase(j, init, k, i + 1, ReplayTo(j, i + 1))
    {
      PhaseNext(j, init, k, i);
    }
    StartOf(j);
    FoldInduction(j, 0, |j.list|, (i: nat, b: Build) => Phase(j, init, k, i, b));
  }

  /** Otherwise a Dolt that always conflicts takes the base out. */
  lemma {:induction false} BaseIsStripped(j: Job, init: Hash)
    requires Playable(j) && AlwaysConflicts(j.d) && Rooted(j.g, init) && BaseUnlisted(j)
    requires exists i: nat :: i < |j.list| && Strips(j, i)
    ensures Stripped(j, init, Replayed(j))
  {
    var k := FirstStrip(j, |j.list|);
    PhaseHolds(j, init, k);
  }

  ghost predicate HasBase(j: Job)
    requires Playable(j)
  {
    ReplayGrows(j, |j.list|);
    Replayed(j).broken || j.base in Anc(Replayed(j).graph, Replayed(j).head)
  }

  /** Exactly when a replay keeps its base whatever Dolt makes of the merges: every ancestor of the base in the list
      comes after a descendant of the base. */
  lemma {:induction false} BaseKeptIff(j: Job, init: Hash)
    requires Playable(j) && Rooted(j.g, init) && BaseUnlisted(j)
    ensures BaseStays(j) <==> forall merge: (int, int, int) -> Option<int> :: HasBase(WithMerge(j, merge))
  {
    if BaseStays(j) {
      forall merge: (int, int, int) -> Option<int> ensures HasBase(WithMerge(j, merge)) {
        StaysHasBase(WithMerge(j, merge));
      }
    } else {
      var merge := (base: int, ours: int, theirs: int) => None;
      StripExists(WithMerge(j, merge));
      BaseIsStripped(WithMerge(j, merge), init);
      assert !HasBase(WithMerge(j, merge));
    }
  }

  /** The same replay under another three-way merge. */
  ghost function WithMerge(j: Job, merge: (int, int, int) -> Option<int>): Job {
    j.(d := j.d.(merge := merge))
  }

  lemma {:induction false} StaysHasBase(j: Job)
    requires Playable(j) && BaseUnlisted(j) && BaseStays(j)
    ensures HasBase(j)
  {
    ReplayGrows(j, |j.list|);
    if !Replayed(j).broken {
      BaseIsKept(j, |j.list|);
      HeadIsAncestor(Replayed(j).graph, Replayed(j).head);
    }
  }

  // ---- the old history ----

  /** The outcome recorded for step `i` is the one decided there. */
  lemma {:induction false} OutcomeAt(j: Job, i: nat, n: nat)
    requires Playable(j) && i < n <= |j.list| && !ReplayTo(j, n).broken
    ensures var b := ReplayTo(j, i);
            && !b.broken && |b.outcomes| == i && Grown(j.g, j.names, i, b) && Ready(j.d, b, j.list[i].hash, j.names(i))
            && |ReplayTo(j, n).outcomes| == n
            && ReplayTo(j, n).outcomes[i] == Decide(j.d, b.graph, b.head, j.list[i].hash)
            && !ReplayTo(j, n).outcomes[i].Broken?
  {
    SoundBefore(j, i + 1, n);
    OutcomeNow(j, i);
    RejectedAreConflicts(j, n);
    OutcomesStay(j, i + 1, n);
  }

  lemma {:induction false} SoundBefore(j: Job, i: nat, n: nat)
    requires i <= n <= |j.list| && !ReplayTo(j, n).broken
    ensures !ReplayTo(j, i).broken
  {
    if ReplayTo(j, i).broken {
      BrokenStays(j, i, n);
    }
  }

  lemma {:induction false} OutcomeNow(j: Job, i: nat)
    requires Playable(j) && i < |j.list| && !ReplayTo(j, i + 1).broken
    ensures var b, b' := ReplayTo(j, i), ReplayTo(j, i + 1);
            && !b.broken && |b.outcomes| == i && Grown(j.g, j.names, i, b) && Ready(j.d, b, j.list[i].hash, j.names(i))
            && |b'.outcomes| == i + 1 && b'.outcomes[i] == Decide(j.d, b.graph, b.head, j.list[i].hash)
            && !b'.outcomes[i].Broken?
  {
    NotBrokenBefore(j, i + 1);
    RejectedAreConflicts(j, i);
    ReplayGrows(j, i);
    StepOutcome(j.d, ReplayTo(j, i), j.list[i], j.names(i));
  }

  /** Every proper ancestor of the base is kept, by every Dolt and for every list. */
  lemma {:induction false} BaseAncestorIsKept(j: Job, k: nat, x: Hash)
    requires Playable(j) && k <= |j.list| && x in Anc(j.g, j.base) && x != j.base
    ensures Wf(ReplayTo(j, k).graph) && Below(ReplayTo(j, k), x)
  {
    StartOf(j);
    BelowStaysTo(j, 0, k, x);
  }

  lemma {:induction false} FoldedBringsAt(j: Job, i: nat, n: nat, x: Hash)
    requires Playable(j) && i < n <= |j.list| && !ReplayTo(j, n).broken && Survives(ReplayTo(j, n), i)
    requires x in Anc(j.g, j.list[i].hash) && x != j.list[i].hash
    ensures Wf(ReplayTo(j, i + 1).graph) && Below(ReplayTo(j, i + 1), x)
  {
    OutcomeAt(j, i, n);
    AncAgrees(j.g, ReplayTo(j, i).graph, j.list[i].hash);
    FoldedBrings(j.d, ReplayTo(j, i), j.list[i], j.names(i), x);
  }

  /** Every proper ancestor of a folded commit is kept. */
  lemma {:induction false} FoldedAncestorIsKept(j: Job, i: nat, n: nat, x: Hash)
    requires Playable(j) && i < n <= |j.list| && !ReplayTo(j, n).broken && Survives(ReplayTo(j, n), i)
    requires x in Anc(j.g, j.list[i].hash) && x != j.list[i].hash
    ensures Wf(ReplayTo(j, n).graph) && Below(ReplayTo(j, n), x)
  {
    FoldedBringsAt(j, i, n, x);
    BelowStaysTo(j, i + 1, n, x);
  }

  ghost predicate Unlisted(j: Job, x: Hash) {
    forall i :: 0 <= i < |j.list| ==> x != j.list[i].hash
  }

  /** Exactly what a replay keeps of the old history, by its outcomes: a commit that is neither the base nor itself
      replayed is in the new history if and only if it is an ancestor of the base or of a commit that was folded. */
  lemma {:induction false} OldHistoryKeptIff(j: Job, x: Hash)
    requires Playable(j) && !Replayed(j).broken && x in j.g && x != j.base && Unlisted(j, x)
    ensures Wf(Replayed(j).graph)
    ensures x in Anc(Replayed(j).graph, Replayed(j).head) <==> Supported(j, |j.list|, x)
  {
    var n, b := |j.list|, Replayed(j);
    ReplayGrows(j, n);
    if x in Anc(b.graph, b.head) {
      OldAncestorIsSupported(j, n, x);
    }
    if x in Anc(j.g, j.base) {
      BaseAncestorIsKept(j, n, x);
    } else if Supported(j, n, x) {
      var i :| 0 <= i < n && Survives(b, i) && x in Anc(j.g, j.list[i].hash);
      FoldedAncestorIsKept(j, i, n, x);
    }
  }

  /** The initial commit is kept. */
  lemma {:induction false} RootIsKept(j: Job, init: Hash, k: nat)
    requires Playable(j) && Rooted(j.g, init) && BaseUnlisted(j) && k <= |j.list| && !ReplayTo(j, k).broken
    ensures Wf(ReplayTo(j, k).graph) && init in Anc(ReplayTo(j, k).graph, ReplayTo(j, k).head)
  {
    if init != j.base {
      BaseAncestorIsKept(j, k, init);
    } else {
      forall i | 0 <= i < |j.list| ensures j.list[i].hash !in Anc(j.g, j.base) {
        if j.list[i].hash in Anc(j.g, j.base) {
          Antisymmetric(j.g, init, j.list[i].hash);
        }
      }
      BaseIsKept(j, k);
      ReplayGrows(j, k);
      HeadIsAncestor(ReplayTo(j, k).graph, ReplayTo(j, k).head);
    }
  }

  ghost predicate FoldedSoFar(k: nat, b: Build) {
    !b.broken && |b.outcomes| == k && AllFolded(b)
  }

  lemma {:induction false} FoldedSoFarNext(j: Job, init: Hash, k: nat)
    requires Playable(j) && NeverConflicts(j.d) && Rooted(j.g, init) && BaseUnlisted(j)
    requires k < |j.list| && FoldedSoFar(k, ReplayTo(j, k))
    ensures FoldedSoFar(k + 1, ReplayTo(j, k + 1))
  {
    RootIsKept(j, init, k);
    ReplayGrows(j, k);
    AncAgrees(j.g, ReplayTo(j, k).graph, j.list[k].hash);
  }

  /** Without conflicts every commit is folded and the replay succeeds. */
  lemma {:induction false} EverythingIsFolded(j: Job, init: Hash, k: nat)
    requires Playable(j) && NeverConflicts(j.d) && Rooted(j.g, init) && BaseUnlisted(j) && k <= |j.list|
    ensures FoldedSoFar(k, ReplayTo(j, k))
  {
    forall i: nat | i < k && FoldedSoFar(i, ReplayTo(j, i)) ensures FoldedSoFar(i + 1, ReplayTo(j, i + 1)) {
      FoldedSoFarNext(j, init, i);
    }
    StartOf(j);
    FoldInduction(j, 0, k, (i: nat, b: Build) => FoldedSoFar(i, b));
  }

  /** The same on the graph alone, for every Dolt that never conflicts: kept if and only if it is an ancestor of the
      base or of a listed commit. */
  lemma {:induction false} KeptIffFed(j: Job, init: Hash, x: Hash)
    requires Playable(j) && NeverConflicts(j.d) && Rooted(j.g, init) && BaseUnlisted(j)
    requires x in j.g && x != j.base && Unlisted(j, x)
    ensures Wf(Replayed(j).graph) && !Replayed(j).broken
    ensures x in Anc(Replayed(j).graph, Replayed(j).head) <==> x in Feeds(j, |j.list|)
  {
    EverythingIsFolded(j, init, |j.list|);
    OldHistoryKeptIff(j, x);
    assert Supported(j, |j.list|, x) <==> x in Feeds(j, |j.list|);
  }

  /** Exactly which merges are no-ops, for every Dolt: those of the commits that are ancestors of the base or of a
      commit folded earlier. */
  lemma {:induction false} NoOpIff(j: Job, k: nat)
    requires Playable(j) && BaseUnlisted(j) && k < |j.list| && !Replayed(j).broken
    requires forall i :: 0 <= i < k ==> j.list[i].hash != j.list[k].hash
    ensures |Replayed(j).outcomes| == |j.list|
    ensures Replayed(j).outcomes[k].UpToDate? <==> Supported(j, k, j.list[k].hash)
  {
    var b, c := ReplayTo(j, k), j.list[k].hash;
    OutcomeAt(j, k, |j.list|);
    UpToDateIff(j.d, b.graph, b.head, c);
    if c in Anc(b.graph, b.head) {
      OldAncestorIsSupported(j, k, c);
    }
    if Supported(j, k, c) {
      SupportedIsBelow(j, k, c);
    }
  }

  lemma {:induction false} SupportedIsBelow(j: Job, k: nat, x: Hash)
    requires Playable(j) && k <= |j.list| && !ReplayTo(j, k).broken && |ReplayTo(j, k).outcomes| == k
    requires Supported(j, k, x) && x != j.base && forall i :: 0 <= i < k ==> j.list[i].hash != x
    ensures Wf(ReplayTo(j, k).graph) && Below(ReplayTo(j, k), x)
  {
    if x in Anc(j.g, j.base) {
      BaseAncestorIsKept(j, k, x);
    } else {
      var i: nat :| i < |j.list| && Survives(ReplayTo(j, k), i) && x in Anc(j.g, j.list[i].hash);
      FoldedAncestorIsKept(j, i, k, x);
    }
  }

  /** Without conflicts: those of the commits that are ancestors of the base or of an earlier commit of the list. */
  lemma {:induction false} NoOpAtIff(j: Job, init: Hash, k: nat)
    requires Playable(j) && NeverConflicts(j.d) && Rooted(j.g, init) && BaseUnlisted(j) && k < |j.list|
    requires forall i :: 0 <= i < k ==> j.list[i].hash != j.list[k].hash
    ensures |Replayed(j).outcomes| == |j.list|
    ensures Replayed(j).outcomes[k].UpToDate? <==> j.list[k].hash in Feeds(j, k)
  {
    EverythingIsFolded(j, init, |j.list|);
    EverythingIsFolded(j, init, k);
    NoOpIff(j, k);
    assert Supported(j, k, j.list[k].hash) <==> j.list[k].hash in Feeds(j, k);
  }

  ghost predicate Keeping(j: Job, x: Hash)
    requires Playable(j)
  {
    ReplayGrows(j, |j.list|);
    !Replayed(j).broken && x in Anc(Replayed(j).graph, Replayed(j).head)
  }

  /** Over all Dolts: some Dolt keeps an old commit that is neither the base nor replayed if and only if it is an
      ancestor of the base or of a listed commit. */
  lemma {:induction false} SomeDoltKeepsIff(j: Job, init: Hash, x: Hash)
    requires Playable(j) && Rooted(j.g, init) && BaseUnlisted(j) && x in j.g && x != j.base && Unlisted(j, x)
    ensures (exists d :: Sane(d) && Keeping(j.(d := d), x)) <==> x in Feeds(j, |j.list|)
  {
    var n := |j.list|;
    if x in Feeds(j, n) {
      WillingIsSane();
      KeptIffFed(j.(d := Willing()), init, x);
      assert Keeping(j.(d := Willing()), x);
    }
    forall d | Sane(d) && Keeping(j.(d := d), x) ensures x in Feeds(j, n) {
      OldAncestorsBound(j.(d := d), n);
    }
  }

}
