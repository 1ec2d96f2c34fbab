/** What a replay does to history: when its merges are real, and that it then keeps the base and every commit it did
    not report as rejected. */
module History {
  import opened Hlc
  import opened Dag
  import opened Collect
  import opened Replay

  // ---- one step ----

  predicate IsAmended(o: Outcome) {
    o.UpToDate? || o.FastForward? || o.Merged?
  }

  /** The ancestors of the new head. */
  ghost function NewAnc(g: Graph, head: Hash, c: Hash, name: Hash, o: Outcome): set<Hash>
    requires Acyclic(g)
  {
    match o
    case Reset => Anc(g, c)
    case UpToDate => {name} + (Anc(g, head) - {head})
    case FastForward => {name} + (Anc(g, c) - {c})
    case Merged(_) => {name} + Anc(g, head) + Anc(g, c)
    case Conflict => Anc(g, head)
    case Broken => Anc(g, head)
  }

  lemma {:induction false} AmendedShape(g: Graph, head: Hash, c: Pick, name: Hash, o: Outcome)
    requires Wf(g) && head in g && c.hash in g && name !in g && name != "" && IsAmended(o)
    ensures var g' := g[name := AmendedHead(g, head, c, o)];
            && Wf(g') && Extends(g, g') && Anc(g', name) == NewAnc(g, head, c.hash, name, o)
            && (forall x :: x in g ==> Anc(g', x) == Anc(g, x))
  {
    AddCommit(g, name, AmendedHead(g, head, c, o));
    match o {
      case UpToDate => AncUnfold(g, head);
      case FastForward => AncUnfold(g, c.hash);
      case Merged(_) => PairAncestors(g, head, c.hash);
    }
  }

  lemma {:induction false} StepShape(d: Dolt, b: Build, c: Pick, name: Hash)
    requires Ready(d, b, c.hash, name) && !b.broken
    ensures var o, b' := Decide(d, b.graph, b.head, c.hash), Step(d, b, c, name);
            && Wf(b'.graph) && Extends(b.graph, b'.graph)
            && b'.outcomes == b.outcomes + [o]
            && Anc(b'.graph, b'.head) == NewAnc(b.graph, b.head, c.hash, name, o)
            && (forall x :: x in b.graph ==> Anc(b'.graph, x) == Anc(b.graph, x))
  {
    var o := Decide(d, b.graph, b.head, c.hash);
    if IsAmended(o) {
      AmendedShape(b.graph, b.head, c, name, o);
    }
  }

  lemma {:induction false} StepOutcome(d: Dolt, b: Build, c: Pick, name: Hash)
    requires Ready(d, b, c.hash, name) && !b.broken
    ensures var o, b' := Decide(d, b.graph, b.head, c.hash), Step(d, b, c, name);
            b'.outcomes == b.outcomes + [o] && b'.broken == o.Broken?
  {
  }

  lemma {:induction false} PairAncestors(g: Graph, a: Hash, b: Hash)
    requires Acyclic(g)
    ensures AncOf(g, [a, b]) == Anc(g, a) + Anc(g, b)
  {
    assert [a, b][0] == a && [a, b][1] == b;
    forall x ensures x in AncOf(g, [a, b]) <==> x in Anc(g, a) + Anc(g, b) {
      assert x in AncOf(g, [a, b]) <==> exists p :: p in [a, b] && x in Anc(g, p);
    }
  }

  /** A merge is a no-op exactly when the commit is already an ancestor of the head. */
  lemma {:induction false} UpToDateIff(d: Dolt, g: Graph, head: Hash, c: Hash)
    requires Sane(d) && Wf(g) && head in g && c in g
    ensures Decide(d, g, head, c).UpToDate? <==> c in Anc(g, head)
  {
    if IsFirstParent(g, head, c) {
      AncUnfold(g, c);
      assert head in g[c].parents;
    }
  }

  lemma {:induction false} FirstParentKeeps(g: Graph, head: Hash, c: Hash)
    requires Wf(g) && head in g && c in g && IsFirstParent(g, head, c)
    ensures Anc(g, head) <= Anc(g, c)
  {
    AncUnfold(g, c);
    assert head in g[c].parents;
  }

  lemma {:induction false} FastForwardKeeps(g: Graph, head: Hash, c: Hash)
    requires Wf(g) && head in Anc(g, c) && c !in Anc(g, head)
    ensures Anc(g, head) <= Anc(g, c) - {c}
  {
    AncTransitive(g, c, head);
  }

  lemma {:induction false} NewAncKeeps(d: Dolt, g: Graph, head: Hash, c: Hash, name: Hash)
    requires Sane(d) && Wf(g) && head in g && c in g && !Decide(d, g, head, c).UpToDate?
    ensures Anc(g, head) <= NewAnc(g, head, c, name, Decide(d, g, head, c))
  {
    var o := Decide(d, g, head, c);
    if o.Reset? {
      FirstParentKeeps(g, head, c);
    } else if o.FastForward? {
      FastForwardKeeps(g, head, c);
    }
  }

  /** A step other than a no-op keeps all the ancestors of the head. */
  lemma {:induction false} StepKeepsAncestors(d: Dolt, b: Build, c: Pick, name: Hash)
    requires Ready(d, b, c.hash, name) && !b.broken && !Decide(d, b.graph, b.head, c.hash).UpToDate?
    ensures var b' := Step(d, b, c, name); Wf(b'.graph) && Anc(b.graph, b.head) <= Anc(b'.graph, b'.head)
  {
    StepShape(d, b, c, name);
    NewAncKeeps(d, b.graph, b.head, c.hash, name);
  }

  lemma {:induction false} NewAncBound(g: Graph, head: Hash, c: Hash, name: Hash, o: Outcome)
    requires Acyclic(g)
    ensures NewAnc(g, head, c, name, o) <= {name} + Anc(g, head) + Anc(g, c)
  {
  }

  // ---- the whole replay ----

  /** The ancestors of the base and of the first `k` commits of the list. */
  ghost function Feeds(j: Job, k: nat): set<Hash>
    requires Acyclic(j.g) && k <= |j.list|
  {
    Anc(j.g, j.base) + set i, x | 0 <= i < k && x in Anc(j.g, j.list[i].hash) :: x
  }

  ghost predicate BoundedBy(j: Job, k: nat, b: Build)
    requires Acyclic(j.g)
  {
    k <= |j.list| && Wf(b.graph) && Anc(b.graph, b.head) * j.g.Keys <= Feeds(j, k)
  }

  /** Whatever old commits the head has as ancestors came from the base or from a commit already folded. */
  lemma {:induction false} OldAncestorsBound(j: Job, k: nat)
    requires Playable(j) && k <= |j.list|
    ensures var b := ReplayTo(j, k); Wf(b.graph) && Anc(b.graph, b.head) * j.g.Keys <= Feeds(j, k)
  {
    forall i: nat | i < k && BoundedBy(j, i, ReplayTo(j, i)) ensures BoundedBy(j, i + 1, ReplayTo(j, i + 1)) {
      OldAncestorsStep(j, i);
    }
    StartOf(j);
    FoldInduction(j, 0, k, (i: nat, b: Build) => BoundedBy(j, i, b));
  }

  lemma {:induction false} FeedsNext(j: Job, k: nat)
    requires Acyclic(j.g) && k < |j.list|
    ensures Feeds(j, k + 1) == Feeds(j, k) + Anc(j.g, j.list[k].hash)
  {
  }

  lemma {:induction false} OldAncestorsStep(j: Job, k: nat)
    requires Playable(j) && k < |j.list|
    requires var b := ReplayTo(j, k); Wf(b.graph) && Anc(b.graph, b.head) * j.g.Keys <= Feeds(j, k)
    ensures var b := ReplayTo(j, k + 1); Wf(b.graph) && Anc(b.graph, b.head) * j.g.Keys <= Feeds(j, k + 1)
  {
    var b, c := ReplayTo(j, k), j.list[k];
    ReplayGrows(j, k);
    FeedsNext(j, k);
    if !b.broken {
      StepShape(j.d, b, c, j.names(k));
      NewAncBound(b.graph, b.head, c.hash, j.names(k), Decide(j.d, b.graph, b.head, c.hash));
      AncAgrees(j.g, b.graph, c.hash);
    }
  }

  /** No commit of the list, up to the `n`-th, is an ancestor of the base or of a commit before it. */
  ghost predicate OrderedTo(j: Job, n: nat)
    requires Acyclic(j.g) && n <= |j.list|
  {
    forall k :: 0 <= k < n ==> j.list[k].hash !in Feeds(j, k)
  }

  lemma {:induction false} OrderedPrefix(j: Job, k: nat, n: nat)
    requires Acyclic(j.g) && k <= n <= |j.list| && OrderedTo(j, n)
    ensures OrderedTo(j, k)
  {
  }

  /** In an ordered list no merge is a no-op. */
  lemma {:induction false} NoStepIsNoOp(j: Job, k: nat)
    requires Playable(j) && k < |j.list| && OrderedTo(j, k + 1)
    ensures var b := ReplayTo(j, k);
            Ready(j.d, b, j.list[k].hash, j.names(k)) && !Decide(j.d, b.graph, b.head, j.list[k].hash).UpToDate?
  {
    var b, c := ReplayTo(j, k), j.list[k].hash;
    ReplayGrows(j, k);
    OldAncestorsBound(j, k);
    UpToDateIff(j.d, b.graph, b.head, c);
    assert c !in Anc(b.graph, b.head) * j.g.Keys;
  }

  /** The commit, or an amended copy of it with its parents, root and timestamp, is in the history of the branch. */
  ghost predicate Carried(g: Graph, b: Build, c: Pick)
    requires Acyclic(b.graph) && c.hash in g
  {
    c.hash in Anc(b.graph, b.head) || exists x :: x in Anc(b.graph, b.head) && IsCopy(g, b.graph, x, c)
  }

  ghost predicate IsCopy(g: Graph, g': Graph, x: Hash, c: Pick)
    requires c.hash in g
  {
    x !in g && x in g' && g'[x] == Amended(g[c.hash], c.hlc)
  }

  lemma {:induction false} StepCarriesOthers(d: Dolt, g: Graph, b: Build, c: Pick, name: Hash, other: Pick)
    requires Ready(d, b, c.hash, name) && !b.broken && !Decide(d, b.graph, b.head, c.hash).UpToDate?
    requires other.hash in g && Carried(g, b, other)
    ensures var b' := Step(d, b, c, name); Wf(b'.graph) && Carried(g, b', other)
  {
    StepShape(d, b, c, name);
    StepKeepsAncestors(d, b, c, name);
    var b' := Step(d, b, c, name);
    if other.hash !in Anc(b.graph, b.head) {
      var x :| x in Anc(b.graph, b.head) && IsCopy(g, b.graph, x, other);
      assert IsCopy(g, b'.graph, x, other);
    }
  }

  lemma {:induction false} HeadIsAncestor(g: Graph, h: Hash)
    requires Acyclic(g) && h in g
    ensures h in Anc(g, h)
  {
  }

  lemma {:induction false} StepCarriesNew(d: Dolt, g: Graph, b: Build, c: Pick, name: Hash)
    requires Ready(d, b, c.hash, name) && !b.broken
    requires var o := Decide(d, b.graph, b.head, c.hash); o.Reset? || o.FastForward? || o.Merged?
    requires c.hash in g && Extends(g, b.graph) && name !in g
    ensures var b' := Step(d, b, c, name); Wf(b'.graph) && Carried(g, b', c)
  {
    StepShape(d, b, c, name);
    HeadIsAncestor(b.graph, c.hash);
    var b' := Step(d, b, c, name);
    if Decide(d, b.graph, b.head, c.hash).FastForward? {
      assert IsCopy(g, b'.graph, name, c);
    }
  }

  /** The timestamp of the commit was not reported as rejected by the first `k` steps. */
  ghost predicate Survives(b: Build, i: nat) {
    i < |b.outcomes| && !b.outcomes[i].Conflict?
  }

  /** Everything that the build `b` after `k` steps has to keep. */
  ghost predicate KeepsIn(j: Job, k: nat, b: Build)
    requires k <= |j.list| && Acyclic(j.g)
  {
    && Wf(b.graph) && !b.broken && |b.outcomes| == k
    && Anc(j.g, j.base) <= Anc(b.graph, b.head)
    && (forall i :: 0 <= i < k ==> j.list[i].hash in j.g && !b.outcomes[i].UpToDate?)
    && (forall i :: 0 <= i < k && Survives(b, i) ==> Carried(j.g, b, j.list[i]))
  }

  ghost predicate Keeps(j: Job, k: nat)
    requires k <= |j.list| && Acyclic(j.g)
  {
    KeepsIn(j, k, ReplayTo(j, k))
  }

  lemma {:induction false} KeepsInStep(j: Job, k: nat, b: Build, name: Hash)
    requires Acyclic(j.g) && k < |j.list| && KeepsIn(j, k, b) && j.list[k].hash in j.g && name !in j.g
    requires Ready(j.d, b, j.list[k].hash, name) && Extends(j.g, b.graph)
    requires var o := Decide(j.d, b.graph, b.head, j.list[k].hash); !o.UpToDate? && !o.Broken?
    ensures KeepsIn(j, k + 1, Step(j.d, b, j.list[k], name))
  {
    var c := j.list[k];
    var b' := Step(j.d, b, c, name);
    StepOutcome(j.d, b, c, name);
    StepKeepsAncestors(j.d, b, c, name);
    forall i | 0 <= i < k + 1 && Survives(b', i) ensures Carried(j.g, b', j.list[i]) {
      if i < k {
        assert b'.outcomes[i] == b.outcomes[i];
        StepCarriesOthers(j.d, j.g, b, c, name, j.list[i]);
      } else {
        StepCarriesNew(j.d, j.g, b, c, name);
      }
    }
  }

  lemma {:induction false} KeptStep(j: Job, k: nat)
    requires Playable(j) && k < |j.list| && OrderedTo(j, k + 1)
    requires Keeps(j, k) && !ReplayTo(j, k + 1).broken
    ensures Keeps(j, k + 1)
  {
    NoStepIsNoOp(j, k);
    ReplayGrows(j, k);
    StepOutcome(j.d, ReplayTo(j, k), j.list[k], j.names(k));
    KeepsInStep(j, k, ReplayTo(j, k), j.names(k));
  }

  ghost predicate KeepsIfSound(j: Job, k: nat, b: Build)
    requires Acyclic(j.g)
  {
    b.broken || (k <= |j.list| && KeepsIn(j, k, b))
  }

  lemma {:induction false} KeepsIfSoundNext(j: Job, k: nat)
    requires Playable(j) && k < |j.list| && OrderedTo(j, k + 1) && KeepsIfSound(j, k, ReplayTo(j, k))
    ensures KeepsIfSound(j, k + 1, ReplayTo(j, k + 1))
  {
    if !ReplayTo(j, k + 1).broken {
      NotBrokenBefore(j, k + 1);
      KeptStep(j, k);
    }
  }

  /** In an ordered list no merge is a no-op, the base and all its ancestors stay ancestors of the head, and every
      commit that met no conflict survives as itself or as an amended copy. */
  lemma {:induction false} ReplayKeepsHistory(j: Job, k: nat)
    requires Playable(j) && k <= |j.list| && OrderedTo(j, k)
    requires !ReplayTo(j, k).broken
    ensures Keeps(j, k)
  {
    forall i: nat | i < k && KeepsIfSound(j, i, ReplayTo(j, i)) ensures KeepsIfSound(j, i + 1, ReplayTo(j, i + 1)) {
      OrderedPrefix(j, i + 1, k);
      KeepsIfSoundNext(j, i);
    }
    FoldInduction(j, 0, k, (i: nat, b: Build) => KeepsIfSound(j, i, b));
  }

  lemma {:induction false} NotBrokenBefore(j: Job, k: nat)
    requires 0 < k <= |j.list| && !ReplayTo(j, k).broken
    ensures !ReplayTo(j, k - 1).broken
  {
  }

  // ---- exactly when merges are real ----

  ghost predicate NoOpFree(b: Build) {
    forall i :: 0 <= i < |b.outcomes| ==> !b.outcomes[i].UpToDate?
  }

  lemma {:induction false} NoOpFreeStep(j: Job, k: nat)
    requires Playable(j) && k < |j.list| && OrderedTo(j, k + 1) && NoOpFree(ReplayTo(j, k))
    ensures NoOpFree(ReplayTo(j, k + 1))
  {
    var b := ReplayTo(j, k);
    NoStepIsNoOp(j, k);
    if !b.broken {
      StepOutcome(j.d, b, j.list[k], j.names(k));
    }
  }

  lemma {:induction false} OrderedIsNoOpFree(j: Job, k: nat)
    requires Playable(j) && k <= |j.list| && OrderedTo(j, k)
    ensures NoOpFree(ReplayTo(j, k))
  {
    forall i: nat | i < k && NoOpFree(ReplayTo(j, i)) ensures NoOpFree(ReplayTo(j, i + 1)) {
      OrderedPrefix(j, i + 1, k);
      NoOpFreeStep(j, i);
    }
    StartOf(j);
    FoldInduction(j, 0, k, (i: nat, b: Build) => NoOpFree(b));
  }

  /** A Dolt whose merges never conflict. */
  ghost function Willing(): Dolt {
    Dolt(s => if s == {} then "" else var x :| x in s; x, (base, ours, theirs) => Some(0))
  }

  ghost predicate NeverConflicts(d: Dolt) {
    forall base, ours, theirs :: d.merge(base, ours, theirs).Some?
  }

  lemma {:induction false} WillingIsSane()
    ensures Sane(Willing()) && NeverConflicts(Willing())
  {
  }

  /** All commits descend from one initial commit, as in any repository that was cloned and not grafted. */
  ghost predicate Rooted(g: Graph, init: Hash)
    requires Acyclic(g)
  {
    forall h {:trigger Anc(g, h)} :: h in g ==> init in Anc(g, h)
  }

  /** Every step so far folded its commit. */
  ghost predicate AllFolded(b: Build) {
    forall i :: 0 <= i < |b.outcomes| ==> !b.outcomes[i].Conflict?
  }

  lemma {:induction false} WillingFolds(j: Job, k: nat, b: Build, name: Hash, init: Hash)
    requires Wf(j.g) && NeverConflicts(j.d) && k < |j.list| && Rooted(j.g, init) && KeepsIn(j, k, b) && AllFolded(b)
    requires j.base in j.g && j.list[k].hash in j.g && Extends(j.g, b.graph) && Ready(j.d, b, j.list[k].hash, name)
    ensures !Step(j.d, b, j.list[k], name).broken && AllFolded(Step(j.d, b, j.list[k], name))
  {
    var c := j.list[k];
    AncAgrees(j.g, b.graph, c.hash);
    assert init in Anc(j.g, j.base) && init in Anc(j.g, c.hash);
    StepOutcome(j.d, b, c, name);
  }

  lemma {:induction false} WillingKeepsStep(j: Job, init: Hash, k: nat)
    requires Playable(j) && NeverConflicts(j.d) && k < |j.list| && OrderedTo(j, k + 1) && Rooted(j.g, init)
    requires Keeps(j, k) && AllFolded(ReplayTo(j, k))
    ensures Keeps(j, k + 1) && AllFolded(ReplayTo(j, k + 1))
  {
    ReplayGrows(j, k);
    WillingFolds(j, k, ReplayTo(j, k), j.names(k), init);
    KeptStep(j, k);
  }

  ghost predicate KeepsAndFolds(j: Job, k: nat, b: Build)
    requires Acyclic(j.g)
  {
    k <= |j.list| && KeepsIn(j, k, b) && AllFolded(b)
  }

  /** A willing Dolt keeps everything until the first commit out of order. */
  lemma {:induction false} WillingKeeps(j: Job, init: Hash, k: nat)
    requires Playable(j) && NeverConflicts(j.d) && k <= |j.list| && OrderedTo(j, k) && Rooted(j.g, init)
    ensures Keeps(j, k) && AllFolded(ReplayTo(j, k))
  {
    forall i: nat | i < k && KeepsAndFolds(j, i, ReplayTo(j, i)) ensures KeepsAndFolds(j, i + 1, ReplayTo(j, i + 1)) {
      OrderedPrefix(j, i + 1, k);
      WillingKeepsStep(j, init, i);
    }
    FoldInduction(j, 0, k, (i: nat, b: Build) => KeepsAndFolds(j, i, b));
  }

  /** A carried commit brings along all its proper ancestors. */
  lemma {:induction false} CarriedBringsAncestors(g: Graph, b: Build, c: Pick, x: Hash)
    requires Wf(g) && Wf(b.graph) && Extends(g, b.graph) && c.hash in g && Carried(g, b, c)
    requires x in Anc(g, c.hash) && x != c.hash
    ensures x in Anc(b.graph, b.head)
  {
    if c.hash in Anc(b.graph, b.head) {
      AncAgrees(g, b.graph, c.hash);
      AncTransitive(b.graph, b.head, c.hash);
    } else {
      var y :| y in Anc(b.graph, b.head) && IsCopy(g, b.graph, y, c);
      AncUnfold(g, c.hash);
      AncUnfold(b.graph, y);
      AncOfAgrees(g, b.graph, g[c.hash].parents);
      AncTransitive(b.graph, b.head, y);
    }
  }

  lemma {:induction false} FirstOutOfOrder(j: Job, n: nat) returns (k: nat)
    requires Acyclic(j.g) && n <= |j.list| && !OrderedTo(j, n)
    ensures k < n && OrderedTo(j, k) && j.list[k].hash in Feeds(j, k)
  {
    if OrderedTo(j, n - 1) {
      k := n - 1;
    } else {
      k := FirstOutOfOrder(j, n - 1);
    }
  }

  lemma {:induction false} OutcomesStay(j: Job, k: nat, n: nat)
    requires k <= n <= |j.list|
    ensures ReplayTo(j, k).outcomes <= ReplayTo(j, n).outcomes
  {
    var os := ReplayTo(j, k).outcomes;
    forall i: nat | k <= i < n && os <= ReplayTo(j, i).outcomes ensures os <= ReplayTo(j, i + 1).outcomes {
    }
    FoldInduction(j, k, n, (i: nat, b: Build) => os <= b.outcomes);
  }

  lemma {:induction false} FeedsAreReached(j: Job, k: nat, b: Build, c: Hash)
    requires Wf(j.g) && k <= |j.list| && KeepsIn(j, k, b) && AllFolded(b) && Extends(j.g, b.graph)
    requires c in Feeds(j, k) && forall i :: 0 <= i < k ==> j.list[i].hash != c
    ensures c in Anc(b.graph, b.head)
  {
    if c !in Anc(j.g, j.base) {
      var i :| 0 <= i < k && c in Anc(j.g, j.list[i].hash);
      assert Survives(b, i);
      CarriedBringsAncestors(j.g, b, j.list[i], c);
    }
  }

  lemma {:induction false} ReachedIsNoOp(j: Job, k: nat)
    requires k < |j.list| && Ready(j.d, ReplayTo(j, k), j.list[k].hash, j.names(k))
    requires var b := ReplayTo(j, k); !b.broken && |b.outcomes| == k && j.list[k].hash in Anc(b.graph, b.head)
    ensures !NoOpFree(Replayed(j))
  {
    var b := ReplayTo(j, k);
    UpToDateIff(j.d, b.graph, b.head, j.list[k].hash);
    StepOutcome(j.d, b, j.list[k], j.names(k));
    OutcomesStay(j, k + 1, |j.list|);
    assert Replayed(j).outcomes[k].UpToDate?;
  }

  /** The first commit out of order makes a no-op of its merge. */
  lemma {:induction false} OutOfOrderIsNoOp(j: Job, init: Hash)
    requires Playable(j) && NeverConflicts(j.d) && Rooted(j.g, init)
    requires forall i, k :: 0 <= i < k < |j.list| ==> j.list[i].hash != j.list[k].hash
    requires !OrderedTo(j, |j.list|)
    ensures !NoOpFree(Replayed(j))
  {
    var k := FirstOutOfOrder(j, |j.list|);
    WillingKeeps(j, init, k);
    ReplayGrows(j, k);
    FeedsAreReached(j, k, ReplayTo(j, k), j.list[k].hash);
    ReachedIsNoOp(j, k);
  }

  /** Exactly when a replay can do without no-op merges, whatever Dolt makes of them: no commit of the list is an
      ancestor of the base or of a commit before it in the list. */
  lemma {:induction false} NoOpFreeIff(j: Job, init: Hash)
    requires Playable(j) && Rooted(j.g, init)
    requires forall i, k :: 0 <= i < k < |j.list| ==> j.list[i].hash != j.list[k].hash
    ensures OrderedTo(j, |j.list|) <==> forall d :: Sane(d) ==> NoOpFree(Replayed(j.(d := d)))
  {
    var n := |j.list|;
    if OrderedTo(j, n) {
      forall d | Sane(d) ensures NoOpFree(Replayed(j.(d := d))) {
        OrderedIsNoOpFree(j.(d := d), n);
      }
    } else {
      WillingIsSane();
      OutOfOrderIsNoOp(j.(d := Willing()), init);
    }
  }

  // ---- rejections ----

  /** The reported rejections are exactly the commits that met a conflict. */
  ghost predicate Tallied(list: seq<Pick>, k: nat, b: Build)
    requires k <= |list|
  {
    && |b.outcomes| == k
    && (forall i :: 0 <= i < k && b.outcomes[i].Conflict? ==> list[i] in b.rejected)
    && (forall p :: p in b.rejected ==> exists i :: 0 <= i < k && b.outcomes[i].Conflict? && list[i] == p)
  }

  ghost predicate TalliedIfSound(list: seq<Pick>, k: nat, b: Build) {
    b.broken || (k <= |list| && Tallied(list, k, b))
  }

  lemma {:induction false} TallyStep(d: Dolt, list: seq<Pick>, k: nat, b: Build, name: Hash)
    requires k < |list| && Tallied(list, k, b) && !b.broken && Ready(d, b, list[k].hash, name)
    ensures Tallied(list, k + 1, Step(d, b, list[k], name))
  {
    var b' := Step(d, b, list[k], name);
    forall p | p in b'.rejected ensures exists i :: 0 <= i < k + 1 && b'.outcomes[i].Conflict? && list[i] == p {
      if p in b.rejected {
        var i :| 0 <= i < k && b.outcomes[i].Conflict? && list[i] == p;
        assert b'.outcomes[i].Conflict?;
      } else {
        assert b'.outcomes[k].Conflict?;
      }
    }
  }

  lemma {:induction false} RejectedAreConflicts(j: Job, k: nat)
    requires Playable(j) && k <= |j.list| && !ReplayTo(j, k).broken
    ensures Tallied(j.list, k, ReplayTo(j, k))
  {
    forall i: nat | i < k && TalliedIfSound(j.list, i, ReplayTo(j, i))
      ensures TalliedIfSound(j.list, i + 1, ReplayTo(j, i + 1))
    {
      ReplayGrows(j, i);
      if !ReplayTo(j, i + 1).broken {
        NotBrokenBefore(j, i + 1);
        TallyStep(j.d, j.list, i, ReplayTo(j, i), j.names(i));
      }
    }
    StartOf(j);
    FoldInduction(j, 0, k, (i: nat, b: Build) => TalliedIfSound(j.list, i, b));
  }

  // ---- what survives of the old history ----

  /** `x` lies below the base or below a commit that was folded without a conflict. */
  ghost predicate SupportedIn(j: Job, b: Build, x: Hash)
    requires Acyclic(j.g)
  {
    || x in Anc(j.g, j.base)
    || exists i: nat :: i < |j.list| && Survives(b, i) && x in Anc(j.g, j.list[i].hash)
  }

  ghost predicate Supported(j: Job, k: nat, x: Hash)
    requires Acyclic(j.g) && k <= |j.list|
  {
    SupportedIn(j, ReplayTo(j, k), x)
  }

  /** Where an ancestor of the new head comes from. */
  lemma {:induction false} StepSources(d: Dolt, b: Build, c: Pick, name: Hash, x: Hash)
    requires Ready(d, b, c.hash, name) && !b.broken && x != name
    requires Wf(Step(d, b, c, name).graph) && x in Anc(Step(d, b, c, name).graph, Step(d, b, c, name).head)
    ensures x in Anc(b.graph, b.head) || (x in Anc(b.graph, c.hash) && Survives(Step(d, b, c, name), |b.outcomes|))
  {
    StepShape(d, b, c, name);
    NewAncBound(b.graph, b.head, c.hash, name, Decide(d, b.graph, b.head, c.hash));
  }

  /** If the branch has `x`, then `x` is supported. */
  ghost predicate Justified(j: Job, k: nat, b: Build, x: Hash)
    requires Acyclic(j.g)
  {
    b.broken || (Wf(b.graph) && |b.outcomes| == k && (x in Anc(b.graph, b.head) ==> SupportedIn(j, b, x)))
  }

  lemma {:induction false} JustifiedStep(j: Job, k: nat, b: Build, x: Hash)
    requires Playable(j) && k < |j.list| && !b.broken && x in j.g && Extends(j.g, b.graph)
    requires Ready(j.d, b, j.list[k].hash, j.names(k)) && Justified(j, k, b, x)
    ensures Justified(j, k + 1, Step(j.d, b, j.list[k], j.names(k)), x)
  {
    var c, b' := j.list[k], Step(j.d, b, j.list[k], j.names(k));
    StepShape(j.d, b, c, j.names(k));
    if x in Anc(b'.graph, b'.head) {
      StepSources(j.d, b, c, j.names(k), x);
      AncAgrees(j.g, b.graph, c.hash);
    }
  }

  lemma {:induction false} JustifiedNext(j: Job, k: nat, x: Hash)
    requires Playable(j) && k < |j.list| && x in j.g && Justified(j, k, ReplayTo(j, k), x)
    ensures Justified(j, k + 1, ReplayTo(j, k + 1), x)
  {
    ReplayGrows(j, k);
    if !ReplayTo(j, k).broken {
      JustifiedStep(j, k, ReplayTo(j, k), x);
    }
  }

  /** Nothing else of the old history is kept. */
  lemma {:induction false} OldAncestorIsSupported(j: Job, k: nat, x: Hash)
    requires Playable(j) && k <= |j.list| && !ReplayTo(j, k).broken && x in j.g
    requires Wf(ReplayTo(j, k).graph) && x in Anc(ReplayTo(j, k).graph, ReplayTo(j, k).head)
    ensures Supported(j, k, x)
  {
    forall i: nat | i < k && Justified(j, i, ReplayTo(j, i), x) ensures Justified(j, i + 1, ReplayTo(j, i + 1), x) {
      JustifiedNext(j, i, x);
    }
    StartOf(j);
    FoldInduction(j, 0, k, (i: nat, b: Build) => Justified(j, i, b, x));
  }

  // ---- the count that a replay returns ----

  function CountAmended(os: seq<Outcome>): nat {
    if |os| == 0 then 0 else CountAmended(os[..|os| - 1]) + (if IsAmended(os[|os| - 1]) then 1 else 0)
  }

  ghost predicate Counts(b: Build) {
    b.merges == CountAmended(b.outcomes)
  }

  /** The returned count is the number of amended heads, merge commits or not. */
  lemma {:induction false} MergesAreAmendments(j: Job, k: nat)
    requires Playable(j) && k <= |j.list|
    ensures ReplayTo(j, k).merges == CountAmended(ReplayTo(j, k).outcomes)
  {
    forall i: nat | i < k && Counts(ReplayTo(j, i)) ensures Counts(ReplayTo(j, i + 1)) {
      ReplayGrows(j, i);
    }
    StartOf(j);
    FoldInduction(j, 0, k, (i: nat, b: Build) => Counts(b));
  }

}
