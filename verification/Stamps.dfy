/** Which timestamps a replay loses. A merge that turns out to be a no-op is followed by an amend all the same, and the
    amend overwrites the timestamp that the head carried. */
module Stamps {
  import opened Hlc
  import opened Dag
  import opened Collect
  import opened Replay
  import opened History
  import opened Fate

  /** The timestamp is carried by a commit of the branch or was reported as rejected. */
  ghost predicate Accounted(g: Graph, head: Hash, rejected: seq<Pick>, t: Timestamp)
    requires Acyclic(g)
  {
    || (exists x :: x in Anc(g, head) && x in g && g[x].meta == Some(t))
    || (exists i :: 0 <= i < |rejected| && rejected[i].hlc == t)
  }

  /** A list as the collection makes it: each timestamp once, carried by its commit, and without the base. */
  ghost predicate Stamped(j: Job) {
    && Playable(j) && BaseUnlisted(j)
    && (forall i :: 0 <= i < |j.list| ==> j.g[j.list[i].hash].meta == Some(j.list[i].hlc))
    && (forall i, k :: 0 <= i < k < |j.list| ==> j.list[i].hlc != j.list[k].hlc)
  }

  lemma {:induction false} StampedIsDistinct(j: Job, i: nat, k: nat)
    requires Stamped(j) && i < |j.list| && k < |j.list|
    requires j.list[i].hash == j.list[k].hash || j.list[i].hlc == j.list[k].hlc
    ensures i == k
  {
    assert j.g[j.list[i].hash].meta == Some(j.list[i].hlc) && j.g[j.list[k].hash].meta == Some(j.list[k].hlc);
  }

  // ---- where heads and new commits come from ----

  /** A head out of the old history is the base or a commit already replayed, and has the base in its history. */
  ghost predicate OldHead(j: Job, k: nat, b: Build)
    requires Acyclic(b.graph) && k <= |j.list|
  {
    b.head in j.g ==>
      && j.base in Anc(b.graph, b.head)
      && (b.head == j.base || exists i :: 0 <= i < k && b.head == j.list[i].hash)
  }

  /** A new commit carries the timestamp of the step that made it. */
  ghost predicate NewStamps(j: Job, b: Build) {
    forall x :: x in b.graph && x !in j.g ==>
      exists i: nat :: i < |j.list| && x == j.names(i) && b.graph[x].meta == Some(j.list[i].hlc)
  }

  ghost predicate Origins(j: Job, k: nat, b: Build) {
    Wf(b.graph) && k <= |j.list| && OldHead(j, k, b) && NewStamps(j, b)
  }

  /** Only a head out of the old history is reset or fast-forwarded to a listed commit. */
  lemma {:induction false} AscentIsOld(d: Dolt, g: Graph, b: Build, c: Hash, name: Hash)
    requires Wf(g) && c in g && Extends(g, b.graph) && Ready(d, b, c, name)
    requires var o := Decide(d, b.graph, b.head, c); o.Reset? || o.FastForward?
    ensures b.head in g && b.head in Anc(g, c)
  {
    AncAgrees(g, b.graph, c);
    if Decide(d, b.graph, b.head, c).Reset? {
      FirstParentKeeps(b.graph, b.head, c);
      HeadIsAncestor(b.graph, b.head);
    }
  }

  lemma {:induction false} OldHeadStep(j: Job, k: nat, b: Build, name: Hash)
    requires Wf(j.g) && k < |j.list| && Ready(j.d, b, j.list[k].hash, name) && !b.broken && name !in j.g
    requires Extends(j.g, b.graph) && j.list[k].hash in j.g && OldHead(j, k, b)
    ensures var b' := Step(j.d, b, j.list[k], name); Wf(b'.graph) && OldHead(j, k + 1, b')
  {
    var c, o := j.list[k], Decide(j.d, b.graph, b.head, j.list[k].hash);
    StepShape(j.d, b, c, name);
    StepHead(j.d, b, c, name);
    if o.Reset? {
      AscentIsOld(j.d, j.g, b, c.hash, name);
      StepKeepsAncestors(j.d, b, c, name);
    }
  }

  lemma {:induction false} OriginsNext(j: Job, k: nat)
    requires Playable(j) && k < |j.list| && Origins(j, k, ReplayTo(j, k))
    ensures Origins(j, k + 1, ReplayTo(j, k + 1))
  {
    var b := ReplayTo(j, k);
    ReplayGrows(j, k);
    if !b.broken {
      OldHeadStep(j, k, b, j.names(k));
    }
  }

  lemma {:induction false} OriginsHold(j: Job, k: nat)
    requires Playable(j) && k <= |j.list|
    ensures Origins(j, k, ReplayTo(j, k))
  {
    forall i: nat | i < k && Origins(j, i, ReplayTo(j, i)) ensures Origins(j, i + 1, ReplayTo(j, i + 1)) {
      OriginsNext(j, i);
    }
    StartOf(j);
    HeadIsAncestor(j.g, j.base);
    FoldInduction(j, 0, k, (i: nat, b: Build) => Origins(j, i, b));
  }

  // ---- the timestamp of a listed commit ----

  /** Step `i` put its timestamp on the head only, and up to step `k` nothing has been folded since. */
  ghost predicate Pending(os: seq<Outcome>, i: nat, k: nat)
    requires i < k <= |os|
  {
    (os[i].Reset? || os[i].FastForward?) && forall m :: i < m < k ==> os[m].Conflict?
  }

  /** The first commit folded after step `i`, which had put its timestamp on the head only, was a no-op. */
  ghost predicate Overwritten(os: seq<Outcome>, i: nat, k: nat)
    requires k <= |os|
  {
    exists m :: i < m < k && Pending(os, i, m) && os[m].UpToDate?
  }

  lemma {:induction false} OverwrittenNext(os: seq<Outcome>, i: nat, o: Outcome)
    requires i < |os|
    ensures var k, os' := |os|, os + [o];
            && (Overwritten(os', i, k + 1) <==> Overwritten(os, i, k) || (Pending(os, i, k) && o.UpToDate?))
            && (Pending(os', i, k + 1) <==> Pending(os, i, k) && o.Conflict?)
            && os'[i] == os[i]
  {
    var k, os' := |os|, os + [o];
    assert forall m :: 0 <= m < k ==> os'[m] == os[m];
    forall m | i < m <= k ensures Pending(os', i, m) <==> Pending(os, i, m) {
    }
    if Overwritten(os, i, k) {
      var m :| i < m < k && Pending(os, i, m) && os[m].UpToDate?;
      assert Pending(os', i, m) && os'[m].UpToDate?;
    }
    if Pending(os, i, k) && o.UpToDate? {
      assert Pending(os', i, k) && os'[k].UpToDate?;
    }
    if Pending(os', i, k + 1) {
      assert os'[k].Conflict?;
    }
  }

  lemma {:induction false} OverwrittenFirst(os: seq<Outcome>, o: Outcome)
    ensures !Overwritten(os + [o], |os|, |os| + 1)
    ensures Pending(os + [o], |os|, |os| + 1) <==> o.Reset? || o.FastForward?
    ensures (os + [o])[|os|] == o
  {
  }

  /** The head carries the timestamp of step `i`, and neither the commit nor a copy of it is below the head. */
  ghost predicate Poised(j: Job, i: nat, b: Build)
    requires i < |j.list| && Acyclic(b.graph)
  {
    && b.head in b.graph && b.graph[b.head].meta == Some(j.list[i].hlc)
    && (b.head == j.list[i].hash || b.head == j.names(i))
    && (b.head == j.names(i) ==> j.list[i].hash !in Anc(b.graph, b.head))
    && (b.head == j.list[i].hash ==> j.names(i) !in Anc(b.graph, b.head))
  }

  /** Something properly below the head carries the timestamp. */
  ghost predicate Held(b: Build, t: Timestamp)
    requires Acyclic(b.graph)
  {
    exists x :: Below(b, x) && x in b.graph && b.graph[x].meta == Some(t)
  }

  /** `y` is an ancestor of the base or a proper ancestor of a commit that was folded. */
  ghost predicate Elsewhere(j: Job, b: Build, y: Hash)
    requires Acyclic(j.g)
  {
    || y in Anc(j.g, j.base)
    || exists m: nat :: m < |j.list| && Survives(b, m) && y in Anc(j.g, j.list[m].hash) && y != j.list[m].hash
  }

  /** The commit of step `i` and its copy have left the history, unless the commit came back below another one. */
  ghost predicate Gone(j: Job, i: nat, b: Build)
    requires i < |j.list| && Acyclic(b.graph) && Acyclic(j.g)
  {
    && j.names(i) !in Anc(b.graph, b.head)
    && (j.list[i].hash in Anc(b.graph, b.head) ==> Elsewhere(j, b, j.list[i].hash))
  }

  /** The state of the timestamp of step `i` after `k` steps, as the outcomes tell it. */
  ghost predicate Tracks(j: Job, i: nat, k: nat, b: Build)
    requires Acyclic(j.g)
  {
    && i < k <= |j.list| && Wf(b.graph) && |b.outcomes| == k
    && (Overwritten(b.outcomes, i, k) ==> Below(b, j.base) && Gone(j, i, b))
    && (Pending(b.outcomes, i, k) ==> Below(b, j.base) && Poised(j, i, b))
    && (!Overwritten(b.outcomes, i, k) && !Pending(b.outcomes, i, k) && !b.outcomes[i].Conflict? ==>
          Held(b, j.list[i].hlc))
  }

  lemma {:induction false} PoisedIsOverwritten(j: Job, i: nat, b: Build, c: Pick, name: Hash)
    requires i < |j.list| && Wf(j.g) && Ready(j.d, b, c.hash, name) && !b.broken && Poised(j, i, b)
    requires Decide(j.d, b.graph, b.head, c.hash).UpToDate? && name != j.names(i) && name != j.list[i].hash
    ensures var b' := Step(j.d, b, c, name); Wf(b'.graph) && Gone(j, i, b')
  {
    StepShape(j.d, b, c, name);
  }

  lemma {:induction false} PoisedGoesBelow(j: Job, i: nat, b: Build, c: Pick, name: Hash)
    requires i < |j.list| && Ready(j.d, b, c.hash, name) && !b.broken && Poised(j, i, b)
    requires var o := Decide(j.d, b.graph, b.head, c.hash); o.Reset? || o.FastForward? || o.Merged?
    ensures var b' := Step(j.d, b, c, name); Wf(b'.graph) && Held(b', j.list[i].hlc)
  {
    StepShape(j.d, b, c, name);
    HeadGoesBelow(j.d, b, c, name);
    var b' := Step(j.d, b, c, name);
    assert b'.graph[b.head] == b.graph[b.head];
  }

  lemma {:induction false} HeldStays(d: Dolt, b: Build, c: Pick, name: Hash, t: Timestamp)
    requires Ready(d, b, c.hash, name) && !b.broken && Held(b, t)
    ensures var b' := Step(d, b, c, name); Wf(b'.graph) && Held(b', t)
  {
    var x :| Below(b, x) && x in b.graph && b.graph[x].meta == Some(t);
    BelowStays(d, b, c, name, x);
    StepShape(d, b, c, name);
    assert Step(d, b, c, name).graph[x] == b.graph[x];
  }

  lemma {:induction false} GoneStays(j: Job, i: nat, k: nat, b: Build)
    requires Stamped(j) && i < k < |j.list| && |b.outcomes| == k && !b.broken
    requires Ready(j.d, b, j.list[k].hash, j.names(k)) && Extends(j.g, b.graph) && Gone(j, i, b)
    ensures var b' := Step(j.d, b, j.list[k], j.names(k)); Wf(b'.graph) && Gone(j, i, b')
  {
    var c, name := j.list[k], j.names(k);
    var b' := Step(j.d, b, c, name);
    StepShape(j.d, b, c, name);
    AncAgrees(j.g, b.graph, c.hash);
    if j.names(i) in Anc(b'.graph, b'.head) {
      StepSources(j.d, b, c, name, j.names(i));
    }
    if j.list[i].hash in Anc(b'.graph, b'.head) {
      StepSources(j.d, b, c, name, j.list[i].hash);
      if j.list[i].hash == c.hash {
        StampedIsDistinct(j, i, k);
      }
    }
  }

  lemma {:induction false} PoisedStep(j: Job, i: nat, k: nat, b: Build)
    requires Stamped(j) && i < k < |j.list| && |b.outcomes| == k && !b.broken && Pending(b.outcomes, i, k)
    requires Ready(j.d, b, j.list[k].hash, j.names(k)) && Wf(b.graph) && Below(b, j.base) && Poised(j, i, b)
    requires !Decide(j.d, b.graph, b.head, j.list[k].hash).Broken?
    ensures var o, b' := Decide(j.d, b.graph, b.head, j.list[k].hash), Step(j.d, b, j.list[k], j.names(k));
            && Wf(b'.graph) && Below(b', j.base)
            && (o.Conflict? ==> Poised(j, i, b'))
            && (o.UpToDate? ==> Gone(j, i, b'))
            && (!o.Conflict? && !o.UpToDate? ==> Held(b', j.list[i].hlc))
  {
    var c, name := j.list[k], j.names(k);
    var o := Decide(j.d, b.graph, b.head, c.hash);
    BelowStays(j.d, b, c, name, j.base);
    if o.Conflict? {
      StepHead(j.d, b, c, name);
    } else if o.UpToDate? {
      PoisedIsOverwritten(j, i, b, c, name);
    } else {
      PoisedGoesBelow(j, i, b, c, name);
    }
  }

  lemma {:induction false} TracksStep(j: Job, i: nat, k: nat, b: Build)
    requires Stamped(j) && i < k < |j.list| && !b.broken && Tracks(j, i, k, b)
    requires Ready(j.d, b, j.list[k].hash, j.names(k)) && Extends(j.g, b.graph)
    requires !Decide(j.d, b.graph, b.head, j.list[k].hash).Broken?
    ensures Tracks(j, i, k + 1, Step(j.d, b, j.list[k], j.names(k)))
  {
    var c, name := j.list[k], j.names(k);
    StepOutcome(j.d, b, c, name);
    StepShape(j.d, b, c, name);
    OverwrittenNext(b.outcomes, i, Decide(j.d, b.graph, b.head, c.hash));
    if Overwritten(b.outcomes, i, k) {
      BelowStays(j.d, b, c, name, j.base);
      GoneStays(j, i, k, b);
    } else if Pending(b.outcomes, i, k) {
      PoisedStep(j, i, k, b);
    } else if !b.outcomes[i].Conflict? {
      HeldStays(j.d, b, c, name, j.list[i].hlc);
    }
  }

  /** A reset or a fast-forward puts the timestamp on the head, over the base. */
  lemma {:induction false} AscentPoises(j: Job, i: nat, b: Build)
    requires Stamped(j) && i < |j.list| && !b.broken && Extends(j.g, b.graph)
    requires Ready(j.d, b, j.list[i].hash, j.names(i)) && OldHead(j, i, b)
    requires var o := Decide(j.d, b.graph, b.head, j.list[i].hash); o.Reset? || o.FastForward?
    ensures var b' := Step(j.d, b, j.list[i], j.names(i)); Wf(b'.graph) && Below(b', j.base) && Poised(j, i, b')
  {
    var c, name := j.list[i], j.names(i);
    AscentIsOld(j.d, j.g, b, c.hash, name);
    StepShape(j.d, b, c, name);
    StepHead(j.d, b, c, name);
    StepKeepsAncestors(j.d, b, c, name);
    ReachIsPresent(b.graph, "", c.hash);
  }

  /** A merge puts the commit itself below the head, and so does a no-op. */
  lemma {:induction false} MergeHolds(j: Job, i: nat, b: Build)
    requires Stamped(j) && i < |j.list| && !b.broken && Extends(j.g, b.graph)
    requires Ready(j.d, b, j.list[i].hash, j.names(i)) && OldHead(j, i, b)
    requires var o := Decide(j.d, b.graph, b.head, j.list[i].hash); o.Merged? || o.UpToDate?
    ensures var b' := Step(j.d, b, j.list[i], j.names(i)); Wf(b'.graph) && Held(b', j.list[i].hlc)
  {
    var c, name := j.list[i], j.names(i);
    var b' := Step(j.d, b, c, name);
    StepShape(j.d, b, c, name);
    StepHead(j.d, b, c, name);
    HeadIsAncestor(b.graph, c.hash);
    if Decide(j.d, b.graph, b.head, c.hash).UpToDate? {
      UpToDateIff(j.d, b.graph, b.head, c.hash);
    }
    assert Below(b', c.hash) && b'.graph[c.hash].meta == Some(c.hlc);
  }

  lemma {:induction false} TracksFirst(j: Job, i: nat, b: Build)
    requires Stamped(j) && i < |j.list| && !b.broken && |b.outcomes| == i && Extends(j.g, b.graph)
    requires Ready(j.d, b, j.list[i].hash, j.names(i)) && OldHead(j, i, b)
    requires !Decide(j.d, b.graph, b.head, j.list[i].hash).Broken?
    ensures Tracks(j, i, i + 1, Step(j.d, b, j.list[i], j.names(i)))
  {
    var o := Decide(j.d, b.graph, b.head, j.list[i].hash);
    StepOutcome(j.d, b, j.list[i], j.names(i));
    StepShape(j.d, b, j.list[i], j.names(i));
    OverwrittenFirst(b.outcomes, o);
    if o.Reset? || o.FastForward? {
      AscentPoises(j, i, b);
    } else if !o.Conflict? {
      MergeHolds(j, i, b);
    }
  }

  /** `Tracks`, for a fold that has not stopped. */
  ghost predicate Tracked(j: Job, i: nat, k: nat, b: Build)
    requires Acyclic(j.g)
  {
    b.broken || Tracks(j, i, k, b)
  }

  lemma {:induction false} TrackedFirst(j: Job, i: nat)
    requires Stamped(j) && i < |j.list| && !ReplayTo(j, i + 1).broken
    ensures Tracks(j, i, i + 1, ReplayTo(j, i + 1))
  {
    OutcomeAt(j, i, i + 1);
    OriginsHold(j, i);
    TracksFirst(j, i, ReplayTo(j, i));
  }

  lemma {:induction false} TrackedNext(j: Job, i: nat, k: nat)
    requires Stamped(j) && i < k < |j.list| && Tracks(j, i, k, ReplayTo(j, k)) && !ReplayTo(j, k + 1).broken
    ensures Tracks(j, i, k + 1, ReplayTo(j, k + 1))
  {
    OutcomeAt(j, k, k + 1);
    TracksStep(j, i, k, ReplayTo(j, k));
  }

  lemma {:induction false} TracksHold(j: Job, i: nat, n: nat)
    requires Stamped(j) && i < n <= |j.list|
    ensures Tracked(j, i, n, ReplayTo(j, n))
  {
    forall k: nat | i + 1 <= k < n && Tracked(j, i, k, ReplayTo(j, k))
      ensures Tracked(j, i, k + 1, ReplayTo(j, k + 1))
    {
      if !ReplayTo(j, k + 1).broken {
        NotBrokenBefore(j, k + 1);
        TrackedNext(j, i, k);
      }
    }
    if !ReplayTo(j, i + 1).broken {
      TrackedFirst(j, i);
    }
    FoldInduction(j, i + 1, n, (k: nat, b: Build) => Tracked(j, i, k, b));
  }

  /** Another commit with the timestamp of step `i` is an ancestor of the base or properly below a folded commit. */
  ghost predicate OtherCarrier(j: Job, i: nat, b: Build)
    requires Acyclic(j.g) && i < |j.list|
  {
    exists y :: y in j.g && j.g[y].meta == Some(j.list[i].hlc) && Elsewhere(j, b, y)
  }

  ghost predicate HasStamp(b: Build, t: Timestamp)
    requires Acyclic(b.graph)
  {
    exists x :: x in Anc(b.graph, b.head) && x in b.graph && b.graph[x].meta == Some(t)
  }

  lemma {:induction false} PresentCarries(b: Build, x: Hash, t: Timestamp)
    requires Acyclic(b.graph) && x in Anc(b.graph, b.head) && x in b.graph && b.graph[x].meta == Some(t)
    ensures HasStamp(b, t)
  {
  }

  /** What is found elsewhere is in the new history, provided the base is. */
  lemma {:induction false} ElsewhereIsKept(j: Job, y: Hash)
    requires Playable(j) && !Replayed(j).broken && y in j.g && Elsewhere(j, Replayed(j), y)
    requires Wf(Replayed(j).graph) && (y == j.base ==> Below(Replayed(j), j.base))
    ensures Below(Replayed(j), y)
  {
    if y in Anc(j.g, j.base) {
      if y != j.base {
        BaseAncestorIsKept(j, |j.list|, y);
      }
    } else {
      var m: nat :| m < |j.list| && Survives(Replayed(j), m) && y in Anc(j.g, j.list[m].hash) && y != j.list[m].hash;
      FoldedAncestorIsKept(j, m, |j.list|, y);
    }
  }

  /** An old commit of the new history that carries the timestamp of step `i` is found elsewhere or is its commit. */
  lemma {:induction false} OldCarrier(j: Job, i: nat, x: Hash)
    requires Stamped(j) && i < |j.list| && !Replayed(j).broken && x in j.g && j.g[x].meta == Some(j.list[i].hlc)
    requires Wf(Replayed(j).graph) && x in Anc(Replayed(j).graph, Replayed(j).head)
    ensures x == j.list[i].hash || Elsewhere(j, Replayed(j), x)
  {
    var n := |j.list|;
    OldAncestorIsSupported(j, n, x);
    if x !in Anc(j.g, j.base) {
      var m: nat :| m < n && Survives(Replayed(j), m) && x in Anc(j.g, j.list[m].hash);
      if x == j.list[m].hash {
        StampedIsDistinct(j, i, m);
      }
    }
  }

  /** A new commit that carries the timestamp of step `i` was made by step `i`. */
  lemma {:induction false} NewCarrier(j: Job, i: nat, x: Hash)
    requires Stamped(j) && i < |j.list| && x in Replayed(j).graph && x !in j.g
    requires Replayed(j).graph[x].meta == Some(j.list[i].hlc)
    ensures x == j.names(i)
  {
    OriginsHold(j, |j.list|);
    var m: nat :| m < |j.list| && x == j.names(m) && Replayed(j).graph[x].meta == Some(j.list[m].hlc);
    StampedIsDistinct(j, i, m);
  }

  lemma {:induction false} OverwrittenCarriesIff(j: Job, i: nat)
    requires Stamped(j) && i < |j.list| && !Replayed(j).broken
    requires Grown(j.g, j.names, |j.list|, Replayed(j)) && Below(Replayed(j), j.base) && Gone(j, i, Replayed(j))
    ensures HasStamp(Replayed(j), j.list[i].hlc) <==> OtherCarrier(j, i, Replayed(j))
  {
    var b, t := Replayed(j), j.list[i].hlc;
    if HasStamp(b, t) {
      var x :| x in Anc(b.graph, b.head) && x in b.graph && b.graph[x].meta == Some(t);
      if x in j.g {
        OldCarrier(j, i, x);
      } else {
        NewCarrier(j, i, x);
      }
      assert x in j.g && Elsewhere(j, b, x);
    }
    if OtherCarrier(j, i, b) {
      var y :| y in j.g && j.g[y].meta == Some(t) && Elsewhere(j, b, y);
      ElsewhereIsKept(j, y);
      PresentCarries(b, y, t);
    }
  }

  lemma {:induction false} RejectedIff(j: Job, i: nat)
    requires Stamped(j) && i < |j.list| && !Replayed(j).broken
    ensures |Replayed(j).outcomes| == |j.list|
    ensures (exists m :: 0 <= m < |Replayed(j).rejected| && Replayed(j).rejected[m].hlc == j.list[i].hlc)
            <==> Replayed(j).outcomes[i].Conflict?
  {
    var b := Replayed(j);
    RejectedAreConflicts(j, |j.list|);
    if m :| 0 <= m < |b.rejected| && b.rejected[m].hlc == j.list[i].hlc {
      assert b.rejected[m] in b.rejected;
      var k: nat :| k < |j.list| && b.outcomes[k].Conflict? && j.list[k] == b.rejected[m];
      StampedIsDistinct(j, i, k);
    }
    if b.outcomes[i].Conflict? {
      assert j.list[i] in b.rejected;
    }
  }

  /** Exactly when a replay accounts for the timestamp of a listed commit, by its outcomes: unless its fold put the
      timestamp on the head only, the next fold was a no-op, and no other commit of the new history carries it. */
  lemma {:induction false} StampAccountedIff(j: Job, i: nat)
    requires Stamped(j) && i < |j.list| && !Replayed(j).broken
    ensures Wf(Replayed(j).graph) && |Replayed(j).outcomes| == |j.list|
    ensures Accounted(Replayed(j).graph, Replayed(j).head, Replayed(j).rejected, j.list[i].hlc)
            <==> !Overwritten(Replayed(j).outcomes, i, |j.list|) || OtherCarrier(j, i, Replayed(j))
  {
    var b := Replayed(j);
    ReplayGrows(j, |j.list|);
    TracksHold(j, i, |j.list|);
    RejectedIff(j, i);
    assert Accounted(b.graph, b.head, b.rejected, j.list[i].hlc)
        <==> HasStamp(b, j.list[i].hlc) || b.outcomes[i].Conflict?;
    if Overwritten(b.outcomes, i, |j.list|) {
      OverwrittenCarriesIff(j, i);
    }
  }

  // ---- the timestamp of the base ----

  /** The first commit folded was a no-op. */
  ghost predicate BaseOverwritten(os: seq<Outcome>, k: nat)
    requires k <= |os|
  {
    exists m :: 0 <= m < k && BasePending(os, m) && os[m].UpToDate?
  }

  /** Nothing has been folded yet. */
  ghost predicate BasePending(os: seq<Outcome>, k: nat)
    requires k <= |os|
  {
    forall m :: 0 <= m < k ==> os[m].Conflict?
  }

  lemma {:induction false} BaseOverwrittenNext(os: seq<Outcome>, o: Outcome)
    ensures var k, os' := |os|, os + [o];
            && (BaseOverwritten(os', k + 1) <==> BaseOverwritten(os, k) || (BasePending(os, k) && o.UpToDate?))
            && (BasePending(os', k + 1) <==> BasePending(os, k) && o.Conflict?)
  {
    var k, os' := |os|, os + [o];
    assert forall m :: 0 <= m < k ==> os'[m] == os[m];
    forall m | 0 <= m <= k ensures BasePending(os', m) <==> BasePending(os, m) {
    }
    if BaseOverwritten(os, k) {
      var m :| 0 <= m < k && BasePending(os, m) && os[m].UpToDate?;
      assert BasePending(os', m) && os'[m].UpToDate?;
    }
    if BasePending(os, k) && o.UpToDate? {
      assert BasePending(os', k) && os'[k].UpToDate?;
    }
    if BasePending(os', k + 1) {
      assert os'[k].Conflict?;
    }
  }

  /** `y` is an ancestor of a commit that was folded. */
  ghost predicate BelowFolded(j: Job, b: Build, y: Hash)
    requires Acyclic(j.g)
  {
    exists m: nat :: m < |j.list| && Survives(b, m) && y in Anc(j.g, j.list[m].hash)
  }

  ghost predicate BaseTracks(j: Job, k: nat, b: Build)
    requires Acyclic(j.g)
  {
    && k <= |j.list| && Wf(b.graph) && |b.outcomes| == k
    && (BaseOverwritten(b.outcomes, k) ==> (j.base in Anc(b.graph, b.head) ==> BelowFolded(j, b, j.base)))
    && (BasePending(b.outcomes, k) ==> b.head == j.base)
    && (!BaseOverwritten(b.outcomes, k) && !BasePending(b.outcomes, k) ==> Below(b, j.base))
  }

  lemma {:induction false} BaseComesBack(j: Job, k: nat, b: Build)
    requires Playable(j) && k < |j.list| && |b.outcomes| == k && !b.broken && Extends(j.g, b.graph)
    requires Ready(j.d, b, j.list[k].hash, j.names(k))
    requires j.base in Anc(b.graph, b.head) ==> BelowFolded(j, b, j.base)
    ensures var b' := Step(j.d, b, j.list[k], j.names(k));
            Wf(b'.graph) && (j.base in Anc(b'.graph, b'.head) ==> BelowFolded(j, b', j.base))
  {
    var c, name := j.list[k], j.names(k);
    var b' := Step(j.d, b, c, name);
    StepShape(j.d, b, c, name);
    AncAgrees(j.g, b.graph, c.hash);
    if j.base in Anc(b'.graph, b'.head) {
      StepSources(j.d, b, c, name, j.base);
      if j.base in Anc(b.graph, b.head) {
        var m: nat :| m < |j.list| && Survives(b, m) && j.base in Anc(j.g, j.list[m].hash);
        assert Survives(b', m);
      }
    }
  }

  lemma {:induction false} BaseIsFirst(j: Job, k: nat, b: Build)
    requires Playable(j) && k < |j.list| && !b.broken && b.head == j.base && Ready(j.d, b, j.list[k].hash, j.names(k))
    requires !Decide(j.d, b.graph, b.head, j.list[k].hash).Broken?
    ensures var o, b' := Decide(j.d, b.graph, b.head, j.list[k].hash), Step(j.d, b, j.list[k], j.names(k));
            && Wf(b'.graph)
            && (o.Conflict? ==> b'.head == j.base)
            && (o.UpToDate? ==> j.base !in Anc(b'.graph, b'.head))
            && (!o.Conflict? && !o.UpToDate? ==> Below(b', j.base))
  {
    var c, name := j.list[k], j.names(k);
    var o := Decide(j.d, b.graph, b.head, c.hash);
    StepShape(j.d, b, c, name);
    StepHead(j.d, b, c, name);
    if !o.Conflict? && !o.UpToDate? {
      HeadGoesBelow(j.d, b, c, name);
    }
  }

  lemma {:induction false} BaseTracksStep(j: Job, k: nat, b: Build)
    requires Playable(j) && k < |j.list| && !b.broken && BaseTracks(j, k, b) && Extends(j.g, b.graph)
    requires Ready(j.d, b, j.list[k].hash, j.names(k)) && !Decide(j.d, b.graph, b.head, j.list[k].hash).Broken?
    ensures BaseTracks(j, k + 1, Step(j.d, b, j.list[k], j.names(k)))
  {
    var c, name := j.list[k], j.names(k);
    StepOutcome(j.d, b, c, name);
    BaseOverwrittenNext(b.outcomes, Decide(j.d, b.graph, b.head, c.hash));
    if BaseOverwritten(b.outcomes, k) {
      BaseComesBack(j, k, b);
    } else if BasePending(b.outcomes, k) {
      BaseIsFirst(j, k, b);
    } else {
      BelowStays(j.d, b, c, name, j.base);
    }
  }

  ghost predicate BaseTracked(j: Job, k: nat, b: Build)
    requires Acyclic(j.g)
  {
    b.broken || BaseTracks(j, k, b)
  }

  lemma {:induction false} BaseTrackedNext(j: Job, k: nat)
    requires Playable(j) && k < |j.list| && BaseTracked(j, k, ReplayTo(j, k))
    ensures BaseTracked(j, k + 1, ReplayTo(j, k + 1))
  {
    if !ReplayTo(j, k + 1).broken {
      OutcomeAt(j, k, k + 1);
      BaseTracksStep(j, k, ReplayTo(j, k));
    }
  }

  lemma {:induction false} BaseTracksHold(j: Job, n: nat)
    requires Playable(j) && n <= |j.list|
    ensures BaseTracked(j, n, ReplayTo(j, n))
  {
    forall k: nat | k < n && BaseTracked(j, k, ReplayTo(j, k)) ensures BaseTracked(j, k + 1, ReplayTo(j, k + 1)) {
      BaseTrackedNext(j, k);
    }
    StartOf(j);
    FoldInduction(j, 0, n, (k: nat, b: Build) => BaseTracked(j, k, b));
  }

  ghost predicate ListsStamp(j: Job, t: Timestamp) {
    exists m: nat :: m < |j.list| && j.list[m].hlc == t
  }

  ghost predicate BelowBase(j: Job, y: Hash)
    requires Acyclic(j.g)
  {
    y in Anc(j.g, j.base) && y != j.base
  }

  /** The list has the timestamp, or a commit that carries it is properly below the base or below a folded commit. */
  ghost predicate BaseCarrier(j: Job, t: Timestamp, b: Build)
    requires Acyclic(j.g)
  {
    || ListsStamp(j, t)
    || exists y :: y in j.g && j.g[y].meta == Some(t) && (BelowBase(j, y) || BelowFolded(j, b, y))
  }

  /** A listed timestamp that the base carries too is accounted for. */
  lemma {:induction false} SharedStampIsAccounted(j: Job, m: nat, t: Timestamp)
    requires Stamped(j) && !Replayed(j).broken && m < |j.list| && j.list[m].hlc == t && j.g[j.base].meta == Some(t)
    ensures Wf(Replayed(j).graph)
    ensures Accounted(Replayed(j).graph, Replayed(j).head, Replayed(j).rejected, t)
  {
    StampAccountedIff(j, m);
    HeadIsAncestor(j.g, j.base);
    assert Elsewhere(j, Replayed(j), j.base);
  }

  lemma {:induction false} BaseCarrierIsKept(j: Job, t: Timestamp)
    requires Stamped(j) && !Replayed(j).broken && j.g[j.base].meta == Some(t) && BaseCarrier(j, t, Replayed(j))
    ensures Wf(Replayed(j).graph)
    ensures Accounted(Replayed(j).graph, Replayed(j).head, Replayed(j).rejected, t)
  {
    var n, b := |j.list|, Replayed(j);
    ReplayGrows(j, n);
    if ListsStamp(j, t) {
      var m: nat :| m < n && j.list[m].hlc == t;
      SharedStampIsAccounted(j, m, t);
    } else {
      var y :| y in j.g && j.g[y].meta == Some(t) && (BelowBase(j, y) || BelowFolded(j, b, y));
      if BelowBase(j, y) {
        BaseAncestorIsKept(j, n, y);
      } else {
        var m: nat :| m < n && Survives(b, m) && y in Anc(j.g, j.list[m].hash);
        assert j.list[m].hlc != t;
        FoldedAncestorIsKept(j, m, n, y);
      }
      PresentCarries(b, y, t);
    }
  }

  /** Where a commit of the new history that carries a timestamp not listed comes from. */
  lemma {:induction false} UnlistedCarrier(j: Job, t: Timestamp, x: Hash)
    requires Stamped(j) && !Replayed(j).broken && !ListsStamp(j, t) && Wf(Replayed(j).graph)
    requires x in Anc(Replayed(j).graph, Replayed(j).head) && x in Replayed(j).graph
    requires Replayed(j).graph[x].meta == Some(t)
    ensures x in j.g && (x in Anc(j.g, j.base) || BelowFolded(j, Replayed(j), x))
  {
    OriginsHold(j, |j.list|);
    OldAncestorOf(j, x);
  }

  lemma {:induction false} OldAncestorOf(j: Job, x: Hash)
    requires Playable(j) && !Replayed(j).broken && Wf(Replayed(j).graph)
    ensures x in j.g && x in Anc(Replayed(j).graph, Replayed(j).head) ==>
              x in Anc(j.g, j.base) || BelowFolded(j, Replayed(j), x)
  {
    if x in j.g && x in Anc(Replayed(j).graph, Replayed(j).head) {
      OldAncestorIsSupported(j, |j.list|, x);
    }
  }

  /** Exactly when a replay accounts for the timestamp of its base. */
  lemma {:induction false} BaseStampAccountedIff(j: Job, t: Timestamp)
    requires Stamped(j) && !Replayed(j).broken && j.g[j.base].meta == Some(t)
    ensures Wf(Replayed(j).graph) && |Replayed(j).outcomes| == |j.list|
    ensures Accounted(Replayed(j).graph, Replayed(j).head, Replayed(j).rejected, t)
            <==> !BaseOverwritten(Replayed(j).outcomes, |j.list|) || BaseCarrier(j, t, Replayed(j))
  {
    var n, b := |j.list|, Replayed(j);
    ReplayGrows(j, n);
    BaseTracksHold(j, n);
    if BaseCarrier(j, t, b) {
      BaseCarrierIsKept(j, t);
    } else if BaseOverwritten(b.outcomes, n) {
      BaseStampIsLost(j, t);
    } else {
      HeadIsAncestor(b.graph, b.head);
      PresentCarries(b, j.base, t);
    }
  }

  lemma {:induction false} BaseStampIsLost(j: Job, t: Timestamp)
    requires Stamped(j) && !Replayed(j).broken && j.g[j.base].meta == Some(t) && !BaseCarrier(j, t, Replayed(j))
    requires BaseTracks(j, |j.list|, Replayed(j)) && BaseOverwritten(Replayed(j).outcomes, |j.list|)
    ensures !Accounted(Replayed(j).graph, Replayed(j).head, Replayed(j).rejected, t)
  {
    var b := Replayed(j);
    RejectedAreConflicts(j, |j.list|);
    forall m | 0 <= m < |b.rejected| ensures b.rejected[m].hlc != t {
      assert b.rejected[m] in b.rejected;
    }
    forall x | x in Anc(b.graph, b.head) && x in b.graph ensures b.graph[x].meta != Some(t) {
      if b.graph[x].meta == Some(t) {
        UnlistedCarrier(j, t, x);
        ReplayGrows(j, |j.list|);
      }
    }
  }
}
