/** Two replays of the same list from the same base, by different peers at different times, reach the same database. */
module Convergence {
  import opened Hlc
  import opened Dag
  import opened Walk
  import opened Collect
  import opened Replay
  import opened History

  /** Builds that cannot be told apart except by the hashes made during the replay. `g1` and `g2` are the graphs the
      replays started from. */
  ghost predicate Alike(g1: Graph, g2: Graph, b1: Build, b2: Build) {
    && Wf(b1.graph) && Wf(b2.graph) && b1.head in b1.graph && b2.head in b2.graph
    && b1.outcomes == b2.outcomes && b1.rejected == b2.rejected && b1.merges == b2.merges && b1.broken == b2.broken
    && b1.graph[b1.head].root == b2.graph[b2.head].root
    && (b1.head in g1 <==> b2.head in g2)
    && (b1.head in g1 ==> b1.head == b2.head)
    && Anc(b1.graph, b1.head) * g1.Keys == Anc(b2.graph, b2.head) * g2.Keys
  }

  /** A commit known to both peers, seen from the two builds. */
  ghost predicate SameCommit(g1: Graph, g2: Graph, b1: Build, b2: Build, c: Hash) {
    && c in g1 && c in g2 && c in b1.graph && c in b2.graph
    && g1[c] == g2[c] == b1.graph[c] == b2.graph[c]
  }

  lemma {:induction false} SameAncestors(g1: Graph, g2: Graph, b1: Build, b2: Build, c: Hash)
    requires Wf(g1) && Wf(g2) && Agree(g1, g2) && c in g1 && c in g2
    requires Wf(b1.graph) && Wf(b2.graph) && Extends(g1, b1.graph) && Extends(g2, b2.graph)
    ensures SameCommit(g1, g2, b1, b2, c)
    ensures Anc(b1.graph, c) == Anc(b2.graph, c)
    ensures forall x :: x in Anc(b1.graph, c) ==> SameCommit(g1, g2, b1, b2, x)
  {
    AncAgrees(g1, g2, c);
    AncAgrees(g1, b1.graph, c);
    AncAgrees(g2, b2.graph, c);
  }

  lemma {:induction false} SameFirstParent(g1: Graph, g2: Graph, b1: Build, b2: Build, c: Hash)
    requires Wf(g1) && Alike(g1, g2, b1, b2) && SameCommit(g1, g2, b1, b2, c) && Wf(g2)
    ensures IsFirstParent(b1.graph, b1.head, c) <==> IsFirstParent(b2.graph, b2.head, c)
  {
    if |g1[c].parents| > 0 {
      assert g1[c].parents[0] in g1[c].parents && g2[c].parents[0] in g2[c].parents;
    }
  }

  /** The commits that a merge compares are the same for both. */
  lemma {:induction false} SameCommonAncestors(g1: Graph, g2: Graph, b1: Build, b2: Build, c: Hash)
    requires Alike(g1, g2, b1, b2) && SameCommit(g1, g2, b1, b2, c)
    requires Anc(b1.graph, c) == Anc(b2.graph, c)
    requires forall x :: x in Anc(b1.graph, c) ==> SameCommit(g1, g2, b1, b2, x)
    ensures c in Anc(b1.graph, b1.head) <==> c in Anc(b2.graph, b2.head)
    ensures b1.head in Anc(b1.graph, c) <==> b2.head in Anc(b2.graph, c)
    ensures Anc(b1.graph, b1.head) * Anc(b1.graph, c) == Anc(b2.graph, b2.head) * Anc(b2.graph, c)
  {
    forall x | x in g1 && x in g2 ensures x in Anc(b1.graph, b1.head) <==> x in Anc(b2.graph, b2.head) {
      assert x in Anc(b1.graph, b1.head) * g1.Keys <==> x in Anc(b2.graph, b2.head) * g2.Keys;
    }
  }

  lemma {:induction false} SameMerge(d: Dolt, g1: Graph, g2: Graph, b1: Build, b2: Build, c: Hash)
    requires Sane(d) && Alike(g1, g2, b1, b2) && SameCommit(g1, g2, b1, b2, c)
    requires Anc(b1.graph, c) == Anc(b2.graph, c)
    requires forall x :: x in Anc(b1.graph, c) ==> SameCommit(g1, g2, b1, b2, x)
    ensures DoltMerge(d, b1.graph, b1.head, c) == DoltMerge(d, b2.graph, b2.head, c)
  {
    SameCommonAncestors(g1, g2, b1, b2, c);
    var common := Anc(b1.graph, b1.head) * Anc(b1.graph, c);
    if common != {} {
      assert d.pick(common) in common;
      assert SameCommit(g1, g2, b1, b2, d.pick(common));
    }
  }

  lemma {:induction false} SameDecision(d: Dolt, g1: Graph, g2: Graph, b1: Build, b2: Build, c: Hash)
    requires Sane(d) && Wf(g1) && Wf(g2) && Agree(g1, g2) && c in g1 && c in g2
    requires Extends(g1, b1.graph) && Extends(g2, b2.graph) && Alike(g1, g2, b1, b2)
    ensures c in b1.graph && c in b2.graph
    ensures Decide(d, b1.graph, b1.head, c) == Decide(d, b2.graph, b2.head, c)
  {
    SameAncestors(g1, g2, b1, b2, c);
    SameFirstParent(g1, g2, b1, b2, c);
    SameMerge(d, g1, g2, b1, b2, c);
  }

  /** The old ancestors of the new heads are the same. */
  lemma {:induction false} SameNewAncestors(g1: Graph, g2: Graph, b1: Build, b2: Build, c: Hash, n1: Hash, n2: Hash,
                                            o: Outcome)
    requires Alike(g1, g2, b1, b2) && n1 !in g1 && n2 !in g2 && c in g1 && c in g2
    requires Anc(b1.graph, c) == Anc(b2.graph, c) && Anc(b1.graph, c) <= g1.Keys && Anc(b1.graph, c) <= g2.Keys
    ensures NewAnc(b1.graph, b1.head, c, n1, o) * g1.Keys == NewAnc(b2.graph, b2.head, c, n2, o) * g2.Keys
  {
    forall x
      ensures x in NewAnc(b1.graph, b1.head, c, n1, o) * g1.Keys <==> x in NewAnc(b2.graph, b2.head, c, n2, o) * g2.Keys
    {
      assert x in Anc(b1.graph, b1.head) * g1.Keys <==> x in Anc(b2.graph, b2.head) * g2.Keys;
    }
  }

  /** Everything but ancestry: the record of the step, and the root at the new head. */
  lemma {:induction false} SameRecord(d: Dolt, b1: Build, b2: Build, c: Pick, n1: Hash, n2: Hash)
    requires Ready(d, b1, c.hash, n1) && Ready(d, b2, c.hash, n2) && !b1.broken && !b2.broken
    requires b1.outcomes == b2.outcomes && b1.rejected == b2.rejected && b1.merges == b2.merges
    requires b1.graph[b1.head].root == b2.graph[b2.head].root && b1.graph[c.hash] == b2.graph[c.hash]
    requires Decide(d, b1.graph, b1.head, c.hash) == Decide(d, b2.graph, b2.head, c.hash)
    ensures var b1', b2' := Step(d, b1, c, n1), Step(d, b2, c, n2);
            && b1'.outcomes == b2'.outcomes && b1'.rejected == b2'.rejected
            && b1'.merges == b2'.merges && b1'.broken == b2'.broken
            && b1'.head in b1'.graph && b2'.head in b2'.graph
            && b1'.graph[b1'.head].root == b2'.graph[b2'.head].root
            && (|| (b1'.head == n1 && b2'.head == n2)
                || (b1'.head == b1.head && b2'.head == b2.head)
                || b1'.head == b2'.head == c.hash)
  {
  }

  lemma {:induction false} AlikeStep(d: Dolt, g1: Graph, g2: Graph, b1: Build, b2: Build, c: Pick, n1: Hash, n2: Hash)
    requires Wf(g1) && Wf(g2) && Agree(g1, g2) && c.hash in g1 && c.hash in g2 && n1 !in g1 && n2 !in g2
    requires Ready(d, b1, c.hash, n1) && Ready(d, b2, c.hash, n2)
    requires Extends(g1, b1.graph) && Extends(g2, b2.graph) && Alike(g1, g2, b1, b2)
    ensures Alike(g1, g2, Step(d, b1, c, n1), Step(d, b2, c, n2))
  {
    if !b1.broken {
      SameDecision(d, g1, g2, b1, b2, c.hash);
      SameAncestors(g1, g2, b1, b2, c.hash);
      SameRecord(d, b1, b2, c, n1, n2);
      StepShape(d, b1, c, n1);
      StepShape(d, b2, c, n2);
      SameNewAncestors(g1, g2, b1, b2, c.hash, n1, n2, Decide(d, b1.graph, b1.head, c.hash));
    }
  }

  /** Two peers about to replay the same list: their graphs agree on what both know, and their new hashes differ. */
  ghost predicate Counterparts(j1: Job, j2: Job) {
    && Playable(j1) && Playable(j2) && j1.d == j2.d && Agree(j1.g, j2.g) && j1.base == j2.base && j1.list == j2.list
  }

  lemma {:induction false} AlikeNext(j1: Job, j2: Job, k: nat)
    requires Counterparts(j1, j2) && k < |j1.list| && Alike(j1.g, j2.g, ReplayTo(j1, k), ReplayTo(j2, k))
    ensures Alike(j1.g, j2.g, ReplayTo(j1, k + 1), ReplayTo(j2, k + 1))
  {
    ReplayGrows(j1, k);
    ReplayGrows(j2, k);
    AlikeStep(j1.d, j1.g, j2.g, ReplayTo(j1, k), ReplayTo(j2, k), j1.list[k], j1.names(k), j2.names(k));
  }

  lemma {:induction false} AlikeAtStart(j1: Job, j2: Job)
    requires Counterparts(j1, j2)
    ensures Alike(j1.g, j2.g, ReplayTo(j1, 0), ReplayTo(j2, 0))
  {
    AncAgrees(j1.g, j2.g, j1.base);
  }

  /** The replays take the same branch at every step, drop the same commits, count the same merges, and at every step
      stand on the same root with the same old ancestors. */
  lemma {:induction false} ReplaysAreBisimilar(j1: Job, j2: Job, k: nat)
    requires Counterparts(j1, j2) && k <= |j1.list|
    ensures Alike(j1.g, j2.g, ReplayTo(j1, k), ReplayTo(j2, k))
  {
    if k == 0 {
      AlikeAtStart(j1, j2);
    } else {
      ReplaysAreBisimilar(j1, j2, k - 1);
      AlikeNext(j1, j2, k - 1);
    }
  }

  /** Convergence: peers with the same base, the same finalized base and the same commits to replay, whichever of them
      were local and whichever imported, replay the same list to the same database root and reject the same commits. */
  lemma {:induction false} PeersConverge(j1: Job, j2: Job, inputs1: set<Hash>, inputs2: set<Hash>,
                                         fb: Option<FinalizedBase>)
    requires Playable(j1) && Playable(j2) && j1.d == j2.d && Agree(j1.g, j2.g) && j1.base == j2.base
    requires CommitsOf(j1.g, inputs1) == CommitsOf(j2.g, inputs2)
    requires IsCollection(j1.list, CommitsOf(j1.g, inputs1), fb)
    requires IsCollection(j2.list, CommitsOf(j2.g, inputs2), fb)
    ensures j1.list == j2.list
    ensures var b1, b2 := Replayed(j1), Replayed(j2);
            && b1.head in b1.graph && b2.head in b2.graph
            && b1.graph[b1.head].root == b2.graph[b2.head].root
            && b1.rejected == b2.rejected && b1.merges == b2.merges && b1.broken == b2.broken
  {
    CollectionIsUnique(j1.list, j2.list, CommitsOf(j1.g, inputs1), fb);
    ReplaysAreBisimilar(j1, j2, |j1.list|);
  }
}
