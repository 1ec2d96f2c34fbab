/** Reconciler.ReplayImportedCommits: rebuilding a branch from a base by folding the collected commits onto it, then
    moving main there if main has not moved meanwhile. */
module Replay {
  import opened Hlc
  import opened Dag
  import opened Walk
  import opened Sorting
  import opened Collect

  /** What this model does not look into: Dolt's choice of a merge base among the common ancestors, and its three-way
      merge of root values (base, ours, theirs), which yields a root or a conflict. */
  datatype Dolt = Dolt(pick: set<Hash> -> Hash, merge: (int, int, int) -> Option<int>)

  ghost predicate Sane(d: Dolt) {
    forall s: set<Hash> :: s != {} ==> d.pick(s) in s
  }

  /** One step of the fold. `Broken` is a merge that fails without a conflict: the histories are unrelated. */
  datatype Outcome = Reset | UpToDate | FastForward | Merged(root: int) | Conflict | Broken

  /** DOLT_MERGE of commit `c` into a branch at `head`. */
  function DoltMerge(d: Dolt, g: Graph, head: Hash, c: Hash): Outcome
    requires Sane(d) && Wf(g) && head in g && c in g
  {
    if c in Anc(g, head) then UpToDate
    else if head in Anc(g, c) then FastForward
    else
      var common := Anc(g, head) * Anc(g, c);
      if common == {} then Broken
      else
        ReachIsPresent(g, "", head);
        match d.merge(g[d.pick(common)].root, g[head].root, g[c].root)
        case None => Conflict
        case Some(root) => Merged(root)
  }

  predicate IsFirstParent(g: Graph, head: Hash, c: Hash)
    requires c in g
  {
    |g[c].parents| > 0 && g[c].parents[0] == head
  }

  function Decide(d: Dolt, g: Graph, head: Hash, c: Hash): Outcome
    requires Sane(d) && Wf(g) && head in g && c in g
  {
    if IsFirstParent(g, head, c) then Reset else DoltMerge(d, g, head, c)
  }

  /** The amend that follows every merge without a conflict rewrites the message of the head. */
  function Amended(n: Vertex, hlc: Timestamp): Vertex {
    n.(meta := Some(hlc))
  }

  function MergeVertex(g: Graph, head: Hash, c: Hash, root: int, hlc: Timestamp): Vertex
    requires head in g && c in g
  {
    Vertex([head, c], root, Some(hlc), 1 + Max(g[head].height, g[c].height))
  }

  /** The temporary branch while it is being built. */
  datatype Build = Build(graph: Graph, head: Hash, rejected: seq<Pick>, merges: nat, outcomes: seq<Outcome>,
    broken: bool)

  function Start(g: Graph, base: Hash): Build {
    Build(g, base, [], 0, [], false)
  }

  /** The commit can be folded onto the branch and `name` is unused. */
  ghost predicate Ready(d: Dolt, b: Build, c: Hash, name: Hash) {
    Sane(d) && Wf(b.graph) && b.head in b.graph && c in b.graph && name !in b.graph && name != ""
  }

  /** The node that the amend leaves at the head, for the three outcomes that are amended. */
  function AmendedHead(g: Graph, head: Hash, c: Pick, o: Outcome): Vertex
    requires head in g && c.hash in g && (o.UpToDate? || o.FastForward? || o.Merged?)
  {
    match o
    case UpToDate => Amended(g[head], c.hlc)
    case FastForward => Amended(g[c.hash], c.hlc)
    case Merged(root) => MergeVertex(g, head, c.hash, root, c.hlc)
  }

  /** Folds one commit onto the branch; an amended commit gets the new hash `name`. */
  ghost function Step(d: Dolt, b: Build, c: Pick, name: Hash): Build {
    if b.broken || !Ready(d, b, c.hash, name) then b
    else
      var o := Decide(d, b.graph, b.head, c.hash);
      var b1 := b.(outcomes := b.outcomes + [o]);
      match o
      case Reset => b1.(head := c.hash)
      case Conflict => b1.(rejected := b.rejected + [c])
      case Broken => b1.(broken := true)
      case _ => b1.(graph := b.graph[name := AmendedHead(b.graph, b.head, c, o)], head := name, merges := b.merges + 1)
  }

  /** What a step reported as rejected. */
  ghost function Dropped(b: Build, b': Build, c: Pick): seq<Pick> {
    if |b'.rejected| > |b.rejected| then [c] else []
  }

  /** An unlimited supply of hashes that collide with nothing in the graph. */
  ghost predicate FreshNames(g: Graph, names: nat -> Hash) {
    && (forall i: nat :: names(i) !in g && names(i) != "")
    && (forall i: nat, j: nat :: i != j ==> names(i) != names(j))
  }

  /** A replay of `list` onto `base` in the graph `g`; amended commits take their hashes from `names`. */
  datatype Job = Job(d: Dolt, g: Graph, base: Hash, list: seq<Pick>, names: nat -> Hash)

  ghost predicate Playable(j: Job) {
    && Sane(j.d) && Wf(j.g) && j.base in j.g
    && (forall i :: 0 <= i < |j.list| ==> j.list[i].hash in j.g)
    && FreshNames(j.g, j.names)
  }

  /** What holds of every build: a well-formed graph that extends `g` by some of the first `k` new names. */
  ghost predicate Grown(g: Graph, names: nat -> Hash, k: nat, b: Build) {
    && Wf(b.graph) && b.head in b.graph && Extends(g, b.graph)
    && (forall i: nat :: i >= k ==> names(i) !in b.graph)
  }

  lemma {:induction false} StepGrows(d: Dolt, g: Graph, names: nat -> Hash, k: nat, b: Build, c: Pick)
    requires Sane(d) && FreshNames(g, names) && Grown(g, names, k, b) && c.hash in g
    ensures Ready(d, b, c.hash, names(k))
    ensures Grown(g, names, k + 1, Step(d, b, c, names(k)))
  {
    var b' := Step(d, b, c, names(k));
    if b'.graph != b.graph {
      AddCommit(b.graph, names(k), b'.graph[names(k)]);
    }
  }

  /** The build after the first `k` commits of the list. */
  /** The step put the commit `v` under the hash `name` on the branch. */
  ghost predicate Commits(b: Build, b': Build, name: Hash, v: Vertex) {
    b' == b.(graph := b.graph[name := v], head := name, merges := b.merges + 1, outcomes := b'.outcomes)
  }

  /** One step, told from the two commits alone. A commit whose first parent is the head becomes the head. A commit that
      the head has as an ancestor, and one that has the head, leave a copy of the later of the two. Otherwise the three
      roots are merged: into a commit with the head as its first parent and the other as its second, unless there is a
      conflict, which only reports the commit. */
  lemma {:induction false} StepMeaning(d: Dolt, b: Build, c: Pick, name: Hash)
    requires !b.broken && Ready(d, b, c.hash, name)
    ensures var g, h, x, b' := b.graph, b.head, c.hash, Step(d, b, c, name);
            if g[x].parents != [] && g[x].parents[0] == h then
              b' == b.(head := x, outcomes := b'.outcomes)
            else if x in Anc(g, h) then
              Commits(b, b', name, Vertex(g[h].parents, g[h].root, Some(c.hlc), g[h].height))
            else if h in Anc(g, x) then
              Commits(b, b', name, Vertex(g[x].parents, g[x].root, Some(c.hlc), g[x].height))
            else if Anc(g, h) * Anc(g, x) == {} then
              b' == b.(broken := true, outcomes := b'.outcomes)
            else
              var common := d.pick(Anc(g, h) * Anc(g, x));
              && common in g
              && match d.merge(g[common].root, g[h].root, g[x].root)
                 case None => b' == b.(rejected := b.rejected + [c], outcomes := b'.outcomes)
                 case Some(root) =>
                   Commits(b, b', name, Vertex([h, x], root, Some(c.hlc), 1 + Max(g[h].height, g[x].height)))
  {
    ReachIsPresent(b.graph, "", b.head);
  }

  /** Folding a merge commit onto the head it was made from only moves the head there: nothing is committed again. */
  lemma {:induction false} RefoldIsReset(d: Dolt, b: Build, c: Pick, name: Hash, name': Hash)
    requires !b.broken && Ready(d, b, c.hash, name) && Decide(d, b.graph, b.head, c.hash).Merged?
    ensures var b' := Step(d, b, c, name);
            && name in b'.graph && b'.graph[name].parents == [b.head, c.hash]
            && var again := b'.(head := b.head);
            Ready(d, again, name, name') ==>
              && Decide(d, b'.graph, b.head, name) == Reset
              && Step(d, again, Pick(name, c.hlc), name') == b'.(outcomes := b'.outcomes + [Reset])
  {
  }

  /** Folding a commit with two parents onto the first is a reset. Folding it onto the second is a fast-forward, and
      leaves a copy. */
  lemma {:induction false} FoldOntoParent(d: Dolt, b: Build, c: Pick, name: Hash, p: Hash, q: Hash)
    requires !b.broken && Ready(d, b, c.hash, name) && b.graph[c.hash].parents == [p, q] && p != q
    ensures var b' := Step(d, b, c, name);
            && (b.head == p ==> b'.head == c.hash && b'.graph == b.graph && b'.merges == b.merges)
            && (b.head == q ==>
                  Commits(b, b', name, Vertex([p, q], b.graph[c.hash].root, Some(c.hlc), b.graph[c.hash].height)))
  {
    StepMeaning(d, b, c, name);
    if b.head == q {
      assert b.graph[c.hash].parents[1] == q && q in b.graph[c.hash].parents;
      assert q in Reach(b.graph, "", q) && q in Anc(b.graph, c.hash);
      if c.hash in Anc(b.graph, q) {
        ReachIsLower(b.graph, "", q, c.hash);
      }
    }
  }

  ghost function ReplayTo(j: Job, k: nat): Build
    requires k <= |j.list|
  {
    if k == 0 then Start(j.g, j.base)
    else Step(j.d, ReplayTo(j, k - 1), j.list[k - 1], j.names(k - 1))
  }

  ghost function Replayed(j: Job): Build {
    ReplayTo(j, |j.list|)
  }

  lemma {:induction false} ReplayGrows(j: Job, k: nat)
    requires Playable(j) && k <= |j.list|
    ensures Grown(j.g, j.names, k, ReplayTo(j, k))
    ensures k < |j.list| ==> Ready(j.d, ReplayTo(j, k), j.list[k].hash, j.names(k))
  {
    if k > 0 {
      ReplayGrows(j, k - 1);
      StepGrows(j.d, j.g, j.names, k - 1, ReplayTo(j, k - 1), j.list[k - 1]);
    }
    if k < |j.list| {
      StepGrows(j.d, j.g, j.names, k, ReplayTo(j, k), j.list[k]);
    }
  }

  lemma {:induction false} ReplayIsReady(j: Job, k: nat)
    requires Playable(j) && k < |j.list|
    ensures Ready(j.d, ReplayTo(j, k), j.list[k].hash, j.names(k))
  {
    ReplayGrows(j, k);
  }

  /** Induction over the fold. */
  lemma {:induction false} FoldInduction(j: Job, k: nat, n: nat, inv: (nat, Build) -> bool)
    requires k <= n <= |j.list| && inv(k, ReplayTo(j, k))
    requires forall i: nat :: k <= i < n && inv(i, ReplayTo(j, i)) ==> inv(i + 1, ReplayTo(j, i + 1))
    ensures inv(n, ReplayTo(j, n))
  {
    if k < n {
      FoldInduction(j, k, n - 1, inv);
    }
  }

  lemma {:induction false} StartOf(j: Job)
    ensures ReplayTo(j, 0) == Start(j.g, j.base)
  {
  }

  function EffectiveBase(mergeBase: Hash, fb: Option<FinalizedBase>): Hash {
    if fb.Some? && fb.value.commit != "" then fb.value.commit else mergeBase
  }

  /** The commits a replay looks at: what the local walk finds and what was imported. */
  ghost function Inputs(g: Graph, main: Hash, remote: Hash, mergeBase: Hash, fb: Option<FinalizedBase>): set<Hash>
    requires Acyclic(g)
  {
    Reach(g, EffectiveBase(mergeBase, fb), main) + Reach(g, mergeBase, remote)
  }

  class Reconciler {
    var graph: Graph
    var main: Hash
    var rejected: seq<Pick>

    ghost predicate Valid()
      reads this
    {
      Wf(graph) && main in graph
    }

    constructor (graph: Graph, main: Hash)
      requires Wf(graph) && main in graph
      ensures Valid() && this.graph == graph && this.main == main && rejected == []
    {
      this.graph, this.main, this.rejected := graph, main, [];
    }

    /** A user commit on top of main. */
    method Append(hash: Hash, root: int, hlc: Timestamp)
      requires Valid() && hash !in graph && hash != ""
      modifies this`graph, this`main
      ensures Valid()
      ensures graph == old(graph)[hash := Vertex([old(main)], root, Some(hlc), old(graph)[old(main)].height + 1)]
      ensures main == hash
    {
      var n := Vertex([main], root, Some(hlc), graph[main].height + 1);
      AddCommit(graph, hash, n);
      graph := graph[hash := n];
      main := hash;
    }

    /** One turn of the fold: reset when the commit sits on the head, else merge, then drop it on a conflict or amend
        the head. */
    method FoldOne(d: Dolt, c: Pick, name: Hash, headHash: Hash, mergeCommits: nat, ghost b: Build)
      returns (headHash': Hash, mergeCommits': nat, ok: bool)
      requires Ready(d, b, c.hash, name) && !b.broken
      requires graph == b.graph && headHash == b.head && mergeCommits == b.merges
      modifies this`graph, this`rejected
      ensures var b' := Step(d, b, c, name);
              && graph == b'.graph && headHash' == b'.head && mergeCommits' == b'.merges && ok == !b'.broken
              && b'.rejected == b.rejected + Dropped(b, b', c) && rejected == old(rejected) + Dropped(b, b', c)
    {
      headHash', mergeCommits', ok := headHash, mergeCommits, true;
      if IsFirstParent(graph, headHash, c.hash) {
        headHash' := c.hash;
        return;
      }
      var o := DoltMerge(d, graph, headHash, c.hash);
      if o.Conflict? {
        rejected := rejected + [c];
      } else if o.Broken? {
        ok := false;
      } else {
        graph := graph[name := AmendedHead(graph, headHash, c, o)];
        mergeCommits' := mergeCommits + 1;
        headHash' := name;
      }
    }

    /** The loop over the commits, on the temporary branch. */
    method BuildTempBranch(d: Dolt, base: Hash, commits: seq<Pick>, names: nat -> Hash)
      returns (headHash: Hash, mergeCommits: nat, ok: bool)
      requires Valid() && Playable(Job(d, graph, base, commits, names))
      modifies this`graph, this`rejected
      ensures var b := Replayed(Job(d, old(graph), base, commits, names));
              && graph == b.graph && headHash == b.head && mergeCommits == b.merges && ok == !b.broken
              && rejected == old(rejected) + b.rejected
    {
      headHash, mergeCommits, ok := base, 0, true;
      var k := 0;
      ghost var j := Job(d, graph, base, commits, names);
      ghost var b := Start(graph, base);
      while k < |commits| && ok
        invariant 0 <= k <= |commits|
        invariant b == ReplayTo(j, k)
        invariant graph == b.graph && headHash == b.head && mergeCommits == b.merges && ok == !b.broken
        invariant rejected == old(rejected) + b.rejected
      {
        ReplayIsReady(j, k);
        headHash, mergeCommits, ok := FoldOne(d, commits[k], names(k), headHash, mergeCommits, b);
        b := Step(d, b, commits[k], names(k));
        k := k + 1;
      }
      if !ok {
        BrokenStays(j, k, |commits|);
      }
    }

    /** Builds the temporary branch and moves main to it unless main, last seen at `curHead`, has advanced. The
        rejection hooks have fired by then in any case. */
    method ReplayToTempBranchThenUpdateMain(d: Dolt, base: Hash, mainHeadBefore: Hash, commits: seq<Pick>,
                                            names: nat -> Hash, curHead: Hash) returns (r: Result<nat>)
      requires Valid() && Playable(Job(d, graph, base, commits, names)) && curHead in graph
      modifies this
      ensures Valid()
      ensures var b := Replayed(Job(d, old(graph), base, commits, names));
              && rejected == old(rejected) + b.rejected
              && graph == b.graph
              && (if b.broken then r == Failure(MergeFailed) && main == old(main)
                  else if curHead != mainHeadBefore then r == Failure(MainAdvanced) && main == curHead
                  else r == Success(b.merges) && main == b.head)
    {
      ReplayGrows(Job(d, graph, base, commits, names), |commits|);
      var headHash, mergeCommits, ok := BuildTempBranch(d, base, commits, names);
      if !ok {
        return Failure(MergeFailed);
      }
      main := curHead;
      if main != mainHeadBefore {
        return Failure(MainAdvanced);
      }
      main := headHash;
      return Success(mergeCommits);
    }

    /** ReplayImportedCommits. `list` is the replayed list. */
    method ReplayImportedCommits(d: Dolt, mergeBase: Hash, imported: seq<Commit>, fb: Option<FinalizedBase>,
                                 names: nat -> Hash, curHead: Hash, ghost remote: Hash)
      returns (r: Result<nat>, list: seq<Pick>)
      requires Valid() && Sane(d) && FreshNames(graph, names)
      requires mergeBase in graph && EffectiveBase(mergeBase, fb) in graph && curHead in graph
      requires remote in graph && Lists(graph, imported, Reach(graph, mergeBase, remote))
      modifies this
      ensures Valid()
      ensures Playable(Job(d, old(graph), EffectiveBase(mergeBase, fb), list, names))
      ensures IsCollection(list, CommitsOf(old(graph), Inputs(old(graph), old(main), remote, mergeBase, fb)), fb)
      ensures list == [] ==> r == Success(0) && graph == old(graph) && main == old(main) && rejected == old(rejected)
      ensures list != [] ==>
                var b := Replayed(Job(d, old(graph), EffectiveBase(mergeBase, fb), list, names));
                && rejected == old(rejected) + b.rejected
                && graph == b.graph
                && (if b.broken then r == Failure(MergeFailed) && main == old(main)
                    else if curHead != old(main) then r == Failure(MainAdvanced) && main == curHead
                    else r == Success(b.merges) && main == b.head)
    {
      var head := main;
      var effectiveBase := EffectiveBase(mergeBase, fb);
      ReachIsPresent(graph, effectiveBase, main);
      var local := GetCommitsSince(graph, main, effectiveBase);
      var userCommits := CollectUserCommits(local.value, imported, fb);
      list := userCommits;
      ghost var inputs := Inputs(graph, main, remote, mergeBase, fb);
      assert Elements(local.value) + Elements(imported) == CommitsOf(graph, inputs);
      CollectedArePresent(graph, inputs, fb, list);
      if |userCommits| == 0 {
        return Success(0), list;
      }
      r := ReplayToTempBranchThenUpdateMain(d, effectiveBase, head, userCommits, names, curHead);
    }
  }

  lemma {:induction false} BrokenStays(j: Job, i: nat, k: nat)
    requires i <= k <= |j.list| && ReplayTo(j, i).broken
    ensures ReplayTo(j, k) == ReplayTo(j, i)
  {
    if i < k {
      BrokenStays(j, i, k - 1);
    }
  }

  lemma {:induction false} CollectedArePresent(g: Graph, hs: set<Hash>, fb: Option<FinalizedBase>, list: seq<Pick>)
    requires IsCollection(list, CommitsOf(g, hs), fb)
    ensures forall i :: 0 <= i < |list| ==>
              list[i].hash in g && list[i].hash in hs && g[list[i].hash].meta == Some(list[i].hlc)
  {
    CollectionMeaning(list, CommitsOf(g, hs), fb);
  }
}
