/** A finite commit graph and reachability in it. A hash determines its commit, and every commit lies strictly above
    its parents, as Dolt's stored commit heights do. */
module Dag {
  import opened Hlc

  type Hash = string

  /** `root` is the database root value; `meta` is the timestamp of a commit whose message parses as user metadata. */
  datatype Vertex = Vertex(parents: seq<Hash>, root: int, meta: Option<Timestamp>, height: nat)

  type Graph = map<Hash, Vertex>

  ghost predicate Acyclic(g: Graph) {
    && "" !in g
    && forall h, p {:trigger p in g[h].parents} :: h in g && p in g[h].parents && p in g ==> g[p].height < g[h].height
  }

  /** Every parent is present. */
  ghost predicate Closed(g: Graph) {
    forall h, p {:trigger p in g[h].parents} :: h in g && p in g[h].parents ==> p in g
  }

  ghost predicate Wf(g: Graph) {
    Acyclic(g) && Closed(g)
  }

  function Rank(g: Graph, h: Hash): nat {
    if h in g then g[h].height + 1 else 0
  }

  /** The hashes reachable from `h` by parent links without entering `avoid`. A hash that is not in the graph is
      reachable and leads nowhere. */
  function Reach(g: Graph, avoid: Hash, h: Hash): set<Hash>
    requires Acyclic(g)
    decreases Rank(g, h)
  {
    if h == "" || h == avoid then {}
    else if h !in g then {h}
    else {h} + set p, x | p in g[h].parents && x in Reach(g, avoid, p) :: x
  }

  /** The ancestors of `h`, itself included. */
  function Anc(g: Graph, h: Hash): set<Hash>
    requires Acyclic(g)
  {
    Reach(g, "", h)
  }

  /** The ancestors of a list of parents. */
  function AncOf(g: Graph, ps: seq<Hash>): set<Hash>
    requires Acyclic(g)
  {
    set p, x | p in ps && x in Anc(g, p) :: x
  }

  // ---- reachability as paths ----

  ghost predicate IsPath(g: Graph, avoid: Hash, path: seq<Hash>) {
    && |path| > 0
    && (forall i :: 0 <= i < |path| ==> path[i] != "" && path[i] != avoid)
    && (forall i :: 0 <= i < |path| - 1 ==> path[i] in g && path[i + 1] in g[path[i]].parents)
  }

  ghost predicate Joins(g: Graph, avoid: Hash, path: seq<Hash>, h: Hash, x: Hash) {
    IsPath(g, avoid, path) && path[0] == h && path[|path| - 1] == x
  }

  lemma {:induction false} ReachHasPath(g: Graph, avoid: Hash, h: Hash, x: Hash) returns (path: seq<Hash>)
    requires Acyclic(g)
    requires x in Reach(g, avoid, h)
    ensures Joins(g, avoid, path, h, x)
    decreases Rank(g, h)
  {
    if x == h {
      path := [h];
    } else {
      var p :| p in g[h].parents && x in Reach(g, avoid, p);
      var rest := ReachHasPath(g, avoid, p, x);
      path := [h] + rest;
      assert forall i :: 0 <= i < |rest| ==> path[i + 1] == rest[i];
      forall i | 0 <= i < |path| - 1 ensures path[i] in g && path[i + 1] in g[path[i]].parents {
        if i > 0 { assert path[i] == rest[i - 1] && path[i + 1] == rest[i]; }
      }
    }
  }

  lemma {:induction false} PathIsReached(g: Graph, avoid: Hash, path: seq<Hash>)
    requires Acyclic(g)
    requires IsPath(g, avoid, path)
    ensures path[|path| - 1] in Reach(g, avoid, path[0])
    decreases |path|
  {
    if |path| > 1 {
      assert path[0] in g && path[1] in g[path[0]].parents;
      PathIsReached(g, avoid, path[1..]);
    }
  }

  /** `Reach` is reachability by a path that avoids `avoid`. */
  lemma {:induction false} ReachIffPath(g: Graph, avoid: Hash, h: Hash, x: Hash)
    requires Acyclic(g)
    ensures x in Reach(g, avoid, h) <==> exists path :: Joins(g, avoid, path, h, x)
  {
    if x in Reach(g, avoid, h) {
      var path := ReachHasPath(g, avoid, h, x);
    }
    if exists path :: Joins(g, avoid, path, h, x) {
      var path :| Joins(g, avoid, path, h, x);
      PathIsReached(g, avoid, path);
    }
  }

  // ---- closure properties ----

  lemma {:induction false} ReachTransitive(g: Graph, avoid: Hash, h: Hash, x: Hash, y: Hash)
    requires Acyclic(g)
    requires x in Reach(g, avoid, h) && y in Reach(g, avoid, x)
    ensures y in Reach(g, avoid, h)
    decreases Rank(g, h)
  {
    if x != h {
      var p :| p in g[h].parents && x in Reach(g, avoid, p);
      ReachTransitive(g, avoid, p, x, y);
    }
  }

  lemma {:induction false} ReachAvoids(g: Graph, avoid: Hash, h: Hash, x: Hash)
    requires Acyclic(g)
    requires x in Reach(g, avoid, h)
    ensures x != "" && x != avoid
    decreases Rank(g, h)
  {
    if x != h {
      var p :| p in g[h].parents && x in Reach(g, avoid, p);
      ReachAvoids(g, avoid, p, x);
    }
  }

  lemma {:induction false} NeverReachesAvoided(g: Graph, avoid: Hash, h: Hash)
    requires Acyclic(g)
    ensures avoid !in Reach(g, avoid, h)
  {
    if avoid in Reach(g, avoid, h) {
      ReachAvoids(g, avoid, h, avoid);
    }
  }

  lemma {:induction false} ReachParent(g: Graph, avoid: Hash, h: Hash, x: Hash, p: Hash)
    requires Acyclic(g)
    requires x in Reach(g, avoid, h) && x in g && p in g[x].parents && p != "" && p != avoid
    ensures p in Reach(g, avoid, h)
  {
    ReachAvoids(g, avoid, h, x);
    assert p in Reach(g, avoid, p);
    assert p in Reach(g, avoid, x);
    ReachTransitive(g, avoid, h, x, p);
  }

  /** A proper ancestor lies strictly lower. */
  lemma {:induction false} ReachIsLower(g: Graph, avoid: Hash, h: Hash, x: Hash)
    requires Acyclic(g)
    requires x in Reach(g, avoid, h) && x != h && x in g
    ensures h in g && g[x].height < g[h].height
    decreases Rank(g, h)
  {
    var p :| p in g[h].parents && x in Reach(g, avoid, p);
    if x != p {
      ReachIsLower(g, avoid, p, x);
    }
  }

  lemma {:induction false} ReachIsPresent(g: Graph, avoid: Hash, h: Hash)
    requires Wf(g) && h in g
    ensures Reach(g, avoid, h) <= g.Keys
    decreases Rank(g, h)
  {
    forall x | x in Reach(g, avoid, h) ensures x in g {
      if x != h {
        var p :| p in g[h].parents && x in Reach(g, avoid, p);
        ReachIsPresent(g, avoid, p);
      }
    }
  }

  lemma {:induction false} ReachIsAncestor(g: Graph, avoid: Hash, h: Hash)
    requires Acyclic(g)
    ensures Reach(g, avoid, h) <= Anc(g, h)
    decreases Rank(g, h)
  {
    forall x | x in Reach(g, avoid, h) ensures x in Anc(g, h) {
      if x != h {
        var p :| p in g[h].parents && x in Reach(g, avoid, p);
        ReachIsAncestor(g, avoid, p);
      }
    }
  }

  /** What a walk that stops at `avoid` misses lies below `avoid`. */
  lemma {:induction false} AncestorsSplit(g: Graph, avoid: Hash, h: Hash)
    requires Acyclic(g)
    ensures Anc(g, h) <= Reach(g, avoid, h) + Anc(g, avoid)
    decreases Rank(g, h)
  {
    forall x | x in Anc(g, h) ensures x in Reach(g, avoid, h) + Anc(g, avoid) {
      if h != avoid && x != h {
        var p :| p in g[h].parents && x in Anc(g, p);
        AncestorsSplit(g, avoid, p);
      }
    }
  }

  /** A set that holds `h` and is closed under parent links other than `avoid` holds all that is reachable. */
  lemma {:induction false} ReachIsLeast(g: Graph, avoid: Hash, h: Hash, s: set<Hash>)
    requires Acyclic(g)
    requires h == "" || h == avoid || h in s
    requires forall x, p :: x in s && x in g && p in g[x].parents ==> p == "" || p == avoid || p in s
    ensures Reach(g, avoid, h) <= s
    decreases Rank(g, h)
  {
    forall x | x in Reach(g, avoid, h) ensures x in s {
      if x != h {
        var p :| p in g[h].parents && x in Reach(g, avoid, p);
        ReachIsLeast(g, avoid, p, s);
      }
    }
  }

  // ---- ancestors, their own parents, and growing graphs ----

  lemma {:induction false} AncUnfold(g: Graph, h: Hash)
    requires Acyclic(g) && h in g
    ensures Anc(g, h) == {h} + AncOf(g, g[h].parents)
    ensures h !in AncOf(g, g[h].parents)
  {
    forall x ensures x in Anc(g, h) <==> x in {h} + AncOf(g, g[h].parents) {
      assert x in Reach(g, "", h) <==> x == h || exists p :: p in g[h].parents && x in Reach(g, "", p);
      assert x in AncOf(g, g[h].parents) <==> exists p :: p in g[h].parents && x in Anc(g, p);
    }
    if h in AncOf(g, g[h].parents) {
      var p :| p in g[h].parents && h in Anc(g, p);
      if h != p {
        ReachIsLower(g, "", p, h);
      }
    }
  }

  lemma {:induction false} SingleParent(g: Graph, p: Hash)
    requires Acyclic(g)
    ensures AncOf(g, [p]) == Anc(g, p)
  {
    assert [p][0] == p;
    forall x ensures x in AncOf(g, [p]) <==> x in Anc(g, p) {
      assert x in AncOf(g, [p]) <==> exists q :: q in [p] && x in Anc(g, q);
    }
  }

  lemma {:induction false} AncTransitive(g: Graph, h: Hash, x: Hash)
    requires Acyclic(g) && x in Anc(g, h)
    ensures Anc(g, x) <= Anc(g, h)
  {
    forall y | y in Anc(g, x) ensures y in Anc(g, h) {
      ReachTransitive(g, "", h, x, y);
    }
  }

  /** Hashes known to both graphs name the same commits. */
  ghost predicate Agree(g1: Graph, g2: Graph) {
    forall h :: h in g1 && h in g2 ==> g1[h] == g2[h]
  }

  ghost predicate Extends(g: Graph, g': Graph) {
    g.Keys <= g'.Keys && Agree(g, g')
  }

  /** Reachability from a common commit is the same in both graphs. */
  lemma {:induction false} ReachAgrees(g1: Graph, g2: Graph, avoid: Hash, h: Hash)
    requires Wf(g1) && Wf(g2) && Agree(g1, g2) && h in g1 && h in g2
    ensures Reach(g1, avoid, h) == Reach(g2, avoid, h)
    decreases Rank(g1, h)
  {
    if h != avoid {
      forall p | p in g1[h].parents ensures Reach(g1, avoid, p) == Reach(g2, avoid, p) {
        ReachAgrees(g1, g2, avoid, p);
      }
    }
  }

  lemma {:induction false} AncAgrees(g1: Graph, g2: Graph, h: Hash)
    requires Wf(g1) && Wf(g2) && Agree(g1, g2) && h in g1 && h in g2
    ensures Anc(g1, h) == Anc(g2, h)
    ensures Anc(g1, h) <= g1.Keys * g2.Keys
  {
    ReachAgrees(g1, g2, "", h);
    ReachIsPresent(g1, "", h);
    ReachIsPresent(g2, "", h);
  }

  lemma {:induction false} AncOfAgrees(g1: Graph, g2: Graph, ps: seq<Hash>)
    requires Wf(g1) && Wf(g2) && Agree(g1, g2)
    requires forall p :: p in ps ==> p in g1 && p in g2
    ensures AncOf(g1, ps) == AncOf(g2, ps)
  {
    forall p | p in ps ensures Anc(g1, p) == Anc(g2, p) {
      AncAgrees(g1, g2, p);
    }
  }

  /** A new commit above existing ones keeps the graph well formed and changes no older ancestry. */
  lemma {:induction false} AddCommit(g: Graph, h: Hash, n: Vertex)
    requires Wf(g) && h !in g && h != ""
    requires forall p :: p in n.parents ==> p in g && g[p].height < n.height
    ensures Wf(g[h := n]) && Extends(g, g[h := n])
    ensures Anc(g[h := n], h) == {h} + AncOf(g, n.parents)
    ensures forall x :: x in g ==> Anc(g[h := n], x) == Anc(g, x)
  {
    var g' := g[h := n];
    AncUnfold(g', h);
    AncOfAgrees(g, g', n.parents);
    forall x | x in g ensures Anc(g', x) == Anc(g, x) {
      AncAgrees(g, g', x);
    }
  }
}
