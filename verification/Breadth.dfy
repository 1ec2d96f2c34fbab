/** What the order of a walk means: it goes by distance from the head, and it is the only list that does so in the order
    of the parents. */
module Breadth {
  import opened Hlc
  import opened Dag
  import opened Walk

  /** The hashes at most `n` parent links away from `h`, without entering `avoid`. */
  ghost function Within(g: Graph, avoid: Hash, h: Hash, n: nat): set<Hash> {
    if h == "" || h == avoid then {}
    else if n == 0 then {h}
    else
      var near := Within(g, avoid, h, n - 1);
      near + set x, p | x in near && x in g && p in g[x].parents && p != "" && p != avoid :: p
  }

  lemma {:induction false} WithinStep(g: Graph, avoid: Hash, h: Hash, n: nat, x: Hash, p: Hash)
    requires x in Within(g, avoid, h, n) && x in g && p in g[x].parents && p != "" && p != avoid
    ensures p in Within(g, avoid, h, n + 1)
  {
  }

  /** A path to a hash within reach, no longer than allowed. */
  lemma {:induction false} WithinHasPath(g: Graph, avoid: Hash, h: Hash, n: nat, x: Hash) returns (path: seq<Hash>)
    requires x in Within(g, avoid, h, n)
    ensures Joins(g, avoid, path, h, x) && |path| <= n + 1
  {
    if n == 0 {
      path := [h];
    } else if x in Within(g, avoid, h, n - 1) {
      path := WithinHasPath(g, avoid, h, n - 1, x);
    } else {
      var y :| y in Within(g, avoid, h, n - 1) && y in g && x in g[y].parents && x != "" && x != avoid;
      var front := WithinHasPath(g, avoid, h, n - 1, y);
      PathGrows(g, avoid, front, x);
      path := front + [x];
    }
  }

  lemma {:induction false} PathGrows(g: Graph, avoid: Hash, path: seq<Hash>, x: Hash)
    requires IsPath(g, avoid, path) && path[|path| - 1] in g && x in g[path[|path| - 1]].parents
    requires x != "" && x != avoid
    ensures Joins(g, avoid, path + [x], path[0], x)
  {
  }

  lemma {:induction false} PathIsWithin(g: Graph, avoid: Hash, path: seq<Hash>, n: nat)
    requires IsPath(g, avoid, path) && |path| <= n + 1
    ensures path[|path| - 1] in Within(g, avoid, path[0], n)
    decreases n
  {
    if |path| <= n {
      PathIsWithin(g, avoid, path, n - 1);
    } else if n > 0 {
      var front, k := path[..n], n - 1;
      assert path[k] in g && path[k + 1] in g[path[k]].parents;
      PathIsWithin(g, avoid, front, n - 1);
      WithinStep(g, avoid, path[0], n - 1, path[k], path[k + 1]);
    }
  }

  /** `Within` is the existence of a path of that length. */
  lemma {:induction false} WithinIffPath(g: Graph, avoid: Hash, h: Hash, n: nat, x: Hash)
    ensures x in Within(g, avoid, h, n) <==> exists path :: Joins(g, avoid, path, h, x) && |path| <= n + 1
  {
    if x in Within(g, avoid, h, n) {
      var path := WithinHasPath(g, avoid, h, n, x);
    }
    if path :| Joins(g, avoid, path, h, x) && |path| <= n + 1 {
      PathIsWithin(g, avoid, path, n);
    }
  }

  lemma {:induction false} WithinIsReached(g: Graph, avoid: Hash, h: Hash, n: nat, x: Hash)
    requires Acyclic(g) && x in Within(g, avoid, h, n)
    ensures x in Reach(g, avoid, h)
  {
    var path := WithinHasPath(g, avoid, h, n, x);
    PathIsReached(g, avoid, path);
  }

  lemma {:induction false} HeadIsWithin(g: Graph, avoid: Hash, h: Hash, n: nat)
    requires h != "" && h != avoid
    ensures h in Within(g, avoid, h, n)
  {
    if n > 0 {
      HeadIsWithin(g, avoid, h, n - 1);
    }
  }

  /** The commits of the set come first in the list. */
  ghost predicate Leading(cs: seq<Commit>, near: set<Hash>) {
    forall i, j :: 0 <= i < j < |cs| && cs[j].hash in near ==> cs[i].hash in near
  }

  /** The commit that a commit was found at is one step closer. */
  lemma {:induction false} FinderIsWithin(g: Graph, base: Hash, head: Hash, cs: seq<Commit>, t: Spot, n: nat, j: nat)
    requires Acyclic(g) && Lists(g, cs, Reach(g, base, head)) && j < |cs| && FirstSpot(g, cs, j, t)
    requires Leading(cs, Within(g, base, head, n))
    requires cs[j].hash in Within(g, base, head, n + 1) && cs[j].hash !in Within(g, base, head, n)
    ensures cs[t.from].hash in Within(g, base, head, n)
  {
    var near := Within(g, base, head, n);
    var y :| y in near && y in g && cs[j].hash in g[y].parents;
    WithinIsReached(g, base, head, n, y);
    var m: nat :| m < |cs| && cs[m].hash == y;
    var s: nat :| s < |g[y].parents| && g[y].parents[s] == cs[j].hash;
    assert Finds(g, cs, Spot(m, s), cs[j].hash);
  }

  lemma {:induction false} EarlierIsWithin(g: Graph, base: Hash, head: Hash, cs: seq<Commit>, spots: seq<Spot>, n: nat,
                                           i: nat, j: nat)
    requires Acyclic(g) && Lists(g, cs, Reach(g, base, head)) && Discovers(g, head, cs, spots)
    requires Leading(cs, Within(g, base, head, n)) && 0 < i < j < |cs|
    requires cs[j].hash in Within(g, base, head, n + 1)
    ensures cs[i].hash in Within(g, base, head, n + 1)
  {
    if cs[j].hash !in Within(g, base, head, n) {
      assert FirstSpot(g, cs, i, spots[i]) && FirstSpot(g, cs, j, spots[j]) && Ahead(spots[i], spots[j]);
      FinderIsWithin(g, base, head, cs, spots[j], n, j);
      ReachAvoids(g, base, head, cs[i].hash);
      WithinStep(g, base, head, n, cs[spots[i].from].hash, cs[i].hash);
    }
  }

  /** The walk lists commits by their distance from the head: what is listed earlier is no further away. */
  lemma {:induction false} ByDistance(g: Graph, base: Hash, head: Hash, cs: seq<Commit>, spots: seq<Spot>, n: nat)
    requires Acyclic(g) && Lists(g, cs, Reach(g, base, head)) && Discovers(g, head, cs, spots)
    ensures Leading(cs, Within(g, base, head, n))
  {
    if n > 0 {
      ByDistance(g, base, head, cs, spots, n - 1);
    }
    forall i: nat, j: nat | i < j < |cs| && cs[j].hash in Within(g, base, head, n)
      ensures cs[i].hash in Within(g, base, head, n)
    {
      if i == 0 {
        HeadIsWithin(g, base, head, n);
      } else if n > 0 {
        EarlierIsWithin(g, base, head, cs, spots, n - 1, i, j);
      }
    }
  }

  lemma {:induction false} WalkGoesByDistance(g: Graph, base: Hash, head: Hash, cs: seq<Commit>, i: nat, j: nat, n: nat)
    requires Acyclic(g) && IsWalk(g, base, head, cs) && i <= j < |cs| && cs[j].hash in Within(g, base, head, n)
    ensures cs[i].hash in Within(g, base, head, n)
  {
    var spots :| Discovers(g, head, cs, spots);
    ByDistance(g, base, head, cs, spots, n);
  }

  /** A commit that the other list has later is found there no later than here. */
  lemma {:induction false} FoundNoLater(g: Graph, head: Hash, c1: seq<Commit>, s1: seq<Spot>, c2: seq<Commit>,
                                        s2: seq<Spot>, k: nat, m: nat)
    requires Discovers(g, head, c1, s1) && Discovers(g, head, c2, s2)
    requires 0 < k < |c1| && k <= m < |c2| && c1[..k] == c2[..k] && c1[k] == c2[m]
    ensures !Ahead(s1[k], s2[m])
  {
    assert FirstSpot(g, c1, k, s1[k]) && FirstSpot(g, c2, m, s2[m]);
    var f := s1[k].from;
    assert c1[f] == c1[..k][f] == c2[..k][f] == c2[f];
    assert Finds(g, c2, s1[k], c2[m].hash);
  }

  lemma {:induction false} Relisted(g: Graph, hs: set<Hash>, c1: seq<Commit>, c2: seq<Commit>, k: nat) returns (m: nat)
    requires Lists(g, c1, hs) && Lists(g, c2, hs) && k < |c1| && k <= |c2| && c1[..k] == c2[..k]
    ensures k <= m < |c2| && c2[m] == c1[k]
  {
    assert c1[k].hash in hs;
    m :| m < |c2| && c2[m].hash == c1[k].hash;
    assert forall i :: 0 <= i < k ==> c1[i] == c1[..k][i] == c2[..k][i] == c2[i];
  }

  lemma {:induction false} NextIsUnique(g: Graph, head: Hash, hs: set<Hash>, c1: seq<Commit>, s1: seq<Spot>,
                                        c2: seq<Commit>, s2: seq<Spot>, k: nat)
    requires Lists(g, c1, hs) && Lists(g, c2, hs) && Discovers(g, head, c1, s1) && Discovers(g, head, c2, s2)
    requires k < |c1| && k < |c2| && c1[..k] == c2[..k]
    ensures c1[k] == c2[k]
  {
    if k > 0 {
      var m := Relisted(g, hs, c1, c2, k);
      var m' := Relisted(g, hs, c2, c1, k);
      FoundNoLater(g, head, c1, s1, c2, s2, k, m);
      FoundNoLater(g, head, c2, s2, c1, s1, k, m');
      assert m > k && m' > k ==> Ahead(s2[k], s2[m]) && Ahead(s1[k], s1[m']);
    }
  }

  lemma {:induction false} PrefixIsUnique(g: Graph, head: Hash, hs: set<Hash>, c1: seq<Commit>, s1: seq<Spot>,
                                          c2: seq<Commit>, s2: seq<Spot>, k: nat)
    requires Lists(g, c1, hs) && Lists(g, c2, hs) && Discovers(g, head, c1, s1) && Discovers(g, head, c2, s2)
    requires k <= |c1|
    ensures k <= |c2| && c1[..k] == c2[..k]
  {
    if k > 0 {
      PrefixIsUnique(g, head, hs, c1, s1, c2, s2, k - 1);
      var m := Relisted(g, hs, c1, c2, k - 1);
      NextIsUnique(g, head, hs, c1, s1, c2, s2, k - 1);
      assert c1[..k] == c1[..k - 1] + [c1[k - 1]] && c2[..k] == c2[..k - 1] + [c2[k - 1]];
    }
  }

  /** The walk returns one list only. */
  lemma {:induction false} WalkIsUnique(g: Graph, base: Hash, head: Hash, c1: seq<Commit>, c2: seq<Commit>)
    requires Acyclic(g) && IsWalk(g, base, head, c1) && IsWalk(g, base, head, c2)
    ensures c1 == c2
  {
    var s1 :| Discovers(g, head, c1, s1);
    var s2 :| Discovers(g, head, c2, s2);
    var hs := Reach(g, base, head);
    PrefixIsUnique(g, head, hs, c1, s1, c2, s2, |c1|);
    PrefixIsUnique(g, head, hs, c2, s2, c1, s1, |c2|);
    assert c1[..|c1|] == c1 && c2[..|c2|] == c2;
  }
}
