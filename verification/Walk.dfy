/** Reconciler.getCommitsSince: the breadth-first walk from a branch head that stops at a base commit. */
module Walk {
  import opened Hlc
  import opened Dag

  /** A commit as the walk returns it: its hash, and the timestamp its message carries when that is user metadata. */
  datatype Commit = Commit(hash: Hash, meta: Option<Timestamp>)

  datatype Error = MissingCommit | MergeFailed | MainAdvanced

  datatype Result<+T> = Success(value: T) | Failure(error: Error)

  ghost function CommitsOf(g: Graph, hs: set<Hash>): set<Commit> {
    set h | h in hs && h in g :: Commit(h, g[h].meta)
  }

  /** `cs` lists the commits named by `hs`, each exactly once. */
  ghost predicate Lists(g: Graph, cs: seq<Commit>, hs: set<Hash>) {
    && (forall i :: 0 <= i < |cs| ==> cs[i].hash in hs && cs[i].hash in g && cs[i].meta == g[cs[i].hash].meta)
    && (forall i, j :: 0 <= i < j < |cs| ==> cs[i].hash != cs[j].hash)
    && (forall h :: h in hs ==> exists i :: 0 <= i < |cs| && cs[i].hash == h)
  }

  // ---- breadth-first order ----

  /** A place in a list of commits where a hash can be found: the commit at `from`, and among its parents `slot`. */
  datatype Spot = Spot(from: nat, slot: nat)

  predicate Ahead(a: Spot, b: Spot) {
    a.from < b.from || (a.from == b.from && a.slot < b.slot)
  }

  predicate Finds(g: Graph, cs: seq<Commit>, t: Spot, h: Hash) {
    && t.from < |cs| && cs[t.from].hash in g
    && t.slot < |g[cs[t.from].hash].parents| && g[cs[t.from].hash].parents[t.slot] == h
  }

  /** `t` is the first spot where commit `k` is found, and an earlier commit has it. */
  ghost predicate FirstSpot(g: Graph, cs: seq<Commit>, k: nat, t: Spot)
    requires k < |cs|
  {
    && t.from < k && Finds(g, cs, t, cs[k].hash)
    && forall u :: Finds(g, cs, u, cs[k].hash) ==> !Ahead(u, t)
  }

  ghost predicate Discovers(g: Graph, head: Hash, cs: seq<Commit>, spots: seq<Spot>) {
    && |spots| == |cs| && (|cs| > 0 ==> cs[0].hash == head)
    && (forall k :: 0 < k < |cs| ==> FirstSpot(g, cs, k, spots[k]))
    && (forall i, k :: 0 < i < k < |cs| ==> Ahead(spots[i], spots[k]))
  }

  /** The list starts with the head and goes on in the order in which its own commits have the others as parents. */
  ghost predicate BreadthFirst(g: Graph, head: Hash, cs: seq<Commit>) {
    exists spots :: Discovers(g, head, cs, spots)
  }

  /** What the walk from `head` to `base` returns. */
  ghost predicate IsWalk(g: Graph, base: Hash, head: Hash, cs: seq<Commit>)
    requires Acyclic(g)
  {
    Lists(g, cs, Reach(g, base, head)) && BreadthFirst(g, head, cs)
  }

  // ---- the queue of the walk ----

  /** `tags` says where the queued hashes were found. */
  ghost predicate Tags(g: Graph, cs: seq<Commit>, queue: seq<Hash>, tags: seq<Spot>) {
    |tags| == |queue| && forall k :: 0 <= k < |tags| ==> Finds(g, cs, tags[k], queue[k])
  }

  ghost predicate Rising(tags: seq<Spot>) {
    forall i, k :: 0 <= i < k < |tags| ==> Ahead(tags[i], tags[k])
  }

  /** What is in the queue was found later than what is listed. */
  ghost predicate Follow(spots: seq<Spot>, tags: seq<Spot>) {
    forall i, k :: 0 < i < |spots| && 0 <= k < |tags| ==> Ahead(spots[i], tags[k])
  }

  /** Every parent of a listed commit is seen or queued. */
  ghost predicate Covers(g: Graph, base: Hash, cs: seq<Commit>, seen: set<Hash>, tags: seq<Spot>) {
    forall t, h :: Finds(g, cs, t, h) && h != "" && h != base && h !in seen ==> t in tags
  }

  /** The queue holds the undiscovered parents of the listed commits, in the order in which they were found. Before the
      first visit it holds the head. */
  ghost predicate Queued(g: Graph, base: Hash, head: Hash, cs: seq<Commit>, seen: set<Hash>, queue: seq<Hash>,
                         spots: seq<Spot>, tags: seq<Spot>)
  {
    if cs == [] then queue == [head] && seen == {}
    else
      && Discovers(g, head, cs, spots)
      && Tags(g, cs, queue, tags) && Rising(tags) && Follow(spots, tags) && Covers(g, base, cs, seen, tags)
  }

  /** A commit that the walk lists next was found first at the tag it has in the queue. */
  lemma {:induction false} NextIsFirst(g: Graph, base: Hash, head: Hash, cs: seq<Commit>, seen: set<Hash>,
                                       queue: seq<Hash>, spots: seq<Spot>, tags: seq<Spot>)
    requires |cs| > 0 && Queued(g, base, head, cs, seen, queue, spots, tags) && |queue| > 0
    requires queue[0] in g && queue[0] !in seen && queue[0] != "" && queue[0] != base
    ensures Discovers(g, head, cs + [Commit(queue[0], g[queue[0]].meta)], spots + [tags[0]])
  {
    var cs', t := cs + [Commit(queue[0], g[queue[0]].meta)], tags[0];
    forall u | Finds(g, cs', u, queue[0]) ensures !Ahead(u, t) {
      if u.from < |cs| {
        assert Finds(g, cs, u, queue[0]);
        assert u in tags;
      }
    }
    forall k | 0 < k < |cs| ensures FirstSpot(g, cs', k, spots[k]) {
      assert FirstSpot(g, cs, k, spots[k]);
      forall u | Finds(g, cs', u, cs'[k].hash) ensures !Ahead(u, spots[k]) {
        assert u.from < |cs| ==> Finds(g, cs, u, cs[k].hash);
      }
    }
  }

  lemma {:induction false} DropQueued(g: Graph, base: Hash, head: Hash, cs: seq<Commit>, seen: set<Hash>,
                                      queue: seq<Hash>, spots: seq<Spot>, tags: seq<Spot>)
    requires Queued(g, base, head, cs, seen, queue, spots, tags) && |queue| > 0 && queue[0] in seen
    ensures |tags| > 0 && Queued(g, base, head, cs, seen, queue[1..], spots, tags[1..])
  {
    forall t, h | Finds(g, cs, t, h) && h != "" && h != base && h !in seen ensures t in tags[1..] {
      assert t in tags;
      assert t != tags[0];
    }
  }

  /** The slots of `parents` that the walk puts into the queue. */
  ghost predicate Selects(parents: seq<Hash>, seen: set<Hash>, base: Hash, slots: seq<nat>) {
    && (forall k :: 0 <= k < |slots| ==> slots[k] < |parents| && parents[slots[k]] != "" && parents[slots[k]] != base)
    && (forall i, k :: 0 <= i < k < |slots| ==> slots[i] < slots[k])
    && (forall s: nat :: s < |parents| && parents[s] != "" && parents[s] != base && parents[s] !in seen ==> s in slots)
  }

  ghost function At(parents: seq<Hash>, slots: seq<nat>): (hs: seq<Hash>)
    requires forall k :: 0 <= k < |slots| ==> slots[k] < |parents|
    ensures |hs| == |slots| && forall k :: 0 <= k < |slots| ==> hs[k] == parents[slots[k]]
  {
    seq(|slots|, k requires 0 <= k < |slots| => parents[slots[k]])
  }

  ghost function TagsOf(from: nat, slots: seq<nat>): (tags: seq<Spot>)
    ensures |tags| == |slots| && forall k :: 0 <= k < |slots| ==> tags[k] == Spot(from, slots[k])
  {
    seq(|slots|, k requires 0 <= k < |slots| => Spot(from, slots[k]))
  }

  /** Every spot of the commit listed last that leads to an unseen parent gets a tag. */
  lemma {:induction false} NewSpots(g: Graph, base: Hash, cs: seq<Commit>, x: Hash, seen: set<Hash>, slots: seq<nat>)
    requires x in g && Selects(g[x].parents, seen, base, slots)
    ensures var cs' := cs + [Commit(x, g[x].meta)];
            && Tags(g, cs', At(g[x].parents, slots), TagsOf(|cs|, slots)) && Rising(TagsOf(|cs|, slots))
            && forall t, h :: Finds(g, cs', t, h) && t.from == |cs| && h != "" && h != base && h !in seen ==>
                 t in TagsOf(|cs|, slots)
  {
    var cs', tags := cs + [Commit(x, g[x].meta)], TagsOf(|cs|, slots);
    forall t, h | Finds(g, cs', t, h) && t.from == |cs| && h != "" && h != base && h !in seen ensures t in tags {
      assert t.slot in slots;
      var k :| 0 <= k < |slots| && slots[k] == t.slot;
      assert tags[k] == t;
    }
  }

  lemma {:induction false} TagsGrow(g: Graph, cs: seq<Commit>, c: Commit, q1: seq<Hash>, t1: seq<Spot>, q2: seq<Hash>,
                                    t2: seq<Spot>)
    requires Tags(g, cs, q1, t1) && Tags(g, cs + [c], q2, t2)
    ensures Tags(g, cs + [c], q1 + q2, t1 + t2)
  {
    forall k | 0 <= k < |t1| ensures Finds(g, cs + [c], t1[k], q1[k]) {
      assert Finds(g, cs, t1[k], q1[k]);
    }
  }

  lemma {:induction false} CoversGrows(g: Graph, base: Hash, cs: seq<Commit>, x: Hash, seen: set<Hash>, tags: seq<Spot>,
                                       more: seq<Spot>, queue: seq<Hash>)
    requires x in g && Covers(g, base, cs, seen, tags) && Tags(g, cs, queue, tags) && |queue| > 0 && queue[0] == x
    requires var cs' := cs + [Commit(x, g[x].meta)];
             forall t, h :: Finds(g, cs', t, h) && t.from == |cs| && h != "" && h != base && h !in seen + {x} ==>
               t in more
    ensures Covers(g, base, cs + [Commit(x, g[x].meta)], seen + {x}, tags[1..] + more)
  {
    var cs' := cs + [Commit(x, g[x].meta)];
    forall t, h | Finds(g, cs', t, h) && h != "" && h != base && h !in seen + {x} ensures t in tags[1..] + more {
      if t.from < |cs| {
        assert Finds(g, cs, t, h) && Finds(g, cs, tags[0], x);
        assert t in tags && t != tags[0];
      }
    }
  }

  /** After a visit the parents of the commit that was just listed join the queue. */
  lemma {:induction false} ExtendQueued(g: Graph, base: Hash, head: Hash, cs: seq<Commit>, seen: set<Hash>,
                                        queue: seq<Hash>, spots: seq<Spot>, tags: seq<Spot>, slots: seq<nat>)
    returns (spots': seq<Spot>, tags': seq<Spot>)
    requires Queued(g, base, head, cs, seen, queue, spots, tags)
    requires |queue| > 0 && queue[0] in g && queue[0] !in seen && queue[0] != "" && queue[0] != base
    requires Selects(g[queue[0]].parents, seen + {queue[0]}, base, slots)
    ensures Queued(g, base, head, cs + [Commit(queue[0], g[queue[0]].meta)], seen + {queue[0]},
                   queue[1..] + At(g[queue[0]].parents, slots), spots', tags')
  {
    var x := queue[0];
    var more := TagsOf(|cs|, slots);
    NewSpots(g, base, cs, x, seen + {x}, slots);
    if cs == [] {
      spots', tags' := [Spot(0, 0)], more;
      assert queue[1..] + At(g[x].parents, slots) == At(g[x].parents, slots);
      assert cs + [Commit(x, g[x].meta)] == [Commit(x, g[x].meta)];
    } else {
      NextIsFirst(g, base, head, cs, seen, queue, spots, tags);
      TagsGrow(g, cs, Commit(x, g[x].meta), queue[1..], tags[1..], At(g[x].parents, slots), more);
      CoversGrows(g, base, cs, x, seen, tags, more, queue);
      spots', tags' := spots + [tags[0]], tags[1..] + more;
      TagsRise(g, cs, queue, spots, tags, slots);
    }
  }

  lemma {:induction false} TagsRise(g: Graph, cs: seq<Commit>, queue: seq<Hash>, spots: seq<Spot>, tags: seq<Spot>,
                                    slots: seq<nat>)
    requires |cs| == |spots| && Tags(g, cs, queue, tags) && Rising(tags) && Follow(spots, tags) && |tags| > 0
    requires Rising(TagsOf(|cs|, slots)) && forall i :: 0 < i < |spots| ==> spots[i].from < i
    ensures Rising(tags[1..] + TagsOf(|cs|, slots)) && Follow(spots + [tags[0]], tags[1..] + TagsOf(|cs|, slots))
  {
    forall k | 0 <= k < |tags| ensures tags[k].from < |cs| {
      assert Finds(g, cs, tags[k], queue[k]);
    }
  }

  method Enqueue(queue: seq<Hash>, parents: seq<Hash>, seen: set<Hash>, base: Hash)
    returns (queue': seq<Hash>, ghost slots: seq<nat>)
    ensures Selects(parents, seen, base, slots) && queue' == queue + At(parents, slots)
  {
    queue', slots := queue, [];
    var i := 0;
    while i < |parents|
      invariant 0 <= i <= |parents|
      invariant forall k :: 0 <= k < |slots| ==>
                  slots[k] < i && parents[slots[k]] != "" && parents[slots[k]] != base
      invariant queue' == queue + At(parents, slots)
      invariant forall j, k :: 0 <= j < k < |slots| ==> slots[j] < slots[k]
      invariant forall s: nat :: s < i && parents[s] != "" && parents[s] != base && parents[s] !in seen ==> s in slots
    {
      if parents[i] != "" && parents[i] != base && parents[i] !in seen {
        assert At(parents, slots + [i]) == At(parents, slots) + [parents[i]];
        queue' := queue' + [parents[i]];
        slots := slots + [i];
      }
      i := i + 1;
    }
  }

  /** What joins the queue, as a set. */
  lemma {:induction false} EnqueuedSet(parents: seq<Hash>, seen: set<Hash>, base: Hash, slots: seq<nat>)
    requires Selects(parents, seen, base, slots)
    ensures forall q :: q in At(parents, slots) ==> q in parents && q != "" && q != base
    ensures forall p :: p in parents ==> p == "" || p == base || p in seen || p in At(parents, slots)
  {
    forall p | p in parents && p != "" && p != base && p !in seen ensures p in At(parents, slots) {
      var s: nat :| s < |parents| && parents[s] == p;
      var k :| 0 <= k < |slots| && slots[k] == s;
      assert At(parents, slots)[k] == p;
    }
  }

  /** The state of the walk between two visits. */
  ghost predicate Walking(g: Graph, base: Hash, head: Hash, seen: set<Hash>, queue: seq<Hash>)
    requires Acyclic(g)
  {
    && (forall q :: q in queue ==> q in Reach(g, base, head))
    && seen <= Reach(g, base, head) && seen <= g.Keys
    && (forall x, p :: x in seen && p in g[x].parents ==> p == "" || p == base || p in seen || p in queue)
    && (head in seen || head in queue)
  }

  lemma {:induction false} SkipStep(g: Graph, base: Hash, head: Hash, seen: set<Hash>, queue: seq<Hash>)
    requires Acyclic(g) && Walking(g, base, head, seen, queue) && |queue| > 0
    ensures queue[0] in Reach(g, base, head)
    ensures queue[0] in seen ==> Walking(g, base, head, seen, queue[1..])
  {
    assert forall q :: q in queue ==> q == queue[0] || q in queue[1..];
  }

  lemma {:induction false} VisitStep(g: Graph, base: Hash, head: Hash, seen: set<Hash>, queue: seq<Hash>,
                                     queue': seq<Hash>)
    requires Acyclic(g) && Walking(g, base, head, seen, queue) && |queue| > 0
    requires queue[0] in g
    requires forall q :: q in queue[1..] ==> q in queue'
    requires forall q :: q in queue' ==> q in queue[1..] || (q in g[queue[0]].parents && q != "" && q != base)
    requires forall p :: p in g[queue[0]].parents ==> p == "" || p == base || p in seen + {queue[0]} || p in queue'
    ensures Walking(g, base, head, seen + {queue[0]}, queue')
  {
    var hash := queue[0];
    var seen' := seen + {hash};
    forall q | q in queue ensures q in seen' || q in queue' {
      assert q == hash || q in queue[1..];
    }
    forall q | q in queue' ensures q in Reach(g, base, head) {
      if q in queue[1..] {
        assert q in queue;
      } else {
        ReachParent(g, base, head, hash, q);
      }
    }
    forall x, p | x in seen' && p in g[x].parents ensures p == "" || p == base || p in seen' || p in queue' {
      if x != hash {
        assert p == "" || p == base || p in seen || p in queue;
      }
    }
  }

  lemma {:induction false} WalkDone(g: Graph, base: Hash, head: Hash, seen: set<Hash>)
    requires Acyclic(g) && Walking(g, base, head, seen, [])
    ensures seen == Reach(g, base, head)
  {
    ReachIsLeast(g, base, head, seen);
  }

  /** The walk terminates, lists no commit twice, and returns exactly the commits reachable from `head` without
      entering `base`, in breadth-first order; it fails exactly when one of them is missing. */
  method GetCommitsSince(g: Graph, head: Hash, base: Hash) returns (r: Result<seq<Commit>>)
    requires Acyclic(g)
    ensures r.Failure? <==> !(Reach(g, base, head) <= g.Keys)
    ensures r.Failure? ==> r.error == MissingCommit
    ensures r.Success? ==> IsWalk(g, base, head, r.value)
  {
    if head == "" || head == base {
      assert Discovers(g, head, [], []);
      return Success([]);
    }
    var seen: set<Hash> := {};
    var queue := [head];
    var commits: seq<Commit> := [];
    ghost var spots: seq<Spot>, tags: seq<Spot> := [], [];
    assert head in Reach(g, base, head);
    while |queue| > 0
      invariant Walking(g, base, head, seen, queue)
      invariant Lists(g, commits, seen)
      invariant Queued(g, base, head, commits, seen, queue, spots, tags)
      decreases g.Keys - seen, |queue|
    {
      var hash := queue[0];
      SkipStep(g, base, head, seen, queue);
      ReachAvoids(g, base, head, hash);
      if hash == "" || hash == base || hash in seen {
        DropQueued(g, base, head, commits, seen, queue, spots, tags);
        queue, tags := queue[1..], tags[1..];
      } else if hash !in g {
        return Failure(MissingCommit);
      } else {
        ghost var before, listed := queue, commits;
        ghost var slots;
        commits := Visit(g, hash, seen, commits);
        queue, slots := Enqueue(queue[1..], g[hash].parents, seen + {hash}, base);
        spots, tags := ExtendQueued(g, base, head, listed, seen, before, spots, tags, slots);
        EnqueuedSet(g[hash].parents, seen + {hash}, base, slots);
        VisitStep(g, base, head, seen, before, queue);
        seen := seen + {hash};
      }
    }
    assert queue == [];
    WalkDone(g, base, head, seen);
    return Success(commits);
  }

  method Visit(g: Graph, hash: Hash, seen: set<Hash>, commits: seq<Commit>) returns (commits': seq<Commit>)
    requires hash in g && hash !in seen && Lists(g, commits, seen)
    ensures commits' == commits + [Commit(hash, g[hash].meta)] && Lists(g, commits', seen + {hash})
  {
    commits' := commits + [Commit(hash, g[hash].meta)];
    forall h | h in seen + {hash} ensures exists i :: 0 <= i < |commits'| && commits'[i].hash == h {
      if h == hash {
        assert commits'[|commits|].hash == h;
      } else {
        var i :| 0 <= i < |commits| && commits[i].hash == h;
        assert commits'[i].hash == h;
      }
    }
  }

  /** Whatever is an ancestor of the head and not of the base is found. */
  lemma {:induction false} WalkFindsTheRest(g: Graph, head: Hash, base: Hash)
    requires Acyclic(g)
    ensures Anc(g, head) - Anc(g, base) <= Reach(g, base, head) <= Anc(g, head)
  {
    AncestorsSplit(g, base, head);
    ReachIsAncestor(g, base, head);
  }

  /** The walk may also find ancestors of the base: in the graph m -> [b, a], b -> [a] the walk from m that stops at b
      returns a. */
  lemma {:induction false} WalkCanFindAncestorsOfTheBase(a: Hash, b: Hash, m: Hash)
    requires a != "" && b != "" && m != "" && a != b && a != m && b != m
    ensures var g: Graph := map[a := Vertex([], 0, None, 0), b := Vertex([a], 0, None, 1),
                                m := Vertex([b, a], 0, None, 2)];
            Wf(g) && a in Reach(g, b, m) && a in Anc(g, b)
  {
    var g: Graph := map[a := Vertex([], 0, None, 0), b := Vertex([a], 0, None, 1), m := Vertex([b, a], 0, None, 2)];
    assert g[m].parents[1] == a && g[b].parents[0] == a;
    assert a in Reach(g, b, a) && a in Reach(g, "", a);
  }
}
