/** What finalization means for replay: a commit made locally is never filtered out by the base its node holds. */
module Finality {
  import opened Hlc
  import opened Dag
  import Walk
  import opened Collect
  import Swarm

  /** The timestamp of a local commit, made at any point of any run, appears exactly once in every collection that has
      the commit among its inputs and is filtered by the base the node held. */
  lemma {:induction false} LocalCommitIsCollectedOnce(es: seq<Swarm.Event>, p: string, physical: int, hash: Hash,
                                                      s: set<Walk.Commit>, list: seq<Pick>) returns (i: nat)
    requires Swarm.Steady(es) && p in Swarm.Run(es).peers && p != ""
    requires !NowOverflows(Swarm.Run(es).peers[p].clock, physical)
    requires Walk.Commit(hash, Some(Stamp(AfterNow(Swarm.Run(es).peers[p].clock, physical), p))) in s
    requires IsCollection(list, s, Swarm.Run(es).peers[p].base)
    ensures var t := Stamp(AfterNow(Swarm.Run(es).peers[p].clock, physical), p);
            i < |list| && list[i].hlc == t && forall k :: 0 <= k < |list| && list[k].hlc == t ==> k == i
  {
    if Swarm.Run(es).peers[p].base.Some? {
      Swarm.CommitIsAboveBase(es, p, physical);
    }
    i := CollectedOnce(Stamp(AfterNow(Swarm.Run(es).peers[p].clock, physical), p), Swarm.Run(es).peers[p].base, hash,
      s, list);
  }

  lemma {:induction false} CollectedOnce(t: Timestamp, fb: Option<FinalizedBase>, hash: Hash, s: set<Walk.Commit>,
                                         list: seq<Pick>)
    returns (i: nat)
    requires !IsZero(t) && Above(fb, t) && Walk.Commit(hash, Some(t)) in s && IsCollection(list, s, fb)
    ensures i < |list| && list[i].hlc == t && forall k :: 0 <= k < |list| && list[k].hlc == t ==> k == i
  {
    CollectionMeaning(list, s, fb);
    assert Walk.Commit(hash, Some(t)).meta.value == t;
    i :| 0 <= i < |list| && list[i].hlc == t;
    forall a, b | 0 <= a < b < |list| && !IsZero(list[b].hlc) ensures list[a].hlc != list[b].hlc {
      LessTrichotomy(list[a].hlc, list[b].hlc);
    }
  }
}
