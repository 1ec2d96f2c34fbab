/** core/node.go: the node, whose handlers update its clock, the timestamps it heard, its index and its repository. */
module Node {
  import opened Hlc
  import opened Dag
  import opened Walk
  import opened Sorting
  import opened Collect
  import opened Replay
  import opened Index
  import opened Peer
  import opened Safety

  /** The smallest of the heard timestamps, in whatever order the map is iterated. */
  method StableTimestamp(heard: map<string, Timestamp>) returns (stable: Timestamp)
    requires heard != map[]
    ensures heard.Values != {} && stable == Least(heard.Values)
  {
    HeardValues(heard);
    var keys := heard.Keys;
    var first := true;
    stable := ZERO;
    while keys != {}
      invariant keys <= heard.Keys && (first <==> keys == heard.Keys)
      invariant !first ==> stable in heard.Values && forall k :: k in heard && k !in keys ==> !Less(heard[k], stable)
      decreases keys
    {
      var k :| k in keys;
      LessTrichotomy(heard[k], heard[k]);
      if first || Less(heard[k], stable) {
        forall k' | !first && k' in heard && k' !in keys ensures !Less(heard[k'], heard[k]) {
          LessTrichotomy(heard[k], stable);
          NotAfterTransitive(heard[k], stable, heard[k']);
        }
        stable := heard[k];
        first := false;
      }
      keys := keys - {k};
    }
    LeastIsUnique(heard.Values, stable);
  }

  lemma {:induction false} LeastIsUnique(s: set<Timestamp>, m: Timestamp)
    requires m in s && forall t :: t in s ==> !Less(t, m)
    ensures m == Least(s)
  {
    LessTrichotomy(m, Least(s));
  }

  lemma {:induction false} GreatestIsUnique(s: set<Timestamp>, m: Timestamp)
    requires m in s && forall t :: t in s ==> !Less(m, t)
    ensures m == Greatest(s)
  {
    LessTrichotomy(m, Greatest(s));
  }

  predicate Eligible(e: Entry, stable: Timestamp, base: Option<FinalizedBase>) {
    e.status.Applied? && Less(e.hlc, stable) && (base.Some? ==> Less(base.value.hlc, e.hlc))
  }

  /** The eligible entry with the greatest timestamp. */
  method BestEntry(entries: seq<Entry>, stable: Timestamp, base: Option<FinalizedBase>) returns (best: Option<Entry>)
    ensures best.None? ==> forall i :: 0 <= i < |entries| ==> !Eligible(entries[i], stable, base)
    ensures best.Some? ==>
              && best.value in entries && Eligible(best.value, stable, base)
              && forall i :: 0 <= i < |entries| && Eligible(entries[i], stable, base) ==>
                !Less(best.value.hlc, entries[i].hlc)
  {
    best := None;
    for i := 0 to |entries|
      invariant best.None? ==> forall k :: 0 <= k < i ==> !Eligible(entries[k], stable, base)
      invariant best.Some? ==> best.value in entries && Eligible(best.value, stable, base)
      invariant best.Some? ==>
                  forall k :: 0 <= k < i && Eligible(entries[k], stable, base) ==> !Less(best.value.hlc, entries[k].hlc)
    {
      var e := entries[i];
      LessTrichotomy(e.hlc, e.hlc);
      if Eligible(e, stable, base) && (best.None? || Less(best.value.hlc, e.hlc)) {
        forall k | best.Some? && 0 <= k < i && Eligible(entries[k], stable, base) ensures !Less(e.hlc, entries[k].hlc) {
          LessTrichotomy(best.value.hlc, e.hlc);
          NotAfterTransitive(entries[k].hlc, best.value.hlc, e.hlc);
        }
        best := Some(e);
      }
    }
  }

  /** The best entry of the listing is the base that finalization moves to. */
  lemma {:induction false} BestIsFinal(p: Peer, entries: seq<Entry>, stable: Timestamp, best: Option<Entry>)
    requires SelfNamed(p.index) && p.heard.Values != {} && stable == Least(p.heard.Values) && p.heard != map[]
    requires !IsZero(stable) && Elements(entries) == Upper(p.index, ZERO)
    requires best.None? ==> forall i :: 0 <= i < |entries| ==> !Eligible(entries[i], stable, p.base)
    requires best.Some? ==>
               && best.value in entries && Eligible(best.value, stable, p.base)
               && forall i :: 0 <= i < |entries| && Eligible(entries[i], stable, p.base) ==>
                 !Less(best.value.hlc, entries[i].hlc)
    ensures AfterFinalize(p) ==
            if best.None? then p else p.(base := Some(FinalizedBase(best.value.hlc, best.value.hash)))
    ensures best.Some? && p.base.Some? ==> Less(p.base.value.hlc, best.value.hlc)
  {
    forall h | h in Candidates(p, stable)
      ensures p.index[h] in Elements(entries) && Eligible(p.index[h], stable, p.base)
    {
      assert p.index[h] in Upper(p.index, ZERO);
    }
    if best.Some? {
      assert best.value in Elements(entries);
      var h :| h in p.index && Less(ZERO, h) && p.index[h] == best.value;
      assert Candidate(p, stable, h);
      GreatestIsUnique(Candidates(p, stable), h);
    }
  }

  // ---- rebuilding the index ----

  /** The entries that a rebuild carries over. */
  method Undecided(entries: seq<Entry>) returns (kept: seq<Entry>)
    ensures forall e :: e in kept <==> e in entries && !e.status.Applied? && !e.status.Unknown?
  {
    kept := [];
    for i := 0 to |entries|
      invariant forall e :: e in kept <==> e in entries[..i] && !e.status.Applied? && !e.status.Unknown?
    {
      assert entries[..i + 1] == entries[..i] + [entries[i]];
      if !entries[i].status.Applied? && !entries[i].status.Unknown? {
        kept := kept + [entries[i]];
      }
    }
    assert entries[..|entries|] == entries;
  }

  /** The index holds exactly the user commits of `cs`, as applied. */
  ghost predicate AppliedFrom(v: View, cs: seq<Commit>) {
    && (forall h :: h in v <==> Carries(cs, h))
    && (forall h :: h in v ==> NamesLast(cs, h, v[h]))
  }

  /** What becomes of an advertisement. */
  datatype Verdict = Ignore | Refuse | Accept

  ghost function WithCommit(v: View, c: Commit): View {
    if c.meta.Some? then v[c.meta.value := Entry(c.meta.value, c.hash, Applied)] else v
  }

  /** The index after the user commits of the list have been entered one by one. */
  ghost function WithCommits(cs: seq<Commit>): View {
    if |cs| == 0 then map[] else WithCommit(WithCommits(cs[..|cs| - 1]), cs[|cs| - 1])
  }

  lemma {:induction false} AppliedNext(v: View, cs: seq<Commit>, c: Commit)
    requires AppliedFrom(v, cs)
    ensures AppliedFrom(WithCommit(v, c), cs + [c])
  {
    forall h ensures Carries(cs + [c], h) <==> Carries(cs, h) || c.meta == Some(h) {
      assert Carries(cs, h) || c.meta == Some(h) ==> c in cs + [c];
    }
    forall h | h in WithCommit(v, c) ensures NamesLast(cs + [c], h, WithCommit(v, c)[h]) {
      if c.meta == Some(h) {
        assert IsLastCarrier(cs + [c], h, |cs|);
      } else {
        var i: nat :| IsLastCarrier(cs, h, i) && v[h] == Entry(h, cs[i].hash, Applied);
        assert IsLastCarrier(cs + [c], h, i);
      }
    }
  }

  lemma {:induction false} AppliedHolds(cs: seq<Commit>)
    ensures AppliedFrom(WithCommits(cs), cs)
  {
    if |cs| > 0 {
      AppliedHolds(cs[..|cs| - 1]);
      AppliedNext(WithCommits(cs[..|cs| - 1]), cs[..|cs| - 1], cs[|cs| - 1]);
      assert cs[..|cs| - 1] + [cs[|cs| - 1]] == cs;
    }
  }

  /** Enters the user commits of the list, a later one over an earlier one with its timestamp. */
  method ApplyCommits(idx: MemoryCommitIndex, commits: seq<Commit>)
    requires idx.Valid() && idx.View() == map[]
    modifies idx`entries
    ensures idx.Valid() && AppliedFrom(idx.View(), commits)
  {
    for i := 0 to |commits|
      invariant idx.Valid() && idx.View() == WithCommits(commits[..i])
    {
      assert commits[..i + 1][..i] == commits[..i];
      if commits[i].meta.Some? {
        idx.Upsert(Entry(commits[i].meta.value, commits[i].hash, Applied));
      }
    }
    assert commits[..|commits|] == commits;
    AppliedHolds(commits);
  }

  /** The applied entries, and for every other timestamp of the first `n` kept entries that entry. */
  ghost predicate Reapplied(v: View, cs: seq<Commit>, kept: seq<Entry>, n: nat)
    requires n <= |kept|
  {
    && (forall h :: h in v <==> Carries(cs, h) || exists i :: 0 <= i < n && kept[i].hlc == h)
    && (forall h :: h in v && Carries(cs, h) ==> NamesLast(cs, h, v[h]))
    && (forall h :: h in v && !Carries(cs, h) ==> exists i :: 0 <= i < n && kept[i].hlc == h && v[h] == kept[i])
  }

  lemma {:induction false} ReapplyStep(v: View, cs: seq<Commit>, kept: seq<Entry>, n: nat)
    requires n < |kept| && Reapplied(v, cs, kept, n)
    requires forall i :: 0 <= i < |kept| ==> !kept[i].status.Applied?
    ensures var e := kept[n];
            Reapplied(if e.hlc in v && v[e.hlc].status.Applied? then v else v[e.hlc := e], cs, kept, n + 1)
  {
    var e := kept[n];
    var v' := if e.hlc in v && v[e.hlc].status.Applied? then v else v[e.hlc := e];
    forall h | h in v' && !Carries(cs, h) ensures exists i :: 0 <= i < n + 1 && kept[i].hlc == h && v'[h] == kept[i] {
      if h == e.hlc {
        assert v'[h] == kept[n];
      }
    }
  }

  method Reapply(idx: MemoryCommitIndex, kept: seq<Entry>, ghost cs: seq<Commit>)
    requires idx.Valid() && AppliedFrom(idx.View(), cs)
    requires forall i :: 0 <= i < |kept| ==> !kept[i].status.Applied?
    modifies idx`entries
    ensures idx.Valid() && Reapplied(idx.View(), cs, kept, |kept|)
  {
    for i := 0 to |kept|
      invariant idx.Valid() && Reapplied(idx.View(), cs, kept, i)
    {
      ReapplyStep(idx.View(), cs, kept, i);
      var cur := idx.Get(kept[i].hlc);
      if !(cur.Some? && cur.value.status.Applied?) {
        idx.Upsert(kept[i]);
      }
    }
  }

  lemma {:induction false} ReappliedIsRebuilt(v: View, cs: seq<Commit>, entries: seq<Entry>, kept: seq<Entry>, v': View)
    requires SelfNamed(v) && Elements(entries) == Upper(v, ZERO)
    requires forall e :: e in kept <==> e in entries && !e.status.Applied? && !e.status.Unknown?
    requires Reapplied(v', cs, kept, |kept|)
    ensures IsRebuilt(v, cs, v')
  {
    forall h ensures Preserved(v, h) <==> exists i :: 0 <= i < |kept| && kept[i].hlc == h {
      if Preserved(v, h) {
        assert v[h] in Upper(v, ZERO);
        assert v[h] in Elements(entries);
        assert v[h] in kept;
      }
      if i :| 0 <= i < |kept| && kept[i].hlc == h {
        KeptIsEntry(v, entries, kept, i);
      }
    }
    forall h | h in v' && !Carries(cs, h) ensures h in v && v'[h] == v[h] {
      var i :| 0 <= i < |kept| && kept[i].hlc == h && v'[h] == kept[i];
      KeptIsEntry(v, entries, kept, i);
    }
  }

  lemma {:induction false} KeptIsEntry(v: View, entries: seq<Entry>, kept: seq<Entry>, i: nat)
    requires SelfNamed(v) && Elements(entries) == Upper(v, ZERO) && i < |kept|
    requires forall e :: e in kept <==> e in entries && !e.status.Applied? && !e.status.Unknown?
    ensures Preserved(v, kept[i].hlc) && v[kept[i].hlc] == kept[i]
  {
    assert kept[i] in kept;
    assert kept[i] in Elements(entries);
    var h :| h in v && Less(ZERO, h) && v[h] == kept[i];
  }

  lemma {:induction false} MergedIsPass(d: Dolt, names: nat -> Hash, s: Hist, remote: Hash, list: seq<Pick>, s': Hist)
    requires Wf(s.graph) && Sane(d) && Prepared(d, names, s, remote, list)
    requires remote !in Anc(s.graph, s.main) && s.main !in Anc(s.graph, remote)
    requires list == [] ==> Moved(s, s.graph, s.main, s.index, s')
    requires list != [] ==>
               var b := Replayed(PassJob(d, names, s, remote, list));
               Wf(b.graph) && !b.broken && Moved(s, b.graph, b.head, WithRejections(s.index, b.rejected), s')
    ensures IsPass(d, names, s, remote, Pass.Merged(list), s')
  {
    ReplayGrows(PassJob(d, names, s, remote, list), |list|);
  }

  datatype SyncResult = NoRemote | Bootstrapped | Synced(pass: Pass) | Failed(error: Error)

  class Node {
    const id: string
    const repo: string
    const maxClockSkew: int
    const hlc: HLC
    const idx: MemoryCommitIndex
    const rec: Reconciler
    var peerHLC: map<string, Timestamp>

    ghost predicate Valid()
      reads this, hlc, idx, rec
    {
      hlc.Valid() && idx.Valid() && rec.Valid() && hlc.peerID == id
    }

    ghost function State(): Peer
      requires Valid()
      reads this, hlc, idx, rec
    {
      Peer(hlc.Clock(), peerHLC, idx.View(), idx.finalizedBase)
    }

    ghost function History(): Hist
      requires Valid()
      reads this, hlc, idx, rec
    {
      Hist(rec.graph, rec.main, idx.View(), idx.finalizedBase)
    }

    constructor (id: string, repo: string, maxClockSkew: int, hlc: HLC, idx: MemoryCommitIndex, rec: Reconciler)
      requires hlc.Valid() && idx.Valid() && rec.Valid() && hlc.peerID == id
      ensures Valid() && peerHLC == map[]
      ensures this.id == id && this.repo == repo && this.maxClockSkew == maxClockSkew
      ensures this.hlc == hlc && this.idx == idx && this.rec == rec
    {
      this.id, this.repo, this.maxClockSkew := id, repo, maxClockSkew;
      this.hlc, this.idx, this.rec, this.peerHLC := hlc, idx, rec, map[];
    }

    /** publishHeartbeat: a fresh timestamp of our own. */
    method PublishHeartbeat(physical: int) returns (t: Timestamp)
      requires Valid()
      modifies hlc
      ensures Valid()
      ensures State() == old(State()).(clock := AfterNow(old(State()).clock, physical))
      ensures t == Stamp(State().clock, id)
    {
      t := hlc.Now(physical);
    }

    method OnHeartbeat(repo: string, from: string, t: Timestamp, physical: int)
      requires Valid() && IsInt32(t.logical)
      modifies this, hlc
      ensures Valid()
      ensures State() ==
              if repo != this.repo then old(State()) else AfterHeartbeat(old(State()), id, from, t, physical)
    {
      if repo != this.repo || from == id {
        return;
      }
      if from !in peerHLC || Less(peerHLC[from], t) {
        peerHLC := peerHLC[from := t];
      }
      hlc.Update(t, physical);
    }

    method TryFinalize()
      requires Valid()
      modifies idx
      ensures Valid()
      ensures State() == AfterFinalize(old(State()))
      ensures Follows(old(History()), Finalize(peerHLC), History())
    {
      ghost var p, s := State(), History();
      AdvanceBase();
      FinalizeFollows(p, s, History());
    }

    /** The body of tryFinalize: the base moves to the best entry below what every heard peer has passed. */
    method AdvanceBase()
      requires Valid()
      modifies idx
      ensures Valid() && idx.entries == old(idx.entries)
      ensures State() == AfterFinalize(old(State()))
    {
      if peerHLC == map[] {
        return;
      }
      var stable := StableTimestamp(peerHLC);
      if IsZero(stable) {
        return;
      }
      var entries := idx.ListAfter(ZERO, 0);
      FullListing(entries, Upper(idx.View(), ZERO));
      var best := BestEntry(entries, stable, idx.finalizedBase);
      BestIsFinal(State(), entries, stable, best);
      if best.Some? {
        idx.SetFinalizedBase(FinalizedBase(best.value.hlc, best.value.hash));
      }
    }

    /** onCommitAd; `sync` asks for a synchronization pass. */
    method OnCommitAd(repo: string, ad: Ad, now: int, physical: int) returns (sync: bool)
      requires Valid() && IsInt32(ad.hlc.logical)
      modifies hlc, idx
      ensures Valid()
      ensures State() ==
              if repo != this.repo then old(State()) else AfterAd(old(State()), id, maxClockSkew, ad, now, physical)
      ensures sync <==> repo == this.repo && Accepts(old(State()), id, maxClockSkew, ad, now)
    {
      sync := false;
      if repo != this.repo {
        return;
      }
      var v := CheckAd(ad, now);
      if v.Refuse? {
        idx.Upsert(Entry(ad.hlc, "", Rejected));
      } else if v.Accept? {
        hlc.Update(ad.hlc, physical);
        idx.Upsert(Entry(ad.hlc, "", Pending));
        sync := true;
      }
    }

    /** The checks that an advertisement goes through, in order. */
    method CheckAd(ad: Ad, now: int) returns (v: Verdict)
      requires Valid()
      ensures v.Accept? <==> Accepts(State(), id, maxClockSkew, ad, now)
      ensures v.Refuse? <==> Refuses(State(), id, maxClockSkew, ad, now)
    {
      var e := idx.Get(ad.hlc);
      if e.Some? && (e.value.status.Applied? || e.value.status.Rejected?) {
        return Ignore;
      }
      if ad.hlc.peer == id {
        return Ignore;
      }
      if maxClockSkew > 0 && ad.hlc.wall > now + maxClockSkew {
        return Refuse;
      }
      if ad.meta.None? {
        return Ignore;
      }
      if ad.meta.value != ad.hlc {
        return Refuse;
      }
      if !ad.signatureMatches {
        return Refuse;
      }
      if !ad.verified {
        return Refuse;
      }
      return Accept;
    }

    /** initIndexFromDB: the applied entries are rebuilt from main's history, undecided ones are carried over, and the
        finalized base is left alone. */
    method InitIndexFromDB()
      requires Valid()
      modifies idx`entries
      ensures Valid()
      ensures IsRebuiltFrom(rec.graph, rec.main, old(idx.View()), idx.View())
    {
      ghost var v := idx.View();
      var entries := idx.ListAfter(ZERO, 0);
      FullListing(entries, Upper(v, ZERO));
      var preserved := Undecided(entries);
      idx.ResetForRebuild();
      ReachIsPresent(rec.graph, "", rec.main);
      var commits := GetCommitsSince(rec.graph, rec.main, "");
      ApplyCommits(idx, commits.value);
      assert forall i :: 0 <= i < |preserved| ==> preserved[i] in preserved;
      Reapply(idx, preserved, commits.value);
      ReappliedIsRebuilt(v, commits.value, entries, preserved, idx.View());
    }

    /** The rejection hook, for every commit the replay reported. */
    method RecordRejections(rejected: seq<Pick>)
      requires Valid()
      modifies idx`entries
      ensures Valid() && idx.View() == WithRejections(old(idx.View()), rejected)
    {
      for i := 0 to |rejected|
        invariant Valid() && idx.View() == WithRejections(old(idx.View()), rejected[..i])
      {
        assert rejected[..i + 1][..i] == rejected[..i];
        if !IsZero(rejected[i].hlc) {
          idx.Upsert(Entry(rejected[i].hlc, rejected[i].hash, Rejected));
        }
      }
      assert rejected[..|rejected|] == rejected;
    }

    /** A merge with --ff-only: nothing to do when main is ahead, forward when it is behind, otherwise an error. */
    method TryFastForward(remote: Hash) returns (ok: bool)
      requires Valid() && remote in rec.graph
      modifies rec`main
      ensures Valid()
      ensures ok <==> remote in Anc(rec.graph, old(rec.main)) || old(rec.main) in Anc(rec.graph, remote)
      ensures rec.main ==
              if remote in Anc(rec.graph, old(rec.main)) || old(rec.main) !in Anc(rec.graph, remote) then old(rec.main)
              else remote
    {
      ok := true;
      if remote in Anc(rec.graph, rec.main) {
        return;
      }
      if rec.main in Anc(rec.graph, remote) {
        rec.main := remote;
        return;
      }
      ok := false;
    }

    /** Replays the imported commits and records what was rejected. */
    method ReplayAndRecord(d: Dolt, mergeBase: Hash, imported: seq<Commit>, remote: Hash, names: nat -> Hash,
                           curHead: Hash)
      returns (r: Result<nat>, list: seq<Pick>)
      requires Valid() && Sane(d) && FreshNames(rec.graph, names) && curHead in rec.graph && remote in rec.graph
      requires Anc(rec.graph, rec.main) * Anc(rec.graph, remote) != {}
      requires mergeBase in rec.graph && mergeBase == MergeBase(d, History(), remote)
      requires Lists(rec.graph, imported, Reach(rec.graph, mergeBase, remote))
      requires EffectiveBase(mergeBase, idx.finalizedBase) in rec.graph
      modifies idx`entries, rec
      ensures Valid() && Prepared(d, names, old(History()), remote, list)
      ensures list == [] ==> r.Success? && History() == old(History())
      ensures list != [] ==>
                var b := Replayed(PassJob(d, names, old(History()), remote, list));
                && rec.graph == b.graph && idx.View() == WithRejections(old(idx.View()), b.rejected)
                && (if b.broken then r == Failure(MergeFailed) && rec.main == old(rec.main)
                    else if curHead != old(rec.main) then r == Failure(MainAdvanced) && rec.main == curHead
                    else r.Success? && rec.main == b.head)
    {
      var seen := |rec.rejected|;
      r, list := rec.ReplayImportedCommits(d, mergeBase, imported, idx.finalizedBase, names, curHead, remote);
      RecordRejections(rec.rejected[seen..]);
    }

    /** The last part of syncOnce: replay, record what was rejected, rebuild the index. */
    method MergeRemote(d: Dolt, mergeBase: Hash, imported: seq<Commit>, remote: Hash, names: nat -> Hash, curHead: Hash)
      returns (r: SyncResult, list: seq<Pick>)
      requires Valid() && Sane(d) && FreshNames(rec.graph, names) && curHead in rec.graph && remote in rec.graph
      requires Anc(rec.graph, rec.main) * Anc(rec.graph, remote) != {}
      requires mergeBase in rec.graph && mergeBase == MergeBase(d, History(), remote)
      requires Lists(rec.graph, imported, Reach(rec.graph, mergeBase, remote))
      requires EffectiveBase(mergeBase, idx.finalizedBase) in rec.graph
      requires remote !in Anc(rec.graph, rec.main) && rec.main !in Anc(rec.graph, remote)
      modifies idx`entries, rec
      ensures Valid() && (r.Synced? || r.Failed?)
      ensures r.Synced? ==> r.pass == Pass.Merged(list) && IsPass(d, names, old(History()), remote, r.pass, History())
      ensures r.Failed? ==> HasFailed(d, names, old(History()), remote, list, r.error, curHead, History())
    {
      ghost var s := History();
      var replayed;
      replayed, list := ReplayAndRecord(d, mergeBase, imported, remote, names, curHead);
      if replayed.Failure? {
        return Failed(replayed.error), list;
      }
      InitIndexFromDB();
      MergedIsPass(d, names, s, remote, list, History());
      return Synced(Pass.Merged(list)), list;
    }

    /** Fast-forwards if possible, and rebuilds the index then. */
    method FastForward(remote: Hash) returns (ok: bool)
      requires Valid() && remote in rec.graph
      modifies idx`entries, rec`main
      ensures Valid()
      ensures ok <==> remote in Anc(rec.graph, old(rec.main)) || old(rec.main) in Anc(rec.graph, remote)
      ensures !ok ==> History() == old(History())
      ensures ok ==>
                var main := if remote in Anc(rec.graph, old(rec.main)) then old(rec.main) else remote;
                Moved(old(History()), rec.graph, main, old(idx.View()), History())
    {
      ok := TryFastForward(remote);
      if ok {
        InitIndexFromDB();
      }
    }

    /** Fast-forwards if possible and replays otherwise. */
    method Integrate(d: Dolt, mergeBase: Hash, imported: seq<Commit>, remote: Hash, names: nat -> Hash, curHead: Hash)
      returns (r: SyncResult, list: seq<Pick>)
      requires Valid() && Sane(d) && FreshNames(rec.graph, names) && curHead in rec.graph && remote in rec.graph
      requires Anc(rec.graph, rec.main) * Anc(rec.graph, remote) != {} && mergeBase != remote
      requires mergeBase in rec.graph && mergeBase == MergeBase(d, History(), remote)
      requires Lists(rec.graph, imported, Reach(rec.graph, mergeBase, remote))
      requires EffectiveBase(mergeBase, idx.finalizedBase) in rec.graph
      modifies idx`entries, rec
      ensures Valid() && (r.Synced? || r.Failed?)
      ensures r.Synced? ==> IsPass(d, names, old(History()), remote, r.pass, History())
      ensures r.Failed? ==> HasFailed(d, names, old(History()), remote, list, r.error, curHead, History())
    {
      list := [];
      var ok := FastForward(remote);
      if ok {
        return Synced(FastForwarded), list;
      }
      r, list := MergeRemote(d, mergeBase, imported, remote, names, curHead);
    }

    /** The part of syncOnce for histories that share a commit. */
    method SyncShared(d: Dolt, remote: Hash, names: nat -> Hash, curHead: Hash) returns (r: SyncResult, list: seq<Pick>)
      requires Valid() && Sane(d) && FreshNames(rec.graph, names) && curHead in rec.graph && remote in rec.graph
      requires Anc(rec.graph, rec.main) * Anc(rec.graph, remote) != {}
      requires idx.finalizedBase.Some? && idx.finalizedBase.value.commit != "" ==>
                 idx.finalizedBase.value.commit in rec.graph
      modifies idx`entries, rec
      ensures Valid() && (r.Synced? || r.Failed?)
      ensures r.Synced? ==> IsPass(d, names, old(History()), remote, r.pass, History())
      ensures r.Failed? ==> HasFailed(d, names, old(History()), remote, list, r.error, curHead, History())
    {
      list := [];
      var mergeBase := d.pick(Anc(rec.graph, rec.main) * Anc(rec.graph, remote));
      ReachIsPresent(rec.graph, "", rec.main);
      ReachIsPresent(rec.graph, mergeBase, remote);
      var imported := GetCommitsSince(rec.graph, remote, mergeBase);
      EmptyWalkIff(rec.graph, imported.value, mergeBase, remote);
      if |imported.value| == 0 {
        return Synced(NothingNew), list;
      }
      r, list := Integrate(d, mergeBase, imported.value, remote, names, curHead);
    }

    /** syncOnce after the fetch, which left the remote branch at `remoteHead`. `list` is what it replayed. */
    method SyncOnce(d: Dolt, remoteHead: Option<Hash>, names: nat -> Hash, curHead: Hash)
      returns (r: SyncResult, list: seq<Pick>)
      requires Valid() && Sane(d) && FreshNames(rec.graph, names) && curHead in rec.graph
      requires remoteHead.Some? ==> remoteHead.value in rec.graph
      requires idx.finalizedBase.Some? && idx.finalizedBase.value.commit != "" ==>
                 idx.finalizedBase.value.commit in rec.graph
      modifies idx`entries, rec
      ensures Valid()
      ensures r.NoRemote? <==> remoteHead.None?
      ensures r.NoRemote? ==> History() == old(History())
      ensures r.Bootstrapped? ==>
                && Anc(old(rec.graph), old(rec.main)) * Anc(old(rec.graph), remoteHead.value) == {}
                && Moved(old(History()), old(rec.graph), remoteHead.value, old(idx.View()), History())
      ensures r.Synced? ==> IsPass(d, names, old(History()), remoteHead.value, r.pass, History())
      ensures r.Failed? ==> HasFailed(d, names, old(History()), remoteHead.value, list, r.error, curHead, History())
    {
      list := [];
      if remoteHead.None? {
        return NoRemote, list;
      }
      var remote := remoteHead.value;
      var common := Anc(rec.graph, rec.main) * Anc(rec.graph, remote);
      if common == {} {
        rec.main := remote;
        InitIndexFromDB();
        return Bootstrapped, list;
      }
      r, list := SyncShared(d, remote, names, curHead);
    }

    /** A local commit with a fresh timestamp; `hash` is the hash Dolt gives it. */
    method Commit(root: int, hash: Hash, physical: int) returns (t: Timestamp)
      requires Valid() && hash !in rec.graph && hash != ""
      modifies hlc, idx`entries, rec
      ensures Valid()
      ensures t == Stamp(hlc.Clock(), id) && hlc.Clock() == AfterNow(old(hlc.Clock()), physical)
      ensures rec.main == hash && idx.View() == old(idx.View())[t := Entry(t, hash, Applied)]
      ensures Follows(old(History()), Record(hash, root, t, true), History())
    {
      t := hlc.Now(physical);
      rec.Append(hash, root, t);
      idx.Upsert(Entry(t, hash, Applied));
    }
  }

  lemma {:induction false} FinalizeFollows(p: Peer, s: Hist, s': Hist)
    requires Wf(s.graph) && s.main in s.graph && s.index == p.index && s.base == p.base
    requires s' == s.(base := AfterFinalize(p).base)
    ensures Follows(s, Finalize(p.heard), s')
  {
    FinalizeIgnoresClock(p, Reading(0, 0));
  }

  lemma {:induction false} FinalizeIgnoresClock(p: Peer, c: Reading)
    ensures AfterFinalize(p.(clock := c)) == AfterFinalize(p).(clock := c)
  {
    if p.heard != map[] {
      HeardValues(p.heard);
      var stable := Least(p.heard.Values);
      assert Candidates(p, stable) == Candidates(p.(clock := c), stable);
    }
  }

  lemma {:induction false} EmptyWalkIff(g: Graph, cs: seq<Walk.Commit>, base: Hash, head: Hash)
    requires Acyclic(g) && head in g && Lists(g, cs, Reach(g, base, head))
    ensures |cs| == 0 <==> head == base
  {
    if head != base {
      assert head in Reach(g, base, head);
    }
    if |cs| > 0 {
      assert cs[0].hash in Reach(g, base, head);
    }
  }

}
