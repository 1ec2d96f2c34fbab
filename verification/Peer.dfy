/** What the handlers of core/node.go do to a node: its clock, the timestamps it heard, its index and its base. */
module Peer {
  import opened Hlc
  import opened Walk
  import opened Collect
  import opened Index

  datatype Peer = Peer(clock: Reading, heard: map<string, Timestamp>, index: View, base: Option<FinalizedBase>)

  // ---- heartbeats ----

  /** onHeartbeat: our own heartbeats are ignored, another peer's raises its entry and our clock. */
  function AfterHeartbeat(p: Peer, self: string, from: string, t: Timestamp, physical: int): Peer {
    if from == self then p
    else
      p.(heard := if from !in p.heard || Less(p.heard[from], t) then p.heard[from := t] else p.heard,
         clock := AfterUpdate(p.clock, ReadingOf(t), physical))
  }

  // ---- finalization ----

  /** An applied timestamp the base may move to when everything below `stable` is stable. */
  ghost predicate Candidate(p: Peer, stable: Timestamp, h: Timestamp) {
    && h in p.index && p.index[h].status.Applied?
    && Less(ZERO, h) && Less(h, stable)
    && (p.base.Some? ==> Less(p.base.value.hlc, h))
  }

  ghost function Candidates(p: Peer, stable: Timestamp): set<Timestamp> {
    set h | h in p.index && Candidate(p, stable, h)
  }

  /** tryFinalize. */
  ghost function AfterFinalize(p: Peer): Peer {
    if p.heard == map[] then p
    else
      assert p.heard.Values != {} by { HeardValues(p.heard); }
      var stable := Least(p.heard.Values);
      var cs := Candidates(p, stable);
      if IsZero(stable) || cs == {} then p
      else p.(base := Some(FinalizedBase(Greatest(cs), p.index[Greatest(cs)].hash)))
  }

  lemma {:induction false} HeardValues(heard: map<string, Timestamp>)
    requires heard != map[]
    ensures heard.Values != {}
  {
    var k :| k in heard;
    assert heard[k] in heard.Values;
  }

  /** Every heard peer has moved past `h`. */
  ghost predicate Passed(p: Peer, h: Timestamp) {
    p.heard != map[] && forall q :: q in p.heard ==> Less(h, p.heard[q])
  }

  /** A timestamp above the base that is applied here and behind every heard peer. */
  ghost predicate Finalizable(p: Peer, h: Timestamp) {
    && h in p.index && p.index[h].status.Applied?
    && Less(ZERO, h) && Passed(p, h)
    && (p.base.Some? ==> Less(p.base.value.hlc, h))
  }

  lemma {:induction false} BelowStableIffPassed(p: Peer, h: Timestamp)
    requires p.heard != map[]
    ensures p.heard.Values != {} && (Less(h, Least(p.heard.Values)) <==> Passed(p, h))
  {
    HeardValues(p.heard);
    var m := Least(p.heard.Values);
    if Less(h, m) {
      forall q | q in p.heard ensures Less(h, p.heard[q]) {
        assert p.heard[q] in p.heard.Values;
        LessTrichotomy(h, m);
        NotAfterTransitive(h, m, p.heard[q]);
      }
    } else {
      var q :| q in p.heard && p.heard[q] == m;
      assert !Less(h, p.heard[q]);
    }
  }

  /** Finalization moves the base to the greatest finalizable timestamp, and leaves it alone exactly when there is
      none. */
  lemma {:induction false} FinalizeMovesToGreatest(p: Peer)
    ensures var p' := AfterFinalize(p);
            && p' == p.(base := p'.base)
            && (p'.base != p.base <==> exists h :: Finalizable(p, h))
            && (p'.base != p.base ==>
                  && p'.base.Some? && Finalizable(p, p'.base.value.hlc)
                  && p'.base.value.commit == p.index[p'.base.value.hlc].hash
                  && forall h :: Finalizable(p, h) ==> !Less(p'.base.value.hlc, h))
  {
    var p' := AfterFinalize(p);
    if p.heard != map[] {
      HeardValues(p.heard);
      var stable := Least(p.heard.Values);
      forall h ensures Finalizable(p, h) <==> h in Candidates(p, stable) {
        BelowStableIffPassed(p, h);
      }
      forall h | h in Candidates(p, stable) ensures !IsZero(stable) {
      }
      if Candidates(p, stable) != {} {
        var g := Greatest(Candidates(p, stable));
        assert Candidate(p, stable, g);
        LessTrichotomy(g, g);
        assert p'.base == Some(FinalizedBase(g, p.index[g].hash));
      }
    }
  }

  // ---- commit advertisements ----

  /** A commit advertisement as the handler sees it: `meta` is the timestamp in its parsed user metadata, the two flags
      tell whether the signature matches and whether the author's identity was verified (or need not be). */
  datatype Ad = Ad(hlc: Timestamp, meta: Option<Timestamp>, signatureMatches: bool, verified: bool)

  predicate Decided(v: View, h: Timestamp) {
    h in v && (v[h].status.Applied? || v[h].status.Rejected?)
  }

  predicate Skewed(skew: int, h: Timestamp, now: int) {
    skew > 0 && h.wall > now + skew
  }

  /** The advertisement gets past every check. */
  predicate Accepts(p: Peer, self: string, skew: int, ad: Ad, now: int) {
    && !Decided(p.index, ad.hlc) && ad.hlc.peer != self && !Skewed(skew, ad.hlc, now)
    && ad.meta == Some(ad.hlc) && ad.signatureMatches && ad.verified
  }

  /** The advertisement fails a check that marks its timestamp as rejected. */
  predicate Refuses(p: Peer, self: string, skew: int, ad: Ad, now: int) {
    && !Decided(p.index, ad.hlc) && ad.hlc.peer != self
    && (|| Skewed(skew, ad.hlc, now)
        || (ad.meta.Some? && !(ad.meta.value == ad.hlc && ad.signatureMatches && ad.verified)))
  }

  /** onCommitAd. */
  function AfterAd(p: Peer, self: string, skew: int, ad: Ad, now: int, physical: int): Peer {
    if Accepts(p, self, skew, ad, now) then
      p.(clock := AfterUpdate(p.clock, ReadingOf(ad.hlc), physical),
         index := p.index[ad.hlc := Entry(ad.hlc, "", Pending)])
    else if Refuses(p, self, skew, ad, now) then
      p.(index := p.index[ad.hlc := Entry(ad.hlc, "", Rejected)])
    else p
  }

  /** An advertisement of an applied or rejected timestamp, and one of our own, changes nothing. */
  lemma {:induction false} DecidedIsIgnored(p: Peer, self: string, skew: int, ad: Ad, now: int, physical: int)
    requires || (ad.hlc in p.index && p.index[ad.hlc].status in {Applied, Rejected})
             || ad.hlc.peer == self
    ensures AfterAd(p, self, skew, ad, now, physical) == p && !Accepts(p, self, skew, ad, now)
  {
  }

  /** Any other advertisement is judged by its skew, its metadata and its signatures. One that is too far ahead, or
      whose metadata or signatures do not match, is recorded as rejected, and repeating the timestamp changes nothing
      from then on. One without user metadata is ignored. The rest are recorded as pending and move the clock. */
  lemma {:induction false} AdMeaning(p: Peer, self: string, skew: int, ad: Ad, now: int, physical: int)
    requires ad.hlc.peer != self && (ad.hlc in p.index ==> p.index[ad.hlc].status !in {Applied, Rejected})
    ensures var p', h := AfterAd(p, self, skew, ad, now, physical), ad.hlc;
            var late := skew > 0 && h.wall > now + skew;
            var bad := ad.meta.Some? && (ad.meta != Some(h) || !ad.signatureMatches || !ad.verified);
            if late || bad then
              && p' == p.(index := p.index[h := Entry(h, "", Rejected)])
              && forall ad': Ad, now': int, physical': int {:trigger AfterAd(p', self, skew, ad', now', physical')} ::
                   ad'.hlc == h ==> AfterAd(p', self, skew, ad', now', physical') == p'
            else if ad.meta.None? then p' == p
            else
              p' == p.(index := p.index[h := Entry(h, "", Pending)],
                       clock := AfterUpdate(p.clock, Reading(h.wall, h.logical), physical))
  {
    var p' := AfterAd(p, self, skew, ad, now, physical);
    if Refuses(p, self, skew, ad, now) {
      forall ad': Ad, now': int, physical': int | ad'.hlc == ad.hlc
        ensures AfterAd(p', self, skew, ad', now', physical') == p'
      {
        DecidedIsIgnored(p', self, skew, ad', now', physical');
      }
    }
  }

  // ---- rebuilding the index ----

  /** Some commit of `cs` is a user commit with timestamp `h`. */
  ghost predicate Carries(cs: seq<Commit>, h: Timestamp) {
    exists c :: c in cs && c.meta == Some(h)
  }

  /** Commit `i` is the last of the list with timestamp `h`. */
  ghost predicate IsLastCarrier(cs: seq<Commit>, h: Timestamp, i: nat) {
    i < |cs| && cs[i].meta == Some(h) && forall k :: i < k < |cs| ==> cs[k].meta != Some(h)
  }

  /** An entry that a rebuild carries over. */
  ghost predicate Preserved(v: View, h: Timestamp) {
    h in v && Less(ZERO, h) && (v[h].status.Pending? || v[h].status.Rejected?)
  }

  /** The entry is applied and names the last commit of the list that carries the timestamp. */
  ghost predicate NamesLast(cs: seq<Commit>, h: Timestamp, e: Entry) {
    exists i: nat :: IsLastCarrier(cs, h, i) && e == Entry(h, cs[i].hash, Applied)
  }

  /** `v'` is the index rebuilt from `v` and the commits `cs` of main, as the walk lists them: a timestamp is applied
      exactly when a commit carries it, and names the last one that does; every other pending or rejected entry above
      zero is kept as it was, and there is nothing else. */
  ghost predicate IsRebuilt(v: View, cs: seq<Commit>, v': View) {
    && (forall h :: h in v' <==> Carries(cs, h) || Preserved(v, h))
    && (forall h :: h in v' && Carries(cs, h) ==> NamesLast(cs, h, v'[h]))
    && (forall h :: h in v' && !Carries(cs, h) ==> v'[h] == v[h])
  }
}
