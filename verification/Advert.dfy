/** Runs of one node that hears arbitrary advertisements and heartbeats, honest or not, and takes local timestamps in
    between. */
module Advert {
  import opened Text
  import opened Hlc
  import opened Peer

  datatype Act =
    | Now(physical: int)
    | Hear(ad: Ad, now: int, physical: int)
    | Beat(from: string, t: Timestamp, physical: int)

  function Do(p: Peer, self: string, skew: int, a: Act): Peer {
    match a
    case Now(physical) => p.(clock := AfterNow(p.clock, physical))
    case Hear(ad, now, physical) => AfterAd(p, self, skew, ad, now, physical)
    case Beat(from, t, physical) => AfterHeartbeat(p, self, from, t, physical)
  }

  ghost function Play(p: Peer, self: string, skew: int, acts: seq<Act>): Peer {
    if |acts| == 0 then p else Do(Play(p, self, skew, acts[..|acts| - 1]), self, skew, acts[|acts| - 1])
  }

  // ---- skew ----

  /** Every local physical reading taken in the run is at most `m`. */
  ghost predicate ReadingsBelow(acts: seq<Act>, m: int) {
    forall i :: 0 <= i < |acts| ==> acts[i].physical <= m && (acts[i].Hear? ==> acts[i].now <= m)
  }

  /** A heartbeat that the node takes in and whose wall is above `limit`. */
  predicate Pushes(self: string, a: Act, limit: int) {
    a.Beat? && a.from != self && a.t.wall > limit
  }

  ghost predicate Pushed(self: string, acts: seq<Act>, limit: int) {
    exists i :: 0 <= i < |acts| && Pushes(self, acts[i], limit)
  }

  /** Exactly when the local wall gets further than the limit beyond the largest local reading: advertisements never
      push it there, and a heartbeat does if and only if its own wall is there. */
  lemma {:induction false} SkewExceededIff(p: Peer, self: string, skew: int, acts: seq<Act>, m: int)
    requires skew > 0 && p.clock.wall <= m + skew && ReadingsBelow(acts, m)
    ensures Play(p, self, skew, acts).clock.wall > m + skew <==> Pushed(self, acts, m + skew)
  {
    if |acts| > 0 {
      var front := acts[..|acts| - 1];
      SkewExceededIff(p, self, skew, front, m);
    }
  }

  /** Advertisements alone never push the wall further than the limit. */
  lemma {:induction false} SkewIsBounded(p: Peer, self: string, skew: int, acts: seq<Act>, m: int)
    requires skew > 0 && p.clock.wall <= m + skew && ReadingsBelow(acts, m)
    requires forall i :: 0 <= i < |acts| ==> !acts[i].Beat?
    ensures Play(p, self, skew, acts).clock.wall <= m + skew
  {
    SkewExceededIff(p, self, skew, acts, m);
  }

  /** A single heartbeat moves the wall to any value above the local one. */
  lemma {:induction false} HeartbeatSkewIsUnbounded(p: Peer, self: string, from: string, wall: int, physical: int)
    requires from != self && wall > p.clock.wall && wall > physical
    ensures AfterHeartbeat(p, self, from, Timestamp(wall, 0, from), physical).clock == Reading(wall, 1)
  {
  }

  // ---- decided entries ----

  /** An entry that is applied or rejected never changes again by advertisements or heartbeats. */
  lemma {:induction false} DecidedStays(p: Peer, self: string, skew: int, acts: seq<Act>, i: nat, h: Timestamp)
    requires i <= |acts| && Decided(Play(p, self, skew, acts[..i]).index, h)
    ensures var p' := Play(p, self, skew, acts);
            h in p'.index && p'.index[h] == Play(p, self, skew, acts[..i]).index[h]
  {
    if i == |acts| {
      assert acts[..i] == acts;
    } else {
      var front := acts[..|acts| - 1];
      assert front[..i] == acts[..i];
      DecidedStays(p, self, skew, front, i, h);
    }
  }

  // ---- pending entries and the next local timestamp ----

  const MIN_INT32: int := -0x8000_0000

  /** The counter of the next local timestamp after an overflow: an update that wrapped is followed by one increment. */
  function Wrapped(updateWrapped: bool): int {
    if updateWrapped then MIN_INT32 + 1 else MIN_INT32
  }

  /** Exactly when an accepted advertisement lies below the next local timestamp: the physical clock has moved past both
      walls, or the wall did, or no counter overflowed on the way, or the advertised counter is as low as a counter gets
      after it wrapped. */
  lemma {:induction false} AdBelowNextIff(p: Peer, self: string, skew: int, ad: Ad, now: int, physical: int, next: int)
    requires Accepts(p, self, skew, ad, now) && IsInt32(p.clock.logical) && IsInt32(ad.hlc.logical)
    ensures var c := AfterAd(p, self, skew, ad, now, physical).clock;
            var overflowed := UpdateOverflows(p.clock, ReadingOf(ad.hlc), physical);
            Less(ad.hlc, Stamp(AfterNow(c, next), self)) <==>
              || next > c.wall
              || ad.hlc.wall < c.wall
              || (!overflowed && !NowOverflows(c, next))
              || ad.hlc.logical < Wrapped(overflowed)
              || (ad.hlc.logical == Wrapped(overflowed) && LexLess(ad.hlc.peer, self))
  {
    UpdateAdvancesIff(p.clock, ReadingOf(ad.hlc), physical);
    NowAdvancesIff(AfterAd(p, self, skew, ad, now, physical).clock, next);
  }

  /** The act increments a counter that is already at its largest value. */
  predicate Overflows(p: Peer, self: string, skew: int, a: Act) {
    match a
    case Now(physical) => NowOverflows(p.clock, physical)
    case Hear(ad, now, physical) =>
      Accepts(p, self, skew, ad, now) && UpdateOverflows(p.clock, ReadingOf(ad.hlc), physical)
    case Beat(from, t, physical) => from != self && UpdateOverflows(p.clock, ReadingOf(t), physical)
  }

  /** Counters on the wire are int32. */
  predicate Typed(a: Act) {
    && (a.Hear? ==> IsInt32(a.ad.hlc.logical))
    && (a.Beat? ==> IsInt32(a.t.logical))
  }

  /** No act of the run overflows a counter. */
  ghost predicate Steady(p: Peer, self: string, skew: int, acts: seq<Act>) {
    forall i :: 0 <= i < |acts| ==> Typed(acts[i]) && !Overflows(Play(p, self, skew, acts[..i]), self, skew, acts[i])
  }

  ghost predicate PendingBehind(p: Peer) {
    forall h :: h in p.index && p.index[h].status.Pending? ==> Earlier(ReadingOf(h), p.clock)
  }

  lemma {:induction false} SteadyFront(p: Peer, self: string, skew: int, acts: seq<Act>)
    requires |acts| > 0 && Steady(p, self, skew, acts)
    ensures var front := acts[..|acts| - 1];
            && Steady(p, self, skew, front) && Typed(acts[|acts| - 1])
            && !Overflows(Play(p, self, skew, front), self, skew, acts[|acts| - 1])
  {
    var front := acts[..|acts| - 1];
    forall i | 0 <= i < |front|
      ensures Typed(front[i]) && !Overflows(Play(p, self, skew, front[..i]), self, skew, front[i])
    {
      assert front[..i] == acts[..i] && front[i] == acts[i];
    }
  }

  lemma {:induction false} PendingStaysBehind(p: Peer, self: string, skew: int, acts: seq<Act>)
    requires PendingBehind(p) && IsInt32(p.clock.logical) && Steady(p, self, skew, acts)
    ensures PendingBehind(Play(p, self, skew, acts)) && IsInt32(Play(p, self, skew, acts).clock.logical)
  {
    if |acts| > 0 {
      var front := acts[..|acts| - 1];
      SteadyFront(p, self, skew, acts);
      PendingStaysBehind(p, self, skew, front);
    }
  }

  /** Whatever an advertisement leaves pending lies below the next local timestamp, as long as no counter overflows. */
  lemma {:induction false} PendingIsBelowNext(p: Peer, self: string, skew: int, acts: seq<Act>, h: Timestamp,
                                              physical: int)
    requires PendingBehind(p) && IsInt32(p.clock.logical) && Steady(p, self, skew, acts)
    requires var p' := Play(p, self, skew, acts);
             h in p'.index && p'.index[h].status.Pending? && !NowOverflows(p'.clock, physical)
    ensures Less(h, Stamp(AfterNow(Play(p, self, skew, acts).clock, physical), self))
  {
    PendingStaysBehind(p, self, skew, acts);
    var c := Play(p, self, skew, acts).clock;
    NowAdvancesIff(c, physical);
    EarlierGivesLess(h, Stamp(AfterNow(c, physical), self));
  }

  /** The counters in play leave room for every act of the run and one more. */
  ghost predicate Roomy(p: Peer, acts: seq<Act>, k: int) {
    && IsInt32(p.clock.logical) && p.clock.logical <= k && -1 <= k && k + |acts| < MAX_INT32
    && (forall i :: 0 <= i < |acts| && acts[i].Hear? ==> IsInt32(acts[i].ad.hlc.logical) && acts[i].ad.hlc.logical <= k)
    && (forall i :: 0 <= i < |acts| && acts[i].Beat? ==> IsInt32(acts[i].t.logical) && acts[i].t.logical <= k)
  }

  lemma {:induction false} RoomyStays(p: Peer, self: string, skew: int, acts: seq<Act>, k: int, i: nat)
    requires Roomy(p, acts, k) && i <= |acts|
    ensures Play(p, self, skew, acts[..i]).clock.logical <= k + i
  {
    if i > 0 {
      RoomyStays(p, self, skew, acts, k, i - 1);
      assert acts[..i][..i - 1] == acts[..i - 1];
    }
  }

  /** A run whose counters leave room overflows nothing, and neither does the local timestamp after it. */
  lemma {:induction false} RoomyIsSteady(p: Peer, self: string, skew: int, acts: seq<Act>, k: int, physical: int)
    requires Roomy(p, acts, k)
    ensures Steady(p, self, skew, acts) && !NowOverflows(Play(p, self, skew, acts).clock, physical)
  {
    forall i | 0 <= i < |acts|
      ensures Typed(acts[i]) && !Overflows(Play(p, self, skew, acts[..i]), self, skew, acts[i])
    {
      RoomyStays(p, self, skew, acts, k, i);
    }
    RoomyStays(p, self, skew, acts, k, |acts|);
    assert acts[..|acts|] == acts;
  }

  /** An advertisement with the largest counter is accepted, wraps the clock, and then lies above the next local
      timestamp. */
  lemma {:induction false} FullCounterWraps(p: Peer, self: string, skew: int, ad: Ad, now: int, physical: int)
    requires Accepts(p, self, skew, ad, now) && ad.hlc.logical == MAX_INT32
    requires ad.hlc.wall >= p.clock.wall && ad.hlc.wall >= physical && IsInt32(p.clock.logical)
    ensures var p' := AfterAd(p, self, skew, ad, now, physical);
            && p'.index[ad.hlc].status.Pending?
            && Less(Stamp(AfterNow(p'.clock, physical), self), ad.hlc)
  {
  }
}
