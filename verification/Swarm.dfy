/** A swarm of nodes as a system of steps: clocks, commits, heartbeats and advertisements that may be lost, repeated or
    reordered, and finalizations. Physical readings are arbitrary. */
module Swarm {
  import opened Hlc
  import Collect
  import opened Index
  import opened Peer

  /** What a step was. `Idle` is an event that could not take place. */
  datatype Kind = Began | Committed | Beat | Heard(from: nat) | Quiet | Idle

  /** One line of the log: who acted, the clock afterwards, and the physical reading that went into it. */
  datatype Record = Record(actor: string, kind: Kind, clock: Reading, physical: Option<int>)

  datatype Swarm = Swarm(peers: map<string, Peer>, log: seq<Record>)

  /** Messages are named by the step that sent them; hearing `m` delivers the message of step `m`, any number of times
      and at any later moment. `Reindex` puts any index in place: local commits, imports and rebuilds. */
  datatype Event =
    | Start(p: string, physical: int)
    | Commit(p: string, physical: int)
    | Heartbeat(p: string, physical: int)
    | HearHeartbeat(p: string, m: nat, physical: int)
    | HearAd(p: string, m: nat, ad: Ad, skew: int, now: int, physical: int)
    | Finalize(p: string)
    | Reindex(p: string, index: View)

  predicate Issued(r: Record) {
    r.kind.Committed? || r.kind.Beat?
  }

  predicate Live(r: Record) {
    !r.kind.Idle?
  }

  /** The steps that move the clock of a running peer. */
  predicate Ticks(k: Kind) {
    k.Committed? || k.Beat? || k.Heard?
  }

  function TimeOf(r: Record): Timestamp {
    Stamp(r.clock, r.actor)
  }

  predicate Enabled(s: Swarm, e: Event) {
    match e
    case Start(p, _) => p !in s.peers
    case HearHeartbeat(p, m, _) => p in s.peers && m < |s.log| && s.log[m].kind.Beat?
    case HearAd(p, m, ad, _, _, _) =>
      p in s.peers && m < |s.log| && s.log[m].kind.Committed? && ad.hlc == TimeOf(s.log[m])
    case _ => e.p in s.peers
  }

  ghost function Put(s: Swarm, p: string, q: Peer, kind: Kind, physical: Option<int>): Swarm {
    Swarm(s.peers[p := q], s.log + [Record(p, kind, q.clock, physical)])
  }

  ghost function Step(s: Swarm, e: Event): Swarm {
    if !Enabled(s, e) then Idled(s, e.p)
    else
      match e
      case Start(p, physical) => Put(s, p, Peer(Reading(physical, 0), map[], map[], None), Began, Some(physical))
      case Commit(p, physical) =>
        Put(s, p, s.peers[p].(clock := AfterNow(s.peers[p].clock, physical)), Committed, Some(physical))
      case Heartbeat(p, physical) =>
        Put(s, p, s.peers[p].(clock := AfterNow(s.peers[p].clock, physical)), Beat, Some(physical))
      case HearHeartbeat(p, m, physical) =>
        var from := s.log[m].actor;
        Put(s, p, AfterHeartbeat(s.peers[p], p, from, TimeOf(s.log[m]), physical),
            if from == p then Quiet else Heard(m), if from == p then None else Some(physical))
      case HearAd(p, m, ad, skew, now, physical) =>
        var ok := Accepts(s.peers[p], p, skew, ad, now);
        Put(s, p, AfterAd(s.peers[p], p, skew, ad, now, physical), if ok then Heard(m) else Quiet,
            if ok then Some(physical) else None)
      case Finalize(p) => Put(s, p, AfterFinalize(s.peers[p]), Quiet, None)
      case Reindex(p, index) => Put(s, p, s.peers[p].(index := index), Quiet, None)
  }

  /** The swarm after a sequence of events, from no peers at all. */
  ghost function Run(es: seq<Event>): Swarm {
    if |es| == 0 then Swarm(map[], []) else Step(Run(es[..|es| - 1]), es[|es| - 1])
  }

  /** The event increments a counter that is already at its largest value. */
  predicate Overflows(s: Swarm, e: Event) {
    Enabled(s, e) &&
    match e
    case Commit(p, physical) => NowOverflows(s.peers[p].clock, physical)
    case Heartbeat(p, physical) => NowOverflows(s.peers[p].clock, physical)
    case HearHeartbeat(p, m, physical) =>
      s.log[m].actor != p && UpdateOverflows(s.peers[p].clock, s.log[m].clock, physical)
    case HearAd(p, m, ad, skew, now, physical) =>
      Accepts(s.peers[p], p, skew, ad, now) && UpdateOverflows(s.peers[p].clock, s.log[m].clock, physical)
    case _ => false
  }

  ghost predicate SteadyAt(es: seq<Event>, i: nat)
    requires i < |es|
  {
    !Overflows(Run(es[..i]), es[i])
  }

  /** No event of the run overflows a counter. */
  ghost predicate Steady(es: seq<Event>) {
    forall i: nat :: i < |es| ==> SteadyAt(es, i)
  }

  // ---- the invariant ----

  /** A peer's clock never goes back, and every tick moves it forward. */
  ghost predicate Monotone(s: Swarm) {
    forall i, j :: 0 <= i < j < |s.log| && Live(s.log[i]) && Live(s.log[j]) && s.log[i].actor == s.log[j].actor ==>
      !Earlier(s.log[j].clock, s.log[i].clock) && (Ticks(s.log[j].kind) ==> Earlier(s.log[i].clock, s.log[j].clock))
  }

  ghost predicate Current(s: Swarm) {
    forall i :: 0 <= i < |s.log| && Live(s.log[i]) ==>
      s.log[i].actor in s.peers && !Earlier(s.peers[s.log[i].actor].clock, s.log[i].clock)
  }

  /** Whoever accepts a message ends up past its timestamp. */
  ghost predicate Linked(s: Swarm) {
    forall j {:trigger s.log[j].kind.Heard?} :: 0 <= j < |s.log| && s.log[j].kind.Heard? ==>
      && s.log[j].kind.from < j && Issued(s.log[s.log[j].kind.from])
      && Earlier(s.log[s.log[j].kind.from].clock, s.log[j].clock)
  }

  /** Counters are int32 and stay below the number of steps. */
  ghost predicate Small(s: Swarm) {
    && (forall i :: 0 <= i < |s.log| && Live(s.log[i]) ==> 0 <= s.log[i].clock.logical <= Min(i, MAX_INT32))
    && (forall p :: p in s.peers ==>
          0 <= s.peers[p].clock.logical < |s.log| && s.peers[p].clock.logical <= MAX_INT32)
  }

  function Min(x: int, y: int): int {
    if x < y then x else y
  }

  ghost predicate WasRead(s: Swarm, w: int) {
    exists i :: 0 <= i < |s.log| && s.log[i].physical == Some(w)
  }

  /** Every wall value is a physical reading taken somewhere. */
  ghost predicate Grounded(s: Swarm) {
    && (forall i {:trigger s.log[i].clock.wall} ::
          0 <= i < |s.log| && Live(s.log[i]) ==> WasRead(s, s.log[i].clock.wall))
    && (forall p :: p in s.peers ==> WasRead(s, s.peers[p].clock.wall))
  }

  /** `t` is a heartbeat of `p`. */
  ghost predicate WasBeat(s: Swarm, p: string, t: Timestamp) {
    exists i :: 0 <= i < |s.log| && s.log[i].kind.Beat? && s.log[i].actor == p && TimeOf(s.log[i]) == t
  }

  ghost predicate HeardOk(s: Swarm, q: string, peer: Peer) {
    forall p :: p in peer.heard ==>
      p != q && WasBeat(s, p, peer.heard[p]) && Earlier(ReadingOf(peer.heard[p]), peer.clock)
  }

  ghost predicate BaseOk(peer: Peer) {
    peer.base.Some? ==> Earlier(ReadingOf(peer.base.value.hlc), peer.clock)
  }

  ghost predicate PeersOk(s: Swarm) {
    forall q :: q in s.peers ==> HeardOk(s, q, s.peers[q]) && BaseOk(s.peers[q])
  }

  ghost predicate Inv(s: Swarm) {
    Monotone(s) && Current(s) && Linked(s) && Small(s) && Grounded(s) && PeersOk(s)
  }

  // ---- every step keeps it ----

  /** What a step has to respect. */
  ghost predicate Proper(s: Swarm, p: string, q: Peer, kind: Kind, physical: Option<int>) {
    && !kind.Idle?
    && (kind.Began? <==> p !in s.peers)
    && (p in s.peers ==> if Ticks(kind) then Earlier(s.peers[p].clock, q.clock) else q.clock == s.peers[p].clock)
    && 0 <= q.clock.logical <= Min(|s.log|, MAX_INT32)
    && (kind.Heard? ==> kind.from < |s.log| && Issued(s.log[kind.from]) && Earlier(s.log[kind.from].clock, q.clock))
    && (WasRead(s, q.clock.wall) || physical == Some(q.clock.wall))
    && HeardOk(s, p, q) && BaseOk(q)
  }

  lemma {:induction false} PutKeepsMonotone(s: Swarm, p: string, q: Peer, kind: Kind, physical: Option<int>)
    requires Monotone(s) && Current(s) && Proper(s, p, q, kind, physical)
    ensures Monotone(Put(s, p, q, kind, physical))
  {
    var s', n := Put(s, p, q, kind, physical), |s.log|;
    assert s'.log[n] == Record(p, kind, q.clock, physical) && forall i :: 0 <= i < n ==> s'.log[i] == s.log[i];
  }

  lemma {:induction false} PutKeepsLinks(s: Swarm, p: string, q: Peer, kind: Kind, physical: Option<int>)
    requires Current(s) && Linked(s) && Proper(s, p, q, kind, physical)
    ensures var s' := Put(s, p, q, kind, physical); Current(s') && Linked(s')
  {
    var s', n := Put(s, p, q, kind, physical), |s.log|;
    assert s'.log[n] == Record(p, kind, q.clock, physical) && forall i :: 0 <= i < n ==> s'.log[i] == s.log[i];
  }

  lemma {:induction false} PutKeepsBounds(s: Swarm, p: string, q: Peer, kind: Kind, physical: Option<int>)
    requires Small(s) && Grounded(s) && Proper(s, p, q, kind, physical)
    ensures var s' := Put(s, p, q, kind, physical); Small(s') && Grounded(s')
  {
    var s' := Put(s, p, q, kind, physical);
    forall w | WasRead(s, w) ensures WasRead(s', w) {
      var i :| 0 <= i < |s.log| && s.log[i].physical == Some(w);
      assert s'.log[i].physical == Some(w);
    }
    assert s'.log[|s.log|].physical == physical;
  }

  lemma {:induction false} PutKeepsPeers(s: Swarm, p: string, q: Peer, kind: Kind, physical: Option<int>)
    requires PeersOk(s) && Proper(s, p, q, kind, physical)
    ensures PeersOk(Put(s, p, q, kind, physical))
  {
    var s' := Put(s, p, q, kind, physical);
    forall r, t | WasBeat(s, r, t) ensures WasBeat(s', r, t) {
      var i :| 0 <= i < |s.log| && s.log[i].kind.Beat? && s.log[i].actor == r && TimeOf(s.log[i]) == t;
      assert s'.log[i] == s.log[i];
    }
    forall r | r in s'.peers ensures HeardOk(s', r, s'.peers[r]) && BaseOk(s'.peers[r]) {
      assert r != p ==> HeardOk(s, r, s.peers[r]) && BaseOk(s.peers[r]);
    }
  }

  ghost function Idled(s: Swarm, p: string): Swarm {
    s.(log := s.log + [Record(p, Idle, Reading(0, 0), None)])
  }

  lemma {:induction false} IdleKeepsOrder(s: Swarm, p: string)
    requires Monotone(s) && Current(s) && Linked(s)
    ensures Monotone(Idled(s, p)) && Current(Idled(s, p)) && Linked(Idled(s, p))
  {
  }

  lemma {:induction false} IdleKeepsBounds(s: Swarm, p: string)
    requires Small(s) && Grounded(s)
    ensures Small(Idled(s, p)) && Grounded(Idled(s, p))
  {
    var s' := Idled(s, p);
    forall w | WasRead(s, w) ensures WasRead(s', w) {
      var i :| 0 <= i < |s.log| && s.log[i].physical == Some(w);
      assert s'.log[i].physical == Some(w);
    }
  }

  lemma {:induction false} IdleKeepsPeers(s: Swarm, p: string)
    requires PeersOk(s)
    ensures PeersOk(Idled(s, p))
  {
    var s' := Idled(s, p);
    forall r, t | WasBeat(s, r, t) ensures WasBeat(s', r, t) {
      var i :| 0 <= i < |s.log| && s.log[i].kind.Beat? && s.log[i].actor == r && TimeOf(s.log[i]) == t;
      assert s'.log[i] == s.log[i];
    }
    forall r | r in s'.peers ensures HeardOk(s', r, s'.peers[r]) && BaseOk(s'.peers[r]) {
      assert HeardOk(s, r, s.peers[r]);
    }
  }

  lemma {:induction false} EarlierTransitive(a: Reading, b: Reading, c: Reading)
    requires !Earlier(b, a) && Earlier(b, c)
    ensures Earlier(a, c)
  {
  }

  /** Moving the clock forward keeps what was heard and the base behind it. */
  lemma {:induction false} AdvanceIsProper(s: Swarm, p: string, q: Peer)
    requires Inv(s) && p in s.peers && q.heard == s.peers[p].heard && q.base == s.peers[p].base
    requires !Earlier(q.clock, s.peers[p].clock)
    ensures HeardOk(s, p, q) && BaseOk(q)
  {
    assert HeardOk(s, p, s.peers[p]);
  }

  /** A step that leaves the clock alone. */
  lemma {:induction false} QuietIsProper(s: Swarm, p: string, q: Peer)
    requires Inv(s) && p in s.peers && q.clock == s.peers[p].clock && HeardOk(s, p, q) && BaseOk(q)
    ensures Proper(s, p, q, Quiet, None)
  {
  }

  lemma {:induction false} NowIsProper(s: Swarm, p: string, physical: int, kind: Kind)
    requires Inv(s) && p in s.peers && !NowOverflows(s.peers[p].clock, physical) && (kind.Committed? || kind.Beat?)
    ensures Proper(s, p, s.peers[p].(clock := AfterNow(s.peers[p].clock, physical)), kind, Some(physical))
  {
    NowAdvancesIff(s.peers[p].clock, physical);
    AdvanceIsProper(s, p, s.peers[p].(clock := AfterNow(s.peers[p].clock, physical)));
  }

  /** The clock after a message that the swarm sent. */
  lemma {:induction false} UpdateIsProper(s: Swarm, p: string, m: nat, physical: int)
    requires Inv(s) && p in s.peers && m < |s.log| && Issued(s.log[m])
    requires !UpdateOverflows(s.peers[p].clock, s.log[m].clock, physical)
    ensures var c := AfterUpdate(s.peers[p].clock, s.log[m].clock, physical);
            && Earlier(s.peers[p].clock, c) && Earlier(s.log[m].clock, c)
            && 0 <= c.logical <= Min(|s.log|, MAX_INT32)
            && (WasRead(s, c.wall) || physical == c.wall)
  {
    UpdateAdvancesIff(s.peers[p].clock, s.log[m].clock, physical);
  }

  lemma {:induction false} HeardHeartbeatIsOk(s: Swarm, p: string, m: nat, physical: int)
    requires Inv(s) && p in s.peers && m < |s.log| && s.log[m].kind.Beat? && s.log[m].actor != p
    requires !UpdateOverflows(s.peers[p].clock, s.log[m].clock, physical)
    ensures HeardOk(s, p, AfterHeartbeat(s.peers[p], p, s.log[m].actor, TimeOf(s.log[m]), physical))
  {
    var r := s.log[m];
    var q := AfterHeartbeat(s.peers[p], p, r.actor, TimeOf(r), physical);
    UpdateIsProper(s, p, m, physical);
    AdvanceIsProper(s, p, s.peers[p].(clock := q.clock));
    assert WasBeat(s, r.actor, TimeOf(r));
  }

  lemma {:induction false} HeardHeartbeatIsProper(s: Swarm, p: string, m: nat, physical: int)
    requires Inv(s) && p in s.peers && m < |s.log| && s.log[m].kind.Beat? && s.log[m].actor != p
    requires !UpdateOverflows(s.peers[p].clock, s.log[m].clock, physical)
    ensures var q := AfterHeartbeat(s.peers[p], p, s.log[m].actor, TimeOf(s.log[m]), physical);
            Proper(s, p, q, Heard(m), Some(physical))
  {
    var q := AfterHeartbeat(s.peers[p], p, s.log[m].actor, TimeOf(s.log[m]), physical);
    UpdateIsProper(s, p, m, physical);
    AdvanceIsProper(s, p, s.peers[p].(clock := q.clock));
    HeardHeartbeatIsOk(s, p, m, physical);
  }

  lemma {:induction false} HearHeartbeatKeeps(s: Swarm, p: string, m: nat, physical: int)
    requires Inv(s) && Enabled(s, HearHeartbeat(p, m, physical)) && !Overflows(s, HearHeartbeat(p, m, physical))
    ensures Inv(Step(s, HearHeartbeat(p, m, physical)))
  {
    var r := s.log[m];
    var q := AfterHeartbeat(s.peers[p], p, r.actor, TimeOf(r), physical);
    if r.actor == p {
      AdvanceIsProper(s, p, q);
      QuietIsProper(s, p, q);
      PutKeeps(s, p, q, Quiet, None);
    } else {
      HeardHeartbeatIsProper(s, p, m, physical);
      PutKeeps(s, p, q, Heard(m), Some(physical));
    }
  }

  lemma {:induction false} PutKeeps(s: Swarm, p: string, q: Peer, kind: Kind, physical: Option<int>)
    requires Inv(s) && Proper(s, p, q, kind, physical)
    ensures Inv(Put(s, p, q, kind, physical))
  {
    PutKeepsMonotone(s, p, q, kind, physical);
    PutKeepsLinks(s, p, q, kind, physical);
    PutKeepsBounds(s, p, q, kind, physical);
    PutKeepsPeers(s, p, q, kind, physical);
  }

  lemma {:induction false} HearAdKeeps(s: Swarm, p: string, m: nat, ad: Ad, skew: int, now: int, physical: int)
    requires Inv(s) && Enabled(s, HearAd(p, m, ad, skew, now, physical))
    requires !Overflows(s, HearAd(p, m, ad, skew, now, physical))
    ensures Inv(Step(s, HearAd(p, m, ad, skew, now, physical)))
  {
    var q := AfterAd(s.peers[p], p, skew, ad, now, physical);
    if Accepts(s.peers[p], p, skew, ad, now) {
      UpdateIsProper(s, p, m, physical);
      AdvanceIsProper(s, p, q);
      PutKeeps(s, p, q, Heard(m), Some(physical));
    } else {
      AdvanceIsProper(s, p, q);
      QuietIsProper(s, p, q);
      PutKeeps(s, p, q, Quiet, None);
    }
  }

  /** A base that finalization moves to lies behind the node's own clock. */
  lemma {:induction false} FinalizedIsBehind(s: Swarm, q: string)
    requires Inv(s) && q in s.peers
    ensures BaseOk(AfterFinalize(s.peers[q]))
  {
    var peer := s.peers[q];
    var peer' := AfterFinalize(peer);
    FinalizeMovesToGreatest(peer);
    if peer'.base != peer.base {
      var p :| p in peer.heard;
      assert HeardOk(s, q, peer);
      assert Less(peer'.base.value.hlc, peer.heard[p]);
      EarlierTransitive(ReadingOf(peer'.base.value.hlc), ReadingOf(peer.heard[p]), peer.clock);
    }
  }

  lemma {:induction false} FinalizeIsPut(s: Swarm, p: string)
    requires p in s.peers
    ensures Step(s, Finalize(p)) == Put(s, p, AfterFinalize(s.peers[p]), Quiet, None)
  {
  }

  lemma {:induction false} FinalizeKeeps(s: Swarm, p: string)
    requires Inv(s) && p in s.peers
    ensures Inv(Step(s, Finalize(p)))
  {
    FinalizeIsProper(s, p);
    PutKeeps(s, p, AfterFinalize(s.peers[p]), Quiet, None);
    FinalizeIsPut(s, p);
  }

  lemma {:induction false} FinalizeIsProper(s: Swarm, p: string)
    requires Inv(s) && p in s.peers
    ensures Proper(s, p, AfterFinalize(s.peers[p]), Quiet, None)
  {
    var q := AfterFinalize(s.peers[p]);
    FinalizeOnlyMovesBase(s.peers[p]);
    FinalizedIsBehind(s, p);
    assert HeardOk(s, p, s.peers[p]);
    QuietIsProper(s, p, q);
  }

  lemma {:induction false} FinalizeOnlyMovesBase(p: Peer)
    ensures AfterFinalize(p) == p.(base := AfterFinalize(p).base)
  {
  }

  lemma {:induction false} StepKeeps(s: Swarm, e: Event)
    requires Inv(s) && !Overflows(s, e)
    ensures Inv(Step(s, e))
  {
    if !Enabled(s, e) {
      IdleKeepsOrder(s, e.p);
      IdleKeepsBounds(s, e.p);
      IdleKeepsPeers(s, e.p);
    } else {
      match e {
        case Start(p, physical) =>
          PutKeeps(s, p, Peer(Reading(physical, 0), map[], map[], None), Began, Some(physical));
        case Commit(p, physical) =>
          NowIsProper(s, p, physical, Committed);
          PutKeeps(s, p, s.peers[p].(clock := AfterNow(s.peers[p].clock, physical)), Committed, Some(physical));
        case Heartbeat(p, physical) =>
          NowIsProper(s, p, physical, Beat);
          PutKeeps(s, p, s.peers[p].(clock := AfterNow(s.peers[p].clock, physical)), Beat, Some(physical));
        case HearHeartbeat(p, m, physical) =>
          HearHeartbeatKeeps(s, p, m, physical);
        case HearAd(p, m, ad, skew, now, physical) =>
          HearAdKeeps(s, p, m, ad, skew, now, physical);
        case Finalize(p) =>
          FinalizeKeeps(s, p);
        case Reindex(p, index) =>
          AdvanceIsProper(s, p, s.peers[p].(index := index));
          QuietIsProper(s, p, s.peers[p].(index := index));
          PutKeeps(s, p, s.peers[p].(index := index), Quiet, None);
      }
    }
  }

  // ---- runs ----

  lemma {:induction false} SteadyAtPrefix(es: seq<Event>, k: nat, i: nat)
    requires i < k <= |es|
    ensures SteadyAt(es[..k], i) <==> SteadyAt(es, i)
  {
    assert es[..k][..i] == es[..i];
  }

  lemma {:induction false} SteadyPrefix(es: seq<Event>, k: nat)
    requires Steady(es) && k <= |es|
    ensures Steady(es[..k])
  {
    forall i: nat | i < k ensures SteadyAt(es[..k], i) {
      SteadyAtPrefix(es, k, i);
    }
  }

  lemma {:induction false} SteadyNext(es: seq<Event>)
    requires |es| > 0 && Steady(es[..|es| - 1]) && SteadyAt(es, |es| - 1)
    ensures Steady(es)
  {
    forall i: nat | i < |es| - 1 ensures SteadyAt(es, i) {
      SteadyAtPrefix(es, |es| - 1, i);
    }
  }

  /** In every run in which no counter overflows the invariant holds. */
  lemma {:induction false} RunKeeps(es: seq<Event>)
    requires Steady(es)
    ensures Inv(Run(es)) && |Run(es).log| == |es|
  {
    if |es| > 0 {
      var front := es[..|es| - 1];
      SteadyPrefix(es, |es| - 1);
      assert SteadyAt(es, |es| - 1);
      RunKeeps(front);
      StepKeeps(Run(front), es[|es| - 1]);
      StepLogs(Run(front), es[|es| - 1]);
    }
  }

  /** A counter needs 2^31 - 1 steps to get to its largest value. */
  lemma {:induction false} EarlyIsSteady(s: Swarm, e: Event)
    requires Inv(s) && |s.log| <= MAX_INT32
    ensures !Overflows(s, e)
  {
  }

  /** A run of at most 2^31 events overflows nothing. */
  lemma {:induction false} ShortIsSteady(es: seq<Event>)
    requires |es| <= MAX_INT32 + 1
    ensures Steady(es)
  {
    if |es| > 0 {
      var front := es[..|es| - 1];
      ShortIsSteady(front);
      RunKeeps(front);
      EarlyIsSteady(Run(front), es[|es| - 1]);
      SteadyNext(es);
    }
  }

  lemma {:induction false} RunSnoc(es: seq<Event>, e: Event)
    ensures Run(es + [e]) == Step(Run(es), e)
  {
    assert (es + [e])[..|es|] == es;
  }

  lemma {:induction false} StepLogs(s: Swarm, e: Event)
    ensures s.log <= Step(s, e).log && |Step(s, e).log| == |s.log| + 1
  {
  }

  lemma {:induction false} LogGrows(es: seq<Event>, k: nat)
    requires k <= |es|
    ensures Run(es[..k]).log <= Run(es).log && |Run(es).log| == |es|
  {
    if |es| == 0 {
      assert es[..k] == es;
    } else {
      var front := es[..|es| - 1];
      StepLogs(Run(front), es[|es| - 1]);
      if k == |es| {
        assert es[..k] == es;
        LogGrows(front, k - 1);
      } else {
        assert front[..k] == es[..k];
        LogGrows(front, k);
      }
    }
  }

  /** One event directly precedes another: on the same peer, or by a message that was accepted. */
  ghost predicate Precedes(log: seq<Record>, i: nat, j: nat) {
    && i < j < |log| && Live(log[i]) && Live(log[j])
    && (log[i].actor == log[j].actor || log[j].kind == Heard(i))
  }

  /** A chain of events, each directly preceding the next. */
  ghost predicate IsChain(log: seq<Record>, chain: seq<nat>) {
    && |chain| > 0
    && (forall k :: 0 <= k < |chain| ==> chain[k] < |log|)
    && (forall k :: 0 <= k < |chain| - 1 ==> Precedes(log, chain[k], chain[k + 1]))
  }

  lemma {:induction false} ChainNeverGoesBack(s: Swarm, chain: seq<nat>)
    requires Inv(s) && IsChain(s.log, chain)
    ensures !Earlier(s.log[chain[|chain| - 1]].clock, s.log[chain[0]].clock)
    decreases |chain|
  {
    if |chain| > 1 {
      var n := |chain|;
      assert Precedes(s.log, chain[n - 2], chain[n - 1]);
      ChainNeverGoesBack(s, chain[..n - 1]);
    }
  }

  lemma {:induction false} ChainAdvances(s: Swarm, chain: seq<nat>)
    requires Inv(s) && IsChain(s.log, chain) && |chain| > 1 && Issued(s.log[chain[|chain| - 1]])
    ensures Earlier(s.log[chain[0]].clock, s.log[chain[|chain| - 1]].clock)
  {
    var n := |chain|;
    ChainNeverGoesBack(s, chain[..n - 1]);
    LinkAdvances(s, chain[n - 2], chain[n - 1]);
    EarlierTransitive(s.log[chain[0]].clock, s.log[chain[n - 2]].clock, s.log[chain[n - 1]].clock);
  }

  lemma {:induction false} LinkAdvances(s: Swarm, i: nat, j: nat)
    requires Inv(s) && Precedes(s.log, i, j) && Issued(s.log[j])
    ensures Earlier(s.log[i].clock, s.log[j].clock)
  {
  }

  /** Happens-before implies strictly less: a timestamp issued after another, along any chain of local events and
      accepted messages, is greater. */
  lemma {:induction false} HappensBeforeImpliesLess(es: seq<Event>, chain: seq<nat>)
    requires Steady(es)
    requires IsChain(Run(es).log, chain) && |chain| > 1
    requires Issued(Run(es).log[chain[0]]) && Issued(Run(es).log[chain[|chain| - 1]])
    ensures Less(TimeOf(Run(es).log[chain[0]]), TimeOf(Run(es).log[chain[|chain| - 1]]))
  {
    RunKeeps(es);
    ChainAdvances(Run(es), chain);
    EarlierGivesLess(TimeOf(Run(es).log[chain[0]]), TimeOf(Run(es).log[chain[|chain| - 1]]));
  }

  /** No two issued timestamps are equal, whatever the physical clocks do. */
  lemma {:induction false} IssuedTimestampsDiffer(es: seq<Event>, i: nat, j: nat)
    requires Steady(es) && i < j < |Run(es).log|
    requires Issued(Run(es).log[i]) && Issued(Run(es).log[j])
    ensures TimeOf(Run(es).log[i]) != TimeOf(Run(es).log[j])
  {
    RunKeeps(es);
  }

  /** Clock bounds: every wall value is a physical reading that some peer took, so it is at most any bound on the
      readings, and every counter is below the number of steps. */
  lemma {:induction false} ClockBounds(es: seq<Event>, p: string, bound: int)
    requires Steady(es) && p in Run(es).peers
    requires forall i :: 0 <= i < |Run(es).log| && Run(es).log[i].physical.Some? ==>
      Run(es).log[i].physical.value <= bound
    ensures Run(es).peers[p].clock.wall <= bound
    ensures 0 <= Run(es).peers[p].clock.logical < |es|
  {
    RunKeeps(es);
  }

  // ---- finalization ----

  /** `end` continues `s` by a step of `q` that leaves the clock of `q` alone. */
  ghost predicate Continues(s: Swarm, q: string, end: Swarm) {
    && q in s.peers && s.log < end.log
    && Live(end.log[|s.log|]) && end.log[|s.log|].actor == q && end.log[|s.log|].clock == s.peers[q].clock
  }

  lemma {:induction false} OwnStability(s: Swarm, q: string, end: Swarm, j: nat)
    requires Inv(s) && Inv(end) && Continues(s, q, end)
    requires AfterFinalize(s.peers[q]).base.Some?
    requires |s.log| < j < |end.log| && Issued(end.log[j]) && end.log[j].actor == q
    ensures Less(AfterFinalize(s.peers[q]).base.value.hlc, TimeOf(end.log[j]))
  {
    var base, t := AfterFinalize(s.peers[q]).base.value.hlc, TimeOf(end.log[j]);
    FinalizedIsBehind(s, q);
    EarlierTransitive(ReadingOf(base), s.peers[q].clock, ReadingOf(t));
    EarlierGivesLess(base, t);
  }

  /** What a heard peer issues later is above what was heard of it. */
  lemma {:induction false} LaterThanHeard(s: Swarm, q: string, end: Swarm, j: nat)
    requires Inv(s) && Inv(end) && Continues(s, q, end)
    requires |s.log| < j < |end.log| && Issued(end.log[j]) && end.log[j].actor in s.peers[q].heard
    ensures Less(s.peers[q].heard[end.log[j].actor], TimeOf(end.log[j]))
  {
    var peer, p := s.peers[q], end.log[j].actor;
    assert HeardOk(s, q, peer);
    assert WasBeat(s, p, peer.heard[p]);
    var m :| 0 <= m < |s.log| && s.log[m].kind.Beat? && s.log[m].actor == p && TimeOf(s.log[m]) == peer.heard[p];
    assert end.log[m] == s.log[m];
    EarlierGivesLess(peer.heard[p], TimeOf(end.log[j]));
  }

  lemma {:induction false} HeardStability(s: Swarm, q: string, end: Swarm, j: nat)
    requires Inv(s) && Inv(end) && Continues(s, q, end)
    requires AfterFinalize(s.peers[q]).base != s.peers[q].base
    requires |s.log| < j < |end.log| && Issued(end.log[j]) && end.log[j].actor in s.peers[q].heard
    ensures AfterFinalize(s.peers[q]).base.Some?
    ensures Less(AfterFinalize(s.peers[q]).base.value.hlc, TimeOf(end.log[j]))
  {
    var peer, p := s.peers[q], end.log[j].actor;
    FinalizeMovesToGreatest(peer);
    LaterThanHeard(s, q, end, j);
    LessTransitive(AfterFinalize(peer).base.value.hlc, peer.heard[p], TimeOf(end.log[j]));
  }

  lemma {:induction false} FinalizeContinues(es: seq<Event>, i: nat)
    requires i < |es| && es[i].Finalize? && es[i].p in Run(es[..i]).peers
    ensures Continues(Run(es[..i]), es[i].p, Run(es))
  {
    var s := Run(es[..i]);
    RunSnoc(es[..i], es[i]);
    assert es[..i] + [es[i]] == es[..i + 1];
    FinalizeMovesToGreatest(s.peers[es[i].p]);
    assert Run(es[..i + 1]).log == s.log + [Record(es[i].p, Quiet, s.peers[es[i].p].clock, None)];
    LogGrows(es, i + 1);
    assert Run(es).log[|s.log|] == Run(es[..i + 1]).log[|s.log|];
  }

  /** Causal stability: once a node moves its base, neither it nor any peer it had heard from ever again issues a
      timestamp at or below that base, however heartbeats are lost, repeated or reordered. */
  lemma {:induction false} CausalStability(es: seq<Event>, i: nat, j: nat)
    requires Steady(es) && i < j < |Run(es).log| && i < |es| && es[i].Finalize?
    requires es[i].p in Run(es[..i]).peers
    requires var peer := Run(es[..i]).peers[es[i].p];
             && AfterFinalize(peer).base != peer.base
             && (Run(es).log[j].actor == es[i].p || Run(es).log[j].actor in peer.heard)
    requires Issued(Run(es).log[j])
    ensures var base := AfterFinalize(Run(es[..i]).peers[es[i].p]).base;
            base.Some? && Less(base.value.hlc, TimeOf(Run(es).log[j]))
  {
    SteadyPrefix(es, i);
    RunKeeps(es[..i]);
    RunKeeps(es);
    FinalizeContinues(es, i);
    var s, q := Run(es[..i]), es[i].p;
    FinalizeMovesToGreatest(s.peers[q]);
    if Run(es).log[j].actor == q {
      OwnStability(s, q, Run(es), j);
    } else {
      HeardStability(s, q, Run(es), j);
    }
  }

  /** A local commit always lies above the base its node holds. */
  lemma {:induction false} CommitIsAboveBase(es: seq<Event>, p: string, physical: int)
    requires Steady(es) && p in Run(es).peers && Run(es).peers[p].base.Some?
    requires !NowOverflows(Run(es).peers[p].clock, physical)
    ensures var t := Stamp(AfterNow(Run(es).peers[p].clock, physical), p);
            && Less(Run(es).peers[p].base.value.hlc, t)
            && Run(es + [Commit(p, physical)]).log == Run(es).log + [Record(p, Committed, ReadingOf(t), Some(physical))]
  {
    RunKeeps(es);
    var s := Run(es);
    NowIsProper(s, p, physical, Committed);
    assert BaseOk(s.peers[p]);
    var t := Stamp(AfterNow(s.peers[p].clock, physical), p);
    EarlierTransitive(ReadingOf(s.peers[p].base.value.hlc), s.peers[p].clock, ReadingOf(t));
    EarlierGivesLess(s.peers[p].base.value.hlc, t);
    assert (es + [Commit(p, physical)])[..|es|] == es;
  }

  // ---- nothing goes back ----

  ghost predicate BaseAdvances(a: Option<Collect.FinalizedBase>, b: Option<Collect.FinalizedBase>) {
    a.Some? ==> b.Some? && (a == b || Less(a.value.hlc, b.value.hlc))
  }

  ghost predicate HeardAdvances(a: map<string, Timestamp>, b: map<string, Timestamp>) {
    forall p :: p in a ==> p in b && !Less(b[p], a[p])
  }

  lemma {:induction false} StepAdvances(s: Swarm, e: Event, q: string)
    requires q in s.peers
    ensures q in Step(s, e).peers
    ensures BaseAdvances(s.peers[q].base, Step(s, e).peers[q].base)
    ensures HeardAdvances(s.peers[q].heard, Step(s, e).peers[q].heard)
  {
    var peer := s.peers[q];
    forall p | p in peer.heard ensures !Less(peer.heard[p], peer.heard[p]) {
      LessTrichotomy(peer.heard[p], peer.heard[p]);
    }
    if e.Finalize? {
      FinalizeMovesToGreatest(s.peers[q]);
    }
    if e.HearHeartbeat? && Enabled(s, e) && e.p == q {
      var from, t := s.log[e.m].actor, TimeOf(s.log[e.m]);
      if from in peer.heard {
        LessTrichotomy(peer.heard[from], t);
      }
    }
  }

  /** Over every run neither a node's base nor its entry for any peer decreases. */
  lemma {:induction false} RunAdvances(es: seq<Event>, i: nat, q: string)
    requires i <= |es| && q in Run(es[..i]).peers
    ensures q in Run(es).peers
    ensures BaseAdvances(Run(es[..i]).peers[q].base, Run(es).peers[q].base)
    ensures HeardAdvances(Run(es[..i]).peers[q].heard, Run(es).peers[q].heard)
  {
    if i == |es| {
      assert es[..i] == es;
      forall p | p in Run(es).peers[q].heard ensures !Less(Run(es).peers[q].heard[p], Run(es).peers[q].heard[p]) {
        LessTrichotomy(Run(es).peers[q].heard[p], Run(es).peers[q].heard[p]);
      }
    } else {
      var front := es[..|es| - 1];
      assert front[..i] == es[..i];
      RunAdvances(front, i, q);
      StepAdvances(Run(front), es[|es| - 1], q);
      AdvancesCompose(Run(es[..i]).peers[q], Run(front).peers[q], Run(es).peers[q]);
    }
  }

  lemma {:induction false} AdvancesCompose(a: Peer, b: Peer, c: Peer)
    requires BaseAdvances(a.base, b.base) && BaseAdvances(b.base, c.base)
    requires HeardAdvances(a.heard, b.heard) && HeardAdvances(b.heard, c.heard)
    ensures BaseAdvances(a.base, c.base) && HeardAdvances(a.heard, c.heard)
  {
    if a.base.Some? && a.base != b.base && b.base != c.base {
      LessTransitive(a.base.value.hlc, b.base.value.hlc, c.base.value.hlc);
    }
    forall p | p in a.heard ensures p in c.heard && !Less(c.heard[p], a.heard[p]) {
      NotAfterTransitive(a.heard[p], b.heard[p], c.heard[p]);
    }
  }

  // ---- what a node has heard ----

  /** Step `k` was `q` taking in a heartbeat of `p`. */
  predicate TakesIn(log: seq<Record>, k: nat, q: string, p: string) {
    && k < |log| && log[k].actor == q && log[k].kind.Heard? && log[k].kind.from < k
    && log[log[k].kind.from].kind.Beat? && log[log[k].kind.from].actor == p
  }

  /** The heartbeat that step `k` took in. */
  function TakenIn(log: seq<Record>, k: nat, q: string, p: string): Timestamp
    requires TakesIn(log, k, q, p)
  {
    TimeOf(log[log[k].kind.from])
  }

  /** The entry for `p` is the greatest heartbeat of `p` that `q` took in, and there is one only if there was any. */
  ghost predicate HeardGreatest(s: Swarm, q: string, p: string)
    requires q in s.peers
  {
    && (p in s.peers[q].heard <==> exists k: nat :: TakesIn(s.log, k, q, p))
    && (p in s.peers[q].heard ==>
          && (exists k: nat :: TakesIn(s.log, k, q, p) && TakenIn(s.log, k, q, p) == s.peers[q].heard[p])
          && (forall k: nat :: TakesIn(s.log, k, q, p) ==> !Less(s.peers[q].heard[p], TakenIn(s.log, k, q, p))))
  }

  /** Steps before the last are seen in the longer log as they were. */
  lemma {:induction false} TakesInStays(log: seq<Record>, r: Record, k: nat, q: string, p: string)
    requires k < |log|
    ensures TakesIn(log + [r], k, q, p) <==> TakesIn(log, k, q, p)
    ensures TakesIn(log, k, q, p) ==> TakenIn(log + [r], k, q, p) == TakenIn(log, k, q, p)
  {
  }

  /** A step that is not `q` hearing a heartbeat of `p` leaves the entry as it was. */
  lemma {:induction false} OtherStepKeepsHeard(s: Swarm, s': Swarm, r: Record, q: string, p: string)
    requires q in s.peers && q in s'.peers && HeardGreatest(s, q, p)
    requires s'.log == s.log + [r] && !TakesIn(s'.log, |s.log|, q, p)
    requires p in s'.peers[q].heard <==> p in s.peers[q].heard
    requires p in s.peers[q].heard ==> s'.peers[q].heard[p] == s.peers[q].heard[p]
    ensures HeardGreatest(s', q, p)
  {
    forall k: nat | TakesIn(s'.log, k, q, p)
      ensures TakesIn(s.log, k, q, p) && TakenIn(s'.log, k, q, p) == TakenIn(s.log, k, q, p)
    {
      TakesInStays(s.log, r, k, q, p);
    }
    forall k: nat | TakesIn(s.log, k, q, p)
      ensures TakesIn(s'.log, k, q, p) && TakenIn(s'.log, k, q, p) == TakenIn(s.log, k, q, p)
    {
      TakesInStays(s.log, r, k, q, p);
    }
  }

  lemma {:induction false} HearStepRaisesHeard(s: Swarm, q: string, m: nat, physical: int)
    requires Enabled(s, HearHeartbeat(q, m, physical)) && s.log[m].actor != q && HeardGreatest(s, q, s.log[m].actor)
    ensures HeardGreatest(Step(s, HearHeartbeat(q, m, physical)), q, s.log[m].actor)
  {
    var s', p, t, n := Step(s, HearHeartbeat(q, m, physical)), s.log[m].actor, TimeOf(s.log[m]), |s.log|;
    var r := s'.log[n];
    assert s'.log == s.log + [r];
    assert TakesIn(s'.log, n, q, p) && TakenIn(s'.log, n, q, p) == t;
    forall k: nat | TakesIn(s.log, k, q, p)
      ensures TakesIn(s'.log, k, q, p) && TakenIn(s'.log, k, q, p) == TakenIn(s.log, k, q, p)
    {
      TakesInStays(s.log, r, k, q, p);
    }
    LessTrichotomy(t, t);
    forall k: nat | TakesIn(s'.log, k, q, p) ensures !Less(s'.peers[q].heard[p], TakenIn(s'.log, k, q, p)) {
      if k < n {
        TakesInStays(s.log, r, k, q, p);
        if Less(s.peers[q].heard[p], t) {
          LessTrichotomy(s.peers[q].heard[p], t);
          NotAfterTransitive(TakenIn(s.log, k, q, p), s.peers[q].heard[p], t);
        }
      }
    }
  }

  lemma {:induction false} StepKeepsHeard(s: Swarm, e: Event, q: string, p: string)
    requires q in s.peers && HeardGreatest(s, q, p)
    ensures q in Step(s, e).peers && HeardGreatest(Step(s, e), q, p)
  {
    var s' := Step(s, e);
    if Enabled(s, e) && e.HearHeartbeat? && e.p == q && s.log[e.m].actor == p && p != q {
      HearStepRaisesHeard(s, q, e.m, e.physical);
    } else {
      if e.Finalize? && e.p == q {
        FinalizeMovesToGreatest(s.peers[q]);
      }
      OtherStepKeepsHeard(s, s', s'.log[|s.log|], q, p);
    }
  }

  /** Whoever has acted is running. */
  ghost predicate ActorsRun(s: Swarm) {
    forall k :: 0 <= k < |s.log| && Live(s.log[k]) ==> s.log[k].actor in s.peers
  }

  lemma {:induction false} ActorsRunStep(s: Swarm, e: Event)
    requires ActorsRun(s)
    ensures ActorsRun(Step(s, e))
  {
    var s' := Step(s, e);
    assert forall k :: 0 <= k < |s.log| ==> s'.log[k] == s.log[k];
  }

  lemma {:induction false} RunActors(es: seq<Event>)
    ensures ActorsRun(Run(es))
  {
    if |es| > 0 {
      RunActors(es[..|es| - 1]);
      ActorsRunStep(Run(es[..|es| - 1]), es[|es| - 1]);
    }
  }

  lemma {:induction false} StartHearsNothing(s: Swarm, e: Event, q: string, p: string)
    requires ActorsRun(s) && q !in s.peers && q in Step(s, e).peers
    ensures HeardGreatest(Step(s, e), q, p)
  {
    var s' := Step(s, e);
    assert forall k :: 0 <= k < |s.log| && Live(s.log[k]) ==> s'.log[k].actor != q;
  }

  /** In every run a node's entry for a peer is the greatest heartbeat it has taken in from that peer. */
  lemma {:induction false} HeardIsGreatest(es: seq<Event>, q: string, p: string)
    requires q in Run(es).peers
    ensures HeardGreatest(Run(es), q, p)
  {
    var front, e := es[..|es| - 1], es[|es| - 1];
    if q in Run(front).peers {
      HeardIsGreatest(front, q, p);
      StepKeepsHeard(Run(front), e, q, p);
    } else {
      RunActors(front);
      StartHearsNothing(Run(front), e, q, p);
    }
  }
}
