/** How far the guarantees of a swarm reach: exactly which runs are in order, and exactly which peers can still issue a
    timestamp at or below a base. */
module Stability {
  import opened Hlc
  import opened Index
  import opened Peer
  import opened Swarm

  // ---- every clock is on record ----

  ghost predicate HasRecord(s: Swarm, p: string, c: Reading) {
    exists k :: 0 <= k < |s.log| && Live(s.log[k]) && s.log[k].actor == p && s.log[k].clock == c
  }

  ghost predicate OnRecord(s: Swarm) {
    forall p :: p in s.peers ==> HasRecord(s, p, s.peers[p].clock)
  }

  lemma {:induction false} RecordStays(s: Swarm, s': Swarm, p: string, c: Reading)
    requires s.log <= s'.log && HasRecord(s, p, c)
    ensures HasRecord(s', p, c)
  {
    var k :| 0 <= k < |s.log| && Live(s.log[k]) && s.log[k].actor == p && s.log[k].clock == c;
    assert s'.log[k] == s.log[k];
  }

  lemma {:induction false} OnRecordStep(s: Swarm, e: Event)
    requires OnRecord(s)
    ensures OnRecord(Step(s, e))
  {
    var s' := Step(s, e);
    StepLogs(s, e);
    forall p | p in s'.peers ensures HasRecord(s', p, s'.peers[p].clock) {
      if Enabled(s, e) && p == e.p {
        assert s'.log[|s.log|].actor == p && s'.log[|s.log|].clock == s'.peers[p].clock;
      } else {
        RecordStays(s, s', p, s.peers[p].clock);
      }
    }
  }

  /** In every run the clock of a peer is the clock of one of its steps. */
  lemma {:induction false} RunOnRecord(es: seq<Event>)
    ensures OnRecord(Run(es))
  {
    if |es| > 0 {
      RunOnRecord(es[..|es| - 1]);
      OnRecordStep(Run(es[..|es| - 1]), es[|es| - 1]);
    }
  }

  // ---- which runs are in order ----

  lemma {:induction false} FirstOverflow(es: seq<Event>, n: nat) returns (i: nat)
    requires n <= |es| && exists k: nat :: k < n && !SteadyAt(es, k)
    ensures i < n && !SteadyAt(es, i) && forall k: nat :: k < i ==> SteadyAt(es, k)
  {
    if exists k: nat :: k < n - 1 && !SteadyAt(es, k) {
      i := FirstOverflow(es, n - 1);
    } else {
      i := n - 1;
    }
  }

  lemma {:induction false} SteadyBefore(es: seq<Event>, i: nat)
    requires i <= |es| && forall k: nat :: k < i ==> SteadyAt(es, k)
    ensures Steady(es[..i])
  {
    forall k: nat | k < i ensures SteadyAt(es[..i], k) {
      SteadyAtPrefix(es, i, k);
    }
  }

  /** A step that sends the clock of its peer back is out of order. */
  lemma {:induction false} BackwardIsUnordered(s: Swarm, s': Swarm, p: string)
    requires OnRecord(s) && p in s.peers && s.log < s'.log && Live(s'.log[|s.log|]) && s'.log[|s.log|].actor == p
    requires Earlier(s'.log[|s.log|].clock, s.peers[p].clock)
    ensures !Monotone(s')
  {
    var k :| 0 <= k < |s.log| && Live(s.log[k]) && s.log[k].actor == p && s.log[k].clock == s.peers[p].clock;
    assert s'.log[k] == s.log[k];
  }

  lemma {:induction false} OverflowGoesBack(s: Swarm, e: Event)
    requires Inv(s) && Overflows(s, e)
    ensures var s', n := Step(s, e), |s.log|;
            && s.log < s'.log && Live(s'.log[n]) && s'.log[n].actor == e.p && e.p in s.peers
            && (|| Earlier(s'.log[n].clock, s.peers[e.p].clock)
                || (s'.log[n].kind.Heard? && s'.log[n].kind.from < n
                    && !Earlier(s'.log[s'.log[n].kind.from].clock, s'.log[n].clock)))
  {
    var s' := Step(s, e);
    StepLogs(s, e);
    if e.HearHeartbeat? || e.HearAd? {
      assert s'.log[e.m] == s.log[e.m];
    }
  }

  lemma {:induction false} OverflowIsUnordered(s: Swarm, e: Event)
    requires Inv(s) && OnRecord(s) && Overflows(s, e)
    ensures !Monotone(Step(s, e)) || !Linked(Step(s, e))
  {
    OverflowGoesBack(s, e);
    var s', n := Step(s, e), |s.log|;
    if Earlier(s'.log[n].clock, s.peers[e.p].clock) {
      BackwardIsUnordered(s, s', e.p);
    } else {
      assert s'.log[n].kind.Heard?;
    }
  }

  lemma {:induction false} OrderOfPrefix(s: Swarm, s': Swarm)
    requires s.log <= s'.log && Monotone(s') && Linked(s')
    ensures Monotone(s) && Linked(s)
  {
    assert forall i :: 0 <= i < |s.log| ==> s.log[i] == s'.log[i];
    forall j | 0 <= j < |s.log| && s.log[j].kind.Heard?
      ensures && s.log[j].kind.from < j && Issued(s.log[s.log[j].kind.from])
              && Earlier(s.log[s.log[j].kind.from].clock, s.log[j].clock)
    {
      assert s'.log[j].kind.Heard?;
    }
  }

  /** Clocks never go back and accepted messages are overtaken. */
  ghost predicate Ordered(s: Swarm) {
    Monotone(s) && Linked(s)
  }

  lemma {:induction false} UnorderedStep(es: seq<Event>, e: Event)
    requires Steady(es) && Overflows(Run(es), e)
    ensures !Ordered(Step(Run(es), e))
  {
    RunKeeps(es);
    RunOnRecord(es);
    OverflowIsUnordered(Run(es), e);
  }

  lemma {:induction false} UnorderedAt(es: seq<Event>, i: nat)
    requires i < |es| && Steady(es[..i]) && !SteadyAt(es, i)
    ensures !Ordered(Run(es[..i + 1]))
  {
    UnorderedStep(es[..i], es[i]);
    RunSnoc(es[..i], es[i]);
    assert es[..i] + [es[i]] == es[..i + 1];
  }

  lemma {:induction false} OrderedPrefix(es: seq<Event>, k: nat)
    requires k <= |es| && Ordered(Run(es))
    ensures Ordered(Run(es[..k]))
  {
    LogGrows(es, k);
    OrderOfPrefix(Run(es[..k]), Run(es));
  }

  lemma {:induction false} UnsteadyIsUnordered(es: seq<Event>)
    requires !Steady(es)
    ensures !Ordered(Run(es))
  {
    var i := FirstOverflow(es, |es|);
    SteadyBefore(es, i);
    UnorderedAt(es, i);
    if Ordered(Run(es)) {
      OrderedPrefix(es, i + 1);
    }
  }

  lemma {:induction false} SteadyIsOrdered(es: seq<Event>)
    requires Steady(es)
    ensures Ordered(Run(es))
  {
    RunKeeps(es);
  }

  /** Exactly which runs are in order: clocks never go back and accepted messages are overtaken, all along the run, if
      and only if no event overflows a counter. */
  lemma {:induction false} OrderedIffSteady(es: seq<Event>)
    ensures Ordered(Run(es)) <==> Steady(es)
  {
    if Steady(es) {
      SteadyIsOrdered(es);
    } else {
      UnsteadyIsUnordered(es);
    }
  }

  // ---- which peers can undercut ----

  /** The least clock that a step without overflow can leave after `c`. */
  function Next(c: Reading): Reading {
    if c.logical < MAX_INT32 then Reading(c.wall, c.logical + 1) else Reading(c.wall + 1, 0)
  }

  /** The continuation overflows nothing and has `p` issue a timestamp at or below `t`. */
  ghost predicate Undercuts(es: seq<Event>, more: seq<Event>, p: string, t: Timestamp) {
    && Steady(es + more)
    && exists j :: |es| <= j < |Run(es + more).log| && IssuesBelow(Run(es + more).log[j], p, t)
  }

  predicate IssuesBelow(r: Record, p: string, t: Timestamp) {
    Issued(r) && r.actor == p && !Less(t, TimeOf(r))
  }

  /** `p` can still issue a timestamp at or below `t`. */
  ghost predicate CanUndercut(es: seq<Event>, p: string, t: Timestamp) {
    exists more :: Undercuts(es, more, p, t)
  }

  /** `p` has not started, or its next timestamp can be at or below `t`. */
  predicate Behind(s: Swarm, p: string, t: Timestamp) {
    p !in s.peers || !Less(t, Stamp(Next(s.peers[p].clock), p))
  }

  lemma {:induction false} NextIsLeast(end: Swarm, k: nat, j: nat)
    requires Inv(end) && k < j < |end.log| && Live(end.log[k]) && Issued(end.log[j])
    requires end.log[k].actor == end.log[j].actor
    ensures !Earlier(end.log[j].clock, Next(end.log[k].clock))
  {
    assert Earlier(end.log[k].clock, end.log[j].clock);
  }

  lemma {:induction false} AheadStaysAbove(s: Swarm, end: Swarm, p: string, t: Timestamp, j: nat)
    requires OnRecord(s) && Inv(end) && s.log <= end.log && |s.log| <= j < |end.log| && !Behind(s, p, t)
    ensures !IssuesBelow(end.log[j], p, t)
  {
    if Issued(end.log[j]) && end.log[j].actor == p {
      var k :| 0 <= k < |s.log| && Live(s.log[k]) && s.log[k].actor == p && s.log[k].clock == s.peers[p].clock;
      assert end.log[k] == s.log[k];
      NextIsLeast(end, k, j);
      NotBelowNext(t, Next(s.peers[p].clock), TimeOf(end.log[j]));
    }
  }

  lemma {:induction false} NotBelowNext(t: Timestamp, next: Reading, u: Timestamp)
    requires Less(t, Stamp(next, u.peer)) && !Earlier(ReadingOf(u), next)
    ensures Less(t, u)
  {
  }

  lemma {:induction false} NoneBelow(s: Swarm, end: Swarm, p: string, t: Timestamp)
    requires OnRecord(s) && Inv(end) && s.log <= end.log && !Behind(s, p, t)
    ensures forall j :: |s.log| <= j < |end.log| ==> !IssuesBelow(end.log[j], p, t)
  {
    forall j | |s.log| <= j < |end.log| ensures !IssuesBelow(end.log[j], p, t) {
      AheadStaysAbove(s, end, p, t, j);
    }
  }

  lemma {:induction false} LogsGrow(es: seq<Event>, more: seq<Event>)
    ensures Run(es).log <= Run(es + more).log && |Run(es).log| == |es|
  {
    LogGrows(es + more, |es|);
    LogGrows(es, |es|);
    assert (es + more)[..|es|] == es;
  }

  lemma {:induction false} AheadCannotUndercut(es: seq<Event>, more: seq<Event>, p: string, t: Timestamp)
    requires !Behind(Run(es), p, t)
    ensures !Undercuts(es, more, p, t)
  {
    if Steady(es + more) {
      RunOnRecord(es);
      LogsGrow(es, more);
      RunKeeps(es + more);
      NoneBelow(Run(es), Run(es + more), p, t);
    }
  }

  lemma {:induction false} SteadySnoc(es: seq<Event>, e: Event)
    requires Steady(es) && !Overflows(Run(es), e)
    ensures Steady(es + [e])
  {
    assert (es + [e])[..|es|] == es;
    SteadyNext(es + [e]);
  }

  /** A running peer can take its least next timestamp. */
  lemma {:induction false} NextCommit(es: seq<Event>, p: string, t: Timestamp)
    requires Steady(es) && p in Run(es).peers && !Less(t, Stamp(Next(Run(es).peers[p].clock), p))
    ensures CanUndercut(es, p, t)
  {
    var c := Run(es).peers[p].clock;
    var e := Commit(p, if c.logical < MAX_INT32 then c.wall else c.wall + 1);
    RunKeeps(es);
    SteadySnoc(es, e);
    RunSnoc(es, e);
    assert IssuesBelow(Run(es + [e]).log[|es|], p, t);
    assert Undercuts(es, [e], p, t);
  }

  lemma {:induction false} StartAndCommit(s: Swarm, p: string, wall: int)
    requires p !in s.peers
    ensures var s1 := Step(s, Start(p, wall));
            var s2 := Step(s1, Commit(p, wall));
            && !Overflows(s, Start(p, wall)) && !Overflows(s1, Commit(p, wall))
            && |s2.log| == |s.log| + 2 && Issued(s2.log[|s.log| + 1]) && s2.log[|s.log| + 1].actor == p
            && TimeOf(s2.log[|s.log| + 1]) == Timestamp(wall, 1, p)
  {
    assert AfterNow(Reading(wall, 0), wall) == Reading(wall, 1);
  }

  /** A peer that has not started can start with any reading. */
  lemma {:induction false} LateStart(es: seq<Event>, p: string, t: Timestamp)
    requires Steady(es) && p !in Run(es).peers
    ensures CanUndercut(es, p, t)
  {
    var w := t.wall - 1;
    var a, b := Start(p, w), Commit(p, w);
    StartAndCommit(Run(es), p, w);
    RunSnoc(es, a);
    SteadySnoc(es, a);
    RunSnoc(es + [a], b);
    SteadySnoc(es + [a], b);
    assert es + [a, b] == es + [a] + [b];
    RunKeeps(es);
    assert IssuesBelow(Run(es + [a, b]).log[|es| + 1], p, t);
    assert Undercuts(es, [a, b], p, t);
  }

  /** Exactly which peers can still issue a timestamp at or below `t` without an overflow: those that have not started,
      and those whose least next timestamp is at or below `t`. */
  lemma {:induction false} CanUndercutIff(es: seq<Event>, p: string, t: Timestamp)
    requires Steady(es)
    ensures CanUndercut(es, p, t) <==> Behind(Run(es), p, t)
  {
    if Behind(Run(es), p, t) {
      if p in Run(es).peers {
        NextCommit(es, p, t);
      } else {
        LateStart(es, p, t);
      }
    } else {
      forall more ensures !Undercuts(es, more, p, t) {
        AheadCannotUndercut(es, more, p, t);
      }
    }
  }

  // ---- a base and the peers that count ----

  /** The clock of a heard peer is at or past what was heard of it. */
  lemma {:induction false} HeardIsReached(s: Swarm, q: string, p: string)
    requires Inv(s) && q in s.peers && p in s.peers[q].heard
    ensures p in s.peers && !Earlier(s.peers[p].clock, ReadingOf(s.peers[q].heard[p]))
  {
    assert HeardOk(s, q, s.peers[q]);
    var m :| 0 <= m < |s.log| && s.log[m].kind.Beat? && s.log[m].actor == p && TimeOf(s.log[m]) == s.peers[q].heard[p];
    assert Live(s.log[m]);
  }

  /** Whoever counts towards a base is past it: the node itself and every peer it had heard. */
  lemma {:induction false} CountedIsAhead(s: Swarm, q: string, p: string)
    requires Inv(s) && q in s.peers && AfterFinalize(s.peers[q]).base != s.peers[q].base
    requires p == q || p in s.peers[q].heard
    ensures AfterFinalize(s.peers[q]).base.Some? && !Behind(s, p, AfterFinalize(s.peers[q]).base.value.hlc)
  {
    FinalizeMovesToGreatest(s.peers[q]);
    var t := AfterFinalize(s.peers[q]).base.value.hlc;
    if p == q {
      FinalizedIsBehind(s, q);
      PastIsAhead(t, s.peers[q].clock, q);
    } else {
      HeardIsReached(s, q, p);
      ReachedIsAhead(t, s.peers[q].heard[p], s.peers[p].clock, p);
    }
  }

  lemma {:induction false} PastIsAhead(t: Timestamp, c: Reading, p: string)
    requires !Earlier(c, ReadingOf(t))
    ensures Less(t, Stamp(Next(c), p))
  {
  }

  lemma {:induction false} ReachedIsAhead(t: Timestamp, u: Timestamp, c: Reading, p: string)
    requires Less(t, u) && !Earlier(c, ReadingOf(u))
    ensures Less(t, Stamp(Next(c), p))
  {
    PastIsAhead(t, c, p);
  }

  lemma {:induction false} FinalizeKeepsBehind(s: Swarm, q: string, p: string, t: Timestamp)
    requires q in s.peers
    ensures Behind(Step(s, Finalize(q)), p, t) <==> Behind(s, p, t)
  {
    FinalizeIsPut(s, q);
    FinalizeOnlyMovesBase(s.peers[q]);
  }

  /** Exactly which peers can still undercut a base after it moved: those behind it when it moved. The node itself and
      the peers it had heard are never among them; any other peer is, unless its clock is past the base. */
  lemma {:induction false} BaseUndercutIff(es: seq<Event>, q: string, p: string)
    requires Steady(es) && q in Run(es).peers && AfterFinalize(Run(es).peers[q]).base != Run(es).peers[q].base
    ensures AfterFinalize(Run(es).peers[q]).base.Some?
    ensures var t := AfterFinalize(Run(es).peers[q]).base.value.hlc;
            && (CanUndercut(es + [Finalize(q)], p, t) <==> Behind(Run(es), p, t))
            && (p == q || p in Run(es).peers[q].heard ==> !Behind(Run(es), p, t))
  {
    RunKeeps(es);
    CountedIsAhead(Run(es), q, q);
    if p in Run(es).peers[q].heard {
      CountedIsAhead(Run(es), q, p);
    }
    BaseUndercut(es, q, p, AfterFinalize(Run(es).peers[q]).base.value.hlc);
  }

  lemma {:induction false} BaseUndercut(es: seq<Event>, q: string, p: string, t: Timestamp)
    requires Steady(es) && q in Run(es).peers
    ensures CanUndercut(es + [Finalize(q)], p, t) <==> Behind(Run(es), p, t)
  {
    SteadySnoc(es, Finalize(q));
    RunSnoc(es, Finalize(q));
    FinalizeKeepsBehind(Run(es), q, p, t);
    CanUndercutIff(es + [Finalize(q)], p, t);
  }

  // ---- a counter that wraps ----

  /** A peer that starts and then commits `n` times while its physical clock stands still. */
  ghost function Stalled(p: string, physical: int, n: nat): seq<Event> {
    if n == 0 then [Start(p, physical)] else Stalled(p, physical, n - 1) + [Commit(p, physical)]
  }

  /** A swarm in which `p` has committed `n` times at the same physical reading. */
  ghost predicate StandsAt(s: Swarm, p: string, physical: int, n: nat) {
    && |s.log| == n + 1 && p in s.peers && s.peers[p].clock == Reading(physical, n)
    && s.log[n].clock == Reading(physical, n) && s.log[n].actor == p && (n > 0 ==> s.log[n].kind.Committed?)
  }

  lemma {:induction false} StalledStep(s: Swarm, p: string, physical: int, n: nat)
    requires n < MAX_INT32 && StandsAt(s, p, physical, n)
    ensures StandsAt(Step(s, Commit(p, physical)), p, physical, n + 1)
  {
  }

  lemma {:induction false} StalledClock(p: string, physical: int, n: nat)
    requires n <= MAX_INT32
    ensures |Stalled(p, physical, n)| == n + 1 && StandsAt(Run(Stalled(p, physical, n)), p, physical, n)
  {
    if n == 0 {
      RunSnoc([], Start(p, physical));
      assert [] + [Start(p, physical)] == Stalled(p, physical, 0);
    } else {
      StalledClock(p, physical, n - 1);
      RunSnoc(Stalled(p, physical, n - 1), Commit(p, physical));
      StalledStep(Run(Stalled(p, physical, n - 1)), p, physical, n - 1);
    }
  }

  /** The length for which every run is steady is exact: one step more and an int32 counter can wrap, so that a peer
      issues a timestamp below the one before. */
  lemma {:induction false} StalledClockWraps(p: string, physical: int)
    ensures var es := Stalled(p, physical, MAX_INT32 + 1);
            && |es| == MAX_INT32 + 2 && |Run(es).log| == |es|
            && Issued(Run(es).log[MAX_INT32]) && Issued(Run(es).log[MAX_INT32 + 1])
            && Less(TimeOf(Run(es).log[MAX_INT32 + 1]), TimeOf(Run(es).log[MAX_INT32]))
  {
    StalledClock(p, physical, MAX_INT32);
    RunSnoc(Stalled(p, physical, MAX_INT32), Commit(p, physical));
  }

  // ---- an unheard peer that undercuts ----

  /** A peer as it starts. */
  ghost predicate Fresh(s: Swarm, p: string, wall: int) {
    p in s.peers && s.peers[p] == Peer(Reading(wall, 0), map[], map[], None)
  }

  lemma {:induction false} StartsFresh(s: Swarm, p: string, physical: int)
    requires p !in s.peers
    ensures var s' := Step(s, Start(p, physical));
            && Fresh(s', p, physical) && |s'.log| == |s.log| + 1 && s'.peers.Keys == s.peers.Keys + {p}
            && forall q :: q in s.peers ==> s'.peers[q] == s.peers[q]
  {
  }

  lemma {:induction false} OneStarted(a: string)
    ensures var s := Run([Start(a, 10)]); s.peers.Keys == {a} && Fresh(s, a, 10) && |s.log| == 1
  {
    RunSnoc([], Start(a, 10));
    assert [] + [Start(a, 10)] == [Start(a, 10)];
    StartsFresh(Run([]), a, 10);
  }

  lemma {:induction false} TwoStarted(a: string, b: string)
    requires a != b
    ensures var s := Run([Start(a, 10), Start(b, 10)]);
            s.peers.Keys == {a, b} && Fresh(s, a, 10) && Fresh(s, b, 10) && |s.log| == 2
  {
    OneStarted(a);
    RunSnoc([Start(a, 10)], Start(b, 10));
    assert [Start(a, 10)] + [Start(b, 10)] == [Start(a, 10), Start(b, 10)];
    StartsFresh(Run([Start(a, 10)]), b, 10);
  }

  ghost function Starts(a: string, b: string, c: string): seq<Event> {
    [Start(a, 10), Start(b, 10), Start(c, 0)]
  }

  lemma {:induction false} ThreeStarted(a: string, b: string, c: string)
    requires a != b && a != c && b != c
    ensures var s := Run(Starts(a, b, c)); Fresh(s, a, 10) && Fresh(s, b, 10) && Fresh(s, c, 0) && |s.log| == 3
  {
    TwoStarted(a, b);
    RunSnoc([Start(a, 10), Start(b, 10)], Start(c, 0));
    assert [Start(a, 10), Start(b, 10)] + [Start(c, 0)] == Starts(a, b, c);
    StartsFresh(Run([Start(a, 10), Start(b, 10)]), c, 0);
  }

  /** After the start `b` sends a heartbeat, which `a` hears, and `a` has a commit of `b` applied. */
  ghost function Prelude(a: string, b: string, c: string): seq<Event> {
    Starts(a, b, c) + [Heartbeat(b, 30)] + [HearHeartbeat(a, 3, 10)] + [Reindex(a, UndercutIndex(b))]
  }

  ghost function UndercutIndex(b: string): View {
    map[Timestamp(20, 0, b) := Entry(Timestamp(20, 0, b), "x", Applied)]
  }

  lemma {:induction false} BeatIsSent(s: Swarm, a: string, b: string, c: string)
    requires a != b && a != c && b != c && Fresh(s, a, 10) && Fresh(s, b, 10) && Fresh(s, c, 0) && |s.log| == 3
    ensures var s' := Step(s, Heartbeat(b, 30));
            && Fresh(s', a, 10) && Fresh(s', c, 0) && |s'.log| == 4
            && s'.log[3].kind.Beat? && s'.log[3].actor == b && TimeOf(s'.log[3]) == Timestamp(30, 0, b)
  {
  }

  lemma {:induction false} BeatIsHeard(s: Swarm, a: string, b: string, c: string)
    requires a != b && a != c && b != c && Fresh(s, a, 10) && Fresh(s, c, 0) && |s.log| == 4
    requires s.log[3].kind.Beat? && s.log[3].actor == b && TimeOf(s.log[3]) == Timestamp(30, 0, b)
    ensures var s' := Step(s, HearHeartbeat(a, 3, 10));
            && a in s'.peers && s'.peers[a].heard == map[b := Timestamp(30, 0, b)] && s'.peers[a].base == None
            && Fresh(s', c, 0) && |s'.log| == 5
  {
  }

  /** `a` has heard only `b` and can finalize a commit above the clock of `c`. */
  ghost predicate Exposed(s: Swarm, a: string, b: string, c: string) {
    && a in s.peers && s.peers[a].heard == map[b := Timestamp(30, 0, b)] && s.peers[a].base == None
    && s.peers[a].index == UndercutIndex(b) && Fresh(s, c, 0) && |s.log| == 6
  }

  lemma {:induction false} PreludeExposes(a: string, b: string, c: string)
    requires a != b && a != c && b != c
    ensures Exposed(Run(Prelude(a, b, c)), a, b, c)
  {
    var e3 := Starts(a, b, c);
    var e4 := e3 + [Heartbeat(b, 30)];
    var e5 := e4 + [HearHeartbeat(a, 3, 10)];
    ThreeStarted(a, b, c);
    RunSnoc(e3, Heartbeat(b, 30));
    BeatIsSent(Run(e3), a, b, c);
    RunSnoc(e4, HearHeartbeat(a, 3, 10));
    BeatIsHeard(Run(e4), a, b, c);
    RunSnoc(e5, Reindex(a, UndercutIndex(b)));
    ReindexExposes(Run(e5), a, b, c);
  }

  lemma {:induction false} ReindexExposes(s: Swarm, a: string, b: string, c: string)
    requires a != c && a in s.peers && s.peers[a].heard == map[b := Timestamp(30, 0, b)] && s.peers[a].base == None
    requires Fresh(s, c, 0) && |s.log| == 5
    ensures Exposed(Step(s, Reindex(a, UndercutIndex(b))), a, b, c)
  {
  }

  /** Finalization moves the base of the exposed peer up to the applied commit. */
  lemma {:induction false} ExposedFinalizes(s: Swarm, a: string, b: string, c: string)
    requires Exposed(s, a, b, c)
    ensures var base := AfterFinalize(s.peers[a]).base; base.Some? && base.value.hlc == Timestamp(20, 0, b)
  {
    FinalizeMovesToGreatest(s.peers[a]);
    assert b in s.peers[a].heard && forall q :: q in s.peers[a].heard ==> q == b;
    assert Finalizable(s.peers[a], Timestamp(20, 0, b));
  }

  /** The peers that count are the peers that were heard: here `a` finalizes after hearing only `b`, and `c`, whose
      clock is behind, can still issue a timestamp below the new base. */
  lemma {:induction false} UnheardPeerUndercuts(a: string, b: string, c: string)
    requires a != b && a != c && b != c
    ensures var es := Prelude(a, b, c);
            && a in Run(es).peers && c in Run(es).peers && c !in Run(es).peers[a].heard
            && var base := AfterFinalize(Run(es).peers[a]).base;
            && base != Run(es).peers[a].base && base.Some? && CanUndercut(es + [Finalize(a)], c, base.value.hlc)
  {
    var es := Prelude(a, b, c);
    PreludeExposes(a, b, c);
    ExposedFinalizes(Run(es), a, b, c);
    ShortIsSteady(es);
    BaseUndercut(es, a, c, Timestamp(20, 0, b));
  }
}
