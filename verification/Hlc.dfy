/** The hybrid logical clock of protocol/hlc.go: timestamps, their total order, and the clock with its int32 counter.
    `Tick` and `Observe` are the unbounded clock of specs/hlc.qnt, the reference the clock is compared with. */
module Hlc {
  import opened Text

  datatype Option<+T> = None | Some(value: T)

  datatype Timestamp = Timestamp(wall: int, logical: int, peer: string)

  const ZERO := Timestamp(0, 0, "")

  predicate Less(a: Timestamp, b: Timestamp) {
    if a.wall != b.wall then a.wall < b.wall
    else if a.logical != b.logical then a.logical < b.logical
    else LexLess(a.peer, b.peer)
  }

  predicate IsZero(t: Timestamp) {
    t.wall == 0 && t.logical == 0 && t.peer == ""
  }

  /** "wall:logical:peer", the key of a timestamp in the commit index and in deduplication. */
  function Render(t: Timestamp): string {
    DecimalInt(t.wall) + ":" + (DecimalInt(t.logical) + ":" + t.peer)
  }

  // ---- the order is total ----

  /** The wall decides, then the counter, then the first difference of the peer names. */
  lemma {:induction false} LessIff(a: Timestamp, b: Timestamp)
    ensures Less(a, b) <==>
            || a.wall < b.wall
            || (a.wall == b.wall && a.logical < b.logical)
            || (a.wall == b.wall && a.logical == b.logical && Smaller(a.peer, b.peer))
  {
    LexLessIff(a.peer, b.peer);
  }

  lemma {:induction false} LessTrichotomy(a: Timestamp, b: Timestamp)
    ensures a == b || Less(a, b) || Less(b, a)
    ensures !(Less(a, b) && Less(b, a))
    ensures a == b ==> !Less(a, b)
  {
    LexTrichotomy(a.peer, b.peer);
  }

  lemma {:induction false} LessTransitive(a: Timestamp, b: Timestamp, c: Timestamp)
    requires Less(a, b) && Less(b, c)
    ensures Less(a, c)
  {
    if LexLess(a.peer, b.peer) && LexLess(b.peer, c.peer) {
      LexTransitive(a.peer, b.peer, c.peer);
    }
  }

  /** `Less` is cotransitive, so "not after" composes with itself and with "before". */
  lemma {:induction false} NotAfterTransitive(a: Timestamp, b: Timestamp, c: Timestamp)
    requires !Less(b, a) && !Less(c, b)
    ensures !Less(c, a)
    ensures Less(a, b) || Less(b, c) ==> Less(a, c)
  {
    LessTrichotomy(a, b);
    LessTrichotomy(b, c);
    LessTrichotomy(a, c);
    if Less(a, b) && Less(b, c) {
      LessTransitive(a, b, c);
    }
  }

  /** Reads a rendered timestamp: the wall up to the first colon, the counter up to the second, then the peer. */
  function Read(s: string): Timestamp {
    Timestamp(IntOf(UpToColon(s)), IntOf(UpToColon(PastColon(s))), PastColon(PastColon(s)))
  }

  /** Rendering loses nothing, for negative numbers and for peer names that contain colons too. */
  lemma {:induction false} ReadRender(t: Timestamp)
    ensures Read(Render(t)) == t
  {
    DecimalIntRoundTrip(t.wall);
    DecimalIntRoundTrip(t.logical);
    SplitAtColon(DecimalInt(t.wall), DecimalInt(t.logical) + ":" + t.peer);
    SplitAtColon(DecimalInt(t.logical), t.peer);
  }

  lemma {:induction false} RenderInjective(a: Timestamp, b: Timestamp)
    requires Render(a) == Render(b)
    ensures a == b
  {
    ReadRender(a);
    ReadRender(b);
  }

  // ---- extreme elements of a finite set of timestamps ----

  ghost function Least(s: set<Timestamp>): (m: Timestamp)
    requires s != {}
    ensures m in s && forall t :: t in s ==> !Less(t, m)
  {
    var x :| x in s;
    if s == {x} then
      LessTrichotomy(x, x); x
    else
      var m := Least(s - {x});
      LeastStep(s, x, m);
      if Less(x, m) then x else m
  }

  lemma {:induction false} LeastStep(s: set<Timestamp>, x: Timestamp, m: Timestamp)
    requires x in s && m in s
    requires forall t :: t in s - {x} ==> !Less(t, m)
    ensures Less(x, m) ==> forall t :: t in s ==> !Less(t, x)
    ensures !Less(x, m) ==> forall t :: t in s ==> !Less(t, m)
  {
    LessTrichotomy(x, x);
    if Less(x, m) {
      LessTrichotomy(x, m);
      forall t | t in s - {x} ensures !Less(t, x) {
        NotAfterTransitive(x, m, t);
      }
    }
  }

  ghost function Greatest(s: set<Timestamp>): (m: Timestamp)
    requires s != {}
    ensures m in s && forall t :: t in s ==> !Less(m, t)
  {
    var x :| x in s;
    if s == {x} then
      LessTrichotomy(x, x); x
    else
      var m := Greatest(s - {x});
      GreatestStep(s, x, m);
      if Less(m, x) then x else m
  }

  lemma {:induction false} GreatestStep(s: set<Timestamp>, x: Timestamp, m: Timestamp)
    requires x in s && m in s
    requires forall t :: t in s - {x} ==> !Less(m, t)
    ensures Less(m, x) ==> forall t :: t in s ==> !Less(x, t)
    ensures !Less(m, x) ==> forall t :: t in s ==> !Less(m, t)
  {
    LessTrichotomy(x, x);
    if Less(m, x) {
      LessTrichotomy(x, m);
      forall t | t in s - {x} ensures !Less(x, t) {
        NotAfterTransitive(t, m, x);
      }
    }
  }

  // ---- the clock ----

  const MAX_INT32: int := 0x7fff_ffff

  /** Go's int32 arithmetic wraps around. */
  function Wrap32(x: int): int {
    (x + 0x8000_0000) % 0x1_0000_0000 - 0x8000_0000
  }

  predicate IsInt32(x: int) {
    -0x8000_0000 <= x <= MAX_INT32
  }

  /** The mutable part of a clock. */
  datatype Reading = Reading(wall: int, logical: int)

  predicate Earlier(a: Reading, b: Reading) {
    a.wall < b.wall || (a.wall == b.wall && a.logical < b.logical)
  }

  function ReadingOf(t: Timestamp): Reading {
    Reading(t.wall, t.logical)
  }

  function Stamp(r: Reading, peer: string): Timestamp {
    Timestamp(r.wall, r.logical, peer)
  }

  function Max(x: int, y: int): int {
    if x < y then y else x
  }

  /** specs/hlc.qnt, tick. */
  function Tick(c: Reading, physical: int): Reading {
    if physical > c.wall then Reading(physical, 0) else Reading(c.wall, c.logical + 1)
  }

  /** specs/hlc.qnt, observe. */
  function Observe(c: Reading, remote: Reading, physical: int): Reading {
    var maxWall :=
      if physical >= remote.wall && physical >= c.wall then physical
      else if remote.wall >= c.wall then remote.wall
      else c.wall;
    var logical :=
      if maxWall > c.wall && maxWall > remote.wall then 0
      else if maxWall == c.wall && maxWall == remote.wall then
        if c.logical > remote.logical then c.logical + 1 else remote.logical + 1
      else if maxWall == c.wall then c.logical + 1
      else remote.logical + 1;
    Reading(maxWall, logical)
  }

  /** The counter that `Now` increments is already at its largest value. */
  predicate NowOverflows(c: Reading, physical: int) {
    c.wall >= physical && c.logical == MAX_INT32
  }

  /** A counter that `Update` increments is already at its largest value. */
  predicate UpdateOverflows(c: Reading, remote: Reading, physical: int) {
    var maxWall := Max(c.wall, Max(remote.wall, physical));
    || (c.wall == maxWall && c.logical == MAX_INT32)
    || (remote.wall == maxWall && remote.logical == MAX_INT32)
  }

  /** What `HLC.Now` leaves in the clock. */
  function AfterNow(c: Reading, physical: int): Reading {
    if NowOverflows(c, physical) then Reading(c.wall, -0x8000_0000) else Tick(c, physical)
  }

  /** What `HLC.Update` leaves in the clock. */
  function AfterUpdate(c: Reading, remote: Reading, physical: int): Reading {
    if UpdateOverflows(c, remote, physical)
    then Reading(Max(c.wall, Max(remote.wall, physical)), -0x8000_0000)
    else Observe(c, remote, physical)
  }

  /** A reading that a local event may leave in the clock: later than before and not behind the physical clock. A
      counter starts at zero where the wall moves. */
  predicate Admits(c: Reading, physical: int, r: Reading) {
    Earlier(c, r) && physical <= r.wall && (c.wall < r.wall ==> 0 <= r.logical)
  }

  /** A reading that a received timestamp may leave in the clock. */
  predicate AdmitsBoth(c: Reading, remote: Reading, physical: int, r: Reading) {
    && Earlier(c, r) && Earlier(remote, r) && physical <= r.wall
    && (c.wall < r.wall && remote.wall < r.wall ==> 0 <= r.logical)
  }

  /** The reference clock takes the least reading it may take, for all counters, and the clock takes the same one modulo
      the width of the counter. */
  lemma {:induction false} TickIsLeast(c: Reading, physical: int)
    ensures Admits(c, physical, Tick(c, physical))
    ensures forall r :: Admits(c, physical, r) ==> r == Tick(c, physical) || Earlier(Tick(c, physical), r)
    ensures IsInt32(c.logical) ==>
              AfterNow(c, physical) == Reading(Tick(c, physical).wall, Wrap32(Tick(c, physical).logical))
  {
  }

  lemma {:induction false} ObserveIsLeast(c: Reading, remote: Reading, physical: int)
    ensures AdmitsBoth(c, remote, physical, Observe(c, remote, physical))
    ensures forall r :: AdmitsBoth(c, remote, physical, r) ==>
              r == Observe(c, remote, physical) || Earlier(Observe(c, remote, physical), r)
    ensures IsInt32(c.logical) && IsInt32(remote.logical) ==>
              var o := Observe(c, remote, physical);
              AfterUpdate(c, remote, physical) == Reading(o.wall, Wrap32(o.logical))
  {
  }

  /** Without an overflow the clock itself takes the least reading. */
  lemma {:induction false} NowIsLeast(c: Reading, physical: int, r: Reading)
    requires IsInt32(c.logical) && !NowOverflows(c, physical)
    ensures Admits(c, physical, AfterNow(c, physical))
    ensures Admits(c, physical, r) ==> r == AfterNow(c, physical) || Earlier(AfterNow(c, physical), r)
  {
    TickIsLeast(c, physical);
  }

  lemma {:induction false} UpdateIsLeast(c: Reading, remote: Reading, physical: int, r: Reading)
    requires IsInt32(c.logical) && IsInt32(remote.logical) && !UpdateOverflows(c, remote, physical)
    ensures AdmitsBoth(c, remote, physical, AfterUpdate(c, remote, physical))
    ensures AdmitsBoth(c, remote, physical, r) ==>
              r == AfterUpdate(c, remote, physical) || Earlier(AfterUpdate(c, remote, physical), r)
  {
    ObserveIsLeast(c, remote, physical);
  }

  /** A local event moves the clock strictly forward exactly when its counter does not overflow. */
  lemma {:induction false} NowAdvancesIff(c: Reading, physical: int)
    requires IsInt32(c.logical)
    ensures Earlier(c, AfterNow(c, physical)) <==> !NowOverflows(c, physical)
    ensures AfterNow(c, physical) == Tick(c, physical) <==> !NowOverflows(c, physical)
    ensures IsInt32(AfterNow(c, physical).logical)
  {
  }

  /** A received timestamp moves the clock strictly past itself and past the old clock exactly when no counter
      overflows. */
  lemma {:induction false} UpdateAdvancesIff(c: Reading, remote: Reading, physical: int)
    requires IsInt32(c.logical) && IsInt32(remote.logical)
    ensures (Earlier(c, AfterUpdate(c, remote, physical)) && Earlier(remote, AfterUpdate(c, remote, physical)))
            <==> !UpdateOverflows(c, remote, physical)
    ensures IsInt32(AfterUpdate(c, remote, physical).logical)
  {
  }

  lemma {:induction false} EarlierGivesLess(a: Timestamp, b: Timestamp)
    requires Earlier(ReadingOf(a), ReadingOf(b))
    ensures Less(a, b)
  {
  }

  class HLC {
    var wall: int
    var logical: int
    const peerID: string

    ghost predicate Valid()
      reads this
    {
      IsInt32(logical)
    }

    ghost function Clock(): Reading
      reads this
    {
      Reading(wall, logical)
    }

    constructor (peerID: string, physical: int)
      ensures Valid()
      ensures Clock() == Reading(physical, 0) && this.peerID == peerID
    {
      this.wall, this.logical, this.peerID := physical, 0, peerID;
    }

    /** A timestamp for a local event. */
    method Now(physical: int) returns (t: Timestamp)
      requires Valid()
      modifies this
      ensures Valid()
      ensures Clock() == AfterNow(old(Clock()), physical)
      ensures t == Stamp(Clock(), peerID)
    {
      if wall >= physical {
        logical := Wrap32(logical + 1);
      } else {
        wall := physical;
        logical := 0;
      }
      t := Timestamp(wall, logical, peerID);
    }

    /** Merges a received timestamp into the clock. */
    method Update(remote: Timestamp, physical: int)
      requires Valid() && IsInt32(remote.logical)
      modifies this
      ensures Valid()
      ensures Clock() == AfterUpdate(old(Clock()), ReadingOf(remote), physical)
    {
      var maxWall := Max(wall, Max(remote.wall, physical));
      if maxWall == wall && maxWall == remote.wall {
        logical := Wrap32(Max(logical, remote.logical) + 1);
      } else if maxWall == wall {
        logical := Wrap32(logical + 1);
      } else if maxWall == remote.wall {
        wall := remote.wall;
        logical := Wrap32(remote.logical + 1);
      } else {
        wall := physical;
        logical := 0;
      }
    }
  }
}
