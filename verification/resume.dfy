/**
 The whole path of an event: gateway, one consumer connection at a time, the
 reconnecting subscriber, and the bridge's own sequence filter. The gateway may be
 re-created at any point with a new clock seed.
 */
module StreamResume {
  import opened Basics
  import opened GatewayHub
  import opened ConsumerConnection

  // ---------------------------------------------------------------------------
  // The bridge's filter
  // ---------------------------------------------------------------------------

  predicate Accepts(last: nat, e: Event) { e.stamp.None? || e.stamp.value > last }

  function LastAfter(last: nat, e: Event): nat {
    if e.stamp.Some? && e.stamp.value > last then e.stamp.value else last
  }

  /** What the filter passes of a stretch of the subscriber's channel. */
  function Accepted(last: nat, es: seq<Event>): seq<Event>
    decreases |es|
  {
    if es == [] then [] else
    (if Accepts(last, es[0]) then [es[0]] else []) + Accepted(LastAfter(last, es[0]), es[1..])
  }

  function LastAfterAll(last: nat, es: seq<Event>): nat
    decreases |es|
  {
    if es == [] then last else LastAfterAll(LastAfter(last, es[0]), es[1..])
  }

  lemma {:induction false} LastAfterAppend(last: nat, es: seq<Event>, e: Event)
    ensures LastAfterAll(last, es + [e]) == LastAfter(LastAfterAll(last, es), e)
    decreases |es|
  {
    if es == [] {
      assert (es + [e])[1..] == [];
    } else {
      assert (es + [e])[1..] == es[1..] + [e];
      LastAfterAppend(LastAfter(last, es[0]), es[1..], e);
    }
  }

  lemma {:induction false} AcceptedAppend(last: nat, es: seq<Event>, e: Event)
    ensures Accepted(last, es + [e])
         == Accepted(last, es) + if Accepts(LastAfterAll(last, es), e) then [e] else []
    decreases |es|
  {
    if es == [] {
      assert (es + [e])[1..] == [];
    } else {
      assert (es + [e])[1..] == es[1..] + [e];
      AcceptedAppend(LastAfter(last, es[0]), es[1..], e);
    }
  }

  class BridgeReceiver {
    var lastSeq: nat

    constructor ()
      ensures lastSeq == 0
    {
      lastSeq := 0;
    }

    method Accept(event: Event) returns (passed: bool)
      modifies this
      ensures passed == Accepts(old(lastSeq), event)
      ensures lastSeq == LastAfter(old(lastSeq), event)
    {
      if event.stamp.Some? {
        if event.stamp.value <= lastSeq {
          return false;
        }
        lastSeq := event.stamp.value;
      }
      return true;
    }

    /**
     One turn of the receive loop: the first event, then whatever is already waiting,
     until `cap` events are kept. `waiting` is the channel's content, first one included.
     */
    method ReceiveBatch(waiting: seq<Event>, cap: nat) returns (events: seq<Event>, taken: nat)
      requires waiting != [] && cap >= 1
      modifies this
      ensures 1 <= taken <= |waiting|
      ensures events == Accepted(old(lastSeq), waiting[..taken])
      ensures lastSeq == LastAfterAll(old(lastSeq), waiting[..taken])
      ensures |events| <= cap && (|events| == cap || taken == |waiting|)
    {
      ghost var last0 := lastSeq;
      events := [];
      taken := 0;
      while taken < |waiting| && |events| < cap
        invariant taken <= |waiting| && |events| <= cap && (taken == 0 ==> events == [])
        invariant events == Accepted(last0, waiting[..taken])
        invariant lastSeq == LastAfterAll(last0, waiting[..taken])
      {
        AcceptedAppend(last0, waiting[..taken], waiting[taken]);
        LastAfterAppend(last0, waiting[..taken], waiting[taken]);
        assert waiting[..taken + 1] == waiting[..taken] + [waiting[taken]];
        var passed := Accept(waiting[taken]);
        if passed {
          events := events + [waiting[taken]];
        }
        taken := taken + 1;
      }
    }
  }

  /** An event without a stamp passes, a stamped one if it is above `last` and every stamp before it. */
  predicate Passes(last: nat, es: seq<Event>, i: nat)
    requires i < |es|
  {
    es[i].stamp.Some? ==>
      && es[i].stamp.value > last
      && forall j :: 0 <= j < i && es[j].stamp.Some? ==> es[i].stamp.value > es[j].stamp.value
  }

  function Passing(last: nat, es: seq<Event>): seq<Event> {
    if es == [] then [] else
    var n := |es| - 1;
    Passing(last, es[..n]) + if Passes(last, es, n) then [es[n]] else []
  }

  /** The counter is the highest stamp seen, `last` included. */
  ghost predicate IsHighest(last: nat, es: seq<Event>, top: nat) {
    && top >= last && (top == last || exists i :: 0 <= i < |es| && es[i].stamp == Some(top))
    && forall i :: 0 <= i < |es| && es[i].stamp.Some? ==> es[i].stamp.value <= top
  }

  lemma {:induction false} LastIsHighest(last: nat, es: seq<Event>)
    ensures IsHighest(last, es, LastAfterAll(last, es))
  {
    if es != [] {
      var n := |es| - 1;
      LastIsHighest(last, es[..n]);
      LastAfterAppend(last, es[..n], es[n]);
      assert es == es[..n] + [es[n]];
      assert forall i :: 0 <= i < n ==> es[..n][i] == es[i];
    }
  }

  /** What the filter passes is exactly the events without a stamp and those above everything before them, in order. */
  lemma {:induction false} FilterIsExact(last: nat, es: seq<Event>)
    ensures Accepted(last, es) == Passing(last, es)
  {
    if es != [] {
      var n := |es| - 1;
      FilterIsExact(last, es[..n]);
      AcceptedAppend(last, es[..n], es[n]);
      LastIsHighest(last, es[..n]);
      assert es == es[..n] + [es[n]];
      assert forall i :: 0 <= i < n ==> es[..n][i] == es[i];
      PassesIff(last, es, LastAfterAll(last, es[..n]));
    }
  }

  lemma PassesIff(last: nat, es: seq<Event>, top: nat)
    requires es != [] && IsHighest(last, es[..|es| - 1], top)
    ensures Passes(last, es, |es| - 1) <==> Accepts(top, es[|es| - 1])
  {
    var n := |es| - 1;
    assert forall i :: 0 <= i < n ==> es[..n][i] == es[i];
  }

  /** Whatever arrives, stamped events leave the filter in strictly increasing order. */
  lemma {:induction false} FilterIsMonotone(last: nat, es: seq<Event>, i: nat, j: nat)
    requires i < j < |Accepted(last, es)|
    requires Accepted(last, es)[i].stamp.Some? && Accepted(last, es)[j].stamp.Some?
    ensures last < Accepted(last, es)[i].stamp.value < Accepted(last, es)[j].stamp.value
    decreases |es|
  {
    var next := LastAfter(last, es[0]);
    var d := if Accepts(last, es[0]) then 1 else 0;
    if i == 0 && d == 1 {
      AboveLast(next, es[1..], j - 1);
    } else {
      FilterIsMonotone(next, es[1..], i - d, j - d);
    }
  }

  lemma {:induction false} AboveLast(last: nat, es: seq<Event>, j: nat)
    requires j < |Accepted(last, es)| && Accepted(last, es)[j].stamp.Some?
    ensures last < Accepted(last, es)[j].stamp.value
    decreases |es|
  {
    var d := if Accepts(last, es[0]) then 1 else 0;
    if !(j == 0 && d == 1) {
      AboveLast(LastAfter(last, es[0]), es[1..], j - d);
    }
  }

  /** A strictly increasing stretch above `last` passes untouched. */
  lemma {:induction false} IncreasingPasses(last: nat, es: seq<Event>)
    requires Increasing(es) && (es != [] ==> es[0].stamp.value > last)
    ensures Accepted(last, es) == es
    decreases |es|
  {
    if es != [] {
      IncreasingPasses(es[0].stamp.value, es[1..]);
      assert [es[0]] + es[1..] == es;
    }
  }

  // ---------------------------------------------------------------------------
  // The subscriber
  // ---------------------------------------------------------------------------

  /** `seen` is the resume point of the current connection, `read` the events read from it. */
  datatype Client = Client(
    lastSeq: nat,
    seen: nat,
    ready: nat,
    readyRead: bool,
    read: nat,
    forwarded: seq<Event>)

  function OnReady(k: Client): Client {
    k.(readyRead := true, lastSeq := if 0 < k.ready < k.seen then 0 else k.lastSeq)
  }

  function OnEvent(k: Client, e: Event): Client {
    k.(lastSeq := if e.stamp.Some? then Max(k.lastSeq, e.stamp.value) else k.lastSeq,
       read := k.read + 1,
       forwarded := k.forwarded + [e])
  }

  function ResumePoint(seen: nat): Option<nat> { if seen > 0 then Some(seen) else None }

  /** The counter and the outgoing channel of the subscriber task. */
  class Subscriber {
    var lastSeq: nat
    var seen: nat
    var ready: nat
    var readyRead: bool
    var read: nat
    var forwarded: seq<Event>

    function View(): Client
      reads this
    {
      Client(lastSeq, seen, ready, readyRead, read, forwarded)
    }

    constructor (since: Option<nat>)
      ensures View() == Client(if since.Some? then since.value else 0, 0, 0, false, 0, [])
    {
      lastSeq := if since.Some? then since.value else 0;
      seen, ready, readyRead, read, forwarded := 0, 0, false, 0, [];
    }

    /** Load the counter and say hello. */
    method Hello() returns (since: Option<nat>)
      modifies `seen, `readyRead, `read
      ensures View() == old(View()).(seen := old(lastSeq), readyRead := false, read := 0)
      ensures since == ResumePoint(old(lastSeq))
    {
      seen, readyRead, read := lastSeq, false, 0;
      since := if seen > 0 then Some(seen) else None;
    }

    method ReadReady(gatewayLastSeq: nat)
      modifies this
      ensures View() == OnReady(old(View()).(ready := gatewayLastSeq))
    {
      ready, readyRead := gatewayLastSeq, true;
      if gatewayLastSeq > 0 && gatewayLastSeq < seen {
        lastSeq := 0;
      }
    }

    method ReadEvent(event: Event)
      modifies this
      ensures View() == OnEvent(old(View()), event)
    {
      if event.stamp.Some? && event.stamp.value > lastSeq {
        lastSeq := event.stamp.value;
      }
      read := read + 1;
      forwarded := forwarded + [event];
    }
  }

  // ---------------------------------------------------------------------------
  // The system
  // ---------------------------------------------------------------------------

  /**
   `attached` says the connection was opened on the present hub; after a restart the
   subscriber may still read what was already written to its socket. `past` is every
   event stamped by earlier incarnations.
   */
  datatype World = World(
    hub: HubState,
    conn: Conn,
    attached: bool,
    client: Client,
    taken: nat,
    bridgeLast: nat,
    handed: seq<Event>,
    past: seq<Event>)

  datatype Move =
    | Gateway(act: Action)
    | Connect(replay: nat)
    | ReadReady
    | ReadEvent
    | Take
    | Restart(clock: nat)

  predicate CanMove(w: World, m: Move) {
    match m
    case Gateway(a) => Enabled(Link(w.hub, w.conn), a) && (TouchesConn(a) ==> w.attached)
    case Connect(_) => true
    case ReadReady => !w.client.readyRead
    case ReadEvent => w.client.readyRead && w.client.read < |w.conn.out.written|
    case Take => w.taken < |w.client.forwarded|
    case Restart(_) => true
  }

  function Do(w: World, m: Move): World
    requires CanMove(w, m)
  {
    match m
    case Gateway(a) =>
      var l := Apply(Link(w.hub, w.conn), a);
      w.(hub := l.hub, conn := l.conn)
    case Connect(replay) =>
      var seen := w.client.lastSeq;
      w.(conn := NewConn(ResumePoint(seen), replay),
         attached := true,
         client := w.client.(seen := seen, ready := w.hub.base + |w.hub.stamped|, readyRead := false, read := 0))
    case ReadReady => w.(client := OnReady(w.client))
    case ReadEvent => w.(client := OnEvent(w.client, w.conn.out.written[w.client.read]))
    case Take =>
      var e := w.client.forwarded[w.taken];
      w.(taken := w.taken + 1,
         bridgeLast := LastAfter(w.bridgeLast, e),
         handed := w.handed + if Accepts(w.bridgeLast, e) then [e] else [])
    case Restart(clock) =>
      w.(hub := NewHub(clock, w.hub.cap), attached := false, past := w.past + w.hub.stamped)
  }

  predicate CanPlay(w: World, ms: seq<Move>)
    decreases |ms|
  {
    ms == [] || (CanMove(w, ms[0]) && CanPlay(Do(w, ms[0]), ms[1..]))
  }

  function Play(w: World, ms: seq<Move>): World
    requires CanPlay(w, ms)
    decreases |ms|
  {
    if ms == [] then w else Play(Do(w, ms[0]), ms[1..])
  }

  /** A subscriber and a bridge that have just started against a fresh gateway. */
  function Start(clock: nat, bufferCap: nat, since: nat): World {
    World(NewHub(clock, bufferCap), NewConn(None, 0).(phase := Closed), false,
          Client(since, since, 0, true, 0, []), 0, 0, [], [])
  }

  // ---------------------------------------------------------------------------
  // Sequences across gateway restarts
  // ---------------------------------------------------------------------------

  /** Highest sequence the present hub has handed out. */
  function Top(h: HubState): nat { h.base + |h.stamped| }

  /**
   The clock never goes back, and the old hub stamped at most one event per elapsed
   millisecond: the new seed is not below the last sequence in use.
   */
  predicate ClockAhead(w: World, m: Move) { m.Restart? ==> m.clock >= Top(w.hub) }

  predicate Honest(w: World, ms: seq<Move>)
    requires CanPlay(w, ms)
    decreases |ms|
  {
    ms == [] || (ClockAhead(w, ms[0]) && Honest(Do(w, ms[0]), ms[1..]))
  }

  ghost predicate AtMost(es: seq<Event>, s: nat) {
    forall i :: 0 <= i < |es| ==> es[i].stamp.Some? && es[i].stamp.value <= s
  }

  ghost predicate AllAbove(es: seq<Event>, s: nat) {
    forall i :: 0 <= i < |es| ==> es[i].stamp.Some? && es[i].stamp.value > s
  }

  /** The connection as far as the subscriber can see it. */
  ghost predicate WireInv(w: World) {
    && Increasing(w.conn.out.written)
    && AtMost(w.conn.out.written, Top(w.hub))
    && AllAbove(w.conn.out.written, w.client.seen)
    && w.client.read <= |w.conn.out.written|
  }

  ghost predicate GatewayInv(w: World) {
    && HubInv(w.hub)
    && Increasing(w.past) && AtMost(w.past, w.hub.base)
    && (w.attached ==> LinkInv(Link(w.hub, w.conn)) && w.conn.since == ResumePoint(w.client.seen))
  }

  ghost predicate ClientInv(w: World) {
    && w.client.lastSeq <= Top(w.hub)
    && (!w.client.readyRead ==> w.client.seen <= w.client.ready && w.client.read == 0)
    && (w.client.read == 0 ==> w.client.lastSeq == w.client.seen)
    && (0 < w.client.read <= |w.conn.out.written| ==>
          w.conn.out.written[w.client.read - 1].stamp == Some(w.client.lastSeq))
    && Increasing(w.client.forwarded) && AtMost(w.client.forwarded, w.client.lastSeq)
    && AllAbove(w.client.forwarded, 0)
  }

  ghost predicate BridgeInv(w: World) {
    && w.taken <= |w.client.forwarded|
    && w.handed == w.client.forwarded[..w.taken]
    && (if w.taken == 0 then w.bridgeLast == 0 else w.client.forwarded[w.taken - 1].stamp == Some(w.bridgeLast))
  }

  ghost predicate WorldInv(w: World) { GatewayInv(w) && WireInv(w) && ClientInv(w) && BridgeInv(w) }

  lemma WrittenGrows(l: Link, a: Action)
    requires LinkInv(l) && Enabled(l, a)
    ensures l.conn.out.written <= Apply(l, a).conn.out.written
  {
  }

  /** The written log of an attached connection, put in the subscriber's terms. */
  lemma WrittenOnWire(h: HubState, c: Conn, seen: nat)
    requires HubInv(h) && WrittenInv(h, c) && c.since == ResumePoint(seen)
    ensures AtMost(c.out.written, Top(h)) && AllAbove(c.out.written, seen)
  {
    forall i | 0 <= i < |c.out.written|
      ensures c.out.written[i].stamp.Some? && seen < c.out.written[i].stamp.value <= Top(h)
    {
      assert FromLog(h, c.out.written[i]);
    }
  }

  lemma GatewayKeepsWorld(w: World, a: Action)
    requires WorldInv(w) && CanMove(w, Gateway(a))
    ensures WorldInv(Do(w, Gateway(a)))
  {
    var l := Link(w.hub, w.conn);
    var w' := Do(w, Gateway(a));
    assert Top(w'.hub) >= Top(w.hub) && w'.hub.base == w.hub.base;
    if w.attached {
      StepKeeps(l, a);
      WrittenGrows(l, a);
      SinceFixed(l, a);
      WrittenOnWire(w'.hub, w'.conn, w.client.seen);
    } else {
      var idle := Link(w.hub, NewConn(None, 0));
      NothingWritten(w.hub, idle.conn);
      StepKeeps(idle, a);
      assert Apply(idle, a).hub == w'.hub;
    }
  }

  lemma SinceFixed(l: Link, a: Action)
    requires Enabled(l, a)
    ensures Apply(l, a).conn.since == l.conn.since
  {
  }

  lemma ConnectKeepsWorld(w: World, replay: nat)
    requires WorldInv(w)
    ensures WorldInv(Do(w, Connect(replay)))
  {
    NothingWritten(w.hub, NewConn(ResumePoint(w.client.lastSeq), replay));
  }

  /** Changing only what the subscriber has read leaves the gateway's part alone. */
  lemma GatewayIgnoresReading(w: World, k: Client)
    requires GatewayInv(w) && k.seen == w.client.seen
    ensures GatewayInv(w.(client := k))
  {
  }

  lemma ReadingExtends(k: Client, e: Event)
    requires Increasing(k.forwarded) && AtMost(k.forwarded, k.lastSeq) && AllAbove(k.forwarded, 0)
    requires e.stamp.Some? && e.stamp.value > k.lastSeq
    ensures var k' := OnEvent(k, e);
            && k'.lastSeq == e.stamp.value
            && Increasing(k'.forwarded) && AtMost(k'.forwarded, k'.lastSeq) && AllAbove(k'.forwarded, 0)
  {
  }

  lemma NextIsHigher(w: World)
    requires WireInv(w) && ClientInv(w) && CanMove(w, ReadEvent)
    ensures var e := w.conn.out.written[w.client.read];
            e.stamp.Some? && w.client.lastSeq < e.stamp.value <= Top(w.hub)
  {
  }

  lemma ReadEventKeepsWorld(w: World)
    requires WorldInv(w) && CanMove(w, ReadEvent)
    ensures WorldInv(Do(w, ReadEvent))
  {
    var k := w.client;
    var e := w.conn.out.written[k.read];
    NextIsHigher(w);
    ReadingExtends(k, e);
    GatewayIgnoresReading(w, OnEvent(k, e));
    assert Do(w, ReadEvent).client.forwarded[..w.taken] == k.forwarded[..w.taken];
  }

  lemma TakeKeepsWorld(w: World)
    requires WorldInv(w) && CanMove(w, Take)
    ensures WorldInv(Do(w, Take))
  {
    var f := w.client.forwarded;
    assert Accepts(w.bridgeLast, f[w.taken]);
    assert f[..w.taken + 1] == f[..w.taken] + [f[w.taken]];
  }

  lemma RestartKeepsWorld(w: World, clock: nat)
    requires WorldInv(w) && clock >= Top(w.hub)
    ensures WorldInv(Do(w, Restart(clock)))
  {
    NewHubInv(clock, w.hub.cap);
    PastGrows(w);
  }

  lemma PastGrows(w: World)
    requires HubInv(w.hub) && Increasing(w.past) && AtMost(w.past, w.hub.base)
    ensures Increasing(w.past + w.hub.stamped) && AtMost(w.past + w.hub.stamped, Top(w.hub))
  {
    var all := w.past + w.hub.stamped;
    forall i | 0 <= i < |all|
      ensures all[i].stamp.Some? && all[i].stamp.value <= Top(w.hub)
      ensures i >= |w.past| ==> all[i].stamp == Some(w.hub.base + 1 + i - |w.past|)
      ensures i < |w.past| ==> all[i] == w.past[i] && all[i].stamp.value <= w.hub.base
    {
      if i >= |w.past| {
        assert all[i] == w.hub.stamped[i - |w.past|];
      }
    }
  }

  lemma MoveKeepsWorld(w: World, m: Move)
    requires WorldInv(w) && CanMove(w, m) && ClockAhead(w, m)
    ensures WorldInv(Do(w, m))
  {
    match m
    case Gateway(a) => GatewayKeepsWorld(w, a);
    case Connect(replay) => ConnectKeepsWorld(w, replay);
    case ReadReady =>
    case ReadEvent => ReadEventKeepsWorld(w);
    case Take => TakeKeepsWorld(w);
    case Restart(clock) => RestartKeepsWorld(w, clock);
  }

  lemma {:induction false} PlayKeepsWorld(w: World, ms: seq<Move>)
    requires WorldInv(w) && CanPlay(w, ms) && Honest(w, ms)
    ensures WorldInv(Play(w, ms))
    decreases |ms|
  {
    if ms != [] {
      MoveKeepsWorld(w, ms[0]);
      PlayKeepsWorld(Do(w, ms[0]), ms[1..]);
    }
  }

  lemma StartInv(clock: nat, bufferCap: nat, since: nat)
    requires since <= clock
    ensures WorldInv(Start(clock, bufferCap, since))
  {
    NewHubInv(clock, bufferCap);
  }

  /**
   Under a clock that keeps ahead of the sequences, every sequence of every incarnation
   strictly increases, the subscriber never starts over, and the bridge hands on
   everything it is forwarded.
   */
  lemma SequencesSurviveRestarts(clock: nat, bufferCap: nat, since: nat, ms: seq<Move>)
    requires since <= clock
    requires CanPlay(Start(clock, bufferCap, since), ms) && Honest(Start(clock, bufferCap, since), ms)
    ensures var w := Play(Start(clock, bufferCap, since), ms);
            && Increasing(w.past + w.hub.stamped)
            && (!w.client.readyRead ==> !(0 < w.client.ready < w.client.seen))
            && w.taken <= |w.client.forwarded| && w.handed == w.client.forwarded[..w.taken]
            && Increasing(w.client.forwarded)
  {
    StartInv(clock, bufferCap, since);
    PlayKeepsWorld(Start(clock, bufferCap, since), ms);
    PastGrows(Play(Start(clock, bufferCap, since), ms));
  }

  // ---------------------------------------------------------------------------
  // The reset
  // ---------------------------------------------------------------------------

  /** What holds whatever the clocks do: the socket carries stamped events in rising order, above its resume point. */
  ghost predicate SocketInv(w: World) {
    && HubInv(w.hub)
    && (w.attached ==> LinkInv(Link(w.hub, w.conn)) && w.conn.since == ResumePoint(w.client.seen))
    && Increasing(w.conn.out.written) && AllAbove(w.conn.out.written, w.client.seen)
    && w.client.read <= |w.conn.out.written|
    && (!w.client.readyRead ==> w.client.read == 0)
  }

  lemma GatewayKeepsSocket(w: World, a: Action)
    requires SocketInv(w) && CanMove(w, Gateway(a))
    ensures SocketInv(Do(w, Gateway(a)))
  {
    var l := Link(w.hub, w.conn);
    if w.attached {
      StepKeeps(l, a);
      WrittenGrows(l, a);
      SinceFixed(l, a);
      WrittenOnWire(Apply(l, a).hub, Apply(l, a).conn, w.client.seen);
    } else {
      HubKeeps(w.hub, w.conn, a);
    }
  }

  lemma HubKeeps(h: HubState, c: Conn, a: Action)
    requires HubInv(h) && Enabled(Link(h, c), a) && !TouchesConn(a)
    ensures HubInv(Apply(Link(h, c), a).hub) && Apply(Link(h, c), a).conn == c
  {
    match a
    case DoStamp(body) => StampKeeps(h, body);
    case DoPush => PushKeeps(h);
    case _ => SendKeeps(h);
  }

  lemma MoveKeepsSocket(w: World, m: Move)
    requires SocketInv(w) && CanMove(w, m)
    ensures SocketInv(Do(w, m))
  {
    match m
    case Gateway(a) => GatewayKeepsSocket(w, a);
    case Connect(replay) => NothingWritten(w.hub, NewConn(ResumePoint(w.client.lastSeq), replay));
    case Restart(clock) => NewHubInv(clock, w.hub.cap);
    case _ =>
  }

  lemma {:induction false} PlayKeepsSocket(w: World, ms: seq<Move>)
    requires SocketInv(w) && CanPlay(w, ms)
    ensures SocketInv(Play(w, ms))
    decreases |ms|
  {
    if ms != [] {
      MoveKeepsSocket(w, ms[0]);
      PlayKeepsSocket(Do(w, ms[0]), ms[1..]);
    }
  }

  /** A ready whose sequence is behind the resume point just sent. */
  predicate Resets(w: World) { !w.client.readyRead && 0 < w.client.ready < w.client.seen }

  predicate SameConnection(ms: seq<Move>) { forall i :: 0 <= i < |ms| ==> !ms[i].Connect? }

  predicate NothingRead(ms: seq<Move>) { forall i :: 0 <= i < |ms| ==> !ms[i].ReadEvent? }

  /** The sequence of the last event read from the present connection. */
  function LastRead(w: World): Option<nat> {
    if 0 < w.client.read <= |w.conn.out.written| then w.conn.out.written[w.client.read - 1].stamp else None
  }

  /** Since a reset the counter is 0, or the sequence of the last event read. */
  ghost predicate CountsFromReset(w: World) {
    && SocketInv(w) && w.client.readyRead
    && w.client.lastSeq == if w.client.read == 0 then 0 else w.conn.out.written[w.client.read - 1].stamp.value
  }

  lemma MoveCountsOn(w: World, m: Move)
    requires CountsFromReset(w) && CanMove(w, m) && !m.Connect?
    ensures CountsFromReset(Do(w, m))
    ensures Do(w, m).client.read == w.client.read + if m.ReadEvent? then 1 else 0
  {
    MoveKeepsSocket(w, m);
    if m.Gateway? && w.attached {
      WrittenGrows(Link(w.hub, w.conn), m.act);
    }
  }

  lemma {:induction false} PlayCountsOn(w: World, ms: seq<Move>)
    requires CountsFromReset(w) && CanPlay(w, ms) && SameConnection(ms)
    ensures CountsFromReset(Play(w, ms)) && Play(w, ms).client.read >= w.client.read
    ensures Play(w, ms).client.read == w.client.read <==> NothingRead(ms)
    decreases |ms|
  {
    if ms != [] {
      MoveCountsOn(w, ms[0]);
      assert forall i :: 0 <= i < |ms| - 1 ==> ms[1..][i] == ms[i + 1];
      PlayCountsOn(Do(w, ms[0]), ms[1..]);
      if NothingRead(ms[1..]) && !ms[0].ReadEvent? {
        assert forall i :: 0 <= i < |ms| ==> ms[i] == if i == 0 then ms[0] else ms[1..][i - 1];
      }
    }
  }

  lemma ResetCounts(w: World)
    requires SocketInv(w) && Resets(w)
    ensures CountsFromReset(Do(w, ReadReady)) && Do(w, ReadReady).client.read == 0
  {
    MoveKeepsSocket(w, ReadReady);
  }

  /**
   Over every play, whatever the clocks do: after a reset the next hello has no resume point
   if and only if no event was read on the reset connection. Otherwise it resumes after the
   last event read, as if there had been no reset.
   */
  lemma ResetLastsUntilFirstEvent(clock: nat, bufferCap: nat, since: nat, before: seq<Move>, after: seq<Move>,
                                  replay: nat)
    requires CanPlay(Start(clock, bufferCap, since), before) && Resets(Play(Start(clock, bufferCap, since), before))
    requires var w := Do(Play(Start(clock, bufferCap, since), before), ReadReady);
             CanPlay(w, after) && SameConnection(after)
    ensures var w := Play(Do(Play(Start(clock, bufferCap, since), before), ReadReady), after);
            var hello := Do(w, Connect(replay)).conn.since;
            && (hello == None <==> NothingRead(after))
            && (hello.Some? ==> hello == LastRead(w))
  {
    StartIsSocket(clock, bufferCap, since);
    PlayKeepsSocket(Start(clock, bufferCap, since), before);
    var reset := Play(Start(clock, bufferCap, since), before);
    ResetCounts(reset);
    PlayCountsOn(Do(reset, ReadReady), after);
    HelloAfter(Play(Do(reset, ReadReady), after), replay);
  }

  lemma StartIsSocket(clock: nat, bufferCap: nat, since: nat)
    ensures SocketInv(Start(clock, bufferCap, since))
  {
    NewHubInv(clock, bufferCap);
  }

  lemma HelloAfter(w: World, replay: nat)
    requires CountsFromReset(w)
    ensures var hello := Do(w, Connect(replay)).conn.since;
            && (hello == None <==> w.client.read == 0)
            && (hello.Some? ==> hello == LastRead(w))
  {
  }

  lemma {:induction false} PlayTwice(w: World, a: seq<Move>, b: seq<Move>)
    requires CanPlay(w, a) && CanPlay(Play(w, a), b)
    ensures CanPlay(w, a + b) && Play(w, a + b) == Play(Play(w, a), b)
    decreases |a|
  {
    if a == [] {
      assert a + b == b;
    } else {
      assert (a + b)[1..] == a[1..] + b;
      PlayTwice(Do(w, a[0]), a[1..], b);
    }
  }

  lemma PlayOne(w: World, m: Move)
    requires CanMove(w, m)
    ensures CanPlay(w, [m]) && Play(w, [m]) == Do(w, m)
  {
    assert [m][1..] == [];
  }

  function Ingesting(body: string): seq<Move> { [Gateway(DoStamp(body))] + ([Gateway(DoPush)] + [Gateway(DoSend)]) }

  lemma IngestingPlays(w: World, body: string)
    requires HubInv(w.hub) && CanStamp(w.hub)
    ensures w.hub.pushed == w.hub.sent
    ensures CanPlay(w, Ingesting(body)) && Play(w, Ingesting(body)) == w.(hub := Ingested(w.hub, body))
    ensures HubInv(Ingested(w.hub, body)) && CanStamp(Ingested(w.hub, body))
  {
    StampKeeps(w.hub, body);
    PlayOne(w, Gateway(DoStamp(body)));
    var w1 := Do(w, Gateway(DoStamp(body)));
    PushKeeps(w1.hub);
    PlayOne(w1, Gateway(DoPush));
    var w2 := Do(w1, Gateway(DoPush));
    SendKeeps(w2.hub);
    PlayOne(w2, Gateway(DoSend));
    PlayTwice(w1, [Gateway(DoPush)], [Gateway(DoSend)]);
    PlayTwice(w, [Gateway(DoStamp(body))], [Gateway(DoPush)] + [Gateway(DoSend)]);
  }

  /** One event stamped, buffered, fanned out and received. */
  function Arrival(body: string): seq<Move> { Ingesting(body) + [Gateway(Recv)] }

  /** Nothing else under way: the connection is live and has received all that was sent. */
  predicate CaughtUp(w: World) {
    w.attached && w.conn.phase == Live && CanStamp(w.hub) && w.conn.rx == w.hub.sent
  }

  lemma ArrivalPlays(w: World, body: string)
    requires HubInv(w.hub) && CaughtUp(w)
    ensures CanPlay(w, Arrival(body))
    ensures var w' := Play(w, Arrival(body));
            && HubInv(w'.hub) && CaughtUp(w') && w'.client == w.client && w'.hub.base == w.hub.base
            && w'.conn.out == Receive(w.conn.out, Event(Some(w.hub.base + |w.hub.stamped| + 1), body))
            && |w'.hub.stamped| == |w.hub.stamped| + 1
  {
    IngestingPlays(w, body);
    IngestedAppends(w.hub, body);
    var w1 := Play(w, Ingesting(body));
    PlayOne(w1, Gateway(Recv));
    PlayTwice(w, Ingesting(body), [Gateway(Recv)]);
  }

  /** Connected to a gateway that is one behind. */
  function Behind(): seq<Move> { [Connect(0)] + ([Gateway(Snapshot)] + [Gateway(Subscribe)]) }

  lemma BehindPlays()
    ensures var w := Start(1, 8, 2);
            && CanPlay(w, Behind())
            && var w' := Play(w, Behind());
               && Resets(w') && CaughtUp(w') && w'.hub == w.hub && w'.conn.out == Out(2, []) && w'.client.read == 0
  {
    var w := Start(1, 8, 2);
    PlayOne(w, Connect(0));
    var w1 := Do(w, Connect(0));
    PlayOne(w1, Gateway(Snapshot));
    var w2 := Do(w1, Gateway(Snapshot));
    assert After(w.hub.ring, 2) == [];
    PlayOne(w2, Gateway(Subscribe));
    PlayTwice(w1, [Gateway(Snapshot)], [Gateway(Subscribe)]);
    PlayTwice(w, [Connect(0)], [Gateway(Snapshot)] + [Gateway(Subscribe)]);
  }

  /** A reset undone: the second event past it is read, and the next hello resumes after that event. */
  lemma ResetIsUndone()
    ensures CanPlay(Start(1, 8, 2), Behind()) && Resets(Play(Start(1, 8, 2), Behind()))
    ensures var reset := Do(Play(Start(1, 8, 2), Behind()), ReadReady);
            && reset.client.lastSeq == 0
            && CanPlay(reset, Arrival("a") + Arrival("b"))
            && var fed := Play(reset, Arrival("a") + Arrival("b"));
               && CanMove(fed, ReadEvent)
               && Do(Do(fed, ReadEvent), Connect(0)).conn.since == Some(3)
  {
    BehindPlays();
    NewHubInv(1, 8);
    FedPastReset(Do(Play(Start(1, 8, 2), Behind()), ReadReady));
  }

  /** The first event read after a reset is what the next hello resumes after. */
  lemma FirstReadDecides(w: World, e: Event)
    requires w.client.readyRead && w.client.read == 0 && w.client.lastSeq == 0
    requires w.conn.out.written == [e] && e.stamp.Some? && e.stamp.value > 0
    ensures CanMove(w, ReadEvent) && Do(Do(w, ReadEvent), Connect(0)).conn.since == e.stamp
  {
  }

  /** An arrival at or below what the connection starts above is not written. */
  lemma ArrivalSkipped(w: World, body: string)
    requires HubInv(w.hub) && CaughtUp(w) && w.hub.base == 1 && |w.hub.stamped| == 0 && w.conn.out == Out(2, [])
    ensures CanPlay(w, Arrival(body))
    ensures var w' := Play(w, Arrival(body));
            && HubInv(w'.hub) && CaughtUp(w') && w'.client == w.client
            && w'.hub.base == 1 && |w'.hub.stamped| == 1 && w'.conn.out == Out(2, [])
  {
    ArrivalPlays(w, body);
  }

  /** The next one is. */
  lemma ArrivalWritten(w: World, body: string)
    requires HubInv(w.hub) && CaughtUp(w) && w.hub.base == 1 && |w.hub.stamped| == 1 && w.conn.out == Out(2, [])
    ensures CanPlay(w, Arrival(body))
    ensures var w' := Play(w, Arrival(body));
            w'.client == w.client && w'.conn.out.written == [Event(Some(3), body)]
  {
    ArrivalPlays(w, body);
  }

  lemma FedTwice(w: World, a: seq<Move>, b: seq<Move>, e: Event)
    requires CanPlay(w, a) && CanPlay(Play(w, a), b) && e.stamp.Some? && e.stamp.value > 0
    requires var w' := Play(Play(w, a), b);
             && w'.client.readyRead && w'.client.read == 0 && w'.client.lastSeq == 0
             && w'.conn.out.written == [e]
    ensures CanPlay(w, a + b)
    ensures var fed := Play(w, a + b);
            CanMove(fed, ReadEvent) && Do(Do(fed, ReadEvent), Connect(0)).conn.since == e.stamp
  {
    PlayTwice(w, a, b);
    FirstReadDecides(Play(Play(w, a), b), e);
  }

  lemma FedPastReset(reset: World)
    requires HubInv(reset.hub) && CaughtUp(reset) && reset.hub.base == 1 && |reset.hub.stamped| == 0
    requires reset.conn.out == Out(2, [])
    requires reset.client.lastSeq == 0 && reset.client.read == 0 && reset.client.readyRead
    ensures CanPlay(reset, Arrival("a") + Arrival("b"))
    ensures var fed := Play(reset, Arrival("a") + Arrival("b"));
            CanMove(fed, ReadEvent) && Do(Do(fed, ReadEvent), Connect(0)).conn.since == Some(3)
  {
    ArrivalSkipped(reset, "a");
    ArrivalWritten(Play(reset, Arrival("a")), "b");
    FedTwice(reset, Arrival("a"), Arrival("b"), Event(Some(3), "b"));
  }

  /**
   The hello already sent still carries the old resume point, so the reset connection
   brings nothing at or below it.
   */
  lemma ResetServesOldPoint(w: World, acts: seq<Action>)
    requires LinkInv(Link(w.hub, w.conn)) && w.conn.since == ResumePoint(w.client.seen) && Resets(w)
    requires CanRun(Link(w.hub, w.conn), acts)
    ensures Do(w, ReadReady).client.lastSeq == 0
    ensures AllAbove(Run(Link(w.hub, w.conn), acts).conn.out.written, w.client.seen)
  {
    var l := Link(w.hub, w.conn);
    RunKeeps(l, acts);
    RunFixesSince(l, acts);
    var l' := Run(l, acts);
    WrittenOnWire(l'.hub, l'.conn, w.client.seen);
  }

  lemma {:induction false} RunFixesSince(l: Link, acts: seq<Action>)
    requires CanRun(l, acts)
    ensures Run(l, acts).conn.since == l.conn.since
    decreases |acts|
  {
    if acts != [] {
      SinceFixed(l, acts[0]);
      RunFixesSince(Apply(l, acts[0]), acts[1..]);
    }
  }

  /** With no assumption at all on clocks, restarts or gateways: what the bridge hands on only rises. */
  ghost predicate HandedRises(w: World) {
    && (forall i :: 0 <= i < |w.handed| && w.handed[i].stamp.Some? ==> w.handed[i].stamp.value <= w.bridgeLast)
    && forall i, j :: 0 <= i < j < |w.handed| && w.handed[i].stamp.Some? && w.handed[j].stamp.Some? ==>
         w.handed[i].stamp.value < w.handed[j].stamp.value
  }

  lemma {:induction false} BridgeAlwaysRises(w: World, ms: seq<Move>)
    requires HandedRises(w) && CanPlay(w, ms)
    ensures HandedRises(Play(w, ms))
    decreases |ms|
  {
    if ms != [] {
      BridgeAlwaysRises(Do(w, ms[0]), ms[1..]);
    }
  }

  // ---------------------------------------------------------------------------
  // What is forwarded and handed on is what was read and taken
  // ---------------------------------------------------------------------------

  /** Since `w` the subscriber has forwarded exactly what it read, unless it has connected anew. */
  predicate ForwardsReads(w: World, w': World) {
    && w.client.read <= w'.client.read <= |w'.conn.out.written|
    && w'.client.forwarded == w.client.forwarded + w'.conn.out.written[w.client.read..w'.client.read]
  }

  lemma MoreIsWritten(w: World, v: World, v': World)
    requires ForwardsReads(w, v) && v'.client == v.client && v.conn.out.written <= v'.conn.out.written
    ensures ForwardsReads(w, v')
  {
    assert v'.conn.out.written[w.client.read..v.client.read] == v.conn.out.written[w.client.read..v.client.read];
  }

  lemma GatewayWrites(v: World, a: Action)
    requires SocketInv(v) && CanMove(v, Gateway(a))
    ensures v.conn.out.written <= Do(v, Gateway(a)).conn.out.written
  {
    if v.attached {
      WrittenGrows(Link(v.hub, v.conn), a);
    } else {
      HubKeeps(v.hub, v.conn, a);
    }
  }

  lemma ReadForwards(w: World, v: World)
    requires ForwardsReads(w, v) && CanMove(v, ReadEvent)
    ensures ForwardsReads(w, Do(v, ReadEvent))
  {
    var written, from, to := v.conn.out.written, w.client.read, v.client.read;
    assert written[from..to + 1] == written[from..to] + [written[to]];
  }

  lemma MoveForwards(w: World, v: World, m: Move)
    requires ForwardsReads(w, v) && SocketInv(v) && CanMove(v, m) && !m.Connect?
    ensures ForwardsReads(w, Do(v, m))
  {
    match m
    case Gateway(a) =>
      GatewayWrites(v, a);
      MoreIsWritten(w, v, Do(v, m));
    case ReadEvent => ReadForwards(w, v);
    case _ =>
  }

  lemma {:induction false} PlayForwards(w: World, v: World, ms: seq<Move>)
    requires ForwardsReads(w, v) && SocketInv(v) && CanPlay(v, ms) && SameConnection(ms)
    ensures ForwardsReads(w, Play(v, ms))
    decreases |ms|
  {
    if ms != [] {
      MoveForwards(w, v, ms[0]);
      MoveKeepsSocket(v, ms[0]);
      assert forall i :: 0 <= i < |ms| - 1 ==> ms[1..][i] == ms[i + 1];
      PlayForwards(w, Do(v, ms[0]), ms[1..]);
    }
  }

  function Reads(ms: seq<Move>): nat {
    if ms == [] then 0 else (if ms[0].ReadEvent? then 1 else 0) + Reads(ms[1..])
  }

  lemma {:induction false} ReadsCounted(w: World, ms: seq<Move>)
    requires CanPlay(w, ms) && SameConnection(ms)
    ensures Play(w, ms).client.read == w.client.read + Reads(ms)
    decreases |ms|
  {
    if ms != [] {
      assert forall i :: 0 <= i < |ms| - 1 ==> ms[1..][i] == ms[i + 1];
      ReadsCounted(Do(w, ms[0]), ms[1..]);
    }
  }

  /**
   Over every play, whatever the gateway does: from one hello to the next the subscriber forwards
   exactly the first events written to its socket, as many as it has read.
   */
  lemma ForwardsWhatItReads(clock: nat, bufferCap: nat, since: nat, before: seq<Move>, replay: nat, after: seq<Move>)
    requires CanPlay(Start(clock, bufferCap, since), before) && SameConnection(after)
    requires CanPlay(Do(Play(Start(clock, bufferCap, since), before), Connect(replay)), after)
    ensures var w := Play(Start(clock, bufferCap, since), before);
            var w' := Play(Do(w, Connect(replay)), after);
            && Reads(after) <= |w'.conn.out.written|
            && w'.client.forwarded == w.client.forwarded + w'.conn.out.written[..Reads(after)]
  {
    StartIsSocket(clock, bufferCap, since);
    PlayKeepsSocket(Start(clock, bufferCap, since), before);
    var w := Play(Start(clock, bufferCap, since), before);
    var hello := Do(w, Connect(replay));
    MoveKeepsSocket(w, Connect(replay));
    assert hello.conn.out.written[0..0] == [];
    assert ForwardsReads(hello, hello);
    PlayForwards(hello, hello, after);
    ReadsCounted(hello, after);
  }

  /** What the bridge has handed on is what its filter passes of what it has taken. */
  ghost predicate Hands(w: World) {
    && w.taken <= |w.client.forwarded|
    && w.handed == Accepted(0, w.client.forwarded[..w.taken])
    && w.bridgeLast == LastAfterAll(0, w.client.forwarded[..w.taken])
  }

  lemma MoveHands(w: World, m: Move)
    requires Hands(w) && CanMove(w, m)
    ensures Hands(Do(w, m))
  {
    var w' := Do(w, m);
    match m
    case Take =>
      var es := w.client.forwarded[..w.taken];
      assert w.client.forwarded[..w.taken + 1] == es + [w.client.forwarded[w.taken]];
      AcceptedAppend(0, es, w.client.forwarded[w.taken]);
      LastAfterAppend(0, es, w.client.forwarded[w.taken]);
    case _ =>
      assert w'.client.forwarded[..w.taken] == w.client.forwarded[..w.taken];
  }

  lemma {:induction false} PlayHands(w: World, ms: seq<Move>)
    requires Hands(w) && CanPlay(w, ms)
    ensures Hands(Play(w, ms))
    decreases |ms|
  {
    if ms != [] {
      MoveHands(w, ms[0]);
      PlayHands(Do(w, ms[0]), ms[1..]);
    }
  }

  function Takes(ms: seq<Move>): nat {
    if ms == [] then 0 else (if ms[0].Take? then 1 else 0) + Takes(ms[1..])
  }

  lemma {:induction false} TakesCounted(w: World, ms: seq<Move>)
    requires CanPlay(w, ms)
    ensures Play(w, ms).taken == w.taken + Takes(ms)
    decreases |ms|
  {
    if ms != [] {
      TakesCounted(Do(w, ms[0]), ms[1..]);
    }
  }

  /**
   Over every play the bridge hands on exactly the events taken from the subscriber that have no
   stamp or one above every stamp taken before.
   */
  lemma HandsOnExactly(clock: nat, bufferCap: nat, since: nat, ms: seq<Move>)
    requires CanPlay(Start(clock, bufferCap, since), ms)
    ensures var w := Play(Start(clock, bufferCap, since), ms);
            Takes(ms) <= |w.client.forwarded| && w.handed == Passing(0, w.client.forwarded[..Takes(ms)])
  {
    PlayHands(Start(clock, bufferCap, since), ms);
    TakesCounted(Start(clock, bufferCap, since), ms);
    FilterIsExact(0, Play(Start(clock, bufferCap, since), ms).client.forwarded[..Takes(ms)]);
  }

  lemma {:induction false} NotYetReady(w: World, ms: seq<Move>)
    requires !w.client.readyRead && CanPlay(w, ms) && SameConnection(ms)
    requires forall i :: 0 <= i < |ms| ==> !ms[i].ReadReady?
    ensures Play(w, ms).client == w.client
    decreases |ms|
  {
    if ms != [] {
      assert forall i :: 0 <= i < |ms| - 1 ==> ms[1..][i] == ms[i + 1];
      NotYetReady(Do(w, ms[0]), ms[1..]);
    }
  }

  /**
   Over every play: the ready of a connection resets the counter if and only if the gateway had
   handed out a sequence when it was asked and that one is behind the counter.
   */
  lemma ReadyDecides(clock: nat, bufferCap: nat, since: nat, before: seq<Move>, replay: nat, between: seq<Move>)
    requires CanPlay(Start(clock, bufferCap, since), before) && SameConnection(between)
    requires forall i :: 0 <= i < |between| ==> !between[i].ReadReady?
    requires CanPlay(Do(Play(Start(clock, bufferCap, since), before), Connect(replay)), between)
    ensures var w := Play(Start(clock, bufferCap, since), before);
            var asked := Play(Do(w, Connect(replay)), between);
            && CanMove(asked, ReadReady)
            && Do(asked, ReadReady).client.lastSeq ==
               if Top(w.hub) > 0 && Top(w.hub) < w.client.lastSeq then 0 else w.client.lastSeq
  {
    NotYetReady(Do(Play(Start(clock, bufferCap, since), before), Connect(replay)), between);
  }

  /** A hello asks for what lies above the counter, or for the newest `replay` events while the counter is 0. */
  lemma HelloAsks(w: World, replay: nat)
    ensures var w' := Do(w, Connect(replay));
            && w'.conn.phase == Hello && w'.conn.replay == replay && w'.conn.out.written == []
            && w'.conn.since == (if w.client.lastSeq == 0 then None else Some(w.client.lastSeq))
            && w'.attached && w'.hub == w.hub && w'.client.lastSeq == w.client.lastSeq
  {
  }
}
