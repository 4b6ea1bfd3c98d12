/**
 Resuming against one gateway: when no step of a run opens a hole, everything the
 subscriber forwards, over all its connections, is one contiguous run of the log; and
 exactly when one resumed connection leaves no hole.
 */
module ExactlyOnce {
  import opened Basics
  import opened GatewayHub
  import opened ConsumerConnection
  import opened StreamResume

  /**
   The three ways an event can slip past a connection, each checkable before the step:
   a resume further back than the ring reaches, an event fanned out between snapshot
   and subscription, a lag repaired after the ring moved on. A first connection has no
   resume point and so nothing to miss.
   */
  predicate OpensNoHole(l: Link, a: Action) {
    match a
    case Snapshot => l.conn.since.Some? ==> l.hub.pushed <= Pos(l.hub, l.conn.since.value) + l.hub.cap
    case Subscribe => l.hub.sent <= l.conn.hist.snapTail
    case Replay =>
      l.hub.pushed <= Pos(l.hub, l.conn.out.last) + l.hub.cap || (l.conn.since.None? && l.conn.out.written == [])
    case _ => true
  }

  /**
   Exactly these steps lose something: the position right after the resume point at the snapshot,
   the one after the snapshot at the subscription, the one after the last event at a repair.
   */
  lemma HolesAreLosses(l: Link, a: Action)
    requires LinkInv(l) && Enabled(l, a)
    requires a.Replay? ==> l.conn.since.Some? || l.conn.out.written != []
    ensures var c, hist := l.conn, Apply(l, a).conn.hist;
            match a
            case Snapshot => c.since.Some? ==> (!OpensNoHole(l, a) <==> Lost(hist, Pos(l.hub, c.since.value)))
            case Subscribe => !OpensNoHole(l, a) <==> Lost(hist, c.hist.snapTail)
            case Replay => !OpensNoHole(l, a) <==> TornOut(LastRepair(hist), Pos(l.hub, c.out.last))
            case _ => OpensNoHole(l, a)
  {
  }

  /** No restart, and no step that opens a hole. */
  predicate Clean(w: World, m: Move) {
    !m.Restart? && (m.Gateway? ==> OpensNoHole(Link(w.hub, w.conn), m.act))
  }

  predicate AllClean(w: World, ms: seq<Move>)
    requires CanPlay(w, ms)
    decreases |ms|
  {
    ms == [] || (Clean(w, ms[0]) && AllClean(Do(w, ms[0]), ms[1..]))
  }

  /** Each event's sequence is one more than the last. */
  ghost predicate Chain(es: seq<Event>) {
    && (forall i :: 0 <= i < |es| ==> es[i].stamp.Some?)
    && forall i :: 0 < i < |es| ==> es[i].stamp.value == es[i - 1].stamp.value + 1
  }

  predicate Subscribed(c: Conn) {
    c.phase == Backfill || c.phase == Live || c.phase == LagReported || c.phase == Refill
  }

  ghost predicate ChainedOut(h: HubState, c: Conn) {
    && Chain(c.out.written)
    && (c.since.Some? ==> c.since.value >= h.base)
    && (c.since.Some? && c.out.written != [] ==> c.out.written[0].stamp == Some(c.since.value + 1))
    && (c.since.Some? && c.out.written == [] && Subscribed(c) ==> c.out.last == c.since.value)
  }

  ghost predicate NoHoleInv(h: HubState, c: Conn) {
    && ChainedOut(h, c)
    && (c.phase != Hello && c.since.Some? ==> c.hist.snapOldest <= Pos(h, c.since.value))
    && (Subscribed(c) ==> c.hist.subTail <= c.hist.snapTail)
    && (c.phase == Refill && c.hist.repairs != [] && (c.since.Some? || c.out.written != []) ==>
          Pos(h, c.out.last) == LastRepair(c.hist).tail - |c.queue|)
  }

  /** The next write continues the chain. */
  lemma WriteContinues(h: HubState, c: Conn, c': Conn, e: Event)
    requires WrittenInv(h, c) && ChainedOut(h, c) && Subscribed(c) && c'.since == c.since
    requires e.stamp.Some? && c'.out == WriteOne(c.out, e)
    requires c.since.Some? || c.out.written != [] ==> e.stamp.value == c.out.last + 1
    ensures ChainedOut(h, c')
  {
    var w := c.out.written;
    assert c'.out.written == w + [e];
    if w != [] {
      assert (w + [e])[|w| - 1].stamp == Some(c.out.last);
    }
  }

  lemma LastInLog(h: HubState, c: Conn)
    requires WrittenInv(h, c) && c.out.written != []
    ensures c.out.last > h.base
  {
    assert FromLog(h, c.out.written[|c.out.written| - 1]);
  }

  /** With no hole opened, the head of the backfill is the next sequence. */
  lemma BackfillNext(h: HubState, c: Conn)
    requires HubInv(h) && BackfillInv(h, c) && c.phase == Backfill && NoHoleInv(h, c)
    requires c.out.written != [] ==> c.out.last > h.base
    ensures c.queue[0].stamp.Some?
    ensures c.since.Some? || c.out.written != [] ==> c.queue[0].stamp.value == c.out.last + 1
  {
    QueueHead(h, c, c.hist.snapTail);
  }

  lemma BackfillContinues(h: HubState, c: Conn)
    requires HubInv(h) && BackfillInv(h, c) && c.phase == Backfill
    requires WrittenInv(h, c) && NoHoleInv(h, c)
    ensures NoHoleInv(h, WriteHead(c))
  {
    if c.out.written != [] {
      LastInLog(h, c);
    }
    BackfillNext(h, c);
    WriteContinues(h, c, WriteHead(c), c.queue[0]);
  }

  lemma RefillContinues(h: HubState, c: Conn)
    requires HubInv(h) && RefillInv(h, c) && c.phase == Refill
    requires WrittenInv(h, c) && NoHoleInv(h, c)
    ensures NoHoleInv(h, WriteHead(c))
  {
    QueueHead(h, c, LastRepair(c.hist).tail);
    WriteContinues(h, c, WriteHead(c), c.queue[0]);
  }

  lemma LiveContinues(h: HubState, c: Conn)
    requires HubInv(h) && LiveInv(h, c) && c.phase == Live && c.rx < h.sent
    requires WrittenInv(h, c) && NoHoleInv(h, c)
    ensures NoHoleInv(h, DoRecv(h, c))
  {
    var e := h.stamped[c.rx];
    assert e.stamp == Some(h.base + 1 + c.rx);
    if h.sent - c.rx <= BROADCAST_CAP && !Skips(c.out, e) {
      WriteContinues(h, c, DoRecv(h, c), e);
    }
  }

  lemma ReplayContinues(h: HubState, c: Conn)
    requires HubInv(h) && IdleInv(h, c) && c.phase == LagReported
    requires NoHoleInv(h, c) && OpensNoHole(Link(h, c), Replay)
    ensures NoHoleInv(h, DoReplay(h, c))
  {
    ReplayQueue(h, c);
    ReplayHistory(h, c);
  }

  lemma IngestContinues(l: Link, a: Action)
    requires NoHoleInv(l.hub, l.conn) && Enabled(l, a) && (a.DoStamp? || a.DoPush? || a.DoSend?)
    ensures NoHoleInv(Apply(l, a).hub, Apply(l, a).conn)
  {
  }

  lemma OpeningContinues(h: HubState, c: Conn)
    requires HubInv(h) && NoHoleInv(h, c)
    ensures c.phase == Hello && PhaseInv(h, c) && OpensNoHole(Link(h, c), Snapshot) ==> NoHoleInv(h, TakeSnapshot(h, c))
    ensures c.phase == Snapshotted && PhaseInv(h, c) && OpensNoHole(Link(h, c), Subscribe) ==>
              NoHoleInv(h, DoSubscribe(h, c))
  {
    assert c.since.Some? && h.pushed <= Pos(h, c.since.value) + h.cap ==> h.evicted <= Pos(h, c.since.value);
  }

  lemma CutContinues(h: HubState, c: Conn)
    requires PhaseInv(h, c) && NoHoleInv(h, c)
    ensures NoHoleInv(h, c.(phase := Closed))
  {
    assert c.phase == Hello ==> c.hist.snapOldest == 0;
  }

  lemma StepContinues(l: Link, a: Action)
    requires LinkInv(l) && Enabled(l, a) && NoHoleInv(l.hub, l.conn) && OpensNoHole(l, a)
    ensures NoHoleInv(Apply(l, a).hub, Apply(l, a).conn)
  {
    match a
    case WriteQueued =>
      if l.conn.phase == Backfill {
        BackfillContinues(l.hub, l.conn);
      } else {
        RefillContinues(l.hub, l.conn);
      }
    case Recv => LiveContinues(l.hub, l.conn);
    case Replay => ReplayContinues(l.hub, l.conn);
    case Snapshot => OpeningContinues(l.hub, l.conn);
    case Subscribe => OpeningContinues(l.hub, l.conn);
    case Cut => CutContinues(l.hub, l.conn);
    case _ => IngestContinues(l, a);
  }

  // ---------------------------------------------------------------------------
  // One connection that resumed
  // ---------------------------------------------------------------------------

  /** A resumed consumer is owed the log from right after its resume point. */
  predicate OwedFromResume(l: Link) {
    l.conn.since.Some? && l.conn.out.written != [] ==> l.conn.from == Pos(l.hub, l.conn.since.value)
  }

  lemma StepKeepsOwed(l: Link, a: Action)
    requires LinkInv(l) && OwedFromResume(l) && Enabled(l, a)
    ensures OwedFromResume(Apply(l, a))
  {
  }

  lemma {:induction false} RunKeepsOwed(l: Link, acts: seq<Action>)
    requires LinkInv(l) && OwedFromResume(l) && CanRun(l, acts)
    ensures OwedFromResume(Run(l, acts))
    decreases |acts|
  {
    if acts != [] {
      StepKeeps(l, acts[0]);
      StepKeepsOwed(l, acts[0]);
      RunKeepsOwed(Apply(l, acts[0]), acts[1..]);
    }
  }

  lemma {:induction false} SameIncreasing(a: seq<Event>, b: seq<Event>)
    requires Increasing(a) && Increasing(b) && forall e :: e in a <==> e in b
    ensures a == b
    decreases |a|
  {
    assert a != [] ==> a[0] in b;
    assert b != [] ==> b[0] in a;
    if a != [] {
      var m, n := |a| - 1, |b| - 1;
      assert a[m] in b && b[n] in a;
      assert a[m] == b[n];
      forall e ensures e in a[..m] <==> e in b[..n] {
        assert e in a[..m] <==> e in a && e != a[m];
        assert e in b[..n] <==> e in b && e != b[n];
      }
      SameIncreasing(a[..m], b[..n]);
      assert a == a[..m] + [a[m]] && b == b[..n] + [b[n]];
    }
  }

  /** What a consumer that resumed was owed up to its last event: one stretch of the log. */
  function Owed(h: HubState, since: nat, last: nat): seq<Event> {
    if Pos(h, since) <= Pos(h, last) <= |h.stamped| then h.stamped[Pos(h, since)..Pos(h, last)] else []
  }

  lemma OwedIncreases(h: HubState, since: nat, last: nat)
    requires HubInv(h)
    ensures Increasing(Owed(h, since, last))
  {
    var es, from := Owed(h, since, last), Pos(h, since);
    forall i | 0 <= i < |es| ensures es[i].stamp == Some(h.base + 1 + from + i) {
      assert es[i] == h.stamped[from + i];
    }
  }

  /** Where an event of the log lies in what is owed. */
  lemma InOwed(h: HubState, since: nat, last: nat, e: Event)
    requires HubInv(h) && FromLog(h, e) && last <= h.base + h.pushed
    ensures since < e.stamp.value <= last ==> e in Owed(h, since, last)
  {
    if since < e.stamp.value <= last {
      var i := e.stamp.value - h.base - 1;
      assert Owed(h, since, last)[i - Pos(h, since)] == h.stamped[i];
    }
  }

  lemma OwedAt(h: HubState, since: nat, last: nat, e: Event) returns (i: nat)
    requires e in Owed(h, since, last)
    ensures Pos(h, since) <= i < Pos(h, last) <= |h.stamped| && h.stamped[i] == e
  {
    var es := Owed(h, since, last);
    var k :| 0 <= k < |es| && es[k] == e;
    i := Pos(h, since) + k;
  }

  lemma LastWritten(h: HubState, c: Conn, since: nat)
    requires WrittenInv(h, c) && c.since == Some(since) && c.out.written != []
    ensures since < c.out.last <= h.base + h.pushed && h.base < c.out.last
  {
    assert FromLog(h, c.out.written[|c.out.written| - 1]);
  }

  lemma NoneLostIsOwed(h: HubState, c: Conn, since: nat)
    requires HubInv(h) && WrittenInv(h, c) && Accounted(h, c) && c.since == Some(since)
    requires c.out.written != [] && c.from == Pos(h, since)
    requires forall i :: c.from <= i < Pos(h, c.out.last) ==> !Lost(c.hist, i)
    ensures c.out.written == Owed(h, since, c.out.last)
  {
    LastWritten(h, c, since);
    OwedIncreases(h, since, c.out.last);
    forall e ensures e in c.out.written <==> e in Owed(h, since, c.out.last) {
      if e in c.out.written {
        var k :| 0 <= k < |c.out.written| && c.out.written[k] == e;
        assert FromLog(h, c.out.written[k]);
        InOwed(h, since, c.out.last, e);
      }
      if e in Owed(h, since, c.out.last) {
        var i := OwedAt(h, since, c.out.last, e);
        assert Settled(h, c, i);
      }
    }
    SameIncreasing(c.out.written, Owed(h, since, c.out.last));
  }

  lemma OwedIsWhole(h: HubState, c: Conn, since: nat, i: nat)
    requires Accounted(h, c) && c.from == Pos(h, since) && c.out.written == Owed(h, since, c.out.last)
    requires c.from <= i < Pos(h, c.out.last) <= |h.stamped|
    ensures !Lost(c.hist, i)
  {
    assert Settled(h, c, i);
    assert Owed(h, since, c.out.last)[i - c.from] == h.stamped[i];
  }

  lemma Gapless(l: Link, since: nat)
    requires LinkInv(l) && OwedFromResume(l) && l.conn.since == Some(since)
    ensures l.conn.out.written == Owed(l.hub, since, l.conn.out.last) <==>
            forall i :: Pos(l.hub, since) <= i < Pos(l.hub, l.conn.out.last) ==> !Lost(l.conn.hist, i)
  {
    if l.conn.out.written != [] {
      LastWritten(l.hub, l.conn, since);
      if l.conn.out.written == Owed(l.hub, since, l.conn.out.last) {
        forall i | l.conn.from <= i < Pos(l.hub, l.conn.out.last) ensures !Lost(l.conn.hist, i) {
          OwedIsWhole(l.hub, l.conn, since, i);
        }
      } else if forall i :: l.conn.from <= i < Pos(l.hub, l.conn.out.last) ==> !Lost(l.conn.hist, i) {
        NoneLostIsOwed(l.hub, l.conn, since);
      }
    }
  }

  /**
   Over every interleaving, a consumer that resumed was written one unbroken stretch of the log,
   from right after its resume point to its last event, if and only if no position of it
   is in one of the three named losses.
   */
  lemma GaplessIff(h: HubState, since: nat, replay: nat, acts: seq<Action>)
    requires HubInv(h) && CanRun(Link(h, NewConn(Some(since), replay)), acts)
    ensures var l := Run(Link(h, NewConn(Some(since), replay)), acts);
            l.conn.out.written == Owed(l.hub, since, l.conn.out.last) <==>
            forall i :: Pos(l.hub, since) <= i < Pos(l.hub, l.conn.out.last) ==>
              !Lost(l.conn.hist, i)
  {
    var l0 := Link(h, NewConn(Some(since), replay));
    NothingWritten(h, l0.conn);
    RunKeeps(l0, acts);
    RunKeepsOwed(l0, acts);
    RunFixesSince(l0, acts);
    Gapless(Run(l0, acts), since);
  }

  // ---------------------------------------------------------------------------
  // Over all connections
  // ---------------------------------------------------------------------------

  ghost predicate ForwardedFromLog(h: HubState, es: seq<Event>) {
    forall i :: 0 <= i < |es| ==> FromLog(h, es[i])
  }

  /** What is on the wire continues the hello's resume point, which lies in this log. */
  ghost predicate WireClean(w: World) {
    && (w.client.seen == 0 || w.client.seen >= w.hub.base)
    && (if w.attached then NoHoleInv(w.hub, w.conn) else w.conn.out.written == [])
  }

  /** What was forwarded is one run of the log, right after `origin` where there is one. */
  ghost predicate ClientClean(h: HubState, k: Client, origin: nat) {
    && (origin == 0 || origin >= h.base)
    && Chain(k.forwarded) && ForwardedFromLog(h, k.forwarded)
    && (k.forwarded == [] ==> k.lastSeq == origin && k.read == 0)
    && (k.forwarded != [] ==> k.forwarded[|k.forwarded| - 1].stamp == Some(k.lastSeq))
    && (k.forwarded != [] && origin > 0 ==> k.forwarded[0].stamp == Some(origin + 1))
  }

  ghost predicate CleanInv(w: World, origin: nat) {
    WorldInv(w) && WireClean(w) && ClientClean(w.hub, w.client, origin)
  }

  lemma LogGrowsUnder(h: HubState, h': HubState, es: seq<Event>)
    requires ForwardedFromLog(h, es) && h'.base == h.base && h.pushed <= h'.pushed <= |h'.stamped|
    requires |h.stamped| <= |h'.stamped| && h'.stamped[..|h.stamped|] == h.stamped
    ensures ForwardedFromLog(h', es)
  {
    assert forall i :: 0 <= i < |h.stamped| ==> h'.stamped[i] == h.stamped[i];
    forall i | 0 <= i < |es| ensures FromLog(h', es[i]) {
      assert FromLog(h, es[i]);
    }
  }

  lemma HubOnlyGrows(l: Link, a: Action)
    requires HubInv(l.hub) && Enabled(l, a)
    ensures var h' := Apply(l, a).hub;
            && h'.base == l.hub.base && |l.hub.stamped| <= |h'.stamped|
            && h'.stamped[..|l.hub.stamped|] == l.hub.stamped
            && l.hub.pushed <= h'.pushed <= |h'.stamped|
  {
  }

  lemma GatewayKeepsWire(w: World, a: Action)
    requires WorldInv(w) && WireClean(w) && CanMove(w, Gateway(a)) && OpensNoHole(Link(w.hub, w.conn), a)
    ensures WireClean(Do(w, Gateway(a)))
  {
    var l := Link(w.hub, w.conn);
    if w.attached {
      StepContinues(l, a);
    }
    HubOnlyGrows(l, a);
  }

  lemma GatewayKeepsClean(w: World, a: Action, origin: nat)
    requires CleanInv(w, origin) && CanMove(w, Gateway(a)) && OpensNoHole(Link(w.hub, w.conn), a)
    ensures CleanInv(Do(w, Gateway(a)), origin)
  {
    var l := Link(w.hub, w.conn);
    GatewayKeepsWorld(w, a);
    GatewayKeepsWire(w, a);
    HubOnlyGrows(l, a);
    LogGrowsUnder(w.hub, Apply(l, a).hub, w.client.forwarded);
    LaterLogKeeps(w.hub, Apply(l, a).hub, w.client, origin);
  }

  lemma LaterLogKeeps(h: HubState, h': HubState, k: Client, origin: nat)
    requires ClientClean(h, k, origin) && h'.base == h.base && ForwardedFromLog(h', k.forwarded)
    ensures ClientClean(h', k, origin)
  {
  }

  /** The next event to read is in the log, right after the last one forwarded, or after the origin. */
  lemma NextContinues(w: World, origin: nat)
    requires CleanInv(w, origin) && CanMove(w, ReadEvent)
    ensures var k, e := w.client, w.conn.out.written[w.client.read];
            && FromLog(w.hub, e) && e.stamp.Some?
            && (k.forwarded != [] || origin > 0 ==> e.stamp.value == k.lastSeq + 1)
  {
    var k := w.client;
    var e := w.conn.out.written[k.read];
    assert FromLog(w.hub, e);
    if k.read > 0 {
      assert w.conn.out.written[k.read - 1].stamp == Some(k.lastSeq);
    } else if k.forwarded != [] {
      assert FromLog(w.hub, k.forwarded[|k.forwarded| - 1]);
    }
  }

  lemma ForwardingKeeps(h: HubState, k: Client, e: Event, origin: nat)
    requires ClientClean(h, k, origin) && FromLog(h, e) && e.stamp.Some? && e.stamp.value > k.lastSeq
    requires k.forwarded != [] || origin > 0 ==> e.stamp.value == k.lastSeq + 1
    ensures ClientClean(h, OnEvent(k, e), origin)
  {
  }

  lemma WireIgnoresReading(w: World, k: Client)
    requires WireClean(w) && k.seen == w.client.seen
    ensures WireClean(w.(client := k))
  {
  }

  lemma ReadKeepsClean(w: World, origin: nat)
    requires CleanInv(w, origin) && CanMove(w, ReadEvent)
    ensures CleanInv(Do(w, ReadEvent), origin)
  {
    var e := w.conn.out.written[w.client.read];
    ReadEventKeepsWorld(w);
    NextIsHigher(w);
    NextContinues(w, origin);
    ForwardingKeeps(w.hub, w.client, e, origin);
    WireIgnoresReading(w, OnEvent(w.client, e));
  }

  /** A subscriber that keeps up with this log resumes inside it. */
  lemma ResumesInLog(h: HubState, k: Client, origin: nat)
    requires ClientClean(h, k, origin)
    ensures k.lastSeq == 0 || k.lastSeq >= h.base
  {
    if k.forwarded != [] {
      assert FromLog(h, k.forwarded[|k.forwarded| - 1]);
    }
  }

  lemma NewConnHasNoHole(h: HubState, since: Option<nat>, replay: nat)
    requires since.Some? ==> since.value >= h.base
    ensures NoHoleInv(h, NewConn(since, replay))
  {
  }

  lemma ConnectKeepsClient(w: World, replay: nat, origin: nat)
    requires ClientClean(w.hub, w.client, origin)
    ensures ClientClean(Do(w, Connect(replay)).hub, Do(w, Connect(replay)).client, origin)
  {
  }

  lemma ConnectKeepsWire(w: World, replay: nat, origin: nat)
    requires ClientClean(w.hub, w.client, origin)
    ensures WireClean(Do(w, Connect(replay)))
  {
    ResumesInLog(w.hub, w.client, origin);
    NewConnHasNoHole(w.hub, ResumePoint(w.client.lastSeq), replay);
  }

  lemma ConnectKeepsClean(w: World, replay: nat, origin: nat)
    requires CleanInv(w, origin)
    ensures CleanInv(Do(w, Connect(replay)), origin)
  {
    ConnectKeepsWorld(w, replay);
    ConnectKeepsWire(w, replay, origin);
    ConnectKeepsClient(w, replay, origin);
  }

  /** Against one gateway a hello's resume point is never ahead, so nothing is reset. */
  lemma NoReset(w: World)
    requires WorldInv(w) && CanMove(w, ReadReady)
    ensures OnReady(w.client) == w.client.(readyRead := true)
  {
  }

  lemma ReadyKeepsClient(h: HubState, k: Client, origin: nat)
    requires ClientClean(h, k, origin) && OnReady(k) == k.(readyRead := true)
    ensures ClientClean(h, OnReady(k), origin)
  {
  }

  lemma ReadyKeepsClean(w: World, origin: nat)
    requires CleanInv(w, origin) && CanMove(w, ReadReady)
    ensures CleanInv(Do(w, ReadReady), origin)
  {
    MoveKeepsWorld(w, ReadReady);
    NoReset(w);
    ReadyKeepsClient(w.hub, w.client, origin);
    WireIgnoresReading(w, OnReady(w.client));
  }

  lemma MoveKeepsClean(w: World, m: Move, origin: nat)
    requires CleanInv(w, origin) && CanMove(w, m) && Clean(w, m)
    ensures CleanInv(Do(w, m), origin)
  {
    match m
    case Gateway(a) => GatewayKeepsClean(w, a, origin);
    case Connect(replay) => ConnectKeepsClean(w, replay, origin);
    case ReadEvent => ReadKeepsClean(w, origin);
    case Take => TakeKeepsWorld(w);
    case ReadReady => ReadyKeepsClean(w, origin);
  }

  lemma {:induction false} PlayKeepsClean(w: World, ms: seq<Move>, origin: nat)
    requires CleanInv(w, origin) && CanPlay(w, ms) && AllClean(w, ms)
    ensures CleanInv(Play(w, ms), origin)
    decreases |ms|
  {
    if ms != [] {
      MoveKeepsClean(w, ms[0], origin);
      PlayKeepsClean(Do(w, ms[0]), ms[1..], origin);
    }
  }

  /** `es` is a slice of the log that starts at position `a`. */
  ghost predicate SliceAt(h: HubState, es: seq<Event>, a: nat) {
    a + |es| <= |h.stamped| && es == h.stamped[a..a + |es|]
  }

  ghost predicate ContiguousRun(h: HubState, es: seq<Event>) { exists a: nat :: SliceAt(h, es, a) }

  lemma {:induction false} ChainIsSlice(h: HubState, es: seq<Event>)
    requires HubInv(h) && Chain(es) && ForwardedFromLog(h, es)
    ensures ContiguousRun(h, es)
  {
    if es == [] {
      assert SliceAt(h, es, 0);
    } else {
      assert FromLog(h, es[0]);
      var a := es[0].stamp.value - h.base - 1;
      SliceFrom(h, es, a);
    }
  }

  lemma {:induction false} ChainAt(h: HubState, es: seq<Event>, i: nat, a: nat)
    requires HubInv(h) && Chain(es) && ForwardedFromLog(h, es) && i < |es|
    requires es[0].stamp.value == h.base + 1 + a
    ensures a + i < |h.stamped| && es[i] == h.stamped[a + i]
  {
    assert FromLog(h, es[i]);
    if i > 0 {
      ChainAt(h, es, i - 1, a);
      assert h.stamped[a + i - 1].stamp == Some(h.base + 1 + (a + i - 1));
    }
  }

  lemma SliceFrom(h: HubState, es: seq<Event>, a: nat)
    requires HubInv(h) && Chain(es) && ForwardedFromLog(h, es) && es != []
    requires es[0].stamp == Some(h.base + 1 + a)
    ensures SliceAt(h, es, a)
  {
    ChainAt(h, es, |es| - 1, a);
    forall i | 0 <= i < |es| ensures a + i < |h.stamped| && es[i] == h.stamped[a + i] {
      ChainAt(h, es, i, a);
    }
  }

  /** A subscriber and a bridge that start against a gateway with any log, resuming after `since` if it is not 0. */
  function StartOn(h: HubState, since: nat): World {
    World(h, NewConn(None, 0).(phase := Closed), false, Client(since, since, 0, true, 0, []), 0, 0, [], [])
  }

  predicate InLog(h: HubState, since: nat) { since == 0 || h.base <= since <= Top(h) }

  lemma StartOnIsClean(h: HubState, since: nat)
    requires HubInv(h) && InLog(h, since)
    ensures CleanInv(StartOn(h, since), since)
  {
  }

  /** With a resume point the run starts right after it. */
  lemma RunFromOrigin(w: World, origin: nat)
    requires CleanInv(w, origin) && origin > 0
    ensures w.client.forwarded != [] ==> SliceAt(w.hub, w.client.forwarded, Pos(w.hub, origin))
  {
    if w.client.forwarded != [] {
      SliceFrom(w.hub, w.client.forwarded, Pos(w.hub, origin));
    }
  }

  /**
   Sockets may be cut anywhere and reconnected any number of times, starting from any log
   and any resume point in it: if no step opens a hole, everything forwarded is one
   contiguous run of the ingested log, the one right after the resume point if there is one.
   */
  lemma ExactlyOnceResume(h: HubState, since: nat, ms: seq<Move>)
    requires HubInv(h) && InLog(h, since)
    requires CanPlay(StartOn(h, since), ms) && AllClean(StartOn(h, since), ms)
    ensures var w := Play(StartOn(h, since), ms);
            && ContiguousRun(w.hub, w.client.forwarded)
            && (since > 0 && w.client.forwarded != [] ==> SliceAt(w.hub, w.client.forwarded, Pos(w.hub, since)))
  {
    StartOnIsClean(h, since);
    PlayKeepsClean(StartOn(h, since), ms, since);
    var w := Play(StartOn(h, since), ms);
    ChainIsSlice(w.hub, w.client.forwarded);
    if since > 0 {
      RunFromOrigin(w, since);
    }
  }
}
