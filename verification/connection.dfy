/**
 One consumer connection of the gateway, from hello to hang-up, interleaved with
 ingests at every point where the program can be preempted.

 Taking the backfill snapshot and subscribing to the broadcast channel are two
 steps. The channel keeps its newest 1024 values; a receiver that falls further
 behind is told so once and moved to the oldest kept value.
 */
module ConsumerConnection {
  import opened Basics
  import opened GatewayHub

  const BROADCAST_CAP := 1024

  /** What one consumer has been sent, and the sequence the loop compares against. */
  datatype Out = Out(last: nat, written: seq<Event>)

  function WriteOne(o: Out, e: Event): Out {
    Out(if e.stamp.Some? then Max(e.stamp.value, o.last) else o.last, o.written + [e])
  }

  function WriteAll(o: Out, es: seq<Event>): Out
    decreases |es|
  {
    if es == [] then o else WriteAll(WriteOne(o, es[0]), es[1..])
  }

  function Skips(o: Out, e: Event): bool { e.stamp.Some? && e.stamp.value <= o.last }

  function Receive(o: Out, e: Event): Out { if Skips(o, e) then o else WriteOne(o, e) }

  lemma {:induction false} WriteAllAppend(o: Out, es: seq<Event>, e: Event)
    ensures WriteAll(o, es + [e]) == WriteOne(WriteAll(o, es), e)
    decreases |es|
  {
    if es == [] {
      assert (es + [e])[1..] == [];
    } else {
      assert (es + [e])[1..] == es[1..] + [e];
      WriteAllAppend(WriteOne(o, es[0]), es[1..], e);
    }
  }

  /** The mutable state of the consumer task between two awaits. */
  class ConsumerTask {
    var lastSent: nat
    var written: seq<Event>

    function View(): Out
      reads this
    {
      Out(lastSent, written)
    }

    constructor (since: Option<nat>)
      ensures View() == Out(if since.Some? then since.value else 0, [])
    {
      lastSent := if since.Some? then since.value else 0;
      written := [];
    }

    method WriteEvent(event: Event)
      modifies this
      ensures View() == WriteOne(old(View()), event)
    {
      written := written + [event];
      if event.stamp.Some? && event.stamp.value > lastSent {
        lastSent := event.stamp.value;
      }
    }

    /** The backfill and the refill loop. */
    method WriteBatch(events: seq<Event>)
      modifies this
      ensures View() == WriteAll(old(View()), events)
    {
      ghost var before := View();
      for i := 0 to |events|
        invariant View() == WriteAll(before, events[..i])
      {
        WriteAllAppend(before, events[..i], events[i]);
        assert events[..i + 1] == events[..i] + [events[i]];
        WriteEvent(events[i]);
      }
      assert events[..|events|] == events;
    }

    /** A value arrived on the broadcast channel. */
    method OnReceived(event: Event)
      modifies this
      ensures View() == Receive(old(View()), event)
    {
      if event.stamp.Some? && event.stamp.value <= lastSent {
        return;
      }
      WriteEvent(event);
    }
  }

  datatype Phase = Hello | Snapshotted | Backfill | Live | LagReported | Refill | Closed

  /** One lag repair: where the consumer stood, and the log positions the ring covered. */
  datatype Repair = Repair(last: nat, oldest: nat, tail: nat)

  /** The ring at the snapshot, the channel position at the subscription, and every lag repair. */
  datatype History = History(snapOldest: nat, snapTail: nat, subTail: nat, repairs: seq<Repair>)

  /**
   `rx` is the channel receiver's next log position. The last two fields are history:
   `from` is the first log position the hello asked for.
   */
  datatype Conn = Conn(
    phase: Phase,
    since: Option<nat>,
    replay: nat,
    queue: seq<Event>,
    rx: nat,
    out: Out,
    from: nat,
    hist: History)

  function NewConn(since: Option<nat>, replay: nat): Conn {
    Conn(Hello, since, replay, [], 0, Out(0, []), 0, History(0, 0, 0, []))
  }

  datatype Link = Link(hub: HubState, conn: Conn)

  datatype Action =
    | DoStamp(body: string)
    | DoPush
    | DoSend
    | Snapshot
    | Subscribe
    | WriteQueued
    | Recv
    | Replay
    | Cut

  predicate TouchesConn(a: Action) { !a.DoStamp? && !a.DoPush? && !a.DoSend? }

  predicate Enabled(l: Link, a: Action) {
    match a
    case DoStamp(_) => CanStamp(l.hub)
    case DoPush => CanPush(l.hub)
    case DoSend => CanSend(l.hub)
    case Snapshot => l.conn.phase == Hello
    case Subscribe => l.conn.phase == Snapshotted
    case WriteQueued => (l.conn.phase == Backfill || l.conn.phase == Refill) && l.conn.queue != []
    case Recv => l.conn.phase == Live && l.conn.rx < l.hub.sent <= |l.hub.stamped|
    case Replay => l.conn.phase == LagReported
    case Cut => l.conn.phase != Closed
  }

  function TakeSnapshot(h: HubState, c: Conn): Conn {
    var backfill := if c.since.Some? then After(h.ring, c.since.value) else Newest(h.ring, c.replay);
    c.(phase := Snapshotted,
       queue := backfill,
       from := if c.since.Some? then Pos(h, c.since.value) else Max(h.pushed - |backfill|, 0),
       hist := c.hist.(snapOldest := h.evicted, snapTail := h.pushed))
  }

  function DoSubscribe(h: HubState, c: Conn): Conn {
    c.(phase := if c.queue == [] then Live else Backfill,
       rx := h.sent,
       hist := c.hist.(subTail := h.sent),
       out := Out(if c.since.Some? then c.since.value else 0, []))
  }

  function WriteHead(c: Conn): Conn
    requires c.queue != []
  {
    c.(phase := if |c.queue| == 1 then Live else c.phase,
       queue := c.queue[1..],
       out := WriteOne(c.out, c.queue[0]))
  }

  function DoRecv(h: HubState, c: Conn): Conn
    requires c.rx < h.sent <= |h.stamped|
  {
    if h.sent - c.rx > BROADCAST_CAP then
      c.(phase := LagReported, rx := h.sent - BROADCAST_CAP)
    else
      c.(rx := c.rx + 1, out := Receive(c.out, h.stamped[c.rx]))
  }

  function DoReplay(h: HubState, c: Conn): Conn {
    var missed := After(h.ring, c.out.last);
    c.(phase := if missed == [] then Live else Refill,
       queue := missed,
       hist := c.hist.(repairs := c.hist.repairs + [Repair(Pos(h, c.out.last), h.evicted, h.pushed)]))
  }

  function Apply(l: Link, a: Action): Link
    requires Enabled(l, a)
  {
    match a
    case DoStamp(body) => l.(hub := Stamp(l.hub, body))
    case DoPush => l.(hub := Push(l.hub))
    case DoSend => l.(hub := Send(l.hub))
    case Snapshot => l.(conn := TakeSnapshot(l.hub, l.conn))
    case Subscribe => l.(conn := DoSubscribe(l.hub, l.conn))
    case WriteQueued => l.(conn := WriteHead(l.conn))
    case Recv => l.(conn := DoRecv(l.hub, l.conn))
    case Replay => l.(conn := DoReplay(l.hub, l.conn))
    case Cut => l.(conn := l.conn.(phase := Closed))
  }

  predicate CanRun(l: Link, acts: seq<Action>)
    decreases |acts|
  {
    acts == [] || (Enabled(l, acts[0]) && CanRun(Apply(l, acts[0]), acts[1..]))
  }

  function Run(l: Link, acts: seq<Action>): Link
    requires CanRun(l, acts)
    decreases |acts|
  {
    if acts == [] then l else Run(Apply(l, acts[0]), acts[1..])
  }

  // ---------------------------------------------------------------------------
  // What was lost, stated on the history alone
  // ---------------------------------------------------------------------------

  /** The repair read position `i` back from the ring. */
  predicate Refilled(r: Repair, i: nat) { r.last <= i && r.oldest <= i < r.tail }

  /** The repair came after position `i` had left the ring. */
  predicate TornOut(r: Repair, i: nat) { r.last <= i < r.oldest }

  ghost predicate EvictedBeforeSnapshot(t: History, i: nat) { i < t.snapOldest }

  ghost predicate BetweenSnapshotAndSubscribe(t: History, i: nat) {
    t.snapTail <= i < t.subTail && !exists r :: r in t.repairs && Refilled(r, i)
  }

  ghost predicate EvictedBeforeRepair(t: History, i: nat) {
    exists r :: r in t.repairs && TornOut(r, i)
  }

  ghost predicate Lost(t: History, i: nat) {
    EvictedBeforeSnapshot(t, i) || BetweenSnapshotAndSubscribe(t, i) || EvictedBeforeRepair(t, i)
  }

  // ---------------------------------------------------------------------------
  // The inductive invariant
  // ---------------------------------------------------------------------------

  /** `e` is the log entry its own sequence names. */
  ghost predicate FromLog(h: HubState, e: Event) {
    && e.stamp.Some?
    && h.base < e.stamp.value <= h.base + h.pushed <= h.base + |h.stamped|
    && e == h.stamped[e.stamp.value - h.base - 1]
  }

  ghost predicate Increasing(es: seq<Event>) {
    && (forall i :: 0 <= i < |es| ==> es[i].stamp.Some?)
    && forall i, j :: 0 <= i < j < |es| ==> es[i].stamp.value < es[j].stamp.value
  }

  /** Everything written comes from the log, in order, above the resume point and at or below `last`. */
  ghost predicate WrittenInv(h: HubState, c: Conn) {
    && (forall i :: 0 <= i < |c.out.written| ==> FromLog(h, c.out.written[i]))
    && Increasing(c.out.written)
    && (forall i :: 0 <= i < |c.out.written| ==> c.out.written[i].stamp.value <= c.out.last)
    && (c.since.Some? ==> forall i :: 0 <= i < |c.out.written| ==> c.out.written[i].stamp.value > c.since.value)
    && (c.out.written == [] && c.out.last > 0 ==> c.since == Some(c.out.last))
    && (c.out.written != [] ==> c.out.written[|c.out.written| - 1].stamp == Some(c.out.last))
  }

  /** The accounted frontier: every wanted position below it is settled. */
  function Frontier(h: HubState, c: Conn): nat { Max(c.from, Pos(h, c.out.last)) }

  /** Position `i` is settled: written, or lost, and not both. */
  ghost predicate Settled(h: HubState, c: Conn, i: nat) {
    && i < h.pushed <= |h.stamped|
    && (h.stamped[i] in c.out.written <==> !Lost(c.hist, i))
  }

  ghost predicate SettledUpTo(h: HubState, c: Conn, top: nat) {
    forall i :: c.from <= i < top ==> Settled(h, c, i)
  }

  ghost predicate Accounted(h: HubState, c: Conn) { SettledUpTo(h, c, Pos(h, c.out.last)) }

  ghost predicate SnapInv(h: HubState, c: Conn) {
    && c.hist.snapOldest <= c.hist.snapTail <= h.pushed
    && c.hist.snapOldest <= h.evicted
    && (c.hist.snapTail > 0 ==> c.hist.snapOldest < c.hist.snapTail)
    && (c.since.Some? ==> c.from == Pos(h, c.since.value))
    && (c.since.None? ==> c.hist.snapOldest <= c.from <= c.hist.snapTail)
  }

  ghost predicate SubInv(h: HubState, c: Conn) {
    && SnapInv(h, c)
    && c.hist.subTail <= c.rx <= h.sent
    && c.hist.snapTail <= c.hist.subTail + 1
    && (c.since.Some? ==> c.since.value <= c.out.last)
    && forall r :: r in c.hist.repairs ==>
         r.oldest <= r.tail <= h.pushed && c.hist.snapOldest <= r.oldest && c.hist.snapTail <= r.tail
  }

  ghost predicate SettledBelow(repairs: seq<Repair>, p: nat) {
    forall r :: r in repairs ==> r.tail <= p
  }

  /** The queue is the slice of the log that ends at `tail`. */
  ghost predicate QueueIs(h: HubState, c: Conn, tail: nat) {
    && |c.queue| <= tail <= h.pushed <= |h.stamped|
    && c.queue == h.stamped[tail - |c.queue|..tail]
  }

  ghost predicate HelloInv(c: Conn) {
    c.queue == [] && c.hist == History(0, 0, 0, []) && c.out == Out(0, []) && c.from == 0
  }

  ghost predicate SnapshottedInv(h: HubState, c: Conn) {
    && SnapInv(h, c) && c.hist.repairs == [] && c.out == Out(0, [])
    && QueueIs(h, c, c.hist.snapTail)
    && c.hist.snapTail - |c.queue| == Min(c.hist.snapTail, Max(c.from, c.hist.snapOldest))
  }

  ghost predicate BackfillInv(h: HubState, c: Conn) {
    && SubInv(h, c) && c.hist.repairs == [] && c.queue != [] && c.rx == c.hist.subTail
    && QueueIs(h, c, c.hist.snapTail)
    && Frontier(h, c) <= c.hist.snapTail - |c.queue|
    && (Frontier(h, c) < c.hist.snapTail - |c.queue| ==> c.hist.snapTail - |c.queue| <= c.hist.snapOldest)
    && c.hist.snapOldest <= c.hist.snapTail - |c.queue|
    && (c.out.written != [] ==> Pos(h, c.out.last) >= c.from)
  }

  /** Between repairs: nothing is queued, and every repair so far has been written out. */
  ghost predicate IdleInv(h: HubState, c: Conn) {
    && SubInv(h, c) && c.queue == []
    && SettledBelow(c.hist.repairs, Pos(h, c.out.last))
    && (c.out.written != [] ==> Pos(h, c.out.last) >= c.from)
  }

  ghost predicate LiveInv(h: HubState, c: Conn) {
    && IdleInv(h, c)
    && (Frontier(h, c) < c.rx ==>
          c.hist.snapTail <= Frontier(h, c) && c.rx == c.hist.subTail && c.hist.repairs == [])
  }

  ghost predicate RefillInv(h: HubState, c: Conn) {
    && SubInv(h, c) && c.queue != [] && c.hist.repairs != []
    && var r := LastRepair(c.hist);
       && SettledBelow(c.hist.repairs[..|c.hist.repairs| - 1], r.last)
       && QueueIs(h, c, r.tail)
       && c.rx <= r.tail
       && r.oldest <= r.tail - |c.queue|
       && r.last <= Pos(h, c.out.last) <= r.tail - |c.queue|
       && (Pos(h, c.out.last) < r.tail - |c.queue| ==>
             Pos(h, c.out.last) == r.last && r.tail - |c.queue| == r.oldest)
  }

  function LastRepair(t: History): Repair
    requires t.repairs != []
  {
    t.repairs[|t.repairs| - 1]
  }

  ghost predicate PhaseInv(h: HubState, c: Conn) {
    match c.phase
    case Hello => HelloInv(c)
    case Snapshotted => SnapshottedInv(h, c)
    case Backfill => BackfillInv(h, c)
    case Live => LiveInv(h, c)
    case LagReported => IdleInv(h, c)
    case Refill => RefillInv(h, c)
    case Closed => true
  }

  ghost predicate LinkInv(l: Link) {
    && HubInv(l.hub)
    && WrittenInv(l.hub, l.conn)
    && Accounted(l.hub, l.conn)
    && PhaseInv(l.hub, l.conn)
  }

  // ---------------------------------------------------------------------------
  // Every step keeps the invariant
  // ---------------------------------------------------------------------------

  ghost predicate SameHistory(c: Conn, c': Conn) {
    c'.since == c.since && c'.from == c.from && c'.hist == c.hist
  }

  lemma HubGrowthKeeps(l: Link, h': HubState)
    requires LinkInv(l) && HubInv(h')
    requires h'.base == l.hub.base && l.hub.stamped <= h'.stamped
    requires l.hub.pushed <= h'.pushed && l.hub.sent <= h'.sent && l.hub.evicted <= h'.evicted
    ensures LinkInv(Link(h', l.conn))
  {
    var h, c := l.hub, l.conn;
    assert h'.stamped[..|h.stamped|] == h.stamped;
    GrowthKeepsOut(h, h', c);
    GrowthKeepsPhase(h, h', c);
  }

  lemma GrowthKeepsOut(h: HubState, h': HubState, c: Conn)
    requires h'.base == h.base && |h.stamped| <= |h'.stamped| && h'.stamped[..|h.stamped|] == h.stamped
    requires h.pushed <= h'.pushed <= |h'.stamped|
    requires WrittenInv(h, c) && Accounted(h, c)
    ensures WrittenInv(h', c) && Accounted(h', c)
  {
    assert forall i :: Settled(h, c, i) ==> Settled(h', c, i);
    assert forall i :: 0 <= i < |h.stamped| ==> h'.stamped[i] == h.stamped[i];
    forall i | 0 <= i < |c.out.written| ensures FromLog(h', c.out.written[i]) {
      assert FromLog(h, c.out.written[i]);
    }
  }

  /** A hub that has ingested more. */
  ghost predicate Grows(h: HubState, h': HubState) {
    && h'.base == h.base && |h.stamped| <= |h'.stamped| && h'.stamped[..|h.stamped|] == h.stamped
    && h.pushed <= h'.pushed <= |h'.stamped| && h.sent <= h'.sent && h.evicted <= h'.evicted
  }

  lemma GrowthKeepsQueue(h: HubState, h': HubState, c: Conn, tail: nat)
    requires Grows(h, h') && QueueIs(h, c, tail)
    ensures QueueIs(h', c, tail)
  {
    assert h'.stamped[tail - |c.queue|..tail] == h.stamped[tail - |c.queue|..tail];
  }

  lemma GrowthKeepsBackfill(h: HubState, h': HubState, c: Conn)
    requires Grows(h, h') && BackfillInv(h, c)
    ensures BackfillInv(h', c)
  {
    GrowthKeepsQueue(h, h', c, c.hist.snapTail);
  }

  lemma GrowthKeepsLive(h: HubState, h': HubState, c: Conn)
    requires Grows(h, h')
    ensures IdleInv(h, c) ==> IdleInv(h', c)
    ensures LiveInv(h, c) ==> LiveInv(h', c)
  {
  }

  lemma GrowthKeepsRefill(h: HubState, h': HubState, c: Conn)
    requires Grows(h, h') && RefillInv(h, c)
    ensures RefillInv(h', c)
  {
    GrowthKeepsQueue(h, h', c, LastRepair(c.hist).tail);
  }

  lemma GrowthKeepsSnapshotted(h: HubState, h': HubState, c: Conn)
    requires Grows(h, h') && SnapshottedInv(h, c)
    ensures SnapshottedInv(h', c)
  {
    GrowthKeepsQueue(h, h', c, c.hist.snapTail);
  }

  lemma GrowthKeepsPhase(h: HubState, h': HubState, c: Conn)
    requires Grows(h, h') && PhaseInv(h, c)
    ensures PhaseInv(h', c)
  {
    match c.phase
    case Hello =>
    case Snapshotted => GrowthKeepsSnapshotted(h, h', c);
    case Backfill => GrowthKeepsBackfill(h, h', c);
    case Live => GrowthKeepsLive(h, h', c);
    case LagReported => GrowthKeepsLive(h, h', c);
    case Refill => GrowthKeepsRefill(h, h', c);
    case Closed =>
  }

  /** `e` sits at log position `p`, is still wanted, and everything it jumps over is lost. */
  ghost predicate WritesAt(h: HubState, c: Conn, e: Event, p: nat) {
    && p < h.pushed <= |h.stamped|
    && e == h.stamped[p] && e.stamp == Some(h.base + 1 + p)
    && c.out.last < h.base + 1 + p
    && (c.since.Some? ==> c.since.value <= c.out.last)
    && (forall i :: Frontier(h, c) <= i < p ==> Lost(c.hist, i))
    && (p >= c.from ==> !Lost(c.hist, p))
  }

  /** Writing log position `p` moves the frontier to `p + 1`. */
  lemma WriteKeeps(h: HubState, c: Conn, c': Conn, e: Event, p: nat)
    requires HubInv(h) && WrittenInv(h, c) && Accounted(h, c) && SameHistory(c, c')
    requires WritesAt(h, c, e, p) && c'.out == WriteOne(c.out, e)
    ensures WrittenInv(h, c') && Accounted(h, c')
  {
    var w := c.out.written;
    assert c'.out.written == w + [e] && c'.out.last == h.base + 1 + p;
    forall i | c'.from <= i < Pos(h, c'.out.last)
      ensures Settled(h, c', i)
    {
      assert i < Pos(h, c.out.last) ==> Settled(h, c, i);
      assert h.stamped[i].stamp == Some(h.base + 1 + i);
      assert h.stamped[i] in c'.out.written <==> h.stamped[i] in w || h.stamped[i] == e;
      assert i >= Pos(h, c.out.last) ==> h.stamped[i] !in w;
    }
  }

  lemma KeepsOut(h: HubState, c: Conn, c': Conn)
    requires WrittenInv(h, c) && Accounted(h, c)
    requires c'.out == c.out && c'.since == c.since && c'.from == c.from
    requires forall i :: c.from <= i < Pos(h, c.out.last) ==> (Lost(c'.hist, i) <==> Lost(c.hist, i))
    ensures WrittenInv(h, c') && Accounted(h, c')
  {
    forall i | c.from <= i < Pos(h, c.out.last) ensures Settled(h, c', i) {
      assert Settled(h, c, i);
    }
  }

  lemma NothingWritten(h: HubState, c: Conn)
    requires c.out.written == [] && (c.out.last == 0 || (c.since == Some(c.out.last) && c.from == Pos(h, c.out.last)))
    ensures WrittenInv(h, c) && Accounted(h, c)
  {
  }

  lemma ResumeQueue(h: HubState, c: Conn)
    requires HubInv(h) && c.since.Some?
    ensures QueueIs(h, TakeSnapshot(h, c), h.pushed)
    ensures h.pushed - |TakeSnapshot(h, c).queue| == Min(h.pushed, Max(Pos(h, c.since.value), h.evicted))
  {
    ReplaySinceRefinesLog(h, c.since.value);
  }

  lemma NewestQueue(h: HubState, c: Conn)
    requires HubInv(h) && c.since.None?
    ensures QueueIs(h, TakeSnapshot(h, c), h.pushed)
    ensures h.pushed - |TakeSnapshot(h, c).queue| == TakeSnapshot(h, c).from
    ensures h.evicted <= TakeSnapshot(h, c).from <= h.pushed
  {
    ReplayLastRefinesLog(h, c.replay);
  }

  lemma SnapshotQueue(h: HubState, c: Conn)
    requires HubInv(h)
    ensures var c' := TakeSnapshot(h, c);
            && QueueIs(h, c', h.pushed)
            && h.pushed - |c'.queue| == Min(h.pushed, Max(c'.from, h.evicted))
            && (c.since.None? ==> h.evicted <= c'.from <= h.pushed)
  {
    if c.since.Some? {
      ResumeQueue(h, c);
    } else {
      NewestQueue(h, c);
    }
  }

  lemma SnapshotKeeps(h: HubState, c: Conn)
    requires HubInv(h) && HelloInv(c)
    ensures SnapshottedInv(h, TakeSnapshot(h, c))
  {
    SnapshotQueue(h, c);
  }

  lemma SubscribedSub(h: HubState, c: Conn)
    requires HubInv(h) && SnapshottedInv(h, c)
    ensures SubInv(h, DoSubscribe(h, c))
  {
  }

  lemma SubscribedLive(h: HubState, c: Conn)
    requires HubInv(h) && SnapshottedInv(h, c) && c.queue == []
    ensures LiveInv(h, DoSubscribe(h, c))
  {
    SubscribedSub(h, c);
    assert Frontier(h, DoSubscribe(h, c)) >= c.hist.snapTail;
  }

  lemma SubscribedBackfill(h: HubState, c: Conn)
    requires HubInv(h) && SnapshottedInv(h, c) && c.queue != []
    ensures BackfillInv(h, DoSubscribe(h, c))
  {
    SubscribedSub(h, c);
    assert QueueIs(h, DoSubscribe(h, c), c.hist.snapTail);
  }

  lemma SubscribeKeeps(h: HubState, c: Conn)
    requires HubInv(h) && SnapshottedInv(h, c)
    ensures PhaseInv(h, DoSubscribe(h, c))
  {
    if c.queue == [] {
      SubscribedLive(h, c);
    } else {
      SubscribedBackfill(h, c);
    }
  }

  /** The head of a queue that ends at `tail` is the log entry `|queue|` before it. */
  lemma QueueHead(h: HubState, c: Conn, tail: nat)
    requires Consecutive(h.base + 1, h.stamped) && QueueIs(h, c, tail) && c.queue != []
    ensures c.queue[0] == h.stamped[tail - |c.queue|]
    ensures c.queue[0].stamp == Some(h.base + 1 + tail - |c.queue|)
    ensures QueueIs(h, WriteHead(c), tail)
  {
    assert h.stamped[tail - |c.queue|].stamp == Some(h.base + 1 + (tail - |c.queue|));
    assert WriteHead(c).queue == h.stamped[tail - |c.queue| + 1..tail];
  }

  lemma BackfillWrites(h: HubState, c: Conn)
    requires HubInv(h) && BackfillInv(h, c) && c.phase == Backfill
    ensures WritesAt(h, c, c.queue[0], c.hist.snapTail - |c.queue|)
    ensures PhaseInv(h, WriteHead(c))
  {
    QueueHead(h, c, c.hist.snapTail);
  }

  lemma RefillWrites(h: HubState, c: Conn)
    requires HubInv(h) && RefillInv(h, c)
    ensures WritesAt(h, c, c.queue[0], LastRepair(c.hist).tail - |c.queue|)
  {
    var r := LastRepair(c.hist);
    var q := r.tail - |c.queue|;
    QueueHead(h, c, r.tail);
    assert r in c.hist.repairs && Refilled(r, q);
    forall i | Frontier(h, c) <= i < q ensures Lost(c.hist, i) {
      assert TornOut(r, i);
    }
    LastRepairRules(c.hist.repairs, q);
    assert !EvictedBeforeRepair(c.hist, q);
    assert !BetweenSnapshotAndSubscribe(c.hist, q);
  }

  lemma RefillKeepsPhase(h: HubState, c: Conn)
    requires HubInv(h) && RefillInv(h, c) && c.phase == Refill
    ensures PhaseInv(h, WriteHead(c))
  {
    var c' := WriteHead(c);
    QueueHead(h, c, LastRepair(c.hist).tail);
    assert c'.out.last == h.base + 1 + (LastRepair(c.hist).tail - |c.queue|);
    LastRepairSettles(c.hist.repairs, Pos(h, c'.out.last));
  }

  lemma LastRepairRules(repairs: seq<Repair>, q: nat)
    requires repairs != [] && SettledBelow(repairs[..|repairs| - 1], repairs[|repairs| - 1].last)
    requires repairs[|repairs| - 1].last <= q && repairs[|repairs| - 1].oldest <= q
    requires forall r :: r in repairs ==> r.oldest <= r.tail
    ensures forall r :: r in repairs ==> !TornOut(r, q)
  {
    assert repairs == repairs[..|repairs| - 1] + [repairs[|repairs| - 1]];
  }

  lemma LastRepairSettles(repairs: seq<Repair>, p: nat)
    requires repairs != [] && SettledBelow(repairs[..|repairs| - 1], repairs[|repairs| - 1].last)
    requires repairs[|repairs| - 1].last <= p
    ensures repairs[|repairs| - 1].tail <= p ==> SettledBelow(repairs, p)
  {
    assert repairs == repairs[..|repairs| - 1] + [repairs[|repairs| - 1]];
  }

  lemma RecvWrites(h: HubState, c: Conn)
    requires HubInv(h) && LiveInv(h, c) && c.rx < h.sent
    requires !Skips(c.out, h.stamped[c.rx])
    ensures WritesAt(h, c, h.stamped[c.rx], c.rx)
  {
    assert h.stamped[c.rx].stamp == Some(h.base + 1 + c.rx);
    if c.rx >= c.from {
      assert forall r :: r in c.hist.repairs ==> !TornOut(r, c.rx);
      assert !Lost(c.hist, c.rx);
    }
  }

  lemma RecvIsUp(h: HubState, c: Conn)
    requires HubInv(h) && c.rx < h.sent
    ensures DoRecv(h, c).out.last >= c.out.last && h.stamped[c.rx].stamp == Some(h.base + 1 + c.rx)
  {
  }

  lemma RecvKeepsPhase(h: HubState, c: Conn)
    requires HubInv(h) && LiveInv(h, c) && c.phase == Live && c.rx < h.sent
    ensures PhaseInv(h, DoRecv(h, c))
  {
    var c' := DoRecv(h, c);
    RecvIsUp(h, c);
    SettledUpwards(c.hist.repairs, Pos(h, c.out.last), Pos(h, c'.out.last));
    assert SubInv(h, c');
    assert IdleInv(h, c');
  }

  lemma SettledUpwards(repairs: seq<Repair>, p: nat, q: nat)
    requires SettledBelow(repairs, p) && p <= q
    ensures SettledBelow(repairs, q)
  {
  }

  lemma ReplayQueue(h: HubState, c: Conn)
    requires HubInv(h)
    ensures var c' := DoReplay(h, c);
            && QueueIs(h, c', h.pushed)
            && h.pushed - |c'.queue| == Min(h.pushed, Max(Pos(h, c.out.last), h.evicted))
  {
    ReplaySinceRefinesLog(h, c.out.last);
  }

  lemma ReplayHistory(h: HubState, c: Conn)
    requires HubInv(h) && SubInv(h, c)
    ensures var c' := DoReplay(h, c);
            && SubInv(h, c')
            && LastRepair(c'.hist) == Repair(Pos(h, c.out.last), h.evicted, h.pushed)
            && c'.hist.repairs[..|c'.hist.repairs| - 1] == c.hist.repairs
  {
    var c' := DoReplay(h, c);
    var r := Repair(Pos(h, c.out.last), h.evicted, h.pushed);
    assert forall x :: x in c'.hist.repairs <==> x in c.hist.repairs || x == r;
  }

  lemma ReplayKeepsPhase(h: HubState, c: Conn)
    requires HubInv(h) && IdleInv(h, c)
    ensures PhaseInv(h, DoReplay(h, c))
  {
    var c' := DoReplay(h, c);
    ReplayQueue(h, c);
    ReplayHistory(h, c);
    LastRepairSettles(c'.hist.repairs, Pos(h, c.out.last));
  }

  /** A repair says nothing about positions below the consumer's own. */
  lemma NewRepairIsAbove(t: History, r: Repair, i: nat)
    requires i < r.last
    ensures Lost(t.(repairs := t.repairs + [r]), i) <==> Lost(t, i)
  {
    assert forall x :: x in t.repairs + [r] <==> x in t.repairs || x == r;
  }

  lemma RecvKeeps(h: HubState, c: Conn)
    requires LinkInv(Link(h, c)) && c.phase == Live && c.rx < h.sent
    ensures LinkInv(Link(h, DoRecv(h, c)))
  {
    RecvKeepsPhase(h, c);
    if h.sent - c.rx <= BROADCAST_CAP && !Skips(c.out, h.stamped[c.rx]) {
      RecvWrites(h, c);
      WriteKeeps(h, c, DoRecv(h, c), h.stamped[c.rx], c.rx);
    } else {
      KeepsOut(h, c, DoRecv(h, c));
    }
  }

  lemma ReplayKeeps(h: HubState, c: Conn)
    requires LinkInv(Link(h, c)) && c.phase == LagReported
    ensures LinkInv(Link(h, DoReplay(h, c)))
  {
    ReplayKeepsPhase(h, c);
    forall i | c.from <= i < Pos(h, c.out.last) ensures Lost(DoReplay(h, c).hist, i) <==> Lost(c.hist, i) {
      NewRepairIsAbove(c.hist, Repair(Pos(h, c.out.last), h.evicted, h.pushed), i);
    }
    KeepsOut(h, c, DoReplay(h, c));
  }

  lemma BackfillKeeps(h: HubState, c: Conn)
    requires LinkInv(Link(h, c)) && c.phase == Backfill && c.queue != []
    ensures LinkInv(Link(h, WriteHead(c)))
  {
    BackfillWrites(h, c);
    WriteKeeps(h, c, WriteHead(c), c.queue[0], c.hist.snapTail - |c.queue|);
  }

  lemma RefillKeeps(h: HubState, c: Conn)
    requires LinkInv(Link(h, c)) && c.phase == Refill && c.queue != []
    ensures LinkInv(Link(h, WriteHead(c)))
  {
    RefillWrites(h, c);
    RefillKeepsPhase(h, c);
    WriteKeeps(h, c, WriteHead(c), c.queue[0], LastRepair(c.hist).tail - |c.queue|);
  }

  lemma StepKeeps(l: Link, a: Action)
    requires LinkInv(l) && Enabled(l, a)
    ensures LinkInv(Apply(l, a))
  {
    match a
    case DoStamp(body) =>
      StampKeeps(l.hub, body);
      HubGrowthKeeps(l, Stamp(l.hub, body));
    case DoPush =>
      PushKeeps(l.hub);
      HubGrowthKeeps(l, Push(l.hub));
    case DoSend =>
      SendKeeps(l.hub);
      HubGrowthKeeps(l, Send(l.hub));
    case Snapshot =>
      SnapshotKeeps(l.hub, l.conn);
      NothingWritten(l.hub, TakeSnapshot(l.hub, l.conn));
    case Subscribe =>
      SubscribeKeeps(l.hub, l.conn);
      NothingWritten(l.hub, DoSubscribe(l.hub, l.conn));
    case WriteQueued =>
      if l.conn.phase == Backfill {
        BackfillKeeps(l.hub, l.conn);
      } else {
        RefillKeeps(l.hub, l.conn);
      }
    case Recv => RecvKeeps(l.hub, l.conn);
    case Replay => ReplayKeeps(l.hub, l.conn);
    case Cut => KeepsOut(l.hub, l.conn, Apply(l, a).conn);
  }

  lemma {:induction false} RunKeeps(l: Link, acts: seq<Action>)
    requires LinkInv(l) && CanRun(l, acts)
    ensures LinkInv(Run(l, acts))
    decreases |acts|
  {
    if acts != [] {
      StepKeeps(l, acts[0]);
      RunKeeps(Apply(l, acts[0]), acts[1..]);
    }
  }

  // ---------------------------------------------------------------------------
  // Main results
  // ---------------------------------------------------------------------------

  /**
   Over every interleaving, what a consumer was written is exactly the log from its
   resume point to its last event, less the three named losses, once each and in order.
   */
  lemma LossAccounting(h: HubState, since: Option<nat>, replay: nat, acts: seq<Action>)
    requires HubInv(h) && CanRun(Link(h, NewConn(since, replay)), acts)
    ensures var l := Run(Link(h, NewConn(since, replay)), acts);
            && SettledUpTo(l.hub, l.conn, Pos(l.hub, l.conn.out.last))
            && (forall i :: 0 <= i < |l.conn.out.written| ==> l.conn.out.written[i] in l.hub.stamped)
            && Increasing(l.conn.out.written)
  {
    var l0 := Link(h, NewConn(since, replay));
    NothingWritten(h, l0.conn);
    RunKeeps(l0, acts);
    var l := Run(l0, acts);
    forall i | 0 <= i < |l.conn.out.written| ensures l.conn.out.written[i] in l.hub.stamped {
      assert FromLog(l.hub, l.conn.out.written[i]);
    }
  }

  lemma {:induction false} WriteAllAppends(o: Out, es: seq<Event>)
    ensures WriteAll(o, es).written == o.written + es
    ensures WriteAll(o, es).last >= o.last
    ensures es != [] && es[|es| - 1].stamp.Some? ==> WriteAll(o, es).last >= es[|es| - 1].stamp.value
    decreases |es|
  {
    if es != [] {
      WriteAllAppends(WriteOne(o, es[0]), es[1..]);
      assert o.written + [es[0]] + es[1..] == o.written + es;
    }
  }

  function Times(n: nat, a: Action): seq<Action> { if n == 0 then [] else [a] + Times(n - 1, a) }

  /** Left alone, a queue is written out whole. */
  lemma {:induction false} DrainRun(l: Link)
    requires (l.conn.phase == Backfill || l.conn.phase == Refill) && l.conn.queue != []
    ensures CanRun(l, Times(|l.conn.queue|, WriteQueued))
    ensures Run(l, Times(|l.conn.queue|, WriteQueued))
         == l.(conn := l.conn.(phase := Live, queue := [], out := WriteAll(l.conn.out, l.conn.queue)))
    decreases |l.conn.queue|
  {
    var l' := Apply(l, WriteQueued);
    assert Times(|l.conn.queue|, WriteQueued)[1..] == Times(|l.conn.queue| - 1, WriteQueued);
    if |l.conn.queue| > 1 {
      DrainRun(l');
    } else {
      assert Times(0, WriteQueued) == [];
      assert l'.conn.queue == [];
    }
  }

  /** The lag handler run to its end: one ring query, then every event it returned. */
  function RepairRun(l: Link): seq<Action> { [Replay] + Times(|After(l.hub.ring, l.conn.out.last)|, WriteQueued) }

  /** Left alone it always gets there. */
  lemma RepairRunEnds(l: Link)
    requires l.conn.phase == LagReported
    ensures CanRun(l, RepairRun(l))
    ensures Run(l, RepairRun(l)).hub == l.hub
    ensures Run(l, RepairRun(l)).conn.out == WriteAll(l.conn.out, After(l.hub.ring, l.conn.out.last))
  {
    var l' := Apply(l, Replay);
    assert RepairRun(l)[1..] == Times(|l'.conn.queue|, WriteQueued);
    if l'.conn.queue != [] {
      DrainRun(l');
    } else {
      assert RepairRun(l)[1..] == [];
    }
  }

  /**
   A repair from `o` to `o'` leaves a hole exactly where the ring no longer reaches, no
   hole exactly when the backlog fits the ring, and sends nothing in the ring again.
   */
  ghost predicate RepairOutcome(h: HubState, o: Out, o': Out) {
    && h.pushed <= |h.stamped|
    && (forall i :: Pos(h, o.last) <= i < h.pushed ==> (h.stamped[i] in o'.written <==> i >= h.evicted))
    && (Whole(h, o'.written, Pos(h, o.last)) <==> h.pushed - Pos(h, o.last) <= |h.ring|)
    && (forall i :: 0 <= i < h.pushed ==> Skips(o', h.stamped[i]))
  }

  /** Every buffered or evicted event from log position `from` on was written. */
  ghost predicate Whole(h: HubState, written: seq<Event>, from: nat)
    requires h.pushed <= |h.stamped|
  {
    forall i :: from <= i < h.pushed ==> h.stamped[i] in written
  }

  /** What one log position is owed by a refill. */
  lemma RefilledAt(h: HubState, o: Out, i: nat)
    requires HubInv(h) && i < h.pushed
    requires forall k :: 0 <= k < |o.written| ==> o.written[k].stamp.Some? && o.written[k].stamp.value <= o.last
    ensures var o' := WriteAll(o, After(h.ring, o.last));
            && Skips(o', h.stamped[i])
            && (i >= Pos(h, o.last) ==> (h.stamped[i] in o'.written <==> i >= h.evicted))
  {
    ReplaySinceRefinesLog(h, o.last);
    SliceWritten(h, o, Min(Max(Pos(h, o.last), h.evicted), h.pushed), i);
  }

  lemma RefillOutcome(h: HubState, o: Out)
    requires HubInv(h)
    requires forall k :: 0 <= k < |o.written| ==> o.written[k].stamp.Some? && o.written[k].stamp.value <= o.last
    ensures RepairOutcome(h, o, WriteAll(o, After(h.ring, o.last)))
  {
    var o' := WriteAll(o, After(h.ring, o.last));
    forall i | 0 <= i < h.pushed
      ensures Skips(o', h.stamped[i])
      ensures i >= Pos(h, o.last) ==> (h.stamped[i] in o'.written <==> i >= h.evicted)
    {
      RefilledAt(h, o, i);
    }
    WholeIff(h, o, o');
  }

  lemma WholeIff(h: HubState, o: Out, o': Out)
    requires HubInv(h)
    requires forall i :: Pos(h, o.last) <= i < h.pushed ==> (h.stamped[i] in o'.written <==> i >= h.evicted)
    ensures Whole(h, o'.written, Pos(h, o.last)) <==> h.pushed - Pos(h, o.last) <= |h.ring|
  {
    var at := Pos(h, o.last);
    if h.pushed - at > |h.ring| {
      assert h.stamped[at] !in o'.written;
    }
  }

  /** What may happen while a queue is written out: ingests, and the writes themselves. */
  predicate WhileWriting(acts: seq<Action>) {
    forall i :: 0 <= i < |acts| ==> acts[i].DoStamp? || acts[i].DoPush? || acts[i].DoSend? || acts[i].WriteQueued?
  }

  /** A queue being written out, or just finished. */
  predicate Draining(c: Conn) {
    if c.queue == [] then c.phase == Live else c.phase == Backfill || c.phase == Refill
  }

  lemma WriteDrains(l: Link, a: Action)
    requires Enabled(l, a) && Draining(l.conn) && WhileWriting([a])
    ensures var c, c' := l.conn, Apply(l, a).conn;
            Draining(c') && WriteAll(c'.out, c'.queue) == WriteAll(c.out, c.queue)
  {
    assert [a][0] == a;
  }

  /** Whatever is ingested meanwhile, what is written and what is left to write stay the same in sum. */
  lemma {:induction false} DrainInterleaved(l: Link, acts: seq<Action>)
    requires CanRun(l, acts) && Draining(l.conn) && WhileWriting(acts)
    ensures var c, c' := l.conn, Run(l, acts).conn;
            Draining(c') && WriteAll(c'.out, c'.queue) == WriteAll(c.out, c.queue)
    decreases |acts|
  {
    if acts != [] {
      assert WhileWriting([acts[0]]) by {
        assert acts[0].DoStamp? || acts[0].DoPush? || acts[0].DoSend? || acts[0].WriteQueued?;
      }
      WriteDrains(l, acts[0]);
      assert forall i :: 0 <= i < |acts| - 1 ==> acts[1..][i] == acts[i + 1];
      DrainInterleaved(Apply(l, acts[0]), acts[1..]);
    }
  }

  /**
   A lag repair that runs to its end, with any ingests in between: the outcome is that of
   the one ring query it made.
   */
  lemma LagRepair(l: Link, acts: seq<Action>)
    requires LinkInv(l) && l.conn.phase == LagReported
    requires CanRun(Apply(l, Replay), acts) && WhileWriting(acts) && Run(Apply(l, Replay), acts).conn.phase == Live
    ensures RepairOutcome(l.hub, l.conn.out, Run(Apply(l, Replay), acts).conn.out)
  {
    DrainInterleaved(Apply(l, Replay), acts);
    RefillOutcome(l.hub, l.conn.out);
  }

  lemma LastIsWritten(o: Out, es: seq<Event>, n: nat)
    requires if es == [] then n <= o.last else es[|es| - 1].stamp == Some(n)
    ensures WriteAll(o, es).last >= n
  {
    WriteAllAppends(o, es);
  }

  lemma LastOfSlice(h: HubState, q: nat)
    requires q < h.pushed <= |h.stamped|
    ensures |h.stamped[q..h.pushed]| > 0
    ensures h.stamped[q..h.pushed][|h.stamped[q..h.pushed]| - 1] == h.stamped[h.pushed - 1]
  {
  }

  lemma SliceSkips(h: HubState, o: Out, q: nat, i: nat)
    requires q <= h.pushed <= |h.stamped| && i < h.pushed
    requires h.stamped[i].stamp == Some(h.base + 1 + i)
    requires h.stamped[h.pushed - 1].stamp == Some(h.base + h.pushed)
    requires q == h.pushed ==> h.base + h.pushed <= o.last
    ensures Skips(WriteAll(o, h.stamped[q..h.pushed]), h.stamped[i])
  {
    if q < h.pushed {
      LastOfSlice(h, q);
    }
    LastIsWritten(o, h.stamped[q..h.pushed], h.base + h.pushed);
  }

  lemma InSlice(h: HubState, q: nat, i: nat)
    requires Consecutive(h.base + 1, h.stamped) && q <= h.pushed <= |h.stamped| && i < h.pushed
    ensures h.stamped[i] in h.stamped[q..h.pushed] <==> i >= q
  {
    var es := h.stamped[q..h.pushed];
    assert h.stamped[i].stamp == Some(h.base + 1 + i);
    if i >= q {
      assert es[i - q] == h.stamped[i];
    } else {
      forall k | 0 <= k < |es| ensures es[k] != h.stamped[i] {
        assert es[k] == h.stamped[q + k] && h.stamped[q + k].stamp == Some(h.base + 1 + q + k);
      }
    }
  }

  /** Writing the log from `q` on: what is then written, and that the ring's contents are never sent again. */
  lemma SliceWritten(h: HubState, o: Out, q: nat, i: nat)
    requires Consecutive(h.base + 1, h.stamped) && q <= h.pushed <= |h.stamped| && i < h.pushed
    requires forall k :: 0 <= k < |o.written| ==> o.written[k].stamp.Some? && o.written[k].stamp.value <= o.last
    requires q == h.pushed ==> h.base + h.pushed <= o.last
    ensures var o' := WriteAll(o, h.stamped[q..h.pushed]);
            && Skips(o', h.stamped[i])
            && (i >= Pos(h, o.last) ==> (h.stamped[i] in o'.written <==> i >= q))
  {
    assert h.stamped[h.pushed - 1].stamp == Some(h.base + h.pushed);
    SliceSkips(h, o, q, i);
    WriteAllAppends(o, h.stamped[q..h.pushed]);
    InSlice(h, q, i);
    assert h.stamped[i].stamp == Some(h.base + 1 + i);
    if i >= Pos(h, o.last) {
      assert h.stamped[i] !in o.written;
    }
  }

  /** Where the events begin that the channel still holds for a consumer and has not sent it. */
  function HeldFrom(h: HubState, c: Conn): nat { Max(Max(c.rx, h.sent - BROADCAST_CAP), Pos(h, c.out.last)) }

  /**
   Of the events the channel still held, a repair writes exactly those the ring still has. It
   gives some up exactly when the ring begins later than the channel; with every ingest
   complete and a channel full of unsent events, that is `BROADCAST_CAP - cap` of them.
   */
  lemma RepairSkipsHeldEvents(l: Link, acts: seq<Action>)
    requires LinkInv(l) && l.conn.phase == LagReported
    requires CanRun(Apply(l, Replay), acts) && WhileWriting(acts) && Run(Apply(l, Replay), acts).conn.phase == Live
    ensures l.hub.evicted <= l.hub.pushed <= |l.hub.stamped| && l.hub.sent <= l.hub.pushed
    ensures var h, from := l.hub, HeldFrom(l.hub, l.conn);
            var written := Run(Apply(l, Replay), acts).conn.out.written;
            && (forall i :: from <= i < h.sent ==> (h.stamped[i] in written <==> i >= h.evicted))
            && ((exists i :: from <= i < h.sent && h.stamped[i] !in written) <==> from < Min(h.evicted, h.sent))
            && (h.pushed == h.sent && from == h.sent - BROADCAST_CAP && h.cap <= BROADCAST_CAP ==>
                  h.evicted - from == BROADCAST_CAP - h.cap)
  {
    LagRepair(l, acts);
    var h, from := l.hub, HeldFrom(l.hub, l.conn);
    if from < Min(h.evicted, h.sent) {
      assert h.stamped[from] !in Run(Apply(l, Replay), acts).conn.out.written;
    }
  }
}
