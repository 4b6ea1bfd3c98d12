/**
 What one consumer is fed, in terms of the log and of the run's own steps: the losses'
 history is what happened, and a consumer that never lagged was written exactly its
 backlog and what it received after.
 */
module ConsumerFeed {
  import opened Basics
  import opened GatewayHub
  import opened ConsumerConnection

  // ---------------------------------------------------------------------------
  // The history is what happened
  // ---------------------------------------------------------------------------

  lemma {:induction false} RunSplits(l: Link, a: seq<Action>, b: seq<Action>)
    requires CanRun(l, a + b)
    ensures CanRun(l, a) && CanRun(Run(l, a), b) && Run(l, a + b) == Run(Run(l, a), b)
    decreases |a|
  {
    if a == [] {
      assert a + b == b;
    } else {
      assert (a + b)[1..] == a[1..] + b;
      RunSplits(Apply(l, a[0]), a[1..], b);
    }
  }

  /** The link before step `k` of a run. */
  function Before(l: Link, acts: seq<Action>, k: nat): Link
    requires CanRun(l, acts) && k <= |acts|
  {
    assert acts == acts[..k] + acts[k..];
    RunSplits(l, acts[..k], acts[k..]);
    Run(l, acts[..k])
  }

  lemma StepOf(l: Link, acts: seq<Action>, k: nat)
    requires CanRun(l, acts) && k < |acts|
    ensures Enabled(Before(l, acts, k), acts[k])
    ensures CanRun(Apply(Before(l, acts, k), acts[k]), acts[k + 1..])
    ensures Run(Apply(Before(l, acts, k), acts[k]), acts[k + 1..]) == Run(l, acts)
  {
    assert acts == acts[..k] + acts[k..] && acts[k..][1..] == acts[k + 1..];
    RunSplits(l, acts[..k], acts[k..]);
  }

  /** Past its phase a reading of the hub stays as it was taken. */
  predicate SnapshotKept(c: Conn, c': Conn) {
    c.phase != Hello ==>
      && c'.phase != Hello && c'.from == c.from
      && c'.hist.snapOldest == c.hist.snapOldest && c'.hist.snapTail == c.hist.snapTail
  }

  predicate SubscriptionKept(c: Conn, c': Conn) {
    c.phase != Hello && c.phase != Snapshotted ==>
      c'.phase != Hello && c'.phase != Snapshotted && c'.hist.subTail == c.hist.subTail
  }

  lemma {:induction false} RunKeepsReadings(l: Link, acts: seq<Action>)
    requires CanRun(l, acts)
    ensures SnapshotKept(l.conn, Run(l, acts).conn) && SubscriptionKept(l.conn, Run(l, acts).conn)
    decreases |acts|
  {
    if acts != [] {
      RunKeepsReadings(Apply(l, acts[0]), acts[1..]);
    }
  }

  /** The first log position the ring still holds. */
  function Oldest(h: HubState): nat { Max(h.pushed - |h.ring|, 0) }

  /** The ring queries a run's lag repairs made, in order. */
  function RepairsMade(l: Link, acts: seq<Action>): seq<Repair>
    requires CanRun(l, acts)
    decreases |acts|
  {
    if acts == [] then [] else
    (if acts[0].Replay? then [Repair(Pos(l.hub, l.conn.out.last), Oldest(l.hub), l.hub.pushed)] else [])
      + RepairsMade(Apply(l, acts[0]), acts[1..])
  }

  lemma {:induction false} RepairsRecorded(l: Link, acts: seq<Action>)
    requires HubInv(l.hub) && CanRun(l, acts)
    ensures Run(l, acts).conn.hist.repairs == l.conn.hist.repairs + RepairsMade(l, acts)
    decreases |acts|
  {
    if acts != [] {
      HubInvKept(l, acts[0]);
      RepairsRecorded(Apply(l, acts[0]), acts[1..]);
    }
  }

  lemma HubInvKept(l: Link, a: Action)
    requires HubInv(l.hub) && Enabled(l, a)
    ensures HubInv(Apply(l, a).hub)
  {
    match a
    case DoStamp(body) => StampKeeps(l.hub, body);
    case DoPush => PushKeeps(l.hub);
    case DoSend => SendKeeps(l.hub);
    case _ =>
  }

  lemma {:induction false} RunKeepsHub(l: Link, acts: seq<Action>)
    requires HubInv(l.hub) && CanRun(l, acts)
    ensures HubInv(Run(l, acts).hub)
    decreases |acts|
  {
    if acts != [] {
      HubInvKept(l, acts[0]);
      RunKeepsHub(Apply(l, acts[0]), acts[1..]);
    }
  }

  lemma HubInvBefore(l: Link, acts: seq<Action>, k: nat)
    requires HubInv(l.hub) && CanRun(l, acts) && k <= |acts|
    ensures HubInv(Before(l, acts, k).hub)
  {
    assert acts == acts[..k] + acts[k..];
    RunSplits(l, acts[..k], acts[k..]);
    RunKeepsHub(l, acts[..k]);
  }

  /**
   Over every run, the history the losses are stated on is what the run did: what the ring
   covered at the snapshot, what had been fanned out at the subscription, and each lag
   repair's ring query.
   */
  lemma HistoryIsRun(h: HubState, since: Option<nat>, replay: nat, acts: seq<Action>, k: nat)
    requires HubInv(h) && CanRun(Link(h, NewConn(since, replay)), acts) && k < |acts|
    ensures var l0 := Link(h, NewConn(since, replay));
            var at, hist := Before(l0, acts, k).hub, Run(l0, acts).conn.hist;
            && (acts[k].Snapshot? ==> hist.snapOldest == Oldest(at) && hist.snapTail == at.pushed)
            && (acts[k].Subscribe? ==> hist.subTail == at.sent)
            && hist.repairs == RepairsMade(l0, acts)
  {
    var l0 := Link(h, NewConn(since, replay));
    HubInvBefore(l0, acts, k);
    StepOf(l0, acts, k);
    RunKeepsReadings(Apply(Before(l0, acts, k), acts[k]), acts[k + 1..]);
    RepairsRecorded(l0, acts);
  }

  // ---------------------------------------------------------------------------
  // Where the backfill begins
  // ---------------------------------------------------------------------------

  /** The first position asked for: the newest `replay` of what the ring held, or right after the resume point. */
  ghost predicate AskedFrom(h: HubState, c: Conn) {
    && c.hist.snapOldest <= c.hist.snapTail
    && (c.since.None? ==> c.from == c.hist.snapTail - Min(c.replay, c.hist.snapTail - c.hist.snapOldest))
    && (c.since.Some? && c.phase != Hello && c.phase != Closed ==> c.from == Pos(h, c.since.value))
  }

  lemma StepKeepsAsked(l: Link, a: Action)
    requires HubInv(l.hub) && AskedFrom(l.hub, l.conn) && Enabled(l, a)
    ensures AskedFrom(Apply(l, a).hub, Apply(l, a).conn)
  {
  }

  lemma {:induction false} RunKeepsAsked(l: Link, acts: seq<Action>)
    requires HubInv(l.hub) && AskedFrom(l.hub, l.conn) && CanRun(l, acts)
    ensures AskedFrom(Run(l, acts).hub, Run(l, acts).conn)
    decreases |acts|
  {
    if acts != [] {
      StepKeepsAsked(l, acts[0]);
      HubInvKept(l, acts[0]);
      RunKeepsAsked(Apply(l, acts[0]), acts[1..]);
    }
  }

  /**
   In every run, lags and losses included, the accounting of a consumer without a resume point
   begins `replay` events before the end of what the snapshot saw, or where the ring began.
   */
  lemma FreshStart(h: HubState, replay: nat, acts: seq<Action>)
    requires HubInv(h) && CanRun(Link(h, NewConn(None, replay)), acts)
    ensures var c := Run(Link(h, NewConn(None, replay)), acts).conn;
            && c.hist.snapOldest <= c.hist.snapTail
            && c.from == c.hist.snapTail - Min(replay, c.hist.snapTail - c.hist.snapOldest)
  {
    RunKeepsAsked(Link(h, NewConn(None, replay)), acts);
    FieldsFixed(Link(h, NewConn(None, replay)), acts);
  }

  // ---------------------------------------------------------------------------
  // What a consumer that never lagged was written
  // ---------------------------------------------------------------------------

  function Received(a: Action): nat { if a.Recv? then 1 else 0 }

  function Recvs(acts: seq<Action>): nat {
    if acts == [] then 0 else Received(acts[0]) + Recvs(acts[1..])
  }

  function Slice(h: HubState, lo: int, hi: int): seq<Event> {
    if 0 <= lo <= hi <= |h.stamped| then h.stamped[lo..hi] else []
  }

  /** Where the backfill began in the log. */
  function BackfillFrom(c: Conn): nat { Min(c.hist.snapTail, Max(c.from, c.hist.snapOldest)) }

  /** Positions below this are not written as they arrive: the backfill or the resume point covers them. */
  function Covered(h: HubState, c: Conn): nat {
    if BackfillFrom(c) < c.hist.snapTail then c.hist.snapTail
    else if c.since.Some? then Pos(h, c.since.value)
    else 0
  }

  /** The backlog, then what arrived from the subscription on, less what the backlog covered. */
  function Backlog(h: HubState, c: Conn): seq<Event> { Slice(h, BackfillFrom(c), c.hist.snapTail) }

  function Arrived(h: HubState, c: Conn, recvs: nat): seq<Event> {
    Slice(h, Max(c.hist.subTail, Covered(h, c)), c.hist.subTail + recvs)
  }

  /**
   Until the first lag, `recvs` receives after the subscription. A queue being written out is
   the rest of the backlog.
   */
  ghost predicate Exact(h: HubState, c: Conn, recvs: nat) {
    c.hist.repairs == [] ==>
      match c.phase
      case Hello => recvs == 0 && c == NewConn(c.since, c.replay)
      case Snapshotted =>
        recvs == 0 && c.out == Out(0, []) && c.queue == Backlog(h, c) && c.hist.snapTail <= h.pushed
      case Backfill => recvs == 0 && c.rx == c.hist.subTail && Draining(h, c)
      case Live => AllRead(h, c, recvs)
      case Refill => false
      case _ => true
  }

  ghost predicate Draining(h: HubState, c: Conn) {
    && 0 < |c.queue| <= c.hist.snapTail - BackfillFrom(c) && c.hist.snapTail <= h.pushed && c.rx <= h.sent
    && c.out.written + c.queue == Backlog(h, c)
    && c.queue == Slice(h, c.hist.snapTail - |c.queue|, c.hist.snapTail)
    && c.out.last <= h.base + c.hist.snapTail - |c.queue|
  }

  ghost predicate AllRead(h: HubState, c: Conn, recvs: nat) {
    && c.rx == c.hist.subTail + recvs <= h.sent && c.hist.snapTail <= h.pushed
    && c.out.written == Backlog(h, c) + Arrived(h, c, recvs)
    && Pos(h, c.out.last) == (if c.rx > Max(c.hist.subTail, Covered(h, c)) then c.rx else Covered(h, c))
  }

  ghost predicate Grown(h: HubState, h': HubState) {
    && HubInv(h) && HubInv(h') && h'.base == h.base && h.stamped <= h'.stamped
    && h.pushed <= h'.pushed && h.sent <= h'.sent
  }

  lemma SliceGrows(h: HubState, h': HubState, lo: int, hi: int)
    requires h.stamped <= h'.stamped && hi <= |h.stamped|
    ensures Slice(h', lo, hi) == Slice(h, lo, hi)
  {
    if 0 <= lo <= hi {
      assert h'.stamped[..|h.stamped|] == h.stamped;
      forall i | 0 <= i < hi - lo ensures h'.stamped[lo..hi][i] == h.stamped[lo..hi][i] {
        assert h'.stamped[..|h.stamped|][lo + i] == h.stamped[lo + i];
      }
    }
  }

  lemma SliceSnoc(h: HubState, lo: nat, hi: nat)
    requires lo <= hi < |h.stamped|
    ensures Slice(h, lo, hi + 1) == Slice(h, lo, hi) + [h.stamped[hi]]
  {
  }

  lemma GrowthKeepsLive(h: HubState, h': HubState, c: Conn, recvs: nat)
    requires Grown(h, h') && AllRead(h, c, recvs)
    ensures AllRead(h', c, recvs)
  {
    SliceGrows(h, h', BackfillFrom(c), c.hist.snapTail);
    SliceGrows(h, h', Max(c.hist.subTail, Covered(h, c)), c.hist.subTail + recvs);
  }

  lemma GrowthKeepsDraining(h: HubState, h': HubState, c: Conn)
    requires Grown(h, h') && Draining(h, c)
    ensures Draining(h', c)
  {
    SliceGrows(h, h', BackfillFrom(c), c.hist.snapTail);
    SliceGrows(h, h', c.hist.snapTail - |c.queue|, c.hist.snapTail);
  }

  lemma GrowthKeepsExact(h: HubState, h': HubState, c: Conn, recvs: nat)
    requires Grown(h, h') && Exact(h, c, recvs)
    ensures Exact(h', c, recvs)
  {
    if c.hist.repairs == [] {
      if c.phase == Snapshotted {
        SliceGrows(h, h', BackfillFrom(c), c.hist.snapTail);
      } else if c.phase == Backfill {
        GrowthKeepsDraining(h, h', c);
      } else if c.phase == Live {
        GrowthKeepsLive(h, h', c, recvs);
      }
    }
  }

  lemma IngestKeepsExact(l: Link, a: Action, recvs: nat)
    requires HubInv(l.hub) && Exact(l.hub, l.conn, recvs) && Enabled(l, a) && !TouchesConn(a)
    ensures Exact(Apply(l, a).hub, l.conn, recvs)
  {
    HubInvKept(l, a);
    GrowthKeepsExact(l.hub, Apply(l, a).hub, l.conn, recvs);
  }

  lemma SnapshotIsExact(h: HubState, c: Conn)
    requires HubInv(h) && c == NewConn(c.since, c.replay)
    ensures Exact(h, TakeSnapshot(h, c), 0)
  {
    if c.since.Some? {
      ReplaySinceRefinesLog(h, c.since.value);
    } else {
      ReplayLastRefinesLog(h, c.replay);
    }
  }

  lemma SubscribeIsExact(h: HubState, c: Conn)
    requires HubInv(h) && c.phase == Snapshotted && Exact(h, c, 0) && c.hist.repairs == [] && AskedFrom(h, c)
    ensures Exact(h, DoSubscribe(h, c), 0)
  {
    var c' := DoSubscribe(h, c);
    if c.queue == [] {
      assert Arrived(h, c', 0) == [];
    } else {
      assert |c.queue| == c.hist.snapTail - BackfillFrom(c);
    }
  }

  lemma HeadMoves(c: Conn)
    requires c.queue != []
    ensures WriteHead(c).out.written + WriteHead(c).queue == c.out.written + c.queue
    ensures |c.queue| == 1 ==> WriteHead(c).out.written == c.out.written + c.queue
  {
    assert |c.queue| == 1 ==> c.queue == [c.queue[0]];
  }

  lemma HeadOfRest(h: HubState, c: Conn)
    requires HubInv(h) && Draining(h, c)
    ensures WriteHead(c).queue == Slice(h, c.hist.snapTail - |c.queue| + 1, c.hist.snapTail)
    ensures WriteHead(c).out.last == h.base + c.hist.snapTail - |c.queue| + 1
  {
    var p := c.hist.snapTail - |c.queue|;
    assert c.queue[0] == h.stamped[p] && h.stamped[p].stamp == Some(h.base + 1 + p);
  }

  lemma WriteIsExact(h: HubState, c: Conn)
    requires HubInv(h) && c.phase == Backfill && c.rx == c.hist.subTail && Draining(h, c)
    ensures Exact(h, WriteHead(c), 0)
  {
    HeadMoves(c);
    HeadOfRest(h, c);
    if |c.queue| == 1 {
      assert Arrived(h, WriteHead(c), 0) == [];
    }
  }

  lemma RecvIsExact(h: HubState, c: Conn, recvs: nat)
    requires HubInv(h) && c.phase == Live && c.rx < h.sent && AllRead(h, c, recvs) && h.sent - c.rx <= BROADCAST_CAP
    ensures AllRead(h, DoRecv(h, c), recvs + 1)
  {
    var e := h.stamped[c.rx];
    assert e.stamp == Some(h.base + 1 + c.rx);
    var lo := Max(c.hist.subTail, Covered(h, c));
    if c.rx >= lo {
      SliceSnoc(h, lo, c.rx);
    }
    assert Skips(c.out, e) <==> c.rx < Pos(h, c.out.last);
  }

  ghost predicate ExactLink(l: Link, recvs: nat) {
    HubInv(l.hub) && AskedFrom(l.hub, l.conn) && Exact(l.hub, l.conn, recvs)
  }

  lemma ConnKeepsExact(h: HubState, c: Conn, a: Action, recvs: nat)
    requires HubInv(h) && AskedFrom(h, c) && Exact(h, c, recvs) && Enabled(Link(h, c), a) && c.hist.repairs == []
    requires a.Snapshot? || a.Subscribe? || a.WriteQueued? || a.Recv?
    ensures Exact(h, Apply(Link(h, c), a).conn, recvs + Received(a))
  {
    match a
    case Snapshot => SnapshotIsExact(h, c);
    case Subscribe => SubscribeIsExact(h, c);
    case WriteQueued =>
      if c.phase == Backfill {
        WriteIsExact(h, c);
      }
    case Recv =>
      if h.sent - c.rx <= BROADCAST_CAP {
        RecvIsExact(h, c, recvs);
      }
  }

  lemma OthersKeepExact(h: HubState, c: Conn, a: Action, recvs: nat)
    requires Exact(h, c, recvs) && Enabled(Link(h, c), a)
    requires a.Cut? || a.Replay? || (TouchesConn(a) && c.hist.repairs != [])
    ensures Exact(h, Apply(Link(h, c), a).conn, recvs + Received(a))
  {
  }

  lemma StepKeepsExact(l: Link, a: Action, recvs: nat)
    requires HubInv(l.hub) && AskedFrom(l.hub, l.conn) && Exact(l.hub, l.conn, recvs) && Enabled(l, a)
    ensures Exact(Apply(l, a).hub, Apply(l, a).conn, recvs + Received(a))
  {
    if !TouchesConn(a) {
      IngestKeepsExact(l, a, recvs);
    } else if a.Cut? || a.Replay? || l.conn.hist.repairs != [] {
      OthersKeepExact(l.hub, l.conn, a, recvs);
    } else {
      ConnKeepsExact(l.hub, l.conn, a, recvs);
    }
  }

  lemma StepKeepsExactLink(l: Link, a: Action, recvs: nat)
    requires ExactLink(l, recvs) && Enabled(l, a)
    ensures ExactLink(Apply(l, a), recvs + Received(a))
  {
    HubInvKept(l, a);
    StepKeepsAsked(l, a);
    StepKeepsExact(l, a, recvs);
  }

  /** A law of a link and its number of receives. */
  ghost predicate Kept(law: (Link, nat) -> bool) {
    forall l: Link, a: Action, n: nat :: law(l, n) && Enabled(l, a) ==> law(Apply(l, a), n + Received(a))
  }

  lemma {:induction false} RunKeepsLaw(law: (Link, nat) -> bool, l: Link, acts: seq<Action>, n: nat)
    requires Kept(law) && law(l, n) && CanRun(l, acts)
    ensures law(Run(l, acts), n + Recvs(acts))
    decreases |acts|
  {
    if acts != [] {
      RunKeepsLaw(law, Apply(l, acts[0]), acts[1..], n + Received(acts[0]));
    }
  }

  ghost function ExactLaw(): (Link, nat) -> bool { (l: Link, n: nat) => ExactLink(l, n) }

  lemma ExactLawStep(l: Link, a: Action, n: nat)
    requires ExactLaw()(l, n) && Enabled(l, a)
    ensures ExactLaw()(Apply(l, a), n + Received(a))
  {
    StepKeepsExactLink(l, a, n);
  }

  lemma ExactIsKept()
    ensures Kept(ExactLaw())
  {
    var law := ExactLaw();
    forall l: Link, a: Action, n: nat | law(l, n) && Enabled(l, a) ensures law(Apply(l, a), n + Received(a)) {
      ExactLawStep(l, a, n);
    }
  }

  /** A run from hello that is live and has never been told of a lag. */
  ghost predicate NeverLagged(l0: Link, acts: seq<Action>) {
    CanRun(l0, acts) && Run(l0, acts).conn.phase == Live && RepairsMade(l0, acts) == []
  }

  lemma NeverLaggedIsExact(h: HubState, since: Option<nat>, replay: nat, acts: seq<Action>)
    requires HubInv(h) && NeverLagged(Link(h, NewConn(since, replay)), acts)
    ensures var l := Run(Link(h, NewConn(since, replay)), acts);
            && HubInv(l.hub) && l.conn.hist.repairs == []
            && AllRead(l.hub, l.conn, Recvs(acts)) && AskedFrom(l.hub, l.conn)
  {
    var l0 := Link(h, NewConn(since, replay));
    ExactIsKept();
    RunKeepsLaw(ExactLaw(), l0, acts, 0);
    RepairsRecorded(l0, acts);
  }

  lemma {:induction false} FieldsFixed(l: Link, acts: seq<Action>)
    requires CanRun(l, acts)
    ensures var c, c' := l.conn, Run(l, acts).conn; c'.since == c.since && c'.replay == c.replay
    ensures Run(l, acts).hub.base == l.hub.base && Run(l, acts).hub.cap == l.hub.cap
    decreases |acts|
  {
    if acts != [] {
      FieldsFixed(Apply(l, acts[0]), acts[1..]);
    }
  }

  /** Live without a lag: the snapshot saw `at`, the subscription `sub`, and `recvs` receives followed. */
  ghost predicate LiveSince(l: Link, at: HubState, sub: HubState, recvs: nat) {
    && at.cap >= 1 && |at.ring| == Min(at.pushed, at.cap)
    && AllRead(l.hub, l.conn, recvs) && AskedFrom(l.hub, l.conn) && l.conn.phase == Live
    && l.conn.hist.snapOldest == Oldest(at) && l.conn.hist.snapTail == at.pushed && l.conn.hist.subTail == sub.sent
  }

  lemma RunIsLiveSince(h: HubState, since: Option<nat>, replay: nat, acts: seq<Action>, k: nat, m: nat)
    requires HubInv(h) && NeverLagged(Link(h, NewConn(since, replay)), acts)
    requires k < |acts| && m < |acts| && acts[k].Snapshot? && acts[m].Subscribe?
    ensures var l0 := Link(h, NewConn(since, replay));
            && LiveSince(Run(l0, acts), Before(l0, acts, k).hub, Before(l0, acts, m).hub, Recvs(acts))
            && Run(l0, acts).conn.since == since && Run(l0, acts).conn.replay == replay
  {
    var l0 := Link(h, NewConn(since, replay));
    NeverLaggedIsExact(h, since, replay, acts);
    HistoryIsRun(h, since, replay, acts, k);
    HistoryIsRun(h, since, replay, acts, m);
    HubInvBefore(l0, acts, k);
    FieldsFixed(l0, acts);
  }

  /** The newest `replay` events the ring held, or as many as there were, then what was received and not among them. */
  ghost predicate FedFresh(l: Link, replay: nat, at: HubState, sub: HubState, recvs: nat) {
    var n := Min(replay, Min(at.pushed, at.cap));
    l.conn.out.written == Slice(l.hub, at.pushed - n, at.pushed)
                        + Slice(l.hub, Max(sub.sent, if n > 0 then at.pushed else 0), sub.sent + recvs)
  }

  /** All the ring held above the resume point, then what was received and not among it. */
  ghost predicate FedFrom(l: Link, since: nat, at: HubState, sub: HubState, recvs: nat) {
    var from := Pos(l.hub, since);
    l.conn.out.written == Slice(l.hub, Max(from, Oldest(at)), at.pushed)
                        + Slice(l.hub, Max(sub.sent, Max(from, at.pushed)), sub.sent + recvs)
  }

  lemma FreshFrom(h: HubState, c: Conn, at: HubState)
    requires |at.ring| == Min(at.pushed, at.cap) && c.since.None? && AskedFrom(h, c)
    requires c.hist.snapOldest == Oldest(at) && c.hist.snapTail == at.pushed
    ensures var n := Min(c.replay, Min(at.pushed, at.cap));
            BackfillFrom(c) == at.pushed - n && Covered(h, c) == if n > 0 then at.pushed else 0
  {
    assert at.pushed - Oldest(at) == Min(at.pushed, at.cap);
  }

  lemma FreshIs(l: Link, at: HubState, sub: HubState, recvs: nat)
    requires LiveSince(l, at, sub, recvs) && l.conn.since.None?
    ensures FedFresh(l, l.conn.replay, at, sub, recvs)
  {
    FreshFrom(l.hub, l.conn, at);
  }

  lemma ResumedIs(l: Link, at: HubState, sub: HubState, recvs: nat)
    requires LiveSince(l, at, sub, recvs) && l.conn.since.Some?
    ensures FedFrom(l, l.conn.since.value, at, sub, recvs)
  {
    var from := Pos(l.hub, l.conn.since.value);
    assert BackfillFrom(l.conn) == Min(at.pushed, Max(from, Oldest(at)));
    if BackfillFrom(l.conn) == at.pushed {
      assert Slice(l.hub, at.pushed, at.pushed) == [];
    }
  }

  /**
   In every run without a lag, a consumer without a resume point is written the newest
   `replay` events the ring held at the snapshot, or as many as there were, and then what
   it received since the subscription, less what the snapshot had already.
   */
  lemma FreshConsumer(h: HubState, replay: nat, acts: seq<Action>, k: nat, m: nat)
    requires HubInv(h) && NeverLagged(Link(h, NewConn(None, replay)), acts)
    requires k < |acts| && m < |acts| && acts[k].Snapshot? && acts[m].Subscribe?
    ensures var l0 := Link(h, NewConn(None, replay));
            FedFresh(Run(l0, acts), replay, Before(l0, acts, k).hub, Before(l0, acts, m).hub, Recvs(acts))
  {
    var l0 := Link(h, NewConn(None, replay));
    RunIsLiveSince(h, None, replay, acts, k, m);
    FreshIs(Run(l0, acts), Before(l0, acts, k).hub, Before(l0, acts, m).hub, Recvs(acts));
  }

  /** Likewise a consumer that resumes: everything above its resume point that the ring held. */
  lemma ResumedConsumer(h: HubState, since: nat, replay: nat, acts: seq<Action>, k: nat, m: nat)
    requires HubInv(h) && NeverLagged(Link(h, NewConn(Some(since), replay)), acts)
    requires k < |acts| && m < |acts| && acts[k].Snapshot? && acts[m].Subscribe?
    ensures var l0 := Link(h, NewConn(Some(since), replay));
            FedFrom(Run(l0, acts), since, Before(l0, acts, k).hub, Before(l0, acts, m).hub, Recvs(acts))
  {
    var l0 := Link(h, NewConn(Some(since), replay));
    RunIsLiveSince(h, Some(since), replay, acts, k, m);
    ResumedIs(Run(l0, acts), Before(l0, acts, k).hub, Before(l0, acts, m).hub, Recvs(acts));
  }

  /**
   A consumer that has not lagged yet is told of a lag exactly when more than 1024 events have
   been fanned out beyond those it has received.
   */
  lemma LagsExactly(h: HubState, since: Option<nat>, replay: nat, acts: seq<Action>, m: nat)
    requires HubInv(h) && NeverLagged(Link(h, NewConn(since, replay)), acts) && m < |acts| && acts[m].Subscribe?
    ensures var l0 := Link(h, NewConn(since, replay));
            var l, received := Run(l0, acts), Before(l0, acts, m).hub.sent + Recvs(acts);
            && (Enabled(l, Recv) <==> received < l.hub.sent)
            && (Enabled(l, Recv) ==> (Apply(l, Recv).conn.phase == LagReported <==> l.hub.sent - received > 1024))
  {
    NeverLaggedIsExact(h, since, replay, acts);
    HistoryIsRun(h, since, replay, acts, m);
    NextIs(Run(Link(h, NewConn(since, replay)), acts), Recvs(acts));
  }

  lemma NextIs(l: Link, recvs: nat)
    requires HubInv(l.hub) && AllRead(l.hub, l.conn, recvs) && l.conn.phase == Live
    ensures var received := l.conn.hist.subTail + recvs;
            && (Enabled(l, Recv) <==> received < l.hub.sent)
            && (Enabled(l, Recv) ==> (Apply(l, Recv).conn.phase == LagReported <==> l.hub.sent - received > 1024))
  {
  }
}
