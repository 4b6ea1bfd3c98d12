/**
 One server key of the event gateway: stamping, the bounded replay ring, and the
 two replay queries.

 The unbounded log `stamped` is history: the program keeps only the ring and the
 counters. `Stamp`, `Push` and `Send` are the three points at which an ingest
 becomes visible to other tasks; `Hub.Ingest` runs all three.
 */
module GatewayHub {
  import opened Basics

  /** `stamp` is None on events that no gateway has stamped. */
  datatype Event = Event(stamp: Option<nat>, body: string)

  /**
   `base` is the clock reading the hub was seeded with. Log position `i` holds the
   event with sequence `base + 1 + i`.
   */
  datatype HubState = HubState(
    base: nat,
    cap: nat,
    stamped: seq<Event>,
    ring: seq<Event>,
    evicted: nat,
    eventsIn: nat,
    pushed: nat,
    sent: nat)

  function NewHub(clock: nat, bufferCap: nat): HubState {
    HubState(clock, Max(bufferCap, 1), [], [], 0, 0, 0, 0)
  }

  predicate CanStamp(h: HubState) { h.sent == |h.stamped| }

  predicate CanPush(h: HubState) { h.pushed < |h.stamped| }

  predicate CanSend(h: HubState) { h.sent < h.pushed }

  function Stamp(h: HubState, body: string): HubState {
    h.(stamped := h.stamped + [Event(Some(h.base + |h.stamped| + 1), body)])
  }

  /** How many entries the eviction loop pops before there is room for one more. */
  function Overflow(h: HubState): nat {
    if |h.ring| >= h.cap && h.cap > 0 then |h.ring| - h.cap + 1 else 0
  }

  function Push(h: HubState): HubState
    requires CanPush(h)
  {
    h.(ring := h.ring[Overflow(h)..] + [h.stamped[h.pushed]],
       evicted := h.evicted + Overflow(h),
       pushed := h.pushed + 1)
  }

  function Send(h: HubState): HubState {
    h.(sent := h.sent + 1, eventsIn := h.eventsIn + 1)
  }

  ghost predicate Consecutive(first: nat, es: seq<Event>) {
    forall i {:trigger es[i]} :: 0 <= i < |es| ==> es[i].stamp == Some(first + i)
  }

  /** What every interleaving of the three ingest steps keeps, for one producer. */
  ghost predicate HubInv(h: HubState) {
    && h.cap >= 1
    && Consecutive(h.base + 1, h.stamped)
    && h.sent <= h.pushed <= |h.stamped| <= h.sent + 1
    && |h.ring| == Min(h.pushed, h.cap)
    && h.evicted == h.pushed - |h.ring|
    && h.ring == h.stamped[h.evicted..h.pushed]
    && h.eventsIn == h.sent
  }

  lemma NewHubInv(clock: nat, bufferCap: nat)
    ensures HubInv(NewHub(clock, bufferCap))
  {
  }

  lemma StampKeeps(h: HubState, body: string)
    requires HubInv(h) && CanStamp(h)
    ensures HubInv(Stamp(h, body)) && CanPush(Stamp(h, body))
  {
    var h' := Stamp(h, body);
    assert h'.stamped[h.evicted..h.pushed] == h.stamped[h.evicted..h.pushed];
  }

  lemma PushKeeps(h: HubState)
    requires HubInv(h) && CanPush(h)
    ensures HubInv(Push(h)) && CanSend(Push(h))
    ensures Push(h).evicted >= h.evicted
  {
    var h' := Push(h);
    assert h'.ring == h.stamped[h'.evicted..h'.pushed];
  }

  lemma SendKeeps(h: HubState)
    requires HubInv(h) && CanSend(h)
    ensures HubInv(Send(h))
  {
  }

  /** The number of log positions whose sequence is at most `s`. */
  function Pos(h: HubState, s: nat): nat { if s <= h.base then 0 else s - h.base }

  predicate SeqAbove(e: Event, since: nat) { e.stamp.Some? && e.stamp.value > since }

  /** The events of `es` above sequence `since`, in order. */
  function After(es: seq<Event>, since: nat): seq<Event> {
    if es == [] then [] else
    (if SeqAbove(es[0], since) then [es[0]] else []) + After(es[1..], since)
  }

  lemma {:induction false} AfterAppend(es: seq<Event>, e: Event, since: nat)
    ensures After(es + [e], since) == After(es, since) + if SeqAbove(e, since) then [e] else []
  {
    if es != [] {
      assert (es + [e])[1..] == es[1..] + [e];
      AfterAppend(es[1..], e, since);
    }
  }

  /** The newest `n` events of `es`. */
  function Newest(es: seq<Event>, n: nat): seq<Event> { es[|es| - Min(n, |es|)..] }

  lemma ConsecutiveSlice(first: nat, es: seq<Event>, lo: nat, hi: nat)
    requires Consecutive(first, es) && lo <= hi <= |es|
    ensures Consecutive(first + lo, es[lo..hi])
  {
    forall i {:trigger es[lo..hi][i]} | 0 <= i < hi - lo ensures es[lo..hi][i].stamp == Some(first + lo + i) {
      assert es[lo..hi][i] == es[lo + i];
    }
  }

  lemma {:induction false} AfterAll(first: nat, es: seq<Event>, since: nat)
    requires Consecutive(first, es) && since < first
    ensures After(es, since) == es
    decreases |es|
  {
    if es != [] {
      ConsecutiveSlice(first, es, 1, |es|);
      AfterAll(first + 1, es[1..], since);
      assert es[0].stamp == Some(first);
    }
  }

  /** On consecutive sequences the filter is one cut. */
  lemma {:induction false} AfterIsSuffix(first: nat, es: seq<Event>, since: nat)
    requires Consecutive(first, es)
    decreases |es|
    ensures var k := Min(Max(since + 1 - first, 0), |es|); After(es, since) == es[k..]
  {
    if since < first {
      AfterAll(first, es, since);
    } else if es != [] {
      assert es[0].stamp == Some(first);
      ConsecutiveSlice(first, es, 1, |es|);
      AfterIsSuffix(first + 1, es[1..], since);
    }
  }

  /** Where the filter cuts a slice of the log. */
  function Cut(h: HubState, since: nat, lo: nat, hi: nat): nat { Min(Max(Pos(h, since), lo), hi) }

  lemma AfterOfSlice(h: HubState, since: nat, lo: nat, hi: nat)
    requires HubInv(h) && lo <= hi <= |h.stamped|
    ensures lo <= Cut(h, since, lo, hi) <= hi
    ensures After(h.stamped[lo..hi], since) == h.stamped[Cut(h, since, lo, hi)..hi]
  {
    ConsecutiveSlice(h.base + 1, h.stamped, lo, hi);
    AfterIsSuffix(h.base + 1 + lo, h.stamped[lo..hi], since);
    assert h.stamped[lo..hi][Cut(h, since, lo, hi) - lo..] == h.stamped[Cut(h, since, lo, hi)..hi];
  }

  /** A resume query reads one slice of the log, and reads the full answer exactly when nothing wanted was evicted. */
  lemma ReplaySinceRefinesLog(h: HubState, since: nat)
    requires HubInv(h)
    ensures After(h.ring, since) == h.stamped[Min(Max(Pos(h, since), h.evicted), h.pushed)..h.pushed]
    ensures After(h.ring, since) == After(h.stamped[..h.pushed], since)
            <==> h.evicted == 0 || since >= h.base + h.evicted
  {
    AfterOfSlice(h, since, h.evicted, h.pushed);
    AfterOfSlice(h, since, 0, h.pushed);
    assert h.stamped[0..h.pushed] == h.stamped[..h.pushed];
    assert |After(h.ring, since)| == h.pushed - Cut(h, since, h.evicted, h.pushed);
    assert |After(h.stamped[..h.pushed], since)| == h.pushed - Cut(h, since, 0, h.pushed);
  }

  /** The newest-`n` query agrees with the full log exactly when the ring is long enough or complete. */
  lemma ReplayLastRefinesLog(h: HubState, n: nat)
    requires HubInv(h)
    ensures Newest(h.ring, n) == h.stamped[h.pushed - Min(n, |h.ring|)..h.pushed]
    ensures Newest(h.ring, n) == Newest(h.stamped[..h.pushed], n) <==> n <= |h.ring| || h.evicted == 0
  {
    var full := h.stamped[..h.pushed];
    assert Newest(h.ring, n) == h.stamped[h.pushed - Min(n, |h.ring|)..h.pushed];
    assert Newest(full, n) == h.stamped[h.pushed - Min(n, |full|)..h.pushed];
    assert |Newest(h.ring, n)| == Min(n, |h.ring|);
    assert |Newest(full, n)| == Min(n, h.pushed);
  }

  function Ingested(h: HubState, body: string): HubState
    requires CanStamp(h) && h.pushed == h.sent
  {
    Send(Push(Stamp(h, body)))
  }

  /** A fresh hub after ingesting `bodies`, one at a time. */
  function IngestAll(clock: nat, bufferCap: nat, bodies: seq<string>): (h: HubState)
    ensures HubInv(h) && CanStamp(h) && h.pushed == h.sent
  {
    if bodies == [] then
      NewHubInv(clock, bufferCap);
      NewHub(clock, bufferCap)
    else
      var h := IngestAll(clock, bufferCap, bodies[..|bodies| - 1]);
      var body := bodies[|bodies| - 1];
      StampKeeps(h, body);
      PushKeeps(Stamp(h, body));
      SendKeeps(Push(Stamp(h, body)));
      Ingested(h, body)
  }

  lemma IngestedAppends(h: HubState, body: string)
    requires CanStamp(h) && h.pushed == h.sent
    ensures Ingested(h, body).stamped == h.stamped + [Event(Some(h.base + |h.stamped| + 1), body)]
    ensures Ingested(h, body).base == h.base && Ingested(h, body).cap == h.cap
  {
  }

  ghost predicate HoldsBodies(h: HubState, clock: nat, bufferCap: nat, bodies: seq<string>) {
    && h.base == clock && h.cap == Max(bufferCap, 1) && |h.stamped| == |bodies|
    && forall i :: 0 <= i < |bodies| ==> h.stamped[i].body == bodies[i]
  }

  lemma {:induction false} IngestedLog(clock: nat, bufferCap: nat, bodies: seq<string>)
    ensures HoldsBodies(IngestAll(clock, bufferCap, bodies), clock, bufferCap, bodies)
  {
    if bodies != [] {
      var before := bodies[..|bodies| - 1];
      IngestedLog(clock, bufferCap, before);
      IngestedAppends(IngestAll(clock, bufferCap, before), bodies[|bodies| - 1]);
    }
  }

  lemma RingEntries(h: HubState)
    requires HubInv(h)
    ensures forall i :: 0 <= i < |h.ring| ==>
              h.ring[i] == h.stamped[h.evicted + i] && h.ring[i].stamp == Some(h.base + 1 + h.evicted + i)
  {
    forall i | 0 <= i < |h.ring|
      ensures h.ring[i] == h.stamped[h.evicted + i] && h.ring[i].stamp == Some(h.base + 1 + h.evicted + i)
    {
      assert h.ring[i] == h.stamped[h.evicted + i];
    }
  }

  /** The log a hub seeded at `clock` holds after ingesting `bodies`, seen through the ring. */
  ghost predicate HoldsTail(h: HubState, clock: nat, bufferCap: nat, bodies: seq<string>) {
    && h.eventsIn == |bodies| == |h.ring| + h.evicted
    && |h.ring| == Min(|bodies|, Max(bufferCap, 1))
    && forall i :: 0 <= i < |h.ring| ==>
         h.ring[i] == Event(Some(clock + 1 + h.evicted + i), bodies[h.evicted + i])
  }

  lemma TailOfLog(h: HubState, clock: nat, bufferCap: nat, bodies: seq<string>)
    requires HubInv(h) && CanStamp(h) && HoldsBodies(h, clock, bufferCap, bodies)
    ensures HoldsTail(h, clock, bufferCap, bodies)
  {
    RingEntries(h);
  }

  /** The ring is the last `min(k, cap)` events of the log, and the counters balance. */
  lemma RingRefinesLog(clock: nat, bufferCap: nat, bodies: seq<string>)
    ensures HoldsTail(IngestAll(clock, bufferCap, bodies), clock, bufferCap, bodies)
  {
    IngestedLog(clock, bufferCap, bodies);
    TailOfLog(IngestAll(clock, bufferCap, bodies), clock, bufferCap, bodies);
  }

  /** The hub as the program holds it. */
  class Hub {
    const base: nat
    const bufferCap: nat
    var seqNo: nat
    var ring: seq<Event>
    var eventsIn: nat
    var ringEvicted: nat
    var sent: nat
    ghost var stamped: seq<Event>

    ghost function View(): HubState
      reads this
    {
      HubState(base, bufferCap, stamped, ring, ringEvicted, eventsIn, sent, sent)
    }

    ghost predicate Valid()
      reads this
    {
      && HubInv(View())
      && CanStamp(View())
      && seqNo == base + |stamped|
    }

    constructor (clock: nat, cap: nat)
      ensures Valid() && View() == NewHub(clock, cap)
    {
      base := clock;
      bufferCap := Max(cap, 1);
      seqNo := clock;
      ring := [];
      eventsIn, ringEvicted, sent := 0, 0, 0;
      stamped := [];
    }

    /** Pop from the front until one more entry fits. */
    method Evict()
      requires bufferCap >= 1
      modifies `ring, `ringEvicted
      ensures ring == old(ring)[old(Overflow(View()))..]
      ensures ringEvicted == old(ringEvicted) + old(Overflow(View()))
    {
      ghost var all, evictedBefore := ring, ringEvicted;
      ghost var popped := 0;
      while |ring| >= bufferCap
        invariant 0 <= popped <= |all| && ring == all[popped..]
        invariant ringEvicted == evictedBefore + popped
        invariant popped > 0 ==> |ring| >= bufferCap - 1
        decreases |ring|
      {
        ring := ring[1..];
        ringEvicted := ringEvicted + 1;
        popped := popped + 1;
      }
    }

    /** Stamp, buffer and fan out one event from a producer. */
    method Ingest(body: string) returns (event: Event)
      requires Valid()
      modifies this
      ensures Valid()
      ensures old(CanStamp(View()) && View().pushed == View().sent)
      ensures View() == Ingested(old(View()), body)
      ensures event == Event(Some(old(seqNo) + 1), body)
    {
      ghost var before := View();
      StampKeeps(before, body);
      PushKeeps(Stamp(before, body));
      SendKeeps(Push(Stamp(before, body)));
      seqNo := seqNo + 1;
      event := Event(Some(seqNo), body);
      stamped := stamped + [event];
      Evict();
      ring := ring + [event];
      eventsIn := eventsIn + 1;
      sent := sent + 1;
      assert Stamp(before, body).stamped[before.pushed] == event;
      assert View() == Ingested(before, body);
    }

    /** Buffered events after `since`, oldest first. */
    method ReplaySince(since: nat) returns (out: seq<Event>)
      ensures out == After(ring, since)
    {
      out := [];
      for i := 0 to |ring|
        invariant out == After(ring[..i], since)
      {
        assert ring[..i + 1] == ring[..i] + [ring[i]];
        AfterAppend(ring[..i], ring[i], since);
        if SeqAbove(ring[i], since) {
          out := out + [ring[i]];
        }
      }
      assert ring[..|ring|] == ring;
    }

    /** The newest `n` buffered events, oldest first. */
    method ReplayLast(n: nat) returns (out: seq<Event>)
      ensures out == Newest(ring, n)
    {
      var start := if |ring| < n then 0 else |ring| - n;
      out := ring[start..];
    }
  }
}
