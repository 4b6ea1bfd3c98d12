/**
 The two fixed-window limiters: the probe limiter, which waits for the next window, and
 the gateway's say limiter, which drops. Clock readings are inputs that never go back.
 */
module RateLimit {
  import opened Basics

  /** A passed call: the window that let it through, its rank there, and when. */
  datatype Pass = Pass(win: int, nth: nat, at: int)

  datatype History = History(starts: seq<int>, passes: seq<Pass>)

  function Open(h: History, t: int): History { h.(starts := h.starts + [t]) }

  function Grant(h: History, nth: nat, at: int): History {
    h.(passes := h.passes + [Pass(|h.starts| - 1, nth, at)])
  }

  // ---------------------------------------------------------------------------
  // What any fixed-window limiter guarantees
  // ---------------------------------------------------------------------------

  predicate Spaced(starts: seq<int>, w: nat) {
    forall k :: 0 < k < |starts| ==> starts[k] >= starts[k - 1] + w
  }

  predicate Placed(starts: seq<int>, p: Pass, n: nat) {
    && 1 <= p.nth <= n && 0 <= p.win < |starts| && starts[p.win] <= p.at
    && (p.win + 1 < |starts| ==> p.at <= starts[p.win + 1])
  }

  predicate Follows(p: Pass, q: Pass) {
    p.at <= q.at && (if q.win == p.win then q.nth == p.nth + 1 else q.win > p.win && q.nth == 1)
  }

  predicate Ranked(passes: seq<Pass>) {
    && (passes != [] ==> passes[0].nth == 1)
    && forall i :: 0 < i < |passes| ==> Follows(passes[i - 1], passes[i])
  }

  /** The current window has let `used` calls through, or its whole allowance of `n`. */
  predicate Current(h: History, n: nat, used: nat) {
    if h.passes == [] || h.passes[|h.passes| - 1].win + 1 < |h.starts| then used == 0 || n == 0
    else h.passes[|h.passes| - 1].nth == Min(used, n)
  }

  predicate Inv(h: History, w: nat, n: nat, used: nat, clock: int) {
    && h.starts != [] && h.starts[|h.starts| - 1] <= clock && Spaced(h.starts, w)
    && (h.passes != [] ==> h.passes[|h.passes| - 1].at <= clock)
    && (forall i :: 0 <= i < |h.passes| ==> Placed(h.starts, h.passes[i], n))
    && Ranked(h.passes) && Current(h, n, used)
  }

  lemma OpenKeeps(h: History, w: nat, n: nat, used: nat, clock: int, t: int)
    requires Inv(h, w, n, used, clock) && t >= clock && t >= h.starts[|h.starts| - 1] + w
    ensures Inv(Open(h, t), w, n, 0, t)
  {
    forall i | 0 <= i < |h.passes| ensures Placed(h.starts + [t], h.passes[i], n) {
      Sorted(h.passes, i, |h.passes| - 1);
    }
  }

  lemma PassKeeps(h: History, w: nat, n: nat, used: nat, clock: int, at: int)
    requires Inv(h, w, n, used, clock) && used < n && at >= clock
    ensures Inv(Grant(h, used + 1, at), w, n, used + 1, at)
  {
  }

  lemma {:induction false} Sorted(passes: seq<Pass>, i: nat, j: nat)
    requires Ranked(passes) && i <= j < |passes|
    ensures passes[i].at <= passes[j].at && passes[i].win <= passes[j].win
    decreases j
  {
    if i < j {
      Sorted(passes, i, j - 1);
      assert Follows(passes[j - 1], passes[j]);
    }
  }

  /** Within a window ranks are consecutive, so a window lets at most `n` calls through. */
  lemma {:induction false} WindowHoldsAtMostN(h: History, w: nat, n: nat, used: nat, clock: int, i: nat, j: nat)
    requires Inv(h, w, n, used, clock) && i <= j < |h.passes| && h.passes[i].win == h.passes[j].win
    ensures h.passes[j].nth == h.passes[i].nth + (j - i) && j - i < n
    decreases j
  {
    if i < j {
      Sorted(h.passes, i, j - 1);
      Sorted(h.passes, j - 1, j);
      WindowHoldsAtMostN(h, w, n, used, clock, i, j - 1);
      assert Follows(h.passes[j - 1], h.passes[j]);
    }
    assert Placed(h.starts, h.passes[i], n) && Placed(h.starts, h.passes[j], n);
  }

  /** When a window is spent, its last `n` calls all passed in it. */
  lemma {:induction false} SpentMeansN(h: History, w: nat, n: nat, used: nat, clock: int, i: nat)
    requires Inv(h, w, n, used, clock) && i < |h.passes|
    ensures h.passes[i].nth <= i + 1 && h.passes[i + 1 - h.passes[i].nth].win == h.passes[i].win
    decreases i
  {
    if i > 0 {
      SpentMeansN(h, w, n, used, clock, i - 1);
      assert Follows(h.passes[i - 1], h.passes[i]);
    }
    assert Placed(h.starts, h.passes[i], n);
  }

  predicate Spent(h: History, n: nat) {
    |h.passes| >= n >= 1 && h.passes[|h.passes| - n].win == |h.starts| - 1
  }

  /** The count reaches the allowance exactly when the last `n` passes all belong to the current window. */
  lemma SpentIff(h: History, w: nat, n: nat, used: nat, clock: int)
    requires Inv(h, w, n, used, clock) && n >= 1
    ensures used >= n <==> Spent(h, n)
  {
    if used >= n {
      SpentMeansN(h, w, n, used, clock, |h.passes| - 1);
    } else if Spent(h, n) {
      SpentIsFull(h, w, n, used, clock);
    }
  }

  lemma SpentIsFull(h: History, w: nat, n: nat, used: nat, clock: int)
    requires Inv(h, w, n, used, clock) && Spent(h, n)
    ensures used >= n
  {
    var k := |h.passes|;
    Sorted(h.passes, k - n, k - 1);
    assert Placed(h.starts, h.passes[k - 1], n);
    WindowHoldsAtMostN(h, w, n, used, clock, k - n, k - 1);
    assert Placed(h.starts, h.passes[k - n], n);
  }

  lemma {:induction false} StartsApart(starts: seq<int>, w: nat, i: nat, j: nat)
    requires Spaced(starts, w) && i <= j < |starts|
    ensures starts[i] <= starts[j] && (i < j ==> starts[i] + w <= starts[j])
    decreases j
  {
    if i < j {
      StartsApart(starts, w, i, j - 1);
    }
  }

  lemma LaterWindow(h: History, w: nat, n: nat, used: nat, clock: int, i: nat)
    requires Inv(h, w, n, used, clock) && i + n < |h.passes|
    ensures h.passes[i].win < h.passes[i + n].win
  {
    Sorted(h.passes, i, i + n);
    if h.passes[i].win == h.passes[i + n].win {
      WindowHoldsAtMostN(h, w, n, used, clock, i, i + n);
    }
  }

  lemma TwoWindowsApart(h: History, w: nat, n: nat, used: nat, clock: int, i: nat, j: nat)
    requires Inv(h, w, n, used, clock) && i < |h.passes| && j < |h.passes|
    requires h.passes[i].win + 2 <= h.passes[j].win
    ensures h.passes[j].at >= h.passes[i].at + w
  {
    assert Placed(h.starts, h.passes[i], n) && Placed(h.starts, h.passes[j], n);
    StartsApart(h.starts, w, h.passes[i].win + 1, h.passes[j].win);
  }

  /** Any 2n + 1 passes in a row span at least one window length. */
  lemma SpanOfTwoWindows(h: History, w: nat, n: nat, used: nat, clock: int, i: nat)
    requires Inv(h, w, n, used, clock) && i + n + n < |h.passes|
    ensures h.passes[i + n + n].at >= h.passes[i].at + w
  {
    LaterWindow(h, w, n, used, clock, i);
    LaterWindow(h, w, n, used, clock, i + n);
    TwoWindowsApart(h, w, n, used, clock, i, i + n + n);
  }

  /** The calls that pass in the half-open interval of length `w` from `from`. */
  function PassedIn(h: History, from: int, w: nat): set<nat> {
    set i: nat | i < |h.passes| && from <= h.passes[i].at < from + w
  }

  lemma AtMostTwice(h: History, w: nat, n: nat, used: nat, clock: int, from: int)
    requires Inv(h, w, n, used, clock) && n >= 1
    ensures |PassedIn(h, from, w)| <= 2 * n
  {
    var hits := PassedIn(h, from, w);
    if hits != {} {
      var lo := Least(hits);
      forall i | i in hits ensures lo <= i < lo + 2 * n {
        if i >= lo + 2 * n {
          SpanOfTwoWindows(h, w, n, used, clock, lo);
          Sorted(h.passes, lo + 2 * n, i);
          assert false;
        }
      }
      RangeHolds(hits, lo, 2 * n);
    }
  }

  lemma {:induction false} Least(s: set<nat>) returns (lo: nat)
    requires s != {}
    ensures lo in s && forall i :: i in s ==> lo <= i
    decreases s
  {
    var some :| some in s;
    lo := some;
    if s != {some} {
      var rest := Least(s - {some});
      lo := if rest < some then rest else some;
      assert forall i :: i in s ==> i == some || i in s - {some};
    } else {
      assert forall i :: i in s ==> i == some;
    }
  }

  lemma {:induction false} RangeHolds(s: set<nat>, lo: nat, n: nat)
    requires forall i :: i in s ==> lo <= i < lo + n
    ensures |s| <= n
    decreases n
  {
    if n == 0 {
      assert s == {};
    } else {
      RangeHolds(s - {lo + n - 1}, lo, n - 1);
    }
  }

  // ---------------------------------------------------------------------------
  // The waiting limiter
  // ---------------------------------------------------------------------------

  const SECOND := 1000

  /**
   One call: `read` is the elapsed-time reading, `late` how much later the next clock
   reading or the sleep begins, `over` how much the sleep overruns, `rest` the delay
   until the call returns.
   */
  datatype Call = Call(read: int, late: nat, over: nat, rest: nat)

  datatype Limiter = Limiter(start: int, count: nat)

  function Waited(n: nat, l: Limiter, c: Call): Limiter {
    if n == 0 then l else
    var elapsed := c.read - l.start;
    var renewed := if elapsed >= SECOND then Limiter(c.read + c.late, 0) else l;
    if renewed.count >= n then Limiter(c.read + c.late + (SECOND - elapsed) + c.over, 1)
    else renewed.(count := renewed.count + 1)
  }

  class RateLimiter {
    const perSecond: nat
    var windowStart: int
    var count: nat

    constructor (perSecond: nat, now: int)
      ensures this.perSecond == perSecond && windowStart == now && count == 0
    {
      this.perSecond, windowStart, count := perSecond, now, 0;
    }

    /** `remaining` is a duration, so it must not be negative. */
    method Wait(c: Call)
      requires windowStart <= c.read
      modifies this
      ensures perSecond == 0 ==> unchanged(this)
      ensures Limiter(windowStart, count) == Waited(perSecond, Limiter(old(windowStart), old(count)), c)
    {
      if perSecond == 0 {
        return;
      }
      var elapsed := c.read - windowStart;
      if elapsed >= SECOND {
        windowStart := c.read + c.late;
        count := 0;
      }
      if count >= perSecond {
        var remaining: nat := SECOND - elapsed;
        windowStart := c.read + c.late + remaining + c.over;
        count := 0;
      }
      count := count + 1;
    }
  }

  datatype Waits = Waits(l: Limiter, h: History, clock: int)

  function WaitOnce(n: nat, s: Waits, c: Call): Waits {
    var l := Waited(n, s.l, c);
    var h := if l.start == s.l.start then s.h else Open(s.h, l.start);
    var at := Max(c.read, l.start) + c.rest;
    Waits(l, if n == 0 then h else Grant(h, l.count, at), at)
  }

  function WaitAll(n: nat, now: int, calls: seq<Call>): Waits {
    if calls == [] then Waits(Limiter(now, 0), History([now], []), now)
    else WaitOnce(n, WaitAll(n, now, calls[..|calls| - 1]), calls[|calls| - 1])
  }

  /** Each call starts after the one before it returned. */
  predicate InOrder(n: nat, now: int, calls: seq<Call>) {
    calls == [] ||
    var before := calls[..|calls| - 1];
    InOrder(n, now, before) && calls[|calls| - 1].read >= WaitAll(n, now, before).clock
  }

  predicate WaitInv(n: nat, s: Waits) {
    && Inv(s.h, SECOND, n, s.l.count, s.clock)
    && s.l.start == s.h.starts[|s.h.starts| - 1] && s.l.count <= n
  }

  lemma WaitKeeps(n: nat, s: Waits, c: Call)
    requires n >= 1 && WaitInv(n, s) && c.read >= s.clock
    ensures WaitInv(n, WaitOnce(n, s, c))
  {
    var l := Waited(n, s.l, c);
    var at := Max(c.read, l.start) + c.rest;
    WaitedIs(n, s.l, c);
    if l.start == s.l.start {
      PassInWindow(n, s, at);
      assert WaitOnce(n, s, c) == Waits(l, Grant(s.h, l.count, at), at);
    } else {
      OpenAndPass(n, s, l.start, at);
      assert WaitOnce(n, s, c) == Waits(l, Grant(Open(s.h, l.start), l.count, at), at);
    }
  }

  lemma PassInWindow(n: nat, s: Waits, at: int)
    requires WaitInv(n, s) && s.l.count < n && at >= s.clock
    ensures WaitInv(n, Waits(Limiter(s.l.start, s.l.count + 1), Grant(s.h, s.l.count + 1, at), at))
  {
    PassKeeps(s.h, SECOND, n, s.l.count, s.clock, at);
  }

  lemma WaitedIs(n: nat, l: Limiter, c: Call)
    requires n >= 1 && l.count <= n && c.read >= l.start
    ensures var l' := Waited(n, l, c);
            if l'.start == l.start then l'.count == l.count + 1 <= n
            else l'.count == 1 && l'.start >= l.start + SECOND && l'.start >= c.read
  {
  }

  lemma OpenAndPass(n: nat, s: Waits, start: int, at: int)
    requires n >= 1 && WaitInv(n, s) && start >= s.l.start + SECOND && at >= start >= s.clock
    ensures WaitInv(n, Waits(Limiter(start, 1), Grant(Open(s.h, start), 1, at), at))
  {
    OpenKeeps(s.h, SECOND, n, s.l.count, s.clock, start);
    PassKeeps(Open(s.h, start), SECOND, n, 0, start, at);
  }

  lemma {:induction false} WaitAllKeeps(n: nat, now: int, calls: seq<Call>)
    requires n >= 1 && InOrder(n, now, calls)
    ensures WaitInv(n, WaitAll(n, now, calls)) && |WaitAll(n, now, calls).h.passes| == |calls|
  {
    if calls != [] {
      var before := calls[..|calls| - 1];
      WaitAllKeeps(n, now, before);
      WaitKeeps(n, WaitAll(n, now, before), calls[|calls| - 1]);
    }
  }

  /** Every call passes, and no half-open second ever sees more than twice the rate. */
  lemma ProbesAreBounded(n: nat, now: int, calls: seq<Call>, from: int)
    requires n >= 1 && InOrder(n, now, calls)
    ensures |WaitAll(n, now, calls).h.passes| == |calls|
    ensures |PassedIn(WaitAll(n, now, calls).h, from, SECOND)| <= 2 * n
  {
    WaitAllKeeps(n, now, calls);
    var s := WaitAll(n, now, calls);
    AtMostTwice(s.h, SECOND, n, s.l.count, s.clock, from);
  }

  /**
   What a call does to the window: a second after its start a new one is opened at once; before
   that the call counts in it, and if it is spent waits until its second is over.
   */
  lemma CallMeans(n: nat, l: Limiter, c: Call)
    requires l.start <= c.read
    ensures Waited(n, l, c) ==
            if n == 0 then l
            else if c.read >= l.start + 1000 then Limiter(c.read + c.late, 1)
            else if l.count < n then Limiter(l.start, l.count + 1)
            else Limiter(l.start + 1000 + c.late + c.over, 1)
  {
  }

  /** A call inside the current window waits exactly when the last `n` calls all passed in it. */
  lemma WaitsOnlyWhenSpent(n: nat, now: int, calls: seq<Call>, c: Call)
    requires n >= 1 && InOrder(n, now, calls + [c])
    ensures var s := WaitAll(n, now, calls);
            var l := Waited(n, s.l, c);
            l.start != s.l.start && c.read < s.l.start + SECOND <==> Spent(s.h, n) && c.read < s.l.start + SECOND
  {
    assert (calls + [c])[..|calls|] == calls;
    WaitAllKeeps(n, now, calls);
    var s := WaitAll(n, now, calls);
    SpentIff(s.h, SECOND, n, s.l.count, s.clock);
  }

  // ---------------------------------------------------------------------------
  // The dropping limiter
  // ---------------------------------------------------------------------------

  const MINUTE := 60000

  datatype Say = Say(read: int, late: nat, rest: nat)

  function Counted(l: Limiter, f: Say): Limiter {
    if f.read - l.start >= MINUTE then Limiter(f.read + f.late, 1) else l.(count := l.count + 1)
  }

  class SayLimiter {
    const allowance: nat
    var window: int
    var used: nat

    constructor (allowance: nat, now: int)
      ensures this.allowance == allowance && window == now && used == 0
    {
      this.allowance, window, used := allowance, now, 0;
    }

    /** Whether a say frame is relayed; `warn` marks the first one a window drops. */
    method Admit(f: Say) returns (relayed: bool, warn: bool)
      modifies this
      ensures Limiter(window, used) == Counted(Limiter(old(window), old(used)), f)
      ensures relayed <==> used <= allowance
      ensures warn <==> used == allowance + 1
    {
      if f.read - window >= MINUTE {
        window := f.read + f.late;
        used := 0;
      }
      used := used + 1;
      relayed, warn := used <= allowance, used == allowance + 1;
    }
  }

  /** A frame counts in its window, or is the first of a new one from a minute after the start on. */
  lemma FrameMeans(l: Limiter, f: Say)
    ensures Counted(l, f) ==
            if f.read < l.start + 60000 then Limiter(l.start, l.count + 1) else Limiter(f.read + f.late, 1)
  {
  }

  function Count(h: History, n: nat, nth: nat, at: int): History { if nth <= n then Grant(h, nth, at) else h }

  function SayOnce(n: nat, s: Waits, f: Say): Waits {
    var l := Counted(s.l, f);
    var h := if f.read - s.l.start >= MINUTE then Open(s.h, l.start) else s.h;
    var at := Max(f.read, l.start) + f.rest;
    Waits(l, Count(h, n, l.count, at), at)
  }

  function SayAll(n: nat, now: int, frames: seq<Say>): Waits {
    if frames == [] then Waits(Limiter(now, 0), History([now], []), now)
    else SayOnce(n, SayAll(n, now, frames[..|frames| - 1]), frames[|frames| - 1])
  }

  predicate SaysInOrder(n: nat, now: int, frames: seq<Say>) {
    frames == [] ||
    var before := frames[..|frames| - 1];
    SaysInOrder(n, now, before) && frames[|frames| - 1].read >= SayAll(n, now, before).clock
  }

  predicate SayInv(n: nat, s: Waits) {
    Inv(s.h, MINUTE, n, s.l.count, s.clock) && s.l.start == s.h.starts[|s.h.starts| - 1]
  }

  lemma LaterKeeps(h: History, w: nat, n: nat, used: nat, used': nat, clock: int, later: int)
    requires Inv(h, w, n, used, clock) && later >= clock && n <= used <= used'
    ensures Inv(h, w, n, used', later)
  {
  }

  lemma SayKeeps(n: nat, s: Waits, f: Say)
    requires SayInv(n, s) && f.read >= s.clock
    ensures SayInv(n, SayOnce(n, s, f))
  {
    var l := Counted(s.l, f);
    var at := Max(f.read, l.start) + f.rest;
    if f.read - s.l.start >= MINUTE {
      OpenAndCount(n, s, l.start, at);
      assert SayOnce(n, s, f) == Waits(l, Count(Open(s.h, l.start), n, 1, at), at);
    } else {
      CountInWindow(n, s, at);
      assert SayOnce(n, s, f) == Waits(l, Count(s.h, n, l.count, at), at);
    }
  }

  lemma OpenAndCount(n: nat, s: Waits, start: int, at: int)
    requires SayInv(n, s) && start >= s.l.start + MINUTE && at >= start >= s.clock
    ensures SayInv(n, Waits(Limiter(start, 1), Count(Open(s.h, start), n, 1, at), at))
  {
    OpenKeeps(s.h, MINUTE, n, s.l.count, s.clock, start);
    CountKeeps(Open(s.h, start), n, 0, start, at);
  }

  lemma CountInWindow(n: nat, s: Waits, at: int)
    requires SayInv(n, s) && at >= s.clock
    ensures SayInv(n, Waits(Limiter(s.l.start, s.l.count + 1), Count(s.h, n, s.l.count + 1, at), at))
  {
    CountKeeps(s.h, n, s.l.count, s.clock, at);
  }

  lemma CountKeeps(h: History, n: nat, used: nat, clock: int, at: int)
    requires Inv(h, MINUTE, n, used, clock) && at >= clock
    ensures Inv(Count(h, n, used + 1, at), MINUTE, n, used + 1, at)
  {
    if used + 1 <= n {
      PassKeeps(h, MINUTE, n, used, clock, at);
    } else {
      LaterKeeps(h, MINUTE, n, used, used + 1, clock, at);
    }
  }

  lemma {:induction false} SayAllKeeps(n: nat, now: int, frames: seq<Say>)
    requires SaysInOrder(n, now, frames)
    ensures SayInv(n, SayAll(n, now, frames))
  {
    if frames != [] {
      var before := frames[..|frames| - 1];
      SayAllKeeps(n, now, before);
      SayKeeps(n, SayAll(n, now, before), frames[|frames| - 1]);
    }
  }

  /** No half-open minute relays more than twice the allowance, and an allowance of 0 relays nothing. */
  lemma SaysAreBounded(n: nat, now: int, frames: seq<Say>, from: int)
    requires SaysInOrder(n, now, frames)
    ensures |PassedIn(SayAll(n, now, frames).h, from, MINUTE)| <= 2 * n
  {
    SayAllKeeps(n, now, frames);
    var s := SayAll(n, now, frames);
    if n >= 1 {
      AtMostTwice(s.h, MINUTE, n, s.l.count, s.clock, from);
    } else {
      PassingNeedsAllowance(s.h, MINUTE, n, s.l.count, s.clock);
      assert PassedIn(s.h, from, MINUTE) == {};
    }
  }

  lemma PassingNeedsAllowance(h: History, w: nat, n: nat, used: nat, clock: int)
    requires Inv(h, w, n, used, clock)
    ensures h.passes == [] || n >= 1
  {
    if h.passes != [] {
      assert Placed(h.starts, h.passes[0], n);
    }
  }

  /** A frame is dropped exactly when the last `n` relayed ones all belong to the minute it falls in. */
  lemma DropsOnlyWhenSpent(n: nat, now: int, frames: seq<Say>, f: Say)
    requires n >= 1 && SaysInOrder(n, now, frames + [f])
    ensures var s := SayAll(n, now, frames);
            SayOnce(n, s, f).h.passes == s.h.passes <==> f.read < s.l.start + MINUTE && Spent(s.h, n)
  {
    assert (frames + [f])[..|frames|] == frames;
    SayAllKeeps(n, now, frames);
    var s := SayAll(n, now, frames);
    SpentIff(s.h, MINUTE, n, s.l.count, s.clock);
    var h := if f.read - s.l.start >= MINUTE then Open(s.h, Counted(s.l, f).start) else s.h;
    assert h.passes == s.h.passes;
  }
}
