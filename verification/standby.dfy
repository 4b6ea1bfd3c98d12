/**
 Hot standby: a primary and a standby logger that share nothing but a heartbeat table.
 Time is one clock in any unit; a run is any interleaving of the two loops, of
 connections and cuts, of failed statements, of crashes, shutdowns and starts.
 */
module Standby {
  import opened Basics

  // ---------------------------------------------------------------------------
  // Settings
  // ---------------------------------------------------------------------------

  /** Panics (None) when the bounds are reversed. */
  function Clamp(x: int, lo: int, hi: int): Option<int> {
    if lo > hi then None else Some(Max(lo, Min(x, hi)))
  }

  function TakeoverSecs(configured: Option<nat>): int {
    Max(if configured.Some? then configured.value else 45, 15)
  }

  function HeartbeatSecs(configured: Option<nat>, takeover: int): Option<int>
    requires takeover >= 0
  {
    Clamp(if configured.Some? then configured.value else 15, 5, takeover / 2)
  }

  /** Whatever is configured, the clamp is well formed and half the takeover is left for delay. */
  lemma SettingsLeaveRoom(takeoverEnv: Option<nat>, intervalEnv: Option<nat>)
    ensures var takeover := TakeoverSecs(takeoverEnv);
            var interval := HeartbeatSecs(intervalEnv, takeover);
            interval.Some? && 5 <= interval.value && 2 * interval.value <= takeover
  {
    var takeover := TakeoverSecs(takeoverEnv);
    assert takeover / 2 >= 7;
  }

  /** Settings within the bounds are taken as they are; the others meet the nearest bound. */
  lemma SettingsAreHonoured(takeoverEnv: Option<nat>, intervalEnv: Option<nat>)
    ensures var takeover := TakeoverSecs(takeoverEnv);
            && takeover == (match takeoverEnv case None => 45 case Some(t) => if t < 15 then 15 else t)
            && HeartbeatSecs(intervalEnv, takeover) ==
                 match intervalEnv
                 case None => Some(if 15 > takeover / 2 then takeover / 2 else 15)
                 case Some(i) => Some(if i < 5 then 5 else if i > takeover / 2 then takeover / 2 else i)
  {
  }

  /**
   Seconds between heartbeats, and how long an iteration may run from when it could
   start until its last statement is done.
   */
  datatype Config = Config(takeover: int, pInterval: int, pDelay: int, sInterval: int, sDelay: int)

  predicate Fits(c: Config) {
    && c.pInterval > 0 && c.pDelay >= 0 && c.sInterval > 0 && c.sDelay >= 0
    && c.pInterval + c.pDelay < c.takeover
  }

  // ---------------------------------------------------------------------------
  // A ticking loop
  // ---------------------------------------------------------------------------

  /**
   `due` is the next tick, which a late loop takes at once; `at` the snapshot of the
   iteration under way, `last` and `done` the snapshot and end of the one before, and
   `by` when the present iteration, or the one waited for, must be over.
   */
  datatype Loop = Loop(due: int, at: Option<int>, last: int, done: int, limit: int)

  function NewLoop(now: int, delay: int): Loop { Loop(now, None, now, now, now + delay) }

  predicate CanBegin(l: Loop, now: int) { l.at.None? && now >= l.due }

  function Begin(l: Loop, now: int, interval: int): Loop { l.(at := Some(now), due := l.due + interval) }

  function Finish(l: Loop, now: int, delay: int): Loop
    requires l.at.Some?
  {
    Loop(l.due, None, l.at.value, now, Max(l.due, now) + delay)
  }

  function Gap(interval: int, delay: int): int { Max(interval, delay) + delay }

  predicate LoopInv(l: Loop, now: int, interval: int, delay: int) {
    && l.last <= l.done <= now <= l.limit
    && l.limit <= l.last + Gap(interval, delay) && l.limit <= l.done + interval + delay
    && match l.at
       case None => l.limit == Max(l.due, l.done) + delay
       case Some(at) => l.done <= at <= now && l.limit <= at + delay && l.due <= at + interval
  }

  lemma LoopSteps(l: Loop, now: int, interval: int, delay: int)
    requires LoopInv(l, now, interval, delay) && interval > 0 && delay >= 0
    ensures CanBegin(l, now) ==> LoopInv(Begin(l, now, interval), now, interval, delay)
    ensures l.at.Some? ==> LoopInv(Finish(l, now, delay), now, interval, delay)
    ensures LoopInv(NewLoop(now, delay), now, interval, delay)
  {
  }

  // ---------------------------------------------------------------------------
  // The two processes and the table
  // ---------------------------------------------------------------------------

  datatype Beat = Beat(connected: bool, at: int)

  /** Strictly younger than the takeover time, and connected. */
  predicate IsLive(c: Config, row: Option<Beat>, now: int) {
    row.Some? && row.value.connected && row.value.at > now - c.takeover
  }

  /** A definite answer decides; a failed check keeps the gate. */
  function GateAfter(gate: bool, connected: bool, live: Option<bool>): bool {
    match live
    case None => gate
    case Some(live) => connected && !live
  }

  datatype Phase = Waiting | Asking | Answered(live: Option<bool>) | Stored

  /**
   `p` is the primary's loop while it runs. `pSince` is when its condition last changed
   (connected, cut, crashed, started, heartbeat failed), `sSince` when the standby's
   connection did, `sFail` when the standby's check last failed.
   */
  datatype World = World(now: int, row: Option<Beat>,
                         p: Option<Loop>, pConn: bool, pSnap: bool, pSince: int,
                         s: Loop, phase: Phase, sConn: bool, sSnap: bool, gate: bool, sSince: int, sFail: int)

  datatype Action =
    | Advance(to: int)
    | PStart | PConnect | PCut | PTick | PCommit | PFail | PCrash | PShutdown
    | SConnect | SCut | STick | SQuery | SQueryFails | SStore | SDone

  function Start(c: Config, now: int): World {
    World(now, None, None, false, false, now, NewLoop(now, c.sDelay), Waiting, false, false, false, now, now)
  }

  predicate Enabled(c: Config, w: World, a: Action) {
    match a
    case Advance(to) => w.now <= to <= w.s.limit && (w.p.Some? ==> to <= w.p.value.limit)
    case PStart => w.p.None?
    case PConnect => w.p.Some? && !w.pConn
    case PCut => w.p.Some? && w.pConn
    case PTick => w.p.Some? && CanBegin(w.p.value, w.now)
    case PCommit => w.p.Some? && w.p.value.at.Some?
    case PFail => w.p.Some? && w.p.value.at.Some?
    case PCrash => w.p.Some?
    case PShutdown => w.p.Some?
    case SConnect => !w.sConn
    case SCut => w.sConn
    case STick => w.phase.Waiting? && CanBegin(w.s, w.now)
    case SQuery => w.phase.Asking?
    case SQueryFails => w.phase.Asking?
    case SStore => w.phase.Answered?
    case SDone => w.phase.Stored? && w.s.at.Some?
  }

  /** A clean shutdown and a start mark the primary's row as gone. */
  function Cleared(row: Option<Beat>, now: int): Option<Beat> {
    if row.Some? then Some(Beat(false, now)) else None
  }

  function Apply(c: Config, w: World, a: Action): World
    requires Enabled(c, w, a)
  {
    match a
    case Advance(to) => w.(now := to)
    case PStart =>
      w.(p := Some(NewLoop(w.now, c.pDelay)), pConn := false, pSince := w.now, row := Cleared(w.row, w.now))
    case PConnect => w.(pConn := true, pSince := w.now)
    case PCut => w.(pConn := false, pSince := w.now)
    case PTick => w.(p := Some(Begin(w.p.value, w.now, c.pInterval)), pSnap := w.pConn)
    case PCommit => w.(p := Some(Finish(w.p.value, w.now, c.pDelay)), row := Some(Beat(w.pSnap, w.now)))
    case PFail => w.(p := Some(Finish(w.p.value, w.now, c.pDelay)), pSince := w.now)
    case PCrash => w.(p := None, pConn := false, pSince := w.now)
    case PShutdown => w.(p := None, pConn := false, pSince := w.now, row := Cleared(w.row, w.now))
    case SConnect => w.(sConn := true, sSince := w.now)
    case SCut => w.(sConn := false, sSince := w.now)
    case STick => w.(s := Begin(w.s, w.now, c.sInterval), phase := Asking, sSnap := w.sConn)
    case SQuery => w.(phase := Answered(Some(IsLive(c, w.row, w.now))))
    case SQueryFails => w.(phase := Answered(None), sFail := w.now)
    case SStore => w.(phase := Stored, gate := GateAfter(w.gate, w.sSnap, w.phase.live))
    case SDone => w.(s := Finish(w.s, w.now, c.sDelay), phase := Waiting)
  }

  predicate CanRun(c: Config, start: int, actions: seq<Action>)
    decreases |actions|, 0
  {
    actions == [] ||
    var n := |actions| - 1;
    CanRun(c, start, actions[..n]) && Enabled(c, Run(c, start, actions[..n]), actions[n])
  }

  function Run(c: Config, start: int, actions: seq<Action>): World
    requires CanRun(c, start, actions)
    decreases |actions|, 1
  {
    if actions == [] then Start(c, start) else
    var n := |actions| - 1;
    Apply(c, Run(c, start, actions[..n]), actions[n])
  }

  // ---------------------------------------------------------------------------
  // What holds in every run
  // ---------------------------------------------------------------------------

  /** The primary is up and in the game. */
  predicate PrimaryUp(w: World) { w.p.Some? && w.pConn }

  /** How long the table may still tell of the primary's condition before it changed. */
  function Lag(c: Config, w: World): int {
    if w.p.Some? then Gap(c.pInterval, c.pDelay)
    else if w.row.Some? && w.row.value.connected then c.takeover
    else 0
  }

  /** From here on the table tells the truth about the primary. */
  function TrueFrom(c: Config, w: World): int { w.pSince + Lag(c, w) }

  predicate PrimaryInv(c: Config, w: World) {
    && w.pSince <= w.now && (w.row.Some? ==> w.row.value.at <= w.now)
    && match w.p
       case None => !w.pConn && (w.row.Some? ==> w.row.value.at <= w.pSince)
       case Some(l) =>
         && LoopInv(l, w.now, c.pInterval, c.pDelay)
         && (l.at.Some? && l.at.value > w.pSince ==> w.pSnap == w.pConn)
         && (l.last > w.pSince ==> w.row == Some(Beat(w.pConn, l.done)))
  }

  /** An iteration whose snapshot is younger than every change it depends on leaves the right gate. */
  predicate GateRight(c: Config, w: World, snapshot: int) {
    snapshot > TrueFrom(c, w) && snapshot > w.sFail ==>
      && (PrimaryUp(w) ==> !w.gate)
      && (snapshot > w.sSince ==> w.gate == (w.sConn && !PrimaryUp(w)))
  }

  predicate StandbyInv(c: Config, w: World) {
    && LoopInv(w.s, w.now, c.sInterval, c.sDelay) && w.sSince <= w.now && w.sFail <= w.now
    && (w.phase.Waiting? <==> w.s.at.None?)
    && GateRight(c, w, w.s.last)
    && (w.s.at.Some? ==>
          && (w.s.at.value > w.sSince ==> w.sSnap == w.sConn)
          && (w.phase.Stored? ==> GateRight(c, w, w.s.at.value))
          && (w.phase.Answered? && w.s.at.value > TrueFrom(c, w) && w.s.at.value > w.sFail ==>
                w.phase.live == Some(PrimaryUp(w))))
  }

  predicate IsPrimaryStep(a: Action) {
    a.PStart? || a.PConnect? || a.PCut? || a.PTick? || a.PCommit? || a.PFail? || a.PCrash? || a.PShutdown?
  }

  /** The table's answer at any moment late enough. */
  lemma TableIsTrue(c: Config, w: World)
    requires Fits(c) && PrimaryInv(c, w) && w.now > TrueFrom(c, w)
    ensures IsLive(c, w.row, w.now) <==> PrimaryUp(w)
  {
  }

  /** The primary's own turns, and time passing. */
  lemma HeartbeatKeeps(c: Config, w: World, a: Action)
    requires Fits(c) && PrimaryInv(c, w) && Enabled(c, w, a) && (a.Advance? || a.PTick? || a.PCommit? || a.PFail?)
    ensures PrimaryInv(c, Apply(c, w, a))
  {
    if w.p.Some? {
      LoopSteps(w.p.value, w.now, c.pInterval, c.pDelay);
    }
  }

  /** The primary starting, connecting, losing its connection or going away. */
  lemma ChangeKeeps(c: Config, w: World, a: Action)
    requires Fits(c) && PrimaryInv(c, w) && Enabled(c, w, a) && IsPrimaryStep(a)
    requires !a.PTick? && !a.PCommit? && !a.PFail?
    ensures PrimaryInv(c, Apply(c, w, a))
  {
    LoopSteps(NewLoop(w.now, c.pDelay), w.now, c.pInterval, c.pDelay);
  }

  lemma StandbyLeavesPrimary(c: Config, w: World, a: Action)
    requires Enabled(c, w, a) && !a.Advance? && !IsPrimaryStep(a)
    ensures PrimaryInv(c, w) ==> PrimaryInv(c, Apply(c, w, a))
  {
  }

  lemma PrimaryKeeps(c: Config, w: World, a: Action)
    requires Fits(c) && PrimaryInv(c, w) && Enabled(c, w, a)
    ensures PrimaryInv(c, Apply(c, w, a))
  {
    if a.Advance? || a.PTick? || a.PCommit? || a.PFail? {
      HeartbeatKeeps(c, w, a);
    } else if IsPrimaryStep(a) {
      ChangeKeeps(c, w, a);
    } else {
      StandbyLeavesPrimary(c, w, a);
    }
  }

  /** A step of the primary leaves its condition as it was or dates the change to now. */
  lemma TrueFromNow(c: Config, w: World)
    requires Fits(c)
    ensures w.pSince <= TrueFrom(c, w)
  {
  }

  lemma PrimaryMoves(c: Config, w: World, a: Action)
    requires Enabled(c, w, a) && IsPrimaryStep(a)
    ensures var w' := Apply(c, w, a);
            w'.pSince == w.now || (TrueFrom(c, w') == TrueFrom(c, w) && PrimaryUp(w') == PrimaryUp(w))
  {
  }

  predicate SameStandby(w: World, w': World) {
    w' == w.(row := w'.row, p := w'.p, pConn := w'.pConn, pSnap := w'.pSnap, pSince := w'.pSince)
  }

  lemma StandbyUnmoved(c: Config, w: World, w': World)
    requires Fits(c) && StandbyInv(c, w) && SameStandby(w, w')
    requires w'.pSince == w.now || (TrueFrom(c, w') == TrueFrom(c, w) && PrimaryUp(w') == PrimaryUp(w))
    ensures StandbyInv(c, w')
  {
    TrueFromNow(c, w');
  }

  lemma TurnKeeps(c: Config, w: World, a: Action)
    requires Fits(c) && StandbyInv(c, w) && Enabled(c, w, a)
    requires a.Advance? || a.STick? || a.SDone? || a.SConnect? || a.SCut?
    ensures StandbyInv(c, Apply(c, w, a))
  {
    LoopSteps(w.s, w.now, c.sInterval, c.sDelay);
  }

  lemma QueryKeeps(c: Config, w: World, a: Action)
    requires Fits(c) && PrimaryInv(c, w) && StandbyInv(c, w) && Enabled(c, w, a)
    requires a.SQuery? || a.SQueryFails?
    ensures StandbyInv(c, Apply(c, w, a))
  {
    if w.now > TrueFrom(c, w) {
      TableIsTrue(c, w);
    }
  }

  lemma StoreKeeps(c: Config, w: World)
    requires Fits(c) && StandbyInv(c, w) && Enabled(c, w, SStore)
    ensures StandbyInv(c, Apply(c, w, SStore))
  {
  }

  lemma PrimaryLeavesStandby(c: Config, w: World, a: Action)
    requires Fits(c) && StandbyInv(c, w) && Enabled(c, w, a) && IsPrimaryStep(a)
    ensures StandbyInv(c, Apply(c, w, a))
  {
    PrimaryMoves(c, w, a);
    StandbyUnmoved(c, w, Apply(c, w, a));
  }

  lemma StandbyKeeps(c: Config, w: World, a: Action)
    requires Fits(c) && PrimaryInv(c, w) && StandbyInv(c, w) && Enabled(c, w, a)
    ensures StandbyInv(c, Apply(c, w, a))
  {
    if IsPrimaryStep(a) {
      PrimaryLeavesStandby(c, w, a);
    } else if a.SQuery? || a.SQueryFails? {
      QueryKeeps(c, w, a);
    } else if a.SStore? {
      StoreKeeps(c, w);
    } else {
      TurnKeeps(c, w, a);
    }
  }

  lemma {:induction false} RunKeeps(c: Config, start: int, actions: seq<Action>)
    requires Fits(c) && CanRun(c, start, actions)
    ensures PrimaryInv(c, Run(c, start, actions)) && StandbyInv(c, Run(c, start, actions))
    decreases |actions|
  {
    if actions != [] {
      var n := |actions| - 1;
      RunKeeps(c, start, actions[..n]);
      PrimaryKeeps(c, Run(c, start, actions[..n]), actions[n]);
      StandbyKeeps(c, Run(c, start, actions[..n]), actions[n]);
    }
  }

  /**
   In every run the table is right about the primary once its last change is older than
   the lag; so a connected, heartbeating primary is never judged stale.
   */
  lemma NeverJudgedStale(c: Config, start: int, actions: seq<Action>)
    requires Fits(c) && CanRun(c, start, actions)
    ensures var w := Run(c, start, actions);
            w.now > TrueFrom(c, w) ==> (IsLive(c, w.row, w.now) <==> PrimaryUp(w))
  {
    RunKeeps(c, start, actions);
    var w := Run(c, start, actions);
    if w.now > TrueFrom(c, w) {
      TableIsTrue(c, w);
    }
  }

  /** A run's table is right about the primary wherever it is old enough to be. */
  ghost predicate RightWhenLate(c: Config, start: int, actions: seq<Action>)
    requires CanRun(c, start, actions)
  {
    var w := Run(c, start, actions);
    w.now > TrueFrom(c, w) ==> (IsLive(c, w.row, w.now) <==> PrimaryUp(w))
  }

  /** Settings with this primary, whatever the standby's are. */
  predicate Primaries(c: Config, takeover: int, interval: int, delay: int) {
    && c.takeover == takeover && c.pInterval == interval && c.pDelay == delay
    && c.sInterval > 0 && c.sDelay >= 0
  }

  lemma RunAppend(c: Config, start: int, actions: seq<Action>, a: Action)
    requires CanRun(c, start, actions) && Enabled(c, Run(c, start, actions), a)
    ensures CanRun(c, start, actions + [a])
    ensures Run(c, start, actions + [a]) == Apply(c, Run(c, start, actions), a)
  {
    assert (actions + [a])[..|actions|] == actions;
  }

  /** A connected primary that has just written its heartbeat, on time, at `t`. */
  predicate Beating(c: Config, w: World, t: int) {
    && w.now == t && w.pConn && w.pSince == 0 && w.row == Some(Beat(true, t))
    && w.p == Some(Loop(t + c.pInterval, None, t, t, t + c.pInterval + c.pDelay)) && w.s == NewLoop(0, c.sDelay)
  }

  lemma FirstBeat(c: Config) returns (actions: seq<Action>)
    requires c.pInterval > 0 && c.pDelay >= 0
    ensures CanRun(c, 0, actions) && Beating(c, Run(c, 0, actions), 0)
  {
    actions := [];
    RunAppend(c, 0, [], PStart);
    RunAppend(c, 0, [] + [PStart], PConnect);
    RunAppend(c, 0, [] + [PStart] + [PConnect], PTick);
    RunAppend(c, 0, [] + [PStart] + [PConnect] + [PTick], PCommit);
    actions := [] + [PStart] + [PConnect] + [PTick] + [PCommit];
  }

  lemma NextBeat(c: Config, actions: seq<Action>, t: int) returns (longer: seq<Action>)
    requires c.pInterval > 0 && c.pDelay >= 0 && 0 <= t && t + c.pInterval <= c.sDelay
    requires CanRun(c, 0, actions) && Beating(c, Run(c, 0, actions), t)
    ensures CanRun(c, 0, longer) && Beating(c, Run(c, 0, longer), t + c.pInterval)
  {
    RunAppend(c, 0, actions, Advance(t + c.pInterval));
    RunAppend(c, 0, actions + [Advance(t + c.pInterval)], PTick);
    RunAppend(c, 0, actions + [Advance(t + c.pInterval)] + [PTick], PCommit);
    longer := actions + [Advance(t + c.pInterval)] + [PTick] + [PCommit];
  }

  /** The time after `k` intervals. */
  function Ticks(k: nat, interval: int): int { if k == 0 then 0 else Ticks(k - 1, interval) + interval }

  lemma {:induction false} TicksGrow(k: nat, interval: int)
    requires interval > 0
    ensures Ticks(k, interval) >= k
  {
    if k > 0 {
      TicksGrow(k - 1, interval);
    }
  }

  lemma {:induction false} Beats(c: Config, k: nat) returns (actions: seq<Action>)
    requires c.pInterval > 0 && c.pDelay >= 0 && Ticks(k, c.pInterval) <= c.sDelay
    ensures CanRun(c, 0, actions) && Beating(c, Run(c, 0, actions), Ticks(k, c.pInterval))
  {
    if k == 0 {
      actions := FirstBeat(c);
    } else {
      TicksGrow(k - 1, c.pInterval);
      var before := Beats(c, k - 1);
      actions := NextBeat(c, before, Ticks(k - 1, c.pInterval));
    }
  }

  /** Without the room, a heartbeating connected primary is judged stale between two heartbeats. */
  lemma StaleWithoutRoom(takeover: int, interval: int, delay: int) returns (c: Config, actions: seq<Action>)
    requires takeover >= 0 && interval > 0 && delay >= 0 && interval + delay >= takeover
    ensures Primaries(c, takeover, interval, delay) && CanRun(c, 0, actions) && !RightWhenLate(c, 0, actions)
  {
    var k: nat := 2 * delay + interval + 1;
    var t := Ticks(k, interval);
    TicksGrow(k, interval);
    c := Config(takeover, interval, delay, 1, t + takeover);
    var beats := Beats(c, k);
    RunAppend(c, 0, beats, Advance(t + takeover));
    actions := beats + [Advance(t + takeover)];
  }

  /**
   The answer is right in every run, with every standby, if and only if an interval and a delay
   of the primary together stay below the takeover time.
   */
  lemma JudgedRightIff(takeover: int, interval: int, delay: int)
    requires takeover >= 0 && interval > 0 && delay >= 0
    ensures (forall c, start, actions ::
               Primaries(c, takeover, interval, delay) && CanRun(c, start, actions) ==>
                 RightWhenLate(c, start, actions))
            <==> interval + delay < takeover
  {
    if interval + delay < takeover {
      forall c, start, actions | Primaries(c, takeover, interval, delay) && CanRun(c, start, actions)
        ensures RightWhenLate(c, start, actions)
      {
        NeverJudgedStale(c, start, actions);
      }
    } else {
      var c, actions := StaleWithoutRoom(takeover, interval, delay);
    }
  }

  /** In every run the standby soon logs exactly when it is connected and the primary is not. */
  lemma GateConverges(c: Config, start: int, actions: seq<Action>)
    requires Fits(c) && CanRun(c, start, actions)
    ensures var w := Run(c, start, actions);
            w.now > Max(TrueFrom(c, w), Max(w.sFail, w.sSince)) + Gap(c.sInterval, c.sDelay) ==>
              w.gate == (w.sConn && !PrimaryUp(w))
  {
    RunKeeps(c, start, actions);
  }

  /** A primary that crashed is replaced within the takeover time and one standby turn. */
  lemma DeadPrimaryIsReplaced(c: Config, start: int, actions: seq<Action>)
    requires Fits(c) && CanRun(c, start, actions)
    requires var w := Run(c, start, actions); w.p.None? && w.sConn
    ensures var w := Run(c, start, actions);
            w.now > Max(w.pSince + c.takeover, Max(w.sFail, w.sSince)) + Gap(c.sInterval, c.sDelay) ==> w.gate
  {
    RunKeeps(c, start, actions);
  }

  /** Both log for at most one primary turn and one standby turn after the primary is back. */
  lemma BothLogBriefly(c: Config, start: int, actions: seq<Action>)
    requires Fits(c) && CanRun(c, start, actions)
    requires var w := Run(c, start, actions); PrimaryUp(w) && w.gate
    ensures var w := Run(c, start, actions);
            w.now <= Max(w.pSince + Gap(c.pInterval, c.pDelay), w.sFail) + Gap(c.sInterval, c.sDelay)
  {
    RunKeeps(c, start, actions);
  }

  predicate HasVerdict(w: World) { w.phase.Answered? && w.phase.live.Some? }

  lemma NoVerdictNoFlip(c: Config, w: World, a: Action)
    requires Enabled(c, w, a) && !HasVerdict(w) && !a.SQuery?
    ensures Apply(c, w, a).gate == w.gate && !HasVerdict(Apply(c, w, a))
  {
  }

  /** However many checks fail, the gate stays as it was until one is answered. */
  lemma {:induction false} FailuresKeepGate(c: Config, start: int, actions: seq<Action>, n: nat)
    requires CanRun(c, start, actions) && n <= |actions| && CanRun(c, start, actions[..n])
    requires !HasVerdict(Run(c, start, actions[..n]))
    requires forall i :: n <= i < |actions| ==> !actions[i].SQuery?
    ensures Run(c, start, actions).gate == Run(c, start, actions[..n]).gate
    ensures !HasVerdict(Run(c, start, actions))
    decreases |actions|
  {
    var m := |actions| - 1;
    if n == |actions| {
      assert actions[..n] == actions;
    } else {
      assert actions[..m][..n] == actions[..n];
      FailuresKeepGate(c, start, actions[..m], n);
      NoVerdictNoFlip(c, Run(c, start, actions[..m]), actions[m]);
    }
  }

  /** With delays no longer than an interval, a turn is one interval and one delay. */
  lemma TurnIsOneInterval(interval: int, delay: int)
    requires 0 <= delay <= interval
    ensures Gap(interval, delay) == interval + delay
  {
  }

  /** So the overlap after the primary is back is the sum of the two intervals and the two delays. */
  lemma OverlapIsTwoIntervals(c: Config, start: int, actions: seq<Action>)
    requires Fits(c) && c.pDelay <= c.pInterval && c.sDelay <= c.sInterval && CanRun(c, start, actions)
    requires var w := Run(c, start, actions); PrimaryUp(w) && w.gate && w.sFail <= w.pSince
    ensures var w := Run(c, start, actions);
            w.now <= w.pSince + c.pInterval + c.sInterval + c.pDelay + c.sDelay
  {
    BothLogBriefly(c, start, actions);
    TurnIsOneInterval(c.pInterval, c.pDelay);
    TurnIsOneInterval(c.sInterval, c.sDelay);
  }

  // ---------------------------------------------------------------------------
  // What the rows and the gate are made of
  // ---------------------------------------------------------------------------

  lemma {:induction false} PrefixRuns(c: Config, start: int, actions: seq<Action>, n: nat)
    requires CanRun(c, start, actions) && n <= |actions|
    ensures CanRun(c, start, actions[..n])
    decreases |actions|
  {
    if n == |actions| {
      assert actions[..n] == actions;
    } else {
      PrefixRuns(c, start, actions[..|actions| - 1], n);
      assert actions[..|actions| - 1][..n] == actions[..n];
    }
  }

  /** The world before action `n`. */
  function Upto(c: Config, start: int, actions: seq<Action>, n: nat): World
    requires CanRun(c, start, actions) && n <= |actions|
  {
    PrefixRuns(c, start, actions, n);
    Run(c, start, actions[..n])
  }

  lemma UptoStep(c: Config, start: int, actions: seq<Action>, n: nat)
    requires CanRun(c, start, actions) && n < |actions|
    ensures Enabled(c, Upto(c, start, actions, n), actions[n])
    ensures Upto(c, start, actions, n + 1) == Apply(c, Upto(c, start, actions, n), actions[n])
  {
    PrefixRuns(c, start, actions, n + 1);
    assert actions[..n + 1][..n] == actions[..n];
  }

  lemma {:induction false} PrimarySnapshotHolds(c: Config, start: int, actions: seq<Action>, j: nat, n: nat)
    requires CanRun(c, start, actions) && j < n <= |actions| && actions[j].PTick?
    requires forall i :: j < i < n ==> !actions[i].PTick?
    ensures Upto(c, start, actions, n).pSnap == Upto(c, start, actions, j).pConn
    decreases n
  {
    UptoStep(c, start, actions, n - 1);
    if n - 1 > j {
      PrimarySnapshotHolds(c, start, actions, j, n - 1);
    }
  }

  /** A heartbeat row tells of the connection as it was when the turn began, and is dated by its commit. */
  lemma BeatIsSnapshot(c: Config, start: int, actions: seq<Action>, j: nat, k: nat)
    requires CanRun(c, start, actions) && j < k < |actions| && actions[j].PTick? && actions[k].PCommit?
    requires forall i :: j < i < k ==> !actions[i].PTick?
    ensures Upto(c, start, actions, k + 1).row
         == Some(Beat(Upto(c, start, actions, j).pConn, Upto(c, start, actions, k).now))
  {
    PrimarySnapshotHolds(c, start, actions, j, k);
    UptoStep(c, start, actions, k);
  }

  predicate OwnTurn(a: Action) { a.STick? || a.SQuery? || a.SQueryFails? || a.SStore? || a.SDone? }

  lemma {:induction false} StandbyHolds(c: Config, start: int, actions: seq<Action>, j: nat, n: nat)
    requires CanRun(c, start, actions) && j < n <= |actions|
    requires forall i :: j < i < n ==> !OwnTurn(actions[i])
    ensures var w, w' := Upto(c, start, actions, j + 1), Upto(c, start, actions, n);
            w'.phase == w.phase && w'.sSnap == w.sSnap && w'.gate == w.gate
    decreases n
  {
    if n - 1 > j {
      StandbyHolds(c, start, actions, j, n - 1);
      UptoStep(c, start, actions, n - 1);
    }
  }

  /** The turn that begins at `j`, asks at `m` and stores at `k`. */
  predicate IsTurn(actions: seq<Action>, j: nat, m: nat, k: nat) {
    && j < m < k < |actions|
    && actions[j].STick? && (actions[m].SQuery? || actions[m].SQueryFails?) && actions[k].SStore?
    && forall i :: j < i < k && i != m ==> !OwnTurn(actions[i])
  }

  /**
   A standby's gate after a turn: open exactly if it was connected when the turn began and, when
   it asked, no heartbeat of a connected primary was younger than the takeover time. A failed
   question leaves the gate as it was.
   */
  lemma TurnUsesWhatItSaw(c: Config, start: int, actions: seq<Action>, j: nat, m: nat, k: nat)
    requires CanRun(c, start, actions) && IsTurn(actions, j, m, k)
    ensures var began, asked := Upto(c, start, actions, j), Upto(c, start, actions, m);
            Upto(c, start, actions, k + 1).gate ==
            if actions[m].SQueryFails? then asked.gate
            else began.sConn && !(asked.row.Some? && asked.row.value.connected
                                  && asked.row.value.at > asked.now - c.takeover)
  {
    UptoStep(c, start, actions, j);
    StandbyHolds(c, start, actions, j, m);
    UptoStep(c, start, actions, m);
    StandbyHolds(c, start, actions, m, k);
    UptoStep(c, start, actions, k);
  }

  /** The table does not say that the primary is there. */
  predicate SaysGone(row: Option<Beat>) { row.None? || !row.value.connected }

  lemma {:induction false} StaysDown(c: Config, start: int, actions: seq<Action>, k: nat, n: nat)
    requires CanRun(c, start, actions) && k < n <= |actions| && (actions[k].PShutdown? || actions[k].PCrash?)
    requires forall i :: k < i < n ==> !actions[i].PStart?
    ensures var w, w' := Upto(c, start, actions, k + 1), Upto(c, start, actions, n);
            w'.p.None? && !w'.pConn && w'.row == w.row && w'.pSince == w.pSince == Upto(c, start, actions, k).now
    decreases n
  {
    UptoStep(c, start, actions, n - 1);
    if n - 1 > k {
      StaysDown(c, start, actions, k, n - 1);
    }
  }

  /**
   A clean shutdown is seen at once: until the next start the table says gone, and one
   standby turn opens the gate.
   */
  lemma ShutdownIsSeenAtOnce(c: Config, start: int, actions: seq<Action>, k: nat)
    requires Fits(c) && CanRun(c, start, actions) && k < |actions| && actions[k].PShutdown?
    requires forall i :: k < i < |actions| ==> !actions[i].PStart?
    ensures SaysGone(Run(c, start, actions).row)
    ensures var w, down := Run(c, start, actions), Upto(c, start, actions, k).now;
            w.sConn && w.now > Max(down, Max(w.sFail, w.sSince)) + Gap(c.sInterval, c.sDelay) ==> w.gate
  {
    UptoStep(c, start, actions, k);
    StaysDown(c, start, actions, k, |actions|);
    assert actions[..|actions|] == actions;
    GateConverges(c, start, actions);
  }

  /** A crash is not: the row it leaves is the last one written. */
  lemma CrashLeavesRow(c: Config, start: int, actions: seq<Action>, k: nat)
    requires CanRun(c, start, actions) && k < |actions| && actions[k].PCrash?
    requires forall i :: k < i < |actions| ==> !actions[i].PStart?
    ensures Run(c, start, actions).row == Upto(c, start, actions, k).row
  {
    UptoStep(c, start, actions, k);
    StaysDown(c, start, actions, k, |actions|);
    assert actions[..|actions|] == actions;
  }

  /** A primary that starts says that it is gone until its first heartbeat is written. */
  lemma {:induction false} StartSaysGone(c: Config, start: int, actions: seq<Action>, k: nat, n: nat)
    requires CanRun(c, start, actions) && k < n <= |actions| && actions[k].PStart?
    requires forall i :: k < i < n ==> !actions[i].PCommit?
    ensures SaysGone(Upto(c, start, actions, n).row)
    decreases n
  {
    UptoStep(c, start, actions, n - 1);
    if n - 1 > k {
      StartSaysGone(c, start, actions, k, n - 1);
    }
  }

  // ---------------------------------------------------------------------------
  // The loop body
  // ---------------------------------------------------------------------------

  datatype Role = Primary | Backup

  datatype Heartbeat = Heartbeat(connected: bool, writing: bool)

  class Gate {
    var writing: bool

    constructor (role: Role)
      ensures writing == role.Primary?
    {
      writing := role.Primary?;
    }

    /** One turn: a standby asks and may flip the gate, and either role then writes its row. */
    method Turn(role: Role, connected: bool, live: Option<bool>) returns (beat: Heartbeat)
      modifies this
      ensures writing == if role.Backup? then GateAfter(old(writing), connected, live) else old(writing)
      ensures beat == Heartbeat(connected, writing)
    {
      var now := writing;
      if role.Backup? && live.Some? {
        var shouldWrite := connected && !live.value;
        if shouldWrite != now {
          writing := shouldWrite;
          now := shouldWrite;
        }
      }
      beat := Heartbeat(connected, now);
    }
  }
}
