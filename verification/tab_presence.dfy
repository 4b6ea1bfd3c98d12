/**
 The tab-list state machine of the logger: who is online, who is hidden, which rows go
 to the writer, and when the list counts as settled. Calls are handled one at a time.
 */
module TabPresence {
  import opened Basics

  const SNAPSHOT_GRACE_MS := 60000
  const TAB_RECONCILE_TICKS := 100
  const SETTLE_QUIET_TICKS := 8

  /** What a call reads besides the tab state. */
  datatype Env = Env(suppressed: bool, tablistJoins: bool, loginAt: int, now: int, ownName: Option<string>)

  /** One player of an info packet; `cleaned` is the name after cleaning, None if it is no player name. */
  datatype Entry = Entry(uuid: int, name: string, cleaned: Option<string>, listed: bool)

  /** Arrivals and departures are rows handed to the writer; the other marks leave no row. */
  datatype Mark =
    | Arrived(uuid: int, name: string, kind: char)
    | Departed(uuid: int, name: string, kind: char)
    | Silent(uuid: int)
    | Cleared
    | Restarting

  /** `marks` and `readings` are history: what happened, and the list sizes seen since the last clear. */
  datatype Tab = Tab(online: map<int, string>, hidden: set<int>, marks: seq<Mark>,
                     ticks: nat, lastLen: nat, quiet: nat, done: bool, readings: seq<nat>)

  const EMPTY := Tab(map[], {}, [], 0, 0, 0, false, [])

  function Lower(c: char): char { if 'A' <= c <= 'Z' then (c as int + 32) as char else c }

  predicate OwnBot(env: Env, name: string) {
    env.ownName.Some? && |env.ownName.value| == |name|
    && forall i :: 0 <= i < |name| ==> Lower(env.ownName.value[i]) == Lower(name[i])
  }

  function JoinKind(env: Env, name: string): char {
    if OwnBot(env, name) || !env.tablistJoins || env.loginAt == 0 || env.now - env.loginAt < SNAPSHOT_GRACE_MS
    then 's' else 'j'
  }

  function LeaveKind(env: Env, name: string): char {
    if OwnBot(env, name) || !env.tablistJoins then 'p' else 'l'
  }

  function Joined(t: Tab, env: Env, uuid: int, cleaned: Option<string>): Tab {
    if cleaned.None? || env.suppressed || cleaned.value == "" || uuid in t.hidden then t else
    var name := cleaned.value;
    t.(online := t.online[uuid := name],
       marks := t.marks + if uuid in t.online then [] else [Arrived(uuid, name, JoinKind(env, name))])
  }

  function Gone(t: Tab, env: Env, uuid: int): Tab {
    if uuid !in t.online then t else
    var name := t.online[uuid];
    t.(online := t.online - {uuid},
       marks := t.marks + [if env.suppressed then Silent(uuid) else Departed(uuid, name, LeaveKind(env, name))])
  }

  function EntryApplied(t: Tab, env: Env, updateListed: bool, addPlayer: bool, e: Entry): Tab {
    if updateListed then
      if !e.listed then Gone(t.(hidden := t.hidden + {e.uuid}), env, e.uuid) else
      var shown := t.(hidden := t.hidden - {e.uuid});
      if e.name != "" then Joined(shown, env, e.uuid, e.cleaned) else shown
    else if addPlayer && e.name != "" then Joined(t, env, e.uuid, e.cleaned)
    else t
  }

  function Removed(t: Tab, env: Env, uuid: int): Tab {
    Gone(t.(hidden := t.hidden - {uuid}), env, uuid)
  }

  /** Login, disconnect and queue limbo. */
  function Reset(t: Tab): Tab {
    t.(online := map[], hidden := {}, marks := t.marks + [Cleared], lastLen := 0, quiet := 0, done := false,
       readings := [])
  }

  /** A restart countdown in chat drops the online list only. */
  function ServerRestarted(t: Tab): Tab {
    t.(online := map[], marks := t.marks + [Restarting])
  }

  function GoneAll(t: Tab, env: Env, order: seq<int>): Tab {
    if order == [] then t else Gone(GoneAll(t, env, order[..|order| - 1]), env, order[|order| - 1])
  }

  function Settling(t: Tab, tracked: nat): Tab {
    var r := t.(readings := t.readings + [tracked]);
    if t.done then r
    else if tracked > 0 && tracked == t.lastLen then
      r.(quiet := t.quiet + 1, done := t.quiet + 1 >= SETTLE_QUIET_TICKS)
    else r.(lastLen := tracked, quiet := 0)
  }

  predicate Reconciles(t: Tab, env: Env, tab: Option<set<int>>) {
    t.ticks % TAB_RECONCILE_TICKS == 0 && !env.suppressed && tab.Some?
  }

  /** A game tick; `order` is the order a hash map yields the players to retire in. */
  function Ticked(t: Tab, env: Env, tab: Option<set<int>>, order: seq<int>): Tab {
    var counted := t.(ticks := (t.ticks + 1) % 0x1_0000_0000);
    if Reconciles(t, env, tab) then Settling(GoneAll(counted, env, order), |t.online|) else counted
  }

  ghost predicate Lists(order: seq<int>, ids: set<int>) {
    && (forall i, j :: 0 <= i < j < |order| ==> order[i] != order[j])
    && (forall u :: u in ids <==> u in order)
  }

  datatype Action =
    | AddPlayer(uuid: int, cleaned: Option<string>)
    | RemovePlayer(uuid: int)
    | InfoEntry(updateListed: bool, addPlayer: bool, entry: Entry)
    | InfoRemove(uuid: int)
    | Tick(tab: Option<set<int>>, order: seq<int>)
    | Clear
    | Restart

  ghost predicate Enabled(t: Tab, env: Env, a: Action) {
    a.Tick? && Reconciles(t, env, a.tab) ==> Lists(a.order, t.online.Keys - a.tab.value)
  }

  function Apply(t: Tab, env: Env, a: Action): Tab {
    match a
    case AddPlayer(uuid, cleaned) => Joined(t, env, uuid, cleaned)
    case RemovePlayer(uuid) => Gone(t, env, uuid)
    case InfoEntry(updateListed, addPlayer, e) => EntryApplied(t, env, updateListed, addPlayer, e)
    case InfoRemove(uuid) => Removed(t, env, uuid)
    case Tick(tab, order) => Ticked(t, env, tab, order)
    case Clear => Reset(t)
    case Restart => ServerRestarted(t)
  }

  type Timed = (Env, Action)

  function Run(actions: seq<Timed>): Tab {
    if actions == [] then EMPTY else
    var n := |actions| - 1;
    Apply(Run(actions[..n]), actions[n].0, actions[n].1)
  }

  ghost predicate CanRun(actions: seq<Timed>) {
    actions == [] ||
    var n := |actions| - 1;
    CanRun(actions[..n]) && Enabled(Run(actions[..n]), actions[n].0, actions[n].1)
  }

  // ---------------------------------------------------------------------------
  // Arrivals and departures alternate
  // ---------------------------------------------------------------------------

  predicate Opens(m: Mark, uuid: int) { m.Arrived? && m.uuid == uuid }

  predicate Closes(m: Mark, uuid: int) {
    m.Cleared? || m.Restarting? || ((m.Departed? || m.Silent?) && m.uuid == uuid)
  }

  /** The last mark about `uuid` is an arrival. */
  predicate Open(marks: seq<Mark>, uuid: int) {
    marks != [] &&
    var m := marks[|marks| - 1];
    Opens(m, uuid) || (!Closes(m, uuid) && Open(marks[..|marks| - 1], uuid))
  }

  /** Position `j` holds an arrival of `uuid` that nothing up to `i` closes. */
  predicate OpenSince(marks: seq<Mark>, uuid: int, j: nat, i: nat)
    requires i <= |marks|
  {
    j < i && Opens(marks[j], uuid) && forall k :: j < k < i ==> !Closes(marks[k], uuid)
  }

  lemma {:induction false} OpenHasArrival(marks: seq<Mark>, uuid: int) returns (j: nat)
    requires Open(marks, uuid)
    ensures OpenSince(marks, uuid, j, |marks|)
  {
    var n := |marks| - 1;
    if Opens(marks[n], uuid) {
      j := n;
    } else {
      j := OpenHasArrival(marks[..n], uuid);
    }
  }

  lemma OpenAppend(marks: seq<Mark>, m: Mark, uuid: int)
    ensures Open(marks + [m], uuid) <==> Opens(m, uuid) || (!Closes(m, uuid) && Open(marks, uuid))
  {
    assert (marks + [m])[..|marks|] == marks;
  }

  /** A row fits when it changes what the rows before it say. */
  predicate Fits(before: seq<Mark>, m: Mark) {
    match m
    case Arrived(u, _, _) => !Open(before, u)
    case Departed(u, _, _) => Open(before, u)
    case Silent(u) => Open(before, u)
    case _ => true
  }

  ghost predicate Alternates(marks: seq<Mark>) {
    forall i :: 0 <= i < |marks| ==> Fits(marks[..i], marks[i])
  }

  lemma AlternatesAppend(marks: seq<Mark>, m: Mark)
    requires Alternates(marks) && Fits(marks, m)
    ensures Alternates(marks + [m])
  {
    forall i | 0 <= i < |marks| + 1 ensures Fits((marks + [m])[..i], (marks + [m])[i]) {
      assert (marks + [m])[..i] == marks[..i];
      if i == |marks| {
        assert marks[..i] == marks;
      }
    }
  }

  ghost predicate Tracked(t: Tab) {
    && Alternates(t.marks)
    && forall u :: u in t.online <==> Open(t.marks, u)
  }

  /** Adding a mark and changing the online list to match keeps the two in step. */
  lemma MarkKeeps(t: Tab, m: Mark, t': Tab)
    requires Tracked(t) && Fits(t.marks, m) && t'.marks == t.marks + [m]
    requires forall u :: u in t'.online <==> Opens(m, u) || (!Closes(m, u) && u in t.online)
    ensures Tracked(t')
  {
    AlternatesAppend(t.marks, m);
    forall u ensures u in t'.online <==> Open(t'.marks, u) {
      OpenAppend(t.marks, m, u);
    }
  }

  lemma JoinKeeps(t: Tab, env: Env, uuid: int, cleaned: Option<string>)
    requires Tracked(t)
    ensures Tracked(Joined(t, env, uuid, cleaned))
  {
    var t' := Joined(t, env, uuid, cleaned);
    if t' != t && uuid !in t.online {
      MarkKeeps(t, Arrived(uuid, cleaned.value, JoinKind(env, cleaned.value)), t');
    } else if t' != t {
      assert t'.marks == t.marks;
    }
  }

  lemma GoneKeeps(t: Tab, env: Env, uuid: int)
    requires Tracked(t)
    ensures Tracked(Gone(t, env, uuid))
  {
    if uuid in t.online {
      var t' := Gone(t, env, uuid);
      MarkKeeps(t, t'.marks[|t.marks|], t');
    }
  }

  lemma {:induction false} GoneAllKeeps(t: Tab, env: Env, order: seq<int>)
    requires Tracked(t)
    ensures Tracked(GoneAll(t, env, order))
  {
    if order != [] {
      GoneAllKeeps(t, env, order[..|order| - 1]);
      GoneKeeps(GoneAll(t, env, order[..|order| - 1]), env, order[|order| - 1]);
    }
  }

  /** Retiring removes exactly the listed players and touches neither the hidden set nor the settle watch. */
  lemma {:induction false} GoneAllIs(t: Tab, env: Env, order: seq<int>)
    ensures var t' := GoneAll(t, env, order);
            && (forall u :: u in t'.online.Keys <==> u in t.online.Keys && u !in order)
            && t' == t.(online := t'.online, marks := t'.marks)
  {
    if order != [] {
      var n := |order| - 1;
      GoneAllIs(t, env, order[..n]);
      assert order == order[..n] + [order[n]];
    }
  }

  // ---------------------------------------------------------------------------
  // The settle watch
  // ---------------------------------------------------------------------------

  /** How many of the last readings in a row repeated a non-zero reading before them. */
  function Repeats(readings: seq<nat>): nat {
    var n := |readings|;
    if n == 0 then 0
    else if readings[n - 1] > 0 && n >= 2 && readings[n - 2] == readings[n - 1] then Repeats(readings[..n - 1]) + 1
    else 0
  }

  /** The list held one non-zero size over nine consecutive readings, ending before `i`. */
  predicate QuietAt(readings: seq<nat>, i: nat) {
    9 <= i <= |readings| && readings[i - 1] > 0 && forall k :: i - 9 <= k < i ==> readings[k] == readings[i - 1]
  }

  ghost predicate Settled(readings: seq<nat>) { exists i: nat :: QuietAt(readings, i) }

  ghost predicate Watching(t: Tab) {
    && (t.done <==> Settled(t.readings))
    && (!t.done ==> t.quiet == Repeats(t.readings) < SETTLE_QUIET_TICKS
                    && t.lastLen == if t.readings == [] then 0 else t.readings[|t.readings| - 1])
  }

  lemma {:induction false} RepeatsMean(readings: seq<nat>, d: nat)
    requires readings != [] && readings[|readings| - 1] > 0
    ensures Repeats(readings) >= d <==>
            && d < |readings|
            && forall k :: |readings| - 1 - d <= k < |readings| ==> readings[k] == readings[|readings| - 1]
    decreases |readings|
  {
    var n := |readings|;
    if d > 0 && n >= 2 && readings[n - 2] == readings[n - 1] {
      RepeatsMean(readings[..n - 1], d - 1);
      assert forall k :: 0 <= k < n - 1 ==> readings[..n - 1][k] == readings[k];
    }
  }

  lemma SettledAppend(readings: seq<nat>, r: nat)
    ensures Settled(readings + [r]) <==> Settled(readings) || QuietAt(readings + [r], |readings| + 1)
  {
    if Settled(readings) {
      var i: nat :| QuietAt(readings, i);
      assert QuietAt(readings + [r], i);
    }
    if Settled(readings + [r]) {
      var i: nat :| QuietAt(readings + [r], i);
      if i <= |readings| {
        assert forall k :: 0 <= k < i ==> (readings + [r])[k] == readings[k];
        assert QuietAt(readings, i);
      }
    }
  }

  lemma WatchKeeps(t: Tab, tracked: nat)
    requires Watching(t)
    ensures Watching(Settling(t, tracked))
  {
    var after := t.readings + [tracked];
    SettledAppend(t.readings, tracked);
    if !t.done {
      assert after[..|t.readings|] == t.readings;
      if tracked > 0 {
        RepeatsMean(after, SETTLE_QUIET_TICKS);
      }
    }
  }

  // ---------------------------------------------------------------------------
  // Every run
  // ---------------------------------------------------------------------------

  ghost predicate Inv(t: Tab) { t.online.Keys !! t.hidden && Tracked(t) && Watching(t) }

  lemma ShowKeeps(t: Tab, uuid: int)
    requires Inv(t)
    ensures Inv(t.(hidden := t.hidden - {uuid}))
  {
  }

  lemma HideKeeps(t: Tab, env: Env, uuid: int)
    requires Inv(t)
    ensures Inv(Gone(t.(hidden := t.hidden + {uuid}), env, uuid))
  {
    var hidden := t.(hidden := t.hidden + {uuid});
    assert Tracked(hidden) && Watching(hidden);
    GoneKeeps(hidden, env, uuid);
  }

  lemma JoinedKeeps(t: Tab, env: Env, uuid: int, cleaned: Option<string>)
    requires Inv(t)
    ensures Inv(Joined(t, env, uuid, cleaned))
  {
    JoinKeeps(t, env, uuid, cleaned);
  }

  lemma EntryKeeps(t: Tab, env: Env, updateListed: bool, addPlayer: bool, e: Entry)
    requires Inv(t)
    ensures Inv(EntryApplied(t, env, updateListed, addPlayer, e))
  {
    if updateListed && !e.listed {
      HideKeeps(t, env, e.uuid);
    } else if updateListed {
      ShowKeeps(t, e.uuid);
      JoinedKeeps(t.(hidden := t.hidden - {e.uuid}), env, e.uuid, e.cleaned);
    } else {
      JoinedKeeps(t, env, e.uuid, e.cleaned);
    }
  }

  /** The players a reconciling tick keeps. */
  lemma KeptByTick(t: Tab, env: Env, tab: Option<set<int>>, order: seq<int>, uuid: int)
    requires Reconciles(t, env, tab)
    ensures uuid in Ticked(t, env, tab, order).online.Keys <==> uuid in t.online.Keys && uuid !in order
    ensures Ticked(t, env, tab, order).hidden == t.hidden
  {
    GoneAllIs(t.(ticks := (t.ticks + 1) % 0x1_0000_0000), env, order);
  }

  lemma TickHides(t: Tab, env: Env, tab: Option<set<int>>, order: seq<int>)
    requires t.online.Keys !! t.hidden
    ensures Ticked(t, env, tab, order).online.Keys !! Ticked(t, env, tab, order).hidden
  {
    if Reconciles(t, env, tab) {
      KeptByTick(t, env, tab, order, 0);
      forall u | u in Ticked(t, env, tab, order).online.Keys ensures u !in t.hidden {
        KeptByTick(t, env, tab, order, u);
      }
    }
  }

  lemma TrackedAlike(t: Tab, t': Tab)
    requires Tracked(t) && t'.online == t.online && t'.marks == t.marks
    ensures Tracked(t')
  {
  }

  lemma TickTracks(t: Tab, env: Env, tab: Option<set<int>>, order: seq<int>)
    requires Tracked(t)
    ensures Tracked(Ticked(t, env, tab, order))
  {
    var counted := t.(ticks := (t.ticks + 1) % 0x1_0000_0000);
    TrackedAlike(t, counted);
    if Reconciles(t, env, tab) {
      GoneAllKeeps(counted, env, order);
      TrackedAlike(GoneAll(counted, env, order), Settling(GoneAll(counted, env, order), |t.online|));
    }
  }

  lemma TickWatches(t: Tab, env: Env, tab: Option<set<int>>, order: seq<int>)
    requires Watching(t)
    ensures Watching(Ticked(t, env, tab, order))
  {
    if Reconciles(t, env, tab) {
      var counted := t.(ticks := (t.ticks + 1) % 0x1_0000_0000);
      GoneAllIs(counted, env, order);
      WatchKeeps(GoneAll(counted, env, order), |t.online|);
    }
  }

  lemma TickKeeps(t: Tab, env: Env, tab: Option<set<int>>, order: seq<int>)
    requires Inv(t)
    ensures Inv(Ticked(t, env, tab, order))
  {
    TickHides(t, env, tab, order);
    TickTracks(t, env, tab, order);
    TickWatches(t, env, tab, order);
  }

  lemma ClearKeeps(t: Tab)
    requires Inv(t)
    ensures Inv(Reset(t)) && Inv(ServerRestarted(t))
  {
    MarkKeeps(t, Cleared, Reset(t));
    MarkKeeps(t, Restarting, ServerRestarted(t));
  }

  lemma StepKeeps(t: Tab, env: Env, a: Action)
    requires Inv(t)
    ensures Inv(Apply(t, env, a))
  {
    match a
    case AddPlayer(uuid, cleaned) => JoinKeeps(t, env, uuid, cleaned);
    case RemovePlayer(uuid) => GoneKeeps(t, env, uuid);
    case InfoEntry(updateListed, addPlayer, e) => EntryKeeps(t, env, updateListed, addPlayer, e);
    case InfoRemove(uuid) => GoneKeeps(t.(hidden := t.hidden - {uuid}), env, uuid);
    case Tick(tab, order) => TickKeeps(t, env, tab, order);
    case Clear => ClearKeeps(t);
    case Restart => ClearKeeps(t);
  }

  lemma {:induction false} RunKeeps(actions: seq<Timed>)
    ensures Inv(Run(actions))
  {
    if actions != [] {
      var n := |actions| - 1;
      RunKeeps(actions[..n]);
      StepKeeps(Run(actions[..n]), actions[n].0, actions[n].1);
    }
  }

  ghost predicate HasArrival(marks: seq<Mark>, uuid: int, i: nat)
    requires i <= |marks|
  {
    exists j: nat :: OpenSince(marks, uuid, j, i)
  }

  /**
   Tab-list safety over every sequence of calls: nobody is both online and hidden, the
   online list is exactly the players whose last row is an arrival that nothing closed,
   and every departure row follows such an arrival.
   */
  lemma TabListSafety(actions: seq<Timed>)
    ensures var t := Run(actions);
            && t.online.Keys !! t.hidden
            && (forall u :: u in t.online <==> HasArrival(t.marks, u, |t.marks|))
            && forall i :: 0 <= i < |t.marks| && t.marks[i].Departed? ==> HasArrival(t.marks, t.marks[i].uuid, i)
  {
    var t := Run(actions);
    RunKeeps(actions);
    forall u ensures u in t.online <==> HasArrival(t.marks, u, |t.marks|) {
      OpenIff(t.marks, u);
    }
    forall i | 0 <= i < |t.marks| && t.marks[i].Departed? ensures HasArrival(t.marks, t.marks[i].uuid, i) {
      var u := t.marks[i].uuid;
      assert Fits(t.marks[..i], t.marks[i]);
      var j := OpenHasArrival(t.marks[..i], u);
      assert OpenSince(t.marks, u, j, i);
    }
  }

  lemma OpenIff(marks: seq<Mark>, uuid: int)
    ensures Open(marks, uuid) <==> HasArrival(marks, uuid, |marks|)
  {
    if Open(marks, uuid) {
      var j := OpenHasArrival(marks, uuid);
    }
    if HasArrival(marks, uuid, |marks|) {
      var j :| OpenSince(marks, uuid, j, |marks|);
      ArrivalOpens(marks, uuid, j);
    }
  }

  lemma {:induction false} ArrivalOpens(marks: seq<Mark>, uuid: int, j: nat)
    requires OpenSince(marks, uuid, j, |marks|)
    ensures Open(marks, uuid)
    decreases |marks|
  {
    var n := |marks| - 1;
    if j < n {
      assert OpenSince(marks[..n], uuid, j, n);
      ArrivalOpens(marks[..n], uuid, j);
    }
  }

  /** No player gets two arrival rows without something closing the first in between. */
  lemma ArrivalsAreClosed(actions: seq<Timed>, i: nat, j: nat)
    requires i < j < |Run(actions).marks|
    requires Run(actions).marks[i].Arrived? && Opens(Run(actions).marks[j], Run(actions).marks[i].uuid)
    ensures exists k :: i < k < j && Closes(Run(actions).marks[k], Run(actions).marks[i].uuid)
  {
    var marks := Run(actions).marks;
    RunKeeps(actions);
    assert Fits(marks[..j], marks[j]);
    if forall k :: i < k < j ==> !Closes(marks[k], marks[i].uuid) {
      assert OpenSince(marks[..j], marks[i].uuid, i, j);
      ArrivalOpens(marks[..j], marks[i].uuid, i);
      assert false;
    }
  }

  /** A pass leaves tracked exactly the players still in the client's tab list. */
  lemma ReconcileIsExact(t: Tab, env: Env, tab: set<int>, order: seq<int>)
    requires Reconciles(t, env, Some(tab)) && Enabled(t, env, Tick(Some(tab), order))
    ensures Ticked(t, env, Some(tab), order).online.Keys == t.online.Keys * tab
    ensures Ticked(t, env, Some(tab), order).hidden == t.hidden
  {
    forall u ensures u in Ticked(t, env, Some(tab), order).online.Keys <==> u in t.online.Keys * tab {
      KeptByTick(t, env, Some(tab), order, u);
      ListedIff(order, t.online.Keys - tab, u);
    }
    KeptByTick(t, env, Some(tab), order, 0);
  }

  lemma ListedIff(order: seq<int>, ids: set<int>, u: int)
    requires Lists(order, ids)
    ensures u in order <==> u in ids
  {
  }

  /** How many game ticks a run has seen. */
  function TickCount(actions: seq<Timed>): nat {
    if actions == [] then 0 else
    TickCount(actions[..|actions| - 1]) + if actions[|actions| - 1].1.Tick? then 1 else 0
  }

  /** Call `k` is a tick that compares the tracked players with the client's list: every hundredth of a 32-bit count. */
  predicate ComparesAt(actions: seq<Timed>, k: nat)
    requires k < |actions|
  {
    && actions[k].1.Tick? && TickCount(actions[..k]) % 0x1_0000_0000 % 100 == 0
    && !actions[k].0.suppressed && actions[k].1.tab.Some?
  }

  /** The number of tracked players just before each comparing tick since the last clear, in order. */
  function Sizes(actions: seq<Timed>): seq<nat> {
    if actions == [] then [] else
    var n := |actions| - 1;
    if actions[n].1.Clear? then []
    else Sizes(actions[..n]) + if ComparesAt(actions, n) then [|Run(actions[..n]).online|] else []
  }

  lemma StepCounts(t: Tab, env: Env, a: Action)
    ensures Apply(t, env, a).ticks == if a.Tick? then (t.ticks + 1) % 0x1_0000_0000 else t.ticks
  {
    if a.Tick? {
      GoneAllIs(t.(ticks := (t.ticks + 1) % 0x1_0000_0000), env, a.order);
    }
  }

  lemma StepReads(t: Tab, env: Env, a: Action)
    ensures Apply(t, env, a).readings ==
            if a.Clear? then []
            else if a.Tick? && Reconciles(t, env, a.tab) then t.readings + [|t.online|]
            else t.readings
  {
    if a.Tick? {
      GoneAllIs(t.(ticks := (t.ticks + 1) % 0x1_0000_0000), env, a.order);
    }
  }

  lemma NextCount(n: nat)
    ensures (n % 0x1_0000_0000 + 1) % 0x1_0000_0000 == (n + 1) % 0x1_0000_0000
  {
  }

  lemma {:induction false} TicksAreCounted(actions: seq<Timed>)
    ensures Run(actions).ticks == TickCount(actions) % 0x1_0000_0000
  {
    if actions != [] {
      var n := |actions| - 1;
      TicksAreCounted(actions[..n]);
      StepCounts(Run(actions[..n]), actions[n].0, actions[n].1);
      NextCount(TickCount(actions[..n]));
    }
  }

  lemma ComparesIff(actions: seq<Timed>, n: nat)
    requires |actions| == n + 1 && actions[n].1.Tick?
    ensures ComparesAt(actions, n) <==> Reconciles(Run(actions[..n]), actions[n].0, actions[n].1.tab)
  {
    TicksAreCounted(actions[..n]);
  }

  /** What the settle watch reads is the size of the tracked list. */
  lemma {:induction false} ReadingsAreSizes(actions: seq<Timed>)
    ensures Run(actions).readings == Sizes(actions)
  {
    if actions != [] {
      var n := |actions| - 1;
      ReadingsAreSizes(actions[..n]);
      StepReads(Run(actions[..n]), actions[n].0, actions[n].1);
      if actions[n].1.Tick? {
        ComparesIff(actions, n);
      }
    }
  }

  lemma RunSnoc(actions: seq<Timed>, env: Env, a: Action)
    ensures Run(actions + [(env, a)]) == Apply(Run(actions), env, a)
  {
    assert (actions + [(env, a)])[..|actions|] == actions;
  }

  /**
   Over every run, the settle reconcile fires at a call exactly when that call completes the
   first stretch of nine equal non-zero sizes of the tracked list, as the comparing ticks
   since the last clear found it.
   */
  lemma SettleFiresExactly(actions: seq<Timed>, env: Env, a: Action)
    ensures var t, t' := Run(actions), Apply(Run(actions), env, a);
            !t.done && t'.done <==> Settled(Sizes(actions + [(env, a)])) && !Settled(Sizes(actions))
  {
    RunKeeps(actions);
    StepKeeps(Run(actions), env, a);
    RunSnoc(actions, env, a);
    ReadingsAreSizes(actions);
    ReadingsAreSizes(actions + [(env, a)]);
  }

  // ---------------------------------------------------------------------------
  // Who is hidden
  // ---------------------------------------------------------------------------

  /** The player was last reported unlisted, and neither removed nor cleared since. */
  predicate Unlisted(actions: seq<Timed>, uuid: int) {
    actions != [] &&
    var before := Unlisted(actions[..|actions| - 1], uuid);
    match actions[|actions| - 1].1
    case InfoEntry(updateListed, _, e) => if updateListed && e.uuid == uuid then !e.listed else before
    case InfoRemove(u) => u != uuid && before
    case Clear => false
    case _ => before
  }

  lemma EntryHides(t: Tab, env: Env, updateListed: bool, addPlayer: bool, e: Entry, uuid: int)
    ensures uuid in EntryApplied(t, env, updateListed, addPlayer, e).hidden
            <==> if updateListed && e.uuid == uuid then !e.listed else uuid in t.hidden
  {
  }

  lemma TickHidesNobody(t: Tab, env: Env, tab: Option<set<int>>, order: seq<int>)
    ensures Ticked(t, env, tab, order).hidden == t.hidden
  {
    GoneAllIs(t.(ticks := (t.ticks + 1) % 0x1_0000_0000), env, order);
  }

  lemma StepHides(t: Tab, env: Env, a: Action, uuid: int)
    ensures uuid in Apply(t, env, a).hidden <==>
            match a
            case InfoEntry(updateListed, _, e) =>
              if updateListed && e.uuid == uuid then !e.listed else uuid in t.hidden
            case InfoRemove(u) => u != uuid && uuid in t.hidden
            case Clear => false
            case _ => uuid in t.hidden
  {
    match a
    case InfoEntry(updateListed, addPlayer, e) => EntryHides(t, env, updateListed, addPlayer, e, uuid);
    case Tick(tab, order) => TickHidesNobody(t, env, tab, order);
    case _ =>
  }

  /** Over every run, the hidden players are those last reported unlisted, a restart countdown changing nothing. */
  lemma {:induction false} HiddenIsUnlisted(actions: seq<Timed>, uuid: int)
    ensures uuid in Run(actions).hidden <==> Unlisted(actions, uuid)
  {
    if actions != [] {
      var n := |actions| - 1;
      HiddenIsUnlisted(actions[..n], uuid);
      StepHides(Run(actions[..n]), actions[n].0, actions[n].1, uuid);
    }
  }

  /** One letter in either case, or the same character. */
  predicate SameLetter(c: char, d: char) {
    || c == d
    || ('A' <= c <= 'Z' && d as int == c as int + 32)
    || ('A' <= d <= 'Z' && c as int == d as int + 32)
  }

  /** The logger knows its own name in any case. */
  lemma OwnBotIff(env: Env, name: string)
    ensures OwnBot(env, name) <==>
            && env.ownName.Some? && |env.ownName.value| == |name|
            && forall i :: 0 <= i < |name| ==> SameLetter(env.ownName.value[i], name[i])
  {
  }

  // ---------------------------------------------------------------------------
  // Which rows go out
  // ---------------------------------------------------------------------------

  /** What a call may add under `env`: an arrival, a departure or a mark without a row. */
  predicate Allowed(env: Env, m: Mark) {
    match m
    case Arrived(_, name, kind) => !env.suppressed && kind == JoinKind(env, name)
    case Departed(_, name, kind) => !env.suppressed && kind == LeaveKind(env, name)
    case Silent(_) => env.suppressed
    case _ => true
  }

  /** The history grows by marks `env` allows, and only at its end. */
  ghost predicate Adds(env: Env, marks: seq<Mark>, marks': seq<Mark>) {
    && |marks| <= |marks'| && marks'[..|marks|] == marks
    && forall i :: |marks| <= i < |marks'| ==> Allowed(env, marks'[i])
  }

  lemma AddsOne(env: Env, marks: seq<Mark>, m: Mark)
    requires Allowed(env, m)
    ensures Adds(env, marks, marks + [m])
  {
  }

  lemma AddsThen(env: Env, a: seq<Mark>, b: seq<Mark>, c: seq<Mark>)
    requires Adds(env, a, b) && Adds(env, b, c)
    ensures Adds(env, a, c)
  {
    assert c[..|a|] == c[..|b|][..|a|];
    forall i | |a| <= i < |c| ensures Allowed(env, c[i]) {
      assert i < |b| ==> c[..|b|][i] == b[i];
    }
  }

  lemma JoinedAdds(t: Tab, env: Env, uuid: int, cleaned: Option<string>)
    ensures Adds(env, t.marks, Joined(t, env, uuid, cleaned).marks)
  {
  }

  lemma GoneAdds(t: Tab, env: Env, uuid: int)
    ensures Adds(env, t.marks, Gone(t, env, uuid).marks)
  {
  }

  lemma {:induction false} GoneAllAdds(t: Tab, env: Env, order: seq<int>)
    ensures Adds(env, t.marks, GoneAll(t, env, order).marks)
  {
    if order != [] {
      var before := GoneAll(t, env, order[..|order| - 1]);
      GoneAllAdds(t, env, order[..|order| - 1]);
      GoneAdds(before, env, order[|order| - 1]);
      AddsThen(env, t.marks, before.marks, GoneAll(t, env, order).marks);
    }
  }

  lemma EntryAdds(t: Tab, env: Env, updateListed: bool, addPlayer: bool, e: Entry)
    ensures Adds(env, t.marks, EntryApplied(t, env, updateListed, addPlayer, e).marks)
  {
    JoinedAdds(t.(hidden := t.hidden - {e.uuid}), env, e.uuid, e.cleaned);
    JoinedAdds(t, env, e.uuid, e.cleaned);
    GoneAdds(t.(hidden := t.hidden + {e.uuid}), env, e.uuid);
  }

  lemma StepAdds(t: Tab, env: Env, a: Action)
    ensures Adds(env, t.marks, Apply(t, env, a).marks)
  {
    match a
    case AddPlayer(uuid, cleaned) => JoinedAdds(t, env, uuid, cleaned);
    case RemovePlayer(uuid) => GoneAdds(t, env, uuid);
    case InfoEntry(updateListed, addPlayer, e) => EntryAdds(t, env, updateListed, addPlayer, e);
    case InfoRemove(uuid) => GoneAdds(t.(hidden := t.hidden - {uuid}), env, uuid);
    case Tick(tab, order) => GoneAllAdds(t.(ticks := (t.ticks + 1) % 0x1_0000_0000), env, order);
    case Clear => AddsOne(env, t.marks, Cleared);
    case Restart => AddsOne(env, t.marks, Restarting);
  }

  /** Call `k` of the run is the one that added mark `i`. */
  predicate AddedBy(actions: seq<Timed>, i: nat, k: nat) {
    k < |actions| && |Run(actions[..k]).marks| <= i < |Run(actions[..k + 1]).marks|
  }

  lemma {:induction false} HistoryOnlyGrows(actions: seq<Timed>, k: nat)
    requires k <= |actions|
    ensures Run(actions[..k]).marks <= Run(actions).marks
    decreases |actions|
  {
    if k == |actions| {
      assert actions[..k] == actions;
    } else {
      var n := |actions| - 1;
      HistoryOnlyGrows(actions[..n], k);
      assert actions[..n][..k] == actions[..k];
      StepAdds(Run(actions[..n]), actions[n].0, actions[n].1);
    }
  }

  /** Every mark was added by exactly one call, and that call allowed it. */
  lemma {:induction false} MarkHasCall(actions: seq<Timed>, i: nat) returns (k: nat)
    requires i < |Run(actions).marks|
    ensures AddedBy(actions, i, k) && Allowed(actions[k].0, Run(actions).marks[i])
    decreases |actions|
  {
    var n := |actions| - 1;
    var before := Run(actions[..n]);
    StepAdds(before, actions[n].0, actions[n].1);
    if i < |before.marks| {
      k := MarkHasCall(actions[..n], i);
      assert actions[..n][..k] == actions[..k] && actions[..n][..k + 1] == actions[..k + 1];
      assert Run(actions).marks[..|before.marks|][i] == before.marks[i];
    } else {
      k := n;
      assert actions[..n + 1] == actions;
    }
  }

  lemma LaterIsLonger(actions: seq<Timed>, j: nat, k: nat)
    requires j <= k <= |actions|
    ensures |Run(actions[..j]).marks| <= |Run(actions[..k]).marks|
  {
    HistoryOnlyGrows(actions[..k], j);
    assert actions[..k][..j] == actions[..j];
  }

  lemma OneCall(actions: seq<Timed>, i: nat, j: nat, k: nat)
    requires AddedBy(actions, i, j) && AddedBy(actions, i, k)
    ensures j == k
  {
    if j < k {
      LaterIsLonger(actions, j + 1, k);
    } else if k < j {
      LaterIsLonger(actions, k + 1, j);
    }
  }

  /** The login replay is over and chat does not own joins. */
  predicate MayAnnounce(env: Env) {
    env.tablistJoins && env.loginAt != 0 && env.now - env.loginAt >= 60000
  }

  /** What the call that added a mark must have seen. */
  predicate Earned(env: Env, m: Mark) {
    && (m.Arrived? || m.Departed? ==> !env.suppressed)
    && (m.Arrived? ==> (m.kind == 'j' <==> MayAnnounce(env) && !OwnBot(env, m.name)))
    && (m.Departed? ==> (m.kind == 'l' <==> env.tablistJoins && !OwnBot(env, m.name)))
  }

  /**
   Over every run: the call that put a row out was not suppressed, and it put out a public
   join or leave if and only if the server, the login grace and the player allowed one.
   */
  lemma PublicRowsAreEarned(actions: seq<Timed>, i: nat, k: nat)
    requires i < |Run(actions).marks| && AddedBy(actions, i, k)
    ensures Earned(actions[k].0, Run(actions).marks[i])
  {
    var j := MarkHasCall(actions, i);
    OneCall(actions, i, j, k);
  }

  // ---------------------------------------------------------------------------
  // The services object
  // ---------------------------------------------------------------------------

  class Services {
    var online: map<int, string>
    var hidden: set<int>
    var marks: seq<Mark>
    var reconcileTicks: nat
    var settleLastLen: nat
    var settleQuietTicks: nat
    var settleDone: bool
    ghost var readings: seq<nat>

    ghost function View(): Tab
      reads this
    {
      Tab(online, hidden, marks, reconcileTicks, settleLastLen, settleQuietTicks, settleDone, readings)
    }

    constructor ()
      ensures View() == EMPTY
    {
      online, hidden, marks := map[], {}, [];
      reconcileTicks, settleLastLen, settleQuietTicks, settleDone := 0, 0, 0, false;
      readings := [];
    }

    method NoteJoin(env: Env, uuid: int, cleaned: Option<string>)
      modifies this
      ensures View() == Joined(old(View()), env, uuid, cleaned)
    {
      if cleaned.None? || env.suppressed || cleaned.value == "" || uuid in hidden {
        return;
      }
      var name := cleaned.value;
      var known := uuid in online;
      online := online[uuid := name];
      if known {
        return;
      }
      marks := marks + [Arrived(uuid, name, JoinKind(env, name))];
    }

    method NoteLeave(env: Env, uuid: int)
      modifies this
      ensures View() == Gone(old(View()), env, uuid)
    {
      if uuid !in online {
        return;
      }
      var name := online[uuid];
      online := online - {uuid};
      if env.suppressed {
        marks := marks + [Silent(uuid)];
        return;
      }
      marks := marks + [Departed(uuid, name, LeaveKind(env, name))];
    }

    method HandleInfoUpdate(env: Env, updateListed: bool, addPlayer: bool, entries: seq<Entry>)
      modifies this
      ensures View() == EntriesApplied(old(View()), env, updateListed, addPlayer, entries)
    {
      ghost var t := View();
      for i := 0 to |entries|
        invariant View() == EntriesApplied(t, env, updateListed, addPlayer, entries[..i])
      {
        assert entries[..i + 1][..i] == entries[..i];
        var e := entries[i];
        if updateListed {
          if e.listed {
            hidden := hidden - {e.uuid};
            if e.name != "" {
              NoteJoin(env, e.uuid, e.cleaned);
            }
          } else {
            hidden := hidden + {e.uuid};
            NoteLeave(env, e.uuid);
          }
        } else if addPlayer && e.name != "" {
          NoteJoin(env, e.uuid, e.cleaned);
        }
      }
      assert entries[..|entries|] == entries;
    }

    method HandleInfoRemove(env: Env, ids: seq<int>)
      modifies this
      ensures View() == AllRemoved(old(View()), env, ids)
    {
      ghost var t := View();
      for i := 0 to |ids|
        invariant View() == AllRemoved(t, env, ids[..i])
      {
        assert ids[..i + 1][..i] == ids[..i];
        hidden := hidden - {ids[i]};
        NoteLeave(env, ids[i]);
      }
      assert ids[..|ids|] == ids;
    }

    method ClearPresence()
      modifies this
      ensures View() == Reset(old(View()))
    {
      online, hidden, marks := map[], {}, marks + [Cleared];
      settleLastLen, settleQuietTicks, settleDone := 0, 0, false;
      readings := [];
    }

    /** Retires every tracked player missing from the client's tab list. */
    method Retire(env: Env, tab: set<int>) returns (ghost order: seq<int>)
      modifies this
      ensures Lists(order, old(online).Keys - tab)
      ensures View() == GoneAll(old(View()), env, order)
    {
      ghost var t := View();
      var gone := online.Keys - tab;
      var left := gone;
      order := [];
      while left != {}
        invariant left <= gone && Lists(order, gone - left)
        invariant View() == GoneAll(t, env, order)
        decreases left
      {
        var uuid := AnyOf(left);
        assert (order + [uuid])[..|order|] == order;
        order := order + [uuid];
        NoteLeave(env, uuid);
        left := left - {uuid};
      }
      assert gone - {} == gone;
    }

    method MaybeReconcile(env: Env, tab: Option<set<int>>) returns (fired: bool, ghost order: seq<int>)
      modifies this
      ensures Enabled(old(View()), env, Tick(tab, order))
      ensures View() == Ticked(old(View()), env, tab, order)
      ensures fired <==> !old(settleDone) && settleDone
    {
      fired, order := false, [];
      var tick := reconcileTicks;
      reconcileTicks := (reconcileTicks + 1) % 0x1_0000_0000;
      if tick % TAB_RECONCILE_TICKS != 0 || env.suppressed || tab.None? {
        return;
      }
      var tracked := |online|;
      ghost var counted := View();
      order := Retire(env, tab.value);
      GoneAllIs(counted, env, order);
      readings := readings + [tracked];
      if !settleDone {
        var prev := settleLastLen;
        settleLastLen := tracked;
        if tracked > 0 && tracked == prev {
          settleQuietTicks := settleQuietTicks + 1;
          if settleQuietTicks >= SETTLE_QUIET_TICKS {
            settleDone := true;
            fired := true;
          }
        } else {
          settleQuietTicks := 0;
        }
      }
    }
  }

  function EntriesApplied(t: Tab, env: Env, updateListed: bool, addPlayer: bool, entries: seq<Entry>): Tab {
    if entries == [] then t else
    var n := |entries| - 1;
    var before := EntriesApplied(t, env, updateListed, addPlayer, entries[..n]);
    EntryApplied(before, env, updateListed, addPlayer, entries[n])
  }

  function AllRemoved(t: Tab, env: Env, ids: seq<int>): Tab {
    if ids == [] then t else Removed(AllRemoved(t, env, ids[..|ids| - 1]), env, ids[|ids| - 1])
  }
}
