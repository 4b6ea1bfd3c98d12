/**
 From the tab list to the table: what the rows of the tab-list state machine leave in
 `player_presence` once the batched writer has applied them.
 */
module OnlineTable {
  import opened Basics
  import opened TabPresence
  import opened PresenceWriter

  // ---------------------------------------------------------------------------
  // What the rows say
  // ---------------------------------------------------------------------------

  /** The write a mark hands to the writer, if any; `id` is the name dictionary. */
  function WriteOf(session: int, m: Mark, at: int, id: string -> int): seq<Write> {
    match m
    case Arrived(_, name, kind) => [Event(session, at, [kind], "t", Some(id(name)))]
    case Departed(_, name, kind) => [Event(session, at, [kind], "t", Some(id(name)))]
    case Restarting => [ServerRestart(session, at)]
    case _ => []
  }

  function Writes(session: int, marks: seq<Mark>, at: int, id: string -> int): seq<Write> {
    if marks == [] then [] else
    Writes(session, marks[..|marks| - 1], at, id) + WriteOf(session, marks[|marks| - 1], at, id)
  }

  /** One mark as the table sees it: rows add and remove names, a suppressed departure does nothing. */
  function NameStep(names: set<int>, m: Mark, id: string -> int): set<int> {
    match m
    case Arrived(_, name, _) => names + {id(name)}
    case Departed(_, name, _) => names - {id(name)}
    case Silent(_) => names
    case _ => {}
  }

  /** The names a history leaves present, from `names` on. */
  function NameFold(names: set<int>, marks: seq<Mark>, id: string -> int): set<int> {
    if marks == [] then names else NameStep(NameFold(names, marks[..|marks| - 1], id), marks[|marks| - 1], id)
  }

  lemma FoldSnoc(names: set<int>, marks: seq<Mark>, m: Mark, id: string -> int)
    ensures NameFold(names, marks + [m], id) == NameStep(NameFold(names, marks, id), m, id)
  {
    assert (marks + [m])[..|marks|] == marks;
  }

  /** Arrivals are appearances or joins, departures disappearances or leaves. */
  predicate Kinds(m: Mark) {
    (m.Arrived? ==> m.kind == 's' || m.kind == 'j') && (m.Departed? ==> m.kind == 'p' || m.kind == 'l')
  }

  // ---------------------------------------------------------------------------
  // What the table says
  // ---------------------------------------------------------------------------

  /** Nothing about the session is dated later than `at`. */
  predicate NoLater(table: map<Key, Presence>, session: int, at: int) {
    forall k :: k in table && k.session == session ==> table[k].at <= at
  }

  /** One row: the present set gains or loses exactly its player. */
  lemma RowMoves(table: map<Key, Presence>, session: int, m: Mark, at: int, id: string -> int)
    requires SessionId(session).Some? && (m.Arrived? || m.Departed?) && Kinds(m) && NoLater(table, session, at)
    ensures var w := WriteOf(session, m, at, id)[0];
            var table' := Note(table, w);
            && NoLater(table', session, at)
            && PresentPlayers(table', session) == NameStep(PresentPlayers(table, session), m, id)
  {
    var w := WriteOf(session, m, at, id)[0];
    var k := Key(session, id(m.name));
    assert IsTab(w) && TabKey(w) == k;
    var table' := Note(table, w);
    assert table' == table[k := Presence(m.Arrived?, at)];
    forall p
      ensures p in PresentPlayers(table', session) <==>
              if p == k.player then m.Arrived? else p in PresentPlayers(table, session)
    {
      IsPresentMeans(table, session, p);
      IsPresentMeans(table', session, p);
    }
  }

  lemma RestartMoves(t: Tables, session: int, at: int)
    requires NoLater(t.presence, session, at)
    ensures var t' := Restarted(t, session, at);
            NoLater(t'.presence, session, at) && PresentPlayers(t'.presence, session) == {}
  {
    RestartRetiresEveryone(t, session, at);
  }

  lemma OneInTurn(t: Tables, w: Write)
    ensures AllInTurn(t, [w]) == InTurn(t, w) && AllInTurn(t, []) == t
  {
    assert [w][..0] == [];
  }

  lemma MarkMoves(t: Tables, session: int, m: Mark, at: int, id: string -> int)
    requires SessionId(session).Some? && !m.Cleared? && Kinds(m) && NoLater(t.presence, session, at)
    ensures var t' := AllInTurn(t, WriteOf(session, m, at, id));
            && NoLater(t'.presence, session, at)
            && PresentPlayers(t'.presence, session) == NameStep(PresentPlayers(t.presence, session), m, id)
  {
    if m.Arrived? || m.Departed? {
      OneInTurn(t, WriteOf(session, m, at, id)[0]);
      RowMoves(t.presence, session, m, at, id);
    } else if m.Restarting? {
      OneInTurn(t, ServerRestart(session, at));
      RestartMoves(t, session, at);
    }
  }

  /** Row by row, the table's present set follows the history's fold over names. */
  lemma {:induction false} TableFollows(t: Tables, session: int, marks: seq<Mark>, at: int, id: string -> int)
    requires SessionId(session).Some? && NoLater(t.presence, session, at)
    requires forall i :: 0 <= i < |marks| ==> Kinds(marks[i]) && !marks[i].Cleared?
    ensures var t' := AllInTurn(t, Writes(session, marks, at, id));
            && NoLater(t'.presence, session, at)
            && PresentPlayers(t'.presence, session) == NameFold(PresentPlayers(t.presence, session), marks, id)
    decreases |marks|
  {
    if marks != [] {
      var n := |marks| - 1;
      TableFollows(t, session, marks[..n], at, id);
      var rows := Writes(session, marks[..n], at, id);
      MarkMoves(AllInTurn(t, rows), session, marks[n], at, id);
      InTurnConcat(t, rows, WriteOf(session, marks[n], at, id));
    }
  }

  // ---------------------------------------------------------------------------
  // When the table shows the tab list
  // ---------------------------------------------------------------------------

  /** The names of the players now tracked. */
  function Shown(online: map<int, string>, id: string -> int): set<int> {
    set u | u in online.Keys :: id(online[u])
  }

  /** What a call does to the tracked players. */
  datatype Effect =
    | Nothing
    | Arrives(uuid: int, name: string)
    | Renames(uuid: int, name: string)
    | Leaves(players: set<int>)
    | Vanishes(uuid: int)
    | Clears

  function JoinEffect(t: Tab, env: Env, uuid: int, cleaned: Option<string>): Effect {
    if cleaned.None? || env.suppressed || cleaned.value == "" || uuid in t.hidden then Nothing
    else if uuid in t.online then Renames(uuid, cleaned.value)
    else Arrives(uuid, cleaned.value)
  }

  function LeaveEffect(t: Tab, env: Env, uuid: int): Effect {
    if uuid !in t.online then Nothing else if env.suppressed then Vanishes(uuid) else Leaves({uuid})
  }

  function EntryEffect(t: Tab, env: Env, updateListed: bool, addPlayer: bool, e: Entry): Effect {
    if updateListed && !e.listed then LeaveEffect(t, env, e.uuid)
    else if e.name == "" then Nothing
    else if updateListed then JoinEffect(t.(hidden := t.hidden - {e.uuid}), env, e.uuid, e.cleaned)
    else if addPlayer then JoinEffect(t, env, e.uuid, e.cleaned)
    else Nothing
  }

  function EffectOf(t: Tab, env: Env, a: Action): Effect {
    match a
    case AddPlayer(uuid, cleaned) => JoinEffect(t, env, uuid, cleaned)
    case RemovePlayer(uuid) => LeaveEffect(t, env, uuid)
    case InfoEntry(updateListed, addPlayer, e) => EntryEffect(t, env, updateListed, addPlayer, e)
    case InfoRemove(uuid) => LeaveEffect(t, env, uuid)
    case Tick(tab, _) => if Reconciles(t, env, tab) then Leaves(t.online.Keys - tab.value) else Nothing
    case Clear => Clears
    case Restart => Clears
  }

  function OnlineAfter(online: map<int, string>, e: Effect): map<int, string> {
    match e
    case Nothing => online
    case Arrives(u, name) => online[u := name]
    case Renames(u, name) => online[u := name]
    case Leaves(players) => online - players
    case Vanishes(u) => online - {u}
    case Clears => map[]
  }

  /** The table learns of arrivals and reported departures, not of renames and suppressed departures. */
  function NamesAfter(names: set<int>, online: map<int, string>, e: Effect, id: string -> int): set<int> {
    match e
    case Arrives(_, name) => names + {id(name)}
    case Leaves(players) => names - set u | u in players && u in online.Keys :: id(online[u])
    case Clears => {}
    case _ => names
  }

  /** The tracked players beside the names their rows leave in the table. */
  datatype Sides = Sides(online: map<int, string>, names: set<int>)

  function SidesOf(t: Tab, names: set<int>, id: string -> int): Sides {
    Sides(t.online, NameFold(names, t.marks, id))
  }

  function SidesAfter(s: Sides, e: Effect, id: string -> int): Sides {
    Sides(OnlineAfter(s.online, e), NamesAfter(s.names, s.online, e, id))
  }

  /** From `t` to `t'` the tracked players and the table's names moved by `e`. */
  ghost predicate Moved(t: Tab, t': Tab, e: Effect, names: set<int>, id: string -> int) {
    SidesOf(t', names, id) == SidesAfter(SidesOf(t, names, id), e, id)
  }

  lemma JoinIs(t: Tab, env: Env, uuid: int, cleaned: Option<string>, names: set<int>, id: string -> int)
    ensures Moved(t, Joined(t, env, uuid, cleaned), JoinEffect(t, env, uuid, cleaned), names, id)
  {
    var e := JoinEffect(t, env, uuid, cleaned);
    if e.Arrives? {
      FoldSnoc(names, t.marks, Arrived(uuid, e.name, JoinKind(env, e.name)), id);
    } else {
      assert t.marks + [] == t.marks;
    }
  }

  lemma LeaveIs(t: Tab, env: Env, uuid: int, names: set<int>, id: string -> int)
    ensures Moved(t, Gone(t, env, uuid), LeaveEffect(t, env, uuid), names, id)
  {
    if uuid in t.online {
      var t' := Gone(t, env, uuid);
      FoldSnoc(names, t.marks, t'.marks[|t.marks|], id);
      if !env.suppressed {
        assert (set u | u in {uuid} && u in t.online.Keys :: id(t.online[u])) == {id(t.online[uuid])};
      }
    }
  }

  lemma LeavesMore(names: set<int>, online: map<int, string>, gone: set<int>, u: int, id: string -> int)
    requires u in online && u !in gone
    ensures (online - gone) - {u} == online - (gone + {u})
    ensures NamesAfter(names, online, Leaves(gone), id) - {id(online[u])}
         == NamesAfter(names, online, Leaves(gone + {u}), id)
  {
    forall n
      ensures n in NamesAfter(names, online, Leaves(gone + {u}), id) <==>
              n in NamesAfter(names, online, Leaves(gone), id) && n != id(online[u])
    {
      if n in names && n !in NamesAfter(names, online, Leaves(gone + {u}), id) {
        var v :| v in gone + {u} && v in online.Keys && id(online[v]) == n;
      }
      assert u in gone + {u};
    }
  }

  function Members(order: seq<int>): set<int> { set i | 0 <= i < |order| :: order[i] }

  lemma RetireOne(t: Tab, env: Env, u: int, names: set<int>, id: string -> int)
    requires !env.suppressed && u in t.online
    ensures NameFold(names, Gone(t, env, u).marks, id) == NameFold(names, t.marks, id) - {id(t.online[u])}
    ensures Gone(t, env, u).online == t.online - {u}
  {
    FoldSnoc(names, t.marks, Gone(t, env, u).marks[|t.marks|], id);
  }

  /** One more player retired. */
  lemma RetireStep(t: Tab, env: Env, gone: set<int>, u: int, now: Tab, names: set<int>, id: string -> int)
    requires !env.suppressed && u in t.online && u !in gone && Moved(t, now, Leaves(gone), names, id)
    ensures Moved(t, Gone(now, env, u), Leaves(gone + {u}), names, id)
  {
    RetireOne(now, env, u, names, id);
    LeavesMore(NameFold(names, t.marks, id), t.online, gone, u, id);
  }

  lemma MembersSnoc(order: seq<int>)
    requires order != [] && forall i, j :: 0 <= i < j < |order| ==> order[i] != order[j]
    ensures var n := |order| - 1;
            Members(order) == Members(order[..n]) + {order[n]} && order[n] !in Members(order[..n])
  {
  }

  lemma {:induction false} RetireIs(t: Tab, env: Env, order: seq<int>, names: set<int>, id: string -> int)
    requires !env.suppressed && forall i, j :: 0 <= i < j < |order| ==> order[i] != order[j]
    requires forall i :: 0 <= i < |order| ==> order[i] in t.online
    ensures Moved(t, GoneAll(t, env, order), Leaves(Members(order)), names, id)
  {
    if order == [] {
      assert t.online - {} == t.online;
    } else {
      var n := |order| - 1;
      RetireIs(t, env, order[..n], names, id);
      MembersSnoc(order);
      RetireStep(t, env, Members(order[..n]), order[n], GoneAll(t, env, order[..n]), names, id);
    }
  }

  lemma ListedMembers(order: seq<int>, ids: set<int>)
    requires Lists(order, ids)
    ensures Members(order) == ids
  {
    forall u ensures u in Members(order) <==> u in ids {
      ListedIff(order, ids, u);
    }
  }

  lemma SameSides(t: Tab, t': Tab, names: set<int>, id: string -> int)
    requires t'.online == t.online && t'.marks == t.marks
    ensures SidesOf(t', names, id) == SidesOf(t, names, id)
  {
  }

  lemma PassIs(t: Tab, env: Env, gone: set<int>, order: seq<int>, names: set<int>, id: string -> int)
    requires !env.suppressed && Lists(order, gone) && gone <= t.online.Keys
    ensures Moved(t, GoneAll(t, env, order), Leaves(gone), names, id)
  {
    ListedMembers(order, gone);
    forall i | 0 <= i < |order| ensures order[i] in t.online {
      assert order[i] in Members(order);
    }
    RetireIs(t, env, order, names, id);
  }

  lemma TickPasses(t: Tab, env: Env, tab: set<int>, order: seq<int>, names: set<int>, id: string -> int)
    requires Reconciles(t, env, Some(tab)) && Lists(order, t.online.Keys - tab)
    ensures Moved(t, Ticked(t, env, Some(tab), order), Leaves(t.online.Keys - tab), names, id)
  {
    var counted := t.(ticks := (t.ticks + 1) % 0x1_0000_0000);
    var passed := GoneAll(counted, env, order);
    SameSides(t, counted, names, id);
    SameSides(passed, Settling(passed, |t.online|), names, id);
    PassIs(counted, env, t.online.Keys - tab, order, names, id);
  }

  lemma TickIs(t: Tab, env: Env, tab: Option<set<int>>, order: seq<int>, names: set<int>, id: string -> int)
    requires Enabled(t, env, Tick(tab, order))
    ensures Moved(t, Ticked(t, env, tab, order), EffectOf(t, env, Tick(tab, order)), names, id)
  {
    if Reconciles(t, env, tab) {
      assert tab == Some(tab.value);
      assert EffectOf(t, env, Tick(tab, order)) == Leaves(t.online.Keys - tab.value);
      TickPasses(t, env, tab.value, order, names, id);
    } else {
      SameSides(t, Ticked(t, env, tab, order), names, id);
    }
  }

  lemma EntryIs(t: Tab, env: Env, updateListed: bool, addPlayer: bool, e: Entry, names: set<int>, id: string -> int)
    ensures Moved(t, EntryApplied(t, env, updateListed, addPlayer, e),
                  EntryEffect(t, env, updateListed, addPlayer, e), names, id)
  {
    if updateListed && !e.listed {
      LeaveIs(t.(hidden := t.hidden + {e.uuid}), env, e.uuid, names, id);
    } else if e.name != "" && updateListed {
      JoinIs(t.(hidden := t.hidden - {e.uuid}), env, e.uuid, e.cleaned, names, id);
    } else if e.name != "" && addPlayer {
      JoinIs(t, env, e.uuid, e.cleaned, names, id);
    }
  }

  lemma AllGone(t: Tab, t': Tab, m: Mark, names: set<int>, id: string -> int)
    requires t'.online == map[] && t'.marks == t.marks + [m] && (m.Cleared? || m.Restarting?)
    ensures Moved(t, t', Clears, names, id)
  {
    FoldSnoc(names, t.marks, m, id);
  }

  lemma RemoveIs(t: Tab, env: Env, uuid: int, names: set<int>, id: string -> int)
    ensures Moved(t, Removed(t, env, uuid), LeaveEffect(t, env, uuid), names, id)
  {
    var shown := t.(hidden := t.hidden - {uuid});
    SameSides(t, shown, names, id);
    LeaveIs(shown, env, uuid, names, id);
  }

  /** Every call moves the tracked players and the table's names by its effect. */
  lemma StepIs(t: Tab, env: Env, a: Action, names: set<int>, id: string -> int)
    requires Enabled(t, env, a)
    ensures Moved(t, Apply(t, env, a), EffectOf(t, env, a), names, id)
  {
    match a
    case AddPlayer(uuid, cleaned) => JoinIs(t, env, uuid, cleaned, names, id);
    case RemovePlayer(uuid) => LeaveIs(t, env, uuid, names, id);
    case InfoEntry(updateListed, addPlayer, e) => EntryIs(t, env, updateListed, addPlayer, e, names, id);
    case InfoRemove(uuid) => RemoveIs(t, env, uuid, names, id);
    case Tick(tab, order) => TickIs(t, env, tab, order, names, id);
    case Clear => AllGone(t, Reset(t), Cleared, names, id);
    case Restart => AllGone(t, ServerRestarted(t), Restarting, names, id);
  }

  /** A tracked player other than `uuid` bears the name `n`. */
  predicate BorneByAnother(online: map<int, string>, uuid: int, n: int, id: string -> int) {
    n in Shown(online - {uuid}, id)
  }

  /**
   A call the table does not follow: a player renamed, unless both names are tracked
   anyway; a departure while suppressed, unless the name stays tracked; a departure of
   someone who shares a name with a player who stays.
   */
  predicate Breaks(online: map<int, string>, e: Effect, id: string -> int) {
    match e
    case Renames(u, name) =>
      && u in online && id(name) != id(online[u])
      && !(BorneByAnother(online, u, id(name), id) && BorneByAnother(online, u, id(online[u]), id))
    case Vanishes(u) => u in online && !BorneByAnother(online, u, id(online[u]), id)
    case Leaves(players) =>
      exists u, v :: u in players && u in online.Keys && v in online.Keys - players && id(online[u]) == id(online[v])
    case _ => false
  }

  lemma ShownSplits(online: map<int, string>, u: int, id: string -> int)
    requires u in online
    ensures Shown(online, id) == Shown(online - {u}, id) + {id(online[u])}
  {
    var less := online - {u};
    forall n ensures n in Shown(online, id) <==> n in Shown(less, id) || n == id(online[u]) {
      if n in Shown(online, id) && n != id(online[u]) {
        var v :| v in online.Keys && id(online[v]) == n;
        assert v in less.Keys;
      }
      if n in Shown(less, id) {
        var v :| v in less.Keys && id(less[v]) == n;
        assert v in online.Keys;
      }
      assert u in online.Keys;
    }
  }

  lemma RenameKeepsIff(online: map<int, string>, u: int, name: string, id: string -> int)
    requires u in online
    ensures Shown(online[u := name], id) == Shown(online, id) <==> !Breaks(online, Renames(u, name), id)
  {
    var after := online[u := name];
    ShownSplits(online, u, id);
    ShownSplits(after, u, id);
    assert after - {u} == online - {u};
    assert id(name) in Shown(after, id) && id(online[u]) in Shown(online, id);
  }

  lemma VanishKeepsIff(online: map<int, string>, u: int, id: string -> int)
    requires u in online
    ensures Shown(online - {u}, id) == Shown(online, id) <==> !Breaks(online, Vanishes(u), id)
  {
    ShownSplits(online, u, id);
    assert id(online[u]) in Shown(online, id);
  }

  lemma LeavesKeepsIff(online: map<int, string>, players: set<int>, id: string -> int)
    ensures NamesAfter(Shown(online, id), online, Leaves(players), id) == Shown(online - players, id)
            <==> !Breaks(online, Leaves(players), id)
  {
    var names := NamesAfter(Shown(online, id), online, Leaves(players), id);
    if Breaks(online, Leaves(players), id) {
      var u, v :| u in players && u in online.Keys && v in online.Keys - players && id(online[u]) == id(online[v]);
      assert v in (online - players).Keys;
      assert id(online[v]) in Shown(online - players, id) && id(online[u]) !in names;
    } else {
      forall n ensures n in names <==> n in Shown(online - players, id) {
        if n in names {
          var v :| v in online.Keys && id(online[v]) == n;
          assert v in (online - players).Keys;
        }
      }
    }
  }

  lemma ArrivalKeeps(online: map<int, string>, u: int, name: string, id: string -> int)
    requires u !in online
    ensures Shown(online[u := name], id) == Shown(online, id) + {id(name)}
  {
    ShownSplits(online[u := name], u, id);
    assert online[u := name] - {u} == online;
  }

  predicate FitsOnline(online: map<int, string>, e: Effect) {
    && (e.Arrives? ==> e.uuid !in online)
    && (e.Renames? || e.Vanishes? ==> e.uuid in online)
  }

  lemma EffectFits(t: Tab, env: Env, a: Action)
    ensures FitsOnline(t.online, EffectOf(t, env, a))
  {
  }

  lemma EffectKeepsIff(online: map<int, string>, e: Effect, id: string -> int)
    requires FitsOnline(online, e)
    ensures NamesAfter(Shown(online, id), online, e, id) == Shown(OnlineAfter(online, e), id)
            <==> !Breaks(online, e, id)
  {
    match e
    case Arrives(u, name) => ArrivalKeeps(online, u, name, id);
    case Renames(u, name) => RenameKeepsIff(online, u, name, id);
    case Leaves(players) => LeavesKeepsIff(online, players, id);
    case Vanishes(u) => VanishKeepsIff(online, u, id);
    case _ =>
  }

  // ---------------------------------------------------------------------------
  // The writer beside the tab list
  // ---------------------------------------------------------------------------

  /** What a call adds to the history. */
  function NewMarks(t: Tab, env: Env, a: Action): seq<Mark> { Apply(t.(marks := []), env, a).marks }

  /** A write that can change who is present in the session. */
  predicate Concerns(w: Write, session: int) { (IsTab(w) && w.session == session) || Restarts(w, session) }

  predicate NoneConcerns(writes: seq<Write>, session: int) {
    forall i :: 0 <= i < |writes| ==> !Concerns(writes[i], session)
  }

  /**
   The tab list, and the writer with the writes it has not flushed yet. `session` is the
   session the rows now belong to, `now` the moment of the last call.
   */
  datatype World = World(tab: Tab, session: int, now: int, pending: seq<Write>, tables: Tables)

  /**
   A call of the tab list, which hands its rows to the writer; a write from elsewhere; a
   flush, which may come at any moment. A login or disconnect opens the session `next`.
   */
  datatype Move =
    | Call(env: Env, act: Action, next: int)
    | Another(write: Write)
    | Flush

  /** A session of which neither the tables nor the writer have heard. */
  ghost predicate Unheard(w: World, session: int) {
    && SessionId(session).Some? && NoneConcerns(w.pending, session)
    && forall k :: k in w.tables.presence ==> k.session != session
  }

  ghost predicate CanDo(w: World, m: Move) {
    match m
    case Call(env, act, next) =>
      Enabled(w.tab, env, act) && w.now <= env.now && (act.Clear? ==> Unheard(w, next))
    case Another(x) => !Concerns(x, w.session) && !x.ReconcileOnline?
    case Flush => true
  }

  function Do(w: World, m: Move, id: string -> int): World {
    match m
    case Call(env, act, next) =>
      var tab := Apply(w.tab, env, act);
      if act.Clear? then w.(tab := tab, now := env.now, session := next)
      else w.(tab := tab, now := env.now,
              pending := w.pending + Writes(w.session, NewMarks(w.tab, env, act), env.now, id))
    case Another(x) => w.(pending := w.pending + [x])
    case Flush => w.(pending := [], tables := Flushed(w.tables, w.pending))
  }

  function DoAll(w: World, ms: seq<Move>, id: string -> int): World {
    if ms == [] then w else Do(DoAll(w, ms[..|ms| - 1], id), ms[|ms| - 1], id)
  }

  ghost predicate CanDoAll(w: World, ms: seq<Move>, id: string -> int) {
    ms == [] ||
    var n := |ms| - 1;
    CanDoAll(w, ms[..n], id) && CanDo(DoAll(w, ms[..n], id), ms[n])
  }

  /** The players of the current session the table lists. */
  function OnlineNow(w: World): set<int> { PresentPlayers(w.tables.presence, w.session) }

  /** Whom it would list with the pending writes applied in turn. */
  function Expected(w: World): set<int> { PresentPlayers(AllInTurn(w.tables, w.pending).presence, w.session) }

  predicate CaughtUp(w: World) { NoneConcerns(w.pending, w.session) }

  /** The writer starts on a session in which nobody is listed. */
  ghost predicate Starts(w: World) {
    w.tab == EMPTY && w.pending == [] && OnlineNow(w) == {} && Dated(w)
  }

  ghost predicate OnTime(writes: seq<Write>, session: int, now: int) {
    forall i :: 0 <= i < |writes| && Concerns(writes[i], session) ==> writes[i].at <= now
  }

  /** Nothing about the session is later than the last call. */
  ghost predicate Dated(w: World) {
    && SessionId(w.session).Some? && NoLater(w.tables.presence, w.session, w.now)
    && OnTime(w.pending, w.session, w.now)
  }

  // ---------------------------------------------------------------------------
  // What keeps the dates
  // ---------------------------------------------------------------------------

  lemma {:induction false} InTurnNoLater(t: Tables, writes: seq<Write>, session: int, now: int)
    requires NoLater(t.presence, session, now) && OnTime(writes, session, now)
    ensures NoLater(AllInTurn(t, writes).presence, session, now)
  {
    if writes != [] {
      var n := |writes| - 1;
      assert forall i :: 0 <= i < n ==> writes[..n][i] == writes[i];
      InTurnNoLater(t, writes[..n], session, now);
    }
  }

  lemma {:induction false} RestartedNoLater(t: Tables, writes: seq<Write>, session: int, now: int)
    requires NoLater(t.presence, session, now) && OnTime(writes, session, now)
    ensures NoLater(AllRestarted(t, writes).presence, session, now)
  {
    if writes != [] {
      var n := |writes| - 1;
      assert forall i :: 0 <= i < n ==> writes[..n][i] == writes[i];
      RestartedNoLater(t, writes[..n], session, now);
    }
  }

  lemma FlushedNoLater(t: Tables, writes: seq<Write>, session: int, now: int)
    requires NoLater(t.presence, session, now) && OnTime(writes, session, now)
    ensures NoLater(Flushed(t, writes).presence, session, now)
  {
    BatchPresence(t, writes);
    forall k | k in EventsWritten(t, writes).presence && k.session == session
      ensures EventsWritten(t, writes).presence[k].at <= now
    {
      EntryIsOlder(t.presence, writes, k, now);
    }
    RestartedNoLater(EventsWritten(t, writes), writes, session, now);
  }

  /** A mark that a call other than a clear may leave. */
  predicate RowMark(m: Mark) { Kinds(m) && !m.Cleared? }

  predicate RowMarks(marks: seq<Mark>) { forall i :: 0 <= i < |marks| ==> RowMark(marks[i]) }

  lemma {:induction false} GoneAllMarks(t: Tab, env: Env, order: seq<int>)
    requires RowMarks(t.marks)
    ensures RowMarks(GoneAll(t, env, order).marks)
  {
    if order != [] {
      GoneAllMarks(t, env, order[..|order| - 1]);
    }
  }

  lemma JoinedMarks(t: Tab, env: Env, uuid: int, cleaned: Option<string>)
    requires RowMarks(t.marks)
    ensures RowMarks(Joined(t, env, uuid, cleaned).marks)
  {
  }

  lemma GoneMarks(t: Tab, env: Env, uuid: int)
    requires RowMarks(t.marks)
    ensures RowMarks(Gone(t, env, uuid).marks)
  {
  }

  lemma EntryMarks(t: Tab, env: Env, updateListed: bool, addPlayer: bool, e: Entry)
    requires RowMarks(t.marks)
    ensures RowMarks(EntryApplied(t, env, updateListed, addPlayer, e).marks)
  {
    if updateListed && !e.listed {
      GoneMarks(t.(hidden := t.hidden + {e.uuid}), env, e.uuid);
    } else if updateListed {
      JoinedMarks(t.(hidden := t.hidden - {e.uuid}), env, e.uuid, e.cleaned);
    } else {
      JoinedMarks(t, env, e.uuid, e.cleaned);
    }
  }

  lemma NewMarksHaveRows(t: Tab, env: Env, a: Action)
    requires !a.Clear?
    ensures RowMarks(NewMarks(t, env, a))
  {
    var t0 := t.(marks := []);
    match a
    case AddPlayer(uuid, cleaned) => JoinedMarks(t0, env, uuid, cleaned);
    case RemovePlayer(uuid) => GoneMarks(t0, env, uuid);
    case InfoEntry(updateListed, addPlayer, e) => EntryMarks(t0, env, updateListed, addPlayer, e);
    case InfoRemove(uuid) => GoneMarks(t0.(hidden := t.hidden - {uuid}), env, uuid);
    case Tick(_, order) => GoneAllMarks(t0.(ticks := (t.ticks + 1) % 0x1_0000_0000), env, order);
    case Restart =>
  }

  lemma {:induction false} WritesOnTime(session: int, marks: seq<Mark>, at: int, id: string -> int, other: int)
    ensures OnTime(Writes(session, marks, at, id), other, at)
    decreases |marks|
  {
    if marks != [] {
      WritesOnTime(session, marks[..|marks| - 1], at, id, other);
    }
  }

  lemma DoKeepsDates(w: World, m: Move, id: string -> int)
    requires Dated(w) && CanDo(w, m)
    ensures Dated(Do(w, m, id))
  {
    match m
    case Call(env, act, next) =>
      if !act.Clear? {
        WritesOnTime(w.session, NewMarks(w.tab, env, act), env.now, id, w.session);
      }
    case Another(_) =>
    case Flush => FlushedNoLater(w.tables, w.pending, w.session, w.now);
  }

  // ---------------------------------------------------------------------------
  // What a move does to the expected players
  // ---------------------------------------------------------------------------

  lemma {:induction false} Untouched(t: Tables, writes: seq<Write>, k: Key)
    requires NoneConcerns(writes, k.session)
    ensures SameEntry(AllInTurn(t, writes).presence, t.presence, k)
  {
    if writes != [] {
      var n := |writes| - 1;
      assert forall i :: 0 <= i < n ==> writes[..n][i] == writes[i];
      Untouched(t, writes[..n], k);
      OtherStays(AllInTurn(t, writes[..n]), writes[n], k);
    }
  }

  lemma UntouchedPlayers(t: Tables, writes: seq<Write>, session: int)
    requires NoneConcerns(writes, session)
    ensures PresentPlayers(AllInTurn(t, writes).presence, session) == PresentPlayers(t.presence, session)
  {
    forall p: int
      ensures IsPresent(AllInTurn(t, writes).presence, Key(session, p)) == IsPresent(t.presence, Key(session, p))
    {
      Untouched(t, writes, Key(session, p));
    }
    SamePlayers(AllInTurn(t, writes).presence, t.presence, session);
  }

  /** Once the writer has caught up, the table lists whom it is expected to. */
  lemma CaughtUpLists(w: World)
    requires CaughtUp(w)
    ensures OnlineNow(w) == Expected(w)
  {
    UntouchedPlayers(w.tables, w.pending, w.session);
  }

  lemma UnheardIsEmpty(w: World, session: int)
    requires Unheard(w, session)
    ensures PresentPlayers(AllInTurn(w.tables, w.pending).presence, session) == {}
  {
    UntouchedPlayers(w.tables, w.pending, session);
  }

  /** The rows of a stretch of marks move the expected players by their fold. */
  lemma RowsMove(t: Tables, pending: seq<Write>, session: int, marks: seq<Mark>, at: int, id: string -> int)
    requires SessionId(session).Some? && NoLater(t.presence, session, at) && OnTime(pending, session, at)
    requires RowMarks(marks)
    ensures PresentPlayers(AllInTurn(t, pending + Writes(session, marks, at, id)).presence, session)
         == NameFold(PresentPlayers(AllInTurn(t, pending).presence, session), marks, id)
  {
    assert forall i :: 0 <= i < |marks| ==> RowMark(marks[i]);
    InTurnNoLater(t, pending, session, at);
    TableFollows(AllInTurn(t, pending), session, marks, at, id);
    InTurnConcat(t, pending, Writes(session, marks, at, id));
  }

  lemma NewMarksMove(t: Tab, env: Env, a: Action, names: set<int>, id: string -> int)
    requires Enabled(t, env, a)
    ensures NameFold(names, NewMarks(t, env, a), id) == NamesAfter(names, t.online, EffectOf(t, env, a), id)
  {
    StepIs(t.(marks := []), env, a, names, id);
  }

  /** Every call moves the expected players by its effect. */
  lemma CallMoves(w: World, env: Env, act: Action, next: int, id: string -> int)
    requires Dated(w) && CanDo(w, Call(env, act, next))
    ensures Expected(Do(w, Call(env, act, next), id))
         == NamesAfter(Expected(w), w.tab.online, EffectOf(w.tab, env, act), id)
  {
    if act.Clear? {
      UnheardIsEmpty(w, next);
    } else {
      NewMarksHaveRows(w.tab, env, act);
      RowsMove(w.tables, w.pending, w.session, NewMarks(w.tab, env, act), env.now, id);
      NewMarksMove(w.tab, env, act, Expected(w), id);
    }
  }

  lemma AnotherMoves(w: World, x: Write, id: string -> int)
    requires CanDo(w, Another(x))
    ensures Expected(Do(w, Another(x), id)) == Expected(w)
  {
    InTurnConcat(w.tables, w.pending, [x]);
    UntouchedPlayers(AllInTurn(w.tables, w.pending), [x], w.session);
  }

  lemma FlushMoves(w: World, id: string -> int)
    ensures Expected(Do(w, Flush, id)) == OnlineNow(Do(w, Flush, id))
    ensures Expected(Do(w, Flush, id)) == Expected(w) <==> !FlushLoses(w.tables, w.pending, w.session)
  {
    FlushOrderIff(w.tables, w.pending, w.session);
  }

  // ---------------------------------------------------------------------------
  // Main results
  // ---------------------------------------------------------------------------

  /** The table, with what is pending, lists exactly the tracked players' names. */
  predicate ShowsTabList(w: World, id: string -> int) { Expected(w) == Shown(w.tab.online, id) }

  /** One of the three calls the table does not follow, or a flush that loses. */
  ghost predicate Parts(w: World, m: Move, id: string -> int) {
    match m
    case Call(env, act, _) => Breaks(w.tab.online, EffectOf(w.tab, env, act), id)
    case Another(_) => false
    case Flush => FlushLoses(w.tables, w.pending, w.session)
  }

  /** If the table shows the tab list before a move, it does after it exactly when the move does not part them. */
  lemma MoveKeepsIff(w: World, m: Move, id: string -> int)
    requires Dated(w) && CanDo(w, m) && ShowsTabList(w, id)
    ensures ShowsTabList(Do(w, m, id), id) <==> !Parts(w, m, id)
  {
    match m
    case Call(env, act, next) =>
      CallMoves(w, env, act, next, id);
      EffectFits(w.tab, env, act);
      EffectKeepsIff(w.tab.online, EffectOf(w.tab, env, act), id);
      OnlineMoves(w.tab, env, act);
    case Another(x) => AnotherMoves(w, x, id);
    case Flush => FlushMoves(w, id);
  }

  lemma OnlineMoves(t: Tab, env: Env, a: Action)
    requires Enabled(t, env, a)
    ensures Apply(t, env, a).online == OnlineAfter(t.online, EffectOf(t, env, a))
  {
    StepIs(t, env, a, {}, s => 0);
  }

  /** The world after the first `n` moves. */
  function After(w: World, ms: seq<Move>, n: nat, id: string -> int): World
    requires n <= |ms|
  {
    DoAll(w, ms[..n], id)
  }

  ghost predicate PartsAt(w: World, ms: seq<Move>, n: nat, id: string -> int)
    requires n < |ms|
  {
    Parts(After(w, ms, n, id), ms[n], id)
  }

  lemma {:induction false} PrefixCanDo(w: World, ms: seq<Move>, n: nat, id: string -> int)
    requires CanDoAll(w, ms, id) && n <= |ms|
    ensures CanDoAll(w, ms[..n], id)
    decreases |ms|
  {
    if n == |ms| {
      assert ms[..n] == ms;
    } else {
      PrefixCanDo(w, ms[..|ms| - 1], n, id);
      assert ms[..|ms| - 1][..n] == ms[..n];
    }
  }

  lemma {:induction false} DoAllKeepsDates(w: World, ms: seq<Move>, id: string -> int)
    requires Dated(w) && CanDoAll(w, ms, id)
    ensures Dated(DoAll(w, ms, id))
    decreases |ms|
  {
    if ms != [] {
      var n := |ms| - 1;
      DoAllKeepsDates(w, ms[..n], id);
      DoKeepsDates(DoAll(w, ms[..n], id), ms[n], id);
    }
  }

  /** Move `n` of a run. */
  lemma MoveOf(w: World, ms: seq<Move>, n: nat, id: string -> int)
    requires Dated(w) && CanDoAll(w, ms, id) && n < |ms|
    ensures Dated(After(w, ms, n, id)) && CanDo(After(w, ms, n, id), ms[n])
    ensures After(w, ms, n + 1, id) == Do(After(w, ms, n, id), ms[n], id)
  {
    PrefixCanDo(w, ms, n + 1, id);
    assert ms[..n + 1][..n] == ms[..n];
    DoAllKeepsDates(w, ms[..n], id);
  }

  lemma NoMoves(w: World, ms: seq<Move>, id: string -> int)
    ensures After(w, ms, 0, id) == w && After(w, ms, |ms|, id) == DoAll(w, ms, id)
  {
    assert ms[..0] == [] && ms[..|ms|] == ms;
  }

  lemma ShowsOnIff(w: World, ms: seq<Move>, n: nat, id: string -> int)
    requires Dated(w) && CanDoAll(w, ms, id) && n < |ms| && ShowsTabList(After(w, ms, n, id), id)
    ensures ShowsTabList(After(w, ms, n + 1, id), id) <==> !PartsAt(w, ms, n, id)
  {
    MoveOf(w, ms, n, id);
    MoveKeepsIff(After(w, ms, n, id), ms[n], id);
  }

  lemma {:induction false} Climb(holds: nat -> bool, n: nat)
    requires holds(0) && forall k: nat :: k < n && holds(k) ==> holds(k + 1)
    ensures holds(n)
  {
    if n > 0 {
      Climb(holds, n - 1);
    }
  }

  lemma ShowsUpTo(w: World, ms: seq<Move>, n: nat, id: string -> int)
    requires Dated(w) && CanDoAll(w, ms, id) && ShowsTabList(w, id)
    requires n <= |ms| && forall k :: 0 <= k < n ==> !PartsAt(w, ms, k, id)
    ensures ShowsTabList(After(w, ms, n, id), id)
  {
    var holds := (k: nat) => k <= |ms| && ShowsTabList(After(w, ms, k, id), id);
    NoMoves(w, ms, id);
    forall k: nat | k < n && holds(k) ensures holds(k + 1) {
      ShowsOnIff(w, ms, k, id);
    }
    Climb(holds, n);
  }

  lemma StartShows(w: World, id: string -> int)
    requires Starts(w)
    ensures Expected(w) == {} && ShowsTabList(w, id)
  {
    CaughtUpLists(w);
  }

  /**
   End to end, over every run of calls, other writes and flushes, whenever they come: the
   table with what is pending shows the tab list at every moment, if and only if no move of
   the run parts them. Then the table itself shows it whenever the writer has caught up.
   */
  lemma OnlineNowIsTabList(w: World, ms: seq<Move>, id: string -> int)
    requires Starts(w) && CanDoAll(w, ms, id)
    ensures (forall n :: 0 <= n <= |ms| ==> ShowsTabList(After(w, ms, n, id), id))
            <==> forall n :: 0 <= n < |ms| ==> !PartsAt(w, ms, n, id)
    ensures forall n :: 0 <= n <= |ms| && ShowsTabList(After(w, ms, n, id), id) && CaughtUp(After(w, ms, n, id)) ==>
              OnlineNow(After(w, ms, n, id)) == Shown(After(w, ms, n, id).tab.online, id)
  {
    StartShows(w, id);
    if forall n :: 0 <= n < |ms| ==> !PartsAt(w, ms, n, id) {
      forall n | 0 <= n <= |ms| ensures ShowsTabList(After(w, ms, n, id), id) {
        ShowsUpTo(w, ms, n, id);
      }
    } else {
      var n :| 0 <= n < |ms| && PartsAt(w, ms, n, id);
      if ShowsTabList(After(w, ms, n, id), id) {
        ShowsOnIff(w, ms, n, id);
      }
    }
    forall n | 0 <= n <= |ms| && ShowsTabList(After(w, ms, n, id), id) && CaughtUp(After(w, ms, n, id))
      ensures OnlineNow(After(w, ms, n, id)) == Shown(After(w, ms, n, id).tab.online, id)
    {
      CaughtUpLists(After(w, ms, n, id));
    }
  }

  /** The table, with what is pending, lists exactly the names the history's rows leave present. */
  predicate ShowsRows(w: World, id: string -> int) { Expected(w) == NameFold({}, w.tab.marks, id) }

  lemma RowsKeptIff(w: World, m: Move, id: string -> int)
    requires Dated(w) && CanDo(w, m) && ShowsRows(w, id)
    ensures ShowsRows(Do(w, m, id), id) <==> (m.Flush? ==> !FlushLoses(w.tables, w.pending, w.session))
  {
    match m
    case Call(env, act, next) =>
      CallMoves(w, env, act, next, id);
      StepIs(w.tab, env, act, {}, id);
    case Another(x) => AnotherMoves(w, x, id);
    case Flush => FlushMoves(w, id);
  }

  ghost predicate LosesAt(w: World, ms: seq<Move>, n: nat, id: string -> int)
    requires n < |ms|
  {
    var before := After(w, ms, n, id);
    ms[n].Flush? && FlushLoses(before.tables, before.pending, before.session)
  }

  lemma RowsOnIff(w: World, ms: seq<Move>, n: nat, id: string -> int)
    requires Dated(w) && CanDoAll(w, ms, id) && n < |ms| && ShowsRows(After(w, ms, n, id), id)
    ensures ShowsRows(After(w, ms, n + 1, id), id) <==> !LosesAt(w, ms, n, id)
  {
    MoveOf(w, ms, n, id);
    RowsKeptIff(After(w, ms, n, id), ms[n], id);
  }

  lemma RowsUpTo(w: World, ms: seq<Move>, n: nat, id: string -> int)
    requires Dated(w) && CanDoAll(w, ms, id) && ShowsRows(w, id)
    requires n <= |ms| && forall k :: 0 <= k < n ==> !LosesAt(w, ms, k, id)
    ensures ShowsRows(After(w, ms, n, id), id)
  {
    var holds := (k: nat) => k <= |ms| && ShowsRows(After(w, ms, k, id), id);
    NoMoves(w, ms, id);
    forall k: nat | k < n && holds(k) ensures holds(k + 1) {
      RowsOnIff(w, ms, k, id);
    }
    Climb(holds, n);
  }

  /**
   Over every run, with nothing assumed about names or suppression: the table with what is
   pending holds at every moment exactly the names the calls' rows leave present, if and only
   if no flush loses.
   */
  lemma TableIsNameFold(w: World, ms: seq<Move>, id: string -> int)
    requires Starts(w) && CanDoAll(w, ms, id)
    ensures (forall n :: 0 <= n <= |ms| ==> ShowsRows(After(w, ms, n, id), id))
            <==> forall n :: 0 <= n < |ms| ==> !LosesAt(w, ms, n, id)
  {
    StartShows(w, id);
    if forall n :: 0 <= n < |ms| ==> !LosesAt(w, ms, n, id) {
      forall n | 0 <= n <= |ms| ensures ShowsRows(After(w, ms, n, id), id) {
        RowsUpTo(w, ms, n, id);
      }
    } else {
      var n :| 0 <= n < |ms| && LosesAt(w, ms, n, id);
      if ShowsRows(After(w, ms, n, id), id) {
        RowsOnIff(w, ms, n, id);
      }
    }
  }

  lemma {:induction false} TwoMoves(w: World, a: Move, b: Move, id: string -> int)
    ensures DoAll(w, [a, b], id) == Do(Do(w, a, id), b, id)
    ensures CanDoAll(w, [a, b], id) <==> CanDo(w, a) && CanDo(Do(w, a, id), b)
  {
    assert [a, b][..1] == [a] && [a][..0] == [];
    assert DoAll(w, [a], id) == Do(w, a, id);
    assert CanDoAll(w, [a], id) <==> CanDo(w, a);
  }

  /** A lone disappearance: nothing is logged, although the table does not say so yet. */
  lemma LoneDeparture(t: Tables, p: int, at: int)
    requires t.presence == map[Key(1, p) := Presence(true, at)]
    ensures var batch := [Event(1, at, "p", "t", Some(p))];
            Flushed(t, batch) == t && FlushLoses(t, batch, 1)
  {
    var batch := [Event(1, at, "p", "t", Some(p))];
    assert batch[..0] == [];
    assert Logged([]) == multiset{} && Logged(batch) == multiset{};
    assert EventsWritten(t, batch) == t;
    assert AllRestarted(t, []) == t && AllRestarted(t, batch) == t;
    assert About(batch[0], Key(1, p));
    assert IsNewest(t.presence, batch, Key(1, p), 0);
  }

  /** The players a settle reconcile reports: the tracked ones but the logger itself. */
  function Reported(online: map<int, string>, env: Env, id: string -> int): set<int> {
    set u | u in online.Keys && !OwnBot(env, online[u]) :: id(online[u])
  }

  predicate Repeats(ids: seq<int>) { exists i, j :: 0 <= i < j < |ids| && ids[i] == ids[j] }

  /**
   A settle reconcile that reports somebody fails if and only if it reports two players of one
   name. Otherwise, whatever parted table and tab list before, it brings them together, if
   and only if every tracked name of the logger itself is also another tracked player's.
   */
  lemma SettleRestores(w: World, env: Env, players: seq<Option<int>>, pick: map<int, char>, id: string -> int)
    requires Dated(w) && Ids(players) != [] && Everyone(Ids(players)) == Reported(w.tab.online, env, id)
    ensures var settle := ReconcileOnline(w.session, w.now, players);
            var online, ids := w.tab.online, Reported(w.tab.online, env, id);
            && (Fails(w.tables, settle) <==> Repeats(Ids(players)))
            && (PresentPlayers(Rejoined(w.tables, settle, pick).presence, w.session) == Shown(online, id)
                <==> forall u :: u in online.Keys && OwnBot(env, online[u]) ==> id(online[u]) in ids)
  {
    var ids := Reported(w.tab.online, env, id);
    PresentAfterReconcile(w.tables, w.session, w.now, ids, pick);
    assert forall p :: p in ids ==> !GoneSince(w.tables.presence, w.session, w.now, p);
    assert (set p | p in ids && !GoneSince(w.tables.presence, w.session, w.now, p)) == ids;
    ReportedIsShown(w.tab.online, env, id);
    SettleFailsIff(w, players);
  }

  lemma SettleFailsIff(w: World, players: seq<Option<int>>)
    requires Dated(w)
    ensures Fails(w.tables, ReconcileOnline(w.session, w.now, players)) <==> Repeats(Ids(players))
  {
    if Repeats(Ids(players)) {
      var i, j :| 0 <= i < j < |Ids(players)| && Ids(players)[i] == Ids(players)[j];
      var k := Key(w.session, Ids(players)[i]);
      assert k in w.tables.presence ==> w.tables.presence[k].at <= w.now;
      assert MarksTwice(w.tables.presence, w.session, w.now, Ids(players));
    }
  }

  lemma ReportedIsShown(online: map<int, string>, env: Env, id: string -> int)
    ensures Reported(online, env, id) == Shown(online, id)
            <==> forall u :: u in online.Keys && OwnBot(env, online[u]) ==> id(online[u]) in Reported(online, env, id)
  {
    forall u | u in online.Keys ensures id(online[u]) in Shown(online, id) {
    }
    assert Reported(online, env, id) <= Shown(online, id);
    if forall u :: u in online.Keys && OwnBot(env, online[u]) ==> id(online[u]) in Reported(online, env, id) {
      forall n | n in Shown(online, id) ensures n in Reported(online, env, id) {
        var u :| u in online.Keys && id(online[u]) == n;
      }
    }
  }

  /** A tracked player leaves a server whose joins chat announces. */
  const LEAVE := Call(Env(false, false, 0, 0, None), RemovePlayer(1), 0)

  lemma {:induction false} LeaveHandsOver(w: World, id: string -> int)
    requires w.tab == EMPTY.(online := map[1 := "ann"]) && w.session == 1 && w.now == 0 && w.pending == []
    ensures CanDo(w, LEAVE)
    ensures Do(w, LEAVE, id).pending == [Event(1, 0, "p", "t", Some(id("ann")))]
    ensures Do(w, LEAVE, id).tab.online == map[] && Do(w, LEAVE, id).session == 1
    ensures Do(w, LEAVE, id).tables == w.tables
  {
    var marks := NewMarks(w.tab, LEAVE.env, LEAVE.act);
    assert marks == [Departed(1, "ann", 'p')] && marks[..0] == [];
    assert Writes(1, [], 0, id) == [];
    assert Writes(1, marks, 0, id) == [Event(1, 0, "p", "t", Some(id("ann")))];
  }

  lemma {:induction false} LeaveIsFollowed(id: string -> int)
    ensures var t := EMPTY.(online := map[1 := "ann"]);
            !Breaks(t.online, EffectOf(t, LEAVE.env, LEAVE.act), id)
  {
    var online: map<int, string> := map[1 := "ann"];
    assert online.Keys - {1} == {};
  }

  lemma {:induction false} DepartureDropped(w: World, p: int, id: string -> int)
    requires w.session == 1 && w.pending == [Event(1, 0, "p", "t", Some(p))]
    requires w.tables == Tables(map[Key(1, p) := Presence(true, 0)], multiset{})
    ensures CanDo(w, Flush) && Parts(w, Flush, id) && OnlineNow(Do(w, Flush, id)) == {p}
  {
    LoneDeparture(w.tables, p, 0);
    forall q ensures q in PresentPlayers(w.tables.presence, 1) <==> q == p {
      IsPresentMeans(w.tables.presence, 1, q);
    }
  }

  /**
   A flush that logs nothing, after none of the three calls: a player the table lists leaves
   on a server whose joins chat announces, and stays listed.
   */
  lemma {:induction false} QuietFlushLeavesGhost(w: World, id: string -> int)
    requires w == World(EMPTY.(online := map[1 := "ann"]), 1, 0, [],
                        Tables(map[Key(1, id("ann")) := Presence(true, 0)], multiset{}))
    ensures var w' := DoAll(w, [LEAVE, Flush], id);
            && CanDoAll(w, [LEAVE, Flush], id) && !Parts(w, LEAVE, id) && Parts(Do(w, LEAVE, id), Flush, id)
            && w'.tab.online == map[] && OnlineNow(w') == {id("ann")}
  {
    TwoMoves(w, LEAVE, Flush, id);
    LeaveHandsOver(w, id);
    LeaveIsFollowed(id);
    DepartureDropped(Do(w, LEAVE, id), id("ann"), id);
  }

  /** A player renamed while online leaves under the new name: the old one stays present. */
  lemma RenameLeavesGhost(id: string -> int)
    requires id("ann") != id("bob")
    ensures var env := Env(false, false, 0, 0, None);
            var t1 := Apply(EMPTY, env, AddPlayer(1, Some("ann")));
            var t2 := Apply(t1, env, AddPlayer(1, Some("bob")));
            var t3 := Apply(t2, env, RemovePlayer(1));
            t3.online == map[] && NameFold({}, t3.marks, id) == {id("ann")}
  {
    var env := Env(false, false, 0, 0, None);
    var t1 := Apply(EMPTY, env, AddPlayer(1, Some("ann")));
    StepIs(EMPTY, env, AddPlayer(1, Some("ann")), {}, id);
    var t2 := Apply(t1, env, AddPlayer(1, Some("bob")));
    StepIs(t1, env, AddPlayer(1, Some("bob")), {}, id);
    StepIs(t2, env, RemovePlayer(1), {}, id);
    assert NameFold({}, t2.marks, id) == {id("ann")};
    assert (set u | u in {1} && u in t2.online.Keys :: id(t2.online[u])) == {id("bob")};
  }
}
