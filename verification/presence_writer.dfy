/**
 The batched presence writer. `player_presence` is a map, `player_events_raw` a bag of
 rows, and each SQL statement an operation on them. Names are already resolved to
 dictionary ids; None is a name the dictionary could not store.
 */
module PresenceWriter {
  import opened Basics

  datatype Key = Key(session: int, player: int)

  datatype Presence = Presence(present: bool, at: int)

  datatype LogRow = LogRow(session: Option<int>, at: int, player: int, kind: char, source: char)

  datatype Tables = Tables(presence: map<Key, Presence>, log: multiset<LogRow>)

  datatype Write =
    | Chat
    | Event(session: int, at: int, kind: string, source: string, player: Option<int>)
    | ServerRestart(session: int, at: int)
    | ReconcileOnline(session: int, at: int, players: seq<Option<int>>)

  /** The narrow int4 column; a session that does not fit is written unlinked. */
  function SessionId(value: int): Option<int> {
    if -0x8000_0000 <= value < 0x8000_0000 then Some(value) else None
  }

  function Code(value: string): char { if value == "" then 'u' else value[0] }

  // ---------------------------------------------------------------------------
  // Presence is last-write-wins
  // ---------------------------------------------------------------------------

  /** The guarded upsert of one row, and equally the per-batch fold. */
  function PutNewer(table: map<Key, Presence>, k: Key, v: Presence): map<Key, Presence> {
    if k !in table || table[k].at <= v.at then table[k := v] else table
  }

  /** An event that says something about the tab list. */
  predicate IsTab(w: Write) {
    w.Event? && w.player.Some? && Code(w.source) == 't' && SessionId(w.session).Some?
  }

  function TabKey(w: Write): Key
    requires IsTab(w)
  {
    Key(w.session, w.player.value)
  }

  function TabState(w: Write): Presence
    requires IsTab(w)
  {
    Presence(Code(w.kind) != 'l' && Code(w.kind) != 'p', w.at)
  }

  function Note(table: map<Key, Presence>, w: Write): map<Key, Presence> {
    if IsTab(w) then PutNewer(table, TabKey(w), TabState(w)) else table
  }

  /** Tab events applied one at a time. */
  function ApplyEach(table: map<Key, Presence>, batch: seq<Write>): map<Key, Presence> {
    if batch == [] then table else Note(ApplyEach(table, batch[..|batch| - 1]), batch[|batch| - 1])
  }

  /** One upsert statement over distinct keys. */
  function Merge(table: map<Key, Presence>, m: map<Key, Presence>): map<Key, Presence> {
    map k | k in table.Keys + m.Keys ::
      if k in m && (k !in table || table[k].at <= m[k].at) then m[k] else table[k]
  }

  /** Tab appearances and disappearances update presence but are not logged. */
  predicate IsLogged(w: Write) {
    w.Event? && w.player.Some? && Code(w.kind) != 'p' && Code(w.kind) != 's'
  }

  function RowOf(w: Write): LogRow
    requires IsLogged(w)
  {
    LogRow(SessionId(w.session), w.at, w.player.value, Code(w.kind), Code(w.source))
  }

  function Logged(batch: seq<Write>): multiset<LogRow> {
    if batch == [] then multiset{} else
    Logged(batch[..|batch| - 1])
      + if IsLogged(batch[|batch| - 1]) then multiset{RowOf(batch[|batch| - 1])} else multiset{}
  }

  /** A batch that logs nothing returns before its presence is written. */
  function EventsWritten(t: Tables, batch: seq<Write>): Tables {
    if Logged(batch) == multiset{} then t
    else Tables(Merge(t.presence, ApplyEach(map[], batch)), t.log + Logged(batch))
  }

  lemma MergePut(table: map<Key, Presence>, m: map<Key, Presence>, k: Key, v: Presence)
    ensures Merge(table, PutNewer(m, k, v)) == PutNewer(Merge(table, m), k, v)
  {
  }

  lemma {:induction false} MergeFold(table: map<Key, Presence>, batch: seq<Write>)
    ensures Merge(table, ApplyEach(map[], batch)) == ApplyEach(table, batch)
  {
    if batch == [] {
      assert Merge(table, map[]) == table;
    } else {
      var n := |batch| - 1;
      MergeFold(table, batch[..n]);
      if IsTab(batch[n]) {
        MergePut(table, ApplyEach(map[], batch[..n]), TabKey(batch[n]), TabState(batch[n]));
      }
    }
  }

  /** Exactly the batches that log a row leave their presence behind. */
  lemma BatchPresence(t: Tables, batch: seq<Write>)
    ensures EventsWritten(t, batch).log == t.log + Logged(batch)
    ensures EventsWritten(t, batch).presence
         == if Logged(batch) != multiset{} then ApplyEach(t.presence, batch) else t.presence
  {
    MergeFold(t.presence, batch);
  }

  ghost predicate About(w: Write, k: Key) { IsTab(w) && TabKey(w) == k }

  /** Event `i` is the newest about `k`, the last of those at its time, and no older than the table. */
  ghost predicate IsNewest(table: map<Key, Presence>, batch: seq<Write>, k: Key, i: nat) {
    && i < |batch| && About(batch[i], k) && (k in table ==> table[k].at <= batch[i].at)
    && forall j :: 0 <= j < |batch| && About(batch[j], k) ==>
         batch[j].at < batch[i].at || (batch[j].at == batch[i].at && j <= i)
  }

  lemma {:induction false} EntryIsOlder(table: map<Key, Presence>, batch: seq<Write>, k: Key, at: int)
    requires k in table ==> table[k].at <= at
    requires forall j :: 0 <= j < |batch| && About(batch[j], k) ==> batch[j].at <= at
    ensures k in ApplyEach(table, batch) ==> ApplyEach(table, batch)[k].at <= at
  {
    if batch != [] {
      var n := |batch| - 1;
      assert forall j :: 0 <= j < n ==> batch[..n][j] == batch[j];
      EntryIsOlder(table, batch[..n], k, at);
      assert About(batch[n], k) ==> batch[n].at <= at;
    }
  }

  /** Whatever order events come in, a key ends with its newest state. */
  lemma {:induction false} LastWriteWins(table: map<Key, Presence>, batch: seq<Write>, k: Key, i: nat)
    requires IsNewest(table, batch, k, i)
    ensures k in ApplyEach(table, batch) && ApplyEach(table, batch)[k] == TabState(batch[i])
    decreases |batch|
  {
    var n := |batch| - 1;
    assert forall j :: 0 <= j < n ==> batch[..n][j] == batch[j];
    if i == n {
      EntryIsOlder(table, batch[..n], k, batch[n].at);
    } else {
      LastWriteWins(table, batch[..n], k, i);
      assert About(batch[n], k) ==> batch[n].at < batch[i].at;
    }
  }

  ghost predicate NoTabMarkers(log: multiset<LogRow>) { forall r :: r in log ==> r.kind != 'p' && r.kind != 's' }

  /** Tab-list appearances and disappearances never reach the log. */
  lemma {:induction false} MarkersAreNotLogged(batch: seq<Write>)
    ensures NoTabMarkers(Logged(batch))
  {
    if batch != [] {
      MarkersAreNotLogged(batch[..|batch| - 1]);
    }
  }

  function AllWritten(t: Tables, batches: seq<seq<Write>>): Tables {
    if batches == [] then t else EventsWritten(AllWritten(t, batches[..|batches| - 1]), batches[|batches| - 1])
  }

  function Concat(batches: seq<seq<Write>>): seq<Write> {
    if batches == [] then [] else Concat(batches[..|batches| - 1]) + batches[|batches| - 1]
  }

  lemma {:induction false} ApplyConcat(table: map<Key, Presence>, a: seq<Write>, b: seq<Write>)
    ensures ApplyEach(table, a + b) == ApplyEach(ApplyEach(table, a), b)
    decreases |b|
  {
    if b == [] {
      assert a + b == a;
    } else {
      var n := |b| - 1;
      ApplyConcat(table, a, b[..n]);
      LastOf(a, b);
    }
  }

  lemma {:induction false} LoggedConcat(a: seq<Write>, b: seq<Write>)
    ensures Logged(a + b) == Logged(a) + Logged(b)
    decreases |b|
  {
    if b == [] {
      assert a + b == a;
    } else {
      LoggedConcat(a, b[..|b| - 1]);
      LastOf(a, b);
    }
  }

  lemma LastOf(a: seq<Write>, b: seq<Write>)
    requires b != []
    ensures (a + b)[|a + b| - 1] == b[|b| - 1]
    ensures (a + b)[..|a + b| - 1] == a + b[..|b| - 1]
  {
  }

  /** The batches that log a row. */
  function Loud(batches: seq<seq<Write>>): seq<seq<Write>> {
    if batches == [] then [] else
    var n := |batches| - 1;
    Loud(batches[..n]) + if Logged(batches[n]) != multiset{} then [batches[n]] else []
  }

  lemma ConcatOne(batches: seq<seq<Write>>, batch: seq<Write>)
    ensures Concat(batches + [batch]) == Concat(batches) + batch
  {
    assert (batches + [batch])[..|batches|] == batches;
  }

  /**
   However the stream is cut into batches: the log gets every row, and presence ends as if
   each event of the batches that log a row had been applied on its own.
   */
  lemma {:induction false} SplitIndependent(t: Tables, batches: seq<seq<Write>>)
    ensures AllWritten(t, batches)
         == Tables(ApplyEach(t.presence, Concat(Loud(batches))), t.log + Logged(Concat(batches)))
  {
    if batches != [] {
      var n := |batches| - 1;
      SplitIndependent(t, batches[..n]);
      BatchPresence(AllWritten(t, batches[..n]), batches[n]);
      LoggedConcat(Concat(batches[..n]), batches[n]);
      if Logged(batches[n]) != multiset{} {
        ConcatOne(Loud(batches[..n]), batches[n]);
        ApplyConcat(t.presence, Concat(Loud(batches[..n])), batches[n]);
      } else {
        assert Loud(batches) == Loud(batches[..n]);
      }
    }
  }

  /** Every entry is older than the table's, or already what the table says. */
  predicate NothingNewer(table: map<Key, Presence>, m: map<Key, Presence>) {
    forall k :: k in m ==> k in table && (m[k].at < table[k].at || m[k] == table[k])
  }

  /** A batch leaves the presence it carries exactly when it logs a row or carries nothing new. */
  lemma BatchIsFaithfulIff(t: Tables, batch: seq<Write>)
    ensures EventsWritten(t, batch).presence == ApplyEach(t.presence, batch)
            <==> Logged(batch) != multiset{} || NothingNewer(t.presence, ApplyEach(map[], batch))
  {
    BatchPresence(t, batch);
    MergeFold(t.presence, batch);
    MergeUnchangedIff(t.presence, ApplyEach(map[], batch));
  }

  lemma MergeUnchangedIff(table: map<Key, Presence>, m: map<Key, Presence>)
    ensures Merge(table, m) == table <==> NothingNewer(table, m)
  {
    var merged := Merge(table, m);
    if merged == table {
      forall k | k in m ensures k in table && (m[k].at < table[k].at || m[k] == table[k]) {
        assert k in merged;
      }
    }
  }

  /** Without that condition a disappearance can be dropped: the ghost stays listed. */
  lemma QuietBatchIsDropped()
    ensures var gone := [Event(1, 9, "p", "t", Some(7))];
            var t := Tables(map[Key(1, 7) := Presence(true, 3)], multiset{});
            EventsWritten(t, gone) == t && !ApplyEach(t.presence, gone)[Key(1, 7)].present
  {
    var gone := [Event(1, 9, "p", "t", Some(7))];
    assert gone[..0] == [];
    assert Logged([]) == multiset{};
  }

  // ---------------------------------------------------------------------------
  // Restart and reconcile
  // ---------------------------------------------------------------------------

  function PresentPlayers(presence: map<Key, Presence>, session: int): set<int> {
    set k | k in presence && k.session == session && presence[k].present :: k.player
  }

  /** UPDATE ... SET present = false WHERE session AND present AND the player is in `gone`. */
  function Retire(presence: map<Key, Presence>, session: int, gone: set<int>, at: int): map<Key, Presence> {
    map k | k in presence ::
      if k.session == session && presence[k].present && k.player in gone then Presence(false, at) else presence[k]
  }

  function RepairRow(session: int, at: int, player: int, kind: char): LogRow {
    LogRow(Some(session), at, player, kind, 'r')
  }

  /** One synthesised row for each player. */
  function Rows(session: int, at: int, players: set<int>, kind: char): multiset<LogRow> {
    multiset(set p | p in players :: RepairRow(session, at, p, kind))
  }

  function Restarted(t: Tables, session: int, at: int): Tables {
    var gone := PresentPlayers(t.presence, session);
    Tables(Retire(t.presence, session, gone, at), t.log + Rows(session, at, gone, 'l'))
  }

  lemma RowCount(session: int, at: int, players: set<int>, kind: char, row: LogRow)
    ensures Rows(session, at, players, kind)[row]
         == if row.player in players && row == RepairRow(session, at, row.player, kind) then 1 else 0
  {
    var rows := set p | p in players :: RepairRow(session, at, p, kind);
    assert row in rows <==> row.player in players && row == RepairRow(session, at, row.player, kind);
  }

  /** After a restart nobody is present, and each retired player got exactly one leave and nobody else any row. */
  lemma RestartRetiresEveryone(t: Tables, session: int, at: int)
    ensures var t' := Restarted(t, session, at);
            && PresentPlayers(t'.presence, session) == {}
            && (forall other :: other != session ==>
                  PresentPlayers(t'.presence, other) == PresentPlayers(t.presence, other))
            && forall row :: t'.log[row] == t.log[row]
                 + if row.player in PresentPlayers(t.presence, session)
                      && row == LogRow(Some(session), at, row.player, 'l', 'r') then 1 else 0
  {
    var t' := Restarted(t, session, at);
    var gone := PresentPlayers(t.presence, session);
    forall k | k in t.presence && k.session == session && t.presence[k].present ensures k.player in gone {
    }
    forall other | other != session
      ensures PresentPlayers(t'.presence, other) == PresentPlayers(t.presence, other)
    {
      assert forall k :: k in t.presence && k.session == other ==> t'.presence[k] == t.presence[k];
    }
    forall row ensures t'.log[row] == t.log[row] + Rows(session, at, gone, 'l')[row] {
    }
    forall row
      ensures Rows(session, at, gone, 'l')[row]
           == if row.player in gone && row == RepairRow(session, at, row.player, 'l') then 1 else 0
    {
      RowCount(session, at, gone, 'l', row);
    }
  }

  predicate IsPresenceEvent(r: LogRow, player: int) { r.player == player && (r.kind == 'j' || r.kind == 'l') }

  /** `r` is a newest join or leave of `player`. */
  ghost predicate IsLatest(log: multiset<LogRow>, player: int, r: LogRow) {
    && r in log && IsPresenceEvent(r, player)
    && forall o :: o in log && IsPresenceEvent(o, player) ==> o.at <= r.at
  }

  /** The kinds a query for the last event may return; more than one only on a tie. */
  ghost function LastKinds(log: multiset<LogRow>, player: int): set<char> {
    set r | r in log && IsLatest(log, player, r) :: r.kind
  }

  /** A database's choice of last event for every player that has one. */
  ghost predicate ValidPick(log: multiset<LogRow>, ids: set<int>, pick: map<int, char>) {
    forall p :: p in ids ==> if LastKinds(log, p) == {} then p !in pick else p in pick && pick[p] in LastKinds(log, p)
  }

  /** The listed players the dictionary knows, each as often as it is listed. */
  lemma {:induction false} IdsAreKnown(players: seq<Option<int>>, id: int)
    ensures multiset(Ids(players))[id] == multiset(players)[Some(id)]
    decreases |players|
  {
    if players != [] {
      IdsAreKnown(players[1..], id);
      assert players == [players[0]] + players[1..];
    }
  }

  function Ids(players: seq<Option<int>>): seq<int> {
    if players == [] then [] else
    (if players[0].Some? then [players[0].value] else []) + Ids(players[1..])
  }

  function Everyone(ids: seq<int>): set<int> { set i | 0 <= i < |ids| :: ids[i] }

  function SessionKeys(session: int, ids: set<int>): set<Key> { set p | p in ids :: Key(session, p) }

  lemma InSessionKeys(session: int, ids: set<int>, k: Key)
    ensures k in SessionKeys(session, ids) <==> k.session == session && k.player in ids
  {
    assert k == Key(k.session, k.player);
  }

  function Snapshot(session: int, ids: set<int>, at: int): map<Key, Presence> {
    map k | k in SessionKeys(session, ids) :: Presence(true, at)
  }

  /** Listed players whose last event is not a join. */
  function Missed(ids: set<int>, pick: map<int, char>): set<int> {
    set p | p in ids && (p !in pick || pick[p] != 'j')
  }

  /** The four statements of a reconcile, for a non-empty list. */
  function Reconciled(t: Tables, session: int, at: int, ids: set<int>, pick: map<int, char>): Tables {
    var seen := Merge(t.presence, Snapshot(session, ids, at));
    var stale := PresentPlayers(seen, session) - ids;
    Tables(Retire(seen, session, stale, at),
           t.log + Rows(session, at, Missed(ids, pick), 'j') + Rows(session, at, stale, 'l'))
  }

  /** A listed player the table already knows to be gone, as of later than the snapshot. */
  predicate GoneSince(presence: map<Key, Presence>, session: int, at: int, p: int) {
    Key(session, p) in presence && presence[Key(session, p)].at > at && !presence[Key(session, p)].present
  }

  lemma SeenAt(presence: map<Key, Presence>, session: int, ids: set<int>, at: int, k: Key)
    ensures var seen := Merge(presence, Snapshot(session, ids, at));
            var listed := k.session == session && k.player in ids;
            && (k in seen <==> k in presence || listed)
            && (listed && (k !in presence || presence[k].at <= at) ==> seen[k] == Presence(true, at))
            && (k in presence && !(listed && presence[k].at <= at) ==> seen[k] == presence[k])
  {
    InSessionKeys(session, ids, k);
  }

  /** After a reconcile the session's present players are the list, less those known to have left since. */
  lemma PresentAfterReconcile(t: Tables, session: int, at: int, ids: set<int>, pick: map<int, char>)
    ensures PresentPlayers(Reconciled(t, session, at, ids, pick).presence, session)
         == set p | p in ids && !GoneSince(t.presence, session, at, p)
  {
    var seen := Merge(t.presence, Snapshot(session, ids, at));
    var after := Reconciled(t, session, at, ids, pick).presence;
    forall p
      ensures p in PresentPlayers(after, session) <==> p in ids && !GoneSince(t.presence, session, at, p)
    {
      var k := Key(session, p);
      SeenAt(t.presence, session, ids, at, k);
      assert p in PresentPlayers(seen, session) <==> k in seen && seen[k].present;
      assert p in PresentPlayers(after, session) <==> k in after && after[k].present;
    }
  }

  /** Exactly when no listed player is known to have left since, presence equals the snapshot. */
  lemma SnapshotIsPresence(t: Tables, session: int, at: int, ids: set<int>, pick: map<int, char>)
    ensures PresentPlayers(Reconciled(t, session, at, ids, pick).presence, session) == ids
            <==> forall p :: p in ids ==> !GoneSince(t.presence, session, at, p)
  {
    PresentAfterReconcile(t, session, at, ids, pick);
    var left := set p | p in ids && !GoneSince(t.presence, session, at, p);
    if left == ids {
      assert forall p :: p in ids ==> p in left;
    }
  }

  /** The players a reconcile retires: present in the session and not on the list. */
  function Stale(t: Tables, session: int, ids: set<int>): set<int> { PresentPlayers(t.presence, session) - ids }

  lemma StaleUnaffectedBySnapshot(t: Tables, session: int, at: int, ids: set<int>)
    ensures PresentPlayers(Merge(t.presence, Snapshot(session, ids, at)), session) - ids == Stale(t, session, ids)
  {
    var seen := Merge(t.presence, Snapshot(session, ids, at));
    forall p | p !in ids
      ensures p in PresentPlayers(seen, session) <==> p in PresentPlayers(t.presence, session)
    {
      SeenAt(t.presence, session, ids, at, Key(session, p));
      assert p in PresentPlayers(seen, session) <==> Key(session, p) in seen && seen[Key(session, p)].present;
    }
  }

  /** What a reconcile adds to the log. */
  lemma ReconcileLog(t: Tables, session: int, at: int, ids: set<int>, pick: map<int, char>, row: LogRow)
    ensures Reconciled(t, session, at, ids, pick).log[row] == t.log[row]
              + (if row == LogRow(Some(session), at, row.player, 'j', 'r') && row.player in ids
                    && (row.player !in pick || pick[row.player] != 'j') then 1 else 0)
              + (if row == LogRow(Some(session), at, row.player, 'l', 'r') && row.player !in ids
                    && IsPresent(t.presence, Key(session, row.player)) then 1 else 0)
  {
    IsPresentMeans(t.presence, session, row.player);
    StaleUnaffectedBySnapshot(t, session, at, ids);
    RowCount(session, at, Missed(ids, pick), 'j', row);
    RowCount(session, at, Stale(t, session, ids), 'l', row);
  }

  lemma NewestWins(log: multiset<LogRow>, p: int, row: LogRow)
    requires row in log && IsPresenceEvent(row, p)
    requires forall o :: o in log && IsPresenceEvent(o, p) && o != row ==> o.at < row.at
    ensures LastKinds(log, p) == {row.kind}
  {
    assert IsLatest(log, p, row);
    assert forall o :: IsLatest(log, p, o) ==> o == row;
  }

  lemma SameRowsSameLast(log: multiset<LogRow>, log': multiset<LogRow>, p: int)
    requires forall o :: IsPresenceEvent(o, p) ==> (o in log <==> o in log')
    ensures LastKinds(log, p) == LastKinds(log', p)
  {
    assert forall o :: IsLatest(log, p, o) <==> IsLatest(log', p, o);
  }

  /** Every stored log row is older than `at`. */
  ghost predicate OlderThan(log: multiset<LogRow>, at: int) { forall o :: o in log ==> o.at < at }

  lemma LastAfterReconcile(t: Tables, session: int, at: int, ids: set<int>, pick: map<int, char>, p: int)
    requires ValidPick(t.log, ids, pick) && OlderThan(t.log, at)
    ensures var log' := Reconciled(t, session, at, ids, pick).log;
            && (p in Missed(ids, pick) ==> LastKinds(log', p) == {'j'})
            && (p in Stale(t, session, ids) ==> LastKinds(log', p) == {'l'})
            && (p !in Missed(ids, pick) && p !in Stale(t, session, ids) ==> LastKinds(log', p) == LastKinds(t.log, p))
  {
    var log' := Reconciled(t, session, at, ids, pick).log;
    forall row
      ensures row in log' <==>
        || row in t.log
        || (row.player in Missed(ids, pick) && row == RepairRow(session, at, row.player, 'j'))
        || (row.player in Stale(t, session, ids) && row == RepairRow(session, at, row.player, 'l'))
    {
      ReconcileLog(t, session, at, ids, pick, row);
    }
    if p in Missed(ids, pick) {
      NewestWins(log', p, RepairRow(session, at, p, 'j'));
    } else if p in Stale(t, session, ids) {
      NewestWins(log', p, RepairRow(session, at, p, 'l'));
    } else {
      SameRowsSameLast(t.log, log', p);
    }
  }

  /** No player's newest join and newest leave are logged at the same instant. */
  ghost predicate NoTies(log: multiset<LogRow>, ids: set<int>) {
    forall p :: p in ids ==> forall c, d :: c in LastKinds(log, p) && d in LastKinds(log, p) ==> c == d
  }

  /** What a snapshot taken after everything stored leaves behind. */
  ghost predicate Agrees(t: Tables, t': Tables, session: int, ids: set<int>) {
    && PresentPlayers(t'.presence, session) == ids
    && (forall p :: p in ids ==> LastKinds(t'.log, p) == {'j'})
    && (forall p :: p in Stale(t, session, ids) ==> LastKinds(t'.log, p) == {'l'})
  }

  lemma ListedEndOnJoin(t: Tables, session: int, at: int, ids: set<int>, pick: map<int, char>, p: int)
    requires ValidPick(t.log, ids, pick) && OlderThan(t.log, at) && NoTies(t.log, ids) && p in ids
    ensures LastKinds(Reconciled(t, session, at, ids, pick).log, p) == {'j'}
  {
    LastAfterReconcile(t, session, at, ids, pick, p);
    if p !in Missed(ids, pick) {
      assert LastKinds(t.log, p) == {pick[p]};
    }
  }

  lemma ReconcileAgrees(t: Tables, session: int, at: int, ids: set<int>, pick: map<int, char>)
    requires ValidPick(t.log, ids, pick) && OlderThan(t.log, at) && NoTies(t.log, ids)
    requires forall p :: p in ids ==> !GoneSince(t.presence, session, at, p)
    ensures Agrees(t, Reconciled(t, session, at, ids, pick), session, ids)
  {
    SnapshotIsPresence(t, session, at, ids, pick);
    var log' := Reconciled(t, session, at, ids, pick).log;
    forall p | p in ids ensures LastKinds(log', p) == {'j'} {
      ListedEndOnJoin(t, session, at, ids, pick, p);
    }
    forall p | p in Stale(t, session, ids) ensures LastKinds(log', p) == {'l'} {
      LastAfterReconcile(t, session, at, ids, pick, p);
    }
  }

  /** Once the tables agree with a list, reconciling against it again logs nothing. */
  lemma ReconcileIdempotent(t: Tables, t': Tables, session: int, at: int, ids: set<int>, pick: map<int, char>)
    requires Agrees(t, t', session, ids) && ValidPick(t'.log, ids, pick)
    ensures Reconciled(t', session, at, ids, pick).log == t'.log
    ensures PresentPlayers(Reconciled(t', session, at, ids, pick).presence, session) == ids
  {
    forall p | p in ids ensures p in pick && pick[p] == 'j' {
      assert LastKinds(t'.log, p) == {'j'};
    }
    forall row ensures Reconciled(t', session, at, ids, pick).log[row] == t'.log[row] {
      ReconcileLog(t', session, at, ids, pick, row);
    }
    forall p | p in ids ensures !GoneSince(t'.presence, session, at, p) {
      assert p in PresentPlayers(t'.presence, session);
    }
    SnapshotIsPresence(t', session, at, ids, pick);
  }

  /** A reconcile did its job, and repeating it at any time with the same list writes no log rows. */
  ghost predicate Settles(t: Tables, t': Tables, session: int, ids: set<int>) {
    && Agrees(t, t', session, ids)
    && forall again: int, pick: map<int, char> :: ValidPick(t'.log, ids, pick) ==> Quiet(t', session, again, ids, pick)
  }

  predicate Quiet(t: Tables, session: int, at: int, ids: set<int>, pick: map<int, char>) {
    var t' := Reconciled(t, session, at, ids, pick);
    t'.log == t.log && PresentPlayers(t'.presence, session) == ids
  }

  ghost function SomeLastKind(log: multiset<LogRow>, p: int): char
    requires LastKinds(log, p) != {}
  {
    var c :| c in LastKinds(log, p);
    c
  }

  /** An answer of the database that says `kind` for one player. */
  lemma PickWith(log: multiset<LogRow>, ids: set<int>, p: int, kind: char) returns (pick: map<int, char>)
    requires p in ids && kind in LastKinds(log, p)
    ensures ValidPick(log, ids, pick) && p in pick && pick[p] == kind
  {
    pick := (map q | q in ids && LastKinds(log, q) != {} :: SomeLastKind(log, q))[p := kind];
  }

  lemma SomePick(log: multiset<LogRow>, ids: set<int>) returns (pick: map<int, char>)
    ensures ValidPick(log, ids, pick)
  {
    pick := map q | q in ids && LastKinds(log, q) != {} :: SomeLastKind(log, q);
  }

  lemma KindsAreTwo(log: multiset<LogRow>, p: int, c: char)
    requires c in LastKinds(log, p)
    ensures c == 'j' || c == 'l'
  {
  }

  /** On a tie the database may take the join, and the leave beside it stays the latest event too. */
  lemma TieSurvives(t: Tables, session: int, at: int, ids: set<int>, p: int) returns (pick: map<int, char>)
    requires OlderThan(t.log, at) && p in ids && {'j', 'l'} <= LastKinds(t.log, p)
    ensures ValidPick(t.log, ids, pick) && !Agrees(t, Reconciled(t, session, at, ids, pick), session, ids)
  {
    pick := PickWith(t.log, ids, p, 'j');
    LastAfterReconcile(t, session, at, ids, pick, p);
  }

  lemma TieHasBoth(log: multiset<LogRow>, ids: set<int>) returns (p: int)
    requires !NoTies(log, ids)
    ensures p in ids && {'j', 'l'} <= LastKinds(log, p)
  {
    var q, c, d :| q in ids && c in LastKinds(log, q) && d in LastKinds(log, q) && c != d;
    p := q;
    KindsAreTwo(log, q, c);
    KindsAreTwo(log, q, d);
  }

  /** What a caller can look up beforehand: no ties, and nobody listed is known to have left since. */
  ghost predicate Settleable(t: Tables, session: int, at: int, ids: set<int>) {
    NoTies(t.log, ids) && forall p :: p in ids ==> !GoneSince(t.presence, session, at, p)
  }

  lemma SettleableSettles(t: Tables, session: int, at: int, ids: set<int>, pick: map<int, char>)
    requires OlderThan(t.log, at) && Settleable(t, session, at, ids) && ValidPick(t.log, ids, pick)
    ensures Settles(t, Reconciled(t, session, at, ids, pick), session, ids)
  {
    var t' := Reconciled(t, session, at, ids, pick);
    ReconcileAgrees(t, session, at, ids, pick);
    forall again: int, pick': map<int, char> | ValidPick(t'.log, ids, pick')
      ensures Quiet(t', session, again, ids, pick')
    {
      ReconcileIdempotent(t, t', session, again, ids, pick');
    }
  }

  /**
   For a snapshot later than everything logged: whatever the database answers, a reconcile
   is correct and repeating it writes nothing, if and only if no listed player's last join
   and leave share a timestamp and none is known to have left since.
   */
  lemma ReconcileCorrect(t: Tables, session: int, at: int, ids: set<int>)
    requires OlderThan(t.log, at)
    ensures (forall pick :: ValidPick(t.log, ids, pick) ==>
               Settles(t, Reconciled(t, session, at, ids, pick), session, ids))
            <==> Settleable(t, session, at, ids)
  {
    if Settleable(t, session, at, ids) {
      forall pick | ValidPick(t.log, ids, pick)
        ensures Settles(t, Reconciled(t, session, at, ids, pick), session, ids)
      {
        SettleableSettles(t, session, at, ids, pick);
      }
    } else if !NoTies(t.log, ids) {
      var p := TieHasBoth(t.log, ids);
      var pick := TieSurvives(t, session, at, ids, p);
    } else {
      var pick := SomePick(t.log, ids);
      SnapshotIsPresence(t, session, at, ids, pick);
    }
  }

  // ---------------------------------------------------------------------------
  // The writer
  // ---------------------------------------------------------------------------

  type Row = (Key, Presence)

  predicate DistinctKeys(rows: seq<Row>) { forall i, j :: 0 <= i < j < |rows| ==> rows[i].0 != rows[j].0 }

  predicate Accepts(table: map<Key, Presence>, row: Row) { row.0 !in table || table[row.0].at <= row.1.at }

  /** Some key is written by one row and met again by a later one. */
  predicate AffectsTwice(table: map<Key, Presence>, rows: seq<Row>) {
    exists i, j :: 0 <= i < j < |rows| && Accepts(table, rows[i]) && rows[i].0 == rows[j].0
  }

  function MapOf(rows: seq<Row>): map<Key, Presence> {
    if rows == [] then map[] else MapOf(rows[..|rows| - 1])[rows[|rows| - 1].0 := rows[|rows| - 1].1]
  }

  lemma {:induction false} MapOfKeys(rows: seq<Row>, k: Key)
    ensures k in MapOf(rows) <==> exists i :: 0 <= i < |rows| && rows[i].0 == k
  {
    if rows != [] {
      var n := |rows| - 1;
      MapOfKeys(rows[..n], k);
      if k in MapOf(rows[..n]) {
        var i :| 0 <= i < n && rows[..n][i].0 == k;
        assert rows[i].0 == k;
      }
      if exists i :: 0 <= i < |rows| && rows[i].0 == k {
        var i :| 0 <= i < |rows| && rows[i].0 == k;
        if i < n {
          assert rows[..n][i].0 == k;
        }
      }
    }
  }

  class Flusher {
    var presence: map<Key, Presence>
    var log: multiset<LogRow>

    function View(): Tables
      reads this
    {
      Tables(presence, log)
    }

    constructor (t: Tables)
      ensures View() == t
    {
      presence, log := t.presence, t.log;
    }

    /** One INSERT ... ON CONFLICT DO UPDATE, row by row; affecting a key twice undoes the whole statement. */
    method UpsertPresence(rows: seq<Row>) returns (ok: bool)
      modifies `presence
      ensures ok <==> !AffectsTwice(old(presence), rows)
      ensures presence == if ok then Merge(old(presence), MapOf(rows)) else old(presence)
    {
      var before := presence;
      var affected: set<Key> := {};
      var i := 0;
      NothingUpserted(before, rows);
      while i < |rows|
        invariant i <= |rows| && Upserting(before, rows, i, affected, presence)
      {
        if rows[i].0 in affected {
          AffectedAgain(before, rows, i, affected, presence);
          presence := before;
          return false;
        }
        UpsertStep(before, rows, i, affected, presence);
        if Accepts(presence, rows[i]) {
          affected := affected + {rows[i].0};
        }
        presence := PutNewer(presence, rows[i].0, rows[i].1);
        i := i + 1;
      }
      NoneAffectedTwice(before, rows, affected, presence);
      return true;
    }

    /** The rows a hash map yields, in no particular order. */
    method Drain(m: map<Key, Presence>) returns (rows: seq<Row>)
      ensures DistinctKeys(rows) && MapOf(rows) == m
    {
      rows := [];
      var left := m.Keys;
      while left != {}
        invariant left <= m.Keys && Draining(rows, m - left, left)
        decreases left
      {
        var k := AnyOf(left);
        MoveRow(rows, left, k, m);
        rows := rows + [(k, m[k])];
        left := left - {k};
      }
      assert m - {} == m;
    }

    method WriteEvents(batch: seq<Write>)
      modifies this
      ensures View() == EventsWritten(old(View()), batch)
    {
      var logged: multiset<LogRow> := multiset{};
      var pending: map<Key, Presence> := map[];
      for i := 0 to |batch|
        invariant pending == ApplyEach(map[], batch[..i]) && logged == Logged(batch[..i])
      {
        var w := batch[i];
        assert batch[..i + 1][..i] == batch[..i];
        if w.Event? && w.player.Some? {
          var key := Key(w.session, w.player.value);
          var code := Code(w.kind);
          if Code(w.source) == 't' && SessionId(w.session).Some? {
            pending := PutNewer(pending, key, Presence(code != 'l' && code != 'p', w.at));
          }
          if code != 'p' && code != 's' {
            logged := logged + multiset{LogRow(SessionId(w.session), w.at, w.player.value, code, Code(w.source))};
          }
        }
      }
      assert batch[..|batch|] == batch;
      if logged == multiset{} {
        return;
      }
      log := log + logged;
      assert Merge(presence, map[]) == presence;
      if pending != map[] {
        var rows := Drain(pending);
        var ok := UpsertPresence(rows);
      }
    }

    method WriteRestarts(batch: seq<Write>)
      modifies this
      ensures View() == AllRestarted(old(View()), batch)
    {
      ghost var t := View();
      for i := 0 to |batch|
        invariant View() == AllRestarted(t, batch[..i])
      {
        assert batch[..i + 1][..i] == batch[..i];
        if IsRestart(batch[i]) {
          var gone := PresentPlayers(presence, batch[i].session);
          log := log + Rows(batch[i].session, batch[i].at, gone, 'l');
          presence := Retire(presence, batch[i].session, gone, batch[i].at);
        }
      }
      assert batch[..|batch|] == batch;
    }

    /** The query for every candidate's last event; on a tie the database may answer either kind. */
    method LastSeen(ids: set<int>) returns (pick: map<int, char>)
      ensures ValidPick(log, ids, pick)
    {
      pick := map[];
      var left := ids;
      while left != {}
        invariant left <= ids && pick.Keys !! left
        invariant ValidPick(log, ids - left, pick)
        decreases left
      {
        var p := AnyOf(left);
        var newest := NewestKinds(p);
        if newest != {} {
          var c :| c in newest;
          pick := pick[p := c];
        }
        left := left - {p};
      }
    }

    method NewestKinds(p: int) returns (kinds: set<char>)
      ensures kinds == LastKinds(log, p)
    {
      kinds := set r | r in log && IsPresenceEvent(r, p)
                         && (forall o | o in log :: IsPresenceEvent(o, p) ==> o.at <= r.at) :: r.kind;
      assert forall r :: IsLatest(log, p, r) <==>
        r in log && IsPresenceEvent(r, p) && (forall o | o in log :: IsPresenceEvent(o, p) ==> o.at <= r.at);
    }

    /** One reconcile: false when the upsert fails because it would mark a player twice. */
    method WriteRejoin(session: int, at: int, players: seq<Option<int>>)
      returns (ok: bool, ghost pick: map<int, char>)
      modifies this
      ensures ok <==> !MarksTwice(old(presence), session, at, Ids(players))
      ensures !ok ==> View() == old(View())
      ensures ok ==> ValidPick(old(log), Everyone(Ids(players)), pick)
      ensures ok ==> View() == if Ids(players) == [] then old(View())
                               else Reconciled(old(View()), session, at, Everyone(Ids(players)), pick)
    {
      var ids := Ids(players);
      var everyone := Everyone(ids);
      pick := map[];
      if ids == [] {
        return true, pick;
      }
      var rows: seq<Row> := seq(|ids|, i requires 0 <= i < |ids| => (Key(session, ids[i]), Presence(true, at)));
      SnapshotAffects(presence, session, at, ids, rows);
      ok := UpsertPresence(rows);
      if !ok {
        return;
      }
      SnapshotRows(session, at, ids, rows);
      var seen := LastSeen(everyone);
      pick := seen;
      log := log + Rows(session, at, Missed(everyone, seen), 'j');
      var stale := PresentPlayers(presence, session) - everyone;
      log := log + Rows(session, at, stale, 'l');
      presence := Retire(presence, session, stale, at);
    }

    /** The reconciles of a batch in order; the first that fails stops the rest. */
    method WriteRejoins(batch: seq<Write>) returns (ok: bool, ghost picks: seq<map<int, char>>)
      modifies this
      ensures |picks| <= |batch| && (ok ==> |picks| == |batch|)
      ensures PicksValid(old(View()), batch[..|picks|], picks)
      ensures View() == AllRejoined(old(View()), batch[..|picks|], picks)
      ensures !ok ==> |picks| < |batch| && Fails(View(), batch[|picks|])
    {
      ghost var t := View();
      picks := [];
      for i := 0 to |batch|
        invariant |picks| == i && PicksValid(t, batch[..i], picks)
        invariant View() == AllRejoined(t, batch[..i], picks)
      {
        assert batch[..i + 1][..i] == batch[..i];
        ghost var pick := map[];
        if IsReconcile(batch[i]) {
          var done, p := WriteRejoin(batch[i].session, batch[i].at, batch[i].players);
          if !done {
            return false, picks;
          }
          pick := p;
        }
        assert (picks + [pick])[..i] == picks;
        picks := picks + [pick];
      }
      assert batch[..|batch|] == batch;
      ok := true;
    }

    /** A flush writes by kind, not in arrival order: events, then restarts, then reconciles. */
    method WriteBatch(batch: seq<Write>) returns (ok: bool, ghost picks: seq<map<int, char>>)
      modifies this
      ensures |picks| <= |batch| && (ok ==> |picks| == |batch|)
      ensures PicksValid(Flushed(old(View()), batch), batch[..|picks|], picks)
      ensures View() == AllRejoined(Flushed(old(View()), batch), batch[..|picks|], picks)
      ensures !ok ==> |picks| < |batch| && Fails(View(), batch[|picks|])
    {
      WriteEvents(batch);
      WriteRestarts(batch);
      ok, picks := WriteRejoins(batch);
    }
  }

  predicate IsRestart(w: Write) { w.ServerRestart? && SessionId(w.session).Some? }

  predicate IsReconcile(w: Write) { w.ReconcileOnline? && SessionId(w.session).Some? }

  /** The list names a player twice whom the table does not know to have changed since. */
  predicate MarksTwice(presence: map<Key, Presence>, session: int, at: int, ids: seq<int>) {
    exists i, j :: 0 <= i < j < |ids| && ids[i] == ids[j]
      && (Key(session, ids[i]) !in presence || presence[Key(session, ids[i])].at <= at)
  }

  predicate Fails(t: Tables, w: Write) {
    IsReconcile(w) && MarksTwice(t.presence, w.session, w.at, Ids(w.players))
  }

  /** One reconcile write; an empty list is skipped. */
  function Rejoined(t: Tables, w: Write, pick: map<int, char>): Tables {
    if IsReconcile(w) && Ids(w.players) != [] then Reconciled(t, w.session, w.at, Everyone(Ids(w.players)), pick) else t
  }

  function AllRejoined(t: Tables, batch: seq<Write>, picks: seq<map<int, char>>): Tables
    requires |picks| == |batch|
  {
    if batch == [] then t else
    var n := |batch| - 1;
    Rejoined(AllRejoined(t, batch[..n], picks[..n]), batch[n], picks[n])
  }

  ghost predicate PicksValid(t: Tables, batch: seq<Write>, picks: seq<map<int, char>>)
    requires |picks| == |batch|
  {
    batch == [] ||
    var n := |batch| - 1;
    && PicksValid(t, batch[..n], picks[..n])
    && var before := AllRejoined(t, batch[..n], picks[..n]);
       && !Fails(before, batch[n])
       && (IsReconcile(batch[n]) ==> ValidPick(before.log, Everyone(Ids(batch[n].players)), picks[n]))
  }

  /**
   Phase order is not arrival order: a restart anywhere in a batch retires everyone the
   batch marked present in its session, those who joined after it included.
   */
  lemma {:induction false} RestartRetiresWholeBatch(t: Tables, batch: seq<Write>, i: nat)
    requires i < |batch| && IsRestart(batch[i])
    ensures PresentPlayers(AllRestarted(t, batch).presence, batch[i].session) == {}
    decreases |batch|
  {
    var n := |batch| - 1;
    var before := AllRestarted(t, batch[..n]);
    var session := batch[i].session;
    if i < n {
      RestartRetiresWholeBatch(t, batch[..n], i);
      assert PresentPlayers(before.presence, session) == {};
    }
    if IsRestart(batch[n]) {
      NobodyReturns(before, batch[n].session, batch[n].at, session);
    }
  }

  lemma NobodyReturns(t: Tables, restarted: int, at: int, session: int)
    requires session == restarted || PresentPlayers(t.presence, session) == {}
    ensures PresentPlayers(Restarted(t, restarted, at).presence, session) == {}
  {
    RestartRetiresEveryone(t, restarted, at);
  }

  /** One write at its own place in the order. */
  function InTurn(t: Tables, w: Write): Tables {
    if IsRestart(w) then Restarted(t, w.session, w.at)
    else Tables(Note(t.presence, w), t.log + if IsLogged(w) then multiset{RowOf(w)} else multiset{})
  }

  /** Events and restarts in the order in which they came. */
  function AllInTurn(t: Tables, batch: seq<Write>): Tables {
    if batch == [] then t else InTurn(AllInTurn(t, batch[..|batch| - 1]), batch[|batch| - 1])
  }

  lemma {:induction false} InTurnConcat(t: Tables, a: seq<Write>, b: seq<Write>)
    ensures AllInTurn(t, a + b) == AllInTurn(AllInTurn(t, a), b)
    decreases |b|
  {
    if b == [] {
      assert a + b == a;
    } else {
      LastOf(a, b);
      InTurnConcat(t, a, b[..|b| - 1]);
    }
  }

  predicate SameEntry(a: map<Key, Presence>, b: map<Key, Presence>, k: Key) {
    (k in a <==> k in b) && (k in a ==> a[k] == b[k])
  }

  predicate Restarts(w: Write, session: int) { IsRestart(w) && w.session == session }

  lemma OtherStays(t: Tables, w: Write, k: Key)
    requires !Restarts(w, k.session)
    ensures SameEntry(InTurn(t, w).presence, Note(t.presence, w), k)
  {
  }

  lemma NoteSame(a: map<Key, Presence>, b: map<Key, Presence>, w: Write, k: Key)
    requires SameEntry(a, b, k)
    ensures SameEntry(Note(a, w), Note(b, w), k)
  {
  }

  /** Restarts of other sessions do not touch a key. */
  lemma {:induction false} WithoutRestarts(t: Tables, batch: seq<Write>, k: Key)
    requires forall j :: 0 <= j < |batch| ==> !Restarts(batch[j], k.session)
    ensures SameEntry(AllInTurn(t, batch).presence, ApplyEach(t.presence, batch), k)
  {
    if batch != [] {
      var n := |batch| - 1;
      WithoutRestarts(t, batch[..n], k);
      OtherStays(AllInTurn(t, batch[..n]), batch[n], k);
      NoteSame(AllInTurn(t, batch[..n]).presence, ApplyEach(t.presence, batch[..n]), batch[n], k);
    }
  }

  ghost predicate HasNewest(table: map<Key, Presence>, batch: seq<Write>, k: Key) {
    exists i: nat :: IsNewest(table, batch, k, i)
  }

  /** Nothing about a key is newer than its entry. */
  ghost predicate Covers(table: map<Key, Presence>, batch: seq<Write>, k: Key) {
    var now := ApplyEach(table, batch);
    && (k in table ==> k in now && table[k].at <= now[k].at)
    && forall j :: 0 <= j < |batch| && About(batch[j], k) ==> k in now && batch[j].at <= now[k].at
  }

  lemma {:induction false} EntryCovers(table: map<Key, Presence>, batch: seq<Write>, k: Key)
    ensures Covers(table, batch, k)
  {
    if batch != [] {
      var n := |batch| - 1;
      assert forall j :: 0 <= j < n ==> batch[..n][j] == batch[j];
      EntryCovers(table, batch[..n], k);
    }
  }

  /** The last event is the newest, or changes nothing about the key and leaves the newest as it was. */
  lemma NewestGrows(table: map<Key, Presence>, batch: seq<Write>, k: Key, n: nat)
    requires |batch| == n + 1 && Covers(table, batch[..n], k)
    requires HasNewest(table, batch[..n], k) || SameEntry(ApplyEach(table, batch[..n]), table, k)
    ensures HasNewest(table, batch, k) || SameEntry(ApplyEach(table, batch), table, k)
  {
    var was := ApplyEach(table, batch[..n]);
    assert forall j :: 0 <= j < n ==> batch[..n][j] == batch[j];
    if About(batch[n], k) && (k in was ==> was[k].at <= batch[n].at) {
      assert IsNewest(table, batch, k, n);
    } else if HasNewest(table, batch[..n], k) {
      var i: nat :| IsNewest(table, batch[..n], k, i);
      LastWriteWins(table, batch[..n], k, i);
      assert IsNewest(table, batch, k, i);
    }
  }

  lemma {:induction false} NewestOrSame(table: map<Key, Presence>, batch: seq<Write>, k: Key)
    ensures HasNewest(table, batch, k) || SameEntry(ApplyEach(table, batch), table, k)
  {
    if batch != [] {
      var n := |batch| - 1;
      NewestOrSame(table, batch[..n], k);
      EntryCovers(table, batch[..n], k);
      NewestGrows(table, batch, k, n);
    }
  }

  /** The last restart of its session in a batch. */
  predicate LastRestart(batch: seq<Write>, i: nat) {
    && i < |batch| && IsRestart(batch[i])
    && forall j :: i < j < |batch| ==> !Restarts(batch[j], batch[i].session)
  }

  /** No player's newest event says that the player is there. */
  ghost predicate NobodyBack(table: map<Key, Presence>, after: seq<Write>, session: int) {
    forall p: int, j: nat :: IsNewest(table, after, Key(session, p), j) ==> !TabState(after[j]).present
  }

  predicate IsPresent(table: map<Key, Presence>, k: Key) { k in table && table[k].present }

  lemma NobodyBackIff(table: map<Key, Presence>, after: seq<Write>, session: int)
    requires forall p: int :: !IsPresent(table, Key(session, p))
    ensures NobodyBack(table, after, session) <==> forall p: int :: !IsPresent(ApplyEach(table, after), Key(session, p))
  {
    forall p: int, j: nat | IsNewest(table, after, Key(session, p), j)
      ensures IsPresent(ApplyEach(table, after), Key(session, p)) == TabState(after[j]).present
    {
      LastWriteWins(table, after, Key(session, p), j);
    }
    forall p: int | IsPresent(ApplyEach(table, after), Key(session, p))
      ensures HasNewest(table, after, Key(session, p))
    {
      assert !IsPresent(table, Key(session, p));
      NewestOrSame(table, after, Key(session, p));
    }
  }

  lemma NonePresent(presence: map<Key, Presence>, session: int)
    ensures PresentPlayers(presence, session) == {} <==> forall p: int :: !IsPresent(presence, Key(session, p))
  {
    if PresentPlayers(presence, session) == {} {
      forall p: int ensures !IsPresent(presence, Key(session, p)) {
        assert p !in PresentPlayers(presence, session);
      }
    } else {
      var p :| p in PresentPlayers(presence, session);
      assert IsPresent(presence, Key(session, p));
    }
  }

  /** Who is present after the last restart of a session: those its later events bring back. */
  lemma BackAfterRestart(t: Tables, batch: seq<Write>, i: nat)
    requires LastRestart(batch, i)
    ensures var retired := AllInTurn(t, batch[..i + 1]).presence;
            PresentPlayers(AllInTurn(t, batch).presence, batch[i].session) == {}
            <==> NobodyBack(retired, batch[i + 1..], batch[i].session)
  {
    var session, after := batch[i].session, batch[i + 1..];
    var t' := AllInTurn(t, batch[..i + 1]);
    assert batch[..i + 1][..i] == batch[..i] && batch == batch[..i + 1] + after;
    InTurnConcat(t, batch[..i + 1], after);
    RestartRetiresEveryone(AllInTurn(t, batch[..i]), session, batch[i].at);
    NonePresent(t'.presence, session);
    NobodyBackIff(t'.presence, after, session);
    NonePresent(AllInTurn(t, batch).presence, session);
    forall p: int
      ensures IsPresent(AllInTurn(t, batch).presence, Key(session, p))
           == IsPresent(ApplyEach(t'.presence, after), Key(session, p))
    {
      WithoutRestarts(t', after, Key(session, p));
    }
  }

  /**
   Before the reconciles of a batch: the phases leave the same players of a restarted session
   present as arrival order does, if and only if nobody's newest event since its last restart
   says that the player is there.
   */
  lemma RestartOrderIff(t: Tables, batch: seq<Write>, i: nat)
    requires LastRestart(batch, i)
    ensures var phased, inTurn := Flushed(t, batch), AllInTurn(t, batch);
            PresentPlayers(phased.presence, batch[i].session) == PresentPlayers(inTurn.presence, batch[i].session)
            <==> NobodyBack(AllInTurn(t, batch[..i + 1]).presence, batch[i + 1..], batch[i].session)
  {
    RestartRetiresWholeBatch(EventsWritten(t, batch), batch, i);
    BackAfterRestart(t, batch, i);
  }

  function At(table: map<Key, Presence>, k: Key): Option<Presence> { if k in table then Some(table[k]) else None }

  /** What the events of one stretch leave at a key: its newest event, or what the table had. */
  ghost predicate LeavesAt(table: map<Key, Presence>, events: seq<Write>, k: Key, v: Option<Presence>) {
    if HasNewest(table, events, k) then exists i: nat :: IsNewest(table, events, k, i) && v == Some(TabState(events[i]))
    else v == At(table, k)
  }

  lemma LeavesIff(table: map<Key, Presence>, events: seq<Write>, k: Key, v: Option<Presence>)
    ensures LeavesAt(table, events, k, v) <==> v == At(ApplyEach(table, events), k)
  {
    if HasNewest(table, events, k) {
      forall i: nat | IsNewest(table, events, k, i)
        ensures At(ApplyEach(table, events), k) == Some(TabState(events[i]))
      {
        LastWriteWins(table, events, k, i);
      }
    } else {
      NewestOrSame(table, events, k);
    }
  }

  /** The newest event about each key leaves the same in both stretches. */
  ghost predicate SameNews(table: map<Key, Presence>, a: seq<Write>, b: seq<Write>) {
    forall k, v :: LeavesAt(table, a, k, v) <==> LeavesAt(table, b, k, v)
  }

  lemma SameAt(a: map<Key, Presence>, b: map<Key, Presence>)
    ensures a == b <==> forall k :: At(a, k) == At(b, k)
  {
    if forall k :: At(a, k) == At(b, k) {
      forall k ensures (k in a <==> k in b) && (k in a ==> a[k] == b[k]) {
        assert At(a, k) == At(b, k);
      }
    }
  }

  /**
   However the stream is cut, presence ends as if every event had been applied on its own, if
   and only if each key's newest event in the batches that log a row leaves what its newest
   event of all does.
   */
  lemma SplitIsFaithfulIff(t: Tables, batches: seq<seq<Write>>)
    ensures AllWritten(t, batches).presence == ApplyEach(t.presence, Concat(batches))
            <==> SameNews(t.presence, Concat(Loud(batches)), Concat(batches))
  {
    var loud, all := Concat(Loud(batches)), Concat(batches);
    SplitIndependent(t, batches);
    SameAt(ApplyEach(t.presence, loud), ApplyEach(t.presence, all));
    forall k, v
      ensures LeavesAt(t.presence, loud, k, v) <==> v == At(ApplyEach(t.presence, loud), k)
      ensures LeavesAt(t.presence, all, k, v) <==> v == At(ApplyEach(t.presence, all), k)
    {
      LeavesIff(t.presence, loud, k, v);
      LeavesIff(t.presence, all, k, v);
    }
    if SameNews(t.presence, loud, all) {
      forall k ensures At(ApplyEach(t.presence, loud), k) == At(ApplyEach(t.presence, all), k) {
        var v := At(ApplyEach(t.presence, loud), k);
        assert LeavesAt(t.presence, loud, k, v) <==> LeavesAt(t.presence, all, k, v);
      }
    }
  }

  /** The first two phases of a flush: the events, if a row is logged, then the restarts. */
  function Flushed(t: Tables, batch: seq<Write>): Tables { AllRestarted(EventsWritten(t, batch), batch) }

  predicate NoRestart(batch: seq<Write>, session: int) {
    forall j :: 0 <= j < |batch| ==> !Restarts(batch[j], session)
  }

  lemma {:induction false} FindLastRestart(batch: seq<Write>, session: int) returns (i: nat)
    requires !NoRestart(batch, session)
    ensures LastRestart(batch, i) && batch[i].session == session
  {
    var n := |batch| - 1;
    if Restarts(batch[n], session) {
      i := n;
    } else {
      assert forall j :: 0 <= j < n ==> batch[..n][j] == batch[j];
      i := FindLastRestart(batch[..n], session);
    }
  }

  lemma OneLastRestart(batch: seq<Write>, i: nat, j: nat)
    requires LastRestart(batch, i) && LastRestart(batch, j) && batch[i].session == batch[j].session
    ensures i == j
  {
  }

  lemma {:induction false} OthersRestart(t: Tables, batch: seq<Write>, k: Key)
    requires NoRestart(batch, k.session)
    ensures SameEntry(AllRestarted(t, batch).presence, t.presence, k)
  {
    if batch != [] {
      var n := |batch| - 1;
      OthersRestart(t, batch[..n], k);
    }
  }

  /** Every player's newest event says what the table says already. */
  ghost predicate NothingNew(table: map<Key, Presence>, batch: seq<Write>, session: int) {
    forall p: int, j: nat :: IsNewest(table, batch, Key(session, p), j) ==>
      TabState(batch[j]).present == IsPresent(table, Key(session, p))
  }

  /**
   A flush that parts the table from what was handed to the writer: events after the
   session's last restart bring somebody back, or nothing is logged although the events say
   something new.
   */
  ghost predicate FlushLoses(t: Tables, batch: seq<Write>, session: int) {
    || (exists i: nat :: LastRestart(batch, i) && batch[i].session == session
          && !NobodyBack(AllInTurn(t, batch[..i + 1]).presence, batch[i + 1..], session))
    || (NoRestart(batch, session) && Logged(batch) == multiset{} && !NothingNew(t.presence, batch, session))
  }

  lemma SamePlayers(a: map<Key, Presence>, b: map<Key, Presence>, session: int)
    ensures PresentPlayers(a, session) == PresentPlayers(b, session)
            <==> forall p: int :: IsPresent(a, Key(session, p)) == IsPresent(b, Key(session, p))
  {
    forall p: int
      ensures p in PresentPlayers(a, session) <==> IsPresent(a, Key(session, p))
      ensures p in PresentPlayers(b, session) <==> IsPresent(b, Key(session, p))
    {
      IsPresentMeans(a, session, p);
      IsPresentMeans(b, session, p);
    }
    if PresentPlayers(a, session) == PresentPlayers(b, session) {
      forall p: int ensures IsPresent(a, Key(session, p)) == IsPresent(b, Key(session, p)) {
        assert p in PresentPlayers(a, session) <==> p in PresentPlayers(b, session);
      }
    }
  }

  lemma IsPresentMeans(a: map<Key, Presence>, session: int, p: int)
    ensures p in PresentPlayers(a, session) <==> IsPresent(a, Key(session, p))
  {
    assert Key(session, p).player == p;
  }

  lemma NothingNewIff(table: map<Key, Presence>, batch: seq<Write>, session: int)
    ensures NothingNew(table, batch, session) <==>
            forall p: int :: IsPresent(ApplyEach(table, batch), Key(session, p)) == IsPresent(table, Key(session, p))
  {
    forall p: int, j: nat | IsNewest(table, batch, Key(session, p), j)
      ensures IsPresent(ApplyEach(table, batch), Key(session, p)) == TabState(batch[j]).present
    {
      LastWriteWins(table, batch, Key(session, p), j);
    }
    forall p: int
      ensures HasNewest(table, batch, Key(session, p)) || SameEntry(ApplyEach(table, batch), table, Key(session, p))
    {
      NewestOrSame(table, batch, Key(session, p));
    }
  }

  /** Without a restart of the session, a flush is its events or, if it logs nothing, not even those. */
  lemma FlushWithoutRestart(t: Tables, batch: seq<Write>, session: int)
    requires NoRestart(batch, session)
    ensures PresentPlayers(Flushed(t, batch).presence, session)
         == PresentPlayers(EventsWritten(t, batch).presence, session)
    ensures PresentPlayers(AllInTurn(t, batch).presence, session)
         == PresentPlayers(ApplyEach(t.presence, batch), session)
  {
    forall p: int
      ensures IsPresent(Flushed(t, batch).presence, Key(session, p))
           == IsPresent(EventsWritten(t, batch).presence, Key(session, p))
      ensures IsPresent(AllInTurn(t, batch).presence, Key(session, p))
           == IsPresent(ApplyEach(t.presence, batch), Key(session, p))
    {
      OthersRestart(EventsWritten(t, batch), batch, Key(session, p));
      WithoutRestarts(t, batch, Key(session, p));
    }
    SamePlayers(Flushed(t, batch).presence, EventsWritten(t, batch).presence, session);
    SamePlayers(AllInTurn(t, batch).presence, ApplyEach(t.presence, batch), session);
  }

  /**
   For any batch of events and restarts and any tables: a flush leaves the players of a session
   present that arrival order would, if and only if it is none of the two kinds that lose.
   */
  lemma FlushOrderIff(t: Tables, batch: seq<Write>, session: int)
    ensures PresentPlayers(Flushed(t, batch).presence, session) == PresentPlayers(AllInTurn(t, batch).presence, session)
            <==> !FlushLoses(t, batch, session)
  {
    if NoRestart(batch, session) {
      FlushWithoutRestart(t, batch, session);
      BatchPresence(t, batch);
      NothingNewIff(t.presence, batch, session);
      SamePlayers(t.presence, ApplyEach(t.presence, batch), session);
    } else {
      var i := FindLastRestart(batch, session);
      RestartOrderIff(t, batch, i);
      forall j: nat | LastRestart(batch, j) && batch[j].session == session ensures j == i {
        OneLastRestart(batch, i, j);
      }
    }
  }

  /** A join that reaches the writer with the restart before it is retired with the others. */
  lemma RestartDropsArrival()
    ensures var batch := [ServerRestart(1, 5), Event(1, 9, "j", "t", Some(7))];
            var t := Tables(map[], multiset{});
            && PresentPlayers(Flushed(t, batch).presence, 1) == {}
            && PresentPlayers(AllInTurn(t, batch).presence, 1) == {7}
  {
    var batch := [ServerRestart(1, 5), Event(1, 9, "j", "t", Some(7))];
    var t := Tables(map[], multiset{});
    RestartRetiresWholeBatch(EventsWritten(t, batch), batch, 0);
    assert batch[..1] == [ServerRestart(1, 5)] && batch[..1][..0] == [];
    assert AllInTurn(t, batch[..1]).presence == map[];
    assert AllInTurn(t, batch).presence == map[Key(1, 7) := Presence(true, 9)];
    forall p ensures p in PresentPlayers(AllInTurn(t, batch).presence, 1) <==> p == 7 {
      IsPresentMeans(AllInTurn(t, batch).presence, 1, p);
    }
  }

  // ---------------------------------------------------------------------------
  // What is written, field by field
  // ---------------------------------------------------------------------------

  /** The first letter of a kind or source; an empty one is unknown. */
  predicate StartsWith(text: string, c: char) { if text == "" then c == 'u' else text[0] == c }

  /** A session number outside the narrow column is written as none. */
  predicate Links(session: int, column: Option<int>) {
    column == if -2147483648 <= session <= 2147483647 then Some(session) else None
  }

  /** The write is an event that belongs in the log as this very row. */
  predicate Records(w: Write, r: LogRow) {
    && w.Event? && w.player == Some(r.player) && w.at == r.at
    && StartsWith(w.kind, r.kind) && r.kind != 's' && r.kind != 'p'
    && StartsWith(w.source, r.source) && Links(w.session, r.session)
  }

  function Copies(batch: seq<Write>, r: LogRow): nat {
    if batch == [] then 0 else
    Copies(batch[..|batch| - 1], r) + if Records(batch[|batch| - 1], r) then 1 else 0
  }

  lemma {:induction false} LoggedIsCopies(batch: seq<Write>, r: LogRow)
    ensures Logged(batch)[r] == Copies(batch, r)
  {
    if batch != [] {
      var n := |batch| - 1;
      LoggedIsCopies(batch[..n], r);
      assert Records(batch[n], r) <==> IsLogged(batch[n]) && RowOf(batch[n]) == r;
    }
  }

  /** An event of a known player that is no tab marker. */
  predicate Loggable(w: Write) {
    w.Event? && w.player.Some? && !StartsWith(w.kind, 's') && !StartsWith(w.kind, 'p')
  }

  predicate LogsSome(batch: seq<Write>) { exists j :: 0 <= j < |batch| && Loggable(batch[j]) }

  lemma {:induction false} LoudIff(batch: seq<Write>)
    ensures Logged(batch) != multiset{} <==> LogsSome(batch)
  {
    if batch != [] {
      var n := |batch| - 1;
      LoudIff(batch[..n]);
      assert Loggable(batch[n]) <==> IsLogged(batch[n]);
      if IsLogged(batch[n]) {
        assert RowOf(batch[n]) in Logged(batch);
      }
      if exists i :: 0 <= i < n && Loggable(batch[..n][i]) {
        var i :| 0 <= i < n && Loggable(batch[..n][i]);
        assert Loggable(batch[i]);
      }
      if exists i :: 0 <= i < n && Loggable(batch[i]) {
        var i :| 0 <= i < n && Loggable(batch[i]);
        assert Loggable(batch[..n][i]);
      }
    }
  }

  /** For every row, a batch adds as many copies to the log as it holds events that are that row. */
  lemma LogGains(t: Tables, batch: seq<Write>, r: LogRow)
    ensures EventsWritten(t, batch).log[r] == t.log[r] + Copies(batch, r)
  {
    BatchPresence(t, batch);
    LoggedIsCopies(batch, r);
  }

  /** A tab-list event of this player and session. */
  predicate Reports(w: Write, session: int, player: int) {
    && w.Event? && w.player == Some(player) && StartsWith(w.source, 't')
    && w.session == session && Links(session, Some(session))
  }

  /** Report `i` is the newest of the player, the last of those at its time, and no older than the table's entry. */
  ghost predicate NewestReport(table: map<Key, Presence>, batch: seq<Write>, session: int, player: int, i: nat) {
    && i < |batch| && Reports(batch[i], session, player)
    && (Key(session, player) in table ==> table[Key(session, player)].at <= batch[i].at)
    && forall j :: 0 <= j < |batch| && Reports(batch[j], session, player) ==>
         batch[j].at < batch[i].at || (batch[j].at == batch[i].at && j <= i)
  }

  lemma NewestReportIs(table: map<Key, Presence>, batch: seq<Write>, session: int, player: int, i: nat)
    ensures NewestReport(table, batch, session, player, i) <==> IsNewest(table, batch, Key(session, player), i)
  {
    assert forall j :: 0 <= j < |batch| ==>
        (Reports(batch[j], session, player) <==> About(batch[j], Key(session, player)));
  }

  /** Gone after a leave or a disappearance, present after any other report, dated by the report. */
  function Reported(w: Write): Presence
    requires w.Event?
  {
    Presence(!StartsWith(w.kind, 'l') && !StartsWith(w.kind, 'p'), w.at)
  }

  /**
   A batch that logs a row leaves a player as the newest report says; without a report that
   is new enough, and in a batch that logs nothing, the entry stays.
   */
  lemma PresenceGains(t: Tables, batch: seq<Write>, session: int, player: int)
    ensures var now := At(EventsWritten(t, batch).presence, Key(session, player));
            if LogsSome(batch) && exists i: nat :: NewestReport(t.presence, batch, session, player, i)
            then exists i: nat :: NewestReport(t.presence, batch, session, player, i) && now == Some(Reported(batch[i]))
            else now == At(t.presence, Key(session, player))
  {
    var k := Key(session, player);
    BatchPresence(t, batch);
    LoudIff(batch);
    NewestOrSame(t.presence, batch, k);
    forall i: nat ensures NewestReport(t.presence, batch, session, player, i) <==> IsNewest(t.presence, batch, k, i) {
      NewestReportIs(t.presence, batch, session, player, i);
    }
    forall i: nat | IsNewest(t.presence, batch, k, i)
      ensures At(ApplyEach(t.presence, batch), k) == Some(TabState(batch[i]))
    {
      LastWriteWins(t.presence, batch, k, i);
    }
  }

  /** A restart dates everyone it retires, and touches no other entry. */
  lemma RestartEntries(t: Tables, session: int, at: int, k: Key)
    ensures At(Restarted(t, session, at).presence, k)
         == if k.session == session && IsPresent(t.presence, k) then Some(Presence(false, at)) else At(t.presence, k)
  {
    IsPresentMeans(t.presence, session, k.player);
    assert k.session == session ==> k == Key(session, k.player);
  }

  /** A reconcile marks and dates whom it lists, unless newer news is there, and retires and dates the rest. */
  lemma ReconcileEntries(t: Tables, session: int, at: int, ids: set<int>, pick: map<int, char>, k: Key)
    ensures At(Reconciled(t, session, at, ids, pick).presence, k)
         == if k.session != session then At(t.presence, k)
            else if k.player in ids then
              if k in t.presence && t.presence[k].at > at then At(t.presence, k) else Some(Presence(true, at))
            else if IsPresent(t.presence, k) then Some(Presence(false, at))
            else At(t.presence, k)
  {
    SeenAt(t.presence, session, ids, at, k);
    IsPresentMeans(Merge(t.presence, Snapshot(session, ids, at)), session, k.player);
    assert k.session == session ==> k == Key(session, k.player);
  }

  /** `rows` list exactly the entries of `out`, none of them for a key of `left`. */
  ghost predicate Draining(rows: seq<Row>, out: map<Key, Presence>, left: set<Key>) {
    DistinctKeys(rows) && (forall i :: 0 <= i < |rows| ==> rows[i].0 !in left) && MapOf(rows) == out
  }

  lemma MoveRow(rows: seq<Row>, left: set<Key>, k: Key, m: map<Key, Presence>)
    requires k in left && left <= m.Keys && Draining(rows, m - left, left)
    ensures Draining(rows + [(k, m[k])], m - (left - {k}), left - {k})
  {
    assert (rows + [(k, m[k])])[..|rows|] == rows;
    assert m - (left - {k}) == (m - left)[k := m[k]];
  }

  function AllRestarted(t: Tables, batch: seq<Write>): Tables {
    if batch == [] then t else
    var before := AllRestarted(t, batch[..|batch| - 1]);
    var w := batch[|batch| - 1];
    if IsRestart(w) then Restarted(before, w.session, w.at) else before
  }

  /**
   The first `i` rows are in: `affected` are the keys they wrote, none twice, and `now` is
   the table with them merged in.
   */
  ghost predicate Upserting(table: map<Key, Presence>, rows: seq<Row>, i: nat, affected: set<Key>,
                            now: map<Key, Presence>)
    requires i <= |rows|
  {
    AffectedAre(table, rows, i, affected) && now == Merge(table, MapOf(rows[..i]))
  }

  ghost predicate AffectedAre(table: map<Key, Presence>, rows: seq<Row>, i: nat, affected: set<Key>)
    requires i <= |rows|
  {
    && (forall m :: 0 <= m < i && Accepts(table, rows[m]) ==> rows[m].0 in affected)
    && (forall k :: k in affected ==> exists m :: 0 <= m < i && Accepts(table, rows[m]) && rows[m].0 == k)
    && forall m, n :: 0 <= m < n < i && Accepts(table, rows[m]) ==> rows[m].0 != rows[n].0
  }

  lemma {:induction false} MapOfEntry(rows: seq<Row>, k: Key) returns (m: nat)
    requires k in MapOf(rows)
    ensures m < |rows| && rows[m] == (k, MapOf(rows)[k])
  {
    var n := |rows| - 1;
    if rows[n].0 == k {
      m := n;
    } else {
      m := MapOfEntry(rows[..n], k);
    }
  }

  lemma MergeRejected(table: map<Key, Presence>, m: map<Key, Presence>, k: Key, v: Presence)
    requires k in m ==> k in table && table[k].at > m[k].at
    ensures Merge(table, m[k := v]) == PutNewer(Merge(table, m), k, v)
  {
  }

  lemma NothingUpserted(table: map<Key, Presence>, rows: seq<Row>)
    ensures Upserting(table, rows, 0, {}, table)
  {
    assert Merge(table, map[]) == table;
  }

  lemma AffectedAgain(table: map<Key, Presence>, rows: seq<Row>, i: nat, affected: set<Key>, now: map<Key, Presence>)
    requires i < |rows| && Upserting(table, rows, i, affected, now) && rows[i].0 in affected
    ensures AffectsTwice(table, rows)
  {
  }

  lemma NoneAffectedTwice(table: map<Key, Presence>, rows: seq<Row>, affected: set<Key>, now: map<Key, Presence>)
    requires Upserting(table, rows, |rows|, affected, now)
    ensures !AffectsTwice(table, rows) && now == Merge(table, MapOf(rows))
  {
    assert rows[..|rows|] == rows;
  }

  /** A row whose key is not yet affected meets the table as it was. */
  lemma MeetsAsBefore(table: map<Key, Presence>, rows: seq<Row>, i: nat, affected: set<Key>)
    requires i < |rows| && AffectedAre(table, rows, i, affected) && rows[i].0 !in affected
    ensures var now := Merge(table, MapOf(rows[..i]));
            && Accepts(now, rows[i]) == Accepts(table, rows[i])
            && Merge(table, MapOf(rows[..i + 1])) == PutNewer(now, rows[i].0, rows[i].1)
  {
    var k, m := rows[i].0, MapOf(rows[..i]);
    assert rows[..i + 1][..i] == rows[..i];
    if k in m {
      var at := MapOfEntry(rows[..i], k);
      assert !Accepts(table, rows[at]);
    }
    MergeRejected(table, m, k, rows[i].1);
  }

  lemma AffectedStep(table: map<Key, Presence>, rows: seq<Row>, i: nat, affected: set<Key>)
    requires i < |rows| && AffectedAre(table, rows, i, affected) && rows[i].0 !in affected
    ensures AffectedAre(table, rows, i + 1, if Accepts(table, rows[i]) then affected + {rows[i].0} else affected)
  {
    var after := if Accepts(table, rows[i]) then affected + {rows[i].0} else affected;
    forall k | k in after ensures exists m :: 0 <= m < i + 1 && Accepts(table, rows[m]) && rows[m].0 == k {
      if k in affected {
        var m :| 0 <= m < i && Accepts(table, rows[m]) && rows[m].0 == k;
        assert m < i + 1;
      }
    }
  }

  lemma UpsertStep(table: map<Key, Presence>, rows: seq<Row>, i: nat, affected: set<Key>, now: map<Key, Presence>)
    requires i < |rows| && Upserting(table, rows, i, affected, now) && rows[i].0 !in affected
    ensures Upserting(table, rows, i + 1, if Accepts(now, rows[i]) then affected + {rows[i].0} else affected,
                      PutNewer(now, rows[i].0, rows[i].1))
  {
    MeetsAsBefore(table, rows, i, affected);
    AffectedStep(table, rows, i, affected);
  }

  lemma SnapshotAffects(presence: map<Key, Presence>, session: int, at: int, ids: seq<int>, rows: seq<Row>)
    requires |rows| == |ids|
    requires forall i :: 0 <= i < |ids| ==> rows[i] == (Key(session, ids[i]), Presence(true, at))
    ensures AffectsTwice(presence, rows) <==> MarksTwice(presence, session, at, ids)
  {
    if MarksTwice(presence, session, at, ids) {
      var i, j :| 0 <= i < j < |ids| && ids[i] == ids[j]
        && (Key(session, ids[i]) !in presence || presence[Key(session, ids[i])].at <= at);
      assert Accepts(presence, rows[i]) && rows[i].0 == rows[j].0;
    }
    if AffectsTwice(presence, rows) {
      var i, j :| 0 <= i < j < |rows| && Accepts(presence, rows[i]) && rows[i].0 == rows[j].0;
      assert ids[i] == ids[j];
    }
  }

  lemma SnapshotRows(session: int, at: int, ids: seq<int>, rows: seq<Row>)
    requires |rows| == |ids|
    requires forall i :: 0 <= i < |ids| ==> rows[i] == (Key(session, ids[i]), Presence(true, at))
    ensures MapOf(rows) == Snapshot(session, Everyone(ids), at)
  {
    forall k ensures k in MapOf(rows) <==> k in Snapshot(session, Everyone(ids), at) {
      MapOfKeys(rows, k);
      InSessionKeys(session, Everyone(ids), k);
      if k in Snapshot(session, Everyone(ids), at) {
        var i :| 0 <= i < |ids| && ids[i] == k.player;
        assert rows[i].0 == Key(session, k.player) == k;
      }
    }
    MapOfValues(rows, Presence(true, at));
  }

  lemma {:induction false} MapOfValues(rows: seq<Row>, v: Presence)
    requires forall i :: 0 <= i < |rows| ==> rows[i].1 == v
    ensures forall k :: k in MapOf(rows) ==> MapOf(rows)[k] == v
  {
    if rows != [] {
      MapOfValues(rows[..|rows| - 1], v);
    }
  }
}
