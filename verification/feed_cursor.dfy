/**
 The polled feed: two database cursors, one for chat rows and one for join/leave rows,
 and what each poll hands on. Any statement of a tick may fail.
 */
module FeedCursor {
  import opened Basics

  const HOUR := 3600000

  /** A row of either table; `wanted` is the statement's kind filter. */
  datatype Row = Row(id: int, at: int, wanted: bool)

  /** A stretch of ids the cursor moved over: read by an open feed from `floor` on, or jumped while paused. */
  datatype Window = Window(from: int, to: int, floor: Option<int>, open: bool)

  /** One table with its cursor; `windows` is history. */
  datatype Lane = Lane(rows: seq<Row>, cursor: int, at: Option<int>, windows: seq<Window>)

  predicate Eligible(from: int, floor: Option<int>, r: Row) {
    r.id > from && r.wanted && (floor.None? || r.at >= floor.value)
  }

  predicate Read(w: Window, r: Row) { w.open && Eligible(w.from, w.floor, r) && r.id <= w.to }

  function Floor(at: Option<int>): Option<int> { if at.None? then None else Some(at.value - HOUR) }

  function After(rows: seq<Row>, from: int, floor: Option<int>): seq<Row> {
    if rows == [] then [] else
    After(rows[..|rows| - 1], from, floor)
      + if Eligible(from, floor, rows[|rows| - 1]) then [rows[|rows| - 1]] else []
  }

  function Fetch(l: Lane, limit: nat): seq<Row> {
    var after := After(l.rows, l.cursor, Floor(l.at));
    after[..Min(limit, |after|)]
  }

  function Advance(l: Lane, batch: seq<Row>): Lane {
    if batch == [] then l else
    var last := batch[|batch| - 1];
    l.(cursor := last.id, at := Some(last.at), windows := l.windows + [Window(l.cursor, last.id, Floor(l.at), true)])
  }

  datatype Latest = Latest(id: int, at: Option<int>)

  function Jump(l: Lane, latest: Latest): Lane {
    if latest.id <= l.cursor then l else
    l.(cursor := latest.id, at := latest.at, windows := l.windows + [Window(l.cursor, latest.id, None, false)])
  }

  // ---------------------------------------------------------------------------
  // The rows a history of windows has read
  // ---------------------------------------------------------------------------

  function Taken(rows: seq<Row>, w: Window): seq<Row> {
    if rows == [] then [] else
    Taken(rows[..|rows| - 1], w) + if Read(w, rows[|rows| - 1]) then [rows[|rows| - 1]] else []
  }

  function Due(rows: seq<Row>, windows: seq<Window>): seq<Row> {
    if windows == [] then [] else
    Due(rows, windows[..|windows| - 1]) + Taken(rows, windows[|windows| - 1])
  }

  predicate Sorted(rows: seq<Row>) { forall i, j :: 0 <= i < j < |rows| ==> rows[i].id < rows[j].id }

  /** The windows lie end to end from `start` to the cursor, and read no further than the table goes. */
  predicate Chained(l: Lane, start: int) {
    && (l.windows == [] ==> l.cursor == start)
    && (l.windows != [] ==> l.windows[0].from == start && l.windows[|l.windows| - 1].to == l.cursor)
    && (forall i :: 0 <= i < |l.windows| ==> Fits(l, i))
  }

  predicate Fits(l: Lane, i: nat)
    requires i < |l.windows|
  {
    var w := l.windows[i];
    && w.from < w.to && (i > 0 ==> w.from == l.windows[i - 1].to)
    && (w.open ==> l.rows != [] && w.to <= l.rows[|l.rows| - 1].id)
  }

  predicate LaneInv(l: Lane, start: int) { Sorted(l.rows) && Chained(l, start) }

  lemma {:induction false} AfterMeans(rows: seq<Row>, from: int, floor: Option<int>, r: Row)
    ensures r in After(rows, from, floor) <==> r in rows && Eligible(from, floor, r)
  {
    if rows != [] {
      AfterMeans(rows[..|rows| - 1], from, floor, r);
      assert rows == rows[..|rows| - 1] + [rows[|rows| - 1]];
    }
  }

  lemma {:induction false} TakesAll(rows: seq<Row>, w: Window)
    requires w.open && forall i :: 0 <= i < |rows| ==> rows[i].id <= w.to
    ensures Taken(rows, w) == After(rows, w.from, w.floor)
  {
    if rows != [] {
      TakesAll(rows[..|rows| - 1], w);
    }
  }

  /** A page is all the eligible rows up to its last id. */
  lemma {:induction false} PageIsWindow(rows: seq<Row>, from: int, floor: Option<int>, k: nat)
    requires Sorted(rows) && 0 < k <= |After(rows, from, floor)|
    ensures var page := After(rows, from, floor)[..k];
            Taken(rows, Window(from, page[k - 1].id, floor, true)) == page
    decreases |rows|
  {
    var n := |rows| - 1;
    var init := After(rows[..n], from, floor);
    if k <= |init| {
      PageIsWindow(rows[..n], from, floor, k);
      AfterMeans(rows[..n], from, floor, init[k - 1]);
      assert After(rows, from, floor)[..k] == init[..k];
    } else {
      assert After(rows, from, floor)[..k] == init + [rows[n]];
      TakesAll(rows, Window(from, rows[n].id, floor, true));
    }
  }

  lemma LaneAdvances(l: Lane, start: int, limit: nat)
    requires LaneInv(l, start)
    ensures var l' := Advance(l, Fetch(l, limit));
            && LaneInv(l', start) && l'.cursor >= l.cursor
            && Due(l'.rows, l'.windows) == Due(l.rows, l.windows) + Fetch(l, limit)
  {
    var batch := Fetch(l, limit);
    if batch != [] {
      var last := batch[|batch| - 1];
      AfterMeans(l.rows, l.cursor, Floor(l.at), last);
      PageIsWindow(l.rows, l.cursor, Floor(l.at), |batch|);
      AppendFits(l, start, Window(l.cursor, last.id, Floor(l.at), true), Some(last.at));
    }
  }

  lemma AppendFits(l: Lane, start: int, w: Window, at: Option<int>)
    requires LaneInv(l, start) && w.from == l.cursor < w.to
    requires w.open ==> exists i :: 0 <= i < |l.rows| && l.rows[i].id == w.to
    ensures LaneInv(Lane(l.rows, w.to, at, l.windows + [w]), start)
    ensures Due(l.rows, l.windows + [w]) == Due(l.rows, l.windows) + Taken(l.rows, w)
  {
    var l' := Lane(l.rows, w.to, at, l.windows + [w]);
    forall i | 0 <= i < |l'.windows| ensures Fits(l', i) {
      assert i < |l.windows| ==> Fits(l, i);
    }
    assert (l.windows + [w])[..|l.windows|] == l.windows;
  }

  lemma {:induction false} ClosedTakesNothing(rows: seq<Row>, w: Window)
    requires !w.open
    ensures Taken(rows, w) == []
  {
    if rows != [] {
      ClosedTakesNothing(rows[..|rows| - 1], w);
    }
  }

  lemma LaneJumps(l: Lane, start: int, latest: Latest)
    requires LaneInv(l, start)
    ensures var l' := Jump(l, latest);
            LaneInv(l', start) && l'.cursor >= l.cursor && Due(l'.rows, l'.windows) == Due(l.rows, l.windows)
  {
    if latest.id > l.cursor {
      var w := Window(l.cursor, latest.id, None, false);
      AppendFits(l, start, w, latest.at);
      ClosedTakesNothing(l.rows, w);
    }
  }

  lemma DueSnoc(l: Lane, k: nat)
    requires 0 < k <= |l.windows|
    ensures Due(l.rows, l.windows[..k]) == Due(l.rows, l.windows[..k - 1]) + Taken(l.rows, l.windows[k - 1])
  {
    assert l.windows[..k][..k - 1] == l.windows[..k - 1];
  }

  lemma TakenKeeps(l: Lane, start: int, r: Row, i: nat)
    requires LaneInv(l, start) && i < |l.windows| && Sorted(l.rows + [r])
    ensures Taken(l.rows + [r], l.windows[i]) == Taken(l.rows, l.windows[i])
  {
    assert Fits(l, i);
    assert (l.rows + [r])[..|l.rows|] == l.rows;
    assert l.windows[i].open ==> l.rows[|l.rows| - 1].id < r.id;
  }

  /** A row that becomes visible after the others does not change what was read. */
  lemma {:induction false} DueKeeps(l: Lane, start: int, r: Row, k: nat)
    requires LaneInv(l, start) && k <= |l.windows| && Sorted(l.rows + [r])
    ensures Due(l.rows + [r], l.windows[..k]) == Due(l.rows, l.windows[..k])
    decreases k
  {
    if k > 0 {
      DueKeeps(l, start, r, k - 1);
      TakenKeeps(l, start, r, k - 1);
      DueSnoc(l, k);
      DueSnoc(l.(rows := l.rows + [r]), k);
    }
  }

  lemma StillFits(l: Lane, r: Row, i: nat)
    requires i < |l.windows| && Fits(l, i) && Sorted(l.rows + [r])
    ensures Fits(l.(rows := l.rows + [r]), i)
  {
    assert l.rows != [] ==> (l.rows + [r])[|l.rows| - 1].id < (l.rows + [r])[|l.rows|].id;
  }

  lemma RowAppears(l: Lane, start: int, r: Row)
    requires LaneInv(l, start) && Sorted(l.rows + [r])
    ensures LaneInv(l.(rows := l.rows + [r]), start)
    ensures Due(l.rows + [r], l.windows) == Due(l.rows, l.windows)
  {
    DueKeeps(l, start, r, |l.windows|);
    assert l.windows[..|l.windows|] == l.windows;
    forall i | 0 <= i < |l.windows| ensures Fits(l.(rows := l.rows + [r]), i) {
      StillFits(l, r, i);
    }
  }

  lemma {:induction false} TakenIsSorted(rows: seq<Row>, w: Window)
    requires Sorted(rows)
    ensures Sorted(Taken(rows, w))
    ensures forall r :: r in Taken(rows, w) <==> r in rows && Read(w, r)
  {
    if rows != [] {
      var n := |rows| - 1;
      TakenIsSorted(rows[..n], w);
      assert rows == rows[..n] + [rows[n]];
      assert forall r :: r in Taken(rows[..n], w) ==> r.id < rows[n].id;
    }
  }

  lemma TakenIsBounded(rows: seq<Row>, w: Window)
    requires Sorted(rows)
    ensures Sorted(Taken(rows, w)) && Bounded(Taken(rows, w), w.from, w.to)
  {
    TakenIsSorted(rows, w);
  }

  predicate Bounded(rows: seq<Row>, lo: int, hi: int) { forall r :: r in rows ==> lo < r.id <= hi }

  lemma JoinSorted(a: seq<Row>, b: seq<Row>, lo: int, mid: int, hi: int)
    requires Sorted(a) && Sorted(b) && Bounded(a, lo, mid) && Bounded(b, mid, hi) && lo <= mid <= hi
    ensures Sorted(a + b) && Bounded(a + b, lo, hi)
  {
    var ab := a + b;
    forall i, j | 0 <= i < j < |ab| ensures ab[i].id < ab[j].id {
      if i < |a| <= j {
        assert ab[i] in a && ab[j] in b;
      }
    }
    forall r | r in ab ensures lo < r.id <= hi {
      assert r in a || r in b;
    }
  }

  lemma {:induction false} ChainRises(l: Lane, start: int, k: nat)
    requires LaneInv(l, start) && 0 < k <= |l.windows|
    ensures start < l.windows[k - 1].to && start <= l.windows[k - 1].from
    decreases k
  {
    assert Fits(l, k - 1);
    if k > 1 {
      ChainRises(l, start, k - 1);
    }
  }

  /** What is read comes once each, in id order, between the start and the cursor. */
  lemma {:induction false} DueRises(l: Lane, start: int, k: nat)
    requires LaneInv(l, start) && k <= |l.windows|
    ensures Sorted(Due(l.rows, l.windows[..k]))
    ensures Bounded(Due(l.rows, l.windows[..k]), start, if k == 0 then start else l.windows[k - 1].to)
    decreases k
  {
    if k > 0 {
      DueRises(l, start, k - 1);
      ChainRises(l, start, k);
      var w := l.windows[k - 1];
      TakenIsBounded(l.rows, w);
      assert Fits(l, k - 1);
      DueSnoc(l, k);
      JoinSorted(Due(l.rows, l.windows[..k - 1]), Taken(l.rows, w), start, w.from, w.to);
    }
  }

  /** Every wanted row in an id range. */
  function Between(rows: seq<Row>, from: int, to: int): seq<Row> { Taken(rows, Window(from, to, None, true)) }

  lemma {:induction false} SplitBetween(rows: seq<Row>, from: int, mid: int, to: int)
    requires Sorted(rows) && from <= mid <= to
    ensures Between(rows, from, to) == Between(rows, from, mid) + Between(rows, mid, to)
  {
    if rows != [] {
      var n := |rows| - 1;
      SplitBetween(rows[..n], from, mid, to);
      if rows[n].id <= mid {
        NothingAbove(rows[..n], mid, to);
      }
    }
  }

  lemma {:induction false} NothingAbove(rows: seq<Row>, from: int, to: int)
    requires forall i :: 0 <= i < |rows| ==> rows[i].id <= from
    ensures Between(rows, from, to) == []
  {
    if rows != [] {
      NothingAbove(rows[..|rows| - 1], from, to);
    }
  }

  /** A wanted row the cursor moved over without reading it: while paused, or an hour too late. */
  predicate PassedOver(w: Window, r: Row) { w.from < r.id <= w.to && r.wanted && !Read(w, r) }

  predicate NothingPassedOver(l: Lane) {
    forall i, j :: 0 <= i < |l.windows| && 0 <= j < |l.rows| ==> !PassedOver(l.windows[i], l.rows[j])
  }

  lemma {:induction false} TakenIsBetween(rows: seq<Row>, w: Window)
    requires forall j :: 0 <= j < |rows| ==> !PassedOver(w, rows[j])
    ensures Taken(rows, w) == Between(rows, w.from, w.to)
  {
    if rows != [] {
      TakenIsBetween(rows[..|rows| - 1], w);
    }
  }

  lemma {:induction false} DueIsAll(l: Lane, start: int, k: nat)
    requires LaneInv(l, start) && NothingPassedOver(l) && k <= |l.windows|
    ensures Due(l.rows, l.windows[..k]) == Between(l.rows, start, if k == 0 then start else l.windows[k - 1].to)
    decreases k
  {
    if k == 0 {
      EmptyRange(l.rows, start);
    } else {
      DueIsAll(l, start, k - 1);
      var w := l.windows[k - 1];
      assert Fits(l, k - 1);
      TakenIsBetween(l.rows, w);
      ChainRises(l, start, k);
      DueSnoc(l, k);
      SplitBetween(l.rows, start, w.from, w.to);
    }
  }

  lemma {:induction false} WindowsApart(l: Lane, start: int, i: nat, j: nat)
    requires LaneInv(l, start) && i < j < |l.windows|
    ensures l.windows[i].to <= l.windows[j].from < l.windows[j].to
    decreases j
  {
    assert Fits(l, j);
    if i < j - 1 {
      WindowsApart(l, start, i, j - 1);
    }
  }

  lemma {:induction false} DueComesFrom(l: Lane, r: Row, k: nat) returns (i: nat)
    requires Sorted(l.rows) && k <= |l.windows| && r in Due(l.rows, l.windows[..k])
    ensures i < k && Read(l.windows[i], r)
    decreases k
  {
    DueSnoc(l, k);
    TakenIsSorted(l.rows, l.windows[k - 1]);
    if r in Taken(l.rows, l.windows[k - 1]) {
      i := k - 1;
    } else {
      i := DueComesFrom(l, r, k - 1);
    }
  }

  lemma NoWindowReads(l: Lane, start: int, i: nat, j: nat, r: Row)
    requires LaneInv(l, start) && i < |l.windows| && j < |l.windows| && PassedOver(l.windows[i], r)
    ensures !Read(l.windows[j], r)
  {
    if j < i {
      WindowsApart(l, start, j, i);
    } else if i < j {
      WindowsApart(l, start, i, j);
    }
  }

  lemma PassedOverIsInRange(l: Lane, start: int, i: nat, r: Row)
    requires LaneInv(l, start) && i < |l.windows| && PassedOver(l.windows[i], r)
    ensures start < r.id <= l.cursor
  {
    ChainRises(l, start, i + 1);
    if i < |l.windows| - 1 {
      WindowsApart(l, start, i, |l.windows| - 1);
    }
  }

  /** A row passed over is a wanted one that is never read. */
  lemma PassedOverIsMissing(l: Lane, start: int, i: nat, r: Row)
    requires LaneInv(l, start) && i < |l.windows| && r in l.rows && PassedOver(l.windows[i], r)
    ensures r in Between(l.rows, start, l.cursor) && r !in Due(l.rows, l.windows)
  {
    PassedOverIsInRange(l, start, i, r);
    TakenIsSorted(l.rows, Window(start, l.cursor, None, true));
    if r in Due(l.rows, l.windows) {
      assert l.windows[..|l.windows|] == l.windows;
      var j := DueComesFrom(l, r, |l.windows|);
      NoWindowReads(l, start, i, j, r);
    }
  }

  /** The rows read are all the wanted ones up to the cursor exactly when none was passed over. */
  lemma DueIsAllIff(l: Lane, start: int)
    requires LaneInv(l, start)
    ensures Due(l.rows, l.windows) == Between(l.rows, start, l.cursor) <==> NothingPassedOver(l)
  {
    if NothingPassedOver(l) {
      DueIsAll(l, start, |l.windows|);
      assert l.windows[..|l.windows|] == l.windows;
    } else {
      var i, j :| 0 <= i < |l.windows| && 0 <= j < |l.rows| && PassedOver(l.windows[i], l.rows[j]);
      PassedOverIsMissing(l, start, i, l.rows[j]);
    }
  }

  lemma {:induction false} EmptyRange(rows: seq<Row>, at: int)
    ensures Between(rows, at, at) == []
  {
    if rows != [] {
      EmptyRange(rows[..|rows| - 1], at);
    }
  }

  // ---------------------------------------------------------------------------
  // One delivery: chat and presence merged by time
  // ---------------------------------------------------------------------------

  datatype Item = Item(chat: bool, row: Row)

  function Tag(rows: seq<Row>, chat: bool): seq<Item> { seq(|rows|, i requires 0 <= i < |rows| => Item(chat, rows[i])) }

  /** Stable: after every item at the same time or earlier. */
  function Insert(items: seq<Item>, x: Item): seq<Item> {
    if items == [] || items[|items| - 1].row.at <= x.row.at then items + [x]
    else Insert(items[..|items| - 1], x) + [items[|items| - 1]]
  }

  function SortByTime(items: seq<Item>): seq<Item> {
    if items == [] then [] else Insert(SortByTime(items[..|items| - 1]), items[|items| - 1])
  }

  predicate InTime(items: seq<Item>) { forall i, j :: 0 <= i < j < |items| ==> items[i].row.at <= items[j].row.at }

  function OnlyIf(x: Item, chat: bool): seq<Item> { if x.chat == chat then [x] else [] }

  function Part(items: seq<Item>, chat: bool): seq<Item> {
    if items == [] then [] else Part(items[..|items| - 1], chat) + OnlyIf(items[|items| - 1], chat)
  }

  lemma {:induction false} PartAppend(a: seq<Item>, b: seq<Item>, chat: bool)
    ensures Part(a + b, chat) == Part(a, chat) + Part(b, chat)
    decreases |b|
  {
    if b == [] {
      assert a + b == a;
    } else {
      var n := |b| - 1;
      assert (a + b)[..|a| + n] == a + b[..n];
      PartAppend(a, b[..n], chat);
    }
  }

  lemma {:induction false} PartIn(items: seq<Item>, chat: bool, x: Item)
    requires x in Part(items, chat)
    ensures x in items
  {
    var n := |items| - 1;
    assert items == items[..n] + [items[n]];
    if x in Part(items[..n], chat) {
      PartIn(items[..n], chat, x);
    }
  }

  lemma PartSnoc(items: seq<Item>, x: Item, chat: bool)
    ensures Part(items + [x], chat) == Part(items, chat) + OnlyIf(x, chat)
  {
    assert (items + [x])[..|items|] == items;
  }

  lemma InsertSnoc(items: seq<Item>, y: Item, x: Item)
    ensures Insert(items + [y], x) == if y.row.at <= x.row.at then items + [y] + [x] else Insert(items, x) + [y]
  {
    assert (items + [y])[..|items|] == items;
  }

  lemma SortSnoc(items: seq<Item>, x: Item)
    ensures SortByTime(items + [x]) == Insert(SortByTime(items), x)
  {
    assert (items + [x])[..|items|] == items;
  }

  lemma {:induction false} InsertIsOneMore(items: seq<Item>, x: Item)
    ensures multiset(Insert(items, x)) == multiset(items) + multiset{x}
  {
    if items != [] && items[|items| - 1].row.at > x.row.at {
      var n := |items| - 1;
      InsertIsOneMore(items[..n], x);
      assert items == items[..n] + [items[n]];
    }
  }

  predicate NoneAfter(items: seq<Item>, t: int) { forall i :: 0 <= i < |items| ==> items[i].row.at <= t }

  lemma AppendInTime(items: seq<Item>, x: Item)
    requires InTime(items) && NoneAfter(items, x.row.at)
    ensures InTime(items + [x])
  {
  }

  lemma FrontInTime(items: seq<Item>)
    requires InTime(items) && items != []
    ensures InTime(items[..|items| - 1]) && NoneAfter(items, items[|items| - 1].row.at)
  {
  }

  lemma InsertNoneAfter(items: seq<Item>, x: Item, t: int)
    requires NoneAfter(items, t) && x.row.at <= t
    ensures NoneAfter(Insert(items, x), t)
  {
    InsertIsOneMore(items, x);
    var front := Insert(items, x);
    forall i | 0 <= i < |front| ensures front[i].row.at <= t {
      assert front[i] in multiset(front);
    }
  }

  lemma {:induction false} InsertKeepsTime(items: seq<Item>, x: Item)
    requires InTime(items)
    ensures InTime(Insert(items, x))
  {
    if items != [] {
      var n := |items| - 1;
      FrontInTime(items);
      if items[n].row.at <= x.row.at {
        AppendInTime(items, x);
      } else {
        InsertKeepsTime(items[..n], x);
        InsertNoneAfter(items[..n], x, items[n].row.at);
        AppendInTime(Insert(items[..n], x), items[n]);
      }
    }
  }

  /** The delivered rows are the fetched ones, in time order. */
  lemma {:induction false} SortIsPermutation(items: seq<Item>)
    ensures InTime(SortByTime(items)) && multiset(SortByTime(items)) == multiset(items)
  {
    if items != [] {
      var n := |items| - 1;
      SortIsPermutation(items[..n]);
      InsertIsOneMore(SortByTime(items[..n]), items[n]);
      InsertKeepsTime(SortByTime(items[..n]), items[n]);
      assert items == items[..n] + [items[n]];
    }
  }

  lemma SortedInTime(items: seq<Item>)
    ensures InTime(SortByTime(items))
  {
    SortIsPermutation(items);
  }

  lemma InsertAtEnd(items: seq<Item>, x: Item, chat: bool)
    requires InTime(items) && x.chat == chat && (items == [] || items[|items| - 1].row.at <= x.row.at)
    ensures Insert(Part(items, chat), x) == Part(items, chat) + [x]
  {
    var part := Part(items, chat);
    if part != [] {
      PartIn(items, chat, part[|part| - 1]);
    }
  }

  function Into(part: seq<Item>, x: Item, chat: bool): seq<Item> { if x.chat == chat then Insert(part, x) else part }

  lemma IntoSnoc(part: seq<Item>, y: Item, x: Item, chat: bool)
    requires y.row.at > x.row.at
    ensures Into(part + OnlyIf(y, chat), x, chat) == Into(part, x, chat) + OnlyIf(y, chat)
  {
    if y.chat == chat {
      InsertSnoc(part, y, x);
    } else {
      assert part + [] == part;
    }
  }

  lemma InsertPartStep(init: seq<Item>, y: Item, x: Item, chat: bool)
    requires y.row.at > x.row.at && Part(Insert(init, x), chat) == Into(Part(init, chat), x, chat)
    ensures Part(Insert(init + [y], x), chat) == Into(Part(init + [y], chat), x, chat)
  {
    calc {
      Part(Insert(init + [y], x), chat);
      { InsertSnoc(init, y, x); }
      Part(Insert(init, x) + [y], chat);
      { PartSnoc(Insert(init, x), y, chat); }
      Into(Part(init, chat), x, chat) + OnlyIf(y, chat);
      { IntoSnoc(Part(init, chat), y, x, chat); }
      Into(Part(init, chat) + OnlyIf(y, chat), x, chat);
      { PartSnoc(init, y, chat); }
      Into(Part(init + [y], chat), x, chat);
    }
  }

  lemma InsertPartLast(items: seq<Item>, x: Item, chat: bool)
    requires InTime(items) && (items == [] || items[|items| - 1].row.at <= x.row.at)
    ensures Part(Insert(items, x), chat) == Into(Part(items, chat), x, chat)
  {
    PartSnoc(items, x, chat);
    if x.chat == chat {
      InsertAtEnd(items, x, chat);
    }
  }

  lemma {:induction false} InsertPart(items: seq<Item>, x: Item, chat: bool)
    requires InTime(items)
    ensures Part(Insert(items, x), chat) == Into(Part(items, chat), x, chat)
  {
    if items == [] || items[|items| - 1].row.at <= x.row.at {
      InsertPartLast(items, x, chat);
    } else {
      var init, y := items[..|items| - 1], items[|items| - 1];
      assert items == init + [y];
      InsertPart(init, x, chat);
      InsertPartStep(init, y, x, chat);
    }
  }

  lemma SortPartStep(init: seq<Item>, x: Item, chat: bool)
    requires Part(SortByTime(init), chat) == SortByTime(Part(init, chat))
    ensures Part(SortByTime(init + [x]), chat) == SortByTime(Part(init + [x], chat))
  {
    SortSnoc(init, x);
    SortedInTime(init);
    InsertPart(SortByTime(init), x, chat);
    PartSnoc(init, x, chat);
    SortSnoc(Part(init, chat), x);
    assert Part(init, chat) + [] == Part(init, chat);
  }

  /** Merging with the other table does not reorder a table's own rows. */
  lemma {:induction false} SortPart(items: seq<Item>, chat: bool)
    ensures Part(SortByTime(items), chat) == SortByTime(Part(items, chat))
  {
    if items != [] {
      var init, x := items[..|items| - 1], items[|items| - 1];
      assert items == init + [x];
      SortPart(init, chat);
      SortPartStep(init, x, chat);
    }
  }

  lemma AppendStays(items: seq<Item>)
    requires items != [] && NoneAfter(items, items[|items| - 1].row.at)
    ensures Insert(items[..|items| - 1], items[|items| - 1]) == items
  {
  }

  lemma {:induction false} SortedStays(items: seq<Item>)
    requires InTime(items)
    ensures SortByTime(items) == items
  {
    if items != [] {
      var n := |items| - 1;
      FrontInTime(items);
      SortedStays(items[..n]);
      AppendStays(items);
    }
  }

  lemma TagSnoc(rows: seq<Row>, tag: bool)
    requires rows != []
    ensures Tag(rows, tag) == Tag(rows[..|rows| - 1], tag) + [Item(tag, rows[|rows| - 1])]
  {
  }

  lemma {:induction false} PartOfTag(rows: seq<Row>, tag: bool, chat: bool)
    ensures Part(Tag(rows, tag), chat) == if tag == chat then Tag(rows, tag) else []
  {
    if rows != [] {
      var n := |rows| - 1;
      PartOfTag(rows[..n], tag, chat);
      TagSnoc(rows, tag);
      PartSnoc(Tag(rows[..n], tag), Item(tag, rows[n]), chat);
    }
  }

  function Delivered(chat: seq<Row>, presence: seq<Row>): seq<Item> {
    SortByTime(Tag(chat, true) + Tag(presence, false))
  }

  lemma TagsPart(chat: seq<Row>, presence: seq<Row>, which: bool)
    ensures Part(Tag(chat, true) + Tag(presence, false), which) == Tag(if which then chat else presence, which)
  {
    PartAppend(Tag(chat, true), Tag(presence, false), which);
    PartOfTag(chat, true, which);
    PartOfTag(presence, false, which);
  }

  lemma DeliveredPart(chat: seq<Row>, presence: seq<Row>, which: bool)
    ensures Part(Delivered(chat, presence), which) == SortByTime(Tag(if which then chat else presence, which))
  {
    SortPart(Tag(chat, true) + Tag(presence, false), which);
    TagsPart(chat, presence, which);
  }

  // ---------------------------------------------------------------------------
  // Polls
  // ---------------------------------------------------------------------------

  /**
   One poll and which of its statements succeed. A paused feed asks for the newest id of
   each table; a failed query is None. `delivered` is whether the hand-on succeeded.
   */
  datatype Poll =
    | Paused(chat: Option<Latest>, presence: Option<Latest>, chatSaved: bool)
    | Live(chatRead: bool, presenceRead: bool, delivered: bool, chatSaved: bool)

  /** `handed` is what was handed on, in order. */
  datatype World = World(chat: Lane, presence: Lane, handed: seq<Item>)

  function Polled(w: World, limit: nat, p: Poll): World {
    match p
    case Paused(chat, presence, chatSaved) =>
      if chat.None? || presence.None? then w else
      var jumped := w.(chat := Jump(w.chat, chat.value));
      if chat.value.id > w.chat.cursor && !chatSaved then jumped
      else jumped.(presence := Jump(w.presence, presence.value))
    case Live(chatRead, presenceRead, delivered, chatSaved) =>
      if !chatRead || !presenceRead || !delivered then w
      else HandedOn(w, Fetch(w.chat, limit), Fetch(w.presence, limit), chatSaved)
  }

  /** A failed save of the chat cursor returns before the presence cursor moves. */
  function HandedOn(w: World, chat: seq<Row>, presence: seq<Row>, chatSaved: bool): World {
    var lost := chat != [] && !chatSaved;
    World(Advance(w.chat, chat),
          if lost then w.presence else Advance(w.presence, presence),
          w.handed + Delivered(chat, presence))
  }

  class Bridge {
    var cursor: int
    var cursorAt: Option<int>
    var presenceCursor: int
    var presenceCursorAt: Option<int>
    var handed: seq<Item>
    ghost var windows: seq<Window>
    ghost var presenceWindows: seq<Window>

    ghost function View(chat: seq<Row>, presence: seq<Row>): World
      reads this
    {
      World(Lane(chat, cursor, cursorAt, windows), Lane(presence, presenceCursor, presenceCursorAt, presenceWindows),
            handed)
    }

    constructor (chat: Latest, presence: Latest)
      ensures cursor == chat.id && cursorAt == chat.at
      ensures presenceCursor == presence.id && presenceCursorAt == presence.at
      ensures handed == [] && windows == [] && presenceWindows == []
    {
      cursor, cursorAt := chat.id, chat.at;
      presenceCursor, presenceCursorAt := presence.id, presence.at;
      handed, windows, presenceWindows := [], [], [];
    }

    /** One poll over the two tables as they are at that moment; false is an error return. */
    method DeliverFeed(chat: seq<Row>, presence: seq<Row>, limit: nat, p: Poll) returns (ok: bool)
      modifies this
      ensures View(chat, presence) == Polled(old(View(chat, presence)), limit, p)
    {
      match p
      case Paused(chatLatest, presenceLatest, chatSaved) =>
        if chatLatest.None? || presenceLatest.None? {
          return false;
        }
        if chatLatest.value.id > cursor {
          windows := windows + [Window(cursor, chatLatest.value.id, None, false)];
          cursor, cursorAt := chatLatest.value.id, chatLatest.value.at;
          if !chatSaved {
            return false;
          }
        }
        if presenceLatest.value.id > presenceCursor {
          presenceWindows := presenceWindows + [Window(presenceCursor, presenceLatest.value.id, None, false)];
          presenceCursor, presenceCursorAt := presenceLatest.value.id, presenceLatest.value.at;
        }
        return true;
      case Live(chatRead, presenceRead, delivered, chatSaved) =>
        if !chatRead || !presenceRead {
          return false;
        }
        var chatRows := Fetch(Lane(chat, cursor, cursorAt, []), limit);
        var presenceRows := Fetch(Lane(presence, presenceCursor, presenceCursorAt, []), limit);
        if chatRows == [] && presenceRows == [] {
          return true;
        }
        if !delivered {
          return false;
        }
        handed := handed + Delivered(chatRows, presenceRows);
        if chatRows != [] {
          var last := chatRows[|chatRows| - 1];
          windows := windows + [Window(cursor, last.id, Floor(cursorAt), true)];
          cursor, cursorAt := last.id, Some(last.at);
          if !chatSaved {
            return false;
          }
        }
        if presenceRows != [] {
          var last := presenceRows[|presenceRows| - 1];
          presenceWindows := presenceWindows + [Window(presenceCursor, last.id, Floor(presenceCursorAt), true)];
          presenceCursor, presenceCursorAt := last.id, Some(last.at);
        }
        return true;
    }
  }

  // ---------------------------------------------------------------------------
  // Every run
  // ---------------------------------------------------------------------------

  datatype Action = NewChat(row: Row) | NewPresence(row: Row) | Tick(limit: nat, poll: Poll)

  /** Rows become visible in id order. */
  predicate Enabled(w: World, a: Action) {
    match a
    case NewChat(row) => Sorted(w.chat.rows + [row])
    case NewPresence(row) => Sorted(w.presence.rows + [row])
    case Tick(_, _) => true
  }

  function Apply(w: World, a: Action): World {
    match a
    case NewChat(row) => w.(chat := w.chat.(rows := w.chat.rows + [row]))
    case NewPresence(row) => w.(presence := w.presence.(rows := w.presence.rows + [row]))
    case Tick(limit, poll) => Polled(w, limit, poll)
  }

  function Started(chat: Latest, presence: Latest): World {
    World(Lane([], chat.id, chat.at, []), Lane([], presence.id, presence.at, []), [])
  }

  function Run(chat: Latest, presence: Latest, actions: seq<Action>): World {
    if actions == [] then Started(chat, presence)
    else Apply(Run(chat, presence, actions[..|actions| - 1]), actions[|actions| - 1])
  }

  predicate CanRun(chat: Latest, presence: Latest, actions: seq<Action>) {
    actions == [] ||
    var before := actions[..|actions| - 1];
    CanRun(chat, presence, before) && Enabled(Run(chat, presence, before), actions[|actions| - 1])
  }

  function DueItems(l: Lane, chat: bool): seq<Item> { Tag(Due(l.rows, l.windows), chat) }

  predicate Chronological(rows: seq<Row>) { forall i, j :: 0 <= i < j < |rows| ==> rows[i].at <= rows[j].at }

  ghost predicate ChatInv(w: World, start: int) {
    && LaneInv(w.chat, start)
    && multiset(Part(w.handed, true)) == multiset(DueItems(w.chat, true))
  }

  /** Every row the presence cursor moved over while open was handed on, some perhaps more than once. */
  ghost predicate PresenceInv(w: World, start: int) {
    && LaneInv(w.presence, start)
    && multiset(DueItems(w.presence, false)) <= multiset(Part(w.handed, false))
  }

  lemma TagConcat(a: seq<Row>, b: seq<Row>, chat: bool)
    ensures Tag(a + b, chat) == Tag(a, chat) + Tag(b, chat)
  {
  }

  lemma HandedPart(handed: seq<Item>, chat: seq<Row>, presence: seq<Row>, which: bool)
    ensures var part := Part(handed + Delivered(chat, presence), which);
            && part == Part(handed, which) + SortByTime(Tag(if which then chat else presence, which))
            && multiset(part) == multiset(Part(handed, which)) + multiset(Tag(if which then chat else presence, which))
  {
    PartAppend(handed, Delivered(chat, presence), which);
    DeliveredPart(chat, presence, which);
    SortIsPermutation(Tag(if which then chat else presence, which));
  }

  lemma ChatHandedOn(w: World, start: int, limit: nat, chatSaved: bool)
    requires ChatInv(w, start)
    ensures ChatInv(HandedOn(w, Fetch(w.chat, limit), Fetch(w.presence, limit), chatSaved), start)
  {
    var batch := Fetch(w.chat, limit);
    LaneAdvances(w.chat, start, limit);
    TagConcat(Due(w.chat.rows, w.chat.windows), batch, true);
    HandedPart(w.handed, batch, Fetch(w.presence, limit), true);
  }

  lemma PresenceHandedOn(w: World, start: int, limit: nat, chatSaved: bool)
    requires PresenceInv(w, start)
    ensures PresenceInv(HandedOn(w, Fetch(w.chat, limit), Fetch(w.presence, limit), chatSaved), start)
  {
    var batch := Fetch(w.presence, limit);
    LaneAdvances(w.presence, start, limit);
    TagConcat(Due(w.presence.rows, w.presence.windows), batch, false);
    HandedPart(w.handed, Fetch(w.chat, limit), batch, false);
  }

  lemma ChatJumps(w: World, w': World, latest: Latest, start: int)
    requires ChatInv(w, start) && w'.chat == Jump(w.chat, latest) && w'.handed == w.handed
    ensures ChatInv(w', start) && w'.chat.cursor >= w.chat.cursor
  {
    LaneJumps(w.chat, start, latest);
  }

  lemma PresenceJumps(w: World, w': World, latest: Latest, start: int)
    requires PresenceInv(w, start) && w'.presence == Jump(w.presence, latest) && w'.handed == w.handed
    ensures PresenceInv(w', start) && w'.presence.cursor >= w.presence.cursor
  {
    LaneJumps(w.presence, start, latest);
  }

  lemma ChatAlike(w: World, w': World, start: int)
    requires ChatInv(w, start) && w'.chat == w.chat && w'.handed == w.handed
    ensures ChatInv(w', start)
  {
  }

  lemma PresenceAlike(w: World, w': World, start: int)
    requires PresenceInv(w, start) && w'.presence == w.presence && w'.handed == w.handed
    ensures PresenceInv(w', start)
  {
  }

  lemma PausedKeepsChat(w: World, p: Poll, start: int)
    requires ChatInv(w, start) && p.Paused?
    ensures ChatInv(Polled(w, 0, p), start) && Polled(w, 0, p).chat.cursor >= w.chat.cursor
  {
    if p.chat.Some? && p.presence.Some? {
      ChatJumps(w, Polled(w, 0, p), p.chat.value, start);
    } else {
      ChatAlike(w, Polled(w, 0, p), start);
    }
  }

  lemma PausedKeepsPresence(w: World, p: Poll, start: int)
    requires PresenceInv(w, start) && p.Paused?
    ensures PresenceInv(Polled(w, 0, p), start) && Polled(w, 0, p).presence.cursor >= w.presence.cursor
  {
    var w' := Polled(w, 0, p);
    if w'.presence == w.presence {
      PresenceAlike(w, w', start);
    } else {
      PresenceJumps(w, w', p.presence.value, start);
    }
  }

  lemma PollKeeps(w: World, limit: nat, p: Poll, start: int, presenceStart: int)
    requires ChatInv(w, start) && PresenceInv(w, presenceStart)
    ensures var w' := Polled(w, limit, p);
            && ChatInv(w', start) && PresenceInv(w', presenceStart)
            && w'.chat.cursor >= w.chat.cursor && w'.presence.cursor >= w.presence.cursor
  {
    if p.Paused? {
      PausedKeepsChat(w, p, start);
      PausedKeepsPresence(w, p, presenceStart);
      assert Polled(w, limit, p) == Polled(w, 0, p);
    } else if p.chatRead && p.presenceRead && p.delivered {
      ChatHandedOn(w, start, limit, p.chatSaved);
      PresenceHandedOn(w, presenceStart, limit, p.chatSaved);
      LaneAdvances(w.chat, start, limit);
      LaneAdvances(w.presence, presenceStart, limit);
    }
  }

  lemma RowKeepsChat(w: World, row: Row, start: int)
    requires ChatInv(w, start) && Sorted(w.chat.rows + [row])
    ensures ChatInv(Apply(w, NewChat(row)), start)
  {
    RowAppears(w.chat, start, row);
  }

  /** Every step keeps both tables' bookkeeping and never moves a cursor back. */
  lemma StepKeeps(w: World, a: Action, start: int, presenceStart: int)
    requires ChatInv(w, start) && PresenceInv(w, presenceStart) && Enabled(w, a)
    ensures var w' := Apply(w, a);
            && ChatInv(w', start) && PresenceInv(w', presenceStart)
            && w'.chat.cursor >= w.chat.cursor && w'.presence.cursor >= w.presence.cursor
  {
    match a
    case NewChat(row) => RowKeepsChat(w, row, start);
    case NewPresence(row) => RowAppears(w.presence, presenceStart, row);
    case Tick(limit, poll) => PollKeeps(w, limit, poll, start, presenceStart);
  }

  lemma {:induction false} RunKeeps(chat: Latest, presence: Latest, actions: seq<Action>)
    requires CanRun(chat, presence, actions)
    ensures var w := Run(chat, presence, actions); ChatInv(w, chat.id) && PresenceInv(w, presence.id)
  {
    if actions != [] {
      var before := actions[..|actions| - 1];
      RunKeeps(chat, presence, before);
      StepKeeps(Run(chat, presence, before), actions[|actions| - 1], chat.id, presence.id);
    }
  }

  predicate NotAhead(w: World, w': World) {
    w.chat.cursor <= w'.chat.cursor && w.presence.cursor <= w'.presence.cursor
  }

  lemma LastStepRises(chat: Latest, presence: Latest, actions: seq<Action>)
    requires CanRun(chat, presence, actions) && actions != []
    ensures NotAhead(Run(chat, presence, actions[..|actions| - 1]), Run(chat, presence, actions))
  {
    var m := |actions| - 1;
    RunKeeps(chat, presence, actions[..m]);
    StepKeeps(Run(chat, presence, actions[..m]), actions[m], chat.id, presence.id);
  }

  /** Cursors never go back over a whole run. */
  lemma {:induction false} CursorsNeverDecrease(chat: Latest, presence: Latest, actions: seq<Action>, n: nat)
    requires CanRun(chat, presence, actions) && n <= |actions|
    ensures NotAhead(Run(chat, presence, actions[..n]), Run(chat, presence, actions))
    decreases |actions|
  {
    if n == |actions| {
      assert actions[..n] == actions;
    } else {
      var m := |actions| - 1;
      LastStepRises(chat, presence, actions);
      CursorsNeverDecrease(chat, presence, actions[..m], n);
      assert actions[..m][..n] == actions[..n];
    }
  }

  lemma {:induction false} SortedOnce(rows: seq<Row>, chat: bool, x: Item)
    requires Sorted(rows)
    ensures multiset(Tag(rows, chat))[x] <= 1
  {
    if rows != [] {
      var n := |rows| - 1;
      SortedOnce(rows[..n], chat, x);
      TagConcat(rows[..n], [rows[n]], chat);
      assert rows == rows[..n] + [rows[n]];
      if x == Item(chat, rows[n]) {
        assert x !in Tag(rows[..n], chat);
      }
    }
  }

  // ---------------------------------------------------------------------------
  // Which rows, how often, in which order
  // ---------------------------------------------------------------------------

  /** A live poll whose reads and whose hand-on succeed. */
  predicate HandsOn(a: Action) {
    a.Tick? && a.poll.Live? && a.poll.chatRead && a.poll.presenceRead && a.poll.delivered
  }

  /** The rows of one table that a call hands on. */
  function Page(w: World, a: Action, chat: bool): seq<Row> {
    if HandsOn(a) then Fetch(if chat then w.chat else w.presence, a.limit) else []
  }

  /** The save of the chat cursor fails after both pages were handed on: the presence cursor stays. */
  predicate LosesSave(w: World, a: Action) { HandsOn(a) && !a.poll.chatSaved && Page(w, a, true) != [] }

  /** A start and a run of actions from it. */
  datatype History = History(chat: Latest, presence: Latest, actions: seq<Action>)

  predicate Possible(h: History) { CanRun(h.chat, h.presence, h.actions) }

  function End(h: History): World { Run(h.chat, h.presence, h.actions) }

  function Before(h: History, n: nat): History
    requires n <= |h.actions|
  {
    h.(actions := h.actions[..n])
  }

  function PageAt(h: History, i: nat, chat: bool): seq<Row>
    requires i < |h.actions|
  {
    Page(End(Before(h, i)), h.actions[i], chat)
  }

  predicate LosesSaveAt(h: History, i: nat)
    requires i < |h.actions|
  {
    LosesSave(End(Before(h, i)), h.actions[i])
  }

  lemma HandsOnPages(w: World, a: Action, chat: bool)
    ensures Part(Apply(w, a).handed, chat) == Part(w.handed, chat) + SortByTime(Tag(Page(w, a, chat), chat))
    ensures multiset(Part(Apply(w, a).handed, chat))
         == multiset(Part(w.handed, chat)) + multiset(Tag(Page(w, a, chat), chat))
  {
    if HandsOn(a) {
      HandedPart(w.handed, Page(w, a, true), Page(w, a, false), chat);
    } else {
      assert Apply(w, a).handed == w.handed;
      assert Tag([], chat) == [] && SortByTime([]) == [];
    }
  }

  lemma {:induction false} AfterIsSorted(rows: seq<Row>, from: int, floor: Option<int>)
    requires Sorted(rows)
    ensures Sorted(After(rows, from, floor))
    ensures forall r :: r in After(rows, from, floor) ==> r in rows && r.id > from
  {
    if rows != [] {
      var n := |rows| - 1;
      AfterIsSorted(rows[..n], from, floor);
      assert forall r :: r in rows[..n] ==> r.id < rows[n].id && r in rows;
    }
  }

  lemma PageIsSorted(w: World, a: Action, r: Row)
    requires Sorted(w.presence.rows)
    ensures Sorted(Page(w, a, false))
    ensures r in Page(w, a, false) ==> r.id > w.presence.cursor
  {
    if HandsOn(a) {
      AfterIsSorted(w.presence.rows, w.presence.cursor, Floor(w.presence.at));
    }
  }

  lemma {:induction false} LastIsHighest(rows: seq<Row>, r: Row)
    requires Sorted(rows) && r in rows
    ensures r.id <= rows[|rows| - 1].id
  {
  }

  /** Unless the save fails, the cursor moves past the page. */
  lemma CursorPassesPage(w: World, a: Action, r: Row)
    requires Sorted(w.presence.rows) && r in Page(w, a, false) && !LosesSave(w, a)
    ensures r.id <= Apply(w, a).presence.cursor
  {
    PageIsSorted(w, a, r);
    LastIsHighest(Page(w, a, false), r);
  }

  lemma BeforeBefore(h: History, n: nat, i: nat)
    requires i <= n <= |h.actions|
    ensures Before(Before(h, n), i) == Before(h, i)
  {
    assert h.actions[..n][..i] == h.actions[..i];
  }

  lemma {:induction false} BeforeIsPossible(h: History, n: nat)
    requires Possible(h) && n <= |h.actions|
    ensures Possible(Before(h, n))
    decreases |h.actions|
  {
    var m := |h.actions| - 1;
    if n <= m {
      BeforeIsPossible(Before(h, m), n);
      BeforeBefore(h, m, n);
    } else {
      assert h.actions[..n] == h.actions;
    }
  }

  lemma SortedAt(h: History, n: nat)
    requires Possible(h) && n <= |h.actions|
    ensures Sorted(End(Before(h, n)).presence.rows)
  {
    BeforeIsPossible(h, n);
    RunKeeps(h.chat, h.presence, h.actions[..n]);
  }

  /** A page handed on with its cursor moved is never fetched again. */
  lemma OnlyLostPagesReturn(h: History, i: nat, j: nat, r: Row)
    requires Possible(h) && i < j < |h.actions| && r in PageAt(h, i, false) && r in PageAt(h, j, false)
    ensures LosesSaveAt(h, i)
  {
    if !LosesSaveAt(h, i) {
      SortedAt(h, i);
      CursorPassesPage(End(Before(h, i)), h.actions[i], r);
      assert h.actions[..i + 1][..i] == h.actions[..i];
      BeforeIsPossible(h, j);
      CursorsNeverDecrease(h.chat, h.presence, h.actions[..j], i + 1);
      BeforeBefore(h, j, i + 1);
      SortedAt(h, j);
      PageIsSorted(End(Before(h, j)), h.actions[j], r);
    }
  }

  ghost predicate FetchedBefore(h: History, n: nat, r: Row)
    requires n <= |h.actions|
  {
    exists i :: 0 <= i < n && r in PageAt(h, i, false)
  }

  lemma TagHas(rows: seq<Row>, chat: bool, r: Row)
    ensures Item(chat, r) in Tag(rows, chat) <==> r in rows
  {
    if r in rows {
      var i :| 0 <= i < |rows| && rows[i] == r;
      assert Tag(rows, chat)[i] == Item(chat, r);
    }
  }

  lemma FirstPages(h: History, n: nat, r: Row)
    requires n < |h.actions|
    ensures FetchedBefore(Before(h, n), n, r) <==> FetchedBefore(h, n, r)
  {
    forall i | 0 <= i < n ensures PageAt(Before(h, n), i, false) == PageAt(h, i, false) {
      BeforeBefore(h, n, i);
    }
  }

  lemma FetchedSplit(h: History, n: nat, r: Row)
    requires n < |h.actions|
    ensures FetchedBefore(h, n + 1, r) <==> FetchedBefore(Before(h, n), n, r) || r in PageAt(h, n, false)
  {
    FirstPages(h, n, r);
  }

  lemma EndStep(h: History)
    requires h.actions != []
    ensures End(h) == Apply(End(Before(h, |h.actions| - 1)), h.actions[|h.actions| - 1])
  {
  }

  lemma HandsOnHas(w: World, a: Action, r: Row)
    ensures Item(false, r) in Part(Apply(w, a).handed, false) <==>
            Item(false, r) in Part(w.handed, false) || r in Page(w, a, false)
  {
    HandsOnPages(w, a, false);
    TagHas(Page(w, a, false), false, r);
    var now := Part(Apply(w, a).handed, false);
    assert Item(false, r) in now <==> Item(false, r) in multiset(now);
    var tagged := Tag(Page(w, a, false), false);
    assert Item(false, r) in tagged <==> Item(false, r) in multiset(tagged);
  }

  /** The join/leave rows handed on are the rows of the pages. */
  lemma {:induction false} HandedFromPages(h: History, r: Row)
    ensures Item(false, r) in Part(End(h).handed, false) <==> FetchedBefore(h, |h.actions|, r)
    decreases |h.actions|
  {
    if h.actions != [] {
      var n := |h.actions| - 1;
      HandedFromPages(Before(h, n), r);
      FetchedSplit(h, n, r);
      HandsOnHas(End(Before(h, n)), h.actions[n], r);
      EndStep(h);
    }
  }

  /** Page `i` went out while the save failed, and a row of it is on page `j` again. */
  ghost predicate Returns(h: History, i: nat, j: nat, r: Row)
    requires j < |h.actions|
  {
    i < j && LosesSaveAt(h, i) && r in PageAt(h, i, false) && r in PageAt(h, j, false)
  }

  ghost predicate NothingReturns(h: History, n: nat)
    requires n <= |h.actions|
  {
    forall i: nat, j: nat, r :: i < j < n ==> !Returns(h, i, j, r)
  }

  ghost predicate AtMostOnce(items: seq<Item>) { forall x :: multiset(items)[x] <= 1 }

  lemma OnceSum(was: multiset<Item>, page: multiset<Item>)
    requires forall x :: page[x] <= 1
    ensures (forall x :: (was + page)[x] <= 1) <==> (forall x :: was[x] <= 1) && forall x :: x in page ==> x !in was
  {
    if forall x :: (was + page)[x] <= 1 {
      forall x ensures was[x] <= 1 && (x in page ==> x !in was) {
        assert (was + page)[x] == was[x] + page[x];
      }
    }
  }

  lemma PageItems(page: seq<Row>, was: seq<Item>)
    ensures (forall x :: x in multiset(Tag(page, false)) ==> x !in multiset(was))
            <==> forall r :: r in page ==> Item(false, r) !in was
  {
    if forall x :: x in multiset(Tag(page, false)) ==> x !in multiset(was) {
      forall r | r in page ensures Item(false, r) !in was {
        TagHas(page, false, r);
        assert Item(false, r) in multiset(Tag(page, false));
      }
    }
    if forall r :: r in page ==> Item(false, r) !in was {
      forall x | x in multiset(Tag(page, false)) ensures x !in multiset(was) {
        assert x in Tag(page, false) && x == Item(false, x.row);
        TagHas(page, false, x.row);
      }
    }
  }

  lemma NewPageOnce(w: World, a: Action)
    requires Sorted(w.presence.rows)
    ensures AtMostOnce(Part(Apply(w, a).handed, false)) <==>
            && AtMostOnce(Part(w.handed, false))
            && forall r :: r in Page(w, a, false) ==> Item(false, r) !in Part(w.handed, false)
  {
    var page := Page(w, a, false);
    HandsOnPages(w, a, false);
    PageIsSorted(w, a, Row(0, 0, false));
    forall x ensures multiset(Tag(page, false))[x] <= 1 {
      SortedOnce(page, false, x);
    }
    OnceSum(multiset(Part(w.handed, false)), multiset(Tag(page, false)));
    PageItems(page, Part(w.handed, false));
  }

  lemma EndSteps(h: History, n: nat)
    requires Possible(h) && |h.actions| == n + 1
    ensures Possible(Before(h, n)) && Enabled(End(Before(h, n)), h.actions[n])
    ensures End(h) == Apply(End(Before(h, n)), h.actions[n])
    ensures forall chat :: PageAt(h, n, chat) == Page(End(Before(h, n)), h.actions[n], chat)
  {
  }

  lemma StillNothing(h: History, n: nat)
    requires n < |h.actions|
    ensures NothingReturns(Before(h, n), n) <==> NothingReturns(h, n)
  {
    forall i: nat, j: nat, r | i < j < n ensures Returns(Before(h, n), i, j, r) <==> Returns(h, i, j, r) {
      BeforeBefore(h, n, i);
      BeforeBefore(h, n, j);
    }
  }

  /** Nothing on page `n` was fetched before. */
  ghost predicate FreshAt(h: History, n: nat)
    requires n < |h.actions|
  {
    forall r :: r in PageAt(h, n, false) ==> !FetchedBefore(h, n, r)
  }

  /** The last page repeats nothing exactly when nothing comes back on it. */
  lemma LastPageFresh(h: History, n: nat)
    requires Possible(h) && |h.actions| == n + 1
    ensures FreshAt(h, n) <==> forall i: nat, r :: i < n ==> !Returns(h, i, n, r)
  {
    forall i: nat, r | i < n && r in PageAt(h, i, false) && r in PageAt(h, n, false) ensures Returns(h, i, n, r) {
      OnlyLostPagesReturn(h, i, n, r);
    }
  }

  lemma NothingReturnsSplit(h: History, n: nat)
    requires Possible(h) && |h.actions| == n + 1
    ensures NothingReturns(h, n + 1) <==> NothingReturns(Before(h, n), n) && FreshAt(h, n)
  {
    StillNothing(h, n);
    LastPageFresh(h, n);
  }

  lemma OnceSplit(h: History, n: nat)
    requires Possible(h) && |h.actions| == n + 1
    ensures AtMostOnce(Part(End(h).handed, false))
            <==> AtMostOnce(Part(End(Before(h, n)).handed, false)) && FreshAt(h, n)
  {
    EndSteps(h, n);
    SortedAt(h, n);
    NewPageOnce(End(Before(h, n)), h.actions[n]);
    forall r ensures Item(false, r) in Part(End(Before(h, n)).handed, false) <==> FetchedBefore(h, n, r) {
      HandedFromPages(Before(h, n), r);
      FirstPages(h, n, r);
    }
  }

  lemma {:induction false} OnceIff(h: History)
    requires Possible(h)
    ensures AtMostOnce(Part(End(h).handed, false)) <==> NothingReturns(h, |h.actions|)
    decreases |h.actions|
  {
    if h.actions != [] {
      var n := |h.actions| - 1;
      EndSteps(h, n);
      OnceIff(Before(h, n));
      OnceSplit(h, n);
      NothingReturnsSplit(h, n);
    }
  }

  /**
   Over every run: each join/leave row the open feed moved over was handed on, and no row
   was handed on twice if and only if none of a page handed on while the save of the chat
   cursor failed was fetched again by a later poll.
   */
  lemma PresenceOnceIff(h: History)
    requires Possible(h)
    ensures var w := End(h);
            && multiset(DueItems(w.presence, false)) <= multiset(Part(w.handed, false))
            && (AtMostOnce(Part(w.handed, false)) <==> NothingReturns(h, |h.actions|))
  {
    RunKeeps(h.chat, h.presence, h.actions);
    OnceIff(h);
  }

  /** The presence lane of `w'` is that of `w` with, at most, rows appended. */
  predicate OnlyNewRows(w: World, w': World) {
    && w'.presence.cursor == w.presence.cursor && w'.presence.at == w.presence.at
    && w.presence.rows <= w'.presence.rows
  }

  lemma LastOfPage(w: World, a: Action)
    requires Sorted(w.presence.rows) && Page(w, a, false) != []
    ensures var page := Page(w, a, false); page[|page| - 1].id > w.presence.cursor
  {
    var page := Page(w, a, false);
    PageIsSorted(w, a, page[|page| - 1]);
  }

  /** A step that leaves the presence cursor where it was changes nothing but the rows. */
  lemma StepOnlyAdds(w: World, a: Action)
    requires Sorted(w.presence.rows) && Apply(w, a).presence.cursor == w.presence.cursor
    ensures OnlyNewRows(w, Apply(w, a))
  {
    if HandsOn(a) && Page(w, a, false) != [] {
      LastOfPage(w, a);
    }
  }

  lemma LaterIsNotAhead(h: History, i: nat, j: nat)
    requires Possible(h) && i <= j <= |h.actions|
    ensures NotAhead(End(Before(h, i)), End(Before(h, j)))
  {
    BeforeIsPossible(h, j);
    BeforeBefore(h, j, i);
    CursorsNeverDecrease(h.chat, h.presence, h.actions[..j], i);
  }

  lemma StepTo(h: History, n: nat)
    requires n < |h.actions|
    ensures End(Before(h, n + 1)) == Apply(End(Before(h, n)), h.actions[n])
  {
    assert h.actions[..n + 1][..n] == h.actions[..n];
  }

  predicate SameCursor(w: World, w': World) { w'.presence.cursor == w.presence.cursor }

  lemma StepStays(h: History, i: nat, n: nat)
    requires Possible(h) && i <= n < |h.actions| && SameCursor(End(Before(h, i)), End(Before(h, n + 1)))
    ensures SameCursor(End(Before(h, i)), End(Before(h, n)))
    ensures OnlyNewRows(End(Before(h, n)), End(Before(h, n + 1)))
  {
    LaterIsNotAhead(h, i, n);
    LaterIsNotAhead(h, n, n + 1);
    SortedAt(h, n);
    StepTo(h, n);
    StepOnlyAdds(End(Before(h, n)), h.actions[n]);
  }

  lemma OnlyNewRowsThen(a: World, b: World, c: World)
    requires OnlyNewRows(a, b) && OnlyNewRows(b, c)
    ensures OnlyNewRows(a, c)
  {
  }

  lemma {:induction false} CursorStayed(h: History, i: nat, j: nat)
    requires Possible(h) && i <= j <= |h.actions| && SameCursor(End(Before(h, i)), End(Before(h, j)))
    ensures OnlyNewRows(End(Before(h, i)), End(Before(h, j)))
    decreases j
  {
    if i < j {
      StepStays(h, i, j - 1);
      CursorStayed(h, i, j - 1);
      OnlyNewRowsThen(End(Before(h, i)), End(Before(h, j - 1)), End(Before(h, j)));
    }
  }

  /**
   Such a page does come back: as long as the presence cursor stays where it is, whatever else
   happens, a poll that hands on begins with the very same row.
   */
  lemma LostPageReturns(h: History, i: nat, j: nat)
    requires Possible(h) && i < j < |h.actions| && LosesSaveAt(h, i) && PageAt(h, i, false) != []
    requires SameCursor(End(Before(h, i)), End(Before(h, j)))
    requires HandsOn(h.actions[j]) && h.actions[j].limit >= 1
    ensures PageAt(h, j, false) != [] && PageAt(h, j, false)[0] == PageAt(h, i, false)[0]
    ensures !NothingReturns(h, |h.actions|)
  {
    CursorStayed(h, i, j);
    PagesBeginAlike(End(Before(h, i)), h.actions[i], End(Before(h, j)), h.actions[j]);
    assert Returns(h, i, j, PageAt(h, i, false)[0]);
  }

  lemma PagesBeginAlike(w: World, a: Action, w': World, a': Action)
    requires OnlyNewRows(w, w') && Page(w, a, false) != [] && HandsOn(a') && a'.limit >= 1
    ensures Page(w', a', false) != [] && Page(w', a', false)[0] == Page(w, a, false)[0]
  {
    var more := w'.presence.rows[|w.presence.rows|..];
    assert w'.presence.rows == w.presence.rows + more;
    AfterGrows(w.presence.rows, more, w.presence.cursor, Floor(w.presence.at));
  }

  lemma {:induction false} AfterGrows(rows: seq<Row>, more: seq<Row>, from: int, floor: Option<int>)
    ensures After(rows, from, floor) <= After(rows + more, from, floor)
    decreases |more|
  {
    if more == [] {
      assert rows + more == rows;
    } else {
      var n := |more| - 1;
      AfterGrows(rows, more[..n], from, floor);
      assert (rows + more)[..|rows| + n] == rows + more[..n];
    }
  }

  lemma SameLengthConcat<T>(a: seq<T>, b: seq<T>, c: seq<T>, d: seq<T>)
    requires |a| == |c|
    ensures a + b == c + d <==> a == c && b == d
  {
    if a + b == c + d {
      assert (a + b)[..|a|] == a && (c + d)[..|c|] == c;
      assert (a + b)[|a|..] == b && (c + d)[|c|..] == d;
    }
  }

  lemma SortedIff(rows: seq<Row>)
    ensures SortByTime(Tag(rows, true)) == Tag(rows, true) <==> Chronological(rows)
  {
    assert forall i :: 0 <= i < |rows| ==> Tag(rows, true)[i].row == rows[i];
    assert InTime(Tag(rows, true)) <==> Chronological(rows);
    SortIsPermutation(Tag(rows, true));
    if Chronological(rows) {
      SortedStays(Tag(rows, true));
    }
  }

  ghost predicate PagesInTime(h: History, n: nat)
    requires n <= |h.actions|
  {
    forall i :: 0 <= i < n ==> Chronological(PageAt(h, i, true))
  }

  lemma DueGrows(w: World, a: Action, start: int)
    requires LaneInv(w.chat, start) && Enabled(w, a)
    ensures DueItems(Apply(w, a).chat, true) == DueItems(w.chat, true) + Tag(Page(w, a, true), true)
  {
    match a
    case NewChat(row) => RowAppears(w.chat, start, row);
    case NewPresence(_) =>
    case Tick(limit, poll) =>
      if HandsOn(a) {
        LaneAdvances(w.chat, start, limit);
        TagConcat(Due(w.chat.rows, w.chat.windows), Fetch(w.chat, limit), true);
      } else if poll.Paused? && poll.chat.Some? {
        LaneJumps(w.chat, start, poll.chat.value);
      }
  }

  /** Handed on so far in the order read. */
  predicate InOrder(w: World) { Part(w.handed, true) == DueItems(w.chat, true) }

  lemma StepInOrder(w: World, a: Action, start: int)
    requires LaneInv(w.chat, start) && Enabled(w, a) && |Part(w.handed, true)| == |DueItems(w.chat, true)|
    ensures |Part(Apply(w, a).handed, true)| == |DueItems(Apply(w, a).chat, true)|
    ensures InOrder(Apply(w, a)) <==> InOrder(w) && Chronological(Page(w, a, true))
  {
    var page := Page(w, a, true);
    HandsOnPages(w, a, true);
    DueGrows(w, a, start);
    SortedIff(page);
    SortKeepsLength(Tag(page, true));
    SameLengthConcat(Part(w.handed, true), SortByTime(Tag(page, true)), DueItems(w.chat, true), Tag(page, true));
  }

  lemma PagesSplit(h: History, n: nat)
    requires n < |h.actions|
    ensures PagesInTime(h, n + 1) <==> PagesInTime(Before(h, n), n) && Chronological(PageAt(h, n, true))
  {
    forall i | 0 <= i < n ensures PageAt(Before(h, n), i, true) == PageAt(h, i, true) {
      BeforeBefore(h, n, i);
    }
  }

  lemma ChatLaneHolds(h: History)
    requires Possible(h)
    ensures LaneInv(End(h).chat, h.chat.id)
  {
    RunKeeps(h.chat, h.presence, h.actions);
  }

  /** Chat rows go out in id order exactly when each page is already in time order. */
  lemma {:induction false} InOrderIff(h: History)
    requires Possible(h)
    ensures |Part(End(h).handed, true)| == |DueItems(End(h).chat, true)|
    ensures InOrder(End(h)) <==> PagesInTime(h, |h.actions|)
    decreases |h.actions|
  {
    if h.actions != [] {
      var n := |h.actions| - 1;
      EndSteps(h, n);
      InOrderIff(Before(h, n));
      ChatLaneHolds(Before(h, n));
      StepInOrder(End(Before(h, n)), h.actions[n], h.chat.id);
      PagesSplit(h, n);
    }
  }

  lemma SortKeepsLength(items: seq<Item>)
    ensures |SortByTime(items)| == |items|
  {
    SortIsPermutation(items);
    assert |multiset(SortByTime(items))| == |multiset(items)|;
  }

  /**
   Over every run, whatever fails: the chat rows handed on are exactly the rows the open
   feed read past, none twice. They go out in id order if and only if each page's times
   follow its ids, and they are all the wanted rows up to the cursor if and only if the
   cursor passed none over, paused or an hour late.
   */
  lemma ChatExactlyOnce(h: History)
    requires Possible(h)
    ensures var w := End(h);
            && multiset(Part(w.handed, true)) == multiset(DueItems(w.chat, true))
            && AtMostOnce(Part(w.handed, true))
            && (InOrder(w) <==> PagesInTime(h, |h.actions|))
            && (Due(w.chat.rows, w.chat.windows) == Between(w.chat.rows, h.chat.id, w.chat.cursor)
                <==> NothingPassedOver(w.chat))
  {
    RunKeeps(h.chat, h.presence, h.actions);
    InOrderIff(h);
    DueIsAllIff(End(h).chat, h.chat.id);
    ChatOnce(End(h), h.chat.id);
  }

  lemma ChatOnce(w: World, start: int)
    requires ChatInv(w, start)
    ensures AtMostOnce(Part(w.handed, true))
  {
    var n := |w.chat.windows|;
    DueRises(w.chat, start, n);
    assert w.chat.windows[..n] == w.chat.windows;
    forall x ensures multiset(Part(w.handed, true))[x] <= 1 {
      SortedOnce(Due(w.chat.rows, w.chat.windows), true, x);
    }
  }

  // ---------------------------------------------------------------------------
  // What one poll reads and where it leaves the cursors
  // ---------------------------------------------------------------------------

  function LaneOf(w: World, chat: bool): Lane { if chat then w.chat else w.presence }

  /** A row of the wanted kinds past the cursor, and no more than an hour older than the cursor's own. */
  predicate Waiting(l: Lane, r: Row) {
    r in l.rows && r.id > l.cursor && r.wanted && (l.at.Some? ==> r.at >= l.at.value - 3600000)
  }

  /** A poll that hands on reads the waiting rows of either table, lowest ids first, as many as the limit allows. */
  lemma PageIsWaiting(w: World, a: Action, chat: bool, r: Row)
    requires Sorted(LaneOf(w, chat).rows) && HandsOn(a)
    ensures var page := Page(w, a, chat);
            && Sorted(page) && |page| <= a.limit
            && (r in page ==> Waiting(LaneOf(w, chat), r))
            && (Waiting(LaneOf(w, chat), r) ==>
                  r in page || (|page| == a.limit && forall q :: q in page ==> q.id < r.id))
  {
    var l := LaneOf(w, chat);
    var after := After(l.rows, l.cursor, Floor(l.at));
    AfterIsSorted(l.rows, l.cursor, Floor(l.at));
    AfterMeans(l.rows, l.cursor, Floor(l.at), r);
    var page := Page(w, a, chat);
    assert page == after[..|page|];
    if r in after && r !in page {
      var k :| 0 <= k < |after| && after[k] == r;
      assert k >= |page|;
    }
  }

  /** Where a page leaves a cursor: on its last row, or where it was if the page is empty. */
  predicate MovedBy(l: Lane, l': Lane, page: seq<Row>) {
    && l'.rows == l.rows
    && l'.cursor == (if page == [] then l.cursor else page[|page| - 1].id)
    && l'.at == if page == [] then l.at else Some(page[|page| - 1].at)
  }

  predicate Unmoved(l: Lane, l': Lane) { l'.rows == l.rows && l'.cursor == l.cursor && l'.at == l.at }

  /**
   An open feed's poll: a failed read or hand-on changes nothing. Otherwise both pages go out
   merged and each cursor follows its page, but a failed save of a moved chat cursor leaves
   the presence cursor behind.
   */
  lemma LivePollMoves(w: World, limit: nat, chatRead: bool, presenceRead: bool, delivered: bool, chatSaved: bool)
    ensures var a := Tick(limit, Live(chatRead, presenceRead, delivered, chatSaved));
            var w', page, presencePage := Apply(w, a), Page(w, a, true), Page(w, a, false);
            if !chatRead || !presenceRead || !delivered then w' == w
            else
              && w'.handed == w.handed + SortByTime(Tag(page, true) + Tag(presencePage, false))
              && MovedBy(w.chat, w'.chat, page)
              && (if page != [] && !chatSaved then Unmoved(w.presence, w'.presence)
                  else MovedBy(w.presence, w'.presence, presencePage))
  {
  }

  /** Where the newest id found leaves a cursor: never back. */
  predicate RaisedTo(l: Lane, l': Lane, found: Latest) {
    && l'.rows == l.rows
    && l'.cursor == Max(l.cursor, found.id)
    && l'.at == if found.id > l.cursor then found.at else l.at
  }

  /**
   A paused feed's poll hands on nothing. If both queries succeed it raises the chat cursor to
   the newest id found, and the presence cursor likewise unless saving a raised chat cursor
   fails; if one fails it changes nothing.
   */
  lemma PausedPollMoves(w: World, limit: nat, chat: Option<Latest>, presence: Option<Latest>, chatSaved: bool)
    ensures var w' := Apply(w, Tick(limit, Paused(chat, presence, chatSaved)));
            if chat.None? || presence.None? then w' == w
            else
              && w'.handed == w.handed && RaisedTo(w.chat, w'.chat, chat.value)
              && (if chat.value.id > w.chat.cursor && !chatSaved then Unmoved(w.presence, w'.presence)
                  else RaisedTo(w.presence, w'.presence, presence.value))
  {
  }

  lemma LanesSorted(h: History, n: nat, chat: bool)
    requires Possible(h) && n <= |h.actions|
    ensures Sorted(LaneOf(End(Before(h, n)), chat).rows)
  {
    BeforeIsPossible(h, n);
    RunKeeps(h.chat, h.presence, h.actions[..n]);
  }

  /** What a paused poll that finds the newest ids and saves the chat cursor skips, for each table. */
  predicate SkipsTo(a: Action, chat: bool, id: int) {
    && a.Tick? && a.poll.Paused? && a.poll.chat.Some? && a.poll.presence.Some? && a.poll.chatSaved
    && id == if chat then a.poll.chat.value.id else a.poll.presence.value.id
  }

  /** Over every run: what was written while the feed was paused is never handed on after it is opened again. */
  lemma PausedRowsStayUnposted(h: History, i: nat, j: nat, chat: bool, id: int, r: Row)
    requires Possible(h) && i < j < |h.actions| && SkipsTo(h.actions[i], chat, id) && r in PageAt(h, j, chat)
    ensures LaneOf(End(Before(h, i + 1)), chat).cursor == Max(LaneOf(End(Before(h, i)), chat).cursor, id)
    ensures r.id > id
  {
    StepTo(h, i);
    var a := h.actions[i];
    PausedPollMoves(End(Before(h, i)), a.limit, a.poll.chat, a.poll.presence, a.poll.chatSaved);
    LaterIsNotAhead(h, i + 1, j);
    LanesSorted(h, j, chat);
    PageIsWaiting(End(Before(h, j)), h.actions[j], chat, r);
  }
}
