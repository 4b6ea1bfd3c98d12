/**
 The bridge's presence filter: a second join or leave of the same player within the
 window is dropped, whichever source it came from.
 */
module PresenceDedup {
  import opened Basics

  const PRESENCE_DEDUP := 20000

  datatype Row = Row(id: int, kind: string, subject: Option<string>, sender: Option<string>, host: Option<string>)

  // ---------------------------------------------------------------------------
  // The key
  // ---------------------------------------------------------------------------

  predicate IsSpace(c: char) { c == ' ' || '\t' <= c <= '\r' }

  function TrimStart(s: string): string {
    if s != "" && IsSpace(s[0]) then TrimStart(s[1..]) else s
  }

  function TrimEnd(s: string): string {
    if s != "" && IsSpace(s[|s| - 1]) then TrimEnd(s[..|s| - 1]) else s
  }

  function Trim(s: string): string { TrimEnd(TrimStart(s)) }

  function LowerChar(c: char): char { if 'A' <= c <= 'Z' then (c as int + 32) as char else c }

  function Lower(s: string): string { seq(|s|, i requires 0 <= i < |s| => LowerChar(s[i])) }

  /** Only joins and leaves are deduplicated. */
  function PresenceKind(kind: string): Option<string> {
    var code := Lower(Trim(kind));
    if code == "" then None
    else if code[0] == 'j' then Some("join")
    else if code[0] == 'l' then Some("leave")
    else None
  }

  function PlayerName(row: Row): string {
    var name := if row.subject.Some? then row.subject else row.sender;
    if name.Some? then Lower(Trim(name.value)) else ""
  }

  function HostName(row: Row): string { if row.host.Some? then row.host.value else "" }

  function DupKey(row: Row): Option<string> {
    var kind := PresenceKind(row.kind);
    if kind.None? || PlayerName(row) == "" then None
    else Some(kind.value + ":" + HostName(row) + ":" + PlayerName(row))
  }

  predicate ColonFree(s: string) { forall i :: 0 <= i < |s| ==> s[i] != ':' }

  lemma NoColonLater(p: string, n: string, p': string, n': string)
    requires p + ":" + n == p' + ":" + n' && ColonFree(n)
    ensures |p'| <= |p|
  {
    var s := p + ":" + n;
    forall i | |p| < i < |s| ensures s[i] != ':' {
      assert s[i] == n[i - |p| - 1];
    }
    assert (p' + ":" + n')[|p'|] == ':';
  }

  lemma LastColon(p: string, n: string, p': string, n': string)
    requires p + ":" + n == p' + ":" + n' && ColonFree(n) && ColonFree(n')
    ensures p == p' && n == n'
  {
    var s, s' := p + ":" + n, p' + ":" + n';
    assert s[..|p|] == p && s'[..|p'|] == p';
    assert s[|p| + 1..] == n && s'[|p'| + 1..] == n';
    NoColonLater(p, n, p', n');
    NoColonLater(p', n', p, n);
  }

  lemma SameKind(k: string, k': string, h: string, h': string)
    requires k in {"join", "leave"} && k' in {"join", "leave"}
    requires k + ":" + h == k' + ":" + h'
    ensures k == k' && h == h'
  {
    var s, s' := k + ":" + h, k' + ":" + h';
    assert s[0] == k[0] && s'[0] == k'[0];
    assert s[|k| + 1..] == h && s'[|k'| + 1..] == h';
  }

  /** Without colons in player names, a key tells kind, host and player apart. */
  lemma KeyTellsPlayersApart(a: Row, b: Row)
    requires DupKey(a).Some? && DupKey(b).Some? && ColonFree(PlayerName(a)) && ColonFree(PlayerName(b))
    ensures DupKey(a) == DupKey(b) <==>
            && PresenceKind(a.kind) == PresenceKind(b.kind)
            && HostName(a) == HostName(b) && PlayerName(a) == PlayerName(b)
  {
    var ka, kb := PresenceKind(a.kind).value, PresenceKind(b.kind).value;
    if DupKey(a) == DupKey(b) {
      LastColon(ka + ":" + HostName(a), PlayerName(a), kb + ":" + HostName(b), PlayerName(b));
      SameKind(ka, kb, HostName(a), HostName(b));
    }
  }

  /** The first character that is no white space, if there is one. */
  function FirstInk(s: string): Option<char> {
    if s == "" then None else if IsSpace(s[0]) then FirstInk(s[1..]) else Some(s[0])
  }

  lemma {:induction false} TrimStartInk(s: string)
    ensures FirstInk(TrimStart(s)) == FirstInk(s)
    ensures if FirstInk(s).None? then TrimStart(s) == ""
            else TrimStart(s) != "" && TrimStart(s)[0] == FirstInk(s).value && !IsSpace(FirstInk(s).value)
  {
    if s != "" && IsSpace(s[0]) {
      TrimStartInk(s[1..]);
    }
  }

  lemma {:induction false} TrimEndKeepsFirst(s: string)
    requires s != "" && !IsSpace(s[0])
    ensures TrimEnd(s) != "" && TrimEnd(s)[0] == s[0]
  {
    if IsSpace(s[|s| - 1]) {
      TrimEndKeepsFirst(s[..|s| - 1]);
    }
  }

  lemma TrimInk(s: string)
    ensures if FirstInk(s).None? then Trim(s) == "" else Trim(s) != "" && Trim(s)[0] == FirstInk(s).value
  {
    TrimStartInk(s);
    if FirstInk(s).Some? {
      TrimEndKeepsFirst(TrimStart(s));
    }
  }

  /** A kind is told by its first letter, in either case. */
  lemma KindIsFirstLetter(kind: string)
    ensures PresenceKind(kind) == match FirstInk(kind)
              case None => None
              case Some(c) => if c in ['j', 'J'] then Some("join") else if c in ['l', 'L'] then Some("leave") else None
  {
    TrimInk(kind);
  }

  function NameOf(row: Row): string {
    if row.subject.Some? then row.subject.value else if row.sender.Some? then row.sender.value else ""
  }

  /** One letter in either case, or the same character. */
  predicate SameLetter(c: char, d: char) {
    || c == d
    || ('A' <= c <= 'Z' && d as int == c as int + 32)
    || ('A' <= d <= 'Z' && c as int == d as int + 32)
  }

  predicate SameWord(a: string, b: string) { |a| == |b| && forall i :: 0 <= i < |a| ==> SameLetter(a[i], b[i]) }

  /** `core` is `s` without the white space around it. */
  predicate Trims(s: string, pre: string, core: string, post: string) {
    && s == pre + core + post
    && (forall i :: 0 <= i < |pre| ==> IsSpace(pre[i])) && (forall i :: 0 <= i < |post| ==> IsSpace(post[i]))
    && (core != "" ==> !IsSpace(core[0]) && !IsSpace(core[|core| - 1]))
  }

  lemma {:induction false} TrimStartCuts(s: string) returns (pre: string)
    ensures s == pre + TrimStart(s) && forall i :: 0 <= i < |pre| ==> IsSpace(pre[i])
    ensures TrimStart(s) != "" ==> !IsSpace(TrimStart(s)[0])
  {
    if s != "" && IsSpace(s[0]) {
      var rest := TrimStartCuts(s[1..]);
      pre := [s[0]] + rest;
    } else {
      pre := "";
    }
  }

  lemma {:induction false} TrimEndCuts(s: string) returns (post: string)
    ensures s == TrimEnd(s) + post && forall i :: 0 <= i < |post| ==> IsSpace(post[i])
    ensures TrimEnd(s) != "" ==> !IsSpace(TrimEnd(s)[|TrimEnd(s)| - 1]) && TrimEnd(s)[0] == s[0]
  {
    if s != "" && IsSpace(s[|s| - 1]) {
      var rest := TrimEndCuts(s[..|s| - 1]);
      post := rest + [s[|s| - 1]];
      assert s == s[..|s| - 1] + [s[|s| - 1]];
    } else {
      post := "";
    }
  }

  lemma TrimIsCore(s: string) returns (pre: string, post: string)
    ensures Trims(s, pre, Trim(s), post)
  {
    pre := TrimStartCuts(s);
    post := TrimEndCuts(TrimStart(s));
  }

  /** Rows name the same player if their names agree in all but letter case and white space around them. */
  lemma SamePlayerIff(a: Row, b: Row)
    ensures PlayerName(a) == PlayerName(b) <==> SameWord(Trim(NameOf(a)), Trim(NameOf(b)))
    ensures exists pre, post :: Trims(NameOf(a), pre, Trim(NameOf(a)), post)
  {
    var pre, post := TrimIsCore(NameOf(a));
    NamesLower(a);
    NamesLower(b);
    LowerIff(Trim(NameOf(a)), Trim(NameOf(b)));
  }

  lemma NamesLower(row: Row)
    ensures PlayerName(row) == Lower(Trim(NameOf(row)))
  {
    assert Trim("") == "" && Lower("") == "";
  }

  lemma LowerIff(a: string, b: string)
    ensures Lower(a) == Lower(b) <==> SameWord(a, b)
  {
    if Lower(a) == Lower(b) {
      assert |a| == |Lower(a)| == |Lower(b)| == |b|;
      forall i | 0 <= i < |a| ensures SameLetter(a[i], b[i]) {
        assert Lower(a)[i] == Lower(b)[i];
      }
    }
  }

  /** Only joins and leaves that name a player have a key. */
  lemma KeyIff(row: Row)
    ensures DupKey(row).Some? <==>
            && FirstInk(row.kind).Some? && FirstInk(row.kind).value in ['j', 'J', 'l', 'L']
            && FirstInk(NameOf(row)).Some?
  {
    KindIsFirstLetter(row.kind);
    NamesLower(row);
    TrimInk(NameOf(row));
  }

  // ---------------------------------------------------------------------------
  // What should be kept
  // ---------------------------------------------------------------------------

  datatype Arrival = Arrival(row: Row, at: int)

  /** `j` is an earlier row with the key of `i`, no more than a window before it. */
  predicate Near(arrivals: seq<Arrival>, j: nat, i: nat)
    requires i < |arrivals|
  {
    && j < i && DupKey(arrivals[j].row) == DupKey(arrivals[i].row)
    && arrivals[i].at - arrivals[j].at <= PRESENCE_DEDUP
  }

  /** Kept unless a kept row with the same key is near; the whole past counts. */
  predicate Kept(arrivals: seq<Arrival>, i: nat)
    requires i < |arrivals|
    decreases i
  {
    DupKey(arrivals[i].row).None? || forall j: nat | j < i :: Near(arrivals, j, i) ==> !Kept(arrivals, j)
  }

  predicate NotLater(a: Arrival, b: Arrival) { a.at <= b.at }

  predicate Timed(arrivals: seq<Arrival>) {
    forall i, j {:trigger NotLater(arrivals[i], arrivals[j])} ::
      0 <= i <= j < |arrivals| ==> NotLater(arrivals[i], arrivals[j])
  }

  /** Kept rows of one player, kind and host are more than a window apart. */
  lemma KeptAreApart(arrivals: seq<Arrival>, i: nat, j: nat)
    requires i < j < |arrivals| && Kept(arrivals, i) && Kept(arrivals, j)
    requires DupKey(arrivals[i].row).Some? && DupKey(arrivals[i].row) == DupKey(arrivals[j].row)
    ensures arrivals[j].at - arrivals[i].at > PRESENCE_DEDUP
  {
    assert !Near(arrivals, i, j);
  }

  // ---------------------------------------------------------------------------
  // What the pruned map keeps
  // ---------------------------------------------------------------------------

  function Pruned(recent: map<string, int>, now: int): map<string, int> {
    map k | k in recent && now - recent[k] <= PRESENCE_DEDUP :: recent[k]
  }

  predicate Passes(recent: map<string, int>, a: Arrival) {
    DupKey(a.row).None? || DupKey(a.row).value !in Pruned(recent, a.at)
  }

  function Noted(recent: map<string, int>, a: Arrival): map<string, int> {
    if DupKey(a.row).None? then recent
    else if Passes(recent, a) then Pruned(recent, a.at)[DupKey(a.row).value := a.at]
    else Pruned(recent, a.at)
  }

  /** The map after the first `n` arrivals. */
  function RecentAfter(arrivals: seq<Arrival>, n: nat): map<string, int>
    requires n <= |arrivals|
  {
    if n == 0 then map[] else Noted(RecentAfter(arrivals, n - 1), arrivals[n - 1])
  }

  /**
   `recent` as of the first `n` arrivals: every entry is a kept row, and every kept row is
   an entry unless it is old.
   */
  ghost predicate Remembers(arrivals: seq<Arrival>, n: nat, recent: map<string, int>)
    requires n <= |arrivals|
  {
    && (forall k :: k in recent ==> IsKeptAt(arrivals, n, k, recent[k]))
    && forall j :: 0 <= j < n && DupKey(arrivals[j].row).Some? && Kept(arrivals, j) ==>
         Remembered(arrivals, n, recent, j)
  }

  ghost predicate IsKeptAt(arrivals: seq<Arrival>, n: nat, k: string, at: int)
    requires n <= |arrivals|
  {
    exists j: nat :: j < n && DupKey(arrivals[j].row) == Some(k) && Kept(arrivals, j) && arrivals[j].at == at
  }

  predicate Remembered(arrivals: seq<Arrival>, n: nat, recent: map<string, int>, j: nat)
    requires j < n <= |arrivals| && DupKey(arrivals[j].row).Some?
  {
    var k := DupKey(arrivals[j].row).value;
    (k in recent && arrivals[j].at <= recent[k]) || arrivals[n - 1].at - arrivals[j].at > PRESENCE_DEDUP
  }

  lemma ForgottenIsFar(arrivals: seq<Arrival>, n: nat, recent: map<string, int>, j: nat)
    requires j < n < |arrivals| && Timed(arrivals) && DupKey(arrivals[j].row).Some?
    requires Remembered(arrivals, n, recent, j) && Passes(recent, arrivals[n])
    ensures !Near(arrivals, j, n)
  {
    assert NotLater(arrivals[n - 1], arrivals[n]);
  }

  lemma PassesIffKept(arrivals: seq<Arrival>, n: nat, recent: map<string, int>)
    requires n < |arrivals| && Timed(arrivals) && Remembers(arrivals, n, recent)
    ensures Passes(recent, arrivals[n]) <==> Kept(arrivals, n)
  {
    var key := DupKey(arrivals[n].row);
    if key.Some? {
      if !Passes(recent, arrivals[n]) {
        assert IsKeptAt(arrivals, n, key.value, recent[key.value]);
        var j: nat :| j < n && DupKey(arrivals[j].row) == key && Kept(arrivals, j)
                      && arrivals[j].at == recent[key.value];
        assert Near(arrivals, j, n);
      } else {
        forall j: nat | j < n && DupKey(arrivals[j].row) == key && Kept(arrivals, j) ensures !Near(arrivals, j, n) {
          ForgottenIsFar(arrivals, n, recent, j);
        }
      }
    }
  }

  lemma StillKept(arrivals: seq<Arrival>, n: nat, k: string, at: int)
    requires n < |arrivals| && IsKeptAt(arrivals, n, k, at)
    ensures IsKeptAt(arrivals, n + 1, k, at)
  {
    var j: nat :| j < n && DupKey(arrivals[j].row) == Some(k) && Kept(arrivals, j) && arrivals[j].at == at;
    assert j < n + 1;
  }

  lemma StillRemembered(arrivals: seq<Arrival>, n: nat, recent: map<string, int>, j: nat)
    requires j < n < |arrivals| && Timed(arrivals) && DupKey(arrivals[j].row).Some?
    requires Remembered(arrivals, n, recent, j)
    ensures Remembered(arrivals, n + 1, Noted(recent, arrivals[n]), j)
  {
    assert NotLater(arrivals[n - 1], arrivals[n]) && NotLater(arrivals[j], arrivals[n]);
  }

  lemma EntryIsKept(arrivals: seq<Arrival>, n: nat, recent: map<string, int>, k: string)
    requires n < |arrivals| && Timed(arrivals) && Remembers(arrivals, n, recent) && k in Noted(recent, arrivals[n])
    ensures IsKeptAt(arrivals, n + 1, k, Noted(recent, arrivals[n])[k])
  {
    var after := Noted(recent, arrivals[n]);
    if k in recent && after[k] == recent[k] {
      StillKept(arrivals, n, k, recent[k]);
    } else {
      PassesIffKept(arrivals, n, recent);
      assert n < n + 1 && DupKey(arrivals[n].row) == Some(k) && Kept(arrivals, n) && arrivals[n].at == after[k];
    }
  }

  lemma KeptIsRemembered(arrivals: seq<Arrival>, n: nat, recent: map<string, int>, j: nat)
    requires j <= n < |arrivals| && Timed(arrivals) && Remembers(arrivals, n, recent)
    requires DupKey(arrivals[j].row).Some? && Kept(arrivals, j)
    ensures Remembered(arrivals, n + 1, Noted(recent, arrivals[n]), j)
  {
    if j < n {
      StillRemembered(arrivals, n, recent, j);
    } else {
      PassesIffKept(arrivals, n, recent);
    }
  }

  lemma NotedRemembers(arrivals: seq<Arrival>, n: nat, recent: map<string, int>)
    requires n < |arrivals| && Timed(arrivals) && Remembers(arrivals, n, recent)
    ensures Remembers(arrivals, n + 1, Noted(recent, arrivals[n]))
  {
    var after := Noted(recent, arrivals[n]);
    forall k | k in after ensures IsKeptAt(arrivals, n + 1, k, after[k]) {
      EntryIsKept(arrivals, n, recent, k);
    }
    forall j | 0 <= j < n + 1 && DupKey(arrivals[j].row).Some? && Kept(arrivals, j)
      ensures Remembered(arrivals, n + 1, after, j)
    {
      KeptIsRemembered(arrivals, n, recent, j);
    }
  }

  lemma NothingToRemember(arrivals: seq<Arrival>)
    ensures Remembers(arrivals, 0, map[])
  {
  }

  lemma {:induction false} RunRemembers(arrivals: seq<Arrival>, n: nat)
    requires n <= |arrivals| && Timed(arrivals)
    ensures Remembers(arrivals, n, RecentAfter(arrivals, n))
  {
    if n == 0 {
      NothingToRemember(arrivals);
    } else {
      var before := RecentAfter(arrivals, n - 1);
      RunRemembers(arrivals, n - 1);
      NotedRemembers(arrivals, n - 1, before);
      assert RecentAfter(arrivals, n) == Noted(before, arrivals[n - 1]);
    }
  }

  /** Pruning never changes an answer: a row passes exactly when the unpruned rule keeps it. */
  lemma PruningIsInvisible(arrivals: seq<Arrival>, n: nat)
    requires n < |arrivals| && Timed(arrivals)
    ensures Passes(RecentAfter(arrivals, n), arrivals[n]) <==> Kept(arrivals, n)
  {
    RunRemembers(arrivals, n);
    PassesIffKept(arrivals, n, RecentAfter(arrivals, n));
  }

  function KeptRows(arrivals: seq<Arrival>, n: nat): seq<Row>
    requires n <= |arrivals|
  {
    if n == 0 then [] else
    KeptRows(arrivals, n - 1) + if Kept(arrivals, n - 1) then [arrivals[n - 1].row] else []
  }

  class Recent {
    var recent: map<string, int>

    constructor ()
      ensures recent == map[]
    {
      recent := map[];
    }

    method Unique(row: Row, now: int) returns (kept: bool)
      modifies this
      ensures kept == Passes(old(recent), Arrival(row, now))
      ensures recent == Noted(old(recent), Arrival(row, now))
    {
      var key := DupKey(row);
      if key.None? {
        return true;
      }
      recent := map k | k in recent && now - recent[k] <= PRESENCE_DEDUP :: recent[k];
      if key.value in recent {
        return false;
      }
      recent := recent[key.value := now];
      return true;
    }

    /** The next row of the stream `all`, collected if it is kept. */
    method Collect(ghost all: seq<Arrival>, ghost seen: nat, ghost m: nat, a: Arrival, rows: seq<Row>)
      returns (collected: seq<Row>)
      requires seen <= m < |all| && Timed(all) && a == all[m] && Through(all, seen, m, recent, rows)
      modifies this
      ensures Through(all, seen, m + 1, recent, collected)
    {
      StepThrough(all, seen, m, recent, rows);
      var kept := Unique(a.row, a.at);
      collected := if kept then rows + [a.row] else rows;
    }

    /**
     The batch of rows from `seen` on: exactly the rows the unpruned rule keeps, in order.
     Every row is read at its own time.
     */
    method DropDuplicates(all: seq<Arrival>, seen: nat) returns (rows: seq<Row>)
      requires seen <= |all| && Timed(all) && recent == RecentAfter(all, seen)
      modifies this
      ensures KeptRows(all, |all|) == KeptRows(all, seen) + rows
      ensures recent == RecentAfter(all, |all|)
    {
      rows := [];
      ThroughStart(all, seen, recent);
      var m := seen;
      while m < |all|
        invariant m <= |all| && Through(all, seen, m, recent, rows)
      {
        rows := Collect(all, seen, m, all[m], rows);
        m := m + 1;
      }
    }
  }

  /** From `seen` rows on to `m`: the map is up to date and `rows` are the ones kept. */
  predicate Through(all: seq<Arrival>, seen: nat, m: nat, recent: map<string, int>, rows: seq<Row>)
    requires seen <= m <= |all|
  {
    recent == RecentAfter(all, m) && KeptRows(all, m) == KeptRows(all, seen) + rows
  }

  lemma ThroughStart(all: seq<Arrival>, seen: nat, recent: map<string, int>)
    requires seen <= |all| && recent == RecentAfter(all, seen)
    ensures Through(all, seen, seen, recent, [])
  {
    assert KeptRows(all, seen) + [] == KeptRows(all, seen);
  }

  lemma StepRows(all: seq<Arrival>, m: nat)
    requires m < |all| && Timed(all)
    ensures KeptRows(all, m + 1) == KeptRows(all, m) + if Passes(RecentAfter(all, m), all[m]) then [all[m].row] else []
  {
    PruningIsInvisible(all, m);
  }

  lemma StepThrough(all: seq<Arrival>, seen: nat, m: nat, recent: map<string, int>, rows: seq<Row>)
    requires seen <= m < |all| && Timed(all) && Through(all, seen, m, recent, rows)
    ensures Through(all, seen, m + 1, Noted(recent, all[m]),
                    if Passes(recent, all[m]) then rows + [all[m].row] else rows)
  {
    StepRows(all, m);
  }
}
