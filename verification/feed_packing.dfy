/** Greedy packing of a sequence into bounded groups, for any cost per element. */
module GreedyPacking {
  import opened Basics

  function Cost<T>(rows: seq<T>, cost: T -> nat): nat {
    if rows == [] then 0 else Cost(rows[..|rows| - 1], cost) + cost(rows[|rows| - 1])
  }

  datatype Limits = Limits(maxLines: nat, budget: nat)

  /** What one group may hold. */
  predicate Within<T>(rows: seq<T>, lim: Limits, cost: T -> nat) {
    1 <= |rows| <= Max(lim.maxLines, 1) && Cost(rows, cost) <= lim.budget
  }

  /** How far a group that holds the first `k` rows can still grow. */
  function Grow<T>(rows: seq<T>, k: nat, lim: Limits, cost: T -> nat): (n: nat)
    requires k <= |rows|
    ensures k <= n <= |rows|
    decreases |rows| - k
  {
    if k < |rows| && k < lim.maxLines && Cost(rows[..k + 1], cost) <= lim.budget then
      Grow(rows, k + 1, lim, cost)
    else
      k
  }

  /** Each group takes as many of the remaining rows as it can, and at least one. */
  function Packed<T>(rows: seq<T>, lim: Limits, cost: T -> nat): seq<seq<T>>
    decreases |rows|
  {
    if rows == [] then [] else
    var k := Grow(rows, 1, lim, cost);
    [rows[..k]] + Packed(rows[k..], lim, cost)
  }

  lemma CostAppend<T>(rows: seq<T>, row: T, cost: T -> nat)
    ensures Cost(rows + [row], cost) == Cost(rows, cost) + cost(row)
  {
    assert (rows + [row])[..|rows|] == rows;
  }

  /** A group closed after `batch` because the next row does not fit. */
  lemma ClosesGroup<T>(batch: seq<T>, rest: seq<T>, lim: Limits, cost: T -> nat)
    requires batch != [] && Grow(batch + rest, 1, lim, cost) == Grow(batch + rest, |batch|, lim, cost)
    requires rest == [] || |batch| >= lim.maxLines || Cost(batch + [rest[0]], cost) > lim.budget
    ensures Packed(batch + rest, lim, cost) == [batch] + Packed(rest, lim, cost)
  {
    var all := batch + rest;
    if rest != [] {
      assert all[..|batch| + 1] == batch + [rest[0]];
    }
    assert Grow(all, |batch|, lim, cost) == |batch|;
    assert all[..|batch|] == batch && all[|batch|..] == rest;
  }

  lemma ShiftOne<T>(batch: seq<T>, rest: seq<T>)
    requires rest != []
    ensures (batch + [rest[0]]) + rest[1..] == batch + rest
    ensures (batch + rest)[..|batch| + 1] == batch + [rest[0]]
  {
  }

  /** Mid-run: `groups` are closed, `batch` is open, `rest` is still to come. */
  ghost predicate Packing<T>(rows: seq<T>, groups: seq<seq<T>>, batch: seq<T>, rest: seq<T>, lim: Limits,
                             cost: T -> nat)
  {
    && (batch != [] ==> Grow(batch + rest, 1, lim, cost) == Grow(batch + rest, |batch|, lim, cost))
    && Packed(rows, lim, cost) == groups + Packed(batch + rest, lim, cost)
  }

  lemma Close<T>(rows: seq<T>, groups: seq<seq<T>>, batch: seq<T>, rest: seq<T>, lim: Limits, cost: T -> nat)
    requires Packing(rows, groups, batch, rest, lim, cost) && batch != []
    requires rest == [] || |batch| >= lim.maxLines || Cost(batch + [rest[0]], cost) > lim.budget
    ensures Packing(rows, groups + [batch], [], rest, lim, cost)
  {
    ClosesGroup(batch, rest, lim, cost);
    EmptyLeft(rest);
    Regroup(groups, batch, Packed(rest, lim, cost));
  }

  lemma EmptyLeft<T>(rest: seq<T>)
    ensures [] + rest == rest
  {
  }

  lemma Regroup<T>(groups: seq<T>, one: T, later: seq<T>)
    ensures groups + ([one] + later) == (groups + [one]) + later
  {
  }

  lemma Take<T>(rows: seq<T>, groups: seq<seq<T>>, batch: seq<T>, rest: seq<T>, lim: Limits, cost: T -> nat)
    requires Packing(rows, groups, batch, rest, lim, cost) && rest != []
    requires batch != [] ==> |batch| < lim.maxLines && Cost(batch + [rest[0]], cost) <= lim.budget
    ensures Packing(rows, groups, batch + [rest[0]], rest[1..], lim, cost)
  {
    ShiftOne(batch, rest);
  }

  function Concat<T>(groups: seq<seq<T>>): seq<T> {
    if groups == [] then [] else groups[0] + Concat(groups[1..])
  }

  ghost predicate AllWithin<T>(groups: seq<seq<T>>, lim: Limits, cost: T -> nat) {
    forall i :: 0 <= i < |groups| ==> Within(groups[i], lim, cost)
  }

  /** Every element fits a group on its own. */
  ghost predicate EachFits<T>(rows: seq<T>, lim: Limits, cost: T -> nat) {
    forall i :: 0 <= i < |rows| ==> cost(rows[i]) <= lim.budget
  }

  lemma {:induction false} GrowStaysWithin<T>(rows: seq<T>, k: nat, lim: Limits, cost: T -> nat)
    requires k <= |rows| && Within(rows[..k], lim, cost)
    ensures Within(rows[..Grow(rows, k, lim, cost)], lim, cost)
    decreases |rows| - k
  {
    if k < |rows| && k < lim.maxLines && Cost(rows[..k + 1], cost) <= lim.budget {
      GrowStaysWithin(rows, k + 1, lim, cost);
    }
  }

  /** Nothing is lost, reordered or repeated, and every group respects both limits. */
  lemma {:induction false} PackingLossless<T>(rows: seq<T>, lim: Limits, cost: T -> nat)
    requires EachFits(rows, lim, cost)
    ensures Concat(Packed(rows, lim, cost)) == rows
    ensures AllWithin(Packed(rows, lim, cost), lim, cost)
    decreases |rows|
  {
    if rows != [] {
      var k := Grow(rows, 1, lim, cost);
      PackingLossless(rows[k..], lim, cost);
      CostAppend([], rows[0], cost);
      assert rows[..1] == [rows[0]] == [] + [rows[0]];
      GrowStaysWithin(rows, 1, lim, cost);
      var rest := Packed(rows[k..], lim, cost);
      assert ([rows[..k]] + rest)[1..] == rest;
      assert rows[..k] + rows[k..] == rows;
    }
  }

  lemma {:induction false} CostSplit<T>(a: seq<T>, b: seq<T>, cost: T -> nat)
    ensures Cost(a + b, cost) == Cost(a, cost) + Cost(b, cost)
    decreases |b|
  {
    if b == [] {
      assert a + b == a;
    } else {
      var n := |b| - 1;
      assert (a + b)[..|a| + n] == a + b[..n];
      CostSplit(a, b[..n], cost);
    }
  }

  /** Growing does not stop while the next length is still allowed. */
  lemma {:induction false} GrowReaches<T>(rows: seq<T>, k: nat, m: nat, lim: Limits, cost: T -> nat)
    requires 1 <= k <= m <= |rows| && Within(rows[..m], lim, cost)
    ensures Grow(rows, k, lim, cost) >= m
    decreases m - k
  {
    if k < m {
      CostSplit(rows[..k + 1], rows[k + 1..m], cost);
      assert rows[..k + 1] + rows[k + 1..m] == rows[..m];
      GrowReaches(rows, k + 1, m, lim, cost);
    }
  }

  /** Greedy packing started `d` rows late still needs no more groups than any allowed partition. */
  lemma {:induction false} GreedyStaysAhead<T>(rows: seq<T>, d: nat, other: seq<seq<T>>, lim: Limits, cost: T -> nat)
    requires d <= |rows| && Concat(other) == rows && AllWithin(other, lim, cost)
    ensures |Packed(rows[d..], lim, cost)| <= |other|
    decreases |other|
  {
    if other != [] {
      var g, later := other[0], other[1..];
      var a := |g|;
      assert rows[a..] == Concat(later);
      assert AllWithin(later, lim, cost);
      if d >= a {
        assert rows[a..][d - a..] == rows[d..];
        GreedyStaysAhead(rows[a..], d - a, later, lim, cost);
      } else {
        var k := LateGroup(rows, d, g, lim, cost);
        assert rows[d..][k..] == rows[a..][d + k - a..];
        GreedyStaysAhead(rows[a..], d + k - a, later, lim, cost);
      }
    }
  }

  /** A greedy group that starts inside an allowed group reaches at least its end. */
  lemma LateGroup<T>(rows: seq<T>, d: nat, g: seq<T>, lim: Limits, cost: T -> nat) returns (k: nat)
    requires d < |g| <= |rows| && rows[..|g|] == g && Within(g, lim, cost)
    ensures k == Grow(rows[d..], 1, lim, cost) && d + k >= |g|
  {
    var s := rows[d..];
    CostSplit(g[..d], g[d..], cost);
    assert g[..d] + g[d..] == g && s[..|g| - d] == g[d..];
    GrowReaches(s, 1, |g| - d, lim, cost);
    k := Grow(s, 1, lim, cost);
  }

  /** No other contiguous grouping under the same limits uses fewer groups. */
  lemma PackingMinimal<T>(rows: seq<T>, other: seq<seq<T>>, lim: Limits, cost: T -> nat)
    requires Concat(other) == rows && AllWithin(other, lim, cost)
    ensures |Packed(rows, lim, cost)| <= |other|
  {
    assert rows[0..] == rows;
    GreedyStaysAhead(rows, 0, other, lim, cost);
  }
}

/**
 The compact feed: rendering a row as one line, packing lines into messages, and the
 joiner that would cut a message short. Lengths are UTF-8 byte lengths, clamps count
 characters.
 */
module FeedPacking {
  import opened Basics
  import opened GreedyPacking

  const DESCRIPTION: nat := 4096
  const MAX_LINE_CHARS: nat := 700
  const MAX_NAME_CHARS: nat := 16
  const ELLIPSIS := '\U{2026}'

  /** A row as the line renderer sees it: author, subject and body are already chosen. */
  datatype FeedRow = FeedRow(
    unixSeconds: int,
    kind: string,
    author: Option<string>,
    subject: Option<string>,
    body: string)

  function Utf8Width(c: char): (n: nat)
    ensures 1 <= n <= 4
  {
    if c < '\U{80}' then 1 else if c < '\U{800}' then 2 else if c < '\U{10000}' then 3 else 4
  }

  function ByteLen(s: string): (n: nat)
    ensures |s| <= n <= 4 * |s|
  {
    if s == [] then 0 else Utf8Width(s[0]) + ByteLen(s[1..])
  }

  // ---------------------------------------------------------------------------
  // Text
  // ---------------------------------------------------------------------------

  predicate IsSpace(c: char) {
    || '\U{9}' <= c <= '\U{d}' || c == ' ' || c == '\U{85}' || c == '\U{a0}' || c == '\U{1680}'
    || '\U{2000}' <= c <= '\U{200a}' || c == '\U{2028}' || c == '\U{2029}' || c == '\U{202f}'
    || c == '\U{205f}' || c == '\U{3000}'
  }

  /** Words separated by single spaces; `gap` says a space is owed before the next word. */
  function Squeeze(text: string, started: bool, gap: bool): string {
    if text == [] then []
    else if IsSpace(text[0]) then Squeeze(text[1..], started, true)
    else (if started && gap then [' '] else []) + [text[0]] + Squeeze(text[1..], true, false)
  }

  function OneLine(text: string): string { Squeeze(text, false, false) }

  predicate IsMarkup(c: char) { c in {'\\', '*', '_', '~', '`', '|'} }

  function Escape(text: string): string {
    if text == [] then [] else (if IsMarkup(text[0]) then ['\\', text[0]] else [text[0]]) + Escape(text[1..])
  }

  /** What a markdown reader makes of backslash escapes. */
  function Unescape(text: string): string
    decreases |text|
  {
    if text == [] then []
    else if text[0] == '\\' && |text| > 1 then [text[1]] + Unescape(text[2..])
    else [text[0]] + Unescape(text[1..])
  }

  lemma {:induction false} EscapeAppend(text: string, c: char)
    ensures Escape(text + [c]) == Escape(text) + if IsMarkup(c) then ['\\', c] else [c]
  {
    if text == [] {
      assert (text + [c])[1..] == [];
    } else {
      assert (text + [c])[1..] == text[1..] + [c];
      EscapeAppend(text[1..], c);
    }
  }

  method EscapeMd(text: string) returns (out: string)
    ensures out == Escape(OneLine(text))
  {
    var line := OneLine(text);
    out := "";
    for i := 0 to |line|
      invariant out == Escape(line[..i])
    {
      EscapeAppend(line[..i], line[i]);
      assert line[..i + 1] == line[..i] + [line[i]];
      if IsMarkup(line[i]) {
        out := out + ['\\'];
      }
      out := out + [line[i]];
    }
    assert line[..|line|] == line;
  }

  /** Escaping loses nothing: the reader sees the original text, markup characters and all. */
  lemma {:induction false} EscapeReadsBack(text: string)
    ensures Unescape(Escape(text)) == text
  {
    if text != [] {
      EscapeReadsBack(text[1..]);
      var e := Escape(text);
      if IsMarkup(text[0]) {
        assert e == ['\\', text[0]] + Escape(text[1..]);
        assert e[2..] == Escape(text[1..]);
      } else {
        assert e[1..] == Escape(text[1..]);
      }
    }
  }

  function Clamp(text: string, max: nat): (r: string)
    ensures |text| <= max ==> r == text
    ensures |text| > max >= 1 ==> |r| == max && r[max - 1] == ELLIPSIS && r[..max - 1] == text[..max - 1]
  {
    if |text| <= max then text else text[..Max(max - 1, 0)] + [ELLIPSIS]
  }

  function Markups(text: string): nat {
    if text == [] then 0 else (if IsMarkup(text[0]) then 1 else 0) + Markups(text[1..])
  }

  lemma {:induction false} EscapedLength(text: string)
    ensures |Escape(text)| == |text| + Markups(text)
  {
    if text != [] {
      EscapedLength(text[1..]);
    }
  }

  /** An escaped text cut to `n` characters and an ellipsis never reads as the whole text. */
  lemma {:induction false} CutNeverReadsBack(text: string, n: nat)
    requires n + 1 < |Escape(text)|
    ensures Unescape(Escape(text)[..n] + [ELLIPSIS]) != text
    decreases text
  {
    var e := Escape(text);
    var cut := e[..n] + [ELLIPSIS];
    var rest := Escape(text[1..]);
    if n == 0 {
      assert cut == [ELLIPSIS] && Unescape(cut) == [ELLIPSIS] + Unescape(cut[1..]);
      assert |text| == 1 ==> Escape(text[1..]) == [];
    } else if !IsMarkup(text[0]) {
      assert e == [text[0]] + rest;
      assert cut[1..] == rest[..n - 1] + [ELLIPSIS];
      CutNeverReadsBack(text[1..], n - 1);
    } else {
      assert e == ['\\', text[0]] + rest;
      if n == 1 {
        assert cut == ['\\', ELLIPSIS];
        assert Unescape(cut)[0] == ELLIPSIS;
      } else {
        assert cut[2..] == rest[..n - 2] + [ELLIPSIS];
        CutNeverReadsBack(text[1..], n - 2);
      }
    }
  }

  /**
   A name or body is shown whole, as its reader sees it, if and only if its characters and its
   markup characters together stay within the limit: the limit applies to the escaped text.
   */
  lemma ShownWholeIff(text: string, max: nat)
    requires max >= 1
    ensures Unescape(Clamp(Escape(text), max)) == text <==> |text| + Markups(text) <= max
  {
    EscapedLength(text);
    if |text| + Markups(text) <= max {
      EscapeReadsBack(text);
    } else {
      CutNeverReadsBack(text, max - 1);
    }
  }

  function Bold(text: string): string { "**" + text + "**" }

  function Italic(text: string): string { "*" + text + "*" }

  function LogText(text: string): string { Clamp(Escape(OneLine(text)), MAX_LINE_CHARS) }

  function PlayerName(name: Option<string>): string {
    Bold(Clamp(Escape(OneLine(if name.Some? then name.value else "?")), MAX_NAME_CHARS))
  }

  function Digits(n: nat): string {
    if n < 10 then ["0123456789"[n]] else Digits(n / 10) + ["0123456789"[n % 10]]
  }

  function Decimal(n: int): string { if n < 0 then "-" + Digits(-n) else Digits(n) }

  function ShortTime(unixSeconds: int): string { "<t:" + Decimal(unixSeconds) + ":t>" }

  function FeedLine(row: FeedRow): string {
    var when := ShortTime(row.unixSeconds);
    var body := LogText(row.body);
    if row.kind == "chat" || row.kind == "c" then
      if row.author.Some? && row.author != row.subject then
        when + " " + PlayerName(row.author) + "  " + body
      else
        when + " " + PlayerName(row.subject) + "  " + body
    else if row.kind == "whisper" || row.kind == "w" then
      when + " " + PlayerName(row.author) + "  " + Italic("whispers: " + body)
    else
      when + " " + Italic(body)
  }

  /** Timestamps a 64-bit clock can hold. */
  predicate InClock(row: FeedRow) { -0x8000_0000_0000_0000 <= row.unixSeconds < 0x8000_0000_0000_0000 }

  function Power10(d: nat): nat { if d == 0 then 1 else 10 * Power10(d - 1) }

  lemma {:induction false} DigitsBound(n: nat, d: nat)
    requires 1 <= d && n < Power10(d)
    ensures |Digits(n)| <= d
  {
    if n >= 10 {
      DigitsBound(n / 10, d - 1);
    }
  }

  lemma Power10Of19()
    ensures Power10(19) == 10_000_000_000_000_000_000
  {
    assert Power10(4) == 10_000;
    assert Power10(8) == 100_000_000;
    assert Power10(12) == 1_000_000_000_000;
    assert Power10(16) == 10_000_000_000_000_000;
  }

  /** Every rendered line, with its newline, fits a message on its own. */
  lemma LineFits(row: FeedRow)
    requires InClock(row)
    ensures ByteLen(FeedLine(row)) + 1 <= 4096
  {
    Power10Of19();
    DigitsBound(if row.unixSeconds < 0 then -row.unixSeconds else row.unixSeconds, 19);
    assert |ShortTime(row.unixSeconds)| <= 26;
    assert |PlayerName(row.author)| <= 20 && |PlayerName(row.subject)| <= 20;
    assert |FeedLine(row)| <= 800;
  }

  // ---------------------------------------------------------------------------
  // Packing
  // ---------------------------------------------------------------------------

  function LineCost(row: FeedRow): nat { ByteLen(FeedLine(row)) + 1 }

  function FeedLimits(maxLines: nat): Limits { Limits(maxLines, DESCRIPTION) }

  function PackedFeed(rows: seq<FeedRow>, maxLines: nat): seq<seq<FeedRow>> {
    Packed(rows, FeedLimits(maxLines), LineCost)
  }

  /** `i` rows are packed: `groups` are closed and `batch`, which costs `budget`, is open. */
  ghost predicate PackingFeed(rows: seq<FeedRow>, maxLines: nat, groups: seq<seq<FeedRow>>, batch: seq<FeedRow>,
                              budget: nat, i: nat)
  {
    && i <= |rows| && budget == Cost(batch, LineCost)
    && Packing(rows, groups, batch, rows[i..], FeedLimits(maxLines), LineCost)
  }

  lemma PackingStarts(rows: seq<FeedRow>, maxLines: nat)
    ensures PackingFeed(rows, maxLines, [], [], 0, 0)
  {
    assert rows[0..] == rows;
    EmptyLeft(rows);
  }

  lemma CloseFeed(rows: seq<FeedRow>, maxLines: nat, groups: seq<seq<FeedRow>>, batch: seq<FeedRow>, budget: nat,
                  i: nat)
    requires PackingFeed(rows, maxLines, groups, batch, budget, i) && batch != []
    requires i == |rows| || |batch| >= maxLines || budget + LineCost(rows[i]) > DESCRIPTION
    ensures PackingFeed(rows, maxLines, groups + [batch], [], 0, i)
  {
    if i < |rows| {
      CostAppend(batch, rows[i], LineCost);
    }
    Close(rows, groups, batch, rows[i..], FeedLimits(maxLines), LineCost);
  }

  lemma TakeFeed(rows: seq<FeedRow>, maxLines: nat, groups: seq<seq<FeedRow>>, batch: seq<FeedRow>, budget: nat, i: nat)
    requires PackingFeed(rows, maxLines, groups, batch, budget, i) && i < |rows|
    requires batch != [] ==> |batch| < maxLines && budget + LineCost(rows[i]) <= DESCRIPTION
    ensures PackingFeed(rows, maxLines, groups, batch + [rows[i]], budget + LineCost(rows[i]), i + 1)
  {
    CostAppend(batch, rows[i], LineCost);
    assert rows[i..][1..] == rows[i + 1..];
    Take(rows, groups, batch, rows[i..], FeedLimits(maxLines), LineCost);
  }

  lemma PackingEnds(rows: seq<FeedRow>, maxLines: nat, groups: seq<seq<FeedRow>>)
    requires PackingFeed(rows, maxLines, groups, [], 0, |rows|)
    ensures groups == PackedFeed(rows, maxLines)
  {
  }

  method PackFeed(rows: seq<FeedRow>, maxLines: nat) returns (groups: seq<seq<FeedRow>>)
    ensures groups == PackedFeed(rows, maxLines)
  {
    groups := [];
    var batch: seq<FeedRow> := [];
    var budget: nat := 0;
    PackingStarts(rows, maxLines);
    for i := 0 to |rows|
      invariant PackingFeed(rows, maxLines, groups, batch, budget, i)
    {
      var cost := LineCost(rows[i]);
      if batch != [] && (|batch| >= maxLines || budget + cost > DESCRIPTION) {
        CloseFeed(rows, maxLines, groups, batch, budget, i);
        groups := groups + [batch];
        batch := [];
        budget := 0;
      }
      TakeFeed(rows, maxLines, groups, batch, budget, i);
      batch := batch + [rows[i]];
      budget := budget + cost;
    }
    if batch != [] {
      CloseFeed(rows, maxLines, groups, batch, budget, |rows|);
      groups := groups + [batch];
    }
    PackingEnds(rows, maxLines, groups);
  }

  ghost predicate AllInClock(rows: seq<FeedRow>) { forall i :: 0 <= i < |rows| ==> InClock(rows[i]) }

  /**
   Nothing is lost, reordered or repeated; every message holds 1 to `maxLines` rows
   within the byte limit; and no grouping under the same limits uses fewer messages.
   */
  lemma FeedPackingOptimal(rows: seq<FeedRow>, maxLines: nat)
    requires AllInClock(rows)
    ensures Concat(PackedFeed(rows, maxLines)) == rows
    ensures AllWithin(PackedFeed(rows, maxLines), Limits(maxLines, 4096), LineCost)
    ensures forall other :: Concat(other) == rows && AllWithin(other, Limits(maxLines, 4096), LineCost) ==>
              |PackedFeed(rows, maxLines)| <= |other|
  {
    var lim := FeedLimits(maxLines);
    forall i | 0 <= i < |rows| ensures LineCost(rows[i]) <= DESCRIPTION {
      LineFits(rows[i]);
    }
    PackingLossless(rows, lim, LineCost);
    forall other | Concat(other) == rows && AllWithin(other, lim, LineCost)
      ensures |PackedFeed(rows, maxLines)| <= |other|
    {
      PackingMinimal(rows, other, lim, LineCost);
    }
  }

  // ---------------------------------------------------------------------------
  // The joiner
  // ---------------------------------------------------------------------------

  function TotalLen(lines: seq<string>): nat {
    if lines == [] then 0 else TotalLen(lines[..|lines| - 1]) + ByteLen(lines[|lines| - 1]) + 1
  }

  /** How many lines are kept before the remainder is replaced by a count. */
  function Kept(lines: seq<string>, max: nat, n: nat): (k: nat)
    requires n <= |lines|
    ensures n <= k <= |lines|
    decreases |lines| - n
  {
    if n == |lines| || TotalLen(lines[..n + 1]) > max then n else Kept(lines, max, n + 1)
  }

  function Join(lines: seq<string>): string {
    if lines == [] then ""
    else if |lines| == 1 then lines[0]
    else Join(lines[..|lines| - 1]) + "\n" + lines[|lines| - 1]
  }

  function JoinedUpTo(lines: seq<string>, max: nat): string {
    var k := Kept(lines, max, 0);
    if k == |lines| then Join(lines) else Join(lines[..k] + [[ELLIPSIS] + "and " + Digits(|lines| - k) + " more"])
  }

  method JoinLines(lines: seq<string>, max: nat) returns (joined: string)
    ensures joined == JoinedUpTo(lines, max)
  {
    var kept: seq<string> := [];
    var length := 0;
    var i := 0;
    while i < |lines|
      invariant i <= |lines| && kept == lines[..i] && length == TotalLen(lines[..i])
      invariant Kept(lines, max, 0) == Kept(lines, max, i)
    {
      assert lines[..i + 1][..i] == lines[..i];
      if length + ByteLen(lines[i]) + 1 > max {
        kept := kept + [[ELLIPSIS] + "and " + Digits(|lines| - |kept|) + " more"];
        return Join(kept);
      }
      kept := kept + [lines[i]];
      length := length + ByteLen(lines[i]) + 1;
      i := i + 1;
    }
    assert lines[..|lines|] == lines;
    joined := Join(kept);
  }

  function Rendered(rows: seq<FeedRow>): seq<string> { seq(|rows|, i requires 0 <= i < |rows| => FeedLine(rows[i])) }

  lemma {:induction false} RenderedLen(rows: seq<FeedRow>)
    ensures TotalLen(Rendered(rows)) == Cost(rows, LineCost)
  {
    if rows != [] {
      var n := |rows| - 1;
      assert Rendered(rows)[..n] == Rendered(rows[..n]);
      RenderedLen(rows[..n]);
    }
  }

  lemma {:induction false} TotalLenMonotone(lines: seq<string>, n: nat)
    requires n <= |lines|
    ensures TotalLen(lines[..n]) <= TotalLen(lines)
    decreases |lines|
  {
    if n < |lines| {
      var m := |lines| - 1;
      assert lines[..m][..n] == lines[..n];
      TotalLenMonotone(lines[..m], n);
    } else {
      assert lines[..n] == lines;
    }
  }

  /** The joiner keeps every line exactly when their total length is within its limit. */
  lemma {:induction false} KeepsAllExactly(lines: seq<string>, max: nat, n: nat)
    requires n <= |lines| && TotalLen(lines[..n]) <= max
    ensures Kept(lines, max, n) == |lines| <==> TotalLen(lines) <= max
    decreases |lines| - n
  {
    assert lines[..|lines|] == lines;
    if n < |lines| {
      TotalLenMonotone(lines, n + 1);
      if TotalLen(lines[..n + 1]) <= max {
        KeepsAllExactly(lines, max, n + 1);
      }
    }
  }

  /** No message the packer builds is ever cut short by the joiner. */
  lemma PackedNeverCut(rows: seq<FeedRow>, maxLines: nat, i: nat)
    requires AllInClock(rows) && i < |PackedFeed(rows, maxLines)|
    ensures JoinedUpTo(Rendered(PackedFeed(rows, maxLines)[i]), DESCRIPTION)
         == Join(Rendered(PackedFeed(rows, maxLines)[i]))
  {
    FeedPackingOptimal(rows, maxLines);
    var g := PackedFeed(rows, maxLines)[i];
    assert Within(g, FeedLimits(maxLines), LineCost);
    RenderedLen(g);
    assert Rendered(g)[..0] == [];
    KeepsAllExactly(Rendered(g), DESCRIPTION, 0);
  }

  // ---------------------------------------------------------------------------
  // What a rendered line says
  // ---------------------------------------------------------------------------

  /** The characters a markdown reader takes as they stand, not as escaped. */
  function Live(text: string): string
    decreases |text|
  {
    if text == [] then []
    else if text[0] == '\\' && |text| > 1 then Live(text[2..])
    else [text[0]] + Live(text[1..])
  }

  function MarkCount(text: string): nat {
    if text == [] then 0 else
    (if text[0] in ['\\', '*', '_', '~', '`', '|'] then 1 else 0) + MarkCount(text[1..])
  }

  lemma {:induction false} EscapedIsPlain(text: string)
    ensures forall c :: c in Live(Escape(text)) ==> c !in ['\\', '*', '_', '~', '`', '|']
    ensures |Escape(text)| == |text| + MarkCount(text)
  {
    if text != [] {
      EscapedIsPlain(text[1..]);
      var e := Escape(text);
      if IsMarkup(text[0]) {
        assert e == ['\\', text[0]] + Escape(text[1..]) && e[2..] == Escape(text[1..]);
      } else {
        assert e[1..] == Escape(text[1..]);
      }
    }
  }

  /** Where the first word of a text that begins with one ends. */
  function WordEnd(text: string): (k: nat)
    ensures k <= |text|
    ensures text != [] && !IsSpace(text[0]) ==> k >= 1
  {
    if text == [] || IsSpace(text[0]) then 0 else 1 + WordEnd(text[1..])
  }

  /** The stretches between white space. */
  function Words(text: string): seq<string>
    decreases |text|
  {
    if text == [] then []
    else if IsSpace(text[0]) then Words(text[1..])
    else [text[..WordEnd(text)]] + Words(text[WordEnd(text)..])
  }

  function Spaced(words: seq<string>): string {
    if words == [] then "" else if |words| == 1 then words[0] else words[0] + " " + Spaced(words[1..])
  }

  /** With text out already, the next words each follow a space. */
  function Following(words: seq<string>): string { if words == [] then "" else " " + Spaced(words) }

  lemma SpacedHead(word: string, words: seq<string>)
    ensures Spaced([word] + words) == word + Following(words)
  {
    assert ([word] + words)[1..] == words;
  }

  lemma {:induction false} SqueezeWord(text: string)
    ensures Squeeze(text, true, false) == text[..WordEnd(text)] + Squeeze(text[WordEnd(text)..], true, false)
  {
    if text != [] && !IsSpace(text[0]) {
      SqueezeWord(text[1..]);
      assert text[1..][WordEnd(text[1..])..] == text[WordEnd(text)..];
      assert text[..WordEnd(text)] == [text[0]] + text[1..][..WordEnd(text[1..])];
    }
  }

  lemma WordStops(text: string)
    ensures var rest := text[WordEnd(text)..]; rest == [] || IsSpace(rest[0])
  {
    if text != [] && !IsSpace(text[0]) {
      WordStops(text[1..]);
      assert text[1..][WordEnd(text[1..])..] == text[WordEnd(text)..];
    }
  }

  lemma {:induction false} SqueezeOwed(text: string)
    ensures Squeeze(text, true, true) == Following(Words(text))
    decreases |text|
  {
    if text != [] {
      if IsSpace(text[0]) {
        SqueezeOwed(text[1..]);
      } else {
        var k := WordEnd(text);
        var rest := text[k..];
        SqueezeWord(text);
        assert Squeeze(text, true, true) == " " + Squeeze(text, true, false);
        AfterWord(text);
        SpacedHead(text[..k], Words(rest));
      }
    }
  }

  /** After a word comes white space, if anything. */
  lemma {:induction false} AfterWord(text: string)
    requires text != [] && !IsSpace(text[0])
    ensures var rest := text[WordEnd(text)..]; Squeeze(rest, true, false) == Following(Words(rest))
    decreases |text|, 0
  {
    var rest := text[WordEnd(text)..];
    WordStops(text);
    if rest != [] {
      SqueezeOwed(rest[1..]);
    }
  }

  /** A text on one line: its words, one space between each two. */
  lemma {:induction false} OneLineIsWords(text: string)
    ensures OneLine(text) == Spaced(Words(text))
  {
    if text != [] {
      if IsSpace(text[0]) {
        OneLineIsWords(text[1..]);
        SpaceFirst(text[1..]);
      } else {
        SqueezeWord(text);
        AfterWord(text);
        assert Squeeze(text, false, false) == Squeeze(text, true, false);
        SpacedHead(text[..WordEnd(text)], Words(text[WordEnd(text)..]));
      }
    }
  }

  /** Before the first word a space is never owed. */
  lemma {:induction false} SpaceFirst(text: string)
    ensures Squeeze(text, false, true) == Squeeze(text, false, false)
  {
    if text != [] && IsSpace(text[0]) {
      SpaceFirst(text[1..]);
    }
  }

  // ---------------------------------------------------------------------------
  // Numbers and bytes
  // ---------------------------------------------------------------------------

  function DigitValue(c: char): int { c as int - '0' as int }

  function Number(digits: string): int {
    if digits == [] then 0 else 10 * Number(digits[..|digits| - 1]) + DigitValue(digits[|digits| - 1])
  }

  lemma OneDigit(d: nat)
    requires d < 10
    ensures DigitValue("0123456789"[d]) == d && '0' <= "0123456789"[d] <= '9' && ("0123456789"[d] == '0' ==> d == 0)
  {
  }

  predicate IsNumeral(digits: string, n: nat) {
    && digits != [] && Number(digits) == n && (|digits| > 1 ==> digits[0] != '0')
    && forall i :: 0 <= i < |digits| ==> '0' <= digits[i] <= '9'
  }

  lemma OneMoreDigit(digits: string, m: nat, d: nat)
    requires IsNumeral(digits, m) && m > 0 && d < 10
    ensures IsNumeral(digits + ["0123456789"[d]], 10 * m + d)
  {
    OneDigit(d);
    var more := digits + ["0123456789"[d]];
    assert more[..|more| - 1] == digits;
    if |digits| == 1 {
      assert Number(digits) == 10 * Number(digits[..0]) + DigitValue(digits[0]);
    }
  }

  /** Decimal digits read back, with no zero in front of another digit. */
  lemma {:induction false} DigitsReadBack(n: nat)
    ensures IsNumeral(Digits(n), n)
  {
    if n < 10 {
      OneDigit(n);
      assert Digits(n)[..0] == [];
    } else {
      DigitsReadBack(n / 10);
      OneMoreDigit(Digits(n / 10), n / 10, n % 10);
    }
  }

  /** The UTF-8 encoding of one character. */
  function Utf8(c: char): seq<int> {
    var n: nat := c as int;
    if n < 0x80 then [n]
    else if n < 0x800 then [0xC0 + n / 64, 0x80 + n % 64]
    else if n < 0x10000 then [0xE0 + n / 4096, 0x80 + n / 64 % 64, 0x80 + n % 64]
    else [0xF0 + n / 262144, 0x80 + n / 4096 % 64, 0x80 + n / 64 % 64, 0x80 + n % 64]
  }

  /** How a first byte announces the length of an encoding. */
  function Announced(first: int): nat {
    if first < 0x80 then 1 else if first < 0xE0 then 2 else if first < 0xF0 then 3 else 4
  }

  function Decoded(b: seq<int>): int
    requires b != []
  {
    match |b|
    case 1 => b[0]
    case 2 => (b[0] - 0xC0) * 64 + (b[1] - 0x80)
    case 3 => (b[0] - 0xE0) * 4096 + (b[1] - 0x80) * 64 + (b[2] - 0x80)
    case _ =>
      if |b| == 4 then (b[0] - 0xF0) * 262144 + (b[1] - 0x80) * 4096 + (b[2] - 0x80) * 64 + (b[3] - 0x80) else 0
  }

  /** Each character counts as many bytes as its encoding has, which its first byte announces. */
  lemma WidthIsUtf8(c: char)
    ensures |Utf8(c)| == Utf8Width(c) == Announced(Utf8(c)[0]) && Decoded(Utf8(c)) == c as int
  {
    var n: nat := c as int;
    assert n == 64 * (n / 64) + n % 64;
    assert n / 64 == 64 * (n / 4096) + n / 64 % 64;
    assert n / 4096 == 64 * (n / 262144) + n / 4096 % 64;
  }

  function Utf8Text(s: string): seq<int> { if s == [] then [] else Utf8(s[0]) + Utf8Text(s[1..]) }

  lemma {:induction false} BytesAreUtf8(s: string)
    ensures ByteLen(s) == |Utf8Text(s)|
  {
    if s != [] {
      WidthIsUtf8(s[0]);
      BytesAreUtf8(s[1..]);
    }
  }

  // ---------------------------------------------------------------------------
  // The line itself
  // ---------------------------------------------------------------------------

  /** A text as a line shows it: on one line, escaped, and no longer than the limit. */
  function Shown(text: string, max: nat): string { Clamp(Escape(Spaced(Words(text))), max) }

  function Stamp(n: int): string { "<t:" + (if n < 0 then "-" + Digits(-n) else Digits(n)) + ":t> " }

  function NameOr(name: Option<string>): string { if name.Some? then name.value else "?" }

  /**
   A chat line shows its author if there is one and it is not the subject, otherwise its
   subject; a whisper its author; anything else the text alone. Only chat is not in italics.
   */
  lemma FeedLineSays(row: FeedRow)
    ensures FeedLine(row) == Stamp(row.unixSeconds) +
              if row.kind in ["chat", "c"] then
                "**" + Shown(NameOr(if row.author.None? then row.subject else row.author), 16) + "**  "
                  + Shown(row.body, 700)
              else if row.kind in ["whisper", "w"] then
                "**" + Shown(NameOr(row.author), 16) + "**  *whispers: " + Shown(row.body, 700) + "*"
              else "*" + Shown(row.body, 700) + "*"
  {
    OneLineIsWords(row.body);
    OneLineIsWords(NameOr(row.author));
    OneLineIsWords(NameOr(row.subject));
    StampIs(row.unixSeconds);
    Regroups(ShortTime(row.unixSeconds), Shown(NameOr(row.author), 16), Shown(row.body, 700));
    Regroups(ShortTime(row.unixSeconds), Shown(NameOr(row.subject), 16), Shown(row.body, 700));
  }

  lemma StampIs(n: int)
    ensures ShortTime(n) + " " == Stamp(n)
  {
  }

  lemma Regroups(when: string, name: string, body: string)
    ensures when + " " + ("**" + name + "**") + "  " + body == (when + " ") + ("**" + name + "**  " + body)
    ensures when + " " + ("**" + name + "**") + "  " + ("*" + ("whispers: " + body) + "*")
         == (when + " ") + ("**" + name + "**  *whispers: " + body + "*")
  {
    var l := when + " " + ("**" + name + "**") + "  ";
    assert l == (when + " ") + ("**" + name + "**  ");
    assert "*" + ("whispers: " + body) + "*" == "*whispers: " + body + "*";
    assert "**" + name + "**  *whispers: " + body + "*" == ("**" + name + "**  ") + ("*whispers: " + body + "*");
  }

  // ---------------------------------------------------------------------------
  // Joining
  // ---------------------------------------------------------------------------

  predicate OnOneLine(line: string) { '\n' !in line }

  function Split(text: string): seq<string> {
    if text == [] then [""] else
    var n := |text| - 1;
    var before := Split(text[..n]);
    if text[n] == '\n' then before + [""] else before[..|before| - 1] + [before[|before| - 1] + [text[n]]]
  }

  lemma {:induction false} SplitAppend(text: string, line: string)
    requires OnOneLine(line)
    ensures Split(text + "\n" + line) == Split(text) + [line]
    decreases |line|
  {
    var all := text + "\n" + line;
    if line == "" {
      assert all[..|all| - 1] == text;
    } else {
      var n := |line| - 1;
      assert all[..|all| - 1] == text + "\n" + line[..n];
      SplitAppend(text, line[..n]);
      assert line == line[..n] + [line[n]];
    }
  }

  lemma {:induction false} SplitOne(line: string)
    requires OnOneLine(line)
    ensures Split(line) == [line]
  {
    if line != "" {
      var n := |line| - 1;
      SplitOne(line[..n]);
      assert line == line[..n] + [line[n]];
    }
  }

  predicate AllOnOneLine(lines: seq<string>) { forall i :: 0 <= i < |lines| ==> OnOneLine(lines[i]) }

  lemma {:induction false} LastLineApart(lines: seq<string>, n: nat)
    requires n >= 1 && |lines| == n + 1 && AllOnOneLine(lines)
    ensures AllOnOneLine(lines[..n]) && OnOneLine(lines[n]) && lines[..n] + [lines[n]] == lines
  {
    assert forall i :: 0 <= i < n ==> lines[..n][i] == lines[i];
  }

  lemma {:induction false} JoinLast(lines: seq<string>, n: nat)
    requires n >= 1 && |lines| == n + 1
    ensures Join(lines) == Join(lines[..n]) + "\n" + lines[n]
  {
  }

  /** Joined lines can be told apart again. */
  lemma {:induction false} JoinSplits(lines: seq<string>)
    requires lines != [] && AllOnOneLine(lines)
    ensures Split(Join(lines)) == lines
  {
    var n := |lines| - 1;
    if n == 0 {
      SplitOne(lines[0]);
      assert lines == [lines[0]];
    } else {
      LastLineApart(lines, n);
      JoinLast(lines, n);
      JoinSplits(lines[..n]);
      SplitAppend(Join(lines[..n]), lines[n]);
    }
  }

  lemma {:induction false} Utf8Concat(a: string, b: string)
    ensures Utf8Text(a + b) == Utf8Text(a) + Utf8Text(b)
    decreases |a|
  {
    if a == [] {
      assert a + b == b;
    } else {
      assert (a + b)[1..] == a[1..] + b;
      Utf8Concat(a[1..], b);
    }
  }

  /** The joiner's count of some lines is the bytes of their joined text and one more. */
  lemma {:induction false} TotalIsBytes(lines: seq<string>)
    requires lines != []
    ensures TotalLen(lines) == |Utf8Text(Join(lines))| + 1
  {
    var n := |lines| - 1;
    BytesAreUtf8(lines[n]);
    if n == 0 {
      assert TotalLen(lines[..0]) == 0;
    } else {
      TotalIsBytes(lines[..n]);
      Utf8Concat(Join(lines[..n]) + "\n", lines[n]);
      Utf8Concat(Join(lines[..n]), "\n");
      assert Utf8Text("\n") == [10] + Utf8Text("\n"[1..]);
    }
  }

  lemma {:induction false} KeptIsMost(lines: seq<string>, max: nat, n: nat)
    requires n <= |lines| && TotalLen(lines[..n]) <= max
    ensures MostFit(lines, max, Kept(lines, max, n))
    decreases |lines| - n
  {
    if n < |lines| && TotalLen(lines[..n + 1]) <= max {
      KeptIsMost(lines, max, n + 1);
    }
  }

  /** The last line of a message that was cut short. */
  function Rest(n: nat): string { "\U{2026}and " + Digits(n) + " more" }

  lemma RestIsCount(n: nat)
    ensures Rest(n) == [ELLIPSIS] + "and " + Digits(n) + " more"
  {
    assert "\U{2026}and " == [ELLIPSIS] + "and ";
  }

  lemma RestIsOneLine(n: nat)
    ensures OnOneLine(Rest(n))
  {
    DigitsReadBack(n);
    var d := Digits(n);
    forall i | 0 <= i < |Rest(n)| ensures Rest(n)[i] != '\n' {
      assert 5 <= i < 5 + |d| ==> Rest(n)[i] == d[i - 5];
    }
  }

  /** The first `k` lines fit the limit, and one more would not. */
  predicate MostFit(lines: seq<string>, max: nat, k: nat) {
    k <= |lines| && TotalLen(lines[..k]) <= max && (k < |lines| ==> TotalLen(lines[..k + 1]) > max)
  }

  /** The lines of a message that keeps `k`: they, and a count of the others if there are any. */
  function Message(lines: seq<string>, k: nat): seq<string>
    requires k <= |lines|
  {
    if k == |lines| then lines else lines[..k] + [Rest(|lines| - k)]
  }

  lemma JoinedIs(lines: seq<string>, max: nat, k: nat)
    requires k == Kept(lines, max, 0)
    ensures JoinedUpTo(lines, max) == Join(Message(lines, k))
  {
    if k < |lines| {
      RestIsCount(|lines| - k);
    }
  }

  lemma {:induction false} MessageOnLines(lines: seq<string>, k: nat)
    requires k <= |lines| && lines != [] && AllOnOneLine(lines)
    ensures Message(lines, k) != [] && AllOnOneLine(Message(lines, k))
  {
    if k < |lines| {
      RestIsOneLine(|lines| - k);
    }
  }

  lemma KeptMessage(lines: seq<string>, max: nat, k: nat)
    requires lines != [] && AllOnOneLine(lines) && k == Kept(lines, max, 0)
    ensures Split(JoinedUpTo(lines, max)) == Message(lines, k)
  {
    JoinedIs(lines, max, k);
    MessageOnLines(lines, k);
    JoinSplits(Message(lines, k));
  }

  /** A joined message is the most lines that fit, and if that is not all of them a count of the others. */
  lemma {:induction false} JoinedSays(lines: seq<string>, max: nat) returns (k: nat)
    requires lines != [] && AllOnOneLine(lines)
    ensures MostFit(lines, max, k) && Split(JoinedUpTo(lines, max)) == Message(lines, k)
  {
    k := Kept(lines, max, 0);
    KeptIsMost(lines, max, 0);
    KeptMessage(lines, max, k);
  }
}
