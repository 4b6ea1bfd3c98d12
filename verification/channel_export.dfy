/**
 Paged export of a channel. The service returns at most 100 messages a request, newest
 first: the next ones after a cursor, or the latest ones before it.
 */
module ChannelExport {
  import opened Basics

  datatype Message = Message(id: nat, content: string)

  const PAGE_CAP: nat := 100

  ghost predicate Ascending(msgs: seq<Message>) {
    forall i, j :: 0 <= i < j < |msgs| ==> msgs[i].id < msgs[j].id
  }

  function Newer(msgs: seq<Message>, after: nat): seq<Message> {
    if msgs == [] then [] else (if msgs[0].id > after then [msgs[0]] else []) + Newer(msgs[1..], after)
  }

  predicate Under(m: Message, before: Option<nat>) { before.None? || m.id < before.value }

  function Older(msgs: seq<Message>, before: Option<nat>): seq<Message> {
    if msgs == [] then [] else
    (if Under(msgs[0], before) then [msgs[0]] else []) + Older(msgs[1..], before)
  }

  function First(msgs: seq<Message>, limit: Option<nat>): seq<Message> {
    if limit.None? then msgs else msgs[..Min(limit.value, |msgs|)]
  }

  function Last(msgs: seq<Message>, limit: Option<nat>): seq<Message> {
    if limit.None? then msgs else msgs[|msgs| - Min(limit.value, |msgs|)..]
  }

  function Reverse(msgs: seq<Message>): seq<Message> {
    seq(|msgs|, i requires 0 <= i < |msgs| => msgs[|msgs| - 1 - i])
  }

  /** One request going forward. */
  function PageAfter(channel: seq<Message>, after: nat, take: nat): seq<Message> {
    Reverse(First(Newer(channel, after), Some(take)))
  }

  /** One request going backward. */
  function PageBefore(channel: seq<Message>, before: Option<nat>, take: nat): seq<Message> {
    Reverse(Last(Older(channel, before), Some(take)))
  }

  /** What an export is for. */
  function Exported(channel: seq<Message>, after: Option<nat>, before: Option<nat>, limit: Option<nat>): seq<Message> {
    if after.Some? then First(Older(Newer(channel, after.value), before), limit)
    else Last(Older(channel, before), limit)
  }

  // ---------------------------------------------------------------------------
  // Queries are slices of an ascending channel
  // ---------------------------------------------------------------------------

  /** The number of messages at or below `id`. */
  ghost predicate Splits(msgs: seq<Message>, k: nat, id: nat) {
    && k <= |msgs|
    && (forall i :: 0 <= i < k ==> msgs[i].id <= id)
    && (forall i :: k <= i < |msgs| ==> msgs[i].id > id)
  }

  ghost predicate SplitsBelow(msgs: seq<Message>, k: nat, before: Option<nat>) {
    && k <= |msgs|
    && (forall i :: 0 <= i < k ==> Under(msgs[i], before))
    && (forall i :: k <= i < |msgs| ==> !Under(msgs[i], before))
  }

  lemma {:induction false} NewerIsSuffix(msgs: seq<Message>, after: nat) returns (k: nat)
    requires Ascending(msgs)
    ensures Splits(msgs, k, after) && Newer(msgs, after) == msgs[k..]
  {
    if msgs == [] {
      k := 0;
    } else {
      var j := NewerIsSuffix(msgs[1..], after);
      assert forall i :: 0 < i < |msgs| ==> msgs[i] == msgs[1..][i - 1];
      if msgs[0].id > after {
        k := 0;
        assert [msgs[0]] + msgs[1..] == msgs;
      } else {
        k := j + 1;
      }
    }
  }

  lemma {:induction false} OlderIsPrefix(msgs: seq<Message>, before: Option<nat>) returns (k: nat)
    requires Ascending(msgs)
    ensures SplitsBelow(msgs, k, before) && Older(msgs, before) == msgs[..k]
  {
    if msgs == [] {
      k := 0;
    } else {
      var j := OlderIsPrefix(msgs[1..], before);
      assert forall i :: 0 < i < |msgs| ==> msgs[i] == msgs[1..][i - 1];
      if Under(msgs[0], before) {
        k := j + 1;
        assert [msgs[0]] + msgs[1..][..j] == msgs[..k];
      } else {
        assert forall i :: 0 < i < |msgs| ==> msgs[i].id > msgs[0].id;
        k := 0;
      }
    }
  }

  lemma SplitUnique(msgs: seq<Message>, j: nat, k: nat, id: nat)
    requires Splits(msgs, j, id) && Splits(msgs, k, id)
    ensures j == k
  {
    var m := Min(j, k);
    assert m < |msgs| ==> (m < k <==> msgs[m].id <= id);
  }

  predicate Full(limit: Option<nat>, have: nat) { limit.Some? && have >= limit.value }

  /** A forward page, given how many messages the cursor covers. */
  lemma PageAfterIs(channel: seq<Message>, p: nat, cursor: nat, take: nat)
    requires Ascending(channel) && Splits(channel, p, cursor)
    ensures p + Min(take, |channel| - p) <= |channel|
    ensures PageAfter(channel, cursor, take) == Reverse(channel[p..p + Min(take, |channel| - p)])
  {
    var k := NewerIsSuffix(channel, cursor);
    SplitUnique(channel, k, p, cursor);
    assert channel[p..][..Min(take, |channel| - p)] == channel[p..p + Min(take, |channel| - p)];
  }

  lemma SplitBelowUnique(msgs: seq<Message>, j: nat, k: nat, before: Option<nat>)
    requires SplitsBelow(msgs, j, before) && SplitsBelow(msgs, k, before)
    ensures j == k
  {
    var m := Min(j, k);
    assert m < |msgs| ==> (m < k <==> Under(msgs[m], before));
  }

  lemma LastOfPrefix(channel: seq<Message>, q: nat, hi: nat, limit: Option<nat>)
    requires q <= hi <= |channel| && (limit.Some? ==> hi - q <= limit.value) && (Full(limit, hi - q) || q == 0)
    ensures Last(channel[..hi], limit) == channel[q..hi]
  {
    assert channel[..hi][q..] == channel[q..hi];
  }

  lemma PageBeforeIs(channel: seq<Message>, q: nat, cursor: Option<nat>, take: nat)
    requires Ascending(channel) && SplitsBelow(channel, q, cursor)
    ensures PageBefore(channel, cursor, take) == Reverse(channel[q - Min(take, q)..q])
  {
    var k := OlderIsPrefix(channel, cursor);
    SplitBelowUnique(channel, k, q, cursor);
    LastOfPrefix(channel, q - Min(take, q), q, Some(take));
  }

  lemma SuffixSplits(channel: seq<Message>, lo: nat, hi: nat, before: Option<nat>)
    requires Ascending(channel) && lo <= |channel| && SplitsBelow(channel, hi, before)
    ensures Ascending(channel[lo..]) && SplitsBelow(channel[lo..], Max(lo, hi) - lo, before)
  {
  }

  /** The forward answer as one slice. */
  lemma ForwardIs(channel: seq<Message>, after: nat, before: Option<nat>, lo: nat, hi: nat, limit: Option<nat>)
    requires Ascending(channel) && Splits(channel, lo, after) && SplitsBelow(channel, hi, before)
    ensures Exported(channel, Some(after), before, limit) == First(channel[lo..Max(lo, hi)], limit)
  {
    var k := NewerIsSuffix(channel, after);
    SplitUnique(channel, k, lo, after);
    SuffixSplits(channel, lo, hi, before);
    var j := OlderIsPrefix(channel[lo..], before);
    var n: nat := Max(lo, hi) - lo;
    SplitBelowUnique(channel[lo..], j, n, before);
    assert channel[lo..][..n] == channel[lo..Max(lo, hi)];
  }

  // ---------------------------------------------------------------------------
  // The loop
  // ---------------------------------------------------------------------------

  function Take(limit: Option<nat>, have: nat): nat {
    if limit.None? then PAGE_CAP else Min(Max(limit.value - have, 0), PAGE_CAP)
  }

  /** The rows of a page that lie below the upper bound, and how many of them the limit still admits. */
  function Admitted(n: nat, room: int, limit: Option<nat>, have: nat): int {
    var inRange := Min(n, Max(room, 0));
    if limit.Some? then Min(inRange, limit.value - have) else inRange
  }

  lemma GrowSlice(out0: seq<Message>, channel: seq<Message>, p: nat, n: nat)
    requires p + n < |channel|
    ensures (out0 + channel[p..p + n]) + [channel[p + n]] == out0 + channel[p..p + n + 1]
  {
  }

  lemma PageEntries(channel: seq<Message>, p: nat, page: seq<Message>)
    requires p + |page| <= |channel| && page == Reverse(channel[p..p + |page|])
    ensures forall j :: 0 <= j < |page| ==> page[j] == channel[p + (|page| - 1 - j)]
  {
    assert forall j :: 0 <= j < |page| ==> page[j] == channel[p..p + |page|][|page| - 1 - j];
  }

  /** Append one page, which is newest first, in chronological order. */
  method AppendForward(out0: seq<Message>, page: seq<Message>, after: nat, before: Option<nat>, limit: Option<nat>,
                       ghost channel: seq<Message>, ghost p: nat, ghost hi: nat)
    returns (out: seq<Message>)
    requires SplitsBelow(channel, hi, before) && p + |page| <= |channel|
    requires forall j :: 0 <= j < |page| ==> page[j] == channel[p + (|page| - 1 - j)]
    requires forall i :: p <= i < |channel| ==> channel[i].id > after
    requires !Full(limit, |out0|)
    ensures out == out0 + channel[p..p + Admitted(|page|, hi - p, limit, |out0|)]
  {
    out := out0;
    var i := |page|;
    ghost var done := 0;
    while i > 0
      invariant 0 <= i <= |page| && done == Min(|page| - i, Max(hi - p, 0))
      invariant out == out0 + channel[p..p + done] && !Full(limit, |out|)
    {
      i := i - 1;
      var msg := page[i];
      assert msg == channel[p + (|page| - 1 - i)];
      if !Under(msg, before) {
        continue;
      }
      if msg.id <= after {
        continue;
      }
      GrowSlice(out0, channel, p, done);
      done := done + 1;
      out := out + [msg];
      if Full(limit, |out|) {
        break;
      }
    }
  }

  /** Append one page as it came, newest first. */
  method AppendBackward(out0: seq<Message>, page: seq<Message>, limit: Option<nat>)
    returns (out: seq<Message>)
    requires !Full(limit, |out0|)
    ensures out == out0 + page[..Admitted(|page|, |page|, limit, |out0|)]
    ensures limit.None? || |out0| + |page| <= limit.value ==> out == out0 + page
  {
    out := out0;
    var i := 0;
    while i < |page|
      invariant i <= |page| && out == out0 + page[..i] && !Full(limit, |out|)
    {
      out := out + [page[i]];
      i := i + 1;
      if Full(limit, |out|) {
        break;
      }
    }
  }

  /** Mid-run going forward: everything of the answer up to log position `p` is out. */
  ghost predicate ForwardTo(channel: seq<Message>, lo: nat, p: nat, top: nat, out: seq<Message>, limit: Option<nat>) {
    lo <= p <= top <= |channel| && out == channel[lo..p] && (limit.Some? ==> |out| <= limit.value)
  }

  ghost predicate ForwardDone(channel: seq<Message>, lo: nat, top: nat, out: seq<Message>, limit: Option<nat>) {
    lo <= top <= |channel| && out == First(channel[lo..top], limit)
  }

  /** The last page: it reaches the upper bound, or the end of the channel. */
  lemma ForwardLastPage(channel: seq<Message>, lo: nat, p: nat, hi: nat, n: nat, have: seq<Message>, out: seq<Message>,
                        limit: Option<nat>)
    requires ForwardTo(channel, lo, p, Max(lo, hi), have, limit) && !Full(limit, |have|)
    requires p + n <= |channel| && (p + n >= Max(lo, hi))
    requires 0 <= Admitted(n, hi - p, limit, |have|) <= n
    requires out == have + channel[p..p + Admitted(n, hi - p, limit, |have|)]
    ensures ForwardDone(channel, lo, Max(lo, hi), out, limit)
  {
    var k := Admitted(n, hi - p, limit, |have|);
    assert out == channel[lo..p + k];
    var all := channel[lo..Max(lo, hi)];
    assert First(all, limit) == all[..|out|];
  }

  /** A page that stays below the upper bound. */
  lemma ForwardMidPage(channel: seq<Message>, lo: nat, p: nat, hi: nat, n: nat, have: seq<Message>, out: seq<Message>,
                       limit: Option<nat>)
    requires ForwardTo(channel, lo, p, Max(lo, hi), have, limit) && !Full(limit, |have|)
    requires n <= Take(limit, |have|) && p + n <= hi
    requires p + n <= |channel| && 0 <= Admitted(n, hi - p, limit, |have|) <= n
    requires out == have + channel[p..p + Admitted(n, hi - p, limit, |have|)]
    ensures ForwardTo(channel, lo, p + n, Max(lo, hi), out, limit)
  {
    assert out == channel[lo..p + n];
  }

  /** What a page leaves behind, by whether its newest message is under the bound and whether it is full. */
  lemma ForwardOutcome(channel: seq<Message>, lo: nat, p: nat, hi: nat, n: nat, have: seq<Message>, out: seq<Message>,
                       before: Option<nat>, limit: Option<nat>)
    requires ForwardTo(channel, lo, p, Max(lo, hi), have, limit) && !Full(limit, |have|)
    requires SplitsBelow(channel, hi, before) && 0 < n == Min(Take(limit, |have|), |channel| - p)
    requires 0 <= Admitted(n, hi - p, limit, |have|) <= n
    requires out == have + channel[p..p + Admitted(n, hi - p, limit, |have|)]
    ensures if Under(channel[p + n - 1], before) && n == Take(limit, |have|)
            then ForwardTo(channel, lo, p + n, Max(lo, hi), out, limit)
            else ForwardDone(channel, lo, Max(lo, hi), out, limit)
  {
    if Under(channel[p + n - 1], before) && n == Take(limit, |have|) {
      ForwardMidPage(channel, lo, p, hi, n, have, out, limit);
    } else {
      ForwardLastPage(channel, lo, p, hi, n, have, out, limit);
    }
  }

  lemma ForwardStops(channel: seq<Message>, lo: nat, p: nat, top: nat, out: seq<Message>, limit: Option<nat>)
    requires ForwardTo(channel, lo, p, top, out, limit) && (Full(limit, |out|) || p == top)
    ensures ForwardDone(channel, lo, top, out, limit)
  {
    assert channel[lo..top][..|out|] == out;
  }

  lemma CursorMoves(channel: seq<Message>, p: nat, n: nat, cursor: nat)
    requires Ascending(channel) && Splits(channel, p, cursor) && 0 < n <= |channel| - p
    ensures Splits(channel, p + n, channel[p + n - 1].id) && channel[p + n - 1].id > cursor
  {
  }

  /** One request, and where it leaves the cursor. */
  method RequestAfter(channel: seq<Message>, cursor: nat, take: nat, ghost p: nat) returns (page: seq<Message>)
    requires Ascending(channel) && Splits(channel, p, cursor)
    ensures page == PageAfter(channel, cursor, take)
    ensures |page| == Min(take, |channel| - p)
    ensures forall j :: 0 <= j < |page| ==> page[j] == channel[p + (|page| - 1 - j)]
    ensures page != [] ==> Splits(channel, p + |page|, page[0].id) && page[0].id > cursor
    ensures page != [] ==> page[0] == channel[p + |page| - 1]
  {
    page := PageAfter(channel, cursor, take);
    PageAfterIs(channel, p, cursor, take);
    PageEntries(channel, p, page);
    if page != [] {
      CursorMoves(channel, p, |page|, cursor);
    }
  }

  /** One request, and where it leaves the cursor. */
  method RequestBefore(channel: seq<Message>, cursor: Option<nat>, take: nat, ghost q: nat) returns (page: seq<Message>)
    requires Ascending(channel) && SplitsBelow(channel, q, cursor)
    ensures page == PageBefore(channel, cursor, take)
    ensures |page| == Min(take, q) && page == Reverse(channel[q - |page|..q])
    ensures page != [] ==> SplitsBelow(channel, q - |page|, Some(page[|page| - 1].id))
  {
    page := PageBefore(channel, cursor, take);
    PageBeforeIs(channel, q, cursor, take);
    if page != [] {
      assert page[|page| - 1] == channel[q - |page|..q][0];
    }
  }

  /** One turn of the loop going forward. */
  method ForwardTurn(channel: seq<Message>, after: nat, before: Option<nat>, limit: Option<nat>, have: seq<Message>,
                     cursor: nat, ghost lo: nat, ghost hi: nat, ghost p: nat)
    returns (out: seq<Message>, next: nat, done: bool, ghost q: nat)
    requires Ascending(channel) && Splits(channel, p, cursor) && cursor >= after && SplitsBelow(channel, hi, before)
    requires ForwardTo(channel, lo, p, Max(lo, hi), have, limit)
    ensures done ==> ForwardDone(channel, lo, Max(lo, hi), out, limit)
    ensures !done ==> p < q && ForwardTo(channel, lo, q, Max(lo, hi), out, limit)
    ensures !done ==> Splits(channel, q, next) && next >= after
  {
    out, next, done, q := have, cursor, true, p;
    if Full(limit, |have|) {
      ForwardStops(channel, lo, p, Max(lo, hi), have, limit);
      return;
    }
    var take := Take(limit, |have|);
    var page := RequestAfter(channel, cursor, take, p);
    if page == [] {
      ForwardStops(channel, lo, p, Max(lo, hi), have, limit);
      return;
    }
    var newest := page[0].id;
    out := AppendForward(have, page, after, before, limit, channel, p, hi);
    ForwardOutcome(channel, lo, p, hi, |page|, have, out, before, limit);
    if before.Some? && newest >= before.value {
      return;
    }
    next := newest;
    if |page| < take {
      return;
    }
    done, q := false, p + |page|;
  }

  method FetchForward(channel: seq<Message>, after: nat, before: Option<nat>, limit: Option<nat>)
    returns (out: seq<Message>)
    requires Ascending(channel)
    ensures out == Exported(channel, Some(after), before, limit)
  {
    ghost var lo := NewerIsSuffix(channel, after);
    ghost var hi := OlderIsPrefix(channel, before);
    ghost var p: nat := lo;
    ForwardIs(channel, after, before, lo, hi, limit);
    var cursor: nat := after;
    out := [];
    var done := false;
    while !done
      invariant if done then ForwardDone(channel, lo, Max(lo, hi), out, limit)
                else ForwardTo(channel, lo, p, Max(lo, hi), out, limit) && Splits(channel, p, cursor) && cursor >= after
      decreases !done, |channel| - p
    {
      out, cursor, done, p := ForwardTurn(channel, after, before, limit, out, cursor, lo, hi, p);
    }
  }

  /** Mid-run going backward: `out` is the messages from position `q` to the upper bound, newest first. */
  ghost predicate BackwardTo(channel: seq<Message>, q: nat, hi: nat, out: seq<Message>, limit: Option<nat>) {
    q <= hi <= |channel| && out == Reverse(channel[q..hi]) && (limit.Some? ==> |out| <= limit.value)
  }

  lemma {:induction false} ReverseConcat(a: seq<Message>, b: seq<Message>)
    ensures Reverse(a + b) == Reverse(b) + Reverse(a)
  {
    forall i | 0 <= i < |a| + |b| ensures Reverse(a + b)[i] == (Reverse(b) + Reverse(a))[i] {
    }
  }

  lemma TakeFits(limit: Option<nat>, have: nat, n: nat)
    requires n <= Take(limit, have) && !Full(limit, have)
    ensures limit.None? || have + n <= limit.value
  {
  }

  lemma BackwardPage(channel: seq<Message>, q: nat, hi: nat, n: nat, have: seq<Message>, out: seq<Message>,
                     limit: Option<nat>)
    requires BackwardTo(channel, q, hi, have, limit) && n <= q && (limit.Some? ==> |have| + n <= limit.value)
    requires out == have + Reverse(channel[q - n..q])
    ensures BackwardTo(channel, q - n, hi, out, limit)
  {
    assert channel[q - n..q] + channel[q..hi] == channel[q - n..hi];
    ReverseConcat(channel[q - n..q], channel[q..hi]);
  }

  lemma {:induction false} ReverseTwice(msgs: seq<Message>)
    ensures Reverse(Reverse(msgs)) == msgs
  {
    forall i | 0 <= i < |msgs| ensures Reverse(Reverse(msgs))[i] == msgs[i] {
      assert Reverse(msgs)[|msgs| - 1 - i] == msgs[i];
    }
  }

  lemma BackwardStops(channel: seq<Message>, q: nat, hi: nat, out: seq<Message>, limit: Option<nat>)
    requires BackwardTo(channel, q, hi, out, limit) && (Full(limit, |out|) || q == 0)
    ensures Reverse(out) == Last(channel[..hi], limit)
  {
    ReverseTwice(channel[q..hi]);
    LastOfPrefix(channel, q, hi, limit);
  }

  /** One turn of the loop going backward. */
  method BackwardTurn(channel: seq<Message>, limit: Option<nat>, have: seq<Message>, cursor: Option<nat>,
                      ghost hi: nat, ghost q: nat)
    returns (out: seq<Message>, next: Option<nat>, done: bool, ghost q': nat)
    requires Ascending(channel) && SplitsBelow(channel, q, cursor) && BackwardTo(channel, q, hi, have, limit)
    ensures BackwardTo(channel, q', hi, out, limit) && SplitsBelow(channel, q', next)
    ensures if done then Full(limit, |out|) || q' == 0 else q' < q
  {
    out, next, done, q' := have, cursor, true, q;
    if Full(limit, |have|) {
      return;
    }
    var take := Take(limit, |have|);
    var page := RequestBefore(channel, cursor, take, q);
    if page == [] {
      return;
    }
    TakeFits(limit, |have|, |page|);
    out := AppendBackward(have, page, limit);
    BackwardPage(channel, q, hi, |page|, have, out, limit);
    next := Some(page[|page| - 1].id);
    q' := q - |page|;
    done := |page| < take;
  }

  method FetchBackward(channel: seq<Message>, before: Option<nat>, limit: Option<nat>)
    returns (out: seq<Message>)
    requires Ascending(channel)
    ensures out == Exported(channel, None, before, limit)
  {
    ghost var hi := OlderIsPrefix(channel, before);
    ghost var q: nat := hi;
    var cursor := before;
    out := [];
    var done := false;
    while !done
      invariant BackwardTo(channel, q, hi, out, limit) && SplitsBelow(channel, q, cursor)
      invariant done ==> Full(limit, |out|) || q == 0
      decreases !done, q
    {
      out, cursor, done, q := BackwardTurn(channel, limit, out, cursor, hi, q);
    }
    BackwardStops(channel, q, hi, out, limit);
    out := First(Reverse(out), limit);
  }

  /**
   Ascending, the first `limit` messages between the bounds when there is a lower bound,
   otherwise the last `limit` messages below the upper one, for every page alignment.
   */
  method FetchMessages(channel: seq<Message>, after: Option<nat>, before: Option<nat>, limit: Option<nat>)
    returns (out: seq<Message>)
    requires Ascending(channel)
    ensures out == Exported(channel, after, before, limit)
  {
    match after
    case Some(a) => out := FetchForward(channel, a, before, limit);
    case None => out := FetchBackward(channel, before, limit);
  }

  predicate InRange(m: Message, after: Option<nat>, before: Option<nat>) {
    (after.Some? ==> m.id > after.value) && (before.Some? ==> m.id < before.value)
  }

  /** The messages of a range lie together, from position `lo` up to `hi`. */
  ghost predicate RangeIs(channel: seq<Message>, after: Option<nat>, before: Option<nat>, lo: nat, hi: nat) {
    lo <= hi <= |channel| && forall i :: 0 <= i < |channel| ==> (InRange(channel[i], after, before) <==> lo <= i < hi)
  }

  /** One stretch of the channel, cut to a limit from its end that the lower bound leaves open. */
  function Cut(channel: seq<Message>, lo: nat, hi: nat, fromStart: bool, limit: Option<nat>): seq<Message>
    requires lo <= hi <= |channel|
  {
    if limit.None? then channel[lo..hi]
    else if fromStart then channel[lo..Min(hi, lo + limit.value)]
    else channel[Max(lo, hi - limit.value)..hi]
  }

  lemma FirstIsCut(channel: seq<Message>, lo: nat, hi: nat, limit: Option<nat>)
    requires lo <= hi <= |channel|
    ensures First(channel[lo..hi], limit) == Cut(channel, lo, hi, true, limit)
  {
  }

  lemma LastIsCut(channel: seq<Message>, hi: nat, limit: Option<nat>)
    requires hi <= |channel|
    ensures Last(channel[..hi], limit) == Cut(channel, 0, hi, false, limit)
  {
  }

  lemma BothSplit(channel: seq<Message>, lo: nat, hi: nat, after: nat, before: Option<nat>)
    requires Splits(channel, lo, after) && SplitsBelow(channel, hi, before)
    ensures RangeIs(channel, Some(after), before, lo, Max(lo, hi))
  {
  }

  lemma OneSplit(channel: seq<Message>, hi: nat, before: Option<nat>)
    requires SplitsBelow(channel, hi, before)
    ensures RangeIs(channel, None, before, 0, hi)
  {
  }

  /**
   An export holds the messages strictly between the bounds, all of them without a limit; with
   one, the oldest if there is a lower bound and the newest if there is none.
   */
  lemma ExportedIsRange(channel: seq<Message>, after: Option<nat>, before: Option<nat>, limit: Option<nat>)
    returns (lo: nat, hi: nat)
    requires Ascending(channel)
    ensures RangeIs(channel, after, before, lo, hi)
    ensures Exported(channel, after, before, limit) == Cut(channel, lo, hi, after.Some?, limit)
  {
    lo := 0;
    hi := OlderIsPrefix(channel, before);
    if after.Some? {
      lo := NewerIsSuffix(channel, after.value);
      ForwardIs(channel, after.value, before, lo, hi, limit);
      BothSplit(channel, lo, hi, after.value, before);
      hi := Max(lo, hi);
      FirstIsCut(channel, lo, hi, limit);
    } else {
      OneSplit(channel, hi, before);
      LastIsCut(channel, hi, limit);
    }
  }
}
