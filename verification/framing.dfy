/**
 Capped line framing. The reader sees the stream in whatever chunks the socket
 delivers; the specification sees one flat byte string.
 */
module LineFraming {
  import opened Basics

  const NEWLINE: Byte := 10
  const CARRIAGE_RETURN: Byte := 13
  const MAX_LINE_BYTES: nat := 65536

  ghost predicate NonEmpty(chunks: seq<seq<Byte>>) { forall i :: 0 <= i < |chunks| ==> chunks[i] != [] }

  /** `k` is where the first newline of `s` is, or the length of `s` when there is none. */
  ghost predicate IsFirstNewline(s: seq<Byte>, k: nat) {
    && k <= |s|
    && (forall i :: 0 <= i < k ==> s[i] != NEWLINE)
    && (k < |s| ==> s[k] == NEWLINE)
  }

  ghost predicate NoNewline(s: seq<Byte>) { forall i :: 0 <= i < |s| ==> s[i] != NEWLINE }

  lemma {:induction false} FirstNewlineExists(s: seq<Byte>)
    ensures exists k: nat :: IsFirstNewline(s, k)
  {
    if s == [] || s[0] == NEWLINE {
      assert IsFirstNewline(s, 0);
    } else {
      FirstNewlineExists(s[1..]);
      var k: nat :| IsFirstNewline(s[1..], k);
      assert forall i :: 0 < i < |s| ==> s[i] == s[1..][i - 1];
      assert IsFirstNewline(s, k + 1);
    }
  }

  /** Position of the first newline, or the length when there is none. */
  ghost function NewlineAt(s: seq<Byte>): (k: nat)
    ensures IsFirstNewline(s, k)
  {
    FirstNewlineExists(s);
    var k: nat :| IsFirstNewline(s, k);
    k
  }

  ghost function FirstLine(s: seq<Byte>): seq<Byte> { s[..NewlineAt(s)] }

  predicate EndsInCr(line: seq<Byte>) { line != [] && line[|line| - 1] == CARRIAGE_RETURN }

  function StripCr(line: seq<Byte>): seq<Byte> { if EndsInCr(line) then line[..|line| - 1] else line }

  /** What one read returns: a terminated line loses one trailing CR, a final unterminated one is kept whole. */
  ghost function LineOf(s: seq<Byte>): Option<seq<Byte>> {
    if s == [] then None
    else if NewlineAt(s) < |s| then Some(StripCr(FirstLine(s)))
    else Some(s)
  }

  ghost function RestOf(s: seq<Byte>): seq<Byte> { if NewlineAt(s) < |s| then s[NewlineAt(s) + 1..] else [] }

  /** The newline split of a whole stream. */
  ghost function Lines(s: seq<Byte>): seq<seq<Byte>>
    decreases |s|
  {
    if s == [] then [] else [LineOf(s).value] + Lines(RestOf(s))
  }

  ghost predicate LinesFit(s: seq<Byte>)
    decreases |s|
  {
    s == [] || (|FirstLine(s)| <= MAX_LINE_BYTES && LinesFit(RestOf(s)))
  }

  /** Some newline-free chunk takes the pending buffer, `held` bytes so far, past the cap. */
  ghost predicate Overruns(chunks: seq<seq<Byte>>, held: nat)
    decreases |chunks|
  {
    && chunks != []
    && NewlineAt(chunks[0]) == |chunks[0]|
    && (held + |chunks[0]| > MAX_LINE_BYTES || Overruns(chunks[1..], held + |chunks[0]|))
  }

  lemma NewlineUnique(s: seq<Byte>, k: nat)
    requires IsFirstNewline(s, k)
    ensures NewlineAt(s) == k
  {
    assert IsFirstNewline(s, NewlineAt(s));
  }

  /** The first newline of `a + b`. */
  lemma NewlineInConcat(a: seq<Byte>, b: seq<Byte>)
    ensures NewlineAt(a + b) == if NewlineAt(a) < |a| then NewlineAt(a) else |a| + NewlineAt(b)
  {
    NewlineUnique(a + b, if NewlineAt(a) < |a| then NewlineAt(a) else |a| + NewlineAt(b));
  }

  lemma Regroup(a: seq<Byte>, b: seq<Byte>, c: seq<Byte>)
    ensures a + (b + c) == (a + b) + c
    ensures (b + c)[|b|..] == c
  {
  }

  lemma CutInside(a: seq<Byte>, b: seq<Byte>, c: seq<Byte>, k: nat)
    requires k < |b|
    ensures (a + (b + c))[..|a| + k] == a + b[..k]
    ensures (a + (b + c))[|a| + k + 1..] == (b + c)[k + 1..]
  {
  }

  /** A newline-free pending buffer followed by a chunk that holds the newline. */
  lemma Terminated(buf: seq<Byte>, chunk: seq<Byte>, tail: seq<Byte>)
    requires NoNewline(buf) && NewlineAt(chunk) < |chunk|
    ensures LineOf(buf + (chunk + tail)) == Some(StripCr(buf + chunk[..NewlineAt(chunk)]))
    ensures RestOf(buf + (chunk + tail)) == (chunk + tail)[NewlineAt(chunk) + 1..]
  {
    NoNewlineAt(buf);
    NewlineInConcat(chunk, tail);
    NewlineInConcat(buf, chunk + tail);
    CutInside(buf, chunk, tail, NewlineAt(chunk));
  }

  lemma NoNewlineAt(s: seq<Byte>)
    ensures NoNewline(s) <==> NewlineAt(s) == |s|
  {
  }

  /** The same with a chunk that holds none. */
  lemma Pending(buf: seq<Byte>, chunk: seq<Byte>, tail: seq<Byte>)
    requires NoNewline(buf) && NewlineAt(chunk) == |chunk|
    ensures NoNewline(buf + chunk)
    ensures buf + (chunk + tail) == (buf + chunk) + tail && (chunk + tail)[|chunk|..] == tail
  {
    NoNewlineAt(chunk);
    Regroup(buf, chunk, tail);
  }

  lemma Unterminated(buf: seq<Byte>)
    requires NoNewline(buf)
    ensures NewlineAt(buf) == |buf| && RestOf(buf) == []
    ensures LineOf(buf) == if buf == [] then None else Some(buf)
  {
  }

  lemma LinesAdvance(lines: seq<seq<Byte>>, s: seq<Byte>)
    requires s != []
    ensures lines + Lines(s) == (lines + [LineOf(s).value]) + Lines(RestOf(s))
  {
    LinesStep(s);
  }

  lemma LinesStep(s: seq<Byte>)
    requires s != []
    ensures Lines(s) == [LineOf(s).value] + Lines(RestOf(s)) && |RestOf(s)| < |s|
    ensures LinesFit(s) ==> |FirstLine(s)| <= MAX_LINE_BYTES && LinesFit(RestOf(s))
  {
  }

  method FindNewline(chunk: seq<Byte>) returns (pos: nat)
    ensures pos == NewlineAt(chunk)
  {
    pos := 0;
    while pos < |chunk| && chunk[pos] != NEWLINE
      invariant pos <= |chunk| && forall i :: 0 <= i < pos ==> chunk[i] != NEWLINE
    {
      pos := pos + 1;
    }
    NewlineUnique(chunk, pos);
  }

  class LineReader {
    /** What the socket will still deliver; the head is the unread part of the current buffer. */
    var chunks: seq<seq<Byte>>

    ghost predicate Valid()
      reads this
    {
      NonEmpty(chunks)
    }

    function Rest(): seq<Byte>
      reads this
    {
      Flatten(chunks)
    }

    constructor (input: seq<seq<Byte>>)
      requires NonEmpty(input)
      ensures Valid() && chunks == input
    {
      chunks := input;
    }

    /** Consume the first `n` bytes of the current buffer. */
    method Consume(n: nat)
      requires Valid() && chunks != [] && n <= |chunks[0]|
      modifies this
      ensures Valid()
      ensures chunks == if n == old(|chunks[0]|) then old(chunks)[1..] else [old(chunks)[0][n..]] + old(chunks)[1..]
      ensures Rest() == old(Rest())[n..]
    {
      ghost var tail := chunks[1..];
      if n == |chunks[0]| {
        chunks := chunks[1..];
      } else {
        chunks := [chunks[0][n..]] + chunks[1..];
        assert chunks[1..] == tail;
      }
    }

    /** `Err` is the InvalidData error; the pending buffer never holds more than the cap. */
    method ReadLine() returns (r: Result<Option<seq<Byte>>, string>)
      requires Valid()
      modifies this
      ensures Valid()
      ensures r.Err? <==> Overruns(old(chunks), 0)
      ensures r.Ok? ==> r.value == LineOf(old(Rest())) && Rest() == RestOf(old(Rest()))
      ensures r.Ok? && r.value.Some? && NewlineAt(old(Rest())) == |old(Rest())| ==>
                |r.value.value| <= MAX_LINE_BYTES
    {
      ghost var all, chunks0 := Rest(), chunks;
      var buf: seq<Byte> := [];
      while chunks != []
        invariant Valid()
        invariant all == buf + Rest() && NoNewline(buf)
        invariant |buf| <= MAX_LINE_BYTES
        invariant Overruns(chunks0, 0) <==> Overruns(chunks, |buf|)
        invariant buf == [] ==> chunks == chunks0
        decreases |chunks|
      {
        var chunk := chunks[0];
        var pos := FindNewline(chunk);
        ghost var tail := Flatten(chunks[1..]);
        if pos < |chunk| {
          Terminated(buf, chunk, tail);
          buf := buf + chunk[..pos];
          Consume(pos + 1);
          r := Ok(Some(StripCr(buf)));
          return;
        }
        Pending(buf, chunk, tail);
        if |buf| + |chunk| > MAX_LINE_BYTES {
          Consume(|chunk|);
          return Err("line exceeds the cap");
        }
        buf := buf + chunk;
        Consume(|chunk|);
      }
      Unterminated(buf);
      assert all == buf;
      r := Ok(if buf == [] then None else Some(buf));
    }

    /** Read until the stream ends or a line is refused. */
    method ReadAll() returns (lines: seq<seq<Byte>>, refused: bool)
      requires Valid()
      modifies this
      ensures Valid()
      ensures LinesFit(old(Rest())) ==> !refused && lines == Lines(old(Rest()))
      ensures !refused ==> lines == Lines(old(Rest())) && Rest() == []
    {
      lines, refused := [], false;
      ghost var all := Rest();
      while true
        invariant Valid() && !refused
        invariant Lines(all) == lines + Lines(Rest())
        invariant LinesFit(all) ==> LinesFit(Rest())
        decreases |Rest()|
      {
        ghost var s := Rest();
        if s != [] {
          LinesStep(s);
          LinesAdvance(lines, s);
        }
        FittingLineIsRead(chunks);
        var next := ReadLine();
        assert next.Ok? ==> Rest() == RestOf(s) && next.value == LineOf(s);
        match next
        case Err(_) =>
          refused := true;
          return;
        case Ok(line) =>
          if line.None? {
            return;
          }
          lines := lines + [line.value];
      }
    }
  }

  /** A line within the cap is never refused, however the stream is chunked. */
  lemma FittingLineIsRead(chunks: seq<seq<Byte>>)
    ensures |FirstLine(Flatten(chunks))| <= MAX_LINE_BYTES ==> !Overruns(chunks, 0)
  {
    FittingLineIsReadFrom(chunks, 0);
  }

  lemma {:induction false} FittingLineIsReadFrom(chunks: seq<seq<Byte>>, held: nat)
    ensures held + |FirstLine(Flatten(chunks))| <= MAX_LINE_BYTES ==> !Overruns(chunks, held)
    decreases |chunks|
  {
    if chunks != [] {
      NewlineInConcat(chunks[0], Flatten(chunks[1..]));
      FittingLineIsReadFrom(chunks[1..], held + |chunks[0]|);
    }
  }

  /** The cap is independent of chunking exactly for lines of at most `MAX_LINE_BYTES`. */
  lemma CapIsExact(s: seq<Byte>)
    ensures (forall chunks :: NonEmpty(chunks) && Flatten(chunks) == s ==> !Overruns(chunks, 0))
            <==> |FirstLine(s)| <= MAX_LINE_BYTES
  {
    if |FirstLine(s)| <= MAX_LINE_BYTES {
      forall chunks | NonEmpty(chunks) && Flatten(chunks) == s ensures !Overruns(chunks, 0) {
        FittingLineIsRead(chunks);
      }
    } else {
      var k := NewlineAt(s);
      var tail: seq<seq<Byte>> := if k < |s| then [s[k..]] else [];
      var chunks: seq<seq<Byte>> := [s[..k]] + tail;
      assert chunks[1..] == tail;
      assert Flatten(tail) == s[k..];
      assert Flatten(chunks) == s[..k] + s[k..] == s;
      assert NonEmpty(chunks) && Overruns(chunks, 0);
    }
  }

  ghost predicate ChunksWithin(chunks: seq<seq<Byte>>, b: nat) {
    forall i :: 0 <= i < |chunks| ==> 0 < |chunks[i]| <= b
  }

  /** How long a first line may be and still be accepted from reads of at most `b` bytes. */
  ghost function LongestAccepted(s: seq<Byte>, b: nat): int {
    if NewlineAt(s) < |s| then MAX_LINE_BYTES + b - 1 else MAX_LINE_BYTES
  }

  lemma {:induction false} AcceptedIsShort(chunks: seq<seq<Byte>>, held: nat, b: nat)
    requires ChunksWithin(chunks, b) && b >= 1 && !Overruns(chunks, held) && held <= MAX_LINE_BYTES
    ensures held + |FirstLine(Flatten(chunks))| <= LongestAccepted(Flatten(chunks), b)
    decreases |chunks|
  {
    if chunks != [] {
      NewlineInConcat(chunks[0], Flatten(chunks[1..]));
      assert forall i :: 0 <= i < |chunks| - 1 ==> chunks[1..][i] == chunks[i + 1];
      if NewlineAt(chunks[0]) == |chunks[0]| {
        AcceptedIsShort(chunks[1..], held + |chunks[0]|, b);
      }
    }
  }

  function Singles(s: seq<Byte>): seq<seq<Byte>> { seq(|s|, i requires 0 <= i < |s| => [s[i]]) }

  lemma SinglesStep(s: seq<Byte>, rest: seq<seq<Byte>>)
    requires s != []
    ensures (Singles(s) + rest)[0] == [s[0]] && (Singles(s) + rest)[1..] == Singles(s[1..]) + rest
  {
  }

  lemma {:induction false} FlattenSingles(s: seq<Byte>, rest: seq<seq<Byte>>)
    ensures Flatten(Singles(s) + rest) == s + Flatten(rest)
    decreases |s|
  {
    if s == [] {
      assert Singles(s) + rest == rest;
    } else {
      SinglesStep(s, rest);
      FlattenSingles(s[1..], rest);
      assert [s[0]] + (s[1..] + Flatten(rest)) == s + Flatten(rest);
    }
  }

  lemma {:induction false} SinglesPass(s: seq<Byte>, rest: seq<seq<Byte>>, held: nat)
    requires held + |s| <= MAX_LINE_BYTES && !Overruns(rest, held + |s|)
    ensures !Overruns(Singles(s) + rest, held)
    decreases |s|
  {
    if s == [] {
      assert Singles(s) + rest == rest;
    } else {
      SinglesStep(s, rest);
      SinglesPass(s[1..], rest, held + 1);
    }
  }

  lemma SinglesWithin(s: seq<Byte>, rest: seq<seq<Byte>>, b: nat)
    requires b >= 1 && ChunksWithin(rest, b)
    ensures ChunksWithin(Singles(s) + rest, b)
  {
  }

  lemma AllSingles(s: seq<Byte>, b: nat)
    requires b >= 1
    ensures Flatten(Singles(s)) == s && ChunksWithin(Singles(s), b)
  {
    assert Singles(s) + [] == Singles(s);
    FlattenSingles(s, []);
  }

  /** Byte by byte up to `k`, then the newline in one chunk with what comes before it. */
  function Cut(s: seq<Byte>, k: nat, n: nat): seq<seq<Byte>>
    requires k <= n < |s|
  {
    Singles(s[..k]) + ([s[k..n + 1]] + Singles(s[n + 1..]))
  }

  lemma CutFlattens(s: seq<Byte>, k: nat, n: nat)
    requires k <= n < |s|
    ensures Flatten(Cut(s, k, n)) == s
  {
    var last, tail := s[k..n + 1], Singles(s[n + 1..]);
    FlattenSingles(s[..k], [last] + tail);
    AllSingles(s[n + 1..], 1);
    assert ([last] + tail)[1..] == tail;
    assert s == s[..k] + (last + s[n + 1..]);
  }

  lemma CutPasses(s: seq<Byte>, k: nat)
    requires NewlineAt(s) < |s| && k <= NewlineAt(s) && k <= MAX_LINE_BYTES
    ensures !Overruns(Cut(s, k, NewlineAt(s)), 0)
  {
    var n := NewlineAt(s);
    var rest := [s[k..n + 1]] + Singles(s[n + 1..]);
    NewlineUnique(s[k..n + 1], n - k);
    assert rest[0] == s[k..n + 1];
    SinglesPass(s[..k], rest, 0);
  }

  lemma AcceptingChunks(s: seq<Byte>, b: nat) returns (chunks: seq<seq<Byte>>)
    requires b >= 1 && |FirstLine(s)| <= LongestAccepted(s, b)
    ensures ChunksWithin(chunks, b) && Flatten(chunks) == s && !Overruns(chunks, 0)
  {
    var n := NewlineAt(s);
    if n == |s| {
      chunks := Singles(s);
      assert Singles(s) + [] == Singles(s);
      AllSingles(s, b);
      SinglesPass(s, [], 0);
    } else {
      var k: nat := Max(0, n - (b - 1));
      chunks := Cut(s, k, n);
      CutFlattens(s, k, n);
      CutPasses(s, k);
      AllSingles(s[n + 1..], b);
      SinglesWithin(s[..k], [s[k..n + 1]] + Singles(s[n + 1..]), b);
    }
  }

  /**
   How far over the cap: with reads of at most `b` bytes some chunking lets a first line pass
   if and only if it is at most `b - 1` bytes over, or not over where no newline ends it.
   */
  lemma OverCapIsExact(s: seq<Byte>, b: nat)
    requires b >= 1
    ensures (exists chunks :: ChunksWithin(chunks, b) && Flatten(chunks) == s && !Overruns(chunks, 0))
            <==> |FirstLine(s)| <= LongestAccepted(s, b)
  {
    if |FirstLine(s)| <= LongestAccepted(s, b) {
      var chunks := AcceptingChunks(s, b);
    }
    forall chunks | ChunksWithin(chunks, b) && Flatten(chunks) == s && !Overruns(chunks, 0)
      ensures |FirstLine(s)| <= LongestAccepted(s, b)
    {
      AcceptedIsShort(chunks, 0, b);
    }
  }

  // ---------------------------------------------------------------------------
  // Encoded frames come back
  // ---------------------------------------------------------------------------

  function EncodeLine(body: seq<Byte>): seq<Byte> { body + [NEWLINE] }

  function EncodeAll(bodies: seq<seq<Byte>>): seq<Byte> {
    if bodies == [] then [] else EncodeLine(bodies[0]) + EncodeAll(bodies[1..])
  }

  lemma EncodedHead(body: seq<Byte>, rest: seq<Byte>)
    requires NoNewline(body)
    ensures var s := EncodeLine(body) + rest;
            FirstLine(s) == body && LineOf(s) == Some(StripCr(body)) && RestOf(s) == rest
  {
    var s := EncodeLine(body) + rest;
    assert s[..|body|] == body && s[|body|] == NEWLINE;
    assert s[|body| + 1..] == rest;
    NewlineUnique(s, |body|);
  }

  ghost predicate NoneEndsInCr(bodies: seq<seq<Byte>>) { forall i :: 0 <= i < |bodies| ==> !EndsInCr(bodies[i]) }

  ghost predicate AllFit(bodies: seq<seq<Byte>>) { forall i :: 0 <= i < |bodies| ==> |bodies[i]| <= MAX_LINE_BYTES }

  lemma ForHeadAndTail(bodies: seq<seq<Byte>>)
    requires bodies != []
    ensures NoneEndsInCr(bodies) <==> !EndsInCr(bodies[0]) && NoneEndsInCr(bodies[1..])
    ensures AllFit(bodies) <==> |bodies[0]| <= MAX_LINE_BYTES && AllFit(bodies[1..])
  {
    assert bodies == [bodies[0]] + bodies[1..];
  }

  lemma HeadAndTailEqual(x: seq<Byte>, xs: seq<seq<Byte>>, ys: seq<seq<Byte>>)
    requires ys != []
    ensures [x] + xs == ys <==> x == ys[0] && xs == ys[1..]
  {
    assert ys == [ys[0]] + ys[1..];
    assert ([x] + xs)[1..] == xs;
  }

  /** Newline-free frames come back unchanged exactly when none ends in a carriage return. */
  lemma {:induction false} FramesRoundTrip(bodies: seq<seq<Byte>>)
    requires forall i :: 0 <= i < |bodies| ==> NoNewline(bodies[i])
    ensures Lines(EncodeAll(bodies)) == bodies <==> NoneEndsInCr(bodies)
    ensures LinesFit(EncodeAll(bodies)) <==> AllFit(bodies)
    decreases |bodies|
  {
    if bodies != [] {
      var rest := bodies[1..];
      FramesRoundTrip(rest);
      ForHeadAndTail(bodies);
      EncodedHead(bodies[0], EncodeAll(rest));
      var s := EncodeLine(bodies[0]) + EncodeAll(rest);
      LinesStep(s);
      HeadAndTailEqual(StripCr(bodies[0]), Lines(EncodeAll(rest)), bodies);
    }
  }

  // ---------------------------------------------------------------------------
  // Either line ending
  // ---------------------------------------------------------------------------

  /** A line as a sender may end it: with LF, or with CR LF. */
  datatype Sent = Sent(body: seq<Byte>, crlf: bool)

  function Ended(l: Sent): seq<Byte> { l.body + if l.crlf then [13, 10] else [10] }

  function Wire(lines: seq<Sent>, tail: seq<Byte>): seq<Byte> {
    if lines == [] then tail else Ended(lines[0]) + Wire(lines[1..], tail)
  }

  /** Only a body that itself ends in CR before a bare LF loses a byte: that one. */
  function Seen(l: Sent): seq<Byte> {
    if !l.crlf && l.body != [] && l.body[|l.body| - 1] == 13 then l.body[..|l.body| - 1] else l.body
  }

  function AllSeen(lines: seq<Sent>): seq<seq<Byte>> {
    if lines == [] then [] else [Seen(lines[0])] + AllSeen(lines[1..])
  }

  ghost predicate LineFree(lines: seq<Sent>) { forall i :: 0 <= i < |lines| ==> NoNewline(lines[i].body) }

  lemma SentHead(l: Sent, rest: seq<Byte>)
    requires NoNewline(l.body)
    ensures var s := Ended(l) + rest;
            && LineOf(s) == Some(Seen(l)) && RestOf(s) == rest
            && |FirstLine(s)| == |l.body| + if l.crlf then 1 else 0
  {
    var s := Ended(l) + rest;
    var line := l.body + if l.crlf then [13] else [];
    assert s[..|line|] == line && s[|line|] == 10 && s[|line| + 1..] == rest;
    NewlineUnique(s, |line|);
    assert FirstLine(s) == line;
    assert if l.crlf then line[..|line| - 1] == l.body else line == l.body;
  }

  ghost predicate SentFit(lines: seq<Sent>) {
    forall i :: 0 <= i < |lines| ==> |lines[i].body| + (if lines[i].crlf then 1 else 0) <= 65536
  }

  lemma SentHeadAndTail(lines: seq<Sent>)
    requires lines != []
    ensures LineFree(lines) <==> NoNewline(lines[0].body) && LineFree(lines[1..])
    ensures SentFit(lines) <==>
            |lines[0].body| + (if lines[0].crlf then 1 else 0) <= 65536 && SentFit(lines[1..])
  {
    assert lines == [lines[0]] + lines[1..];
  }

  lemma TailReads(tail: seq<Byte>)
    requires NoNewline(tail)
    ensures Lines(tail) == if tail == [] then [] else [tail]
    ensures LinesFit(tail) <==> |tail| <= 65536
  {
    Unterminated(tail);
    assert Lines([]) == [];
    assert LinesFit([]);
    assert tail != [] ==> FirstLine(tail) == tail;
  }

  /**
   Newline-free bodies, each ended by LF or CR LF, and a rest that nothing ends: what is read is
   every body, less a CR of its own only before a bare LF, and then the rest, whole.
   */
  lemma {:induction false} EitherEndingReads(lines: seq<Sent>, tail: seq<Byte>)
    requires LineFree(lines) && NoNewline(tail)
    ensures Lines(Wire(lines, tail)) == AllSeen(lines) + if tail == [] then [] else [tail]
    ensures LinesFit(Wire(lines, tail)) <==> SentFit(lines) && |tail| <= 65536
    decreases |lines|
  {
    if lines == [] {
      TailReads(tail);
    } else {
      SentHeadAndTail(lines);
      EitherEndingReads(lines[1..], tail);
      SentHead(lines[0], Wire(lines[1..], tail));
      LinesStep(Wire(lines, tail));
    }
  }
}
