/**
 The status-ping wire format: VarInts, length-prefixed strings, framed packets, and
 the incremental response parser. A second VarInt pair lives in the truth script.
 Both readers work on 32-bit words; a word is held as its unsigned value.
 */
module StatusCodec {
  import opened Basics

  datatype CodecError =
    | UnexpectedEnd
    | VarIntTooLarge
    | NegativeLength
    | PastBuffer
    | UnexpectedPacketId
    | ResponseTooLarge

  const TWO_31: int := 0x8000_0000
  const TWO_32: int := 0x1_0000_0000
  const MAX_RESPONSE: nat := 0x10_0000

  /** `d` shifted left by `k` groups of seven bits. */
  function At(d: nat, k: nat): nat
    requires k <= 4
  {
    if k == 0 then d
    else if k == 1 then 128 * d
    else if k == 2 then 16384 * d
    else if k == 3 then 2097152 * d
    else 268435456 * d
  }

  function Digit(b: Byte): nat { b % 128 }

  function Pow2(n: nat): nat { if n == 0 then 1 else 2 * Pow2(n - 1) }

  /** `|`, bit by bit. */
  function Or(a: nat, b: nat): nat {
    if a == 0 then b else if b == 0 then a else 2 * Or(a / 2, b / 2) + if a % 2 == 1 || b % 2 == 1 then 1 else 0
  }

  lemma {:induction false} OrOfFreshBits(a: nat, d: nat, n: nat)
    requires a < Pow2(n)
    ensures Or(a, d * Pow2(n)) == a + d * Pow2(n)
  {
    if a != 0 && d * Pow2(n) != 0 {
      assert d * Pow2(n) == 2 * (d * Pow2(n - 1));
      OrOfFreshBits(a / 2, d, n - 1);
    }
  }

  /** The first bit `k` groups of seven leave free. */
  function Room(k: nat): nat
    requires k <= 5
  {
    if k == 5 then 34359738368 else At(1, k)
  }

  /** `<< 7 * k` on a 32-bit word, which takes its distance modulo 32 and drops what leaves the word. */
  function Shl(d: nat, k: nat): nat
    requires k <= 5
  {
    if k == 5 then 8 * d else At(d, k) % TWO_32
  }

  lemma ShlIsShift(d: nat, k: nat)
    requires k <= 5 && d < 128
    ensures Shl(d, k) == d * Pow2(7 * k % 32) % TWO_32
  {
    PowersOfSeven();
    assert 35 % 32 == 3;
  }

  lemma PowersOfSeven()
    ensures Pow2(0) == 1 && Pow2(3) == 8 && Pow2(7) == 128 && Pow2(14) == 16384 && Pow2(21) == 2097152
    ensures Pow2(28) == 268435456
  {
    assert Pow2(7) == 128;
    assert Pow2(14) == 16384;
    assert Pow2(21) == 2097152;
    assert Pow2(28) == 268435456;
  }

  lemma TopBits(d: nat, q: nat, r: nat)
    requires d == 16 * q + r && r < 16
    ensures 268435456 * d % TWO_32 == 268435456 * r
  {
    assert 268435456 * d == TWO_32 * q + 268435456 * r;
  }

  lemma ShlTop(d: nat)
    ensures Shl(d, 4) == 268435456 * (d % 16)
  {
    TopBits(d, d / 16, d % 16);
  }

  lemma RoomIsPower(k: nat)
    requires k <= 4
    ensures Room(k) == Pow2(7 * k)
  {
    PowersOfSeven();
  }

  lemma AtIsProduct(d: nat, k: nat)
    requires k <= 4
    ensures At(d, k) == d * Room(k)
  {
  }

  /** What a shifted digit adds to the word. */
  lemma ShlAdds(value: nat, d: nat, k: nat)
    requires k <= 4 && value < Room(k) && d < 128
    ensures value + Shl(d, k) == (value + At(d, k)) % TWO_32
    ensures k < 4 ==> value + Shl(d, k) == value + At(d, k) < Room(k + 1)
    ensures Shl(d, k) == At(if k == 4 then d % 16 else d, k)
  {
    if k == 4 {
      ShlTop(d);
    }
  }

  /** Seven bits or-ed in at a fresh shift add up, modulo the word. */
  lemma OrAddsDigit(value: nat, d: nat, k: nat)
    requires k <= 4 && value < Room(k) && d < 128
    ensures Or(value, Shl(d, k)) == value + Shl(d, k)
  {
    var e := if k == 4 then d % 16 else d;
    ShlAdds(value, d, k);
    AtIsProduct(e, k);
    RoomIsPower(k);
    OrOfFreshBits(value, e, 7 * k);
  }

  /** `value |= digit << 7 * k` as the loops perform it. */
  method OrDigit(value: nat, d: nat, k: nat) returns (r: nat)
    requires k <= 5 && d < 128
    ensures r == Or(value, Shl(d, k))
    ensures k <= 4 && value < Room(k) ==> r == (value + At(d, k)) % TWO_32
    ensures k < 4 && value < Room(k) ==> r == value + At(d, k) < Room(k + 1)
  {
    r := Or(value, Shl(d, k));
    if k <= 4 && value < Room(k) {
      OrAddsDigit(value, d, k);
      ShlAdds(value, d, k);
    }
  }

  /** The signed 32-bit reading of the low 32 bits of `n`. */
  function Wrap32(n: nat): int { if n % TWO_32 < TWO_31 then n % TWO_32 else n % TWO_32 - TWO_32 }

  predicate Continues(b: Byte) { b >= 128 }

  function Encode(value: nat): (bytes: seq<Byte>)
    ensures 1 <= |bytes| && !Continues(bytes[|bytes| - 1])
  {
    if value < 128 then [value] else [128 + value % 128] + Encode(value / 128)
  }

  /** The value of the digits from `off` on, `k` of five already read, and the offset after them. */
  function Decode(buf: seq<Byte>, off: nat, k: nat): Result<(nat, nat), CodecError>
    requires k <= 4
    decreases 4 - k
  {
    if off >= |buf| then Err(UnexpectedEnd)
    else if !Continues(buf[off]) then Ok((At(Digit(buf[off]), k), off + 1))
    else if k == 4 then Err(VarIntTooLarge)
    else match Decode(buf, off + 1, k + 1)
      case Err(e) => Err(e)
      case Ok(rest) => Ok((At(Digit(buf[off]), k) + rest.0, rest.1))
  }

  function ReadVarInt(buf: seq<Byte>, off: nat): Result<(int, nat), CodecError> {
    match Decode(buf, off, 0)
    case Err(e) => Err(e)
    case Ok(r) => Ok((Wrap32(r.0), r.1))
  }

  /** The `size` bytes from `off` on all carry the continuation bit. */
  predicate AllContinue(buf: seq<Byte>, off: nat, size: nat) {
    size == 0 || (off + size <= |buf| && forall i :: off <= i < off + size ==> Continues(buf[i]))
  }

  /** The sum of the digits of `size` bytes. */
  function Digits(buf: seq<Byte>, off: nat, size: nat): nat
    requires size <= 5 && (size == 0 || off + size <= |buf|)
  {
    if size == 0 then 0 else Digits(buf, off, size - 1) + At(Digit(buf[off + size - 1]), size - 1)
  }

  /** `size` bytes are read, all continue, and `value` is what their digits came to. */
  predicate Reading(buf: seq<Byte>, off: nat, value: nat, size: nat) {
    && size <= 5 && AllContinue(buf, off, size)
    && (if size <= 4 then value == Digits(buf, off, size) < Room(size) else value == Digits(buf, off, 5) % TWO_32)
  }

  /** `next` is the word after or-ing in the digit of byte `size`. */
  predicate OrsIn(buf: seq<Byte>, off: nat, value: nat, size: nat, next: nat)
    requires off + size < |buf| && size <= 4
  {
    && next == (value + At(Digit(buf[off + size]), size)) % TWO_32
    && (size < 4 ==> next == value + At(Digit(buf[off + size]), size) < Room(size + 1))
  }

  lemma {:induction false} DecodeSoFar(buf: seq<Byte>, off: nat, size: nat)
    requires size <= 4 && AllContinue(buf, off, size)
    ensures Decode(buf, off, 0) == match Decode(buf, off + size, size)
              case Err(e) => Err(e)
              case Ok(rest) => Ok((Digits(buf, off, size) + rest.0, rest.1))
  {
    if size > 0 {
      DecodeSoFar(buf, off, size - 1);
    }
  }

  lemma ReadingOn(buf: seq<Byte>, off: nat, value: nat, size: nat, next: nat)
    requires Reading(buf, off, value, size) && size <= 4 && off + size < |buf| && Continues(buf[off + size])
    requires OrsIn(buf, off, value, size, next)
    ensures Reading(buf, off, next, size + 1)
    ensures size == 4 ==> ReadVarInt(buf, off) == Err(VarIntTooLarge)
  {
    DecodeSoFar(buf, off, size);
  }

  lemma ReadingEnds(buf: seq<Byte>, off: nat, value: nat, size: nat)
    requires Reading(buf, off, value, size) && size <= 4
    ensures off + size >= |buf| ==> ReadVarInt(buf, off) == Err(UnexpectedEnd)
    ensures off + size < |buf| && !Continues(buf[off + size]) ==>
              ReadVarInt(buf, off) == Ok((Wrap32(value + At(Digit(buf[off + size]), size)), off + size + 1))
  {
    DecodeSoFar(buf, off, size);
  }

  lemma WrapOfWord(n: nat)
    ensures Wrap32(n % TWO_32) == Wrap32(n)
  {
  }

  /** The loop of `read_var_int`. */
  method ReadVarIntLoop(buf: seq<Byte>, start: nat) returns (r: Result<(int, nat), CodecError>)
    ensures r == ReadVarInt(buf, start)
  {
    var offset, value: nat, k: nat := start, 0, 0;
    while true
      invariant k <= 4 && offset == start + k && Reading(buf, start, value, k)
      decreases 4 - k
    {
      ReadingEnds(buf, start, value, k);
      if offset >= |buf| {
        return Err(UnexpectedEnd);
      }
      var byte := buf[offset];
      var next := OrDigit(value, Digit(byte), k);
      WrapOfWord(value + At(Digit(byte), k));
      offset := offset + 1;
      if !Continues(byte) {
        return Ok((Wrap32(next), offset));
      }
      ReadingOn(buf, start, value, k, next);
      if 7 * (k + 1) >= 32 {
        return Err(VarIntTooLarge);
      }
      value, k := next, k + 1;
    }
  }

  /** The loop of `write_var_int`; on a negative value the arithmetic shift never reaches zero. */
  method WriteVarIntLoop(buf: seq<Byte>, value: int) returns (out: seq<Byte>)
    requires 0 <= value < TWO_31
    ensures out == buf + Encode(value)
  {
    var rest: nat := value;
    out := buf;
    while true
      invariant out + Encode(rest) == buf + Encode(value)
      decreases rest
    {
      var byte: Byte := rest % 128;
      var next := rest / 128;
      if next != 0 {
        byte := byte + 128;
      }
      assert out + Encode(rest) == (out + [byte]) + if next != 0 then Encode(next) else [];
      out := out + [byte];
      rest := next;
      if rest == 0 {
        return;
      }
    }
  }

  lemma AtSplit(v: nat, k: nat)
    requires k < 4
    ensures At(v % 128, k) + At(v / 128, k + 1) == At(v, k)
  {
    assert v == 128 * (v / 128) + v % 128;
  }

  /** `buf` holds the encoding of `v` at `off`. */
  predicate HoldsAt(buf: seq<Byte>, off: nat, v: nat) {
    off + |Encode(v)| <= |buf| && buf[off..off + |Encode(v)|] == Encode(v)
  }

  lemma Middle(a: seq<Byte>, b: seq<Byte>, c: seq<Byte>)
    ensures (a + b + c)[|a|..|a| + |b|] == b
  {
  }

  lemma EncodedHolds(before: seq<Byte>, v: nat, after: seq<Byte>)
    ensures HoldsAt(before + Encode(v) + after, |before|, v)
  {
    Middle(before, Encode(v), after);
  }

  lemma HeldLast(buf: seq<Byte>, off: nat, v: nat)
    requires HoldsAt(buf, off, v)
    ensures !Continues(buf[off + |Encode(v)| - 1])
  {
    assert buf[off + |Encode(v)| - 1] == buf[off..off + |Encode(v)|][|Encode(v)| - 1];
  }

  lemma HeldBytes(buf: seq<Byte>, off: nat, v: nat)
    requires HoldsAt(buf, off, v)
    ensures v < 128 ==> |Encode(v)| == 1 && buf[off] == v
    ensures v >= 128 ==> buf[off] == 128 + v % 128 && HoldsAt(buf, off + 1, v / 128)
    ensures v >= 128 ==> |Encode(v)| == 1 + |Encode(v / 128)|
  {
    var e := Encode(v);
    assert buf[off] == buf[off..off + |e|][0];
    if v >= 128 {
      assert e == [128 + v % 128] + Encode(v / 128);
      assert buf[off + 1..off + |e|] == buf[off..off + |e|][1..] == Encode(v / 128);
    }
  }

  lemma DecodeJoins(buf: seq<Byte>, off: nat, k: nat, v: nat, end: nat)
    requires k < 4 && off < |buf| && buf[off] == 128 + v % 128
    requires Decode(buf, off + 1, k + 1) == Ok((At(v / 128, k + 1), end))
    ensures Decode(buf, off, k) == Ok((At(v, k), end))
  {
    AtSplit(v, k);
    assert Digit(buf[off]) == v % 128;
  }

  lemma {:induction false} DecodeEncoded(buf: seq<Byte>, off: nat, k: nat, v: nat)
    requires k <= 4 && HoldsAt(buf, off, v) && At(v, k) < TWO_32
    ensures |Encode(v)| <= 5 - k
    ensures Decode(buf, off, k) == Ok((At(v, k), off + |Encode(v)|))
    decreases v
  {
    HeldBytes(buf, off, v);
    if v < 128 {
      DecodeLast(buf, off, k, v);
    } else {
      assert k < 4;
      AtSplit(v, k);
      DecodeEncoded(buf, off + 1, k + 1, v / 128);
      DecodeJoins(buf, off, k, v, off + |Encode(v)|);
    }
  }

  lemma DecodeLast(buf: seq<Byte>, off: nat, k: nat, v: nat)
    requires k <= 4 && off < |buf| && buf[off] == v < 128
    ensures Decode(buf, off, k) == Ok((At(v, k), off + 1))
  {
  }

  lemma DecodedReads(buf: seq<Byte>, off: nat, value: int, end: nat)
    requires 0 <= value < TWO_31 && Decode(buf, off, 0) == Ok((value, end))
    ensures ReadVarInt(buf, off) == Ok((value, end))
  {
  }

  /** Seven bits a byte, lowest first. */
  function SevenBits(bytes: seq<Byte>): nat { if bytes == [] then 0 else bytes[0] % 128 + 128 * SevenBits(bytes[1..]) }

  /** Every byte but the last is marked to continue, and the last is zero only for zero. */
  lemma {:induction false} EncodingIs(v: nat)
    ensures var e := Encode(v);
            && SevenBits(e) == v && e[|e| - 1] < 128 && (|e| > 1 ==> e[|e| - 1] != 0)
            && forall i :: 0 <= i < |e| - 1 ==> e[i] >= 128
    decreases v
  {
    if v >= 128 {
      EncodingIs(v / 128);
      assert Encode(v)[1..] == Encode(v / 128);
    } else {
      assert Encode(v)[1..] == [];
    }
  }

  /** A written VarInt reads back, at any offset and before any trailing bytes, in 1 to 5 bytes. */
  lemma VarIntRoundTrip(before: seq<Byte>, value: int, after: seq<Byte>)
    requires 0 <= value < TWO_31
    ensures 1 <= |Encode(value)| <= 5
    ensures ReadVarInt(before + Encode(value) + after, |before|) == Ok((value, |before| + |Encode(value)|))
  {
    EncodedHolds(before, value, after);
    DecodeEncoded(before + Encode(value) + after, |before|, 0, value);
    DecodedReads(before + Encode(value) + after, |before|, value, |before| + |Encode(value)|);
  }

  // ---------------------------------------------------------------------------
  // The script's variant: every 32-bit value
  // ---------------------------------------------------------------------------

  /** `value | 0` followed by unsigned shifts. */
  function ScriptEncode(value: int): seq<Byte> { Encode(value % TWO_32) }

  /** What is written and what is left to write make up the encoding. */
  predicate Emits(out: seq<Byte>, rest: int, value: int) { out + ScriptEncode(rest) == ScriptEncode(value) }

  lemma NothingEmitted(value: int)
    ensures Emits([], value, value)
  {
    assert [] + ScriptEncode(value) == ScriptEncode(value);
  }

  lemma ShiftShrinks(rest: int)
    requires -TWO_31 <= rest < TWO_31
    ensures var next := rest % TWO_32 / 128;
            0 <= next < TWO_31 && (rest > 0 ==> next < rest) && (rest == 0 ==> next == 0)
  {
  }

  lemma ScriptByte(out: seq<Byte>, rest: int, value: int)
    requires Emits(out, rest, value)
    ensures var next, byte := rest % TWO_32 / 128, rest % 128;
            && 0 <= next < TWO_31
            && (next == 0 ==> out + [byte] == ScriptEncode(value))
            && (next != 0 ==> Emits(out + [byte + 128], next, value))
  {
    var word: nat := rest % TWO_32;
    LowBits(rest);
    if word / 128 != 0 {
      assert Encode(word) == [128 + word % 128] + Encode(word / 128);
      assert word / 128 % TWO_32 == word / 128;
    }
  }

  lemma DropMultiple(q: int, r: int)
    ensures (128 * q + r) % 128 == r % 128
  {
    assert 128 * q + r == 128 * (q + r / 128) + r % 128;
  }

  /** Seven low bits do not depend on reading the word as signed or unsigned. */
  lemma LowBits(rest: int)
    ensures rest % TWO_32 % 128 == rest % 128
  {
    var q, r := rest / TWO_32, rest % TWO_32;
    assert rest == 128 * (33554432 * q) + r;
    DropMultiple(33554432 * q, r);
  }

  /** The script's writing loop: a signed word, shifted as an unsigned one. */
  method ScriptWriteLoop(value: int) returns (out: seq<Byte>)
    requires -TWO_31 <= value < TWO_31
    ensures out == ScriptEncode(value)
  {
    var rest := value;
    out := [];
    NothingEmitted(value);
    while true
      invariant -TWO_31 <= rest < TWO_31 && Emits(out, rest, value)
      decreases if rest < 0 then TWO_32 else rest
    {
      var byte: Byte := rest % 128;
      ScriptByte(out, rest, value);
      ShiftShrinks(rest);
      rest := rest % TWO_32 / 128;
      if rest == 0 {
        out := out + [byte];
        return;
      }
      out := out + [byte + 128];
    }
  }

  /** The first five bytes all carry the continuation bit. */
  predicate FiveContinue(buf: seq<Byte>, off: nat) { AllContinue(buf, off, 5) }

  /**
   Returns `undefined` at the end of the buffer and throws on a sixth continuation byte.
   A sixth byte is or-ed in at shift 35, which a 32-bit shift takes modulo 32.
   */
  function ScriptRead(buf: seq<Byte>, off: nat): Result<(int, nat), CodecError> {
    if !FiveContinue(buf, off) then ReadVarInt(buf, off)
    else if off + 5 >= |buf| then Err(UnexpectedEnd)
    else if Continues(buf[off + 5]) then Err(VarIntTooLarge)
    else Ok((Wrap32(Or(Digits(buf, off, 5) % TWO_32, Shl(Digit(buf[off + 5]), 5))), off + 6))
  }

  /** How the script's loop ends, `size` bytes in. */
  lemma ScriptEnds(buf: seq<Byte>, off: nat, value: nat, size: nat)
    requires Reading(buf, off, value, size)
    ensures off + size >= |buf| ==> ScriptRead(buf, off) == Err(UnexpectedEnd)
    ensures size <= 4 && off + size < |buf| && !Continues(buf[off + size]) ==>
              ScriptRead(buf, off) == Ok((Wrap32(value + At(Digit(buf[off + size]), size)), off + size + 1))
    ensures size == 5 && off + size < |buf| ==>
              ScriptRead(buf, off) == if Continues(buf[off + 5]) then Err(VarIntTooLarge)
                                      else Ok((Wrap32(Or(value, Shl(Digit(buf[off + 5]), 5))), off + 6))
  {
    if size <= 4 && (off + size >= |buf| || !Continues(buf[off + size])) {
      assert !FiveContinue(buf, off);
      ReadingEnds(buf, off, value, size);
    }
  }

  lemma {:induction false} TooLargeMeansFive(buf: seq<Byte>, off: nat, k: nat)
    requires k <= 4
    ensures Decode(buf, off + k, k) == Err(VarIntTooLarge)
            <==> off + 5 <= |buf| && forall i :: off + k <= i < off + 5 ==> Continues(buf[i])
    ensures Decode(buf, off + k, k).Err? ==> Decode(buf, off + k, k).error in {VarIntTooLarge, UnexpectedEnd}
    decreases 4 - k
  {
    if off + k < |buf| && Continues(buf[off + k]) && k < 4 {
      TooLargeMeansFive(buf, off, k + 1);
    }
  }

  lemma EndsWithinFive(buf: seq<Byte>, off: nat, n: nat)
    requires 1 <= n <= 5 && off + n <= |buf| && !Continues(buf[off + n - 1])
    ensures !FiveContinue(buf, off)
  {
  }

  lemma WrapUnwraps(value: int)
    requires -TWO_31 <= value < TWO_31
    ensures 0 <= value % TWO_32 < TWO_32 && Wrap32(value % TWO_32) == value
  {
  }

  /** A held script encoding reads back. */
  lemma ScriptReadsHeld(buf: seq<Byte>, off: nat, value: int)
    requires -TWO_31 <= value < TWO_31 && HoldsAt(buf, off, value % TWO_32)
    ensures |ScriptEncode(value)| <= 5
    ensures ScriptRead(buf, off) == Ok((value, off + |ScriptEncode(value)|))
  {
    WrapUnwraps(value);
    var v: nat := value % TWO_32;
    DecodeEncoded(buf, off, 0, v);
    HeldLast(buf, off, v);
    EndsWithinFive(buf, off, |Encode(v)|);
  }

  lemma ScriptRoundTrip(before: seq<Byte>, value: int, after: seq<Byte>)
    requires -TWO_31 <= value < TWO_31
    ensures 1 <= |ScriptEncode(value)| <= 5
    ensures ScriptRead(before + ScriptEncode(value) + after, |before|)
         == Ok((value, |before| + |ScriptEncode(value)|))
  {
    EncodedHolds(before, value % TWO_32, after);
    ScriptReadsHeld(before + ScriptEncode(value) + after, |before|, value);
  }

  /** The two readers differ exactly on five continuation bytes not followed by a sixth. */
  lemma ReadersAgree(buf: seq<Byte>, off: nat)
    ensures ScriptRead(buf, off) == ReadVarInt(buf, off)
            <==> !FiveContinue(buf, off) || AllContinue(buf, off, 6)
  {
    TooLargeMeansFive(buf, off, 0);
  }

  /** Every 32-bit value whose encoding lies at `off` is the one read. */
  ghost predicate ReadsWhatIsWritten(buf: seq<Byte>, off: nat, r: Result<(int, nat), CodecError>) {
    forall value :: -TWO_31 <= value < TWO_31 && HoldsAt(buf, off, value % TWO_32) ==>
      r == Ok((value, off + |ScriptEncode(value)|))
  }

  lemma ScriptReads(buf: seq<Byte>, off: nat)
    ensures ReadsWhatIsWritten(buf, off, ScriptRead(buf, off))
  {
    forall value | -TWO_31 <= value < TWO_31 && HoldsAt(buf, off, value % TWO_32)
      ensures ScriptRead(buf, off) == Ok((value, off + |ScriptEncode(value)|))
    {
      ScriptReadsHeld(buf, off, value);
    }
  }

  /** The script's reading loop. */
  method ScriptReadLoop(buf: seq<Byte>, off: nat) returns (r: Result<(int, nat), CodecError>)
    ensures r == ScriptRead(buf, off)
    ensures ReadsWhatIsWritten(buf, off, r)
    ensures r == ReadVarInt(buf, off) <==> !FiveContinue(buf, off) || AllContinue(buf, off, 6)
  {
    ScriptReads(buf, off);
    ReadersAgree(buf, off);
    var value: nat, size: nat := 0, 0;
    while true
      invariant Reading(buf, off, value, size)
      decreases 5 - size
    {
      ScriptEnds(buf, off, value, size);
      if off + size >= |buf| {
        return Err(UnexpectedEnd);
      }
      var byte := buf[off + size];
      var next := OrDigit(value, Digit(byte), size);
      if size <= 4 {
        WrapOfWord(value + At(Digit(byte), size));
      }
      if !Continues(byte) {
        return Ok((Wrap32(next), off + size + 1));
      }
      if size + 1 > 5 {
        return Err(VarIntTooLarge);
      }
      ReadingOn(buf, off, value, size, next);
      value, size := next, size + 1;
    }
  }

  // ---------------------------------------------------------------------------
  // Strings, packets, the incremental parser
  // ---------------------------------------------------------------------------

  function WriteString(value: seq<Byte>): seq<Byte> { Encode(|value|) + value }

  function WritePacket(id: nat, payload: seq<Byte>): seq<Byte> {
    var packet := Encode(id) + payload;
    Encode(|packet|) + packet
  }

  function ReadString(buf: seq<Byte>, off: nat): Result<seq<Byte>, CodecError> {
    match ReadVarInt(buf, off)
    case Err(e) => Err(e)
    case Ok(r) =>
      if r.0 < 0 then Err(NegativeLength)
      else if r.1 + r.0 > |buf| then Err(PastBuffer)
      else Ok(buf[r.1..r.1 + r.0])
  }

  function TryParseStatus(buf: seq<Byte>): Result<seq<Byte>, CodecError> {
    match ReadVarInt(buf, 0)
    case Err(e) => Err(e)
    case Ok(r) =>
      if r.0 < 0 then Err(NegativeLength)
      else if |buf| < r.1 + r.0 then Err(PastBuffer)
      else ParseBody(buf[r.1..r.1 + r.0])
  }

  /** A packet without its length: the id, which has to be 0, and the text. */
  function ParseBody(body: seq<Byte>): Result<seq<Byte>, CodecError> {
    match ReadVarInt(body, 0)
    case Err(e) => Err(e)
    case Ok(id) => if id.0 != 0 then Err(UnexpectedPacketId) else ReadString(body, id.1)
  }

  lemma {:induction false} DecodeExtends(buf: seq<Byte>, more: seq<Byte>, off: nat, k: nat)
    requires k <= 4 && Decode(buf, off, k).Ok?
    ensures Decode(buf + more, off, k) == Decode(buf, off, k)
    ensures Decode(buf, off, k).value.1 <= |buf|
    decreases 4 - k
  {
    assert (buf + more)[off] == buf[off];
    if Continues(buf[off]) {
      DecodeExtends(buf, more, off + 1, k + 1);
    }
  }

  lemma ReadExtends(buf: seq<Byte>, more: seq<Byte>)
    requires ReadVarInt(buf, 0).Ok?
    ensures ReadVarInt(buf + more, 0) == ReadVarInt(buf, 0) && ReadVarInt(buf, 0).value.1 <= |buf|
  {
    DecodeExtends(buf, more, 0, 0);
  }

  /** Once a prefix parses, every extension parses to the same result. */
  lemma ParseExtends(buf: seq<Byte>, more: seq<Byte>)
    requires TryParseStatus(buf).Ok?
    ensures TryParseStatus(buf + more) == TryParseStatus(buf)
  {
    ReadExtends(buf, more);
    var r := ReadVarInt(buf, 0).value;
    assert (buf + more)[r.1..r.1 + r.0] == buf[r.1..r.1 + r.0];
  }

  lemma StringRoundTrip(before: seq<Byte>, value: seq<Byte>)
    requires |value| < TWO_31
    ensures ReadString(before + WriteString(value), |before|) == Ok(value)
  {
    var buf := before + WriteString(value);
    assert buf == before + Encode(|value|) + value;
    VarIntRoundTrip(before, |value|, value);
    var start := |before| + |Encode(|value|)|;
    assert buf[start..start + |value|] == value;
  }

  /** A framed, written string parses back whatever follows it on the wire. */
  lemma StatusRoundTrip(json: seq<Byte>, after: seq<Byte>)
    requires |WriteString(json)| + 1 < TWO_31
    ensures TryParseStatus(WritePacket(0, WriteString(json)) + after) == Ok(json)
  {
    var packet := Encode(0) + WriteString(json);
    var wire := WritePacket(0, WriteString(json)) + after;
    assert wire == [] + Encode(|packet|) + (packet + after);
    VarIntRoundTrip([], |packet|, packet + after);
    var start := |Encode(|packet|)|;
    assert ReadVarInt(wire, 0) == Ok((|packet|, start));
    assert wire[start..start + |packet|] == packet;
    assert packet == [] + Encode(0) + WriteString(json);
    VarIntRoundTrip([], 0, WriteString(json));
    assert ReadVarInt(packet, 0) == Ok((0, |Encode(0)|));
    StringRoundTrip(Encode(0), json);
  }

  /** No prefix within the size limit parsed so far, and `buf` is what has been read. */
  ghost predicate Unparsed(all: seq<Byte>, buf: seq<Byte>, left: seq<seq<Byte>>) {
    && all == buf + Flatten(left)
    && forall n :: 0 <= n <= |buf| && n <= MAX_RESPONSE ==> TryParseStatus(all[..n]).Err?
  }

  /** What a finished read owes: any parse of the whole, and every parse of an allowed prefix. */
  ghost predicate ReadsAll(all: seq<Byte>, r: Result<seq<Byte>, CodecError>) {
    && (r.Ok? ==> r == TryParseStatus(all))
    && forall n :: 0 <= n <= Min(|all|, MAX_RESPONSE) && TryParseStatus(all[..n]).Ok? ==> r == TryParseStatus(all[..n])
  }

  lemma ChunkRead(all: seq<Byte>, buf: seq<Byte>, left: seq<seq<Byte>>)
    requires Unparsed(all, buf, left) && left != []
    ensures var now := buf + left[0];
            && (TryParseStatus(now).Ok? ==> ReadsAll(all, TryParseStatus(now)))
            && (TryParseStatus(now).Err? ==> Unparsed(all, now, left[1..]))
            && (TryParseStatus(now).Err? && |now| > MAX_RESPONSE ==> ReadsAll(all, Err(ResponseTooLarge)))
  {
    var now := buf + left[0];
    assert all == now + Flatten(left[1..]);
    assert all[..|now|] == now;
    PrefixesParseAlike(all, |now|);
  }

  lemma AllRead(all: seq<Byte>, buf: seq<Byte>)
    requires Unparsed(all, buf, [])
    ensures ReadsAll(all, TryParseStatus(buf))
  {
    assert all[..|all|] == all == buf;
    PrefixesParseAlike(all, |all|);
  }

  /** What has arrived after the first `k` pieces. */
  function Arrived(chunks: seq<seq<Byte>>, k: nat): seq<Byte>
    requires k <= |chunks|
  {
    Flatten(chunks[..k])
  }

  /** After piece `k` there is an answer: it parses, or it is too much. */
  predicate Decided(chunks: seq<seq<Byte>>, k: nat)
    requires k <= |chunks|
  {
    TryParseStatus(Arrived(chunks, k)).Ok? || |Arrived(chunks, k)| > 1048576
  }

  ghost predicate FirstDecided(chunks: seq<seq<Byte>>, k: nat) {
    1 <= k <= |chunks| && Decided(chunks, k) && forall j :: 1 <= j < k ==> !Decided(chunks, j)
  }

  /** The first piece that decides does; if none does, what has arrived in all is parsed. */
  ghost predicate AnswersFirst(chunks: seq<seq<Byte>>, r: Result<seq<Byte>, CodecError>) {
    && (forall k :: FirstDecided(chunks, k) ==>
          r == if TryParseStatus(Arrived(chunks, k)).Ok? then TryParseStatus(Arrived(chunks, k))
               else Err(ResponseTooLarge))
    && ((forall k :: 1 <= k <= |chunks| ==> !Decided(chunks, k)) ==> r == TryParseStatus(Flatten(chunks)))
  }

  lemma {:induction false} FlattenSnoc(chunks: seq<seq<Byte>>, piece: seq<Byte>)
    ensures Flatten(chunks + [piece]) == Flatten(chunks) + piece
  {
    if chunks == [] {
      assert ([] + [piece])[1..] == [];
    } else {
      assert (chunks + [piece])[1..] == chunks[1..] + [piece];
      FlattenSnoc(chunks[1..], piece);
    }
  }

  lemma NextArrives(chunks: seq<seq<Byte>>, k: nat)
    requires k < |chunks|
    ensures Arrived(chunks, k + 1) == Arrived(chunks, k) + chunks[k]
  {
    assert chunks[..k + 1] == chunks[..k] + [chunks[k]];
    FlattenSnoc(chunks[..k], chunks[k]);
  }

  /** Piece `k` is the first to decide. */
  lemma AnswerIs(chunks: seq<seq<Byte>>, k: nat, r: Result<seq<Byte>, CodecError>)
    requires FirstDecided(chunks, k)
    requires r == if TryParseStatus(Arrived(chunks, k)).Ok? then TryParseStatus(Arrived(chunks, k))
                  else Err(ResponseTooLarge)
    ensures AnswersFirst(chunks, r)
  {
    forall j | FirstDecided(chunks, j) ensures j == k {
    }
  }

  lemma NoAnswer(chunks: seq<seq<Byte>>)
    requires forall j :: 1 <= j <= |chunks| ==> !Decided(chunks, j)
    ensures AnswersFirst(chunks, TryParseStatus(Flatten(chunks)))
  {
  }

  /** Read a status response arriving in arbitrary pieces. */
  method ReadStatus(chunks: seq<seq<Byte>>) returns (r: Result<seq<Byte>, CodecError>)
    ensures ReadsAll(Flatten(chunks), r)
    ensures AnswersFirst(chunks, r)
  {
    var buf: seq<Byte> := [];
    var k := 0;
    while k < |chunks|
      invariant k <= |chunks| && Unparsed(Flatten(chunks), buf, chunks[k..]) && buf == Arrived(chunks, k)
      invariant forall j :: 1 <= j <= k ==> !Decided(chunks, j)
    {
      ChunkRead(Flatten(chunks), buf, chunks[k..]);
      NextArrives(chunks, k);
      assert chunks[k..][1..] == chunks[k + 1..];
      buf := buf + chunks[k];
      k := k + 1;
      var parsed := TryParseStatus(buf);
      if parsed.Ok? {
        AnswerIs(chunks, k, parsed);
        return parsed;
      }
      if |buf| > MAX_RESPONSE {
        AnswerIs(chunks, k, Err(ResponseTooLarge));
        return Err(ResponseTooLarge);
      }
    }
    assert chunks[k..] == [];
    AllRead(Flatten(chunks), buf);
    NoAnswer(chunks);
    assert buf == Flatten(chunks);
    r := TryParseStatus(buf);
  }

  lemma PrefixParses(all: seq<Byte>, n: nat, m: nat)
    requires n <= m <= |all|
    ensures TryParseStatus(all[..n]).Ok? ==> TryParseStatus(all[..m]) == TryParseStatus(all[..n])
  {
    if TryParseStatus(all[..n]).Ok? {
      ParseExtends(all[..n], all[n..m]);
      assert all[..n] + all[n..m] == all[..m];
    }
  }

  /** All parseable prefixes from some point on agree with the longer ones. */
  lemma PrefixesParseAlike(all: seq<Byte>, m: nat)
    requires m <= |all|
    ensures TryParseStatus(all[..m]).Ok? ==> TryParseStatus(all) == TryParseStatus(all[..m])
    ensures forall n :: 0 <= n <= m && TryParseStatus(all[..n]).Ok? ==>
              TryParseStatus(all[..m]) == TryParseStatus(all[..n])
    ensures forall n :: m <= n <= |all| && TryParseStatus(all[..m]).Ok? ==>
              TryParseStatus(all[..n]) == TryParseStatus(all[..m])
  {
    PrefixParses(all, m, |all|);
    assert all[..|all|] == all;
    forall n | 0 <= n <= m && TryParseStatus(all[..n]).Ok?
      ensures TryParseStatus(all[..m]) == TryParseStatus(all[..n])
    {
      PrefixParses(all, n, m);
    }
    forall n | m <= n <= |all| && TryParseStatus(all[..m]).Ok?
      ensures TryParseStatus(all[..n]) == TryParseStatus(all[..m])
    {
      PrefixParses(all, m, n);
    }
  }

  /** A framed packet is a status response only if its id is 0. */
  lemma PacketIdDecides(id: nat, json: seq<Byte>, after: seq<Byte>)
    requires id < TWO_31 && |WriteString(json)| + 5 < TWO_31
    ensures TryParseStatus(WritePacket(id, WriteString(json)) + after)
         == if id == 0 then Ok(json) else Err(UnexpectedPacketId)
  {
    var packet := Encode(id) + WriteString(json);
    var wire := WritePacket(id, WriteString(json)) + after;
    assert packet == [] + Encode(id) + WriteString(json);
    VarIntRoundTrip([], id, WriteString(json));
    assert wire == [] + Encode(|packet|) + (packet + after);
    VarIntRoundTrip([], |packet|, packet + after);
    var start := |Encode(|packet|)|;
    assert wire[start..start + |packet|] == packet;
    if id == 0 {
      StringRoundTrip(Encode(0), json);
    }
  }

  /** `json` is the text of a whole packet at the front of `buf`: sizes as read, the id 0. */
  predicate FramesText(buf: seq<Byte>, json: seq<Byte>, size: int, body: nat, length: int, text: nat, id: nat) {
    && ReadVarInt(buf, 0) == Ok((size, body)) && 0 <= size && body + size <= |buf|
    && ReadVarInt(buf[body..body + size], 0) == Ok((0, id))
    && ReadVarInt(buf[body..body + size], id) == Ok((length, text)) && 0 <= length && text + length <= size
    && json == buf[body..body + size][text..text + length]
  }

  lemma FramedParses(buf: seq<Byte>, json: seq<Byte>, size: int, body: nat, length: int, text: nat, id: nat)
    requires FramesText(buf, json, size, body, length, text, id)
    ensures TryParseStatus(buf) == Ok(json)
  {
    BodyParses(buf[body..body + size], length, text, id);
  }

  lemma BodyParses(packet: seq<Byte>, length: int, text: nat, id: nat)
    requires ReadVarInt(packet, 0) == Ok((0, id)) && ReadVarInt(packet, id) == Ok((length, text))
    requires 0 <= length && text + length <= |packet|
    ensures ParseBody(packet) == Ok(packet[text..text + length])
  {
  }

  lemma ParsedBody(packet: seq<Byte>) returns (length: int, text: nat, id: nat)
    requires ParseBody(packet).Ok?
    ensures ReadVarInt(packet, 0) == Ok((0, id)) && ReadVarInt(packet, id) == Ok((length, text))
    ensures 0 <= length && text + length <= |packet| && ParseBody(packet).value == packet[text..text + length]
  {
    id := ReadVarInt(packet, 0).value.1;
    var inner := ReadVarInt(packet, id).value;
    length, text := inner.0, inner.1;
  }

  lemma ParsedIsFramed(buf: seq<Byte>)
    returns (size: int, body: nat, length: int, text: nat, id: nat)
    requires TryParseStatus(buf).Ok?
    ensures FramesText(buf, TryParseStatus(buf).value, size, body, length, text, id)
  {
    var outer := ReadVarInt(buf, 0).value;
    size, body := outer.0, outer.1;
    length, text, id := ParsedBody(buf[body..body + size]);
  }

  /** A buffer parses to a text exactly when it begins with a whole packet, of id 0, that holds that text whole. */
  lemma ParsesIff(buf: seq<Byte>, json: seq<Byte>)
    ensures TryParseStatus(buf) == Ok(json)
            <==> exists size, body, length, text, id :: FramesText(buf, json, size, body, length, text, id)
  {
    if TryParseStatus(buf) == Ok(json) {
      var size, body, length, text, id := ParsedIsFramed(buf);
    }
    forall size, body, length, text, id | FramesText(buf, json, size, body, length, text, id)
      ensures TryParseStatus(buf) == Ok(json)
    {
      FramedParses(buf, json, size, body, length, text, id);
    }
  }
}
