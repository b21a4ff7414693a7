/** UTF-8 (RFC 3629, section 3) as the browser's text encoder and decoder apply it: the encoder replaces a
    lone surrogate, the decoder replaces what is malformed and swallows one leading byte order mark. A
    string is the sequence of its code points, lone surrogates included.

    Neither ever fails, so a round trip can lose something silently. The two theorems at the end say exactly
    when it does not, for strings and for bytes. */
module Utf8 {
  import opened Bytes

  type CodePoint = c: int | 0 <= c <= 0x10FFFF

  const REPLACEMENT: CodePoint := 0xFFFD
  const MARK: CodePoint := 0xFEFF
  const MARK_BYTES: seq<Byte> := [0xEF, 0xBB, 0xBF]

  predicate IsScalar(c: CodePoint) {
    !(0xD800 <= c <= 0xDFFF)
  }

  predicate AllScalars(s: seq<CodePoint>) {
    forall c :: c in s ==> IsScalar(c)
  }

  // ---------------------------------------------------------------- encoder

  function Tail(n: int): Byte {
    0x80 + n % 64
  }

  function EncodeScalar(c: CodePoint): (bytes: seq<Byte>)
    ensures 1 <= |bytes| <= 4
  {
    var n: int := c;
    if n < 0x80 then [n]
    else if n < 0x800 then [0xC0 + n / 64, Tail(n)]
    else if n < 0x10000 then [0xE0 + n / 64 / 64, Tail(n / 64), Tail(n)]
    else [0xF0 + n / 64 / 64 / 64, Tail(n / 64 / 64), Tail(n / 64), Tail(n)]
  }

  function Encode(s: seq<CodePoint>): seq<Byte> {
    if s == [] then [] else EncodeScalar(if IsScalar(s[0]) then s[0] else REPLACEMENT) + Encode(s[1..])
  }

  // ---------------------------------------------------------------- decoder

  /** What the decoder makes of the front of its input, and how much of it that takes. */
  datatype Decoded = Decoded(point: CodePoint, taken: nat)

  /** `needed` more bytes, the next one between `lower` and `upper`. A byte out of bounds, or the end of the
      input, makes one replacement for what has been read so far. */
  function Continue(bytes: seq<Byte>, at: nat, needed: nat, lower: Byte, upper: Byte, sofar: int): (d: Decoded)
    requires 1 <= at <= |bytes| && 0 <= sofar
    ensures at <= d.taken <= |bytes|
    decreases needed
  {
    if needed == 0 then Decoded(if sofar <= 0x10FFFF then sofar else REPLACEMENT, at)
    else if at == |bytes| || !(lower <= bytes[at] <= upper) then Decoded(REPLACEMENT, at)
    else
      var b: int := bytes[at];
      Continue(bytes, at + 1, needed - 1, 0x80, 0xBF, if b >= 0x80 then sofar * 64 + (b - 0x80) else 0)
  }

  function DecodeFront(bytes: seq<Byte>): (d: Decoded)
    requires bytes != []
    ensures 1 <= d.taken <= |bytes|
  {
    var b: int := bytes[0];
    if b < 0x80 then Decoded(b, 1)
    else if 0xC2 <= b <= 0xDF then Continue(bytes, 1, 1, 0x80, 0xBF, b - 0xC0)
    else if 0xE0 <= b <= 0xEF then
      Continue(bytes, 1, 2, if b == 0xE0 then 0xA0 else 0x80, if b == 0xED then 0x9F else 0xBF, b - 0xE0)
    else if 0xF0 <= b <= 0xF4 then
      Continue(bytes, 1, 3, if b == 0xF0 then 0x90 else 0x80, if b == 0xF4 then 0x8F else 0xBF, b - 0xF0)
    else Decoded(REPLACEMENT, 1)
  }

  function DecodeAll(bytes: seq<Byte>): seq<CodePoint>
    decreases |bytes|
  {
    if bytes == [] then [] else [DecodeFront(bytes).point] + DecodeAll(bytes[DecodeFront(bytes).taken..])
  }

  predicate StartsWithMark(bytes: seq<Byte>) {
    MARK_BYTES <= bytes
  }

  function Decode(bytes: seq<Byte>): seq<CodePoint> {
    DecodeAll(if StartsWithMark(bytes) then bytes[3..] else bytes)
  }

  // ---------------------------------------------------------------- one code point

  lemma FrontOfScalar(c: CodePoint, rest: seq<Byte>)
    requires IsScalar(c)
    ensures DecodeFront(EncodeScalar(c) + rest) == Decoded(c, |EncodeScalar(c)|)
  {
    if 0x80 <= c < 0x800 {
    } else if 0x800 <= c < 0x10000 {
    } else if 0x10000 <= c {
    }
  }

  // ---------------------------------------------------------------- whole strings

  lemma {:induction false} DecodeAllOfEncode(s: seq<CodePoint>)
    requires AllScalars(s)
    ensures DecodeAll(Encode(s)) == s
    decreases |s|
  {
    if s != [] {
      hide DecodeFront, EncodeScalar;
      FrontOfScalar(s[0], Encode(s[1..]));
      assert Encode(s)[|EncodeScalar(s[0])|..] == Encode(s[1..]);
      assert AllScalars(s[1..]);
      DecodeAllOfEncode(s[1..]);
      assert s == [s[0]] + s[1..];
    }
  }

  lemma {:induction false} DecodeAllIsScalar(bytes: seq<Byte>)
    ensures AllScalars(DecodeAll(bytes))
    decreases |bytes|
  {
    if bytes != [] {
      hide DecodeFront;
      DecodeAllIsScalar(bytes[DecodeFront(bytes).taken..]);
    }
  }

  lemma MarkEncoding()
    ensures EncodeScalar(MARK) == MARK_BYTES
  {
  }

  lemma MarkIsMark(s: seq<CodePoint>)
    requires AllScalars(s)
    ensures StartsWithMark(Encode(s)) <==> s != [] && s[0] == MARK
    ensures StartsWithMark(Encode(s)) ==> Encode(s)[3..] == Encode(s[1..])
  {
    hide DecodeFront, EncodeScalar;
    MarkEncoding();
    if s != [] && s[0] == MARK {
      assert Encode(s) == MARK_BYTES + Encode(s[1..]);
    } else if StartsWithMark(Encode(s)) {
      var bytes := Encode(s);
      assert bytes == MARK_BYTES + bytes[3..];
      FrontOfScalar(MARK, bytes[3..]);
      FrontOfScalar(s[0], Encode(s[1..]));
      assert false;
    }
  }

  /** A string survives encoding and decoding exactly if it has no lone surrogate and does not begin with a
      byte order mark. */
  lemma StringRoundTrip(s: seq<CodePoint>)
    ensures Decode(Encode(s)) == s <==> AllScalars(s) && (s == [] || s[0] != MARK)
  {
    DecodeAllIsScalar(if StartsWithMark(Encode(s)) then Encode(s)[3..] else Encode(s));
    if AllScalars(s) {
      MarkIsMark(s);
      DecodeAllOfEncode(s);
      if s != [] && s[0] == MARK {
        assert AllScalars(s[1..]);
        DecodeAllOfEncode(s[1..]);
        assert |s[1..]| != |s|;
      }
    }
  }

  /** The bytes are the encoding of some string: well-formed in the sense of RFC 3629. */
  ghost predicate WellFormed(bytes: seq<Byte>) {
    exists s :: AllScalars(s) && Encode(s) == bytes
  }

  /** Decoding never fails, but only well-formed bytes without a leading mark are what the decoded string
      encodes to. */
  lemma BytesRoundTrip(bytes: seq<Byte>)
    ensures Encode(Decode(bytes)) == bytes <==> WellFormed(bytes) && !StartsWithMark(bytes)
  {
    hide DecodeFront, EncodeScalar;
    var s := Decode(bytes);
    DecodeAllIsScalar(if StartsWithMark(bytes) then bytes[3..] else bytes);
    if Encode(s) == bytes {
      MarkIsMark(s);
      if StartsWithMark(bytes) {
        DecodeAllOfEncode(s[1..]);
      }
    }
    if WellFormed(bytes) && !StartsWithMark(bytes) {
      var t :| AllScalars(t) && Encode(t) == bytes;
      DecodeAllOfEncode(t);
    }
  }
}
