/** The two faces of a document id: the UUID text on the wire and the 16 bytes that the Automerge document
    id is made of (RFC 9562, section 4; version 4 in section 5.4).

    Every device derives the native id from the text it received, and names the document on the wire by the
    text it derives back: both ways have to end at the same id. */
module DocId {
  import opened Bytes
  import opened Common

  // ---------------------------------------------------------------- hexadecimal

  function HexDigit(n: int): char
    requires 0 <= n < 16
  {
    if n < 10 then '0' + n as char else 'a' + (n - 10) as char
  }

  predicate IsLowerHex(c: char) {
    '0' <= c <= '9' || 'a' <= c <= 'f'
  }

  function HexValue(c: char): Option<int> {
    if '0' <= c <= '9' then Some(c as int - '0' as int)
    else if 'a' <= c <= 'f' then Some(c as int - 'a' as int + 10)
    else if 'A' <= c <= 'F' then Some(c as int - 'A' as int + 10)
    else None
  }

  predicate IsBlank(c: char) {
    c == ' ' || '\t' <= c <= '\r' || c == '\U{A0}' || c == '\U{1680}' || '\U{2000}' <= c <= '\U{200A}'
    || c == '\U{2028}' || c == '\U{2029}' || c == '\U{202F}' || c == '\U{205F}' || c == '\U{3000}' || c == '\U{FEFF}'
  }

  /** `Number.parseInt` on two characters, stored into a byte: the longest hexadecimal front counts, blanks
      and a plus sign before it are skipped, and nothing at all is stored as 0. */
  function ParsePair(a: char, b: char): Byte {
    match (HexValue(a), HexValue(b))
    case (Some(x), Some(y)) => (if 0 <= x < 16 && 0 <= y < 16 then 16 * x + y else 0)
    case (Some(x), None) => (if 0 <= x < 16 then x else 0)
    case (None, Some(y)) => (if (IsBlank(a) || a == '+') && 0 <= y < 16 then y else 0)
    case _ => 0
  }

  lemma DigitsOfPair(a: char, b: char)
    ensures IsLowerHex(a) && IsLowerHex(b) ==>
      var m: int := ParsePair(a, b); HexDigit(m / 16) == a && HexDigit(m % 16) == b
  {
  }

  // ---------------------------------------------------------------- the two mappings

  function Undashed(s: string): string {
    if s == "" then "" else (if s[0] == '-' then "" else [s[0]]) + Undashed(s[1..])
  }

  function PairsOf(hex: string): (bytes: seq<Byte>)
    requires |hex| == 32
    ensures |bytes| == 16
  {
    seq(16, i requires 0 <= i < 16 => ParsePair(hex[2 * i], hex[2 * i + 1]))
  }

  function UuidToBytes(s: string): Option<seq<Byte>> {
    var hex := Undashed(s);
    if |hex| != 32 then None else Some(PairsOf(hex))
  }

  function ToHex(bytes: seq<Byte>): (hex: string)
    ensures |hex| == 2 * |bytes|
  {
    seq(2 * |bytes|, k requires 0 <= k < 2 * |bytes| =>
      var b: int := bytes[k / 2];
      HexDigit(if k % 2 == 0 then b / 16 else b % 16))
  }

  function Dashed(hex: string): string
    requires |hex| == 32
  {
    hex[..8] + "-" + hex[8..12] + "-" + hex[12..16] + "-" + hex[16..20] + "-" + hex[20..]
  }

  function BytesToUuid(bytes: seq<Byte>): string
    requires |bytes| == 16
  {
    Dashed(ToHex(bytes))
  }

  // ---------------------------------------------------------------- canonical texts

  predicate DashAt(k: int) {
    k == 8 || k == 13 || k == 18 || k == 23
  }

  /** 8-4-4-4-12 lowercase hexadecimal digits. */
  predicate IsCanonical(s: string) {
    |s| == 36 && forall k :: 0 <= k < 36 ==> if DashAt(k) then s[k] == '-' else IsLowerHex(s[k])
  }

  /** The regular expression for version 4. */
  predicate IsCanonicalUuidV4(s: string) {
    IsCanonical(s) && s[14] == '4' && (s[19] == '8' || s[19] == '9' || s[19] == 'a' || s[19] == 'b')
  }

  lemma {:induction false} UndashedConcat(s: string, t: string)
    ensures Undashed(s + t) == Undashed(s) + Undashed(t)
    decreases |s|
  {
    if s == "" {
      assert s + t == t;
    } else {
      assert (s + t)[1..] == s[1..] + t;
      UndashedConcat(s[1..], t);
    }
  }

  lemma {:induction false} UndashedPlain(s: string)
    requires '-' !in s
    ensures Undashed(s) == s
    decreases |s|
  {
    if s != "" {
      assert '-' !in s[1..];
      UndashedPlain(s[1..]);
    }
  }

  lemma UndashedGroup(s: string, front: string)
    requires '-' !in front
    ensures Undashed(front + "-" + s) == front + Undashed(s)
  {
    hide Undashed;
    UndashedConcat(front + "-", s);
    UndashedConcat(front, "-");
    UndashedPlain(front);
    DashesApart("", "", "", "", "");
  }

  lemma UndashedOfDashed(hex: string)
    requires |hex| == 32 && '-' !in hex
    ensures Undashed(Dashed(hex)) == hex
  {
    hide Undashed;
    var a, b, c, d, e := hex[..8], hex[8..12], hex[12..16], hex[16..20], hex[20..];
    DashesApart(a, b, c, d, e);
    UndashedPlain(e);
    UndashedGroup(e, d);
    UndashedGroup(d + "-" + e, c);
    UndashedGroup(c + "-" + (d + "-" + e), b);
    UndashedGroup(b + "-" + (c + "-" + (d + "-" + e)), a);
    assert hex == a + (b + (c + (d + e)));
  }

  lemma Slices(a: string, b: string, c: string, d: string, e: string)
    ensures |a| == 8 && |b| == |c| == |d| == 4 ==>
      var hex := a + b + c + d + e;
      hex[..8] == a && hex[8..12] == b && hex[12..16] == c && hex[16..20] == d && hex[20..] == e
  {
  }

  lemma DashesApart(a: string, b: string, c: string, d: string, e: string)
    ensures a + "-" + b + "-" + c + "-" + d + "-" + e == a + "-" + (b + "-" + (c + "-" + (d + "-" + e)))
    ensures Undashed("-") == ""
  {
  }

  lemma DashedIsCanonical(hex: string)
    requires |hex| == 32 && forall k :: 0 <= k < 32 ==> IsLowerHex(hex[k])
    ensures IsCanonical(Dashed(hex))
  {
  }

  /** Bytes to text and back is the identity, and the text is canonical. */
  lemma BytesRoundTrip(bytes: seq<Byte>)
    requires |bytes| == 16
    ensures IsCanonical(BytesToUuid(bytes)) && UuidToBytes(BytesToUuid(bytes)) == Some(bytes)
  {
    var hex := ToHex(bytes);
    DashedIsCanonical(hex);
    UndashedOfDashed(hex);
    forall i | 0 <= i < 16 ensures PairsOf(hex)[i] == bytes[i] {
      assert 2 * i / 2 == i && (2 * i + 1) / 2 == i;
    }
    assert PairsOf(hex) == bytes;
  }

  lemma CanonicalIsDashed(s: string) returns (hex: string)
    requires IsCanonical(s)
    ensures |hex| == 32 && s == Dashed(hex) && forall k :: 0 <= k < 32 ==> IsLowerHex(hex[k])
    ensures hex[12] == s[14] && hex[16] == s[19]
  {
    var a, b, c, d, e := s[..8], s[9..13], s[14..18], s[19..23], s[24..];
    hex := a + b + c + d + e;
    Slices(a, b, c, d, e);
    assert s[8..9] == "-" && s[13..14] == "-" && s[18..19] == "-" && s[23..24] == "-";
    assert s == a + s[8..9] + b + s[13..14] + c + s[18..19] + d + s[23..24] + e;
    forall k | 0 <= k < 32 ensures IsLowerHex(hex[k]) {
      var at := if k < 8 then k else if k < 12 then k + 1 else if k < 16 then k + 2
        else if k < 20 then k + 3 else k + 4;
      assert hex[k] == s[at] && !DashAt(at);
    }
    assert hex[12] == c[0] && hex[16] == d[0];
  }

  lemma HexOfPairs(hex: string)
    requires |hex| == 32 && forall k :: 0 <= k < 32 ==> IsLowerHex(hex[k])
    ensures ToHex(PairsOf(hex)) == hex
  {
    forall k | 0 <= k < 32 ensures ToHex(PairsOf(hex))[k] == hex[k] {
      var i := k / 2;
      DigitsOfPair(hex[2 * i], hex[2 * i + 1]);
      assert k == 2 * i + k % 2;
    }
  }

  /** Text to bytes and back is the identity exactly on canonical texts; anything else that has 32 characters
      beside its dashes is accepted too, and comes back as another text. */
  lemma TextRoundTripIffCanonical(s: string)
    ensures UuidToBytes(s).Some? && BytesToUuid(UuidToBytes(s).value) == s <==> IsCanonical(s)
  {
    if IsCanonical(s) {
      var hex := CanonicalIsDashed(s);
      assert '-' !in hex;
      UndashedOfDashed(hex);
      HexOfPairs(hex);
    } else if UuidToBytes(s).Some? {
      BytesRoundTrip(UuidToBytes(s).value);
    }
  }

  /** So canonical texts with equal bytes are equal. */
  lemma CanonicalTextsAreDistinct(s: string, t: string)
    requires IsCanonical(s) && IsCanonical(t) && UuidToBytes(s) == UuidToBytes(t)
    ensures s == t
  {
    TextRoundTripIffCanonical(s);
    TextRoundTripIffCanonical(t);
  }

  /** The regular expression accepts exactly the canonical texts whose bytes carry version 4 in the upper
      half of the seventh byte and variant 10 in the two upper bits of the ninth. */
  lemma VersionFourIsInTheBits(s: string)
    ensures IsCanonicalUuidV4(s)
      <==> IsCanonical(s) && UuidToBytes(s).Some?
           && var bytes := UuidToBytes(s).value;
              var seventh: int, ninth: int := bytes[6], bytes[8]; seventh / 16 == 4 && ninth / 64 == 2
  {
    if IsCanonical(s) {
      var hex := CanonicalIsDashed(s);
      assert '-' !in hex;
      UndashedOfDashed(hex);
      DigitsOfPair(hex[12], hex[13]);
      DigitsOfPair(hex[16], hex[17]);
    }
  }

  // ---------------------------------------------------------------- the loop

  method FillBytes(s: string) returns (bytes: array?<Byte>)
    ensures bytes == null <==> UuidToBytes(s).None?
    ensures bytes != null ==> Some(bytes[..]) == UuidToBytes(s)
  {
    var hex := Undashed(s);
    if |hex| != 32 { return null; }
    var out := new Byte[16](_ => 0);
    for i := 0 to 16
      invariant out[..i] == PairsOf(hex)[..i]
    {
      out[i] := ParsePair(hex[2 * i], hex[2 * i + 1]);
    }
    assert out[..] == PairsOf(hex);
    bytes := out;
  }
}
