/** The payload of a space invite's snapshot: a version byte, the length of the document URL in UTF-8, the
    URL, and the document binary up to the end.

    An empty URL is refused on both sides, an empty binary is not. The URL goes through the text encoder and
    decoder, and with them through what those two replace. */
module InviteSnapshot {
  import opened Bytes
  import opened Common
  import ChangeFraming
  import Utf8

  const VERSION: Byte := 1
  const HEADER: nat := 5

  datatype Payload = Payload(url: seq<Utf8.CodePoint>, doc: seq<Byte>)

  function Encoded(p: Payload): Option<seq<Byte>> {
    if p.url == [] then None
    else Some([VERSION] + Word(|Utf8.Encode(p.url)|) + Utf8.Encode(p.url) + p.doc)
  }

  function UrlLength(data: seq<Byte>): nat
    requires |data| >= HEADER
  {
    ReadWord(data[1..])
  }

  /** The header is there, of this version, and the URL is neither empty nor cut off. */
  predicate Accepted(data: seq<Byte>) {
    |data| >= HEADER && data[0] == VERSION && UrlLength(data) != 0 && HEADER + UrlLength(data) <= |data|
  }

  function UrlBytes(data: seq<Byte>): seq<Byte>
    requires Accepted(data)
  {
    data[HEADER..HEADER + UrlLength(data)]
  }

  function Decoded(data: seq<Byte>): Option<Payload> {
    if !Accepted(data) then None
    else Some(Payload(Utf8.Decode(UrlBytes(data)), data[HEADER + UrlLength(data)..]))
  }

  lemma HeaderReads(p: Payload)
    requires p.url != []
    ensures Encoded(p).Some?
    ensures var data := Encoded(p).value;
      && |data| == HEADER + |Utf8.Encode(p.url)| + |p.doc|
      && data[0] == VERSION && UrlLength(data) == |Utf8.Encode(p.url)| % U32
      && data[HEADER..HEADER + |Utf8.Encode(p.url)|] == Utf8.Encode(p.url)
      && data[HEADER + |Utf8.Encode(p.url)|..] == p.doc
  {
    hide Word, ReadWord, Utf8.Encode;
    var n := |Utf8.Encode(p.url)|;
    ReadOfWord(n);
    ReadFront(Encoded(p).value[1..], Word(n));
  }

  /** A payload comes back as it was exactly if its URL has no lone surrogate and no leading byte order mark,
      and its length in UTF-8 fits the header. */
  lemma PayloadRoundTrip(p: Payload)
    requires p.url != []
    ensures Decoded(Encoded(p).value) == Some(p)
      <==> Utf8.AllScalars(p.url) && p.url[0] != Utf8.MARK && |Utf8.Encode(p.url)| < U32
  {
    hide Word, ReadWord, Utf8.Encode, Utf8.Decode, Encoded;
    HeaderReads(p);
    var data := Encoded(p).value;
    var bytes := Utf8.Encode(p.url);
    NothingEncodesToNothing(p.url);
    Utf8.StringRoundTrip(p.url);
    if |bytes| < U32 {
      assert UrlLength(data) == |bytes| && UrlBytes(data) == bytes;
    } else if Accepted(data) {
      assert |data[HEADER + UrlLength(data)..]| > |p.doc|;
    }
  }

  /** What is accepted re-encodes to the same bytes exactly if its URL bytes are well-formed UTF-8 without a
      leading byte order mark; the decoder itself accepts any bytes there. */
  lemma BytesRoundTrip(data: seq<Byte>)
    requires Accepted(data)
    ensures Encoded(Decoded(data).value) == Some(data)
      <==> Utf8.WellFormed(UrlBytes(data)) && !Utf8.StartsWithMark(UrlBytes(data))
  {
    hide Word, ReadWord, Utf8.Encode, Utf8.Decode, Utf8.WellFormed;
    var url, doc := UrlBytes(data), data[HEADER + UrlLength(data)..];
    Utf8.BytesRoundTrip(url);
    var p := Decoded(data).value;
    assert p == Payload(Utf8.Decode(url), doc);
    assert data == [VERSION] + data[1..][..4] + url + doc;
    WordOfRead(data[1..]);
    if Utf8.Encode(p.url) == url {
      NothingEncodesToNothing(p.url);
    } else if p.url != [] {
      HeaderReads(p);
      assert Encoded(p) == Some(data) ==> |Utf8.Encode(p.url)| == |url|;
    }
  }

  lemma NothingEncodesToNothing(url: seq<Utf8.CodePoint>)
    ensures Utf8.Encode(url) == [] <==> url == []
  {
  }

  // ---------------------------------------------------------------- the buffers

  method EncodeSpaceInviteSnapshotPayload(p: Payload) returns (encoded: array?<Byte>)
    ensures encoded == null <==> p.url == []
    ensures encoded != null ==> Encoded(p) == Some(encoded[..])
  {
    hide Word, Utf8.Encode;
    if p.url == [] { return null; }
    var urlBytes := Utf8.Encode(p.url);
    var out := new Byte[HEADER + |urlBytes| + |p.doc|](_ => 0);
    out[0] := VERSION;
    ChangeFraming.SetWord(out, 1, |urlBytes|);
    assert out[..HEADER] == [VERSION] + Word(|urlBytes|);
    ChangeFraming.SetBytes(out, HEADER, urlBytes);
    assert out[..HEADER + |urlBytes|] == [VERSION] + Word(|urlBytes|) + urlBytes;
    ChangeFraming.SetBytes(out, HEADER + |urlBytes|, p.doc);
    assert out[HEADER + |urlBytes| + |p.doc|..] == [];
    assert out[..] == [VERSION] + Word(|urlBytes|) + urlBytes + p.doc;
    encoded := out;
  }

  method DecodeSpaceInviteSnapshotPayload(data: array<Byte>) returns (p: Option<Payload>)
    ensures p == Decoded(data[..])
  {
    hide ReadWord, Utf8.Decode;
    if data.Length < HEADER { return None; }
    if data[0] != VERSION { return None; }
    assert data[..][1..] == data[1..];
    var urlLength := ReadWord(data[1..]);
    if urlLength == 0 { return None; }
    if HEADER + urlLength > data.Length { return None; }
    var url := Utf8.Decode(data[HEADER..HEADER + urlLength]);
    p := Some(Payload(url, data[HEADER + urlLength..]));
  }
}
