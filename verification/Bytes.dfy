/** Bytes and big-endian 32-bit words.

    A word is written as four bytes, the most significant first, and only a number below 2^32 has one. The
    framing of changes and the header of an invite's snapshot are made of such words: a count, the length of
    each change, the length of the URL.

    Reading takes the four bytes in front of a list and leaves the rest, so a list of words and blocks is
    read from its start to its end. Writing and reading undo each other, in both directions, wherever the
    word exists. */
module Bytes {
  type Byte = b: int | 0 <= b < 256

  const U32: nat := 0x1_0000_0000

  /** `DataView.setUint32`: the value is taken modulo 2^32. */
  function Word(n: nat): (w: seq<Byte>)
    ensures |w| == 4
  {
    var m := n % U32;
    [m / 0x100_0000, m / 0x1_0000 % 256, m / 256 % 256, m % 256]
  }

  /** `DataView.getUint32`. */
  function ReadWord(w: seq<Byte>): (n: nat)
    requires |w| >= 4
    ensures n < U32
  {
    var a: int, b: int, c: int, d: int := w[0], w[1], w[2], w[3];
    a * 0x100_0000 + b * 0x1_0000 + c * 256 + d
  }

  /** Only the first four bytes are read. */
  lemma ReadFront(v: seq<Byte>, w: seq<Byte>)
    ensures |v| >= 4 && |w| >= 4 && v[..4] == w[..4] ==>
      ReadWord(v) == ReadWord(w)
  {
  }

  lemma ReadOfWord(n: nat)
    ensures ReadWord(Word(n)) == n % U32
  {
    var m := n % U32;
    assert m == m / 256 * 256 + m % 256;
    assert m / 256 == m / 256 / 256 * 256 + m / 256 % 256;
    assert m / 256 / 256 == m / 0x1_0000;
    assert m / 0x1_0000 == m / 0x1_0000 / 256 * 256 + m / 0x1_0000 % 256;
    assert m / 0x1_0000 / 256 == m / 0x100_0000;
  }

  lemma WordOfRead(w: seq<Byte>)
    requires |w| >= 4
    ensures Word(ReadWord(w)) == w[..4]
  {
    var a: int, b: int, c: int, d: int := w[0], w[1], w[2], w[3];
    var n := ReadWord(w);
    assert n % U32 == n;
    assert n / 256 == a * 0x1_0000 + b * 256 + c && n % 256 == d;
    assert n / 256 / 256 == a * 256 + b && n / 256 % 256 == c;
    assert n / 0x1_0000 == n / 256 / 256 && n / 0x1_0000 % 256 == b;
    assert n / 0x100_0000 == n / 256 / 256 / 256 == a;
  }
}
