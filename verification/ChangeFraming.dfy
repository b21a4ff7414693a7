/** The framing of a list of Automerge changes into one log payload: a count, then every change behind its
    length, all in big-endian 32-bit words.

    Reading is strict: a frame that ends early, that goes on after its last change, or that counts more than
    a million changes is rejected. */
module ChangeFraming {
  import opened Bytes
  import opened Common

  const MAX_CHANGES: nat := 1_000_000

  // ---------------------------------------------------------------- the format

  function Bodies(changes: seq<seq<Byte>>): seq<Byte> {
    if changes == [] then [] else Word(|changes[0]|) + changes[0] + Bodies(changes[1..])
  }

  function Framed(changes: seq<seq<Byte>>): seq<Byte> {
    Word(|changes|) + Bodies(changes)
  }

  /** What a reader can take back: at most a million changes, each with a length that fits its word. */
  predicate Frameable(changes: seq<seq<Byte>>) {
    |changes| <= MAX_CHANGES && forall c :: c in changes ==> |c| < U32
  }

  /** `count` changes from the front of `rest`, which they must use up. */
  function Parse(rest: seq<Byte>, count: nat): Option<seq<seq<Byte>>>
    decreases count
  {
    if count == 0 then if rest == [] then Some([]) else None
    else if |rest| < 4 || |rest| < 4 + ReadWord(rest) then None
    else
      var n := ReadWord(rest);
      Prepend([rest[4..4 + n]], Parse(rest[4 + n..], count - 1))
  }

  function Prepend(front: seq<seq<Byte>>, back: Option<seq<seq<Byte>>>): Option<seq<seq<Byte>>> {
    if back.None? then None else Some(front + back.value)
  }

  function Unframed(blob: seq<Byte>): Option<seq<seq<Byte>>> {
    if |blob| < 4 || ReadWord(blob) > MAX_CHANGES then None else Parse(blob[4..], ReadWord(blob))
  }

  // ---------------------------------------------------------------- both directions

  lemma ParseStep(c: seq<Byte>, tail: seq<Byte>, count: nat)
    requires |c| < U32
    ensures Parse(Word(|c|) + c + tail, count + 1) == Prepend([c], Parse(tail, count))
  {
    hide Word, ReadWord;
    var rest := Word(|c|) + c + tail;
    ReadOfWord(|c|);
    ReadFront(rest, Word(|c|));
    assert rest[4..4 + |c|] == c && rest[4 + |c|..] == tail;
  }

  lemma {:induction false} ParseOfBodies(changes: seq<seq<Byte>>)
    requires forall c :: c in changes ==> |c| < U32
    ensures Parse(Bodies(changes), |changes|) == Some(changes)
    decreases |changes|
  {
    if changes != [] {
      hide Word, ReadWord, Parse;
      assert forall c :: c in changes[1..] ==> c in changes;
      ParseOfBodies(changes[1..]);
      ParseStep(changes[0], Bodies(changes[1..]), |changes| - 1);
      assert [changes[0]] + changes[1..] == changes;
    }
  }

  lemma {:induction false} BodiesOfParse(rest: seq<Byte>, count: nat)
    requires Parse(rest, count).Some?
    ensures var changes := Parse(rest, count).value;
      |changes| == count && Bodies(changes) == rest && forall c :: c in changes ==> |c| < U32
    decreases count
  {
    hide Word, ReadWord;
    if count > 0 {
      var n := ReadWord(rest);
      BodiesOfParse(rest[4 + n..], count - 1);
      WordOfRead(rest);
      var changes := Parse(rest, count).value;
      assert changes[0] == rest[4..4 + n] && changes[1..] == Parse(rest[4 + n..], count - 1).value;
      assert rest == rest[..4] + rest[4..4 + n] + rest[4 + n..];
    }
  }

  /** Framing is a bijection between the frameable lists and the blobs that are accepted: a blob reads as a
      list exactly if it is the frame of that list and the list is frameable. */
  lemma UnframedIffFramed(blob: seq<Byte>, changes: seq<seq<Byte>>)
    ensures Unframed(blob) == Some(changes) <==> Framed(changes) == blob && Frameable(changes)
  {
    hide Word, ReadWord, Parse, Bodies;
    if Unframed(blob) == Some(changes) {
      BodiesOfParse(blob[4..], ReadWord(blob));
      WordOfRead(blob);
      assert blob == blob[..4] + blob[4..];
    }
    if Framed(changes) == blob && Frameable(changes) {
      ReadOfWord(|changes|);
      ReadFront(blob, Word(|changes|));
      assert blob[4..] == Bodies(changes);
      ParseOfBodies(changes);
    }
  }

  /** So a list comes back as it was exactly if it is frameable. */
  lemma RoundTripIffFrameable(changes: seq<seq<Byte>>)
    ensures Unframed(Framed(changes)) == Some(changes) <==> Frameable(changes)
  {
    UnframedIffFramed(Framed(changes), changes);
  }

  lemma {:induction false} ParseIsPrefixFree(rest: seq<Byte>, more: seq<Byte>, count: nat)
    requires Parse(rest, count).Some? && Parse(rest + more, count).Some?
    ensures more == []
    decreases count
  {
    if count == 0 {
      assert rest + more == [];
    } else {
      hide Word, ReadWord;
      var n := ReadWord(rest);
      ReadFront(rest, rest + more);
      assert (rest + more)[4 + n..] == rest[4 + n..] + more;
      ParseIsPrefixFree(rest[4 + n..], more, count - 1);
    }
  }

  /** No accepted blob is a proper prefix of another: whatever is cut off a frame, or appended to it, makes
      it unreadable. */
  lemma FramesArePrefixFree(blob: seq<Byte>, more: seq<Byte>)
    requires Unframed(blob).Some? && more != []
    ensures Unframed(blob + more).None?
  {
    hide Word, ReadWord, Parse;
    if Unframed(blob + more).Some? {
      ReadFront(blob, blob + more);
      assert (blob + more)[4..] == blob[4..] + more;
      ParseIsPrefixFree(blob[4..], more, ReadWord(blob));
    }
  }

  // ---------------------------------------------------------------- the buffers

  method SetWord(out: array<Byte>, at: nat, n: nat)
    requires at + 4 <= out.Length
    modifies out
    ensures out[..] == old(out[..at]) + Word(n) + old(out[at + 4..])
  {
    var w := Word(n);
    out[at], out[at + 1], out[at + 2], out[at + 3] := w[0], w[1], w[2], w[3];
  }

  method SetBytes(out: array<Byte>, at: nat, bytes: seq<Byte>)
    requires at + |bytes| <= out.Length
    modifies out
    ensures out[..] == old(out[..at]) + bytes + old(out[at + |bytes|..])
  {
    for i := 0 to |bytes|
      invariant out[..at] == old(out[..at]) && out[at..at + i] == bytes[..i]
      invariant out[at + |bytes|..] == old(out[at + |bytes|..])
    {
      out[at + i] := bytes[i];
    }
  }

  lemma {:induction false} BodiesGrow(changes: seq<seq<Byte>>, c: seq<Byte>)
    ensures Bodies(changes + [c]) == Bodies(changes) + Word(|c|) + c
    decreases |changes|
  {
    if changes == [] {
      assert [c][1..] == [] && Bodies([c]) == Word(|c|) + c + Bodies([]);
      assert changes + [c] == [c];
    } else {
      BodiesGrow(changes[1..], c);
      assert (changes + [c])[1..] == changes[1..] + [c];
    }
  }

  lemma {:induction false} BodiesPrefix(changes: seq<seq<Byte>>, i: nat)
    requires i <= |changes|
    ensures |Bodies(changes[..i])| <= |Bodies(changes)|
    ensures i < |changes| ==> |Bodies(changes[..i])| + 4 + |changes[i]| == |Bodies(changes[..i + 1])|
    decreases |changes| - i
  {
    if i < |changes| {
      assert changes[..i + 1] == changes[..i] + [changes[i]];
      BodiesGrow(changes[..i], changes[i]);
      BodiesPrefix(changes, i + 1);
    } else {
      assert changes[..i] == changes;
    }
  }

  method WriteChange(out: array<Byte>, at: nat, c: seq<Byte>)
    requires at + 4 + |c| <= out.Length
    modifies out
    ensures out[..at + 4 + |c|] == old(out[..at]) + Word(|c|) + c
  {
    hide Word;
    ghost var before := out[..at];
    SetWord(out, at, |c|);
    assert out[..at + 4] == before + Word(|c|);
    SetBytes(out, at + 4, c);
  }

  lemma FrameGrows(changes: seq<seq<Byte>>, i: nat)
    requires i < |changes|
    ensures var c := changes[i];
      && Word(|changes|) + Bodies(changes[..i]) + Word(|c|) + c == Word(|changes|) + Bodies(changes[..i + 1])
      && |Bodies(changes[..i])| + 4 + |c| == |Bodies(changes[..i + 1])| <= |Bodies(changes)|
  {
    hide Word, Bodies;
    BodiesPrefix(changes, i);
    BodiesPrefix(changes, i + 1);
    BodiesGrow(changes[..i], changes[i]);
    assert changes[..i + 1] == changes[..i] + [changes[i]];
    assert Word(|changes|) + Bodies(changes[..i]) + Word(|changes[i]|) + changes[i]
      == Word(|changes|) + (Bodies(changes[..i]) + Word(|changes[i]|) + changes[i]);
  }

  /** `frameChanges`: one pass for the size, one that writes behind a moving offset. */
  method FrameChanges(changes: seq<seq<Byte>>) returns (out: array<Byte>)
    ensures out[..] == Framed(changes)
  {
    hide Word, Bodies;
    OfNothing([]);
    var total := 4;
    for i := 0 to |changes|
      invariant total == 4 + |Bodies(changes[..i])|
    {
      BodiesPrefix(changes, i);
      total := total + 4 + |changes[i]|;
    }
    assert changes[..|changes|] == changes;
    out := new Byte[total](_ => 0);
    SetWord(out, 0, |changes|);
    var offset := 4;
    assert changes[..0] == [] && out[..4] == Word(|changes|) + [];
    for i := 0 to |changes|
      invariant offset == 4 + |Bodies(changes[..i])| && out.Length == 4 + |Bodies(changes)|
      invariant offset <= out.Length && out[..offset] == Word(|changes|) + Bodies(changes[..i])
    {
      FrameGrows(changes, i);
      WriteChange(out, offset, changes[i]);
      offset := offset + 4 + |changes[i]|;
    }
    assert out[..offset] == out[..];
  }

  lemma ParseUnfolds(rest: seq<Byte>, count: nat)
    ensures count > 0 ==>
      && (|rest| < 4 || |rest| < 4 + ReadWord(rest) ==> Parse(rest, count) == None)
      && (|rest| >= 4 && |rest| >= 4 + ReadWord(rest) ==>
      var n := ReadWord(rest); Parse(rest, count) == Prepend([rest[4..4 + n]], Parse(rest[4 + n..], count - 1)))
  {
  }

  lemma PrependTwice(a: seq<seq<Byte>>, b: seq<seq<Byte>>, back: Option<seq<seq<Byte>>>)
    ensures Prepend(a, Prepend(b, back)) == Prepend(a + b, back)
    ensures Prepend([], back) == back
  {
    if back.Some? {
      assert a + (b + back.value) == a + b + back.value;
      assert [] + back.value == back.value;
    }
  }

  /** `unframeChanges`, with `None` where it throws. */
  method UnframeChanges(blob: array<Byte>) returns (changes: Option<seq<seq<Byte>>>)
    ensures changes == Unframed(blob[..])
  {
    hide ReadWord, Parse;
    if blob.Length < 4 { return None; }
    var count := ReadWord(blob[..]);
    if count > MAX_CHANGES { return None; }
    var list: seq<seq<Byte>> := [];
    var offset := 4;
    assert blob[..][4..] == blob[4..];
    PrependTwice([], [], Parse(blob[4..], count));
    for i := 0 to count
      invariant 4 <= offset <= blob.Length
      invariant Unframed(blob[..]) == Prepend(list, Parse(blob[offset..], count - i))
    {
      var rest := blob[offset..];
      ParseUnfolds(rest, count - i);
      if offset + 4 > blob.Length { return None; }
      var n := ReadWord(rest);
      offset := offset + 4;
      if offset + n > blob.Length { return None; }
      assert rest[4..4 + n] == blob[offset..offset + n] && rest[4 + n..] == blob[offset + n..];
      PrependTwice(list, [rest[4..4 + n]], Parse(rest[4 + n..], count - i - 1));
      list := list + [blob[offset..offset + n]];
      offset := offset + n;
    }
    OfNothing(blob[offset..]);
    if offset != blob.Length { return None; }
    changes := Some(list);
    assert list + [] == list;
  }

  lemma OfNothing(rest: seq<Byte>)
    ensures Bodies([]) == [] && Parse(rest, 0) == if rest == [] then Some([]) else None
  {
  }
}
