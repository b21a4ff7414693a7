/** The record key of one membership event in the space document: `did:generation:status`. A DID has colons
    of its own, so the key is read from its end.

    A document is merged from many writers, and a key is the only thing that keeps two events apart: writing
    and reading keys must be inverse to each other, or one event would hide another. */
module MembershipKey {
  import opened Common
  import Text

  datatype Status = Active | Removed

  datatype Event = Event(did: string, status: Status, generation: nat)

  const MAX_SAFE_INTEGER: nat := 9007199254740991

  predicate IsLineBreak(c: char) {
    c == '\n' || c == '\r' || c == '\U{2028}' || c == '\U{2029}'
  }

  predicate IsMethodChar(c: char) {
    'a' <= c <= 'z' || '0' <= c <= '9'
  }

  /** The method name of the DID ends just before `k`, and something follows the colon. */
  predicate MethodEndsAt(s: string, k: int) {
    && 5 <= k < |s| - 1 && s[k] == ':' && !IsLineBreak(s[k + 1])
    && forall j :: 4 <= j < k ==> IsMethodChar(s[j])
  }

  /** `^did:[a-z0-9]+:.+`. */
  predicate ValidDid(s: string) {
    |s| > 4 && s[..4] == "did:" && exists k :: 5 <= k < |s| && MethodEndsAt(s, k)
  }

  function StatusText(s: Status): (t: string)
    ensures ':' !in t
  {
    match s case Active => "active" case Removed => "removed"
  }

  function ReadStatus(t: string): Option<Status> {
    if t == "active" then Some(Active) else if t == "removed" then Some(Removed) else None
  }

  function Format(e: Event): Option<string> {
    if ValidDid(e.did) && e.generation <= MAX_SAFE_INTEGER
    then Some(e.did + ":" + Text.Decimal(e.generation) + ":" + StatusText(e.status))
    else None
  }

  /** The last index below `end` that holds a colon, or -1. */
  function LastColon(s: string, end: nat): (i: int)
    requires end <= |s|
    ensures -1 <= i < end
    ensures i >= 0 ==> s[i] == ':'
    ensures forall k :: i < k < end ==> s[k] != ':'
  {
    if end == 0 then -1 else if s[end - 1] == ':' then end - 1 else LastColon(s, end - 1)
  }

  function Parse(key: string): Option<Event> {
    var last := LastColon(key, |key|);
    if last < 0 then None
    else
      var second := LastColon(key, last);
      if second < 0 then None
      else
        var did, generation, status := key[..second], key[second + 1..last], ReadStatus(key[last + 1..]);
        if !ValidDid(did) || !Text.CanonicalDecimal(generation) || status.None?
           || Text.Value(generation) > MAX_SAFE_INTEGER then None
        else Some(Event(did, status.value, Text.Value(generation)))
  }

  lemma LastColonAt(s: string, front: string, back: string, rest: string)
    requires s == front + ":" + back + rest && ':' !in back
    ensures LastColon(s, |front| + 1 + |back|) == |front|
  {
    var end := |front| + 1 + |back|;
    forall k | |front| < k < end ensures s[k] != ':' {
      assert s[k] == back[k - |front| - 1];
    }
    assert s[|front|] == ':';
  }

  lemma SlicesOfJoin(s: string, front: string, back: string, rest: string)
    requires s == front + ":" + back + rest
    ensures s[..|front|] == front
    ensures s[|front| + 1..|front| + 1 + |back|] == back
  {
  }

  /** What can be written is read back as it was, whatever colons the DID holds. */
  lemma ParseOfFormat(e: Event)
    requires Format(e).Some?
    ensures Parse(Format(e).value) == Some(e)
  {
    hide ValidDid, LastColon;
    var d, g, s := e.did, Text.Decimal(e.generation), StatusText(e.status);
    var key := Format(e).value;
    var head := d + ":" + g;
    assert key == head + ":" + s + "";
    LastColonAt(key, head, s, "");
    SlicesOfJoin(key, head, s, "");
    assert key == d + ":" + g + (":" + s);
    LastColonAt(key, d, g, ":" + s);
    SlicesOfJoin(key, d, g, ":" + s);
    assert key[|head| + 1..] == s;
    Text.ValueOfDecimal(e.generation);
    hide Text.Decimal, Text.Value, Format;
  }

  /** Only canonical keys are accepted: a key that parses is the one its event is written under. */
  lemma FormatOfParse(key: string)
    requires Parse(key).Some?
    ensures Format(Parse(key).value) == Some(key)
  {
    var last := LastColon(key, |key|);
    var second := LastColon(key, last);
    Text.DecimalOfValue(key[second + 1..last]);
    assert key == key[..second] + ":" + key[second + 1..last] + ":" + key[last + 1..];
  }

  /** Distinct events have distinct keys. */
  lemma FormatIsInjective(a: Event, b: Event)
    requires Format(a).Some? && Format(a) == Format(b)
    ensures a == b
  {
    ParseOfFormat(a);
    ParseOfFormat(b);
  }
}
