/** One place where all documents of a session report whether they are still catching up.

    A source belongs to one coordinator lifecycle: whoever opens the next source for a document takes it over,
    and a source that was superseded, released or cleared is never heard again. */
module CatchUpRegistry {
  import opened Common

  type DocId = nat
  type Token = nat

  datatype DocState = DocState(docId: DocId, inFlight: bool, outstanding: bool, reason: nat)

  /** `states` is a map in insertion order; `sources` remembers the document of every token, counted from 1. */
  datatype Registry = Registry(
    states: seq<DocState>, owners: map<DocId, Token>, sources: seq<DocId>, overview: seq<DocState>, published: nat)

  datatype Op =
    | Source(doc: DocId)
    | Update(token: Token, state: DocState)
    | Release(token: Token)
    | Raw(state: DocState)
    | Forget(doc: DocId)
    | Clear

  const Empty := Registry([], map[], [], [], 0)

  // ---------------------------------------------------------------- what the operations do

  function LookUp(states: seq<DocState>, doc: DocId): Option<DocState> {
    if states == [] then None
    else if states[0].docId == doc then Some(states[0])
    else LookUp(states[1..], doc)
  }

  function Put(states: seq<DocState>, state: DocState): seq<DocState> {
    if states == [] then [state]
    else if states[0].docId == state.docId then [state] + states[1..]
    else [states[0]] + Put(states[1..], state)
  }

  function Remove(states: seq<DocState>, doc: DocId): seq<DocState> {
    if states == [] then []
    else if states[0].docId == doc then states[1..]
    else [states[0]] + Remove(states[1..], doc)
  }

  function Publish(r: Registry, states: seq<DocState>): Registry {
    r.(states := states, overview := states, published := r.published + 1)
  }

  function OnRaw(r: Registry, state: DocState): Registry {
    if LookUp(r.states, state.docId) == Some(state) then r
    else Publish(r, if state.outstanding then Put(r.states, state) else Remove(r.states, state.docId))
  }

  function OnForget(r: Registry, doc: DocId): Registry {
    if LookUp(r.states, doc).None? then r else Publish(r, Remove(r.states, doc))
  }

  predicate IsOwner(r: Registry, token: Token) {
    1 <= token <= |r.sources| && r.sources[token - 1] in r.owners && r.owners[r.sources[token - 1]] == token
  }

  function Step(r: Registry, op: Op): Registry {
    match op
    case Source(doc) => r.(owners := r.owners[doc := |r.sources| + 1], sources := r.sources + [doc])
    case Update(token, state) => if IsOwner(r, token) then OnRaw(r, state) else r
    case Release(token) =>
      if !IsOwner(r, token) then r
      else
        var doc := r.sources[token - 1];
        OnForget(r.(owners := r.owners - {doc}), doc)
    case Raw(state) => OnRaw(r, state)
    case Forget(doc) => OnForget(r, doc)
    case Clear => (var t := r.(owners := map[]); if t.states == [] then t else Publish(t, []))
  }

  function Run(ops: seq<Op>): Registry {
    if ops == [] then Empty else Step(Run(ops[..|ops| - 1]), ops[|ops| - 1])
  }

  // ---------------------------------------------------------------- reference: read off the history

  function Opened(ops: seq<Op>): seq<DocId> {
    if ops == [] then []
    else
      var last := ops[|ops| - 1];
      Opened(ops[..|ops| - 1]) + (if last.Source? then [last.doc] else [])
  }

  /** Nothing ends or supersedes source `token` of `doc` with this operation. */
  predicate Spares(op: Op, doc: DocId, token: Token) {
    op != Source(doc) && op != Clear && op != Release(token)
  }

  predicate OpenedAt(ops: seq<Op>, k: int, doc: DocId, token: Token) {
    0 <= k < |ops| && ops[k] == Source(doc) && |Opened(ops[..k + 1])| == token
  }

  /** The source was opened for the document, and nothing has ended or superseded it since. */
  ghost predicate Owns(ops: seq<Op>, doc: DocId, token: Token) {
    exists k :: OpenedAt(ops, k, doc, token) && forall j :: k < j < |ops| ==> Spares(ops[j], doc, token)
  }

  ghost predicate Heard(ops: seq<Op>, token: Token) {
    exists doc :: Owns(ops, doc, token)
  }

  /** Operation `j` has a say about `doc`; a source does only as long as it owns its document. */
  ghost predicate Speaks(ops: seq<Op>, j: nat, doc: DocId)
    requires j < |ops|
  {
    match ops[j]
    case Source(_) => false
    case Update(token, state) => state.docId == doc && Heard(ops[..j], token)
    case Release(token) => Owns(ops[..j], doc, token)
    case Raw(state) => state.docId == doc
    case Forget(d) => d == doc
    case Clear => true
  }

  function Says(op: Op): Option<DocState> {
    match op
    case Update(_, state) => if state.outstanding then Some(state) else None
    case Raw(state) => if state.outstanding then Some(state) else None
    case _ => None
  }

  ghost predicate HasLastWord(ops: seq<Op>, j: int, doc: DocId) {
    0 <= j < |ops| && Speaks(ops, j, doc) && forall i :: j < i < |ops| ==> !Speaks(ops, i, doc)
  }

  // ---------------------------------------------------------------- ownership

  lemma OwnsStep(ops: seq<Op>, op: Op, doc: DocId, token: Token)
    ensures Owns(ops + [op], doc, token)
      <==> (op == Source(doc) && token == |Opened(ops)| + 1) || (Owns(ops, doc, token) && Spares(op, doc, token))
  {
    var all := ops + [op];
    assert all[..|ops|] == ops && all[..|ops| + 1] == all;
    if Owns(all, doc, token) {
      var k :| OpenedAt(all, k, doc, token) && forall j :: k < j < |all| ==> Spares(all[j], doc, token);
      if k < |ops| {
        assert all[..k + 1] == ops[..k + 1];
        assert OpenedAt(ops, k, doc, token);
        assert forall j :: k < j < |ops| ==> Spares(all[j], doc, token) && all[j] == ops[j];
        assert Spares(all[|ops|], doc, token);
      }
    }
    if op == Source(doc) && token == |Opened(ops)| + 1 {
      assert OpenedAt(all, |ops|, doc, token);
    }
    if Owns(ops, doc, token) && Spares(op, doc, token) {
      var k :| OpenedAt(ops, k, doc, token) && forall j :: k < j < |ops| ==> Spares(ops[j], doc, token);
      assert all[..k + 1] == ops[..k + 1];
      assert OpenedAt(all, k, doc, token);
      assert forall j :: k < j < |all| ==> Spares(all[j], doc, token);
    }
  }

  predicate OwnerEntry(r: Registry, doc: DocId, token: Token) {
    doc in r.owners && r.owners[doc] == token && 1 <= token <= |r.sources| && r.sources[token - 1] == doc
  }

  lemma OwnerEntryStep(r: Registry, op: Op, doc: DocId, token: Token)
    requires forall d :: d in r.owners ==> OwnerEntry(r, d, r.owners[d])
    ensures OwnerEntry(Step(r, op), doc, token)
      <==> (op == Source(doc) && token == |r.sources| + 1) || (OwnerEntry(r, doc, token) && Spares(op, doc, token))
    ensures Step(r, op).sources == r.sources + (if op.Source? then [op.doc] else [])
  {
  }

  /** The owner map and the token table say exactly what the history says. */
  lemma {:induction false} OwnersMatchHistory(ops: seq<Op>)
    ensures Run(ops).sources == Opened(ops)
    ensures forall doc, token :: Owns(ops, doc, token) <==> OwnerEntry(Run(ops), doc, token)
    ensures forall doc :: doc in Run(ops).owners ==> OwnerEntry(Run(ops), doc, Run(ops).owners[doc])
    decreases |ops|
  {
    if ops != [] {
      var init, op := ops[..|ops| - 1], ops[|ops| - 1];
      OwnersMatchHistory(init);
      assert ops == init + [op];
      OwnerEntryStep(Run(init), op, 0, 0);
      hide Owns, Step;
      forall doc, token ensures Owns(ops, doc, token) <==> OwnerEntry(Run(ops), doc, token) {
        OwnsStep(init, op, doc, token);
        OwnerEntryStep(Run(init), op, doc, token);
      }
      OwnerMapIsSound(Run(init), op);
    }
  }

  lemma OwnerMapIsSound(r: Registry, op: Op)
    requires forall d :: d in r.owners ==> OwnerEntry(r, d, r.owners[d])
    ensures var t := Step(r, op); forall d :: d in t.owners ==> OwnerEntry(t, d, t.owners[d])
  {
  }

  lemma HeardIsOwner(ops: seq<Op>, token: Token)
    ensures Heard(ops, token) <==> IsOwner(Run(ops), token)
    ensures IsOwner(Run(ops), token) ==> Owns(ops, Run(ops).sources[token - 1], token)
  {
    OwnersMatchHistory(ops);
  }

  /** A source that is not heard now is never heard again: its token does not come back. */
  lemma {:induction false} SilencedForever(ops: seq<Op>, more: seq<Op>, token: Token)
    requires 1 <= token <= |Opened(ops)| && !Heard(ops, token)
    ensures !Heard(ops + more, token)
    decreases |more|
  {
    if more == [] {
      assert ops + more == ops;
    } else {
      var init, op := more[..|more| - 1], more[|more| - 1];
      SilencedForever(ops, init, token);
      assert ops + more == ops + init + [op];
      OpenedGrows(ops, init);
      forall doc ensures !Owns(ops + more, doc, token) {
        OwnsStep(ops + init, op, doc, token);
      }
    }
  }

  lemma {:induction false} OpenedGrows(ops: seq<Op>, more: seq<Op>)
    ensures |Opened(ops + more)| >= |Opened(ops)|
    decreases |more|
  {
    if more == [] {
      assert ops + more == ops;
    } else {
      assert (ops + more)[..|ops + more| - 1] == ops + more[..|more| - 1];
      OpenedGrows(ops, more[..|more| - 1]);
    }
  }

  /** And a source that is not heard changes nothing, whatever it reports and however often it releases. */
  lemma UnheardSourcesAreSilent(ops: seq<Op>, token: Token, state: DocState)
    ensures !Heard(ops, token) ==> Step(Run(ops), Update(token, state)) == Run(ops) == Step(Run(ops), Release(token))
  {
    HeardIsOwner(ops, token);
  }

  // ---------------------------------------------------------------- the overview

  predicate OneEach(states: seq<DocState>) {
    forall i, j :: 0 <= i < j < |states| ==> states[i].docId != states[j].docId
  }

  lemma {:induction false} PutLooksUp(states: seq<DocState>, state: DocState, doc: DocId)
    ensures LookUp(Put(states, state), doc) == if doc == state.docId then Some(state) else LookUp(states, doc)
    decreases |states|
  {
    if states != [] { PutLooksUp(states[1..], state, doc); }
  }

  lemma {:induction false} LookUpFinds(states: seq<DocState>, doc: DocId)
    ensures LookUp(states, doc).Some? ==> LookUp(states, doc).value in states && LookUp(states, doc).value.docId == doc
    ensures LookUp(states, doc).None? ==> forall e :: e in states ==> e.docId != doc
    decreases |states|
  {
    if states != [] { LookUpFinds(states[1..], doc); }
  }

  lemma {:induction false} RemoveLooksUp(states: seq<DocState>, gone: DocId, doc: DocId)
    requires OneEach(states)
    ensures LookUp(Remove(states, gone), doc) == if doc == gone then None else LookUp(states, doc)
    decreases |states|
  {
    if states != [] {
      RemoveLooksUp(states[1..], gone, doc);
      if states[0].docId == gone == doc {
        LookUpFinds(states[1..], doc);
      }
    }
  }

  lemma {:induction false} PutKeepsOneEach(states: seq<DocState>, state: DocState)
    requires OneEach(states)
    ensures OneEach(Put(states, state))
    ensures forall e :: e in Put(states, state) ==> e == state || e in states
    decreases |states|
  {
    if states != [] && states[0].docId != state.docId {
      PutKeepsOneEach(states[1..], state);
      var rest := Put(states[1..], state);
      forall j | 0 <= j < |rest| ensures rest[j].docId != states[0].docId {
        assert rest[j] in rest;
      }
    }
  }

  lemma {:induction false} RemoveKeepsOneEach(states: seq<DocState>, doc: DocId)
    requires OneEach(states)
    ensures OneEach(Remove(states, doc))
    ensures forall e :: e in Remove(states, doc) ==> e in states
    decreases |states|
  {
    if states != [] && states[0].docId != doc {
      RemoveKeepsOneEach(states[1..], doc);
      var rest := Remove(states[1..], doc);
      forall j | 0 <= j < |rest| ensures rest[j].docId != states[0].docId {
        assert rest[j] in rest;
      }
    }
  }

  ghost predicate Sound(r: Registry) {
    r.overview == r.states && OneEach(r.states) && forall e :: e in r.states ==> e.outstanding
  }

  lemma StepKeepsSound(r: Registry, op: Op)
    requires Sound(r)
    ensures Sound(Step(r, op))
  {
    match op
    case Update(_, state) => PutKeepsOneEach(r.states, state); RemoveKeepsOneEach(r.states, state.docId);
    case Raw(state) => PutKeepsOneEach(r.states, state); RemoveKeepsOneEach(r.states, state.docId);
    case Forget(doc) => RemoveKeepsOneEach(r.states, doc);
    case Release(token) => if IsOwner(r, token) { RemoveKeepsOneEach(r.states, r.sources[token - 1]); }
    case _ =>
  }

  /** In every reachable state the published overview is the current table, one entry a document, and only
      documents with something outstanding. */
  lemma {:induction false} OverviewIsOutstanding(ops: seq<Op>)
    ensures Sound(Run(ops))
    decreases |ops|
  {
    if ops != [] {
      OverviewIsOutstanding(ops[..|ops| - 1]);
      StepKeepsSound(Run(ops[..|ops| - 1]), ops[|ops| - 1]);
    }
  }

  /** The operation is a report that is heard. */
  predicate Reports(r: Registry, op: Op, state: DocState) {
    op == Raw(state) || (op.Update? && op.state == state && IsOwner(r, op.token))
  }

  /** Listeners are told once where the overview changes, and besides exactly where a document that is not in
      it reports that nothing is outstanding. */
  lemma PublishesWhatChanges(ops: seq<Op>, op: Op)
    ensures var r, t := Run(ops), Step(Run(ops), op);
      t.published == r.published
        + if t.overview != r.overview || (exists state :: Reports(r, op, state) && !state.outstanding
                                            && LookUp(r.states, state.docId).None?) then 1 else 0
  {
    OverviewIsOutstanding(ops);
    var r, t := Run(ops), Step(Run(ops), op);
    StepKeepsSound(r, op);
    if op.Raw? || op.Update? {
      StepLooksUp(r, op, op.state.docId);
      assert Reports(r, op, op.state) <==> op.Raw? || IsOwner(r, op.token);
    }
    if op.Forget? { StepLooksUp(r, op, op.doc); }
    if op.Release? && IsOwner(r, op.token) { StepLooksUp(r, op, r.sources[op.token - 1]); }
  }

  function Docs(states: seq<DocState>): seq<DocId> {
    seq(|states|, i requires 0 <= i < |states| => states[i].docId)
  }

  /** A document keeps its place as long as it is there, and a new one comes last. */
  lemma {:induction false} PutKeepsTheOrder(states: seq<DocState>, state: DocState)
    ensures Docs(Put(states, state)) == Docs(states) + if LookUp(states, state.docId).None? then [state.docId] else []
    decreases |states|
  {
    if states != [] {
      if states[0].docId != state.docId {
        PutKeepsTheOrder(states[1..], state);
        assert Docs(states) == [states[0].docId] + Docs(states[1..]);
        assert Put(states, state)[1..] == Put(states[1..], state);
        assert Docs(Put(states, state)) == [states[0].docId] + Docs(Put(states[1..], state));
      }
    }
  }

  /** And the others keep theirs when one goes. */
  lemma {:induction false} RemoveTakesOne(states: seq<DocState>, doc: DocId) returns (i: nat)
    requires LookUp(states, doc).Some?
    ensures i < |states| && states[i].docId == doc && Remove(states, doc) == states[..i] + states[i + 1..]
    decreases |states|
  {
    if states[0].docId == doc {
      i := 0;
    } else {
      var j := RemoveTakesOne(states[1..], doc);
      i := j + 1;
      assert states[..i] + states[i + 1..] == [states[0]] + (states[1..][..j] + states[1..][j + 1..]);
    }
  }

  lemma StepLooksUp(r: Registry, op: Op, doc: DocId)
    requires Sound(r)
    ensures LookUp(Step(r, op).states, doc)
      == match op
         case Source(_) => LookUp(r.states, doc)
         case Update(token, state) => if IsOwner(r, token) && state.docId == doc then Says(op)
           else LookUp(r.states, doc)
         case Release(token) => if IsOwner(r, token) && r.sources[token - 1] == doc then None else LookUp(r.states, doc)
         case Raw(state) => if state.docId == doc then Says(op) else LookUp(r.states, doc)
         case Forget(d) => if d == doc then None else LookUp(r.states, doc)
         case Clear => None
  {
    LookUpFinds(r.states, doc);
    match op
    case Update(_, state) => PutLooksUp(r.states, state, doc); RemoveLooksUp(r.states, state.docId, doc);
    case Raw(state) => PutLooksUp(r.states, state, doc); RemoveLooksUp(r.states, state.docId, doc);
    case Forget(d) => RemoveLooksUp(r.states, d, doc);
    case Release(token) => if IsOwner(r, token) { RemoveLooksUp(r.states, r.sources[token - 1], doc); }
    case _ =>
  }

  lemma SpeaksAtEnd(ops: seq<Op>, doc: DocId)
    requires ops != []
    ensures var init, op := ops[..|ops| - 1], ops[|ops| - 1]; var r := Run(init);
      && LookUp(Run(ops).states, doc) == (if Speaks(ops, |ops| - 1, doc) then Says(op) else LookUp(r.states, doc))
      && forall j :: 0 <= j < |init| ==> (Speaks(ops, j, doc) <==> Speaks(init, j, doc))
  {
    var init, op := ops[..|ops| - 1], ops[|ops| - 1];
    OverviewIsOutstanding(init);
    StepLooksUp(Run(init), op, doc);
    OwnersMatchHistory(init);
    if op.Update? { HeardIsOwner(init, op.token); }
    if op.Release? { HeardIsOwner(init, op.token); }
    forall j | 0 <= j < |init| ensures Speaks(ops, j, doc) <==> Speaks(init, j, doc) {
      assert ops[..j] == init[..j];
    }
  }

  /** The entry of a document is what the last operation with a say about it said: a replay in which only
      current owners and unbound callers are heard. */
  lemma {:induction false} EntryIsTheLastWord(ops: seq<Op>, doc: DocId)
    ensures forall j :: HasLastWord(ops, j, doc) ==> LookUp(Run(ops).states, doc) == Says(ops[j])
    ensures (forall j :: 0 <= j < |ops| ==> !Speaks(ops, j, doc)) ==> LookUp(Run(ops).states, doc) == None
    decreases |ops|
  {
    if ops != [] {
      var init := ops[..|ops| - 1];
      SpeaksAtEnd(ops, doc);
      EntryIsTheLastWord(init, doc);
      forall j | HasLastWord(ops, j, doc) ensures LookUp(Run(ops).states, doc) == Says(ops[j]) {
        if j < |init| { assert HasLastWord(init, j, doc); }
      }
    }
  }

  /** Taking a document over does not forget what the predecessor reported. Until somebody with a say about
      the document speaks again, its entry is the one it had at the handover: absent exactly if it was
      absent then. */
  lemma {:induction false} HandoverKeepsTheEntry(before: seq<Op>, after: seq<Op>, doc: DocId)
    requires var ops := before + [Source(doc)] + after;
      forall j :: |before| < j < |ops| ==> !Speaks(ops, j, doc)
    ensures LookUp(Run(before + [Source(doc)] + after).states, doc) == LookUp(Run(before).states, doc)
    decreases |after|
  {
    var ops := before + [Source(doc)] + after;
    SpeaksAtEnd(ops, doc);
    if after == [] {
      assert ops[..|ops| - 1] == before && !Speaks(ops, |before|, doc);
    } else {
      var shorter := after[..|after| - 1];
      assert ops[..|ops| - 1] == before + [Source(doc)] + shorter;
      HandoverKeepsTheEntry(before, shorter, doc);
    }
  }

  // ---------------------------------------------------------------- the class

  class CatchUpTable {
    var states: seq<DocState>
    var owners: map<DocId, Token>
    var sources: seq<DocId>
    var overview: seq<DocState>
    var published: nat

    function Model(): Registry
      reads this
    {
      Registry(states, owners, sources, overview, published)
    }

    constructor ()
      ensures Model() == Empty
    {
      states, owners, sources, overview, published := [], map[], [], [], 0;
    }

    method OpenSource(doc: DocId) returns (token: Token)
      modifies this
      ensures Model() == Step(old(Model()), Source(doc)) && token == |old(sources)| + 1 && IsOwner(Model(), token)
    {
      token := |sources| + 1;
      sources := sources + [doc];
      owners := owners[doc := token];
    }

    method PublishAll()
      modifies `overview, `published
      ensures Model() == Publish(old(Model()), old(states))
    {
      overview := states;
      published := published + 1;
    }

    method UpdateState(state: DocState)
      modifies this
      ensures Model() == Step(old(Model()), Raw(state))
    {
      if LookUp(states, state.docId) == Some(state) { return; }
      if state.outstanding {
        states := Put(states, state);
      } else {
        states := Remove(states, state.docId);
      }
      PublishAll();
    }

    method UpdateFrom(token: Token, state: DocState)
      modifies this
      ensures Model() == Step(old(Model()), Update(token, state))
    {
      if !IsOwner(Model(), token) { return; }
      UpdateState(state);
    }

    method ForgetDoc(doc: DocId)
      modifies this
      ensures Model() == Step(old(Model()), Forget(doc))
    {
      if LookUp(states, doc).None? { return; }
      states := Remove(states, doc);
      PublishAll();
    }

    method ReleaseSource(token: Token)
      modifies this
      ensures Model() == Step(old(Model()), Release(token))
    {
      if !IsOwner(Model(), token) { return; }
      owners := owners - {sources[token - 1]};
      ForgetDoc(sources[token - 1]);
    }

    method ClearAll()
      modifies this
      ensures Model() == Step(old(Model()), Clear)
    {
      owners := map[];
      if |states| == 0 { return; }
      states := [];
      PublishAll();
    }
  }
}
