/** Key rotations of one space that arrive early: before the invite, or beyond a gap in the generations.
    They are buffered in memory and durably, acknowledged, and drained once the gap may have closed. */
module PendingRotations {
  /* A drain takes what is buffered in ascending order. Rotations are handled one at a time; a pass handles
     the buffered ones with the same code that can start a pass, so a flag keeps passes from nesting. */

  type Id = nat
  type Key = nat

  /** `genuine`: sent by a known admin with a valid capability. */
  datatype Msg = Msg(id: Id, generation: nat, key: Key, genuine: bool)

  datatype Reason = FutureRotation | UnknownSpace

  datatype Pending = Pending(msg: Msg, reason: Reason)

  /** Message ids whose durable write, or durable delete, fails. */
  datatype Faults = Faults(noSave: set<Id>, noDelete: set<Id>)

  /** What handling a rotation changes; `handled` lists the ids the last drain pass handled. */
  datatype Store = Store(keys: seq<Key>, mem: seq<Pending>, disk: map<Id, Pending>, handled: seq<Id>)

  function Local(keys: seq<Key>): int {
    |keys| - 1
  }

  // ---------------------------------------------------------------- the buffer

  function Without(mem: seq<Pending>, id: Id): seq<Pending> {
    if mem == [] then []
    else if mem[0].msg.id == id then Without(mem[1..], id)
    else [mem[0]] + Without(mem[1..], id)
  }

  function Buffer(s: Store, p: Pending, f: Faults): Store {
    s.(mem := Without(s.mem, p.msg.id) + [p],
       disk := if p.msg.id in f.noSave then s.disk else s.disk[p.msg.id := p])
  }

  /** A failing durable delete is swallowed. */
  function Delete(s: Store, id: Id, f: Faults): Store {
    s.(mem := Without(s.mem, id), disk := if id in f.noDelete then s.disk else s.disk - {id})
  }

  function MsgsOf(mem: seq<Pending>): set<Msg> {
    set p | p in mem :: p.msg
  }

  predicate Has(mem: seq<Pending>, id: Id) {
    exists p :: p in mem && p.msg.id == id
  }

  /** The order of a drain pass: by generation, and at equal generations by reason, stably. */
  predicate ComesFirst(a: Pending, b: Pending) {
    a.msg.generation < b.msg.generation
    || (a.msg.generation == b.msg.generation && (a.reason.FutureRotation? || b.reason.UnknownSpace?))
  }

  function InsertOrdered(p: Pending, r: seq<Pending>): seq<Pending> {
    if r == [] || ComesFirst(p, r[0]) then [p] + r else [r[0]] + InsertOrdered(p, r[1..])
  }

  function Ordered(mem: seq<Pending>): seq<Pending> {
    if mem == [] then [] else InsertOrdered(mem[0], Ordered(mem[1..]))
  }

  // ---------------------------------------------------------------- handling

  datatype Decision = Hold | Reject | Ignore | Apply

  /** For a known space: authority is checked before the generations are compared. */
  function Decide(keys: seq<Key>, m: Msg): Decision {
    if !m.genuine then Reject
    else if BeyondGap(keys, m) then Hold
    else if m.generation <= Local(keys) then Ignore
    else Apply
  }

  predicate BeyondGap(keys: seq<Key>, m: Msg) {
    Local(keys) < 0 || m.generation > Local(keys) + 1
  }

  function Applied(s: Store, m: Msg, f: Faults): Store {
    Delete(s.(keys := s.keys + [m.key]), m.id, f)
  }

  /** Handling while a pass runs: the pass that an application asks for is already there. */
  function HandleInPass(s: Store, m: Msg, f: Faults): Store {
    match Decide(s.keys, m)
    case Hold => Buffer(s, Pending(m, FutureRotation), f)
    case Apply => Applied(s, m, f)
    case _ => s
  }

  function DrainOne(s: Store, p: Pending, f: Faults): Store {
    HandleInPass(Delete(s, p.msg.id, f).(handled := s.handled + [p.msg.id]), p.msg, f)
  }

  function Drain(s: Store, todo: seq<Pending>, f: Faults): Store
    decreases |todo|
  {
    if todo == [] then s
    else Drain(if Has(s.mem, todo[0].msg.id) then DrainOne(s, todo[0], f) else s, todo[1..], f)
  }

  function Process(s: Store, f: Faults): Store {
    if s.mem == [] then s else Drain(s.(handled := []), Ordered(s.mem), f)
  }

  function Handle(s: Store, m: Msg, f: Faults): Store {
    if Decide(s.keys, m).Apply? then Process(Applied(s, m, f), f) else HandleInPass(s, m, f)
  }

  // ---------------------------------------------------------------- uniqueness and order

  ghost predicate Distinct(mem: seq<Pending>) {
    mem == [] || (!Has(mem[1..], mem[0].msg.id) && Distinct(mem[1..]))
  }

  ghost predicate Ascending(mem: seq<Pending>) {
    mem == []
    || ((forall q :: q in mem[1..] ==> mem[0].msg.generation <= q.msg.generation) && Ascending(mem[1..]))
  }

  lemma {:induction false} WithoutSet(mem: seq<Pending>, id: Id)
    ensures forall p :: p in Without(mem, id) <==> p in mem && p.msg.id != id
    ensures Distinct(mem) ==> Distinct(Without(mem, id))
    ensures MsgsOf(Without(mem, id)) == set m | m in MsgsOf(mem) && m.id != id
    decreases |mem|
  {
    if mem != [] {
      WithoutSet(mem[1..], id);
      assert forall p :: p in mem <==> p == mem[0] || p in mem[1..];
    }
    forall m ensures m in MsgsOf(Without(mem, id)) <==> m in MsgsOf(mem) && m.id != id {
      if m in MsgsOf(mem) {
        var p :| p in mem && p.msg == m;
      }
    }
  }

  lemma {:induction false} AppendKeepsDistinct(mem: seq<Pending>, p: Pending)
    requires Distinct(mem) && !Has(mem, p.msg.id)
    ensures Distinct(mem + [p])
    decreases |mem|
  {
    if mem != [] {
      assert (mem + [p])[1..] == mem[1..] + [p];
      assert mem[0] in mem && forall q :: q in mem[1..] ==> q in mem;
      AppendKeepsDistinct(mem[1..], p);
    }
  }

  lemma BufferSet(s: Store, p: Pending, f: Faults)
    ensures MsgsOf(Buffer(s, p, f).mem) == (set m | m in MsgsOf(s.mem) && m.id != p.msg.id) + {p.msg}
    ensures Distinct(s.mem) ==> Distinct(Buffer(s, p, f).mem)
  {
    WithoutSet(s.mem, p.msg.id);
    var r := Without(s.mem, p.msg.id);
    if Distinct(s.mem) { AppendKeepsDistinct(r, p); }
    forall m ensures m in MsgsOf(r + [p]) <==> m in MsgsOf(r) || m == p.msg {
      assert p in r + [p];
      if m in MsgsOf(r) {
        var q :| q in r && q.msg == m;
        assert q in r + [p];
      }
    }
  }

  lemma {:induction false} InsertSet(p: Pending, r: seq<Pending>)
    ensures forall q :: q in InsertOrdered(p, r) <==> q == p || q in r
    decreases |r|
  {
    if r != [] && !ComesFirst(p, r[0]) {
      InsertSet(p, r[1..]);
      assert forall q :: q in r <==> q == r[0] || q in r[1..];
    }
  }

  lemma {:induction false} InsertKeepsOrder(p: Pending, r: seq<Pending>)
    requires Ascending(r) && Distinct(r) && !Has(r, p.msg.id)
    ensures Ascending(InsertOrdered(p, r)) && Distinct(InsertOrdered(p, r))
    decreases |r|
  {
    if r != [] {
      assert forall q :: q in r <==> q == r[0] || q in r[1..];
      if ComesFirst(p, r[0]) {
        assert ([p] + r)[1..] == r;
      } else {
        InsertKeepsOrder(p, r[1..]);
        InsertSet(p, r[1..]);
        assert InsertOrdered(p, r)[1..] == InsertOrdered(p, r[1..]);
      }
    }
  }

  /** A pass takes exactly the buffered messages, each once, in ascending generations. */
  lemma {:induction false} OrderedIsAnOrdering(mem: seq<Pending>)
    requires Distinct(mem)
    ensures Ascending(Ordered(mem)) && Distinct(Ordered(mem)) && forall q :: q in Ordered(mem) <==> q in mem
    decreases |mem|
  {
    if mem != [] {
      OrderedIsAnOrdering(mem[1..]);
      InsertSet(mem[0], Ordered(mem[1..]));
      InsertKeepsOrder(mem[0], Ordered(mem[1..]));
      assert forall q :: q in mem <==> q == mem[0] || q in mem[1..];
    }
  }

  function Priority(r: Reason): nat {
    match r
    case FutureRotation => 0
    case UnknownSpace => 1
  }

  /** By generation, and within one what waits for its turn before what came too early for the space. */
  ghost predicate InOrder(mem: seq<Pending>) {
    forall i, j :: 0 <= i < j < |mem| ==>
      mem[i].msg.generation < mem[j].msg.generation
      || (mem[i].msg.generation == mem[j].msg.generation && Priority(mem[i].reason) <= Priority(mem[j].reason))
  }

  /** What is buffered at that generation for that reason, in its order. */
  function Class(mem: seq<Pending>, generation: nat, reason: Reason): seq<Pending> {
    if mem == [] then []
    else (if mem[0].msg.generation == generation && mem[0].reason == reason then [mem[0]] else [])
         + Class(mem[1..], generation, reason)
  }

  lemma {:induction false} InsertIsInOrder(p: Pending, r: seq<Pending>)
    requires InOrder(r)
    ensures InOrder(InsertOrdered(p, r))
    decreases |r|
  {
    if r != [] && !ComesFirst(p, r[0]) {
      var rest := InsertOrdered(p, r[1..]);
      InsertIsInOrder(p, r[1..]);
      InsertSet(p, r[1..]);
      forall q | q in rest
        ensures r[0].msg.generation < q.msg.generation
          || (r[0].msg.generation == q.msg.generation && Priority(r[0].reason) <= Priority(q.reason))
      {
        if q != p {
          var k :| 0 <= k < |r[1..]| && r[1..][k] == q;
          assert r[k + 1] == q;
        }
      }
    }
  }

  lemma {:induction false} InsertIsStable(p: Pending, r: seq<Pending>, generation: nat, reason: Reason)
    ensures Class(InsertOrdered(p, r), generation, reason) == Class([p] + r, generation, reason)
    decreases |r|
  {
    if r != [] && !ComesFirst(p, r[0]) {
      InsertIsStable(p, r[1..], generation, reason);
      assert ([p] + r)[1..] == r && ([p] + r[1..])[1..] == r[1..];
      assert InsertOrdered(p, r)[1..] == InsertOrdered(p, r[1..]);
    }
  }

  /** The order of a pass is that of the source's sort, which is stable. */
  lemma {:induction false} OrderIsStable(mem: seq<Pending>, generation: nat, reason: Reason)
    ensures InOrder(Ordered(mem)) && Class(Ordered(mem), generation, reason) == Class(mem, generation, reason)
    decreases |mem|
  {
    if mem != [] {
      OrderIsStable(mem[1..], generation, reason);
      InsertIsInOrder(mem[0], Ordered(mem[1..]));
      InsertIsStable(mem[0], Ordered(mem[1..]), generation, reason);
      assert ([mem[0]] + Ordered(mem[1..]))[1..] == Ordered(mem[1..]);
    }
  }

  // ---------------------------------------------------------------- a drain pass

  /** One message of a pass, on the level of the set of buffered messages. */
  lemma DrainOneSet(s: Store, p: Pending, f: Faults)
    requires Distinct(s.mem)
    ensures var t := DrainOne(s, p, f);
      && Distinct(t.mem) && t.handled == s.handled + [p.msg.id]
      && MsgsOf(t.mem)
         == (set m | m in MsgsOf(s.mem) && m.id != p.msg.id) + (if Decide(s.keys, p.msg).Hold? then {p.msg} else {})
      && t.keys == if Decide(s.keys, p.msg).Apply? then s.keys + [p.msg.key] else s.keys
  {
    var d := Delete(s, p.msg.id, f);
    WithoutSet(s.mem, p.msg.id);
    WithoutSet(d.mem, p.msg.id);
    BufferSet(d, Pending(p.msg, FutureRotation), f);
  }

  lemma {:induction false} DistinctIds(mem: seq<Pending>, a: Msg, b: Msg)
    requires Distinct(mem) && a in MsgsOf(mem) && b in MsgsOf(mem) && a.id == b.id
    ensures a == b
    decreases |mem|
  {
    assert forall q :: q in mem <==> q == mem[0] || q in mem[1..];
    if a != mem[0].msg && b != mem[0].msg {
      DistinctIds(mem[1..], a, b);
    }
  }

  /** In the middle of a pass: what is buffered beside `todo` lies beyond the gap, and no generation ahead
      is lower. */
  ghost predicate MidPass(keys: seq<Key>, held: set<Msg>, todo: seq<Pending>) {
    && Distinct(todo) && Ascending(todo)
    && forall m :: m in held && m !in MsgsOf(todo) ==>
         m.genuine && BeyondGap(keys, m) && (todo != [] ==> m.generation <= todo[0].msg.generation)
  }

  ghost predicate KeysFrom(before: seq<Key>, after: seq<Key>, msgs: set<Msg>) {
    && before <= after
    && forall k :: |before| <= k < |after| ==> Supplies(msgs, k, after[k])
  }

  ghost predicate Supplies(msgs: set<Msg>, generation: int, key: Key) {
    exists m :: m in msgs && m.genuine && m.generation == generation && m.key == key
  }

  function Ids(todo: seq<Pending>): seq<Id> {
    if todo == [] then [] else [todo[0].msg.id] + Ids(todo[1..])
  }

  lemma MidPassAdvances(s: Store, todo: seq<Pending>, f: Faults)
    requires Distinct(s.mem) && todo != [] && MsgsOf(todo) <= MsgsOf(s.mem)
    requires MidPass(s.keys, MsgsOf(s.mem), todo)
    ensures var t := DrainOne(s, todo[0], f);
      && MidPass(t.keys, MsgsOf(t.mem), todo[1..])
      && MsgsOf(todo[1..]) <= MsgsOf(t.mem)
  {
    var p, rest := todo[0], todo[1..];
    var t := DrainOne(s, p, f);
    DrainOneSet(s, p, f);
    assert forall q :: q in todo <==> q == p || q in rest;
    forall m | m in MsgsOf(t.mem) && m !in MsgsOf(rest)
      ensures m.genuine && BeyondGap(t.keys, m) && (rest != [] ==> m.generation <= rest[0].msg.generation)
    {
      assert rest != [] ==> rest[0] in rest;
      if m != p.msg {
        assert m !in MsgsOf(todo);
      }
    }
    forall q | q in rest ensures q.msg in MsgsOf(t.mem) {
      assert q.msg in MsgsOf(todo);
    }
  }

  /** What a pass does to `msgs`: the keys it adds are those of genuine buffered rotations, each in its own
      generation, and none where there was no key; no genuine rotation is left out at the first gap; and what
      stays buffered is exactly what is genuine and lies beyond that gap. */
  ghost predicate PassResult(before: seq<Key>, msgs: set<Msg>, after: seq<Key>, left: set<Msg>) {
    && KeysFrom(before, after, msgs) && (before == [] ==> after == [])
    && (forall m :: m in msgs && m.genuine ==> m.generation <= Local(after) || BeyondGap(after, m))
    && left == set m | m in msgs && m.genuine && BeyondGap(after, m)
  }

  lemma PassResultStep(before: seq<Key>, msgs: set<Msg>, m: Msg, middle: seq<Key>, rest: set<Msg>,
      after: seq<Key>, left: set<Msg>)
    ensures m in msgs && middle == (if Decide(before, m).Apply? then before + [m.key] else before)
      && rest == (if Decide(before, m).Hold? then msgs else msgs - {m}) && PassResult(middle, rest, after, left)
      ==> PassResult(before, msgs, after, left)
    ensures MidPass(before, msgs, []) ==> PassResult(before, msgs, before, msgs)
  {
  }

  lemma Unfolded(s: Store, todo: seq<Pending>, f: Faults)
    ensures Ids(todo) == if todo == [] then [] else [todo[0].msg.id] + Ids(todo[1..])
    ensures todo == [] ==> Drain(s, todo, f) == s
    ensures todo != [] ==> todo[0].msg in MsgsOf(todo)
  {
  }

  lemma DrainUnfolds(s: Store, todo: seq<Pending>, f: Faults)
    ensures todo != [] && todo[0].msg in MsgsOf(s.mem) ==>
      Drain(s, todo, f) == Drain(DrainOne(s, todo[0], f), todo[1..], f)
  {
  }

  lemma HeldSet(s: Store, p: Pending, f: Faults)
    requires Distinct(s.mem) && p.msg in MsgsOf(s.mem)
    ensures MsgsOf(DrainOne(s, p, f).mem)
      == if Decide(s.keys, p.msg).Hold? then MsgsOf(s.mem) else MsgsOf(s.mem) - {p.msg}
  {
    hide DrainOne, Distinct;
    DrainOneSet(s, p, f);
    forall n | n in MsgsOf(s.mem) && n.id == p.msg.id ensures n == p.msg {
      DistinctIds(s.mem, n, p.msg);
    }
  }

  /** A pass has that result, and handles every buffered message exactly once. */
  lemma {:induction false} DrainSettles(s: Store, todo: seq<Pending>, f: Faults)
    requires Distinct(s.mem) && MsgsOf(todo) <= MsgsOf(s.mem) && MidPass(s.keys, MsgsOf(s.mem), todo)
    ensures var t := Drain(s, todo, f);
      && Distinct(t.mem) && t.handled == s.handled + Ids(todo)
      && PassResult(s.keys, MsgsOf(s.mem), t.keys, MsgsOf(t.mem))
    decreases |todo|
  {
    hide *;
    Unfolded(s, todo, f);
    if todo == [] {
      PassResultStep(s.keys, MsgsOf(s.mem), Msg(0, 0, 0, false), [], {}, [], {});
    } else {
      var u := DrainOne(s, todo[0], f);
      MidPassAdvances(s, todo, f);
      DrainUnfolds(s, todo, f);
      DrainOneSet(s, todo[0], f);
      HeldSet(s, todo[0], f);
      DrainSettles(u, todo[1..], f);
      var t := Drain(u, todo[1..], f);
      PassResultStep(s.keys, MsgsOf(s.mem), todo[0].msg, u.keys, MsgsOf(u.mem), t.keys, MsgsOf(t.mem));
      assert s.handled + Ids(todo) == u.handled + Ids(todo[1..]);
    }
  }

  lemma ProcessSettles(s: Store, f: Faults)
    requires Distinct(s.mem)
    ensures var t := Process(s, f);
      && Distinct(t.mem) && (s.mem != [] ==> t.handled == Ids(Ordered(s.mem)))
      && PassResult(s.keys, MsgsOf(s.mem), t.keys, MsgsOf(t.mem))
  {
    if s.mem != [] {
      OrderedIsAnOrdering(s.mem);
      assert MsgsOf(Ordered(s.mem)) == MsgsOf(s.mem);
      DrainSettles(s.(handled := []), Ordered(s.mem), f);
    }
  }

  // ---------------------------------------------------------------- every run

  /** `base`, `delivered` and `acked` are history: the generation up to which keys came from outside, the
      messages that arrived, the ids acknowledged. */
  datatype State = State(known: bool, store: Store, base: int, delivered: set<Msg>, acked: set<Id>)

  const Initial := State(false, Store([], [], map[], []), -1, {}, {})

  /** `Invite` makes the space known, with the keys up to some generation; for a space that is known
      already, `ReInvite` imports further keys. `Restart` loads the durable buffer in any order. */
  datatype Event =
    | Deliver(msg: Msg, faults: Faults)
    | Invite(keys: seq<Key>, faults: Faults)
    | ReInvite(more: seq<Key>)
    | Restart(loaded: seq<Pending>, faults: Faults)

  function OnDeliver(s: State, m: Msg, f: Faults): State {
    var buffered := !s.known || Decide(s.store.keys, m).Hold?;
    State(
      s.known,
      if s.known then Handle(s.store, m, f) else Buffer(s.store, Pending(m, UnknownSpace), f),
      s.base,
      s.delivered + {m},
      if buffered && m.id in f.noSave then s.acked else s.acked + {m.id})
  }

  function Step(s: State, e: Event): State {
    match e
    case Deliver(m, f) => OnDeliver(s, m, f)
    case Invite(keys, f) =>
      if s.known then s
      else s.(known := true, base := |keys| - 1, store := Process(s.store.(keys := keys), f))
    case ReInvite(more) =>
      if s.known then s.(base := |s.store.keys + more| - 1, store := s.store.(keys := s.store.keys + more)) else s
    case Restart(loaded, f) =>
      s.(store := if s.known then Process(s.store.(mem := loaded), f) else s.store.(mem := loaded))
  }

  /** A redelivered id carries the same message, and a restart loads what is on disk. */
  ghost predicate Allowed(s: State, e: Event) {
    match e
    case Deliver(m, _) => forall d :: d in s.delivered && d.id == m.id ==> d == m
    case Restart(loaded, _) => Loads(s.store.disk, loaded)
    case _ => true
  }

  ghost predicate Loads(disk: map<Id, Pending>, loaded: seq<Pending>) {
    Distinct(loaded) && forall p :: p in loaded <==> p.msg.id in disk && disk[p.msg.id] == p
  }

  ghost predicate AllowedRun(s: State, es: seq<Event>)
    decreases |es|
  {
    es == [] || (Allowed(s, es[0]) && AllowedRun(Step(s, es[0]), es[1..]))
  }

  function Run(s: State, es: seq<Event>): State
    decreases |es|
  {
    if es == [] then s else Run(Step(s, es[0]), es[1..])
  }

  /** Nothing is lost and nothing invented: every genuine rotation that arrived is covered by the local keys
      or still buffered, and every key beyond `base` is that of a genuine rotation to its generation. */
  ghost predicate Consistent(s: State) {
    var mem, keys := MsgsOf(s.store.mem), s.store.keys;
    && Distinct(s.store.mem) && mem <= s.delivered
    && (forall a, b :: a in s.delivered && b in s.delivered && a.id == b.id ==> a == b)
    && (if s.known then (forall m :: m in mem ==> m.genuine) else keys == [] && mem == s.delivered)
    && (forall m :: m in s.delivered && m.genuine ==> m.generation <= Local(keys) || m in mem)
    && -1 <= s.base <= Local(keys) && KeysFrom(keys[..s.base + 1], keys, s.delivered)
  }

  /** Moreover, once the space is known, what is buffered is exactly what lies beyond the first gap. */
  ghost predicate Settled(s: State) {
    Consistent(s) && (s.known ==> forall m :: m in MsgsOf(s.store.mem) ==> BeyondGap(s.store.keys, m))
  }

  lemma KeysFromExtends(before: seq<Key>, middle: seq<Key>, after: seq<Key>, a: set<Msg>, b: set<Msg>, c: set<Msg>)
    ensures KeysFrom(before, middle, a) && KeysFrom(middle, after, b) && a <= c && b <= c ==>
      KeysFrom(before, after, c)
  {
  }

  lemma ApplyKeeps(s: State, m: Msg, f: Faults)
    requires Consistent(s) && Allowed(s, Deliver(m, f)) && s.known && Decide(s.store.keys, m).Apply?
    ensures Settled(OnDeliver(s, m, f))
  {
    var u := Applied(s.store, m, f);
    WithoutSet(s.store.mem, m.id);
    ProcessSettles(u, f);
    var t := OnDeliver(s, m, f);
    var keys := s.store.keys;
    assert KeysFrom(keys, u.keys, {m}) by {
      assert Supplies({m}, |keys|, m.key);
    }
    KeysFromExtends(keys[..s.base + 1], keys, u.keys, s.delivered, {m}, t.delivered);
    KeysFromExtends(keys[..s.base + 1], u.keys, t.store.keys, t.delivered, MsgsOf(u.mem), t.delivered);
    assert t.store.keys[..t.base + 1] == keys[..s.base + 1];
  }

  lemma HoldKeeps(s: State, m: Msg, f: Faults)
    requires Consistent(s) && Allowed(s, Deliver(m, f)) && (!s.known || Decide(s.store.keys, m).Hold?)
    ensures Consistent(OnDeliver(s, m, f))
    ensures Settled(s) ==> Settled(OnDeliver(s, m, f))
  {
    var p, t := Pending(m, if s.known then FutureRotation else UnknownSpace), OnDeliver(s, m, f);
    BufferSet(s.store, p, f);
    assert t.store == Buffer(s.store, p, f) && t.store.keys == s.store.keys;
    hide Consistent, MsgsOf, Distinct, Buffer, OnDeliver;
    OneMoreHeld(s, t, m);
  }

  lemma OneMoreHeld(s: State, t: State, m: Msg)
    requires Consistent(s) && (forall d :: d in s.delivered && d.id == m.id ==> d == m)
    requires t.known == s.known && t.base == s.base && t.store.keys == s.store.keys && t.delivered == s.delivered + {m}
    requires Distinct(t.store.mem)
    requires MsgsOf(t.store.mem) == (set n | n in MsgsOf(s.store.mem) && n.id != m.id) + {m}
    requires s.known ==> m.genuine && BeyondGap(s.store.keys, m)
    ensures Consistent(t) && (Settled(s) ==> Settled(t))
  {
    var keys := s.store.keys;
    KeysFromExtends(keys[..s.base + 1], keys, keys, s.delivered, {}, t.delivered);
    assert KeysFrom(keys, keys, {});
    hide MsgsOf, Distinct, KeysFrom;
  }

  lemma DeliverKeeps(s: State, m: Msg, f: Faults)
    requires Consistent(s) && Allowed(s, Deliver(m, f))
    ensures Consistent(OnDeliver(s, m, f))
    ensures Settled(s) ==> Settled(OnDeliver(s, m, f))
  {
    var keys := s.store.keys;
    if !s.known || Decide(keys, m).Hold? {
      HoldKeeps(s, m, f);
    } else if Decide(keys, m).Apply? {
      ApplyKeeps(s, m, f);
    } else {
      KeysFromExtends(keys[..s.base + 1], keys, keys, s.delivered, {}, s.delivered + {m});
    }
  }

  lemma PassKeeps(s: State, f: Faults)
    requires s.known && Consistent(s)
    ensures Settled(s.(store := Process(s.store, f)))
  {
    ProcessSettles(s.store, f);
    var t := Process(s.store, f);
    KeysFromExtends(s.store.keys[..s.base + 1], s.store.keys, t.keys, s.delivered, MsgsOf(s.store.mem), s.delivered);
    assert t.keys[..s.base + 1] == s.store.keys[..s.base + 1];
  }

  lemma InviteKeeps(s: State, keys: seq<Key>, f: Faults)
    requires Consistent(s)
    ensures Consistent(Step(s, Invite(keys, f)))
    ensures Settled(s) || !s.known ==> Settled(Step(s, Invite(keys, f)))
  {
    if !s.known {
      var u := s.store.(keys := keys);
      ProcessSettles(u, f);
      var t := Step(s, Invite(keys, f));
      assert t.store.keys[..t.base + 1] == keys;
      KeysFromExtends(keys, keys, t.store.keys, {}, MsgsOf(u.mem), s.delivered);
    }
  }

  /** A delivery is acknowledged unless it has to wait and its durable write fails. */
  predicate Acknowledges(s: State, e: Event, id: Id) {
    && e.Deliver? && e.msg.id == id
    && !((!s.known || (e.msg.genuine && BeyondGap(s.store.keys, e.msg))) && id in e.faults.noSave)
  }

  predicate EverAcknowledges(s: State, es: seq<Event>, id: Id)
    decreases |es|
  {
    es != [] && (Acknowledges(s, es[0], id) || EverAcknowledges(Step(s, es[0]), es[1..], id))
  }

  predicate Delivers(es: seq<Event>, m: Msg) {
    exists k :: 0 <= k < |es| && es[k].Deliver? && es[k].msg == m
  }

  /** Over every run: the space is known from the invite on, exactly the messages that were delivered have
      arrived, and exactly those are acknowledged that were at one of their deliveries. */
  lemma {:induction false} HistoryIsWhatHappened(s: State, es: seq<Event>, m: Msg, id: Id)
    ensures var t := Run(s, es);
      && (t.known <==> s.known || exists k :: 0 <= k < |es| && es[k].Invite?)
      && (m in t.delivered <==> m in s.delivered || Delivers(es, m))
      && (id in t.acked <==> id in s.acked || EverAcknowledges(s, es, id))
    decreases |es|
  {
    if es != [] {
      OneStepHappens(s, es[0], m, id);
      hide Step, Acknowledges;
      var t, rest := Step(s, es[0]), es[1..];
      HistoryIsWhatHappened(t, rest, m, id);
      assert forall k :: 0 <= k < |rest| ==> rest[k] == es[k + 1];
      assert Delivers(es, m) <==> (es[0].Deliver? && es[0].msg == m) || Delivers(rest, m) by {
        if k :| 0 <= k < |es| && es[k].Deliver? && es[k].msg == m {
          if k > 0 { assert rest[k - 1].Deliver? && rest[k - 1].msg == m; }
        }
      }
      if k :| 0 <= k < |es| && es[k].Invite? {
        if k > 0 { assert rest[k - 1].Invite?; }
      }
    }
  }

  lemma OneStepHappens(s: State, e: Event, m: Msg, id: Id)
    ensures var t := Step(s, e);
      && (t.known <==> s.known || e.Invite?)
      && (m in t.delivered <==> m in s.delivered || (e.Deliver? && e.msg == m))
      && (id in t.acked <==> id in s.acked || Acknowledges(s, e, id))
  {
    hide Handle, Process, Buffer;
  }

  // ---------------------------------------------------------------- memory and disk

  const NoFaults := Faults({}, {})

  /** Memory and durable buffer hold the same pending messages. */
  ghost predicate Agree(s: Store) {
    && (forall p :: p in s.mem ==> p.msg.id in s.disk && s.disk[p.msg.id] == p)
    && (forall id :: id in s.disk ==> s.disk[id] in s.mem && s.disk[id].msg.id == id)
  }

  lemma DeleteAgrees(s: Store, id: Id)
    requires Agree(s)
    ensures Agree(Delete(s, id, NoFaults))
  {
    WithoutSet(s.mem, id);
  }

  lemma BufferAgrees(s: Store, p: Pending)
    requires Agree(s)
    ensures Agree(Buffer(s, p, NoFaults))
  {
    WithoutSet(s.mem, p.msg.id);
    var t := Buffer(s, p, NoFaults);
    assert t.mem[|t.mem| - 1] == p;
    forall id | id in t.disk ensures t.disk[id] in t.mem {
      if id != p.msg.id { assert s.disk[id] in Without(s.mem, p.msg.id); }
    }
  }

  lemma InPassAgrees(s: Store, m: Msg)
    requires Agree(s)
    ensures Agree(HandleInPass(s, m, NoFaults))
  {
    BufferAgrees(s, Pending(m, FutureRotation));
    DeleteAgrees(s.(keys := s.keys + [m.key]), m.id);
  }

  lemma {:induction false} DrainAgrees(s: Store, todo: seq<Pending>)
    requires Agree(s)
    ensures Agree(Drain(s, todo, NoFaults))
    decreases |todo|
  {
    hide HandleInPass, Delete;
    if todo != [] {
      var d := Delete(s, todo[0].msg.id, NoFaults);
      DeleteAgrees(s, todo[0].msg.id);
      InPassAgrees(d.(handled := s.handled + [todo[0].msg.id]), todo[0].msg);
      DrainAgrees(if Has(s.mem, todo[0].msg.id) then DrainOne(s, todo[0], NoFaults) else s, todo[1..]);
    }
  }

  lemma HandleAgrees(s: Store, m: Msg)
    requires Agree(s)
    ensures Agree(Handle(s, m, NoFaults)) && Agree(Process(s, NoFaults))
  {
    var u := Applied(s, m, NoFaults);
    DeleteAgrees(s.(keys := s.keys + [m.key]), m.id);
    InPassAgrees(s, m);
    DrainAgrees(u.(handled := []), Ordered(u.mem));
    DrainAgrees(s.(handled := []), Ordered(s.mem));
  }

  ghost predicate FaultFree(e: Event) {
    match e
    case Deliver(_, f) => f == NoFaults
    case Invite(_, f) => f == NoFaults
    case ReInvite(_) => true
    case Restart(_, f) => f == NoFaults
  }

  lemma StepKeeps(s: State, e: Event)
    requires Consistent(s) && Agree(s.store) && Allowed(s, e) && FaultFree(e) && !e.ReInvite?
    ensures Consistent(Step(s, e)) && Agree(Step(s, e).store)
    ensures Settled(s) || e.Restart? ==> Settled(Step(s, e))
  {
    hide Handle, Process, Buffer;
    match e
    case Deliver(m, f) =>
      DeliverKeeps(s, m, f);
      HandleAgrees(s.store, m);
      BufferAgrees(s.store, Pending(m, UnknownSpace));
    case Invite(keys, f) =>
      InviteKeeps(s, keys, f);
      HandleAgrees(s.store.(keys := keys), Msg(0, 0, 0, false));
    case Restart(loaded, f) =>
      var u := s.(store := s.store.(mem := loaded));
      HandleAgrees(u.store, Msg(0, 0, 0, false));
      if s.known { PassKeeps(u, f); }
    case _ =>
  }

  // ---------------------------------------------------------------- main results

  /** Rotations in any order, with duplicates and gaps, before and after the invite, with restarts between:
      the state is always settled, and memory and durable buffer agree. */
  lemma {:induction false} RotationsConverge(s: State, es: seq<Event>)
    requires s == Initial || (Settled(s) && Agree(s.store))
    requires AllowedRun(s, es) && forall k :: 0 <= k < |es| ==> FaultFree(es[k]) && !es[k].ReInvite?
    ensures Settled(Run(s, es)) && Agree(Run(s, es).store)
    decreases |es|
  {
    hide Step;
    if es != [] {
      StepKeeps(s, es[0]);
      RotationsConverge(Step(s, es[0]), es[1..]);
    }
  }

  ghost predicate Arrived(s: State, k: int) {
    exists m :: m in s.delivered && m.genuine && m.generation == k
  }

  ghost predicate Contiguous(s: State, g: int) {
    forall k :: s.base < k <= g ==> Arrived(s, k)
  }

  /** What settled means: the local generation is the longest contiguous one that the delivered genuine
      rotations reach from `base`, and the buffer holds exactly the delivered genuine rotations beyond. */
  lemma SettledIsLongestContiguous(s: State, g: int)
    requires Settled(s) && s.known && s.store.keys != []
    ensures g <= Local(s.store.keys) <==> g <= s.base || Contiguous(s, g)
    ensures MsgsOf(s.store.mem) == set m | m in s.delivered && m.genuine && m.generation > Local(s.store.keys) + 1
  {
    var l := Local(s.store.keys);
    if g <= l {
      forall k | s.base < k <= g ensures Arrived(s, k) {
        assert Supplies(s.delivered, k, s.store.keys[k]);
      }
    } else {
      forall m | m in s.delivered && m.genuine ensures m.generation != l + 1 {
        assert m.generation <= l || BeyondGap(s.store.keys, m);
      }
      assert !Arrived(s, l + 1);
    }
  }

  /** A re-invite to a space that is already known imports keys without draining. The state is settled
      afterwards exactly when every buffered generation is still beyond the next one after all keys, or
      there is no key at all. */
  lemma ReInviteSettlesIffNothingIsInReach(s: State, more: seq<Key>)
    requires Settled(s) && s.known
    ensures Settled(Step(s, ReInvite(more)))
      <==> |s.store.keys| + |more| == 0
           || forall m :: m in MsgsOf(s.store.mem) ==> m.generation > |s.store.keys| + |more|
  {
    ReInviteIsConsistent(s, more);
    hide Consistent, MsgsOf;
  }

  lemma ReInviteIsConsistent(s: State, more: seq<Key>)
    requires Consistent(s) && s.known
    ensures Consistent(Step(s, ReInvite(more)))
  {
    hide Distinct;
    var keys := s.store.keys + more;
    assert keys[..|keys|] == keys;
  }

  /** The next rotation that applies makes up for it. */
  lemma NextApplicationSettles(s: State, more: seq<Key>, m: Msg, f: Faults)
    requires Settled(s) && s.known
    requires var t := Step(s, ReInvite(more)); Allowed(t, Deliver(m, f)) && Decide(t.store.keys, m).Apply?
    ensures Settled(Step(Step(s, ReInvite(more)), Deliver(m, f)))
  {
    var t := Step(s, ReInvite(more));
    var keys := s.store.keys + more;
    assert t.store.keys[..t.base + 1] == keys;
    ApplyKeeps(t, m, f);
  }

  lemma ReInviteCanStrand()
    ensures var s := Run(Initial, [Invite([7], NoFaults), Deliver(Msg(1, 3, 9, true), NoFaults), ReInvite([8, 8])]);
      Local(s.store.keys) == 2 && s.store.mem == [Pending(Msg(1, 3, 9, true), FutureRotation)] && !Settled(s)
  {
    var m := Msg(1, 3, 9, true);
    var s1 := Step(Initial, Invite([7], NoFaults));
    var s2 := Step(s1, Deliver(m, NoFaults));
    var s3 := Step(s2, ReInvite([8, 8]));
    var es := [Invite([7], NoFaults), Deliver(m, NoFaults), ReInvite([8, 8])];
    assert es[1..][1..] == [ReInvite([8, 8])];
    assert Run(Initial, es) == Run(s1, es[1..]) == Run(s2, es[1..][1..]) == s3;
    assert s3.store.mem == [Pending(m, FutureRotation)];
    assert s3.store.mem[0] in s3.store.mem && m in MsgsOf(s3.store.mem);
  }

  // ---------------------------------------------------------------- failing durable writes

  /** What holds under failing writes too: the buffers hold messages that arrived, the durable one each under
      its own id, and only such ids are acknowledged. */
  ghost predicate Sound(s: State) {
    && Distinct(s.store.mem) && MsgsOf(s.store.mem) <= s.delivered && Filed(s.store.disk, s.delivered)
    && (forall a, b :: a in s.delivered && b in s.delivered && a.id == b.id ==> a == b)
    && (forall id :: id in s.acked ==> exists m :: m in s.delivered && m.id == id)
    && (!s.known ==> s.store.keys == [])
  }

  ghost predicate Filed(disk: map<Id, Pending>, msgs: set<Msg>) {
    forall id :: id in disk ==> disk[id].msg.id == id && disk[id].msg in msgs
  }

  /** No acknowledged rotation is lost: each is covered by the local keys, or waits in memory and on disk. */
  ghost predicate Kept(s: State) {
    KeptIn(s.store, Counting(s))
  }

  /** Before the space is known nothing is judged; afterwards only what is genuine counts. */
  ghost function Counting(s: State): set<Msg> {
    set m | m in s.delivered && m.id in s.acked && (s.known ==> m.genuine)
  }

  ghost predicate KeptIn(s: Store, msgs: set<Msg>) {
    forall m :: m in msgs && m.generation > Local(s.keys) ==> m in MsgsOf(s.mem) && m.id in s.disk
  }

  /** Where the buffer is settled that says: what is acknowledged and still pending is on disk. */
  lemma KeptWhereSettled(s: State)
    requires Settled(s)
    ensures Kept(s) <==> forall m :: m in MsgsOf(s.store.mem) && m.id in s.acked ==> m.id in s.store.disk
  {
    hide MsgsOf, Distinct;
    forall m | m in MsgsOf(s.store.mem) && m.id in s.acked
      ensures m in Counting(s) && m.generation > Local(s.store.keys)
    {
    }
  }

  lemma DrainOneDisk(s: Store, p: Pending, f: Faults)
    ensures var t := DrainOne(s, p, f);
      && (forall id :: id != p.msg.id ==> (id in t.disk <==> id in s.disk))
      && (Decide(s.keys, p.msg).Hold? ==>
            (p.msg.id in t.disk <==> p.msg.id !in f.noSave || (p.msg.id in f.noDelete && p.msg.id in s.disk)))
  {
  }

  /** A message that a pass puts back is on disk afterwards if its write succeeded, or else if its delete
      had failed. */
  lemma {:induction false} DrainDisk(s: Store, todo: seq<Pending>, f: Faults)
    requires Distinct(s.mem) && MsgsOf(todo) <= MsgsOf(s.mem) && MidPass(s.keys, MsgsOf(s.mem), todo)
    ensures var t := Drain(s, todo, f);
      && (forall id :: !Has(todo, id) ==> (id in t.disk <==> id in s.disk))
      && (forall m :: m in MsgsOf(todo) && m in MsgsOf(t.mem) ==>
            (m.id in t.disk <==> m.id !in f.noSave || (m.id in f.noDelete && m.id in s.disk)))
    decreases |todo|
  {
    if todo != [] {
      var m := todo[0].msg;
      var u := DrainOne(s, todo[0], f);
      DrainOneSet(s, todo[0], f);
      HeldSet(s, todo[0], f);
      MidPassAdvances(s, todo, f);
      DrainUnfolds(s, todo, f);
      DrainOneDisk(s, todo[0], f);
      DrainSettles(u, todo[1..], f);
      hide DrainOne, Drain, Ascending, MidPass, MsgsOf, Decide;
      DrainDisk(u, todo[1..], f);
    }
  }

  lemma PassDisk(s: Store, f: Faults)
    requires Distinct(s.mem)
    ensures var t := Process(s, f);
      forall m :: m in MsgsOf(t.mem) ==>
        (m.id in t.disk <==> m.id !in f.noSave || (m.id in f.noDelete && m.id in s.disk))
  {
    if s.mem != [] {
      OrderedIsAnOrdering(s.mem);
      assert MsgsOf(Ordered(s.mem)) == MsgsOf(s.mem);
      DrainDisk(s.(handled := []), Ordered(s.mem), f);
      DrainSettles(s.(handled := []), Ordered(s.mem), f);
    }
  }

  lemma {:induction false} DrainFiles(s: Store, todo: seq<Pending>, f: Faults, msgs: set<Msg>)
    requires Filed(s.disk, msgs) && MsgsOf(todo) <= msgs
    ensures Filed(Drain(s, todo, f).disk, msgs)
    decreases |todo|
  {
    if todo != [] {
      var u := if Has(s.mem, todo[0].msg.id) then DrainOne(s, todo[0], f) else s;
      assert todo[0] in todo && forall q :: q in todo[1..] ==> q in todo;
      assert MsgsOf(todo[1..]) <= MsgsOf(todo) && todo[0].msg in MsgsOf(todo);
      hide MsgsOf;
      assert Filed(u.disk, msgs);
      DrainFiles(u, todo[1..], f, msgs);
    }
  }

  lemma ProcessFiles(s: Store, f: Faults, msgs: set<Msg>)
    requires Distinct(s.mem) && Filed(s.disk, msgs) && MsgsOf(s.mem) <= msgs
    ensures var t := Process(s, f);
      Filed(t.disk, msgs) && Distinct(t.mem) && MsgsOf(t.mem) <= msgs
  {
    ProcessSettles(s, f);
    if s.mem != [] {
      OrderedIsAnOrdering(s.mem);
      assert MsgsOf(Ordered(s.mem)) == MsgsOf(s.mem);
      DrainFiles(s.(handled := []), Ordered(s.mem), f, msgs);
    }
  }

  /** No drain can reach `n`: there is no key at all, or some generation on the way is that of no genuine
      buffered rotation. */
  predicate BehindGap(keys: seq<Key>, msgs: set<Msg>, n: Msg) {
    keys == [] || exists g :: Local(keys) < g < n.generation && NoneOf(msgs, g)
  }

  predicate NoneOf(msgs: set<Msg>, g: int) {
    forall m :: m in msgs && m.genuine ==> m.generation != g
  }

  /** A pass leaves exactly the genuine rotations behind such a gap. */
  lemma StaysBehindTheGap(s: Store, f: Faults, n: Msg)
    requires Distinct(s.mem) && n in MsgsOf(s.mem)
    ensures n in MsgsOf(Process(s, f).mem) <==> n.genuine && BehindGap(s.keys, MsgsOf(s.mem), n)
  {
    ProcessSettles(s, f);
    var msgs, t := MsgsOf(s.mem), Process(s, f);
    hide Process, MsgsOf, Distinct;
    if n in MsgsOf(t.mem) && s.keys != [] {
      assert NoneOf(msgs, Local(t.keys) + 1);
    }
    if n.genuine && s.keys != [] && BehindGap(s.keys, msgs, n) {
      var g :| Local(s.keys) < g < n.generation && NoneOf(msgs, g);
      assert g > Local(t.keys) || !Supplies(msgs, g, t.keys[g]);
    }
  }

  /** A drain that starts with `keys` and `msgs`: an acknowledged rotation waits behind a gap, its durable
      delete succeeds, and writing it back fails. */
  predicate DrainLoses(keys: seq<Key>, msgs: set<Msg>, acked: set<Id>, f: Faults) {
    exists n :: n in msgs && Endangered(n, acked, f) && BehindGap(keys, msgs, n)
  }

  predicate Endangered(n: Msg, acked: set<Id>, f: Faults) {
    n.genuine && n.id in acked && n.id in f.noSave && n.id !in f.noDelete
  }

  /** The drains are those of a delivery that applies, of the invite, and of a restart into a known space. */
  predicate Loses(s: State, e: Event) {
    match e
    case Deliver(m, f) =>
      s.known && Decide(s.store.keys, m).Apply?
      && DrainLoses(s.store.keys + [m.key], MsgsOf(s.store.mem), s.acked, f)
    case Invite(keys, f) => !s.known && DrainLoses(keys, MsgsOf(s.store.mem), s.acked, f)
    case ReInvite(_) => false
    case Restart(loaded, f) => s.known && DrainLoses(s.store.keys, MsgsOf(loaded), s.acked, f)
  }

  /** One drain, `msgs` being the acknowledged genuine rotations. */
  lemma ProcessKeepsIff(s: Store, f: Faults, acked: set<Id>, msgs: set<Msg>)
    requires Distinct(s.mem) && KeptIn(s, msgs)
    requires forall n :: n in MsgsOf(s.mem) ==> (n in msgs <==> n.genuine && n.id in acked)
    requires forall n :: n in msgs ==> n.genuine && n.id in acked
    ensures KeptIn(Process(s, f), msgs) <==> !DrainLoses(s.keys, MsgsOf(s.mem), acked, f)
  {
    var t := Process(s, f);
    ProcessSettles(s, f);
    PassDisk(s, f);
    forall n | n in MsgsOf(s.mem)
      ensures n in MsgsOf(t.mem) <==> n.genuine && BehindGap(s.keys, MsgsOf(s.mem), n)
    {
      StaysBehindTheGap(s, f, n);
    }
    hide Process, MsgsOf, BehindGap, Distinct, KeysFrom;
    assert s.keys <= t.keys && MsgsOf(t.mem) <= MsgsOf(s.mem);
  }

  lemma BufferIsSound(s: State, m: Msg, f: Faults)
    requires Sound(s) && Allowed(s, Deliver(m, f)) && (!s.known || Decide(s.store.keys, m).Hold?)
    ensures Sound(OnDeliver(s, m, f))
    ensures Kept(s) ==> Kept(OnDeliver(s, m, f))
  {
    var p, t := Pending(m, if s.known then FutureRotation else UnknownSpace), OnDeliver(s, m, f);
    BufferSet(s.store, p, f);
    hide MsgsOf, Distinct;
    assert t.store == Buffer(s.store, p, f) && t.store.keys == s.store.keys && m in MsgsOf(t.store.mem);
    assert Filed(t.store.disk, t.delivered);
    if Kept(s) {
      forall n | n in Counting(t) && n.generation > Local(t.store.keys)
        ensures n in MsgsOf(t.store.mem) && n.id in t.store.disk
      {
        if n.id in s.acked {
          var d :| d in s.delivered && d.id == n.id;
          assert d == n && n in Counting(s);
        }
      }
    }
  }

  lemma ApplyKeepsIff(s: State, m: Msg, f: Faults)
    requires Sound(s) && Allowed(s, Deliver(m, f)) && s.known && Decide(s.store.keys, m).Apply?
    ensures Sound(OnDeliver(s, m, f))
    ensures Kept(s) ==> (Kept(OnDeliver(s, m, f)) <==> !Loses(s, Deliver(m, f)))
  {
    var t, u := OnDeliver(s, m, f), Applied(s.store, m, f);
    AppliedStore(s, m, f);
    hide MsgsOf, Distinct, Process, Applied, DrainLoses, KeptIn;
    ProcessFiles(u, f, t.delivered);
    assert t.store == Process(u, f);
    if Kept(s) {
      ProcessKeepsIff(u, f, t.acked, Counting(t));
      SameDrain(u.keys, MsgsOf(s.store.mem), s.acked, m, f);
    }
  }

  /** Where the drain of a delivery that applies starts. */
  lemma AppliedStore(s: State, m: Msg, f: Faults)
    requires Sound(s) && Allowed(s, Deliver(m, f)) && s.known && Decide(s.store.keys, m).Apply?
    ensures var t, u := OnDeliver(s, m, f), Applied(s.store, m, f);
      && u.keys == s.store.keys + [m.key] && Distinct(u.mem) && Filed(u.disk, t.delivered)
      && MsgsOf(u.mem) == MsgsOf(s.store.mem) - {m}
      && (Kept(s) ==> KeptIn(u, Counting(t)))
  {
    var t, u := OnDeliver(s, m, f), Applied(s.store, m, f);
    WithoutSet(s.store.mem, m.id);
    hide MsgsOf, Distinct, Process;
    assert MsgsOf(u.mem) == MsgsOf(s.store.mem) - {m};
    if Kept(s) {
      forall n | n in Counting(t) && n.generation > Local(u.keys) ensures n in MsgsOf(u.mem) && n.id in u.disk {
        assert n.id != m.id && n in Counting(s);
      }
    }
  }

  /** The rotation that has just been applied fills no gap beyond itself. */
  lemma SameDrain(keys: seq<Key>, msgs: set<Msg>, acked: set<Id>, m: Msg, f: Faults)
    requires keys != [] && m.generation == Local(keys)
    requires forall n :: n in msgs && n.id == m.id ==> n == m
    ensures DrainLoses(keys, msgs, acked, f) <==> DrainLoses(keys, msgs - {m}, acked + {m.id}, f)
  {
    forall n ensures BehindGap(keys, msgs, n) <==> BehindGap(keys, msgs - {m}, n) {
      forall g | g > Local(keys) ensures NoneOf(msgs, g) <==> NoneOf(msgs - {m}, g) {
      }
    }
    assert !BehindGap(keys, msgs, m);
  }

  lemma InviteKeepsIff(s: State, keys: seq<Key>, f: Faults)
    requires Sound(s) && !s.known
    ensures var e := Invite(keys, f); Sound(Step(s, e)) && (Kept(s) ==> (Kept(Step(s, e)) <==> !Loses(s, e)))
  {
    var u, t := s.store.(keys := keys), Step(s, Invite(keys, f));
    hide MsgsOf, Distinct, Process;
    ProcessFiles(u, f, s.delivered);
    assert t.store == Process(u, f);
    if Kept(s) {
      assert Counting(t) <= Counting(s) && Local(s.store.keys) == -1;
      ProcessKeepsIff(u, f, s.acked, Counting(t));
    }
  }

  lemma RestartKeepsIff(s: State, loaded: seq<Pending>, f: Faults)
    requires Sound(s) && Loads(s.store.disk, loaded)
    ensures var e := Restart(loaded, f); Sound(Step(s, e)) && (Kept(s) ==> (Kept(Step(s, e)) <==> !Loses(s, e)))
  {
    var u, t := s.store.(mem := loaded), Step(s, Restart(loaded, f));
    forall n ensures n in MsgsOf(loaded) <==> n.id in s.store.disk && s.store.disk[n.id].msg == n {
      if n.id in s.store.disk && s.store.disk[n.id].msg == n {
        assert s.store.disk[n.id] in loaded;
      }
    }
    hide MsgsOf, Distinct, Process;
    assert MsgsOf(loaded) <= s.delivered;
    ProcessFiles(u, f, s.delivered);
    assert t.store == if s.known then Process(u, f) else u;
    if Kept(s) {
      assert Counting(t) == Counting(s);
      assert KeptIn(u, Counting(s)) by {
        forall n | n in Counting(s) && n.id in s.store.disk ensures n in MsgsOf(loaded) {
          assert s.store.disk[n.id].msg == n;
        }
      }
      if s.known { ProcessKeepsIff(u, f, s.acked, Counting(s)); }
    }
  }

  /** Each step loses an acknowledged rotation exactly in such a drain. */
  lemma KeptUnlessLost(s: State, e: Event)
    requires Sound(s) && Allowed(s, e)
    ensures Sound(Step(s, e))
    ensures Kept(s) ==> (Kept(Step(s, e)) <==> !Loses(s, e))
  {
    match e
    case Deliver(m, f) =>
      if !s.known || Decide(s.store.keys, m).Hold? {
        BufferIsSound(s, m, f);
      } else if Decide(s.store.keys, m).Apply? {
        ApplyKeepsIff(s, m, f);
      } else {
        hide MsgsOf, Distinct;
      }
    case Invite(keys, f) =>
      if !s.known { InviteKeepsIff(s, keys, f); }
    case ReInvite(more) =>
      hide MsgsOf, Distinct;
      assert Counting(Step(s, e)) == Counting(s);
    case Restart(loaded, f) =>
      RestartKeepsIff(s, loaded, f);
  }

  ghost predicate KeptThroughout(s: State, es: seq<Event>)
    decreases |es|
  {
    Kept(s) && (es == [] || KeptThroughout(Step(s, es[0]), es[1..]))
  }

  ghost predicate LosesSomewhere(s: State, es: seq<Event>)
    decreases |es|
  {
    es != [] && (Loses(s, es[0]) || LosesSomewhere(Step(s, es[0]), es[1..]))
  }

  /** Whole runs, with any failing writes and deletes, re-invites and restarts: every acknowledged rotation
      is covered or waits in memory and on disk throughout, exactly if no drain of the run loses one. */
  lemma RunsKeepUnlessLost(es: seq<Event>)
    requires AllowedRun(Initial, es)
    ensures KeptThroughout(Initial, es) <==> !LosesSomewhere(Initial, es)
    ensures (forall k :: 0 <= k < |es| ==> FaultFree(es[k])) ==> KeptThroughout(Initial, es)
  {
    RunKeepsUnlessLost(Initial, es);
  }

  lemma {:induction false} RunKeepsUnlessLost(s: State, es: seq<Event>)
    requires Sound(s) && Kept(s) && AllowedRun(s, es)
    ensures KeptThroughout(s, es) <==> !LosesSomewhere(s, es)
    ensures (forall k :: 0 <= k < |es| ==> FaultFree(es[k])) ==> KeptThroughout(s, es)
    decreases |es|
  {
    hide Step, Sound, Kept;
    if es != [] {
      KeptUnlessLost(s, es[0]);
      if Kept(Step(s, es[0])) { RunKeepsUnlessLost(Step(s, es[0]), es[1..]); }
    }
  }

  const EARLY := Msg(3, 3, 9, true)
  const CLOSER := Msg(1, 1, 8, true)
  const FAILING := Faults({3}, {})

  lemma EarlyRotationWaits() returns (es: seq<Event>)
    ensures var s := Run(Initial, es);
      s.known && s.store == Store([7], [Pending(EARLY, FutureRotation)], map[3 := Pending(EARLY, FutureRotation)], [])
    ensures Settled(Run(Initial, es)) && Agree(Run(Initial, es).store) && 3 in Run(Initial, es).acked
  {
    es := [Invite([7], NoFaults), Deliver(EARLY, NoFaults)];
    var s1 := Step(Initial, es[0]);
    var s := Step(s1, es[1]);
    assert es[1..] == [es[1]];
    assert Run(Initial, es) == Run(s1, es[1..]) == s;
    assert AllowedRun(s, []) && Allowed(s1, es[1]);
    assert AllowedRun(s1, es[1..]);
    RotationsConverge(Initial, es);
  }

  lemma PassLosesTheEarlyRotation(s: Store)
    requires s == Store([7], [Pending(EARLY, FutureRotation)], map[3 := Pending(EARLY, FutureRotation)], [])
    ensures Handle(s, CLOSER, FAILING) == Store([7, 8], [Pending(EARLY, FutureRotation)], map[], [3])
  {
    var p := Pending(EARLY, FutureRotation);
    assert Without([], 1) == [] == Without([], 3);
    assert [p][1..] == [];
    assert Without([p], 1) == [p] && Without([p], 3) == [];
    assert map[3 := p] - {1} == map[3 := p] && map[3 := p] - {3} == map[];
    var u := Applied(s, CLOSER, FAILING);
    assert u == Store([7, 8], [p], map[3 := p], []);
    assert Ordered([p]) == [p];
    assert p in u.mem && Has(u.mem, 3);
    var v := DrainOne(u, p, FAILING);
    assert v == Store([7, 8], [p], map[], [3]);
    assert Drain(u, [p], FAILING) == Drain(v, [], FAILING) == v;
    assert u.(handled := []) == u && Process(u, FAILING) == v;
  }

  /** It does happen: generation 3 waits, acknowledged and on disk; generation 1 arrives while the write of
      the waiting message fails; a restart then finds nothing of it. */
  lemma FailedWriteLosesAnAcknowledgedRotation() returns (es: seq<Event>)
    ensures var s := Run(Initial, es); var e := Deliver(CLOSER, FAILING); var t := Step(s, e);
      && Settled(s) && Agree(s.store) && EARLY.id in s.acked && Loses(s, e)
      && Allowed(t, Restart([], NoFaults)) && EARLY.generation > Local(t.store.keys)
  {
    es := EarlyRotationWaits();
    var s := Run(Initial, es);
    PassLosesTheEarlyRotation(s.store);
    hide Handle, Run, Settled, Agree;
    assert s.store.mem[0] in s.store.mem && EARLY in MsgsOf(s.store.mem);
    assert NoneOf(MsgsOf(s.store.mem), 2);
  }

  /** The invite's own drain does it too, to a rotation that arrived before the space was known. */
  lemma FailedWriteAtTheInviteLosesIt()
    ensures var s := Step(Initial, Deliver(EARLY, NoFaults)); var e := Invite([7], FAILING);
      Sound(s) && Kept(s) && Loses(s, e) && !Kept(Step(s, e))
  {
    var s := Step(Initial, Deliver(EARLY, NoFaults));
    KeptUnlessLost(Initial, Deliver(EARLY, NoFaults));
    KeptUnlessLost(s, Invite([7], FAILING));
    hide Step, Sound, Kept;
    assert s == Step(Initial, Deliver(EARLY, NoFaults));
    assert s.store.mem[0] in s.store.mem;
    assert NoneOf(MsgsOf(s.store.mem), 1);
  }

  // ---------------------------------------------------------------- the adapter's own updates

  /** One space of the adapter. The two methods at the end call each other: handling a rotation that
      applies starts a pass, a pass handles what is buffered, and the flag ends the recursion. */
  class Rotations {
    var keys: seq<Key>
    var mem: seq<Pending>
    var disk: map<Id, Pending>
    var handled: seq<Id>
    var known: bool
    var processing: bool

    ghost function Model(): Store
      reads this
    {
      Store(keys, mem, disk, handled)
    }

    constructor Unknown()
      ensures Model() == Store([], [], map[], []) && !known && !processing
    {
      keys, mem, disk, handled, known, processing := [], [], map[], [], false, false;
    }

    constructor (keys: seq<Key>)
      ensures Model() == Store(keys, [], map[], []) && known && !processing
    {
      this.keys, mem, disk, handled, known, processing := keys, [], map[], [], true, false;
    }

    method AddPendingMessageToMemory(p: Pending)
      modifies `mem
      ensures mem == Without(old(mem), p.msg.id) + [p]
    {
      var next := Filter(mem, p.msg.id);
      mem := next + [p];
    }

    method Filter(current: seq<Pending>, id: Id) returns (next: seq<Pending>)
      ensures next == Without(current, id)
    {
      next := [];
      var i := |current|;
      while i > 0
        invariant 0 <= i <= |current|
        invariant next == Without(current[i..], id)
      {
        i := i - 1;
        assert current[i..][1..] == current[i + 1..];
        if current[i].msg.id != id { next := [current[i]] + next; }
      }
      assert current[0..] == current;
    }

    /** False where the durable write failed, and with it the acknowledgement. */
    method BufferPendingSpaceMessage(p: Pending, f: Faults) returns (durable: bool)
      modifies `mem, `disk
      ensures Model() == Buffer(old(Model()), p, f)
      ensures durable <==> p.msg.id !in f.noSave
    {
      AddPendingMessageToMemory(p);
      if p.msg.id in f.noSave { return false; }
      disk := disk[p.msg.id := p];
      durable := true;
    }

    method DeletePendingSpaceMessage(id: Id, f: Faults)
      modifies `mem, `disk
      ensures Model() == Delete(old(Model()), id, f)
    {
      var next := Filter(mem, id);
      mem := next;
      if id !in f.noDelete { disk := disk - {id}; }
    }

    /** False where the rotation waits without a durable copy, so that it must not be acknowledged. */
    method HandleKeyRotation(m: Msg, f: Faults) returns (acknowledged: bool)
      modifies this
      ensures processing == old(processing) && known == old(known)
      ensures !old(known) ==> Model() == Buffer(old(Model()), Pending(m, UnknownSpace), f)
      ensures old(known) ==>
        Model() == if old(processing) then HandleInPass(old(Model()), m, f) else Handle(old(Model()), m, f)
      ensures acknowledged <==> !((!old(known) || Decide(old(keys), m).Hold?) && m.id in f.noSave)
      decreases if processing then 0 else 1, 1
    {
      if !known {
        acknowledged := BufferPendingSpaceMessage(Pending(m, UnknownSpace), f);
        return;
      }
      if !m.genuine { return true; }
      if |keys| == 0 || m.generation > |keys| {
        acknowledged := BufferPendingSpaceMessage(Pending(m, FutureRotation), f);
        return;
      }
      if m.generation < |keys| { return true; }
      keys := keys + [m.key];
      DeletePendingSpaceMessage(m.id, f);
      ProcessPendingForSpace(f);
      acknowledged := true;
    }

    method ProcessPendingForSpace(f: Faults)
      requires known
      modifies this
      ensures processing == old(processing) && known
      ensures Model() == if old(processing) then old(Model()) else Process(old(Model()), f)
      decreases if processing then 0 else 1, 0
    {
      if processing || mem == [] { return; }
      processing := true;
      handled := [];
      var ordered := Ordered(mem);
      ghost var start := Model();
      var i := 0;
      while i < |ordered|
        invariant 0 <= i <= |ordered| && processing && known
        invariant Drain(Model(), ordered[i..], f) == Drain(start, ordered, f)
      {
        var m := ordered[i].msg;
        assert ordered[i..][0] == ordered[i] && ordered[i..][1..] == ordered[i + 1..];
        if exists p :: p in mem && p.msg.id == m.id {
          assert Has(mem, m.id);
          DeletePendingSpaceMessage(m.id, f);
          handled := handled + [m.id];
          var _ := HandleKeyRotation(m, f);
        }
        i := i + 1;
      }
      processing := false;
    }
  }
}
