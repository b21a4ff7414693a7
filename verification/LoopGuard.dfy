/** Who writes log entries: every device logs its local changes and must never log a change it only applied
    from somebody else's entry. One engine tells them apart by a flag that is up while an apply is on the
    stack, the other by the origin that travels with each change. */
module LoopGuard {
  /* A document is a set of changes; as in both engines, a change shows only once all earlier changes of its
     author are there. Applying is one synchronous call, in which listeners of the document may themselves
     make local changes. */

  datatype Change = Change(author: nat, num: nat)

  datatype Entry = Entry(author: nat, changes: set<Change>)

  datatype Guard = ByFlag | ByOrigin

  /** `made` counts the device's own changes, `received` is the set of log positions it has applied. */
  datatype Device = Device(held: set<Change>, made: nat, applyingRemote: bool, received: set<nat>)

  /** `outside`, `inside` and `rewrites` count the local changes made outside and inside an apply and the
      explicit full-state entries; `unlogged` holds the changes that no entry carries. */
  datatype Net = Net(
    guard: Guard, devices: seq<Device>, log: seq<Entry>,
    outside: nat, inside: nat, rewrites: nat, unlogged: set<Change>)

  datatype Event =
    | Edit(device: nat)
    | Rewrite(device: nat)
    | Deliver(device: nat, entry: nat, nested: nat, throws: bool)

  function Start(guard: Guard, n: nat): Net {
    Net(guard, seq(n, _ => Device({}, 0, false, {})), [], 0, 0, 0, {})
  }

  /** One local change, and what the change observer does about it. */
  function LocalChange(s: Net, d: nat): Net
    requires d < |s.devices|
  {
    var dev := s.devices[d];
    var c := Change(d, dev.made);
    var t := s.(devices := s.devices[d := dev.(held := dev.held + {c}, made := dev.made + 1)]);
    if s.guard.ByFlag? && dev.applyingRemote then t.(unlogged := s.unlogged + {c})
    else t.(log := s.log + [Entry(d, {c})])
  }

  function Nested(s: Net, d: nat, n: nat): Net
    requires d < |s.devices|
    ensures |Nested(s, d, n).devices| == |s.devices|
  {
    if n == 0 then s else LocalChange(Nested(s, d, n - 1), d).(inside := s.inside + n)
  }

  function SetFlag(s: Net, d: nat, up: bool): Net
    requires d < |s.devices|
  {
    s.(devices := s.devices[d := s.devices[d].(applyingRemote := up)])
  }

  function Merge(s: Net, d: nat, k: nat): Net
    requires d < |s.devices| && k < |s.log|
  {
    var dev := s.devices[d];
    s.(devices := s.devices[d := dev.(held := dev.held + s.log[k].changes, received := dev.received + {k})])
  }

  /** `applyRemoteUpdate`: the flag goes up, the entry is applied or the engine throws, listeners run, and in
      `finally` the flag goes down. The change event of the apply itself is never logged. */
  function OnDeliver(s: Net, d: nat, k: nat, nested: nat, throws: bool): Net
    requires d < |s.devices| && k < |s.log|
  {
    var up := SetFlag(s, d, true);
    SetFlag(if throws then up else Nested(Merge(up, d, k), d, nested), d, false)
  }

  function OnRewrite(s: Net, d: nat): Net
    requires d < |s.devices|
  {
    var held := s.devices[d].held;
    if held == {} then s
    else s.(log := s.log + [Entry(d, held)], rewrites := s.rewrites + 1, unlogged := s.unlogged - held)
  }

  function Step(s: Net, e: Event): Net {
    match e
    case Edit(d) => if d < |s.devices| then LocalChange(s, d).(outside := s.outside + 1) else s
    case Rewrite(d) => if d < |s.devices| then OnRewrite(s, d) else s
    case Deliver(d, k, nested, throws) =>
      if d < |s.devices| && k < |s.log| then OnDeliver(s, d, k, nested, throws) else s
  }

  function Run(s: Net, es: seq<Event>): Net
    decreases |es|
  {
    if es == [] then s else Run(Step(s, es[0]), es[1..])
  }

  // ---------------------------------------------------------------- every reachable state

  ghost predicate Carried(log: seq<Entry>, c: Change) {
    exists k :: 0 <= k < |log| && c in log[k].changes
  }

  /** The author of the change has published it itself. */
  ghost predicate Published(log: seq<Entry>, c: Change) {
    exists k :: 0 <= k < |log| && log[k].author == c.author && c in log[k].changes
  }

  predicate Made(s: Net, c: Change) {
    c.author < |s.devices| && c.num < s.devices[c.author].made
  }

  ghost predicate Received(s: Net, d: nat, c: Change)
  {
    d < |s.devices| && exists k :: k in s.devices[d].received && k < |s.log| && c in s.log[k].changes
  }

  ghost predicate Counted(s: Net) {
    |s.log| == s.outside + s.rewrites + (if s.guard.ByOrigin? then s.inside else 0)
  }

  /** A device holds exactly its own changes and those of the entries it received. */
  ghost predicate HoldsWhatItShould(s: Net, d: nat)
  {
    && d < |s.devices|
    && (forall k :: k in s.devices[d].received ==> k < |s.log|)
    && (forall c :: c in s.devices[d].held <==> (c.author == d && Made(s, c)) || Received(s, d, c))
  }

  ghost predicate Sound(s: Net) {
    && (forall d :: 0 <= d < |s.devices| ==> HoldsWhatItShould(s, d))
    && (forall c :: Carried(s.log, c) ==> Made(s, c) && Published(s.log, c))
    && (forall c :: c in s.unlogged <==> Made(s, c) && !Carried(s.log, c))
    && (s.guard.ByOrigin? ==> s.unlogged == {})
    && (forall k, c :: 0 <= k < |s.log| && c in s.log[k].changes ==>
          s.log[k].author < |s.devices| && c in s.devices[s.log[k].author].held)
  }

  predicate FlagsDown(s: Net) {
    forall d :: 0 <= d < |s.devices| ==> !s.devices[d].applyingRemote
  }

  lemma LogGrows(log: seq<Entry>, e: Entry, c: Change)
    ensures Carried(log + [e], c) <==> Carried(log, c) || c in e.changes
    ensures Published(log + [e], c) <==> Published(log, c) || (e.author == c.author && c in e.changes)
  {
    var all := log + [e];
    assert all[|log|] == e;
    if Carried(log, c) {
      var k :| 0 <= k < |log| && c in log[k].changes;
      assert all[k] == log[k];
    }
    if Published(log, c) {
      var k :| 0 <= k < |log| && log[k].author == c.author && c in log[k].changes;
      assert all[k] == log[k];
    }
  }

  lemma ReceivedIsStable(s: Net, t: Net, d: nat, c: Change)
    requires d < |s.devices| == |t.devices| && s.log <= t.log
    requires t.devices[d].received == s.devices[d].received
    requires forall k :: k in s.devices[d].received ==> k < |s.log|
    ensures Received(t, d, c) <==> Received(s, d, c)
  {
  }

  lemma LocalChangeHolds(s: Net, d: nat, e: nat)
    requires Sound(s) && d < |s.devices| && e < |s.devices|
    ensures HoldsWhatItShould(LocalChange(s, d), e)
  {
    var t := LocalChange(s, d);
    assert HoldsWhatItShould(s, e) && s.log <= t.log && t.devices[e].received == s.devices[e].received;
    forall c ensures c in t.devices[e].held <==> (c.author == e && Made(t, c)) || Received(t, e, c) {
      ReceivedIsStable(s, t, e, c);
    }
  }

  lemma LocalChangeIsSound(s: Net, d: nat)
    requires Sound(s) && d < |s.devices|
    ensures Sound(LocalChange(s, d))
  {
    var t := LocalChange(s, d);
    var added := Change(d, s.devices[d].made);
    forall e | 0 <= e < |s.devices| ensures HoldsWhatItShould(t, e) {
      LocalChangeHolds(s, d, e);
    }
    assert !Made(s, added) && !Carried(s.log, added);
    forall c ensures Made(t, c) <==> Made(s, c) || c == added
             ensures Carried(t.log, c) <==> Carried(s.log, c) || (c == added && t.log != s.log)
             ensures Carried(t.log, c) ==> Published(t.log, c)
    {
      LogGrows(s.log, Entry(d, {added}), c);
    }
  }

  lemma {:induction false} NestedIsSound(s: Net, d: nat, n: nat)
    requires Sound(s) && d < |s.devices|
    ensures Sound(Nested(s, d, n))
    decreases n
  {
    if n > 0 {
      NestedIsSound(s, d, n - 1);
      LocalChangeIsSound(Nested(s, d, n - 1), d);
      var u := LocalChange(Nested(s, d, n - 1), d);
      FlagsAndCountersAreSound(u, u.(inside := s.inside + n));
      assert Nested(s, d, n) == u.(outside := u.outside, inside := s.inside + n);
    }
  }

  /** Counters and flags do not matter. */
  lemma FlagsAndCountersAreSound(s: Net, t: Net)
    requires Sound(s) && |t.devices| == |s.devices|
    requires t == s.(outside := t.outside, inside := t.inside, devices := t.devices)
    requires forall d :: 0 <= d < |s.devices| ==>
      t.devices[d] == s.devices[d].(applyingRemote := t.devices[d].applyingRemote)
    ensures Sound(t)
  {
    forall d | 0 <= d < |s.devices| ensures HoldsWhatItShould(t, d) {
      assert HoldsWhatItShould(s, d);
      forall c { ReceivedIsStable(s, t, d, c); }
    }
    assert forall c :: Made(t, c) <==> Made(s, c);
  }

  lemma MergeIsSound(s: Net, d: nat, k: nat)
    requires Sound(s) && d < |s.devices| && k < |s.log|
    ensures Sound(Merge(s, d, k))
  {
    var t := Merge(s, d, k);
    forall e | 0 <= e < |s.devices| ensures HoldsWhatItShould(t, e) {
      assert HoldsWhatItShould(s, e);
      forall c ensures Received(t, e, c) <==> Received(s, e, c) || (e == d && c in s.log[k].changes) {
        if e != d { ReceivedIsStable(s, t, e, c); }
        if e == d && Received(s, e, c) {
          var j :| j in s.devices[e].received && j < |s.log| && c in s.log[j].changes;
          assert j in t.devices[e].received;
        }
        if e == d && c in s.log[k].changes { assert k in t.devices[e].received; }
      }
    }
    assert forall c :: Made(t, c) <==> Made(s, c);
  }

  lemma RewriteIsSound(s: Net, d: nat)
    requires Sound(s) && d < |s.devices|
    ensures Sound(OnRewrite(s, d))
  {
    var t := OnRewrite(s, d);
    var held := s.devices[d].held;
    if held != {} {
      forall e | 0 <= e < |s.devices| ensures HoldsWhatItShould(t, e) {
        assert HoldsWhatItShould(s, e);
        forall c { ReceivedIsStable(s, t, e, c); }
      }
      forall c ensures Carried(t.log, c) <==> Carried(s.log, c) || c in held
               ensures Carried(t.log, c) ==> Made(s, c) && Published(t.log, c)
      {
        LogGrows(s.log, Entry(d, held), c);
        assert HoldsWhatItShould(s, d);
        if c in held && c.author != d {
          var k :| k in s.devices[d].received && k < |s.log| && c in s.log[k].changes;
          assert Carried(s.log, c);
        }
      }
      assert forall c :: Made(t, c) <==> Made(s, c);
    }
  }

  lemma StepIsSound(s: Net, e: Event)
    requires Sound(s)
    ensures Sound(Step(s, e))
  {
    hide Sound, LocalChange, OnRewrite, Merge, SetFlag;
    match e
    case Edit(d) =>
      if d < |s.devices| {
        LocalChangeIsSound(s, d);
        var u := LocalChange(s, d);
        FlagsAndCountersAreSound(u, u.(outside := s.outside + 1));
        assert Step(s, e) == u.(outside := s.outside + 1, inside := u.inside);
      }
    case Rewrite(d) => if d < |s.devices| { RewriteIsSound(s, d); }
    case Deliver(d, k, nested, throws) =>
      if d < |s.devices| && k < |s.log| { DeliverIsSound(s, d, k, nested, throws); }
  }

  lemma DeliverIsSound(s: Net, d: nat, k: nat, nested: nat, throws: bool)
    requires Sound(s) && d < |s.devices| && k < |s.log|
    ensures Sound(OnDeliver(s, d, k, nested, throws))
  {
    hide Sound;
    var up := SetFlag(s, d, true);
    FlagsAndCountersAreSound(s, SetFlag(s, d, true));
    MergeIsSound(up, d, k);
    NestedIsSound(Merge(up, d, k), d, nested);
    var last := if throws then up else Nested(Merge(up, d, k), d, nested);
    FlagsAndCountersAreSound(last, SetFlag(last, d, false));
  }

  // ---------------------------------------------------------------- counting

  lemma {:induction false} NestedCounts(s: Net, d: nat, n: nat)
    requires d < |s.devices| && s.devices[d].applyingRemote
    ensures var t := Nested(s, d, n);
      && t.devices[d].applyingRemote && t.guard == s.guard
      && (forall e :: 0 <= e < |s.devices| && e != d ==> t.devices[e] == s.devices[e])
      && |t.log| == |s.log| + (if s.guard.ByOrigin? then n else 0)
      && t.inside == s.inside + n && t.outside == s.outside && t.rewrites == s.rewrites
    decreases n
  {
    if n > 0 { NestedCounts(s, d, n - 1); }
  }

  lemma StepCounts(s: Net, e: Event)
    requires FlagsDown(s) && Counted(s)
    ensures FlagsDown(Step(s, e)) && Counted(Step(s, e)) && Step(s, e).guard == s.guard
  {
    if e.Deliver? && e.device < |s.devices| && e.entry < |s.log| {
      NestedCounts(Merge(SetFlag(s, e.device, true), e.device, e.entry), e.device, e.nested);
    }
  }

  lemma {:induction false} RunKeeps(s: Net, es: seq<Event>)
    requires Sound(s) && FlagsDown(s) && Counted(s)
    ensures Sound(Run(s, es)) && FlagsDown(Run(s, es)) && Counted(Run(s, es)) && Run(s, es).guard == s.guard
    decreases |es|
  {
    hide Step, Sound, FlagsDown, Counted;
    if es != [] {
      StepIsSound(s, es[0]);
      StepCounts(s, es[0]);
      RunKeeps(Step(s, es[0]), es[1..]);
    }
  }

  // ---------------------------------------------------------------- main results

  /** The entry is applied at the device by an engine that does not throw. */
  predicate Applies(s: Net, e: Event, d: nat, k: nat) {
    e.Deliver? && e.device == d && e.entry == k < |s.log| && !e.throws
  }

  /** How many changes the event makes at the device. */
  function Makes(s: Net, e: Event, d: nat): nat {
    match e
    case Edit(device) => if device == d then 1 else 0
    case Rewrite(_) => 0
    case Deliver(_, k, nested, _) => if Applies(s, e, d, k) then nested else 0
  }

  lemma {:induction false} NestedMakes(s: Net, d: nat, n: nat)
    requires d < |s.devices|
    ensures var t := Nested(s, d, n);
      && |t.devices| == |s.devices| && t.devices[d].made == s.devices[d].made + n
      && t.devices[d].received == s.devices[d].received && s.log <= t.log
      && t.outside == s.outside && t.inside == s.inside + n && t.rewrites == s.rewrites
      && (forall e :: 0 <= e < |s.devices| && e != d ==> t.devices[e] == s.devices[e])
    decreases n
  {
    if n > 0 { NestedMakes(s, d, n - 1); }
  }

  /** One step, on the level of what a device has received and made, and of what is counted. */
  lemma DevicesOfOneStep(s: Net, e: Event, d: nat, k: nat)
    requires d < |s.devices|
    ensures var t := Step(s, e);
      && |t.devices| == |s.devices| && s.log <= t.log
      && (k in t.devices[d].received <==> k in s.devices[d].received || Applies(s, e, d, k))
      && t.devices[d].made == s.devices[d].made + Makes(s, e, d)
      && (e.device == d ==>
            && t.outside == s.outside + (if e.Edit? then 1 else 0)
            && t.inside == s.inside + (if e.Deliver? then Makes(s, e, d) else 0)
            && t.rewrites == s.rewrites + (if e.Rewrite? && s.devices[d].held != {} then 1 else 0))
  {
    hide LocalChange;
    match e
    case Edit(x) => if x < |s.devices| { NestedMakes(s, x, 1); MakesOne(s, x); }
    case Rewrite(_) =>
    case Deliver(x, j, nested, throws) =>
      if x < |s.devices| && j < |s.log| { NestedMakes(Merge(SetFlag(s, x, true), x, j), x, nested); }
  }

  lemma MakesOne(s: Net, d: nat)
    requires d < |s.devices|
    ensures var t := LocalChange(s, d);
      && |t.devices| == |s.devices| && t.devices[d].made == s.devices[d].made + 1 && s.log <= t.log
      && t.devices[d].received == s.devices[d].received && t.outside == s.outside && t.inside == s.inside
      && t.rewrites == s.rewrites
      && (forall e :: 0 <= e < |s.devices| && e != d ==> t.devices[e] == s.devices[e])
  {
  }

  predicate EverApplies(s: Net, es: seq<Event>, d: nat, k: nat)
    decreases |es|
  {
    es != [] && (Applies(s, es[0], d, k) || EverApplies(Step(s, es[0]), es[1..], d, k))
  }

  function MakesAlong(s: Net, es: seq<Event>, d: nat): nat
    decreases |es|
  {
    if es == [] then 0 else Makes(s, es[0], d) + MakesAlong(Step(s, es[0]), es[1..], d)
  }

  lemma {:induction false} ReceivedAlong(s: Net, es: seq<Event>, d: nat, k: nat)
    requires d < |s.devices|
    ensures var t := Run(s, es);
      && |t.devices| == |s.devices|
      && (k in t.devices[d].received <==> k in s.devices[d].received || EverApplies(s, es, d, k))
      && t.devices[d].made == s.devices[d].made + MakesAlong(s, es, d)
    decreases |es|
  {
    hide Step, Applies, Makes;
    if es != [] {
      DevicesOfOneStep(s, es[0], d, k);
      ReceivedAlong(Step(s, es[0]), es[1..], d, k);
    }
  }

  /** What a device shows at the end of any run: exactly the changes of the entries that were delivered to it
      without a throw, and the changes it made itself, one for each local edit and each nested one. */
  lemma DocumentsFollowTheDeliveries(guard: Guard, n: nat, es: seq<Event>, d: nat, c: Change)
    requires d < n
    ensures var s := Run(Start(guard, n), es);
      && |s.devices| == n
      && (c in s.devices[d].held <==>
            || (c.author == d && c.num < MakesAlong(Start(guard, n), es, d))
            || (exists k :: 0 <= k < |s.log| && c in s.log[k].changes && EverApplies(Start(guard, n), es, d, k)))
  {
    var s0, s := Start(guard, n), Run(Start(guard, n), es);
    RunKeeps(s0, es);
    ReceivedAlong(s0, es, d, 0);
    forall k: nat
      ensures k in s.devices[d].received <==> EverApplies(s0, es, d, k)
    {
      ReceivedAlong(s0, es, d, k);
    }
    assert HoldsWhatItShould(s, d);
    assert c in s.devices[d].held <==> (c.author == d && Made(s, c)) || Received(s, d, c);
    hide Run, Sound, EverApplies, MakesAlong;
    assert Received(s, d, c)
      <==> exists k :: 0 <= k < |s.log| && c in s.log[k].changes && EverApplies(Start(guard, n), es, d, k);
  }

  /** However often, in whatever order and with whatever failures entries are delivered: the log has one
      entry for every local change made outside an apply and every full-state rewrite, plus, under the origin
      guard, one for every local change made inside. Between calls no flag is up, also after a throw. */
  lemma EntriesAreLocalEdits(guard: Guard, n: nat, es: seq<Event>)
    ensures var s := Run(Start(guard, n), es);
      && |s.log| == s.outside + s.rewrites + (if guard.ByOrigin? then s.inside else 0)
      && FlagsDown(s)
  {
    RunKeeps(Start(guard, n), es);
  }

  /** The entries a device has applied or written itself. */
  ghost predicate Knows(s: Net, d: nat, k: nat)
  {
    d < |s.devices| && k < |s.log| && (k in s.devices[d].received || s.log[k].author == d)
  }

  ghost predicate SameEntries(s: Net, a: nat, b: nat)
  {
    forall k :: 0 <= k < |s.log| ==> (Knows(s, a, k) <==> Knows(s, b, k))
  }

  lemma OneWay(s: Net, a: nat, b: nat, c: Change)
    requires Sound(s) && a < |s.devices| && b < |s.devices| && SameEntries(s, a, b)
    requires c in s.devices[a].held && !(c.author == a && c in s.unlogged)
    ensures c in s.devices[b].held
  {
    assert HoldsWhatItShould(s, a) && HoldsWhatItShould(s, b);
    var k: nat;
    if c.author == a {
      assert Made(s, c) && Carried(s.log, c) && Published(s.log, c);
      k :| 0 <= k < |s.log| && s.log[k].author == a && c in s.log[k].changes;
    } else {
      k :| k in s.devices[a].received && k < |s.log| && c in s.log[k].changes;
    }
    assert Knows(s, a, k) && Knows(s, b, k);
    if k !in s.devices[b].received {
      assert s.log[k].author == b;
    }
  }

  /** Devices that know the same entries hold the same document, exactly unless one of them made a change
      that no entry carries. */
  lemma SameEntriesSameDocument(s: Net, a: nat, b: nat)
    requires Sound(s) && a < |s.devices| && b < |s.devices| && a != b && SameEntries(s, a, b)
    ensures s.devices[a].held == s.devices[b].held
      <==> forall c :: c in s.unlogged ==> c.author != a && c.author != b
  {
    if forall c :: c in s.unlogged ==> c.author != a && c.author != b {
      forall c ensures c in s.devices[a].held <==> c in s.devices[b].held {
        if c in s.devices[a].held { OneWay(s, a, b, c); }
        if c in s.devices[b].held { OneWay(s, b, a, c); }
      }
    } else {
      var c :| c in s.unlogged && (c.author == a || c.author == b);
      assert HoldsWhatItShould(s, a) && HoldsWhatItShould(s, b);
      assert forall k :: 0 <= k < |s.log| ==> c !in s.log[k].changes;
    }
  }

  /** Under the origin guard that is always so. */
  lemma OriginGuardConverges(n: nat, es: seq<Event>, a: nat, b: nat)
    requires a < |Run(Start(ByOrigin, n), es).devices| && b < |Run(Start(ByOrigin, n), es).devices| && a != b
    requires SameEntries(Run(Start(ByOrigin, n), es), a, b)
    ensures var s := Run(Start(ByOrigin, n), es); s.unlogged == {} && s.devices[a].held == s.devices[b].held
  {
    RunKeeps(Start(ByOrigin, n), es);
    SameEntriesSameDocument(Run(Start(ByOrigin, n), es), a, b);
  }

  /** What shows of a device's document: changes whose author's earlier changes are all there. */
  ghost predicate Visible(s: Net, d: nat, c: Change)
  {
    d < |s.devices| && forall j: nat :: j <= c.num ==> Change(c.author, j) in s.devices[d].held
  }

  /** An unlogged change cuts its author off: nobody else sees it, nor anything the author makes after it. */
  lemma UnloggedCutsTheAuthorOff(s: Net, c: Change, later: Change, d: nat)
    requires Sound(s) && c in s.unlogged && later.author == c.author && later.num >= c.num
    requires d < |s.devices| && d != c.author
    ensures !Visible(s, d, later)
  {
    assert HoldsWhatItShould(s, d) && !Carried(s.log, c);
    assert c == Change(later.author, c.num) && c !in s.devices[d].held;
  }

  /** The changes that `n` calls of the document's change function make, starting with number `from`. */
  function NewChanges(author: nat, from: nat, n: nat): set<Change> {
    set j | from <= j < from + n :: Change(author, j)
  }

  /** What the listeners make while the event's entry is applied. */
  function MadeInside(s: Net, e: Event): set<Change> {
    match e
    case Deliver(d, k, nested, throws) =>
      if d < |s.devices| && k < |s.log| && !throws then NewChanges(d, s.devices[d].made, nested) else {}
    case _ => {}
  }

  /** A step leaves changes unlogged exactly under the flag guard, and then exactly those made inside its apply. */
  lemma OnlyNestedChangesAreUnlogged(s: Net, e: Event)
    requires Sound(s) && FlagsDown(s)
    ensures Step(s, e).unlogged - s.unlogged == if s.guard.ByFlag? then MadeInside(s, e) else {}
  {
    match e
    case Deliver(d, k, nested, throws) =>
      if d < |s.devices| && k < |s.log| && !throws {
        NestedUnlogs(Merge(SetFlag(s, d, true), d, k), d, nested);
        assert forall c :: c in s.unlogged ==> Made(s, c);
      }
    case _ =>
  }

  lemma {:induction false} NestedUnlogs(s: Net, d: nat, n: nat)
    requires d < |s.devices| && s.devices[d].applyingRemote
    ensures var t := Nested(s, d, n); var made := s.devices[d].made;
      && t.devices[d].applyingRemote && t.guard == s.guard && t.devices[d].made == made + n
      && t.unlogged == s.unlogged + if s.guard.ByFlag? then NewChanges(d, made, n) else {}
    decreases n
  {
    if n > 0 {
      NestedUnlogs(s, d, n - 1);
      var made := s.devices[d].made;
      assert NewChanges(d, made, n) == NewChanges(d, made, n - 1) + {Change(d, made + n - 1)};
    }
  }

  /** Under the flag guard an apply loses every change made inside it, and no other. */
  lemma NestedChangesAreUnlogged(s: Net, d: nat, k: nat, nested: nat)
    requires s.guard.ByFlag? && d < |s.devices| && k < |s.log|
    ensures Step(s, Deliver(d, k, nested, false)).unlogged
      == s.unlogged + NewChanges(d, s.devices[d].made, nested)
  {
    NestedUnlogs(Merge(SetFlag(s, d, true), d, k), d, nested);
  }

  /** A full-state rewrite by its author is the repair: it logs everything the author holds. */
  lemma RewriteRepairs(s: Net, c: Change)
    requires Sound(s) && c in s.unlogged
    ensures c.author < |s.devices|
    ensures c !in Step(s, Rewrite(c.author)).unlogged && Carried(Step(s, Rewrite(c.author)).log, c)
  {
    assert Made(s, c) && HoldsWhatItShould(s, c.author);
    assert c in s.devices[c.author].held;
    var t := Step(s, Rewrite(c.author));
    assert c in t.log[|s.log|].changes;
  }

  // ---------------------------------------------------------------- one device's own updates

  class FlagGuarded {
    const author: nat
    var held: set<Change>
    var made: nat
    var applyingRemote: bool
    var written: seq<Entry>
    var suppressed: set<Change>

    constructor (author: nat)
      ensures this.author == author && held == {} && made == 0 && !applyingRemote && written == [] && suppressed == {}
    {
      this.author, held, made, applyingRemote, written, suppressed := author, {}, 0, false, [], {};
    }

    /** The change observer. */
    method ChangeHandler(changes: set<Change>)
      modifies `written, `suppressed
      ensures applyingRemote || changes == {} ==> written == old(written)
      ensures !applyingRemote && changes != {} ==> written == old(written) + [Entry(author, changes)]
      ensures suppressed == old(suppressed) + (if applyingRemote then changes else {})
    {
      if applyingRemote {
        suppressed := suppressed + changes;
        return;
      }
      if changes == {} { return; }
      written := written + [Entry(author, changes)];
    }

    method MakeChange()
      modifies this
      ensures var c := Change(author, old(made));
        && held == old(held) + {c} && made == old(made) + 1 && applyingRemote == old(applyingRemote)
        && written == (if old(applyingRemote) then old(written) else old(written) + [Entry(author, {c})])
        && suppressed == (if old(applyingRemote) then old(suppressed) + {c} else old(suppressed))
    {
      var c := Change(author, made);
      held := held + {c};
      made := made + 1;
      ChangeHandler({c});
    }

    /** `applyRemoteUpdate`, with `nested` local changes by listeners and the `finally` at its end. Its own
        change is not written, the nested ones are made and lost. */
    method ApplyRemoteUpdate(changes: set<Change>, nested: nat, throws: bool)
      requires !applyingRemote
      modifies this
      ensures !applyingRemote && written == old(written)
      ensures throws ==> held == old(held) && made == old(made) && suppressed == old(suppressed)
      ensures !throws ==> made == old(made) + nested
      ensures !throws ==> held == old(held) + changes + NewChanges(author, old(made), nested)
      ensures !throws ==>
        suppressed == old(suppressed) + (changes - old(held)) + NewChanges(author, old(made), nested)
    {
      applyingRemote := true;
      if !throws {
        var before := held;
        held := held + changes;
        ChangeHandler(changes - before);
        var i := 0;
        while i < nested
          invariant 0 <= i <= nested && applyingRemote && written == old(written)
          invariant made == old(made) + i && held == old(held) + changes + NewChanges(author, old(made), i)
          invariant suppressed == old(suppressed) + (changes - old(held)) + NewChanges(author, old(made), i)
        {
          MakeChange();
          i := i + 1;
        }
      }
      applyingRemote := false;
    }
  }
}
