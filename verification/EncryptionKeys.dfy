/** The cache of member encryption keys that a key rotation is sent to, kept beside a space document by a
    synchronous change observer, while invitations and removals interleave at their awaits. */
module EncryptionKeys {
  /* The document may hold records that are no events, under any key. What counts is its view: the creator,
     the events that can be read, the admin entries. The observer skips a change whose digest it has seen, and
     the digest stands for exactly that view (`Membership.EqualDigestsProjectEqually`), so `seen` holds views.
     Keys themselves are opaque: the cache is the set of DIDs it has a key for. */

  import opened Common
  import opened MembershipKey
  import opened Membership
  import Text

  datatype View = View(createdBy: Option<string>, events: set<Event>, admins: set<string>)

  function ViewOf(doc: Doc): View {
    View(doc.createdBy, ReadEvents(doc.members), doc.admins)
  }

  /** `space.info`, as far as the projection fills it in. */
  datatype Info = Info(createdBy: Option<string>, members: seq<string>, admins: seq<string>)

  datatype Op = Invite | Remove | Commit(generation: nat)

  /** The await an operation is parked at: reading the current generation, acting on it, rotating, reading
      the new generation, sending the rotation to one recipient after another. */
  datatype Pc = Fetch | Act | Rotate | Reread | Send(visited: set<string>) | Gone

  /** `removals` is the guard's one reading of the removed generations. */
  datatype Flight = Flight(op: Op, did: string, current: int, removals: Option<set<nat>>, pc: Pc)

  /** `flight` is the operation that sent it, `toRemoved` whether the document showed the DID as removed then. */
  datatype Delivery = Delivery(flight: nat, to: string, generation: int, toRemoved: bool)

  /** `generation` is -1 before the first content key. */
  datatype State = State(
    doc: Doc, info: Info, seen: Option<View>, cache: set<string>, generation: int,
    flights: seq<Flight>, sent: seq<Delivery>)

  function Events(s: State): set<Event> {
    ReadEvents(s.doc.members)
  }

  /** `Merge` is what the document shows after remote content came in, `Restore` a restart from whatever
      metadata was persisted, `Import` a rotation received from elsewhere. */
  datatype Change =
    | Merge(doc: Doc)
    | Promote(did: string)
    | Restore(info: Info, cache: set<string>)
    | Import
    | Begin(op: Op, did: string)
    | Turn(flight: nat)
    | Deliver(flight: nat, to: string)
    | Fail(flight: nat)

  // ---------------------------------------------------------------- projection and observer

  ghost function Project(doc: View, info: Info): Info {
    var createdBy := if doc.createdBy.Some? then doc.createdBy else info.createdBy;
    if doc.events == {} then info.(createdBy := createdBy)
    else
      var members := Text.SortedOf(ActiveDids(doc.events));
      Info(createdBy, members, ActiveAdmins(doc.admins, members))
  }

  function Pruned(cache: set<string>, events: set<Event>): set<string> {
    set did | did in cache && !RemovedIn(events, did)
  }

  ghost function Observe(s: State): State {
    if s.seen == Some(ViewOf(s.doc)) then s
    else s.(seen := Some(ViewOf(s.doc)), info := Project(ViewOf(s.doc), s.info),
            cache := if Events(s) == {} then s.cache else Pruned(s.cache, Events(s)))
  }

  /** `seedMembershipProjection`, on attach and on restore. */
  ghost function Seed(s: State): State {
    s.(seen := Some(ViewOf(s.doc)), info := Project(ViewOf(s.doc), s.info), cache := Pruned(s.cache, Events(s)))
  }

  /** The event has a key to be filed under; without one the writer throws. */
  predicate Formats(did: string, status: Status, generation: int) {
    generation >= 0 && Format(Event(did, status, generation)).Some?
  }

  /** The key of that event is taken, by the event itself or by anything else. */
  predicate Occupied(doc: Doc, did: string, status: Status, generation: int)
  {
    Formats(did, status, generation) && Format(Event(did, status, generation)).value in doc.members
  }

  /** The writer is satisfied with any record under the key. */
  ghost function Write(s: State, did: string, status: Status, generation: int): State {
    if !Formats(did, status, generation) || Occupied(s.doc, did, status, generation) then s
    else Observe(s.(doc := s.doc.(members := WriteEvent(s.doc.members, Event(did, status, generation)))))
  }

  // ---------------------------------------------------------------- the operations

  function Go(s: State, i: nat, pc: Pc): State
    requires i < |s.flights|
  {
    s.(flights := s.flights[i := s.flights[i].(pc := pc)])
  }

  /** `distributeKeyRotation` for that generation begins. */
  function Distribute(s: State, i: nat, generation: int): State
    requires i < |s.flights|
  {
    s.(flights := s.flights[i := s.flights[i].(current := generation, pc := Send({}))])
  }

  function RemovalsOf(events: set<Event>, did: string): set<nat> {
    set e | e in events && e.did == did && e.status.Removed? :: e.generation
  }

  function GuardReading(s: State, i: nat): set<nat>
    requires i < |s.flights|
  {
    var f := s.flights[i];
    if f.removals.Some? then f.removals.value else RemovalsOf(Events(s), f.did)
  }

  predicate GuardHolds(s: State, i: nat)
    requires i < |s.flights|
  {
    forall g :: g in GuardReading(s, i) ==> g < s.flights[i].current
  }

  /** The guard of `addMember`; once it holds, the key is cached and the activation written in one turn. */
  ghost function OnInvite(s: State, i: nat): State
    requires i < |s.flights|
  {
    var f := s.flights[i];
    if GuardHolds(s, i) then Write(Go(s, i, Gone).(cache := s.cache + {f.did}), f.did, Active, f.current)
    else s.(flights := s.flights[i := f.(removals := Some(GuardReading(s, i)), pc := Rotate)])
  }

  ghost function OnTurn(s: State, i: nat): State
    requires i < |s.flights|
  {
    var f := s.flights[i];
    match f.pc
    case Fetch => s.(flights := s.flights[i := f.(current := s.generation, pc := Act)])
    case Act =>
      (match f.op
       case Invite => OnInvite(s, i)
       case Remove =>
         if Formats(f.did, Removed, f.current + 1) then Write(Go(s, i, Rotate), f.did, Removed, f.current + 1)
         else Go(s, i, Gone)
       case Commit(g) =>
         if Formats(f.did, Removed, g) then Write(Distribute(s, i, g), f.did, Removed, g) else Go(s, i, Gone))
    case Rotate => Go(s, i, Reread).(generation := s.generation + 1)
    case Reread => Distribute(s, i, s.generation)
    case Send(visited) =>
      if !(s.cache <= visited) then s else if f.op.Invite? then Go(s, i, Act) else Go(s, i, Gone)
    case Gone => s
  }

  /** The next recipient is picked from the live cache. */
  ghost function OnDeliver(s: State, i: nat, to: string): State
    requires i < |s.flights|
  {
    var f := s.flights[i];
    if !f.pc.Send? || to !in s.cache || to in f.pc.visited then s
    else Go(s, i, Send(f.pc.visited + {to})).(
      sent := s.sent + [Delivery(i, to, f.current, RemovedIn(Events(s), to))])
  }

  ghost function Step(s: State, e: Change): State {
    match e
    case Merge(doc) => Observe(s.(doc := doc))
    case Promote(did) => Observe(s.(doc := s.doc.(admins := s.doc.admins + {did})))
    case Restore(info, cache) => Seed(s.(info := info, cache := cache, flights := []))
    case Import => s.(generation := s.generation + 1)
    case Begin(op, did) =>
      s.(flights := s.flights + [Flight(op, did, s.generation, None, if op.Commit? then Act else Fetch)],
         cache := if op.Invite? then s.cache else s.cache - {did})
    case Turn(i) => if i < |s.flights| then OnTurn(s, i) else s
    case Deliver(i, to) => if i < |s.flights| then OnDeliver(s, i, to) else s
    case Fail(i) => if i < |s.flights| then Go(s, i, Gone) else s
  }

  ghost function Run(s: State, es: seq<Change>): State
    decreases |es|
  {
    if es == [] then s else Run(Step(s, es[0]), es[1..])
  }

  /** A space as it is attached: nothing under way, and the projection just seeded. */
  ghost predicate Attached(s: State) {
    exists t: State :: t.flights == [] && t.sent == [] && s == Seed(t)
  }

  // ---------------------------------------------------------------- the cached projection

  /** The observer is up to date with the document, and what it cached is the document's projection. */
  ghost predicate Agreed(s: State) {
    && s.seen == Some(ViewOf(s.doc))
    && (s.doc.createdBy.Some? ==> s.info.createdBy == s.doc.createdBy)
    && (Events(s) != {} ==>
          && s.info.members == Text.SortedOf(ActiveDids(Events(s)))
          && s.info.admins == ActiveAdmins(s.doc.admins, s.info.members))
  }

  /** A document that shows the same as before needs nothing. */
  lemma SameViewAgrees(s: State, doc: Doc)
    requires Agreed(s)
    ensures Agreed(Observe(s.(doc := doc)))
  {
    hide ReadEvents, ActiveDids, Text.SortedOf, ActiveAdmins, Pruned;
  }

  lemma WriteAgrees(s: State, did: string, status: Status, generation: int)
    requires Agreed(s)
    ensures Agreed(Write(s, did, status, generation))
  {
    hide Agreed, Observe;
    if Formats(did, status, generation) {
      SameViewAgrees(s, s.doc.(members := WriteEvent(s.doc.members, Event(did, status, generation))));
    }
  }

  lemma TurnAgrees(s: State, i: nat)
    requires Agreed(s) && i < |s.flights|
    ensures Agreed(OnTurn(s, i))
  {
    hide ActiveDids, Text.SortedOf, ActiveAdmins, Write, Observe, Project, ReadEvents, Formats;
    var f := s.flights[i];
    if f.pc.Act? {
      match f.op
      case Invite =>
        if GuardHolds(s, i) { WriteAgrees(Go(s, i, Gone).(cache := s.cache + {f.did}), f.did, Active, f.current); }
      case Remove => WriteAgrees(Go(s, i, Rotate), f.did, Removed, f.current + 1);
      case Commit(g) => WriteAgrees(Distribute(s, i, g), f.did, Removed, g);
    }
  }

  lemma StepAgrees(s: State, e: Change)
    requires Agreed(s)
    ensures Agreed(Step(s, e))
  {
    match e
    case Merge(doc) => SameViewAgrees(s, doc);
    case Promote(did) => SameViewAgrees(s, s.doc.(admins := s.doc.admins + {did}));
    case Turn(i) => if i < |s.flights| { TurnAgrees(s, i); }
    case _ => hide ActiveDids, Text.SortedOf, ActiveAdmins, ReadEvents;
  }

  /** In every state reached after an attach, the cached members, admins and creator are the projection of
      the current document, although equal digests are skipped. */
  lemma {:induction false} InfoAgreesWithDocument(s: State, es: seq<Change>)
    requires Attached(s) || Agreed(s)
    ensures Agreed(Run(s, es))
    decreases |es|
  {
    if es != [] {
      StepAgrees(s, es[0]);
      InfoAgreesWithDocument(Step(s, es[0]), es[1..]);
    }
  }

  // ---------------------------------------------------------------- what a write shows

  /** The key is free, or holds that very event. */
  predicate Takes(doc: Doc, did: string, status: Status, generation: int) {
    && Formats(did, status, generation)
    && (Occupied(doc, did, status, generation) ==>
          doc.members[Format(Event(did, status, generation)).value] == Some(Event(did, status, generation)))
  }

  lemma ObserveKeepsTheDocument(s: State)
    ensures Observe(s).doc == s.doc
  {
  }

  /** After a write the event is there exactly if its key takes it, and nothing else has changed. */
  lemma WriteShows(s: State, did: string, status: Status, generation: int)
    ensures var t := Write(s, did, status, generation);
      Events(t) == if Takes(s.doc, did, status, generation)
                   then Events(s) + {Event(did, status, generation)} else Events(s)
    ensures Formats(did, status, generation) && !Occupied(s.doc, did, status, generation)
      ==> Event(did, status, generation) !in Events(s)
  {
    if Formats(did, status, generation) {
      var e := Event(did, status, generation);
      hide ReadEvents, Format, Observe;
      ObserveKeepsTheDocument(s.(doc := s.doc.(members := WriteEvent(s.doc.members, e))));
      WriteOnlyAdds(s.doc.members, e);
      ReadsWhatIsFiled(s.doc.members, e);
    }
  }

  // ---------------------------------------------------------------- no removed recipient

  /** No DID with a removed winner has its key in the cache. */
  ghost predicate Clean(s: State) {
    forall did :: did in s.cache ==> !RemovedIn(Events(s), did)
  }

  /** The two ways to spoil the cache: an invitation whose guard passed caches the key of a DID that the
      document says is removed, and its activation is not written, because it has no key or because
      something lies under its key already. Nothing changes, so nothing is pruned. */
  predicate UnwrittenInvite(s: State, e: Change) {
    && e.Turn? && e.flight < |s.flights|
    && var f := s.flights[e.flight];
    && f.pc.Act? && f.op.Invite? && GuardHolds(s, e.flight)
    && (!Formats(f.did, Active, f.current) || Occupied(s.doc, f.did, Active, f.current))
    && RemovedIn(Events(s), f.did)
  }

  /** Whether a written event empties the cache of the removed, or nothing is written at all. */
  lemma WriteCleans(s: State, did: string, status: Status, generation: int)
    requires Agreed(s)
    ensures var t := Write(s, did, status, generation);
      && (Formats(did, status, generation) && !Occupied(s.doc, did, status, generation) ==>
            Clean(t) && t.cache == Pruned(s.cache, Events(t)))
      && (!Formats(did, status, generation) || Occupied(s.doc, did, status, generation) ==> t == s)
  {
    if Formats(did, status, generation) && !Occupied(s.doc, did, status, generation) {
      var u := s.(doc := s.doc.(members := WriteEvent(s.doc.members, Event(did, status, generation))));
      WriteShows(s, did, status, generation);
      hide ReadEvents, Format, Project, WriteEvent;
      assert Events(Observe(u)) == Events(u);
      assert Event(did, status, generation) in Events(u);
    }
  }

  lemma TurnStaysClean(s: State, i: nat)
    requires Clean(s) && Agreed(s) && i < |s.flights|
    ensures Clean(OnTurn(s, i)) <==> !UnwrittenInvite(s, Turn(i))
  {
    var f := s.flights[i];
    if f.pc.Act? {
      hide Write, ReadEvents, Format, ActiveDids, Text.SortedOf, ActiveAdmins, RemovedIn;
      match f.op
      case Invite => WriteCleans(Go(s, i, Gone).(cache := s.cache + {f.did}), f.did, Active, f.current);
      case Remove => WriteCleans(Go(s, i, Rotate), f.did, Removed, f.current + 1);
      case Commit(g) => WriteCleans(Distribute(s, i, g), f.did, Removed, g);
    }
  }

  /** A clean cache stays clean exactly as long as the step is no such invitation. */
  lemma CleanUnlessUnwritten(s: State, e: Change)
    requires Clean(s) && Agreed(s)
    ensures Clean(Step(s, e)) <==> !UnwrittenInvite(s, e)
  {
    match e
    case Merge(doc) =>
    case Promote(did) =>
    case Turn(i) => if i < |s.flights| { TurnStaysClean(s, i); }
    case _ => hide ReadEvents, Project;
  }

  ghost predicate AlwaysWritten(s: State, es: seq<Change>)
    decreases |es|
  {
    es == [] || (!UnwrittenInvite(s, es[0]) && AlwaysWritten(Step(s, es[0]), es[1..]))
  }

  /** Over every run without such an invitation: the cache stays clean, and every delivery of a rotation was
      picked for a DID that was not removed in the document at that moment. */
  lemma {:induction false} RotationsAvoidTheRemoved(s: State, es: seq<Change>)
    requires Attached(s) || (Clean(s) && Agreed(s))
    requires AlwaysWritten(s, es)
    ensures Clean(Run(s, es))
    ensures |Run(s, es).sent| >= |s.sent|
    ensures forall k :: |s.sent| <= k < |Run(s, es).sent| ==> !Run(s, es).sent[k].toRemoved
    decreases |es|
  {
    if es != [] {
      var t := Step(s, es[0]);
      CleanUnlessUnwritten(s, es[0]);
      StepAgrees(s, es[0]);
      StepSends(s, es[0]);
      RotationsAvoidTheRemoved(t, es[1..]);
      SentGrows(t, es[1..]);
    }
  }

  lemma StepSends(s: State, e: Change)
    ensures Clean(s) ==>
      var t := Step(s, e); s.sent <= t.sent && forall k :: |s.sent| <= k < |t.sent| ==> !t.sent[k].toRemoved
  {
    hide ReadEvents, Project, RemovedIn, Pruned, GuardHolds, Formats, Occupied;
  }

  lemma {:induction false} SentGrows(s: State, es: seq<Change>)
    ensures s.sent <= Run(s, es).sent
    decreases |es|
  {
    hide ReadEvents, Project, RemovedIn, Pruned, GuardHolds, Formats, Occupied;
    if es != [] {
      var t := Step(s, es[0]);
      assert s.sent <= t.sent;
      SentGrows(t, es[1..]);
    }
  }

  // ---------------------------------------------------------------- everybody else gets the rotation

  /** Operation `i` is sending a rotation at every moment of the run. */
  ghost predicate KeepsSending(s: State, es: seq<Change>, i: nat)
    decreases |es|
  {
    && i < |s.flights| && s.flights[i].pc.Send?
    && (es == [] || KeepsSending(Step(s, es[0]), es[1..], i))
  }

  /** Since the deliveries numbered `n0`, operation `i` has sent the rotation of its generation to the DID. */
  ghost predicate Reached(s: State, i: nat, n0: nat, did: string) {
    exists k :: n0 <= k < |s.sent| && SentBy(s, i, k, did)
  }

  ghost predicate SentBy(s: State, i: nat, k: int, did: string)
    requires 0 <= k < |s.sent|
  {
    i < |s.flights| && s.sent[k].flight == i && s.sent[k].to == did && s.sent[k].generation == s.flights[i].current
  }

  /** What a sending operation has ticked off is exactly whom it has sent to since it began, once each. */
  ghost predicate TicksOff(s: State, i: nat, n0: nat) {
    && i < |s.flights| && s.flights[i].pc.Send? && n0 <= |s.sent|
    && (forall did :: did in s.flights[i].pc.visited <==> Reached(s, i, n0, did))
    && (forall k :: n0 <= k < |s.sent| && s.sent[k].flight == i ==> SentBy(s, i, k, s.sent[k].to))
    && OnceEach(s, i, n0)
  }

  ghost predicate OnceEach(s: State, i: nat, n0: nat) {
    forall j, k :: n0 <= j < k < |s.sent| && s.sent[j].flight == i == s.sent[k].flight ==>
      s.sent[j].to != s.sent[k].to
  }

  lemma TicksOffOneMore(s: State, e: Change, i: nat, n0: nat)
    requires TicksOff(s, i, n0) && i < |Step(s, e).flights| && Step(s, e).flights[i].pc.Send?
    ensures TicksOff(Step(s, e), i, n0)
  {
    hide ReadEvents, Project, RemovedIn, Pruned, GuardHolds, Formats, Occupied;
    var t := Step(s, e);
    if e.Deliver? && e.flight < |s.flights| {
      assert t.sent == s.sent || t.sent == s.sent + [t.sent[|s.sent|]];
      forall did ensures Reached(t, i, n0, did)
        <==> Reached(s, i, n0, did) || (|t.sent| > |s.sent| && e.flight == i && did == e.to)
      {
        if k :| n0 <= k < |s.sent| && SentBy(s, i, k, did) { assert SentBy(t, i, k, did); }
        if |t.sent| > |s.sent| && e.flight == i && did == e.to { assert SentBy(t, i, |s.sent|, did); }
      }
    } else {
      assert t.sent == s.sent && t.flights[i] == s.flights[i];
      forall did ensures Reached(t, i, n0, did) <==> Reached(s, i, n0, did) {
        if k :| n0 <= k < |s.sent| && SentBy(s, i, k, did) { assert SentBy(t, i, k, did); }
      }
    }
  }

  lemma {:induction false} TicksOffAlong(s: State, es: seq<Change>, i: nat, n0: nat)
    requires TicksOff(s, i, n0) && KeepsSending(s, es, i)
    ensures TicksOff(Run(s, es), i, n0)
    decreases |es|
  {
    hide Step, TicksOff;
    if es != [] {
      TicksOffOneMore(s, es[0], i, n0);
      TicksOffAlong(Step(s, es[0]), es[1..], i, n0);
    }
  }

  /** Whatever interleaves: once operation `i` has begun to send, a delivery that is tried goes out exactly if
      its DID is in the cache and has not been sent the rotation of this generation since then, so that nobody is
      sent it twice; and the operation's next turn ends the sending exactly if every DID in the cache by then has
      been sent it. An invitation goes back to its guard, and a removal is done. */
  lemma RotationReachesTheCache(s: State, e: Change, es: seq<Change>, i: nat)
    requires i < |s.flights| ==> !s.flights[i].pc.Send?
    requires KeepsSending(Step(s, e), es, i)
    ensures var u := Run(Step(s, e), es); var n0 := |s.sent|; i < |u.flights| && n0 <= |u.sent|
    ensures var u := Run(Step(s, e), es); var n0 := |s.sent|;
      && (!Step(u, Turn(i)).flights[i].pc.Send? <==> forall did :: did in u.cache ==> Reached(u, i, n0, did))
      && (forall did :: Step(u, Deliver(i, did)).sent != u.sent <==> did in u.cache && !Reached(u, i, n0, did))
      && OnceEach(u, i, n0)
      && (!Step(u, Turn(i)).flights[i].pc.Send? ==>
            Step(u, Turn(i)).flights[i] == u.flights[i].(pc := if u.flights[i].op.Invite? then Act else Gone))
  {
    SendingBegins(s, e, i);
    TicksOffAlong(Step(s, e), es, i, |s.sent|);
    hide Run, ReadEvents, Project, RemovedIn, Pruned, GuardHolds, Formats, Occupied, Reached;
  }

  lemma SendingBegins(s: State, e: Change, i: nat)
    requires i < |s.flights| ==> !s.flights[i].pc.Send?
    requires i < |Step(s, e).flights| && Step(s, e).flights[i].pc.Send?
    ensures TicksOff(Step(s, e), i, |s.sent|)
  {
    hide ReadEvents, Project, RemovedIn, Pruned, GuardHolds, Formats, Occupied;
  }

  /** The other phases of an operation: it begins with its DID, the commit of a removal at its event and all
      others by reading the generation; it rotates by one; and it sends what it then reads. */
  lemma PhasesOfAnOperation(s: State, e: Change, i: nat)
    requires e == Turn(i) || (e.Begin? && i == |s.flights|)
    ensures var t := Step(s, e);
      && (e.Begin? ==>
            |t.flights| == i + 1 && t.flights[i].op == e.op && t.flights[i].did == e.did
            && t.flights[i].removals.None? && t.flights[i].pc == if e.op.Commit? then Act else Fetch)
      && (e.Turn? && i < |s.flights| ==>
            var f := s.flights[i];
            && i < |t.flights|
            && (f.pc.Fetch? ==> t.flights[i] == f.(pc := Act, current := s.generation))
            && (f.pc.Rotate? ==> t.flights[i] == f.(pc := Reread) && t.generation == s.generation + 1)
            && (f.pc.Reread? ==> t.flights[i] == f.(pc := Send({}), current := s.generation)))
  {
    hide ReadEvents, Project, RemovedIn, Pruned, GuardHolds, Formats, Occupied, Write;
    if e.Turn? && i < |s.flights| && s.flights[i].pc.Act? { OwnTurnStays(s, i); }
  }

  lemma OwnTurnStays(s: State, i: nat)
    requires i < |s.flights| && s.flights[i].pc.Act?
    ensures |OnTurn(s, i).flights| == |s.flights|
  {
    hide ReadEvents, GuardHolds, Formats, Write;
    var f := s.flights[i];
    match f.op
    case Invite => WriteRotates(Go(s, i, Gone).(cache := s.cache + {f.did}), f.did, Active, f.current);
    case Remove => WriteRotates(Go(s, i, Rotate), f.did, Removed, f.current + 1);
    case Commit(g) => WriteRotates(Distribute(s, i, g), f.did, Removed, g);
  }

  /** A DID is sent a rotation only from the cache, by an operation that is sending, in that generation. */
  lemma DeliveriesComeFromTheCache(s: State, e: Change)
    ensures var t := Step(s, e);
      && s.sent <= t.sent && |t.sent| <= |s.sent| + 1
      && (t.sent != s.sent ==>
            var d := t.sent[|s.sent|];
            && e == Deliver(d.flight, d.to) && d.flight < |s.flights| && s.flights[d.flight].pc.Send?
            && d.generation == s.flights[d.flight].current && d.to in s.cache
            && (d.toRemoved <==> RemovedIn(Events(s), d.to)))
  {
    hide ReadEvents, Project, RemovedIn, Pruned, GuardHolds, Formats, Occupied;
  }

  /** The generation that an operation distributes is above the one it read before it rotated. */
  ghost predicate ReadBelow(f: Flight, generation: int) {
    match f.pc
    case Reread => !f.op.Commit? && f.current < generation
    case Gone => true
    case Rotate => !f.op.Commit? && f.current <= generation
    case _ => f.op.Commit? || f.current <= generation
  }

  ghost predicate Rotating(s: State) {
    forall i :: 0 <= i < |s.flights| ==> ReadBelow(s.flights[i], s.generation)
  }

  lemma WriteRotates(s: State, did: string, status: Status, generation: int)
    ensures var t := Write(s, did, status, generation); t.flights == s.flights && t.generation == s.generation
  {
  }

  lemma TurnRotates(s: State, i: nat)
    requires Rotating(s) && i < |s.flights|
    ensures Rotating(OnTurn(s, i))
  {
    hide Write, ReadEvents, GuardHolds, Formats;
    var f := s.flights[i];
    if f.pc.Act? {
      match f.op
      case Invite => WriteRotates(Go(s, i, Gone).(cache := s.cache + {f.did}), f.did, Active, f.current);
      case Remove => WriteRotates(Go(s, i, Rotate), f.did, Removed, f.current + 1);
      case Commit(g) => WriteRotates(Distribute(s, i, g), f.did, Removed, g);
    }
  }

  lemma {:induction false} RunsRotate(s: State, es: seq<Change>)
    requires Rotating(s)
    ensures Rotating(Run(s, es))
    decreases |es|
  {
    hide ReadEvents, Project, RemovedIn, Pruned, OnTurn;
    if es != [] {
      if es[0].Turn? && es[0].flight < |s.flights| { TurnRotates(s, es[0].flight); }
      assert Rotating(Step(s, es[0]));
      RunsRotate(Step(s, es[0]), es[1..]);
    }
  }

  /** In every run from an attach: a rotation that begins to be sent is of a later generation than the one its
      operation had read, or that of the commit itself. */
  lemma RotationIsNew(s: State, es: seq<Change>, e: Change, i: nat)
    requires Attached(s) && i < |Run(s, es).flights| && !Run(s, es).flights[i].pc.Send?
    requires i < |Step(Run(s, es), e).flights| && Step(Run(s, es), e).flights[i].pc.Send?
    ensures var f, g := Run(s, es).flights[i], Step(Run(s, es), e).flights[i];
      g.current == if f.op.Commit? then f.op.generation else Run(s, es).generation
    ensures !Run(s, es).flights[i].op.Commit? ==> Run(s, es).flights[i].current < Step(Run(s, es), e).flights[i].current
  {
    RunsRotate(s, es);
    BeginsToSend(Run(s, es), e, i);
    hide Run, Step, Rotating;
  }

  lemma BeginsToSend(s: State, e: Change, i: nat)
    requires Rotating(s) && i < |s.flights| && !s.flights[i].pc.Send?
    requires i < |Step(s, e).flights| && Step(s, e).flights[i].pc.Send?
    ensures var f, g := s.flights[i], Step(s, e).flights[i];
      && g.current == (if f.op.Commit? then f.op.generation else s.generation)
      && (!f.op.Commit? ==> f.current < g.current)
  {
    hide ReadEvents, Project, RemovedIn, Pruned, GuardHolds, Formats, Occupied, Write, Observe;
    if e.Turn? && e.flight == i {
      var f := s.flights[i];
      if f.pc.Act? && f.op.Commit? {
        WriteRotates(Distribute(s, i, f.op.generation), f.did, Removed, f.op.generation);
      } else if f.pc.Act? && f.op.Remove? {
        WriteRotates(Go(s, i, Rotate), f.did, Removed, f.current + 1);
      } else if f.pc.Act? {
        WriteRotates(Go(s, i, Gone).(cache := s.cache + {f.did}), f.did, Active, f.current);
      }
    } else if e.Turn? && e.flight < |s.flights| {
      OtherTurnsStay(s, e.flight, i);
    } else {
      ObserveStays(s);
    }
  }

  lemma OtherTurnsStay(s: State, k: nat, i: nat)
    requires k < |s.flights| && i < |s.flights| && k != i
    ensures |OnTurn(s, k).flights| == |s.flights| && OnTurn(s, k).flights[i] == s.flights[i]
  {
    hide ReadEvents, GuardHolds, Formats, Write;
    var f := s.flights[k];
    if f.pc.Act? {
      match f.op
      case Invite => WriteRotates(Go(s, k, Gone).(cache := s.cache + {f.did}), f.did, Active, f.current);
      case Remove => WriteRotates(Go(s, k, Rotate), f.did, Removed, f.current + 1);
      case Commit(g) => WriteRotates(Distribute(s, k, g), f.did, Removed, g);
    }
  }

  lemma ObserveStays(s: State)
    ensures forall doc :: Observe(s.(doc := doc)).flights == s.flights
  {
  }

  /** Whenever the document shows something new, the observer leaves a clean cache behind, whatever it found. */
  lemma AnyDocumentChangeHeals(s: State, e: Change)
    requires Agreed(s)
    requires ViewOf(Step(s, e).doc) != ViewOf(s.doc)
    ensures Clean(Step(s, e))
  {
    match e
    case Merge(doc) =>
    case Promote(did) =>
    case Turn(i) =>
      if i < |s.flights| && s.flights[i].pc.Act? {
        var f := s.flights[i];
        hide Write, ReadEvents, Format, ActiveDids, Text.SortedOf, ActiveAdmins, RemovedIn;
        match f.op
        case Invite => WriteCleans(Go(s, i, Gone).(cache := s.cache + {f.did}), f.did, Active, f.current);
        case Remove => WriteCleans(Go(s, i, Rotate), f.did, Removed, f.current + 1);
        case Commit(g) => WriteCleans(Distribute(s, i, g), f.did, Removed, g);
      }
    case _ =>
  }

  /** An invitation that did not have to rotate has a current reading of the removals, so it can only spoil
      the cache where the key of its activation holds something that is not that activation. */
  lemma FirstGuardIsCurrent(s: State, i: nat)
    requires i < |s.flights| && s.flights[i].pc.Act? && s.flights[i].op.Invite? && s.flights[i].removals.None?
    requires GuardHolds(s, i) && Formats(s.flights[i].did, Active, s.flights[i].current)
    ensures var f := s.flights[i];
      UnwrittenInvite(s, Turn(i)) <==> RemovedIn(Events(s), f.did) && !Takes(s.doc, f.did, Active, f.current)
  {
    var f := s.flights[i];
    var e := Event(f.did, Active, f.current);
    ReadsWhatIsFiled(s.doc.members, e);
    hide ReadEvents, Format;
    if e in Events(s) {
      assert AboveRemovals(Events(s), f.did, f.current) by {
        forall r | r in Events(s) && r.did == f.did && r.status.Removed? ensures r.generation < f.current {
          assert r.generation in GuardReading(s, i);
        }
      }
    }
  }

  /** What a finished invitation achieves: the DID is active exactly if the document takes its activation and
      that is above every removal by then, or it was active anyway; and its key is cached exactly if the DID
      is not removed, but for an unwritten invitation. */
  lemma InvitationAdmits(s: State, i: nat)
    requires Agreed(s) && i < |s.flights| && s.flights[i].pc.Act? && s.flights[i].op.Invite?
    requires GuardHolds(s, i)
    ensures var t := Step(s, Turn(i)); var f := s.flights[i];
      && (ActiveIn(Events(t), f.did) <==>
            || ActiveIn(Events(s), f.did)
            || (Takes(s.doc, f.did, Active, f.current) && AboveRemovals(Events(s), f.did, f.current)))
      && (f.did in t.cache <==> !RemovedIn(Events(t), f.did) || UnwrittenInvite(s, Turn(i)))
  {
    hide Write, ReadEvents, Format, ActiveIn, AboveRemovals, Clean, Takes, Occupied, ActiveDids, Text.SortedOf;
    var f := s.flights[i];
    var u := Go(s, i, Gone).(cache := s.cache + {f.did});
    WriteShows(u, f.did, Active, f.current);
    WriteCleans(u, f.did, Active, f.current);
    if f.current >= 0 { ActivationAdmits(Events(s), f.did, f.current); }
  }

  /** The generation that a removal, or the commit of one, writes. */
  function RemovedAt(f: Flight): int {
    match f.op
    case Commit(g) => g
    case _ => f.current + 1
  }

  /** And what a removal, or the commit of one, achieves, for every document whose events about the DID are not
      ahead of its generation: it goes on exactly if its event has a key; the DID is out exactly if the document
      takes the event, or it was out anyway; and where the document shows something new, its key is out of the
      cache. */
  lemma RemovalRemoves(s: State, i: nat)
    requires Agreed(s) && i < |s.flights| && s.flights[i].pc.Act?
    requires !s.flights[i].op.Invite? && RemovedAt(s.flights[i]) >= 0
    requires forall e :: e in Events(s) && e.did == s.flights[i].did ==> e.generation <= RemovedAt(s.flights[i])
    ensures var t := Step(s, Turn(i)); var f := s.flights[i]; var g := RemovedAt(f);
      && i < |t.flights| && (t.flights[i].pc.Gone? <==> !Formats(f.did, Removed, g))
      && (RemovedIn(Events(t), f.did) <==> Takes(s.doc, f.did, Removed, g) || RemovedIn(Events(s), f.did))
      && (RemovedIn(Events(t), f.did) && ViewOf(t.doc) != ViewOf(s.doc) ==> f.did !in t.cache)
  {
    hide Write, ReadEvents, Format, ActiveIn, Takes, Occupied, ActiveDids, Text.SortedOf;
    var f, g := s.flights[i], RemovedAt(s.flights[i]);
    var u := if f.op.Commit? then Distribute(s, i, g) else Go(s, i, Rotate);
    WriteShows(u, f.did, Removed, g);
    WriteCleans(u, f.did, Removed, g);
    WriteRotates(u, f.did, Removed, g);
    RemovalExcludes(Events(s), f.did, g);
  }

  /** The re-invite guard, at its one reading: it rotates exactly if the current generation is not above every
      removal of the DID. */
  lemma GuardIsAboveRemovals(s: State, i: nat)
    requires i < |s.flights| && s.flights[i].pc.Act? && s.flights[i].op.Invite? && s.flights[i].removals.None?
    ensures var t := Step(s, Turn(i));
      && i < |t.flights|
      && (t.flights[i].pc.Rotate? <==> !AboveRemovals(Events(s), s.flights[i].did, s.flights[i].current))
  {
    hide ReadEvents, Write, Formats;
    var f := s.flights[i];
    WriteRotates(Go(s, i, Gone).(cache := s.cache + {f.did}), f.did, Active, f.current);
    forall r | r in Events(s) && r.did == f.did && r.status.Removed? ensures r.generation in GuardReading(s, i) {
    }
  }

  // ---------------------------------------------------------------- whose key is cached

  /** A key comes into the cache by an invitation past its guard, or from what was persisted. */
  predicate Caches(s: State, e: Change, did: string) {
    || (e.Restore? && did in e.cache)
    || (e.Turn? && e.flight < |s.flights| && s.flights[e.flight].pc.Act? && s.flights[e.flight].op.Invite?
        && GuardHolds(s, e.flight) && s.flights[e.flight].did == did)
  }

  lemma CacheOfOneStep(s: State, e: Change, did: string)
    ensures did in Step(s, e).cache ==> did in s.cache || Caches(s, e, did)
    ensures e.Begin? && !e.op.Invite? && e.did == did ==> did !in Step(s, e).cache
  {
    hide ReadEvents, Project, RemovedIn, GuardHolds, Formats, Occupied;
  }

  ghost predicate NeverCaches(s: State, es: seq<Change>, did: string)
    decreases |es|
  {
    es == [] || (!Caches(s, es[0], did) && NeverCaches(Step(s, es[0]), es[1..], did))
  }

  /** Whoever is removed gets none of the rotations from the beginning of the removal on, unless invited again or
      restored, whether or not the removal is ever written. */
  lemma RemovedGetsNoRotation(s: State, op: Op, did: string, es: seq<Change>)
    requires !op.Invite? && NeverCaches(Step(s, Begin(op, did)), es, did)
    ensures var t := Run(Step(s, Begin(op, did)), es);
      && did !in t.cache && |s.sent| <= |t.sent|
      && forall k :: |s.sent| <= k < |t.sent| ==> t.sent[k].to != did
  {
    CacheOfOneStep(s, Begin(op, did), did);
    UncachedGetsNothing(Step(s, Begin(op, did)), did, es);
  }

  lemma {:induction false} UncachedGetsNothing(s: State, did: string, es: seq<Change>)
    requires did !in s.cache && NeverCaches(s, es, did)
    ensures var t := Run(s, es);
      did !in t.cache && s.sent <= t.sent && forall k :: |s.sent| <= k < |t.sent| ==> t.sent[k].to != did
    decreases |es|
  {
    hide Step, Caches;
    if es != [] {
      CacheOfOneStep(s, es[0], did);
      DeliveriesComeFromTheCache(s, es[0]);
      UncachedGetsNothing(Step(s, es[0]), did, es[1..]);
    }
  }

  /** An operation that failed is over. */
  lemma FailureIsFinal(s: State, e: Change, i: nat)
    requires i < |s.flights| && !e.Restore?
    ensures var t := Step(s, e);
      i < |t.flights| && (s.flights[i].pc.Gone? || e == Fail(i) ==> t.flights[i].pc.Gone?)
  {
    hide ReadEvents, Project, RemovedIn, Pruned, GuardHolds, Formats, Occupied;
  }

  // ---------------------------------------------------------------- what the observer leaves alone

  /** A restart from persisted metadata agrees with the document, keeps exactly the keys of those who are not
      removed, and what was persisted where the document shows no event. */
  lemma RestartIsClean(s: State, info: Info, cache: set<string>)
    ensures var t := Step(s, Restore(info, cache));
      && Agreed(t) && Clean(t) && t.flights == [] && t.doc == s.doc && t.sent == s.sent
      && (forall did :: did in t.cache <==> did in cache && !RemovedIn(Events(s), did))
      && (Events(s) == {} ==> t.info.members == info.members && t.info.admins == info.admins)
      && (s.doc.createdBy.None? ==> t.info.createdBy == info.createdBy)
  {
    hide ReadEvents, ActiveDids, Text.SortedOf, ActiveAdmins;
  }

  /** A document without events leaves the cached members and admins of an older space as they are. */
  lemma WithoutEventsTheListStays(s: State, e: Change)
    requires Events(Step(s, e)) == {} && !e.Restore?
    ensures Step(s, e).info.members == s.info.members && Step(s, e).info.admins == s.info.admins
  {
    hide ReadEvents, ActiveDids, Text.SortedOf, ActiveAdmins, RemovedIn, Pruned, GuardHolds, Formats, Occupied;
  }

  /** What shows the same is skipped: nothing is projected, and nothing pruned either. */
  lemma SameViewIsSkipped(s: State, doc: Doc)
    requires Agreed(s) && ViewOf(doc) == ViewOf(s.doc)
    ensures Step(s, Merge(doc)) == s.(doc := doc)
  {
    hide ReadEvents, ActiveDids, Text.SortedOf, ActiveAdmins;
  }

  /** A promotion is in the document, and in the cached admins exactly where its DID is a member. */
  lemma PromotionShows(s: State, did: string)
    requires Agreed(s)
    ensures var t := Step(s, Promote(did));
      && t.doc.admins == s.doc.admins + {did} && Events(t) == Events(s)
      && (Events(s) != {} ==> (did in t.info.admins <==> did in t.info.members))
  {
    StepAgrees(s, Promote(did));
    hide ReadEvents, ActiveDids, Text.SortedOf, RemovedIn, Pruned;
  }

  // ---------------------------------------------------------------- both ways are reachable

  const DID := "did:x:b"
  const PLAIN := Doc(None, map[], {})

  function With(doc: Doc, e: Event): Doc
    requires Format(e).Some?
  {
    doc.(members := WriteEvent(doc.members, e))
  }

  lemma DidIsValid(generation: nat, status: Status)
    requires generation <= MAX_SAFE_INTEGER
    ensures Format(Event(DID, status, generation)).Some?
  {
    assert MethodEndsAt(DID, 5);
  }

  lemma WithShows(doc: Doc, e: Event)
    requires Format(e).Some? && Format(e).value !in doc.members
    ensures ReadEvents(With(doc, e).members) == ReadEvents(doc.members) + {e}
  {
    WriteOnlyAdds(doc.members, e);
  }

  lemma WithLeavesFree(doc: Doc, e: Event, f: Event)
    requires Format(e).Some? && Format(f).Some? && e != f && Format(f).value !in doc.members
    ensures Format(f).value !in With(doc, e).members
  {
    hide Format;
    if Format(f) == Format(e) { FormatIsInjective(f, e); }
  }

  predicate Free(doc: Doc, e: Event) {
    Format(e).Some? && Format(e).value !in doc.members
  }

  /** Removed at generation 1, and nothing else is known of it. */
  lemma OnceRemoved() returns (doc: Doc)
    ensures ReadEvents(doc.members) == {Event(DID, Removed, 1)}
    ensures Free(doc, Event(DID, Active, 2)) && Free(doc, Event(DID, Removed, 2))
  {
    DidIsValid(1, Removed);
    DidIsValid(2, Removed);
    DidIsValid(2, Active);
    hide ReadEvents, Format;
    WithShows(PLAIN, Event(DID, Removed, 1));
    doc := With(PLAIN, Event(DID, Removed, 1));
    WithLeavesFree(PLAIN, Event(DID, Removed, 1), Event(DID, Removed, 2));
    WithLeavesFree(PLAIN, Event(DID, Removed, 1), Event(DID, Active, 2));
    NothingIsRead();
  }

  lemma NothingIsRead()
    ensures ReadEvents(PLAIN.members) == {}
  {
  }

  ghost function Before(doc: Doc, generation: nat): State {
    Seed(State(doc, Info(None, [], []), None, {}, generation, [], []))
  }

  lemma BeforeIsClean(doc: Doc, generation: nat)
    ensures var s := Before(doc, generation);
      Agreed(s) && Clean(s) && s == State(doc, s.info, s.seen, {}, generation, [], [])
  {
    hide ReadEvents, ActiveDids, Text.SortedOf, ActiveAdmins;
  }

  const Race := [Begin(Invite, DID), Turn(0), Turn(0), Turn(0), Turn(0)]

  /** Up to the rotation of a re-invitation, on a state without any flight. */
  lemma RaceRotates(s: State)
    requires Events(s) == {Event(DID, Removed, 1)} && s.flights == [] && s.generation == 1
    ensures Run(s, Race) == s.(generation := 2, flights := [Flight(Invite, DID, 2, Some({1}), Send({}))])
  {
    hide ReadEvents;
    var s1 := Step(s, Race[0]);
    var s2 := Step(s1, Race[1]);
    assert RemovalsOf(Events(s), DID) == {1} by { assert Event(DID, Removed, 1) in Events(s); }
    var s3 := Step(s2, Race[2]);
    assert 1 in GuardReading(s2, 0) && s2.flights[0].current == 1;
    assert s3.flights[0] == Flight(Invite, DID, 1, Some({1}), Rotate);
    var s4 := Step(s3, Race[3]);
    var s5 := Step(s4, Race[4]);
    assert Race[1..][1..] == Race[2..] && Race[2..][1..] == Race[3..];
    assert Race[3..][1..] == Race[4..] && Race[4..][1..] == [];
    assert Run(s, Race) == Run(s1, Race[1..]) == Run(s2, Race[2..]) == Run(s3, Race[3..]);
    assert Run(s3, Race[3..]) == Run(s4, Race[4..]) == s5;
  }

  lemma {:induction false} RunConcat(s: State, a: seq<Change>, b: seq<Change>)
    ensures Run(s, a + b) == Run(Run(s, a), b)
    decreases |a|
  {
    hide Step;
    if a == [] {
      assert a + b == b;
    } else {
      assert (a + b)[1..] == a[1..] + b;
      RunConcat(Step(s, a[0]), a[1..], b);
    }
  }

  lemma RemovalWinsTheTie(events: set<Event>)
    requires events == {Event(DID, Removed, 1)} + {Event(DID, Active, 2)} + {Event(DID, Removed, 2)}
    ensures RemovedIn(events, DID)
  {
    assert Event(DID, Removed, 2) in events;
  }

  /** Removed at both generations, and active at the second: the removal wins the tie. */
  lemma RemovedTwice(doc: Doc) returns (after: Doc)
    requires ReadEvents(doc.members) == {Event(DID, Removed, 1)}
    requires Free(doc, Event(DID, Active, 2)) && Free(doc, Event(DID, Removed, 2))
    ensures RemovedIn(ReadEvents(after.members), DID) && Formats(DID, Active, 2) && Occupied(after, DID, Active, 2)
  {
    hide ReadEvents, Format, RemovedIn;
    var a, r := Event(DID, Active, 2), Event(DID, Removed, 2);
    WithShows(doc, a);
    WithLeavesFree(doc, a, r);
    var middle := With(doc, a);
    WithShows(middle, r);
    after := With(middle, r);
    RemovalWinsTheTie(ReadEvents(after.members));
  }

  lemma RaceEnds(s: State, after: Doc)
    requires s.flights == [Flight(Invite, DID, 2, Some({1}), Send({}))] && s.cache == {} && s.generation == 2
    requires RemovedIn(ReadEvents(after.members), DID) && Formats(DID, Active, 2) && Occupied(after, DID, Active, 2)
    ensures var t := Run(s, [Merge(after), Turn(0), Turn(0)]); !Clean(t) && DID in t.cache
  {
    hide ReadEvents, Format, RemovedIn, Project;
    var es := [Merge(after), Turn(0), Turn(0)];
    var s6 := Step(s, es[0]);
    assert s6.cache == {} && s6.doc == after && s6.flights == s.flights;
    var s7 := Step(s6, es[1]);
    assert s7.cache == {} && s7.doc == after && s7.flights == [Flight(Invite, DID, 2, Some({1}), Act)];
    assert GuardHolds(s7, 0);
    var s8 := Step(s7, es[2]);
    assert s8.cache == {DID} && s8.doc == after;
    assert es[1..][1..] == [Turn(0)];
    assert Run(s, es) == Run(s6, es[1..]) == Run(s7, [Turn(0)]) == s8;
  }

  /** While a re-invitation rotates, another admin's re-invite and removal of the same DID at the new
      generation arrive: the invitation then caches the key of a DID that the document says is removed,
      although every step before kept the cache clean. */
  lemma StaleReInviteIsReachable() returns (s: State, es: seq<Change>)
    ensures Agreed(s) && Clean(s) && s.flights == []
    ensures !Clean(Run(s, es)) && DID in Run(s, es).cache
  {
    var doc := OnceRemoved();
    var after := RemovedTwice(doc);
    s := Before(doc, 1);
    BeforeIsClean(doc, 1);
    hide ReadEvents, Format, RemovedIn, Before, Seed, Run, Agreed, Clean, Free;
    RaceRotates(s);
    var later := [Merge(after), Turn(0), Turn(0)];
    es := Race + later;
    RunConcat(s, Race, later);
    RaceEnds(Run(s, Race), after);
  }

  /** No race is needed where the key of the activation is occupied: a DID removed at generation 1, a key at
      generation 2, and a record under the activation's key that is no event. The invitation passes the guard
      without a rotation, caches the key, writes nothing, and leaves the DID removed. */
  lemma OccupiedKeySpoilsTheCache() returns (s: State, es: seq<Change>)
    ensures Agreed(s) && Clean(s) && s.flights == []
    ensures var t := Run(s, es); !Clean(t) && DID in t.cache && t.doc == s.doc
  {
    var doc := OnceRemoved();
    var e := Event(DID, Active, 2);
    JunkIsNotRead(doc.members, e);
    hide ReadEvents, Format;
    var junk := doc.(members := doc.members[Format(e).value := None]);
    s := Before(junk, 2);
    BeforeIsClean(junk, 2);
    es := [Begin(Invite, DID), Turn(0), Turn(0)];
    OccupiedInviteRuns(s);
  }

  lemma OccupiedInviteRuns(s: State)
    requires Events(s) == {Event(DID, Removed, 1)} && s.flights == [] && s.generation == 2
    requires Formats(DID, Active, 2) && Occupied(s.doc, DID, Active, 2)
    ensures var t := Run(s, [Begin(Invite, DID), Turn(0), Turn(0)]); !Clean(t) && DID in t.cache && t.doc == s.doc
  {
    hide ReadEvents, Format;
    var es := [Begin(Invite, DID), Turn(0), Turn(0)];
    assert Event(DID, Removed, 1) in Events(s) && RemovedIn(Events(s), DID);
    var s1 := Step(s, es[0]);
    var s2 := Step(s1, es[1]);
    assert s2 == s.(flights := [Flight(Invite, DID, 2, None, Act)]);
    assert GuardHolds(s2, 0);
    var s3 := Step(s2, es[2]);
    assert s3 == s2.(flights := [Flight(Invite, DID, 2, None, Gone)], cache := s.cache + {DID});
    assert es[1..][1..] == [Turn(0)];
    assert Run(s, es) == Run(s1, es[1..]) == Run(s2, [Turn(0)]) == s3;
  }

  lemma JunkIsNotRead(members: map<string, Option<Event>>, e: Event)
    requires Format(e).Some? && Format(e).value !in members
    ensures ReadEvents(members[Format(e).value := None]) == ReadEvents(members)
  {
    hide Parse, Format;
    forall f ensures f in ReadEvents(members[Format(e).value := None]) <==> f in ReadEvents(members) {
      ReadsWhatIsFiled(members, f);
      ReadsWhatIsFiled(members[Format(e).value := None], f);
    }
  }

  /** The same for a removal: a record that is no event under the key of `removed` at the next generation
      leaves an active member in. */
  lemma OccupiedKeyKeepsTheMember(did: string) returns (s: State)
    requires Formats(did, Removed, 1) && Formats(did, Active, 0)
    ensures Agreed(s) && Clean(s) && s.flights == [Flight(Remove, did, 0, None, Act)]
    ensures ActiveIn(Events(s), did) && Step(s, Turn(0)) == Go(s, 0, Rotate)
  {
    var a, r := Event(did, Active, 0), Event(did, Removed, 1);
    hide ReadEvents, Format;
    WithShows(PLAIN, a);
    WithLeavesFree(PLAIN, a, r);
    NothingIsRead();
    JunkIsNotRead(With(PLAIN, a).members, r);
    var doc := With(PLAIN, a).(members := With(PLAIN, a).members[Format(r).value := None]);
    BeforeIsClean(doc, 0);
    s := Before(doc, 0).(flights := [Flight(Remove, did, 0, None, Act)]);
    assert Events(s) == {a};
    OnlyActivation(Events(s), a);
    hide Before, Seed, ActiveIn, Project;
  }

  lemma OnlyActivation(events: set<Event>, a: Event)
    requires events == {a} && a.status.Active?
    ensures ActiveIn(events, a.did)
  {
    assert a in events;
  }

  // ---------------------------------------------------------------- the adapter's own updates

  /** `readMembershipEvents`: whatever is no event, or is filed under another event's key, is skipped. */
  method ReadMembershipEvents(members: map<string, Option<Event>>) returns (list: seq<Event>)
    ensures SetOf(list) == ReadEvents(members)
  {
    list := [];
    var rest := members.Keys;
    while rest != {}
      invariant rest <= members.Keys
      invariant forall e :: e in list <==>
        exists k :: k in members && k !in rest && Parse(k) == members[k] && members[k] == Some(e)
      decreases |rest|
    {
      hide Parse;
      var key :| key in rest;
      rest := rest - {key};
      if members[key].Some? && Parse(key) == members[key] { list := list + [members[key].value]; }
    }
  }

  class Space {
    var doc: Doc
    var info: Info
    var seen: Option<View>
    var cache: set<string>
    var generation: int
    var flights: seq<Flight>
    var sent: seq<Delivery>

    ghost function Model(): State
      reads this
    {
      State(doc, info, seen, cache, generation, flights, sent)
    }

    constructor (generation: int, doc: Doc, info: Info, cache: set<string>)
      ensures Model() == Seed(State(doc, info, None, cache, generation, [], []))
    {
      this.doc, this.info, this.cache, this.generation := doc, info, cache, generation;
      seen, flights, sent := None, [], [];
      new;
      SeedMembershipProjection();
    }

    /** `pruneRemovedMemberEncryptionKeys`. */
    method Prune(events: seq<Event>)
      modifies `cache
      ensures cache == Pruned(old(cache), SetOf(events))
    {
      var rest := cache;
      while rest != {}
        invariant rest <= old(cache)
        invariant cache == rest + Pruned(old(cache) - rest, SetOf(events))
        decreases |rest|
      {
        var did :| did in rest;
        var winner := ResolveMembershipWinner(events, did);
        rest := rest - {did};
        if winner.Some? && winner.value.status.Removed? { cache := cache - {did}; }
      }
    }

    method ApplyMembershipProjection(events: seq<Event>)
      modifies `info
      ensures info == Project(View(doc.createdBy, SetOf(events), doc.admins), old(info))
    {
      if doc.createdBy.Some? { info := info.(createdBy := doc.createdBy); }
      if |events| > 0 {
        assert events[0] in SetOf(events);
        var members := ResolveActiveMembers(events);
        var admins := ResolveActiveAdmins(doc.admins, members);
        info := info.(members := members, admins := admins);
      } else {
        assert SetOf(events) == {};
      }
    }

    method SeedMembershipProjection()
      modifies `seen, `info, `cache
      ensures Model() == Seed(old(Model()))
    {
      var events := ReadMembershipEvents(doc.members);
      seen := Some(ViewOf(doc));
      ApplyMembershipProjection(events);
      Prune(events);
    }

    method OnDocMembershipChanged()
      modifies `seen, `info, `cache
      ensures Model() == Observe(old(Model()))
    {
      if seen == Some(ViewOf(doc)) { return; }
      var events := ReadMembershipEvents(doc.members);
      seen := Some(ViewOf(doc));
      ApplyMembershipProjection(events);
      if |events| == 0 {
        assert SetOf(events) == {};
        return;
      }
      assert events[0] in SetOf(events);
      Prune(events);
    }

    method WriteMembershipEvent(did: string, status: Status, generation: int)
      modifies `doc, `seen, `info, `cache
      ensures Model() == Write(old(Model()), did, status, generation)
    {
      if !Formats(did, status, generation) { return; }
      var key := Format(Event(did, status, generation)).value;
      if key in doc.members { return; }
      doc := doc.(members := doc.members[key := Some(Event(did, status, generation))]);
      OnDocMembershipChanged();
    }

    /** One turn of `addMember` between two awaits. */
    method InviteTurn(i: nat)
      requires i < |flights| && flights[i].pc.Act? && flights[i].op.Invite?
      modifies this
      ensures Model() == Step(old(Model()), Turn(i))
    {
      var f := flights[i];
      var removals := if f.removals.Some? then f.removals.value else RemovalsOf(ReadEvents(doc.members), f.did);
      assert removals == GuardReading(Model(), i);
      if exists g :: g in removals && g >= f.current {
        assert !GuardHolds(Model(), i);
        flights := flights[i := f.(removals := Some(removals), pc := Rotate)];
        return;
      }
      flights := flights[i := f.(pc := Gone)];
      cache := cache + {f.did};
      WriteMembershipEvent(f.did, Active, f.current);
    }
  }
}
