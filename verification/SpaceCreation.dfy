/** The creation of a space as a flight of awaits, each behind the lease of the session that started it,
    while `stop()` may land in any gap and the next session may already be creating the same space. */
module SpaceCreation {
  import opened Common

  type Id = nat

  datatype Phase = Keys | Insert | Metadata | Flush | Coordinator | Publication | Seed

  /** The await a flight is parked at. `Keying` knows whether the space was there before the call for the keys,
      which decides what is inserted behind it; `Opening` knows whether a coordinator was there at the call;
      `Settling` is between the end of the flight and its `finally`. */
  datatype Pc =
    | Deriving | Keying(resumed: bool) | Persisting | Flushing | Opening(had: bool) | Installed(has: bool)
    | Publishing | Probing | Seeding
    | Settling | Over

  /** What the awaited call did: threw, returned, or returned the other answer (no coordinator without a
      durable store; publication deferred; the log already seeded). */
  datatype Answer = Threw | Returned | Otherwise

  /** `isPrivate` says the flight is the deterministic private-space one. History: the phases it ran, the
      answers to its calls for a coordinator, for the publication and for whether the log is empty, and whether
      it marked its space. */
  datatype Flight = Flight(
    id: Id, lease: nat, isPrivate: bool, pc: Pc,
    ran: set<Phase>, opening: Option<Answer>, publication: Option<Answer>, probe: Option<Answer>, done: bool)

  /** An effect that a flight started, and the session it fell into. */
  datatype Effect = Effect(flight: nat, phase: Phase, session: nat)

  /** `spaces` and `coordinators` hold the session in which each entry was installed. */
  datatype State = State(
    epoch: nat, spaces: map<Id, nat>, coordinators: map<Id, nat>, provisioned: set<Id>,
    flights: seq<Flight>, shared: Option<nat>, effects: seq<Effect>)

  /** `Coordinate`: something else in the session needs the space's coordinator first. */
  datatype Event =
    | Stop
    | OpenPrivate
    | Create(id: Id)
    | Restore(id: Id)
    | Forget(id: Id)
    | Coordinate(id: Id)
    | Turn(flight: nat, answer: Answer)
    | Finally(flight: nat)

  const Initial := State(0, map[], map[], {}, [], None, [])
  const PRIVATE: Id := 0

  function Park(s: State, i: nat, pc: Pc): State
    requires i < |s.flights|
  {
    s.(flights := s.flights[i := s.flights[i].(pc := pc)])
  }

  function Ran(s: State, i: nat, phase: Phase, pc: Pc): State
    requires i < |s.flights|
  {
    s.(flights := s.flights[i := s.flights[i].(pc := pc, ran := s.flights[i].ran + {phase})])
  }

  /** The flight has just run `phase`, with an effect of its own, and parks at the await behind it. */
  function Start(s: State, i: nat, phase: Phase, pc: Pc): State
    requires i < |s.flights|
  {
    Ran(s, i, phase, pc).(effects := s.effects + [Effect(i, phase, s.epoch)])
  }

  function Provision(s: State, i: nat): State
    requires i < |s.flights|
  {
    s.(flights := s.flights[i := s.flights[i].(pc := Settling, done := true)],
       provisioned := s.provisioned + {s.flights[i].id})
  }

  /** Into `spaces` unless it was resumed, whatever is there by now, and on to the metadata write. */
  function InsertSpace(s: State, i: nat, resumed: bool): State
    requires i < |s.flights|
  {
    var id := s.flights[i].id;
    Start(Start(s.(spaces := if resumed then s.spaces else s.spaces[id := s.epoch],
                   provisioned := s.provisioned - {id}), i, Insert, Persisting), i, Metadata, Persisting)
  }

  function Opened(s: State, i: nat, answer: Answer): State
    requires i < |s.flights|
  {
    s.(flights := s.flights[i := s.flights[i].(opening := Some(answer))])
  }

  /** A coordinator that was there is taken; a new one takes the place of any that came in meanwhile. */
  function Install(s: State, i: nat, had: bool, answer: Answer): State
    requires i < |s.flights|
  {
    var id := s.flights[i].id;
    if had then Ran(Opened(s, i, Returned), i, Coordinator, Installed(true))
    else if answer.Otherwise? then Park(Opened(s, i, Otherwise), i, Installed(false))
    else Start(Opened(s, i, Returned).(coordinators := s.coordinators[id := s.epoch]), i, Coordinator, Installed(true))
  }

  function Published(s: State, i: nat, answer: Answer): State
    requires i < |s.flights|
  {
    s.(flights := s.flights[i := s.flights[i].(pc := Probing, publication := Some(answer))])
  }

  function Probed(s: State, i: nat, answer: Answer): State
    requires i < |s.flights|
  {
    s.(flights := s.flights[i := s.flights[i].(probe := Some(answer))])
  }

  /** The lease is checked first, whatever the awaited call returned; then comes what the code does up to
      its next await. */
  function OnTurn(s: State, i: nat, answer: Answer, logSync: bool): State
    requires i < |s.flights|
  {
    var f := s.flights[i];
    if f.pc.Settling? || f.pc.Over? then s
    else if answer.Threw? || f.lease != s.epoch then Park(s, i, Settling)
    else match f.pc
    case Deriving =>
      if f.id in s.spaces && f.id in s.provisioned then Park(s, i, Settling)
      else Start(s, i, Keys, Keying(f.id in s.spaces))
    case Keying(resumed) => InsertSpace(s, i, resumed)
    case Persisting => Start(s, i, Flush, Flushing)
    case Flushing => if logSync then Park(s, i, Opening(f.id in s.coordinators)) else Provision(s, i)
    case Opening(had) => Install(s, i, had, answer)
    case Installed(has) => if has then Start(s, i, Publication, Publishing) else Provision(s, i)
    case Publishing => Published(s, i, answer)
    case Probing =>
      if answer.Returned? then Start(Probed(s, i, answer), i, Seed, Seeding) else Provision(Probed(s, i, answer), i)
    case _ => Provision(s, i)
  }

  function Launch(s: State, id: Id, isPrivate: bool): State {
    var f := Flight(id, s.epoch, isPrivate, if isPrivate then Deriving else Keying(id in s.spaces),
      if isPrivate then {} else {Keys}, None, None, None, false);
    s.(flights := s.flights + [f],
       effects := if isPrivate then s.effects else s.effects + [Effect(|s.flights|, Keys, s.epoch)])
  }

  function OnOpenPrivate(s: State): State {
    if s.shared.Some? then s else Launch(s, PRIVATE, true).(shared := Some(|s.flights|))
  }

  /** What the caller of `openOrCreateDeterministicPrivateSpace` gets to wait for. */
  function Awaited(s: State): nat {
    if s.shared.Some? then s.shared.value else |s.flights|
  }

  function OnFinally(s: State, i: nat): State
    requires i < |s.flights|
  {
    if !s.flights[i].pc.Settling? then s
    else Park(s, i, Over).(shared := if s.shared == Some(i) then None else s.shared)
  }

  function Step(s: State, e: Event, logSync: bool): State {
    match e
    case Stop => s.(epoch := s.epoch + 1, spaces := map[], coordinators := map[], provisioned := {}, shared := None)
    case OpenPrivate => OnOpenPrivate(s)
    case Create(id) => Launch(s, id, false)
    case Restore(id) => if id in s.spaces then s else s.(spaces := s.spaces[id := s.epoch])
    case Forget(id) => s.(spaces := s.spaces - {id}, coordinators := s.coordinators - {id})
    case Coordinate(id) => s.(coordinators := s.coordinators[id := s.epoch])
    case Turn(i, answer) => if i < |s.flights| then OnTurn(s, i, answer, logSync) else s
    case Finally(i) => if i < |s.flights| then OnFinally(s, i) else s
  }

  function Run(s: State, es: seq<Event>, logSync: bool): State
    decreases |es|
  {
    if es == [] then s else Run(Step(s, es[0], logSync), es[1..], logSync)
  }

  // ---------------------------------------------------------------- every reachable state

  const LOCAL := {Keys, Insert, Metadata, Flush}
  const PUBLIC := {Keys, Insert, Metadata, Flush, Coordinator, Publication}

  /** Every phase of a creation: the log phases only where there is a log and a coordinator for it. */
  ghost predicate Complete(f: Flight, logSync: bool) {
    LOCAL <= f.ran && (logSync && Coordinator in f.ran ==> PUBLIC <= f.ran)
  }

  /** The calls a flight made before it marked its space, and that none of them threw. */
  ghost predicate Finished(f: Flight, logSync: bool) {
    && (f.pc.Settling? || f.pc.Over?) && Complete(f, logSync)
    && (if !logSync then f.opening == None == f.publication
        else if f.opening == Some(Otherwise) then f.publication == None && Coordinator !in f.ran
        else f.opening == Some(Returned) && Attempted(f) && f.probe.Some?)
    && (Seed in f.ran <==> f.probe == Some(Returned)) && (f.publication == None ==> f.probe == None)
  }

  predicate Attempted(f: Flight) {
    f.publication == Some(Returned) || f.publication == Some(Otherwise)
  }

  /** What lies behind a flight parked there. */
  ghost predicate Behind(f: Flight, logSync: bool) {
    && (f.done ==> Finished(f, logSync))
    && match f.pc
       case Deriving => f.ran == {} && f.opening == None == f.publication && f.probe == None
       case Keying(_) => f.ran == {Keys} && f.opening == None == f.publication && f.probe == None
       case Persisting => f.ran == {Keys, Insert, Metadata} && f.opening == None == f.publication && f.probe == None
       case Flushing => f.ran == LOCAL && f.opening == None == f.publication && f.probe == None
       case Opening(_) => f.ran == LOCAL && logSync && f.opening == None == f.publication && f.probe == None
       case Installed(has) =>
         && f.ran == (if has then LOCAL + {Coordinator} else LOCAL) && logSync
         && f.opening == Some(if has then Returned else Otherwise) && f.publication == None == f.probe
       case Publishing => f.ran == PUBLIC && logSync && f.opening == Some(Returned) && f.publication == None == f.probe
       case Probing => f.ran == PUBLIC && logSync && f.opening == Some(Returned) && Attempted(f) && f.probe == None
       case Seeding =>
         f.ran == PUBLIC + {Seed} && logSync && f.opening == Some(Returned) && Attempted(f) && f.probe == Some(Returned)
       case _ => true
  }

  ghost predicate MarkedBy(s: State, id: Id, i: nat) {
    i < |s.flights| && s.flights[i].id == id && s.flights[i].lease == s.epoch && s.flights[i].done
  }

  ghost predicate CompletedIn(s: State, id: Id, logSync: bool) {
    exists i: nat :: MarkedBy(s, id, i) && Complete(s.flights[i], logSync)
  }

  predicate Running(f: Flight) {
    !f.pc.Over?
  }

  ghost predicate Timely(s: State, logSync: bool) {
    && (forall i :: 0 <= i < |s.flights| ==> s.flights[i].lease <= s.epoch && Behind(s.flights[i], logSync))
    && (forall k :: 0 <= k < |s.effects| ==>
          s.effects[k].flight < |s.flights| && s.effects[k].session == s.flights[s.effects[k].flight].lease)
    && (forall id :: id in s.spaces ==> s.spaces[id] == s.epoch)
    && (forall id :: id in s.coordinators ==> s.coordinators[id] == s.epoch)
  }

  ghost predicate Accounted(s: State, logSync: bool) {
    forall id :: id in s.provisioned ==> CompletedIn(s, id, logSync)
  }

  ghost predicate OneShared(s: State) {
    && (s.shared.Some? ==> s.shared.value < |s.flights|)
    && (forall i :: 0 <= i < |s.flights| && s.flights[i].isPrivate && s.flights[i].lease == s.epoch ==>
          (s.shared == Some(i) <==> Running(s.flights[i])))
    && (s.shared.Some? ==> s.flights[s.shared.value].isPrivate && s.flights[s.shared.value].lease == s.epoch)
  }

  ghost predicate Sound(s: State, logSync: bool) {
    Timely(s, logSync) && Accounted(s, logSync) && OneShared(s)
  }

  /** The new state differs from the old one, as far as flights go, in flight `i` alone, which keeps its
      identity and does not take back what it ran. */
  ghost predicate Moved(s: State, t: State, i: nat) {
    && i < |s.flights| == |t.flights|
    && (forall k :: 0 <= k < |s.flights| && k != i ==> t.flights[k] == s.flights[k])
    && var f, g := s.flights[i], t.flights[i];
    && g.id == f.id && g.lease == f.lease && g.isPrivate == f.isPrivate && f.ran <= g.ran && (f.done ==> g.done)
    && (f.pc.Over? ==> g.pc.Over?) && (f.pc.Settling? ==> g.pc.Settling? || g.pc.Over?)
  }

  lemma MoveKeepsCompletions(s: State, t: State, i: nat, id: Id, logSync: bool)
    requires Moved(s, t, i) && t.epoch == s.epoch && CompletedIn(s, id, logSync)
    requires s.flights[i].done ==> t.flights[i].ran == s.flights[i].ran
    ensures CompletedIn(t, id, logSync)
  {
    var j: nat :| MarkedBy(s, id, j) && Complete(s.flights[j], logSync);
    assert MarkedBy(t, id, j) && Complete(t.flights[j], logSync);
  }

  /** What one turn of flight `i` may do to everything else. */
  ghost predicate TurnFrame(s: State, t: State, i: nat) {
    && Moved(s, t, i) && t.epoch == s.epoch && t.shared == s.shared
    && s.effects <= t.effects
    && (forall k :: |s.effects| <= k < |t.effects| ==> t.effects[k].flight == i && t.effects[k].session == s.epoch)
    && (forall id :: id in t.spaces ==> (id in s.spaces && t.spaces[id] == s.spaces[id]) || t.spaces[id] == s.epoch)
    && (forall id :: id in t.coordinators ==>
          (id in s.coordinators && t.coordinators[id] == s.coordinators[id]) || t.coordinators[id] == s.epoch)
  }

  predicate Underway(s: State, i: nat) {
    i < |s.flights| && !s.flights[i].pc.Settling? && !s.flights[i].pc.Over?
  }

  lemma PlainFrames(s: State, i: nat, phase: Phase, pc: Pc)
    ensures Underway(s, i) ==>
      TurnFrame(s, Park(s, i, pc), i) && TurnFrame(s, Start(s, i, phase, pc), i) && TurnFrame(s, Provision(s, i), i)
  {
  }

  lemma InsertFrames(s: State, i: nat, resumed: bool)
    ensures Underway(s, i) ==> TurnFrame(s, InsertSpace(s, i, resumed), i)
  {
  }

  lemma LogFrames(s: State, i: nat, had: bool, answer: Answer)
    ensures Underway(s, i) ==>
      && (s.flights[i].pc.Opening? ==> TurnFrame(s, Install(s, i, had, answer), i))
      && TurnFrame(s, Published(s, i, answer), i)
  {
  }

  lemma TurnHasFrame(s: State, i: nat, answer: Answer, logSync: bool)
    requires i < |s.flights|
    ensures TurnFrame(s, OnTurn(s, i, answer, logSync), i)
  {
    if Underway(s, i) {
      hide InsertSpace, Install, Park, Start, Provision, Published, Probed, TurnFrame;
      PlainFrames(s, i, Seed, Settling);
      match s.flights[i].pc
      case Deriving => PlainFrames(s, i, Keys, Keying(s.flights[i].id in s.spaces));
      case Keying(resumed) => InsertFrames(s, i, resumed);
      case Persisting => PlainFrames(s, i, Flush, Flushing);
      case Flushing => PlainFrames(s, i, Seed, Opening(s.flights[i].id in s.coordinators));
      case Opening(had) => LogFrames(s, i, had, answer);
      case Installed(_) => PlainFrames(s, i, Publication, Publishing);
      case Publishing => LogFrames(s, i, false, answer);
      case Probing => ProbeFrames(s, i, answer);
      case _ =>
    }
  }

  lemma ProbeFrames(s: State, i: nat, answer: Answer)
    ensures Underway(s, i) ==>
      && TurnFrame(s, Start(Probed(s, i, answer), i, Seed, Seeding), i)
      && TurnFrame(s, Provision(Probed(s, i, answer), i), i)
  {
  }

  lemma InstallPhases(s: State, i: nat, had: bool, answer: Answer, logSync: bool)
    ensures i < |s.flights| && s.flights[i].pc.Opening? && Behind(s.flights[i], logSync) ==>
      var t := Install(s, i, had, answer);
      |t.flights| == |s.flights| && Behind(t.flights[i], logSync) && t.flights[i].pc.Installed?
  {
  }

  lemma TurnSettles(s: State, i: nat, answer: Answer, logSync: bool)
    requires i < |s.flights|
    ensures var t := OnTurn(s, i, answer, logSync);
      && |t.flights| == |s.flights|
      && (s.flights[i].pc.Settling? || s.flights[i].pc.Over? ==> t == s)
      && (!s.flights[i].pc.Over? ==> !t.flights[i].pc.Over?)
  {
    hide Install, InsertSpace, Start, Provision, Published;
    PartsPark(s, i, Flush, Flushing, s.flights[i].pc == Opening(true), answer);
    PartsPark(s, i, Keys, Keying(s.flights[i].id in s.spaces), WasResumed(s.flights[i].pc), answer);
    PartsPark(s, i, Publication, Publishing, false, answer);
    PartsPark(s, i, Seed, Seeding, false, answer);
    PartsPark(Probed(s, i, answer), i, Seed, Seeding, false, answer);
  }

  predicate WasResumed(pc: Pc) {
    pc.Keying? && pc.resumed
  }

  lemma PartsPark(s: State, i: nat, phase: Phase, pc: Pc, had: bool, answer: Answer)
    ensures i < |s.flights| ==>
      && (var t := Start(s, i, phase, pc);
            |t.flights| == |s.flights| && t.flights[i] == s.flights[i].(pc := pc, ran := s.flights[i].ran + {phase}))
      && (var t := Provision(s, i); |t.flights| == |s.flights| && t.flights[i].pc == Settling)
      && (var t := Published(s, i, answer); |t.flights| == |s.flights| && t.flights[i].pc == Probing)
      && (var t := Install(s, i, had, answer); |t.flights| == |s.flights| && t.flights[i].pc.Installed?)
      && (var t := InsertSpace(s, i, had); |t.flights| == |s.flights| && t.flights[i].pc.Persisting?)
  {
  }

  lemma LocalTurnPhases(s: State, i: nat, answer: Answer, logSync: bool)
    ensures (
      && i < |s.flights| && Behind(s.flights[i], logSync) && s.flights[i].lease == s.epoch && !answer.Threw?
      && (var pc := s.flights[i].pc; pc.Deriving? || pc.Keying? || pc.Persisting? || pc.Flushing?)) ==>
      && (|OnTurn(s, i, answer, logSync).flights| == |s.flights|)
      && (Behind(OnTurn(s, i, answer, logSync).flights[i], logSync))
  {
  }

  lemma LogTurnPhases(s: State, i: nat, answer: Answer, logSync: bool)
    requires i < |s.flights| && Behind(s.flights[i], logSync) && s.flights[i].lease == s.epoch && !answer.Threw?
    requires var pc := s.flights[i].pc; pc.Opening? || pc.Installed? || pc.Publishing? || pc.Probing? || pc.Seeding?
    ensures |OnTurn(s, i, answer, logSync).flights| == |s.flights|
    ensures Behind(OnTurn(s, i, answer, logSync).flights[i], logSync)
  {
    hide InsertSpace, Install, Start;
    match s.flights[i].pc
    case Opening(had) => InstallPhases(s, i, had, answer, logSync);
    case Installed(_) => PartsPark(s, i, Publication, Publishing, false, answer);
    case Probing => PartsPark(Probed(s, i, answer), i, Seed, Seeding, false, answer);
    case _ =>
  }

  lemma TurnPhases(s: State, i: nat, answer: Answer, logSync: bool)
    requires i < |s.flights| && Behind(s.flights[i], logSync)
    ensures var t := OnTurn(s, i, answer, logSync);
      && |t.flights| == |s.flights| && Behind(t.flights[i], logSync)
      && (s.flights[i].pc.Settling? || s.flights[i].pc.Over? ==> t == s)
      && (!s.flights[i].pc.Over? ==> !t.flights[i].pc.Over?)
  {
    TurnSettles(s, i, answer, logSync);
    var pc := s.flights[i].pc;
    if pc.Settling? || pc.Over? || answer.Threw? || s.flights[i].lease != s.epoch {
      hide InsertSpace, Install, Start, Park, Provision;
      assert OnTurn(s, i, answer, logSync) == s || OnTurn(s, i, answer, logSync) == Park(s, i, Settling);
    } else if pc.Deriving? || pc.Keying? || pc.Persisting? || pc.Flushing? {
      hide OnTurn, Behind;
      LocalTurnPhases(s, i, answer, logSync);
    } else {
      hide OnTurn, Behind;
      LogTurnPhases(s, i, answer, logSync);
    }
  }

  lemma TurnProvisions(s: State, i: nat, answer: Answer, logSync: bool)
    ensures i < |s.flights| && Behind(s.flights[i], logSync) ==>
      var t := OnTurn(s, i, answer, logSync);
      && |t.flights| == |s.flights|
      && (t.provisioned <= s.provisioned
          || (t.provisioned == s.provisioned + {s.flights[i].id} && t.flights[i].pc.Settling?
              && s.flights[i].lease == s.epoch && Complete(t.flights[i], logSync)))
  {
  }

  lemma StaleTurn(s: State, i: nat, answer: Answer, logSync: bool)
    ensures i < |s.flights| && s.flights[i].lease != s.epoch ==>
      var t := OnTurn(s, i, answer, logSync); t == s.(flights := t.flights)
  {
  }

  lemma TurnIsTimely(s: State, i: nat, answer: Answer, logSync: bool)
    requires Timely(s, logSync) && i < |s.flights|
    ensures Timely(OnTurn(s, i, answer, logSync), logSync)
  {
    TurnHasFrame(s, i, answer, logSync);
    TurnPhases(s, i, answer, logSync);
    if s.flights[i].lease != s.epoch { StaleTurn(s, i, answer, logSync); }
    hide OnTurn, Behind;
  }

  lemma TurnIsAccounted(s: State, i: nat, answer: Answer, logSync: bool)
    requires Sound(s, logSync) && i < |s.flights|
    ensures Accounted(OnTurn(s, i, answer, logSync), logSync)
  {
    TurnHasFrame(s, i, answer, logSync);
    TurnPhases(s, i, answer, logSync);
    TurnProvisions(s, i, answer, logSync);
    var t := OnTurn(s, i, answer, logSync);
    assert Moved(s, t, i) && t.epoch == s.epoch && Accounted(s, logSync);
    hide OnTurn, Behind, Complete, TurnFrame, Sound;
    forall id | id in t.provisioned ensures CompletedIn(t, id, logSync) {
      if id in s.provisioned {
        MoveKeepsCompletions(s, t, i, id, logSync);
      } else {
        assert t.flights[i].id == id && Complete(t.flights[i], logSync);
      }
    }
  }

  lemma TurnKeepsSound(s: State, i: nat, answer: Answer, logSync: bool)
    requires Sound(s, logSync) && i < |s.flights|
    ensures Sound(OnTurn(s, i, answer, logSync), logSync)
  {
    TurnIsTimely(s, i, answer, logSync);
    TurnIsAccounted(s, i, answer, logSync);
    TurnHasFrame(s, i, answer, logSync);
    TurnPhases(s, i, answer, logSync);
    hide OnTurn, Behind, Timely, Accounted;
  }

  lemma FinallyKeepsSound(s: State, i: nat, logSync: bool)
    requires Sound(s, logSync) && i < |s.flights|
    ensures Sound(OnFinally(s, i), logSync)
  {
    var t := OnFinally(s, i);
    hide Complete;
    forall id | id in t.provisioned ensures CompletedIn(t, id, logSync) {
      MoveKeepsCompletions(s, t, i, id, logSync);
    }
  }

  lemma LaunchKeepsSound(s: State, id: Id, isPrivate: bool, logSync: bool)
    requires Sound(s, logSync) && (isPrivate ==> s.shared.None?)
    ensures Sound(if isPrivate then OnOpenPrivate(s) else Launch(s, id, false), logSync)
  {
    hide Complete;
    var t := if isPrivate then OnOpenPrivate(s) else Launch(s, id, false);
    forall p | p in t.provisioned ensures CompletedIn(t, p, logSync) {
      var j: nat :| MarkedBy(s, p, j) && Complete(s.flights[j], logSync);
      assert MarkedBy(t, p, j);
      assert t.flights[j] == s.flights[j];
    }
  }

  lemma StepKeepsSound(s: State, e: Event, logSync: bool)
    requires Sound(s, logSync)
    ensures Sound(Step(s, e, logSync), logSync)
  {
    match e
    case Turn(i, answer) => if i < |s.flights| { TurnKeepsSound(s, i, answer, logSync); }
    case Finally(i) => if i < |s.flights| { FinallyKeepsSound(s, i, logSync); }
    case OpenPrivate => if s.shared.None? { LaunchKeepsSound(s, PRIVATE, true, logSync); }
    case Create(id) => LaunchKeepsSound(s, id, false, logSync);
    case Forget(id) =>
      assert forall p :: CompletedIn(s, p, logSync) ==> CompletedIn(Step(s, e, logSync), p, logSync);
    case Restore(id) =>
      assert forall p :: CompletedIn(s, p, logSync) ==> CompletedIn(Step(s, e, logSync), p, logSync);
    case Coordinate(id) =>
      assert forall p :: CompletedIn(s, p, logSync) ==> CompletedIn(Step(s, e, logSync), p, logSync);
    case Stop =>
  }

  lemma {:induction false} RunKeepsSound(s: State, es: seq<Event>, logSync: bool)
    requires Sound(s, logSync)
    ensures Sound(Run(s, es, logSync), logSync)
    decreases |es|
  {
    hide Step, Sound;
    if es != [] {
      StepKeepsSound(s, es[0], logSync);
      RunKeepsSound(Step(s, es[0], logSync), es[1..], logSync);
    }
  }

  // ---------------------------------------------------------------- main results

  /** Whatever stops and restarts in between: no flight ever starts an effect outside its own session; what
      is installed was installed in the current session; and a space counts as provisioned only if a flight
      of the current session ran all of its phases. */
  lemma EffectsStayInTheirSession(es: seq<Event>, logSync: bool)
    ensures var s := Run(Initial, es, logSync);
      && (forall k :: 0 <= k < |s.effects| ==>
            s.effects[k].flight < |s.flights| && s.effects[k].session == s.flights[s.effects[k].flight].lease)
      && (forall id :: id in s.spaces ==> s.spaces[id] == s.epoch)
      && (forall id :: id in s.coordinators ==> s.coordinators[id] == s.epoch)
      && (forall id :: id in s.provisioned ==> CompletedIn(s, id, logSync))
  {
    RunKeepsSound(Initial, es, logSync);
  }

  /** A flight that outlived its session changes nothing but its own program counter. */
  lemma StaleFlightsAreHarmless(es: seq<Event>, i: nat, answer: Answer, logSync: bool)
    requires i < |Run(Initial, es, logSync).flights|
    requires Run(Initial, es, logSync).flights[i].lease < Run(Initial, es, logSync).epoch
    ensures var s := Run(Initial, es, logSync); var t := Step(s, Turn(i, answer), logSync);
      && t == s.(flights := t.flights) && Moved(s, t, i)
      && Step(s, Finally(i), logSync).shared == s.shared
  {
    RunKeepsSound(Initial, es, logSync);
    var s := Run(Initial, es, logSync);
    TurnHasFrame(s, i, answer, logSync);
    StaleTurn(s, i, answer, logSync);
  }

  /** In every reachable state the private-space flights of the current session that have not settled are
      exactly the one that callers share: a second caller joins it, and no other flight's settling clears it. */
  lemma CallersShareOneFlight(es: seq<Event>, logSync: bool)
    ensures var s := Run(Initial, es, logSync);
      && (forall i :: 0 <= i < |s.flights|
            && s.flights[i].isPrivate && s.flights[i].lease == s.epoch && Running(s.flights[i])
            ==> s.shared == Some(i) && Awaited(s) == i && OnOpenPrivate(s) == s)
      && (forall i :: 0 <= i < |s.flights| && s.shared.Some? && s.shared != Some(i)
            ==> Step(s, Finally(i), logSync).shared == s.shared)
  {
    RunKeepsSound(Initial, es, logSync);
  }

  /** A space is marked by a flight of the current session. What the mark says: the flight called for the
      publication exactly where there is a log and a coordinator was there, and that call did not throw; it
      seeded the log exactly if it then found it empty; but a publication that was merely deferred is marked
      all the same. */
  lemma ProvisionedIsPublishedIff(es: seq<Event>, id: Id, logSync: bool)
    requires id in Run(Initial, es, logSync).provisioned
    ensures var s := Run(Initial, es, logSync);
      && (exists i: nat :: MarkedBy(s, id, i))
      && forall i: nat :: MarkedBy(s, id, i) ==>
           var f := s.flights[i];
           && (f.publication.Some? <==> logSync && f.opening == Some(Returned))
           && f.publication != Some(Threw)
           && (f.probe.Some? <==> f.publication.Some?) && (Seed in f.ran <==> f.probe == Some(Returned))
           && (f.publication == Some(Returned) <==>
                 logSync && f.opening != Some(Otherwise) && f.publication != Some(Otherwise))
  {
    RunKeepsSound(Initial, es, logSync);
    var s := Run(Initial, es, logSync);
    hide Run;
    assert CompletedIn(s, id, logSync);
    forall i: nat | MarkedBy(s, id, i) ensures Finished(s.flights[i], logSync) {
      assert Behind(s.flights[i], logSync);
    }
  }

  /** Opening the private space trusts that mark: a new flight ends at once, without any phase or effect,
      exactly if the space is there and marked. */
  lemma EarlyReturnIffMarked(s: State, logSync: bool)
    requires s.shared.None?
    ensures var i := |s.flights|; var t := OnTurn(OnOpenPrivate(s), i, Returned, logSync);
      && (t.flights[i].pc.Settling? <==> PRIVATE in s.spaces && PRIVATE in s.provisioned)
      && (t.flights[i].pc.Settling? ==> t.flights[i].ran == {} && t.effects == s.effects)
  {
  }

  // ---------------------------------------------------------------- what a session holds

  /** A turn of flight `i` whose call returned, in the session that started it. */
  predicate Continues(s: State, e: Event, i: nat) {
    e.Turn? && e.flight == i < |s.flights| && !e.answer.Threw? && s.flights[i].lease == s.epoch
  }

  /** A flight that did not find the space at its look enters it behind its keys. */
  predicate Enters(s: State, e: Event, id: Id) {
    e.Turn? && Continues(s, e, e.flight) && s.flights[e.flight].pc == Keying(false) && s.flights[e.flight].id == id
  }

  predicate Resumes(s: State, e: Event, id: Id) {
    e.Turn? && Continues(s, e, e.flight) && s.flights[e.flight].pc == Keying(true) && s.flights[e.flight].id == id
  }

  /** A flight that found no coordinator at its call installs the one it got. */
  predicate Installs(s: State, e: Event, id: Id) {
    e.Turn? && Continues(s, e, e.flight) && s.flights[e.flight].pc == Opening(false) && e.answer.Returned?
    && s.flights[e.flight].id == id
  }

  /** A flight has just finished all of its phases. */
  predicate Finishes(s: State, t: State, id: Id) {
    exists i: nat :: i < |s.flights| == |t.flights| && s.flights[i].id == id && !s.flights[i].done && t.flights[i].done
  }

  /** One step, on the level of what the session holds: what enters, what goes, and what a stop clears. */
  lemma EntriesOfOneStep(s: State, e: Event, id: Id, logSync: bool)
    ensures var t := Step(s, e, logSync);
      && t.epoch == s.epoch + (if e.Stop? then 1 else 0)
      && (id in t.spaces <==>
            !e.Stop? && (e == Restore(id) || Enters(s, e, id) || (id in s.spaces && e != Forget(id))))
      && (id in t.coordinators <==>
            !e.Stop? && (e == Coordinate(id) || Installs(s, e, id) || (id in s.coordinators && e != Forget(id))))
  {
    hide OnTurn;
    if e.Turn? && e.flight < |s.flights| { TurnEntries(s, e.flight, e.answer, logSync); }
  }

  predicate SameSession(s: State, t: State) {
    t.epoch == s.epoch && t.shared == s.shared && t.spaces == s.spaces && t.coordinators == s.coordinators
  }

  lemma PartsKeepTheSession(s: State, i: nat, phase: Phase, pc: Pc, answer: Answer)
    requires i < |s.flights|
    ensures SameSession(s, Park(s, i, pc)) && SameSession(s, Ran(s, i, phase, pc))
    ensures SameSession(s, Start(s, i, phase, pc)) && SameSession(s, Provision(s, i))
    ensures SameSession(s, Opened(s, i, answer)) && SameSession(s, Published(s, i, answer))
    ensures SameSession(s, Probed(s, i, answer)) && |Probed(s, i, answer).flights| == |s.flights|
  {
  }

  lemma EnteringParts(s: State, i: nat, flag: bool, answer: Answer)
    requires i < |s.flights|
    ensures var t := InsertSpace(s, i, flag);
      t == s.(spaces := t.spaces, provisioned := t.provisioned, flights := t.flights, effects := t.effects)
      && t.spaces == if flag then s.spaces else s.spaces[s.flights[i].id := s.epoch]
    ensures var t := Install(s, i, flag, answer);
      t == s.(coordinators := t.coordinators, flights := t.flights, effects := t.effects)
      && t.coordinators == if flag || answer.Otherwise? then s.coordinators
                           else s.coordinators[s.flights[i].id := s.epoch]
  {
  }

  lemma TurnEntries(s: State, i: nat, answer: Answer, logSync: bool)
    requires i < |s.flights|
    ensures var t, f := OnTurn(s, i, answer, logSync), s.flights[i]; var on := !answer.Threw? && f.lease == s.epoch;
      && t.epoch == s.epoch && t.shared == s.shared
      && t.spaces == (if on && f.pc == Keying(false) then s.spaces[f.id := s.epoch] else s.spaces)
      && t.coordinators == (if on && f.pc == Opening(false) && answer.Returned? then s.coordinators[f.id := s.epoch]
                            else s.coordinators)
  {
    hide Park, Ran, Start, Provision, Published, Probed, InsertSpace, Install, Opened;
    EnteringParts(s, i, WasResumed(s.flights[i].pc) || s.flights[i].pc == Opening(true), answer);
    PartsKeepTheSession(s, i, Flush, Settling, answer);
    PartsKeepTheSession(s, i, Keys, Keying(s.flights[i].id in s.spaces), answer);
    PartsKeepTheSession(s, i, Flush, Flushing, answer);
    PartsKeepTheSession(s, i, Flush, Opening(s.flights[i].id in s.coordinators), answer);
    PartsKeepTheSession(s, i, Publication, Publishing, answer);
    PartsKeepTheSession(Probed(s, i, answer), i, Seed, Seeding, answer);
  }

  /** A space is marked exactly when a flight for it finishes, and until it is entered again or a stop. */
  lemma MarksOfOneStep(s: State, e: Event, id: Id, logSync: bool)
    requires forall i :: 0 <= i < |s.flights| ==> Behind(s.flights[i], logSync)
    ensures var t := Step(s, e, logSync);
      id in t.provisioned
      <==> !e.Stop? && (Finishes(s, t, id) || (id in s.provisioned && !Enters(s, e, id) && !Resumes(s, e, id)))
  {
    var t := Step(s, e, logSync);
    if e.Turn? && e.flight < |s.flights| {
      assert Behind(s.flights[e.flight], logSync);
      assert s.flights[e.flight].done ==> s.flights[e.flight].pc.Settling? || s.flights[e.flight].pc.Over?;
      TurnFinishes(s, e.flight, e.answer, logSync);
      TurnHasFrame(s, e.flight, e.answer, logSync);
      hide OnTurn, Behind;
    }
  }

  ghost predicate Marks(s: State, t: State, i: nat, enters: bool)
    requires i < |s.flights|
  {
    && |t.flights| == |s.flights|
    && t.provisioned == if t.flights[i].done && !s.flights[i].done then s.provisioned + {s.flights[i].id}
                        else if enters then s.provisioned - {s.flights[i].id} else s.provisioned
  }

  lemma LocalTurnMarks(s: State, i: nat, answer: Answer, logSync: bool)
    requires i < |s.flights| && !answer.Threw? && s.flights[i].lease == s.epoch && !s.flights[i].done
    requires var pc := s.flights[i].pc; pc.Deriving? || pc.Keying? || pc.Persisting? || pc.Flushing?
    ensures Marks(s, OnTurn(s, i, answer, logSync), i, s.flights[i].pc.Keying?)
  {
    hide Install, Published, Probed, Opened;
  }

  lemma LogTurnMarks(s: State, i: nat, answer: Answer, logSync: bool)
    requires i < |s.flights| && !answer.Threw? && s.flights[i].lease == s.epoch && !s.flights[i].done
    requires var pc := s.flights[i].pc; pc.Opening? || pc.Installed? || pc.Publishing? || pc.Probing? || pc.Seeding?
    ensures Marks(s, OnTurn(s, i, answer, logSync), i, false)
  {
    hide InsertSpace;
  }

  lemma TurnFinishes(s: State, i: nat, answer: Answer, logSync: bool)
    requires i < |s.flights| && (s.flights[i].done ==> s.flights[i].pc.Settling? || s.flights[i].pc.Over?)
    ensures var enters := s.flights[i].pc.Keying? && !answer.Threw? && s.flights[i].lease == s.epoch;
      Marks(s, OnTurn(s, i, answer, logSync), i, enters)
  {
    var pc := s.flights[i].pc;
    if answer.Threw? || s.flights[i].lease != s.epoch || pc.Settling? || pc.Over? {
      hide Start, Provision, InsertSpace, Install, Published, Probed;
    } else if pc.Deriving? || pc.Keying? || pc.Persisting? || pc.Flushing? {
      hide OnTurn, Marks;
      LocalTurnMarks(s, i, answer, logSync);
    } else {
      hide OnTurn, Marks;
      LogTurnMarks(s, i, answer, logSync);
    }
  }

  /** How many succeeding turns a flight is away from its end. */
  function Rank(pc: Pc): nat {
    match pc
    case Deriving => 9
    case Keying(_) => 8
    case Persisting => 7
    case Flushing => 6
    case Opening(_) => 5
    case Installed(_) => 4
    case Publishing => 3
    case Probing => 2
    case Seeding => 1
    case _ => 0
  }

  function Turns(s: State, i: nat, n: nat, logSync: bool): State
    decreases n
  {
    if n == 0 then s else Turns(Step(s, Turn(i, Returned), logSync), i, n - 1, logSync)
  }

  /** The flight has ended: all phases run and the space marked, or at its look the space was there and marked. */
  predicate Ended(s: State, i: nat) {
    && i < |s.flights| && s.flights[i].pc.Settling? && s.flights[i].id in s.provisioned
    && (s.flights[i].done || (s.flights[i].isPrivate && s.flights[i].ran == {} && s.flights[i].id in s.spaces))
  }

  lemma LocalTurnDescends(s: State, i: nat, logSync: bool)
    requires i < |s.flights| && s.flights[i].lease == s.epoch
    requires var pc := s.flights[i].pc; pc.Deriving? || pc.Keying? || pc.Persisting? || pc.Flushing?
    requires s.flights[i].pc.Deriving? ==> s.flights[i].isPrivate && s.flights[i].ran == {}
    ensures Descends(s, OnTurn(s, i, Returned, logSync), i)
  {
    hide Install, Published, Probed, Opened;
  }

  lemma LogTurnDescends(s: State, i: nat, logSync: bool)
    requires i < |s.flights| && s.flights[i].lease == s.epoch
    requires var pc := s.flights[i].pc; pc.Opening? || pc.Installed? || pc.Publishing? || pc.Probing? || pc.Seeding?
    ensures Descends(s, OnTurn(s, i, Returned, logSync), i)
  {
    hide InsertSpace;
  }

  predicate Descends(s: State, t: State, i: nat)
    requires i < |s.flights|
  {
    && i < |t.flights| && t.flights[i].lease == t.epoch && Rank(t.flights[i].pc) < Rank(s.flights[i].pc)
    && !t.flights[i].pc.Over? && !t.flights[i].pc.Deriving?
    && (t.flights[i].pc.Settling? ==> Ended(t, i))
  }

  lemma TurnDescends(s: State, i: nat, logSync: bool)
    requires Underway(s, i) && s.flights[i].lease == s.epoch
    requires s.flights[i].pc.Deriving? ==> s.flights[i].isPrivate && s.flights[i].ran == {}
    ensures Descends(s, Step(s, Turn(i, Returned), logSync), i)
  {
    hide OnTurn, Descends;
    var pc := s.flights[i].pc;
    if pc.Deriving? || pc.Keying? || pc.Persisting? || pc.Flushing? {
      LocalTurnDescends(s, i, logSync);
    } else {
      LogTurnDescends(s, i, logSync);
    }
  }

  lemma {:induction false} TurnsEnd(s: State, i: nat, logSync: bool) returns (n: nat)
    requires i < |s.flights| && s.flights[i].lease == s.epoch && !s.flights[i].pc.Over?
    requires s.flights[i].pc.Deriving? ==> s.flights[i].isPrivate && s.flights[i].ran == {}
    requires s.flights[i].pc.Settling? ==> Ended(s, i)
    ensures n <= Rank(s.flights[i].pc) && Ended(Turns(s, i, n, logSync), i)
    decreases Rank(s.flights[i].pc)
  {
    if s.flights[i].pc.Settling? {
      n := 0;
    } else {
      TurnDescends(s, i, logSync);
      hide Step;
      var m := TurnsEnd(Step(s, Turn(i, Returned), logSync), i, logSync);
      n := m + 1;
    }
  }

  /** From every reachable state: a flight of the current session whose calls succeed, with nothing else in
      between, is at its end after at most nine of its turns, with its space marked. */
  lemma UndisturbedFlightsFinish(es: seq<Event>, i: nat, logSync: bool) returns (n: nat)
    requires var s := Run(Initial, es, logSync); Underway(s, i) && s.flights[i].lease == s.epoch
    ensures n <= 9 && Ended(Turns(Run(Initial, es, logSync), i, n, logSync), i)
  {
    RunKeepsSound(Initial, es, logSync);
    DerivingIsPrivate(Initial, es, logSync);
    var s := Run(Initial, es, logSync);
    assert Behind(s.flights[i], logSync);
    n := TurnsEnd(s, i, logSync);
  }

  lemma {:induction false} DerivingIsPrivate(s: State, es: seq<Event>, logSync: bool)
    requires forall i :: 0 <= i < |s.flights| && s.flights[i].pc.Deriving? ==> s.flights[i].isPrivate
    ensures var t := Run(s, es, logSync);
      forall i :: 0 <= i < |t.flights| && t.flights[i].pc.Deriving? ==> t.flights[i].isPrivate
    decreases |es|
  {
    if es != [] {
      var t := Step(s, es[0], logSync);
      LaunchesOfOneStep(s, es[0], logSync);
      hide Step;
      forall i | 0 <= i < |t.flights| && t.flights[i].pc.Deriving? ensures t.flights[i].isPrivate {
        if i < |s.flights| { assert s.flights[i].pc.Deriving?; }
      }
      DerivingIsPrivate(t, es[1..], logSync);
      assert Run(s, es, logSync) == Run(t, es[1..], logSync);
    }
  }

  /** Flights start by a call: one of `createSpace` at its keys, having looked for its space, one of the private
      space at the derivation, unless another one of the session is under way; and only settled ones end. */
  lemma LaunchesOfOneStep(s: State, e: Event, logSync: bool)
    ensures var t := Step(s, e, logSync);
      && |t.flights| == |s.flights| + (if e.Create? || (e.OpenPrivate? && s.shared.None?) then 1 else 0)
      && (|t.flights| > |s.flights| ==>
            var f := t.flights[|s.flights|];
            && f.lease == s.epoch && !f.done && f.isPrivate == e.OpenPrivate?
            && (e.Create? ==> f.id == e.id && f.pc == Keying(e.id in s.spaces) && f.ran == {Keys})
            && (e.OpenPrivate? ==> f.id == PRIVATE && f.pc == Deriving && f.ran == {}))
      && (forall i :: 0 <= i < |s.flights| ==>
            && t.flights[i].id == s.flights[i].id && t.flights[i].lease == s.flights[i].lease
            && t.flights[i].isPrivate == s.flights[i].isPrivate
            && (t.flights[i].pc.Deriving? ==> s.flights[i].pc.Deriving?)
            && (t.flights[i].pc.Over? && !s.flights[i].pc.Over? ==> e == Finally(i) && s.flights[i].pc.Settling?))
  {
    hide OnTurn;
    if e.Turn? && e.flight < |s.flights| {
      TurnHasFrame(s, e.flight, e.answer, logSync);
      TurnGoesOn(s, e.flight, e.answer, logSync);
      assert Moved(s, Step(s, e, logSync), e.flight);
    }
  }

  lemma TurnGoesOn(s: State, i: nat, answer: Answer, logSync: bool)
    requires i < |s.flights|
    ensures var t := OnTurn(s, i, answer, logSync);
      && |t.flights| == |s.flights| && (t.flights[i].pc.Deriving? ==> s.flights[i].pc.Deriving?)
      && (t.flights[i].pc.Over? ==> s.flights[i].pc.Over?)
  {
    hide Install, InsertSpace, Start, Provision, Published;
    PartsPark(s, i, Flush, Flushing, s.flights[i].pc == Opening(true), answer);
    PartsPark(s, i, Keys, Keying(s.flights[i].id in s.spaces), WasResumed(s.flights[i].pc), answer);
    PartsPark(s, i, Publication, Publishing, false, answer);
    PartsPark(s, i, Seed, Seeding, false, answer);
    PartsPark(Probed(s, i, answer), i, Seed, Seeding, false, answer);
  }

  // ---------------------------------------------------------------- every phase is an effect

  ghost predicate Recorded(s: State, i: nat, p: Phase) {
    exists k :: 0 <= k < |s.effects| && s.effects[k].flight == i && s.effects[k].phase == p
  }

  /** The effects of a flight are the phases it ran, where a coordinator that was there is none. */
  ghost predicate EffectsMatch(s: State) {
    && (forall k :: 0 <= k < |s.effects| ==>
          s.effects[k].flight < |s.flights| && s.effects[k].phase in s.flights[s.effects[k].flight].ran)
    && (forall i, p :: 0 <= i < |s.flights| && p in s.flights[i].ran && p != Coordinator ==> Recorded(s, i, p))
  }

  /** What a step adds on both sides. */
  ghost predicate AddsAlike(s: State, t: State, i: nat, added: seq<Phase>) {
    && i < |t.flights| && |s.flights| <= |t.flights| <= |s.flights| + 1
    && (forall k :: 0 <= k < |s.flights| && k != i ==> t.flights[k].ran == s.flights[k].ran)
    && (|t.flights| > |s.flights| ==> i == |s.flights|)
    && |t.effects| == |s.effects| + |added| && s.effects <= t.effects
    && (forall k :: 0 <= k < |added| ==> t.effects[|s.effects| + k] == Effect(i, added[k], s.epoch))
    && var before := if i < |s.flights| then s.flights[i].ran else {};
      before <= t.flights[i].ran <= before + (set p | p in added) + {Coordinator}
      && (set p | p in added) <= t.flights[i].ran
  }

  lemma AddingKeepsTheMatch(s: State, t: State, i: nat, added: seq<Phase>)
    requires EffectsMatch(s) && AddsAlike(s, t, i, added)
    ensures EffectsMatch(t)
  {
    forall j, p | 0 <= j < |t.flights| && p in t.flights[j].ran && p != Coordinator ensures Recorded(t, j, p) {
      if j < |s.flights| && p in s.flights[j].ran {
        var k :| 0 <= k < |s.effects| && s.effects[k].flight == j && s.effects[k].phase == p;
        assert t.effects[k] == s.effects[k];
      } else {
        assert p in added;
        var k :| 0 <= k < |added| && added[k] == p;
        assert t.effects[|s.effects| + k] == Effect(i, p, s.epoch);
      }
    }
    forall k | 0 <= k < |t.effects|
      ensures t.effects[k].flight < |t.flights| && t.effects[k].phase in t.flights[t.effects[k].flight].ran
    {
      if k >= |s.effects| {
        assert added[k - |s.effects|] in added;
        assert t.effects[k] == Effect(i, added[k - |s.effects|], s.epoch);
      }
    }
  }

  lemma LocalTurnAdds(s: State, i: nat, answer: Answer, logSync: bool) returns (added: seq<Phase>)
    requires i < |s.flights| && !answer.Threw? && s.flights[i].lease == s.epoch
    requires var pc := s.flights[i].pc; pc.Deriving? || pc.Keying? || pc.Persisting? || pc.Flushing?
    ensures AddsAlike(s, OnTurn(s, i, answer, logSync), i, added)
  {
    hide Install, Published, Probed, Opened;
    var f := s.flights[i];
    added := [];
    if f.pc.Deriving? && !(f.id in s.spaces && f.id in s.provisioned) { added := [Keys]; }
    if f.pc.Keying? { added := [Insert, Metadata]; }
    if f.pc.Persisting? { added := [Flush]; }
  }

  lemma LogTurnAdds(s: State, i: nat, answer: Answer, logSync: bool) returns (added: seq<Phase>)
    requires i < |s.flights| && !answer.Threw? && s.flights[i].lease == s.epoch
    requires var pc := s.flights[i].pc; pc.Opening? || pc.Installed? || pc.Publishing? || pc.Probing? || pc.Seeding?
    ensures AddsAlike(s, OnTurn(s, i, answer, logSync), i, added)
  {
    hide InsertSpace;
    var f := s.flights[i];
    added := [];
    if f.pc == Opening(false) && answer.Returned? { added := [Coordinator]; }
    if f.pc == Installed(true) { added := [Publication]; }
    if f.pc.Probing? && answer.Returned? { added := [Seed]; }
  }

  lemma TurnAdds(s: State, i: nat, answer: Answer, logSync: bool) returns (added: seq<Phase>)
    requires i < |s.flights|
    ensures AddsAlike(s, OnTurn(s, i, answer, logSync), i, added)
  {
    var pc := s.flights[i].pc;
    if answer.Threw? || s.flights[i].lease != s.epoch || pc.Settling? || pc.Over? {
      added := [];
      hide Start, Provision, InsertSpace, Install, Published, Probed;
    } else if pc.Deriving? || pc.Keying? || pc.Persisting? || pc.Flushing? {
      hide OnTurn, AddsAlike;
      added := LocalTurnAdds(s, i, answer, logSync);
    } else {
      hide OnTurn, AddsAlike;
      added := LogTurnAdds(s, i, answer, logSync);
    }
  }

  lemma StepKeepsTheMatch(s: State, e: Event, logSync: bool)
    requires EffectsMatch(s)
    ensures EffectsMatch(Step(s, e, logSync))
  {
    var t := Step(s, e, logSync);
    hide OnTurn;
    match e
    case Turn(i, answer) =>
      if i < |s.flights| {
        var added := TurnAdds(s, i, answer, logSync);
        AddingKeepsTheMatch(s, t, i, added);
      }
    case Create(_) => AddingKeepsTheMatch(s, t, |s.flights|, [Keys]);
    case OpenPrivate => if s.shared.None? { AddingKeepsTheMatch(s, t, |s.flights|, []); }
    case Finally(i) => if i < |s.flights| { AddingKeepsTheMatch(s, t, i, []); }
    case _ => SameEffects(s, t);
  }

  lemma SameEffects(s: State, t: State)
    requires EffectsMatch(s) && t.effects == s.effects && t.flights == s.flights
    ensures EffectsMatch(t)
  {
    forall i, p | 0 <= i < |t.flights| && p in t.flights[i].ran && p != Coordinator ensures Recorded(t, i, p) {
      assert Recorded(s, i, p);
    }
  }

  /** In every reachable state the recorded effects of a flight are exactly the phases it ran, but that a
      coordinator may have been there. */
  lemma {:induction false} EffectsArePhases(s: State, es: seq<Event>, logSync: bool)
    requires s == Initial || EffectsMatch(s)
    ensures EffectsMatch(Run(s, es, logSync))
    decreases |es|
  {
    if es != [] {
      StepKeepsTheMatch(s, es[0], logSync);
      hide Step, EffectsMatch;
      EffectsArePhases(Step(s, es[0], logSync), es[1..], logSync);
    }
  }

  // ---------------------------------------------------------------- marked without publication

  /** One flight of the private space, so far, in the first session. */
  predicate Sole(s: State, pc: Pc, opening: Option<Answer>, publication: Option<Answer>) {
    && s.epoch == 0 && |s.flights| == 1
    && s.flights[0].(ran := {}, probe := None)
       == Flight(PRIVATE, 0, true, pc, {}, opening, publication, None, pc.Settling?)
    && (s.coordinators == map[] || opening.Some?) && (PRIVATE in s.spaces || pc == Deriving || pc == Keying(false))
    && (pc == Settling <==> PRIVATE in s.provisioned)
    && s.shared == Some(0)
  }

  lemma UpToTheLog()
    ensures var go := Turn(0, Returned);
      Sole(Run(Initial, [OpenPrivate, go, go, go, go], true), Opening(false), None, None)
  {
    var go := Turn(0, Returned);
    var es := [OpenPrivate, go, go, go, go];
    var s1 := Step(Initial, es[0], true);
    assert Sole(s1, Deriving, None, None);
    var s2 := Step(s1, go, true);
    assert Sole(s2, Keying(false), None, None);
    var s3 := Step(s2, go, true);
    assert Sole(s3, Persisting, None, None);
    hide InsertSpace, Install;
    var s4 := Step(s3, go, true);
    assert Sole(s4, Flushing, None, None);
    var s5 := Step(s4, go, true);
    assert es[1..] == [go, go, go, go] && es[1..][1..] == [go, go, go];
    assert es[1..][1..][1..] == [go, go] && es[1..][1..][1..][1..] == [go];
    assert Run(Initial, es, true) == Run(s1, [go, go, go, go], true) == Run(s2, [go, go, go], true)
      == Run(s3, [go, go], true) == Run(s4, [go], true) == s5;
  }

  lemma ToThePublication(s: State)
    requires Sole(s, Opening(false), None, None)
    ensures var go := Turn(0, Returned); Sole(Run(s, [go, go], true), Publishing, Some(Returned), None)
  {
    var go := Turn(0, Returned);
    var s1 := Step(s, go, true);
    assert Sole(s1, Installed(true), Some(Returned), None);
    var s2 := Step(s1, go, true);
    assert [go, go][1..] == [go];
    assert Run(s, [go, go], true) == Run(s1, [go], true) == s2;
  }

  lemma PastADeferredPublication(s: State)
    requires Sole(s, Publishing, Some(Returned), None)
    ensures var later := Turn(0, Otherwise);
      Sole(Run(s, [later, later], true), Settling, Some(Returned), Some(Otherwise))
  {
    var later := Turn(0, Otherwise);
    var s1 := Step(s, later, true);
    assert Sole(s1, Probing, Some(Returned), Some(Otherwise));
    var s2 := Step(s1, later, true);
    assert [later, later][1..] == [later];
    assert Run(s, [later, later], true) == Run(s1, [later], true) == s2;
  }

  /** Marked, published by no flight, and the second flight has ended without doing anything. */
  predicate MarkedInVain(s: State) {
    && PRIVATE in s.provisioned && |s.flights| == 2 && s.flights[1].pc == Settling && s.flights[1].ran == {}
    && forall i :: 0 <= i < |s.flights| ==> s.flights[i].publication != Some(Returned)
  }

  lemma AndOpenedAgain(s: State)
    requires Sole(s, Settling, Some(Returned), Some(Otherwise))
    ensures MarkedInVain(Run(s, [Finally(0), OpenPrivate, Turn(1, Returned)], true))
  {
    var es := [Finally(0), OpenPrivate, Turn(1, Returned)];
    var s1 := Step(s, es[0], true);
    EarlyReturnIffMarked(s1, true);
    var s2 := Step(s1, es[1], true);
    hide InsertSpace, Install;
    var s3 := Step(s2, es[2], true);
    assert es[1..][1..] == [es[2]] && es[1..] == [es[1], es[2]];
    assert Run(s, es, true) == Run(s1, es[1..], true) == Run(s2, [es[2]], true) == s3;
  }

  lemma {:induction false} RunConcat(s: State, a: seq<Event>, b: seq<Event>, logSync: bool)
    ensures Run(s, a + b, logSync) == Run(Run(s, a, logSync), b, logSync)
    decreases |a|
  {
    hide Step;
    if a == [] {
      assert a + b == b;
    } else {
      assert (a + b)[1..] == a[1..] + b;
      RunConcat(Step(s, a[0], logSync), a[1..], b, logSync);
    }
  }

  lemma RunInFour(s: State, a: seq<Event>, b: seq<Event>, c: seq<Event>, d: seq<Event>)
    ensures Run(s, a + b + c + d, true) == Run(Run(Run(Run(s, a, true), b, true), c, true), d, true)
  {
    hide Run;
    RunConcat(s, a, b, true);
    RunConcat(s, a + b, c, true);
    RunConcat(s, a + b + c, d, true);
  }

  /** The private space is marked although its publication was only deferred, and the next call for it then
      returns early: no flight has published it, and the second one does nothing at all. */
  lemma ProvisionedWithoutPublication() returns (es: seq<Event>)
    ensures MarkedInVain(Run(Initial, es, true))
  {
    var go, later := Turn(0, Returned), Turn(0, Otherwise);
    hide *;
    UpToTheLog();
    var created := [OpenPrivate, go, go, go, go];
    var again := [Finally(0), OpenPrivate, Turn(1, Returned)];
    ToThePublication(Run(Initial, created, true));
    PastADeferredPublication(Run(Run(Initial, created, true), [go, go], true));
    AndOpenedAgain(Run(Run(Run(Initial, created, true), [go, go], true), [later, later], true));
    RunInFour(Initial, created, [go, go], [later, later], again);
    es := created + [go, go] + [later, later] + again;
  }

  // ---------------------------------------------------------------- the adapter's own updates

  class Adapter {
    var lifecycleEpoch: nat
    var spaces: map<Id, nat>
    var coordinators: map<Id, nat>
    var fullyProvisionedSpaces: set<Id>
    var flights: seq<Flight>
    var privateFlight: Option<nat>
    ghost var effects: seq<Effect>

    ghost function Model(): State
      reads this
    {
      State(lifecycleEpoch, spaces, coordinators, fullyProvisionedSpaces, flights, privateFlight, effects)
    }

    constructor ()
      ensures Model() == Initial
    {
      lifecycleEpoch, spaces, coordinators, fullyProvisionedSpaces := 0, map[], map[], {};
      flights, privateFlight, effects := [], None, [];
    }

    method Stop()
      modifies this
      ensures Model() == Step(old(Model()), Event.Stop, false)
    {
      fullyProvisionedSpaces := {};
      privateFlight := None;
      lifecycleEpoch := lifecycleEpoch + 1;
      coordinators := map[];
      spaces := map[];
    }

    /** Returns the flight whose promise the caller gets. */
    method OpenOrCreateDeterministicPrivateSpace() returns (flight: nat)
      modifies this
      ensures Model() == OnOpenPrivate(old(Model())) && flight == Awaited(old(Model()))
    {
      if privateFlight.Some? { return privateFlight.value; }
      flight := |flights|;
      flights := flights + [Flight(PRIVATE, lifecycleEpoch, true, Deriving, {}, None, None, None, false)];
      privateFlight := Some(flight);
    }

    method Begin(i: nat, phase: Phase, pc: Pc)
      requires i < |flights|
      modifies `flights, `effects
      ensures Model() == Start(old(Model()), i, phase, pc)
    {
      flights := flights[i := flights[i].(pc := pc, ran := flights[i].ran + {phase})];
      effects := effects + [Effect(i, phase, lifecycleEpoch)];
    }

    /** Behind the genesis derivation: the early return, or the look for the space and the call for its keys. */
    method AfterGenesis(i: nat, answer: Answer)
      requires i < |flights| && flights[i].pc.Deriving?
      modifies this
      ensures Model() == OnTurn(old(Model()), i, answer, false)
    {
      var id := flights[i].id;
      if answer.Threw? || flights[i].lease != lifecycleEpoch || (id in spaces && id in fullyProvisionedSpaces) {
        flights := flights[i := flights[i].(pc := Settling)];
        return;
      }
      Begin(i, Keys, Keying(id in spaces));
    }

    /** `lease.step` has returned or thrown after the key material was created. */
    method AfterKeys(i: nat, answer: Answer)
      requires i < |flights| && flights[i].pc.Keying?
      modifies this
      ensures Model() == OnTurn(old(Model()), i, answer, false)
    {
      var id := flights[i].id;
      if answer.Threw? || flights[i].lease != lifecycleEpoch {
        flights := flights[i := flights[i].(pc := Settling)];
        return;
      }
      if !flights[i].pc.resumed { spaces := spaces[id := lifecycleEpoch]; }
      fullyProvisionedSpaces := fullyProvisionedSpaces - {id};
      Begin(i, Insert, Persisting);
      Begin(i, Metadata, Persisting);
    }

    /** The end of `getOrCreateCoordinator`: what was there at the call, or nothing without a durable store,
        or a new coordinator, installed behind its own lease check whatever is there by then. */
    method AfterStore(i: nat, answer: Answer)
      requires i < |flights| && flights[i].pc.Opening?
      modifies this
      ensures Model() == OnTurn(old(Model()), i, answer, true)
    {
      var id, had := flights[i].id, flights[i].pc.had;
      if answer.Threw? || flights[i].lease != lifecycleEpoch {
        flights := flights[i := flights[i].(pc := Settling)];
        return;
      }
      if had {
        flights := flights[i := flights[i].(pc := Installed(true), ran := flights[i].ran + {Coordinator},
                                            opening := Some(Returned))];
        return;
      }
      if answer.Otherwise? {
        flights := flights[i := flights[i].(pc := Installed(false), opening := Some(Otherwise))];
        return;
      }
      coordinators := coordinators[id := lifecycleEpoch];
      flights := flights[i := flights[i].(opening := Some(Returned))];
      Begin(i, Coordinator, Installed(true));
    }

    method AfterSeed(i: nat, answer: Answer)
      requires i < |flights| && flights[i].pc.Seeding?
      modifies this
      ensures Model() == OnTurn(old(Model()), i, answer, true)
    {
      flights := flights[i := flights[i].(pc := Settling)];
      if answer.Threw? || flights[i].lease != lifecycleEpoch { return; }
      fullyProvisionedSpaces := fullyProvisionedSpaces + {flights[i].id};
      flights := flights[i := flights[i].(done := true)];
    }

    method Settled(i: nat)
      requires i < |flights| && flights[i].pc.Settling?
      modifies this
      ensures Model() == OnFinally(old(Model()), i)
    {
      flights := flights[i := flights[i].(pc := Over)];
      if privateFlight == Some(i) { privateFlight := None; }
    }
  }
}
