/** The single catch-up flight of the Personal-Doc log sync: a request starts a flight, a flight makes
    bounded attempts with a backoff between them, a reconnect seen meanwhile is remembered, and
    `dispose` is terminal. */
module CatchUpController {
  /* The source is one async class. Each stretch of its code between two awaits is one event here, so a
     sequence of events is an arbitrary interleaving of callers, timers and the parked continuations.
     Every `runFlight` call appends an entry to `flights`: that at most one is ever live is a theorem. */

  import opened Common

  datatype Mode = Idle | Running | BackingOff | Disposed

  /** The await a flight is parked at; `Gone` once its promise has settled. */
  datatype Pc = InCatchUp | InResend | InBackoff(released: bool) | Settling | Gone

  datatype Flight = Flight(pc: Pc, attempt: nat, made: nat)

  /** `armed` is the flight whose backoff resolver is held. */
  datatype State = State(mode: Mode, rerun: bool, flights: seq<Flight>, armed: Option<nat>)

  /** The calls the controller makes on its surroundings, in order. */
  datatype Effect = ResetForReconnect | CatchUp | ResendPending | ReportError

  datatype Answer = Complete | TimedOut | OtherwiseIncomplete | Rejected

  /** `ready` is what `isReady()` answers during that turn. */
  datatype Event =
    | Request(reconnect: bool, ready: bool)
    | Dispose
    | TimerFires(id: nat)
    | BackoffResumes(id: nat, ready: bool)
    | CatchUpSettles(id: nat, answer: Answer, ready: bool)
    | ResendSettles(id: nat, ok: bool, ready: bool)
    | FlightSettles(id: nat, ready: bool)

  datatype Outcome = Outcome(state: State, effects: seq<Effect>)

  const Initial := State(Idle, false, [], None)

  // ---------------------------------------------------------------- what one turn does

  function Park(s: State, id: nat, f: Flight): State
    requires id < |s.flights|
  {
    s.(flights := s.flights[id := f])
  }

  function CallCatchUp(s: State, id: nat): Outcome
    requires id < |s.flights|
  {
    var f := s.flights[id];
    Outcome(Park(s, id, f.(pc := InCatchUp, made := f.made + 1)).(mode := Running), [CatchUp])
  }

  /** The head of the attempt loop. */
  function Attempt(s: State, id: nat, attempt: nat, ready: bool, budget: nat): Outcome
    requires id < |s.flights|
  {
    var here := Park(s, id, s.flights[id].(pc := Settling, attempt := attempt));
    if attempt >= budget || s.mode.Disposed? || !ready then Outcome(here, [])
    else if attempt > 0 then
      Outcome(Park(here, id, here.flights[id].(pc := InBackoff(false))).(mode := BackingOff, armed := Some(id)), [])
    else CallCatchUp(here, id)
  }

  function StartFlight(s: State, ready: bool, budget: nat): Outcome {
    var s' := s.(mode := Running, flights := s.flights + [Flight(Settling, 0, 0)]);
    Attempt(s', |s.flights|, 0, ready, budget)
  }

  function OnRequest(s: State, reconnect: bool, ready: bool, budget: nat): Outcome {
    if s.mode.Disposed? then Outcome(s, [])
    else if !s.mode.Idle? then Outcome(s.(rerun := s.rerun || reconnect), [])
    else
      var o := StartFlight(s.(rerun := false), ready, budget);
      Outcome(o.state, (if reconnect then [ResetForReconnect] else []) + o.effects)
  }

  predicate ParkedAt(s: State, id: nat, pc: Pc) {
    id < |s.flights| && s.flights[id].pc == pc
  }

  /** The backoff timer of flight `id`, or `dispose` in its place, resolves the wait. */
  function Release(s: State, id: nat): State {
    if ParkedAt(s, id, InBackoff(false)) then Park(s, id, s.flights[id].(pc := InBackoff(true))).(armed := None)
    else s
  }

  function OnDispose(s: State): State {
    var quiet := s.(mode := Disposed, rerun := false);
    if s.armed.Some? then Release(quiet, s.armed.value).(armed := None) else quiet
  }

  function OnBackoff(s: State, id: nat, ready: bool): Outcome
    requires id < |s.flights|
  {
    if s.mode.Disposed? || !ready then Outcome(Park(s, id, s.flights[id].(pc := Settling)), [])
    else CallCatchUp(s, id)
  }

  /** The `catch` branch: report, then loop without looking at the lifecycle first. */
  function AttemptFailed(s: State, id: nat, ready: bool, budget: nat): Outcome
    requires id < |s.flights|
  {
    var o := Attempt(s, id, s.flights[id].attempt + 1, ready, budget);
    Outcome(o.state, [ReportError] + o.effects)
  }

  function OnCatchUp(s: State, id: nat, answer: Answer, ready: bool, budget: nat): Outcome
    requires id < |s.flights|
  {
    var f := s.flights[id];
    if answer.Rejected? then AttemptFailed(s, id, ready, budget)
    else if s.mode.Disposed? || answer.OtherwiseIncomplete? then Outcome(Park(s, id, f.(pc := Settling)), [])
    else if answer.TimedOut? then Attempt(s, id, f.attempt + 1, ready, budget)
    else Outcome(Park(s, id, f.(pc := InResend)), [ResendPending])
  }

  function OnResend(s: State, id: nat, ok: bool, ready: bool, budget: nat): Outcome
    requires id < |s.flights|
  {
    if ok then Outcome(Park(s, id, s.flights[id].(pc := Settling)), [])
    else AttemptFailed(s, id, ready, budget)
  }

  /** The tail of `runFlight`: the remembered reconnect is consumed whether or not it can be served. */
  function OnFlightEnd(s: State, id: nat, ready: bool, budget: nat): Outcome
    requires id < |s.flights|
  {
    var done := Park(s, id, s.flights[id].(pc := Gone));
    if s.mode.Disposed? then Outcome(done, [])
    else if s.rerun && ready then OnRequest(done.(mode := Idle, rerun := false), true, ready, budget)
    else Outcome(done.(mode := Idle, rerun := false), [])
  }

  /** An event that names no parked continuation changes nothing. */
  function Step(s: State, e: Event, budget: nat): Outcome {
    match e
    case Request(reconnect, ready) => OnRequest(s, reconnect, ready, budget)
    case Dispose => Outcome(OnDispose(s), [])
    case TimerFires(id) => Outcome(if s.armed == Some(id) then Release(s, id) else s, [])
    case BackoffResumes(id, ready) =>
      if ParkedAt(s, id, InBackoff(true)) then OnBackoff(s, id, ready) else Outcome(s, [])
    case CatchUpSettles(id, answer, ready) =>
      if ParkedAt(s, id, InCatchUp) then OnCatchUp(s, id, answer, ready, budget) else Outcome(s, [])
    case ResendSettles(id, ok, ready) =>
      if ParkedAt(s, id, InResend) then OnResend(s, id, ok, ready, budget) else Outcome(s, [])
    case FlightSettles(id, ready) =>
      if ParkedAt(s, id, Settling) then OnFlightEnd(s, id, ready, budget) else Outcome(s, [])
  }

  function Run(s: State, es: seq<Event>, budget: nat): Outcome
    decreases |es|
  {
    if es == [] then Outcome(s, [])
    else
      var o := Step(s, es[0], budget);
      var rest := Run(o.state, es[1..], budget);
      Outcome(rest.state, o.effects + rest.effects)
  }

  function Times(what: Effect, effects: seq<Effect>): nat {
    multiset(effects)[what]
  }

  function Reconnects(es: seq<Event>): nat {
    if es == [] then 0 else (if es[0].Request? && es[0].reconnect then 1 else 0) + Reconnects(es[1..])
  }

  // ---------------------------------------------------------------- every reachable state

  ghost predicate AnyFlight(s: State) {
    s.flights != [] && !s.flights[|s.flights| - 1].pc.Gone?
  }

  ghost predicate FlightSound(f: Flight, budget: nat) {
    match f.pc
    case InBackoff(_) => f.made <= f.attempt < budget
    case Settling => f.made <= budget
    case Gone => f.made <= budget
    case _ => f.made <= f.attempt + 1 <= budget
  }

  /** Only the newest flight can be live, and the controller is idle exactly when it is not; only a live
      flight has a reconnect remembered or a backoff resolver held; and the mode says what it waits for. */
  ghost predicate Sound(s: State, budget: nat) {
    && (forall i :: 0 <= i < |s.flights| ==> FlightSound(s.flights[i], budget))
    && (forall i :: 0 <= i < |s.flights| - 1 ==> s.flights[i].pc == Gone)
    && (s.mode.Idle? ==> !AnyFlight(s))
    && (!s.mode.Idle? && !s.mode.Disposed? ==> AnyFlight(s))
    && (s.rerun ==> !s.mode.Disposed? && !s.mode.Idle?)
    && (s.armed.Some? ==> !s.mode.Disposed? && ParkedAt(s, s.armed.value, InBackoff(false)))
    && (forall i :: 0 <= i < |s.flights| && s.flights[i].pc == InBackoff(false) ==> s.armed == Some(i))
    && (!s.mode.Disposed? ==> forall i :: 0 <= i < |s.flights| ==>
          && (s.flights[i].pc.InBackoff? ==> s.mode.BackingOff?)
          && (s.flights[i].pc.InCatchUp? || s.flights[i].pc.InResend? ==> s.mode.Running?))
  }

  lemma RequestKeepsSound(s: State, reconnect: bool, ready: bool, budget: nat)
    ensures Sound(s, budget) ==>
      Sound(OnRequest(s, reconnect, ready, budget).state, budget)
  {
  }

  lemma SettlingKeepsSound(s: State, id: nat, ready: bool, budget: nat)
    ensures Sound(s, budget) && ParkedAt(s, id, Settling) ==>
      Sound(OnFlightEnd(s, id, ready, budget).state, budget)
  {
  }

  lemma CatchUpKeepsSound(s: State, id: nat, answer: Answer, ready: bool, budget: nat)
    ensures Sound(s, budget) && ParkedAt(s, id, InCatchUp) ==>
      Sound(OnCatchUp(s, id, answer, ready, budget).state, budget)
  {
  }

  lemma ResendKeepsSound(s: State, id: nat, ok: bool, ready: bool, budget: nat)
    ensures Sound(s, budget) && ParkedAt(s, id, InResend) ==>
      Sound(OnResend(s, id, ok, ready, budget).state, budget)
  {
  }

  lemma StepKeepsSound(s: State, e: Event, budget: nat)
    requires Sound(s, budget)
    ensures Sound(Step(s, e, budget).state, budget)
  {
    match e
    case Request(reconnect, ready) => RequestKeepsSound(s, reconnect, ready, budget);
    case Dispose =>
    case TimerFires(id) =>
    case BackoffResumes(id, ready) =>
    case CatchUpSettles(id, answer, ready) =>
      if ParkedAt(s, id, InCatchUp) { CatchUpKeepsSound(s, id, answer, ready, budget); }
    case ResendSettles(id, ok, ready) =>
      if ParkedAt(s, id, InResend) { ResendKeepsSound(s, id, ok, ready, budget); }
    case FlightSettles(id, ready) =>
      if ParkedAt(s, id, Settling) { SettlingKeepsSound(s, id, ready, budget); }
  }

  lemma {:induction false} RunKeepsSound(s: State, es: seq<Event>, budget: nat)
    requires Sound(s, budget)
    ensures Sound(Run(s, es, budget).state, budget)
    decreases |es|
  {
    if es != [] {
      StepKeepsSound(s, es[0], budget);
      RunKeepsSound(Step(s, es[0], budget).state, es[1..], budget);
    }
  }

  // ---------------------------------------------------------------- main results

  /** Whatever callers, timers and transports do: at every moment at most one flight is live, no flight
      ever makes more attempts than the backoff list is long, and an idle controller remembers nothing. */
  lemma SingleBoundedFlight(es: seq<Event>, budget: nat)
    ensures var s := Run(Initial, es, budget).state;
      && (forall i :: 0 <= i < |s.flights| - 1 ==> s.flights[i].pc.Gone?)
      && (forall i :: 0 <= i < |s.flights| ==> s.flights[i].made <= budget)
      && (s.mode.Idle? ==> !AnyFlight(s) && !s.rerun)
      && (!s.mode.Idle? && !s.mode.Disposed? ==> AnyFlight(s))
  {
    RunKeepsSound(Initial, es, budget);
  }

  // ---------------------------------------------------------------- when a catch-up is called

  /** A request to an idle controller calls for a catch-up at once, behind the reset that a reconnect asks
      for, exactly if the transport is ready (and there is any attempt to make). */
  lemma RequestCatchesUp(es: seq<Event>, reconnect: bool, ready: bool, budget: nat)
    requires Run(Initial, es, budget).state.mode.Idle?
    ensures var s := Run(Initial, es, budget).state; var o := Step(s, Request(reconnect, ready), budget);
      && o.effects == (if reconnect then [ResetForReconnect] else []) + (if ready && budget > 0 then [CatchUp] else [])
      && |o.state.flights| == |s.flights| + 1
      && (ParkedAt(o.state, |s.flights|, InCatchUp) <==> ready && budget > 0)
  {
  }

  /** The turns in which a catch-up is due: a request that finds the controller idle, a backoff that is over,
      and the end of a flight behind a remembered reconnect; each only where the transport is ready. */
  predicate Due(s: State, e: Event, budget: nat) {
    match e
    case Request(_, ready) => ready && s.mode.Idle? && budget > 0
    case BackoffResumes(id, ready) => ready && !s.mode.Disposed? && ParkedAt(s, id, InBackoff(true))
    case FlightSettles(id, ready) =>
      ready && !s.mode.Disposed? && ParkedAt(s, id, Settling) && s.rerun && budget > 0
    case _ => false
  }

  /** A catch-up that failed and may be tried again: timed out or rejected, or complete but with a resend
      that failed; the rejection and the failed resend are reported. */
  predicate FailedAttempt(s: State, e: Event, id: nat) {
    || (e.CatchUpSettles? && e.id == id && ParkedAt(s, id, InCatchUp)
        && (e.answer.Rejected? || (e.answer.TimedOut? && !s.mode.Disposed?)))
    || (e.ResendSettles? && e.id == id && ParkedAt(s, id, InResend) && !e.ok)
  }

  function ReadyThen(e: Event): bool {
    match e
    case CatchUpSettles(_, _, ready) => ready
    case ResendSettles(_, _, ready) => ready
    case _ => false
  }

  lemma AttemptCalls(s: State, id: nat, attempt: nat, ready: bool, budget: nat)
    ensures id < |s.flights| ==>
      var o := Attempt(s, id, attempt, ready, budget); var goes := ready && !s.mode.Disposed? && attempt < budget;
      && |o.state.flights| == |s.flights|
      && o.effects == (if goes && attempt == 0 then [CatchUp] else [])
      && (o.state.flights[id].pc.InBackoff? <==> goes && attempt > 0)
      && forall i :: 0 <= i < |s.flights| && i != id ==> o.state.flights[i] == s.flights[i]
  {
  }

  lemma RequestCalls(s: State, reconnect: bool, ready: bool, budget: nat)
    ensures var o := OnRequest(s, reconnect, ready, budget);
      && s.flights <= o.state.flights
      && o.effects == if !s.mode.Idle? then [] else
           (if reconnect then [ResetForReconnect] else []) + (if ready && budget > 0 then [CatchUp] else [])
  {
  }

  lemma CatchUpsIn(none: seq<Effect>, reset: seq<Effect>, report: seq<Effect>, resend: seq<Effect>)
    requires none == [] && reset == [ResetForReconnect] && report == [ReportError] && resend == [ResendPending]
    ensures Times(CatchUp, none) == Times(CatchUp, none + none) == 0
    ensures Times(CatchUp, reset) == Times(CatchUp, reset + none) == 0
    ensures Times(CatchUp, report) == Times(CatchUp, report + none) == Times(CatchUp, resend) == 0
    ensures Times(CatchUp, [CatchUp]) == Times(CatchUp, none + [CatchUp]) == Times(CatchUp, reset + [CatchUp]) == 1
  {
  }

  /** Exactly then it is called, and once. */
  lemma CatchUpIsCalledWhenDue(s: State, e: Event, budget: nat)
    ensures Times(CatchUp, Step(s, e, budget).effects) == (if Due(s, e, budget) then 1 else 0)
  {
    CatchUpsIn([], [ResetForReconnect], [ReportError], [ResendPending]);
    hide Attempt, OnRequest, Times;
    match e
    case Request(reconnect, ready) => RequestCalls(s, reconnect, ready, budget);
    case CatchUpSettles(id, _, ready) =>
      if ParkedAt(s, id, InCatchUp) { AttemptCalls(s, id, s.flights[id].attempt + 1, ready, budget); }
    case ResendSettles(id, _, ready) =>
      if ParkedAt(s, id, InResend) { AttemptCalls(s, id, s.flights[id].attempt + 1, ready, budget); }
    case FlightSettles(id, ready) =>
      if ParkedAt(s, id, Settling) {
        RequestCalls(Park(s, id, s.flights[id].(pc := Gone)).(mode := Idle, rerun := false), true, ready, budget);
      }
    case _ =>
  }

  /** A flight starts to back off exactly after a failed attempt, with attempts left and the transport ready. */
  lemma BacksOffAfterFailures(s: State, e: Event, id: nat, budget: nat)
    requires id < |s.flights| && !s.flights[id].pc.InBackoff?
    ensures var t := Step(s, e, budget).state;
      && id < |t.flights|
      && (t.flights[id].pc.InBackoff? <==>
            FailedAttempt(s, e, id) && ReadyThen(e) && !s.mode.Disposed? && s.flights[id].attempt + 1 < budget)
  {
    hide Attempt, OnRequest, Times;
    match e
    case Request(reconnect, ready) => RequestCalls(s, reconnect, ready, budget);
    case CatchUpSettles(i, _, ready) =>
      if ParkedAt(s, i, InCatchUp) { AttemptCalls(s, i, s.flights[i].attempt + 1, ready, budget); }
    case ResendSettles(i, _, ready) =>
      if ParkedAt(s, i, InResend) { AttemptCalls(s, i, s.flights[i].attempt + 1, ready, budget); }
    case FlightSettles(i, ready) =>
      if ParkedAt(s, i, Settling) {
        RequestCalls(Park(s, i, s.flights[i].(pc := Gone)).(mode := Idle, rerun := false), true, ready, budget);
      }
    case _ =>
  }

  lemma FailuresAreReported(s: State, e: Event, budget: nat)
    ensures ReportError in Step(s, e, budget).effects <==>
      || (e.CatchUpSettles? && e.answer.Rejected? && ParkedAt(s, e.id, InCatchUp))
      || (e.ResendSettles? && !e.ok && ParkedAt(s, e.id, InResend))
  {
  }

  function Made(flights: seq<Flight>): nat {
    if flights == [] then 0 else Made(flights[..|flights| - 1]) + flights[|flights| - 1].made
  }

  lemma {:induction false} MadeOfUpdate(flights: seq<Flight>, id: nat, f: Flight)
    requires id < |flights|
    ensures Made(flights[id := f]) == Made(flights) - flights[id].made + f.made
    decreases |flights|
  {
    var n := |flights| - 1;
    if id < n {
      MadeOfUpdate(flights[..n], id, f);
      assert flights[id := f][..n] == flights[..n][id := f];
    } else {
      assert flights[id := f][..n] == flights[..n];
    }
  }

  lemma CountingAttempt(s: State, id: nat, attempt: nat, ready: bool, budget: nat)
    requires id < |s.flights|
    ensures var o := Attempt(s, id, attempt, ready, budget);
      Made(o.state.flights) == Made(s.flights) + Times(CatchUp, o.effects)
  {
    var f, g := s.flights[id], Attempt(s, id, attempt, ready, budget).state.flights[id];
    MadeOfUpdate(s.flights, id, g);
    assert Attempt(s, id, attempt, ready, budget).state.flights == s.flights[id := g];
  }

  lemma CountingRequest(s: State, reconnect: bool, ready: bool, budget: nat)
    ensures var o := OnRequest(s, reconnect, ready, budget);
      Made(o.state.flights) == Made(s.flights) + Times(CatchUp, o.effects)
  {
    var t := s.(rerun := false, mode := Running, flights := s.flights + [Flight(Settling, 0, 0)]);
    assert t.flights[..|s.flights|] == s.flights;
    CountingAttempt(t, |s.flights|, 0, ready, budget);
  }

  /** One flight changes, by as much as was called. */
  lemma CountingMove(s: State, t: State, id: nat, calls: nat)
    requires id < |s.flights| && |t.flights| == |s.flights|
    requires t.flights == s.flights[id := t.flights[id]] && t.flights[id].made == s.flights[id].made + calls
    ensures Made(t.flights) == Made(s.flights) + calls
  {
    MadeOfUpdate(s.flights, id, t.flights[id]);
  }

  lemma CountingFailure(s: State, id: nat, ready: bool, budget: nat)
    requires id < |s.flights|
    ensures var o := AttemptFailed(s, id, ready, budget);
      Made(o.state.flights) == Made(s.flights) + Times(CatchUp, o.effects)
  {
    hide Attempt, Made;
    CountingAttempt(s, id, s.flights[id].attempt + 1, ready, budget);
  }

  lemma CountingSettles(s: State, id: nat, answer: Answer, ok: bool, ready: bool, budget: nat)
    requires id < |s.flights|
    ensures var o := OnCatchUp(s, id, answer, ready, budget);
      Made(o.state.flights) == Made(s.flights) + Times(CatchUp, o.effects)
    ensures var o := OnResend(s, id, ok, ready, budget);
      Made(o.state.flights) == Made(s.flights) + Times(CatchUp, o.effects)
  {
    hide Attempt, Made, AttemptFailed;
    CountingFailure(s, id, ready, budget);
    CountingAttempt(s, id, s.flights[id].attempt + 1, ready, budget);
    CountingMove(s, Park(s, id, s.flights[id].(pc := Settling)), id, 0);
    CountingMove(s, Park(s, id, s.flights[id].(pc := InResend)), id, 0);
  }

  lemma CountingStep(s: State, e: Event, budget: nat)
    ensures var o := Step(s, e, budget);
      Made(o.state.flights) == Made(s.flights) + Times(CatchUp, o.effects)
  {
    hide Attempt, OnRequest, Made, OnCatchUp, OnResend;
    match e
    case Request(reconnect, ready) => CountingRequest(s, reconnect, ready, budget);
    case Dispose =>
      if s.armed.Some? && ParkedAt(s, s.armed.value, InBackoff(false)) {
        CountingMove(s, OnDispose(s), s.armed.value, 0);
      }
    case TimerFires(id) =>
      if ParkedAt(s, id, InBackoff(false)) { CountingMove(s, Release(s, id), id, 0); }
    case BackoffResumes(id, ready) =>
      if ParkedAt(s, id, InBackoff(true)) {
        var o := OnBackoff(s, id, ready);
        CountingMove(s, o.state, id, if o.effects == [] then 0 else 1);
      }
    case FlightSettles(id, ready) =>
      if ParkedAt(s, id, Settling) {
        var done := Park(s, id, s.flights[id].(pc := Gone));
        CountingMove(s, done, id, 0);
        CountingRequest(done.(mode := Idle, rerun := false), true, ready, budget);
      }
    case CatchUpSettles(id, answer, ready) =>
      if id < |s.flights| { CountingSettles(s, id, answer, true, ready, budget); }
    case ResendSettles(id, ok, ready) =>
      if id < |s.flights| { CountingSettles(s, id, Complete, ok, ready, budget); }
  }

  /** The transport is ready throughout, nothing is disposed, and every attempt fails: a catch-up times out,
      is rejected, or comes back complete before a resend that fails. */
  ghost predicate Persistent(e: Event) {
    match e
    case Request(_, ready) => ready
    case Dispose => false
    case TimerFires(_) => true
    case BackoffResumes(_, ready) => ready
    case CatchUpSettles(_, answer, ready) => ready && !answer.OtherwiseIncomplete?
    case ResendSettles(_, ok, ready) => ready && !ok
    case FlightSettles(_, ready) => ready
  }

  /** In the middle of a flight every attempt up to now has been made. */
  ghost predicate AllMade(f: Flight, budget: nat) {
    match f.pc
    case InBackoff(_) => f.made == f.attempt
    case InCatchUp => f.made == f.attempt + 1
    case InResend => f.made == f.attempt + 1
    case _ => f.made == budget
  }

  ghost predicate Exhausting(s: State, budget: nat) {
    !s.mode.Disposed? && forall i :: 0 <= i < |s.flights| ==> AllMade(s.flights[i], budget)
  }

  lemma ExhaustingAttempt(s: State, id: nat, attempt: nat, budget: nat)
    requires id < |s.flights| && s.flights[id].made == attempt <= budget && !s.mode.Disposed?
    requires forall i :: 0 <= i < |s.flights| && i != id ==> AllMade(s.flights[i], budget)
    ensures Exhausting(Attempt(s, id, attempt, true, budget).state, budget)
  {
  }

  lemma ExhaustingRequest(s: State, reconnect: bool, budget: nat)
    ensures Exhausting(s, budget) ==> Exhausting(OnRequest(s, reconnect, true, budget).state, budget)
  {
  }

  lemma ExhaustingStep(s: State, e: Event, budget: nat)
    requires Sound(s, budget) && Exhausting(s, budget) && Persistent(e)
    ensures Exhausting(Step(s, e, budget).state, budget)
  {
    hide Attempt, OnRequest;
    match e
    case Request(reconnect, _) => ExhaustingRequest(s, reconnect, budget);
    case CatchUpSettles(id, _, _) =>
      if ParkedAt(s, id, InCatchUp) { ExhaustingAttempt(s, id, s.flights[id].attempt + 1, budget); }
    case ResendSettles(id, _, _) =>
      if ParkedAt(s, id, InResend) { ExhaustingAttempt(s, id, s.flights[id].attempt + 1, budget); }
    case FlightSettles(id, _) =>
      if ParkedAt(s, id, Settling) {
        ExhaustingRequest(Park(s, id, s.flights[id].(pc := Gone)).(mode := Idle, rerun := false), true, budget);
      }
    case _ =>
  }

  lemma {:induction false} ExhaustingRun(s: State, es: seq<Event>, budget: nat)
    requires Sound(s, budget) && Exhausting(s, budget) && forall k :: 0 <= k < |es| ==> Persistent(es[k])
    ensures Exhausting(Run(s, es, budget).state, budget)
    decreases |es|
  {
    hide Step, Sound, Exhausting;
    if es != [] {
      StepKeepsSound(s, es[0], budget);
      ExhaustingStep(s, es[0], budget);
      ExhaustingRun(Step(s, es[0], budget).state, es[1..], budget);
    }
  }

  lemma {:induction false} CallsAreCounted(s: State, es: seq<Event>, budget: nat)
    ensures var o := Run(s, es, budget);
      Made(o.state.flights) == Made(s.flights) + Times(CatchUp, o.effects)
    decreases |es|
  {
    hide Step, Made;
    if es != [] {
      CountingStep(s, es[0], budget);
      CallsAreCounted(Step(s, es[0], budget).state, es[1..], budget);
    }
  }

  /** Over every run in which the transport stays ready and every attempt fails, however requests and timers
      fall: a flight that has ended has called for a catch-up exactly as often as the backoff list is long;
      and the calls of any run are those counted by its flights. */
  lemma FailingFlightsUseTheirBudget(es: seq<Event>, budget: nat)
    ensures var o := Run(Initial, es, budget);
      && Times(CatchUp, o.effects) == Made(o.state.flights)
      && ((forall k :: 0 <= k < |es| ==> Persistent(es[k])) ==>
            forall i :: 0 <= i < |o.state.flights| && (o.state.flights[i].pc.Settling? || o.state.flights[i].pc.Gone?)
              ==> o.state.flights[i].made == budget)
  {
    CallsAreCounted(Initial, es, budget);
    if forall k :: 0 <= k < |es| ==> Persistent(es[k]) { ExhaustingRun(Initial, es, budget); }
  }

  // ---------------------------------------------------------------- dispose and reconnects

  ghost predicate Airborne(s: State) {
    AnyFlight(s) && var pc := s.flights[|s.flights| - 1].pc; pc.InCatchUp? || pc.InResend?
  }

  lemma DisposedStep(s: State, e: Event, budget: nat)
    ensures Sound(s, budget) && s.mode.Disposed? ==>
      var o := Step(s, e, budget);
      && o.state.mode.Disposed?
      && |o.state.flights| == |s.flights|
      && (o.effects == [] || (o.effects == [ReportError] && Airborne(s) && !Airborne(o.state)))
      && (Airborne(o.state) ==> Airborne(s))
  {
  }

  /** Dispose is final: no flight is started and nothing is called any more but, at most once, the error
      report of the attempt that was in the air. */
  lemma {:induction false} DisposedStaysSilent(s: State, es: seq<Event>, budget: nat)
    requires Sound(s, budget) && s.mode.Disposed?
    ensures var o := Run(s, es, budget);
      && o.state.mode.Disposed?
      && |o.state.flights| == |s.flights|
      && (o.effects == [] || (o.effects == [ReportError] && Airborne(s)))
    decreases |es|
  {
    if es != [] {
      var o := Step(s, es[0], budget);
      StepKeepsSound(s, es[0], budget);
      DisposedStep(s, es[0], budget);
      DisposedStaysSilent(o.state, es[1..], budget);
      assert Run(s, es, budget).effects == o.effects + Run(o.state, es[1..], budget).effects;
    }
  }

  /** Disposing from any reachable state, then anything at all. */
  lemma DisposeIsTerminal(before: seq<Event>, after: seq<Event>, budget: nat)
    ensures var s := Run(Initial, before, budget).state;
      var o := Run(OnDispose(s), after, budget);
      && o.state.mode.Disposed?
      && |o.state.flights| == |s.flights|
      && (o.effects == [] || (o.effects == [ReportError] && Airborne(s)))
  {
    RunKeepsSound(Initial, before, budget);
    var s := Run(Initial, before, budget).state;
    StepKeepsSound(s, Dispose, budget);
    DisposedStaysSilent(OnDispose(s), after, budget);
  }

  function Owed(s: State): nat {
    if s.rerun then 1 else 0
  }

  lemma AttemptPaysItsWay(s: State, id: nat, attempt: nat, ready: bool, budget: nat)
    ensures id < |s.flights| ==>
      var o := Attempt(s, id, attempt, ready, budget); var t := o.state;
      && Times(ResetForReconnect, o.effects) == 0 && t.rerun == s.rerun
      && |t.flights| == |s.flights|
      && Fuel(t.flights[id], budget) <= (if attempt < budget then 4 * (budget - attempt) + 1 else 1)
      && forall i :: 0 <= i < |s.flights| && i != id ==> t.flights[i] == s.flights[i]
  {
  }

  lemma RequestResets(s: State, reconnect: bool, ready: bool, budget: nat)
    ensures var o := OnRequest(s, reconnect, ready, budget);
      Times(ResetForReconnect, o.effects) + Owed(o.state) <= (if reconnect then 1 else 0) + Owed(s)
    ensures s.mode.Idle? ==> Owed(OnRequest(s, reconnect, ready, budget).state) == 0
  {
  }

  lemma RequestFuel(s: State, reconnect: bool, ready: bool, budget: nat)
    ensures var t := OnRequest(s, reconnect, ready, budget).state;
      && s.flights <= t.flights
      && (|t.flights| > |s.flights| ==> Fuel(t.flights[|s.flights|], budget) <= 4 * budget + 1)
  {
  }

  lemma StepResets(s: State, e: Event, budget: nat)
    ensures var o := Step(s, e, budget);
      Times(ResetForReconnect, o.effects) + Owed(o.state) <= Reconnects([e]) + Owed(s)
  {
    hide Attempt, OnRequest;
    match e
    case Request(reconnect, ready) => RequestResets(s, reconnect, ready, budget);
    case CatchUpSettles(id, _, ready) =>
      if ParkedAt(s, id, InCatchUp) { AttemptPaysItsWay(s, id, s.flights[id].attempt + 1, ready, budget); }
    case ResendSettles(id, _, ready) =>
      if ParkedAt(s, id, InResend) { AttemptPaysItsWay(s, id, s.flights[id].attempt + 1, ready, budget); }
    case FlightSettles(id, ready) =>
      if ParkedAt(s, id, Settling) {
        RequestResets(Park(s, id, s.flights[id].(pc := Gone)).(mode := Idle, rerun := false), true, ready, budget);
      }
    case _ =>
  }

  /** Resets never outnumber reconnect requests; a remembered one is still owed. */
  lemma {:induction false} ResetsNeedReconnects(s: State, es: seq<Event>, budget: nat)
    ensures var o := Run(s, es, budget);
      Times(ResetForReconnect, o.effects) + Owed(o.state) <= Reconnects(es) + Owed(s)
    decreases |es|
  {
    if es != [] {
      StepResets(s, es[0], budget);
      ResetsNeedReconnects(Step(s, es[0], budget).state, es[1..], budget);
    }
  }

  ghost predicate Spares(e: Event, id: nat) {
    !e.Dispose? && !(e.FlightSettles? && e.id == id)
  }

  ghost predicate Alive(s: State, id: nat) {
    id == |s.flights| - 1 && !s.flights[id].pc.Gone? && !s.mode.Disposed?
  }

  lemma StepRemembers(s: State, e: Event, id: nat, budget: nat)
    requires Sound(s, budget) && Alive(s, id) && Spares(e, id)
    ensures var o := Step(s, e, budget);
      && Alive(o.state, id)
      && ResetForReconnect !in o.effects
      && (o.state.rerun <==> s.rerun || Reconnects([e]) > 0)
  {
  }

  /** While a flight lives, reconnects only accumulate in the flag: none is acted on, none is lost. */
  lemma {:induction false} ReconnectsAreRemembered(s: State, es: seq<Event>, id: nat, budget: nat)
    requires Sound(s, budget) && Alive(s, id) && forall k :: 0 <= k < |es| ==> Spares(es[k], id)
    ensures var o := Run(s, es, budget);
      && Sound(o.state, budget) && Alive(o.state, id)
      && ResetForReconnect !in o.effects
      && (o.state.rerun <==> s.rerun || Reconnects(es) > 0)
    decreases |es|
  {
    if es != [] {
      StepKeepsSound(s, es[0], budget);
      StepRemembers(s, es[0], id, budget);
      ReconnectsAreRemembered(Step(s, es[0], budget).state, es[1..], id, budget);
    }
  }

  lemma SettlingDrains(s: State, id: nat, ready: bool, budget: nat)
    ensures (Alive(s, id) && ParkedAt(s, id, Settling) && (s.mode.Idle? ==> !AnyFlight(s))) ==>
      var o := Step(s, FlightSettles(id, ready), budget);
      && Times(ResetForReconnect, o.effects) == (if s.rerun && ready then 1 else 0)
      && |o.state.flights| == |s.flights| + (if s.rerun && ready then 1 else 0)
      && !o.state.rerun
      && (o.state.mode.Idle? <==> !(s.rerun && ready))
  {
  }

  /** However many reconnects fall into one flight, its settling starts exactly one further flight with
      exactly one reset if the transport is ready then, and none if it is not; either way the controller
      owes nothing afterwards. */
  lemma ReconnectDrainsOnce(s: State, es: seq<Event>, id: nat, ready: bool, budget: nat)
    requires Sound(s, budget) && Alive(s, id) && !s.rerun && forall k :: 0 <= k < |es| ==> Spares(es[k], id)
    requires ParkedAt(Run(s, es, budget).state, id, Settling)
    ensures var o := Step(Run(s, es, budget).state, FlightSettles(id, ready), budget);
      var again := Reconnects(es) > 0 && ready;
      && Times(ResetForReconnect, o.effects) == (if again then 1 else 0)
      && |o.state.flights| == |s.flights| + (if again then 1 else 0)
      && !o.state.rerun
      && (o.state.mode.Idle? <==> !again)
  {
    hide Step, Run;
    ReconnectsAreRemembered(s, es, id, budget);
    SettlingDrains(Run(s, es, budget).state, id, ready, budget);
  }

  /** Pending writes are resent only in the turn in which a catch-up of a live flight came back complete,
      and always then. */
  lemma ResendFollowsCompleteCatchUp(s: State, e: Event, budget: nat)
    ensures ResendPending in Step(s, e, budget).effects <==>
      e.CatchUpSettles? && e.answer.Complete? && !s.mode.Disposed? && ParkedAt(s, e.id, InCatchUp)
  {
  }

  /** How many turns a flight can still take before it is gone. */
  function Fuel(f: Flight, budget: nat): nat {
    var left := if budget > f.attempt then 4 * (budget - f.attempt - 1) else 0;
    match f.pc
    case Gone => 0
    case Settling => 1
    case InResend => left + 2
    case InCatchUp => left + 3
    case InBackoff(released) => left + (if released then 4 else 5)
  }

  /** The event is the next turn of the code of flight `id`. */
  ghost predicate Moves(s: State, e: Event, id: nat)
  {
    id < |s.flights| && match e
    case Request(_, _) => false
    case Dispose => false
    case TimerFires(i) => i == id && s.armed == Some(id)
    case BackoffResumes(i, _) => i == id && s.flights[id].pc == InBackoff(true)
    case CatchUpSettles(i, _, _) => i == id && s.flights[id].pc == InCatchUp
    case ResendSettles(i, _, _) => i == id && s.flights[id].pc == InResend
    case FlightSettles(i, _) => i == id && s.flights[id].pc == Settling
  }

  lemma SettlingFuel(s: State, id: nat, ready: bool, budget: nat)
    requires ParkedAt(s, id, Settling)
    ensures var t := OnFlightEnd(s, id, ready, budget).state;
      && |s.flights| <= |t.flights| && t.flights[id].pc == Gone
      && (forall i :: 0 <= i < |s.flights| && i != id ==> t.flights[i] == s.flights[i])
      && (|t.flights| > |s.flights| ==> Fuel(t.flights[|s.flights|], budget) <= 4 * budget + 1)
  {
    RequestFuel(Park(s, id, s.flights[id].(pc := Gone)).(mode := Idle, rerun := false), true, ready, budget);
  }

  /** Every turn of a flight uses up fuel and no other event gives any back, and a flight starts with at
      most `4 * budget + 1`: so no flight, disposed or not, takes more turns of its own than that. */
  lemma FlightsEnd(s: State, e: Event, id: nat, budget: nat)
    requires Sound(s, budget) && id < |s.flights|
    ensures id < |Step(s, e, budget).state.flights|
    ensures Fuel(Step(s, e, budget).state.flights[id], budget)
      <= Fuel(s.flights[id], budget) - (if Moves(s, e, id) then 1 else 0)
    ensures var t := Step(s, e, budget).state;
      |t.flights| > |s.flights| ==> Fuel(t.flights[|s.flights|], budget) <= 4 * budget + 1
  {
    hide Attempt, OnRequest, OnFlightEnd;
    match e
    case Request(reconnect, ready) => RequestFuel(s, reconnect, ready, budget);
    case CatchUpSettles(i, _, ready) =>
      if ParkedAt(s, i, InCatchUp) { AttemptPaysItsWay(s, i, s.flights[i].attempt + 1, ready, budget); }
    case ResendSettles(i, _, ready) =>
      if ParkedAt(s, i, InResend) { AttemptPaysItsWay(s, i, s.flights[i].attempt + 1, ready, budget); }
    case FlightSettles(i, ready) =>
      if ParkedAt(s, i, Settling) { SettlingFuel(s, i, ready, budget); }
    case _ =>
  }

  // ---------------------------------------------------------------- the class

  class Controller {
    const budget: nat
    var mode: Mode
    var rerunRequested: bool
    var flights: seq<Flight>
    var armed: Option<nat>
    var calls: seq<Effect>

    ghost function Model(): State
      reads this
    {
      State(mode, rerunRequested, flights, armed)
    }

    constructor (budget: nat)
      ensures this.budget == budget && Model() == Initial && calls == []
    {
      this.budget := budget;
      mode, rerunRequested, flights, armed, calls := Idle, false, [], None, [];
    }

    method Request(reconnect: bool, ready: bool)
      modifies this
      ensures var o := Step(old(Model()), Event.Request(reconnect, ready), budget);
        Model() == o.state && calls == old(calls) + o.effects
    {
      if mode.Disposed? { return; }
      if !mode.Idle? {
        rerunRequested := rerunRequested || reconnect;
        return;
      }
      rerunRequested := false;
      if reconnect { calls := calls + [ResetForReconnect]; }
      RunFlight(ready);
    }

    method Dispose()
      modifies this
      ensures Model() == Step(old(Model()), Event.Dispose, budget).state && calls == old(calls)
    {
      mode := Disposed;
      rerunRequested := false;
      if armed.Some? && armed.value < |flights| && flights[armed.value].pc == InBackoff(false) {
        flights := flights[armed.value := flights[armed.value].(pc := InBackoff(true))];
      }
      armed := None;
    }

    method RunFlight(ready: bool)
      modifies this
      ensures var o := StartFlight(old(Model()), ready, budget);
        Model() == o.state && calls == old(calls) + o.effects
    {
      mode := Running;
      flights := flights + [Flight(Settling, 0, 0)];
      EnterAttempt(|flights| - 1, 0, ready);
    }

    /** The loop head of `runAttempts`: give up, wait, or call. */
    method EnterAttempt(id: nat, attempt: nat, ready: bool)
      requires id < |flights|
      modifies this
      ensures var o := Attempt(old(Model()), id, attempt, ready, budget);
        Model() == o.state && calls == old(calls) + o.effects
    {
      flights := flights[id := flights[id].(pc := Settling, attempt := attempt)];
      if attempt >= budget || mode.Disposed? || !ready { return; }
      if attempt > 0 {
        mode := BackingOff;
        armed := Some(id);
        flights := flights[id := flights[id].(pc := InBackoff(false))];
      } else {
        AwaitCatchUp(id);
      }
    }

    method AwaitCatchUp(id: nat)
      requires id < |flights|
      modifies this
      ensures var o := CallCatchUp(old(Model()), id);
        Model() == o.state && calls == old(calls) + o.effects
    {
      mode := Running;
      calls := calls + [CatchUp];
      flights := flights[id := flights[id].(pc := InCatchUp, made := flights[id].made + 1)];
    }

    method OnTimer(id: nat)
      requires armed == Some(id) && ParkedAt(Model(), id, InBackoff(false))
      modifies this
      ensures Model() == Step(old(Model()), TimerFires(id), budget).state && calls == old(calls)
    {
      armed := None;
      flights := flights[id := flights[id].(pc := InBackoff(true))];
    }

    method AfterBackoff(id: nat, ready: bool)
      requires ParkedAt(Model(), id, InBackoff(true))
      modifies this
      ensures var o := Step(old(Model()), BackoffResumes(id, ready), budget);
        Model() == o.state && calls == old(calls) + o.effects
    {
      if mode.Disposed? || !ready {
        flights := flights[id := flights[id].(pc := Settling)];
      } else {
        AwaitCatchUp(id);
      }
    }

    method AfterCatchUp(id: nat, answer: Answer, ready: bool)
      requires ParkedAt(Model(), id, InCatchUp)
      modifies this
      ensures var o := Step(old(Model()), CatchUpSettles(id, answer, ready), budget);
        Model() == o.state && calls == old(calls) + o.effects
    {
      var f := flights[id];
      if answer.Rejected? {
        calls := calls + [ReportError];
        EnterAttempt(id, f.attempt + 1, ready);
      } else if mode.Disposed? || answer.OtherwiseIncomplete? {
        flights := flights[id := f.(pc := Settling)];
      } else if answer.TimedOut? {
        EnterAttempt(id, f.attempt + 1, ready);
      } else {
        calls := calls + [ResendPending];
        flights := flights[id := f.(pc := InResend)];
      }
    }

    method AfterResend(id: nat, ok: bool, ready: bool)
      requires ParkedAt(Model(), id, InResend)
      modifies this
      ensures var o := Step(old(Model()), ResendSettles(id, ok, ready), budget);
        Model() == o.state && calls == old(calls) + o.effects
    {
      var f := flights[id];
      if ok {
        flights := flights[id := f.(pc := Settling)];
      } else {
        calls := calls + [ReportError];
        EnterAttempt(id, f.attempt + 1, ready);
      }
    }

    method AfterFlight(id: nat, ready: bool)
      requires ParkedAt(Model(), id, Settling)
      modifies this
      ensures var o := Step(old(Model()), FlightSettles(id, ready), budget);
        Model() == o.state && calls == old(calls) + o.effects
    {
      flights := flights[id := flights[id].(pc := Gone)];
      if mode.Disposed? { return; }
      mode := Idle;
      var again := rerunRequested;
      rerunRequested := false;
      if again && ready { Request(true, ready); }
    }
  }
}
