/** A member leaves a space for good: the own `removed` event must be in the durable log before the local
    traces are cleaned up, and an attempt that failed half-way is simply repeated. The events of one DID are
    enough here: they are its `active` and `removed` generations. */
module DurableLeave {
  /* A record that is no event may lie under the key of a removal. The commit takes it for the event, and then
     logs a state without it. */

  import opened Common

  /** The await an attempt is parked at. `Commit` is about to apply `removed@generation` to the document;
      `update` is what will be logged: the change just made, or the whole state where the key was taken. */
  datatype Pc =
    | ReadKeys | ReadGeneration | Commit | Present(update: set<nat>) | Append(update: set<nat>)
    | Distribute | CleanUp | Gone

  /** History: `early`, no own event had been written when the attempt looked at the winner; `at`, the
      number of rotations by when it read the generation, if it did not take over a winner's. */
  datatype Attempt = Attempt(pc: Pc, generation: int, early: bool, at: Option<nat>)

  /** History: the own events written here, with the `at` of their attempts; all rotations; the generations
      whose append was skipped for want of a key, those whose commit met a record that is no event, those
      whose attempt reached the cleanup; and whether the space was abandoned without keys. */
  datatype Past = Past(
    written: set<nat>, writtenAt: set<nat>, rotations: nat, skipped: set<nat>, blind: set<nat>, left: set<nat>,
    forgotten: bool)

  /** `generation` is -1 without keys; `keyed` says whether the content key of that generation is at hand;
      `junk` are the generations whose removal key holds something that is no event. */
  datatype State = State(
    present: bool, generation: int, keyed: bool, admin: bool,
    actives: set<nat>, removals: set<nat>, junk: set<nat>, log: seq<set<nat>>, attempts: seq<Attempt>, past: Past)

  /** `ok` is false when the awaited call of that turn throws. `Spoil`: a record that is no event comes in
      under a removal's key, and is what the document shows there. */
  datatype Event =
    | Begin
    | Turn(attempt: nat, ok: bool)
    | Crash
    | Merge(actives: set<nat>, removals: set<nat>)
    | Spoil(generation: nat)
    | Rotate
    | LoseKey
    | RegainKey

  function Logged(log: seq<set<nat>>): set<nat> {
    set k, g | 0 <= k < |log| && g in log[k] :: g
  }

  /** `resolveMembershipWinner` on the own DID, with the tie-break for `removed`. */
  predicate WinsRemoved(s: State, g: nat) {
    g in s.removals && (forall r :: r in s.removals ==> r <= g) && (forall a :: a in s.actives ==> a <= g)
  }

  predicate WinnerRemoved(s: State) {
    exists g :: g in s.removals && WinsRemoved(s, g)
  }

  function Go(s: State, i: nat, pc: Pc): State
    requires i < |s.attempts|
  {
    s.(attempts := s.attempts[i := s.attempts[i].(pc := pc)])
  }

  function Clean(s: State): State {
    s.(present := false, generation := -1, keyed := false)
  }

  /** From the winner on: a retry takes the generation that already won. */
  function OnKeys(s: State, i: nat): State
    requires i < |s.attempts|
  {
    var early := s.past.written == {};
    if s.generation < 0 then Clean(Go(s, i, Gone)).(past := s.past.(forgotten := true))
    else if !s.present then Go(s, i, CleanUp)
    else if WinnerRemoved(s) then
      var g :| g in s.removals && WinsRemoved(s, g);
      s.(attempts := s.attempts[i := Attempt(Commit, g, early, None)])
    else if s.admin then Go(s, i, Gone)
    else s.(attempts := s.attempts[i := s.attempts[i].(pc := ReadGeneration, early := early)])
  }

  function OnGeneration(s: State, i: nat): State
    requires i < |s.attempts|
  {
    var a := s.attempts[i];
    s.(attempts := s.attempts[i := Attempt(Commit, s.generation + 1, a.early, Some(s.past.rotations))])
  }

  function OnCommit(s: State, i: nat): State
    requires i < |s.attempts|
  {
    var a := s.attempts[i];
    var g := a.generation;
    if s.generation < 0 || !s.present || g < 0 then Go(s, i, Gone)
    else if g in s.junk then Go(s, i, Present(s.removals)).(past := s.past.(blind := s.past.blind + {g}))
    else if g in s.removals then Go(s, i, Present(s.removals))
    else
      var at := if a.at.Some? then {a.at.value} else {};
      Go(s, i, Present({g})).(
        removals := s.removals + {g},
        past := s.past.(written := s.past.written + {g}, writtenAt := s.past.writtenAt + at))
  }

  function OnAppend(s: State, i: nat, update: set<nat>): State
    requires i < |s.attempts|
  {
    if s.keyed then Go(s, i, Distribute).(log := s.log + [update])
    else
      var g := s.attempts[i].generation;
      Go(s, i, Distribute).(past := if g >= 0 then s.past.(skipped := s.past.skipped + {g}) else s.past)
  }

  function OnCleanUp(s: State, i: nat): State
    requires i < |s.attempts|
  {
    var g := s.attempts[i].generation;
    Clean(Go(s, i, Gone)).(past := if g >= 0 then s.past.(left := s.past.left + {g}) else s.past)
  }

  function OnTurn(s: State, i: nat, ok: bool): State
    requires i < |s.attempts|
  {
    if !ok then Go(s, i, Gone)
    else match s.attempts[i].pc
    case ReadKeys => OnKeys(s, i)
    case ReadGeneration => OnGeneration(s, i)
    case Commit => OnCommit(s, i)
    case Present(update) => Go(s, i, Append(update))
    case Append(update) => OnAppend(s, i, update)
    case Distribute => Go(s, i, CleanUp)
    case CleanUp => OnCleanUp(s, i)
    case Gone => s
  }

  /** Remote content may re-invite, or remove this member. */
  function Step(s: State, e: Event): State {
    match e
    case Begin => s.(attempts := s.attempts + [Attempt(ReadKeys, -1, false, None)])
    case Turn(i, ok) => if i < |s.attempts| then OnTurn(s, i, ok) else s
    case Crash => s.(attempts := [])
    case Merge(actives, removals) =>
      s.(actives := s.actives + actives, removals := s.removals + removals, junk := s.junk - removals)
    case Spoil(g) => s.(removals := s.removals - {g}, junk := s.junk + {g})
    case Rotate =>
      if s.generation >= 0
      then s.(generation := s.generation + 1, past := s.past.(rotations := s.past.rotations + 1)) else s
    case LoseKey => s.(keyed := false)
    case RegainKey => if s.generation >= 0 then s.(keyed := true) else s
  }

  function Run(s: State, es: seq<Event>): State
    decreases |es|
  {
    if es == [] then s else Run(Step(s, es[0]), es[1..])
  }

  const NoPast := Past({}, {}, 0, {}, {}, {}, false)

  /** A member of a space, nothing under way. */
  predicate Settled(s: State) {
    s.attempts == [] && s.log == [] && s.past == NoPast && s.present && s.generation >= 0
  }

  // ---------------------------------------------------------------- logged before cleaned up

  /** The removal is in the log, or its append was skipped, or its commit met a record that is no event. */
  predicate Accounted(s: State, g: int) {
    g >= 0 && g in Logged(s.log) + s.past.skipped + s.past.blind
  }

  ghost predicate AttemptSound(s: State, a: Attempt) {
    match a.pc
    case ReadKeys => a.generation == -1
    case ReadGeneration => a.generation == -1
    case Present(update) => a.generation >= 0 && (a.generation in update || a.generation in s.past.blind)
    case Append(update) => a.generation >= 0 && (a.generation in update || a.generation in s.past.blind)
    case Distribute => Accounted(s, a.generation)
    case CleanUp => a.generation >= 0 ==> Accounted(s, a.generation)
    case _ => true
  }

  ghost predicate Sound(s: State) {
    && (forall i :: 0 <= i < |s.attempts| ==> AttemptSound(s, s.attempts[i]))
    && (forall g :: g in s.past.left ==> Accounted(s, g))
  }

  lemma LogGrows(log: seq<set<nat>>, update: set<nat>)
    ensures Logged(log + [update]) == Logged(log) + update
  {
    var all := log + [update];
    assert all[|log|] == update;
    forall g | g in Logged(log) ensures g in Logged(all) {
      var k :| 0 <= k < |log| && g in log[k];
      assert all[k] == log[k];
    }
  }

  lemma KeysTurnIsSound(s: State, i: nat)
    ensures Sound(s) && i < |s.attempts| && s.attempts[i].pc.ReadKeys? ==>
      Sound(OnKeys(s, i))
  {
  }

  lemma CommitTurnIsSound(s: State, i: nat)
    requires Sound(s) && i < |s.attempts|
    ensures Sound(OnCommit(s, i))
  {
  }

  lemma AppendTurnIsSound(s: State, i: nat)
    requires Sound(s) && i < |s.attempts| && s.attempts[i].pc.Append?
    ensures Sound(OnAppend(s, i, s.attempts[i].pc.update))
  {
    LogGrows(s.log, s.attempts[i].pc.update);
  }

  lemma TurnKeepsSound(s: State, i: nat, ok: bool)
    requires Sound(s) && i < |s.attempts|
    ensures Sound(OnTurn(s, i, ok))
  {
    hide OnKeys, OnCommit, OnAppend;
    if ok {
      match s.attempts[i].pc
      case ReadKeys => KeysTurnIsSound(s, i);
      case Commit => CommitTurnIsSound(s, i);
      case Append(_) => AppendTurnIsSound(s, i);
      case _ =>
    }
  }

  lemma StepKeepsSound(s: State, e: Event)
    requires Sound(s)
    ensures Sound(Step(s, e))
  {
    hide OnTurn;
    if e.Turn? && e.attempt < |s.attempts| { TurnKeepsSound(s, e.attempt, e.ok); }
  }

  lemma {:induction false} RunKeepsSound(s: State, es: seq<Event>)
    requires Sound(s)
    ensures Sound(Run(s, es))
    decreases |es|
  {
    hide Step, Sound;
    if es != [] {
      StepKeepsSound(s, es[0]);
      RunKeepsSound(Step(s, es[0]), es[1..]);
    }
  }

  /** Over every run of attempts with failing presentations and appends, crashes, merges and rotations: an
      attempt that came as far as the cleanup has its removal in the durable log, unless its append was
      skipped because no content key was at hand, or its commit met a record that is no event. */
  lemma LeavesAreLogged(s: State, es: seq<Event>)
    requires Settled(s)
    ensures var t := Run(s, es);
      forall g :: g in t.past.left ==> g in Logged(t.log) || g in t.past.skipped || g in t.past.blind
  {
    RunKeepsSound(s, es);
  }

  /** Event and something else never share a key, however merges come in. */
  lemma {:induction false} KeysStaySeparate(s: State, es: seq<Event>)
    requires s.removals !! s.junk
    ensures Run(s, es).removals !! Run(s, es).junk
    decreases |es|
  {
    if es != [] {
      StepKeepsSeparate(s, es[0]);
      hide Step;
      KeysStaySeparate(Step(s, es[0]), es[1..]);
    }
  }

  lemma StepKeepsSeparate(s: State, e: Event)
    ensures s.removals !! s.junk ==>
      Step(s, e).removals !! Step(s, e).junk
  {
  }

  /** In every reachable state, what a commit is about to log covers its removal exactly if the key of the
      event was free or held that event. */
  lemma CommitCoversIffReadable(s: State, es: seq<Event>, i: nat)
    requires s.removals !! s.junk
    requires var t := Run(s, es);
      && i < |t.attempts| && t.attempts[i].pc.Commit? && t.attempts[i].generation >= 0
      && t.present && t.generation >= 0
    ensures var t := Run(s, es); var u := OnTurn(t, i, true);
      && u.attempts[i].pc.Present?
      && (t.attempts[i].generation in u.attempts[i].pc.update <==> t.attempts[i].generation !in t.junk)
  {
    KeysStaySeparate(s, es);
  }

  /** The append is unchecked: an attempt whose removal is not in the log yet gets it there exactly if the
      update has it and the key is at hand, and goes on to the cleanup either way. */
  lemma AppendLogsIffKeyed(s: State, i: nat)
    requires Sound(s) && i < |s.attempts| && s.attempts[i].pc.Append?
    requires s.attempts[i].generation !in Logged(s.log)
    ensures var a, t := s.attempts[i], OnTurn(s, i, true);
      && t.attempts[i].pc == Distribute
      && (a.generation in Logged(t.log) <==> s.keyed && a.generation in a.pc.update)
  {
    LogGrows(s.log, s.attempts[i].pc.update);
  }

  const Member := State(true, 0, true, false, {0}, {}, {}, [], [], NoPast)

  lemma UpToTheCommit()
    ensures var go := Turn(0, true);
      Run(Member, [Begin, go, go]) == Member.(attempts := [Attempt(Commit, 1, true, Some(0))])
  {
    var go := Turn(0, true);
    var es := [Begin, go, go];
    var s1 := Step(Member, Begin);
    assert forall g :: g in s1.removals ==> !WinsRemoved(s1, g);
    var s2 := Step(s1, go);
    var s3 := Step(s2, go);
    assert es[1..] == [go, go] && es[1..][1..] == [go];
    assert Run(Member, es) == Run(s1, [go, go]) == Run(s2, [go]) == s3;
  }

  lemma PastTheCommit(s: State, update: set<nat>)
    requires s.attempts == [Attempt(Commit, 1, true, Some(0))] && s.generation >= 0 && s.present
    requires update == if 1 in s.junk + s.removals then s.removals else {1}
    ensures var go := Turn(0, true);
      var t := Run(s, [go, go]);
      && t.attempts == [Attempt(Append(update), 1, true, Some(0))] && t.past.left == s.past.left
      && t.keyed == s.keyed && t.log == s.log
  {
    var go := Turn(0, true);
    var s1 := Step(s, go);
    assert s1.attempts == [Attempt(Present(update), 1, true, Some(0))];
    assert [go, go][1..] == [go];
    assert Run(s, [go, go]) == Run(s1, [go]) == Step(s1, go);
  }

  lemma ToTheDistribution(s: State, e: Event, update: set<nat>)
    requires s.attempts == [Attempt(Commit, 1, true, Some(0))] && s.generation >= 0 && s.present
    requires e == LoseKey || (e == Spoil(1) && s.keyed)
    requires update == (if 1 in Step(s, e).junk + Step(s, e).removals then Step(s, e).removals else {1})
    ensures var go := Turn(0, true);
      var t := Run(s, [e] + ([go, go] + [go]));
      && t.attempts == [Attempt(Distribute, 1, true, Some(0))] && t.past.left == s.past.left
      && t.log == if e == LoseKey then s.log else s.log + [update]
  {
    var go := Turn(0, true);
    var s1 := Step(s, e);
    PastTheCommit(s1, update);
    RunConcat(s1, [go, go], [go]);
    var s2 := Run(s1, [go, go]);
    assert ([e] + ([go, go] + [go]))[1..] == [go, go] + [go];
    assert Run(s2, [go]) == Step(s2, go);
  }

  lemma ToTheCleanup(s: State)
    requires s.attempts == [Attempt(Distribute, 1, true, Some(0))]
    ensures var go := Turn(0, true);
      var t := Run(s, [go, go]); t.past.left == s.past.left + {1} && t.log == s.log && !t.present
  {
    var go := Turn(0, true);
    var s1 := Step(s, go);
    assert s1.attempts == [Attempt(CleanUp, 1, true, Some(0))];
    assert [go, go][1..] == [go];
    assert Run(s, [go, go]) == Run(s1, [go]) == Step(s1, go);
  }

  function Unlogged(e: Event): seq<Event> {
    var go := Turn(0, true);
    [Begin, go, go] + ([e] + ([go, go] + [go]) + [go, go])
  }

  lemma UnloggedRuns(e: Event)
    requires e == LoseKey || e == Spoil(1)
    ensures var t := Run(Member, Unlogged(e));
      t.past.left == {1} && !t.present && t.log == if e == LoseKey then [] else [{}]
  {
    var go := Turn(0, true);
    UpToTheCommit();
    var s := Run(Member, [Begin, go, go]);
    var update := if e == LoseKey then {1} else {};
    assert Step(s, Spoil(1)).removals == {};
    ToTheDistribution(s, e, update);
    hide Step, Run;
    ToTheCleanup(Run(s, [e] + ([go, go] + [go])));
    RunConcat(s, [e] + ([go, go] + [go]), [go, go]);
    RunConcat(Member, [Begin, go, go], [e] + ([go, go] + [go]) + [go, go]);
  }

  /** So a leave can clean up without any trace in the log where the key is not at hand, */
  lemma KeylessLeaveLeavesNoTrace()
    ensures var t := Run(Member, Unlogged(LoseKey)); t.past.left == {1} && t.log == [] && !t.present
  {
    UnloggedRuns(LoseKey);
  }

  /** and with the key at hand where its removal's key is taken: the log then has an entry without it. */
  lemma SpoiledLeaveLogsWithoutItsRemoval()
    ensures var t := Run(Member, Unlogged(Spoil(1))); t.past.left == {1} && t.log == [{}] && !t.present
  {
    UnloggedRuns(Spoil(1));
  }

  lemma {:induction false} RunConcat(s: State, a: seq<Event>, b: seq<Event>)
    ensures Run(s, a + b) == Run(Run(s, a), b)
    decreases |a|
  {
    hide Step;
    if a == [] {
      assert a + b == b;
    } else {
      assert (a + b)[1..] == a[1..] + b;
      RunConcat(Step(s, a[0]), a[1..], b);
    }
  }

  // ---------------------------------------------------------------- who leaves

  /** An admin's attempt gets past its look at the winner only behind a removal that is there. */
  ghost predicate AdminStays(s: State) {
    && s.admin && s.past.written == {}
    && forall i :: 0 <= i < |s.attempts| ==>
         var a := s.attempts[i];
         !a.pc.ReadGeneration? && (a.pc.Commit? && a.generation >= 0 ==> a.generation in s.removals + s.junk)
  }

  lemma KeysKeepAdmin(s: State, i: nat)
    requires AdminStays(s) && i < |s.attempts|
    ensures AdminStays(OnKeys(s, i))
  {
  }

  lemma CommitKeepsAdmin(s: State, i: nat)
    requires AdminStays(s) && i < |s.attempts| && s.attempts[i].pc.Commit?
    ensures AdminStays(OnCommit(s, i))
  {
  }

  lemma EndingsKeepAdmin(s: State, i: nat, pc: Pc, update: set<nat>)
    requires AdminStays(s) && i < |s.attempts| && !pc.ReadGeneration? && !pc.Commit?
    ensures AdminStays(Go(s, i, pc)) && AdminStays(OnAppend(s, i, update)) && AdminStays(OnCleanUp(s, i))
  {
  }

  lemma StepKeepsAdmin(s: State, e: Event)
    requires AdminStays(s)
    ensures AdminStays(Step(s, e))
  {
    if e.Turn? {
      hide OnKeys, OnGeneration, OnCommit, OnAppend, OnCleanUp;
      if e.attempt < |s.attempts| {
        var i, pc := e.attempt, s.attempts[e.attempt].pc;
        EndingsKeepAdmin(s, i, Gone, {});
        if e.ok {
          match pc
          case ReadKeys => KeysKeepAdmin(s, i);
          case Commit => CommitKeepsAdmin(s, i);
          case Present(update) => EndingsKeepAdmin(s, i, Append(update), {});
          case Append(update) => EndingsKeepAdmin(s, i, Gone, update);
          case Distribute => EndingsKeepAdmin(s, i, CleanUp, {});
          case _ =>
        }
      }
    }
  }

  /** Over every run: an admin never writes its own removal, whatever the retries, merges and rotations. */
  lemma {:induction false} AdminsWriteNothing(s: State, es: seq<Event>)
    requires (Settled(s) && s.admin) || AdminStays(s)
    ensures Run(s, es).past.written == {}
    decreases |es|
  {
    if es != [] {
      StepKeepsAdmin(s, es[0]);
      hide Step, AdminStays;
      AdminsWriteNothing(Step(s, es[0]), es[1..]);
    }
  }

  function Turns(s: State, n: nat): State
    decreases n
  {
    if n == 0 || |s.attempts| != 1 then s else Turns(OnTurn(s, 0, true), n - 1)
  }

  /** Nobody else is at it, and the space is there. */
  predicate Undertaken(s: State, a: Attempt) {
    s.attempts == [a] && s.present && s.generation >= 0
  }

  lemma CommitTurns(s: State, a: Attempt)
    requires Undertaken(s, a) && a.pc.Commit? && a.generation >= 0 && s.keyed
    ensures var g := a.generation;
      var update := if g in s.junk + s.removals then s.removals else {g};
      var t := Turns(s, 3);
      && Undertaken(t, a.(pc := Distribute)) && t.log == s.log + [update] && t.past.left == s.past.left
      && t.removals == s.removals + (if g in s.junk then {} else {g})
  {
    var g := a.generation;
    var update := if g in s.junk + s.removals then s.removals else {g};
    var t1 := OnTurn(s, 0, true);
    assert Undertaken(t1, a.(pc := Present(update))) && t1.log == s.log;
    var t2 := OnTurn(t1, 0, true);
    assert Undertaken(t2, a.(pc := Append(update)));
    var t3 := OnTurn(t2, 0, true);
    assert Turns(s, 3) == Turns(t1, 2) == Turns(t2, 1) == Turns(t3, 0) == t3;
  }

  lemma CleanupTurns(s: State, a: Attempt)
    requires Undertaken(s, a) && a.pc.Distribute? && a.generation >= 0
    ensures var t := Turns(s, 2);
      && !t.present && t.generation == -1 && !t.keyed && t.attempts == [a.(pc := Gone)]
      && t.past.left == s.past.left + {a.generation} && t.log == s.log && t.removals == s.removals
  {
    var t1 := OnTurn(s, 0, true);
    assert Undertaken(t1, a.(pc := CleanUp));
    var t2 := OnTurn(t1, 0, true);
    assert Turns(s, 2) == Turns(t1, 1) == Turns(t2, 0) == t2;
  }

  lemma {:induction false} TurnsConcat(s: State, m: nat, n: nat)
    requires |s.attempts| == 1
    ensures |Turns(s, m).attempts| == 1 && Turns(s, m + n) == Turns(Turns(s, m), n)
    decreases m
  {
    if m > 0 {
      OneAttempt(s);
      hide OnTurn;
      TurnsConcat(OnTurn(s, 0, true), m - 1, n);
    }
  }

  lemma OneAttempt(s: State)
    requires |s.attempts| == 1
    ensures |OnTurn(s, 0, true).attempts| == 1
  {
    hide WinnerRemoved, WinsRemoved;
  }

  /** Up to the commit, in one or two turns. */
  lemma LookingTurns(s: State) returns (n: nat, a: Attempt)
    requires s.attempts == [] && s.present && s.generation >= 0 && (!s.admin || WinnerRemoved(s))
    ensures n <= 2 && a.pc.Commit? && a.generation >= 0
    ensures if WinnerRemoved(s) then WinsRemoved(s, a.generation) else a.generation == s.generation + 1
    ensures Turns(Step(s, Begin), n) == s.(attempts := [a])
  {
    var t0 := Step(s, Begin);
    assert WinnerRemoved(t0) <==> WinnerRemoved(s) by {
      assert forall g :: WinsRemoved(t0, g) <==> WinsRemoved(s, g);
    }
    var t1 := OnTurn(t0, 0, true);
    if WinnerRemoved(s) {
      n, a := 1, t1.attempts[0];
      assert WinsRemoved(t0, a.generation) && WinsRemoved(s, a.generation);
      assert Turns(t0, 1) == Turns(t1, 0) == t1;
    } else {
      var t2 := OnTurn(t1, 0, true);
      n, a := 2, t2.attempts[0];
      assert Turns(t0, 2) == Turns(t1, 1) == Turns(t2, 0) == t2;
    }
  }

  /** One attempt with nothing else in between, and the content key at hand: it leaves exactly if the member is
      no admin, or is removed already; at the generation of the winning removal, or else at the next one; and
      then its removal is in the log exactly if its key held no junk, or was there before. */
  lemma LeavesUnlessAdmin(s: State) returns (n: nat, g: int)
    requires s.attempts == [] && s.present && s.generation >= 0 && s.keyed
    ensures n <= 7
    ensures var t := Turns(Step(s, Begin), n);
      && (t.present <==> s.admin && !WinnerRemoved(s))
      && (t.present ==> t == s.(attempts := t.attempts))
      && (!t.present ==>
            && t.generation == -1 && !t.keyed && g >= 0 && t.past.left == s.past.left + {g}
            && (if WinnerRemoved(s) then WinsRemoved(s, g) else g == s.generation + 1)
            && t.removals == s.removals + (if g in s.junk then {} else {g})
            && (s.removals !! s.junk ==> (g in Logged(t.log) <==> g !in s.junk || g in Logged(s.log))))
  {
    if s.admin && !WinnerRemoved(s) {
      var t0 := Step(s, Begin);
      assert !WinnerRemoved(t0) by {
        assert forall h :: WinsRemoved(t0, h) <==> WinsRemoved(s, h);
      }
      n, g := 1, 0;
      var t1 := OnTurn(t0, 0, true);
      assert Turns(t0, 1) == Turns(t1, 0) == t1;
    } else {
      n, g := LeaveGoesThrough(s);
    }
  }

  lemma LeaveGoesThrough(s: State) returns (n: nat, g: int)
    requires s.attempts == [] && s.present && s.generation >= 0 && s.keyed && (!s.admin || WinnerRemoved(s))
    ensures n <= 7
    ensures var t := Turns(Step(s, Begin), n);
      && !t.present && t.generation == -1 && !t.keyed && g >= 0 && t.past.left == s.past.left + {g}
      && (if WinnerRemoved(s) then WinsRemoved(s, g) else g == s.generation + 1)
      && t.removals == s.removals + (if g in s.junk then {} else {g})
      && (s.removals !! s.junk ==> (g in Logged(t.log) <==> g !in s.junk || g in Logged(s.log)))
  {
    hide OnTurn, Turns, WinnerRemoved, WinsRemoved, Logged;
    var k, a := LookingTurns(s);
    g := a.generation;
    var t0, s1 := Step(s, Begin), s.(attempts := [a]);
    CommitTurns(s1, a);
    CleanupTurns(Turns(s1, 3), a.(pc := Distribute));
    TurnsConcat(s1, 3, 2);
    n := k + 5;
    TurnsConcat(t0, k, 5);
    LogGrows(s.log, if g in s.junk + s.removals then s.removals else {g});
  }

  /** Without keys the space is abandoned locally at once, and nothing is written or logged. */
  lemma KeylessIsAbandoned(s: State)
    requires s.attempts == [] && s.generation < 0
    ensures var t := Turns(Step(s, Begin), 1);
      && !t.present && t.past == s.past.(forgotten := true) && t.log == s.log && t.removals == s.removals
      && t.attempts[0].pc.Gone?
  {
    var t0 := Step(s, Begin);
    assert Turns(t0, 1) == Turns(OnTurn(t0, 0, true), 0);
  }

  // ---------------------------------------------------------------- one leave, one removed event

  predicate AboveActives(s: State, g: int) {
    forall a :: a in s.actives ==> a <= g
  }

  predicate Outranked(s: State) {
    exists r :: r in s.removals && AboveActives(s, r)
  }

  lemma {:induction false} Highest(s: set<nat>) returns (h: nat)
    requires s != {}
    ensures h in s && forall x :: x in s ==> x <= h
    decreases |s|
  {
    var x :| x in s;
    assert forall y :: y in s ==> y == x || y in s - {x};
    if s - {x} == {} {
      h := x;
    } else {
      h := Highest(s - {x});
      if x > h { h := x; }
    }
  }

  lemma OutrankedIsRemoved(s: State)
    ensures WinnerRemoved(s) <==> Outranked(s)
  {
    if Outranked(s) {
      var r :| r in s.removals && AboveActives(s, r);
      var h := Highest(s.removals);
      assert WinsRemoved(s, h);
    }
    if WinnerRemoved(s) {
      var g :| g in s.removals && WinsRemoved(s, g);
      assert AboveActives(s, g);
    }
  }

  /** Nobody re-invites meanwhile, and no removal that is there gives way to something else. */
  predicate Undisturbed(s: State, e: Event) {
    match e
    case Merge(actives, _) => actives <= s.actives
    case Spoil(g) => g !in s.removals
    case _ => true
  }

  predicate UndisturbedRun(s: State, es: seq<Event>)
    decreases |es|
  {
    es == [] || (Undisturbed(s, es[0]) && UndisturbedRun(Step(s, es[0]), es[1..]))
  }

  /** `first` is the generation at the start. An attempt that took no winner over looked before anything was
      written, and its generation counts the rotations until it read it. */
  ghost predicate AttemptSteady(s: State, first: int, a: Attempt) {
    match a.pc
    case ReadGeneration => a.early
    case Commit =>
      (match a.at
       case None => a.generation in s.removals && (a.early ==> a.generation !in s.past.written)
       case Some(at) => a.early && (s.present ==> a.generation == first + at + 1 && AboveActives(s, a.generation)))
    case _ => true
  }

  ghost predicate Steady(s: State, first: int) {
    && first >= 0
    && s.past.written <= s.removals
    && (s.past.written != {} ==> Outranked(s))
    && (s.present ==> s.generation == first + s.past.rotations && AboveActives(s, s.generation))
    && (forall h: nat :: h in s.past.written <==> h >= first + 1 && h - first - 1 in s.past.writtenAt)
    && (forall i :: 0 <= i < |s.attempts| ==> AttemptSteady(s, first, s.attempts[i]))
  }

  lemma KeysTurnIsSteady(s: State, first: int, i: nat)
    requires Steady(s, first) && i < |s.attempts|
    ensures Steady(OnKeys(s, i), first)
  {
    OutrankedIsRemoved(s);
    var t := OnKeys(s, i);
    assert t.removals == s.removals && t.actives == s.actives;
    assert Outranked(s) ==> Outranked(t);
  }

  lemma GenerationTurnIsSteady(s: State, first: int, i: nat)
    requires Steady(s, first) && i < |s.attempts| && s.attempts[i].pc.ReadGeneration?
    ensures Steady(OnGeneration(s, i), first)
  {
    var t := OnGeneration(s, i);
    assert AttemptSteady(s, first, s.attempts[i]);
    assert Outranked(s) ==> Outranked(t);
  }

  lemma CommitTurnIsSteady(s: State, first: int, i: nat)
    requires Steady(s, first) && i < |s.attempts| && s.attempts[i].pc.Commit?
    ensures Steady(OnCommit(s, i), first)
  {
    var t, a := OnCommit(s, i), s.attempts[i];
    if t.past.written == s.past.written {
      PlainTurnIsSteady(s, t, first, i);
      return;
    }
    assert AttemptSteady(s, first, a);
    if Outranked(s) {
      var r :| r in s.removals && AboveActives(s, r);
      assert r in t.removals && AboveActives(t, r);
    }
    assert a.generation in t.removals && AboveActives(t, a.generation);
  }

  /** A turn that writes nothing and reads nothing for the next one keeps everything steady. */
  lemma PlainTurnIsSteady(s: State, t: State, first: int, i: nat)
    requires Steady(s, first) && i < |s.attempts| == |t.attempts|
    requires t.removals == s.removals && t.actives == s.actives && t.past.written == s.past.written
    requires t.past.writtenAt == s.past.writtenAt && t.past.rotations == s.past.rotations
    requires t.present ==> s.present && t.generation == s.generation
    requires forall k :: 0 <= k < |s.attempts| && k != i ==> t.attempts[k] == s.attempts[k]
    requires !t.attempts[i].pc.ReadGeneration? && !t.attempts[i].pc.Commit?
    ensures Steady(t, first)
  {
    if Outranked(s) {
      var r :| r in s.removals && AboveActives(s, r);
      assert AboveActives(t, r);
    }
  }

  lemma OtherTurnIsSteady(s: State, first: int, i: nat)
    requires Steady(s, first) && i < |s.attempts|
    requires var pc := s.attempts[i].pc; !pc.ReadKeys? && !pc.ReadGeneration? && !pc.Commit?
    ensures Steady(OnTurn(s, i, true), first)
  {
    hide Steady, OnKeys, OnCommit, OnGeneration;
    match s.attempts[i].pc
    case Append(update) => EndingsAreSteady(s, first, i, update);
    case CleanUp => EndingsAreSteady(s, first, i, {});
    case Present(update) => PlainTurnIsSteady(s, Go(s, i, Append(update)), first, i);
    case Distribute => PlainTurnIsSteady(s, Go(s, i, CleanUp), first, i);
    case _ =>
  }

  lemma EndingsAreSteady(s: State, first: int, i: nat, update: set<nat>)
    requires Steady(s, first) && i < |s.attempts|
    ensures Steady(OnAppend(s, i, update), first) && Steady(OnCleanUp(s, i), first) && Steady(Go(s, i, Gone), first)
  {
    hide Steady;
    PlainTurnIsSteady(s, OnAppend(s, i, update), first, i);
    PlainTurnIsSteady(s, OnCleanUp(s, i), first, i);
    PlainTurnIsSteady(s, Go(s, i, Gone), first, i);
  }

  lemma SurroundingsStaySteady(s: State, first: int, e: Event)
    requires Steady(s, first) && Undisturbed(s, e) && !e.Turn?
    ensures Steady(Step(s, e), first)
  {
    var t := Step(s, e);
    hide WinnerRemoved;
    assert t.actives == s.actives && s.removals <= t.removals && t.past.written == s.past.written;
    if Outranked(s) {
      var r :| r in s.removals && AboveActives(s, r);
      assert r in t.removals && AboveActives(t, r);
    }
  }

  lemma StepIsSteady(s: State, first: int, e: Event)
    requires Steady(s, first) && Undisturbed(s, e)
    ensures Steady(Step(s, e), first)
  {
    hide Steady, OnKeys, OnCommit, OnAppend, OnCleanUp, OnGeneration;
    if !e.Turn? {
      SurroundingsStaySteady(s, first, e);
    } else if e.attempt < |s.attempts| {
      if !e.ok { EndingsAreSteady(s, first, e.attempt, {}); }
      else if s.attempts[e.attempt].pc.ReadKeys? { KeysTurnIsSteady(s, first, e.attempt); }
      else if s.attempts[e.attempt].pc.ReadGeneration? { GenerationTurnIsSteady(s, first, e.attempt); }
      else if s.attempts[e.attempt].pc.Commit? { CommitTurnIsSteady(s, first, e.attempt); }
      else { OtherTurnIsSteady(s, first, e.attempt); }
    }
  }

  /** A commit whose attempt looked at the winner before the first own event was written, with a rotation
      between its reading of the generation and that of every attempt that wrote, and with nothing else
      under its key. */
  predicate LooksPastTheFirst(s: State, e: Event) {
    && e.Turn? && e.ok && e.attempt < |s.attempts| && s.attempts[e.attempt].pc.Commit? && s.present
    && s.past.written != {}
    && var a := s.attempts[e.attempt];
    && a.early && a.at.Some? && a.at.value !in s.past.writtenAt
    && a.generation !in (s.removals - s.past.written) + s.junk
  }

  /** A step writes a further event exactly if it is such a commit. */
  lemma WritesAgainIffItLookedPast(s: State, first: int, e: Event)
    requires Steady(s, first) && s.past.written != {}
    ensures Step(s, e).past.written != s.past.written <==> LooksPastTheFirst(s, e)
  {
    if e.Turn? && e.attempt < |s.attempts| {
      var a := s.attempts[e.attempt];
      assert AttemptSteady(s, first, a);
    }
  }

  predicate NeverLooksPast(s: State, es: seq<Event>)
    decreases |es|
  {
    es == [] || (!LooksPastTheFirst(s, es[0]) && NeverLooksPast(Step(s, es[0]), es[1..]))
  }

  ghost predicate AtMostOne(s: State) {
    forall g, h :: g in s.past.written && h in s.past.written ==> g == h
  }

  lemma {:induction false} WrittenStays(s: State, es: seq<Event>)
    ensures s.past.written <= Run(s, es).past.written
    decreases |es|
  {
    if es != [] {
      hide Step;
      WrittenStays(Step(s, es[0]), es[1..]);
    }
  }

  lemma {:induction false} OneEventFrom(s: State, first: int, es: seq<Event>)
    requires Steady(s, first) && AtMostOne(s) && UndisturbedRun(s, es)
    ensures AtMostOne(Run(s, es)) <==> NeverLooksPast(s, es)
    decreases |es|
  {
    if es != [] {
      var t := Step(s, es[0]);
      StepIsSteady(s, first, es[0]);
      if s.past.written != {} { WritesAgainIffItLookedPast(s, first, es[0]); }
      hide Steady, Step;
      if LooksPastTheFirst(s, es[0]) {
        WrittenStays(t, es[1..]);
        var g :| g in s.past.written;
        var h :| h in t.past.written && h !in s.past.written;
        assert g in Run(t, es[1..]).past.written && h in Run(t, es[1..]).past.written;
      } else {
        OneEventFrom(t, first, es[1..]);
      }
    }
  }

  /** However many attempts overlap, fail and are repeated: a leave writes at most one removed event exactly
      if no commit looked past the first one. */
  lemma OneEventUnlessLookedPast(s: State, es: seq<Event>)
    requires Settled(s) && AboveActives(s, s.generation) && UndisturbedRun(s, es)
    ensures AtMostOne(Run(s, es)) <==> NeverLooksPast(s, es)
  {
    OneEventFrom(s, s.generation, es);
  }

  predicate AllGone(s: State) {
    forall i :: 0 <= i < |s.attempts| ==> s.attempts[i].pc.Gone?
  }

  /** One attempt at a time. */
  predicate OneByOneRun(s: State, es: seq<Event>)
    decreases |es|
  {
    es == [] || ((es[0].Begin? ==> AllGone(s)) && OneByOneRun(Step(s, es[0]), es[1..]))
  }

  /** Only the newest attempt may be under way, and where it took no winner over nothing is written yet. */
  ghost predicate Alone(s: State) {
    && (forall i :: 0 <= i < |s.attempts| - 1 ==> s.attempts[i].pc.Gone?)
    && (s.attempts != [] ==>
          var a := s.attempts[|s.attempts| - 1];
          a.pc.ReadGeneration? || (a.pc.Commit? && a.at.Some?) ==> s.past.written == {})
  }

  lemma KeysTurnStaysAlone(s: State, first: int, i: nat)
    requires Steady(s, first) && Alone(s) && i < |s.attempts| && s.attempts[i].pc.ReadKeys?
    ensures Alone(OnKeys(s, i))
  {
    OutrankedIsRemoved(s);
  }

  lemma StepStaysAlone(s: State, first: int, e: Event)
    requires Steady(s, first) && Alone(s) && (e.Begin? ==> AllGone(s))
    ensures Alone(Step(s, e))
  {
    if e.Turn? && e.attempt < |s.attempts| {
      if e.ok && s.attempts[e.attempt].pc.ReadKeys? {
        KeysTurnStaysAlone(s, first, e.attempt);
      } else {
      }
    }
    hide OnTurn, Steady;
  }

  lemma {:induction false} OneByOneNeverLooksPast(s: State, first: int, es: seq<Event>)
    requires Steady(s, first) && Alone(s) && UndisturbedRun(s, es) && OneByOneRun(s, es)
    ensures NeverLooksPast(s, es)
    decreases |es|
  {
    if es != [] {
      StepIsSteady(s, first, es[0]);
      StepStaysAlone(s, first, es[0]);
      assert !LooksPastTheFirst(s, es[0]);
      hide Steady, Step, Alone, LooksPastTheFirst;
      OneByOneNeverLooksPast(Step(s, es[0]), first, es[1..]);
    }
  }

  /** One attempt at a time, repeated as often as it takes, writes at most one event: a repetition takes over
      the generation that already won. */
  lemma OneLeaveOneEvent(s: State, es: seq<Event>)
    requires Settled(s) && AboveActives(s, s.generation) && UndisturbedRun(s, es) && OneByOneRun(s, es)
    ensures AtMostOne(Run(s, es))
  {
    OneByOneNeverLooksPast(s, s.generation, es);
    OneEventUnlessLookedPast(s, es);
  }

  const TWO_LEAVES := [Begin, Begin, Turn(0, true), Turn(1, true), Turn(0, true)]
  const THEN := [Turn(0, true), Rotate, Turn(1, true), Turn(1, true)]

  /** Attempts that overlap can write two: both look before either has written, and a rotation arrives
      between their readings of the generation. */
  lemma OverlappingLeavesWriteTwoEvents()
    ensures Run(Member, TWO_LEAVES + THEN).past.written == {1, 2}
  {
    RunConcat(Member, TWO_LEAVES, THEN);
    var es := THEN;
    var s1 := Step(Run(Member, TWO_LEAVES), es[0]);
    assert s1.past.written == {1} && s1.removals == {1};
    var s2 := Step(s1, es[1]);
    var s3 := Step(s2, es[2]);
    var s4 := Step(s3, es[3]);
    assert es[1..][1..] == es[2..] && es[2..][1..] == es[3..] && es[3..][1..] == [];
    assert Run(Run(Member, TWO_LEAVES), es) == Run(s1, es[1..]) == Run(s2, es[2..]) == Run(s3, es[3..]) == s4;
  }

  // ---------------------------------------------------------------- the adapter's own updates

  /** One attempt after the other, each as one call. */
  class Space {
    var present: bool
    var generation: int
    var keyed: bool
    var actives: set<nat>
    var removals: set<nat>
    var junk: set<nat>
    var log: seq<set<nat>>

    constructor (generation: nat, actives: set<nat>, junk: set<nat>)
      ensures present && keyed && this.generation == generation && this.actives == actives && this.junk == junk
      ensures removals == {} && log == []
    {
      this.present, this.keyed, this.generation, this.actives, this.junk := true, true, generation, actives, junk;
      removals, log := {}, [];
    }

    /** `commitMembershipEventDurable`: false where it throws. A repetition never trusts the document alone;
        it logs the whole state again. The log then covers the removal exactly if its key held no junk. */
    method CommitDurable(g: nat, presents: bool, appends: bool) returns (ok: bool)
      requires removals !! junk
      modifies `removals, `log
      ensures generation < 0 ==> !ok && removals == old(removals) && log == old(log)
      ensures generation >= 0 ==> removals == old(removals) + (if g in junk then {} else {g})
      ensures ok <==> generation >= 0 && presents && (appends || !keyed)
      ensures ok && keyed ==> (g in Logged(log) <==> g !in junk || g in Logged(old(log)))
      ensures !ok || !keyed ==> log == old(log)
      ensures Logged(old(log)) <= Logged(log) <= Logged(old(log)) + removals
    {
      if generation < 0 { return false; }
      var update := {g};
      if g in removals || g in junk {
        update := removals;
      } else {
        removals := removals + {g};
      }
      if !presents { return false; }
      if !keyed { return true; }
      if !appends { return false; }
      LogGrows(log, update);
      log := log + [update];
      ok := true;
    }

    method Winner() returns (removed: bool, g: nat)
      ensures removed ==> g in removals && AboveAll(g)
      ensures !removed ==> forall r :: r in removals ==> !AboveAll(r)
    {
      if r :| r in removals && AboveAll(r) {
        removed, g := true, r;
      } else {
        removed, g := false, 0;
      }
    }

    predicate AboveAll(g: nat)
      reads this
    {
      (forall r :: r in removals ==> r <= g) && forall a :: a in actives ==> a <= g
    }

    /** `leaveSpace` of a member who is no admin. An attempt that throws leaves the space in place; a
        repetition adds no event; and with the key at hand the space is cleaned up behind a logged removal,
        unless that removal's key held something else. */
    method Leave(presents: bool, appends: bool) returns (done: bool, g: int)
      requires present && removals !! junk
      modifies this
      ensures done <==> !present
      ensures old(generation) < 0 ==> done && g == -1
      ensures old(generation) >= 0 && (forall r :: r in old(removals) ==> !old(AboveAll(r)))
        ==> g == old(generation) + 1
      ensures old(generation) >= 0 ==> forall r :: r in old(removals) && old(AboveAll(r)) ==> g == r
      ensures old(generation) >= 0 ==> g >= 0 && removals == old(removals) + (if g in junk then {} else {g})
      ensures done && g >= 0 && old(keyed) && g !in junk ==> g in Logged(log)
      ensures !done ==> generation == old(generation) && keyed == old(keyed)
      ensures junk == old(junk)
    {
      if generation < 0 {
        present, keyed := false, false;
        return true, -1;
      }
      var removed, winner := Winner();
      g := if removed then winner else generation + 1;
      done := CommitDurable(g, presents, appends);
      if done {
        present, keyed, generation := false, false, -1;
      }
    }
  }
}
