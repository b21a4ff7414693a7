/** The two-phase removal of one member from one space, as several observers of the same durable store
    (tabs, a recovery pass, a retry) drive it at the same time. */
module SecureRemoval {
  /* A removal is staged durably with fresh key material, the home broker is asked to install that
     material, and only then the key is activated, the `removed` event is written and logged, the rotation
     is distributed and the staging record is dropped. One event of this machine is what a run does between
     two awaits; any run may fail at any await, observers crash, other admins rotate, and this device
     rotates on its own for a re-invite. Stores are compare-and-set on the staging id.

     A document may hold a record that is no event under the key of a removal. The commit takes any record
     there for the event, and then logs a state that lacks it. */

  import opened Common

  /** Fresh key material and staging ids are drawn from one counter. */
  type Fresh = nat

  datatype Phase = Staged | BrokerConfirmed | LocalCleanup | Complete

  datatype Record = Record(staging: Fresh, generation: nat, material: Fresh, confirmed: bool, phase: Phase)

  /** What a run does next. */
  datatype Pc =
    | Put | Bind | Send | Mark | SavePhase | Prove | CheckDrift | SaveKey | Apply
    | Present(update: set<nat>) | Append(update: set<nat>) | Distribute
    | SaveCleanup | SaveComplete | Drop | Restage(candidate: Record) | Gone

  datatype Run = Run(observer: nat, pc: Pc, mine: Record)

  /** `keys` and `broker` hold the active material by generation; `docs` and `log` hold the generations of
      the member's `removed` events, in each observer's document and in the durable entries; `junk` the
      generations whose key holds something else in an observer's document. `identity`, `activated`,
      `distributed`, `dropped` and `blind` are history: `blind` are the generations whose commit met such a
      record. */
  datatype State = State(
    store: Option<Record>,
    keys: seq<Fresh>,
    broker: seq<Fresh>,
    docs: map<nat, set<nat>>,
    junk: map<nat, set<nat>>,
    log: seq<set<nat>>,
    runs: seq<Run>,
    counter: Fresh,
    identity: map<Fresh, (nat, Fresh)>,
    activated: set<(nat, Fresh)>,
    distributed: set<(nat, Fresh)>,
    dropped: set<nat>,
    blind: set<nat>)

  /** `Spoil`: a record that is no event comes in under the key of a removal and is what the merge shows.
      `Replicate`: the logged removals come in; of those whose key is spoiled, `shown` are shown. */
  datatype Event =
    | Begin(observer: nat)
    | Turn(run: nat, ok: bool)
    | ReplyLost(run: nat)
    | Crash(observer: nat, kept: set<nat>)
    | Replicate(observer: nat, shown: set<nat>)
    | Spoil(observer: nat, generation: nat)
    | ForeignRotation
    | ImportRotation
    | LocalRotation
    | Abandon

  const Initial := State(None, [0], [0], map[], map[], [], [], 1, map[], {}, {}, {}, {})

  function Doc(s: State, observer: nat): set<nat> {
    if observer in s.docs then s.docs[observer] else {}
  }

  function Junk(s: State, observer: nat): set<nat> {
    if observer in s.junk then s.junk[observer] else {}
  }

  function Logged(log: seq<set<nat>>): set<nat> {
    set k, g | 0 <= k < |log| && g in log[k] :: g
  }

  function Candidate(s: State): Record {
    Record(s.counter, |s.keys|, s.counter + 1, false, Staged)
  }

  function Mint(s: State): State {
    s.(counter := s.counter + 2, identity := s.identity[s.counter := (|s.keys|, s.counter + 1)])
  }

  /** `runTwoPhaseRemoval` and recovery alike take up an existing record in its phase, or mint one. */
  function OnBegin(s: State, observer: nat): State {
    match s.store
    case None => Mint(s).(runs := s.runs + [Run(observer, Put, Candidate(s))])
    case Some(r) =>
      var pc := if r.phase == Complete then Drop else if r.phase == LocalCleanup then SaveComplete else Bind;
      s.(runs := s.runs + [Run(observer, pc, r)])
  }

  function Go(s: State, i: nat, pc: Pc): State
    requires i < |s.runs|
  {
    s.(runs := s.runs[i := s.runs[i].(pc := pc)])
  }

  predicate Holds(s: State, r: Record) {
    s.store.Some? && s.store.value.staging == r.staging
  }

  /** A compare-and-set write of the run's record in a later phase. */
  function Save(s: State, i: nat, phase: Phase, next: Pc): State
    requires i < |s.runs|
  {
    var mine := s.runs[i].mine.(phase := phase);
    if !Holds(s, mine) then Go(s, i, Gone)
    else s.(store := Some(mine), runs := s.runs[i := Run(s.runs[i].observer, next, mine)])
  }

  predicate Installed(broker: seq<Fresh>, generation: nat, material: Fresh) {
    generation < |broker| && broker[generation] == material
  }

  /** The broker's answer to a `space-rotate`, and what the workflow does with it: a slot taken by other
      material is left once the winner's key is here; a gap asks for new material only where this device is
      not ahead of the broker. */
  function OnSend(s: State, i: nat): State
    requires i < |s.runs|
  {
    var r := s.runs[i].mine;
    if r.confirmed then Go(s, i, SavePhase)
    else if r.generation == |s.broker| then Go(s.(broker := s.broker + [r.material]), i, Mark)
    else if r.generation == |s.broker| - 1 && s.broker[r.generation] == r.material then Go(s, i, Mark)
    else if r.generation > |s.broker| then
      if |s.keys| == |s.broker| then Go(Mint(s), i, Restage(Candidate(s))) else Go(s, i, Gone)
    else if |s.keys| > r.generation then Go(Mint(s), i, Restage(Candidate(s)))
    else Go(s, i, Gone)
  }

  /** The durable record still carries this material, confirmed. */
  predicate Proven(s: State, r: Record) {
    && Holds(s, r)
    && s.store.value.material == r.material
    && s.store.value.generation == r.generation
    && s.store.value.confirmed
  }

  function OnCheckDrift(s: State, i: nat): State
    requires i < |s.runs|
  {
    var r := s.runs[i].mine;
    if |s.keys| == r.generation then Go(s, i, SaveKey)
    else if |s.keys| == r.generation + 1 && s.keys[r.generation] == r.material then
      Go(s.(activated := s.activated + {(r.generation, r.material)}), i, Apply)
    else Go(s, i, Gone)
  }

  function OnSaveKey(s: State, i: nat): State
    requires i < |s.runs|
  {
    var r := s.runs[i].mine;
    if r.generation > |s.keys| then Go(s, i, Gone)
    else
      var keys := if r.generation == |s.keys| then s.keys + [r.material] else s.keys[r.generation := r.material];
      Go(s.(keys := keys, activated := s.activated + {(r.generation, r.material)}), i, Apply)
  }

  /** The event goes into the observer's document; what is logged afterwards is this change, or, where its
      key was taken already, the document's full state. */
  function OnApply(s: State, i: nat): State
    requires i < |s.runs|
  {
    var o := s.runs[i].observer;
    var g := s.runs[i].mine.generation;
    if g in Junk(s, o) then Go(s, i, Present(Doc(s, o))).(blind := s.blind + {g})
    else
      var update := if g in Doc(s, o) then Doc(s, o) else {g};
      Go(s.(docs := s.docs[o := Doc(s, o) + {g}]), i, Present(update))
  }

  function OnDrop(s: State, i: nat): State
    requires i < |s.runs|
  {
    var r := s.runs[i].mine;
    var s' := Go(s, i, Gone);
    if Holds(s, r) then s'.(store := None, dropped := s.dropped + {r.generation}) else s'
  }

  /** One turn of run `i`. `ok` is false when the awaited call of that turn throws. */
  function OnTurn(s: State, i: nat, ok: bool): State
    requires i < |s.runs|
  {
    var r := s.runs[i].mine;
    if !ok then Go(s, i, Gone)
    else match s.runs[i].pc
    case Put =>
      if s.store.None? then Go(s, i, Bind).(store := Some(r))
      else s.(runs := s.runs[i := Run(s.runs[i].observer, Bind, s.store.value)])
    case Bind => if s.store.Some? && !Holds(s, r) then Go(s, i, Gone) else Go(s, i, Send)
    case Send => OnSend(s, i)
    case Mark =>
      if Holds(s, r) && s.store.value.material == r.material && s.store.value.generation == r.generation
      then s.(store := Some(s.store.value.(confirmed := true)),
              runs := s.runs[i := Run(s.runs[i].observer, SavePhase, r.(confirmed := true))])
      else Go(s, i, Gone)
    case SavePhase => Save(s, i, BrokerConfirmed, Prove)
    case Prove => if Proven(s, r) then Go(s, i, CheckDrift) else Go(s, i, Gone)
    case CheckDrift => OnCheckDrift(s, i)
    case SaveKey => OnSaveKey(s, i)
    case Apply => OnApply(s, i)
    case Present(update) => Go(s, i, Append(update))
    case Append(update) => Go(s, i, Distribute).(log := s.log + [update])
    case Distribute => Go(s, i, SaveCleanup).(distributed := s.distributed + {(r.generation, r.material)})
    case SaveCleanup => Save(s, i, LocalCleanup, SaveComplete)
    case SaveComplete => Save(s, i, Complete, Drop)
    case Drop => OnDrop(s, i)
    case Restage(c) => if Holds(s, r) then Go(s, i, Gone).(store := Some(c)) else Go(s, i, Gone)
    case Gone => s
  }

  function Step(s: State, e: Event): State {
    match e
    case Begin(o) => OnBegin(s, o)
    case Turn(i, ok) => if i < |s.runs| then OnTurn(s, i, ok) else s
    case ReplyLost(i) => if i < |s.runs| && s.runs[i].pc.Send? then Go(OnSend(s, i), i, Gone) else s
    case Crash(o, kept) =>
      s.(docs := s.docs[o := Doc(s, o) * kept], junk := s.junk[o := Junk(s, o) * kept],
         runs := seq(|s.runs|, i requires 0 <= i < |s.runs| =>
           if s.runs[i].observer == o then s.runs[i].(pc := Gone) else s.runs[i]))
    case Replicate(o, shown) =>
      var hidden := Junk(s, o) - shown;
      s.(docs := s.docs[o := Doc(s, o) + (Logged(s.log) - hidden)],
         junk := s.junk[o := Junk(s, o) - Logged(s.log) + hidden])
    case Spoil(o, g) => s.(docs := s.docs[o := Doc(s, o) - {g}], junk := s.junk[o := Junk(s, o) + {g}])
    case ForeignRotation => s.(broker := s.broker + [s.counter], counter := s.counter + 1)
    case ImportRotation =>
      if |s.keys| < |s.broker| then s.(keys := s.keys + [s.broker[|s.keys|]]) else s
    case LocalRotation => s.(keys := s.keys + [s.counter], counter := s.counter + 1)
    case Abandon => s.(store := None)
  }

  function Steps(s: State, es: seq<Event>): State
    decreases |es|
  {
    if es == [] then s else Steps(Step(s, es[0]), es[1..])
  }

  // ---------------------------------------------------------------- every reachable state

  /** The removal is in the durable log, or its commit met a record that is no event. */
  predicate Accounted(s: State, g: nat) {
    g in Logged(s.log) || g in s.blind
  }

  predicate RecordSound(r: Record, s: State) {
    && r.staging in s.identity && s.identity[r.staging] == (r.generation, r.material)
    && r.material == r.staging + 1
    && r.generation <= |s.keys|
    && (r.confirmed ==> Installed(s.broker, r.generation, r.material))
    && (r.phase == LocalCleanup || r.phase == Complete ==> Accounted(s, r.generation))
  }

  /** The broker has other material in this slot, or has moved beyond it. */
  predicate Lost(s: State, r: Record) {
    r.generation < |s.broker| && (s.broker[r.generation] != r.material || r.generation + 1 < |s.broker|)
  }

  predicate RunSound(run: Run, s: State) {
    var r := run.mine;
    && RecordSound(r, s)
    && match run.pc
       case Put => !r.confirmed
       case Bind => true
       case Send => true
       case Restage(c) => RecordSound(c, s) && Lost(s, r)
       case Gone => true
       case Mark => Installed(s.broker, r.generation, r.material)
       case SavePhase => r.confirmed
       case Prove => r.confirmed
       case CheckDrift => r.confirmed
       case SaveKey => r.confirmed
       case Apply => r.confirmed
       case Present(update) => r.confirmed && (r.generation in update || r.generation in s.blind) && Enforced(update, s)
       case Append(update) => r.confirmed && (r.generation in update || r.generation in s.blind) && Enforced(update, s)
       case _ => Accounted(s, r.generation)
  }

  /** Every generation in `gs` has been installed at the broker. */
  predicate Enforced(gs: set<nat>, s: State) {
    forall g :: g in gs ==> g < |s.broker|
  }

  ghost predicate Sound(s: State) {
    && (s.store.Some? ==> RecordSound(s.store.value, s))
    && (forall i :: 0 <= i < |s.runs| ==> RunSound(s.runs[i], s))
    && (forall x :: x in s.identity ==> x < s.counter)
    && (forall x :: x in s.activated ==> Installed(s.broker, x.0, x.1))
    && (forall g :: g in s.dropped ==> Accounted(s, g)) && Enforced(Logged(s.log), s)
    && (forall o :: o in s.docs ==> Enforced(s.docs[o], s))
  }

  /** What never shrinks or changes; soundness of a record only depends on it. */
  ghost predicate Grows(s: State, t: State) {
    && |s.keys| <= |t.keys|
    && s.broker <= t.broker
    && s.log <= t.log
    && s.blind <= t.blind
    && (forall x :: x in s.identity ==> x in t.identity && t.identity[x] == s.identity[x])
  }

  lemma GrowthKeepsRecords(s: State, t: State, r: Record)
    ensures Grows(s, t) && RecordSound(r, s) ==>
      RecordSound(r, t)
  {
  }

  lemma LogGrows(s: State, t: State)
    ensures Grows(s, t) ==>
      && (Logged(s.log) <= Logged(t.log))
      && (forall g :: Accounted(s, g) ==> Accounted(t, g))
      && (forall gs :: Enforced(gs, s) ==> Enforced(gs, t))
  {
  }

  lemma GrowthKeepsRuns(s: State, t: State, run: Run)
    ensures Grows(s, t) && RunSound(run, s) ==>
      RunSound(run, t)
  {
  }

  // ---------------------------------------------------------------- one turn keeps soundness

  /** A turn of run `i` that only grows the stores, and leaves that run, the staged record and the
      documents sound, keeps everything sound. */
  lemma TurnIsSound(s: State, t: State, i: nat)
    requires Sound(s) && Grows(s, t) && i < |s.runs| == |t.runs|
    requires forall k :: 0 <= k < |s.runs| && k != i ==> t.runs[k] == s.runs[k]
    requires RunSound(t.runs[i], t)
    requires t.store.Some? && t.store != s.store ==> RecordSound(t.store.value, t)
    requires forall x :: x in t.identity ==> x < t.counter
    requires forall x :: x in t.activated && x !in s.activated ==> Installed(t.broker, x.0, x.1)
    requires (forall g :: g in t.dropped ==> Accounted(t, g)) && Enforced(Logged(t.log), t)
    requires forall o :: o in t.docs ==> Enforced(t.docs[o], t)
    ensures Sound(t)
  {
  }

  lemma GoIsSound(s: State, i: nat, pc: Pc)
    requires Sound(s) && i < |s.runs| && (pc.Gone? || RunSound(s.runs[i].(pc := pc), s))
    ensures Sound(Go(s, i, pc))
  {
    SoundParts(s, i);
    TurnIsSound(s, Go(s, i, pc), i);
  }

  /** A larger state with the same runs, record, log, documents and history is as sound. */
  lemma GrowthIsSound(s: State, t: State)
    requires Sound(s) && Grows(s, t) && t.runs == s.runs && t.store == s.store && t.log == s.log && t.docs == s.docs
    requires t.activated == s.activated && t.dropped == s.dropped
    requires forall x :: x in t.identity ==> x < t.counter
    ensures Sound(t)
  {
    LogGrows(s, t);
    hide Accounted, Logged, Enforced;
    forall k | 0 <= k < |s.runs| ensures RunSound(t.runs[k], t) {
      GrowthKeepsRuns(s, t, s.runs[k]);
    }
    if s.store.Some? { GrowthKeepsRecords(s, t, s.store.value); }
  }

  lemma SendIsSound(s: State, i: nat)
    requires Sound(s) && i < |s.runs| && s.runs[i].pc.Send?
    ensures Sound(OnSend(s, i))
  {
    var r := s.runs[i].mine;
    assert RunSound(s.runs[i], s);
    var installed := s.(broker := s.broker + [r.material]);
    GrowthIsSound(s, Mint(s));
    GrowthIsSound(s, installed);
    GrowthKeepsRecords(s, installed, r);
    GrowthKeepsRecords(s, Mint(s), r);
    assert RecordSound(Candidate(s), Mint(s));
    hide Sound, RecordSound, Grows, Accounted, Logged, Enforced, Go;
    if r.confirmed {
      GoIsSound(s, i, SavePhase);
    } else if r.generation == |s.broker| {
      GoIsSound(installed, i, Mark);
    } else if r.generation == |s.broker| - 1 && s.broker[r.generation] == r.material {
      GoIsSound(s, i, Mark);
    } else if r.generation < |s.broker| && |s.keys| > r.generation {
      GoIsSound(Mint(s), i, Restage(Candidate(s)));
    } else if r.generation > |s.broker| && |s.keys| == |s.broker| {
      RecordIsAtMostNext(s, r);
      assert false;
    } else {
      GoIsSound(s, i, Gone);
    }
  }

  lemma RecordIsAtMostNext(s: State, r: Record)
    ensures RecordSound(r, s) ==>
      r.generation <= |s.keys|
  {
  }

  lemma SaveIsSound(s: State, i: nat, phase: Phase, next: Pc)
    requires Sound(s) && i < |s.runs|
    requires RunSound(Run(s.runs[i].observer, next, s.runs[i].mine.(phase := phase)), s)
    ensures Sound(Save(s, i, phase, next))
  {
    var t := Save(s, i, phase, next);
    GrowthKeepsRuns(s, t, t.runs[i]);
    GrowthKeepsRuns(s, t, Run(s.runs[i].observer, next, s.runs[i].mine.(phase := phase)));
    TurnIsSound(s, t, i);
  }

  lemma ActivationIsSound(s: State, i: nat)
    requires Sound(s) && i < |s.runs| && s.runs[i].mine.confirmed
    ensures s.runs[i].pc.CheckDrift? ==> Sound(OnCheckDrift(s, i))
    ensures s.runs[i].pc.SaveKey? ==> Sound(OnSaveKey(s, i))
  {
    if s.runs[i].pc.CheckDrift? {
      var t := OnCheckDrift(s, i);
      GrowthKeepsRecords(s, t, s.runs[i].mine);
      LogGrows(s, t);
      TurnIsSound(s, t, i);
    } else if s.runs[i].pc.SaveKey? {
      var t := OnSaveKey(s, i);
      GrowthKeepsRecords(s, t, s.runs[i].mine);
      LogGrows(s, t);
      TurnIsSound(s, t, i);
    }
  }

  lemma ApplyIsSound(s: State, i: nat)
    requires Sound(s) && i < |s.runs| && s.runs[i].pc.Apply?
    ensures Sound(OnApply(s, i))
  {
  }

  lemma AppendIsSound(s: State, i: nat, update: set<nat>)
    requires Sound(s) && i < |s.runs| && s.runs[i].pc == Append(update)
    ensures Sound(OnTurn(s, i, true))
  {
    var t := OnTurn(s, i, true);
    LogGrows(s, t);
    GrowthKeepsRecords(s, t, s.runs[i].mine);
    assert t.log[|s.log|] == update;
    assert Logged(t.log) == Logged(s.log) + update;
    TurnIsSound(s, t, i);
  }

  lemma DropIsSound(s: State, i: nat)
    requires Sound(s) && i < |s.runs| && s.runs[i].pc.Drop?
    ensures Sound(OnDrop(s, i))
  {
    LogGrows(s, OnDrop(s, i));
    hide Logged, Enforced;
    assert RunSound(s.runs[i], s);
    TurnIsSound(s, OnDrop(s, i), i);
  }

  lemma PutTurnIsSound(s: State, i: nat)
    ensures Sound(s) && i < |s.runs| && s.runs[i].pc.Put? ==>
      Sound(OnTurn(s, i, true))
  {
  }

  lemma MarkTurnIsSound(s: State, i: nat)
    requires Sound(s) && i < |s.runs| && s.runs[i].pc.Mark?
    ensures Sound(OnTurn(s, i, true))
  {
  }

  lemma RestageTurnIsSound(s: State, i: nat)
    requires Sound(s) && i < |s.runs| && s.runs[i].pc.Restage?
    ensures Sound(OnTurn(s, i, true))
  {
    var t := OnTurn(s, i, true);
    GrowthKeepsRecords(s, t, s.runs[i].mine);
    TurnIsSound(s, t, i);
  }

  lemma PlainTurnIsSound(s: State, i: nat)
    requires Sound(s) && i < |s.runs|
    requires var pc := s.runs[i].pc; pc.Bind? || pc.Prove? || pc.Present? || pc.Distribute? || pc.Gone?
    ensures Sound(OnTurn(s, i, true))
  {
    assert RunSound(s.runs[i], s);
    GoIsSound(s, i, Gone);
    if s.runs[i].pc.Distribute? {
      var r := s.runs[i].mine;
      GrowthIsSound(s, s.(distributed := s.distributed + {(r.generation, r.material)}));
      GoIsSound(s.(distributed := s.distributed + {(r.generation, r.material)}), i, SaveCleanup);
      return;
    }
    match s.runs[i].pc
    case Bind => GoIsSound(s, i, Send);
    case Prove => GoIsSound(s, i, CheckDrift);
    case Present(update) => GoIsSound(s, i, Append(update));
    case _ =>
  }

  lemma TurnKeepsSound(s: State, i: nat, ok: bool)
    requires Sound(s) && i < |s.runs|
    ensures Sound(OnTurn(s, i, ok))
  {
    if !ok { GoIsSound(s, i, Gone); return; }
    match s.runs[i].pc
    case Put => PutTurnIsSound(s, i);
    case Mark => MarkTurnIsSound(s, i);
    case Restage(_) => RestageTurnIsSound(s, i);
    case Send => SendIsSound(s, i);
    case SavePhase => SaveIsSound(s, i, BrokerConfirmed, Prove);
    case CheckDrift => ActivationIsSound(s, i);
    case SaveKey => ActivationIsSound(s, i);
    case Apply => ApplyIsSound(s, i);
    case Append(update) => AppendIsSound(s, i, update);
    case SaveCleanup => SaveIsSound(s, i, LocalCleanup, SaveComplete);
    case SaveComplete => SaveIsSound(s, i, Complete, Drop);
    case Drop => DropIsSound(s, i);
    case _ => PlainTurnIsSound(s, i);
  }

  /** Everything that is not a run's own turn. */
  lemma SurroundingsKeepSound(s: State, e: Event)
    requires Sound(s) && !e.Turn? && !e.ReplyLost? && !e.Begin?
    ensures Sound(Step(s, e))
  {
    var t := Step(s, e);
    LogGrows(s, t);
    forall k | 0 <= k < |s.runs| ensures RunSound(t.runs[k], t) {
      GrowthKeepsRuns(s, t, s.runs[k]);
    }
    if s.store.Some? { GrowthKeepsRecords(s, t, s.store.value); }
  }

  lemma RunIsAddedSoundly(s: State, run: Run)
    requires Sound(s) && RunSound(run, s)
    ensures Sound(s.(runs := s.runs + [run]))
  {
    var t := s.(runs := s.runs + [run]);
    LogGrows(s, t);
    hide Accounted, Logged, Enforced;
    forall k | 0 <= k < |s.runs| ensures RunSound(t.runs[k], t) {
      GrowthKeepsRuns(s, t, s.runs[k]);
    }
    GrowthKeepsRuns(s, t, run);
    if s.store.Some? { GrowthKeepsRecords(s, t, s.store.value); }
  }

  lemma BeginIsSound(s: State, observer: nat)
    requires Sound(s)
    ensures Sound(OnBegin(s, observer))
  {
    GrowthIsSound(s, Mint(s));
    assert RecordSound(Candidate(s), Mint(s));
    hide Sound, Grows, Accounted, Logged, Enforced;
    match s.store
    case None => RunIsAddedSoundly(Mint(s), Run(observer, Put, Candidate(s)));
    case Some(r) =>
      SoundParts(s, 0);
      var pc := if r.phase == Complete then Drop else if r.phase == LocalCleanup then SaveComplete else Bind;
      RunIsAddedSoundly(s, Run(observer, pc, r));
  }

  lemma StepKeepsSound(s: State, e: Event)
    requires Sound(s)
    ensures Sound(Step(s, e))
  {
    match e
    case Turn(i, ok) => if i < |s.runs| { TurnKeepsSound(s, i, ok); }
    case ReplyLost(i) =>
      if i < |s.runs| && s.runs[i].pc.Send? {
        SendIsSound(s, i);
        GoIsSound(OnSend(s, i), i, Gone);
      }
    case Begin(o) => BeginIsSound(s, o);
    case _ => SurroundingsKeepSound(s, e);
  }

  lemma {:induction false} StepsKeepSound(s: State, es: seq<Event>)
    requires Sound(s)
    ensures Sound(Steps(s, es))
    decreases |es|
  {
    if es != [] {
      StepKeepsSound(s, es[0]);
      StepsKeepSound(Step(s, es[0]), es[1..]);
    }
  }

  // ---------------------------------------------------------------- activated and distributed

  predicate Late(r: Record) {
    r.phase == LocalCleanup || r.phase == Complete
  }

  predicate Enacts(s: State, r: Record) {
    (r.generation, r.material) in s.activated && (r.generation, r.material) in s.distributed
  }

  predicate EnactedRun(run: Run, s: State) {
    && (Late(run.mine) ==> Enacts(s, run.mine))
    && match run.pc
       case Apply => (run.mine.generation, run.mine.material) in s.activated
       case Present(_) => (run.mine.generation, run.mine.material) in s.activated
       case Append(_) => (run.mine.generation, run.mine.material) in s.activated
       case Distribute => (run.mine.generation, run.mine.material) in s.activated
       case SaveCleanup => Enacts(s, run.mine)
       case SaveComplete => Enacts(s, run.mine)
       case Drop => Enacts(s, run.mine)
       case Restage(c) => !Late(c)
       case _ => true
  }

  /** Activated material is the local key of its generation, and a removal is past its commit only with its
      material activated and distributed. */
  ghost predicate Enacted(s: State) {
    && (forall x :: x in s.activated ==> Installed(s.keys, x.0, x.1))
    && (s.store.Some? && Late(s.store.value) ==> Enacts(s, s.store.value))
    && (forall i :: 0 <= i < |s.runs| ==> EnactedRun(s.runs[i], s))
    && (forall g :: g in s.dropped ==> Distributed(s, g))
  }

  ghost predicate Distributed(s: State, g: nat) {
    exists m :: (g, m) in s.activated && (g, m) in s.distributed
  }

  predicate StoreEnacted(s: State) {
    s.store.Some? && Late(s.store.value) ==> Enacts(s, s.store.value)
  }

  /** What a turn may not take back. */
  ghost predicate KeepsTheRest(s: State, t: State, i: nat)
    requires i < |s.runs|
  {
    && |t.runs| == |s.runs| && t.runs == s.runs[i := t.runs[i]]
    && s.activated <= t.activated && s.distributed <= t.distributed
    && (t.dropped == s.dropped || (s.runs[i].pc.Drop? && t.dropped == s.dropped + {s.runs[i].mine.generation}))
  }

  lemma SaveKeepsTheRest(s: State, i: nat, phase: Phase, next: Pc)
    requires i < |s.runs|
    ensures KeepsTheRest(s, Save(s, i, phase, next), i)
  {
  }

  lemma ActivationKeepsTheRest(s: State, i: nat)
    requires i < |s.runs|
    ensures KeepsTheRest(s, OnCheckDrift(s, i), i) && KeepsTheRest(s, OnSaveKey(s, i), i)
  {
  }

  lemma CommitKeepsTheRest(s: State, i: nat)
    requires i < |s.runs|
    ensures KeepsTheRest(s, OnApply(s, i), i)
    ensures s.runs[i].pc.Drop? ==> KeepsTheRest(s, OnDrop(s, i), i)
  {
    hide Doc, Junk;
  }

  lemma TurnKeepsTheRest(s: State, i: nat, ok: bool)
    requires i < |s.runs|
    ensures KeepsTheRest(s, OnTurn(s, i, ok), i)
  {
    hide OnSend, OnCheckDrift, OnSaveKey, OnApply, OnDrop, Save, Proven;
    match s.runs[i].pc
    case Send => SendEnacts(s, i);
    case CheckDrift => ActivationKeepsTheRest(s, i);
    case SaveKey => ActivationKeepsTheRest(s, i);
    case Apply => CommitKeepsTheRest(s, i);
    case Drop => CommitKeepsTheRest(s, i);
    case SavePhase => SaveKeepsTheRest(s, i, BrokerConfirmed, Prove);
    case SaveCleanup => SaveKeepsTheRest(s, i, LocalCleanup, SaveComplete);
    case SaveComplete => SaveKeepsTheRest(s, i, Complete, Drop);
    case _ =>
  }

  ghost predicate Enacting(s: State, i: nat) {
    i < |s.runs| && EnactedRun(s.runs[i], s) && StoreEnacted(s)
  }

  lemma SaveEnacts(s: State, i: nat, phase: Phase, next: Pc)
    requires Enacting(s, i) && EnactedRun(Run(s.runs[i].observer, next, s.runs[i].mine.(phase := phase)), s)
    ensures Enacting(Save(s, i, phase, next), i)
  {
  }

  lemma CommitEnacts(s: State, i: nat)
    requires Enacting(s, i)
    ensures s.runs[i].pc.Apply? ==> Enacting(OnApply(s, i), i)
    ensures s.runs[i].pc.Drop? ==> Enacting(OnDrop(s, i), i)
  {
    hide Doc, Junk;
  }

  /** A turn on the level of its own run and the record. */
  lemma TurnEnacts(s: State, i: nat, ok: bool)
    requires Enacting(s, i)
    ensures Enacting(OnTurn(s, i, ok), i)
  {
    hide OnSend, OnCheckDrift, OnSaveKey, OnApply, OnDrop, Save, Proven;
    match s.runs[i].pc
    case Send => SendEnacts(s, i);
    case CheckDrift => ActivationEnacts(s, i);
    case SaveKey => ActivationEnacts(s, i);
    case Apply => CommitEnacts(s, i);
    case Drop => CommitEnacts(s, i);
    case SavePhase => SaveEnacts(s, i, BrokerConfirmed, Prove);
    case SaveCleanup => SaveEnacts(s, i, LocalCleanup, SaveComplete);
    case SaveComplete => SaveEnacts(s, i, Complete, Drop);
    case _ =>
  }

  lemma SendEnacts(s: State, i: nat)
    requires i < |s.runs|
    ensures var t := OnSend(s, i);
      && t.(runs := [], broker := [], counter := 0, identity := map[])
         == s.(runs := [], broker := [], counter := 0, identity := map[])
      && t.runs == s.runs[i := s.runs[i].(pc := t.runs[i].pc)]
      && (t.runs[i].pc.SavePhase? || t.runs[i].pc.Mark? || t.runs[i].pc.Gone?
          || (t.runs[i].pc.Restage? && t.runs[i].pc.candidate.phase == Staged))
  {
  }

  lemma ActivationEnacts(s: State, i: nat)
    requires i < |s.runs|
    ensures forall t :: t == OnCheckDrift(s, i) || t == OnSaveKey(s, i) ==>
      && t.store == s.store && t.dropped == s.dropped && t.distributed == s.distributed
      && t.runs == s.runs[i := s.runs[i].(pc := t.runs[i].pc)]
      && (t.activated == s.activated
          || t.activated == s.activated + {(s.runs[i].mine.generation, s.runs[i].mine.material)})
      && (t.runs[i].pc.Gone? || t.runs[i].pc.SaveKey?
          || (t.runs[i].pc.Apply? && (s.runs[i].mine.generation, s.runs[i].mine.material) in t.activated))
  {
  }

  /** Local keys change by this material alone, which is what the broker holds. */
  lemma TurnInstalls(s: State, i: nat, ok: bool)
    requires i < |s.runs| && RunSound(s.runs[i], s)
    requires forall x :: x in s.activated ==> Installed(s.broker, x.0, x.1) && Installed(s.keys, x.0, x.1)
    ensures forall x :: x in OnTurn(s, i, ok).activated ==> Installed(OnTurn(s, i, ok).keys, x.0, x.1)
  {
    hide Doc, Junk, Accounted, Logged, Enforced, OnSend, Lost;
    if s.runs[i].pc.Send? { SendEnacts(s, i); }
  }

  lemma TurnKeepsEnacted(s: State, i: nat, ok: bool)
    requires Sound(s) && Enacted(s) && i < |s.runs|
    ensures Enacted(OnTurn(s, i, ok))
  {
    SoundParts(s, i);
    TurnKeepsTheRest(s, i, ok);
    TurnEnacts(s, i, ok);
    assert forall x :: x in s.activated ==> Installed(s.broker, x.0, x.1);
    TurnInstalls(s, i, ok);
    var t := OnTurn(s, i, ok);
    hide Sound, RunSound, OnTurn;
    EnactedGrows(s, t);
    forall g | g in t.dropped ensures Distributed(t, g) {
      if g !in s.dropped { assert (g, s.runs[i].mine.material) in s.activated; }
    }
  }

  /** What never is taken back. */
  lemma EnactedGrows(s: State, t: State)
    requires Enacted(s) && s.activated <= t.activated && s.distributed <= t.distributed
    ensures forall run :: EnactedRun(run, s) ==> EnactedRun(run, t)
    ensures forall g :: g in s.dropped ==> Distributed(t, g)
  {
    forall g | g in s.dropped ensures Distributed(t, g) {
      var m :| (g, m) in s.activated && (g, m) in s.distributed;
      assert (g, m) in t.activated && (g, m) in t.distributed;
    }
  }

  lemma StepKeepsEnacted(s: State, e: Event)
    requires Sound(s) && Enacted(s)
    ensures Enacted(Step(s, e))
  {
    var t := Step(s, e);
    match e
    case Turn(i, ok) => if i < |s.runs| { TurnKeepsEnacted(s, i, ok); }
    case ReplyLost(i) =>
      if i < |s.runs| && s.runs[i].pc.Send? {
        hide OnSend;
        SendEnacts(s, i);
        EnactedGrows(s, t);
      }
    case Begin(o) => BeginEnacts(s, o);
    case _ =>
      hide Sound, Logged, Doc, Junk, OnBegin, OnTurn, OnSend;
      EnactedGrows(s, t);
  }

  lemma BeginEnacts(s: State, observer: nat)
    requires Enacted(s)
    ensures Enacted(OnBegin(s, observer))
  {
    EnactedGrows(s, OnBegin(s, observer));
  }

  lemma {:induction false} StepsKeepEnacted(s: State, es: seq<Event>)
    requires Sound(s) && Enacted(s)
    ensures Enacted(Steps(s, es))
    decreases |es|
  {
    hide Step, Sound, Enacted;
    if es != [] {
      StepKeepsSound(s, es[0]);
      StepKeepsEnacted(s, es[0]);
      StepsKeepEnacted(Step(s, es[0]), es[1..]);
    }
  }

  // ---------------------------------------------------------------- main results

  /** No generation is both an event and something else in one document. */
  ghost predicate Separate(s: State) {
    forall o :: Doc(s, o) !! Junk(s, o)
  }

  ghost predicate Unspoiled(s: State) {
    s.blind == {} && forall o :: Junk(s, o) == {}
  }

  /** Only the commit touches documents. */
  ghost predicate SameDocuments(s: State, t: State) {
    t.junk == s.junk && t.docs == s.docs && t.blind == s.blind
  }

  lemma PartsKeepDocuments(s: State, i: nat, phase: Phase, next: Pc)
    ensures i < |s.runs| ==>
      && SameDocuments(s, OnSend(s, i)) && SameDocuments(s, OnCheckDrift(s, i)) && SameDocuments(s, OnSaveKey(s, i))
      && SameDocuments(s, OnDrop(s, i)) && SameDocuments(s, Save(s, i, phase, next))
  {
  }

  lemma TurnTouchesDocuments(s: State, i: nat, ok: bool)
    requires i < |s.runs|
    ensures (ok && s.runs[i].pc.Apply? && OnTurn(s, i, ok) == OnApply(s, i)) || SameDocuments(s, OnTurn(s, i, ok))
  {
    hide OnSend, OnCheckDrift, OnSaveKey, OnDrop, Save, OnApply;
    match s.runs[i].pc
    case Send => PartsKeepDocuments(s, i, Complete, Drop);
    case SavePhase => PartsKeepDocuments(s, i, BrokerConfirmed, Prove);
    case SaveCleanup => PartsKeepDocuments(s, i, LocalCleanup, SaveComplete);
    case SaveComplete => PartsKeepDocuments(s, i, Complete, Drop);
    case CheckDrift => PartsKeepDocuments(s, i, Complete, Drop);
    case SaveKey => PartsKeepDocuments(s, i, Complete, Drop);
    case Drop => PartsKeepDocuments(s, i, Complete, Drop);
    case _ =>
  }

  lemma DocumentsStaySeparate(s: State, t: State)
    requires SameDocuments(s, t)
    ensures (Separate(s) ==> Separate(t)) && (Unspoiled(s) ==> Unspoiled(t))
  {
    forall o ensures Doc(t, o) == Doc(s, o) && Junk(t, o) == Junk(s, o) {
    }
  }

  lemma ApplyKeepsSeparate(s: State, i: nat)
    requires i < |s.runs| && Separate(s)
    ensures Separate(OnApply(s, i)) && (Unspoiled(s) ==> Unspoiled(OnApply(s, i)))
  {
    var t, mine := OnApply(s, i), s.runs[i].observer;
    forall o ensures Junk(t, o) == Junk(s, o) && (Doc(t, o) == Doc(s, o) || (o == mine && Doc(s, o) <= Doc(t, o))) {
    }
    assert Doc(s, mine) !! Junk(s, mine);
  }

  lemma SurroundingsStaySeparate(s: State, e: Event)
    requires Separate(s) && !e.Turn? && !e.ReplyLost? && !e.Begin?
    ensures Separate(Step(s, e)) && (Unspoiled(s) && !e.Spoil? ==> Unspoiled(Step(s, e)))
  {
    hide Logged;
    var t := Step(s, e);
    forall o ensures Doc(s, o) !! Junk(s, o) ==> Doc(t, o) !! Junk(t, o)
             ensures Junk(s, o) == {} && !e.Spoil? ==> Junk(t, o) == {}
    {
    }
    forall o ensures Doc(t, o) !! Junk(t, o) {
      assert Doc(s, o) !! Junk(s, o);
    }
  }

  lemma StepKeepsSeparate(s: State, e: Event)
    requires Separate(s)
    ensures Separate(Step(s, e))
    ensures Unspoiled(s) && !e.Spoil? ==> Unspoiled(Step(s, e))
  {
    match e
    case Turn(i, ok) =>
      hide OnTurn, OnApply, Separate, Unspoiled, SameDocuments;
      if i < |s.runs| {
        TurnTouchesDocuments(s, i, ok);
        if SameDocuments(s, OnTurn(s, i, ok)) {
          DocumentsStaySeparate(s, OnTurn(s, i, ok));
        } else {
          ApplyKeepsSeparate(s, i);
        }
      }
    case ReplyLost(i) =>
      if i < |s.runs| && s.runs[i].pc.Send? {
        PartsKeepDocuments(s, i, Complete, Drop);
        DocumentsStaySeparate(s, Step(s, e));
      }
    case Begin(o) => DocumentsStaySeparate(s, OnBegin(s, o));
    case _ => SurroundingsStaySeparate(s, e);
  }

  lemma {:induction false} StepsKeepSeparate(s: State, es: seq<Event>)
    requires Separate(s)
    ensures Separate(Steps(s, es))
    ensures Unspoiled(s) && (forall k :: 0 <= k < |es| ==> !es[k].Spoil?) ==> Unspoiled(Steps(s, es))
    decreases |es|
  {
    hide Step, Separate, Unspoiled;
    if es != [] {
      StepKeepsSeparate(s, es[0]);
      StepsKeepSeparate(Step(s, es[0]), es[1..]);
    }
  }

  /** In every reachable state, what a commit is about to log covers its removal, and the document shows it
      then, exactly if the key of the event was free or held that event. */
  lemma CommitCoversIffReadable(es: seq<Event>, i: nat)
    requires i < |Steps(Initial, es).runs| && Steps(Initial, es).runs[i].pc.Apply?
    ensures var s := Steps(Initial, es); var t := OnTurn(s, i, true); var r := s.runs[i];
      && t.runs[i].pc.Present?
      && (r.mine.generation in t.runs[i].pc.update <==> r.mine.generation !in Junk(s, r.observer))
      && (r.mine.generation in Doc(t, r.observer) <==> r.mine.generation !in Junk(s, r.observer))
  {
    StepsKeepSeparate(Initial, es);
    assert Separate(Steps(Initial, es));
  }

  /** Over every interleaving of runs, crashes, retries and foreign rotations: each dropped removal has its
      event in the durable log, unless a commit of it met a record that is no event under its key, so always
      where no such record ever came in, and its material is the key of its generation, at the broker and
      here, and was distributed; key material was only ever activated in the generation where the broker
      holds exactly that material, and no document and no log entry has a removal the broker had not
      enforced. */
  lemma RemovalIsSafe(es: seq<Event>)
    ensures var s := Steps(Initial, es);
      && (forall g :: g in s.dropped ==> Accounted(s, g))
      && ((forall k :: 0 <= k < |es| ==> !es[k].Spoil?) ==> s.dropped <= Logged(s.log))
      && (forall g :: g in s.dropped ==> Distributed(s, g))
      && (forall x :: x in s.activated ==> Installed(s.broker, x.0, x.1) && Installed(s.keys, x.0, x.1))
      && Enforced(Logged(s.log), s)
      && (forall o :: o in s.docs ==> Enforced(s.docs[o], s))
  {
    StepsKeepSound(Initial, es);
    StepsKeepSeparate(Initial, es);
    StepsKeepEnacted(Initial, es);
    hide Enforced, Installed, RunSound, RecordSound, Steps;
  }

  lemma OnlyDropRemoves(s: State, i: nat, ok: bool)
    requires i < |s.runs| && s.store.Some? && OnTurn(s, i, ok).store.None?
    ensures s.runs[i].pc.Drop? && Holds(s, s.runs[i].mine)
  {
    hide OnSend, OnCheckDrift, OnSaveKey, OnApply, Doc, Junk, Proven;
    match s.runs[i].pc
    case Send => SendEnacts(s, i);
    case CheckDrift => ActivationEnacts(s, i);
    case SaveKey => ActivationEnacts(s, i);
    case Apply => ApplyKeepsTheRecord(s, i);
    case _ =>
  }

  lemma ApplyKeepsTheRecord(s: State, i: nat)
    requires i < |s.runs|
    ensures OnApply(s, i).store == s.store
  {
    hide Doc, Junk;
  }

  lemma RemovedStagingIsLogged(s: State, e: Event)
    requires Sound(s) && s.store.Some? && Step(s, e).store.None?
    ensures e.Abandon? || Accounted(s, s.store.value.generation)
  {
    hide Logged, Enforced, Doc, Junk, OnTurn, OnBegin, OnSend;
    if e.Turn? && e.run < |s.runs| {
      OnlyDropRemoves(s, e.run, e.ok);
      assert RunSound(s.runs[e.run], s) && RecordSound(s.store.value, s);
    } else if e.ReplyLost? && e.run < |s.runs| {
      SendEnacts(s, e.run);
    } else if e.Begin? {
      BeginKeepsTheRecord(s, e.observer);
    }
  }

  lemma BeginKeepsTheRecord(s: State, observer: nat)
    ensures OnBegin(s, observer).store == s.store
  {
  }

  lemma ReplacedStagingIsSuperseded(s: State, e: Event)
    requires Sound(s) && s.store.Some? && s.store.value.confirmed
    requires var t := Step(s, e); t.store.Some? && t.store.value.staging != s.store.value.staging
    ensures s.store.value.generation + 1 < |s.broker|
  {
    hide Sound, Logged, Enforced, Doc, Junk, Accounted;
    SoundParts(s, e.run);
  }

  /** After any run, a staging record disappears only by an explicit local abandon or once its removal is
      durably logged (or its commit met a record that is no event), and a confirmed one gives way to another
      only where the broker has already moved beyond it. */
  lemma StagingOutlivesTheLog(es: seq<Event>, e: Event)
    requires Steps(Initial, es).store.Some?
    ensures var s := Steps(Initial, es); var t := Step(s, e);
      && (t.store.None? ==> e.Abandon? || s.store.value.generation in Logged(s.log) + s.blind)
      && (t.store.Some? && t.store.value.staging != s.store.value.staging && s.store.value.confirmed
          ==> s.store.value.generation + 1 < |s.broker|)
  {
    hide OnTurn, OnBegin;
    StepsKeepSound(Initial, es);
    var s := Steps(Initial, es);
    if Step(s, e).store.None? {
      RemovedStagingIsLogged(s, e);
    } else if s.store.value.confirmed && Step(s, e).store.value.staging != s.store.value.staging {
      ReplacedStagingIsSuperseded(s, e);
    }
  }

  /** The branch that would restage after a generation gap cannot be reached: a record is never more than
      one generation beyond the local keys, so a gap always finds this device ahead of the broker. */
  lemma GapNeverRestages(es: seq<Event>, i: nat)
    requires var s := Steps(Initial, es);
      && i < |s.runs| && s.runs[i].pc.Send? && !s.runs[i].mine.confirmed && s.runs[i].mine.generation > |s.broker|
    ensures var s := Steps(Initial, es); |s.keys| > |s.broker| && OnSend(s, i) == Go(s, i, Gone)
  {
    StepsKeepSound(Initial, es);
    assert RunSound(Steps(Initial, es).runs[i], Steps(Initial, es));
  }

  lemma ChecksCompareStagings(s: State, i: nat)
    requires i < |s.runs| && RunSound(s.runs[i], s) && (s.store.Some? ==> RecordSound(s.store.value, s))
    ensures DecidedByStaging(s, OnTurn(s, i, true), i)
  {
    hide OnSend, OnCheckDrift, OnSaveKey, OnApply, OnDrop, Accounted, Enforced;
    if !s.runs[i].pc.Mark? && !s.runs[i].pc.Prove? { hide RunSound, RecordSound; }
    TurnKeepsTheRest(s, i, true);
  }

  /** The record is the run's own for the binding, for its confirmation and for the proof before the commit. */
  ghost predicate DecidedByStaging(s: State, t: State, i: nat)
    requires i < |s.runs|
  {
    && |t.runs| == |s.runs|
    && var pc, own := s.runs[i].pc, s.store.Some? && s.store.value.staging == s.runs[i].mine.staging;
    && (pc.Bind? ==> (t.runs[i].pc.Send? <==> own || s.store.None?))
    && (pc.Mark? ==>
          && (t.runs[i].pc.SavePhase? <==> own)
          && (own ==> t.runs[i].mine.confirmed && t.store == Some(s.store.value.(confirmed := true))))
    && (pc.Prove? ==> (t.runs[i].pc.CheckDrift? <==> own && s.store.value.confirmed))
  }

  /** Of the three fields that the source compares with the durable record, the staging id decides alone: in
      every reachable state a run goes on to send exactly unless the record is another's, its confirmation counts
      exactly if the record is still its own, and it gets past the proof exactly if that is confirmed. */
  lemma StagingIdDecides(es: seq<Event>, i: nat)
    requires i < |Steps(Initial, es).runs|
    ensures DecidedByStaging(Steps(Initial, es), OnTurn(Steps(Initial, es), i, true), i)
  {
    StepsKeepSound(Initial, es);
    SoundParts(Steps(Initial, es), i);
    hide Sound, Steps, OnTurn, DecidedByStaging;
    ChecksCompareStagings(Steps(Initial, es), i);
  }

  /** Whoever stages while a record is there takes that up, so that observers who start at once drive one. */
  lemma StagingIsShared(s: State, i: nat)
    requires i < |s.runs| && s.runs[i].pc.Put?
    ensures var t := OnTurn(s, i, true);
      && |t.runs| == |s.runs| && t.store == Some(t.runs[i].mine) && t.runs[i].pc == Bind
      && (s.store.Some? ==> t.store == s.store)
  {
  }

  // ---------------------------------------------------------------- a lost slot

  /** Everything drawn so far is below the counter. */
  ghost predicate Below(s: State) {
    && (forall k :: 0 <= k < |s.keys| ==> s.keys[k] < s.counter)
    && (forall k :: 0 <= k < |s.broker| ==> s.broker[k] < s.counter)
    && (forall x :: x in s.identity ==> x + 1 < s.counter)
  }

  lemma TurnStaysBelow(s: State, i: nat, ok: bool)
    requires Below(s) && i < |s.runs| && RunSound(s.runs[i], s)
    ensures Below(OnTurn(s, i, ok))
  {
    hide Doc, Junk, Accounted, Logged, Enforced, Proven, Installed;
    if ok && s.runs[i].pc.Send? {
      hide RunSound;
      assert RecordSound(s.runs[i].mine, s);
      var t := OnSend(s, i);
      assert OnTurn(s, i, ok) == t;
    } else if ok && s.runs[i].pc.SaveKey? {
      assert OnTurn(s, i, ok) == OnSaveKey(s, i);
    } else {
      MaterialStays(s, i, ok);
      hide OnTurn;
    }
  }

  predicate SameMaterial(s: State, t: State) {
    t.keys == s.keys && t.broker == s.broker && t.counter == s.counter && t.identity == s.identity
  }

  lemma MaterialStays(s: State, i: nat, ok: bool)
    requires i < |s.runs| && (ok ==> !s.runs[i].pc.Send? && !s.runs[i].pc.SaveKey?)
    ensures SameMaterial(s, OnTurn(s, i, ok))
  {
    hide OnSend, OnSaveKey, OnCheckDrift, OnApply, OnDrop, Save, Proven;
    match s.runs[i].pc
    case CheckDrift => PartsKeepMaterial(s, i, Complete, Drop);
    case Apply => PartsKeepMaterial(s, i, Complete, Drop);
    case Drop => PartsKeepMaterial(s, i, Complete, Drop);
    case SavePhase => PartsKeepMaterial(s, i, BrokerConfirmed, Prove);
    case SaveCleanup => PartsKeepMaterial(s, i, LocalCleanup, SaveComplete);
    case SaveComplete => PartsKeepMaterial(s, i, Complete, Drop);
    case _ =>
  }

  lemma PartsKeepMaterial(s: State, i: nat, phase: Phase, next: Pc)
    requires i < |s.runs|
    ensures SameMaterial(s, OnCheckDrift(s, i)) && SameMaterial(s, OnApply(s, i))
    ensures SameMaterial(s, OnDrop(s, i)) && SameMaterial(s, Save(s, i, phase, next))
  {
    hide Doc, Junk;
  }

  lemma StepStaysBelow(s: State, e: Event)
    requires Below(s) && Sound(s)
    ensures Below(Step(s, e))
  {
    match e
    case Turn(i, ok) =>
      if i < |s.runs| {
        SoundParts(s, i);
        TurnStaysBelow(s, i, ok);
      }
    case ReplyLost(i) =>
      if i < |s.runs| && s.runs[i].pc.Send? {
        SoundParts(s, i);
        TurnStaysBelow(s, i, true);
      }
    case _ => hide Sound, Doc, Junk, Logged;
  }

  lemma {:induction false} StepsStayBelow(s: State, es: seq<Event>)
    requires Below(s) && Sound(s)
    ensures Below(Steps(s, es))
    decreases |es|
  {
    hide Step, Sound, Below;
    if es != [] {
      StepKeepsSound(s, es[0]);
      StepStaysBelow(s, es[0]);
      StepsStayBelow(Step(s, es[0]), es[1..]);
    }
  }

  /** A record that nobody has seen anything of. */
  ghost predicate New(s: State, c: Record) {
    && !c.confirmed && c.phase == Staged && c.generation == |s.keys|
    && c.staging !in s.identity && c.material !in s.keys && c.material !in s.broker
  }

  /** From every reachable state: two succeeding turns of a run that is about to send the staged material
      replace the staging exactly if its slot is lost at the broker and a winner's key is here, and then by a
      new one at the next generation. Nothing else replaces material. */
  lemma LostSlotIsRestaged(es: seq<Event>, i: nat)
    requires var s := Steps(Initial, es);
      && s.store.Some? && i < |s.runs| && s.runs[i].pc.Send? && !s.runs[i].mine.confirmed
      && s.runs[i].mine.staging == s.store.value.staging
    ensures var s := Steps(Initial, es); var r, t := s.store.value, Turns(s, i, 2);
      && t.store.Some?
      && (t.store.value.staging != r.staging <==> Lost(s, r) && |s.keys| > r.generation)
      && (t.store.value.staging != r.staging ==> New(s, t.store.value))
  {
    var s := Steps(Initial, es);
    StepsKeepSound(Initial, es);
    StepsStayBelow(Initial, es);
    SoundParts(s, i);
    hide Sound, Steps, Accounted, Logged, Enforced, Doc, Junk;
    RestagingTurns(s, i);
  }

  lemma SendDecides(s: State, i: nat)
    requires i < |s.runs| && RunSound(s.runs[i], s) && s.runs[i].pc.Send? && !s.runs[i].mine.confirmed
    ensures var r, t := s.runs[i].mine, OnTurn(s, i, true);
      |t.runs| == |s.runs| && t.runs[i] == s.runs[i].(pc := t.runs[i].pc) && t.store == s.store
      && t.runs[i].pc == if Lost(s, r) && |s.keys| > r.generation then Restage(Candidate(s))
                         else if Lost(s, r) || r.generation > |s.broker| then Gone else Mark
  {
    hide Accounted, Logged, Enforced, Doc, Junk;
  }

  lemma RestagingTurns(s: State, i: nat)
    requires i < |s.runs| && s.store.Some? && RunSound(s.runs[i], s) && RecordSound(s.store.value, s) && Below(s)
    requires s.runs[i].pc.Send? && !s.runs[i].mine.confirmed && s.runs[i].mine.staging == s.store.value.staging
    ensures var r, t := s.store.value, Turns(s, i, 2);
      && t.store.Some?
      && (t.store.value.staging != r.staging <==> Lost(s, r) && |s.keys| > r.generation)
      && (t.store.value.staging != r.staging ==> New(s, t.store.value))
  {
    SendDecides(s, i);
    assert s.runs[i].mine.generation == s.store.value.generation && s.runs[i].mine.material == s.store.value.material;
    var t := OnTurn(s, i, true);
    AfterSending(t, i);
    var u := OnTurn(t, i, true);
    hide OnTurn, RunSound;
    assert Turns(s, i, 2) == Turns(t, i, 1) == Turns(u, i, 0) == u;
  }

  lemma AfterSending(s: State, i: nat)
    requires i < |s.runs| && s.store.Some? && s.runs[i].mine.staging == s.store.value.staging
    ensures var t, pc := OnTurn(s, i, true), s.runs[i].pc;
      && |t.runs| == |s.runs|
      && (pc.Restage? ==> t.store == Some(pc.candidate))
      && (pc.Gone? || pc.Mark? ==> t.store.Some? && t.store.value.staging == s.store.value.staging)
  {
    hide OnSend, OnApply, OnCheckDrift, OnSaveKey, OnDrop, Save, Doc, Junk;
    if s.runs[i].pc.Restage? || s.runs[i].pc.Gone? || s.runs[i].pc.Mark? {
    } else {
      TurnKeepsTheRest(s, i, true);
    }
  }

  // ---------------------------------------------------------------- when recovery can finish

  predicate Uncommitted(s: State) {
    && s.store.Some? && s.store.value.confirmed
    && (s.store.value.phase == Staged || s.store.value.phase == BrokerConfirmed)
  }

  /** The live keys have not moved beyond the staged generation. */
  predicate NotOvertaken(s: State)
  {
    && s.store.Some?
    && var r := s.store.value;
      |s.keys| == r.generation || (|s.keys| == r.generation + 1 && s.keys[r.generation] == r.material)
  }

  /** No run can still write for this staging: all of them are gone or yet to pass the drift check. */
  ghost predicate Quiet(s: State) {
    s.store.Some? && forall i :: 0 <= i < |s.runs| && s.runs[i].mine.staging == s.store.value.staging ==>
      var pc := s.runs[i].pc;
      pc.Gone? || (s.runs[i].mine.confirmed && (pc.Bind? || pc.Send? || pc.SavePhase? || pc.Prove? || pc.CheckDrift?))
  }

  function Turns(s: State, i: nat, n: nat): State
    decreases n
  {
    if n == 0 || i >= |s.runs| then s else Turns(OnTurn(s, i, true), i, n - 1)
  }

  lemma SoundParts(s: State, i: nat)
    ensures Sound(s) ==>
      && (i < |s.runs| ==> RunSound(s.runs[i], s))
      && (s.store.Some? ==> RecordSound(s.store.value, s))
  {
  }

  lemma OvertakenTurn(s: State, i: nat, ok: bool)
    requires Sound(s) && Uncommitted(s) && Quiet(s) && !NotOvertaken(s) && i < |s.runs|
    ensures var t := OnTurn(s, i, ok);
      && Uncommitted(t) && !NotOvertaken(t) && Quiet(t)
      && t.store.value.staging == s.store.value.staging
  {
    hide Accounted, Logged, Enforced, Doc, Junk, Sound;
    SoundParts(s, i);
  }

  lemma OvertakenStep(s: State, e: Event)
    requires Sound(s) && Uncommitted(s) && Quiet(s) && !NotOvertaken(s) && !e.Abandon?
    ensures var t := Step(s, e);
      && Uncommitted(t) && !NotOvertaken(t) && Quiet(t)
      && t.store.value.staging == s.store.value.staging
  {
    assert RecordSound(s.store.value, s);
    match e
    case Turn(i, ok) => if i < |s.runs| { OvertakenTurn(s, i, ok); }
    case ReplyLost(i) =>
      if i < |s.runs| && s.runs[i].pc.Send? {
        OvertakenTurn(s, i, true);
        OvertakenTurn(s, i, false);
        assert RunSound(s.runs[i], s);
      }
    case _ =>
  }

  /** Once a rotation has overtaken a confirmed, uncommitted staging that no run has in hand, no retry, no
      restart and no further rotation ever completes it: only an explicit abandon removes the record. */
  lemma {:induction false} OvertakenNeverCompletes(s: State, es: seq<Event>)
    requires Sound(s) && Uncommitted(s) && Quiet(s) && !NotOvertaken(s)
    requires forall k :: 0 <= k < |es| ==> !es[k].Abandon?
    ensures Steps(s, es).store.Some? && Steps(s, es).store.value.staging == s.store.value.staging
    decreases |es|
  {
    if es != [] {
      StepKeepsSound(s, es[0]);
      OvertakenStep(s, es[0]);
      OvertakenNeverCompletes(Step(s, es[0]), es[1..]);
    }
  }

  lemma UpToActivation(s: State, observer: nat)
    requires Sound(s) && Uncommitted(s) && NotOvertaken(s)
    ensures var i := |s.runs|;
      var t := Turns(OnBegin(s, observer), i, 5);
      var u := if t.runs[i].pc.SaveKey? then OnTurn(t, i, true) else t;
      && i < |OnBegin(s, observer).runs| && i < |t.runs|
      && i < |u.runs| && u.runs[i].pc == Apply && Sound(u)
      && u.store == Some(s.store.value.(phase := BrokerConfirmed)) && u.runs[i].mine == u.store.value
  {
    var i := |s.runs|;
    BeginIsSound(s, observer);
    var t0 := OnBegin(s, observer);
    var t1 := OnTurn(t0, i, true); TurnKeepsSound(t0, i, true);
    var t2 := OnTurn(t1, i, true); TurnKeepsSound(t1, i, true);
    var t3 := OnTurn(t2, i, true); TurnKeepsSound(t2, i, true);
    var t4 := OnTurn(t3, i, true); TurnKeepsSound(t3, i, true);
    var t5 := OnTurn(t4, i, true); TurnKeepsSound(t4, i, true);
    assert Turns(t0, i, 5) == Turns(t1, i, 4) == Turns(t2, i, 3) == Turns(t3, i, 2) == Turns(t4, i, 1) == t5;
    TurnKeepsSound(t5, i, true);
  }

  lemma TurnKeepsRuns(s: State, i: nat, ok: bool)
    requires i < |s.runs|
    ensures |OnTurn(s, i, ok).runs| == |s.runs|
  {
    hide Doc, Junk, Installed, Proven, Candidate;
    if !s.runs[i].pc.Send? { hide OnSend; }
  }

  lemma {:induction false} TurnsConcat(s: State, i: nat, m: nat, n: nat)
    requires i < |s.runs|
    ensures i < |Turns(s, i, m).runs| && Turns(s, i, m + n) == Turns(Turns(s, i, m), i, n)
    decreases m
  {
    hide OnTurn;
    if m > 0 {
      TurnKeepsRuns(s, i, true);
      TurnsConcat(OnTurn(s, i, true), i, m - 1, n);
    }
  }

  /** What the commit of run `i` is about to log. */
  function Logs(s: State, i: nat): set<nat>
    requires i < |s.runs|
  {
    var g, doc := s.runs[i].mine.generation, Doc(s, s.runs[i].observer);
    if g in Junk(s, s.runs[i].observer) || g in doc then doc else {g}
  }

  lemma ApplyTurns(s: State, i: nat)
    requires i < |s.runs| && s.runs[i].pc == Apply
    ensures var t := Turns(s, i, 2);
      i < |t.runs| && t.runs[i] == s.runs[i].(pc := Append(Logs(s, i))) && t.store == s.store && t.log == s.log
  {
    hide Doc, Junk;
    var t1 := OnTurn(s, i, true);
    assert t1.runs[i] == s.runs[i].(pc := Present(Logs(s, i)));
    hide Logs, OnApply;
    var t2 := OnTurn(t1, i, true);
    assert Turns(s, i, 2) == Turns(t1, i, 1) == t2;
  }

  lemma AppendTurns(s: State, i: nat, update: set<nat>)
    requires i < |s.runs| && s.runs[i].pc == Append(update)
    ensures var t := Turns(s, i, 2);
      && i < |t.runs| && t.runs[i] == s.runs[i].(pc := SaveCleanup) && t.store == s.store
      && t.log == s.log + [update]
  {
    var t1 := OnTurn(s, i, true);
    var t2 := OnTurn(t1, i, true);
    assert Turns(s, i, 2) == Turns(t1, i, 1) == t2;
  }

  lemma LoggingTurns(s: State, i: nat)
    requires i < |s.runs| && s.runs[i].pc == Apply
    ensures var t := Turns(s, i, 4);
      && i < |t.runs| && t.runs[i] == s.runs[i].(pc := SaveCleanup) && t.store == s.store
      && t.log == s.log + [Logs(s, i)]
  {
    hide OnTurn, Turns, Logs;
    ApplyTurns(s, i);
    AppendTurns(Turns(s, i, 2), i, Logs(s, i));
    TurnsConcat(s, i, 2, 2);
  }

  lemma CleanupTurns(s: State, i: nat)
    requires i < |s.runs| && s.runs[i].pc == SaveCleanup && s.store == Some(s.runs[i].mine)
    ensures var t := Turns(s, i, 3); t.store == None && s.store.value.generation in t.dropped && t.log == s.log
  {
    hide OnSend, OnApply, OnCheckDrift, OnSaveKey;
    var t := OnTurn(s, i, true);
    var u := OnTurn(t, i, true);
    var v := OnTurn(u, i, true);
    assert Turns(s, i, 3) == Turns(t, i, 2) == Turns(u, i, 1) == Turns(v, i, 0) == v;
  }

  lemma FromActivation(s: State, i: nat)
    requires i < |s.runs| && s.runs[i].pc == Apply && s.store == Some(s.runs[i].mine)
    ensures var t := Turns(s, i, 7);
      t.store == None && s.store.value.generation in t.dropped && t.log == s.log + [Logs(s, i)]
  {
    hide OnTurn, Turns, Logs;
    LoggingTurns(s, i);
    CleanupTurns(Turns(s, i, 4), i);
    TurnsConcat(s, i, 4, 3);
  }

  ghost predicate Completable(s: State) {
    exists es: seq<Event> :: (forall k :: 0 <= k < |es| ==> !es[k].Abandon?) && Steps(s, es).store.None?
  }

  /** Nothing but runs of this device, all of whose calls succeed. */
  ghost predicate Driven(es: seq<Event>) {
    forall k :: 0 <= k < |es| ==> es[k].Begin? || (es[k].Turn? && es[k].ok)
  }

  lemma {:induction false} TurnsAreSteps(s: State, i: nat, n: nat) returns (es: seq<Event>)
    requires i < |s.runs|
    ensures Steps(s, es) == Turns(s, i, n) && Driven(es)
    decreases n
  {
    hide OnTurn, OnBegin;
    if n == 0 {
      es := [];
    } else {
      TurnKeepsRuns(s, i, true);
      var rest := TurnsAreSteps(OnTurn(s, i, true), i, n - 1);
      es := [Turn(i, true)] + rest;
    }
  }

  lemma {:induction false} StepsConcat(s: State, a: seq<Event>, b: seq<Event>)
    ensures Steps(s, a + b) == Steps(Steps(s, a), b)
    decreases |a|
  {
    if a == [] {
      assert a + b == b;
    } else {
      assert (a + b)[1..] == a[1..] + b;
      StepsConcat(Step(s, a[0]), a[1..], b);
    }
  }

  lemma ReachesTheCommit(s: State, observer: nat) returns (n: nat)
    requires Sound(s) && Uncommitted(s) && NotOvertaken(s)
    ensures var i := |s.runs|; var t0 := OnBegin(s, observer); var u := Turns(t0, i, n);
      && i < |t0.runs| && i < |u.runs| && u.runs[i].pc == Apply && u.store == Some(u.runs[i].mine)
      && u.store.value.generation == s.store.value.generation
  {
    hide OnTurn, OnBegin, Sound, Uncommitted, NotOvertaken;
    var i := |s.runs|;
    UpToActivation(s, observer);
    var t0 := OnBegin(s, observer);
    n := if Turns(t0, i, 5).runs[i].pc.SaveKey? then 6 else 5;
    TurnsConcat(t0, i, 5, n - 5);
    assert n == 6 ==> Turns(t0, i, n) == Turns(OnTurn(Turns(t0, i, 5), i, true), i, 0);
  }

  /** A fresh recovery pass whose calls all succeed completes the removal. */
  lemma RecoveryCompletes(s: State, observer: nat) returns (es: seq<Event>)
    requires Sound(s) && Uncommitted(s) && NotOvertaken(s)
    ensures Driven(es)
    ensures Steps(s, es).store.None? && s.store.value.generation in Steps(s, es).dropped
  {
    hide OnTurn, OnBegin, Sound, Turns, NotOvertaken;
    var i := |s.runs|;
    var n := ReachesTheCommit(s, observer);
    var t0 := OnBegin(s, observer);
    FromActivation(Turns(t0, i, n), i);
    TurnsConcat(t0, i, n, 7);
    var turns := TurnsAreSteps(t0, i, n + 7);
    es := [Begin(observer)] + turns;
    assert es[1..] == turns;
  }

  /** A staging that is past its commit is cleaned up by a fresh pass. */
  lemma CleanupResumes(s: State, observer: nat) returns (es: seq<Event>)
    requires s.store.Some? && Late(s.store.value)
    ensures Driven(es) && Steps(s, es).store.None? && s.store.value.generation in Steps(s, es).dropped
  {
    hide Doc, Junk, Logged;
    var i := |s.runs|;
    var s1 := Step(s, Begin(observer));
    var s2 := Step(s1, Turn(i, true));
    if s.store.value.phase == Complete {
      es := [Begin(observer), Turn(i, true)];
      assert es[1..] == [es[1]] && es[1..][1..] == [];
      assert Steps(s, es) == Steps(s1, es[1..]) == Steps(s2, []) == s2;
    } else {
      var s3 := Step(s2, Turn(i, true));
      es := [Begin(observer), Turn(i, true), Turn(i, true)];
      assert es[1..] == [es[1], es[2]] && es[1..][1..] == [es[2]] && es[1..][1..][1..] == [];
      assert Steps(s, es) == Steps(s1, es[1..]) == Steps(s2, [es[2]]) == Steps(s3, []) == s3;
    }
  }

  /** An unconfirmed staging before its commit, in a slot that is free, or already its own as the newest one,
      at the broker and where it is here. */
  predicate SlotIsOpen(s: State) {
    && s.store.Some? && !s.store.value.confirmed && !Late(s.store.value)
    && var r := s.store.value;
    && |s.keys| == |s.broker|
    && (r.generation == |s.broker|
        || (r.generation + 1 == |s.broker| && s.broker[r.generation] == r.material == s.keys[r.generation]))
  }

  lemma ThreeTurns(s: State, observer: nat) returns (es: seq<Event>)
    ensures Driven(es)
    ensures Steps(s, es) == Turns(OnBegin(s, observer), |s.runs|, 3)
  {
    hide OnTurn, OnBegin;
    BeginAdds(s, observer);
    var turns := TurnsAreSteps(OnBegin(s, observer), |s.runs|, 3);
    es := [Begin(observer)] + turns;
    assert es[1..] == turns;
  }

  lemma BeginAdds(s: State, observer: nat)
    ensures |OnBegin(s, observer).runs| == |s.runs| + 1
  {
  }

  lemma OpenSlotIsConfirmed(s: State, observer: nat) returns (es: seq<Event>)
    requires Sound(s) && SlotIsOpen(s)
    ensures Driven(es)
    ensures var t := Steps(s, es);
      Sound(t) && Uncommitted(t) && NotOvertaken(t) && t.store.value.generation == s.store.value.generation
  {
    es := ThreeTurns(s, observer);
    StepsKeepSound(s, es);
    hide Doc, Junk, Logged, Accounted, Enforced, Sound;
    var i := |s.runs|;
    var t0 := OnBegin(s, observer);
    assert t0.runs[i] == Run(observer, Bind, s.store.value);
    var t1 := OnTurn(t0, i, true);
    var t2 := OnTurn(t1, i, true);
    var t3 := OnTurn(t2, i, true);
    assert Turns(t0, i, 3) == Turns(t1, i, 2) == Turns(t2, i, 1) == Turns(t3, i, 0) == t3;
  }

  lemma LostSlotAsksAgain(s: State, i: nat)
    requires i < |s.runs| && !s.runs[i].mine.confirmed
    requires Lost(s, s.runs[i].mine) && |s.keys| > s.runs[i].mine.generation
    ensures OnSend(s, i) == Go(Mint(s), i, Restage(Candidate(s)))
  {
  }

  lemma ReplacingTurns(s: State, i: nat)
    requires i < |s.runs| && s.runs[i].pc.Send? && s.store == Some(s.runs[i].mine) && !s.runs[i].mine.confirmed
    requires Lost(s, s.runs[i].mine) && |s.keys| > s.runs[i].mine.generation
    ensures var t := Turns(s, i, 2); t.store == Some(Candidate(s)) && t.keys == s.keys && t.broker == s.broker
  {
    hide Doc, Junk, OnApply, OnCheckDrift, OnSaveKey, OnDrop, Save, Proven;
    LostSlotAsksAgain(s, i);
    hide OnSend, Lost;
    var t := OnTurn(s, i, true);
    assert t == OnSend(s, i);
    var u := OnTurn(t, i, true);
    assert Turns(s, i, 2) == Turns(t, i, 1) == Turns(u, i, 0) == u;
  }

  lemma BindingTurn(s: State, observer: nat)
    requires s.store.Some? && !Late(s.store.value)
    ensures var i := |s.runs|; var t := Turns(OnBegin(s, observer), i, 1);
      && |OnBegin(s, observer).runs| == i + 1 == |t.runs| && t.runs[i] == Run(observer, Send, s.store.value)
      && t.store == s.store && t.keys == s.keys && t.broker == s.broker
  {
    hide OnSend, Doc, Junk;
    var i := |s.runs|;
    var t0 := OnBegin(s, observer);
    assert t0.runs[i] == Run(observer, Bind, s.store.value);
    var t := OnTurn(t0, i, true);
    assert Turns(t0, i, 1) == Turns(t, i, 0) == t;
  }

  lemma LostSlotIsReplaced(s: State, observer: nat) returns (es: seq<Event>)
    requires Sound(s) && s.store.Some? && !s.store.value.confirmed && !Late(s.store.value)
    requires |s.keys| == |s.broker| && Lost(s, s.store.value)
    ensures Driven(es)
    ensures var t := Steps(s, es);
      Sound(t) && SlotIsOpen(t) && t.keys == s.keys && t.broker == s.broker
      && t.store.value.generation > s.store.value.generation
  {
    es := ThreeTurns(s, observer);
    StepsKeepSound(s, es);
    hide OnTurn, OnBegin, Turns, Sound, Steps;
    var i, t0 := |s.runs|, OnBegin(s, observer);
    BindingTurn(s, observer);
    TurnsConcat(t0, i, 1, 2);
    ReplacingTurns(Turns(t0, i, 1), i);
  }

  lemma OpenSlotCompletes(s: State, observer: nat) returns (es: seq<Event>)
    requires Sound(s) && SlotIsOpen(s)
    ensures Driven(es)
    ensures Steps(s, es).store.None? && s.store.value.generation in Steps(s, es).dropped
  {
    hide Step, Sound, SlotIsOpen, Uncommitted, NotOvertaken;
    var up := OpenSlotIsConfirmed(s, observer);
    var rest := RecoveryCompletes(Steps(s, up), observer);
    StepsConcat(s, up, rest);
    es := up + rest;
  }

  /** With the broker's keys here, and no slot that is its own there and another's here. */
  predicate Level(s: State) {
    && |s.keys| == |s.broker|
    && (s.store.Some? ==>
          var r := s.store.value;
          r.generation + 1 == |s.broker| && s.broker[r.generation] == r.material ==> s.keys[r.generation] == r.material)
  }

  lemma LevelCompletes(s: State, observer: nat) returns (es: seq<Event>)
    requires Sound(s) && s.store.Some? && !s.store.value.confirmed && Level(s)
    ensures Driven(es)
    ensures Steps(s, es).store.None?
    ensures exists g :: g in Steps(s, es).dropped && g >= s.store.value.generation
  {
    SoundParts(s, 0);
    hide Step, Sound;
    var r := s.store.value;
    if Late(r) {
      es := CleanupResumes(s, observer);
    } else if Lost(s, r) {
      var up := LostSlotIsReplaced(s, observer);
      var rest := OpenSlotCompletes(Steps(s, up), observer);
      StepsConcat(s, up, rest);
      es := up + rest;
      assert Steps(s, up).store.value.generation in Steps(s, es).dropped;
    } else {
      assert SlotIsOpen(s);
      es := OpenSlotCompletes(s, observer);
    }
  }

  /** Rotations of others, and their arrival here. */
  ghost predicate Foreign(es: seq<Event>) {
    forall k :: 0 <= k < |es| ==> es[k].ForeignRotation? || es[k].ImportRotation?
  }

  lemma {:induction false} LevelsOut(s: State) returns (es: seq<Event>)
    requires Sound(s)
    ensures Foreign(es) && (Level(s) ==> es == [])
    ensures var t := Steps(s, es); Sound(t) && Level(t) && t.store == s.store
    decreases if |s.keys| < |s.broker| then |s.broker| - |s.keys| else |s.keys| - |s.broker|,
      if |s.keys| == |s.broker| && !Level(s) then 1 else 0
  {
    if Level(s) {
      es := [];
    } else if |s.keys| == |s.broker| {
      var s1, s2 := Step(s, ForeignRotation), Step(Step(s, ForeignRotation), ImportRotation);
      StepKeepsSound(s, ForeignRotation);
      StepKeepsSound(s1, ImportRotation);
      es := [ForeignRotation, ImportRotation];
      assert es[1..] == [ImportRotation] && es[1..][1..] == [];
      assert Steps(s, es) == Steps(s1, es[1..]) == Steps(s2, []) == s2;
    } else {
      var e := if |s.keys| < |s.broker| then ImportRotation else ForeignRotation;
      StepKeepsSound(s, e);
      var rest := LevelsOut(Step(s, e));
      es := [e] + rest;
      assert es[1..] == rest;
    }
  }

  /** No unconfirmed staging is stranded. Where the local keys are level with the broker, runs of this device
      whose calls succeed complete it, or the one that replaces it in a later slot; anywhere else they do once
      rotations of others have arrived. */
  lemma UnconfirmedCompletes(s: State, observer: nat) returns (before: seq<Event>, es: seq<Event>)
    requires Sound(s) && s.store.Some? && !s.store.value.confirmed
    ensures Foreign(before) && (s.keys == s.broker ==> before == []) && Driven(es)
    ensures var t := Steps(s, before + es);
      t.store.None? && exists g :: g in t.dropped && g >= s.store.value.generation
  {
    before := LevelsOut(s);
    hide Step, Sound;
    es := LevelCompletes(Steps(s, before), observer);
    StepsConcat(s, before, es);
  }

  /** A staging can still be completed exactly unless it is confirmed, before its commit, and the live keys
      have moved beyond it; provided, in that case, that no run has it in hand. */
  lemma CompletableUnlessOvertaken(s: State)
    requires Sound(s) && s.store.Some? && (Uncommitted(s) ==> Quiet(s))
    ensures Completable(s) <==> !Uncommitted(s) || NotOvertaken(s)
  {
    if !s.store.value.confirmed {
      var before, es := UnconfirmedCompletes(s, 0);
      var all := before + es;
      assert forall k :: 0 <= k < |all| ==> !all[k].Abandon?;
    } else if !Uncommitted(s) {
      var es := CleanupResumes(s, 0);
    } else if NotOvertaken(s) {
      var es := RecoveryCompletes(s, 0);
    } else {
      forall es: seq<Event> | forall k :: 0 <= k < |es| ==> !es[k].Abandon? ensures Steps(s, es).store.Some? {
        OvertakenNeverCompletes(s, es);
      }
    }
  }

  function FirstRecord(confirmed: bool, phase: Phase): Record {
    Record(1, 1, 2, confirmed, phase)
  }

  lemma NextTurns()
    ensures var t := Turns(OnBegin(Initial, 0), 0, 8);
      && t.store == Some(FirstRecord(true, BrokerConfirmed)) && t.keys == [0, 2] == t.broker && t.dropped == {}
      && |OnBegin(Initial, 0).runs| == 1 && t.runs == [Run(0, Apply, FirstRecord(true, BrokerConfirmed))]
      && t.log == [] && t.docs == map[] == t.junk
  {
  }

  lemma SpoiledCommit(s: State)
    requires s.store == Some(FirstRecord(true, BrokerConfirmed)) && s.log == [] && s.docs == map[] == s.junk
    requires s.runs == [Run(0, Apply, FirstRecord(true, BrokerConfirmed))]
    ensures var u := Step(s, Spoil(0, 1));
      u.runs == s.runs && var t := Turns(u, 0, 7); 1 in t.dropped && t.log == [{}] && t.store == None
  {
    var u := Step(s, Spoil(0, 1));
    assert 1 in Junk(u, 0) && Doc(u, 0) == {};
    hide Turns;
    FromActivation(u, 0);
  }

  /** It does happen: a record that is no event lies under the key of the removal when its commit arrives.
      The staging is dropped, and the log holds one entry, without the removal. */
  lemma SpoiledKeyDropsUnlogged() returns (es: seq<Event>)
    ensures var s := Steps(Initial, es); 1 in s.dropped && s.log == [{}] && s.store == None
  {
    hide OnTurn, OnBegin, Turns;
    NextTurns();
    var turns := TurnsAreSteps(OnBegin(Initial, 0), 0, 8);
    var s := Turns(OnBegin(Initial, 0), 0, 8);
    SpoiledCommit(s);
    var rest := TurnsAreSteps(Step(s, Spoil(0, 1)), 0, 7);
    var later := [Spoil(0, 1)] + rest;
    assert later[1..] == rest;
    es := [Begin(0)] + (turns + later);
    assert es[1..] == turns + later;
    StepsConcat(OnBegin(Initial, 0), turns, later);
  }

  const Overtaking := [Crash(0, {}), ForeignRotation, ImportRotation]

  lemma CrashOvertakes(s: State)
    requires s.store == Some(FirstRecord(true, BrokerConfirmed)) && s.keys == [0, 2] == s.broker
    requires |s.runs| == 1 && s.runs[0].observer == 0
    ensures var t := Steps(s, Overtaking);
      Uncommitted(t) && Quiet(t) && !NotOvertaken(t) && t.dropped == s.dropped
  {
    hide OnTurn, OnBegin;
    assert Overtaking[1..][1..] == [ImportRotation];
    var t := Step(Step(Step(s, Overtaking[0]), Overtaking[1]), Overtaking[2]);
    assert Steps(s, Overtaking) == t;
  }

  /** Such a state is reached: the device crashes after activating its key and before logging the event,
      and another admin's next rotation arrives before the recovery pass. */
  lemma OvertakenIsReachable() returns (es: seq<Event>)
    ensures var s := Steps(Initial, es);
      Sound(s) && Uncommitted(s) && Quiet(s) && !NotOvertaken(s) && s.dropped == {}
  {
    assert Sound(Initial);
    hide OnTurn, OnBegin, Sound, Overtaking;
    NextTurns();
    var turns := TurnsAreSteps(OnBegin(Initial, 0), 0, 8);
    var s := Turns(OnBegin(Initial, 0), 0, 8);
    CrashOvertakes(s);
    es := [Begin(0)] + (turns + Overtaking);
    assert es[1..] == turns + Overtaking;
    StepsConcat(OnBegin(Initial, 0), turns, Overtaking);
    StepsKeepSound(Initial, es);
  }
}
