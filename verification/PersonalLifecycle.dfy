/** Start and destroy of the Personal-Doc log sync around an asynchronous, possibly hanging or failing
    coordinator build: a continuation that outlived its lifecycle must not attach anything. */
module PersonalLifecycle {
  /* Events are the stretches between two awaits, so start, destroy and start again interleave with every
     build. */
  import opened Common

  datatype BuildPc = Initing | Failing | Failed | Built

  datatype InitPc = Waiting | Installed | Dropped

  /** `on` is the build that `init` awaits, or `None` where the coordinator is there already. */
  datatype Init = Init(epoch: nat, on: Option<nat>, pc: InitPc)

  /** `handles` is the init whose unsubscribe functions and controller the fields hold, `live` the inits
      whose listeners are attached, `subscribed` those whose catch-up subscription is, `source` the one whose
      source the field holds. `coordinatorInit` is the single-flight promise; `assignments` counts the
      assignments to `coordinator`. */
  datatype State = State(
    started: bool, epoch: nat, coordinator: Option<nat>, coordinatorInit: Option<nat>,
    builds: seq<BuildPc>, inits: seq<Init>,
    handles: Option<nat>, live: set<nat>, source: Option<nat>, subscribed: set<nat>, assignments: nat)

  datatype Event = Start | Destroy | StoreInit(build: nat, ok: bool) | Caught(build: nat) | Resume(init: nat)

  const Initial := State(false, 0, None, None, [], [], None, {}, None, {}, 0)

  /** The synchronous part of `init`, inside `start`. */
  function OnStart(s: State): State {
    if s.started then s
    else if s.coordinator.Some? then
      s.(started := true, inits := s.inits + [Init(s.epoch, None, Waiting)])
    else if s.coordinatorInit.Some? then
      s.(started := true, inits := s.inits + [Init(s.epoch, s.coordinatorInit, Waiting)])
    else
      var b := |s.builds|;
      s.(started := true, builds := s.builds + [Initing], coordinatorInit := Some(b),
         inits := s.inits + [Init(s.epoch, Some(b), Waiting)])
  }

  function Without(s: set<nat>, x: Option<nat>): set<nat> {
    if x.Some? then s - {x.value} else s
  }

  function OnDestroy(s: State): State {
    s.(epoch := s.epoch + 1, started := false,
       subscribed := Without(s.subscribed, s.source), source := None,
       live := Without(s.live, s.handles), handles := None)
  }

  function OnStoreInit(s: State, b: nat, ok: bool): State {
    if b >= |s.builds| || s.builds[b] != Initing then s
    else if ok then s.(builds := s.builds[b := Built], coordinator := Some(b), assignments := s.assignments + 1)
    else s.(builds := s.builds[b := Failing])
  }

  /** The `catch` of the single flight. */
  function OnCaught(s: State, b: nat): State {
    if b >= |s.builds| || s.builds[b] != Failing then s
    else s.(builds := s.builds[b := Failed], coordinatorInit := None)
  }

  /** Claims the catch-up source, then attaches the listeners. */
  function Install(s: State, i: nat): State
    requires i < |s.inits|
  {
    s.(inits := s.inits[i := s.inits[i].(pc := Installed)],
       subscribed := Without(s.subscribed, s.source) + {i}, source := Some(i),
       live := s.live + {i}, handles := Some(i))
  }

  predicate CanResume(s: State, i: nat) {
    && i < |s.inits| && s.inits[i].pc.Waiting?
    && var on := s.inits[i].on;
    (on.Some? ==> on.value < |s.builds| && (s.builds[on.value] == Built || s.builds[on.value] == Failed))
  }

  predicate BuildFailed(s: State, i: nat)
    requires CanResume(s, i)
  {
    var on := s.inits[i].on;
    on.Some? && s.builds[on.value] == Failed
  }

  function OnResume(s: State, i: nat): State {
    if !CanResume(s, i) then s
    else if BuildFailed(s, i) || s.inits[i].epoch != s.epoch || !s.started
    then s.(inits := s.inits[i := s.inits[i].(pc := Dropped)])
    else Install(s, i)
  }

  function Step(s: State, e: Event): State {
    match e
    case Start => OnStart(s)
    case Destroy => OnDestroy(s)
    case StoreInit(b, ok) => OnStoreInit(s, b, ok)
    case Caught(b) => OnCaught(s, b)
    case Resume(i) => OnResume(s, i)
  }

  function Run(s: State, es: seq<Event>): State
    decreases |es|
  {
    if es == [] then s else Run(Step(s, es[0]), es[1..])
  }

  // ---------------------------------------------------------------- every reachable state

  predicate BuildInFlight(s: State, b: nat) {
    b < |s.builds| && (s.builds[b] == Initing || s.builds[b] == Failing)
  }

  /** The init of the current lifecycle, if it was started. */
  predicate Current(s: State, i: nat) {
    s.started && s.inits != [] && i == |s.inits| - 1
  }

  ghost predicate LifecycleSound(s: State) {
    && (forall i :: 0 <= i < |s.inits| ==>
          if s.started && i == |s.inits| - 1 then s.inits[i].epoch == s.epoch else s.inits[i].epoch < s.epoch)
    && (s.started ==> s.inits != [])
    && (s.handles.Some? <==> s.started && s.inits[|s.inits| - 1].pc.Installed?)
    && (s.handles.Some? ==> Current(s, s.handles.value))
    && s.source == s.handles
    && s.live == (if s.handles.Some? then {s.handles.value} else {})
    && s.subscribed == s.live
  }

  ghost predicate BuildsSound(s: State) {
    && (s.coordinatorInit.Some? ==> s.coordinatorInit.value < |s.builds|)
    && (forall b :: 0 <= b < |s.builds| ==>
          (s.builds[b] == Initing || s.builds[b] == Failing ==> s.coordinatorInit == Some(b) && s.coordinator.None?))
    && (s.coordinatorInit.Some? ==> s.builds[s.coordinatorInit.value] != Failed)
    && (s.coordinator.None? ==> s.assignments == 0 && forall b :: 0 <= b < |s.builds| ==> s.builds[b] != Built)
    && (s.coordinator.Some? ==> s.assignments == 1)
    && (forall i :: 0 <= i < |s.inits| && s.inits[i].on.Some? ==> s.inits[i].on.value < |s.builds|)
  }

  /** The store init that the current lifecycle waited for has thrown. */
  predicate ItsBuildFailed(s: State) {
    && s.started && s.inits != []
    && var on := s.inits[|s.inits| - 1].on;
    on.Some? && on.value < |s.builds| && (s.builds[on.value] == Failing || s.builds[on.value] == Failed)
  }

  ghost predicate OutcomesSound(s: State) {
    s.started && s.inits != [] ==>
      var init := s.inits[|s.inits| - 1];
      && (init.pc.Dropped? ==> ItsBuildFailed(s))
      && (init.pc.Installed? && init.on.Some? ==> init.on.value < |s.builds| && s.builds[init.on.value] == Built)
  }

  lemma StepKeepsLifecycle(s: State, e: Event)
    requires LifecycleSound(s)
    ensures LifecycleSound(Step(s, e))
  {
  }

  lemma PartsKeepBuilds(s: State, b: nat, ok: bool)
    ensures BuildsSound(s) ==>
      BuildsSound(OnStart(s)) && BuildsSound(OnStoreInit(s, b, ok)) && BuildsSound(OnCaught(s, b))
  {
  }

  lemma ResumeKeepsBuilds(s: State, i: nat)
    ensures BuildsSound(s) ==> BuildsSound(OnResume(s, i))
  {
  }

  lemma StepKeepsBuilds(s: State, e: Event)
    requires BuildsSound(s)
    ensures BuildsSound(Step(s, e))
  {
    hide OnStart, OnStoreInit, OnCaught, OnResume;
    match e
    case Start => PartsKeepBuilds(s, 0, true);
    case StoreInit(b, ok) => PartsKeepBuilds(s, b, ok);
    case Caught(b) => PartsKeepBuilds(s, b, true);
    case Resume(i) => ResumeKeepsBuilds(s, i);
    case _ =>
  }

  lemma StepKeepsOutcomes(s: State, e: Event)
    requires LifecycleSound(s) && BuildsSound(s) && OutcomesSound(s)
    ensures OutcomesSound(Step(s, e))
    ensures ItsBuildFailed(s) && !e.Destroy? ==> ItsBuildFailed(Step(s, e))
  {
  }

  lemma {:induction false} RunKeepsSound(s: State, es: seq<Event>)
    requires LifecycleSound(s) && BuildsSound(s) && OutcomesSound(s)
    ensures LifecycleSound(Run(s, es)) && BuildsSound(Run(s, es)) && OutcomesSound(Run(s, es))
    decreases |es|
  {
    hide Step, LifecycleSound, BuildsSound, OutcomesSound;
    if es != [] {
      StepKeepsLifecycle(s, es[0]);
      StepKeepsBuilds(s, es[0]);
      StepKeepsOutcomes(s, es[0]);
      RunKeepsSound(Step(s, es[0]), es[1..]);
    }
  }

  lemma Reachable(es: seq<Event>)
    ensures var s := Run(Initial, es); LifecycleSound(s) && BuildsSound(s) && OutcomesSound(s)
  {
    RunKeepsSound(Initial, es);
  }

  // ---------------------------------------------------------------- main results

  /** In any interleaving: at most one set of listeners and one catch-up subscription is attached, namely
      that of the current lifecycle's init, and exactly if that init has finished; the fields always hold
      the handles to detach it; the coordinator is assigned at most once; and at most one build runs. */
  lemma OneLiveListenerSet(es: seq<Event>)
    ensures var s := Run(Initial, es);
      && (s.live != {} <==> s.started && s.inits != [] && s.inits[|s.inits| - 1].pc.Installed?)
      && (forall i :: i in s.live ==> s.live == {i} && Current(s, i) && s.handles == Some(i))
      && s.subscribed == s.live
      && s.assignments <= 1
      && (forall a, b :: BuildInFlight(s, a) && BuildInFlight(s, b) ==> a == b)
  {
    Reachable(es);
  }

  /** After a destroy nothing is attached, and nothing gets attached before the next start, however many old
      continuations still resume. */
  lemma {:induction false} NothingLivesAfterDestroy(s: State, es: seq<Event>)
    requires LifecycleSound(s) && (forall k :: 0 <= k < |es| ==> !es[k].Start?)
    ensures Run(OnDestroy(s), es).live == {} == Run(OnDestroy(s), es).subscribed
  {
    StepKeepsLifecycle(s, Destroy);
    StaysDown(OnDestroy(s), es);
  }

  lemma {:induction false} StaysDown(s: State, es: seq<Event>)
    requires LifecycleSound(s) && !s.started && (forall k :: 0 <= k < |es| ==> !es[k].Start?)
    ensures Run(s, es).live == {} == Run(s, es).subscribed
    decreases |es|
  {
    if es != [] {
      StepKeepsLifecycle(s, es[0]);
      StaysDown(Step(s, es[0]), es[1..]);
    }
  }

  /** A failed build does not poison later ones: from any reachable state without a build in flight, a
      restart whose store init succeeds ends with the listeners of the new lifecycle attached, and it builds
      anew exactly if there is no coordinator yet. */
  lemma RestartSucceeds(es: seq<Event>)
    requires forall b :: !BuildInFlight(Run(Initial, es), b)
    ensures var s := Run(Initial, es);
      var t := OnStart(OnDestroy(s));
      var u := OnResume(OnStoreInit(t, |s.builds|, true), |s.inits|);
      && |t.builds| == |s.builds| + (if s.coordinator.None? then 1 else 0)
      && u.live == {|s.inits|} == u.subscribed && u.assignments == 1
  {
    Reachable(es);
    var s := Run(Initial, es);
    hide Run, OutcomesSound;
    assert s.coordinatorInit.Some? && !BuildInFlight(s, s.coordinatorInit.value) ==> s.coordinator.Some?;
    StepKeepsLifecycle(s, Destroy);
    StepKeepsLifecycle(OnDestroy(s), Start);
  }

  ghost predicate Undestroyed(es: seq<Event>) {
    forall k :: 0 <= k < |es| ==> !es[k].Destroy?
  }

  ghost predicate CanAttach(s: State) {
    exists es :: Undestroyed(es) && Run(s, es).live != {}
  }

  /** But it does cost the lifecycle it happened in. In every reachable state of a started adapter: some
      continuation without a destroy has listeners attached exactly if the build that the current init waits
      for has not failed; and the current init, once resumed, is dropped exactly if it has. `started` stays
      true, so that another start does nothing. */
  lemma FailedBuildStrandsItsLifecycle(es: seq<Event>)
    requires Run(Initial, es).started
    ensures var s := Run(Initial, es);
      && s.inits != [] && OnStart(s) == s
      && (CanAttach(s) <==> !ItsBuildFailed(s))
      && (!s.inits[|s.inits| - 1].pc.Waiting? ==> (s.inits[|s.inits| - 1].pc.Dropped? <==> ItsBuildFailed(s)))
  {
    Reachable(es);
    var s := Run(Initial, es);
    if ItsBuildFailed(s) {
      forall more | Undestroyed(more) ensures Run(s, more).live == {} {
        StaysStranded(s, more);
      }
    } else {
      AttachesIfItsBuildSucceeds(s);
    }
  }

  lemma {:induction false} StaysStranded(s: State, es: seq<Event>)
    requires LifecycleSound(s) && BuildsSound(s) && OutcomesSound(s) && ItsBuildFailed(s) && Undestroyed(es)
    ensures Run(s, es).live == {}
    decreases |es|
  {
    if es != [] {
      StepKeepsLifecycle(s, es[0]);
      StepKeepsBuilds(s, es[0]);
      StepKeepsOutcomes(s, es[0]);
      hide Step, LifecycleSound, BuildsSound, OutcomesSound, ItsBuildFailed;
      StaysStranded(Step(s, es[0]), es[1..]);
    }
  }

  lemma AttachesIfItsBuildSucceeds(s: State)
    requires LifecycleSound(s) && BuildsSound(s) && OutcomesSound(s) && s.started && !ItsBuildFailed(s)
    ensures CanAttach(s)
  {
    var i := |s.inits| - 1;
    var on := s.inits[i].on;
    if s.inits[i].pc.Installed? {
      assert Undestroyed([]) && Run(s, []).live == s.live;
    } else {
      var b := if on.Some? then on.value else 0;
      var es := [StoreInit(b, true), Resume(i)];
      var t := Step(s, es[0]);
      assert es[1..] == [es[1]] && es[1..][1..] == [];
      assert CanResume(t, i) && Step(t, es[1]) == Install(t, i);
      assert Run(s, es) == Run(t, es[1..]) == Run(Step(t, es[1]), []) == Install(t, i);
      assert i in Run(s, es).live && Undestroyed(es);
    }
  }

  // ---------------------------------------------------------------- one event at a time

  /** A start in an adapter that is not started launches one init, behind the coordinator that is there, the
      build under way, or a new one; a destroy ends the epoch. */
  lemma LifecyclesOfOneStep(s: State, e: Event)
    ensures var t, launches := Step(s, e), e.Start? && !s.started;
      && t.started == (!e.Destroy? && (s.started || e.Start?))
      && t.epoch == s.epoch + (if e.Destroy? then 1 else 0)
      && |t.inits| == |s.inits| + (if launches then 1 else 0)
      && |t.builds| == |s.builds| + (if launches && s.coordinator.None? && s.coordinatorInit.None? then 1 else 0)
      && (|t.builds| > |s.builds| ==> t.builds[|s.builds|] == Initing && t.coordinatorInit == Some(|s.builds|))
      && (launches ==>
            t.inits[|s.inits|] == Init(s.epoch, if s.coordinator.Some? then None else t.coordinatorInit, Waiting))
  {
  }

  /** A build ends as its store init did; a failed one is forgotten once its rejection was caught, and a
      coordinator is the build that made it. */
  lemma BuildsOfOneStep(s: State, e: Event, b: nat)
    requires b < |s.builds|
    ensures var t, was := Step(s, e), s.builds[b];
      && b < |t.builds|
      && (t.builds[b] == Built <==> was == Built || (was == Initing && e == StoreInit(b, true)))
      && (t.builds[b] == Failing <==>
            (was == Failing && e != Caught(b)) || (was == Initing && e == StoreInit(b, false)))
      && (t.builds[b] == Failed <==> was == Failed || (was == Failing && e == Caught(b)))
      && (was == Initing && e == StoreInit(b, true) ==> t.coordinator == Some(b))
      && (was == Failing && e == Caught(b) ==> t.coordinatorInit == None)
  {
  }

  /** What the init waits for is over, or was never needed. */
  predicate WaitIsOver(s: State, i: nat) {
    && i < |s.inits|
    && var on := s.inits[i].on;
    on.Some? ==> on.value < |s.builds| && (s.builds[on.value] == Built || s.builds[on.value] == Failed)
  }

  /** An init attaches exactly if it resumes in the lifecycle that started it, behind a build that did not fail;
      anything else that resumes is dropped. */
  lemma InitsOfOneStep(s: State, e: Event, i: nat)
    requires LifecycleSound(s) && i < |s.inits|
    ensures var t, resumes := Step(s, e), e == Resume(i) && s.inits[i].pc.Waiting? && WaitIsOver(s, i);
      && i < |t.inits| && t.inits[i].epoch == s.inits[i].epoch && t.inits[i].on == s.inits[i].on
      && (t.inits[i].pc.Waiting? <==> s.inits[i].pc.Waiting? && !resumes)
      && (resumes ==> (t.inits[i].pc.Installed? <==>
            Current(s, i) && (s.inits[i].on.Some? ==> s.builds[s.inits[i].on.value] == Built)))
  {
  }

  // ---------------------------------------------------------------- why the epoch is compared

  /** The check of the Automerge sibling's continuation, which only asks whether the adapter is started, put
      in the place of the epoch check. The builds stay those of this adapter: the sibling's own are not
      single-flight. */
  function ResumeIfStarted(s: State, i: nat): State {
    if !CanResume(s, i) then s
    else if BuildFailed(s, i) || !s.started then s.(inits := s.inits[i := s.inits[i].(pc := Dropped)])
    else Install(s, i)
  }

  /** Here that check installs what the epoch check would not exactly for the continuation of an older
      lifecycle in a started adapter, and the listeners it attaches then outlive the next destroy. */
  lemma EpochCheckIsNeeded(s: State, i: nat)
    requires LifecycleSound(s) && BuildsSound(s) && CanResume(s, i) && !BuildFailed(s, i)
    ensures ResumeIfStarted(s, i) != OnResume(s, i) <==> s.started && i < |s.inits| - 1
    ensures s.started && i < |s.inits| - 1 && s.handles.Some?
      ==> OnDestroy(ResumeIfStarted(s, i)).live == {s.handles.value}
  {
  }

  // ---------------------------------------------------------------- the class

  class LogSync {
    var started: bool
    var lifecycleEpoch: nat
    var coordinator: Option<nat>
    var coordinatorInit: Option<nat>
    var builds: seq<BuildPc>
    var inits: seq<Init>
    var handles: Option<nat>
    var live: set<nat>
    var catchUpSource: Option<nat>
    var subscribed: set<nat>
    var assignments: nat

    ghost function Model(): State
      reads this
    {
      State(started, lifecycleEpoch, coordinator, coordinatorInit, builds, inits, handles, live, catchUpSource,
            subscribed, assignments)
    }

    constructor ()
      ensures Model() == Initial
    {
      started, lifecycleEpoch, coordinator, coordinatorInit, builds, inits := false, 0, None, None, [], [];
      handles, live, catchUpSource, subscribed, assignments := None, {}, None, {}, 0;
    }

    /** Returns what the caller waits for. */
    method EnsureCoordinator() returns (on: Option<nat>)
      modifies `coordinatorInit, `builds
      ensures coordinator.Some? ==> on == None && builds == old(builds) && coordinatorInit == old(coordinatorInit)
      ensures coordinator.None? && old(coordinatorInit).Some?
        ==> on == old(coordinatorInit) == coordinatorInit && builds == old(builds)
      ensures coordinator.None? && old(coordinatorInit).None?
        ==> on == Some(|old(builds)|) == coordinatorInit && builds == old(builds) + [Initing]
    {
      if coordinator.Some? { return None; }
      if coordinatorInit.None? {
        coordinatorInit := Some(|builds|);
        builds := builds + [Initing];
      }
      on := coordinatorInit;
    }

    method Begin()
      modifies this
      ensures Model() == Step(old(Model()), Start)
    {
      if started { return; }
      started := true;
      var on := EnsureCoordinator();
      inits := inits + [Init(lifecycleEpoch, on, Waiting)];
    }

    method ClaimCatchUpSource(i: nat)
      modifies `catchUpSource, `subscribed
      ensures subscribed == Without(old(subscribed), old(catchUpSource)) + {i} && catchUpSource == Some(i)
    {
      if catchUpSource.Some? { subscribed := subscribed - {catchUpSource.value}; }
      catchUpSource := Some(i);
      subscribed := subscribed + {i};
    }

    /** The continuation of `init` behind its await. */
    method AfterCoordinator(i: nat)
      requires CanResume(Model(), i)
      modifies this
      ensures Model() == Step(old(Model()), Resume(i))
    {
      var on := inits[i].on;
      if (on.Some? && builds[on.value] == Failed) || inits[i].epoch != lifecycleEpoch || !started {
        inits := inits[i := inits[i].(pc := Dropped)];
        return;
      }
      inits := inits[i := inits[i].(pc := Installed)];
      ClaimCatchUpSource(i);
      live := live + {i};
      handles := Some(i);
    }

    method AfterStoreInit(b: nat, ok: bool)
      requires b < |builds| && builds[b] == Initing
      modifies this
      ensures Model() == Step(old(Model()), StoreInit(b, ok))
    {
      if ok {
        builds := builds[b := Built];
        coordinator := Some(b);
        assignments := assignments + 1;
      } else {
        builds := builds[b := Failing];
      }
    }

    method CatchFailure(b: nat)
      requires b < |builds| && builds[b] == Failing
      modifies this
      ensures Model() == Step(old(Model()), Caught(b))
    {
      builds := builds[b := Failed];
      coordinatorInit := None;
    }

    method End()
      modifies this
      ensures Model() == Step(old(Model()), Destroy)
    {
      lifecycleEpoch := lifecycleEpoch + 1;
      if catchUpSource.Some? { subscribed := subscribed - {catchUpSource.value}; }
      catchUpSource := None;
      if handles.Some? { live := live - {handles.value}; }
      handles := None;
      started := false;
    }
  }
}
