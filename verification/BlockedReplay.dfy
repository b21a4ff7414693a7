/** The coalesced replay of log entries that are parked until their key arrives, for one space: a call that
    finds a pass under way only marks the space, and the end of the pass runs one more for all the marks. */
module BlockedReplay {
  /* A throw ends a pass like its regular end does. Events are the stretches of code between two awaits. */
  import opened Common

  /** What the key of its generation makes of an entry: a change of this document's engine, nothing that
      decrypts, or a change of the other engine. */
  datatype Content = Good | Undecryptable | Foreign

  datatype Entry = Entry(id: nat, generation: nat, content: Content)

  /** A pass works through the snapshot it took at its start. `sample` is the key lookup for the entry in
      front, once it has been answered. */
  datatype Pass = Pass(queue: seq<Entry>, sample: Option<bool>, live: bool)

  datatype Lookup = Lookup(entry: Entry, available: bool)

  /** `lookups` are incoming entries between their key lookup and its consequence. `calls` counts the calls
      that found the space. Of the newest snapshot: `covered` are the calls made before it, `known` the keys
      that were there, `late` the parked entries that a missed lookup parked since, `cutOff` the parked
      entries that its pass still had ahead of it when it ended. */
  datatype State = State(
    present: bool, keys: set<nat>, parked: set<Entry>, lookups: set<Lookup>,
    inFlight: bool, dirty: bool, passes: seq<Pass>, calls: nat,
    covered: nat, known: set<nat>, late: set<Entry>, cutOff: set<Entry>)

  datatype Event =
    | Arrive(entry: Entry)
    | Land(lookup: Lookup)
    | Import(generation: nat)
    | Call
    | Look(pass: nat)
    | Settle(pass: nat)
    | Throw(pass: nat)
    | End(pass: nat)
    | CleanUp
    | Open

  const Initial := State(true, {}, {}, {}, false, false, [], 0, 0, {}, {}, {})

  ghost function SnapshotOf(parked: set<Entry>): (queue: seq<Entry>)
    ensures forall e :: e in queue <==> e in parked
  {
    if parked == {} then []
    else
      var e :| e in parked;
      [e] + SnapshotOf(parked - {e})
  }

  ghost function StartPass(s: State): State {
    s.(inFlight := true, passes := s.passes + [Pass(SnapshotOf(s.parked), None, true)],
       covered := s.calls, known := s.keys, late := {}, cutOff := {})
  }

  /** The synchronous part of `replayBlockedByKeyForSpace`. */
  ghost function TakeUp(s: State): State {
    if !s.present then s
    else if s.inFlight then s.(dirty := true)
    else StartPass(s)
  }

  ghost function OnCall(s: State): State {
    if s.present then TakeUp(s.(calls := s.calls + 1)) else s
  }

  /** After the pass, in `finally` and beyond: release the guard, then serve the marks. */
  ghost function Finish(s: State, i: nat): State
    requires i < |s.passes|
  {
    var t := s.(passes := s.passes[i := s.passes[i].(live := false)], inFlight := false,
                cutOff := set e | e in s.passes[i].queue && e in s.parked);
    if t.dirty then TakeUp(t.(dirty := false)) else t
  }

  /** Without its key, or where the key does not decrypt it, the entry is parked, again if need be; an applied
      one leaves; one of the other engine is skipped where it is. */
  function Parking(parked: set<Entry>, e: Entry, available: bool): set<Entry> {
    if !available || e.content.Undecryptable? then parked + {e}
    else if e.content.Good? then parked - {e}
    else parked
  }

  /** The pass is at the entry in front, whose lookup has been answered or not. */
  predicate AtEntry(s: State, i: nat, answered: bool) {
    i < |s.passes| && s.passes[i].live && s.passes[i].queue != [] && s.passes[i].sample.Some? == answered
  }

  function OnLook(s: State, i: nat): State {
    if !AtEntry(s, i, false) then s
    else
      var p := s.passes[i];
      s.(passes := s.passes[i := p.(sample := Some(p.queue[0].generation in s.keys))])
  }

  function OnSettle(s: State, i: nat): State {
    if !AtEntry(s, i, true) then s
    else
      var p := s.passes[i];
      s.(parked := Parking(s.parked, p.queue[0], p.sample.value),
         late := if p.sample.value && p.queue[0].content.Good? then s.late - {p.queue[0]} else s.late,
         passes := s.passes[i := Pass(p.queue[1..], None, true)])
  }

  ghost function Step(s: State, e: Event): State {
    match e
    case Arrive(entry) => s.(lookups := s.lookups + {Lookup(entry, entry.generation in s.keys)})
    case Land(l) =>
      if l in s.lookups
      then s.(lookups := s.lookups - {l}, parked := Parking(s.parked, l.entry, l.available),
              late := if !l.available then s.late + {l.entry}
                      else if l.entry.content.Good? then s.late - {l.entry} else s.late,
              cutOff := if l.available && l.entry.content.Good? then s.cutOff - {l.entry} else s.cutOff)
      else s
    case Import(g) => s.(keys := s.keys + {g})
    case Call => OnCall(s)
    case Look(i) => OnLook(s, i)
    case Settle(i) => OnSettle(s, i)
    case Throw(i) => if i < |s.passes| && s.passes[i].live then Finish(s, i) else s
    case End(i) => if i < |s.passes| && s.passes[i].live && s.passes[i].queue == [] then Finish(s, i) else s
    case CleanUp =>
      s.(present := false, parked := {}, inFlight := false, dirty := false, late := {}, cutOff := {})
    case Open => s.(present := true)
  }

  ghost function Run(s: State, es: seq<Event>): State
    decreases |es|
  {
    if es == [] then s else Run(Step(s, es[0]), es[1..])
  }

  // ---------------------------------------------------------------- every reachable state

  /** The flag is up exactly while one pass, the newest, is live; a mark needs a live pass; every call is
      covered by a snapshot at or after it, or by a mark that will cause one; and passes are paid for by
      calls. */
  ghost predicate Sound(s: State) {
    && (forall i :: 0 <= i < |s.passes| ==> (s.passes[i].live <==> s.inFlight && i == |s.passes| - 1))
    && (s.inFlight ==> s.passes != [])
    && (s.dirty ==> s.inFlight)
    && (s.present ==> s.covered == s.calls || s.dirty)
    && s.covered <= s.calls
    && |s.passes| + (if s.dirty then 1 else 0) <= s.calls
  }

  lemma StepKeepsSound(s: State, e: Event)
    ensures Sound(s) && !e.CleanUp? && !e.Open? ==> Sound(Step(s, e))
  {
  }

  /** At most one pass at a time, marks only during a pass, no call uncovered, no more passes than calls:
      over every interleaving of calls, imports, arrivals and passes, completed or thrown. */
  lemma {:induction false} EveryCallIsCovered(s: State, es: seq<Event>)
    requires s == Initial || Sound(s)
    requires forall k :: 0 <= k < |es| ==> !es[k].CleanUp? && !es[k].Open?
    ensures Sound(Run(s, es))
    decreases |es|
  {
    if es != [] {
      StepKeepsSound(s, es[0]);
      EveryCallIsCovered(Step(s, es[0]), es[1..]);
    }
  }

  /** With no pass under way, the newest snapshot was taken at or after the last call. */
  lemma QuiescenceIsCovered(es: seq<Event>)
    requires forall k :: 0 <= k < |es| ==> !es[k].CleanUp? && !es[k].Open?
    ensures var s := Run(Initial, es);
      !s.inFlight ==> s.covered == s.calls && !s.dirty && forall i :: 0 <= i < |s.passes| ==> !s.passes[i].live
  {
    EveryCallIsCovered(Initial, es);
    StaysPresent(Initial, es);
  }

  lemma {:induction false} StaysPresent(s: State, es: seq<Event>)
    requires s.present && forall k :: 0 <= k < |es| ==> !es[k].CleanUp?
    ensures Run(s, es).present
    decreases |es|
  {
    if es != [] { StaysPresent(Step(s, es[0]), es[1..]); }
  }

  // ---------------------------------------------------------------- nothing stays parked

  /** The entry can be replayed, and no lookup that missed its key is still on its way to park it. */
  predicate Replayable(s: State, e: Entry) {
    e.content.Good? && e.generation in s.keys && Lookup(e, false) !in s.lookups
  }

  function Newest(s: State): Pass {
    if s.inFlight && s.passes != [] then s.passes[|s.passes| - 1] else Pass([], None, false)
  }

  /** The running pass looked the entry up before its key came, and will park it again. */
  predicate Missed(p: Pass, e: Entry) {
    p.queue != [] && p.queue[0] == e && p.sample == Some(false)
  }

  /** Due for the pass after the running one; or else not about to be parked by it, and either unparked or
      still ahead of it. */
  predicate Due(s: State, e: Entry) {
    (s.inFlight && s.dirty) || (!Missed(Newest(s), e) && (e !in s.parked || e in Newest(s).queue))
  }

  /** The step ends a pass by a throw. */
  predicate Throws(s: State, e: Event) {
    e.Throw? && e.pass < |s.passes| && s.passes[e.pass].live
  }

  lemma DueStep(s: State, e: Event, x: Entry)
    ensures Sound(s) && s.present && Replayable(s, x) && Due(s, x) && !e.CleanUp? && !e.Open? && !Throws(s, e) ==>
      Replayable(Step(s, e), x) && Due(Step(s, e), x) && Step(s, e).present
  {
  }

  lemma {:induction false} DueRun(s: State, es: seq<Event>, x: Entry)
    requires Sound(s) && s.present && Replayable(s, x) && Due(s, x)
    requires forall k :: 0 <= k < |es| ==> !es[k].CleanUp? && !es[k].Open? && !es[k].Throw?
    ensures Sound(Run(s, es)) && Due(Run(s, es), x)
    decreases |es|
  {
    if es != [] {
      DueStep(s, es[0], x);
      StepKeepsSound(s, es[0]);
      DueRun(Step(s, es[0]), es[1..], x);
    }
  }

  /** From any reachable state: an entry whose key is there when a call is made is no longer parked as soon
      as no pass is under way, whatever arrives, is imported or is called in between. */
  lemma NothingReplayableStaysParked(before: seq<Event>, after: seq<Event>, x: Entry)
    requires forall k :: 0 <= k < |before| ==> !before[k].CleanUp? && !before[k].Open?
    requires forall k :: 0 <= k < |after| ==> !after[k].CleanUp? && !after[k].Open? && !after[k].Throw?
    requires Replayable(Run(Initial, before), x)
    ensures var t := Run(Step(Run(Initial, before), Call), after); !t.inFlight ==> x !in t.parked
  {
    var s := Run(Initial, before);
    EveryCallIsCovered(Initial, before);
    StaysPresent(Initial, before);
    StepKeepsSound(s, Call);
    var t := Step(s, Call);
    DueRun(t, after, x);
  }

  /** A throw leaves a parked, replayable entry without any pass ahead of it exactly when nobody called
      during that pass. */
  lemma ThrowStrandsUnlessMarked(s: State, i: nat, x: Entry)
    requires Sound(s) && s.present && Replayable(s, x) && x in s.parked && i < |s.passes| && s.passes[i].live
    ensures Due(Step(s, Throw(i)), x) <==> s.dirty
  {
  }

  // ---------------------------------------------------------------- passes end

  /** Nothing but the turns of passes, none of which throws. */
  ghost predicate OnlyPasses(es: seq<Event>) {
    forall k :: 0 <= k < |es| ==> es[k].Look? || es[k].Settle? || es[k].End?
  }

  function Left(p: Pass): nat {
    2 * |p.queue| + (if p.queue != [] && p.sample.Some? then 0 else 1)
  }

  lemma PassMoves(s: State) returns (e: Event)
    requires Sound(s) && s.inFlight
    ensures OnlyPasses([e])
    ensures var t := Step(s, e);
      && Sound(t) && (t.dirty ==> s.dirty)
      && (t.inFlight ==> (s.dirty && !t.dirty) || (t.dirty == s.dirty && Left(Newest(t)) < Left(Newest(s))))
  {
    var i := |s.passes| - 1;
    var p := s.passes[i];
    e := if p.queue == [] then End(i) else if p.sample.None? then Look(i) else Settle(i);
    StepKeepsSound(s, e);
  }

  /** From every reachable state the passes under way, and the one that the marks ask for, come to their end by
      their own turns. */
  lemma {:induction false} PassesEnd(s: State) returns (es: seq<Event>)
    requires Sound(s)
    ensures OnlyPasses(es) && Sound(Run(s, es)) && !Run(s, es).inFlight
    decreases if s.dirty then 1 else 0, if s.inFlight then Left(Newest(s)) + 1 else 0
  {
    if !s.inFlight {
      es := [];
    } else {
      var e := PassMoves(s);
      hide Step, Sound, Newest;
      var rest := PassesEnd(Step(s, e));
      es := [e] + rest;
      assert es[1..] == rest;
    }
  }

  // ---------------------------------------------------------------- one event at a time

  /** What an answered lookup says about its entry, from a delivery or from a pass. */
  predicate Answers(s: State, e: Event, x: Entry, available: bool) {
    || (e.Land? && e.lookup == Lookup(x, available) && e.lookup in s.lookups)
    || (e.Settle? && AtEntry(s, e.pass, true) && s.passes[e.pass].queue[0] == x
        && s.passes[e.pass].sample.value == available)
  }

  predicate Parks(s: State, e: Event, x: Entry) {
    Answers(s, e, x, false) || (Answers(s, e, x, true) && x.content.Undecryptable?)
  }

  predicate Applies(s: State, e: Event, x: Entry) {
    Answers(s, e, x, true) && x.content.Good?
  }

  /** An entry is parked without its key, or where the key does not decrypt it, and stays until it is applied. */
  lemma ParkedOfOneStep(s: State, e: Event, x: Entry)
    ensures var t := Step(s, e);
      && (x in t.parked <==> !e.CleanUp? && (Parks(s, e, x) || (x in s.parked && !Applies(s, e, x))))
      && (t.present <==> e.Open? || (s.present && !e.CleanUp?))
  {
  }

  /** Lookups answer by the keys of their moment. */
  ghost predicate TrueAnswers(s: State) {
    && (forall l :: l in s.lookups && l.available ==> l.entry.generation in s.keys)
    && (forall i :: 0 <= i < |s.passes| && s.passes[i].sample == Some(true) && s.passes[i].queue != [] ==>
          s.passes[i].queue[0].generation in s.keys)
  }

  lemma StepAnswersTruly(s: State, e: Event)
    requires TrueAnswers(s)
    ensures TrueAnswers(Step(s, e))
  {
  }

  lemma {:induction false} RunAnswersTruly(s: State, es: seq<Event>)
    requires TrueAnswers(s)
    ensures TrueAnswers(Run(s, es))
    decreases |es|
  {
    hide Step, TrueAnswers;
    if es != [] {
      StepAnswersTruly(s, es[0]);
      RunAnswersTruly(Step(s, es[0]), es[1..]);
    }
  }

  /** Over every run, a parked entry leaves only where the whole space is cleaned up, or by being applied with
      its key. */
  lemma OnlyKeysUnpark(es: seq<Event>, e: Event, x: Entry)
    requires x in Run(Initial, es).parked && x !in Step(Run(Initial, es), e).parked
    ensures e.CleanUp? || (x.content.Good? && x.generation in Run(Initial, es).keys)
  {
    RunAnswersTruly(Initial, es);
    ParkedOfOneStep(Run(Initial, es), e, x);
    hide Run, Step;
  }

  // ---------------------------------------------------------------- what may stay parked

  /** The entry could be replayed with the keys of the newest snapshot. */
  predicate InReach(s: State, e: Entry) {
    e.content.Good? && e.generation in s.known
  }

  /** Beside what is still ahead of a running pass, the entries in reach that are parked are those that a
      missed lookup parked since the newest snapshot, and those that its pass was cut off from. */
  ghost predicate Explained(s: State) {
    && s.known <= s.keys && s.late <= s.parked && s.cutOff <= s.parked
    && (forall e :: InReach(s, e) && e in s.parked ==> e in s.late || e in s.cutOff || e in Newest(s).queue)
    && (s.inFlight ==> s.cutOff == {} && s.passes != [])
    && (Newest(s).queue != [] && Newest(s).sample == Some(false) ==> Newest(s).queue[0].generation !in s.known)
  }

  lemma StepExplains(s: State, e: Event)
    requires Sound(s) && Explained(s) && !e.CleanUp? && !e.Open?
    ensures Explained(Step(s, e))
  {
    if e.Settle? && e.pass < |s.passes| && s.passes[e.pass].live { SettleExplains(s, e.pass); }
    else if (e.Throw? || e.End?) && e.pass < |s.passes| && s.passes[e.pass].live { FinishExplains(s, e.pass); }
  }

  lemma SettleExplains(s: State, i: nat)
    requires Sound(s) && Explained(s) && i < |s.passes| && s.passes[i].live
    ensures Explained(OnSettle(s, i))
  {
    var t := OnSettle(s, i);
    assert Newest(t) == t.passes[i] && Newest(s) == s.passes[i];
    if t != s {
      assert forall e :: e in s.passes[i].queue <==> e == s.passes[i].queue[0] || e in t.passes[i].queue;
    }
  }

  lemma FinishExplains(s: State, i: nat)
    requires Sound(s) && Explained(s) && i < |s.passes| && s.passes[i].live
    ensures Explained(Finish(s, i))
  {
    assert Newest(s) == s.passes[i];
  }

  lemma {:induction false} RunExplains(s: State, es: seq<Event>)
    requires Sound(s) && Explained(s) && forall k :: 0 <= k < |es| ==> !es[k].CleanUp? && !es[k].Open?
    ensures Explained(Run(s, es))
    decreases |es|
  {
    if es != [] {
      StepKeepsSound(s, es[0]);
      StepExplains(s, es[0]);
      hide Step, Explained, Sound;
      RunExplains(Step(s, es[0]), es[1..]);
    }
  }

  /** With no pass under way, an entry whose key was there at the newest snapshot, that is by the last call,
      is parked exactly if a lookup that missed the key parked it since then, or the last pass threw,
      unmarked, with the entry still ahead of it. */
  lemma ParkedAtRestIff(es: seq<Event>, x: Entry)
    requires forall k :: 0 <= k < |es| ==> !es[k].CleanUp? && !es[k].Open?
    requires !Run(Initial, es).inFlight && InReach(Run(Initial, es), x)
    ensures var s := Run(Initial, es); s.covered == s.calls && (x in s.parked <==> x in s.late || x in s.cutOff)
  {
    QuiescenceIsCovered(es);
    RunExplains(Initial, es);
  }

  /** What is late is what a missed lookup parked since the newest snapshot, and nothing applied since. */
  lemma LateOfOneStep(s: State, e: Event, x: Entry)
    ensures var t := Step(s, e);
      x in t.late
      <==> |t.passes| == |s.passes| && !e.CleanUp?
           && ((e == Land(Lookup(x, false)) && e.lookup in s.lookups) || (x in s.late && !Applies(s, e, x)))
  {
  }

  /** A pass is cut off from parked entries only by a throw that nobody marked. */
  lemma OnlyUnmarkedThrowsCutOff(s: State, e: Event)
    requires Sound(s) && s.present
    ensures (exists x :: x in Step(s, e).cutOff && x !in s.cutOff)
      <==> Throws(s, e) && !s.dirty && exists x :: x in s.parked && x in s.passes[e.pass].queue && x !in s.cutOff
  {
  }

  /** A pass over one parked entry throws before it comes to it, and nobody called meanwhile. */
  lemma ThrowStrands(x: Entry)
    requires x.content.Good?
    ensures var s := Run(Initial, [Arrive(x), Land(Lookup(x, false)), Import(x.generation), Call, Throw(0)]);
      !s.inFlight && x in s.parked && x in s.cutOff && InReach(s, x) && s.covered == s.calls
  {
    var es := [Arrive(x), Land(Lookup(x, false)), Import(x.generation), Call, Throw(0)];
    var s1 := Step(Initial, es[0]);
    var s2 := Step(s1, es[1]);
    var s3 := Step(s2, es[2]);
    assert s3.parked == {x};
    var s4 := Step(s3, es[3]);
    assert x in s4.passes[0].queue;
    var s5 := Step(s4, es[4]);
    assert es[1..][1..] == es[2..] && es[2..][1..] == es[3..] && es[3..][1..] == es[4..] && es[4..][1..] == [];
    assert Run(Initial, es) == Run(s1, es[1..]) == Run(s2, es[2..]) == Run(s3, es[3..]) == Run(s4, es[4..]) == s5;
  }

  /** A lookup that missed the key parks its entry after the call for that key has come and gone. */
  lemma LateParkingIsMissed(x: Entry)
    requires x.content.Good?
    ensures var s := Run(Initial, [Arrive(x), Import(x.generation), Call, End(0), Land(Lookup(x, false))]);
      !s.inFlight && x in s.parked && x in s.late && InReach(s, x) && s.covered == s.calls
  {
    var es := [Arrive(x), Import(x.generation), Call, End(0), Land(Lookup(x, false))];
    var s1 := Step(Initial, es[0]);
    var s2 := Step(s1, es[1]);
    var s3 := Step(s2, es[2]);
    assert SnapshotOf({}) == [];
    var s4 := Step(s3, es[3]);
    var s5 := Step(s4, es[4]);
    assert es[1..][1..] == es[2..] && es[2..][1..] == es[3..] && es[3..][1..] == es[4..] && es[4..][1..] == [];
    assert Run(Initial, es) == Run(s1, es[1..]) == Run(s2, es[2..]) == Run(s3, es[3..]) == Run(s4, es[4..]) == s5;
  }

  /** Cleaning up the space locally resets the flags under a running pass. Soundness survives exactly when
      none is running. */
  lemma CleanUpIsSoundIffIdle(s: State)
    requires Sound(s)
    ensures Sound(Step(s, CleanUp)) <==> !s.inFlight
  {
    if s.inFlight { assert Step(s, CleanUp).passes[|s.passes| - 1].live; }
  }

  // ---------------------------------------------------------------- the adapter's own updates

  class Replay {
    var present: bool
    var inFlight: bool
    var dirty: bool
    ghost var rest: State

    ghost function Model(): State
      reads this
    {
      rest.(present := present, inFlight := inFlight, dirty := dirty)
    }

    constructor ()
      ensures Model() == Initial
    {
      present, inFlight, dirty, rest := true, false, false, Initial;
    }

    /** Up to the first await. The result says whether a pass was started. */
    method Enter() returns (started: bool)
      modifies this
      ensures Model() == TakeUp(old(Model()))
      ensures started <==> old(present) && !old(inFlight)
    {
      if !present { return false; }
      if inFlight {
        dirty := true;
        return false;
      }
      inFlight := true;
      rest := StartPass(rest);
      started := true;
    }

    method ReplayBlockedByKeyForSpace() returns (started: bool)
      modifies this
      ensures Model() == Step(old(Model()), Call)
      ensures started <==> old(present) && !old(inFlight)
    {
      if present { rest := rest.(calls := rest.calls + 1); }
      started := Enter();
    }

    /** From the await of the pass to the end; `again` says whether a trailing pass was started. */
    method AfterPass(ghost i: nat) returns (again: bool)
      requires i < |Model().passes|
      modifies this
      ensures Model() == Finish(old(Model()), i)
      ensures again <==> old(dirty) && old(present)
    {
      inFlight := false;
      rest := rest.(passes := rest.passes[i := rest.passes[i].(live := false)],
                    cutOff := set e | e in rest.passes[i].queue && e in rest.parked);
      again := false;
      if dirty {
        dirty := false;
        again := Enter();
      }
    }
  }
}
