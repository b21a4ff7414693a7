/** When an inbox message is recorded as processed and when it is acknowledged, against a relay that keeps
    delivering it until it is. Events are the stretches between the awaits of one delivery; deliveries of
    the same message may overlap. */
module InboxAck {
  import opened Common

  type Id = nat

  // ---------------------------------------------------------------- the disposition

  datatype Status = Incomplete | Complete | Failed

  datatype Replay = ReplayIncomplete | Unique | DuplicateKnown | ReplayFailed

  datatype Durability = Durable | Volatile | NotBuffered

  datatype Outcome =
    | Applied(durable: bool)
    | Pending(durability: Durability, dependencies: nat)
    | ProcessingIncomplete
    | InvalidRejected(stateChanged: bool)
    | Duplicate

  datatype Input = Input(decryption: Status, inner: Status, replay: Replay, outcome: Outcome)

  datatype Disposition = SendAck | MayAckInvalidAndDrop | DoNotAck

  predicate StillIncomplete(i: Input) {
    i.decryption.Incomplete? || i.inner.Incomplete? || i.replay.ReplayIncomplete?
    || (!i.outcome.InvalidRejected?
        && (i.decryption.Failed? || i.inner.Failed? || i.replay.ReplayFailed?
            || (i.outcome.Duplicate? && !i.replay.DuplicateKnown?)))
  }

  function Evaluate(i: Input): Disposition {
    if i.outcome.ProcessingIncomplete? || StillIncomplete(i) then DoNotAck
    else match i.outcome
    case Applied(durable) => if durable then SendAck else DoNotAck
    case Pending(durability, dependencies) => if durability.Durable? && dependencies > 0 then SendAck else DoNotAck
    case InvalidRejected(stateChanged) => if stateChanged then DoNotAck else MayAckInvalidAndDrop
    case _ => SendAck
  }

  /** What happened to the message will survive a restart, or need not. */
  predicate Safe(o: Outcome) {
    match o
    case Applied(durable) => durable
    case Pending(durability, dependencies) => durability.Durable? && dependencies > 0
    case Duplicate => true
    case _ => false
  }

  /** An ack is sent exactly for an outcome that is safe to forget, all checks passed, and a duplicate only
      where the history knows it; dropping without one exactly for a rejection that changed nothing. */
  lemma AckOnlyWhatIsSafe(i: Input)
    ensures Evaluate(i).SendAck?
      <==> Safe(i.outcome) && i.decryption.Complete? && i.inner.Complete?
           && (i.replay.DuplicateKnown? || (i.replay.Unique? && !i.outcome.Duplicate?))
    ensures Evaluate(i).MayAckInvalidAndDrop?
      <==> i.outcome == InvalidRejected(false) && !i.decryption.Incomplete? && !i.inner.Incomplete?
           && !i.replay.ReplayIncomplete?
  {
  }

  // ---------------------------------------------------------------- a delivery

  /** What an opened message says. `signed`: the credential verifies; `ours`: issued by the sender, about
      the own DID. */
  datatype Body = Receipt | Malformed | Attestation(signed: bool, ours: bool)

  datatype Pc = Receive | Process | Record(ack: bool) | Ack | Gone

  datatype Delivery = Delivery(id: Id, pc: Pc)

  /** `stored` are the messages whose attestation was saved; `again` is history: messages that were
      processed although the history already had them. */
  datatype State = State(
    queue: set<Id>, history: set<Id>, stored: set<Id>, acked: set<Id>, deliveries: seq<Delivery>, again: set<Id>)

  /** Whether there are a storage and an outbox, and whether the storage's call succeeds. */
  datatype Here = Here(storage: bool, outbox: bool, works: bool)

  const ALL_WELL := Here(true, true, true)

  /** `bodies` is what the sender wrote. `opens`: the envelope is well-formed, decrypts and verifies, now.
      `here`: what processing finds. `ok`: the awaited call of that turn succeeded. */
  datatype Event =
    | Enqueue(id: Id)
    | Deliver(id: Id)
    | Opened(delivery: nat, opens: bool)
    | Processed(delivery: nat, here: Here)
    | Recorded(delivery: nat, ok: bool)
    | AckSent(delivery: nat, ok: bool)

  const Initial := State({}, {}, {}, {}, [], {})

  function Go(s: State, i: nat, pc: Pc): State
    requires i < |s.deliveries|
  {
    s.(deliveries := s.deliveries[i := s.deliveries[i].(pc := pc)])
  }

  /** The local outcome of processing, and whether the attestation was saved. Where the lookup for a receipt
      throws, the delivery ends without any disposition, as an incomplete one does. */
  function Apply(body: Body, here: Here): (Outcome, bool) {
    match body
    case Receipt => (if here.storage && !here.works then ProcessingIncomplete else Applied(true), false)
    case Malformed => (InvalidRejected(false), false)
    case Attestation(signed, ours) =>
      if !here.storage || !here.outbox then (ProcessingIncomplete, false)
      else if !signed || !ours then (InvalidRejected(false), false)
      else if !here.works then (ProcessingIncomplete, false)
      else (Applied(true), true)
  }

  function Checked(replay: Replay, outcome: Outcome): Input {
    Input(Complete, Complete, replay, outcome)
  }

  function Concluding(d: Disposition): Pc {
    match d
    case DoNotAck => Gone
    case MayAckInvalidAndDrop => Record(false)
    case SendAck => Record(true)
  }

  function OnOpened(s: State, i: nat, opens: bool): State {
    if i >= |s.deliveries| || !s.deliveries[i].pc.Receive? then s
    else if !opens then Go(s, i, Gone)
    else if s.deliveries[i].id in s.history then
      Go(s, i, if Evaluate(Checked(DuplicateKnown, Duplicate)).SendAck? then Ack else Gone)
    else Go(s, i, Process)
  }

  function OnProcessed(s: State, bodies: Id -> Body, i: nat, here: Here): State {
    if i >= |s.deliveries| || !s.deliveries[i].pc.Process? then s
    else
      var id := s.deliveries[i].id;
      var (outcome, saved) := Apply(bodies(id), here);
      Go(s, i, Concluding(Evaluate(Checked(Unique, outcome)))).(
        stored := if saved then s.stored + {id} else s.stored,
        again := if id in s.history then s.again + {id} else s.again)
  }

  function OnRecorded(s: State, i: nat, ok: bool): State {
    if i >= |s.deliveries| || !s.deliveries[i].pc.Record? then s
    else if !ok then Go(s, i, Gone)
    else Go(s, i, if s.deliveries[i].pc.ack then Ack else Gone).(history := s.history + {s.deliveries[i].id})
  }

  function OnAckSent(s: State, i: nat, ok: bool): State {
    if i >= |s.deliveries| || !s.deliveries[i].pc.Ack? then s
    else if !ok then Go(s, i, Gone)
    else Go(s, i, Gone).(acked := s.acked + {s.deliveries[i].id}, queue := s.queue - {s.deliveries[i].id})
  }

  function Step(s: State, bodies: Id -> Body, e: Event): State {
    match e
    case Enqueue(id) => if id in s.acked then s else s.(queue := s.queue + {id})
    case Deliver(id) => if id in s.queue then s.(deliveries := s.deliveries + [Delivery(id, Receive)]) else s
    case Opened(i, opens) => OnOpened(s, i, opens)
    case Processed(i, here) => OnProcessed(s, bodies, i, here)
    case Recorded(i, ok) => OnRecorded(s, i, ok)
    case AckSent(i, ok) => OnAckSent(s, i, ok)
  }

  function Run(s: State, bodies: Id -> Body, es: seq<Event>): State
    decreases |es|
  {
    if es == [] then s else Run(Step(s, bodies, es[0]), bodies, es[1..])
  }

  // ---------------------------------------------------------------- every reachable state

  /** A message that may be forgotten: it needs no storing, or it is stored. */
  predicate Done(s: State, bodies: Id -> Body, id: Id) {
    bodies(id) == Attestation(true, true) ==> id in s.stored
  }

  predicate Sound(s: State, bodies: Id -> Body) {
    && (forall i :: 0 <= i < |s.deliveries| ==>
          && (s.deliveries[i].pc.Record? ==> Done(s, bodies, s.deliveries[i].id))
          && (s.deliveries[i].pc.Ack? ==> s.deliveries[i].id in s.history))
    && (forall id :: id in s.history ==> Done(s, bodies, id))
    && (forall id :: id in s.stored ==> bodies(id) == Attestation(true, true))
    && (forall i :: 0 <= i < |s.deliveries| ==> s.deliveries[i].id in s.queue + s.acked)
    && s.acked <= s.history && s.acked !! s.queue
  }

  lemma StepKeepsSound(s: State, bodies: Id -> Body, e: Event)
    ensures Sound(s, bodies) ==>
      Sound(Step(s, bodies, e), bodies)
  {
  }

  lemma {:induction false} RunKeepsSound(s: State, bodies: Id -> Body, es: seq<Event>)
    requires Sound(s, bodies)
    ensures Sound(Run(s, bodies, es), bodies)
    decreases |es|
  {
    hide Step, Sound;
    if es != [] {
      StepKeepsSound(s, bodies, es[0]);
      RunKeepsSound(Step(s, bodies, es[0]), bodies, es[1..]);
    }
  }

  // ---------------------------------------------------------------- main results

  /** Whatever fails and however deliveries overlap: a message is acknowledged only after it was recorded,
      and recorded or acknowledged only if its attestation, where it carries a valid one, is stored; and
      nothing is ever stored but the sender's own verified statement about this identity. */
  lemma AckedIsRecordedIsStored(bodies: Id -> Body, es: seq<Event>)
    ensures var s := Run(Initial, bodies, es);
      && s.acked <= s.history && s.acked !! s.queue && (forall id :: id in s.history ==> Done(s, bodies, id))
      && forall id :: id in s.stored ==> bodies(id) == Attestation(true, true)
  {
    RunKeepsSound(Initial, bodies, es);
  }

  /** Processing comes to no conclusion exactly if the storage call throws, for a receipt or for a valid
      attestation, or if an attestation finds no storage or outbox; and then history, queue and store are as
      before, so the relay's next delivery starts afresh. */
  lemma InconclusiveChangesNothing(s: State, bodies: Id -> Body, i: nat, here: Here)
    requires i < |s.deliveries| && s.deliveries[i].pc.Process?
    ensures var t := Step(s, bodies, Processed(i, here)); var body := bodies(s.deliveries[i].id);
      && (t.deliveries[i].pc.Gone? <==>
            || (body.Receipt? && here.storage && !here.works)
            || (body.Attestation? && (!here.storage || !here.outbox || (body.signed && body.ours && !here.works))))
      && (!t.deliveries[i].pc.Gone? ==>
            t.deliveries[i].pc == Record(body.Receipt? || body == Attestation(true, true)))
      && (t.deliveries[i].pc.Gone? ==>
            t.history == s.history && t.queue == s.queue && t.stored == s.stored && t.acked == s.acked)
  {
  }

  /** One whole delivery with nothing else in between. */
  function Whole(s: State, bodies: Id -> Body, id: Id): State {
    var i := |s.deliveries|;
    Run(s, bodies, [Deliver(id), Opened(i, true), Processed(i, ALL_WELL), Recorded(i, true), AckSent(i, true)])
  }

  lemma WholeDelivery(s: State, bodies: Id -> Body, id: Id)
    requires id in s.queue && id !in s.acked
    ensures var t := Whole(s, bodies, id);
      && t.history == s.history + {id}
      && (id in t.acked <==> id in s.history || bodies(id).Receipt? || bodies(id) == Attestation(true, true))
      && (id in t.queue <==> id !in t.acked)
  {
    var i := |s.deliveries|;
    var es := [Deliver(id), Opened(i, true), Processed(i, ALL_WELL), Recorded(i, true), AckSent(i, true)];
    var s1 := Step(s, bodies, es[0]);
    var s2 := Step(s1, bodies, es[1]);
    var s3 := Step(s2, bodies, es[2]);
    var s4 := Step(s3, bodies, es[3]);
    var s5 := Step(s4, bodies, es[4]);
    assert es[1..][1..] == es[2..] && es[2..][1..] == es[3..] && es[3..][1..] == es[4..] && es[4..][1..] == [];
    assert Run(s, bodies, es) == Run(s1, bodies, es[1..]) == Run(s2, bodies, es[2..]) == Run(s3, bodies, es[3..])
      == Run(s4, bodies, es[4..]) == s5;
    assert s1.deliveries[i] == Delivery(id, Receive);
  }

  /** Every message is off the queue after its second undisturbed delivery, and after the first already
      exactly if that applied it or the history knew it: a rejected one waits for its redelivery. */
  lemma AckedByTheSecondDelivery(s: State, bodies: Id -> Body, id: Id)
    requires Sound(s, bodies) && id in s.queue
    ensures var t := Whole(s, bodies, id);
      && (id !in t.queue <==> id in s.history || bodies(id).Receipt? || bodies(id) == Attestation(true, true))
      && (id in t.queue ==> id !in Whole(t, bodies, id).queue)
  {
    hide Whole;
    WholeDelivery(s, bodies, id);
    var t := Whole(s, bodies, id);
    if id in t.queue { WholeDelivery(t, bodies, id); }
  }

  // ---------------------------------------------------------------- processed once

  predicate Alone(s: State, id: Id) {
    forall i :: 0 <= i < |s.deliveries| && s.deliveries[i].id == id ==> s.deliveries[i].pc.Gone?
  }

  /** No message is delivered again while a delivery of it is under way. */
  predicate OneAtATime(s: State, bodies: Id -> Body, es: seq<Event>)
    decreases |es|
  {
    es == [] || ((es[0].Deliver? ==> Alone(s, es[0].id)) && OneAtATime(Step(s, bodies, es[0]), bodies, es[1..]))
  }

  /** At most one delivery of a message is under way, and one that is to process it is ahead of the history. */
  ghost predicate Single(s: State) {
    && (forall i, j :: 0 <= i < j < |s.deliveries| && s.deliveries[i].id == s.deliveries[j].id
          ==> s.deliveries[i].pc.Gone?)
    && (forall i :: 0 <= i < |s.deliveries| && s.deliveries[i].pc.Process? ==> s.deliveries[i].id !in s.history)
    && s.again == {}
  }

  lemma SingleStep(s: State, bodies: Id -> Body, e: Event)
    requires Single(s) && (e.Deliver? ==> Alone(s, e.id))
    ensures Single(Step(s, bodies, e))
  {
  }

  /** As long as deliveries of one message do not overlap, none is ever processed after it was concluded. */
  lemma {:induction false} ProcessedOnce(s: State, bodies: Id -> Body, es: seq<Event>)
    requires (s == Initial || Single(s)) && OneAtATime(s, bodies, es)
    ensures Run(s, bodies, es).again == {}
    decreases |es|
  {
    if es != [] {
      SingleStep(s, bodies, es[0]);
      hide Step, Single;
      ProcessedOnce(Step(s, bodies, es[0]), bodies, es[1..]);
    }
  }

  // ---------------------------------------------------------------- processed again

  /** A run after its first `n` events. */
  function After(bodies: Id -> Body, es: seq<Event>, n: nat): State
    requires n <= |es|
  {
    Run(Initial, bodies, es[..n])
  }

  lemma {:induction false} RunSnoc(s: State, bodies: Id -> Body, es: seq<Event>, e: Event)
    ensures Run(s, bodies, es + [e]) == Step(Run(s, bodies, es), bodies, e)
  {
    RunConcat(s, bodies, es, [e]);
    assert [e][1..] == [];
  }

  lemma AfterOneMore(bodies: Id -> Body, es: seq<Event>, n: nat)
    requires n < |es|
    ensures After(bodies, es, n + 1) == Step(After(bodies, es, n), bodies, es[n])
  {
    assert es[..n + 1] == es[..n] + [es[n]];
    RunSnoc(Initial, bodies, es[..n], es[n]);
  }

  /** The step in which delivery `b` looks at the history and does not find the message there. */
  predicate Passes(s: State, e: Event, b: nat, id: Id) {
    e == Opened(b, true) && b < |s.deliveries| && s.deliveries[b] == Delivery(id, Receive) && id !in s.history
  }

  predicate Processes(s: State, e: Event, b: nat, id: Id) {
    e.Processed? && e.delivery == b && b < |s.deliveries| && s.deliveries[b] == Delivery(id, Process)
  }

  predicate Records(s: State, e: Event, a: nat, id: Id) {
    e == Recorded(a, true) && a < |s.deliveries| && s.deliveries[a].id == id && s.deliveries[a].pc.Record?
  }

  /** Delivery `b` is between its look and its processing. */
  predicate Processing(s: State, b: nat, id: Id) {
    b < |s.deliveries| && s.deliveries[b] == Delivery(id, Process)
  }

  lemma {:induction false} PassedBefore(bodies: Id -> Body, es: seq<Event>, n: nat, b: nat, id: Id) returns (i: nat)
    requires n <= |es| && Processing(After(bodies, es, n), b, id)
    ensures i < n && Passes(After(bodies, es, i), es[i], b, id)
    ensures forall m :: i < m <= n ==> Processing(After(bodies, es, m), b, id)
    decreases n
  {
    assert n > 0;
    AfterOneMore(bodies, es, n - 1);
    if Processing(After(bodies, es, n - 1), b, id) {
      hide Step, After;
      i := PassedBefore(bodies, es, n - 1, b, id);
    } else {
      i := n - 1;
    }
  }

  lemma {:induction false} RecorderPassed(bodies: Id -> Body, es: seq<Event>, n: nat, a: nat) returns (h: nat)
    requires n <= |es| && a < |After(bodies, es, n).deliveries| && After(bodies, es, n).deliveries[a].pc.Record?
    ensures h < n && Passes(After(bodies, es, h), es[h], a, After(bodies, es, n).deliveries[a].id)
    decreases n
  {
    assert n > 0;
    AfterOneMore(bodies, es, n - 1);
    var s, id := After(bodies, es, n - 1), After(bodies, es, n).deliveries[a].id;
    assert a < |s.deliveries| && s.deliveries[a].id == id && (s.deliveries[a].pc.Record? || Processing(s, a, id));
    hide Step, After;
    if s.deliveries[a].pc.Record? {
      h := RecorderPassed(bodies, es, n - 1, a);
    } else {
      h := PassedBefore(bodies, es, n - 1, a, id);
    }
  }

  lemma {:induction false} RecordedBetween(bodies: Id -> Body, es: seq<Event>, m: nat, n: nat, id: Id)
      returns (j: nat, a: nat)
    requires m <= n <= |es| && id !in After(bodies, es, m).history && id in After(bodies, es, n).history
    ensures m <= j < n && Records(After(bodies, es, j), es[j], a, id)
    decreases n
  {
    assert n > m;
    AfterOneMore(bodies, es, n - 1);
    if id in After(bodies, es, n - 1).history {
      hide Step, After;
      j, a := RecordedBetween(bodies, es, m, n - 1, id);
    } else {
      j, a := n - 1, es[n - 1].delivery;
    }
  }

  lemma {:induction false} ProcessedLate(bodies: Id -> Body, es: seq<Event>, n: nat, id: Id) returns (k: nat, b: nat)
    requires n <= |es| && id in After(bodies, es, n).again
    ensures k < n && Processes(After(bodies, es, k), es[k], b, id) && id in After(bodies, es, k).history
    decreases n
  {
    assert n > 0;
    AfterOneMore(bodies, es, n - 1);
    if id in After(bodies, es, n - 1).again {
      hide Step, After;
      k, b := ProcessedLate(bodies, es, n - 1, id);
    } else {
      k, b := n - 1, es[n - 1].delivery;
    }
  }

  lemma {:induction false} NothingIsForgotten(bodies: Id -> Body, es: seq<Event>, m: nat, n: nat)
    requires m <= n <= |es|
    ensures After(bodies, es, m).history <= After(bodies, es, n).history
    ensures After(bodies, es, m).again <= After(bodies, es, n).again
    decreases n
  {
    if m < n {
      AfterOneMore(bodies, es, n - 1);
      NothingIsForgotten(bodies, es, m, n - 1);
    }
  }

  /** Two deliveries of the message looked at the history before the first of them recorded it, and the other
      one was processed afterwards. */
  ghost predicate LookedTwice(bodies: Id -> Body, es: seq<Event>, id: Id) {
    exists a: nat, b: nat, h: nat, i: nat, j: nat, k: nat :: h < j && i < j && j < k && k < |es| && a != b
      && Passes(After(bodies, es, h), es[h], a, id) && Passes(After(bodies, es, i), es[i], b, id)
      && Records(After(bodies, es, j), es[j], a, id) && Processes(After(bodies, es, k), es[k], b, id)
  }

  /** Over every run, a message is processed after it was concluded exactly if that happened. */
  lemma AgainIffLookedTwice(bodies: Id -> Body, es: seq<Event>, id: Id)
    ensures id in Run(Initial, bodies, es).again <==> LookedTwice(bodies, es, id)
  {
    assert es[..|es|] == es && After(bodies, es, |es|) == Run(Initial, bodies, es);
    if id in Run(Initial, bodies, es).again {
      var k, b := ProcessedLate(bodies, es, |es|, id);
      var i := PassedBefore(bodies, es, k, b, id);
      var j, a := RecordedBetween(bodies, es, i, k, id);
      assert j != i;
      assert a != b by { assert Processing(After(bodies, es, j), b, id); }
      var h := RecorderPassed(bodies, es, j, a);
    }
    hide After, Run, Passes;
    forall a: nat, b: nat, j: nat, k: nat | j < k && k < |es|
        && Records(After(bodies, es, j), es[j], a, id) && Processes(After(bodies, es, k), es[k], b, id)
      ensures id in After(bodies, es, |es|).again
    {
      RecordedThenProcessed(bodies, es, j, a, k, b, id);
    }
  }

  lemma RecordedThenProcessed(bodies: Id -> Body, es: seq<Event>, j: nat, a: nat, k: nat, b: nat, id: Id)
    requires j < k < |es|
    requires Records(After(bodies, es, j), es[j], a, id) && Processes(After(bodies, es, k), es[k], b, id)
    ensures id in After(bodies, es, |es|).again
  {
    AfterOneMore(bodies, es, j);
    NothingIsForgotten(bodies, es, j + 1, k);
    AfterOneMore(bodies, es, k);
    NothingIsForgotten(bodies, es, k + 1, |es|);
    hide After;
  }

  // ---------------------------------------------------------------- every effect has its event

  /** The step in which a delivery of the message is acknowledged, by a call that succeeds. */
  predicate Acknowledges(s: State, e: Event, id: Id) {
    e.AckSent? && e.ok && e.delivery < |s.deliveries| && s.deliveries[e.delivery] == Delivery(id, Ack)
  }

  /** The step in which a valid attestation is processed where storage and outbox are there and the call works. */
  predicate Saves(s: State, bodies: Id -> Body, e: Event, id: Id) {
    e.Processed? && e.here == ALL_WELL && bodies(id) == Attestation(true, true) && Processes(s, e, e.delivery, id)
  }

  predicate RecordsAny(s: State, e: Event, id: Id) {
    e.Recorded? && Records(s, e, e.delivery, id)
  }

  /** Exactly these steps acknowledge, store and record. */
  lemma EffectsOfOneStep(s: State, bodies: Id -> Body, e: Event, id: Id)
    ensures var t := Step(s, bodies, e);
      && (id in t.acked <==> id in s.acked || Acknowledges(s, e, id))
      && (id in t.stored <==> id in s.stored || Saves(s, bodies, e, id))
      && (id in t.history <==> id in s.history || RecordsAny(s, e, id))
      && (Sound(s, bodies) ==> (id in t.queue + t.acked <==> id in s.queue + s.acked || e == Enqueue(id)))
  {
  }

  /** Over every run: a message is acknowledged exactly if an ack of it was sent successfully, stored exactly
      if a valid attestation was processed undisturbed, recorded exactly if a record of it succeeded, and on
      the queue exactly if it was enqueued and not acknowledged. */
  lemma {:induction false} EffectsHaveTheirEvents(bodies: Id -> Body, es: seq<Event>, n: nat, id: Id)
    requires n <= |es|
    ensures var s := After(bodies, es, n);
      && (id in s.acked <==> exists k :: 0 <= k < n && Acknowledges(After(bodies, es, k), es[k], id))
      && (id in s.stored <==> exists k :: 0 <= k < n && Saves(After(bodies, es, k), bodies, es[k], id))
      && (id in s.history <==> exists k :: 0 <= k < n && RecordsAny(After(bodies, es, k), es[k], id))
      && (id in s.queue <==> id !in s.acked && exists k :: 0 <= k < n && es[k] == Enqueue(id))
    decreases n
  {
    RunKeepsSound(Initial, bodies, es[..n]);
    if n == 0 {
      assert After(bodies, es, n) == Initial;
    } else {
      RunKeepsSound(Initial, bodies, es[..n - 1]);
      var s, t := After(bodies, es, n - 1), After(bodies, es, n);
      assert s.acked !! s.queue && t.acked !! t.queue && Sound(s, bodies);
      hide *;
      AfterOneMore(bodies, es, n - 1);
      EffectsHaveTheirEvents(bodies, es, n - 1, id);
      EffectsOfOneStep(s, bodies, es[n - 1], id);
    }
  }

  const OVERLAP := [Enqueue(1), Deliver(1), Deliver(1), Opened(0, true), Opened(1, true)]
  const BOTH := [Processed(0, ALL_WELL), Recorded(0, true), Processed(1, ALL_WELL)]

  /** Overlapping deliveries do process a message twice. */
  lemma OverlapProcessesAgain(bodies: Id -> Body)
    ensures 1 in Run(Initial, bodies, OVERLAP + BOTH).again
  {
    RunConcat(Initial, bodies, OVERLAP, BOTH);
    var es := BOTH;
    var s1 := Step(Run(Initial, bodies, OVERLAP), bodies, es[0]);
    var s2 := Step(s1, bodies, es[1]);
    var s3 := Step(s2, bodies, es[2]);
    assert es[1..][1..] == es[2..] && es[2..][1..] == [];
    assert Run(Run(Initial, bodies, OVERLAP), bodies, es) == Run(s1, bodies, es[1..]) == Run(s2, bodies, es[2..]) == s3;
  }

  lemma {:induction false} RunConcat(s: State, bodies: Id -> Body, a: seq<Event>, b: seq<Event>)
    ensures Run(s, bodies, a + b) == Run(Run(s, bodies, a), bodies, b)
    decreases |a|
  {
    hide Step;
    if a == [] {
      assert a + b == b;
    } else {
      assert (a + b)[1..] == a[1..] + b;
      RunConcat(Step(s, bodies, a[0]), bodies, a[1..], b);
    }
  }

  // ---------------------------------------------------------------- the client's own updates

  class Client {
    var history: set<Id>
    var stored: set<Id>
    var acks: seq<Id>

    constructor ()
      ensures history == {} && stored == {} && acks == []
    {
      history, stored, acks := {}, {}, [];
    }

    /** `applyIncomingAttestationDelivery`: nothing is applied that was not saved, and nothing saved that is
        not the sender's own statement about this identity. */
    method ApplyIncoming(id: Id, body: Body, here: Here) returns (outcome: Outcome)
      requires body.Attestation?
      modifies `stored
      ensures outcome == Apply(body, here).0
      ensures stored == if body == Attestation(true, true) && here == ALL_WELL then old(stored) + {id} else old(stored)
      ensures outcome.Applied? <==> body == Attestation(true, true) && here == ALL_WELL
      ensures outcome.InvalidRejected? <==> here.storage && here.outbox && body != Attestation(true, true)
    {
      if !here.storage || !here.outbox { return ProcessingIncomplete; }
      if !body.signed { return InvalidRejected(false); }
      if !body.ours { return InvalidRejected(false); }
      if !here.works { return ProcessingIncomplete; }
      stored := stored + {id};
      outcome := Applied(true);
    }

    /** `concludeByDisposition`, where recording is left out for a known duplicate. */
    method ConcludeByDisposition(id: Id, outcome: Outcome, replay: Replay, records: bool, recordOk: bool, sendOk: bool)
      modifies `history, `acks
      ensures var d := Evaluate(Checked(replay, outcome));
        && (d.DoNotAck? ==> history == old(history) && acks == old(acks))
        && (!d.DoNotAck? && records && !recordOk ==> history == old(history) && acks == old(acks))
        && (!d.DoNotAck? && (!records || recordOk) ==>
              && history == (if records then old(history) + {id} else old(history))
              && acks == (if d.SendAck? && sendOk then old(acks) + [id] else old(acks)))
    {
      var d := Evaluate(Checked(replay, outcome));
      if d.DoNotAck? { return; }
      if records {
        if !recordOk { return; }
        history := history + {id};
      }
      if d.SendAck? && sendOk { acks := acks + [id]; }
    }

    /** One delivery from end to end. An acknowledged message is recorded; an inconclusive one leaves
        everything but the store alone; and a known one is acknowledged without being processed. */
    method HandleInboxMessage(id: Id, body: Body, opens: bool, here: Here, recordOk: bool, sendOk: bool)
      modifies this
      ensures acks == old(acks) || (acks == old(acks) + [id] && id in history)
      ensures !opens ==> history == old(history) && stored == old(stored) && acks == old(acks)
      ensures stored == old(stored) || (stored == old(stored) + {id} && body == Attestation(true, true))
      ensures opens && id !in old(history) && body == Attestation(true, true) && here == ALL_WELL ==> id in stored
      ensures opens && id !in old(history) && recordOk && (here == ALL_WELL || body.Malformed?) ==> id in history
      ensures opens && id !in old(history) && recordOk && sendOk && here == ALL_WELL
        ==> acks == if body.Receipt? || body == Attestation(true, true) then old(acks) + [id] else old(acks)
      ensures opens && id in old(history) ==> history == old(history) && stored == old(stored)
      ensures opens && id in old(history) && sendOk ==> acks == old(acks) + [id]
      ensures body == Attestation(true, true) && id in history && id !in old(history) ==> id in stored
      ensures body.Attestation? && (!here.storage || !here.outbox) ==> history == old(history) && stored == old(stored)
      ensures here.storage && !here.works && (body.Receipt? || body == Attestation(true, true))
        ==> history == old(history) && stored == old(stored)
    {
      if !opens { return; }
      if id in history {
        ConcludeByDisposition(id, Duplicate, DuplicateKnown, false, true, sendOk);
        return;
      }
      var outcome;
      match body {
        case Receipt =>
          if here.storage && !here.works { return; }
          outcome := Applied(true);
        case Malformed => outcome := InvalidRejected(false);
        case Attestation(_, _) => outcome := ApplyIncoming(id, body, here);
      }
      assert Evaluate(Checked(Unique, outcome)).DoNotAck? <==> outcome.ProcessingIncomplete?;
      ConcludeByDisposition(id, outcome, Unique, true, recordOk, sendOk);
    }
  }
}
