/** The store-and-forward double of the mediator: frames for a client are held until the client acks them
    and offered again whenever its socket opens. */
module Mediator {
  /* Hashing, routing, opening and re-offering run as jobs of their own. Events are single turns of the event
     loop; frames with equal text are one frame. */
  import opened Common

  type Did = nat
  type Frame = nat
  type SockId = nat
  type Secret = nat

  datatype Sock = Sock(did: Did, isOpen: bool)

  /** A text frame on a socket: an acknowledgement sealed to some key of the mediator. */
  datatype Text = Text(did: Did, key: Secret, acks: set<Frame>)

  /** `Await` is a re-offer between its look at the socket and its loop, with the acks it had read. */
  datatype Job =
    | Hash(did: Did, frame: Frame)
    | Open(sock: SockId)
    | Offer(did: Did)
    | Await(did: Did, sock: SockId, acked: set<Frame>)
    | Close(sock: SockId)
    | Report(sock: SockId)

  /** The mediator's keys, and the texts that came in. */
  datatype Acks = Acks(secret: Secret, oldSecrets: seq<Secret>, sent: seq<Text>)

  /** The current socket of every client, and all sockets there ever were. */
  datatype Net = Net(sockets: map<Did, SockId>, socks: seq<Sock>)

  /** Frames by client or by socket: held; ever accepted; accepted before the socket opened; and, as
      history, put on the socket, or still being hashed when the re-offer of that socket went through. */
  datatype Store = Store(
    held: set<(Did, Frame)>, accepted: set<(Did, Frame)>, owed: set<(SockId, Frame)>,
    offered: set<(SockId, Frame)>, missed: set<(SockId, Frame)>)

  /** What became of every send; `routes` are the routed frames still on their way, by sender. */
  datatype Tally = Tally(sends: nat, texts: nat, dropped: nat, forwarded: nat, direct: nat, routes: multiset<Did>)

  datatype Faults = Faults(dropRouted: bool, refuseDirect: bool, refuseNextDirect: bool, closeOnNextText: Option<Did>)

  datatype State = State(acks: Acks, net: Net, store: Store, tally: Tally, jobs: multiset<Job>, faults: Faults)

  datatype Data =
    | Ack(key: Secret, acks: set<Frame>)
    | Unreadable
    | ForeignSender
    | ToMediator
    | ToClient(receiver: Did, frame: Frame)

  datatype Hop = NotCarried | Next(receiver: Did, frame: Frame)

  datatype Event =
    | Connect(did: Did, accepted: bool)
    | Send(sock: SockId, data: Data)
    | CloseSocket(sock: SockId)
    | Deliver(did: Did, frame: Frame)
    | Again(did: Did, frame: Frame)
    | Rotate(next: Secret)
    | Switch(faults: Faults)
    | RunJob(job: Job)
    | RouteEnds(session: Did, hop: Hop)

  const Initial := State(Acks(0, [], []), Net(map[], []), Store({}, {}, {}, {}, {}),
                         Tally(0, 0, 0, 0, 0, multiset{}), multiset{}, Faults(false, false, false, None))

  // ---------------------------------------------------------------- what one turn does

  function AddJob(s: State, job: Job): State {
    s.(jobs := s.jobs + multiset{job})
  }

  /** Hold the frame, and put it on the client's socket if one is open. */
  function Accept(s: State, did: Did, frame: Frame): State {
    var store := s.store.(
      accepted := s.store.accepted + {(did, frame)},
      offered := if did in s.net.sockets then s.store.offered + {(s.net.sockets[did], frame)} else s.store.offered);
    AddJob(s.(store := store), Hash(did, frame))
  }

  function Shut(s: State, w: SockId): State {
    if w >= |s.net.socks| || !s.net.socks[w].isOpen then s
    else
      var did := s.net.socks[w].did;
      var mapped := did in s.net.sockets && s.net.sockets[did] == w;
      var net := Net(if mapped then s.net.sockets - {did} else s.net.sockets, s.net.socks[w := Sock(did, false)]);
      AddJob(s.(net := net), Close(w))
  }

  function OnConnect(s: State, did: Did, ok: bool): State {
    var w := |s.net.socks|;
    if !ok then AddJob(s.(net := s.net.(socks := s.net.socks + [Sock(did, false)])), Close(w))
    else
      var owed := s.store.owed + set f | f in s.store.accepted && f.0 == did :: (w, f.1);
      AddJob(s.(net := Net(s.net.sockets[did := w], s.net.socks + [Sock(did, true)]),
                store := s.store.(owed := owed)), Open(w))
  }

  function Count(s: State, tally: Tally): State {
    s.(tally := tally)
  }

  function OnAck(s: State, w: SockId, key: Secret, acks: set<Frame>): State
    requires w < |s.net.socks|
  {
    var did := s.net.socks[w].did;
    var t := s.tally.(sends := s.tally.sends + 1);
    if s.faults.closeOnNextText == Some(did)
    then Count(Shut(s.(faults := s.faults.(closeOnNextText := None)), w), t.(dropped := t.dropped + 1))
    else Count(s.(acks := s.acks.(sent := s.acks.sent + [Text(did, key, acks)])), t.(texts := t.texts + 1))
  }

  function OnDirect(s: State, w: SockId, receiver: Did, frame: Frame): State {
    var t := s.tally.(sends := s.tally.sends + 1);
    if s.faults.refuseDirect || s.faults.refuseNextDirect
    then AddJob(Count(s.(faults := s.faults.(refuseNextDirect := false)), t.(dropped := t.dropped + 1)), Report(w))
    else Accept(Count(s, t.(direct := t.direct + 1)), receiver, frame)
  }

  function OnSend(s: State, w: SockId, data: Data): State
    requires w < |s.net.socks|
  {
    var t := s.tally.(sends := s.tally.sends + 1);
    if !s.net.socks[w].isOpen then Count(s, t.(dropped := t.dropped + 1))
    else match data
    case Ack(key, acks) => OnAck(s, w, key, acks)
    case Unreadable => Count(s, t.(dropped := t.dropped + 1))
    case ForeignSender => Count(s, t.(dropped := t.dropped + 1))
    case ToMediator => Count(s, t.(routes := t.routes + multiset{s.net.socks[w].did}))
    case ToClient(receiver, frame) => OnDirect(s, w, receiver, frame)
  }

  function OnRouteEnds(s: State, session: Did, hop: Hop): State
    requires session in s.tally.routes
  {
    var t := s.tally.(routes := s.tally.routes - multiset{session});
    if hop.NotCarried? || s.faults.dropRouted then Count(s, t.(dropped := t.dropped + 1))
    else Accept(Count(s, t.(forwarded := t.forwarded + 1)), hop.receiver, hop.frame)
  }

  predicate Opens(a: Acks, key: Secret) {
    key == a.secret || key in a.oldSecrets
  }

  /** The client has sent an ack for the frame that the mediator can open. */
  predicate Acked(a: Acks, did: Did, frame: Frame) {
    exists k :: 0 <= k < |a.sent| && a.sent[k].did == did && Opens(a, a.sent[k].key) && frame in a.sent[k].acks
  }

  function AckedBy(a: Acks, did: Did): set<Frame> {
    set k, f | 0 <= k < |a.sent| && a.sent[k].did == did && Opens(a, a.sent[k].key) && f in a.sent[k].acks :: f
  }

  /** The loop of a re-offer: an acked frame leaves, every other one is put on the socket. */
  function OfferHeld(s: Store, did: Did, w: SockId, acked: set<Frame>): Store {
    s.(held := (set x | x in s.held && !(x.0 == did && x.1 in acked)),
       offered := s.offered + (set x | x in s.held && x.0 == did && x.1 !in acked :: (w, x.1)),
       missed := s.missed + (set x | x in s.owed && x.0 == w && (did, x.1) !in s.held))
  }

  function OnJob(s: State, job: Job): State {
    var t := s.(jobs := s.jobs - multiset{job});
    match job
    case Hash(did, frame) => t.(store := s.store.(held := s.store.held + {(did, frame)}))
    case Open(w) => if w < |s.net.socks| then AddJob(t, Offer(s.net.socks[w].did)) else t
    case Offer(did) =>
      if did in s.net.sockets then AddJob(t, Await(did, s.net.sockets[did], AckedBy(s.acks, did))) else t
    case Await(did, w, acked) => t.(store := OfferHeld(s.store, did, w, acked))
    case _ => t
  }

  function OnAgain(s: State, did: Did, frame: Frame): State {
    if did in s.net.sockets && (did, frame) in s.store.accepted
    then s.(store := s.store.(offered := s.store.offered + {(s.net.sockets[did], frame)}))
    else s
  }

  function Step(s: State, e: Event): State {
    match e
    case Connect(did, ok) => OnConnect(s, did, ok)
    case Send(w, data) => if w < |s.net.socks| then OnSend(s, w, data) else s
    case CloseSocket(w) => Shut(s, w)
    case Deliver(did, frame) => Accept(s, did, frame)
    case Again(did, frame) => OnAgain(s, did, frame)
    case Rotate(next) => s.(acks := s.acks.(secret := next, oldSecrets := s.acks.oldSecrets + [s.acks.secret]))
    case Switch(faults) => s.(faults := faults)
    case RunJob(job) => if job in s.jobs then OnJob(s, job) else s
    case RouteEnds(session, hop) => if session in s.tally.routes then OnRouteEnds(s, session, hop) else s
  }

  function Steps(s: State, es: seq<Event>): State
    decreases |es|
  {
    if es == [] then s else Steps(Step(s, es[0]), es[1..])
  }

  // ---------------------------------------------------------------- every reachable state

  predicate Conserved(t: Tally) {
    t.sends == t.texts + t.dropped + t.direct + t.forwarded + |t.routes|
  }

  predicate SocketsOpen(n: Net) {
    forall did :: did in n.sockets ==> n.sockets[did] < |n.socks| && n.socks[n.sockets[did]] == Sock(did, true)
  }

  predicate AcksGrow(a: Acks, b: Acks) {
    a.sent <= b.sent && Opens(b, a.secret) && forall key :: key in a.oldSecrets ==> Opens(b, key)
  }

  ghost predicate Hashing(jobs: multiset<Job>, x: (Did, Frame)) {
    Hash(x.0, x.1) in jobs
  }

  /** An accepted frame is held, about to be, or acked; and a re-offer only knows true acks. */
  ghost predicate Kept(s: State) {
    && (forall x :: x in s.store.accepted ==> x in s.store.held || Hashing(s.jobs, x) || Acked(s.acks, x.0, x.1))
    && (forall x :: x in s.store.held ==> x in s.store.accepted)
    && (forall j :: j in s.jobs && j.Hash? ==> (j.did, j.frame) in s.store.accepted)
    && (forall j, f :: j in s.jobs && j.Await? && f in j.acked ==> Acked(s.acks, j.did, f))
  }

  /** A re-offer that will reach socket `w` of client `did` is still to come. */
  ghost predicate OfferDue(jobs: multiset<Job>, did: Did, w: SockId) {
    Open(w) in jobs || Offer(did) in jobs || exists acked :: Await(did, w, acked) in jobs
  }

  ghost predicate Served(s: State, did: Did, w: SockId, f: Frame) {
    (w, f) in s.store.offered || Acked(s.acks, did, f) || (w, f) in s.store.missed || OfferDue(s.jobs, did, w)
  }

  /** On the client's current socket every accepted frame has been offered, or was acked, or is due for a
      re-offer, or was still being hashed when that went through. */
  ghost predicate Covered(s: State) {
    && (forall x :: x in s.store.owed ==> x.0 < |s.net.socks|)
    && (forall x :: x in s.store.accepted && x.0 in s.net.sockets ==>
          var w := s.net.sockets[x.0];
          (w, x.1) in s.store.offered || ((w, x.1) in s.store.owed && Served(s, x.0, w, x.1)))
  }

  ghost predicate Sound(s: State) {
    Conserved(s.tally) && SocketsOpen(s.net) && Kept(s) && Covered(s)
  }

  /** Nothing takes an ack back, least of all a rotation of the mediator's key. */
  lemma StepNeverUnacks(s: State, e: Event)
    ensures AcksGrow(s.acks, Step(s, e).acks)
  {
  }

  /** Acks may grow, counters and switches may change, jobs that neither hash nor re-offer may come and go. */
  lemma SideEffectsAreSound(s: State, t: State)
    ensures (
      && Sound(s) && t.net == s.net && t.store == s.store && AcksGrow(s.acks, t.acks) && Conserved(t.tally)
      && (forall j :: j in t.jobs ==> j in s.jobs || j.Close? || j.Report?)
      && (forall j :: j in s.jobs && !j.Close? && !j.Report? ==> j in t.jobs)) ==>
      Sound(t)
  {
  }

  lemma AcceptIsSound(s: State, did: Did, frame: Frame)
    ensures Sound(s) ==>
      Sound(Accept(s, did, frame))
  {
  }

  lemma ShutIsSound(s: State, w: SockId)
    ensures Sound(s) ==>
      Sound(Shut(s, w))
  {
  }

  lemma ConnectIsSound(s: State, did: Did, ok: bool)
    requires Sound(s)
    ensures Sound(OnConnect(s, did, ok))
  {
    var t := OnConnect(s, did, ok);
    if ok {
      assert Open(|s.net.socks|) in t.jobs;
      assert OfferDue(t.jobs, did, |s.net.socks|);
    }
  }

  lemma CountIsSound(s: State, tally: Tally)
    ensures Sound(s) && Conserved(tally) ==>
      Sound(Count(s, tally))
  {
  }

  lemma AcceptAndCount(s: State, tally: Tally, did: Did, frame: Frame)
    ensures Sound(s) && Conserved(tally) ==>
      Sound(Accept(Count(s, tally), did, frame))
  {
  }

  lemma TextIsSound(s: State, text: Text, tally: Tally)
    requires Sound(s) && Conserved(tally)
    ensures Sound(Count(s.(acks := s.acks.(sent := s.acks.sent + [text])), tally))
  {
    SideEffectsAreSound(s, Count(s.(acks := s.acks.(sent := s.acks.sent + [text])), tally));
  }

  lemma AckIsSound(s: State, w: SockId, key: Secret, acks: set<Frame>)
    requires Sound(s) && w < |s.net.socks|
    ensures Sound(OnAck(s, w, key, acks))
  {
    assert Conserved(s.tally);
    hide Sound, Shut, Count;
    var t := s.tally.(sends := s.tally.sends + 1);
    TextIsSound(s, Text(s.net.socks[w].did, key, acks), t.(texts := t.texts + 1));
  }

  lemma SendIsSound(s: State, w: SockId, data: Data)
    requires Sound(s) && w < |s.net.socks|
    ensures Sound(OnSend(s, w, data))
  {
    assert Conserved(s.tally);
    hide Sound, OnAck, OnDirect, Count;
    var t := s.tally.(sends := s.tally.sends + 1);
    CountIsSound(s, t.(dropped := t.dropped + 1));
    match data
    case Ack(key, acks) => AckIsSound(s, w, key, acks);
    case ToClient(receiver, frame) => DirectIsSound(s, w, receiver, frame);
    case ToMediator => CountIsSound(s, t.(routes := t.routes + multiset{s.net.socks[w].did}));
    case _ =>
  }

  lemma DirectIsSound(s: State, w: SockId, receiver: Did, frame: Frame)
    requires Sound(s)
    ensures Sound(OnDirect(s, w, receiver, frame))
  {
    var t := s.tally.(sends := s.tally.sends + 1);
    if s.faults.refuseDirect || s.faults.refuseNextDirect {
      SideEffectsAreSound(s, OnDirect(s, w, receiver, frame));
    } else {
      var u := Count(s, t.(direct := t.direct + 1));
      assert t.(direct := t.direct + 1).sends == s.tally.sends + 1;
      AcceptAndCount(s, t.(direct := t.direct + 1), receiver, frame);
    }
  }

  lemma RouteEndIsSound(s: State, session: Did, hop: Hop)
    requires Sound(s) && session in s.tally.routes
    ensures Sound(OnRouteEnds(s, session, hop))
  {
    var t := s.tally.(routes := s.tally.routes - multiset{session});
    assert |t.routes| == |s.tally.routes| - 1;
    if hop.NotCarried? || s.faults.dropRouted {
      SideEffectsAreSound(s, Count(s, t.(dropped := t.dropped + 1)));
    } else {
      AcceptAndCount(s, t.(forwarded := t.forwarded + 1), hop.receiver, hop.frame);
    }
  }

  lemma SmallStepsAreSound(s: State, faults: Faults, next: Secret, did: Did, frame: Frame)
    ensures Sound(s) ==>
      Sound(s.(faults := faults)) && Sound(Step(s, Rotate(next))) && Sound(OnAgain(s, did, frame))
  {
  }

  lemma HashIsSound(s: State, job: Job)
    ensures Sound(s) && job in s.jobs && job.Hash? ==>
      Sound(OnJob(s, job))
  {
  }

  /** Jobs change, but every hash stays, and every re-offer due for a current socket stays due. */
  lemma JobsChange(s: State, t: State)
    requires Sound(s) && t == s.(jobs := t.jobs)
    requires forall x :: Hashing(s.jobs, x) <==> Hashing(t.jobs, x)
    requires forall j, f :: j in t.jobs && j.Await? && f in j.acked ==> Acked(s.acks, j.did, f)
    requires forall did :: did in s.net.sockets && OfferDue(s.jobs, did, s.net.sockets[did])
               ==> OfferDue(t.jobs, did, s.net.sockets[did])
    ensures Sound(t)
  {
    forall j | j in t.jobs && j.Hash? ensures (j.did, j.frame) in s.store.accepted {
      assert Hashing(t.jobs, (j.did, j.frame));
      assert Hash(j.did, j.frame) in s.jobs;
    }
  }

  /** `Open` is followed by `Offer`. */
  lemma OpenIsSound(s: State, job: Job)
    requires Sound(s) && job in s.jobs && job.Open?
    ensures Sound(OnJob(s, job))
  {
    var t := OnJob(s, job);
    forall did | did in s.net.sockets && OfferDue(s.jobs, did, s.net.sockets[did])
      ensures OfferDue(t.jobs, did, s.net.sockets[did])
    {
      if acked :| Await(did, s.net.sockets[did], acked) in s.jobs {
        assert Await(did, s.net.sockets[did], acked) in t.jobs;
      }
    }
    JobsChange(s, t);
  }

  /** And `Offer` by `Await` on the socket that is the client's then. */
  lemma OfferIsSound(s: State, job: Job)
    requires Sound(s) && job in s.jobs && job.Offer?
    ensures Sound(OnJob(s, job))
  {
    var t := OnJob(s, job);
    forall did | did in s.net.sockets && OfferDue(s.jobs, did, s.net.sockets[did])
      ensures OfferDue(t.jobs, did, s.net.sockets[did])
    {
      if acked :| Await(did, s.net.sockets[did], acked) in s.jobs {
        assert Await(did, s.net.sockets[did], acked) in t.jobs;
      }
      if job == Offer(did) { assert Await(did, s.net.sockets[did], AckedBy(s.acks, did)) in t.jobs; }
    }
    assert forall f :: f in AckedBy(s.acks, job.did) ==> Acked(s.acks, job.did, f);
    JobsChange(s, t);
  }

  lemma OfferIsKept(s: State, job: Job)
    ensures Sound(s) && job in s.jobs && job.Await? ==>
      Kept(OnJob(s, job))
  {
  }

  lemma OfferIsCovered(s: State, job: Job)
    ensures Sound(s) && job in s.jobs && job.Await? ==>
      Covered(OnJob(s, job))
  {
  }

  lemma JobIsSound(s: State, job: Job)
    requires Sound(s) && job in s.jobs
    ensures Sound(OnJob(s, job))
  {
    match job
    case Hash(_, _) => HashIsSound(s, job);
    case Open(_) => OpenIsSound(s, job);
    case Offer(_) => OfferIsSound(s, job);
    case Await(_, _, _) =>
      OfferIsKept(s, job);
      OfferIsCovered(s, job);
    case _ => SideEffectsAreSound(s, OnJob(s, job));
  }

  lemma StepKeepsSound(s: State, e: Event)
    requires Sound(s)
    ensures Sound(Step(s, e))
  {
    hide Sound, Accept, Shut, OnConnect, OnSend, OnRouteEnds, OnJob, OnAgain;
    match e
    case Connect(did, ok) => ConnectIsSound(s, did, ok);
    case Send(w, data) => if w < |s.net.socks| { SendIsSound(s, w, data); }
    case CloseSocket(w) => ShutIsSound(s, w);
    case Deliver(did, frame) => AcceptIsSound(s, did, frame);
    case Again(did, frame) => SmallStepsAreSound(s, s.faults, 0, did, frame);
    case Rotate(next) => SmallStepsAreSound(s, s.faults, next, 0, 0);
    case Switch(faults) => SmallStepsAreSound(s, faults, 0, 0, 0);
    case RunJob(job) => if job in s.jobs { JobIsSound(s, job); }
    case RouteEnds(session, hop) => if session in s.tally.routes { RouteEndIsSound(s, session, hop); }
  }

  lemma {:induction false} StepsKeepSound(s: State, es: seq<Event>)
    requires Sound(s)
    ensures Sound(Steps(s, es))
    decreases |es|
  {
    hide Step, Sound;
    if es != [] {
      StepKeepsSound(s, es[0]);
      StepsKeepSound(Step(s, es[0]), es[1..]);
    }
  }

  // ---------------------------------------------------------------- main results

  /** In every reachable state each send is accounted for once: as a text received, dropped, direct,
      forwarded, or a route still under way; and the current socket of every client is its own, and open. */
  lemma SendsAreConserved(es: seq<Event>)
    ensures var s := Steps(Initial, es); Conserved(s.tally) && SocketsOpen(s.net)
  {
    StepsKeepSound(Initial, es);
  }

  /** At least once: a frame accepted for a client is held, or on its way to being held, until the client
      has acked it. */
  lemma HeldUntilAcked(es: seq<Event>, did: Did, f: Frame)
    requires (did, f) in Steps(Initial, es).store.accepted
    ensures var s := Steps(Initial, es);
      (did, f) in s.store.held || Hash(did, f) in s.jobs || Acked(s.acks, did, f)
  {
    StepsKeepSound(Initial, es);
  }

  /** An ack stays an ack over every further run, through any number of key rotations. */
  lemma {:induction false} AcksAreForever(s: State, es: seq<Event>, did: Did, f: Frame)
    requires Acked(s.acks, did, f)
    ensures Acked(Steps(s, es).acks, did, f)
    decreases |es|
  {
    hide Step;
    if es != [] {
      StepNeverUnacks(s, es[0]);
      AcksAreForever(Step(s, es[0]), es[1..], did, f);
    }
  }

  function Busy(s: State): nat {
    |s.jobs| + |s.tally.routes|
  }

  /** Every frame that a client has not acked is held, and it was put on the client's current socket, unless
      its hash was not finished when that socket's re-offer went through. */
  ghost predicate AllOffered(s: State) {
    forall did, f :: did in s.net.sockets && (did, f) in s.store.accepted && !Acked(s.acks, did, f) ==>
      var w := s.net.sockets[did];
      (did, f) in s.store.held && ((w, f) in s.store.offered || (w, f) in s.store.missed)
  }

  lemma RestOffers(s: State)
    requires Sound(s) && Busy(s) == 0
    ensures AllOffered(s)
  {
    assert s.jobs == multiset{};
    forall did, f | did in s.net.sockets && (did, f) in s.store.accepted && !Acked(s.acks, did, f)
      ensures var w := s.net.sockets[did];
        (did, f) in s.store.held && ((w, f) in s.store.offered || (w, f) in s.store.missed)
    {
      assert !Hashing(s.jobs, (did, f));
    }
  }

  /** Once the double has come to rest, that is so. */
  lemma RestMeansOffered(es: seq<Event>)
    requires Busy(Steps(Initial, es)) == 0
    ensures AllOffered(Steps(Initial, es))
  {
    StepsKeepSound(Initial, es);
    RestOffers(Steps(Initial, es));
  }

  // ---------------------------------------------------------------- where frames go

  /** The events that take a frame in for a client: delivered by the mediator itself, sent to the client on an
      open socket and not refused, or routed with the client as the next hop and carried. */
  predicate TakesIn(s: State, e: Event, did: Did, f: Frame) {
    match e
    case Deliver(to, frame) => to == did && frame == f
    case Send(w, data) =>
      w < |s.net.socks| && s.net.socks[w].isOpen && data == ToClient(did, f)
      && !s.faults.refuseDirect && !s.faults.refuseNextDirect
    case RouteEnds(session, hop) => session in s.tally.routes && hop == Next(did, f) && !s.faults.dropRouted
    case _ => false
  }

  /** A text that arrives: an ack on an open socket that is not cut off for it. */
  predicate Arrives(s: State, e: Event, text: Text) {
    && e.Send? && e.data.Ack? && e.sock < |s.net.socks| && s.net.socks[e.sock].isOpen
    && s.faults.closeOnNextText != Some(s.net.socks[e.sock].did)
    && text == Text(s.net.socks[e.sock].did, e.data.key, e.data.acks)
  }

  /** An open socket closes: by itself, or cut off by the switch when a text comes. */
  predicate Closes(s: State, e: Event, w: SockId) {
    && w < |s.net.socks| && s.net.socks[w].isOpen
    && (e == CloseSocket(w)
        || (e.Send? && e.sock == w && e.data.Ack? && s.faults.closeOnNextText == Some(s.net.socks[w].did)))
  }

  /** A frame is put on a socket: taken in while the client's socket is open, repeated, or re-offered. */
  predicate PutsOn(s: State, e: Event, w: SockId, f: Frame) {
    || (exists did :: did in s.net.sockets && s.net.sockets[did] == w
          && (TakesIn(s, e, did, f) || (e == Again(did, f) && (did, f) in s.store.accepted)))
    || (e.RunJob? && e.job in s.jobs && e.job.Await? && e.job.sock == w
        && (e.job.did, f) in s.store.held && f !in e.job.acked)
  }

  predicate Releases(s: State, e: Event, did: Did, f: Frame) {
    e.RunJob? && e.job in s.jobs && e.job.Await? && e.job.did == did && f in e.job.acked
  }

  /** One step, on the level of frames: exactly these are accepted, put on a socket, held or released. */
  lemma AcceptedInOneStep(s: State, e: Event, did: Did, f: Frame)
    ensures (did, f) in Step(s, e).store.accepted <==> (did, f) in s.store.accepted || TakesIn(s, e, did, f)
  {
    hide Shut, OnConnect;
    match e
    case Connect(x, ok) => ShutsAndConnects(s, 0, x, ok);
    case Send(w, data) => ShutsAndConnects(s, w, 0, false);
    case CloseSocket(w) => ShutsAndConnects(s, w, 0, false);
    case _ =>
  }

  lemma ShutsAndConnects(s: State, w: SockId, did: Did, ok: bool)
    ensures Shut(s, w).store == s.store && Shut(s, w).tally == s.tally
    ensures var t := Shut(s.(faults := s.faults.(closeOnNextText := None)), w);
      t.store == s.store && t.tally == s.tally
    ensures var t := OnConnect(s, did, ok);
      t.store.(owed := {}) == s.store.(owed := {}) && t.tally == s.tally
  {
  }

  lemma HeldInOneStep(s: State, e: Event, did: Did, f: Frame)
    ensures (did, f) in Step(s, e).store.held <==>
      || (e == RunJob(Hash(did, f)) && e.job in s.jobs)
      || ((did, f) in s.store.held && !Releases(s, e, did, f))
  {
    hide Shut, OnConnect;
    match e
    case Connect(x, ok) => ShutsAndConnects(s, 0, x, ok);
    case Send(w, data) => ShutsAndConnects(s, w, 0, false);
    case CloseSocket(w) => ShutsAndConnects(s, w, 0, false);
    case _ =>
  }

  lemma AcceptPutsOn(s: State, did: Did, frame: Frame, w: SockId, f: Frame)
    ensures (w, f) in Accept(s, did, frame).store.offered
      <==> (w, f) in s.store.offered || (did in s.net.sockets && s.net.sockets[did] == w && f == frame)
  {
  }

  lemma SendPutsOn(s: State, x: SockId, data: Data, w: SockId, f: Frame)
    requires x < |s.net.socks|
    ensures (w, f) in OnSend(s, x, data).store.offered <==> (w, f) in s.store.offered || PutsOn(s, Send(x, data), w, f)
  {
    hide Accept;
    if data.ToClient? {
      var t := s.tally.(sends := s.tally.sends + 1);
      AcceptPutsOn(Count(s, t.(direct := t.direct + 1)), data.receiver, data.frame, w, f);
    }
  }

  lemma JobPutsOn(s: State, job: Job, w: SockId, f: Frame)
    requires job in s.jobs
    ensures (w, f) in OnJob(s, job).store.offered
      <==> (w, f) in s.store.offered || PutsOn(s, RunJob(job), w, f)
  {
  }

  lemma OffersOfOneStep(s: State, e: Event, w: SockId, f: Frame)
    ensures (w, f) in Step(s, e).store.offered <==> (w, f) in s.store.offered || PutsOn(s, e, w, f)
  {
    hide Accept, OnSend, OnJob, Shut, OnConnect;
    match e
    case Connect(x, ok) => ShutsAndConnects(s, 0, x, ok);
    case Send(x, data) => if x < |s.net.socks| { SendPutsOn(s, x, data, w, f); }
    case CloseSocket(x) => ShutsAndConnects(s, x, 0, false);
    case Deliver(did, frame) => AcceptPutsOn(s, did, frame, w, f);
    case RunJob(job) => if job in s.jobs { JobPutsOn(s, job, w, f); }
    case RouteEnds(session, hop) =>
      if session in s.tally.routes && hop.Next? {
        var t := s.tally.(routes := s.tally.routes - multiset{session});
        AcceptPutsOn(Count(s, t.(forwarded := t.forwarded + 1)), hop.receiver, hop.frame, w, f);
      }
    case _ =>
  }

  /** Texts are recorded as they arrive, and every key there ever was opens them. */
  lemma AcksOfOneStep(s: State, e: Event, text: Text, key: Secret)
    ensures var t := Step(s, e);
      && (text in t.acks.sent <==> text in s.acks.sent || Arrives(s, e, text))
      && (Opens(t.acks, key) <==> Opens(s.acks, key) || e == Rotate(key))
      && t.acks.secret == if e.Rotate? then e.next else s.acks.secret
  {
  }

  /** A connection that is accepted is the client's current socket until it closes or the next one comes. */
  lemma SocketsOfOneStep(s: State, e: Event, did: Did)
    requires SocketsOpen(s.net)
    ensures var t := Step(s, e);
      && |t.net.socks| == |s.net.socks| + (if e.Connect? then 1 else 0)
      && (e.Connect? ==> t.net.socks[|s.net.socks|] == Sock(e.did, e.accepted))
      && (forall w :: 0 <= w < |s.net.socks| ==>
            t.net.socks[w] == Sock(s.net.socks[w].did, s.net.socks[w].isOpen && !Closes(s, e, w)))
      && (e == Connect(did, true) ==> did in t.net.sockets && t.net.sockets[did] == |s.net.socks|)
      && (e != Connect(did, true) ==>
            && (did in t.net.sockets <==> did in s.net.sockets && !Closes(s, e, s.net.sockets[did]))
            && (did in t.net.sockets ==> t.net.sockets[did] == s.net.sockets[did]))
  {
  }

  /** The switches stay as they are set, but the two that are for the next frame alone are spent by it. */
  lemma SwitchesOfOneStep(s: State, e: Event)
    ensures var t, d := Step(s, e), e.Send? && e.sock < |s.net.socks| && s.net.socks[e.sock].isOpen;
      t.faults == if e.Switch? then e.faults else s.faults.(
        refuseNextDirect := s.faults.refuseNextDirect && !(d && e.data.ToClient?),
        closeOnNextText := if d && e.data.Ack? && s.faults.closeOnNextText == Some(s.net.socks[e.sock].did) then None
                           else s.faults.closeOnNextText)
  {
  }

  /** What is begun: the job of an opening, of a closing, of the hash of a frame, of a report on a refusal, or
      a routed frame. */
  predicate Begins(s: State, e: Event) {
    match e
    case Connect(_, _) => true
    case Send(w, data) =>
      w < |s.net.socks| && s.net.socks[w].isOpen && (data.ToMediator? || data.ToClient? || Closes(s, e, w))
    case CloseSocket(w) => Closes(s, e, w)
    case Deliver(_, _) => true
    case RouteEnds(session, hop) => session in s.tally.routes && hop.Next? && !s.faults.dropRouted
    case _ => false
  }

  /** What ends: a job, unless it is followed by the next one of an opening, or a route. */
  predicate Ends(s: State, e: Event) {
    match e
    case RunJob(job) =>
      job in s.jobs && !(job.Open? && job.sock < |s.net.socks|) && !(job.Offer? && job.did in s.net.sockets)
    case RouteEnds(session, _) => session in s.tally.routes
    case _ => false
  }

  lemma SendIsBusy(s: State, w: SockId, data: Data)
    requires w < |s.net.socks|
    ensures Busy(OnSend(s, w, data)) == Busy(s) + (if Begins(s, Send(w, data)) then 1 else 0)
  {
  }

  lemma JobIsBusy(s: State, job: Job)
    requires job in s.jobs
    ensures Busy(OnJob(s, job)) == Busy(s) - (if Ends(s, RunJob(job)) then 1 else 0)
  {
    assert |s.jobs - multiset{job}| == |s.jobs| - 1;
    hide AckedBy, OfferHeld;
  }

  lemma RouteIsBusy(s: State, session: Did, hop: Hop)
    requires session in s.tally.routes
    ensures Busy(OnRouteEnds(s, session, hop)) == Busy(s) - 1 + (if Begins(s, RouteEnds(session, hop)) then 1 else 0)
  {
    assert |s.tally.routes - multiset{session}| == |s.tally.routes| - 1;
  }

  /** The number of unfinished jobs follows exactly these. */
  lemma BusyOfOneStep(s: State, e: Event)
    ensures Busy(Step(s, e)) + (if Ends(s, e) then 1 else 0) == Busy(s) + (if Begins(s, e) then 1 else 0)
  {
    hide OnSend, OnJob, OnRouteEnds;
    match e
    case Send(w, data) => if w < |s.net.socks| { SendIsBusy(s, w, data); }
    case RunJob(job) => if job in s.jobs { JobIsBusy(s, job); }
    case RouteEnds(session, hop) => if session in s.tally.routes { RouteIsBusy(s, session, hop); }
    case _ =>
  }

  /** What a step adds to the counters: with conservation, everything else is what was dropped. */
  function Counted(s: State, e: Event, c: Tally): Tally {
    match e
    case Send(w, data) =>
      if w >= |s.net.socks| then c
      else
        var t := c.(sends := c.sends + 1);
        if data.Ack? && Arrives(s, e, Text(s.net.socks[w].did, data.key, data.acks)) then t.(texts := c.texts + 1)
        else if data.ToClient? && TakesIn(s, e, data.receiver, data.frame) then t.(direct := c.direct + 1)
        else if data.ToMediator? && s.net.socks[w].isOpen
        then t.(routes := c.routes + multiset{s.net.socks[w].did})
        else t.(dropped := c.dropped + 1)
    case RouteEnds(session, hop) =>
      if session !in c.routes then c
      else
        var t := c.(routes := c.routes - multiset{session});
        if hop.Next? && TakesIn(s, e, hop.receiver, hop.frame) then t.(forwarded := c.forwarded + 1)
        else t.(dropped := c.dropped + 1)
    case _ => c
  }

  lemma SendCounts(s: State, w: SockId, data: Data)
    requires w < |s.net.socks|
    ensures OnSend(s, w, data).tally == Counted(s, Send(w, data), s.tally)
  {
    hide Shut;
    ShutsAndConnects(s, w, 0, false);
  }

  lemma RouteCounts(s: State, session: Did, hop: Hop)
    requires session in s.tally.routes
    ensures OnRouteEnds(s, session, hop).tally == Counted(s, RouteEnds(session, hop), s.tally)
  {
  }

  lemma CountsOfOneStep(s: State, e: Event)
    ensures Step(s, e).tally == Counted(s, e, s.tally)
  {
    hide Shut, OnConnect, OnSend, OnRouteEnds;
    match e
    case Connect(x, ok) => ShutsAndConnects(s, 0, x, ok);
    case Send(w, data) => if w < |s.net.socks| { SendCounts(s, w, data); }
    case CloseSocket(w) => ShutsAndConnects(s, w, 0, false);
    case RouteEnds(session, hop) => if session in s.tally.routes { RouteCounts(s, session, hop); }
    case _ =>
  }

  /** Some step of the run takes the frame in for the client. */
  predicate EverTakesIn(s: State, es: seq<Event>, did: Did, f: Frame)
    decreases |es|
  {
    es != [] && (TakesIn(s, es[0], did, f) || EverTakesIn(Step(s, es[0]), es[1..], did, f))
  }

  predicate EverArrives(s: State, es: seq<Event>, text: Text)
    decreases |es|
  {
    es != [] && (Arrives(s, es[0], text) || EverArrives(Step(s, es[0]), es[1..], text))
  }

  predicate EverPutsOn(s: State, es: seq<Event>, w: SockId, f: Frame)
    decreases |es|
  {
    es != [] && (PutsOn(s, es[0], w, f) || EverPutsOn(Step(s, es[0]), es[1..], w, f))
  }

  /** Over every run a frame is accepted for exactly the clients that it was delivered to, sent to or routed
      to, whoever sent it, and is put on exactly their sockets and those of re-offers; exactly the texts that
      arrived are read, with exactly the keys that there have been. */
  lemma {:induction false} FramesGoWhereTheyWereSent(s: State, es: seq<Event>, did: Did, f: Frame, w: SockId)
    ensures var t := Steps(s, es);
      && ((did, f) in t.store.accepted <==> (did, f) in s.store.accepted || EverTakesIn(s, es, did, f))
      && ((w, f) in t.store.offered <==> (w, f) in s.store.offered || EverPutsOn(s, es, w, f))
    decreases |es|
  {
    hide Step, TakesIn, PutsOn;
    if es != [] {
      AcceptedInOneStep(s, es[0], did, f);
      OffersOfOneStep(s, es[0], w, f);
      FramesGoWhereTheyWereSent(Step(s, es[0]), es[1..], did, f, w);
    }
  }

  lemma {:induction false} AcksComeFromTexts(s: State, es: seq<Event>, text: Text, key: Secret)
    ensures var t := Steps(s, es);
      && (text in t.acks.sent <==> text in s.acks.sent || EverArrives(s, es, text))
      && (Opens(t.acks, key) <==> Opens(s.acks, key) || Rotate(key) in es)
    decreases |es|
  {
    hide Step, Arrives, Opens;
    if es != [] {
      AcksOfOneStep(s, es[0], text, key);
      AcksComeFromTexts(Step(s, es[0]), es[1..], text, key);
    }
  }

  // ---------------------------------------------------------------- waiting for rest

  /** The double and those who wait for it in `settled`: asleep, or woken and yet to look again. `called` and
      `resolved` are history. */
  datatype Waiting = Waiting(s: State, idle: set<nat>, woken: set<nat>, called: set<nat>, resolved: set<nat>)

  datatype Action = Does(event: Event) | Calls(caller: nat) | WakesUp(caller: nat)

  const Nobody := Waiting(Initial, {}, {}, {}, {})

  /** Whoever looks goes on at rest, and goes to sleep otherwise. */
  function Look(w: Waiting, caller: nat): Waiting {
    if Busy(w.s) == 0 then w.(woken := w.woken - {caller}, resolved := w.resolved + {caller})
    else w.(woken := w.woken - {caller}, idle := w.idle + {caller})
  }

  /** The last unfinished job to end wakes everybody. */
  function Moves(w: Waiting, t: State): Waiting {
    if Busy(w.s) > 0 && Busy(t) == 0 then w.(s := t, idle := {}, woken := w.woken + w.idle) else w.(s := t)
  }

  function Act(w: Waiting, a: Action): Waiting {
    match a
    case Does(e) => Moves(w, Step(w.s, e))
    case Calls(caller) => if caller in w.called then w else Look(w.(called := w.called + {caller}), caller)
    case WakesUp(caller) => if caller in w.woken then Look(w, caller) else w
  }

  function Acts(w: Waiting, actions: seq<Action>): Waiting
    decreases |actions|
  {
    if actions == [] then w else Acts(Act(w, actions[0]), actions[1..])
  }

  /** Nobody sleeps at rest, and every caller either sleeps, or is woken, or went on. */
  ghost predicate Attended(w: Waiting) {
    && Sound(w.s) && (Busy(w.s) == 0 ==> w.idle == {})
    && w.called == w.idle + w.woken + w.resolved && w.idle !! w.woken && w.resolved !! w.idle + w.woken
  }

  lemma ActKeepsAttended(w: Waiting, a: Action)
    requires Attended(w)
    ensures Attended(Act(w, a))
    ensures Act(w, a).resolved != w.resolved ==> AllOffered(Act(w, a).s)
  {
    hide Step, Sound, AllOffered;
    if a.Does? { StepKeepsSound(w.s, a.event); }
    if Busy(w.s) == 0 { RestOffers(w.s); }
  }

  lemma {:induction false} ActsKeepAttended(w: Waiting, actions: seq<Action>)
    requires Attended(w)
    ensures Attended(Acts(w, actions))
    decreases |actions|
  {
    hide Act, Attended;
    if actions != [] {
      ActKeepsAttended(w, actions[0]);
      ActsKeepAttended(Act(w, actions[0]), actions[1..]);
    }
  }

  /** Over every run of the double and its waiters: `settled` goes on only with no job unfinished, and then
      every unacked frame has been offered; every caller sleeps, is woken or went on, and only one of these;
      and they are woken exactly when the last job ends, so that nobody is left asleep at rest. */
  lemma SettledMeansOffered(actions: seq<Action>, a: Action)
    ensures var w := Acts(Nobody, actions); var t := Act(w, a);
      && (t.resolved != w.resolved ==> Busy(w.s) == 0 && AllOffered(w.s))
      && w.called == w.idle + w.woken + w.resolved && w.idle !! w.woken && w.resolved !! w.idle + w.woken
      && (Busy(w.s) == 0 ==> w.idle == {})
      && (a.Does? && w.idle != {} ==> (t.woken != w.woken <==> Busy(t.s) == 0))
  {
    assert Attended(Nobody);
    ActsKeepAttended(Nobody, actions);
    ActKeepsAttended(Acts(Nobody, actions), a);
  }

  /** A re-offer puts an unacked accepted frame on its socket exactly if its hash has been finished by then,
      or it had been put there before; and it counts as missed only if its hash was unfinished. */
  lemma ReofferReachesWhatIsHeld(s: State, did: Did, w: SockId, acked: set<Frame>, f: Frame)
    requires Sound(s) && Await(did, w, acked) in s.jobs
    requires (did, f) in s.store.accepted && !Acked(s.acks, did, f)
    ensures var t := Step(s, RunJob(Await(did, w, acked)));
      && ((w, f) in t.store.offered <==> (did, f) in s.store.held || (w, f) in s.store.offered)
      && ((did, f) in s.store.held ==> (did, f) in t.store.held)
      && ((w, f) in t.store.missed && (w, f) !in s.store.missed ==> Hash(did, f) in s.jobs)
  {
  }

  /** A whole re-offer, from its look at the socket to the end of its loop: of what is held for the client, the
      acked leaves and the rest is put on the current socket; nothing held for others changes. */
  lemma ReofferSorts(s: State, did: Did, other: Did, f: Frame)
    requires Offer(did) in s.jobs && did in s.net.sockets && (did, f) in s.store.held
    ensures var w := s.net.sockets[did]; var job := Await(did, w, AckedBy(s.acks, did));
      var t := Step(Step(s, RunJob(Offer(did))), RunJob(job));
      && ((did, f) in t.store.held <==> !Acked(s.acks, did, f))
      && (!Acked(s.acks, did, f) ==> (w, f) in t.store.offered)
      && (other != did ==> ((other, f) in t.store.held <==> (other, f) in s.store.held))
  {
    var w := s.net.sockets[did];
    var job := Await(did, w, AckedBy(s.acks, did));
    var u := Step(s, RunJob(Offer(did)));
    assert job in u.jobs && u.store == s.store;
    assert f in AckedBy(s.acks, did) <==> Acked(s.acks, did, f);
    assert Step(u, RunJob(job)).store == OfferHeld(s.store, did, w, AckedBy(s.acks, did));
    hide Step, AckedBy, Acked;
  }

  function Doings(actions: seq<Action>): seq<Event> {
    if actions == [] then [] else (if actions[0].Does? then [actions[0].event] else []) + Doings(actions[1..])
  }

  lemma ActKeepsUp(w: Waiting, a: Action, caller: nat)
    ensures var v := Act(w, a);
      && v.s == (if a.Does? then Step(w.s, a.event) else w.s)
      && (caller in v.called <==> caller in w.called || a == Calls(caller))
  {
    hide Step, Busy;
  }

  lemma {:induction false} WaitingKeepsUp(w: Waiting, actions: seq<Action>, caller: nat)
    ensures var v := Acts(w, actions);
      && v.s == Steps(w.s, Doings(actions))
      && (caller in v.called <==> caller in w.called || Calls(caller) in actions)
    decreases |actions|
  {
    hide Step, Act, Busy;
    if actions != [] {
      var v := Act(w, actions[0]);
      ActKeepsUp(w, actions[0], caller);
      WaitingKeepsUp(v, actions[1..], caller);
      if actions[0].Does? {
        var one, rest := [actions[0].event], Doings(actions[1..]);
        StepsConcat(w.s, one, rest);
        assert one[1..] == [];
      } else {
        assert [] + Doings(actions[1..]) == Doings(actions[1..]);
      }
    }
  }

  /** The double itself takes no notice of who waits; exactly those who called are callers; and at rest each of
      them has gone on, or does with its next turn. */
  lemma EveryCallerGoesOn(actions: seq<Action>, caller: nat)
    ensures var w := Acts(Nobody, actions);
      && w.s == Steps(Initial, Doings(actions))
      && (caller in w.called <==> Calls(caller) in actions)
      && (caller in w.called && Busy(w.s) == 0 ==> caller in w.resolved || caller in Act(w, WakesUp(caller)).resolved)
  {
    WaitingKeepsUp(Nobody, actions, caller);
    assert Attended(Nobody);
    ActsKeepAttended(Nobody, actions);
  }

  const EARLY := [Deliver(0, 7), Connect(0, true), RunJob(Open(0))]
  const LATE := [RunJob(Offer(0)), RunJob(Await(0, 0, {})), RunJob(Hash(0, 7))]

  /** And it can miss one: the frame arrives, the client connects, and the hash takes longer than the
      opening. The double is at rest, the frame is held and unacked, and the socket never saw it. */
  lemma SlowHashMissesTheOpening()
    ensures var s := Steps(Initial, EARLY + LATE);
      Busy(s) == 0 && s.net.sockets == map[0 := 0] && (0, 7) in s.store.held && s.store.offered == {}
  {
    var s1 := Step(Initial, EARLY[0]);
    var s2 := Step(s1, EARLY[1]);
    assert s2.store.owed == {(0, 7)} by { assert (0, 7) in s1.store.accepted; }
    var s3 := Step(s2, EARLY[2]);
    assert s3.jobs == multiset{Hash(0, 7), Offer(0)};
    assert EARLY[1..][1..] == EARLY[2..] && EARLY[2..][1..] == [];
    assert Steps(Initial, EARLY) == Steps(s1, EARLY[1..]) == Steps(s2, EARLY[2..]) == s3;
    StepsConcat(Initial, EARLY, LATE);
    OpeningThenHash(s3);
  }

  lemma OpeningThenHash(s: State)
    requires s.jobs == multiset{Hash(0, 7), Offer(0)} && s.acks.sent == [] && s.net.sockets == map[0 := 0]
    requires s.store.held == {} && s.store.offered == {} && s.tally.routes == multiset{}
    ensures var t := Steps(s, LATE);
      Busy(t) == 0 && t.net.sockets == map[0 := 0] && (0, 7) in t.store.held && t.store.offered == {}
  {
    assert AckedBy(s.acks, 0) == {};
    var s1 := Step(s, LATE[0]);
    assert s1.jobs == multiset{Hash(0, 7), Await(0, 0, {})};
    var s2 := Step(s1, LATE[1]);
    assert s2.jobs == multiset{Hash(0, 7)};
    var s3 := Step(s2, LATE[2]);
    assert LATE[1..][1..] == LATE[2..] && LATE[2..][1..] == [];
    assert Steps(s, LATE) == Steps(s1, LATE[1..]) == Steps(s2, LATE[2..]) == s3;
  }

  lemma {:induction false} StepsConcat(s: State, a: seq<Event>, b: seq<Event>)
    ensures Steps(s, a + b) == Steps(Steps(s, a), b)
    decreases |a|
  {
    hide Step;
    if a == [] {
      assert a + b == b;
    } else {
      assert (a + b)[1..] == a[1..] + b;
      StepsConcat(Step(s, a[0]), a[1..], b);
    }
  }

  // ---------------------------------------------------------------- the closure's own updates

  class Double {
    var acks: Acks
    var net: Net
    var store: Store
    var tally: Tally
    var jobs: multiset<Job>
    var faults: Faults

    ghost function Model(): State
      reads this
    {
      State(acks, net, store, tally, jobs, faults)
    }

    constructor ()
      ensures Model() == Initial
    {
      acks, net, store := Acks(0, [], []), Net(map[], []), Store({}, {}, {}, {}, {});
      tally, jobs, faults := Tally(0, 0, 0, 0, 0, multiset{}), multiset{}, Faults(false, false, false, None);
    }

    method Deliver(did: Did, frame: Frame)
      modifies `store, `jobs
      ensures Model() == Accept(old(Model()), did, frame)
    {
      store := store.(accepted := store.accepted + {(did, frame)});
      jobs := jobs + multiset{Hash(did, frame)};
      if did in net.sockets { store := store.(offered := store.offered + {(net.sockets[did], frame)}); }
    }

    method CloseSocket(w: SockId)
      modifies `net, `jobs
      ensures Model() == Shut(old(Model()), w)
    {
      if w >= |net.socks| || !net.socks[w].isOpen { return; }
      var did := net.socks[w].did;
      if did in net.sockets && net.sockets[did] == w { net := net.(sockets := net.sockets - {did}); }
      net := net.(socks := net.socks[w := Sock(did, false)]);
      jobs := jobs + multiset{Close(w)};
    }

    method CutOff(w: SockId)
      modifies this
      ensures Model() == Shut(old(Model()).(faults := old(faults).(closeOnNextText := None)), w)
    {
      faults := faults.(closeOnNextText := None);
      CloseSocket(w);
    }

    method SendText(w: SockId, key: Secret, ids: set<Frame>)
      requires w < |net.socks|
      modifies this
      ensures Model() == OnAck(old(Model()), w, key, ids)
    {
      var did := net.socks[w].did;
      if faults.closeOnNextText == Some(did) {
        CutOff(w);
        tally := tally.(sends := tally.sends + 1, dropped := tally.dropped + 1);
      } else {
        acks := acks.(sent := acks.sent + [Text(did, key, ids)]);
        tally := tally.(sends := tally.sends + 1, texts := tally.texts + 1);
      }
    }

    method SendDirect(w: SockId, receiver: Did, frame: Frame)
      modifies this
      ensures Model() == OnDirect(old(Model()), w, receiver, frame)
    {
      tally := tally.(sends := tally.sends + 1);
      if faults.refuseDirect || faults.refuseNextDirect {
        faults := faults.(refuseNextDirect := false);
        tally := tally.(dropped := tally.dropped + 1);
        jobs := jobs + multiset{Report(w)};
        return;
      }
      tally := tally.(direct := tally.direct + 1);
      Deliver(receiver, frame);
    }

    method Send(w: SockId, data: Data)
      requires w < |net.socks|
      modifies this
      ensures Model() == Step(old(Model()), Event.Send(w, data))
    {
      if net.socks[w].isOpen && data.Ack? {
        SendText(w, data.key, data.acks);
      } else if net.socks[w].isOpen && data.ToClient? {
        SendDirect(w, data.receiver, data.frame);
      } else {
        tally := tally.(sends := tally.sends + 1);
        if net.socks[w].isOpen && data.ToMediator? {
          tally := tally.(routes := tally.routes + multiset{net.socks[w].did});
        } else {
          tally := tally.(dropped := tally.dropped + 1);
        }
      }
    }

    method Route(session: Did, hop: Hop)
      requires session in tally.routes
      modifies this
      ensures Model() == Step(old(Model()), RouteEnds(session, hop))
    {
      tally := tally.(routes := tally.routes - multiset{session});
      if hop.NotCarried? || faults.dropRouted {
        tally := tally.(dropped := tally.dropped + 1);
        return;
      }
      tally := tally.(forwarded := tally.forwarded + 1);
      Deliver(hop.receiver, hop.frame);
    }

    /** Every text of the client is tried with the current key and then the old ones. */
    method ReadAcks(did: Did) returns (ids: set<Frame>)
      ensures ids == AckedBy(acks, did)
    {
      ids := {};
      for k := 0 to |acks.sent|
        invariant ids == AckedBy(acks.(sent := acks.sent[..k]), did)
      {
        var text := acks.sent[k];
        var mine := false;
        if text.did == did {
          var keys := [acks.secret] + acks.oldSecrets;
          for j := 0 to |keys|
            invariant mine <==> text.key in keys[..j]
          {
            if keys[j] == text.key { mine := true; }
          }
          assert keys[..|keys|] == keys;
        }
        assert mine <==> text.did == did && Opens(acks, text.key);
        OneMoreText(acks, did, k);
        if mine { ids := ids + text.acks; }
      }
      assert acks.sent[..|acks.sent|] == acks.sent;
    }

    /** The loop of `reoffer` over the client's held frames. */
    method OfferAll(did: Did, w: SockId, acked: set<Frame>)
      modifies `store
      ensures store == OfferHeld(old(store), did, w, acked)
    {
      var mine := set x | x in store.held && x.0 == did;
      var held, offered := store.held, {};
      var rest := mine;
      while rest != {}
        invariant rest <= mine
        invariant forall x :: x in held <==> x in store.held && !(x in mine - rest && x.1 in acked)
        invariant offered == set x | x in mine - rest && x.1 !in acked :: (w, x.1)
        decreases |rest|
      {
        var x :| x in rest;
        rest := rest - {x};
        if x.1 in acked {
          held := held - {x};
        } else {
          offered := offered + {(w, x.1)};
        }
      }
      assert held == OfferHeld(store, did, w, acked).held;
      assert store.offered + offered == OfferHeld(store, did, w, acked).offered;
      store := store.(held := held, offered := store.offered + offered,
        missed := store.missed + set x | x in store.owed && x.0 == w && (did, x.1) !in store.held);
    }

    method RotateKey(next: Secret)
      modifies `acks
      ensures Model() == Step(old(Model()), Rotate(next))
    {
      acks := acks.(oldSecrets := acks.oldSecrets + [acks.secret]);
      acks := acks.(secret := next);
    }

    /** The current socket of one client closes; every other client keeps its own. */
    method CloseCurrent(did: Did)
      requires SocketsOpen(net) && did in net.sockets
      modifies `net, `jobs
      ensures net == CutOne(old(net), did)
    {
      CloseSocket(net.sockets[did]);
    }

    /** Every current socket closes; afterwards no client has one, and none was opened. */
    method DropAll()
      requires SocketsOpen(net)
      modifies `net, `jobs
      ensures net.sockets == map[] && |net.socks| == |old(net).socks|
      ensures forall did :: did in old(net).sockets ==> net.socks[old(net).sockets[did]] == Sock(did, false)
    {
      var rest := net.sockets.Keys;
      while rest != {}
        invariant Cutting(old(net), net) && rest == net.sockets.Keys
        decreases |rest|
      {
        var did :| did in rest;
        CloseCurrent(did);
        rest := rest - {did};
      }
    }
  }

  function CutOne(n: Net, did: Did): Net
    requires SocketsOpen(n) && did in n.sockets
  {
    n.(sockets := n.sockets - {did}, socks := n.socks[n.sockets[did] := Sock(did, false)])
  }

  /** On the way from `was` to no open socket: whoever has no socket any more had it closed. */
  predicate Cutting(was: Net, n: Net)
  {
    && SocketsOpen(was) && SocketsOpen(n) && |n.socks| == |was.socks|
    && (forall did :: did in n.sockets ==> did in was.sockets && n.sockets[did] == was.sockets[did])
    && (forall did :: did in was.sockets && did !in n.sockets ==> n.socks[was.sockets[did]] == Sock(did, false))
  }

  lemma OneMoreText(a: Acks, did: Did, k: nat)
    requires k < |a.sent|
    ensures var text := a.sent[k];
      AckedBy(a.(sent := a.sent[..k + 1]), did)
      == AckedBy(a.(sent := a.sent[..k]), did) + (if text.did == did && Opens(a, text.key) then text.acks else {})
  {
  }

  /** The bookkeeping of `job` and `settled`: the number of unfinished jobs, and who waits for rest. */
  class Rest {
    var busy: nat
    var idle: set<nat>
    var woken: set<nat>
    ghost var state: State

    /** What is counted are the double's unfinished jobs and routes, and nobody sleeps at rest. */
    ghost predicate Valid()
      reads this
    {
      busy == |state.jobs| + |state.tally.routes| && (busy == 0 ==> idle == {})
    }

    constructor ()
      ensures Valid() && state == Initial && idle == {} && woken == {}
    {
      busy, idle, woken, state := 0, {}, {}, Initial;
    }

    /** A job more, that is, a double that has one more unfinished. */
    method JobStarts(ghost t: State)
      requires Valid() && Busy(t) == Busy(state) + 1
      modifies `busy, `state
      ensures Valid() && state == t && busy > 0
    {
      busy := busy + 1;
      state := t;
    }

    /** The last job to finish wakes everybody who waits; an earlier one wakes nobody. */
    method JobEnds(ghost t: State)
      requires Valid() && Busy(state) == Busy(t) + 1
      modifies this
      ensures Valid() && state == t
      ensures var w := Moves(Waiting(old(state), old(idle), old(woken), {}, {}), t); idle == w.idle && woken == w.woken
    {
      busy := busy - 1;
      state := t;
      if busy > 0 { return; }
      var waiting := idle;
      idle := {};
      woken := woken + waiting;
    }

    /** One turn of a `settled` call, at its start or after it was woken: it goes on exactly if no job and no
        route is unfinished, when every unacked frame has been offered, and sleeps until then otherwise. */
    method SettledTurn(caller: nat) returns (resolved: bool)
      requires Valid() && Sound(state)
      modifies `idle, `woken
      ensures Valid()
      ensures resolved <==> state.jobs == multiset{} && state.tally.routes == multiset{}
      ensures resolved ==> AllOffered(state)
      ensures !resolved <==> caller in idle
      ensures var w := Look(Waiting(state, old(idle), old(woken), {}, {}), caller); idle == w.idle && woken == w.woken
    {
      woken := woken - {caller};
      if busy > 0 {
        idle := idle + {caller};
        return false;
      }
      resolved := true;
      RestOffers(state);
    }
  }
}
