/** Where quota guards are: in futures that open a channel, in the queue of inbound channels, in live handles. */
module GuardFlow {
  import opened Types
  import opened Quota

  const DC_INBOUND_CHANNEL_SIZE: nat := 16

  datatype OpenState = Init(peer: PeerId, protocol: Protocol) | Opening(id: nat) | Finished

  datatype OpenError = NotSupported | Broken(detail: nat) | OtherOpenError

  /** What the swarm answers when the opening of a stream is polled. */
  datatype OpenOutcome = StillOpening | Opened | OpenFailed(error: OpenError) | TimedOut

  datatype PollResult = OpenPending | OpenReady(r: Result<nat>) | Panicked

  function MapOpenError(e: OpenError): Error {
    match e
    case NotSupported => DataChannel(ProtocolUnsupported)
    case Broken(detail) => DataChannel(IoFailure(detail))
    case OtherOpenError => Network(Unknown)
  }

  function FailureOf(outcome: OpenOutcome): Error
    requires outcome.OpenFailed? || outcome.TimedOut?
  {
    match outcome
    case OpenFailed(e) => MapOpenError(e)
    case TimedOut => Network(Timeout)
  }

  datatype Place = InFuture(f: nat) | InQueue | InHandle

  datatype Flow = Flow(
    limits: Limits,
    // The protocols registered for inbound channels; others never arrive.
    accepted: set<Protocol>,
    counters: Counters,
    futures: map<nat, OpenState>,
    queue: seq<nat>,
    receiverOpen: bool,
    handles: set<nat>,
    // Streams taken out of their handles and still open, with the guards their handles had.
    streams: map<nat, Guard>,
    // History: what each future is to open, guards issued and their number, live guards and where they are, drops
    // per guard, polls that returned Ready, polls that panicked.
    goals: map<nat, (PeerId, Protocol)>,
    guards: map<nat, Guard>,
    issued: nat,
    live: Live,
    place: map<nat, Place>,
    drops: map<nat, nat>,
    completed: set<nat>,
    panicked: set<nat>)

  datatype Step =
    | NewOpen(f: nat, peer: PeerId, protocol: Protocol)
    | PollOpen(f: nat, outcome: OpenOutcome)
    | DropOpen(f: nat)
    | Arrive(from: PeerId, on: Protocol)
    | Receive
    | CloseReceiver
    | DropQueued
    | DropHandle(id: nat)
    | IntoStream(id: nat)
    | CloseStream(id: nat)

  function Initial(limits: Limits, accepted: set<Protocol>): Flow {
    Flow(limits, accepted, NoCounters, map[], [], true, {}, map[], map[], map[], 0, map[], map[], map[], {}, {})
  }

  predicate Enabled(s: Flow, step: Step) {
    match step
    case NewOpen(f, _, _) => f !in s.futures && f !in s.completed && f !in s.panicked
    case PollOpen(f, _) => f in s.futures
    case DropOpen(f) => f in s.futures
    case Arrive(_, on) => on in s.accepted
    case Receive => s.receiverOpen && s.queue != []
    case CloseReceiver => s.receiverOpen
    case DropQueued => !s.receiverOpen && s.queue != []
    case DropHandle(id) => id in s.handles
    case IntoStream(id) => id in s.handles && id in s.guards
    case CloseStream(id) => id in s.streams
  }

  function Issue(s: Flow, g: Guard, at: Place): Flow {
    s.(counters := Acquired(s.counters, g), guards := s.guards[s.issued := g], issued := s.issued + 1,
       live := s.live[s.issued := g], place := s.place[s.issued := at])
  }

  /** What dropping a guard does, also if it were dropped before. */
  function Release(s: Flow, id: nat): Flow {
    if id !in s.guards then s else
    s.(counters := Released(s.counters, s.guards[id]), live := s.live - {id}, place := s.place - {id},
       drops := s.drops[id := Get(s.drops, id) + 1])
  }

  /** The opening of the stream has been polled while the future holds guard `id`. */
  function PolledOpening(s: Flow, f: nat, id: nat, outcome: OpenOutcome): Flow {
    match outcome
    case StillOpening => s.(futures := s.futures[f := Opening(id)])
    case Opened =>
      s.(futures := s.futures[f := Finished], completed := s.completed + {f}, handles := s.handles + {id},
         place := s.place[id := InHandle])
    case _ => Release(s, id).(futures := s.futures[f := Finished], completed := s.completed + {f})
  }

  function Polled(s: Flow, f: nat, outcome: OpenOutcome): Flow
    requires f in s.futures
  {
    match s.futures[f]
    case Init(peer, protocol) =>
      var g := Guard(peer, protocol, Direction.Outbound);
      if Admits(s.limits, s.counters, g) then PolledOpening(Issue(s, g, InFuture(f)), f, s.issued, outcome)
      else s.(futures := s.futures[f := Finished], completed := s.completed + {f})
    case Opening(id) => PolledOpening(s, f, id, outcome)
    case Finished => s.(panicked := s.panicked + {f})
  }

  function Arrived(s: Flow, from: PeerId, on: Protocol): Flow {
    var g := Guard(from, on, Inbound);
    if !Admits(s.limits, s.counters, g) then s else
    if s.receiverOpen && |s.queue| < DC_INBOUND_CHANNEL_SIZE
    then Issue(s, g, InQueue).(queue := s.queue + [s.issued])
    else Release(Issue(s, g, InQueue), s.issued)
  }

  function Next(s: Flow, step: Step): Flow
    requires Enabled(s, step)
  {
    match step
    case NewOpen(f, peer, protocol) =>
      s.(futures := s.futures[f := Init(peer, protocol)], goals := s.goals[f := (peer, protocol)])
    case PollOpen(f, outcome) => Polled(s, f, outcome)
    case DropOpen(f) =>
      (if s.futures[f].Opening? then Release(s, s.futures[f].id) else s).(futures := s.futures - {f})
    case Arrive(from, on) => Arrived(s, from, on)
    case Receive =>
      s.(queue := s.queue[1..], handles := s.handles + {s.queue[0]}, place := s.place[s.queue[0] := InHandle])
    case CloseReceiver => s.(receiverOpen := false)
    case DropQueued => Release(s, s.queue[0]).(queue := s.queue[1..])
    case DropHandle(id) => Release(s, id).(handles := s.handles - {id})
    case IntoStream(id) => Release(s, id).(handles := s.handles - {id}, streams := s.streams[id := s.guards[id]])
    case CloseStream(id) => s.(streams := s.streams - {id})
  }

  // ----- the invariant

  /** Guards are issued only within limits, and inbound ones only for registered protocols. */
  predicate IsPossible(limits: Limits, accepted: set<Protocol>, g: Guard) {
    && PeerLimit(limits, g.direction) >= 1 && limits.maxPerProtocol >= 1
    && (g.direction.Inbound? ==> g.protocol in accepted)
  }

  /** A guard is live and placed, or has been dropped once, from its issue on; a stream that was taken out is one
      whose guard has been dropped. */
  predicate IdAccounted(s: Flow, id: nat) {
    && (id in s.guards <==> id < s.issued)
    && (id in s.guards ==> IsPossible(s.limits, s.accepted, s.guards[id]))
    && (id in s.live ==> id in s.guards && s.live[id] == s.guards[id])
    && (id in s.live <==> id in s.place)
    && Get(s.drops, id) == (if id in s.guards && id !in s.live then 1 else 0)
    && (id in s.streams ==> id in s.guards && id !in s.live && s.streams[id] == s.guards[id])
  }

  /** The recorded place of a guard is where it is, and nothing else holds it. */
  predicate IdPlaced(s: Flow, id: nat) {
    && (id in s.handles <==> id in s.place && s.place[id] == InHandle)
    && (id in s.queue <==> id in s.place && s.place[id] == InQueue)
    && (id in s.queue && id in s.guards ==> s.guards[id].direction.Inbound?)
    && (id in s.place && s.place[id].InFuture? ==>
          s.place[id].f in s.futures && s.futures[s.place[id].f] == Opening(id))
  }

  /** The future holds the guard of a channel out to the peer and on the protocol it was made for. */
  predicate HoldsItsGoal(s: Flow, f: nat)
    requires f in s.futures
  {
    && f in s.goals
    && (s.futures[f].Init? ==> s.goals[f] == (s.futures[f].peer, s.futures[f].protocol))
    && (s.futures[f].Opening? && s.futures[f].id in s.guards ==>
          s.guards[s.futures[f].id] == Guard(s.goals[f].0, s.goals[f].1, Direction.Outbound))
  }

  /** A future holds the guard it opens with; it has finished exactly if one of its polls returned Ready. */
  predicate FutureOk(s: Flow, f: nat) {
    && (f in s.futures && s.futures[f].Opening? ==>
          s.futures[f].id in s.place && s.place[s.futures[f].id] == InFuture(f))
    && (f in s.futures ==> (s.futures[f].Finished? <==> f in s.completed) && HoldsItsGoal(s, f))
    && (f in s.panicked ==> f in s.completed)
  }

  predicate DistinctQueue(q: seq<nat>) {
    forall i, j :: 0 <= i < j < |q| ==> q[i] != q[j]
  }

  ghost predicate Counted(s: Flow) {
    Exact(s.counters, s.live) && Within(s.limits, s.live)
  }

  ghost predicate Held(s: Flow) {
    && (forall id :: IdAccounted(s, id) && IdPlaced(s, id))
    && (forall f :: FutureOk(s, f))
    && DistinctQueue(s.queue) && |s.queue| <= DC_INBOUND_CHANNEL_SIZE
  }

  ghost predicate Inv(s: Flow) {
    Counted(s) && Held(s)
  }

  // ----- counters

  lemma IssueCounted(s: Flow, g: Guard, at: Place)
    requires Counted(s) && Admits(s.limits, s.counters, g) && s.issued !in s.live
    ensures Counted(Issue(s, g, at))
  {
    AcquireExact(s.counters, s.live, s.issued, g);
    AcquireWithin(s.limits, s.counters, s.live, s.issued, g);
    hide Exact, Within, Acquired, Admits;
  }

  lemma ReleaseCounted(s: Flow, id: nat)
    requires Counted(s) && id in s.live && id in s.guards && s.guards[id] == s.live[id]
    ensures Counted(Release(s, id))
  {
    ReleaseExact(s.counters, s.live, id);
    ReleaseWithin(s.limits, s.live, id);
    hide Exact, Within, Released;
  }

  lemma PolledOpeningCounted(s: Flow, f: nat, id: nat, outcome: OpenOutcome)
    requires Counted(s) && id in s.live && id in s.guards && s.guards[id] == s.live[id]
    ensures Counted(PolledOpening(s, f, id, outcome))
  {
    ReleaseCounted(s, id);
    hide Exact, Within, Released;
  }

  lemma PollCounted(s: Flow, f: nat, outcome: OpenOutcome)
    requires Inv(s) && f in s.futures
    ensures Counted(Polled(s, f, outcome))
  {
    hide Exact, Within, Released, Acquired, Admits, Release, PolledOpening, Held;
    if s.futures[f].Init? {
      var g := Guard(s.futures[f].peer, s.futures[f].protocol, Direction.Outbound);
      if Admits(s.limits, s.counters, g) {
        UnpackHeld(s, s.issued, f);
        IssueCounted(s, g, InFuture(f));
        PolledOpeningCounted(Issue(s, g, InFuture(f)), f, s.issued, outcome);
      }
    } else if s.futures[f].Opening? {
      UnpackHeld(s, s.futures[f].id, f);
      PolledOpeningCounted(s, f, s.futures[f].id, outcome);
    }
  }

  lemma ArriveCounted(s: Flow, from: PeerId, on: Protocol)
    requires Inv(s)
    ensures Counted(Arrived(s, from, on))
  {
    hide Exact, Within, Released, Acquired, Admits, Release, Held;
    var g := Guard(from, on, Inbound);
    if Admits(s.limits, s.counters, g) {
      UnpackHeld(s, s.issued, 0);
      IssueCounted(s, g, InQueue);
      ReleaseCounted(Issue(s, g, InQueue), s.issued);
    }
  }

  lemma CountedKept(s: Flow, step: Step)
    requires Inv(s) && Enabled(s, step)
    ensures Counted(Next(s, step))
  {
    hide Exact, Within, Released, Release, Polled, Arrived, Held;
    match step
    case PollOpen(f, outcome) => PollCounted(s, f, outcome);
    case Arrive(from, on) => ArriveCounted(s, from, on);
    case DropOpen(f) =>
      if s.futures[f].Opening? {
        UnpackHeld(s, s.futures[f].id, f);
        ReleaseCounted(s, s.futures[f].id);
      }
    case DropQueued => UnpackHeld(s, s.queue[0], 0); ReleaseCounted(s, s.queue[0]);
    case DropHandle(id) => UnpackHeld(s, id, 0); ReleaseCounted(s, id);
    case IntoStream(id) => UnpackHeld(s, id, 0); ReleaseCounted(s, id);
    case _ =>
  }

  // ----- places

  lemma UnpackHeld(s: Flow, id: nat, f: nat)
    requires Held(s)
    ensures Tracked(s, id, f)
  {
  }

  /** What the invariant says of one guard and one future. */
  predicate Tracked(s: Flow, id: nat, f: nat) {
    IdAccounted(s, id) && IdPlaced(s, id) && FutureOk(s, f)
  }

  lemma TailOfQueue(q: seq<nat>, id: nat)
    requires q != [] && DistinctQueue(q)
    ensures id in q[1..] <==> id in q && id != q[0]
    ensures DistinctQueue(q[1..])
  {
    if id in q && id != q[0] {
      var i :| 0 <= i < |q| && q[i] == id;
      assert q[1..][i - 1] == id;
    }
  }

  /** A future that has just been given its guard. */
  function Begun(s: Flow, f: nat, g: Guard): Flow {
    Issue(s, g, InFuture(f)).(futures := s.futures[f := Opening(s.issued)])
  }

  lemma BeginKeepsPlaces(s: Flow, f: nat, guard: Guard, id: nat, g: nat)
    requires f in s.futures && s.futures[f].Init?
    requires guard == Guard(s.futures[f].peer, s.futures[f].protocol, Direction.Outbound)
    requires IsPossible(s.limits, s.accepted, guard)
    requires Tracked(s, id, g) && Tracked(s, s.issued, f)
    ensures Tracked(Begun(s, f, guard), id, g)
    ensures f in Begun(s, f, guard).futures && Begun(s, f, guard).futures[f] == Opening(s.issued)
  {
    hide Acquired, IsPossible;
  }

  lemma ReleaseKeepsPlaces(s: Flow, f: nat, held: nat, after: Option<OpenState>, id: nat, g: nat)
    requires f in s.futures && s.futures[f] == Opening(held)
    requires Tracked(s, id, g) && Tracked(s, held, f)
    requires after in {None, Some(Finished)}
    ensures var s' := Release(s, held).(
              futures := if after.Some? then s.futures[f := Finished] else s.futures - {f},
              completed := if after.Some? then s.completed + {f} else s.completed);
            Tracked(s', id, g)
  {
    hide Released;
  }

  lemma OpeningKeepsPlaces(s: Flow, f: nat, held: nat, outcome: OpenOutcome, id: nat, g: nat)
    requires f in s.futures && s.futures[f] == Opening(held)
    requires Tracked(s, id, g) && Tracked(s, held, f)
    ensures Tracked(PolledOpening(s, f, held, outcome), id, g)
  {
    if outcome.StillOpening? {
      assert s.futures[f := Opening(held)] == s.futures;
    } else if !outcome.Opened? {
      ReleaseKeepsPlaces(s, f, held, Some(Finished), id, g);
      hide Release, Tracked;
    }
  }

  /** A future over quota finishes; polling a finished one panics. */
  lemma NoGuardKeepsPlaces(s: Flow, f: nat, id: nat, g: nat)
    requires f in s.futures && !s.futures[f].Opening? && Tracked(s, id, g)
    ensures Tracked(s.(futures := s.futures[f := Finished], completed := s.completed + {f}), id, g)
    ensures s.futures[f].Finished? && Tracked(s, id, f) ==> Tracked(s.(panicked := s.panicked + {f}), id, g)
  {
  }

  lemma PollKeepsPlaces(s: Flow, f: nat, outcome: OpenOutcome, id: nat, g: nat)
    requires Held(s) && f in s.futures
    ensures Tracked(Polled(s, f, outcome), id, g)
  {
    hide Held, Begun, PolledOpening, Issue, Tracked, Release;
    UnpackHeld(s, id, g);
    UnpackHeld(s, id, f);
    UnpackHeld(s, s.issued, f);
    if !s.futures[f].Opening? { NoGuardKeepsPlaces(s, f, id, g); }
    match s.futures[f]
    case Init(peer, protocol) =>
      var guard := Guard(peer, protocol, Direction.Outbound);
      if Admits(s.limits, s.counters, guard) {
        BeginKeepsPlaces(s, f, guard, id, g);
        BeginKeepsPlaces(s, f, guard, s.issued, f);
        OpeningKeepsPlaces(Begun(s, f, guard), f, s.issued, outcome, id, g);
        BegunThenPolled(s, f, guard, outcome);
      }
    case Opening(held) =>
      UnpackHeld(s, held, f);
      OpeningKeepsPlaces(s, f, held, outcome, id, g);
    case Finished =>
  }

  lemma BegunThenPolled(s: Flow, f: nat, guard: Guard, outcome: OpenOutcome)
    ensures PolledOpening(Begun(s, f, guard), f, s.issued, outcome)
            == PolledOpening(Issue(s, guard, InFuture(f)), f, s.issued, outcome)
  {
    var a, b := Begun(s, f, guard), Issue(s, guard, InFuture(f));
    assert a.futures[f := Finished] == b.futures[f := Finished];
    assert a.futures[f := Opening(s.issued)] == b.futures[f := Opening(s.issued)];
    hide Acquired, Released;
  }

  lemma DropOpenKeepsPlaces(s: Flow, f: nat, id: nat, g: nat)
    requires Held(s) && f in s.futures
    ensures Tracked(Next(s, DropOpen(f)), id, g)
  {
    UnpackHeld(s, id, g);
    if s.futures[f].Opening? {
      UnpackHeld(s, s.futures[f].id, f);
      ReleaseKeepsPlaces(s, f, s.futures[f].id, None, id, g);
      hide Release, Tracked;
    } else if id in s.place && s.place[id].InFuture? {
      UnpackHeld(s, id, s.place[id].f);
    }
  }

  lemma IssueKeepsPlaces(s: Flow, guard: Guard, id: nat, g: nat)
    requires guard.direction.Inbound? && IsPossible(s.limits, s.accepted, guard)
    requires Tracked(s, id, g) && Tracked(s, s.issued, g)
    ensures Tracked(Issue(s, guard, InQueue).(queue := s.queue + [s.issued]), id, g)
  {
    hide Acquired, IsPossible;
  }

  /** A guard issued and dropped at once leaves no trace but its number. */
  lemma RefusalKeepsPlaces(s: Flow, guard: Guard, id: nat, g: nat)
    requires IsPossible(s.limits, s.accepted, guard)
    requires Tracked(s, id, g) && Tracked(s, s.issued, g)
    ensures Tracked(Release(Issue(s, guard, InQueue), s.issued), id, g)
  {
    hide Acquired, Released, IsPossible;
  }

  lemma ArriveKeepsPlaces(s: Flow, from: PeerId, on: Protocol, id: nat, g: nat)
    requires Held(s) && on in s.accepted
    ensures Tracked(Arrived(s, from, on), id, g)
  {
    hide Held, Acquired, Released, Tracked, Issue, Release;
    var guard := Guard(from, on, Inbound);
    UnpackHeld(s, id, g);
    UnpackHeld(s, s.issued, g);
    if Admits(s.limits, s.counters, guard) {
      IssueKeepsPlaces(s, guard, id, g);
      RefusalKeepsPlaces(s, guard, id, g);
    }
  }

  lemma ReceiveKeepsPlaces(s: Flow, id: nat, g: nat)
    requires Held(s) && Enabled(s, Receive)
    ensures Tracked(Next(s, Receive), id, g)
  {
    hide Held, DistinctQueue;
    UnpackHeld(s, id, g);
    UnpackHeld(s, s.queue[0], g);
    UnpackQueue(s);
    TailOfQueue(s.queue, id);
  }

  lemma DropQueuedKeepsPlaces(s: Flow, id: nat, g: nat)
    requires Held(s) && Enabled(s, DropQueued)
    ensures Tracked(Next(s, DropQueued), id, g)
  {
    hide Held, Released, DistinctQueue;
    UnpackHeld(s, id, g);
    UnpackHeld(s, s.queue[0], g);
    UnpackQueue(s);
    TailOfQueue(s.queue, id);
  }

  /** Dropping a handle, or taking the stream out of it. */
  lemma HandleKeepsPlaces(s: Flow, step: Step, id: nat, g: nat)
    requires Held(s) && (step.DropHandle? || step.IntoStream?) && Enabled(s, step)
    ensures Tracked(Next(s, step), id, g)
  {
    hide Held, Released, DistinctQueue, IsPossible;
    UnpackHeld(s, id, g);
    UnpackHeld(s, step.id, g);
  }

  lemma UnpackQueue(s: Flow)
    requires Held(s)
    ensures DistinctQueue(s.queue) && |s.queue| <= DC_INBOUND_CHANNEL_SIZE
  {
  }

  lemma StepKeepsPlaces(s: Flow, step: Step, id: nat, g: nat)
    requires Held(s) && Enabled(s, step) && !step.PollOpen?
    ensures Tracked(Next(s, step), id, g)
  {
    hide Held, Release, Arrived, Polled, IsPossible;
    UnpackHeld(s, id, g);
    match step
    case NewOpen(f, _, _) =>
      if id in s.place && s.place[id].InFuture? { UnpackHeld(s, id, s.place[id].f); }
    case DropOpen(f) => DropOpenKeepsPlaces(s, f, id, g);
    case Arrive(from, on) => ArriveKeepsPlaces(s, from, on, id, g);
    case Receive => ReceiveKeepsPlaces(s, id, g);
    case DropQueued => DropQueuedKeepsPlaces(s, id, g);
    case DropHandle(_) => HandleKeepsPlaces(s, step, id, g);
    case IntoStream(_) => HandleKeepsPlaces(s, step, id, g);
    case _ =>
  }

  lemma ArrivalKeepsQueue(s: Flow, from: PeerId, on: Protocol)
    requires Held(s)
    ensures DistinctQueue(Arrived(s, from, on).queue) && |Arrived(s, from, on).queue| <= DC_INBOUND_CHANNEL_SIZE
  {
    hide Acquired, Released, Admits, IdAccounted, FutureOk, Held;
    UnpackQueue(s);
    UnpackHeld(s, s.issued, 0);
    NextIsNew(s);
  }

  lemma NextIsNew(s: Flow)
    requires Held(s)
    ensures s.issued !in s.queue
  {
    hide Held, FutureOk;
    UnpackHeld(s, s.issued, 0);
  }

  /** What polling a future leaves alone. */
  ghost predicate SameHandOff(s: Flow, s': Flow) {
    && s'.limits == s.limits && s'.accepted == s.accepted && s'.queue == s.queue
    && s'.receiverOpen == s.receiverOpen && s'.streams == s.streams
  }

  lemma OpeningFrame(s: Flow, f: nat, id: nat, outcome: OpenOutcome)
    ensures SameHandOff(s, PolledOpening(s, f, id, outcome))
  {
    hide Released;
  }

  lemma FirstPollFrame(s: Flow, f: nat, g: Guard, outcome: OpenOutcome)
    ensures SameHandOff(s, PolledOpening(Issue(s, g, InFuture(f)), f, s.issued, outcome))
  {
    hide Acquired, PolledOpening;
    OpeningFrame(Issue(s, g, InFuture(f)), f, s.issued, outcome);
  }

  lemma PollFrame(s: Flow, f: nat, outcome: OpenOutcome)
    requires f in s.futures
    ensures SameHandOff(s, Polled(s, f, outcome))
  {
    hide Admits, PolledOpening, Issue;
    match s.futures[f]
    case Init(peer, protocol) => FirstPollFrame(s, f, Guard(peer, protocol, Direction.Outbound), outcome);
    case Opening(id) => OpeningFrame(s, f, id, outcome);
    case Finished =>
  }

  lemma ArriveFrame(s: Flow, from: PeerId, on: Protocol)
    ensures var s' := Arrived(s, from, on);
            && s'.limits == s.limits && s'.accepted == s.accepted
            && s'.receiverOpen == s.receiverOpen && s'.streams == s.streams
  {
    hide Admits, Issue, Release;
    IssuedAndReleasedFrame(s, Guard(from, on, Inbound));
  }

  lemma IssuedAndReleasedFrame(s: Flow, g: Guard)
    ensures SameHandOff(s, Issue(s, g, InQueue)) && SameHandOff(s, Release(Issue(s, g, InQueue), s.issued))
  {
    hide Acquired, Released;
  }

  lemma QueueKept(s: Flow, step: Step)
    requires Held(s) && Enabled(s, step)
    ensures DistinctQueue(Next(s, step).queue) && |Next(s, step).queue| <= DC_INBOUND_CHANNEL_SIZE
  {
    hide Acquired, Released, Admits, IdAccounted, FutureOk, Held, Arrived, DistinctQueue, Polled;
    UnpackQueue(s);
    match step
    case Arrive(from, on) => ArrivalKeepsQueue(s, from, on);
    case PollOpen(f, outcome) => PollFrame(s, f, outcome);
    case Receive => TailOfQueue(s.queue, 0);
    case DropQueued => TailOfQueue(s.queue, 0);
    case _ =>
  }

  lemma InvKept(s: Flow, step: Step)
    requires Inv(s) && Enabled(s, step)
    ensures Inv(Next(s, step))
  {
    CountedKept(s, step);
    QueueKept(s, step);
    hide Next, Enabled, Counted, Polled;
    var s' := Next(s, step);
    forall id: nat, f: nat ensures Tracked(s', id, f) {
      if step.PollOpen? { PollStep(s, step); PollKeepsPlaces(s, step.f, step.outcome, id, f); }
      else { StepKeepsPlaces(s, step, id, f); }
    }
    forall id: nat ensures IdAccounted(s', id) && IdPlaced(s', id) { assert Tracked(s', id, 0); }
    forall f: nat ensures FutureOk(s', f) { assert Tracked(s', 0, f); }
  }

  lemma PollStep(s: Flow, step: Step)
    requires Enabled(s, step) && step.PollOpen?
    ensures step.f in s.futures && Next(s, step) == Polled(s, step.f, step.outcome)
  {
  }

  // ----- whole runs

  ghost predicate CanRun(s: Flow, steps: seq<Step>)
    decreases |steps|
  {
    steps == [] || (Enabled(s, steps[0]) && CanRun(Next(s, steps[0]), steps[1..]))
  }

  ghost function After(s: Flow, steps: seq<Step>): Flow
    requires CanRun(s, steps)
    decreases |steps|
  {
    if steps == [] then s else After(Next(s, steps[0]), steps[1..])
  }

  ghost predicate Reachable(s: Flow) {
    exists steps: seq<Step> ::
      CanRun(Initial(s.limits, s.accepted), steps) && After(Initial(s.limits, s.accepted), steps) == s
  }

  lemma {:induction false} InvAlong(s: Flow, steps: seq<Step>)
    requires Inv(s) && CanRun(s, steps)
    ensures Inv(After(s, steps))
    decreases |steps|
  {
    hide Next, Enabled, Inv;
    if steps != [] {
      InvKept(s, steps[0]);
      InvAlong(Next(s, steps[0]), steps[1..]);
    }
  }

  lemma InitialInv(limits: Limits, accepted: set<Protocol>)
    ensures Inv(Initial(limits, accepted))
  {
    EmptyExact();
    forall sel: Selector ensures CountOf(map[], sel) == 0 {
      assert Matching(map[], sel) == {};
    }
  }

  lemma ReachableInv(s: Flow)
    requires Reachable(s)
    ensures Inv(s)
  {
    hide Next, Enabled, Inv;
    InitialInv(s.limits, s.accepted);
    var start := Initial(s.limits, s.accepted);
    var steps: seq<Step> :| CanRun(start, steps) && After(start, steps) == s;
    InvAlong(start, steps);
  }

  /** What the counters say of one key. */
  lemma CountersTell(s: Flow, key: nat)
    requires Counted(s)
    ensures Get(s.counters.inbound, key) == CountOf(s.live, FromPeer(key))
    ensures Get(s.counters.outbound, key) == CountOf(s.live, ToPeer(key))
    ensures Get(s.counters.perProtocol, key) == CountOf(s.live, OnProtocol(key))
    ensures key in s.counters.inbound <==> CountOf(s.live, FromPeer(key)) > 0
    ensures key in s.counters.outbound <==> CountOf(s.live, ToPeer(key)) > 0
    ensures key in s.counters.perProtocol <==> CountOf(s.live, OnProtocol(key)) > 0
  {
    var from, to, on := (p: nat) => FromPeer(p), (p: nat) => ToPeer(p), (q: nat) => OnProtocol(q);
    assert from(key) == FromPeer(key) && to(key) == ToPeer(key) && on(key) == OnProtocol(key);
  }

  /** Exact quota accounting over all runs: every counter is the number of live guards of its peer and direction,
      or of its protocol, none exceeds its limit, keys are present exactly for positive counts, the sums agree. */
  lemma QuotaIsExact(s: Flow, key: nat)
    requires Reachable(s)
    ensures Get(s.counters.inbound, key) == CountOf(s.live, FromPeer(key)) <= s.limits.maxInboundPerPeer
    ensures Get(s.counters.outbound, key) == CountOf(s.live, ToPeer(key)) <= s.limits.maxOutboundPerPeer
    ensures Get(s.counters.perProtocol, key) == CountOf(s.live, OnProtocol(key)) <= s.limits.maxPerProtocol
    ensures key in s.counters.inbound <==> CountOf(s.live, FromPeer(key)) > 0
    ensures key in s.counters.outbound <==> CountOf(s.live, ToPeer(key)) > 0
    ensures key in s.counters.perProtocol <==> CountOf(s.live, OnProtocol(key)) > 0
    ensures Sum(s.counters.inbound) + Sum(s.counters.outbound) == Sum(s.counters.perProtocol) == |s.live|
  {
    ReachableInv(s);
    SumsAgree(s.counters, s.live);
    CountersTell(s, key);
  }

  ghost predicate HeldAt(s: Flow, at: Place, id: nat) {
    match at
    case InFuture(f) => f in s.futures && s.futures[f] == Opening(id)
    case InQueue => id in s.queue
    case InHandle => id in s.handles
  }

  /** Guards are linear: a live guard is held in exactly one place, and once; a guard that is not live is held
      nowhere and, if it was ever issued, has been dropped exactly once. */
  lemma GuardsAreLinear(s: Flow, id: nat)
    requires Reachable(s)
    ensures id in s.live ==> exists at :: HeldAt(s, at, id) && forall other :: HeldAt(s, other, id) ==> other == at
    ensures id !in s.live ==> forall at :: !HeldAt(s, at, id)
    ensures DistinctQueue(s.queue) && |s.queue| <= DC_INBOUND_CHANNEL_SIZE
    ensures Get(s.drops, id) == if id < s.issued && id !in s.live then 1 else 0
  {
    ReachableInv(s);
    hide Exact, Within;
    UnpackHeld(s, id, 0);
    if id in s.live {
      assert HeldAt(s, s.place[id], id);
    }
    forall at | HeldAt(s, at, id) ensures id in s.place && s.place[id] == at {
      if at.InFuture? { UnpackHeld(s, id, at.f); }
    }
  }

  /** In every run, an opening future holds the guard of an outbound channel to the peer and on the protocol it was made
      for, and the channels waiting in the queue are inbound. */
  lemma GuardsAreWhatWasAskedFor(s: Flow, f: nat, id: nat)
    requires Reachable(s)
    ensures f in s.futures && s.futures[f].Opening? ==>
              && f in s.goals && s.futures[f].id in s.live
              && s.live[s.futures[f].id] == Guard(s.goals[f].0, s.goals[f].1, Direction.Outbound)
    ensures id in s.queue ==> id in s.live && s.live[id].direction.Inbound?
  {
    hide Counted, Held;
    ReachableInv(s);
    UnpackHeld(s, id, f);
    if f in s.futures && s.futures[f].Opening? { UnpackHeld(s, s.futures[f].id, f); }
  }

  /** When every future is dropped or done, the queue drained and every handle gone, the counters are empty. */
  lemma NothingHeldNothingCounted(s: Flow)
    requires Reachable(s) && s.queue == [] && s.handles == {}
    requires forall f :: f in s.futures ==> !s.futures[f].Opening?
    ensures s.counters == NoCounters
  {
    ReachableInv(s);
    forall id: nat ensures id !in s.live {
      UnpackHeld(s, id, 0);
    }
    assert s.live == map[];
    CountersAreUnique(s.counters, s.counters, s.live);
  }

  /** Polling panics exactly if an earlier poll of the same future returned Ready. */
  lemma PanicsOnlyAfterReady(s: Flow, f: nat, outcome: OpenOutcome)
    requires Reachable(s) && f in s.futures
    ensures Polled(s, f, outcome).panicked != s.panicked ==> f in s.completed
    ensures f in s.completed <==> s.futures[f].Finished?
  {
    hide Exact, Within, Admits, Held, IdAccounted, IdPlaced, Acquired, Released;
    ReachableInv(s);
    UnpackHeld(s, 0, f);
  }

  // ----- in place

  function StateAfter(outcome: OpenOutcome, id: nat): OpenState {
    if outcome.StillOpening? then Opening(id) else Finished
  }

  predicate KeepsGuard(outcome: OpenOutcome) { outcome.StillOpening? || outcome.Opened? }

  function PollAnswer(outcome: OpenOutcome, id: nat): PollResult {
    match outcome
    case StillOpening => OpenPending
    case Opened => OpenReady(Ok(id))
    case _ => OpenReady(Err(FailureOf(outcome)))
  }

  /** What polling an opening future does to its state and to the live guards, and what it returns: the quota is taken
      first; the guard stays while the stream is being opened, goes into the handle with an opened one, and is dropped
      otherwise. */
  function OpenPolled(limits: Limits, counters: Counters, live: Live, state: OpenState, outcome: OpenOutcome, id: nat)
    : (OpenState, Live, PollResult)
  {
    match state
    case Init(peer, protocol) =>
      var g := Guard(peer, protocol, Direction.Outbound);
      if !Admits(limits, counters, g) then (Finished, live, OpenReady(Err(DataChannel(ResourceLimitExceeded))))
      else
        (StateAfter(outcome, id), if KeepsGuard(outcome) then live[id := g] else live, PollAnswer(outcome, id))
    case Opening(held) =>
      (StateAfter(outcome, held), if KeepsGuard(outcome) then live else live - {held}, PollAnswer(outcome, held))
    case Finished => (Finished, live, Panicked)
  }

  /** A poll fails with the limit error exactly if live guards fill the limit of the peer or of the protocol when the
      guard is first asked for; otherwise it answers what the opening of the stream answers, each failure under its own
      name, and success with the channel whose guard was taken. */
  lemma OpenFailuresAreTold(limits: Limits, counters: Counters, live: Live, state: OpenState, outcome: OpenOutcome,
                            id: nat)
    requires Exact(counters, live) && !state.Finished?
    ensures var r := OpenPolled(limits, counters, live, state, outcome, id).2;
            var full := state.Init? && (CountOf(live, ToPeer(state.peer)) >= limits.maxOutboundPerPeer
                                        || CountOf(live, OnProtocol(state.protocol)) >= limits.maxPerProtocol);
            && (r == OpenReady(Err(DataChannel(ResourceLimitExceeded))) <==> full)
            && (r == OpenPending <==> !full && outcome.StillOpening?)
            && (r == OpenReady(Ok(if state.Init? then id else state.id)) <==> !full && outcome.Opened?)
            && (r == OpenReady(Err(Network(Timeout))) <==> !full && outcome.TimedOut?)
            && (r == OpenReady(Err(DataChannel(ProtocolUnsupported))) <==> !full && outcome == OpenFailed(NotSupported))
            && (r == OpenReady(Err(Network(Unknown))) <==> !full && outcome == OpenFailed(OtherOpenError))
            && (forall d :: r == OpenReady(Err(DataChannel(IoFailure(d))))
                            <==> !full && outcome == OpenFailed(Broken(d)))
            && !r.Panicked?
  {
    if state.Init? {
      AdmissionIsExact(limits, counters, live, Guard(state.peer, state.protocol, Direction.Outbound));
    }
    hide Exact, CountOf, Admits;
  }

  /** What an inbound channel does to the queue and to the live guards: over quota, or with a full or closed queue,
      nothing is left behind. */
  function ChannelArrived(limits: Limits, counters: Counters, live: Live, queue: seq<nat>, open: bool, g: Guard,
                          id: nat)
    : (seq<nat>, Live)
  {
    if Admits(limits, counters, g) && open && |queue| < DC_INBOUND_CHANNEL_SIZE then (queue + [id], live[id := g])
    else (queue, live)
  }

  /** The two states differ by what a poll of future `f` with this effect does. */
  ghost predicate PolledTo(s: Flow, s': Flow, f: nat, state: OpenState, live: Live, r: PollResult) {
    && s'.futures == s.futures[f := state] && s'.live == live
    && s'.completed == s.completed + (if r.OpenReady? then {f} else {})
    && s'.panicked == s.panicked + (if r.Panicked? then {f} else {})
    && s'.handles == s.handles + (if r.OpenReady? && r.r.Ok? then {r.r.value} else {})
  }

  lemma OpeningPolledTo(s: Flow, f: nat, id: nat, outcome: OpenOutcome)
    requires id in s.guards
    ensures PolledTo(s, PolledOpening(s, f, id, outcome), f, StateAfter(outcome, id),
                     if KeepsGuard(outcome) then s.live else s.live - {id}, PollAnswer(outcome, id))
  {
    hide Released;
  }

  lemma FirstPolledTo(s: Flow, f: nat, g: Guard, outcome: OpenOutcome)
    requires s.issued !in s.live
    ensures PolledTo(s, PolledOpening(Issue(s, g, InFuture(f)), f, s.issued, outcome), f, StateAfter(outcome, s.issued),
                     if KeepsGuard(outcome) then s.live[s.issued := g] else s.live, PollAnswer(outcome, s.issued))
  {
    hide Acquired, PolledOpening, StateAfter, PollAnswer, KeepsGuard;
    assert s.live[s.issued := g] - {s.issued} == s.live;
    OpeningPolledTo(Issue(s, g, InFuture(f)), f, s.issued, outcome);
  }

  lemma WithoutGuardPolledTo(s: Flow, f: nat)
    requires f in s.futures
    ensures PolledTo(s, s.(futures := s.futures[f := Finished], completed := s.completed + {f}), f, Finished, s.live,
                     OpenReady(Err(DataChannel(ResourceLimitExceeded))))
    ensures s.futures[f].Finished? ==>
              PolledTo(s, s.(panicked := s.panicked + {f}), f, Finished, s.live, Panicked)
  {
    assert s.futures[f].Finished? ==> s.futures[f := Finished] == s.futures;
  }

  /** Polling the future object is the polling step of the machine. */
  lemma PollRefinesFlow(s: Flow, f: nat, outcome: OpenOutcome)
    requires Held(s) && f in s.futures
    ensures var (state, live, r) := OpenPolled(s.limits, s.counters, s.live, s.futures[f], outcome, s.issued);
            PolledTo(s, Polled(s, f, outcome), f, state, live, r)
  {
    hide Held, Admits, Issue, PolledOpening, StateAfter, PollAnswer, KeepsGuard, PolledTo;
    UnpackHeld(s, s.issued, f);
    WithoutGuardPolledTo(s, f);
    match s.futures[f]
    case Init(peer, protocol) => FirstPolledTo(s, f, Guard(peer, protocol, Direction.Outbound), outcome);
    case Opening(held) =>
      UnpackHeld(s, held, f);
      OpeningPolledTo(s, f, held, outcome);
    case Finished =>
  }

  lemma RefusedLeavesLive(s: Flow, g: Guard)
    requires s.issued !in s.live
    ensures var s' := Release(Issue(s, g, InQueue), s.issued); s'.live == s.live && s'.queue == s.queue
  {
    hide Acquired, Released;
    assert s.live[s.issued := g] - {s.issued} == s.live;
  }

  /** Handling an inbound channel is its arrival in the machine. */
  lemma ArrivalRefinesFlow(s: Flow, from: PeerId, on: Protocol)
    requires Held(s)
    ensures var (queue, live) := ChannelArrived(s.limits, s.counters, s.live, s.queue, s.receiverOpen,
                                                Guard(from, on, Inbound), s.issued);
            Arrived(s, from, on).queue == queue && Arrived(s, from, on).live == live
  {
    hide Held, Admits, Acquired, Release;
    UnpackHeld(s, s.issued, 0);
    RefusedLeavesLive(s, Guard(from, on, Inbound));
  }

  /** A channel that is turned away leaves the counters as they were. */
  lemma RefusalLeavesCounters(s: Flow, from: PeerId, on: Protocol)
    requires Inv(s) && Arrived(s, from, on).live == s.live
    ensures Arrived(s, from, on).counters == s.counters
  {
    hide Held, Exact, Within, Arrived;
    ArriveCounted(s, from, on);
    CountersAreUnique(s.counters, Arrived(s, from, on).counters, s.live);
  }

  /** Opens an outbound data channel. It takes its quota when it is first polled; the guard it then holds goes
      into the handle, or is dropped with the error. */
  class DataChannelOpenFuture {
    var state: OpenState
    /** The guard inside the opening future. */
    var held: Option<Guard>
    const registry: ChannelRegistry

    constructor (peer: PeerId, protocol: Protocol, registry: ChannelRegistry)
      ensures state == Init(peer, protocol) && held == None && this.registry == registry
    {
      state, held := Init(peer, protocol), None;
      this.registry := registry;
    }

    /** A guard is held exactly while opening, and it is live under the name the state carries. */
    ghost predicate Valid()
      reads this, registry
    {
      && registry.Valid() && (held.Some? <==> state.Opening?)
      && (state.Opening? ==> state.id in registry.live && registry.live[state.id] == held.value)
    }

    /** `id` names the guard that this poll may be given; `outcome` is what the opening of the stream answers. */
    method Poll(outcome: OpenOutcome, id: nat) returns (r: PollResult)
      requires Valid() && id !in registry.live
      modifies this, registry
      ensures Valid()
      ensures (state, registry.live, r)
              == OpenPolled(registry.limits, old(registry.View()), old(registry.live), old(state), outcome, id)
    {
      hide Exact, Within, CountOf, Admits, Acquired, Released;
      ghost var before := registry.live;
      var first := true;
      while true
        invariant Valid()
        invariant first ==> state == old(state) && registry.live == before && registry.View() == old(registry.View())
        invariant !first ==> old(state).Init? && state == Opening(id)
                             && held == Some(Guard(old(state).peer, old(state).protocol, Direction.Outbound))
                             && Admits(registry.limits, old(registry.View()), held.value)
                             && registry.live == before[id := held.value]
        decreases first
      {
        var current, guard := state, held;
        state, held := Finished, None;
        match current {
          case Init(peer, protocol) =>
            AdmissionIsExact(registry.limits, registry.View(), registry.live,
                             Guard(peer, protocol, Direction.Outbound));
            held := registry.TryAcquire(peer, protocol, Direction.Outbound, id);
            if held.None? {
              return OpenReady(Err(DataChannel(ResourceLimitExceeded)));
            }
            state := Opening(id);
            first := false;
          case Opening(_) =>
            match outcome {
              case StillOpening =>
                state, held := current, guard;
                return OpenPending;
              case Opened =>
                return OpenReady(Ok(current.id));
              case _ =>
                assert !first ==> before[id := guard.value] - {id} == before;
                registry.Drop(guard.value, current.id);
                return OpenReady(Err(FailureOf(outcome)));
            }
          case Finished =>
            return Panicked;
        }
      }
    }

    /** Dropping the future early drops the guard it holds. */
    method Drop()
      requires Valid()
      modifies this, registry
      ensures Valid() && state == Finished
      ensures registry.live == old(registry.live) - (if old(state).Opening? then {old(state).id} else {})
    {
      if held.Some? {
        registry.Drop(held.value, state.id);
      }
      state, held := Finished, None;
    }
  }

  /** Accepts inbound channels: checks the quota and hands the channel over without blocking. */
  class InboundChannels {
    const registry: ChannelRegistry
    var queue: seq<nat>
    var receiverOpen: bool

    constructor (registry: ChannelRegistry)
      ensures this.registry == registry && queue == [] && receiverOpen
    {
      this.registry, queue, receiverOpen := registry, [], true;
    }

    /** Over quota, or with a full or closed queue, nothing is left behind. */
    method HandleInboundChannel(peer: PeerId, protocol: Protocol, id: nat)
      requires registry.Valid() && id !in registry.live
      modifies this, registry
      ensures registry.Valid() && receiverOpen == old(receiverOpen)
      ensures (queue, registry.live)
              == ChannelArrived(registry.limits, old(registry.View()), old(registry.live), old(queue), receiverOpen,
                                Guard(peer, protocol, Inbound), id)
      ensures queue == old(queue) ==> registry.View() == old(registry.View())
    {
      hide Exact, Within, CountOf, Admits, Acquired, Released;
      ghost var before, counters := registry.live, registry.View();
      AdmissionIsExact(registry.limits, registry.View(), registry.live, Guard(peer, protocol, Inbound));
      var guard := registry.TryAcquire(peer, protocol, Inbound, id);
      if guard.None? {
        return;
      }
      if receiverOpen && |queue| < DC_INBOUND_CHANNEL_SIZE {
        queue := queue + [id];
      } else {
        registry.Drop(guard.value, id);
        assert before[id := guard.value] - {id} == before;
        CountersAreUnique(counters, registry.View(), before);
      }
    }
  }
}
