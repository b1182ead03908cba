/** What the event loop keeps about its iterations: pruning, the chain in progress, the events it sends on. */
module LoopDiscipline {
  import opened Types
  import opened Commands
  import opened Chain
  import opened PeerEvents
  import opened Runtime
  import opened RuntimeInvariants
  import opened RuntimeCorrelation

  /** Between the top of an iteration and its end, no active command was cancelled before the iteration. */
  ghost predicate Pruned(s: State) {
    s.pc.Top? || s.pc.Stopped? || Ids(s.active) !! s.cancelledAtTop
  }

  /** When the loop has returned, no sender is left and the queue is empty. */
  ghost predicate StoppedIsQuiet(s: State) {
    s.pc.Stopped? ==> s.clients == 0 && s.futures == map[] && s.queue == []
  }

  ghost predicate QueueBounded(s: State) {
    |s.queue| <= COMMAND_CHANNEL_SIZE
  }

  /** Whatever happens in between, the chain ends as it would undisturbed. */
  ghost predicate ChainOnTrack(s: State) {
    s.pc.Offering? ==>
      && s.pc.i <= |s.active| && DistinctKeys(s.pc.start)
      && var now, whole := ChainFrom(s.active, s.pc.i, s.pc.remaining), ChainFrom(s.pc.start, 0, Some(s.pc.ev));
         now.survivors == whole.survivors && now.leftover == whole.leftover && s.pc.stored + now.writes == whole.writes
  }

  /** A dial that was waiting when its connection event came is still to be offered it, or has been given Ok. */
  ghost predicate DialsServed(s: State) {
    s.pc.Offering? && s.pc.ev.ConnectionEstablished? && s.pc.i <= |s.active| ==>
      s.pc.remaining.Some? &&
      forall t :: t in s.pc.start && t.cmd == DialPeer(s.pc.ev.peer) ==>
        t in s.active[s.pc.i..] || (t.id in s.written && LastOf(s.written[t.id]) == Some(Ok(Unit)))
  }

  /** The events taken from the swarm, without the one being handled. */
  function Handled(s: State): seq<Event> {
    if (s.pc.Offering? || s.pc.Converting?) && s.taken != [] then s.taken[..|s.taken| - 1] else s.taken
  }

  /** Every connection event taken reaches the conversion to peer events. */
  ghost predicate PeerLog(s: State) {
    && s.emitted == Emissions(Handled(s))
    && (s.pc.Offering? ==> s.taken != [] && s.pc.ev == s.taken[|s.taken| - 1]
                           && s.pc.remaining in {None, Some(s.pc.ev)}
                           && (s.pc.remaining.None? ==> EventKey(s.pc.ev).Some?))
    && (s.pc.Converting? ==> s.taken != [] && s.pc.event == s.taken[|s.taken| - 1])
  }

  ghost predicate Disciplined(s: State) {
    Pruned(s) && StoppedIsQuiet(s) && QueueBounded(s) && ChainOnTrack(s) && DialsServed(s) && PeerLog(s)
  }

  /** Steps of clients and futures; the others are steps of the loop. */
  predicate IsClientStep(step: Step) {
    step.CloneClient? || step.DropClient? || step.NewFuture? || step.PollSend? || step.PollCheck? || step.DropCancel?
    || step.DropRelease?
  }

  ghost predicate LeavesLoop(s: State, s': State) {
    && s'.pc == s.pc && s'.active == s.active && s'.taken == s.taken && s'.emitted == s.emitted
    && s'.cancelledAtTop == s.cancelledAtTop
    && forall f :: f in s.written ==> f in s'.written && s'.written[f] == s.written[f]
  }

  lemma ClientStepsLeaveLoop(s: State, step: Step)
    requires CellsConsistent(s) && IsClientStep(step) && Enabled(s, step)
    ensures LeavesLoop(s, Next(s, step))
  {
    hide IsNew, RunHeld, OfferNext, RetainLive, TakeEvent, EndChain, ConvertRest, CancelFlag, WakeupPending, HoldsLast;
  }

  lemma PrunedKept(s: State, step: Step)
    requires Linear(s) && CellsConsistent(s) && Pruned(s) && Enabled(s, step)
    ensures Pruned(Next(s, step))
  {
    hide OnEvent, Launch, CommandKey, IsNew, PeerEventsOf, Hear, IsFresh, Unsent, Stepped, DistinctIds, Ids, Retained,
         SendHalf, CheckHalf, Created, CancelHalf, CellsConsistent;
    if IsClientStep(step) {
      ClientStepsLeaveLoop(s, step);
    } else if step.LoopOffer? {
      SteppedKeepsIds(s.active, s.pc.i, OnEvent(s.active[s.pc.i].cmd, s.pc.remaining.value));
    } else if step.LoopRetain? {
      forall f | f in Ids(Retained(s.active, s.cells)) ensures f !in Next(s, step).cancelledAtTop {
        RetainedIds(s.active, s.cells, f);
      }
    }
  }

  lemma StoppedKept(s: State, step: Step)
    requires StoppedIsQuiet(s) && Enabled(s, step)
    ensures StoppedIsQuiet(Next(s, step))
  {
    hide OnEvent, Launch, CommandKey, EventKey, IsNew, PeerEventsOf, Hear, IsFresh, Stepped, Retained, Finish;
  }

  lemma QueueBoundedKept(s: State, step: Step)
    requires QueueBounded(s) && Enabled(s, step)
    ensures QueueBounded(Next(s, step))
  {
    hide OnEvent, Launch, CommandKey, EventKey, IsNew, PeerEventsOf, Hear, IsFresh, Stepped, Retained;
  }

  lemma KeysApart(s: State)
    requires Linear(s) && KeysAreOwn(s)
    ensures DistinctKeys(s.active)
  {
    hide CommandKey, IsCorrelated, Unsent;
    forall i, j | 0 <= i < j < |s.active| && CommandKey(s.active[i].cmd).Some?
      ensures CommandKey(s.active[i].cmd) != CommandKey(s.active[j].cmd)
    {
      IdOf(s.active, i);
      IdOf(s.active, j);
      assert s.active[i] in s.active && s.active[j] in s.active;
      assert OwnKey(s, s.active[i].id);
    }
  }

  lemma ChainOnTrackAfterTake(s: State, ev: Event)
    requires DistinctKeys(s.active)
    ensures ChainOnTrack(TakeEvent(s, ev))
  {
    hide DistinctKeys, ChainFrom, Hear, EventKey;
  }

  lemma ChainOnTrackAfterOffer(s: State)
    requires ChainOnTrack(s) && Enabled(s, LoopOffer)
    ensures ChainOnTrack(OfferNext(s))
  {
    hide DistinctKeys, OnEvent, Finish;
  }

  lemma ChainOnTrackKept(s: State, step: Step)
    requires Linear(s) && CellsConsistent(s) && KeysAreOwn(s) && ChainOnTrack(s) && Enabled(s, step)
    ensures ChainOnTrack(Next(s, step))
  {
    hide OnEvent, Launch, CommandKey, IsNew, PeerEventsOf, IsFresh, Stepped, Retained, Finish, SendHalf, CheckHalf,
         Created, CancelHalf, TakeEvent, OfferNext, Linear, CellsConsistent, KeysAreOwn, DistinctKeys, ChainFrom;
    if IsClientStep(step) {
      ClientStepsLeaveLoop(s, step);
    } else if step.LoopTakeEvent? {
      KeysApart(s);
      ChainOnTrackAfterTake(s, step.ev);
    } else if step.LoopOffer? {
      ChainOnTrackAfterOffer(s);
    }
  }

  lemma PeerLogAfterOffer(s: State)
    requires PeerLog(s) && Enabled(s, LoopOffer)
    ensures PeerLog(OfferNext(s))
  {
    OnlyOwnEventsAreConsumed(s.active[s.pc.i].cmd, s.pc.remaining.value);
    hide OnEvent, CommandKey, EventKey, PeerEventsOf, Emissions;
  }

  lemma PeerLogAtChainEnd(s: State)
    requires PeerLog(s) && Enabled(s, LoopEndChain)
    ensures PeerLog(EndChain(s))
  {
    if s.pc.remaining.None? {
      assert PeerEventsOf(s.pc.ev) == [];
      assert Emissions(s.taken) == Emissions(Handled(s)) + [];
    }
  }

  lemma PeerLogAfterTake(s: State, ev: Event)
    requires PeerLog(s) && s.pc == Select
    ensures PeerLog(TakeEvent(s, ev))
  {
    hide Emissions, EventKey, Hear;
    assert (s.taken + [ev])[..|s.taken + [ev]| - 1] == s.taken;
  }

  lemma PeerLogAfterConvert(s: State)
    requires PeerLog(s) && Enabled(s, LoopConvert)
    ensures PeerLog(ConvertRest(s))
  {
    hide PeerEventsOf, EventKey;
  }

  lemma PeerLogFrame(s: State, s': State)
    requires PeerLog(s) && s'.emitted == s.emitted && s'.taken == s.taken
    requires s'.pc == s.pc || (!s.pc.Offering? && !s.pc.Converting? && !s'.pc.Offering? && !s'.pc.Converting?)
    ensures PeerLog(s')
  {
    hide Emissions, EventKey;
  }

  lemma PeerLogKept(s: State, step: Step)
    requires CellsConsistent(s) && PeerLog(s) && Enabled(s, step)
    ensures PeerLog(Next(s, step))
  {
    hide PeerLog, OnEvent, Launch, CommandKey, IsNew, IsFresh, Stepped, Retained, SendHalf, CheckHalf, Created,
         CancelHalf, TakeEvent, OfferNext, EndChain, ConvertRest, CellsConsistent;
    match step
    case LoopOffer => PeerLogAfterOffer(s);
    case LoopEndChain => PeerLogAtChainEnd(s);
    case LoopTakeEvent(ev) => PeerLogAfterTake(s, ev);
    case LoopConvert => PeerLogAfterConvert(s);
    case _ =>
      if IsClientStep(step) { ClientStepsLeaveLoop(s, step); }
      PeerLogFrame(s, Next(s, step));
  }

  /** The commands after index `i` are still to be offered the event once the one at `i` has been. */
  lemma SteppedKeepsRest(active: seq<Task>, i: nat, r: Reaction, t: Task)
    requires i < |active| && t in active[i..] && t != active[i]
    ensures var (active', i') := Stepped(active, i, r); t in active'[i'..]
  {
    var (active', i') := Stepped(active, i, r);
    var j :| i <= j < |active| && active[j] == t;
    var k := if !r.keep && j == |active| - 1 then i else j;
    assert active'[i'..][k - i'] == t;
  }

  lemma OfferServesDials(s: State, t: Task)
    requires Linear(s) && CellsConsistent(s) && DialsServed(s) && PeerLog(s) && Enabled(s, LoopOffer)
    requires s.pc.ev.ConnectionEstablished? && t in s.pc.start && t.cmd == DialPeer(s.pc.ev.peer)
    ensures var s' := OfferNext(s);
            t in s'.active[s'.pc.i..] || (t.id in s'.written && LastOf(s'.written[t.id]) == Some(Ok(Unit)))
  {
    var u := s.active[s.pc.i];
    var r := OnEvent(u.cmd, s.pc.ev);
    if t == u {
      assert r.finish == Some(Ok(Unit));
    } else {
      hide OnEvent, Unsent, CellsConsistent, Linear, PeerLog, Emissions, EventKey;
      if t in s.active[s.pc.i..] {
        SteppedKeepsRest(s.active, s.pc.i, r, t);
      } else {
        DialWritesOnlyOk(u, s.pc.ev, t, s);
      }
    }
  }

  /** Another command writes to another cell; nobody writes anything but Ok on a connection event. */
  lemma DialWritesOnlyOk(u: Task, ev: Event, t: Task, s: State)
    requires ev.ConnectionEstablished? && u.id in s.cells && u.id in s.written
    requires t.id in s.written && LastOf(s.written[t.id]) == Some(Ok(Unit))
    ensures var s' := Finish(s, u.id, OnEvent(u.cmd, ev).finish);
            t.id in s'.written && LastOf(s'.written[t.id]) == Some(Ok(Unit))
  {
  }

  lemma DialsServedFrame(s: State, s': State)
    requires DialsServed(s) && LeavesLoop(s, s')
    ensures DialsServed(s')
  {
  }

  lemma DialsServedAfterOffer(s: State)
    requires Linear(s) && CellsConsistent(s) && DialsServed(s) && PeerLog(s) && Enabled(s, LoopOffer)
    ensures DialsServed(OfferNext(s))
  {
    if s.pc.ev.ConnectionEstablished? {
      OnlyOwnEventsAreConsumed(s.active[s.pc.i].cmd, s.pc.ev);
      hide OnEvent, Stepped, Finish, Linear, CellsConsistent, CommandKey, Emissions;
      forall t | t in s.pc.start && t.cmd == DialPeer(s.pc.ev.peer)
        ensures var s' := OfferNext(s);
                t in s'.active[s'.pc.i..] || (t.id in s'.written && LastOf(s'.written[t.id]) == Some(Ok(Unit)))
      {
        OfferServesDials(s, t);
      }
    }
  }

  lemma DialsServedAfterTake(s: State, ev: Event)
    ensures DialsServed(TakeEvent(s, ev))
  {
    hide Hear, EventKey;
    assert s.active[0..] == s.active;
  }

  lemma DialsServedKept(s: State, step: Step)
    requires Linear(s) && CellsConsistent(s) && DialsServed(s) && PeerLog(s) && Enabled(s, step)
    ensures DialsServed(Next(s, step))
  {
    hide OnEvent, Launch, CommandKey, IsNew, IsFresh, Stepped, Retained, Finish, SendHalf, CheckHalf, Created,
         CancelHalf, TakeEvent, OfferNext, PeerEventsOf, Linear, CellsConsistent, PeerLog, DialsServed, LeavesLoop;
    if IsClientStep(step) {
      ClientStepsLeaveLoop(s, step);
      DialsServedFrame(s, Next(s, step));
    } else if step.LoopOffer? {
      DialsServedAfterOffer(s);
    } else if step.LoopTakeEvent? {
      DialsServedAfterTake(s, step.ev);
    } else {
      NotOfferingServed(Next(s, step));
    }
  }

  lemma NotOfferingServed(s: State)
    requires !s.pc.Offering?
    ensures DialsServed(s)
  {
  }

  lemma DisciplinedKept(s: State, step: Step)
    requires Linear(s) && CellsConsistent(s) && Correlated(s) && Disciplined(s) && Enabled(s, step)
    ensures Disciplined(Next(s, step))
  {
    hide Next, Enabled, Pruned, StoppedIsQuiet, QueueBounded, ChainOnTrack, DialsServed, PeerLog, Linear,
         CellsConsistent, KeysAreOwn;
    PrunedKept(s, step);
    StoppedKept(s, step);
    QueueBoundedKept(s, step);
    ChainOnTrackKept(s, step);
    DialsServedKept(s, step);
    PeerLogKept(s, step);
  }
}
