/** What holds in every reachable state of the command runtime. */
module RuntimeTheorems {
  import opened Types
  import opened Commands
  import opened Bags
  import opened Chain
  import opened Queries
  import opened PeerEvents
  import opened Runtime
  import opened RuntimeInvariants
  import opened RuntimeCorrelation
  import opened LoopDiscipline

  ghost predicate Inv(s: State) {
    Linear(s) && CellsConsistent(s) && Correlated(s) && Disciplined(s)
  }

  lemma InvKept(s: State, step: Step)
    requires Inv(s) && Enabled(s, step)
    ensures Inv(Next(s, step))
  {
    hide Next, Enabled, Linear, CellsConsistent, Correlated, Disciplined;
    LinearKept(s, step);
    CellsConsistentKept(s, step);
    CorrelatedKept(s, step);
    DisciplinedKept(s, step);
  }

  lemma {:induction false} InvAlong(s: State, steps: seq<Step>)
    requires Inv(s) && CanRun(s, steps)
    ensures Inv(After(s, steps))
    decreases |steps|
  {
    hide Next, Enabled, Inv;
    if steps != [] {
      InvKept(s, steps[0]);
      InvAlong(Next(s, steps[0]), steps[1..]);
    }
  }

  lemma ReachableInv(s: State)
    requires Reachable(s)
    ensures Inv(s)
  {
    hide Next, Enabled;
    assert Inv(Initial);
    var steps: seq<Step> :| CanRun(Initial, steps) && After(Initial, steps) == s;
    InvAlong(Initial, steps);
  }

  /** The state after polling `f` to the end, with nothing in between. */
  function Polled(s: State, f: TaskId): State
    requires Enabled(s, PollSend(f)) && f in s.cells
  {
    var s' := Next(s, PollSend(f));
    if s'.futures[f].phase == Checking then Next(s', PollCheck(f)) else s'
  }

  lemma StepIsReachable(s: State, step: Step)
    requires Reachable(s) && Enabled(s, step)
    ensures Reachable(Next(s, step))
  {
    hide Next, Enabled;
    var steps: seq<Step> :| CanRun(Initial, steps) && After(Initial, steps) == s;
    Append(Initial, steps, step);
    assert CanRun(Initial, steps + [step]);
  }

  lemma {:induction false} Append(s: State, steps: seq<Step>, step: Step)
    requires CanRun(s, steps) && Enabled(After(s, steps), step)
    ensures CanRun(s, steps + [step]) && After(s, steps + [step]) == Next(After(s, steps), step)
    decreases |steps|
  {
    hide Next, Enabled;
    if steps == [] {
      assert [step][1..] == [];
    } else {
      assert (steps + [step])[1..] == steps[1..] + [step];
      Append(Next(s, steps[0]), steps[1..], step);
    }
  }

  /** No wake-up is lost: whenever a future's last poll returned Pending, its waker is stored and there is no
      result yet, or its task has been woken. Once a result has been stored it has been woken, and polling it
      returns the last result stored. */
  lemma NoWakeupIsLost(s: State, f: TaskId)
    requires Reachable(s) && f in s.futures && s.futures[f].phase == Pending
    ensures f in s.cells && f in s.written
    ensures f in s.woken || (s.cells[f].waker == Some(f) && s.cells[f].result.None? && s.written[f] == [])
    ensures s.written[f] != [] ==>
              f in s.woken && Enabled(s, PollSend(f))
              && Polled(s, f).futures[f].phase == Ready(s.written[f][|s.written[f]| - 1])
  {
    ReachableInv(s);
    UnpackCell(s, f);
    assert Unsent(s, f);
    hide Correlated, Disciplined, DistinctIds, Ids;
  }

  /** In every interleaving, the checking half of a poll returns the last result stored before it, and is
      Pending exactly if none was. */
  lemma PollReturnsLastResult(s: State, f: TaskId)
    requires Reachable(s) && Enabled(s, PollCheck(f))
    ensures f in s.written
    ensures Next(s, PollCheck(f)).futures[f].phase
            == if s.written[f] == [] then Pending else Ready(s.written[f][|s.written[f]| - 1])
  {
    ReachableInv(s);
    UnpackCell(s, f);
    hide Correlated, Disciplined, Linear;
  }

  /** A result is returned once: the cell of a completed future is empty, unless its command stored another result,
      which an identified command never does. */
  lemma ReturnedResultsAreTaken(s: State, f: TaskId)
    requires Reachable(s) && f in s.futures && s.futures[f].phase.Ready?
    ensures f in s.cells && f in s.written && s.futures[f].phase.outcome in s.written[f]
    ensures s.cells[f].result.Some? ==> |s.written[f]| >= 2
    ensures f in s.started && IsCorrelated(s.started[f]) ==> s.cells[f].result.None?
  {
    hide Linear, Disciplined, IsCorrelated;
    ReachableInv(s);
    UnpackCell(s, f);
    if f in s.started { assert StoresOnce(s, f); }
  }

  /** Without cross-talk: a completed future of an identified command returned exactly what the fold of the
      events carrying its own identifier stores; its command stored nothing else. */
  lemma CompletedFutureIsItsFold(s: State, f: TaskId)
    requires Reachable(s) && f in s.futures && s.futures[f].phase.Ready?
    requires f in s.started && StartedKey(s, f).Some?
    ensures StartedKey(s, f).value in s.heard
    ensures Fold(s.started[f], s.heard[StartedKey(s, f).value]).writes == [s.futures[f].phase.outcome]
    ensures f in s.written && s.written[f] == [s.futures[f].phase.outcome]
  {
    ReachableInv(s);
    UnpackCell(s, f);
    assert Settled(s, f) && StoresOnce(s, f) && OwnKey(s, f);
    OnlyCorrelatedHaveKeys(s.started[f]);
    hide Disciplined, Linear, Fold, CommandKey;
  }

  /** Delivery, the other direction: whenever no event is on its way through the chain, the results of every started
      identified command whose future is alive are those of the fold of all events under its identifier. Nothing
      the swarm reported is lost, and nothing is late. */
  lemma EventsAreDelivered(s: State, f: TaskId)
    requires Reachable(s) && !s.pc.Offering?
    requires f in s.started && StartedKey(s, f).Some? && f in s.futures && s.futures[f].phase != Dropping
    ensures StartedKey(s, f).value in s.heard && f in s.written
    ensures s.written[f] == Fold(s.started[f], s.heard[StartedKey(s, f).value]).writes
  {
    hide Disciplined, Fold, CommandKey, DistinctIds, Unsent, NotRunIsNew, InFlightIsLast, JustStarted, IsCorrelated;
    ReachableInv(s);
    UnpackCell(s, f);
    assert OwnKey(s, f) && Settled(s, f);
    if f in Ids(s.active) {
      var t :| t in s.active && t.id == f;
      var j :| 0 <= j < |s.active| && s.active[j] == t;
      assert TaskInSync(s, j);
    }
  }

  /** So once the event that ends its query has been through the chain, the command has stored its verdict, and before
      that nothing; `k` is the first ending step among its own. */
  lemma EndedQueryIsAnswered(s: State, f: TaskId, k: nat)
    requires Reachable(s) && !s.pc.Offering?
    requires f in s.started && StartedKey(s, f).Some? && f in s.futures && s.futures[f].phase != Dropping
    requires StartedKey(s, f).value in s.heard
    requires var own := Own(s.started[f], s.heard[StartedKey(s, f).value]);
             k <= |own| && NoneTerminal(s.started[f], own[..k]) && (k < |own| ==> IsTerminal(s.started[f], own[k]))
    ensures f in s.written
    ensures var own := Own(s.started[f], s.heard[StartedKey(s, f).value]);
            if k == |own| then s.written[f] == []
            else EndsQuery(s.started[f], own[..k + 1]) && s.written[f] == [Verdict(s.started[f], own[..k + 1])]
  {
    hide Reachable, Fold, Own, NoneTerminal, IsTerminal, EndsQuery, Verdict, CommandKey, IsCorrelated;
    EventsAreDelivered(s, f);
    var c, evs := s.started[f], s.heard[StartedKey(s, f).value];
    StartedIsJustStarted(s, f);
    OnlyOwnStepsMatter(c, evs);
    OwnAreSteps(c, evs);
    QueryRefinesVerdict(c, Own(c, evs), k);
  }

  lemma StartedIsJustStarted(s: State, f: TaskId)
    requires Reachable(s) && f in s.started && StartedKey(s, f).Some?
    ensures JustStarted(s.started[f]) && IsCorrelated(s.started[f])
  {
    hide Disciplined, CommandKey, IsCorrelated;
    ReachableInv(s);
    assert OwnKey(s, f);
  }

  /** The same, told by the reference definition: the returned result is the verdict on the command's own
      steps up to the one that ended its query. */
  lemma CompletedFutureIsItsVerdict(s: State, f: TaskId) returns (own: seq<Event>, k: nat)
    requires Reachable(s) && f in s.futures && s.futures[f].phase.Ready?
    requires f in s.started && StartedKey(s, f).Some?
    ensures StartedKey(s, f).value in s.heard
    ensures own == Own(s.started[f], s.heard[StartedKey(s, f).value]) && k < |own|
    ensures EndsQuery(s.started[f], own[..k + 1])
    ensures s.futures[f].phase.outcome == Verdict(s.started[f], own[..k + 1])
  {
    CompletedFutureIsItsFold(s, f);
    var c := s.started[f];
    assert JustStarted(c) by {
      ReachableInv(s);
      assert OwnKey(s, f);
    }
    own := Own(c, s.heard[StartedKey(s, f).value]);
    OnlyOwnStepsMatter(c, s.heard[StartedKey(s, f).value]);
    OwnAreSteps(c, s.heard[StartedKey(s, f).value]);
    k := FirstTerminal(c, own);
    QueryRefinesVerdict(c, own, k);
  }

  lemma FirstTerminal(c: Cmd, steps: seq<Event>) returns (k: nat)
    ensures k <= |steps| && NoneTerminal(c, steps[..k])
    ensures k < |steps| ==> IsTerminal(c, steps[k])
  {
    k := 0;
    while k < |steps| && !IsTerminal(c, steps[k])
      invariant k <= |steps| && NoneTerminal(c, steps[..k])
    {
      k := k + 1;
    }
  }

  /** A command that recognises events by an identifier completes at most once, also if its future was
      dropped; if the swarm refused it, it stored one error when it ran and stores nothing afterwards. */
  lemma IdentifiedCommandsCompleteOnce(s: State, f: TaskId)
    requires Reachable(s) && f in s.started && IsCorrelated(s.started[f])
    ensures f in s.written && |s.written[f]| <= 1
    ensures StartedKey(s, f).None? ==> |s.written[f]| == 1 && s.written[f][0].Err?
  {
    ReachableInv(s);
    assert StoresOnce(s, f);
  }

  /** Offering an event that carries an identifier changes the state and the result of no command that does
      not wait for that identifier. */
  lemma OfferTouchesOwnerOnly(s: State, f: TaskId)
    requires Reachable(s) && Enabled(s, LoopOffer) && EventKey(s.pc.ev).Some?
    requires f in s.started && StartedKey(s, f) != EventKey(s.pc.ev)
    ensures f in s.cells && f in s.written
    ensures OfferNext(s).cells[f] == s.cells[f] && OfferNext(s).written[f] == s.written[f]
    ensures forall t :: t in s.active && t.id == f && !HasDefaultOnEvent(t.cmd) ==> t in OfferNext(s).active
  {
    var t := s.active[s.pc.i];
    ReachableInv(s);
    IdOf(s.active, s.pc.i);
    assert t in s.active && SameCommand(t.cmd, s.started[t.id]);
    if t.id == f {
      ForeignEventsChangeNothing(t.cmd, s.pc.ev);
    }
    hide OnEvent, Fold, Inv, CommandKey, EventKey, IsNew, ChainFrom, Stepped, Reachable;
    forall u | u in s.active && u.id == f && !HasDefaultOnEvent(u.cmd) ensures u in OfferNext(s).active {
      SteppedKeepsTask(s.active, s.pc.i, OnEvent(t.cmd, s.pc.ev), u);
    }
  }

  lemma SteppedKeepsTask(active: seq<Task>, i: nat, r: Reaction, u: Task)
    requires i < |active| && u in active && (u == active[i] ==> r.keep && r.cmd == u.cmd)
    ensures u in Stepped(active, i, r).0
  {
    var j :| 0 <= j < |active| && active[j] == u;
    var at := if !r.keep && j == |active| - 1 then i else j;
    assert Task(u.id, u.cmd) == u;
    assert Stepped(active, i, r).0[at] == u;
  }

  /** Right after cancelled commands have been pruned, the active commands map one-to-one into the futures that
      have not been dropped, so there are at most as many of them. */
  lemma CancellationBoundsActive(s: State)
    requires Reachable(s) && Enabled(s, LoopRetain)
    ensures var s' := Next(s, LoopRetain);
            && DistinctIds(s'.active)
            && (forall t :: t in s'.active ==> t.id in s'.futures && s'.futures[t.id].phase != Dropping)
            && |s'.active| <= |s'.futures|
  {
    ReachableInv(s);
    var s' := Next(s, LoopRetain);
    RetainedKeepsIds(s.active, s.cells);
    forall t | t in s'.active ensures t.id in s'.futures && s'.futures[t.id].phase != Dropping {
      assert t.id in Ids(s.active);
      UnpackCell(s, t.id);
    }
    DistinctIdsCount(s'.active);
    SubsetSize(Ids(s'.active), s'.futures.Keys);
  }

  lemma {:induction false} DistinctIdsCount(ts: seq<Task>)
    requires DistinctIds(ts)
    ensures |Ids(ts)| == |ts|
  {
    if ts != [] {
      HeadAndTail(ts);
      DistinctIdsCount(ts[1..]);
    }
  }

  /** A command cancelled before an iteration starts is offered no event in that iteration. */
  lemma CancelledAreOfferedNothing(s: State)
    requires Reachable(s) && Enabled(s, LoopOffer)
    ensures s.active[s.pc.i].id !in s.cancelledAtTop
  {
    ReachableInv(s);
    IdOf(s.active, s.pc.i);
  }

  /** Shutdown strands nobody: when the loop has returned no future is alive and the queue is empty, and every
      command still active is cancelled. */
  lemma ShutdownStrandsNobody(s: State)
    requires Reachable(s) && s.pc.Stopped?
    ensures s.futures == map[] && s.queue == [] && s.clients == 0
    ensures forall t :: t in s.active ==> t.id in s.cells && s.cells[t.id].cancelled
  {
    ReachableInv(s);
    forall t | t in s.active ensures t.id in s.cells && s.cells[t.id].cancelled {
      assert t.id in Ids(s.active);
      UnpackCell(s, t.id);
    }
  }

  /** A first poll fails to send exactly if the queue is full, which is when it holds 32 commands: never because the
      loop has gone, although that is what the error says. */
  lemma RejectedExactlyWhenFull(s: State, f: TaskId)
    requires Reachable(s) && Enabled(s, PollSend(f))
    ensures !s.pc.Stopped? && |s.queue| <= COMMAND_CHANNEL_SIZE
    ensures Next(s, PollSend(f)).futures[f].phase.Rejected? <==>
              s.futures[f].handler.Some? && |s.queue| == COMMAND_CHANNEL_SIZE
  {
    hide Linear, CellsConsistent, Correlated, Pruned, ChainOnTrack, DialsServed, PeerLog;
    ReachableInv(s);
  }

  /** The queue can come to hold any number of commands up to its size before the loop takes one. */
  lemma {:induction false} QueueFills(n: nat) returns (s: State)
    requires n <= COMMAND_CHANNEL_SIZE
    ensures Reachable(s) && s.clients == 1 && s.pc == Top && |s.queue| == n && forall f :: f in s.cells ==> f < n
  {
    hide Reachable;
    if n == 0 {
      s := Initial;
      InitialIsReachable();
    } else {
      var s0 := QueueFills(n - 1);
      var s1 := Next(s0, NewFuture(n - 1, Immediate(0)));
      StepIsReachable(s0, NewFuture(n - 1, Immediate(0)));
      StepIsReachable(s1, PollSend(n - 1));
      s := Next(s1, PollSend(n - 1));
    }
  }

  lemma InitialIsReachable()
    ensures Reachable(Initial)
  {
    assert CanRun(Initial, []) && After(Initial, []) == Initial;
  }

  /** A run in which a poll reports a closed channel while the loop is at work: 32 futures were polled before. */
  lemma FullQueueIsReportedAsClosed() returns (s: State, f: TaskId)
    ensures Reachable(s) && Enabled(s, PollSend(f)) && s.pc == Top
    ensures Next(s, PollSend(f)).futures[f].phase == Rejected
  {
    hide Reachable;
    f := COMMAND_CHANNEL_SIZE;
    var full := QueueFills(COMMAND_CHANNEL_SIZE);
    StepIsReachable(full, NewFuture(f, Immediate(0)));
    s := Next(full, NewFuture(f, Immediate(0)));
  }

  /** However polls, drops and new futures interleave with it, the chain leaves the list and the event, and stores
      the results, that the undisturbed walk over the list at its start would. */
  lemma ChainEndsAsUndisturbed(s: State)
    requires Reachable(s) && Enabled(s, LoopEndChain)
    ensures var whole := ChainFrom(s.pc.start, 0, Some(s.pc.ev));
            s.active == whole.survivors && s.pc.remaining == whole.leftover && s.pc.stored == whole.writes
            && DistinctKeys(s.pc.start)
  {
    ReachableInv(s);
  }

  /** In every run, the results the chain stores, the waiting commands that remain and what is left of the event
      are those of walking the list in any other order. */
  lemma RoutingIgnoresOrderInEveryRun(s: State, other: seq<Task>)
    requires Reachable(s) && Enabled(s, LoopEndChain) && multiset(other) == multiset(s.pc.start)
    ensures var c := ChainFrom(other, 0, Some(s.pc.ev));
            multiset(s.pc.stored) == multiset(c.writes) && Collect(Waiting, s.active) == Collect(Waiting, c.survivors)
            && s.pc.remaining == c.leftover
  {
    hide ChainFrom, Reachable, DistinctKeys;
    ChainEndsAsUndisturbed(s);
    RoutingIgnoresOrder(s.pc.start, other, s.pc.ev);
  }

  /** In every run, when a connection event has been through the chain no dial of that peer is active, each one
      that was has been given Ok, and the event goes on to the frontend. */
  lemma ConnectionServesAllDials(s: State)
    requires Reachable(s) && Enabled(s, LoopEndChain) && s.pc.ev.ConnectionEstablished?
    ensures Next(s, LoopEndChain).pc == Converting(s.pc.ev)
    ensures forall t :: t in s.active ==> t.cmd != DialPeer(s.pc.ev.peer)
    ensures forall t :: t in s.pc.start && t.cmd == DialPeer(s.pc.ev.peer) ==>
              t.id in s.written && LastOf(s.written[t.id]) == Some(Ok(Unit))
  {
    hide ChainFrom, Linear, CellsConsistent, Correlated, PeerLog, ChainOnTrack, Reachable, Pruned, Next;
    assert DialsServed(s) && s.pc.i <= |s.active| by {
      ReachableInv(s);
      OnTrackBounds(s);
    }
    ChainEndsAsUndisturbed(s);
    ConnectionCompletesDials(s.pc.start, s.pc.ev.peer, s.pc.ev.numEstablished);
    assert s.active[s.pc.i..] == [];
    AtChainEnd(s);
  }

  lemma OnTrackBounds(s: State)
    requires ChainOnTrack(s) && s.pc.Offering?
    ensures s.pc.i <= |s.active|
  {
  }

  lemma AtChainEnd(s: State)
    requires Enabled(s, LoopEndChain) && s.pc.remaining == Some(s.pc.ev)
    ensures Next(s, LoopEndChain).pc == Converting(s.pc.ev)
  {
  }

  /** In every run under a swarm that counts connections correctly, the peer events sent for each peer
      alternate, beginning with connected; between events, the last one says whether the peer is connected. */
  lemma PeerEventsAlternateInEveryRun(s: State, p: PeerId)
    requires Reachable(s) && IsLegal(s.taken)
    ensures Alternates(OfPeer(s.emitted, p))
    ensures !s.pc.Offering? && !s.pc.Converting? ==>
              var view := OfPeer(s.emitted, p);
              Connections(s.taken, p) > 0 <==> view != [] && view[|view| - 1]
  {
    ReachableInv(s);
    assert IsLegal(Handled(s));
    PeerEventsAlternate(Handled(s), p);
  }
}
