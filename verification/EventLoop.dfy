/** The event loop and the client futures as objects: boxed commands sharing result handles with the futures
    that await them. */
module EventLoop {
  import opened Types
  import opened Handler
  import opened Commands
  import opened Bags
  import opened Chain
  import opened PeerEvents
  import opened Boxes
  import opened SwarmCalls
  import P = PeerCommands
  import R = Relay
  import Replies
  import PendingMap
  import Runtime

  /** A boxed command with its result handle. */
  class CommandTask {
    const id: TaskId
    const command: Boxed
    const handle: ResultHandle
    /** The command object in the box. */
    ghost const body: object := command.Object()

    constructor (id: TaskId, command: Boxed, handle: ResultHandle)
      ensures this.id == id && this.command == command && this.handle == handle
    {
      this.id, this.command, this.handle := id, command, handle;
    }

    function View(): Task
      reads body
    {
      Task(id, command.View())
    }

    method RunBoxed(env: RunEnv, log: SwarmLog)
      modifies body, handle, handle.executor, log
      ensures var r := Run(old(command.View()), env);
              && command.View() == r.cmd
              && Wrote(r.finish, old(handle.View()), old(handle.executor.woken), handle.View(), handle.executor.woken)
      ensures log.calls == old(log.calls) + CallsOf(old(command.View()), env)
    {
      command.Run(env, handle, log);
    }

    method OnEventBoxed(ev: Event) returns (keep: bool, remaining: Option<Event>)
      modifies body, handle, handle.executor
      ensures var r := OnEvent(old(command.View()), ev);
              && command.View() == r.cmd && keep == r.keep && remaining == r.remaining
              && Wrote(r.finish, old(handle.View()), old(handle.executor.woken), handle.View(), handle.executor.woken)
    {
      keep, remaining := command.OnEvent(ev, handle);
    }

    method TakeRelayReservationRequest() returns (r: Option<(PeerId, seq<Addr>)>)
      modifies body
      ensures (command.View(), r) == TakeRelayRequest(old(command.View()))
    {
      r := command.TakeRelayReservationRequest();
    }
  }

  /** The command objects of some tasks. */
  ghost function Objects(ts: seq<CommandTask>): set<object> {
    set t | t in ts :: t.body
  }

  ghost function Handles(ts: seq<CommandTask>): set<object> {
    set t | t in ts :: t.handle
  }

  function Views(ts: seq<CommandTask>): (r: seq<Task>)
    reads Objects(ts)
    ensures |r| == |ts| && forall i :: 0 <= i < |ts| ==> r[i] == ts[i].View()
  {
    if ts == [] then [] else Views(ts[..|ts| - 1]) + [ts[|ts| - 1].View()]
  }

  /** A result cell after the given results have been stored, those for other cells being skipped. */
  function CellAfter(cell: ResultState, id: TaskId, writes: seq<Write>): ResultState {
    if writes == [] then cell else
    var before := CellAfter(cell, id, writes[..|writes| - 1]);
    var w := writes[|writes| - 1];
    if w.id == id then before.Finished(w.outcome) else before
  }

  lemma CellAfterNone(cell: ResultState, id: TaskId)
    ensures CellAfter(cell, id, []) == cell
  {
  }

  lemma CellAfterMore(cell: ResultState, id: TaskId, writes: seq<Write>, w: Write)
    ensures CellAfter(cell, id, writes + [w])
            == if w.id == id then CellAfter(cell, id, writes).Finished(w.outcome) else CellAfter(cell, id, writes)
  {
    assert (writes + [w])[..|writes + [w]| - 1] == writes;
  }

  lemma CellAfterStep(cell: ResultState, t: Task, r: Reaction, id: TaskId, writes: seq<Write>)
    ensures CellAfter(cell, id, writes + WritesOf(t, r))
            == if r.finish.Some? && t.id == id then CellAfter(cell, id, writes).Finished(r.finish.value)
               else CellAfter(cell, id, writes)
  {
    if r.finish.Some? {
      CellAfterMore(cell, id, writes, Write(t.id, r.finish.value));
    } else {
      assert writes + WritesOf(t, r) == writes;
    }
  }

  predicate NoDuplicates(ts: seq<CommandTask>) {
    forall i, j :: 0 <= i < j < |ts| ==> ts[i] != ts[j]
  }

  /** Tasks belong to distinct futures, share neither commands nor result handles, and wake tasks of one executor. */
  ghost predicate Unshared(ts: seq<CommandTask>, executor: Executor) {
    && (forall t, u :: t in ts && u in ts && t != u ==>
          t.id != u.id && t.handle != u.handle && t.body != u.body)
    && (forall t :: t in ts ==> t.handle.executor == executor)
  }

  /** The commands whose futures have not been dropped, in order. */
  function Uncancelled(ts: seq<CommandTask>): (r: seq<CommandTask>)
    reads set t | t in ts :: t.handle
    ensures forall t :: t in r ==> t in ts && !t.handle.cancelled
    ensures forall t :: t in ts && !t.handle.cancelled ==> t in r
  {
    if ts == [] then [] else
    Uncancelled(ts[..|ts| - 1]) + (if ts[|ts| - 1].handle.cancelled then [] else [ts[|ts| - 1]])
  }

  lemma UncancelledNone()
    ensures Uncancelled([]) == []
  {
  }

  lemma UncancelledMore(ts: seq<CommandTask>, i: nat)
    requires i < |ts|
    ensures Uncancelled(ts[..i + 1])
            == if ts[i].handle.cancelled then Uncancelled(ts[..i]) else Uncancelled(ts[..i]) + [ts[i]]
  {
    assert ts[..i + 1][..i] == ts[..i];
  }

  lemma {:induction false} UncancelledKeepsOrder(ts: seq<CommandTask>)
    requires NoDuplicates(ts)
    ensures NoDuplicates(Uncancelled(ts))
  {
    if ts != [] {
      var earlier := Uncancelled(ts[..|ts| - 1]);
      UncancelledKeepsOrder(ts[..|ts| - 1]);
      forall i | 0 <= i < |earlier| ensures earlier[i] != ts[|ts| - 1] {
        assert earlier[i] in earlier;
      }
    }
  }

  lemma UncancelledKeepsUnshared(ts: seq<CommandTask>, executor: Executor)
    requires Unshared(ts, executor)
    ensures Unshared(Uncancelled(ts), executor)
  {
  }

  /** Pruning the boxed commands is what the loop of the runtime does at its top. */
  lemma {:induction false} PruningRefinesRuntime(ts: seq<CommandTask>, cells: map<TaskId, ResultState>)
    requires forall t :: t in ts ==> t.id in cells && cells[t.id] == t.handle.View()
    ensures Views(Uncancelled(ts)) == Runtime.Retained(Views(ts), cells)
  {
    hide Boxed.Object, Boxed.View, Views, Uncancelled, Runtime.Retained;
    if ts == [] {
      UncancelledNone();
      NoViews(cells);
    } else {
      var n := |ts| - 1;
      var kept, last := Uncancelled(ts[..n]), ts[n].View();
      PruningRefinesRuntime(ts[..n], cells);
      assert ts[..n] + [ts[n]] == ts;
      ViewsAppend(ts[..n], ts[n]);
      RetainedConcat(Views(ts[..n]), [last], cells);
      RetainedOne(last, cells);
      UncancelledMore(ts, n);
      assert ts[..n + 1] == ts;
      ViewsAppend(kept, ts[n]);
    }
  }

  lemma NoViews(cells: map<TaskId, ResultState>)
    ensures Views([]) == [] && Runtime.Retained([], cells) == []
  {
  }

  lemma RetainedOne(t: Task, cells: map<TaskId, ResultState>)
    requires t.id in cells
    ensures Runtime.Retained([t], cells) == if cells[t.id].cancelled then [] else [t]
  {
    assert [t][1..] == [];
  }

  lemma {:induction false} RetainedConcat(a: seq<Task>, b: seq<Task>, cells: map<TaskId, ResultState>)
    ensures Runtime.Retained(a + b, cells) == Runtime.Retained(a, cells) + Runtime.Retained(b, cells)
  {
    if a == [] {
      assert a + b == b;
    } else {
      assert (a + b)[1..] == a[1..] + b;
      RetainedConcat(a[1..], b, cells);
    }
  }

  lemma HandlesApart(ts: seq<CommandTask>, executor: Executor, t: CommandTask)
    requires Unshared(ts, executor) && t in ts
    ensures t.handle.executor == executor
    ensures forall u :: u in ts && u != t ==>
              u.id != t.id && u.handle != t.handle && u.body != t.body
    ensures forall u :: u in ts ==> u.body != t.handle && t.body != u.handle && u.body != executor
  {
    hide Boxed.Object;
    forall u | u in ts ensures u.body != t.handle && t.body != u.handle && u.body != executor {
      CommandsAreNoCells(u.command, t.handle, executor);
      CommandsAreNoCells(t.command, u.handle, executor);
    }
  }

  /** A new task shares nothing with the others. */
  lemma TaskApart(ts: seq<CommandTask>, executor: Executor, t: CommandTask)
    requires Unshared(ts + [t], executor) && t !in ts
    ensures t.handle.executor == executor && t.body != executor && t.body != t.handle
    ensures t.body !in Objects(ts) && t.handle !in Objects(ts) && executor !in Objects(ts)
  {
    hide Boxed.Object;
    HandlesApart(ts + [t], executor, t);
    forall u | u in ts ensures u in ts + [t] {}
    assert t in ts + [t];
  }

  lemma ViewsAppend(ts: seq<CommandTask>, t: CommandTask)
    ensures Views(ts + [t]) == Views(ts) + [t.View()]
  {
    assert (ts + [t])[..|ts|] == ts;
  }

  lemma CommandsAreNoCells(b: Boxed, handle: ResultHandle, executor: Executor)
    ensures b.Object() != handle && b.Object() != executor
  {
  }

  lemma UnsharedAfterStep(ts: seq<CommandTask>, i: nat, executor: Executor)
    requires i < |ts| && NoDuplicates(ts) && Unshared(ts, executor)
    ensures NoDuplicates(SwapRemove(ts, i)) && Unshared(SwapRemove(ts, i), executor)
    ensures forall t :: t in SwapRemove(ts, i) ==> t in ts
  {
    var left := SwapRemove(ts, i);
    forall t | t in left ensures t in ts {
      var j :| 0 <= j < |left| && left[j] == t;
      assert ts[j] in ts && ts[|ts| - 1] in ts;
    }
  }

  /** The wakers stored in the cells of some commands. */
  ghost function Wakers(ts: seq<CommandTask>, executor: Executor): map<TaskId, TaskId>
    requires Unshared(ts, executor)
    reads Handles(ts)
  {
    map t | t in ts && t.handle.waker.Some? :: t.id := t.handle.waker.value
  }

  /** The tasks woken when results are stored: each cell wakes its waker once. */
  function Woken(wakers: map<TaskId, TaskId>, writes: seq<Write>): set<TaskId> {
    set w | w in writes && w.id in wakers :: wakers[w.id]
  }

  lemma {:induction false} CellKeepsWakerUntilWrite(cell: ResultState, id: TaskId, writes: seq<Write>)
    ensures CellAfter(cell, id, writes).waker
            == if exists w :: w in writes && w.id == id then None else cell.waker
  {
    if writes != [] {
      var n := |writes| - 1;
      CellKeepsWakerUntilWrite(cell, id, writes[..n]);
      assert writes == writes[..n] + [writes[n]];
    }
  }

  lemma WokenNone(wakers: map<TaskId, TaskId>)
    ensures Woken(wakers, []) == {}
  {
  }

  /** The waker recorded for a cell is the one it stores. */
  predicate WakerIs(wakers: map<TaskId, TaskId>, id: TaskId, cell: ResultState) {
    cell.waker == if id in wakers then Some(wakers[id]) else None
  }

  lemma WakersTell(ts: seq<CommandTask>, executor: Executor, t: CommandTask)
    requires Unshared(ts, executor) && t in ts
    ensures WakerIs(Wakers(ts, executor), t.id, t.handle.View())
  {
  }

  lemma WokenMore(wakers: map<TaskId, TaskId>, writes: seq<Write>, t: Task, r: Reaction, cell: ResultState)
    requires WakerIs(wakers, t.id, cell)
    ensures Woken(wakers, writes + WritesOf(t, r))
            == Woken(wakers, writes) + (if r.finish.Some? then CellAfter(cell, t.id, writes).WokenByFinish() else {})
  {
    CellKeepsWakerUntilWrite(cell, t.id, writes);
    if r.finish.Some? {
      var w := Write(t.id, r.finish.value);
      assert w in writes + [w];
    } else {
      assert writes + WritesOf(t, r) == writes;
    }
  }

  datatype NodeEvent =
    | OfPeer(event: PeerEvent)
    | InboundRequest(peer: PeerId, pendingId: nat, request: Request)
    | PeerIdentified(peer: PeerId, protocolVersion: nat)

  /** Relay addresses that wait, addresses listened on, the next pending id and the pending channels, and the other
      calls on the swarm. */
  datatype Ledger = Ledger(
    waiting: R.Waiting,
    listened: seq<Addr>,
    counter: nat,
    pending: map<nat, PendingMap.Entry<ReplyChannel>>,
    calls: seq<Call>)

  /** After a command has been handled. */
  function Commanded(l: Ledger, c: Cmd, env: RunEnv, connected: bool): Ledger {
    var request := TakeRelayRequest(Run(c, env).cmd).1;
    l.(waiting := if request.Some? && !connected
                  then R.Extended(l.waiting, request.value.0, request.value.1) else l.waiting,
       listened := l.listened
                   + (if request.Some? && connected then R.RelayAddrs(request.value.0, request.value.1) else []),
       calls := l.calls + CallsOf(c, env))
  }

  /** After an event that no command consumed has been converted. */
  function Converted(l: Ledger, ev: Event, version: nat, now: nat): Ledger {
    Ledger(WaitingAfter(l.waiting, ev, version), l.listened + ListensAfter(l.waiting, ev, version),
           CounterAfter(l.counter, ev), PendingAfter(l.pending, ev, l.counter, now),
           l.calls + Learned(ev, version))
  }

  class EventLoop {
    var active: seq<CommandTask>
    var bootstrapPeers: R.Waiting
    var pendingIdCounter: nat
    var listened: seq<Addr>
    var sent: seq<NodeEvent>
    const pendingChannels: PendingMap.PendingMap<ReplyChannel>
    const executor: Executor
    const log: SwarmLog
    const enableRelayClient: bool
    const protocolVersion: nat

    constructor (pendingChannels: PendingMap.PendingMap<ReplyChannel>, executor: Executor, log: SwarmLog,
                 enableRelayClient: bool, protocolVersion: nat)
      ensures active == [] && bootstrapPeers == map[] && pendingIdCounter == 0 && listened == [] && sent == []
      ensures this.pendingChannels == pendingChannels && this.executor == executor
      ensures this.log == log
      ensures this.enableRelayClient == enableRelayClient && this.protocolVersion == protocolVersion
    {
      active, bootstrapPeers, pendingIdCounter, listened, sent := [], map[], 0, [], [];
      this.pendingChannels, this.executor, this.log := pendingChannels, executor, log;
      this.enableRelayClient, this.protocolVersion := enableRelayClient, protocolVersion;
    }

    /** Active commands are distinct, belong to distinct futures and do not share result handles. */
    ghost predicate Valid()
      reads this
    {
      NoDuplicates(active) && Unshared(active, executor)
    }

    /** What the loop keeps besides its commands. */
    function Ledgers(): Ledger
      reads this, pendingChannels, log
    {
      Ledger(bootstrapPeers, listened, pendingIdCounter, pendingChannels.entries, log.calls)
    }

    /** Prunes the commands whose futures were dropped. */
    method RetainActive()
      requires Valid()
      modifies this`active
      ensures Valid()
      ensures active == Uncancelled(old(active))
    {
      hide NoDuplicates, Unshared, Boxed.Object, Boxed.View, Uncancelled;
      var kept: seq<CommandTask> := [];
      assert active[..0] == [] && Uncancelled([]) == [] by { UncancelledNone(); }
      ObjectsAreNoLoops(active, this);
      for i := 0 to |active|
        modifies {}
        invariant active == old(active) && kept == Uncancelled(active[..i])
      {
        var cancelled := active[i].handle.IsCancelled();
        UncancelledMore(active, i);
        if !cancelled {
          kept := kept + [active[i]];
        }
      }
      assert active[..|active|] == active;
      UncancelledKeepsOrder(active);
      UncancelledKeepsUnshared(active, executor);
      active := kept;
    }

    /** Offers an event to the command at `i`, and takes it off the list if it is done. */
    method OfferTo(i: nat, ev: Event) returns (next: nat, remaining: Option<Event>)
      requires Valid() && i < |active|
      modifies this`active, active[i].body, active[i].handle, executor
      ensures Valid() && next <= |active| && forall t :: t in active ==> t in old(active)
      ensures var r := OnEvent(old(active[i].command.View()), ev);
              && (Views(active), next) == Stepped(old(Views(active)), i, r) && remaining == r.remaining
              && Wrote(r.finish, old(active[i].handle.View()), old(executor.woken),
                       old(active[i]).handle.View(), executor.woken)
    {
      hide OnEvent, Wrote, Views, Boxed.Object, Boxed.View, Unshared;
      var task := active[i];
      HandlesApart(active, executor, task);
      ObjectsAreNoLoops(active, this);
      var keep;
      keep, remaining := task.OnEventBoxed(ev);
      assert forall t :: t in active && t != task ==> t.View() == old(t.View());
      UnsharedAfterStep(active, i, executor);
      if keep {
        next := i + 1;
        assert Views(active) == old(Views(active))[i := task.View()];
      } else {
        active := SwapRemove(active, i);
        next := i;
        assert Views(active) == SwapRemove(old(Views(active)), i);
      }
    }

    /** Offers an event to the active commands in turn; what is left of it is returned. Afterwards the list, the
        event left over and every result cell are those of the chain. */
    method OfferToCommands(ev: Event) returns (remaining: Option<Event>)
      requires Valid()
      modifies this`active, Objects(active), Handles(active), executor
      ensures Valid() && forall t :: t in active ==> t in old(active)
      ensures var c := ChainFrom(old(Views(active)), 0, Some(ev));
              && Views(active) == c.survivors && remaining == c.leftover
              && (forall t :: t in old(active) ==> t.handle.View() == CellAfter(old(t.handle.View()), t.id, c.writes))
              && executor.woken == old(executor.woken) + Woken(old(Wakers(active, executor)), c.writes)
    {
      hide OnEvent, Stepped, Wrote, Views, WritesOf, CellAfter, Woken, NoDuplicates, Unshared, ChainFrom, Boxed.Object,
           Boxed.View, Wakers;
      assert Woken(Wakers(active, executor), []) == {} by { WokenNone(Wakers(active, executor)); }
      ghost var tasks := active;
      ghost var wakers := Wakers(active, executor);
      forall t | t in tasks ensures WakerIs(wakers, t.id, old(t.handle.View())) {
        WakersTell(tasks, executor, t);
      }
      ghost var whole := ChainFrom(Views(active), 0, Some(ev));
      ghost var done: seq<Write> := [];
      forall t | t in tasks ensures t.handle.View() == CellAfter(old(t.handle.View()), t.id, done) {
        CellAfterNone(t.handle.View(), t.id);
      }
      remaining := Some(ev);
      var i := 0;
      while i < |active|
        invariant 0 <= i <= |active| && Valid() && tasks == old(active)
        invariant forall t :: t in active ==> t in tasks
        invariant remaining in {None, Some(ev)}
        invariant var rest := ChainFrom(Views(active), i, remaining);
                  rest.survivors == whole.survivors && rest.leftover == whole.leftover
                  && done + rest.writes == whole.writes
        invariant forall t :: t in tasks ==> t.handle.View() == CellAfter(old(t.handle.View()), t.id, done)
        invariant executor.woken == old(executor.woken) + Woken(wakers, done)
        decreases |active| - i
      {
        if remaining.None? {
          break;
        }
        ghost var t := active[i].View();
        ghost var task := active[i];
        assert task in active && task in tasks && task in old(active);
        assert task.handle in Handles(old(active)) && task.body in Objects(old(active));
        ghost var r := OnEvent(t.cmd, ev);
        OnlyOwnEventsAreConsumed(t.cmd, ev);
        HandlesApart(tasks, executor, task);
        CommandsAreNoLoops(task.command, this);
        ChainOneStep(Views(active), i, ev);
        label offer:
        i, remaining := OfferTo(i, ev);
        FinishedOrNot(r.finish, old@offer(task.handle.View()), old@offer(executor.woken), task.handle.View(),
                      executor.woken);
        assert WakerIs(wakers, task.id, old(task.handle.View()));
        WokenMore(wakers, done, t, r, old(task.handle.View()));
        assert forall u :: u in tasks && u != task ==> u.handle.View() == old@offer(u.handle.View());
        forall u | u in tasks ensures u.handle.View() == CellAfter(old(u.handle.View()), u.id, done + WritesOf(t, r)) {
          CellAfterStep(old(u.handle.View()), t, r, u.id, done);
        }
        done := done + WritesOf(t, r);
      }
      ChainAtEnd(Views(active), i, remaining);
      assert done == whole.writes;
    }

    /** Makes the configured bootstrap peers known and dials them; with the relay client on, their addresses wait for
        reservations. */
    method ConnectBootstrapPeers(peers: seq<(PeerId, Addr)>)
      modifies this`bootstrapPeers, log
      ensures bootstrapPeers
              == if enableRelayClient then AllWaiting(old(bootstrapPeers), peers) else old(bootstrapPeers)
      ensures log.calls == old(log.calls) + BootstrapCalls(peers)
    {
      for i := 0 to |peers|
        invariant bootstrapPeers
                  == if enableRelayClient then AllWaiting(old(bootstrapPeers), peers[..i]) else old(bootstrapPeers)
        invariant log.calls == old(log.calls) + BootstrapCalls(peers[..i])
      {
        assert peers[..i + 1][..i] == peers[..i];
        var (peer, addr) := peers[i];
        log.Add(AddRoute(peer, addr));
        log.Add(AddAddress(peer, addr));
        log.Add(DialCall(peer));
        if enableRelayClient {
          if peer !in bootstrapPeers {
            bootstrapPeers := bootstrapPeers[peer := []];
          }
          bootstrapPeers := bootstrapPeers[peer := bootstrapPeers[peer] + [addr]];
        }
      }
      assert peers[..|peers|] == peers;
    }

    /** Listens on the relay address of each of the addresses, in order. */
    method RequestRelayReservations(peer: PeerId, addrs: seq<Addr>)
      modifies this`listened
      ensures listened == old(listened) + R.RelayAddrs(peer, addrs)
    {
      ghost var expected := R.RelayAddrs(peer, addrs);
      for i := 0 to |addrs|
        invariant listened == old(listened) + expected[..i]
      {
        var base := addrs[i];
        if forall k :: 0 <= k < |base| ==> !base[k].P2p? {
          base := base + [P2p(peer)];
        }
        assert expected[..i + 1] == expected[..i] + [expected[i]];
        assert base + [P2pCircuit] == R.RelayAddr(peer, addrs[i]);
        listened := listened + [base + [P2pCircuit]];
      }
      assert expected[..|addrs|] == expected;
    }

    /** Runs a command received from a client and puts it on the active list. Relay addresses it hands out are
        asked for at once if the peer is connected, and wait for it otherwise. */
    method HandleCommand(task: CommandTask, env: RunEnv, connected: bool)
      requires Valid() && Unshared(active + [task], executor) && task !in active
      modifies this`active, this`bootstrapPeers, this`listened, task.body, task.handle, executor, log
      ensures Valid() && active == old(active) + [task]
      ensures var r := Run(old(task.command.View()), env);
              && Views(active) == old(Views(active)) + [Task(task.id, TakeRelayRequest(r.cmd).0)]
              && Wrote(r.finish, old(task.handle.View()), old(executor.woken), task.handle.View(), executor.woken)
      ensures Ledgers() == Commanded(old(Ledgers()), old(task.command.View()), env, connected)
    {
      hide Run, Wrote, TakeRelayRequest, CallsOf, Boxed.Object, Boxed.View, Views, Unshared;
      TaskApart(active, executor, task);
      ObjectsAreNoLoops(active, this);
      CommandsAreNoLoops(task.command, this);
      ghost var tasks, before := active, Views(active);
      task.RunBoxed(env, log);
      var request := task.TakeRelayReservationRequest();
      if request.Some? {
        var (peer, addrs) := request.value;
        if connected {
          RequestRelayReservations(peer, addrs);
        } else {
          if peer !in bootstrapPeers {
            bootstrapPeers := bootstrapPeers[peer := []];
          }
          bootstrapPeers := bootstrapPeers[peer := bootstrapPeers[peer] + addrs];
        }
      }
      assert Views(tasks) == before;
      active := active + [task];
      ViewsAppend(tasks, task);
    }

    method NextPendingId() returns (id: nat)
      modifies this`pendingIdCounter
      ensures id == old(pendingIdCounter) && pendingIdCounter == Replies.NextCounter(old(pendingIdCounter))
    {
      id := pendingIdCounter;
      pendingIdCounter := (pendingIdCounter + 1) % Replies.ID_SPACE;
    }

    /** What an event that no command consumed does to the loop's own state, and what the frontend is told. */
    method ConvertToNodeEvent(ev: Event, now: nat) returns (r: Option<NodeEvent>)
      modifies this`bootstrapPeers, this`listened, this`pendingIdCounter, pendingChannels, log
      ensures r == FrontendEvent(ev, old(pendingIdCounter))
      ensures Ledgers() == Converted(old(Ledgers()), ev, protocolVersion, now)
    {
      match ev {
        case ConnectionEstablished(peer, n) =>
          return if n == 1 then Some(OfPeer(PeerConnected(peer))) else None;
        case ConnectionClosed(peer, n) =>
          return if n == 0 then Some(OfPeer(PeerDisconnected(peer))) else None;
        case RequestReceived(from, request, channel) =>
          var id := NextPendingId();
          pendingChannels.Insert(id, channel, now);
          return Some(InboundRequest(from, id, request));
        case IdentifyReceived(peer, version, addrs) =>
          if version == protocolVersion {
            for i := 0 to |addrs|
              modifies log
              invariant log.calls == old(log.calls) + Introductions(peer, addrs[..i])
            {
              assert addrs[..i + 1][..i] == addrs[..i];
              log.Add(AddRoute(peer, addrs[i]));
              log.Add(AddAddress(peer, addrs[i]));
            }
            assert addrs[..|addrs|] == addrs;
            if peer in bootstrapPeers {
              var waiting := bootstrapPeers[peer];
              bootstrapPeers := bootstrapPeers - {peer};
              RequestRelayReservations(peer, waiting);
            }
          }
          return Some(PeerIdentified(peer, version));
        case _ =>
          return None;
      }
    }

    /** Offers the event to the commands, and tells the frontend about it unless one of them consumed it. */
    method HandleSwarmEvent(ev: Event, now: nat)
      requires Valid()
      modifies this, Objects(active), Handles(active), executor, pendingChannels, log
      ensures Valid()
      ensures var c := ChainFrom(old(Views(active)), 0, Some(ev));
              && Views(active) == c.survivors
              && (forall t :: t in old(active) ==> t.handle.View() == CellAfter(old(t.handle.View()), t.id, c.writes))
              && executor.woken == old(executor.woken) + Woken(old(Wakers(active, executor)), c.writes)
              && (c.leftover.None? ==> sent == old(sent) && Ledgers() == old(Ledgers()))
              && (c.leftover.Some? ==>
                    var told := FrontendEvent(c.leftover.value, old(pendingIdCounter));
                    && sent == old(sent) + (if told.Some? then [told.value] else [])
                    && Ledgers() == Converted(old(Ledgers()), c.leftover.value, protocolVersion, now))
    {
      hide ChainFrom, OnEvent, Views, Woken, CellAfter, Boxed.Object, Boxed.View, FrontendEvent, Converted,
           NoDuplicates, Unshared;
      ObjectsAreNoLoops(active, this);
      var remaining := OfferToCommands(ev);
      if remaining.None? {
        return;
      }
      ghost var views := Views(active);
      ObjectsAreNoLoops(active, this);
      var told := ConvertToNodeEvent(remaining.value, now);
      if told.Some? {
        sent := sent + [told.value];
      }
      assert Views(active) == views;
    }
  }

  /** The object is no part of the loop's own state. */
  predicate NotALoop(o: object, loop: EventLoop) {
    o != loop && o != loop.pendingChannels && o != loop.log
  }

  lemma CommandsAreNoLoops(b: Boxed, loop: EventLoop)
    ensures NotALoop(b.Object(), loop)
  {
  }

  lemma ObjectsAreNoLoops(ts: seq<CommandTask>, loop: EventLoop)
    ensures forall t :: t in ts ==> NotALoop(t.body, loop)
    ensures loop !in Objects(ts) && loop.pendingChannels !in Objects(ts) && loop.log !in Objects(ts)
    ensures loop !in Handles(ts) && loop.pendingChannels !in Handles(ts) && loop.log !in Handles(ts)
  {
    hide Boxed.Object;
    forall t | t in ts ensures NotALoop(t.body, loop) {
      CommandsAreNoLoops(t.command, loop);
    }
  }

  /** A peer that identifies itself with the loop's protocol is introduced. */
  function Learned(ev: Event, version: nat): seq<Call> {
    if ev.IdentifyReceived? && ev.protocolVersion == version then Introductions(ev.peer, ev.listenAddrs) else []
  }

  /** `connect_bootstrap_peers` on the waiting addresses. */
  function AllWaiting(w: R.Waiting, peers: seq<(PeerId, Addr)>): R.Waiting {
    if peers == [] then w
    else R.Extended(AllWaiting(w, peers[..|peers| - 1]), peers[|peers| - 1].0, [peers[|peers| - 1].1])
  }

  function PendingAfter(entries: map<nat, PendingMap.Entry<ReplyChannel>>, ev: Event, id: nat, now: nat)
    : map<nat, PendingMap.Entry<ReplyChannel>>
  {
    if ev.RequestReceived? then entries[id := PendingMap.Entry(ev.channel, now)] else entries
  }

  function CounterAfter(counter: nat, ev: Event): nat {
    if ev.RequestReceived? then Replies.NextCounter(counter) else counter
  }

  /** A peer that identifies itself with the loop's protocol has its waiting addresses asked for. */
  predicate Flushes(w: R.Waiting, ev: Event, version: nat) {
    ev.IdentifyReceived? && ev.protocolVersion == version && ev.peer in w
  }

  function WaitingAfter(w: R.Waiting, ev: Event, version: nat): R.Waiting {
    if Flushes(w, ev, version) then w - {ev.peer} else w
  }

  function ListensAfter(w: R.Waiting, ev: Event, version: nat): seq<Addr> {
    if Flushes(w, ev, version) then R.RelayAddrs(ev.peer, w[ev.peer]) else []
  }

  /** One iteration of the chain is the offering step of the runtime machine: whatever `OfferTo` may leave of the list,
      the event, the cell and the woken tasks is what `OfferNext` leaves. */
  lemma OfferRefinesRuntime(s: Runtime.State, after: seq<Task>, next: nat, remaining: Option<Event>,
                            cell: ResultState, woken: set<TaskId>)
    requires Runtime.Enabled(s, Runtime.LoopOffer)
    requires var t := s.active[s.pc.i];
             var r := OnEvent(t.cmd, s.pc.remaining.value);
             && (after, next) == Stepped(s.active, s.pc.i, r) && remaining == r.remaining
             && Wrote(r.finish, s.cells[t.id], s.woken, cell, woken)
    ensures var t, s' := s.active[s.pc.i], Runtime.OfferNext(s);
            && s'.active == after && s'.pc.i == next && s'.pc.remaining == remaining
            && s'.cells == s.cells[t.id := cell] && s'.woken == woken
  {
    hide OnEvent, Stepped;
  }

  /** Handling a command is the running step of the runtime machine. */
  lemma CommandRefinesRuntime(s: Runtime.State, env: RunEnv, after: seq<Task>, cell: ResultState, woken: set<TaskId>)
    requires Runtime.Enabled(s, Runtime.LoopRun(env))
    requires var t := s.pc.task;
             && after == s.active + [Task(t.id, TakeRelayRequest(Run(t.cmd, env).cmd).0)]
             && Wrote(Run(t.cmd, env).finish, s.cells[t.id], s.woken, cell, woken)
    ensures var t, s' := s.pc.task, Runtime.RunHeld(s, env);
            && s'.active == after && s'.cells == s.cells[t.id := cell] && s'.woken == woken && s'.pc == Runtime.Top
  {
    hide Run, CommandKey, TakeRelayRequest;
  }

  /** The ledger holds the addresses that the relay book holds. */
  predicate KeepsBook(l: Ledger, s: R.Book) {
    l.waiting == s.waiting && l.listened == s.listened
  }

  /** Configuring bootstrap peers is the sequence of their steps in the relay book. */
  lemma {:induction false} BootstrapRefinesRelay(s: R.Book, peers: seq<(PeerId, Addr)>)
    requires !s.looping
    ensures R.CanRun(s, BootstrapSteps(peers))
    ensures R.After(s, BootstrapSteps(peers)).waiting
            == if s.relayClient then AllWaiting(s.waiting, peers) else s.waiting
    ensures R.After(s, BootstrapSteps(peers)).listened == s.listened
    decreases |peers|
  {
    if peers != [] {
      AllWaitingFromFront(s.waiting, peers);
      assert BootstrapSteps(peers)[1..] == BootstrapSteps(peers[1..]);
      BootstrapRefinesRelay(R.Next(s, BootstrapSteps(peers)[0]), peers[1..]);
    }
  }

  function BootstrapSteps(peers: seq<(PeerId, Addr)>): seq<R.Step> {
    seq(|peers|, i requires 0 <= i < |peers| => R.ConnectBootstrap(peers[i].0, peers[i].1))
  }

  lemma {:induction false} AllWaitingFromFront(w: R.Waiting, peers: seq<(PeerId, Addr)>)
    requires peers != []
    ensures AllWaiting(w, peers) == AllWaiting(R.Extended(w, peers[0].0, [peers[0].1]), peers[1..])
  {
    var n := |peers| - 1;
    if n > 0 {
      AllWaitingFromFront(w, peers[..n]);
      assert peers[..n][1..] == peers[1..][..n - 1];
    } else {
      assert peers[..n] == [] && peers[1..] == [];
    }
  }

  /** Handling a command does to the waiting and the requested relay addresses what the relay book does: the step of an
      infrastructure peer for that command, and nothing for the others. */
  lemma CommandRefinesRelay(s: R.Book, l: Ledger, c: Cmd, env: RunEnv, connected: bool)
    requires IsNew(c) && s.looping && KeepsBook(l, s) && env.relayEnabled == s.relayClient
    requires c.AddInfrastructurePeer? ==> connected == (R.Connections(s, c.peer) > 0)
    ensures KeepsBook(Commanded(l, c, env, connected),
                      if c.AddInfrastructurePeer?
                      then R.Next(s, R.AddInfrastructure(c.peer, c.addrs, c.roles.relayServer)) else s)
  {
    assert s.listened + [] == s.listened;
  }

  /** Handling a command leaves the pending requests alone. */
  lemma CommandsLeavePending(l: Ledger, c: Cmd, env: RunEnv, connected: bool)
    ensures var l' := Commanded(l, c, env, connected); l'.pending == l.pending && l'.counter == l.counter
    ensures Commanded(l, c, env, connected).calls == l.calls + CallsOf(c, env)
  {
  }

  /** Converting an identify event does to the relay addresses what the identify step of the relay book does. */
  lemma IdentifyRefinesRelay(s: R.Book, l: Ledger, ev: Event, now: nat)
    requires ev.IdentifyReceived? && R.Enabled(s, R.Identify(ev.peer, ev.protocolVersion)) && KeepsBook(l, s)
    ensures KeepsBook(Converted(l, ev, s.protocolVersion, now), R.Next(s, R.Identify(ev.peer, ev.protocolVersion)))
    ensures Converted(l, ev, s.protocolVersion, now).pending == l.pending
    ensures Converted(l, ev, s.protocolVersion, now).counter == l.counter
  {
    assert s.listened + [] == s.listened;
  }

  /** A peer that identifies itself with the right protocol has each address it lists made known and routed, once for
      each time it lists it; nothing else is, and no other event does so. */
  lemma IdentifiedPeersAreIntroduced(l: Ledger, ev: Event, version: nat, now: nat, p: PeerId, addr: Addr)
    ensures var calls := Converted(l, ev, version, now).calls;
            var times := if ev.IdentifyReceived? && ev.protocolVersion == version && ev.peer == p
                         then TimesIn(ev.listenAddrs, addr) else 0;
            && Times(calls, AddAddress(p, addr)) == Times(l.calls, AddAddress(p, addr)) + times
            && Times(calls, AddRoute(p, addr)) == Times(l.calls, AddRoute(p, addr)) + times
    ensures l.calls <= Converted(l, ev, version, now).calls
    ensures forall call :: call in Converted(l, ev, version, now).calls ==>
              call in l.calls || call.AddAddress? || call.AddRoute?
  {
    hide Times, TimesIn, Introductions;
    var more := Learned(ev, version);
    TimesConcat(l.calls, more, AddAddress(p, addr));
    TimesConcat(l.calls, more, AddRoute(p, addr));
    if ev.IdentifyReceived? {
      IntroductionsAreExact(ev.peer, ev.listenAddrs, p, addr);
    }
    NotMade([], AddAddress(p, addr));
    NotMade([], AddRoute(p, addr));
  }

  /** Converting an inbound request is its arrival in the reply traffic. */
  lemma RequestRefinesReplies(s: Replies.Traffic, l: Ledger, from: PeerId, request: Request, version: nat)
    requires l.pending == s.pending && l.counter == s.counter
    ensures var l' := Converted(l, RequestReceived(from, request, s.arrived), version, s.clock);
            var s' := Replies.Next(s, Replies.Arrive);
            && l'.pending == s'.pending && l'.counter == s'.counter
            && l'.waiting == l.waiting && l'.listened == l.listened && l'.calls == l.calls
  {
    assert l.listened + [] == l.listened && l.calls + [] == l.calls;
  }

  /** Taking a pending channel to reply is the taking step of the reply traffic. */
  lemma ReplyRefinesReplies(s: Replies.Traffic, id: nat, f: TaskId)
    requires Replies.Enabled(s, Replies.Take(id, f))
    ensures var s' := Replies.Next(s, Replies.Take(id, f));
            && s'.pending == s.pending - {id}
            && s'.unsent == if id in s.pending then s.unsent[f := s.pending[id].value] else s.unsent
  {
    assert id !in s.pending ==> s.pending - {id} == s.pending;
  }

  /** The frontend is told of a request under the id under which the channel of that very request now waits. */
  lemma ReportedIdFindsChannel(l: Ledger, from: PeerId, request: Request, channel: ReplyChannel, version: nat, now: nat)
    ensures var ev := RequestReceived(from, request, channel);
            var told, pending := FrontendEvent(ev, l.counter), Converted(l, ev, version, now).pending;
            && told.Some? && told.value.InboundRequest?
            && told.value.peer == from && told.value.request == request
            && told.value.pendingId in pending
            && pending[told.value.pendingId] == PendingMap.Entry(channel, now)
  {
  }

  /** The frontend is told of a peer exactly what the aggregation of connection events says, and of an identify whose it
      was; other events are not passed on. */
  lemma FrontendHearsPeers(ev: Event, id: nat)
    ensures forall e :: FrontendEvent(ev, id) == Some(OfPeer(e)) <==> PeerEventsOf(ev) == [e]
    ensures ev.IdentifyReceived? ==> FrontendEvent(ev, id) == Some(PeerIdentified(ev.peer, ev.protocolVersion))
    ensures FrontendEvent(ev, id).None? <==>
              PeerEventsOf(ev) == [] && !ev.RequestReceived? && !ev.IdentifyReceived?
  {
  }

  /** Any other event leaves the ledger as it was. */
  lemma OtherEventsLeaveLedger(l: Ledger, ev: Event, version: nat, now: nat)
    requires !ev.RequestReceived? && !ev.IdentifyReceived?
    ensures Converted(l, ev, version, now) == l
  {
    assert l.listened + [] == l.listened && l.calls + [] == l.calls;
  }

  /** What the frontend is told about an event; `id` is the next pending id. */
  function FrontendEvent(ev: Event, id: nat): Option<NodeEvent> {
    if PeerEventsOf(ev) != [] then Some(OfPeer(PeerEventsOf(ev)[0]))
    else match ev
      case RequestReceived(from, request, _) => Some(InboundRequest(from, id, request))
      case IdentifyReceived(peer, version, _) => Some(PeerIdentified(peer, version))
      case _ => None
  }

  lemma FinishedOrNot(finish: Option<Outcome>, before: ResultState, wokenBefore: set<TaskId>,
                      after: ResultState, wokenAfter: set<TaskId>)
    requires Wrote(finish, before, wokenBefore, after, wokenAfter)
    ensures after == if finish.Some? then before.Finished(finish.value) else before
    ensures wokenAfter == wokenBefore + if finish.Some? then before.WokenByFinish() else {}
  {
  }

  // ----- clients

  /** The bounded command queue. */
  class CommandChannel {
    var queue: seq<CommandTask>
    var receiverOpen: bool

    constructor ()
      ensures queue == [] && receiverOpen
    {
      queue, receiverOpen := [], true;
    }

    method TrySend(task: CommandTask) returns (ok: bool)
      modifies this
      ensures ok == (old(receiverOpen) && |old(queue)| < Runtime.COMMAND_CHANNEL_SIZE)
      ensures queue == (if ok then old(queue) + [task] else old(queue)) && receiverOpen == old(receiverOpen)
    {
      ok := receiverOpen && |queue| < Runtime.COMMAND_CHANNEL_SIZE;
      if ok {
        queue := queue + [task];
      }
    }
  }

  /** What a poll does to the queue and the result cell, and what it returns. */
  function FuturePolled(handler: Option<Cmd>, queue: seq<Task>, open: bool, cell: ResultState, id: TaskId)
    : (seq<Task>, ResultState, Option<Outcome>)
  {
    if handler.Some? && !(open && |queue| < Runtime.COMMAND_CHANNEL_SIZE)
    then (queue, cell, Some(Err(CommandChannelClosed)))
    else
      var (cell', ready) := cell.Polled(id);
      (if handler.Some? then queue + [Task(id, handler.value)] else queue, cell', ready)
  }

  /** A command that runs when it is awaited; `id` names the future and the task that polls it. */
  class CommandFuture {
    const id: TaskId
    var handler: Option<Boxed>
    const handle: ResultHandle
    const sender: CommandChannel

    constructor (id: TaskId, command: Boxed, sender: CommandChannel, executor: Executor)
      ensures this.id == id && handler == Some(command) && this.sender == sender
      ensures fresh(handle) && handle.View() == FreshState && handle.executor == executor
    {
      this.id, handler, this.sender := id, Some(command), sender;
      handle := new ResultHandle(executor);
    }

    /** The command, while it has not been sent. */
    function Unsent(): Option<Cmd>
      reads this, if handler.Some? then {handler.value.Object()} else {}
    {
      if handler.Some? then Some(handler.value.View()) else None
    }

    /** None is Pending. The first poll sends the command, and a full or closed queue ends the wait; every poll
        that gets past that takes the result, or stores the waker. */
    method Poll() returns (r: Option<Outcome>)
      modifies this, handle, sender
      ensures handler == None && sender.receiverOpen == old(sender.receiverOpen)
      ensures (Views(sender.queue), handle.View(), r)
              == FuturePolled(old(Unsent()), old(Views(sender.queue)), old(sender.receiverOpen), old(handle.View()), id)
      ensures old(sender.queue) <= sender.queue
      ensures forall t :: t in sender.queue && t !in old(sender.queue) ==> fresh(t) && t.handle == handle
    {
      hide Views;
      ObjectsAreNoFutures(sender.queue, this);
      if handler.Some? {
        CommandsAreNoFutures(handler.value, this);
        var task := new CommandTask(id, handler.value, handle);
        handler := None;
        var sent := sender.TrySend(task);
        if !sent {
          assert Views(sender.queue) == old(Views(sender.queue));
          return Some(Err(CommandChannelClosed));
        }
        assert Views(sender.queue) == old(Views(sender.queue)) + [task.View()];
        ObjectsAreNoFutures(sender.queue, this);
      }
      ghost var queue := Views(sender.queue);
      r := handle.Poll(id);
      assert Views(sender.queue) == queue;
    }

    /** Giving up: the loop prunes the command at the top of its next iteration. */
    method Drop()
      modifies handle
      ensures handle.View() == old(handle.View()).Cancelled()
    {
      handle.Cancel();
    }
  }

  predicate NotAFuture(o: object, future: CommandFuture) {
    o != future && o != future.sender && o != future.handle
  }

  lemma CommandsAreNoFutures(b: Boxed, future: CommandFuture)
    ensures NotAFuture(b.Object(), future)
  {
  }

  lemma ObjectsAreNoFutures(ts: seq<CommandTask>, future: CommandFuture)
    ensures forall t :: t in ts ==> NotAFuture(t.body, future)
  {
    forall t | t in ts ensures NotAFuture(t.body, future) {
      CommandsAreNoFutures(t.command, future);
    }
  }

  /** Polling the future object is the two halves of a poll in the runtime machine, with nothing in between. */
  lemma PollRefinesRuntime(s: Runtime.State, f: TaskId)
    requires Runtime.Enabled(s, Runtime.PollSend(f)) && f in s.cells
    ensures var (queue, cell, r) := FuturePolled(s.futures[f].handler, s.queue, !s.pc.Stopped?, s.cells[f], f);
            var s1 := Runtime.SendHalf(s, f);
            if s1.futures[f].phase.Rejected?
            then r == Some(Err(CommandChannelClosed)) && s1.queue == queue && s1.cells == s.cells[f := cell]
            else
              && Runtime.Enabled(s1, Runtime.PollCheck(f))
              && var s2 := Runtime.CheckHalf(s1, f);
                 && s2.queue == queue && s2.cells == s.cells[f := cell] && s2.futures[f].handler == None
                 && s2.futures[f].phase == if r.Some? then Runtime.Ready(r.value) else Runtime.Pending
  {
  }

  class NetClient {
    const sender: CommandChannel
    const pendingChannels: PendingMap.PendingMap<ReplyChannel>
    const executor: Executor

    constructor (sender: CommandChannel, pendingChannels: PendingMap.PendingMap<ReplyChannel>, executor: Executor)
      ensures this.sender == sender && this.pendingChannels == pendingChannels && this.executor == executor
    {
      this.sender, this.pendingChannels, this.executor := sender, pendingChannels, executor;
    }

    /** Takes the response channel of a pending request out of the map and into a future that will reply; an
        unknown, expired or already answered request is an error. */
    method SendResponse(pendingId: nat, response: Response, id: TaskId)
      returns (future: CommandFuture?, error: Option<Error>)
      modifies pendingChannels
      ensures pendingChannels.entries == old(pendingChannels.entries) - {pendingId}
      ensures pendingId !in old(pendingChannels.entries) ==>
                future == null && error == Some(NoPendingChannel(pendingId))
      ensures pendingId in old(pendingChannels.entries) ==>
                && error == None && future != null && fresh(future) && future.id == id && future.sender == sender
                && future.Unsent()
                   == Some(Cmd.SendResponse(Some(old(pendingChannels.entries)[pendingId].value), Some(response)))
    {
      var channel := pendingChannels.Take(pendingId);
      if channel.None? {
        return null, Some(NoPendingChannel(pendingId));
      }
      var command := new P.SendResponseCommand(channel.value, response);
      future := new CommandFuture(id, BoxedSendResponse(command), sender, executor);
      error := None;
    }
  }

  /** One request, end to end: once the loop has converted it, replying under the id that the frontend was told gives a
      future that holds the channel of that request, and its entry is gone. */
  method ReplyUnderReportedId(loop: EventLoop, client: NetClient, from: PeerId, request: Request, channel: ReplyChannel,
                              now: nat, response: Response, id: TaskId)
    returns (future: CommandFuture?)
    requires client.pendingChannels == loop.pendingChannels
    modifies loop, loop.pendingChannels, loop.log
    ensures future != null && fresh(future)
            && future.Unsent() == Some(Cmd.SendResponse(Some(channel), Some(response)))
    ensures loop.pendingChannels.entries == old(loop.pendingChannels.entries) - {old(loop.pendingIdCounter)}
  {
    ghost var before := loop.Ledgers();
    var told := loop.ConvertToNodeEvent(RequestReceived(from, request, channel), now);
    ReportedIdFindsChannel(before, from, request, channel, loop.protocolVersion, now);
    var error;
    future, error := client.SendResponse(told.value.pendingId, response, id);
  }
}
