/** The command runtime as a transition system: arbitrarily many clients and command futures, the bounded
    command queue, the event loop and a swarm that answers calls and delivers events.

    A poll is two atomic steps, sending and checking, and dropping a future is two, cancelling and
    releasing its sender. The loop offers an event to one active command per step. All other steps may
    come in between. */
module Runtime {
  import opened Types
  import opened Handler
  import opened Commands
  import opened Chain
  import opened PeerEvents

  const COMMAND_CHANNEL_SIZE: nat := 32

  datatype Phase =
    | Unpolled                 // never polled
    | Checking                 // inside a poll, after its sending half
    | Pending                  // the last poll returned Pending
    | Ready(outcome: Outcome)  // a poll returned this result
    | Rejected                 // the queue did not take the command
    | Dropping                 // cancelled, sender not yet released

  /** `handler` is the command while it has not been sent. */
  datatype Future = Future(handler: Option<Cmd>, phase: Phase)

  datatype LoopPc =
    | Top
    | Select
    | Running(task: Task)
    | Offering(i: nat, remaining: Option<Event>, ev: Event, start: seq<Task>, stored: seq<Write>)
    | Converting(event: Event)
    | Stopped

  datatype State = State(
    clients: nat,
    futures: map<TaskId, Future>,
    cells: map<TaskId, ResultState>,
    queue: seq<Task>,
    active: seq<Task>,
    pc: LoopPc,
    woken: set<TaskId>,
    // History: results stored per cell, commands as `run` left them, events per identifier,
    // cells found cancelled at the top of the current iteration, events taken from the swarm, peer events sent.
    written: map<TaskId, seq<Outcome>>,
    started: map<TaskId, Cmd>,
    heard: map<Correlation, seq<Event>>,
    cancelledAtTop: set<TaskId>,
    taken: seq<Event>,
    emitted: seq<PeerEvent>)

  datatype Step =
    | CloneClient
    | DropClient
    | NewFuture(f: TaskId, cmd: Cmd)
    | PollSend(f: TaskId)
    | PollCheck(f: TaskId)
    | DropCancel(f: TaskId)
    | DropRelease(f: TaskId)
    | LoopRetain
    | LoopReceive
    | LoopRun(env: RunEnv)
    | LoopTakeEvent(ev: Event)
    | LoopOffer
    | LoopEndChain
    | LoopConvert
    | LoopStop

  const Initial := State(1, map[], map[], [], [], Top, {}, map[], map[], map[], {}, [], [])

  /** The swarm never issues an identifier twice, nor one that an event has already carried. */
  predicate IsFresh(s: State, c: Cmd, env: RunEnv) {
    var k := CommandKey(Launch(c, env).cmd);
    k.Some? ==> k.value !in s.heard
  }

  predicate Enabled(s: State, step: Step) {
    match step
    case CloneClient => s.clients > 0
    case DropClient => s.clients > 0
    case NewFuture(f, cmd) => s.clients > 0 && f !in s.cells && IsNew(cmd)
    case PollSend(f) => f in s.futures && s.futures[f].phase in {Unpolled, Pending}
    case PollCheck(f) => f in s.futures && f in s.cells && s.futures[f].phase == Checking
    case DropCancel(f) =>
      f in s.futures && f in s.cells && s.futures[f].phase != Checking && s.futures[f].phase != Dropping
    case DropRelease(f) => f in s.futures && s.futures[f].phase == Dropping
    case LoopRetain => s.pc == Top
    case LoopReceive => s.pc == Select && s.queue != []
    case LoopRun(env) => s.pc.Running? && s.pc.task.id in s.cells && s.pc.task.id in s.written
                         && IsFresh(s, s.pc.task.cmd, env)
    case LoopTakeEvent(ev) => s.pc == Select
    case LoopOffer =>
      s.pc.Offering? && s.pc.remaining.Some? && s.pc.i < |s.active|
      && s.active[s.pc.i].id in s.cells && s.active[s.pc.i].id in s.written
    case LoopEndChain => s.pc.Offering? && (s.pc.remaining.None? || s.pc.i >= |s.active|)
    case LoopConvert => s.pc.Converting?
    case LoopStop => s.pc == Select && s.queue == [] && s.clients == 0 && s.futures == map[]
  }

  /** Storing a result in the cell of `f`, or nothing. */
  function Finish(s: State, f: TaskId, r: Option<Outcome>): State
    requires f in s.cells && f in s.written
  {
    if r.None? then s else
    s.(cells := s.cells[f := s.cells[f].Finished(r.value)],
       woken := s.woken + s.cells[f].WokenByFinish(),
       written := s.written[f := s.written[f] + [r.value]])
  }

  function Retained(active: seq<Task>, cells: map<TaskId, ResultState>): (r: seq<Task>)
    ensures forall t :: t in r <==> t in active && (t.id in cells ==> !cells[t.id].cancelled)
  {
    if active == [] then [] else
    var t := active[0];
    (if t.id in cells && cells[t.id].cancelled then [] else [t]) + Retained(active[1..], cells)
  }

  function Hear(heard: map<Correlation, seq<Event>>, ev: Event): map<Correlation, seq<Event>> {
    var k := EventKey(ev);
    if k.None? then heard else heard[k.value := (if k.value in heard then heard[k.value] else []) + [ev]]
  }

  function SendHalf(s: State, f: TaskId): State
    requires Enabled(s, PollSend(f))
  {
    var s' := s.(woken := s.woken - {f});
    var handler := s.futures[f].handler;
    if handler.None? then s'.(futures := s.futures[f := Future(None, Checking)])
    else if |s.queue| < COMMAND_CHANNEL_SIZE && s.pc != Stopped then
      s'.(futures := s.futures[f := Future(None, Checking)], queue := s.queue + [Task(f, handler.value)])
    else s'.(futures := s.futures[f := Future(None, Rejected)])
  }

  function CheckHalf(s: State, f: TaskId): State
    requires Enabled(s, PollCheck(f))
  {
    var (cell, ready) := s.cells[f].Polled(f);
    s.(cells := s.cells[f := cell],
       futures := s.futures[f := Future(None, if ready.Some? then Ready(ready.value) else Pending)])
  }

  function RunHeld(s: State, env: RunEnv): State
    requires Enabled(s, LoopRun(env))
  {
    var t := s.pc.task;
    var r := Launch(t.cmd, env);
    var k := CommandKey(r.cmd);
    Finish(s, t.id, r.finish).(
      started := s.started[t.id := r.cmd],
      heard := if k.Some? then s.heard[k.value := []] else s.heard,
      active := s.active + [Task(t.id, r.cmd)],
      pc := Top)
  }

  function OfferNext(s: State): State
    requires Enabled(s, LoopOffer)
  {
    var t := s.active[s.pc.i];
    var r := OnEvent(t.cmd, s.pc.remaining.value);
    var (active', i') := Stepped(s.active, s.pc.i, r);
    Finish(s, t.id, r.finish).(active := active',
      pc := Offering(i', r.remaining, s.pc.ev, s.pc.start, s.pc.stored + WritesOf(t, r)))
  }

  function Created(s: State, f: TaskId, cmd: Cmd): State {
    s.(futures := s.futures[f := Future(Some(cmd), Unpolled)], cells := s.cells[f := FreshState],
       written := s.written[f := []])
  }

  function CancelHalf(s: State, f: TaskId): State
    requires Enabled(s, DropCancel(f))
  {
    s.(cells := s.cells[f := s.cells[f].Cancelled()], futures := s.futures[f := s.futures[f].(phase := Dropping)])
  }

  function RetainLive(s: State): State {
    s.(active := Retained(s.active, s.cells), pc := Select,
       cancelledAtTop := set f | f in s.cells && s.cells[f].cancelled)
  }

  function TakeEvent(s: State, ev: Event): State {
    s.(pc := Offering(0, Some(ev), ev, s.active, []), heard := Hear(s.heard, ev), taken := s.taken + [ev])
  }

  function EndChain(s: State): State
    requires Enabled(s, LoopEndChain)
  {
    s.(pc := if s.pc.remaining.Some? then Converting(s.pc.remaining.value) else Top)
  }

  function ConvertRest(s: State): State
    requires Enabled(s, LoopConvert)
  {
    s.(emitted := s.emitted + PeerEventsOf(s.pc.event), pc := Top)
  }

  function Next(s: State, step: Step): State
    requires Enabled(s, step)
  {
    match step
    case CloneClient => s.(clients := s.clients + 1)
    case DropClient => s.(clients := s.clients - 1)
    case NewFuture(f, cmd) => Created(s, f, cmd)
    case PollSend(f) => SendHalf(s, f)
    case PollCheck(f) => CheckHalf(s, f)
    case DropCancel(f) => CancelHalf(s, f)
    case DropRelease(f) => s.(futures := s.futures - {f})
    case LoopRetain => RetainLive(s)
    case LoopReceive => s.(pc := Running(s.queue[0]), queue := s.queue[1..])
    case LoopRun(env) => RunHeld(s, env)
    case LoopTakeEvent(ev) => TakeEvent(s, ev)
    case LoopOffer => OfferNext(s)
    case LoopEndChain => EndChain(s)
    case LoopConvert => ConvertRest(s)
    case LoopStop => s.(pc := Stopped)
  }

  /** The steps can be taken one after the other from `s`. */
  ghost predicate CanRun(s: State, steps: seq<Step>)
    decreases |steps|
  {
    steps == [] || (Enabled(s, steps[0]) && CanRun(Next(s, steps[0]), steps[1..]))
  }

  ghost function After(s: State, steps: seq<Step>): State
    requires CanRun(s, steps)
    decreases |steps|
  {
    if steps == [] then s else After(Next(s, steps[0]), steps[1..])
  }

  ghost predicate Reachable(s: State) {
    exists steps: seq<Step> :: CanRun(Initial, steps) && After(Initial, steps) == s
  }
}
