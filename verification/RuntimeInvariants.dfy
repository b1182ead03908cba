/** What every step of the command runtime keeps. */
module RuntimeInvariants {
  import opened Types
  import opened Handler
  import opened Commands
  import opened Chain
  import opened PeerEvents
  import opened Runtime

  // ----- the invariants

  predicate DistinctIds(ts: seq<Task>) {
    forall i, j :: 0 <= i < j < |ts| ==> ts[i].id != ts[j].id
  }

  function Ids(ts: seq<Task>): set<TaskId> {
    set t | t in ts :: t.id
  }

  /** Each command is in one place: with its unsent future, queued, held by the loop, or active; a command
      that has run is active or gone. */
  ghost predicate Linear(s: State) {
    && s.futures.Keys <= s.cells.Keys && s.written.Keys == s.cells.Keys && s.started.Keys <= s.cells.Keys
    && DistinctIds(s.queue) && Ids(s.queue) <= s.cells.Keys && Ids(s.queue) !! s.started.Keys
    && DistinctIds(s.active) && Ids(s.active) <= s.started.Keys
    && (s.pc.Running? ==> s.pc.task.id in s.cells && s.pc.task.id !in s.started && s.pc.task.id !in Ids(s.queue))
    && (forall f :: f in s.futures ==> Unsent(s, f))
  }

  /** The command of the future is not in the loop's hands, and has stored nothing. */
  ghost predicate NotSent(s: State, f: TaskId) {
    && f !in s.started && f !in Ids(s.queue) && (s.pc.Running? ==> s.pc.task.id != f)
    && f in s.written && s.written[f] == []
  }

  /** A future that still has its command has sent nothing, nor has one whose command was refused. */
  ghost predicate Unsent(s: State, f: TaskId)
    requires f in s.futures
  {
    && (s.futures[f].phase == Unpolled ==> s.futures[f].handler.Some?)
    && (s.futures[f].handler.Some? ==>
          s.futures[f].phase in {Unpolled, Dropping} && NotSent(s, f))
    && (s.futures[f].phase.Rejected? ==> NotSent(s, f))
  }

  /** A cell is cancelled exactly if its future has been dropped, or is being dropped. */
  predicate CancelFlag(s: State, f: TaskId)
    requires f in s.cells
  {
    s.cells[f].cancelled <==> f !in s.futures || s.futures[f].phase == Dropping
  }

  /** A future that last returned Pending either has its waker stored and no result waiting, or its task has
      been woken since. */
  predicate WakeupPending(s: State, f: TaskId)
    requires f in s.cells
  {
    && s.cells[f].waker in {None, Some(f)}
    && (f in s.futures && s.futures[f].phase == Pending ==>
          f in s.woken || (s.cells[f].result.None? && s.cells[f].waker == Some(f)))
  }

  function LastOf(rs: seq<Outcome>): Option<Outcome> {
    if rs == [] then None else Some(rs[|rs| - 1])
  }

  /** The future has not completed and is not being dropped. */
  predicate Awaits(f: Future) {
    f.phase.Unpolled? || f.phase.Checking? || f.phase.Pending?
  }

  /** The cell of a future that has not completed holds the last result stored, if any; a completed one returned a
      result that was stored, and its cell holds one only if another was. */
  predicate HoldsLast(s: State, f: TaskId)
    requires f in s.cells && f in s.written
  {
    f in s.futures ==>
      && (Awaits(s.futures[f]) ==> s.cells[f].result == LastOf(s.written[f]))
      && (s.futures[f].phase.Ready? ==>
            s.futures[f].phase.outcome in s.written[f] && (s.cells[f].result.Some? ==> |s.written[f]| >= 2))
  }

  ghost predicate CellsConsistent(s: State) {
    && s.futures.Keys <= s.cells.Keys && s.written.Keys == s.cells.Keys
    && (forall f :: f in s.cells ==> CancelFlag(s, f) && WakeupPending(s, f) && HoldsLast(s, f))
  }

  // ----- lists of tasks

  lemma AppendKeepsDistinct(ts: seq<Task>, t: Task)
    requires DistinctIds(ts) && t.id !in Ids(ts)
    ensures DistinctIds(ts + [t]) && Ids(ts + [t]) == Ids(ts) + {t.id}
  {
    forall i | 0 <= i < |ts| ensures ts[i].id != t.id {
      assert ts[i] in ts;
    }
    assert t in ts + [t];
    forall u | u in ts ensures u in ts + [t] {}
  }

  lemma HeadAndTail(ts: seq<Task>)
    requires ts != [] && DistinctIds(ts)
    ensures DistinctIds(ts[1..]) && ts[0].id !in Ids(ts[1..]) && Ids(ts) == Ids(ts[1..]) + {ts[0].id}
  {
    assert ts == [ts[0]] + ts[1..];
  }

  lemma SteppedKeepsIds(active: seq<Task>, i: nat, r: Reaction)
    requires i < |active| && DistinctIds(active)
    ensures DistinctIds(Stepped(active, i, r).0) && Ids(Stepped(active, i, r).0) <= Ids(active)
  {
    var active' := Stepped(active, i, r).0;
    forall t | t in active' ensures t.id in Ids(active) {
      var j :| 0 <= j < |active'| && active'[j] == t;
      if j == i {
        assert active[i] in active && active[|active| - 1] in active;
      } else {
        assert active[j] in active;
      }
    }
  }

  lemma {:induction false} RetainedKeepsIds(active: seq<Task>, cells: map<TaskId, ResultState>)
    requires DistinctIds(active)
    ensures DistinctIds(Retained(active, cells)) && Ids(Retained(active, cells)) <= Ids(active)
  {
    if active != [] {
      HeadAndTail(active);
      RetainedKeepsIds(active[1..], cells);
      var rest := Retained(active[1..], cells);
      forall j | 0 <= j < |rest| ensures rest[j].id != active[0].id {
        assert rest[j] in rest;
      }
    }
  }

  // ----- each step keeps them

  lemma LinearAfterSend(s: State, f: TaskId)
    requires Linear(s) && Enabled(s, PollSend(f))
    ensures Linear(SendHalf(s, f))
  {
    hide DistinctIds, Ids;
    var s' := SendHalf(s, f);
    assert Unsent(s, f);
    if s.futures[f].handler.Some? {
      AppendKeepsDistinct(s.queue, Task(f, s.futures[f].handler.value));
    }
    forall g | g in s'.futures ensures Unsent(s', g) {
      assert g != f ==> Unsent(s, g);
    }
  }

  lemma LinearAfterRun(s: State, env: RunEnv)
    requires Linear(s) && Enabled(s, LoopRun(env))
    ensures Linear(RunHeld(s, env))
  {
    hide DistinctIds, Ids, Launch, CommandKey, IsFresh;
    AppendKeepsDistinct(s.active, Task(s.pc.task.id, Launch(s.pc.task.cmd, env).cmd));
  }

  lemma LinearAfterOffer(s: State)
    requires Linear(s) && Enabled(s, LoopOffer)
    ensures Linear(OfferNext(s))
  {
    hide DistinctIds, Ids, OnEvent, Stepped;
    var t := s.active[s.pc.i];
    assert t.id in s.started by { assert t.id in Ids(s.active) by { IdOf(s.active, s.pc.i); } }
    SteppedKeepsIds(s.active, s.pc.i, OnEvent(t.cmd, s.pc.remaining.value));
  }

  lemma IdOf(ts: seq<Task>, i: nat)
    requires i < |ts|
    ensures ts[i].id in Ids(ts)
  {
    assert ts[i] in ts;
  }

  lemma LinearAfterFutureStep(s: State, step: Step)
    requires Linear(s) && Enabled(s, step)
    requires step.NewFuture? || step.PollCheck? || step.DropCancel? || step.DropRelease?
    ensures Linear(Next(s, step))
  {
    hide DistinctIds, IsNew;
    var s' := Next(s, step);
    forall g | g in s'.futures ensures Unsent(s', g) {
      assert g in s.futures ==> Unsent(s, g);
    }
  }

  lemma LinearAfterReceive(s: State)
    requires Linear(s) && Enabled(s, LoopReceive)
    ensures Linear(Next(s, LoopReceive))
  {
    HeadAndTail(s.queue);
    hide DistinctIds, Ids;
    var s' := Next(s, LoopReceive);
    forall g | g in s'.futures ensures Unsent(s', g) {
      assert Unsent(s, g);
    }
  }

  lemma LinearKept(s: State, step: Step)
    requires Linear(s) && Enabled(s, step)
    ensures Linear(Next(s, step))
  {
    match step
    case NewFuture(_, _) => LinearAfterFutureStep(s, step);
    case PollCheck(_) => LinearAfterFutureStep(s, step);
    case DropCancel(_) => LinearAfterFutureStep(s, step);
    case DropRelease(_) => LinearAfterFutureStep(s, step);
    case PollSend(f) => LinearAfterSend(s, f);
    case LoopRun(env) => LinearAfterRun(s, env);
    case LoopOffer => LinearAfterOffer(s);
    case LoopReceive => LinearAfterReceive(s);
    case _ =>
      hide DistinctIds, Ids, PeerEventsOf, Hear, Retained, EventKey, OnEvent, Launch, CommandKey;
      if step.LoopRetain? { RetainedKeepsIds(s.active, s.cells); }
  }

  lemma FinishKeepsCell(s: State, g: TaskId, r: Option<Outcome>, f: TaskId)
    requires CellsConsistent(s) && g in s.cells && f in s.cells
    ensures CancelFlag(Finish(s, g, r), f) && WakeupPending(Finish(s, g, r), f) && HoldsLast(Finish(s, g, r), f)
  {
  }

  lemma SendKeepsCell(s: State, g: TaskId, f: TaskId)
    requires CellsConsistent(s) && Enabled(s, PollSend(g)) && f in SendHalf(s, g).cells
    ensures var s' := SendHalf(s, g); f in s'.written && CancelFlag(s', f) && WakeupPending(s', f) && HoldsLast(s', f)
  {
    hide CellsConsistent;
    UnpackCell(s, f);
  }

  lemma CheckKeepsCell(s: State, g: TaskId, f: TaskId)
    requires CellsConsistent(s) && Enabled(s, PollCheck(g)) && f in CheckHalf(s, g).cells
    ensures var s' := CheckHalf(s, g); f in s'.written && CancelFlag(s', f) && WakeupPending(s', f) && HoldsLast(s', f)
  {
    hide CellsConsistent;
    UnpackCell(s, f);
  }

  lemma UnpackCell(s: State, f: TaskId)
    requires CellsConsistent(s) && f in s.cells
    ensures f in s.written && CancelFlag(s, f) && WakeupPending(s, f) && HoldsLast(s, f)
  {
  }

  /** Steps that touch neither a future nor a cell. */
  predicate IsQuiet(step: Step) {
    step.CloneClient? || step.DropClient? || step.LoopRetain? || step.LoopReceive? || step.LoopTakeEvent?
    || step.LoopEndChain? || step.LoopConvert? || step.LoopStop?
  }

  lemma QuietStep(s: State, step: Step)
    requires IsQuiet(step) && Enabled(s, step)
    ensures var s' := Next(s, step);
            s'.futures == s.futures && s'.cells == s.cells && s'.written == s.written && s'.woken == s.woken
  {
    hide PeerEventsOf, Hear, Retained, SendHalf, CheckHalf, RunHeld, OfferNext, Created, CancelHalf, IsNew, IsFresh;
  }

  lemma FinishKeepsKeys(s: State, f: TaskId, r: Option<Outcome>)
    requires f in s.cells && f in s.written
    ensures Finish(s, f, r).cells.Keys == s.cells.Keys && Finish(s, f, r).written.Keys == s.written.Keys
  {
  }

  lemma RunKeepsCell(s: State, env: RunEnv, f: TaskId)
    requires CellsConsistent(s) && Enabled(s, LoopRun(env)) && f in RunHeld(s, env).cells
    ensures var s' := RunHeld(s, env);
            f in s'.written && CancelFlag(s', f) && WakeupPending(s', f) && HoldsLast(s', f)
  {
    hide Launch, CommandKey, IsFresh, Finish, CellsConsistent;
    var r := Launch(s.pc.task.cmd, env).finish;
    FinishKeepsKeys(s, s.pc.task.id, r);
    UnpackCell(s, f);
    FinishKeepsCell(s, s.pc.task.id, r, f);
  }

  lemma OfferKeepsCell(s: State, f: TaskId)
    requires CellsConsistent(s) && Enabled(s, LoopOffer) && f in OfferNext(s).cells
    ensures var s' := OfferNext(s);
            f in s'.written && CancelFlag(s', f) && WakeupPending(s', f) && HoldsLast(s', f)
  {
    hide OnEvent, Stepped, Finish, CellsConsistent;
    var t := s.active[s.pc.i];
    var r := OnEvent(t.cmd, s.pc.remaining.value).finish;
    FinishKeepsKeys(s, t.id, r);
    UnpackCell(s, f);
    FinishKeepsCell(s, t.id, r, f);
  }

  lemma FutureKeepsCell(s: State, step: Step, f: TaskId)
    requires CellsConsistent(s) && (step.NewFuture? || step.DropCancel? || step.DropRelease?)
    requires Enabled(s, step) && f in Next(s, step).cells
    ensures var s' := Next(s, step); f in s'.written && CancelFlag(s', f) && WakeupPending(s', f) && HoldsLast(s', f)
  {
    hide IsNew, CellsConsistent, SendHalf, CheckHalf, RunHeld, OfferNext, RetainLive, TakeEvent, EndChain, ConvertRest;
    if f in s.cells { UnpackCell(s, f); }
    UnpackKeys(s);
  }

  lemma UnpackKeys(s: State)
    requires CellsConsistent(s)
    ensures s.futures.Keys <= s.cells.Keys && s.written.Keys == s.cells.Keys
  {
  }

  lemma QuietKeepsCell(s: State, step: Step, f: TaskId)
    requires CellsConsistent(s) && IsQuiet(step) && Enabled(s, step) && f in Next(s, step).cells
    ensures var s' := Next(s, step);
            f in s'.written && CancelFlag(s', f) && WakeupPending(s', f) && HoldsLast(s', f)
  {
    hide Next, Enabled, CellsConsistent;
    QuietStep(s, step);
    UnpackCell(s, f);
  }

  lemma StepKeepsCell(s: State, step: Step, f: TaskId)
    requires CellsConsistent(s) && Enabled(s, step) && f in Next(s, step).cells
    ensures var s' := Next(s, step); f in s'.written && CancelFlag(s', f) && WakeupPending(s', f) && HoldsLast(s', f)
  {
    hide IsNew, CellsConsistent, IsFresh, SendHalf, CheckHalf, RunHeld, OfferNext, Created, CancelHalf, RetainLive,
         TakeEvent, EndChain, ConvertRest, CancelFlag, WakeupPending, HoldsLast;
    match step
    case PollSend(g) => SendKeepsCell(s, g, f);
    case PollCheck(g) => CheckKeepsCell(s, g, f);
    case LoopRun(env) => RunKeepsCell(s, env, f);
    case LoopOffer => OfferKeepsCell(s, f);
    case NewFuture(_, _) => FutureKeepsCell(s, step, f);
    case DropCancel(_) => FutureKeepsCell(s, step, f);
    case DropRelease(_) => FutureKeepsCell(s, step, f);
    case _ => QuietKeepsCell(s, step, f);
  }

  lemma CellsConsistentKept(s: State, step: Step)
    requires Linear(s) && CellsConsistent(s) && Enabled(s, step)
    ensures CellsConsistent(Next(s, step))
  {
    hide Next, Enabled, CancelFlag, WakeupPending, HoldsLast;
    LinearKept(s, step);
    forall f | f in Next(s, step).cells
      ensures CancelFlag(Next(s, step), f) && WakeupPending(Next(s, step), f) && HoldsLast(Next(s, step), f)
    {
      StepKeepsCell(s, step, f);
    }
  }
}
