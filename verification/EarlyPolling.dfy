/** The earlier way of polling, which returned Pending right after sending the command: it lost wake-ups. */
module EarlyPolling {
  import opened Types
  import opened Handler
  import opened Commands
  import opened Chain
  import opened PeerEvents
  import opened Runtime
  import opened Liveness

  /** Returning Pending right after sending, without storing the waker. */
  function NextBeforeFix(s: State, step: Step): State
    requires Enabled(s, step)
  {
    var s' := Next(s, step);
    if step.PollSend? && s.futures[step.f].handler.Some? && s'.futures[step.f].phase == Checking
    then s'.(futures := s'.futures[step.f := Future(None, Pending)]) else s'
  }

  /** The future waits, but its task is not scheduled, and no cell holds its waker. */
  ghost predicate Stranded(s: State, f: TaskId) {
    && InPhase(s, f, Pending) && f in s.cells && f in s.written && f !in s.woken
    && forall g :: g in s.cells ==> s.cells[g].waker != Some(f)
  }

  // ----- every first poll strands its future

  /** A cell holds no waker but that of its own future, and none while the future has not been polled. */
  ghost predicate CellIsEarly(s: State, f: TaskId)
    requires f in s.cells
  {
    && f in s.written && s.cells[f].waker in {None, Some(f)}
    && (f in s.futures && s.futures[f].handler.Some? ==> s.futures[f].phase in {Unpolled, Dropping})
    && (f in s.futures && s.futures[f].phase.Unpolled? ==>
          s.futures[f].handler.Some? && s.cells[f].waker.None? && f !in s.woken)
  }

  ghost predicate IsEarly(s: State) {
    && s.futures.Keys <= s.cells.Keys && s.woken <= s.cells.Keys
    && forall f :: f in s.cells ==> CellIsEarly(s, f)
  }

  lemma UnpackEarly(s: State, f: TaskId)
    requires IsEarly(s) && f in s.cells
    ensures CellIsEarly(s, f)
  {
  }

  lemma EarlyAfterPoll(s: State, step: Step, f: TaskId)
    requires IsEarly(s) && (step.PollSend? || step.PollCheck?) && Enabled(s, step)
    ensures var s' := NextBeforeFix(s, step);
            && s'.futures.Keys <= s'.cells.Keys && s'.woken <= s'.cells.Keys
            && (f in s'.cells ==> CellIsEarly(s', f))
  {
    hide IsEarly, RunHeld, OfferNext, RetainLive, TakeEvent, EndChain, ConvertRest, Created, CancelHalf;
    EarlyKeys(s);
    if f in s.cells { UnpackEarly(s, f); }
    if step.f in s.cells { UnpackEarly(s, step.f); }
  }

  lemma EarlyKeys(s: State)
    requires IsEarly(s)
    ensures s.futures.Keys <= s.cells.Keys && s.woken <= s.cells.Keys
  {
  }

  lemma EarlyAfterFinish(s: State, g: TaskId, r: Option<Outcome>, f: TaskId)
    requires IsEarly(s) && g in s.cells && g in s.written && f in s.cells
    ensures var s' := Finish(s, g, r);
            && s'.futures == s.futures && s'.cells.Keys == s.cells.Keys && s'.woken <= s'.cells.Keys
            && CellIsEarly(s', f)
  {
    hide IsEarly;
    EarlyKeys(s);
    UnpackEarly(s, f);
    UnpackEarly(s, g);
  }

  lemma EarlyAfterLoop(s: State, step: Step, f: TaskId)
    requires IsEarly(s) && (step.LoopRun? || step.LoopOffer?) && Enabled(s, step)
    ensures var s' := Next(s, step);
            && s'.futures.Keys <= s'.cells.Keys && s'.woken <= s'.cells.Keys
            && (f in s'.cells ==> CellIsEarly(s', f))
  {
    hide IsEarly, Launch, OnEvent, Stepped, CommandKey, IsFresh, Finish, SendHalf, CheckHalf, RetainLive, TakeEvent,
         EndChain, ConvertRest, Created, CancelHalf;
    EarlyKeys(s);
    var t := if step.LoopRun? then s.pc.task else s.active[s.pc.i];
    var r := if step.LoopRun? then Launch(t.cmd, step.env).finish else OnEvent(t.cmd, s.pc.remaining.value).finish;
    EarlyAfterFinish(s, t.id, r, if f in s.cells then f else t.id);
  }

  lemma EarlyAfterOther(s: State, step: Step, f: TaskId)
    requires IsEarly(s) && Enabled(s, step)
    requires !step.PollSend? && !step.PollCheck? && !step.LoopRun? && !step.LoopOffer?
    ensures var s' := NextBeforeFix(s, step);
            && s'.futures.Keys <= s'.cells.Keys && s'.woken <= s'.cells.Keys
            && (f in s'.cells ==> CellIsEarly(s', f))
  {
    hide IsEarly, RunHeld, OfferNext, SendHalf, CheckHalf, PeerEventsOf, IsNew, Hear, Retained;
    EarlyKeys(s);
    if f in s.cells { UnpackEarly(s, f); }
  }

  lemma EarlyKept(s: State, step: Step)
    requires IsEarly(s) && Enabled(s, step)
    ensures IsEarly(NextBeforeFix(s, step))
  {
    hide Next, Enabled, CellIsEarly;
    var s' := NextBeforeFix(s, step);
    forall f: TaskId
      ensures s'.futures.Keys <= s'.cells.Keys && s'.woken <= s'.cells.Keys && (f in s'.cells ==> CellIsEarly(s', f))
    {
      if step.PollSend? || step.PollCheck? {
        EarlyAfterPoll(s, step, f);
      } else if step.LoopRun? || step.LoopOffer? {
        EarlyAfterLoop(s, step, f);
      } else {
        EarlyAfterOther(s, step, f);
      }
    }
  }

  lemma {:induction false} EarlyAlong(s: State, steps: seq<Step>)
    requires IsEarly(s) && CanRunBeforeFix(s, steps)
    ensures IsEarly(AfterBeforeFix(s, steps))
    decreases |steps|
  {
    hide NextBeforeFix, Enabled, IsEarly;
    if steps != [] {
      EarlyKept(s, steps[0]);
      EarlyAlong(NextBeforeFix(s, steps[0]), steps[1..]);
    }
  }

  /** In every run of the early polling, a first poll that gets its command into the queue strands its future, whatever
      the command: also one that completes later, in `on_event`. */
  lemma FirstPollStrandsBeforeFix(steps: seq<Step>, f: TaskId)
    requires CanRunBeforeFix(Initial, steps)
    requires var s := AfterBeforeFix(Initial, steps);
             InPhase(s, f, Unpolled) && |s.queue| < COMMAND_CHANNEL_SIZE && s.pc != Stopped
    ensures var s := AfterBeforeFix(Initial, steps);
            Enabled(s, PollSend(f)) && Stranded(NextBeforeFix(s, PollSend(f)), f)
  {
    hide AfterBeforeFix, CanRunBeforeFix, IsEarly, RunHeld, OfferNext, RetainLive, TakeEvent, EndChain, ConvertRest,
         CheckHalf, CancelHalf, Created;
    InitialIsEarly();
    EarlyAlong(Initial, steps);
    var s := AfterBeforeFix(Initial, steps);
    EarlyKeys(s);
    UnpackEarly(s, f);
    forall g | g in s.cells ensures s.cells[g].waker != Some(f) {
      UnpackEarly(s, g);
    }
  }

  lemma InitialIsEarly()
    ensures IsEarly(Initial)
  {
  }

  // ----- the reported hang

  /** The reported hang: the loop runs a command that completes in `run` right after the first poll; the result is
      there, and nobody will come for it. */
  lemma EarlyPendingStrands(answer: nat, env: RunEnv) returns (steps: seq<Step>)
    ensures steps == [NewFuture(0, Immediate(answer)), PollSend(0), LoopRetain, LoopReceive, LoopRun(env)]
    ensures CanRunBeforeFix(Initial, steps)
    ensures Stranded(AfterBeforeFix(Initial, steps), 0) && HasResult(AfterBeforeFix(Initial, steps), 0)
  {
    steps := [NewFuture(0, Immediate(answer)), PollSend(0), LoopRetain, LoopReceive, LoopRun(env)];
    var s2 := PolledBeforeFix(answer);
    var s4 := s2.(pc := Running(Task(0, Immediate(answer))), queue := []);
    AnswerStrands(answer, env);
    FirstPollBeforeFix(answer);
    LoopTakesCommand(answer);
    hide NextBeforeFix, Enabled, Stranded, HasResult, PolledBeforeFix;
    FiveSteps(Initial, NextBeforeFix(Initial, steps[0]), s2, NextBeforeFix(s2, steps[2]), s4,
              NextBeforeFix(s4, steps[4]), steps);
  }

  /** After the first poll: the command is queued, the future Pending, and no waker is stored. */
  function PolledBeforeFix(answer: nat): State {
    Initial.(futures := map[0 := Future(None, Pending)], cells := map[0 := FreshState], written := map[0 := []],
             queue := [Task(0, Immediate(answer))])
  }

  lemma FirstPollBeforeFix(answer: nat)
    ensures Enabled(Initial, NewFuture(0, Immediate(answer)))
    ensures var s1 := NextBeforeFix(Initial, NewFuture(0, Immediate(answer)));
            Enabled(s1, PollSend(0)) && NextBeforeFix(s1, PollSend(0)) == PolledBeforeFix(answer)
  {
  }

  lemma LoopTakesCommand(answer: nat)
    ensures var s2 := PolledBeforeFix(answer);
            && Enabled(s2, LoopRetain) && Enabled(NextBeforeFix(s2, LoopRetain), LoopReceive)
            && NextBeforeFix(NextBeforeFix(s2, LoopRetain), LoopReceive)
               == s2.(pc := Running(Task(0, Immediate(answer))), queue := [])
  {
  }

  lemma AnswerStrands(answer: nat, env: RunEnv)
    ensures var s4 := PolledBeforeFix(answer).(pc := Running(Task(0, Immediate(answer))), queue := []);
            Enabled(s4, LoopRun(env)) && Stranded(NextBeforeFix(s4, LoopRun(env)), 0)
            && HasResult(NextBeforeFix(s4, LoopRun(env)), 0)
  {
    ImmediateAnswers(answer, env);
    hide Launch, CommandKey;
  }

  lemma ImmediateAnswers(answer: nat, env: RunEnv)
    ensures Launch(Immediate(answer), env) == Ran(Immediate(answer), Some(Ok(Value(answer))))
    ensures CommandKey(Immediate(answer)) == None
  {
  }

  lemma FiveSteps(s0: State, s1: State, s2: State, s3: State, s4: State, s5: State, steps: seq<Step>)
    requires |steps| == 5
    requires Enabled(s0, steps[0]) && s1 == NextBeforeFix(s0, steps[0])
    requires Enabled(s1, steps[1]) && s2 == NextBeforeFix(s1, steps[1])
    requires Enabled(s2, steps[2]) && s3 == NextBeforeFix(s2, steps[2])
    requires Enabled(s3, steps[3]) && s4 == NextBeforeFix(s3, steps[3])
    requires Enabled(s4, steps[4]) && s5 == NextBeforeFix(s4, steps[4])
    ensures CanRunBeforeFix(s0, steps) && AfterBeforeFix(s0, steps) == s5
  {
    hide NextBeforeFix, Enabled;
    assert steps[4..][1..] == [] && steps[4..][0] == steps[4];
    assert steps[3..][1..] == steps[4..] && steps[3..][0] == steps[3];
    assert steps[2..][1..] == steps[3..] && steps[2..][0] == steps[2];
    assert steps[1..][1..] == steps[2..] && steps[1..][0] == steps[1];
    assert CanRunBeforeFix(s4, steps[4..]) && AfterBeforeFix(s4, steps[4..]) == s5;
    assert CanRunBeforeFix(s3, steps[3..]) && AfterBeforeFix(s3, steps[3..]) == s5;
    assert CanRunBeforeFix(s2, steps[2..]) && AfterBeforeFix(s2, steps[2..]) == s5;
    assert CanRunBeforeFix(s1, steps[1..]) && AfterBeforeFix(s1, steps[1..]) == s5;
  }

  /** No step wakes a stranded future, other than a poll that nobody scheduled, or its being dropped. */
  lemma StrandedStays(s: State, step: Step, f: TaskId)
    requires Stranded(s, f) && Enabled(s, step) && !EndsWait(Some(step), f)
    ensures Stranded(NextBeforeFix(s, step), f)
    ensures HasResult(s, f) ==> HasResult(NextBeforeFix(s, step), f)
  {
    hide PeerEventsOf, IsNew, IsFresh, Hear, Launch, CommandKey, OnEvent, Stepped, Retained, RunHeld, OfferNext,
         SendHalf, CheckHalf, Stranded;
    match step
    case LoopOffer => StrandedAfterFinish(s, f, step);
    case LoopRun(env) => StrandedAfterFinish(s, f, step);
    case PollSend(g) => StrandedAfterPoll(s, step, f);
    case PollCheck(g) => StrandedAfterPoll(s, step, f);
    case _ => StrandedAfterOther(s, step, f);
  }

  lemma StrandedAfterPoll(s: State, step: Step, f: TaskId)
    requires Stranded(s, f) && Enabled(s, step) && !EndsWait(Some(step), f) && (step.PollSend? || step.PollCheck?)
    ensures Stranded(NextBeforeFix(s, step), f)
    ensures HasResult(s, f) ==> HasResult(NextBeforeFix(s, step), f)
  {
    hide RunHeld, OfferNext, RetainLive, TakeEvent, EndChain, ConvertRest, Created, CancelHalf;
  }

  lemma StrandedAfterOther(s: State, step: Step, f: TaskId)
    requires Stranded(s, f) && Enabled(s, step) && !EndsWait(Some(step), f)
    requires !step.PollSend? && !step.PollCheck? && !step.LoopRun? && !step.LoopOffer?
    ensures Stranded(NextBeforeFix(s, step), f)
    ensures HasResult(s, f) ==> HasResult(NextBeforeFix(s, step), f)
  {
    hide RunHeld, OfferNext, SendHalf, CheckHalf, PeerEventsOf, IsNew, Hear, Retained;
  }

  lemma StrandedAfterFinish(s: State, f: TaskId, step: Step)
    requires Stranded(s, f) && (step.LoopRun? || step.LoopOffer?) && Enabled(s, step)
    ensures Stranded(Next(s, step), f)
    ensures HasResult(s, f) ==> HasResult(Next(s, step), f)
  {
    hide Launch, OnEvent, Stepped, CommandKey, IsFresh, SendHalf, CheckHalf, RetainLive, TakeEvent, EndChain,
         ConvertRest, Created, CancelHalf;
  }

  /** So a scheduler that polls only tasks that were woken never completes it. */
  lemma {:induction false} StrandedForever(s: State, steps: seq<Step>, f: TaskId)
    requires Stranded(s, f) && CanRunBeforeFix(s, steps)
    requires forall i :: 0 <= i < |steps| ==> !EndsWait(Some(steps[i]), f)
    ensures Stranded(AfterBeforeFix(s, steps), f)
    ensures HasResult(s, f) ==> HasResult(AfterBeforeFix(s, steps), f)
    decreases |steps|
  {
    hide NextBeforeFix, Enabled, Stranded, EndsWait, HasResult;
    if steps != [] {
      StrandedStays(s, steps[0], f);
      StrandedForever(NextBeforeFix(s, steps[0]), steps[1..], f);
    }
  }

  ghost predicate CanRunBeforeFix(s: State, steps: seq<Step>)
    decreases |steps|
  {
    steps == [] || (Enabled(s, steps[0]) && CanRunBeforeFix(NextBeforeFix(s, steps[0]), steps[1..]))
  }

  ghost function AfterBeforeFix(s: State, steps: seq<Step>): State
    requires CanRunBeforeFix(s, steps)
    decreases |steps|
  {
    if steps == [] then s else AfterBeforeFix(NextBeforeFix(s, steps[0]), steps[1..])
  }
}
