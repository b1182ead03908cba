/** A fair loop runs every command that is queued; with fair polling, every future whose command completes in `run`
    returns, unless it is dropped. */
module LoopProgress {
  import opened Types
  import opened Commands
  import opened Chain
  import opened PeerEvents
  import opened Runtime
  import opened RuntimeInvariants
  import opened RuntimeCorrelation
  import opened LoopDiscipline
  import opened RuntimeTheorems
  import opened Liveness

  predicate IsLoopStep(step: Option<Step>) {
    step.Some? && !IsClientStep(step.value)
  }

  predicate IsReady(s: State) {
    s.pc.Select? && s.queue != []
  }

  ghost predicate IsReadyFrom(run: nat -> State, n: nat) {
    exists m: nat :: m >= n && IsReady(run(m))
  }

  ghost predicate MovesFrom(steps: nat -> Option<Step>, n: nat) {
    exists m: nat :: m >= n && IsLoopStep(steps(m))
  }

  ghost predicate ReceivesFrom(steps: nat -> Option<Step>, n: nat) {
    exists m: nat :: m >= n && steps(m) == Some(LoopReceive)
  }

  /** The loop finishes what it has begun, and its `select!` does not pass over waiting commands for ever. */
  ghost predicate IsLoopFair(run: nat -> State, steps: nat -> Option<Step>) {
    && (forall n: nat :: !run(n).pc.Select? && !run(n).pc.Stopped? ==> MovesFrom(steps, n))
    && (forall n: nat :: (forall k: nat :: k >= n ==> IsReadyFrom(run, k)) ==> ReceivesFrom(steps, n))
  }

  // ----- the loop comes back to its select

  /** How far the loop is from waiting for work. */
  function Rank(s: State): nat {
    match s.pc
    case Select => 0
    case Stopped => 0
    case Top => 1
    case Running(_) => 2
    case Converting(_) => 2
    case Offering(i, _, _, _, _) => 3 + if i <= |s.active| then |s.active| - i else 0
  }

  lemma LoopStepsDescend(s: State, step: Step)
    requires Inv(s) && !IsClientStep(step) && Enabled(s, step) && !s.pc.Select? && !s.pc.Stopped?
    ensures Rank(Next(s, step)) < Rank(s) && !Next(s, step).pc.Stopped?
  {
    hide Inv, OnEvent, Launch, CommandKey, IsFresh, Hear, PeerEventsOf, Retained, SendHalf, CheckHalf, Created,
         CancelHalf, TakeEvent, Stepped;
    if step.LoopOffer? { OfferDescends(s); }
  }

  lemma OfferDescends(s: State)
    requires Enabled(s, LoopOffer)
    ensures Rank(OfferNext(s)) < Rank(s) && OfferNext(s).pc.Offering?
  {
    hide OnEvent;
  }

  /** Between loop steps the loop stays where it is, and the queue only grows. */
  ghost predicate LoopWaits(s: State, s': State) {
    s'.pc == s.pc && s'.active == s.active && s.queue <= s'.queue
  }

  lemma ClientStepWaits(s: State, step: Step)
    requires Inv(s) && IsClientStep(step) && Enabled(s, step)
    ensures LoopWaits(s, Next(s, step))
  {
    hide Inv, IsNew, RunHeld, OfferNext, RetainLive, TakeEvent, EndChain, ConvertRest;
  }

  lemma {:induction false} WaitsUntil(run: nat -> State, steps: nat -> Option<Step>, n: nat, m: nat)
    requires IsRun(run, steps) && n <= m && forall i: nat :: n <= i < m ==> !IsLoopStep(steps(i))
    ensures LoopWaits(run(n), run(m))
    decreases m
  {
    hide Next, Enabled, Inv;
    if n < m {
      WaitsUntil(run, steps, n, m - 1);
      RunsKeepInv(run, steps, m - 1);
      assert IsStep(run(m - 1), steps(m - 1), run(m - 1 + 1));
      assert !IsLoopStep(steps(m - 1));
      if steps(m - 1).Some? { ClientStepWaits(run(m - 1), steps(m - 1).value); }
    }
  }

  /** The next step of a loop that is not waiting for work. */
  lemma NextMove(run: nat -> State, steps: nat -> Option<Step>, n: nat) returns (m: nat)
    requires IsRun(run, steps) && IsLoopFair(run, steps) && !run(n).pc.Select? && !run(n).pc.Stopped?
    ensures m >= n && IsLoopStep(steps(m)) && LoopWaits(run(n), run(m)) && Inv(run(m))
    ensures Enabled(run(m), steps(m).value) && run(m + 1) == Next(run(m), steps(m).value)
  {
    hide Next, Enabled, Inv;
    assert MovesFrom(steps, n);
    var some: nat :| some >= n && IsLoopStep(steps(some));
    var moves := (i: nat) => IsLoopStep(steps(i));
    m := FirstFrom(moves, n, some);
    forall i: nat | n <= i < m ensures !IsLoopStep(steps(i)) {
      assert !moves(i);
    }
    WaitsUntil(run, steps, n, m);
    RunsKeepInv(run, steps, m);
    assert IsStep(run(m), steps(m), run(m + 1));
  }

  lemma {:induction false} ComesToSelect(run: nat -> State, steps: nat -> Option<Step>, n: nat) returns (m: nat)
    requires IsRun(run, steps) && IsLoopFair(run, steps) && !run(n).pc.Stopped?
    ensures m >= n && run(m).pc.Select?
    decreases Rank(run(n))
  {
    hide Next, Enabled, Inv, IsRun, IsLoopFair;
    if run(n).pc.Select? {
      m := n;
    } else {
      var move := NextMove(run, steps, n);
      assert Rank(run(move)) == Rank(run(n));
      LoopStepsDescend(run(move), steps(move).value);
      m := ComesToSelect(run, steps, move + 1);
    }
  }

  // ----- queued commands are run

  lemma OnlyReceivingShortens(s: State, step: Step)
    requires Inv(s) && Enabled(s, step) && step != LoopReceive
    ensures s.queue <= Next(s, step).queue
  {
    hide Inv, OnEvent, Launch, CommandKey, IsFresh, Hear, PeerEventsOf, Retained, Stepped, IsNew;
  }

  lemma {:induction false} QueueGrows(run: nat -> State, steps: nat -> Option<Step>, n: nat, m: nat)
    requires IsRun(run, steps) && n <= m && forall i: nat :: n <= i < m ==> steps(i) != Some(LoopReceive)
    ensures run(n).queue <= run(m).queue
    decreases m
  {
    hide Next, Enabled, Inv;
    if n < m {
      QueueGrows(run, steps, n, m - 1);
      RunsKeepInv(run, steps, m - 1);
      assert IsStep(run(m - 1), steps(m - 1), run(m - 1 + 1));
      assert steps(m - 1) != Some(LoopReceive);
      if steps(m - 1).Some? { OnlyReceivingShortens(run(m - 1), steps(m - 1).value); }
    }
  }

  lemma QueueKeepsLoopAlive(s: State)
    requires Inv(s) && s.queue != []
    ensures !s.pc.Stopped?
  {
    hide Linear, CellsConsistent;
  }

  /** A loop with commands to take takes one. */
  lemma SomethingIsReceived(run: nat -> State, steps: nat -> Option<Step>, n: nat) returns (m: nat)
    requires IsRun(run, steps) && IsLoopFair(run, steps) && run(n).queue != []
    ensures m >= n && steps(m) == Some(LoopReceive) && forall i: nat :: n <= i < m ==> steps(i) != Some(LoopReceive)
  {
    hide IsRun, Inv;
    if !ReceivesFrom(steps, n) {
      forall k: nat | k >= n ensures IsReadyFrom(run, k) {
        QueueGrows(run, steps, n, k);
        RunsKeepInv(run, steps, k);
        QueueKeepsLoopAlive(run(k));
        var at := ComesToSelect(run, steps, k);
        QueueGrows(run, steps, n, at);
        assert IsReady(run(at));
      }
    }
    var some: nat :| some >= n && steps(some) == Some(LoopReceive);
    var receives := (i: nat) => steps(i) == Some(LoopReceive);
    m := FirstFrom(receives, n, some);
    forall i: nat | n <= i < m ensures steps(i) != Some(LoopReceive) {
      assert !receives(i);
    }
  }

  lemma {:induction false} QueuedIsReceived(run: nat -> State, steps: nat -> Option<Step>, n: nat, j: nat)
    returns (m: nat)
    requires IsRun(run, steps) && IsLoopFair(run, steps) && j < |run(n).queue|
    ensures m >= n && run(m).pc == Running(run(n).queue[j])
    decreases j
  {
    hide IsLoopFair;
    var at := SomethingIsReceived(run, steps, n);
    QueueGrows(run, steps, n, at);
    assert IsStep(run(at), steps(at), run(at + 1));
    Received(run(at));
    assert run(at).queue[j] == run(n).queue[j];
    if j == 0 {
      m := at + 1;
    } else {
      assert run(at + 1).queue[j - 1] == run(n).queue[j];
      m := QueuedIsReceived(run, steps, at + 1, j - 1);
    }
  }

  lemma Received(s: State)
    requires Enabled(s, LoopReceive)
    ensures s.queue != []
    ensures Next(s, LoopReceive).pc == Running(s.queue[0]) && Next(s, LoopReceive).queue == s.queue[1..]
  {
  }

  /** Under a fair loop, every queued command is run. */
  lemma QueuedCommandsAreRun(run: nat -> State, steps: nat -> Option<Step>, n: nat, j: nat)
    returns (m: nat, env: RunEnv)
    requires IsRun(run, steps) && IsLoopFair(run, steps) && j < |run(n).queue|
    ensures m >= n && run(m).pc == Running(run(n).queue[j]) && steps(m) == Some(LoopRun(env))
    ensures Inv(run(m)) && Enabled(run(m), LoopRun(env)) && run(m + 1) == Next(run(m), LoopRun(env))
  {
    hide IsLoopFair, IsRun, Inv, Next;
    var at := QueuedIsReceived(run, steps, n, j);
    m := NextMove(run, steps, at);
    assert steps(m).value.LoopRun?;
    env := steps(m).value.env;
  }

  // ----- and answered

  /** When a command is run its future waits, or is being dropped, or gone. */
  lemma RunsWhileAwaited(s: State, env: RunEnv)
    requires Inv(s) && Enabled(s, LoopRun(env)) && Run(s.pc.task.cmd, env).finish.Some?
    ensures var f, s' := s.pc.task.id, Next(s, LoopRun(env));
            && HasResult(s', f) && LastResult(s', f) == Run(s.pc.task.cmd, env).finish.value
            && (f in s'.futures ==> InPhase(s', f, Pending) || InPhase(s', f, Checking) || InPhase(s', f, Dropping))
  {
    hide Correlated, Disciplined, Launch, Run, CommandKey, IsFresh, DistinctIds, CellsConsistent, OnEvent, Stepped,
         SendHalf, CheckHalf, RetainLive, TakeEvent, EndChain, ConvertRest, Created, CancelHalf;
    var f := s.pc.task.id;
    LaunchStoresWhatRunStores(s.pc.task.cmd, env);
    UnpackCell(s, f);
    NotRunStoredNothing(s, f);
    if f in s.futures { assert Unsent(s, f); }
  }

  lemma LaunchStoresWhatRunStores(c: Cmd, env: RunEnv)
    ensures Launch(c, env).finish == Run(c, env).finish
  {
  }

  lemma NotRunStoredNothing(s: State, f: TaskId)
    requires Inv(s) && f in s.written && f !in s.started
    ensures s.written[f] == []
  {
    hide Linear, CellsConsistent, Disciplined, IsNew;
  }

  /** Under a fair loop and fair polling, the future of a queued command that completes in `run` is dropped, or returns
      the last result stored, which is what `run` stored unless the command has stored another one since. */
  lemma AnswersInRunAreReturned(run: nat -> State, steps: nat -> Option<Step>, n: nat, j: nat)
    returns (ran: nat, env: RunEnv, m: nat)
    requires IsRun(run, steps) && IsLoopFair(run, steps) && j < |run(n).queue|
    requires IsFairTo(run, steps, run(n).queue[j].id)
    ensures var t := run(n).queue[j];
            && ran >= n && run(ran).pc == Running(t) && steps(ran) == Some(LoopRun(env))
            && (Run(t.cmd, env).finish.Some? ==>
                  || t.id !in run(ran + 1).futures || InPhase(run(ran + 1), t.id, Dropping)
                  || (m > ran && steps(m) == Some(DropCancel(t.id)))
                  || (m > ran && HasResult(run(m), t.id) && InPhase(run(m + 1), t.id, Ready(LastResult(run(m), t.id)))))
  {
    hide IsLoopFair, IsRun, IsFairTo, Inv, Next, Enabled, InPhase, HasResult, LastResult, Run;
    var t := run(n).queue[j];
    ran, env := QueuedCommandsAreRun(run, steps, n, j);
    m := ran;
    if Run(t.cmd, env).finish.Some? {
      RunsWhileAwaited(run(ran), env);
      if t.id in run(ran + 1).futures && !InPhase(run(ran + 1), t.id, Dropping) {
        m := StoredResultsAreReturned(run, steps, t.id, ran + 1);
      }
    }
  }

  /** The commands that keep the default `on_event` always complete in `run`. */
  lemma DefaultsAnswerInRun(c: Cmd, env: RunEnv)
    requires HasDefaultOnEvent(c)
    ensures Run(c, env).finish.Some?
  {
  }
}
