/** Fair infinite runs of the command runtime complete every future whose command has stored a result. */
module Liveness {
  import opened Types
  import opened Commands
  import opened Chain
  import opened PeerEvents
  import opened Runtime
  import opened RuntimeInvariants
  import opened RuntimeTheorems

  // ----- fair runs

  /** An infinite run; None is a moment in which nothing happens. */
  ghost predicate IsRun(run: nat -> State, steps: nat -> Option<Step>) {
    && run(0) == Initial
    && (forall n: nat :: IsStep(run(n), steps(n), run(n + 1)))
  }

  ghost predicate IsStep(s: State, step: Option<Step>, s': State) {
    if step.None? then s' == s else Enabled(s, step.value) && s' == Next(s, step.value)
  }

  predicate EndsWait(step: Option<Step>, f: TaskId) {
    step == Some(PollSend(f)) || step == Some(DropCancel(f))
  }

  predicate InPhase(s: State, f: TaskId, phase: Phase) {
    f in s.futures && s.futures[f].phase == phase
  }

  predicate HasResult(s: State, f: TaskId) {
    f in s.written && s.written[f] != []
  }

  /** The executor polls a woken task unless the caller drops the future first, and finishes a poll it began. */
  ghost predicate IsFairTo(run: nat -> State, steps: nat -> Option<Step>, f: TaskId) {
    && (forall n: nat :: InPhase(run(n), f, Pending) && f in run(n).woken
          ==> exists m: nat :: m >= n && EndsWait(steps(m), f))
    && (forall n: nat :: InPhase(run(n), f, Checking)
          ==> exists m: nat :: m >= n && steps(m) == Some(PollCheck(f)))
  }

  lemma InitialInv()
    ensures Inv(Initial)
  {
    InitialIsReachable();
    ReachableInv(Initial);
  }

  lemma {:induction false} RunsKeepInv(run: nat -> State, steps: nat -> Option<Step>, n: nat)
    requires IsRun(run, steps)
    ensures Inv(run(n))
  {
    hide Next, Enabled, Inv;
    if n == 0 {
      InitialInv();
    } else {
      RunsKeepInv(run, steps, n - 1);
      assert IsStep(run(n - 1), steps(n - 1), run(n - 1 + 1));
      if steps(n - 1).Some? {
        InvKept(run(n - 1), steps(n - 1).value);
      }
    }
  }

  lemma ResultsPersist(s: State, step: Step, f: TaskId)
    requires Linear(s) && Enabled(s, step) && HasResult(s, f)
    ensures HasResult(Next(s, step), f)
  {
    hide OnEvent, Launch, CommandKey, EventKey, Hear, IsFresh, Stepped, Retained, DistinctIds, Ids, Unsent;
  }

  /** Only its own poll or drop ends a wait, and only its own check ends a poll. */
  lemma PhasesPersist(s: State, step: Step, f: TaskId)
    requires Linear(s) && Enabled(s, step)
    ensures InPhase(s, f, Pending) && !EndsWait(Some(step), f) ==> InPhase(Next(s, step), f, Pending)
    ensures InPhase(s, f, Checking) && step != PollCheck(f) ==> InPhase(Next(s, step), f, Checking)
  {
    hide OnEvent, Launch, CommandKey, EventKey, Hear, IsFresh, Stepped, Retained, DistinctIds, Ids, Unsent,
         PeerEventsOf, IsNew;
  }

  /** The first moment from `n` on at which `goal` holds. */
  lemma FirstFrom(goal: nat -> bool, n: nat, m: nat) returns (first: nat)
    requires n <= m && goal(m)
    ensures n <= first && goal(first) && forall i: nat :: n <= i < first ==> !goal(i)
  {
    first := n;
    while !goal(first)
      invariant n <= first <= m
      invariant forall i: nat :: n <= i < first ==> !goal(i)
      decreases m - first
    {
      first := first + 1;
    }
  }

  lemma {:induction false} StaysPending(run: nat -> State, steps: nat -> Option<Step>, f: TaskId, n: nat, m: nat)
    requires IsRun(run, steps) && n <= m && InPhase(run(n), f, Pending) && HasResult(run(n), f)
    requires forall i: nat :: n <= i < m ==> !EndsWait(steps(i), f)
    ensures InPhase(run(m), f, Pending) && HasResult(run(m), f)
    decreases m
  {
    hide Next, Enabled, EndsWait, InPhase, HasResult;
    if n < m {
      StaysPending(run, steps, f, n, m - 1);
      RunsKeepInv(run, steps, m - 1);
      assert IsStep(run(m - 1), steps(m - 1), run(m - 1 + 1));
      if steps(m - 1).Some? {
        PhasesPersist(run(m - 1), steps(m - 1).value, f);
        ResultsPersist(run(m - 1), steps(m - 1).value, f);
      }
    }
  }

  lemma {:induction false} StaysChecking(run: nat -> State, steps: nat -> Option<Step>, f: TaskId, n: nat, m: nat)
    requires IsRun(run, steps) && n <= m && InPhase(run(n), f, Checking) && HasResult(run(n), f)
    requires forall i: nat :: n <= i < m ==> steps(i) != Some(PollCheck(f))
    ensures InPhase(run(m), f, Checking) && HasResult(run(m), f)
    decreases m
  {
    hide Next, Enabled, EndsWait, InPhase, HasResult;
    if n < m {
      StaysChecking(run, steps, f, n, m - 1);
      RunsKeepInv(run, steps, m - 1);
      assert IsStep(run(m - 1), steps(m - 1), run(m - 1 + 1));
      if steps(m - 1).Some? {
        PhasesPersist(run(m - 1), steps(m - 1).value, f);
        ResultsPersist(run(m - 1), steps(m - 1).value, f);
      }
    }
  }

  function LastResult(s: State, f: TaskId): Outcome
    requires HasResult(s, f)
  {
    s.written[f][|s.written[f]| - 1]
  }

  lemma CheckReturns(s: State, f: TaskId)
    requires Inv(s) && InPhase(s, f, Checking) && HasResult(s, f) && Enabled(s, PollCheck(f))
    ensures InPhase(Next(s, PollCheck(f)), f, Ready(LastResult(s, f)))
  {
    UnpackCell(s, f);
    hide Inv;
  }

  lemma SendBegins(s: State, f: TaskId)
    requires Inv(s) && InPhase(s, f, Pending) && HasResult(s, f)
    ensures f in s.woken
    ensures Enabled(s, PollSend(f)) ==>
              InPhase(Next(s, PollSend(f)), f, Checking) && HasResult(Next(s, PollSend(f)), f)
  {
    assert Unsent(s, f);
    UnpackCell(s, f);
    hide Inv;
  }

  /** A poll that has begun after a result was stored ends with the last result stored. */
  lemma BegunPollCompletes(run: nat -> State, steps: nat -> Option<Step>, f: TaskId, n: nat) returns (m: nat)
    requires IsRun(run, steps) && IsFairTo(run, steps, f)
    requires InPhase(run(n), f, Checking) && HasResult(run(n), f)
    ensures m >= n && HasResult(run(m), f) && InPhase(run(m + 1), f, Ready(LastResult(run(m), f)))
  {
    hide Next, Enabled, Inv, InPhase, HasResult;
    var some: nat :| some >= n && steps(some) == Some(PollCheck(f));
    var isCheck := (i: nat) => steps(i) == Some(PollCheck(f));
    m := FirstFrom(isCheck, n, some);
    forall i: nat | n <= i < m ensures steps(i) != Some(PollCheck(f)) {
      assert !isCheck(i);
    }
    StaysChecking(run, steps, f, n, m);
    RunsKeepInv(run, steps, m);
    assert IsStep(run(m), steps(m), run(m + 1));
    CheckReturns(run(m), f);
  }

  /** In every fair run, every result that is stored while a future waits leads to a poll that returns the last
      result stored by then, unless the caller drops the future. */
  lemma StoredResultsAreReturned(run: nat -> State, steps: nat -> Option<Step>, f: TaskId, n: nat) returns (m: nat)
    requires IsRun(run, steps) && IsFairTo(run, steps, f)
    requires HasResult(run(n), f) && (InPhase(run(n), f, Pending) || InPhase(run(n), f, Checking))
    ensures m >= n
    ensures steps(m) == Some(DropCancel(f))
            || (HasResult(run(m), f) && InPhase(run(m + 1), f, Ready(LastResult(run(m), f))))
  {
    hide Next, Enabled, Inv, InPhase, HasResult;
    if InPhase(run(n), f, Checking) {
      m := BegunPollCompletes(run, steps, f, n);
    } else {
      RunsKeepInv(run, steps, n);
      SendBegins(run(n), f);
      var some: nat :| some >= n && EndsWait(steps(some), f);
      var ends := (i: nat) => EndsWait(steps(i), f);
      m := FirstFrom(ends, n, some);
      forall i: nat | n <= i < m ensures !EndsWait(steps(i), f) {
        assert !ends(i);
      }
      StaysPending(run, steps, f, n, m);
      RunsKeepInv(run, steps, m);
      SendBegins(run(m), f);
      assert IsStep(run(m), steps(m), run(m + 1));
      if steps(m) != Some(DropCancel(f)) {
        m := BegunPollCompletes(run, steps, f, m + 1);
      }
    }
  }
}
