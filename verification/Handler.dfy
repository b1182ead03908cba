/** The cell through which a command hands its result to the future that awaits it. */
module Handler {
  import opened Types

  /** The state behind the mutex of a result handle. */
  datatype ResultState = ResultState(result: Option<Outcome>, waker: Option<TaskId>, cancelled: bool) {

    /** `finish`: a later result replaces an earlier one, and a stored waker is used up. */
    function Finished(r: Outcome): ResultState {
      ResultState(Some(r), None, cancelled)
    }

    function WokenByFinish(): set<TaskId> {
      if waker.Some? then {waker.value} else {}
    }

    /** `poll`: takes the result if there is one, otherwise stores the caller's waker. */
    function Polled(task: TaskId): (ResultState, Option<Outcome>) {
      if result.Some? then (this.(result := None), result) else (this.(waker := Some(task)), None)
    }

    function Cancelled(): ResultState {
      this.(cancelled := true)
    }
  }

  /** The effect on a result cell, and on the tasks it wakes, of storing `finish`, or of storing nothing. */
  ghost predicate Wrote(finish: Option<Outcome>, before: ResultState, wokenBefore: set<TaskId>,
                        after: ResultState, wokenAfter: set<TaskId>)
  {
    if finish.Some?
    then after == before.Finished(finish.value) && wokenAfter == wokenBefore + before.WokenByFinish()
    else after == before && wokenAfter == wokenBefore
  }

  /** A stored result is handed out by one poll and by no further one, and it is the last one stored; what a poll finds
      nothing of, it leaves its waker for. Storing wakes that waker once. Cancelling touches neither. */
  lemma ResultsAreHandedOutOnce(s: ResultState, r: Outcome, again: Outcome, t: TaskId, u: TaskId)
    ensures s.Finished(r).Finished(again).Polled(t).1 == Some(again)
    ensures s.Finished(r).Polled(t).0.Polled(u) == (ResultState(None, Some(u), s.cancelled), None)
    ensures s.result.None? ==> s.Polled(t).1.None? && s.Polled(t).0.Finished(r).result == Some(r)
    ensures s.result.None? ==> s.Polled(t).0.WokenByFinish() == {t} && s.Polled(u).0.Polled(t).0.WokenByFinish() == {t}
    ensures s.Finished(r).WokenByFinish() == {} && s.Finished(r).Polled(t).0.WokenByFinish() == {}
    ensures s.Cancelled().result == s.result && s.Cancelled().waker == s.waker && s.Cancelled().cancelled
    ensures s.Finished(r).cancelled == s.cancelled == s.Polled(t).0.cancelled
  {
  }

  const FreshState := ResultState(None, None, false)

  /** The tasks that wakers have scheduled and that have not been polled since. */
  class Executor {
    var woken: set<TaskId>

    constructor ()
      ensures woken == {}
    {
      woken := {};
    }
  }

  class ResultHandle {
    var result: Option<Outcome>
    var waker: Option<TaskId>
    var cancelled: bool
    const executor: Executor

    function View(): ResultState
      reads this
    {
      ResultState(result, waker, cancelled)
    }

    constructor (executor: Executor)
      ensures View() == FreshState && this.executor == executor
    {
      result, waker, cancelled := None, None, false;
      this.executor := executor;
    }

    /** None is Pending: the caller's waker is then stored. */
    method Poll(task: TaskId) returns (ready: Option<Outcome>)
      modifies this
      ensures (View(), ready) == old(View()).Polled(task)
    {
      if result.Some? {
        ready, result := result, None;
      } else {
        waker := Some(task);
        ready := None;
      }
    }

    method Finish(r: Outcome)
      modifies this, executor
      ensures View() == old(View()).Finished(r)
      ensures executor.woken == old(executor.woken) + old(View()).WokenByFinish()
    {
      result := Some(r);
      if waker.Some? {
        executor.woken := executor.woken + {waker.value};
        waker := None;
      }
    }

    method Cancel()
      modifies this
      ensures View() == old(View()).Cancelled()
    {
      cancelled := true;
    }

    method IsCancelled() returns (b: bool)
      ensures b == View().cancelled
    {
      b := cancelled;
    }
  }
}
