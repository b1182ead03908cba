/** Correlation of commands with the events that carry their identifiers, over every run. */
module RuntimeCorrelation {
  import opened Types
  import opened Handler
  import opened Commands
  import opened Chain
  import opened Queries
  import opened PeerEvents
  import opened Runtime
  import opened RuntimeInvariants

  // ----- the invariants

  function StartedKey(s: State, f: TaskId): Option<Correlation>
    requires f in s.started
  {
    CommandKey(s.started[f])
  }

  /** Commands that have not run are as their constructors built them, and have stored nothing. */
  ghost predicate NotRunIsNew(s: State) {
    && (forall f :: f in s.futures && s.futures[f].handler.Some? ==> IsNew(s.futures[f].handler.value))
    && (forall t :: t in s.queue ==> IsNew(t.cmd))
    && (s.pc.Running? ==> IsNew(s.pc.task.cmd))
    && (forall f :: f in s.written && f !in s.started ==> s.written[f] == [])
  }

  /** The swarm gave a started command an identifier of its own. */
  ghost predicate OwnKey(s: State, f: TaskId)
    requires f in s.started
  {
    StartedKey(s, f).Some? ==>
      && StartedKey(s, f).value in s.heard && JustStarted(s.started[f])
      && forall g :: g in s.started && g != f ==> StartedKey(s, g) != StartedKey(s, f)
  }

  ghost predicate KeysAreOwn(s: State) {
    && (forall f :: f in s.started ==> OwnKey(s, f))
    && (forall t :: t in s.active && t.id in s.started ==> SameCommand(t.cmd, s.started[t.id]))
  }

  predicate SameCommand(c: Cmd, started: Cmd) {
    CommandKey(c) == CommandKey(started) && (IsCorrelated(c) <==> IsCorrelated(started))
  }

  /** The event on its way through the chain is the one last heard under its identifier. */
  ghost predicate InFlightIsLast(s: State) {
    s.pc.Offering? ==>
      && s.pc.remaining in {None, Some(s.pc.ev)} && s.pc.i <= |s.active|
      && (EventKey(s.pc.ev).Some? ==>
            var k := EventKey(s.pc.ev).value;
            k in s.heard && s.heard[k] != [] && s.heard[k][|s.heard[k]| - 1] == s.pc.ev)
  }

  /** The events that the command at index `j` has been offered under its identifier `k`: all that were heard,
      except the one in flight if its turn is still to come. */
  function HeardAt(s: State, j: nat, k: Correlation): seq<Event>
    requires k in s.heard
  {
    if s.pc.Offering? && s.pc.remaining.Some? && j >= s.pc.i && EventKey(s.pc.ev) == Some(k) && s.heard[k] != []
    then s.heard[k][..|s.heard[k]| - 1] else s.heard[k]
  }

  /** An active command that has an identifier is the fold of the events it has been offered. */
  ghost predicate TaskInSync(s: State, j: nat)
    requires j < |s.active|
  {
    var t := s.active[j];
    t.id in s.started && t.id in s.written && StartedKey(s, t.id).Some? && StartedKey(s, t.id).value in s.heard ==>
      Fold(s.started[t.id], HeardAt(s, j, StartedKey(s, t.id).value)) == Progress(t.cmd, false, s.written[t.id])
  }

  /** A command with an identifier that is no longer active, and was not cancelled, has completed: it stored
      what the fold of all events under its identifier stores. */
  ghost predicate Settled(s: State, f: TaskId)
    requires f in s.started
  {
    f in s.cells && f in s.written && !s.cells[f].cancelled && f !in Ids(s.active)
    && StartedKey(s, f).Some? && StartedKey(s, f).value in s.heard ==>
      var p := Fold(s.started[f], s.heard[StartedKey(s, f).value]);
      p.done && s.written[f] == p.writes
  }

  /** A command that recognises events by an identifier stores at most one result; one that was refused
      stored an error when it ran, and nothing since. */
  ghost predicate StoresOnce(s: State, f: TaskId)
    requires f in s.started
  {
    IsCorrelated(s.started[f]) && f in s.written ==>
      && |s.written[f]| <= 1
      && (StartedKey(s, f).None? ==> |s.written[f]| == 1 && s.written[f][0].Err?)
      && (StartedKey(s, f).Some? && f in Ids(s.active) ==> s.written[f] == [])
  }

  ghost predicate Correlated(s: State) {
    && NotRunIsNew(s) && KeysAreOwn(s) && InFlightIsLast(s)
    && (forall j :: 0 <= j < |s.active| ==> TaskInSync(s, j))
    && (forall f :: f in s.started ==> Settled(s, f) && StoresOnce(s, f))
  }

  // ----- commands

  lemma RunMakesJustStarted(c: Cmd, env: RunEnv)
    requires IsNew(c)
    ensures var r := Launch(c, env);
            && (CommandKey(r.cmd).Some? ==> r.finish.None? && JustStarted(r.cmd))
            && (IsCorrelated(r.cmd) && CommandKey(r.cmd).None? ==> r.finish.Some? && r.finish.value.Err?)
  {
  }

  lemma StepKeepsCommand(c: Cmd, started: Cmd, ev: Event)
    requires SameCommand(c, started)
    ensures SameCommand(OnEvent(c, ev).cmd, started)
  {
  }

  lemma OnlyCorrelatedHaveKeys(c: Cmd)
    ensures CommandKey(c).Some? ==> IsCorrelated(c)
  {
  }

  lemma FoldOfNothing(c: Cmd)
    ensures Fold(c, []) == Progress(c, false, [])
  {
  }

  lemma FoldOneMore(c: Cmd, evs: seq<Event>, ev: Event)
    ensures Fold(c, evs + [ev]) == Advance(Fold(c, evs), ev)
  {
    assert (evs + [ev])[..|evs + [ev]| - 1] == evs;
  }

  // ----- steps that leave the loop's list and the history alone

  lemma LoopUntouched(s: State, s': State)
    requires Correlated(s) && NotRunIsNew(s')
    requires s'.active == s.active && s'.heard == s.heard && s'.started == s.started
    requires s'.pc == s.pc || (!s.pc.Offering? && !s'.pc.Offering?)
    requires forall f :: f in s.started ==> (f in s'.written <==> f in s.written)
                                            && (f in s.written ==> s'.written[f] == s.written[f])
    requires forall f :: f in s'.cells && !s'.cells[f].cancelled && f in s.started
                         ==> f in s.cells && !s.cells[f].cancelled
    ensures Correlated(s')
  {
    hide OnEvent, CommandKey, EventKey, IsNew, JustStarted, Fold, IsCorrelated, NotRunIsNew;
    forall j | 0 <= j < |s'.active| ensures TaskInSync(s', j) {
      assert TaskInSync(s, j);
    }
    forall f | f in s'.started ensures Settled(s', f) && StoresOnce(s', f) {
      assert Settled(s, f) && StoresOnce(s, f);
    }
  }

  lemma NotRunIsNewAfterLoop(s: State, step: Step)
    requires Linear(s) && NotRunIsNew(s) && (step.LoopRun? || step.LoopOffer?) && Enabled(s, step)
    ensures NotRunIsNew(Next(s, step))
  {
    hide OnEvent, Launch, CommandKey, IsNew, IsFresh, Stepped, DistinctIds, Unsent;
    if step.LoopOffer? {
      assert s.active[s.pc.i].id in s.started by { IdOf(s.active, s.pc.i); }
    }
  }

  lemma NotRunIsNewKept(s: State, step: Step)
    requires Linear(s) && NotRunIsNew(s) && Enabled(s, step)
    ensures NotRunIsNew(Next(s, step))
  {
    hide OnEvent, Launch, CommandKey, EventKey, IsNew, PeerEventsOf, Hear, IsFresh, Retained, Linear, RunHeld,
         OfferNext;
    if step.LoopRun? || step.LoopOffer? {
      NotRunIsNewAfterLoop(s, step);
    }
  }

  lemma ChainEndKept(s: State)
    requires Correlated(s) && Enabled(s, LoopEndChain)
    ensures Correlated(Next(s, LoopEndChain))
  {
    hide OnEvent, CommandKey, EventKey, IsNew, JustStarted, Fold, IsCorrelated;
    var s' := Next(s, LoopEndChain);
    forall j | 0 <= j < |s'.active| ensures TaskInSync(s', j) {
      assert TaskInSync(s, j);
    }
    forall f | f in s'.started ensures Settled(s', f) && StoresOnce(s', f) {
      assert Settled(s, f) && StoresOnce(s, f);
    }
  }

  // ----- pruning cancelled commands

  lemma RetainKeepsSync(s: State, j: nat)
    requires Correlated(s) && Enabled(s, LoopRetain) && j < |Next(s, LoopRetain).active|
    ensures TaskInSync(Next(s, LoopRetain), j)
  {
    hide CommandKey, EventKey, IsNew, JustStarted, Fold, IsCorrelated, Settled, StoresOnce, KeysAreOwn, NotRunIsNew;
    var s' := Next(s, LoopRetain);
    assert s'.active[j] in s.active;
    var i :| 0 <= i < |s.active| && s.active[i] == s'.active[j];
    assert TaskInSync(s, i);
  }

  lemma RetainKept(s: State)
    requires Linear(s) && Correlated(s) && Enabled(s, LoopRetain)
    ensures Correlated(Next(s, LoopRetain))
  {
    hide CommandKey, EventKey, IsNew, JustStarted, Fold, IsCorrelated, TaskInSync, Linear;
    var s' := Next(s, LoopRetain);
    forall j | 0 <= j < |s'.active| ensures TaskInSync(s', j) {
      RetainKeepsSync(s, j);
    }
    forall f | f in s'.started ensures Settled(s', f) && StoresOnce(s', f) {
      assert Settled(s, f) && StoresOnce(s, f);
      RetainedIds(s.active, s.cells, f);
    }
  }

  lemma RetainedIds(active: seq<Task>, cells: map<TaskId, ResultState>, f: TaskId)
    ensures f in Ids(active) && (f in cells ==> !cells[f].cancelled) <==> f in Ids(Retained(active, cells))
  {
  }

  // ----- running a command

  lemma RunKeepsKey(s: State, env: RunEnv, f: TaskId)
    requires Linear(s) && KeysAreOwn(s) && NotRunIsNew(s) && Enabled(s, LoopRun(env)) && f in RunHeld(s, env).started
    ensures OwnKey(RunHeld(s, env), f)
  {
    RunMakesJustStarted(s.pc.task.cmd, env);
    hide CommandKey, IsNew, JustStarted, Launch, DistinctIds, Unsent, Linear, Finish;
    var s' := RunHeld(s, env);
    assert f != s.pc.task.id ==> OwnKey(s, f);
    forall g | g in s'.started && g != f && StartedKey(s', f).Some?
      ensures StartedKey(s', g) != StartedKey(s', f)
    {
      assert g != s.pc.task.id ==> OwnKey(s, g);
    }
  }

  lemma RunKeepsKeys(s: State, env: RunEnv)
    requires Linear(s) && KeysAreOwn(s) && NotRunIsNew(s) && Enabled(s, LoopRun(env))
    ensures KeysAreOwn(RunHeld(s, env))
  {
    var s' := RunHeld(s, env);
    forall f | f in s'.started ensures OwnKey(s', f) {
      RunKeepsKey(s, env, f);
    }
    hide CommandKey, IsNew, IsCorrelated, Launch, DistinctIds, Unsent, Finish, OwnKey;
    forall t | t in s.active ensures t.id in s.started && t.id != s.pc.task.id {
      assert t.id in Ids(s.active);
    }
  }

  lemma RunKeepsSync(s: State, env: RunEnv, j: nat)
    requires Linear(s) && Correlated(s) && Enabled(s, LoopRun(env)) && j < |s.active| + 1
    ensures TaskInSync(RunHeld(s, env), j)
  {
    var t := s.pc.task;
    var r := Launch(t.cmd, env);
    RunMakesJustStarted(t.cmd, env);
    FoldOfNothing(r.cmd);
    hide CommandKey, IsNew, JustStarted, Fold, IsCorrelated, Launch, DistinctIds, Unsent, Settled, StoresOnce;
    if j < |s.active| {
      assert TaskInSync(s, j);
      IdOf(s.active, j);
    }
  }

  lemma RunKeepsStored(s: State, env: RunEnv, f: TaskId)
    requires Linear(s) && Correlated(s) && Enabled(s, LoopRun(env)) && f in RunHeld(s, env).started
    ensures Settled(RunHeld(s, env), f) && StoresOnce(RunHeld(s, env), f)
  {
    hide CommandKey, IsNew, JustStarted, Fold, IsCorrelated, Launch, DistinctIds, Unsent, TaskInSync, Ids;
    var t := s.pc.task;
    var r := Launch(t.cmd, env);
    RunMakesJustStarted(t.cmd, env);
    AppendKeepsDistinctIds(s.active, Task(t.id, r.cmd));
    assert f != t.id ==> Settled(s, f) && StoresOnce(s, f);
  }

  lemma RunKept(s: State, env: RunEnv)
    requires Linear(s) && Correlated(s) && Enabled(s, LoopRun(env))
    ensures Correlated(RunHeld(s, env))
  {
    var s' := RunHeld(s, env);
    NotRunIsNewKept(s, LoopRun(env));
    RunKeepsKeys(s, env);
    hide NotRunIsNew, KeysAreOwn, TaskInSync, Settled, StoresOnce, Linear, Launch, CommandKey;
    forall j | 0 <= j < |s'.active| ensures TaskInSync(s', j) {
      RunKeepsSync(s, env, j);
    }
    forall f | f in s'.started ensures Settled(s', f) && StoresOnce(s', f) {
      RunKeepsStored(s, env, f);
    }
  }

  lemma AppendKeepsDistinctIds(ts: seq<Task>, t: Task)
    ensures Ids(ts + [t]) == Ids(ts) + {t.id}
  {
    assert t in ts + [t];
    forall u | u in ts ensures u in ts + [t] {}
  }

  // ----- taking an event from the swarm

  lemma TakeEventKept(s: State, ev: Event)
    requires Correlated(s) && Enabled(s, LoopTakeEvent(ev))
    ensures Correlated(Next(s, LoopTakeEvent(ev)))
  {
    hide OnEvent, CommandKey, EventKey, IsNew, JustStarted, Fold, IsCorrelated;
    var s' := Next(s, LoopTakeEvent(ev));
    forall j | 0 <= j < |s'.active| ensures TaskInSync(s', j) {
      assert TaskInSync(s, j);
      var f := s.active[j].id;
      if f in s.started && StartedKey(s, f).Some? && StartedKey(s, f).value in s.heard {
        var k := StartedKey(s, f).value;
        assert EventKey(ev) == Some(k) ==> s'.heard[k][..|s'.heard[k]| - 1] == s.heard[k];
        assert HeardAt(s', j, k) == s.heard[k];
      }
    }
    forall f | f in s'.started ensures Settled(s', f) && StoresOnce(s', f) {
      assert Settled(s, f) && StoresOnce(s, f);
      if StartedKey(s, f).Some? && StartedKey(s, f) == EventKey(ev) && StartedKey(s, f).value in s.heard {
        FoldOneMore(s.started[f], s.heard[StartedKey(s, f).value], ev);
      }
    }
  }

  // ----- offering the event to one command

  /** What one offer does to the fold of the command that is offered the event. */
  lemma OfferAdvancesFold(s: State)
    requires Linear(s) && Correlated(s) && Enabled(s, LoopOffer)
    ensures var t := s.active[s.pc.i];
            var r := OnEvent(t.cmd, s.pc.ev);
            s.pc.remaining == Some(s.pc.ev) && t.id in s.started &&
            (StartedKey(s, t.id).Some? ==>
              && IsCorrelated(t.cmd) && (r.finish.Some? <==> !r.keep)
              && s.written[t.id] == []
              && StartedKey(s, t.id).value in s.heard
              && var p := Fold(s.started[t.id], s.heard[StartedKey(s, t.id).value]);
                 p == Progress(r.cmd, !r.keep, if r.finish.Some? then [r.finish.value] else []))
  {
    hide OnEvent, CommandKey, EventKey, IsNew, JustStarted, Fold, IsCorrelated, Unsent, NotRunIsNew, Settled;
    var t := s.active[s.pc.i];
    IdOf(s.active, s.pc.i);
    assert TaskInSync(s, s.pc.i) && StoresOnce(s, t.id);
    OnlyCorrelatedHaveKeys(t.cmd);
    if StartedKey(s, t.id).Some? {
      var c, k := s.started[t.id], StartedKey(s, t.id).value;
      CorrelatedCommandsKeepTheirKey(t.cmd, s.pc.ev);
      OnlyCorrelatedHaveKeys(c);
      if EventKey(s.pc.ev) == Some(k) {
        assert s.heard[k] == HeardAt(s, s.pc.i, k) + [s.pc.ev];
        FoldOneMore(c, HeardAt(s, s.pc.i, k), s.pc.ev);
      }
    }
  }

  lemma OfferKeepsKeys(s: State)
    requires Linear(s) && Correlated(s) && Enabled(s, LoopOffer)
    ensures KeysAreOwn(OfferNext(s))
  {
    var t, s' := s.active[s.pc.i], OfferNext(s);
    hide CommandKey, IsCorrelated, Fold, OnEvent, JustStarted, Settled, StoresOnce, TaskInSync, Linear, IsNew, Finish;
    forall f | f in s'.started ensures OwnKey(s', f) {
      assert OwnKey(s, f);
    }
    forall u | u in s'.active && u.id in s'.started ensures SameCommand(u.cmd, s'.started[u.id]) {
      assert t in s.active && s.active[|s.active| - 1] in s.active;
      if t.id in s.started { StepKeepsCommand(t.cmd, s.started[t.id], s.pc.remaining.value); }
      var j :| 0 <= j < |s'.active| && s'.active[j] == u;
      assert s.active[j] in s.active;
    }
  }

  lemma OfferKeepsInFlight(s: State)
    requires Correlated(s) && Enabled(s, LoopOffer)
    ensures InFlightIsLast(OfferNext(s))
  {
    OnlyOwnEventsAreConsumed(s.active[s.pc.i].cmd, s.pc.remaining.value);
    hide CommandKey, IsCorrelated, Fold, OnEvent, JustStarted, Settled, StoresOnce, TaskInSync, Linear, IsNew;
  }

  /** A command other than the one offered the event has been offered what it had been offered before: the
      event is consumed only if it carries the identifier of the command that consumes it. */
  lemma OfferKeepsHeard(s: State, before: nat, j: nat, k: Correlation)
    requires Correlated(s) && Enabled(s, LoopOffer) && k in s.heard && s.active[s.pc.i].id in s.started
    requires j < OfferNext(s).pc.i <==> before < s.pc.i
    requires StartedKey(s, s.active[s.pc.i].id) != Some(k)
    ensures HeardAt(OfferNext(s), j, k) == HeardAt(s, before, k)
  {
    var t := s.active[s.pc.i];
    OnlyOwnEventsAreConsumed(t.cmd, s.pc.remaining.value);
    assert t in s.active && SameCommand(t.cmd, s.started[t.id]);
    hide CommandKey, IsCorrelated, Fold, OnEvent, JustStarted, Settled, StoresOnce, TaskInSync, OwnKey, NotRunIsNew;
  }

  /** The command at index `j` of the new list was at another index before, and was not offered the event. */
  lemma OfferKeepsOthersInSync(s: State, j: nat, before: nat)
    requires Linear(s) && Correlated(s) && Enabled(s, LoopOffer)
    requires j < |OfferNext(s).active| && before < |s.active| && before != s.pc.i
    requires OfferNext(s).active[j] == s.active[before]
    requires j < OfferNext(s).pc.i <==> before < s.pc.i
    ensures TaskInSync(OfferNext(s), j)
  {
    hide CommandKey, IsCorrelated, Fold, OnEvent, JustStarted, Settled, StoresOnce, HeardAt, IsNew, Unsent, NotRunIsNew,
         Stepped;
    var t, u := s.active[s.pc.i], s.active[before];
    assert TaskInSync(s, before);
    IdOf(s.active, s.pc.i);
    assert u.id != t.id;
    if u.id in s.started && StartedKey(s, u.id).Some? && StartedKey(s, u.id).value in s.heard {
      assert OwnKey(s, u.id);
      OfferKeepsHeard(s, before, j, StartedKey(s, u.id).value);
    }
  }

  lemma OfferKeepsOwnInSync(s: State)
    requires Linear(s) && Correlated(s) && Enabled(s, LoopOffer)
    requires OnEvent(s.active[s.pc.i].cmd, s.pc.ev).keep
    ensures s.pc.i < |OfferNext(s).active| && TaskInSync(OfferNext(s), s.pc.i)
  {
    hide CommandKey, IsCorrelated, Fold, OnEvent, JustStarted, Settled, StoresOnce, Linear, IsNew, NotRunIsNew, OwnKey;
    OfferAdvancesFold(s);
    assert TaskInSync(s, s.pc.i);
  }

  lemma OfferKeepsSync(s: State, j: nat)
    requires Linear(s) && Correlated(s) && Enabled(s, LoopOffer) && j < |OfferNext(s).active|
    ensures TaskInSync(OfferNext(s), j)
  {
    hide CommandKey, IsCorrelated, Fold, OnEvent, JustStarted, Settled, StoresOnce, Linear, IsNew, NotRunIsNew, OwnKey,
         HeardAt;
    var i, t := s.pc.i, s.active[s.pc.i];
    OfferAdvancesFold(s);
    var r := OnEvent(t.cmd, s.pc.ev);
    if r.keep && j == i {
      OfferKeepsOwnInSync(s);
    } else {
      OfferKeepsOthersInSync(s, j, if j == i then |s.active| - 1 else j);
    }
  }

  lemma OfferKeepsStored(s: State, f: TaskId)
    requires Linear(s) && Correlated(s) && Enabled(s, LoopOffer) && f in s.started
    ensures Settled(OfferNext(s), f) && StoresOnce(OfferNext(s), f)
  {
    var t, s' := s.active[s.pc.i], OfferNext(s);
    OfferAdvancesFold(s);
    assert Settled(s, f) && StoresOnce(s, f);
    SteppedIds(s.active, s.pc.i, OnEvent(t.cmd, s.pc.ev), f);
    if f == t.id {
      IdOf(s.active, s.pc.i);
      if IsCorrelated(s.started[f]) && StartedKey(s, f).None? {
        assert t in s.active && SameCommand(t.cmd, s.started[f]);
        CorrelatedCommandsKeepTheirKey(t.cmd, s.pc.ev);
      }
    }
    hide CommandKey, IsCorrelated, Fold, OnEvent, JustStarted, IsNew, NotRunIsNew, OwnKey, TaskInSync, Unsent, Stepped;
  }

  lemma SteppedIds(active: seq<Task>, i: nat, r: Reaction, f: TaskId)
    requires i < |active| && DistinctIds(active)
    ensures f in Ids(Stepped(active, i, r).0) <==> f in Ids(active) && (f == active[i].id ==> r.keep)
  {
    var active' := Stepped(active, i, r).0;
    if u :| u in active && u.id == f && (f == active[i].id ==> r.keep) {
      var j :| 0 <= j < |active| && active[j] == u;
      var k := if !r.keep && j == |active| - 1 then i else j;
      assert active'[k] in active' && active'[k].id == f;
    }
    if u :| u in active' && u.id == f {
      var k :| 0 <= k < |active'| && active'[k] == u;
      var j := if !r.keep && k == i then |active| - 1 else k;
      assert active[j] in active && active[j].id == f;
    }
  }

  lemma OfferStartsNothing(s: State)
    requires Enabled(s, LoopOffer)
    ensures OfferNext(s).started == s.started
  {
  }

  lemma OfferKept(s: State)
    requires Linear(s) && Correlated(s) && Enabled(s, LoopOffer)
    ensures Correlated(OfferNext(s))
  {
    hide NotRunIsNew, KeysAreOwn, TaskInSync, Settled, StoresOnce, Linear, OnEvent, InFlightIsLast, Stepped, Finish,
         Launch, IsNew, IsFresh;
    var s' := OfferNext(s);
    NotRunIsNewKept(s, LoopOffer);
    OfferKeepsKeys(s);
    OfferKeepsInFlight(s);
    assert s'.started == s.started by { OfferStartsNothing(s); }
    forall j | 0 <= j < |s'.active| ensures TaskInSync(s', j) {
      OfferKeepsSync(s, j);
    }
    forall f | f in s'.started ensures Settled(s', f) && StoresOnce(s', f) {
      OfferKeepsStored(s, f);
    }
  }

  lemma UnpackNew(s: State)
    requires Correlated(s)
    ensures NotRunIsNew(s)
  {
  }

  lemma UntouchedKept(s: State, step: Step)
    requires Linear(s) && Correlated(s) && Enabled(s, step) && NotRunIsNew(Next(s, step))
    requires !step.LoopRetain? && !step.LoopRun? && !step.LoopTakeEvent? && !step.LoopOffer? && !step.LoopEndChain?
    ensures Correlated(Next(s, step))
  {
    hide IsNew, PeerEventsOf, RunHeld, OfferNext, TakeEvent, RetainLive, EndChain, Correlated, NotRunIsNew, DistinctIds,
         Unsent;
    LoopUntouched(s, Next(s, step));
  }

  lemma CorrelatedKept(s: State, step: Step)
    requires Linear(s) && Correlated(s) && Enabled(s, step)
    ensures Correlated(Next(s, step))
  {
    hide IsNew, IsFresh, SendHalf, CheckHalf, Created, CancelHalf, RetainLive, TakeEvent, EndChain, ConvertRest,
         RunHeld, OfferNext, Correlated, NotRunIsNew, Linear;
    UnpackNew(s);
    NotRunIsNewKept(s, step);
    match step
    case LoopRetain => RetainKept(s);
    case LoopRun(env) => RunKept(s, env);
    case LoopTakeEvent(ev) => TakeEventKept(s, ev);
    case LoopOffer => OfferKept(s);
    case LoopEndChain => ChainEndKept(s);
    case _ => UntouchedKept(s, step);
  }
}
