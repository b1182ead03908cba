/** What a correlated command computes over the whole sequence of events that carry its identifier. */
module Queries {
  import opened Types
  import opened Commands

  /** A command that has seen some events: its state, whether it has completed, the results it stored. */
  datatype Progress = Progress(cmd: Cmd, done: bool, writes: seq<Outcome>)

  function Advance(p: Progress, ev: Event): Progress {
    if p.done then p else
    var r := OnEvent(p.cmd, ev);
    Progress(r.cmd, !r.keep, if r.finish.Some? then p.writes + [r.finish.value] else p.writes)
  }

  /** A completed command is no longer offered events. */
  function Fold(c: Cmd, evs: seq<Event>): Progress {
    if evs == [] then Progress(c, false, []) else Advance(Fold(c, evs[..|evs| - 1]), evs[|evs| - 1])
  }

  // ----- the reference definition

  /** The event is one that the command itself acts on. */
  predicate IsStepOf(c: Cmd, ev: Event) {
    match c
    case GetRecord(q, _, _) => ev.QueryProgressed? && ev.result.GetRecordRes? && q == Some(ev.id)
    case GetProviders(q, _, _) => ev.QueryProgressed? && ev.result.GetProvidersRes? && q == Some(ev.id)
    case GetClosestPeers(q, _, _) => ev.QueryProgressed? && ev.result.GetClosestPeersRes? && q == Some(ev.id)
    case Bootstrap(q, _) => ev.QueryProgressed? && ev.result.BootstrapRes? && q == Some(ev.id)
    case PutRecord(q, _) => ev.QueryProgressed? && ev.result.PutRecordRes? && q == Some(ev.id)
    case StartProvide(q, _) => ev.QueryProgressed? && ev.result.StartProvidingRes? && q == Some(ev.id)
    case SendRequest(peer, _, id) =>
      (ev.ResponseReceived? || ev.RequestFailed?) && id == Some(ev.requestId) && ev.from == peer
    case _ => false
  }

  predicate AllSteps(c: Cmd, steps: seq<Event>) {
    forall i :: 0 <= i < |steps| ==> IsStepOf(c, steps[i])
  }

  predicate IsError(ev: Event) {
    ev.QueryProgressed? &&
    match ev.result
    case GetRecordRes(r) => r.Bad?
    case GetProvidersRes(r) => r.Bad?
    case GetClosestPeersRes(r) => r.Bad?
    case BootstrapRes(r) => r.Bad?
    case PutRecordRes(r) => r.Bad?
    case StartProvidingRes(r) => r.Bad?
  }

  /** The step that ends the query: the last step, for the accumulating queries also the first error. */
  predicate IsTerminal(c: Cmd, ev: Event) {
    IsStepOf(c, ev) &&
    match c
    case SendRequest(_, _, _) => true
    case GetProviders(_, _, _) => ev.last || IsError(ev)
    case GetClosestPeers(_, _, _) => ev.last || IsError(ev)
    case Bootstrap(_, _) => ev.last || IsError(ev)
    case _ => ev.QueryProgressed? && ev.last
  }

  predicate NoneTerminal(c: Cmd, steps: seq<Event>) {
    forall i :: 0 <= i < |steps| ==> !IsTerminal(c, steps[i])
  }

  /** Exactly the last of these steps ends the query. */
  predicate EndsQuery(c: Cmd, steps: seq<Event>) {
    steps != [] && AllSteps(c, steps) && NoneTerminal(c, steps[..|steps| - 1]) && IsTerminal(c, steps[|steps| - 1])
  }

  function RecordIn(ev: Event): Option<Record> {
    if ev.QueryProgressed? && ev.result.GetRecordRes? && ev.result.record.Good? && ev.result.record.ok.Found?
    then Some(ev.result.record.ok.record) else None
  }

  function PeersIn(ev: Event): seq<PeerId> {
    if !ev.QueryProgressed? then []
    else if ev.result.GetProvidersRes? && ev.result.providers.Good? && ev.result.providers.ok.FoundProviders?
    then ev.result.providers.ok.providers
    else if ev.result.GetClosestPeersRes? && ev.result.closest.Good? then ev.result.closest.ok
    else []
  }

  function AllPeers(steps: seq<Event>): seq<PeerId> {
    if steps == [] then [] else AllPeers(steps[..|steps| - 1]) + PeersIn(steps[|steps| - 1])
  }

  function FirstRecord(steps: seq<Event>): (r: Option<Record>)
    ensures r.None? <==> forall i :: 0 <= i < |steps| ==> RecordIn(steps[i]).None?
    ensures r.Some? ==> exists i :: 0 <= i < |steps| && RecordIn(steps[i]) == r
                                    && forall j :: 0 <= j < i ==> RecordIn(steps[j]).None?
  {
    if steps == [] then None else
    var earlier := FirstRecord(steps[..|steps| - 1]);
    if earlier.Some? then earlier else RecordIn(steps[|steps| - 1])
  }

  function StatsIn(ev: Event): nat { if ev.QueryProgressed? then ev.stats else 0 }

  /** Every step's statistics, merged in order. */
  function MergeAll(steps: seq<Event>): Stats {
    seq(|steps|, i requires 0 <= i < |steps| => StatsIn(steps[i]))
  }

  function FailureOf(ev: Event): Outcome
    requires IsError(ev)
  {
    Err(Kad(QueryFailed(
      match ev.result
      case GetRecordRes(r) => r.reason
      case GetProvidersRes(r) => r.reason
      case GetClosestPeersRes(r) => r.reason
      case BootstrapRes(r) => r.reason
      case PutRecordRes(r) => r.reason
      case StartProvidingRes(r) => r.reason)))
  }

  /** The result that a query owes its caller, read off its steps. */
  function Verdict(c: Cmd, steps: seq<Event>): Outcome
    requires EndsQuery(c, steps)
  {
    var final := steps[|steps| - 1];
    if c.GetRecord? && FirstRecord(steps).Some? then Ok(FoundRecord(FirstRecord(steps).value, MergeAll(steps)))
    else if IsError(final) then FailureOf(final)
    else if c.GetRecord? then Err(Kad(RecordNotFound))
    else if c.SendRequest? then
      if final.ResponseReceived? then Ok(Responded(final.response)) else Err(MapOutboundFailure(final.failure))
    else if c.GetProviders? then Ok(Providers(AllPeers(steps), MergeAll(steps)))
    else if c.GetClosestPeers? then Ok(ClosestPeers(AllPeers(steps), MergeAll(steps)))
    else if c.Bootstrap? then Ok(Bootstrapped(final.result.remaining.ok, MergeAll(steps)))
    else Ok(QueryStats(MergeAll(steps)))
  }

  /** A command right after a `run` that the swarm accepted. */
  predicate JustStarted(c: Cmd) {
    IsCorrelated(c) && CommandKey(c).Some? &&
    match c
    case GetRecord(_, r, s) => r.None? && s.None?
    case GetProviders(_, ps, s) => ps == [] && s.None?
    case GetClosestPeers(_, ps, s) => ps == [] && s.None?
    case Bootstrap(_, s) => s.None?
    case PutRecord(_, s) => s.None?
    case StartProvide(_, s) => s.None?
    case _ => true
  }

  // ----- proofs

  function StatsSoFar(steps: seq<Event>): Option<Stats> {
    if steps == [] then None else Some(MergeAll(steps))
  }

  /** The state of a query that has seen some steps, none of which ended it. */
  function WaitingState(c: Cmd, steps: seq<Event>): Cmd
    requires IsCorrelated(c)
  {
    match c
    case GetRecord(q, _, _) => GetRecord(q, FirstRecord(steps), StatsSoFar(steps))
    case GetProviders(q, _, _) => GetProviders(q, AllPeers(steps), StatsSoFar(steps))
    case GetClosestPeers(q, _, _) => GetClosestPeers(q, AllPeers(steps), StatsSoFar(steps))
    case Bootstrap(q, _) => Bootstrap(q, StatsSoFar(steps))
    case PutRecord(q, _) => PutRecord(q, StatsSoFar(steps))
    case StartProvide(q, _) => StartProvide(q, StatsSoFar(steps))
    case SendRequest(_, _, _) => c
  }

  lemma MergeAllSteps(steps: seq<Event>)
    requires steps != []
    ensures StatsSoFar(steps) == Some(Merged(StatsSoFar(steps[..|steps| - 1]), StatsIn(steps[|steps| - 1])))
  {
    var merged := Merged(StatsSoFar(steps[..|steps| - 1]), StatsIn(steps[|steps| - 1]));
    assert MergeAll(steps) == merged;
  }

  lemma {:induction false} WaitingAccumulates(c: Cmd, steps: seq<Event>)
    requires JustStarted(c) && AllSteps(c, steps) && NoneTerminal(c, steps)
    ensures Fold(c, steps) == Progress(WaitingState(c, steps), false, [])
  {
    if steps != [] {
      WaitingAccumulates(c, steps[..|steps| - 1]);
      MergeAllSteps(steps);
      assert IsStepOf(c, steps[|steps| - 1]) && !IsTerminal(c, steps[|steps| - 1]);
    }
  }

  lemma {:induction false} CompletedStaysCompleted(c: Cmd, evs: seq<Event>, n: nat)
    requires n <= |evs| && Fold(c, evs[..n]).done
    ensures Fold(c, evs) == Fold(c, evs[..n])
    decreases |evs|
  {
    if n < |evs| {
      assert evs[..|evs| - 1][..n] == evs[..n];
      CompletedStaysCompleted(c, evs[..|evs| - 1], n);
    } else {
      assert evs[..n] == evs;
    }
  }

  /** The step that ends a query stores its verdict. */
  lemma EndingStepStoresVerdict(c: Cmd, steps: seq<Event>)
    requires JustStarted(c) && EndsQuery(c, steps)
    ensures Fold(c, steps).done && Fold(c, steps).writes == [Verdict(c, steps)]
  {
    var earlier, final := steps[..|steps| - 1], steps[|steps| - 1];
    WaitingAccumulates(c, earlier);
    MergeAllSteps(steps);
    assert IsStepOf(c, final);
    var r := OnEvent(WaitingState(c, earlier), final);
    match c {
      case GetRecord(_, _, _) =>
        assert FirstRecord(steps) == if FirstRecord(earlier).Some? then FirstRecord(earlier) else RecordIn(final);
      case _ =>
    }
    assert !r.keep && r.finish == Some(Verdict(c, steps));
  }

  /** A query stores nothing before the step that ends it, and exactly its verdict on the steps up to
      that one afterwards, whatever follows. */
  lemma QueryRefinesVerdict(c: Cmd, steps: seq<Event>, k: nat)
    requires JustStarted(c) && AllSteps(c, steps)
    requires k <= |steps| && NoneTerminal(c, steps[..k])
    requires k < |steps| ==> IsTerminal(c, steps[k])
    ensures k == |steps| ==> !Fold(c, steps).done && Fold(c, steps).writes == []
    ensures k < |steps| ==> EndsQuery(c, steps[..k + 1])
                            && Fold(c, steps).done && Fold(c, steps).writes == [Verdict(c, steps[..k + 1])]
  {
    if k == |steps| {
      assert steps[..k] == steps;
      WaitingAccumulates(c, steps);
    } else {
      var upTo := steps[..k + 1];
      assert upTo[..|upTo| - 1] == steps[..k];
      EndingStepStoresVerdict(c, upTo);
      CompletedStaysCompleted(c, steps, k + 1);
    }
  }

  /** The events among `evs` that the command acts on. */
  function Own(c: Cmd, evs: seq<Event>): seq<Event> {
    if evs == [] then []
    else Own(c, evs[..|evs| - 1]) + (if IsStepOf(c, evs[|evs| - 1]) then [evs[|evs| - 1]] else [])
  }

  lemma {:induction false} OwnAreSteps(c: Cmd, evs: seq<Event>)
    ensures AllSteps(c, Own(c, evs))
  {
    if evs != [] {
      OwnAreSteps(c, evs[..|evs| - 1]);
    }
  }

  /** A command is recognised by the same events throughout its life. */
  lemma SameStepsForLife(c: Cmd, ev: Event, other: Event)
    requires IsCorrelated(c)
    ensures IsStepOf(OnEvent(c, ev).cmd, other) <==> IsStepOf(c, other)
    ensures IsCorrelated(OnEvent(c, ev).cmd)
    ensures !IsStepOf(c, ev) ==> OnEvent(c, ev) == Pass(c, ev)
  {
  }

  lemma {:induction false} FoldKeepsSteps(c: Cmd, evs: seq<Event>, other: Event)
    requires IsCorrelated(c)
    ensures IsCorrelated(Fold(c, evs).cmd)
    ensures IsStepOf(Fold(c, evs).cmd, other) <==> IsStepOf(c, other)
  {
    if evs != [] {
      FoldKeepsSteps(c, evs[..|evs| - 1], other);
      SameStepsForLife(Fold(c, evs[..|evs| - 1]).cmd, evs[|evs| - 1], other);
    }
  }

  /** Events of other commands, of other kinds or from other peers have no effect on a query. */
  lemma {:induction false} OnlyOwnStepsMatter(c: Cmd, evs: seq<Event>)
    requires IsCorrelated(c)
    ensures Fold(c, evs) == Fold(c, Own(c, evs))
  {
    if evs != [] {
      var earlier, ev := evs[..|evs| - 1], evs[|evs| - 1];
      OnlyOwnStepsMatter(c, earlier);
      FoldKeepsSteps(c, earlier, ev);
      SameStepsForLife(Fold(c, earlier).cmd, ev, ev);
      if IsStepOf(c, ev) {
        assert Own(c, evs)[..|Own(c, evs)| - 1] == Own(c, earlier);
      } else {
        assert Own(c, evs) == Own(c, earlier);
      }
    }
  }

  // ----- commands that wait for a connection event

  /** The event answers the dial or the disconnect. */
  predicate Answers(c: Cmd, ev: Event) {
    match c
    case DialPeer(p) => (ev.ConnectionEstablished? && ev.peer == p) || (ev.OutgoingConnectionError? && ev.to == Some(p))
    case Disconnect(p) => ev.ConnectionClosed? && ev.peer == p && ev.numEstablished == 0
    case _ => false
  }

  lemma {:induction false} AnsweredOnce(c: Cmd, evs: seq<Event>)
    requires c.DialPeer? || c.Disconnect?
    ensures var p := Fold(c, evs);
            && p.cmd == c && |p.writes| == (if p.done then 1 else 0)
            && (p.done <==> exists i :: 0 <= i < |evs| && Answers(c, evs[i]))
  {
    if evs != [] {
      var n := |evs| - 1;
      AnsweredOnce(c, evs[..n]);
      assert forall i :: 0 <= i < n ==> evs[..n][i] == evs[i];
      assert Answers(c, evs[n]) <==> !OnEvent(c, evs[n]).keep;
    }
  }

  /** Over any events, a dial or disconnect stores in `on_event` what its first answering event says: a dial succeeds
      with a connection and fails with a connection error, told as it is; a disconnect succeeds. */
  lemma {:induction false} FirstAnswerDecides(c: Cmd, evs: seq<Event>, k: nat)
    requires c.DialPeer? || c.Disconnect?
    requires k <= |evs| && (forall i :: 0 <= i < k ==> !Answers(c, evs[i])) && (k < |evs| ==> Answers(c, evs[k]))
    ensures k == |evs| ==> Fold(c, evs).writes == [] && !Fold(c, evs).done && Fold(c, evs).cmd == c
    ensures k < |evs| && c.DialPeer? && evs[k].ConnectionEstablished? ==> Fold(c, evs).writes == [Ok(Unit)]
    ensures k < |evs| && c.DialPeer? && evs[k].OutgoingConnectionError? ==>
              Fold(c, evs).writes == [Err(Dial(ConnectFailed(evs[k].how)))]
    ensures k < |evs| && c.Disconnect? ==> Fold(c, evs).writes == [Ok(Unit)]
    ensures k < |evs| ==> Fold(c, evs).done
  {
    if evs != [] {
      var n := |evs| - 1;
      assert forall i :: 0 <= i < n ==> evs[..n][i] == evs[i];
      FirstAnswerDecides(c, evs[..n], if k == |evs| then n else k);
    }
  }

  /** What a dial or disconnect stores: possibly a result in `run`, then one at the first event that answers it. */
  function StoredOverLife(c: Cmd, env: RunEnv, evs: seq<Event>): seq<Outcome> {
    var r := Run(c, env);
    (if r.finish.Some? then [r.finish.value] else []) + Fold(r.cmd, evs).writes
  }

  /** Unlike an identified command, a dial or a disconnect may complete twice; it completes at most once exactly
      if `run` left it open or no later event answers it. */
  lemma AtMostOneAnswerIff(c: Cmd, env: RunEnv, evs: seq<Event>)
    requires c.DialPeer? || c.Disconnect?
    ensures |StoredOverLife(c, env, evs)| <= 1 <==>
              (if c.DialPeer? then !env.connected && env.refused.None? else env.connected)
              || forall i :: 0 <= i < |evs| ==> !Answers(c, evs[i])
  {
    AnsweredOnce(c, evs);
  }

  /** A refused dial of a peer that connects anyway: the error is replaced by success. */
  lemma RefusedDialMaySucceed(peer: PeerId, why: nat)
    ensures StoredOverLife(DialPeer(peer), RunEnv(0, Some(why), false, false), [ConnectionEstablished(peer, 1)])
            == [Err(Dial(DialRefused(why))), Ok(Unit)]
  {
    var ev := ConnectionEstablished(peer, 1);
    assert [ev][..0] == [];
    assert Fold(DialPeer(peer), [ev]) == Advance(Fold(DialPeer(peer), []), ev);
  }

  /** Record lookup over a whole event sequence that ends in a last step: Ok exactly if some step found
      a record, and then with the first one found; errors before the last step never end the query. */
  lemma RecordLookup(q: nat, steps: seq<Event>)
    requires var c := GetRecord(Some(q), None, None);
             steps != [] && AllSteps(c, steps)
             && forall i :: 0 <= i < |steps| ==> (steps[i].QueryProgressed? && steps[i].last <==> i == |steps| - 1)
    ensures var writes := Fold(GetRecord(Some(q), None, None), steps).writes;
            && |writes| == 1
            && (writes[0].Ok? <==> exists i :: 0 <= i < |steps| && RecordIn(steps[i]).Some?)
            && (writes[0].Ok? ==>
                  exists i :: (0 <= i < |steps| && RecordIn(steps[i]).Some?
                               && (forall j :: 0 <= j < i ==> RecordIn(steps[j]).None?)
                               && writes[0].value == FoundRecord(RecordIn(steps[i]).value, MergeAll(steps))))
    ensures forall n :: 0 <= n < |steps| ==> Fold(GetRecord(Some(q), None, None), steps[..n]).writes == []
  {
    var c := GetRecord(Some(q), None, None);
    EndingStepStoresVerdict(c, steps);
    forall n | 0 <= n < |steps| ensures Fold(c, steps[..n]).writes == [] {
      WaitingAccumulates(c, steps[..n]);
    }
  }
}
