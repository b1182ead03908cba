/** When the channel limits bound the open channels: the live guards together with the streams that were taken
    out of their handles. */
module StreamLimits {
  import opened Types
  import opened Bags
  import opened Quota
  import opened GuardFlow

  function LimitOf(limits: Limits, sel: Selector): nat {
    match sel
    case FromPeer(_) => limits.maxInboundPerPeer
    case ToPeer(_) => limits.maxOutboundPerPeer
    case OnProtocol(_) => limits.maxPerProtocol
  }

  function OpenChannels(s: Flow, sel: Selector): nat {
    CountOf(s.live, sel) + CountOf(s.streams, sel)
  }

  predicate TakesOut(s: Flow, step: Step, sel: Selector) {
    step.IntoStream? && step.id in s.guards && Matches(sel, s.guards[step.id])
  }

  /** No step of the run takes a stream of this peer and direction, or of this protocol, out of its handle. */
  ghost predicate TakesOutNone(s: Flow, steps: seq<Step>, sel: Selector)
    requires CanRun(s, steps)
    decreases |steps|
  {
    steps == [] || (!TakesOut(s, steps[0], sel) && TakesOutNone(Next(s, steps[0]), steps[1..], sel))
  }

  /** However the run goes on, unless another stream is taken out, the limit holds for all open channels. */
  ghost predicate StaysWithin(s: Flow, sel: Selector) {
    forall steps: seq<Step> :: CanRun(s, steps) && TakesOutNone(s, steps, sel) ==>
      OpenChannels(After(s, steps), sel) <= LimitOf(s.limits, sel)
  }

  /** New channels of this kind can still come: inbound ones on registered protocols, while somebody receives. */
  predicate CanBeFilled(s: Flow, sel: Selector) {
    match sel
    case FromPeer(_) => s.receiverOpen
    case ToPeer(_) => true
    case OnProtocol(q) =>
      || s.limits.maxOutboundPerPeer >= 1
      || (s.limits.maxInboundPerPeer >= 1 && s.receiverOpen && q in s.accepted)
  }

  /** The most guards of this kind that can be live at once. */
  function MostLive(s: Flow, sel: Selector): nat {
    match sel
    case FromPeer(_) =>
      var all := |s.accepted| * s.limits.maxPerProtocol;
      if all < s.limits.maxInboundPerPeer then all else s.limits.maxInboundPerPeer
    case ToPeer(_) => if s.limits.maxPerProtocol == 0 then 0 else s.limits.maxOutboundPerPeer
    case OnProtocol(_) => s.limits.maxPerProtocol
  }

  /** The most channels of this kind that can come to be open if no more streams are taken out. */
  function MostOpen(s: Flow, sel: Selector): nat {
    if CanBeFilled(s, sel) then MostLive(s, sel) + CountOf(s.streams, sel) else OpenChannels(s, sel)
  }

  // ----- how many inbound guards of one peer can be live

  function InboundOn(live: Live, p: PeerId, protocols: set<Protocol>): set<nat> {
    set id | id in live && live[id].direction.Inbound? && live[id].peer == p && live[id].protocol in protocols
  }

  lemma InboundSplit(live: Live, p: PeerId, protocols: set<Protocol>, q: Protocol)
    requires q in protocols
    ensures |InboundOn(live, p, protocols)| == |InboundOn(live, p, protocols - {q})| + |InboundOn(live, p, {q})|
  {
    var rest, own := InboundOn(live, p, protocols - {q}), InboundOn(live, p, {q});
    assert InboundOn(live, p, protocols) == rest + own && rest !! own;
  }

  lemma OneFewer(n: nat, m: nat)
    requires n > 0
    ensures n * m == (n - 1) * m + m
  {
  }

  lemma {:induction false} InboundBound(live: Live, p: PeerId, protocols: set<Protocol>, max: nat)
    requires forall q :: q in protocols ==> |InboundOn(live, p, {q})| <= max
    ensures |InboundOn(live, p, protocols)| <= |protocols| * max
  {
    if protocols == {} {
      assert InboundOn(live, p, protocols) == {};
    } else {
      var q :| q in protocols;
      InboundSplit(live, p, protocols, q);
      InboundBound(live, p, protocols - {q}, max);
      OneFewer(|protocols|, max);
    }
  }

  /** Pigeonhole: if a peer has fewer than `max` guards per protocol on the whole, some protocol has fewer. */
  lemma {:induction false} SomeProtocolHasRoom(live: Live, p: PeerId, protocols: set<Protocol>, max: nat)
    returns (q: Protocol)
    requires |InboundOn(live, p, protocols)| < |protocols| * max
    ensures q in protocols && |InboundOn(live, p, {q})| < max
  {
    if protocols == {} {
      assert false;
    } else {
      q :| q in protocols;
      InboundSplit(live, p, protocols, q);
      OneFewer(|protocols|, max);
      if |InboundOn(live, p, {q})| >= max {
        q := SomeProtocolHasRoom(live, p, protocols - {q}, max);
      }
    }
  }

  lemma InboundOfPeer(s: Flow, p: PeerId)
    requires Inv(s)
    ensures Matching(s.live, FromPeer(p)) == InboundOn(s.live, p, s.accepted)
    ensures forall q :: q in s.accepted ==> |InboundOn(s.live, p, {q})| <= s.limits.maxPerProtocol
  {
    hide Held, Exact;
    forall id | id in Matching(s.live, FromPeer(p)) ensures id in InboundOn(s.live, p, s.accepted) {
      UnpackHeld(s, id, 0);
    }
    forall q | q in s.accepted ensures |InboundOn(s.live, p, {q})| <= s.limits.maxPerProtocol {
      SubsetSize(InboundOn(s.live, p, {q}), Matching(s.live, OnProtocol(q)));
      assert CountOf(s.live, OnProtocol(q)) <= s.limits.maxPerProtocol;
    }
  }

  lemma LiveIsWithin(s: Flow, sel: Selector)
    requires Inv(s)
    ensures CountOf(s.live, sel) <= MostLive(s, sel) <= LimitOf(s.limits, sel)
  {
    hide Exact, Held;
    match sel
    case FromPeer(p) =>
      InboundOfPeer(s, p);
      InboundBound(s.live, p, s.accepted, s.limits.maxPerProtocol);
    case ToPeer(p) =>
      if CountOf(s.live, sel) > 0 {
        var id :| id in Matching(s.live, sel);
        UnpackHeld(s, id, 0);
      }
    case OnProtocol(_) =>
  }

  // ----- no continuation has more

  lemma StreamsFrame(s: Flow, step: Step)
    requires Enabled(s, step)
    ensures Next(s, step).limits == s.limits && Next(s, step).accepted == s.accepted
    ensures !step.IntoStream? && !step.CloseStream? ==> Next(s, step).streams == s.streams
    ensures Next(s, step).receiverOpen == (s.receiverOpen && !step.CloseReceiver?)
  {
    hide Polled, Arrived, Released;
    match step
    case PollOpen(f, outcome) => PollFrame(s, f, outcome);
    case Arrive(from, on) => ArriveFrame(s, from, on);
    case _ =>
  }

  /** Taking out other streams and closing streams adds no open stream of this kind. */
  lemma StreamsShrink(s: Flow, step: Step, sel: Selector)
    requires Enabled(s, step) && !TakesOut(s, step, sel)
    ensures CountOf(Next(s, step).streams, sel) <= CountOf(s.streams, sel)
  {
    hide Polled, Arrived, Acquired, Released;
    StreamsFrame(s, step);
    SubsetSize(Matching(Next(s, step).streams, sel), Matching(s.streams, sel));
  }

  lemma OpeningAddsNoLive(s: Flow, f: nat, id: nat, outcome: OpenOutcome)
    ensures var live := PolledOpening(s, f, id, outcome).live;
            live.Keys <= s.live.Keys && forall g :: g in live ==> live[g] == s.live[g]
  {
    hide Released;
  }

  lemma FirstPollAddsNoLive(s: Flow, f: nat, g: Guard, outcome: OpenOutcome, sel: Selector)
    requires !Matches(sel, g)
    ensures Matching(PolledOpening(Issue(s, g, InFuture(f)), f, s.issued, outcome).live, sel) <= Matching(s.live, sel)
  {
    hide Acquired, PolledOpening;
    OpeningAddsNoLive(Issue(s, g, InFuture(f)), f, s.issued, outcome);
  }

  lemma PollAddsNoLive(s: Flow, f: nat, outcome: OpenOutcome, sel: Selector)
    requires f in s.futures && !CanBeFilled(s, sel)
    ensures Matching(Polled(s, f, outcome).live, sel) <= Matching(s.live, sel)
  {
    hide PolledOpening, Issue;
    match s.futures[f]
    case Init(peer, protocol) =>
      var g := Guard(peer, protocol, Direction.Outbound);
      if Admits(s.limits, s.counters, g) { FirstPollAddsNoLive(s, f, g, outcome, sel); }
    case Opening(id) => OpeningAddsNoLive(s, f, id, outcome);
    case Finished =>
  }

  lemma ArrivalAddsNoLive(s: Flow, from: PeerId, on: Protocol, sel: Selector)
    requires Held(s) && on in s.accepted && !CanBeFilled(s, sel)
    ensures Matching(Arrived(s, from, on).live, sel) <= Matching(s.live, sel)
  {
    hide Acquired, Released, Held;
    UnpackHeld(s, s.issued, 0);
  }

  lemma NothingComes(s: Flow, step: Step, sel: Selector)
    requires Inv(s) && Enabled(s, step) && !CanBeFilled(s, sel)
    ensures !CanBeFilled(Next(s, step), sel)
    ensures CountOf(Next(s, step).live, sel) <= CountOf(s.live, sel)
  {
    hide Polled, Arrived, Acquired, Released, Counted, Held;
    StreamsFrame(s, step);
    match step {
      case PollOpen(f, outcome) => PollAddsNoLive(s, f, outcome, sel);
      case Arrive(from, on) => ArrivalAddsNoLive(s, from, on, sel);
      case _ =>
    }
    SubsetSize(Matching(Next(s, step).live, sel), Matching(s.live, sel));
  }

  lemma MostOpenShrinks(s: Flow, step: Step, sel: Selector)
    requires Inv(s) && Enabled(s, step) && !TakesOut(s, step, sel)
    ensures MostOpen(Next(s, step), sel) <= MostOpen(s, sel)
  {
    hide Next, Enabled, Inv, CountOf, TakesOut;
    StreamsFrame(s, step);
    StreamsShrink(s, step, sel);
    InvKept(s, step);
    LiveIsWithin(Next(s, step), sel);
    if !CanBeFilled(s, sel) { NothingComes(s, step, sel); }
  }

  lemma {:induction false} NeverMoreThanMost(s: Flow, steps: seq<Step>, sel: Selector)
    requires Inv(s) && CanRun(s, steps) && TakesOutNone(s, steps, sel)
    ensures OpenChannels(After(s, steps), sel) <= MostOpen(s, sel)
    decreases |steps|
  {
    hide Next, Enabled, Inv, CountOf, TakesOut;
    if steps == [] {
      LiveIsWithin(s, sel);
    } else {
      InvKept(s, steps[0]);
      MostOpenShrinks(s, steps[0], sel);
      NeverMoreThanMost(Next(s, steps[0]), steps[1..], sel);
    }
  }

  // ----- some continuation has as many

  lemma FreshNat(s: set<nat>) returns (n: nat)
    ensures n !in s && forall m :: m in s ==> m < n
  {
    if s == {} {
      n := 0;
    } else {
      var x :| x in s;
      var above := FreshNat(s - {x});
      n := if above > x then above else x + 1;
      forall m | m in s ensures m < n {
        assert m == x || m in s - {x};
      }
    }
  }

  lemma {:induction false} RunOn(s: Flow, a: seq<Step>, b: seq<Step>, sel: Selector)
    requires CanRun(s, a) && CanRun(After(s, a), b)
    requires TakesOutNone(s, a, sel) && TakesOutNone(After(s, a), b, sel)
    ensures CanRun(s, a + b) && TakesOutNone(s, a + b, sel) && After(s, a + b) == After(After(s, a), b)
    decreases |a|
  {
    hide Next, Enabled, TakesOut;
    if a == [] {
      assert a + b == b;
    } else {
      assert (a + b)[0] == a[0] && (a + b)[1..] == a[1..] + b;
      RunOn(Next(s, a[0]), a[1..], b, sel);
    }
  }

  lemma OneStep(s: Flow, step: Step, sel: Selector)
    requires Enabled(s, step) && !step.IntoStream?
    ensures CanRun(s, [step]) && TakesOutNone(s, [step], sel) && After(s, [step]) == Next(s, step)
  {
    hide Next, Enabled;
    assert [step][1..] == [];
  }

  /** The run takes out no stream of this kind and leaves streams, limits, protocols and receiver as they were. */
  ghost predicate Prepares(s: Flow, steps: seq<Step>, sel: Selector) {
    && CanRun(s, steps) && TakesOutNone(s, steps, sel)
    && var s' := After(s, steps);
       && s'.limits == s.limits && s'.accepted == s.accepted && s'.streams == s.streams
       && s'.receiverOpen == s.receiverOpen
  }

  lemma PrepareOn(s: Flow, a: seq<Step>, b: seq<Step>, sel: Selector)
    requires Prepares(s, a, sel) && Prepares(After(s, a), b, sel)
    ensures Prepares(s, a + b, sel) && After(s, a + b) == After(After(s, a), b)
  {
    hide CanRun, After, TakesOutNone;
    RunOn(s, a, b, sel);
  }

  /** Whoever receives can empty the queue. */
  lemma {:induction false} Drain(s: Flow, sel: Selector) returns (steps: seq<Step>)
    requires s.receiverOpen
    ensures Prepares(s, steps, sel)
    ensures var s' := After(s, steps);
            s'.queue == [] && s'.live == s.live && s'.counters == s.counters && s'.issued == s.issued
    decreases |s.queue|
  {
    hide CanRun, After, TakesOutNone;
    if s.queue == [] {
      steps := [];
      NoStep(s, sel);
    } else {
      OneStep(s, Receive, sel);
      var rest := Drain(Next(s, Receive), sel);
      PrepareOn(s, [Receive], rest, sel);
      steps := [Receive] + rest;
    }
  }

  lemma NoStep(s: Flow, sel: Selector)
    ensures CanRun(s, []) && TakesOutNone(s, [], sel) && After(s, []) == s
  {
  }

  lemma ArrivalGrows(s: Flow, g: Guard, sel: Selector)
    requires Held(s) && s.receiverOpen && s.queue == [] && g.direction.Inbound? && g.protocol in s.accepted
    requires Admits(s.limits, s.counters, g) && Matches(sel, g)
    ensures Prepares(s, [Arrive(g.peer, g.protocol)], sel)
    ensures CountOf(After(s, [Arrive(g.peer, g.protocol)]).live, sel) == CountOf(s.live, sel) + 1
  {
    hide Admits, Acquired, Matches, CountOf, Held, CanRun, After, TakesOutNone;
    OneStep(s, Arrive(g.peer, g.protocol), sel);
    UnpackHeld(s, s.issued, 0);
    CountAfterIssue(s.live, s.issued, g, sel);
  }

  lemma OpeningGrows(s: Flow, g: Guard, sel: Selector) returns (steps: seq<Step>)
    requires Held(s) && g.direction.Outbound? && Admits(s.limits, s.counters, g) && Matches(sel, g)
    ensures Prepares(s, steps, sel)
    ensures CountOf(After(s, steps).live, sel) == CountOf(s.live, sel) + 1
  {
    hide Admits, Acquired, Matches, CountOf, Held, CanRun, After, TakesOutNone;
    var f := FreshNat(s.futures.Keys + s.completed + s.panicked);
    var begin, poll := NewOpen(f, g.peer, g.protocol), PollOpen(f, StillOpening);
    OneStep(s, begin, sel);
    var s1 := Next(s, begin);
    OneStep(s1, poll, sel);
    RunOn(s, [begin], [poll], sel);
    UnpackHeld(s, s.issued, 0);
    CountAfterIssue(s.live, s.issued, g, sel);
    steps := [begin] + [poll];
  }

  /** With an empty queue, whoever holds a guard can drop it. */
  lemma DropOne(s: Flow, id: nat, sel: Selector) returns (steps: seq<Step>)
    requires Held(s) && s.queue == [] && id in s.live
    ensures Prepares(s, steps, sel) && After(s, steps).queue == [] && After(s, steps).live == s.live - {id}
  {
    hide Held, Released, CanRun, After, TakesOutNone;
    UnpackHeld(s, id, 0);
    var step := if s.place[id].InFuture? then DropOpen(s.place[id].f) else DropHandle(id);
    OneStep(s, step, sel);
    steps := [step];
  }

  /** Makes a registered protocol free for one more inbound channel of a peer, at the cost of others if need be. */
  lemma MakeRoom(s: Flow, p: PeerId) returns (steps: seq<Step>, q: Protocol)
    requires Inv(s) && s.queue == [] && CountOf(s.live, FromPeer(p)) < MostLive(s, FromPeer(p))
    ensures Prepares(s, steps, FromPeer(p)) && q in s.accepted && After(s, steps).queue == []
    ensures CountOf(After(s, steps).live, FromPeer(p)) == CountOf(s.live, FromPeer(p))
    ensures CountOf(After(s, steps).live, OnProtocol(q)) < s.limits.maxPerProtocol
  {
    hide Held, Exact, Within, CanRun, After, TakesOutNone;
    InboundOfPeer(s, p);
    q := SomeProtocolHasRoom(s.live, p, s.accepted, s.limits.maxPerProtocol);
    LiveIsWithin(s, OnProtocol(q));
    if CountOf(s.live, OnProtocol(q)) < s.limits.maxPerProtocol {
      steps := [];
      NoStep(s, FromPeer(p));
    } else {
      var id := NotFrom(s.live, p, q);
      steps := DropOne(s, id, FromPeer(p));
      CountAfterDrop(s.live, id, FromPeer(p));
      CountAfterDrop(s.live, id, OnProtocol(q));
    }
  }

  lemma NotFrom(live: Live, p: PeerId, q: Protocol) returns (id: nat)
    requires |InboundOn(live, p, {q})| < CountOf(live, OnProtocol(q))
    ensures id in live && live[id].protocol == q && !Matches(FromPeer(p), live[id])
  {
    if Matching(live, OnProtocol(q)) <= InboundOn(live, p, {q}) {
      SubsetSize(Matching(live, OnProtocol(q)), InboundOn(live, p, {q}));
    }
    id :| id in Matching(live, OnProtocol(q)) && id !in InboundOn(live, p, {q});
  }

  lemma GrowFromPeer(s: Flow, p: PeerId) returns (steps: seq<Step>)
    requires Inv(s) && s.receiverOpen && CountOf(s.live, FromPeer(p)) < MostLive(s, FromPeer(p))
    ensures Prepares(s, steps, FromPeer(p))
    ensures CountOf(After(s, steps).live, FromPeer(p)) == CountOf(s.live, FromPeer(p)) + 1
  {
    hide Held, Exact, Within, CanRun, After, TakesOutNone, CountOf, Admits;
    var sel := FromPeer(p);
    var drain := Drain(s, sel);
    var s1 := After(s, drain);
    InvAlong(s, drain);
    var room, q := MakeRoom(s1, p);
    var s2 := After(s1, room);
    InvAlong(s1, room);
    AdmissionIsExact(s2.limits, s2.counters, s2.live, Guard(p, q, Inbound));
    ArrivalGrows(s2, Guard(p, q, Inbound), sel);
    PrepareOn(s1, room, [Arrive(p, q)], sel);
    PrepareOn(s, drain, room + [Arrive(p, q)], sel);
    steps := drain + (room + [Arrive(p, q)]);
  }

  lemma GrowOnProtocol(s: Flow, q: Protocol) returns (steps: seq<Step>)
    requires Inv(s) && CanBeFilled(s, OnProtocol(q)) && CountOf(s.live, OnProtocol(q)) < MostLive(s, OnProtocol(q))
    ensures Prepares(s, steps, OnProtocol(q))
    ensures CountOf(After(s, steps).live, OnProtocol(q)) == CountOf(s.live, OnProtocol(q)) + 1
  {
    hide Held, Exact, Within, CanRun, After, TakesOutNone, CountOf;
    var sel := OnProtocol(q);
    CountersTell(s, q);
    if s.limits.maxOutboundPerPeer >= 1 {
      var p := FreshNat(s.counters.outbound.Keys);
      steps := OpeningGrows(s, Guard(p, q, Direction.Outbound), sel);
    } else {
      var drain := Drain(s, sel);
      InvAlong(s, drain);
      var p := FreshNat(s.counters.inbound.Keys);
      ArrivalGrows(After(s, drain), Guard(p, q, Inbound), sel);
      PrepareOn(s, drain, [Arrive(p, q)], sel);
      steps := drain + [Arrive(p, q)];
    }
  }

  lemma GrowOnce(s: Flow, sel: Selector) returns (steps: seq<Step>)
    requires Inv(s) && CanBeFilled(s, sel) && CountOf(s.live, sel) < MostLive(s, sel)
    ensures Prepares(s, steps, sel) && CountOf(After(s, steps).live, sel) == CountOf(s.live, sel) + 1
  {
    hide Held, Exact, Within, CanRun, After, TakesOutNone, CountOf;
    match sel
    case FromPeer(p) => steps := GrowFromPeer(s, p);
    case OnProtocol(q) => steps := GrowOnProtocol(s, q);
    case ToPeer(p) =>
      var q := FreshNat(s.counters.perProtocol.Keys);
      CountersTell(s, p);
      steps := OpeningGrows(s, Guard(p, q, Direction.Outbound), sel);
  }

  /** Without another stream being taken out, guards of this kind can be issued until no more fit. */
  lemma {:induction false} Fill(s: Flow, sel: Selector) returns (steps: seq<Step>)
    requires Inv(s) && CanBeFilled(s, sel)
    ensures Prepares(s, steps, sel) && CountOf(After(s, steps).live, sel) == MostLive(s, sel)
    decreases MostLive(s, sel) - CountOf(s.live, sel)
  {
    hide Next, Enabled, Inv, CountOf, CanRun, After, TakesOutNone;
    LiveIsWithin(s, sel);
    if CountOf(s.live, sel) == MostLive(s, sel) {
      steps := [];
      NoStep(s, sel);
    } else {
      var first := GrowOnce(s, sel);
      InvAlong(s, first);
      var rest := Fill(After(s, first), sel);
      PrepareOn(s, first, rest, sel);
      steps := first + rest;
    }
  }

  // ----- the theorems

  /** `MostOpen` is exact: if no more streams of a kind are taken out, no continuation has more open channels of that
      kind, and some continuation has as many. */
  lemma MostOpenIsExact(s: Flow, sel: Selector) returns (worst: seq<Step>)
    requires Reachable(s)
    ensures forall steps: seq<Step> :: CanRun(s, steps) && TakesOutNone(s, steps, sel) ==>
              OpenChannels(After(s, steps), sel) <= MostOpen(s, sel)
    ensures CanRun(s, worst) && TakesOutNone(s, worst, sel) && OpenChannels(After(s, worst), sel) == MostOpen(s, sel)
  {
    hide Inv, CountOf, CanRun, After, TakesOutNone, CanBeFilled;
    ReachableInv(s);
    forall steps: seq<Step> | CanRun(s, steps) && TakesOutNone(s, steps, sel)
      ensures OpenChannels(After(s, steps), sel) <= MostOpen(s, sel)
    {
      NeverMoreThanMost(s, steps, sel);
    }
    if CanBeFilled(s, sel) {
      worst := Fill(s, sel);
    } else {
      worst := [];
      NoStep(s, sel);
    }
  }

  /** When the limits bound channels, and not just guards. If no more streams are taken out, the open channels of a
      peer and direction, or of a protocol, stay within the limit in every continuation if and only if the guards
      that can be live at once leave room for the streams that were taken out and are open; if such channels can no
      longer come, if and only if there are not too many now. Where guards alone can fill the limit, that is: if and
      only if no such stream is open. */
  lemma LimitBoundsChannelsIff(s: Flow, sel: Selector)
    requires Reachable(s)
    ensures StaysWithin(s, sel) <==> MostOpen(s, sel) <= LimitOf(s.limits, sel)
    ensures CountOf(s.streams, sel) == 0 ==> StaysWithin(s, sel)
    ensures CanBeFilled(s, sel) && MostLive(s, sel) == LimitOf(s.limits, sel) ==>
              (StaysWithin(s, sel) <==> CountOf(s.streams, sel) == 0)
  {
    hide Inv, CountOf, CanRun, After, TakesOutNone, CanBeFilled;
    ReachableInv(s);
    LiveIsWithin(s, sel);
    var worst := MostOpenIsExact(s, sel);
  }

  /** Whether one may take the stream out of a handle and still rely on the limit, told before the call. */
  lemma TakingOutKeepsLimitIff(s: Flow, id: nat, sel: Selector)
    requires Reachable(s) && Enabled(s, IntoStream(id)) && Matches(sel, s.guards[id])
    ensures StaysWithin(Next(s, IntoStream(id)), sel) <==>
              (if CanBeFilled(s, sel) then MostLive(s, sel) + CountOf(s.streams, sel) + 1 else OpenChannels(s, sel))
              <= LimitOf(s.limits, sel)
  {
    hide StaysWithin, Counted, Held, CountOf, Released, Reachable;
    var s' := Next(s, IntoStream(id));
    StepIsReachable(s, IntoStream(id));
    LimitBoundsChannelsIff(s', sel);
    ReachableInv(s);
    UnpackHeld(s, id, 0);
    CountAfterDrop(s.live, id, sel);
    CountAfterIssue(s.streams, id, s.guards[id], sel);
  }

  lemma StepIsReachable(s: Flow, step: Step)
    requires Reachable(s) && Enabled(s, step)
    ensures Reachable(Next(s, step))
  {
    hide Next, Enabled;
    var start := Initial(s.limits, s.accepted);
    var steps: seq<Step> :| CanRun(start, steps) && After(start, steps) == s;
    StreamsFrame(s, step);
    Append(start, steps, step);
  }

  lemma {:induction false} Append(s: Flow, steps: seq<Step>, step: Step)
    requires CanRun(s, steps) && Enabled(After(s, steps), step)
    ensures CanRun(s, steps + [step]) && After(s, steps + [step]) == Next(After(s, steps), step)
    decreases |steps|
  {
    hide Next, Enabled;
    if steps == [] {
      assert [step][1..] == [];
    } else {
      assert (steps + [step])[1..] == steps[1..] + [step];
      Append(Next(s, steps[0]), steps[1..], step);
    }
  }

  // ----- a run that exceeds the limits

  /** Any number of streams of one peer and protocol can be open at once, under any limits that admit a channel. */
  lemma {:induction false} StreamsMayExceedLimit(limits: Limits, accepted: set<Protocol>, peer: PeerId,
                                                 protocol: Protocol, n: nat)
    returns (steps: seq<Step>)
    requires limits.maxInboundPerPeer >= 1 && limits.maxPerProtocol >= 1 && protocol in accepted
    ensures var start := Initial(limits, accepted);
            && CanRun(start, steps) && IsIdle(After(start, steps), limits, accepted)
            && CountOf(After(start, steps).streams, FromPeer(peer)) == n
            && CountOf(After(start, steps).streams, OnProtocol(protocol)) == n
  {
    hide Next, Enabled, Inv;
    var start := Initial(limits, accepted);
    InitialInv(limits, accepted);
    if n == 0 {
      steps := [];
      assert Matching(map[], FromPeer(peer)) == {} && Matching(map[], OnProtocol(protocol)) == {};
    } else {
      var before := StreamsMayExceedLimit(limits, accepted, peer, protocol, n - 1);
      InvAlong(start, before);
      var s := After(start, before);
      OneStream(s, limits, accepted, peer, protocol);
      Append(start, before, Arrive(peer, protocol));
      Append(start, before + [Arrive(peer, protocol)], Receive);
      Append(start, before + [Arrive(peer, protocol)] + [Receive], IntoStream(s.issued));
      steps := before + [Arrive(peer, protocol)] + [Receive] + [IntoStream(s.issued)];
    }
  }

  /** Nothing is held and nothing counted. */
  predicate IsIdle(s: Flow, limits: Limits, accepted: set<Protocol>) {
    && s.counters == NoCounters && s.limits == limits && s.accepted == accepted && s.receiverOpen && s.queue == []
    && s.handles == {}
  }

  lemma OneStream(s: Flow, limits: Limits, accepted: set<Protocol>, peer: PeerId, protocol: Protocol)
    requires Inv(s) && IsIdle(s, limits, accepted) && limits.maxInboundPerPeer >= 1 && limits.maxPerProtocol >= 1
    requires protocol in accepted
    ensures Enabled(s, Arrive(peer, protocol))
    ensures var s1 := Next(s, Arrive(peer, protocol));
            && Enabled(s1, Receive)
            && var s2 := Next(s1, Receive);
               && Enabled(s2, IntoStream(s.issued))
               && var s3 := Next(s2, IntoStream(s.issued));
                  && IsIdle(s3, limits, accepted)
                  && CountOf(s3.streams, FromPeer(peer)) == CountOf(s.streams, FromPeer(peer)) + 1
                  && CountOf(s3.streams, OnProtocol(protocol)) == CountOf(s.streams, OnProtocol(protocol)) + 1
  {
    hide Held, CountOf;
    var g := Guard(peer, protocol, Inbound);
    AcquireThenRelease(g);
    UnpackHeld(s, s.issued, 0);
    CountAfterIssue(s.streams, s.issued, g, FromPeer(peer));
    CountAfterIssue(s.streams, s.issued, g, OnProtocol(protocol));
    var s1 := Next(s, Arrive(peer, protocol));
    assert s1.queue == [s.issued] && s1.queue[1..] == [];
    assert {} + {s.issued} == {s.issued} && {s.issued} - {s.issued} == {};
  }

  lemma AcquireThenRelease(g: Guard)
    requires g.direction.Inbound?
    ensures Released(Acquired(NoCounters, g), g) == NoCounters
  {
    assert Bumped(map[], g.peer) == map[g.peer := 1] && Bumped(map[], g.protocol) == map[g.protocol := 1];
    assert map[g.peer := 1] - {g.peer} == map[];
    assert map[g.protocol := 1] - {g.protocol} == map[];
  }
}
