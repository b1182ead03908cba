/** The one-shot reply to an inbound request: its response channel goes through the pending map, an unsent
    future, the command queue and the command, with entries expiring in between. */
module Replies {
  import opened Types
  import opened PendingMap
  import opened Commands

  /** Pending identifiers are 64-bit and wrap around. */
  const ID_SPACE: nat := 0x1_0000_0000_0000_0000

  datatype Place = InMap(id: nat) | InFuture(f: TaskId) | InQueue | Submitted | Gone

  datatype Traffic = Traffic(
    pending: map<nat, Entry<ReplyChannel>>,
    counter: nat,
    unsent: map<TaskId, ReplyChannel>,
    queue: seq<ReplyChannel>,
    clock: nat,
    lastPurge: nat,
    ttl: nat,
    interval: nat,
    // History: number of inbound requests (the n-th has channel n), channels on which the swarm took a response,
    // channels lost without one, and where each channel is.
    arrived: nat,
    submitted: seq<ReplyChannel>,
    dropped: set<ReplyChannel>,
    place: map<ReplyChannel, Place>)

  datatype Step =
    | Tick(d: nat)
    | Arrive
    | Take(id: nat, f: TaskId)
    | DropUnsent(f: TaskId)
    | Send(f: TaskId, accepted: bool)
    | RunReply(sent: bool)
    | Purge

  function Initial(ttl: nat, interval: nat): Traffic {
    Traffic(map[], 0, map[], [], 0, 0, ttl, interval, 0, [], {}, map[])
  }

  /** Purges are at most `interval` apart. */
  predicate Enabled(s: Traffic, step: Step) {
    match step
    case Tick(d) => s.clock + d <= s.lastPurge + s.interval
    case Take(id, f) => f !in s.unsent
    case DropUnsent(f) => f in s.unsent
    case Send(f, _) => f in s.unsent
    case RunReply(_) => s.queue != []
    case _ => true
  }

  /** `fetch_add` on the 64-bit counter. */
  function NextCounter(counter: nat): nat { (counter + 1) % ID_SPACE }

  function Arrived(s: Traffic): Traffic {
    var id := s.counter;
    var n := s.arrived;
    var overwritten := if id in s.pending then {s.pending[id].value} else {};
    s.(pending := s.pending[id := Entry(n, s.clock)], counter := NextCounter(id), arrived := n + 1,
       dropped := s.dropped + overwritten,
       place := (if id in s.pending then s.place[s.pending[id].value := Gone] else s.place)[n := InMap(id)])
  }

  /** An unknown or expired id takes nothing. */
  function Taken(s: Traffic, id: nat, f: TaskId): Traffic {
    if id !in s.pending then s else
    var n := s.pending[id].value;
    s.(pending := s.pending - {id}, unsent := s.unsent[f := n], place := s.place[n := InFuture(f)])
  }

  function Purged(s: Traffic): Traffic {
    var kept := Unexpired(s.pending, s.clock, s.ttl);
    var lost := set id | id in s.pending && id !in kept :: s.pending[id].value;
    s.(pending := kept, lastPurge := s.clock, dropped := s.dropped + lost,
       place := map n | n in s.place :: if n in lost then Gone else s.place[n])
  }

  function Next(s: Traffic, step: Step): Traffic
    requires Enabled(s, step)
  {
    match step
    case Tick(d) => s.(clock := s.clock + d)
    case Arrive => Arrived(s)
    case Take(id, f) => Taken(s, id, f)
    case DropUnsent(f) =>
      var n := s.unsent[f];
      s.(unsent := s.unsent - {f}, dropped := s.dropped + {n}, place := s.place[n := Gone])
    case Send(f, accepted) =>
      var n := s.unsent[f];
      if accepted then s.(unsent := s.unsent - {f}, queue := s.queue + [n], place := s.place[n := InQueue])
      else s.(unsent := s.unsent - {f}, dropped := s.dropped + {n}, place := s.place[n := Gone])
    case RunReply(sent) =>
      var n := s.queue[0];
      if sent then s.(queue := s.queue[1..], submitted := s.submitted + [n], place := s.place[n := Submitted])
      else s.(queue := s.queue[1..], dropped := s.dropped + {n}, place := s.place[n := Gone])
    case Purge => Purged(s)
  }

  // ----- the invariant

  predicate HeldAt(s: Traffic, at: Place, n: ReplyChannel) {
    match at
    case InMap(id) => id in s.pending && s.pending[id].value == n
    case InFuture(f) => f in s.unsent && s.unsent[f] == n
    case InQueue => n in s.queue
    case Submitted => n in s.submitted
    case Gone => n in s.dropped
  }

  predicate Distinct(q: seq<ReplyChannel>) {
    forall i, j :: 0 <= i < j < |q| ==> q[i] != q[j]
  }

  /** The channel is in its recorded place, and in no other. */
  ghost predicate Located(s: Traffic, at: Place, n: ReplyChannel) {
    HeldAt(s, at, n) <==> n in s.place && s.place[n] == at
  }

  ghost predicate Linear(s: Traffic) {
    && (forall n: nat :: n in s.place <==> n < s.arrived)
    && (forall at, n :: Located(s, at, n))
    && Distinct(s.queue) && Distinct(s.submitted)
    && s.counter == s.arrived % ID_SPACE
    && (forall id :: id in s.pending ==> s.pending[id].value % ID_SPACE == id)
  }

  ghost predicate Timely(s: Traffic) {
    && s.lastPurge <= s.clock <= s.lastPurge + s.interval
    && (forall id :: id in s.pending ==>
          && s.pending[id].createdAt <= s.clock
          && (s.pending[id].createdAt >= s.lastPurge || s.lastPurge - s.pending[id].createdAt < s.ttl))
  }

  ghost predicate Inv(s: Traffic) { Linear(s) && Timely(s) }

  lemma UnpackLinear(s: Traffic, at: Place, n: ReplyChannel)
    requires Linear(s)
    ensures Located(s, at, n) && (n in s.place <==> n < s.arrived)
  {
  }

  lemma CounterWraps(n: nat)
    ensures NextCounter(n % ID_SPACE) == (n + 1) % ID_SPACE
  {
  }

  lemma ArriveLocated(s: Traffic, at: Place, n: ReplyChannel)
    requires Linear(s)
    ensures Located(Arrived(s), at, n)
  {
    UnpackLinear(s, at, n);
    UnpackLinear(s, at, s.arrived);
    UnpackLinear(s, InMap(s.counter), s.arrived);
    if s.counter in s.pending {
      UnpackLinear(s, InMap(s.counter), s.pending[s.counter].value);
      UnpackLinear(s, at, s.pending[s.counter].value);
    }
    hide Linear;
  }

  lemma TakeLocated(s: Traffic, id: nat, f: TaskId, at: Place, n: ReplyChannel)
    requires Linear(s) && f !in s.unsent
    ensures Located(Taken(s, id, f), at, n)
  {
    UnpackLinear(s, at, n);
    if id in s.pending {
      UnpackLinear(s, InMap(id), s.pending[id].value);
      UnpackLinear(s, at, s.pending[id].value);
    }
    hide Linear;
  }

  lemma PurgeLocated(s: Traffic, at: Place, n: ReplyChannel)
    requires Linear(s)
    ensures Located(Purged(s), at, n)
  {
    UnpackLinear(s, at, n);
    if n in s.place && s.place[n].InMap? { UnpackLinear(s, s.place[n], n); }
    if at.InMap? && at.id in s.pending { UnpackLinear(s, at, s.pending[at.id].value); }
    forall id | id in s.pending && s.pending[id].value == n ensures n in s.place && s.place[n] == InMap(id) {
      UnpackLinear(s, InMap(id), n);
    }
    hide Linear;
  }

  lemma HeadOfQueue(q: seq<ReplyChannel>, n: ReplyChannel)
    requires q != [] && Distinct(q)
    ensures n in q[1..] <==> n in q && n != q[0]
    ensures Distinct(q[1..])
  {
    if n in q && n != q[0] {
      var i :| 0 <= i < |q| && q[i] == n;
      assert q[1..][i - 1] == n;
    }
  }

  lemma ReplyLocated(s: Traffic, step: Step, at: Place, n: ReplyChannel)
    requires Linear(s) && Enabled(s, step) && (step.DropUnsent? || step.Send? || step.RunReply?)
    ensures Located(Next(s, step), at, n)
  {
    var m := if step.RunReply? then s.queue[0] else s.unsent[step.f];
    UnpackLinear(s, at, n);
    UnpackLinear(s, at, m);
    UnpackLinear(s, if step.RunReply? then InQueue else InFuture(step.f), m);
    if s.queue != [] { HeadOfQueue(s.queue, n); }
    hide Linear, Distinct;
  }

  lemma PlacesCovered(s: Traffic, step: Step)
    requires Linear(s) && Enabled(s, step)
    ensures var s' := Next(s, step); forall n: nat :: n in s'.place <==> n < s'.arrived
  {
    match step
    case Send(f, _) => UnpackLinear(s, InFuture(f), s.unsent[f]);
    case DropUnsent(f) => UnpackLinear(s, InFuture(f), s.unsent[f]);
    case RunReply(_) => UnpackLinear(s, InQueue, s.queue[0]);
    case Take(id, _) => if id in s.pending { UnpackLinear(s, InMap(id), s.pending[id].value); }
    case Arrive =>
      if s.counter in s.pending { UnpackLinear(s, InMap(s.counter), s.pending[s.counter].value); }
      forall n: nat ensures n in Arrived(s).place <==> n in s.place || n == s.arrived {}
    case Purge => forall n: nat ensures n in Purged(s).place <==> n in s.place {}
    case _ =>
  }

  lemma ListsDistinct(s: Traffic, step: Step)
    requires Linear(s) && Enabled(s, step)
    ensures var s' := Next(s, step); Distinct(s'.queue) && Distinct(s'.submitted)
  {
    match step
    case Send(f, accepted) =>
      UnpackLinear(s, InFuture(f), s.unsent[f]);
      UnpackLinear(s, InQueue, s.unsent[f]);
    case RunReply(_) =>
      HeadOfQueue(s.queue, s.queue[0]);
      UnpackLinear(s, InQueue, s.queue[0]);
      UnpackLinear(s, Submitted, s.queue[0]);
    case _ =>
  }

  lemma LinearKept(s: Traffic, step: Step)
    requires Linear(s) && Enabled(s, step)
    ensures Linear(Next(s, step))
  {
    var s' := Next(s, step);
    CounterWraps(s.arrived);
    PlacesCovered(s, step);
    ListsDistinct(s, step);
    hide Distinct, HeldAt;
    forall at, n ensures Located(s', at, n) {
      match step {
        case Arrive => ArriveLocated(s, at, n);
        case Take(id, f) => TakeLocated(s, id, f, at, n);
        case Purge => PurgeLocated(s, at, n);
        case Tick(_) => UnpackLinear(s, at, n); TickLocated(s, step.d, at, n);
        case _ => ReplyLocated(s, step, at, n);
      }
    }
  }

  lemma TickLocated(s: Traffic, d: nat, at: Place, n: ReplyChannel)
    requires Located(s, at, n)
    ensures Located(s.(clock := s.clock + d), at, n)
  {
  }

  lemma TimelyKept(s: Traffic, step: Step)
    requires Timely(s) && Enabled(s, step)
    ensures Timely(Next(s, step))
  {
  }

  // ----- whole runs

  ghost predicate CanRun(s: Traffic, steps: seq<Step>)
    decreases |steps|
  {
    steps == [] || (Enabled(s, steps[0]) && CanRun(Next(s, steps[0]), steps[1..]))
  }

  ghost function After(s: Traffic, steps: seq<Step>): Traffic
    requires CanRun(s, steps)
    decreases |steps|
  {
    if steps == [] then s else After(Next(s, steps[0]), steps[1..])
  }

  ghost predicate Reachable(s: Traffic) {
    exists steps: seq<Step> ::
      CanRun(Initial(s.ttl, s.interval), steps) && After(Initial(s.ttl, s.interval), steps) == s
  }

  lemma {:induction false} InvAlong(s: Traffic, steps: seq<Step>)
    requires Inv(s) && CanRun(s, steps)
    ensures Inv(After(s, steps))
    decreases |steps|
  {
    hide Next, Enabled, Linear, Timely;
    if steps != [] {
      LinearKept(s, steps[0]);
      TimelyKept(s, steps[0]);
      InvAlong(Next(s, steps[0]), steps[1..]);
    }
  }

  lemma InitialInv(ttl: nat, interval: nat)
    ensures Inv(Initial(ttl, interval))
  {
    var s := Initial(ttl, interval);
    assert Linear(s) by {
      forall at, n ensures Located(s, at, n) {}
      forall n: nat ensures n in s.place <==> n < s.arrived {}
    }
    assert Timely(s);
  }

  lemma ReachableInv(s: Traffic)
    requires Reachable(s)
    ensures Inv(s)
  {
    InitialInv(s.ttl, s.interval);
    hide Next, Enabled, Inv;
    var steps: seq<Step> :|
      CanRun(Initial(s.ttl, s.interval), steps) && After(Initial(s.ttl, s.interval), steps) == s;
    InvAlong(Initial(s.ttl, s.interval), steps);
  }

  /** In every interleaving, the response channel of each inbound request is in exactly one place. */
  lemma ChannelIsInOnePlace(s: Traffic, n: ReplyChannel)
    requires Reachable(s) && n < s.arrived
    ensures exists at :: HeldAt(s, at, n) && forall other :: HeldAt(s, other, n) ==> other == at
  {
    ReachableInv(s);
    assert n in s.place;
    UnpackLinear(s, s.place[n], n);
    forall at | HeldAt(s, at, n) ensures at == s.place[n] {
      UnpackLinear(s, at, n);
    }
  }

  /** At most one response per inbound request reaches the swarm. */
  lemma AtMostOneReply(s: Traffic, n: ReplyChannel)
    requires Reachable(s)
    ensures multiset(s.submitted)[n] <= 1
    ensures n in s.submitted ==> n < s.arrived && n !in s.dropped && n !in s.queue
  {
    ReachableInv(s);
    UnpackLinear(s, Submitted, n);
    UnpackLinear(s, Gone, n);
    UnpackLinear(s, InQueue, n);
    DistinctCount(s.submitted, n);
  }

  lemma {:induction false} DistinctCount(q: seq<ReplyChannel>, n: ReplyChannel)
    requires Distinct(q)
    ensures multiset(q)[n] <= 1
  {
    if q != [] {
      HeadOfQueue(q, n);
      DistinctCount(q[1..], n);
      assert q == [q[0]] + q[1..];
    }
  }

  /** The command that runs a reply tells its caller Ok exactly if the response of that request reaches the swarm with
      this run, and that the channel was closed exactly if it is lost with it. */
  lemma CallerLearnsTheTruth(s: Traffic, response: Response, env: RunEnv)
    requires Reachable(s) && s.queue != []
    ensures var n := s.queue[0];
            var finish := Run(SendResponse(Some(n), Some(response)), env).finish;
            var s' := Next(s, RunReply(env.refused.None?));
            && n !in s.submitted && n !in s.dropped
            && (finish == Some(Ok(Unit)) <==> n in s'.submitted)
            && (finish == Some(Err(ReplyChannelClosed)) <==> n in s'.dropped)
  {
    hide Run, Linear, Timely;
    ReachableInv(s);
    ReplyTellsAcceptance(s.queue[0], response, env);
    UnpackLinear(s, InQueue, s.queue[0]);
    UnpackLinear(s, Submitted, s.queue[0]);
    UnpackLinear(s, Gone, s.queue[0]);
  }

  /** A submitted or dropped channel stays so: the swarm is given no second response for it. */
  lemma RepliesAreFinal(s: Traffic, step: Step, n: ReplyChannel)
    requires Reachable(s) && Enabled(s, step) && (n in s.submitted || n in s.dropped)
    ensures multiset(Next(s, step).submitted)[n] == multiset(s.submitted)[n]
  {
    ReachableInv(s);
    UnpackLinear(s, Submitted, n);
    UnpackLinear(s, Gone, n);
    UnpackLinear(s, InQueue, n);
    hide Linear, Timely;
  }

  lemma StepIsReachable(s: Traffic, step: Step)
    requires Reachable(s) && Enabled(s, step)
    ensures Reachable(Next(s, step))
  {
    var start := Initial(s.ttl, s.interval);
    assert Next(s, step).ttl == s.ttl && Next(s, step).interval == s.interval;
    hide Next, Enabled;
    var steps: seq<Step> :| CanRun(start, steps) && After(start, steps) == s;
    Append(start, steps, step);
    assert CanRun(start, steps + [step]);
  }

  lemma {:induction false} Append(s: Traffic, steps: seq<Step>, step: Step)
    requires CanRun(s, steps) && Enabled(After(s, steps), step)
    ensures CanRun(s, steps + [step]) && After(s, steps + [step]) == Next(After(s, steps), step)
    decreases |steps|
  {
    hide Next, Enabled;
    if steps == [] {
      assert [step][1..] == [];
    } else {
      assert (steps + [step])[1..] == steps[1..] + [step];
      Append(Next(s, steps[0]), steps[1..], step);
    }
  }

  /** Any number of requests can arrive at once; up to 2^64 of them leave the first one's channel pending. */
  lemma {:induction false} RequestsArrive(ttl: nat, interval: nat, n: nat) returns (s: Traffic)
    ensures Reachable(s) && s.ttl == ttl && s.interval == interval
    ensures s.arrived == n && s.counter == n % ID_SPACE
    ensures 0 < n <= ID_SPACE ==> 0 in s.pending && s.pending[0].value == 0
  {
    hide Reachable;
    if n == 0 {
      s := Initial(ttl, interval);
      InitialIsReachable(ttl, interval);
    } else {
      var before := RequestsArrive(ttl, interval, n - 1);
      StepIsReachable(before, Arrive);
      CounterWraps(n - 1);
      s := Next(before, Arrive);
    }
  }

  lemma InitialIsReachable(ttl: nat, interval: nat)
    ensures Reachable(Initial(ttl, interval))
  {
    var s := Initial(ttl, interval);
    assert CanRun(s, []) && After(s, []) == s;
  }

  /** A run that wraps: the request after the first 2^64 is given the id of the first one, whose channel is lost. */
  lemma WrapOverwrites(ttl: nat, interval: nat) returns (s: Traffic)
    ensures Reachable(s) && s.arrived == ID_SPACE && HeldAt(s, InMap(0), 0)
    ensures var s' := Next(s, Arrive); HeldAt(s', InMap(0), ID_SPACE) && HeldAt(s', Gone, 0)
  {
    hide Reachable;
    s := RequestsArrive(ttl, interval, ID_SPACE);
  }

  /** The pending id given to the next request was given before exactly if 2^64 requests have arrived. */
  lemma IdIsReusedAfterWrap(s: Traffic)
    requires Reachable(s)
    ensures (exists m: nat :: m < s.arrived && m % ID_SPACE == s.counter) <==> s.arrived >= ID_SPACE
  {
    ReachableInv(s);
    if s.arrived >= ID_SPACE {
      var m: nat := s.arrived - ID_SPACE;
      assert m % ID_SPACE == s.counter;
    }
  }

  /** Inserting the next request overwrites an entry exactly if the entry of a request 2^64, or a multiple of
      that, before it is still pending; so with fewer than 2^64 requests nothing is ever overwritten. */
  lemma InsertOverwritesOnlyAfterWrap(s: Traffic)
    requires Reachable(s)
    ensures s.counter in s.pending <==>
              exists m: nat :: m < s.arrived && m % ID_SPACE == s.arrived % ID_SPACE && HeldAt(s, InMap(s.counter), m)
    ensures s.arrived < ID_SPACE ==> s.counter !in s.pending && s.counter == s.arrived
  {
    ReachableInv(s);
    if s.counter in s.pending {
      var m := s.pending[s.counter].value;
      UnpackLinear(s, InMap(s.counter), m);
      assert m < s.arrived && m % ID_SPACE == s.arrived % ID_SPACE && HeldAt(s, InMap(s.counter), m);
    }
  }

  /** Bounded life: an entry that nobody takes is never older than the time to live plus the purge interval. */
  lemma EntriesHaveBoundedLife(s: Traffic, id: nat)
    requires Reachable(s) && id in s.pending
    ensures Age(s.clock, s.pending[id].createdAt) <= s.ttl + s.interval
  {
    ReachableInv(s);
  }

  /** An entry younger than the time to live is lost only by being taken, or overwritten after a wrap. */
  lemma YoungEntriesAreKept(s: Traffic, step: Step, id: nat)
    requires Reachable(s) && Enabled(s, step) && id in s.pending
    requires Age(s.clock, s.pending[id].createdAt) < s.ttl
    ensures (id in Next(s, step).pending && Next(s, step).pending[id] == s.pending[id])
            || (step.Take? && step.id == id)
            || (step.Arrive? && s.counter == id && s.arrived >= ID_SPACE)
  {
    if step.Arrive? && s.counter == id {
      InsertOverwritesOnlyAfterWrap(s);
    }
  }
}
