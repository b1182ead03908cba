/** The consume-or-pass chain: one swarm event offered to the active commands, which shrink by
    `swap_remove` while they are walked. */
module Chain {
  import opened Types
  import opened Commands
  import opened Bags

  /** An active command; the task id names the future and the result cell it belongs to. */
  datatype Task = Task(id: TaskId, cmd: Cmd)

  datatype Write = Write(id: TaskId, outcome: Outcome)

  /** `offered` lists the commands that were shown the event, as they were before; the walk ended at
      index `stop` of the surviving list. */
  datatype ChainResult = ChainResult(survivors: seq<Task>, stop: nat, leftover: Option<Event>,
                                     writes: seq<Write>, offered: seq<Task>)

  function WritesOf(t: Task, r: Reaction): seq<Write> {
    if r.finish.Some? then [Write(t.id, r.finish.value)] else []
  }

  /** One iteration: the list and the index after offering the event to the command at `i`. */
  function Stepped(active: seq<Task>, i: nat, r: Reaction): (next: (seq<Task>, nat))
    requires i < |active|
    ensures next.1 <= |next.0| && |next.0| - next.1 < |active| - i
  {
    if r.keep then (active[i := Task(active[i].id, r.cmd)], i + 1) else (SwapRemove(active, i), i)
  }

  /** The rest of the walk, from index `i` with `remaining` still to be offered. */
  function ChainFrom(active: seq<Task>, i: nat, remaining: Option<Event>): ChainResult
    decreases |active| - i
  {
    if i >= |active| || remaining.None? then ChainResult(active, i, remaining, [], []) else
    var t := active[i];
    var r := OnEvent(t.cmd, remaining.value);
    var (active', i') := Stepped(active, i, r);
    var rest := ChainFrom(active', i', r.remaining);
    ChainResult(rest.survivors, rest.stop, rest.leftover, WritesOf(t, r) + rest.writes, [t] + rest.offered)
  }

  lemma ChainOneStep(active: seq<Task>, i: nat, ev: Event)
    requires i < |active|
    ensures var r := OnEvent(active[i].cmd, ev);
            var (active', i') := Stepped(active, i, r);
            var c, rest := ChainFrom(active, i, Some(ev)), ChainFrom(active', i', r.remaining);
            && c.survivors == rest.survivors && c.leftover == rest.leftover
            && c.writes == WritesOf(active[i], r) + rest.writes
  {
    hide OnEvent, Stepped;
  }

  lemma ChainAtEnd(active: seq<Task>, i: nat, remaining: Option<Event>)
    requires i >= |active| || remaining.None?
    ensures ChainFrom(active, i, remaining) == ChainResult(active, i, remaining, [], [])
  {
  }

  // ----- what the walk does, without its order

  /** What offering the event to one command leaves in the list, and what it stores. */
  function KeptOf(t: Task, ev: Event): multiset<Task> {
    if OnEvent(t.cmd, ev).keep then multiset{Task(t.id, OnEvent(t.cmd, ev).cmd)} else multiset{}
  }

  function Kept(ev: Event): Task -> multiset<Task> {
    (t: Task) => KeptOf(t, ev)
  }

  function Stored(ev: Event): Task -> multiset<Write> {
    (t: Task) => multiset(WritesOf(t, OnEvent(t.cmd, ev)))
  }

  lemma SteppedAccounts(active: seq<Task>, i: nat, ev: Event)
    requires i < |active|
    ensures var (active', i') := Stepped(active, i, OnEvent(active[i].cmd, ev));
            && multiset(active'[i'..]) + multiset{active[i]} == multiset(active[i..])
            && multiset(active'[i'..]) == multiset(active[i + 1..])
            && multiset(active'[..i']) == multiset(active[..i]) + KeptOf(active[i], ev)
  {
    hide OnEvent;
    var r := OnEvent(active[i].cmd, ev);
    var (active', i') := Stepped(active, i, r);
    SwapRemoveTail(active, i);
    if r.keep {
      assert active'[..i'] == active[..i] + [Task(active[i].id, r.cmd)];
      assert active'[i'..] == active[i + 1..];
    }
  }

  /** The commands offered the event, together with those never reached, are the commands from `i` on,
      each exactly once; nobody is left unreached unless the event was consumed; and an event that is
      left over is the event that came in. */
  lemma {:induction false} EachIsOfferedOnce(active: seq<Task>, i: nat, ev: Event)
    requires i <= |active|
    ensures var c := ChainFrom(active, i, Some(ev));
            && c.stop <= |c.survivors|
            && multiset(c.offered) + multiset(c.survivors[c.stop..]) == multiset(active[i..])
            && c.leftover in {None, Some(ev)}
            && (c.leftover.Some? ==> c.stop == |c.survivors|)
    decreases |active| - i
  {
    hide OnEvent, CommandKey, EventKey;
    if i < |active| {
      var t := active[i];
      OnlyOwnEventsAreConsumed(t.cmd, ev);
      var r := OnEvent(t.cmd, ev);
      var (active', i') := Stepped(active, i, r);
      SteppedAccounts(active, i, ev);
      var rest := ChainFrom(active', i', r.remaining);
      if r.remaining.Some? {
        EachIsOfferedOnce(active', i', ev);
      }
      assert multiset([t] + rest.offered) == multiset{t} + multiset(rest.offered);
    }
  }

  /** The settled part of the surviving list is what the offered commands became, and the stored results
      are theirs. */
  lemma {:induction false} SurvivorsAreTheKept(active: seq<Task>, i: nat, ev: Event)
    requires i <= |active|
    ensures var c := ChainFrom(active, i, Some(ev));
            && c.stop <= |c.survivors|
            && multiset(c.survivors[..c.stop]) == multiset(active[..i]) + Collect(Kept(ev), c.offered)
            && multiset(c.writes) == Collect(Stored(ev), c.offered)
    decreases |active| - i
  {
    hide OnEvent, CommandKey, EventKey;
    if i < |active| {
      var t := active[i];
      OnlyOwnEventsAreConsumed(t.cmd, ev);
      var r := OnEvent(t.cmd, ev);
      var (active', i') := Stepped(active, i, r);
      SteppedAccounts(active, i, ev);
      var rest := ChainFrom(active', i', r.remaining);
      if r.remaining.Some? {
        SurvivorsAreTheKept(active', i', ev);
      }
      assert ([t] + rest.offered)[1..] == rest.offered;
    }
  }

  predicate Consumes(t: Task, ev: Event) { OnEvent(t.cmd, ev).remaining.None? }

  /** At most one active command waits for any given identifier. */
  predicate DistinctKeys(active: seq<Task>) {
    forall i, j :: 0 <= i < j < |active| && CommandKey(active[i].cmd).Some?
                   ==> CommandKey(active[i].cmd) != CommandKey(active[j].cmd)
  }

  /** Commands whose `on_event` is the default have completed in `run`; the others still wait. */
  function Waiting(t: Task): multiset<Task> {
    if HasDefaultOnEvent(t.cmd) then multiset{} else multiset{t}
  }

  function KeptWaiting(ev: Event): Task -> multiset<Task> {
    (t: Task) => if HasDefaultOnEvent(t.cmd) then multiset{} else KeptOf(t, ev)
  }

  lemma StepKeepsWaiting(c: Cmd, ev: Event)
    ensures HasDefaultOnEvent(OnEvent(c, ev).cmd) <==> HasDefaultOnEvent(c)
  {
  }

  /** Nobody in the list waits for the event's identifier. */
  predicate NoOwner(s: seq<Task>, ev: Event) {
    forall j :: 0 <= j < |s| ==> EventKey(ev).Some? && CommandKey(s[j].cmd) != EventKey(ev)
  }

  lemma ForeignTaskUnchanged(t: Task, ev: Event)
    requires EventKey(ev).Some? && CommandKey(t.cmd) != EventKey(ev)
    ensures KeptWaiting(ev)(t) == Waiting(t)
    ensures Stored(ev)(t) == multiset{}
  {
    hide OnEvent, CommandKey, EventKey;
    ForeignEventsChangeNothing(t.cmd, ev);
    assert Task(t.id, t.cmd) == t;
  }

  lemma {:induction false} NoOwnerNoEffect(s: seq<Task>, ev: Event)
    requires NoOwner(s, ev)
    ensures Collect(KeptWaiting(ev), s) == Collect(Waiting, s)
    ensures Collect(Stored(ev), s) == multiset{}
  {
    hide OnEvent, CommandKey, EventKey;
    if s != [] {
      ForeignTaskUnchanged(s[0], ev);
      assert forall j :: 0 <= j < |s[1..]| ==> s[1..][j] == s[j + 1];
      NoOwnerNoEffect(s[1..], ev);
    }
  }

  lemma OwnerIsUnique(active: seq<Task>, i: nat, ev: Event)
    requires i < |active| && DistinctKeys(active) && Consumes(active[i], ev)
    ensures NoOwner(active[i + 1..], ev)
  {
    OnlyOwnEventsAreConsumed(active[i].cmd, ev);
    var tail := active[i + 1..];
    assert forall j :: 0 <= j < |tail| ==> tail[j] == active[i + 1 + j];
  }

  lemma KeyAfterStep(c: Cmd, ev: Event)
    ensures CommandKey(OnEvent(c, ev).cmd) == CommandKey(c)
  {
  }

  /** Stepping one command and removing it keep identifiers apart. */
  lemma SteppedKeepsDistinctKeys(active: seq<Task>, i: nat, ev: Event)
    requires i < |active| && DistinctKeys(active)
    ensures DistinctKeys(Stepped(active, i, OnEvent(active[i].cmd, ev)).0)
  {
    hide OnEvent, CommandKey, EventKey;
    KeyAfterStep(active[i].cmd, ev);
  }

  /** One iteration moves the step of the command at `i` into the settled part of the list. */
  lemma SteppedMeaning(active: seq<Task>, i: nat, ev: Event)
    requires i < |active|
    ensures var (active', i') := Stepped(active, i, OnEvent(active[i].cmd, ev));
            Collect(Waiting, active'[..i']) == Collect(Waiting, active[..i]) + KeptWaiting(ev)(active[i])
  {
    hide OnEvent, CommandKey, EventKey;
    var t := active[i];
    var r := OnEvent(t.cmd, ev);
    var (active', i') := Stepped(active, i, r);
    StepKeepsWaiting(t.cmd, ev);
    if r.keep {
      assert active'[..i'] == active[..i] + [Task(t.id, r.cmd)];
      CollectConcat(Waiting, active[..i], [Task(t.id, r.cmd)]);
      CollectOne(Waiting, Task(t.id, r.cmd));
    }
  }

  lemma CollectHead<U>(f: Task -> multiset<U>, s: seq<Task>, i: nat)
    requires i < |s|
    ensures Collect(f, s[i..]) == f(s[i]) + Collect(f, s[i + 1..])
  {
    assert s[i..][1..] == s[i + 1..];
  }

  lemma WaitingAfterConsumption(active: seq<Task>, i: nat, ev: Event)
    requires i < |active| && DistinctKeys(active) && Consumes(active[i], ev)
    ensures var active' := Stepped(active, i, OnEvent(active[i].cmd, ev)).0;
            Collect(Waiting, active') == Collect(Waiting, active[..i]) + Collect(KeptWaiting(ev), active[i..])
  {
    hide OnEvent, CommandKey, EventKey, Stepped, Collect, Waiting;
    var (active', i') := Stepped(active, i, OnEvent(active[i].cmd, ev));
    SteppedAccounts(active, i, ev);
    SteppedMeaning(active, i, ev);
    OwnerIsUnique(active, i, ev);
    NoOwnerNoEffect(active[i + 1..], ev);
    CollectPermutation(Waiting, active'[i'..], active[i + 1..]);
    CollectHead(KeptWaiting(ev), active, i);
    assert active' == active'[..i'] + active'[i'..];
    CollectConcat(Waiting, active'[..i'], active'[i'..]);
  }

  /** Which waiting commands remain after the walk, told without order. */
  lemma {:induction false} WaitingAfterChain(active: seq<Task>, i: nat, ev: Event)
    requires i <= |active| && DistinctKeys(active)
    ensures var c := ChainFrom(active, i, Some(ev));
            Collect(Waiting, c.survivors) == Collect(Waiting, active[..i]) + Collect(KeptWaiting(ev), active[i..])
    decreases |active| - i
  {
    hide OnEvent, CommandKey, EventKey, Stepped, Collect, Waiting;
    if i == |active| {
      assert active[..i] == active && active[i..] == [];
      CollectNothing(KeptWaiting(ev));
    } else {
      var r := OnEvent(active[i].cmd, ev);
      var (active', i') := Stepped(active, i, r);
      SteppedAccounts(active, i, ev);
      SteppedMeaning(active, i, ev);
      CollectHead(KeptWaiting(ev), active, i);
      OnlyOwnEventsAreConsumed(active[i].cmd, ev);
      if r.remaining.Some? {
        SteppedKeepsDistinctKeys(active, i, ev);
        WaitingAfterChain(active', i', ev);
        CollectPermutation(KeptWaiting(ev), active'[i'..], active[i + 1..]);
      } else {
        WaitingAfterConsumption(active, i, ev);
      }
    }
  }

  /** Which results the walk stores, told without order. */
  lemma {:induction false} StoredByChain(active: seq<Task>, i: nat, ev: Event)
    requires i <= |active| && DistinctKeys(active)
    ensures multiset(ChainFrom(active, i, Some(ev)).writes) == Collect(Stored(ev), active[i..])
    decreases |active| - i
  {
    hide OnEvent, CommandKey, EventKey;
    if i < |active| {
      var r := OnEvent(active[i].cmd, ev);
      var (active', i') := Stepped(active, i, r);
      SteppedAccounts(active, i, ev);
      CollectHead(Stored(ev), active, i);
      OnlyOwnEventsAreConsumed(active[i].cmd, ev);
      if r.remaining.Some? {
        SteppedKeepsDistinctKeys(active, i, ev);
        StoredByChain(active', i', ev);
        CollectPermutation(Stored(ev), active'[i'..], active[i + 1..]);
      } else {
        OwnerIsUnique(active, i, ev);
        NoOwnerNoEffect(active[i + 1..], ev);
      }
    }
  }

  /** The event is left over exactly if no command in the list consumes it. */
  predicate HasConsumer(s: seq<Task>, ev: Event) {
    exists j :: 0 <= j < |s| && Consumes(s[j], ev)
  }

  lemma ConsumerPermutation(a: seq<Task>, b: seq<Task>, ev: Event)
    requires multiset(a) == multiset(b) && HasConsumer(a, ev)
    ensures HasConsumer(b, ev)
  {
    hide OnEvent;
    var j :| 0 <= j < |a| && Consumes(a[j], ev);
    assert a[j] in multiset(b);
  }

  lemma {:induction false} LeftoverOfChain(active: seq<Task>, i: nat, ev: Event)
    requires i <= |active|
    ensures ChainFrom(active, i, Some(ev)).leftover == if HasConsumer(active[i..], ev) then None else Some(ev)
    decreases |active| - i
  {
    hide OnEvent, CommandKey, EventKey, Stepped;
    if i < |active| {
      var r := OnEvent(active[i].cmd, ev);
      var (active', i') := Stepped(active, i, r);
      SteppedAccounts(active, i, ev);
      OnlyOwnEventsAreConsumed(active[i].cmd, ev);
      assert active[i..] == [active[i]] + active[i + 1..];
      if r.remaining.Some? {
        LeftoverOfChain(active', i', ev);
        if HasConsumer(active'[i'..], ev) {
          ConsumerPermutation(active'[i'..], active[i + 1..], ev);
          var j :| 0 <= j < |active[i + 1..]| && Consumes(active[i + 1..][j], ev);
          assert active[i..][j + 1] == active[i + 1..][j];
        }
        if HasConsumer(active[i..], ev) {
          var j :| 0 <= j < |active[i..]| && Consumes(active[i..][j], ev);
          assert active[i + 1..][j - 1] == active[i..][j];
          ConsumerPermutation(active[i + 1..], active'[i'..], ev);
        }
      } else {
        assert Consumes(active[i..][0], ev);
      }
    }
  }

  lemma TwiceInBag(s: seq<Task>, i: nat, j: nat)
    requires i < j < |s| && s[i] == s[j]
    ensures multiset(s)[s[i]] >= 2
  {
    SplitAt(s, j);
    assert (s[..j] + s[j + 1..])[i] == s[i];
    assert s[i] in multiset(s[..j] + s[j + 1..]);
  }

  /** Two places of an element that occurs twice. */
  lemma TwoPlaces(s: seq<Task>, t: Task) returns (i: nat, j: nat)
    requires multiset(s)[t] >= 2
    ensures i < j < |s| && s[i] == s[j] == t
  {
    var k :| 0 <= k < |s| && s[k] == t;
    SplitAt(s, k);
    var rest := s[..k] + s[k + 1..];
    assert t in rest by { assert t in multiset(rest); }
    var l :| 0 <= l < |rest| && rest[l] == t;
    i, j := if l < k then l else k, if l < k then k else l + 1;
  }

  lemma DistinctKeysPermutation(a: seq<Task>, b: seq<Task>)
    requires multiset(a) == multiset(b) && DistinctKeys(a)
    ensures DistinctKeys(b)
  {
    hide CommandKey;
    forall i, j | 0 <= i < j < |b| && CommandKey(b[i].cmd).Some?
      ensures CommandKey(b[i].cmd) != CommandKey(b[j].cmd)
    {
      if b[i] == b[j] {
        TwiceInBag(b, i, j);
        var k, l := TwoPlaces(a, b[i]);
      } else {
        assert b[i] in multiset(a) && b[j] in multiset(a);
        var k :| 0 <= k < |a| && a[k] == b[i];
        var l :| 0 <= l < |a| && a[l] == b[j];
      }
    }
  }

  /** Routing does not depend on the order of the list, which earlier `swap_remove`s scramble: the same
      results are stored, the same waiting commands remain, and the same event is left over. */
  lemma RoutingIgnoresOrder(a: seq<Task>, b: seq<Task>, ev: Event)
    requires multiset(a) == multiset(b) && DistinctKeys(a)
    ensures var ca, cb := ChainFrom(a, 0, Some(ev)), ChainFrom(b, 0, Some(ev));
            && multiset(ca.writes) == multiset(cb.writes)
            && Collect(Waiting, ca.survivors) == Collect(Waiting, cb.survivors)
            && ca.leftover == cb.leftover
  {
    hide OnEvent, CommandKey, EventKey, ChainFrom, DistinctKeys;
    DistinctKeysPermutation(a, b);
    assert a[0..] == a && b[0..] == b;
    WaitingAfterChain(a, 0, ev);
    WaitingAfterChain(b, 0, ev);
    StoredByChain(a, 0, ev);
    StoredByChain(b, 0, ev);
    LeftoverOfChain(a, 0, ev);
    LeftoverOfChain(b, 0, ev);
    CollectPermutation(KeptWaiting(ev), a, b);
    CollectPermutation(Stored(ev), a, b);
    if HasConsumer(a, ev) { ConsumerPermutation(a, b, ev); }
    if HasConsumer(b, ev) { ConsumerPermutation(b, a, ev); }
  }

  /** One connection event completes every waiting dial: afterwards no dial of that peer is active, each
      one that was has been given Ok, dials of other peers remain as they were, and the event is left over
      for the frontend. */
  lemma ConnectionCompletesDials(active: seq<Task>, peer: PeerId, n: nat)
    ensures var c := ChainFrom(active, 0, Some(ConnectionEstablished(peer, n)));
            && c.leftover == Some(ConnectionEstablished(peer, n))
            && (forall t :: t in c.survivors ==> t.cmd != DialPeer(peer))
            && (forall t :: t in active && t.cmd == DialPeer(peer) ==> Write(t.id, Ok(Unit)) in c.writes)
            && (forall t: Task :: t.cmd.DialPeer? && t.cmd.peer != peer
                                  ==> multiset(c.survivors)[t] == multiset(active)[t])
  {
    hide ChainFrom, OnEvent, CommandKey, Collect, HasConsumer;
    var ev := ConnectionEstablished(peer, n);
    var c := ChainFrom(active, 0, Some(ev));
    NobodyConsumes(active, ev);
    LeftoverOfChain(active, 0, ev);
    EachIsOfferedOnce(active, 0, ev);
    SurvivorsAreTheKept(active, 0, ev);
    assert active[0..] == active && active[..0] == [];
    assert c.survivors[..c.stop] == c.survivors && c.survivors[c.stop..] == [];
    assert multiset(c.offered) == multiset(active);
    forall t | t in c.survivors ensures t.cmd != DialPeer(peer) {
      assert t in multiset(c.survivors);
      if t.cmd == DialPeer(peer) { DialsAmongKept(c.offered, t, peer, n); }
    }
    forall t: Task | t.cmd.DialPeer? && t.cmd.peer != peer
      ensures multiset(c.survivors)[t] == multiset(active)[t]
    {
      DialsAmongKept(c.offered, t, peer, n);
    }
    forall t | t in active && t.cmd == DialPeer(peer) ensures Write(t.id, Ok(Unit)) in c.writes {
      assert t in multiset(c.offered);
      DialIsWritten(c.offered, t, peer, n);
      assert Write(t.id, Ok(Unit)) in multiset(c.writes);
    }
  }

  lemma NobodyConsumes(s: seq<Task>, ev: Event)
    requires EventKey(ev).None?
    ensures !HasConsumer(s, ev)
  {
    hide OnEvent, EventKey;
    forall j | 0 <= j < |s| ensures !Consumes(s[j], ev) {
      OnlyOwnEventsAreConsumed(s[j].cmd, ev);
    }
  }

  lemma {:induction false} DialsAmongKept(s: seq<Task>, t: Task, peer: PeerId, n: nat)
    requires t.cmd.DialPeer?
    ensures Collect(Kept(ConnectionEstablished(peer, n)), s)[t] == if t.cmd.peer == peer then 0 else multiset(s)[t]
  {
    if s != [] {
      DialsAmongKept(s[1..], t, peer, n);
      assert s == [s[0]] + s[1..];
      DialKept(s[0], t, ConnectionEstablished(peer, n));
    }
  }

  lemma DialKept(s: Task, t: Task, ev: Event)
    requires t.cmd.DialPeer? && ev.ConnectionEstablished?
    ensures KeptOf(s, ev)[t] == if s == t && t.cmd.peer != ev.peer then 1 else 0
  {
    assert Task(s.id, s.cmd) == s;
  }

  lemma {:induction false} DialIsWritten(s: seq<Task>, t: Task, peer: PeerId, n: nat)
    requires t in s && t.cmd == DialPeer(peer)
    ensures Write(t.id, Ok(Unit)) in Collect(Stored(ConnectionEstablished(peer, n)), s)
  {
    if s[0] != t {
      DialIsWritten(s[1..], t, peer, n);
    }
  }
}
