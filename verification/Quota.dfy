/** Data-channel quotas: three counter maps, checked and incremented when a guard is issued, decremented when
    it is dropped. */
module Quota {
  import opened Types

  datatype Direction = Outbound | Inbound

  datatype Guard = Guard(peer: PeerId, protocol: Protocol, direction: Direction)

  datatype Limits = Limits(maxInboundPerPeer: nat, maxOutboundPerPeer: nat, maxPerProtocol: nat)

  datatype Counters = Counters(inbound: map<PeerId, nat>, outbound: map<PeerId, nat>, perProtocol: map<Protocol, nat>)

  const NoCounters := Counters(map[], map[], map[])

  function Get(m: map<nat, nat>, k: nat): nat {
    if k in m then m[k] else 0
  }

  function Bumped(m: map<nat, nat>, k: nat): map<nat, nat> {
    m[k := Get(m, k) + 1]
  }

  function SaturatingSub(c: nat, d: nat): nat {
    if c >= d then c - d else 0
  }

  function Lowered(m: map<nat, nat>, k: nat): map<nat, nat> {
    if k !in m then m
    else if SaturatingSub(m[k], 1) == 0 then m - {k}
    else m[k := SaturatingSub(m[k], 1)]
  }

  function PeerCount(c: Counters, g: Guard): nat {
    if g.direction.Inbound? then Get(c.inbound, g.peer) else Get(c.outbound, g.peer)
  }

  function PeerLimit(limits: Limits, d: Direction): nat {
    if d.Inbound? then limits.maxInboundPerPeer else limits.maxOutboundPerPeer
  }

  predicate Admits(limits: Limits, c: Counters, g: Guard) {
    PeerCount(c, g) < PeerLimit(limits, g.direction) && Get(c.perProtocol, g.protocol) < limits.maxPerProtocol
  }

  function Acquired(c: Counters, g: Guard): Counters {
    Counters(if g.direction.Inbound? then Bumped(c.inbound, g.peer) else c.inbound,
             if g.direction.Outbound? then Bumped(c.outbound, g.peer) else c.outbound,
             Bumped(c.perProtocol, g.protocol))
  }

  function Released(c: Counters, g: Guard): Counters {
    Counters(if g.direction.Inbound? then Lowered(c.inbound, g.peer) else c.inbound,
             if g.direction.Outbound? then Lowered(c.outbound, g.peer) else c.outbound,
             Lowered(c.perProtocol, g.protocol))
  }

  // ----- what the counters mean

  /** Live guards, by identity. */
  type Live = map<nat, Guard>

  datatype Selector = FromPeer(peer: PeerId) | ToPeer(peer: PeerId) | OnProtocol(protocol: Protocol)

  predicate Matches(sel: Selector, g: Guard) {
    match sel
    case FromPeer(p) => g.direction.Inbound? && g.peer == p
    case ToPeer(p) => g.direction.Outbound? && g.peer == p
    case OnProtocol(q) => g.protocol == q
  }

  function Matching(live: Live, sel: Selector): set<nat> {
    set id | id in live && Matches(sel, live[id])
  }

  function CountOf(live: Live, sel: Selector): nat {
    |Matching(live, sel)|
  }

  /** The map holds, for each key, the number of live guards selected by that key, and no zero entries. */
  ghost predicate MapCounts(m: map<nat, nat>, live: Live, sel: nat -> Selector) {
    forall k: nat :: Get(m, k) == CountOf(live, sel(k)) && (k in m ==> m[k] > 0)
  }

  ghost predicate Exact(c: Counters, live: Live) {
    && MapCounts(c.inbound, live, (p: nat) => FromPeer(p))
    && MapCounts(c.outbound, live, (p: nat) => ToPeer(p))
    && MapCounts(c.perProtocol, live, (q: nat) => OnProtocol(q))
  }

  /** No counter exceeds its limit. */
  ghost predicate Within(limits: Limits, live: Live) {
    && (forall p: PeerId :: CountOf(live, FromPeer(p)) <= limits.maxInboundPerPeer)
    && (forall p: PeerId :: CountOf(live, ToPeer(p)) <= limits.maxOutboundPerPeer)
    && (forall q: Protocol :: CountOf(live, OnProtocol(q)) <= limits.maxPerProtocol)
  }

  lemma CountAfterIssue(live: Live, id: nat, g: Guard, sel: Selector)
    requires id !in live
    ensures CountOf(live[id := g], sel) == CountOf(live, sel) + (if Matches(sel, g) then 1 else 0)
  {
    assert Matching(live[id := g], sel) == Matching(live, sel) + (if Matches(sel, g) then {id} else {});
  }

  lemma CountAfterDrop(live: Live, id: nat, sel: Selector)
    requires id in live
    ensures CountOf(live - {id}, sel) == CountOf(live, sel) - (if Matches(sel, live[id]) then 1 else 0)
  {
    assert Matching(live - {id}, sel) == Matching(live, sel) - (if Matches(sel, live[id]) then {id} else {});
  }

  lemma BumpCounts(m: map<nat, nat>, live: Live, sel: nat -> Selector, id: nat, g: Guard, key: nat)
    requires MapCounts(m, live, sel) && id !in live
    requires forall k: nat :: Matches(sel(k), g) <==> k == key
    ensures MapCounts(Bumped(m, key), live[id := g], sel)
  {
    forall k: nat ensures CountOf(live[id := g], sel(k)) == CountOf(live, sel(k)) + (if k == key then 1 else 0) {
      CountAfterIssue(live, id, g, sel(k));
    }
  }

  lemma LowerCounts(m: map<nat, nat>, live: Live, sel: nat -> Selector, id: nat, key: nat)
    requires MapCounts(m, live, sel) && id in live
    requires forall k: nat :: Matches(sel(k), live[id]) <==> k == key
    ensures MapCounts(Lowered(m, key), live - {id}, sel) && Get(m, key) > 0
  {
    forall k: nat ensures CountOf(live - {id}, sel(k)) == CountOf(live, sel(k)) - (if k == key then 1 else 0) {
      CountAfterDrop(live, id, sel(k));
    }
    assert CountOf(live, sel(key)) > 0 by { assert id in Matching(live, sel(key)); }
  }

  lemma UntouchedByIssue(m: map<nat, nat>, live: Live, sel: nat -> Selector, id: nat, g: Guard)
    requires MapCounts(m, live, sel) && id !in live && forall k: nat :: !Matches(sel(k), g)
    ensures MapCounts(m, live[id := g], sel)
  {
    forall k: nat ensures CountOf(live[id := g], sel(k)) == CountOf(live, sel(k)) {
      CountAfterIssue(live, id, g, sel(k));
    }
  }

  lemma UntouchedByDrop(m: map<nat, nat>, live: Live, sel: nat -> Selector, id: nat)
    requires MapCounts(m, live, sel) && id in live && forall k: nat :: !Matches(sel(k), live[id])
    ensures MapCounts(m, live - {id}, sel)
  {
    forall k: nat ensures CountOf(live - {id}, sel(k)) == CountOf(live, sel(k)) {
      CountAfterDrop(live, id, sel(k));
    }
  }

  /** Issuing a guard moves the counters to those of the live guards with it. */
  lemma AcquireExact(c: Counters, live: Live, id: nat, g: Guard)
    requires Exact(c, live) && id !in live
    ensures Exact(Acquired(c, g), live[id := g])
  {
    var from, to, on := (p: nat) => FromPeer(p), (p: nat) => ToPeer(p), (q: nat) => OnProtocol(q);
    BumpCounts(c.perProtocol, live, on, id, g, g.protocol);
    if g.direction.Inbound? {
      BumpCounts(c.inbound, live, from, id, g, g.peer);
      UntouchedByIssue(c.outbound, live, to, id, g);
    } else {
      BumpCounts(c.outbound, live, to, id, g, g.peer);
      UntouchedByIssue(c.inbound, live, from, id, g);
    }
  }

  /** Dropping a live guard moves the counters to those of the remaining guards; no subtraction saturates. */
  lemma ReleaseExact(c: Counters, live: Live, id: nat)
    requires Exact(c, live) && id in live
    ensures Exact(Released(c, live[id]), live - {id})
    ensures PeerCount(c, live[id]) >= 1 && Get(c.perProtocol, live[id].protocol) >= 1
  {
    var g := live[id];
    var from, to, on := (p: nat) => FromPeer(p), (p: nat) => ToPeer(p), (q: nat) => OnProtocol(q);
    LowerCounts(c.perProtocol, live, on, id, g.protocol);
    if g.direction.Inbound? {
      LowerCounts(c.inbound, live, from, id, g.peer);
      UntouchedByDrop(c.outbound, live, to, id);
    } else {
      LowerCounts(c.outbound, live, to, id, g.peer);
      UntouchedByDrop(c.inbound, live, from, id);
    }
  }

  function PeerSelector(g: Guard): Selector {
    if g.direction.Inbound? then FromPeer(g.peer) else ToPeer(g.peer)
  }

  /** Admission is refused exactly if live guards fill the limit of the peer and direction, or of the protocol. */
  lemma AdmissionIsExact(limits: Limits, c: Counters, live: Live, g: Guard)
    requires Exact(c, live)
    ensures !Admits(limits, c, g) <==>
              || CountOf(live, PeerSelector(g)) >= PeerLimit(limits, g.direction)
              || CountOf(live, OnProtocol(g.protocol)) >= limits.maxPerProtocol
  {
    var from, to, on := (p: nat) => FromPeer(p), (p: nat) => ToPeer(p), (q: nat) => OnProtocol(q);
    assert from(g.peer) == FromPeer(g.peer) && to(g.peer) == ToPeer(g.peer) && on(g.protocol) == OnProtocol(g.protocol);
  }

  lemma AcquireWithin(limits: Limits, c: Counters, live: Live, id: nat, g: Guard)
    requires Exact(c, live) && Within(limits, live) && Admits(limits, c, g) && id !in live
    ensures Within(limits, live[id := g])
  {
    AdmissionIsExact(limits, c, live, g);
    forall sel: Selector
      ensures CountOf(live[id := g], sel) == CountOf(live, sel) + (if Matches(sel, g) then 1 else 0)
    {
      CountAfterIssue(live, id, g, sel);
    }
  }

  lemma ReleaseWithin(limits: Limits, live: Live, id: nat)
    requires Within(limits, live) && id in live
    ensures Within(limits, live - {id})
  {
    forall sel: Selector ensures CountOf(live - {id}, sel) <= CountOf(live, sel) {
      CountAfterDrop(live, id, sel);
    }
  }

  lemma MapsAreUnique(m: map<nat, nat>, n: map<nat, nat>, live: Live, sel: nat -> Selector)
    requires MapCounts(m, live, sel) && MapCounts(n, live, sel)
    ensures m == n
  {
    forall k: nat ensures (k in m <==> k in n) && (k in m ==> m[k] == n[k]) {
      assert Get(m, k) == CountOf(live, sel(k)) == Get(n, k);
    }
  }

  /** The counters are determined by the live guards: however they came about, equal live guards have equal
      counters, and without live guards the maps are empty. */
  lemma CountersAreUnique(c: Counters, d: Counters, live: Live)
    requires Exact(c, live) && Exact(d, live)
    ensures c == d && (live == map[] ==> c == NoCounters)
  {
    MapsAreUnique(c.inbound, d.inbound, live, (p: nat) => FromPeer(p));
    MapsAreUnique(c.outbound, d.outbound, live, (p: nat) => ToPeer(p));
    MapsAreUnique(c.perProtocol, d.perProtocol, live, (q: nat) => OnProtocol(q));
    if live == map[] {
      EmptyExact();
      MapsAreUnique(c.inbound, map[], live, (p: nat) => FromPeer(p));
      MapsAreUnique(c.outbound, map[], live, (p: nat) => ToPeer(p));
      MapsAreUnique(c.perProtocol, map[], live, (q: nat) => OnProtocol(q));
    }
  }

  lemma EmptyExact()
    ensures Exact(NoCounters, map[])
  {
    forall sel: Selector ensures CountOf(map[], sel) == 0 {
      assert Matching(map[], sel) == {};
    }
  }

  // ----- sums

  ghost function PickKey(m: map<nat, nat>): nat
    requires m != map[]
  {
    assert m.Keys != {};
    var k :| k in m.Keys;
    k
  }

  ghost function Sum(m: map<nat, nat>): nat
    decreases |m|
  {
    if m == map[] then 0 else
    var k := PickKey(m);
    assert |m - {k}| < |m| by { assert (m - {k}).Keys == m.Keys - {k}; }
    m[k] + Sum(m - {k})
  }

  function KeyedBy(s: set<nat>, key: nat -> nat, k: nat): set<nat> {
    set x | x in s && key(x) == k
  }

  ghost predicate CountsKeys(m: map<nat, nat>, s: set<nat>, key: nat -> nat) {
    forall k: nat :: Get(m, k) == |KeyedBy(s, key, k)| && (k in m ==> m[k] > 0)
  }

  lemma NothingCounted(s: set<nat>, key: nat -> nat)
    requires CountsKeys(map[], s, key)
    ensures s == {}
  {
    forall x ensures x !in s {
      assert Get(map[], key(x)) == 0 == |KeyedBy(s, key, key(x))|;
      assert x in s ==> x in KeyedBy(s, key, key(x));
    }
  }

  lemma OneKeyLess(m: map<nat, nat>, s: set<nat>, key: nat -> nat, k: nat)
    requires CountsKeys(m, s, key) && k in m
    ensures CountsKeys(m - {k}, s - KeyedBy(s, key, k), key)
    ensures |s| == m[k] + |s - KeyedBy(s, key, k)|
  {
    var here := KeyedBy(s, key, k);
    forall j: nat ensures KeyedBy(s - here, key, j) == if j == k then {} else KeyedBy(s, key, j) {}
    assert Get(m, k) == |here|;
    assert s == here + (s - here);
  }

  /** A map that counts a set by keys sums to the size of the set. */
  lemma {:induction false} SumIsSize(m: map<nat, nat>, s: set<nat>, key: nat -> nat)
    requires CountsKeys(m, s, key)
    ensures Sum(m) == |s|
    decreases |m|
  {
    if m == map[] {
      NothingCounted(s, key);
    } else {
      var k := PickKey(m);
      assert |m - {k}| < |m| by { assert (m - {k}).Keys == m.Keys - {k}; }
      OneKeyLess(m, s, key, k);
      hide CountsKeys;
      SumIsSize(m - {k}, s - KeyedBy(s, key, k), key);
    }
  }

  function InDirection(live: Live, d: Direction): set<nat> {
    set id | id in live && live[id].direction == d
  }

  /** The counters of one direction sum to its live guards. */
  lemma DirectionSum(m: map<nat, nat>, live: Live, d: Direction, sel: nat -> Selector)
    requires MapCounts(m, live, sel)
    requires forall p: nat :: sel(p) == if d.Inbound? then FromPeer(p) else ToPeer(p)
    ensures Sum(m) == |InDirection(live, d)|
  {
    var peer := (id: nat) => if id in live then live[id].peer else 0;
    var ids := InDirection(live, d);
    forall k: nat ensures Get(m, k) == |KeyedBy(ids, peer, k)| && (k in m ==> m[k] > 0) {
      assert Get(m, k) == CountOf(live, sel(k));
      assert Matching(live, sel(k)) == KeyedBy(ids, peer, k);
    }
    SumIsSize(m, ids, peer);
  }

  lemma ProtocolSum(m: map<nat, nat>, live: Live)
    requires MapCounts(m, live, (q: nat) => OnProtocol(q))
    ensures Sum(m) == |live|
  {
    var protocol := (id: nat) => if id in live then live[id].protocol else 0;
    var ids := live.Keys;
    var sel := (q: nat) => OnProtocol(q);
    forall k: nat ensures Get(m, k) == |KeyedBy(ids, protocol, k)| && (k in m ==> m[k] > 0) {
      assert Get(m, k) == CountOf(live, sel(k));
      assert Matching(live, sel(k)) == KeyedBy(ids, protocol, k);
    }
    SumIsSize(m, ids, protocol);
  }

  /** The inbound and the outbound counters together sum to the number of live guards, as do the per-protocol
      counters. */
  lemma SumsAgree(c: Counters, live: Live)
    requires Exact(c, live)
    ensures Sum(c.inbound) + Sum(c.outbound) == Sum(c.perProtocol) == |live|
  {
    hide Sum, Matching, CountOf, Get;
    DirectionSum(c.inbound, live, Inbound, (p: nat) => FromPeer(p));
    DirectionSum(c.outbound, live, Direction.Outbound, (p: nat) => ToPeer(p));
    ProtocolSum(c.perProtocol, live);
    assert live.Keys == InDirection(live, Inbound) + InDirection(live, Direction.Outbound);
  }

  // ----- the registry

  /** Decrements an entry, if there is one, and removes it at zero. */
  method LowerEntry(m: map<nat, nat>, k: nat) returns (m': map<nat, nat>)
    ensures m' == Lowered(m, k)
  {
    m' := m;
    if k in m' {
      m' := m'[k := SaturatingSub(m'[k], 1)];
      if m'[k] == 0 {
        m' := m' - {k};
      }
    }
  }

  class ChannelRegistry {
    const limits: Limits
    var inbound: map<PeerId, nat>
    var outbound: map<PeerId, nat>
    var perProtocol: map<Protocol, nat>
    ghost var live: Live

    function View(): Counters
      reads this
    {
      Counters(inbound, outbound, perProtocol)
    }

    ghost predicate Valid()
      reads this
    {
      Exact(View(), live) && Within(limits, live)
    }

    constructor (limits: Limits)
      ensures Valid() && live == map[] && this.limits == limits
    {
      this.limits := limits;
      inbound, outbound, perProtocol, live := map[], map[], map[], map[];
      new;
      EmptyExact();
      forall sel: Selector ensures CountOf(map[], sel) == 0 {
        assert Matching(map[], sel) == {};
      }
    }

    /** Issues a guard, which the caller calls `id`, exactly if live guards leave room in both limits; a refused
        call changes nothing. */
    method TryAcquire(peer: PeerId, protocol: Protocol, direction: Direction, ghost id: nat)
      returns (guard: Option<Guard>)
      requires Valid() && id !in live
      modifies this
      ensures Valid()
      ensures guard.None? <==>
                || CountOf(old(live), PeerSelector(Guard(peer, protocol, direction))) >= PeerLimit(limits, direction)
                || CountOf(old(live), OnProtocol(protocol)) >= limits.maxPerProtocol
      ensures guard.None? ==> View() == old(View()) && live == old(live)
      ensures guard.Some? ==> guard.value == Guard(peer, protocol, direction) && live == old(live)[id := guard.value]
      ensures guard.Some? ==> View() == Acquired(old(View()), guard.value)
    {
      hide Exact, Within, CountOf, Matching;
      var perPeerLimit := match direction
        case Inbound => limits.maxInboundPerPeer
        case Outbound => limits.maxOutboundPerPeer;
      var perPeerCount := match direction
        case Inbound => if peer in inbound then inbound[peer] else 0
        case Outbound => if peer in outbound then outbound[peer] else 0;
      var perProtocolCount := if protocol in perProtocol then perProtocol[protocol] else 0;
      ghost var g := Guard(peer, protocol, direction);
      AdmissionIsExact(limits, View(), live, g);
      if perPeerCount >= perPeerLimit || perProtocolCount >= limits.maxPerProtocol {
        return None;
      }
      AcquireExact(View(), live, id, g);
      AcquireWithin(limits, View(), live, id, g);
      match direction {
        case Inbound => inbound := inbound[peer := (if peer in inbound then inbound[peer] else 0) + 1];
        case Outbound => outbound := outbound[peer := (if peer in outbound then outbound[peer] else 0) + 1];
      }
      perProtocol := perProtocol[protocol := (if protocol in perProtocol then perProtocol[protocol] else 0) + 1];
      assert View() == Acquired(old(View()), g);
      guard := Some(Guard(peer, protocol, direction));
      live := live[id := g];
    }

    /** Dropping a guard that is live: afterwards the counters are those of the remaining guards. */
    method Drop(guard: Guard, ghost id: nat)
      requires Valid() && id in live && live[id] == guard
      modifies this
      ensures Valid() && live == old(live) - {id} && View() == Released(old(View()), guard)
    {
      ReleaseExact(View(), live, id);
      ReleaseWithin(limits, live, id);
      hide Exact, Within, CountOf, Matching;
      match guard.direction {
        case Inbound => inbound := LowerEntry(inbound, guard.peer);
        case Outbound => outbound := LowerEntry(outbound, guard.peer);
      }
      perProtocol := LowerEntry(perProtocol, guard.protocol);
      live := live - {id};
    }
  }
}
