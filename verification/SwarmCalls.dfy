/** The calls that the runtime makes on the swarm, in order. */
module SwarmCalls {
  import opened Types

  datatype QueryKind = RecordQuery | ProvidersQuery | ClosestPeersQuery | BootstrapQuery | PutQuery | ProvideQuery

  datatype Call =
    | AddAddress(peer: PeerId, addr: Addr)
    | AddRoute(peer: PeerId, addr: Addr)
    | DialCall(peer: PeerId)
    | HangUp(peer: PeerId)
    | SendRequestCall(peer: PeerId, request: Request)
    | SendResponseCall(channel: ReplyChannel, response: Response)
    | StartQuery(kind: QueryKind)

  class SwarmLog {
    var calls: seq<Call>

    constructor ()
      ensures calls == []
    {
      calls := [];
    }

    method Add(call: Call)
      modifies this
      ensures calls == old(calls) + [call]
    {
      calls := calls + [call];
    }
  }

  /** Every address is made known, and put into the Kademlia routing table if `routed`. */
  function Registrations(peer: PeerId, addrs: seq<Addr>, routed: bool): seq<Call> {
    if addrs == [] then [] else
    var n := |addrs| - 1;
    Registrations(peer, addrs[..n], routed)
    + ([AddAddress(peer, addrs[n])] + if routed then [AddRoute(peer, addrs[n])] else [])
  }

  /** Every address is put into the routing table and made known. */
  function Introductions(peer: PeerId, addrs: seq<Addr>): seq<Call> {
    if addrs == [] then [] else
    var n := |addrs| - 1;
    Introductions(peer, addrs[..n]) + [AddRoute(peer, addrs[n]), AddAddress(peer, addrs[n])]
  }

  /** Every bootstrap peer is routed, made known and dialled. */
  function BootstrapCalls(peers: seq<(PeerId, Addr)>): seq<Call> {
    if peers == [] then [] else
    var n := |peers| - 1;
    BootstrapCalls(peers[..n])
    + [AddRoute(peers[n].0, peers[n].1), AddAddress(peers[n].0, peers[n].1), DialCall(peers[n].0)]
  }

  /** How often a call is made. */
  function Times(calls: seq<Call>, call: Call): nat { multiset(calls)[call] }

  function TimesIn(addrs: seq<Addr>, addr: Addr): nat { multiset(addrs)[addr] }

  lemma AddrsOneMore(addrs: seq<Addr>, addr: Addr)
    requires addrs != []
    ensures var n := |addrs| - 1;
            TimesIn(addrs, addr) == TimesIn(addrs[..n], addr) + (if addrs[n] == addr then 1 else 0)
  {
    assert addrs == addrs[..|addrs| - 1] + [addrs[|addrs| - 1]];
  }

  /** Registering makes each address known as often as it is listed, and routed as often if asked, for that peer. */
  lemma {:induction false} RegistrationsAreExact(peer: PeerId, addrs: seq<Addr>, routed: bool, p: PeerId, addr: Addr)
    ensures var calls := Registrations(peer, addrs, routed);
            && Times(calls, AddAddress(p, addr)) == (if p == peer then TimesIn(addrs, addr) else 0)
            && Times(calls, AddRoute(p, addr)) == (if p == peer && routed then TimesIn(addrs, addr) else 0)
            && (forall call :: call in calls ==> call.AddAddress? || call.AddRoute?)
  {
    if addrs != [] {
      RegistrationsAreExact(peer, addrs[..|addrs| - 1], routed, p, addr);
      AddrsOneMore(addrs, addr);
    }
  }

  lemma {:induction false} IntroductionsAreExact(peer: PeerId, addrs: seq<Addr>, p: PeerId, addr: Addr)
    ensures var calls := Introductions(peer, addrs);
            && Times(calls, AddAddress(p, addr)) == (if p == peer then TimesIn(addrs, addr) else 0)
            && Times(calls, AddRoute(p, addr)) == (if p == peer then TimesIn(addrs, addr) else 0)
            && (forall call :: call in calls ==> call.AddAddress? || call.AddRoute?)
  {
    if addrs != [] {
      IntroductionsAreExact(peer, addrs[..|addrs| - 1], p, addr);
      AddrsOneMore(addrs, addr);
    }
  }

  function PeersOf(peers: seq<(PeerId, Addr)>): seq<PeerId> {
    if peers == [] then [] else PeersOf(peers[..|peers| - 1]) + [peers[|peers| - 1].0]
  }

  lemma PeersOneMore(peers: seq<(PeerId, Addr)>, p: PeerId, addr: Addr)
    requires peers != []
    ensures var n := |peers| - 1;
            && multiset(peers)[(p, addr)] == multiset(peers[..n])[(p, addr)] + (if peers[n] == (p, addr) then 1 else 0)
            && multiset(PeersOf(peers))[p] == multiset(PeersOf(peers[..n]))[p] + (if peers[n].0 == p then 1 else 0)
  {
    assert peers == peers[..|peers| - 1] + [peers[|peers| - 1]];
  }

  /** Each bootstrap peer is made known, routed and dialled as often as it is configured. */
  lemma {:induction false} BootstrapCallsAreExact(peers: seq<(PeerId, Addr)>, p: PeerId, addr: Addr)
    ensures var calls := BootstrapCalls(peers);
            && Times(calls, AddAddress(p, addr)) == multiset(peers)[(p, addr)]
            && Times(calls, AddRoute(p, addr)) == multiset(peers)[(p, addr)]
            && Times(calls, DialCall(p)) == multiset(PeersOf(peers))[p]
  {
    if peers == [] {
      NothingConfigured(p, addr);
    } else {
      hide Times, PeersOf;
      var n := |peers| - 1;
      BootstrapCallsAreExact(peers[..n], p, addr);
      PeersOneMore(peers, p, addr);
      OneBootstrapPeer(BootstrapCalls(peers[..n]), peers[n], p, addr);
    }
  }

  lemma NothingConfigured(p: PeerId, addr: Addr)
    ensures forall call :: Times([], call) == 0
    ensures BootstrapCalls([]) == [] && multiset(PeersOf([]))[p] == 0
  {
  }

  lemma OneBootstrapPeer(calls: seq<Call>, entry: (PeerId, Addr), p: PeerId, addr: Addr)
    ensures var more := calls + [AddRoute(entry.0, entry.1), AddAddress(entry.0, entry.1), DialCall(entry.0)];
            && Times(more, AddAddress(p, addr))
               == Times(calls, AddAddress(p, addr)) + (if entry == (p, addr) then 1 else 0)
            && Times(more, AddRoute(p, addr)) == Times(calls, AddRoute(p, addr)) + (if entry == (p, addr) then 1 else 0)
            && Times(more, DialCall(p)) == Times(calls, DialCall(p)) + (if entry.0 == p then 1 else 0)
  {
  }

  lemma TimesConcat(a: seq<Call>, b: seq<Call>, call: Call)
    ensures Times(a + b, call) == Times(a, call) + Times(b, call)
  {
  }

  lemma TimesOne(a: Call, call: Call)
    ensures Times([a], call) == if a == call then 1 else 0
    ensures Times([], call) == 0
  {
  }

  /** A call that none of these is, is not made. */
  lemma NotMade(calls: seq<Call>, call: Call)
    requires call !in calls
    ensures Times(calls, call) == 0
  {
  }
}
