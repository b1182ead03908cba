/** Delayed relay reservations: addresses wait until their peer has identified itself, or are asked for at once
    if the peer is connected. */
module Relay {
  import opened Types

  /** The address to listen on for a reservation with `peer`: it names a peer, and ends in a circuit. */
  function RelayAddr(peer: PeerId, addr: Addr): Addr {
    (if exists i :: 0 <= i < |addr| && addr[i].P2p? then addr else addr + [P2p(peer)]) + [P2pCircuit]
  }

  function RelayAddrs(peer: PeerId, addrs: seq<Addr>): seq<Addr> {
    seq(|addrs|, i requires 0 <= i < |addrs| => RelayAddr(peer, addrs[i]))
  }

  /** Addresses waiting per peer. */
  type Waiting = map<PeerId, seq<Addr>>

  function Get(w: Waiting, p: PeerId): seq<Addr> {
    if p in w then w[p] else []
  }

  function Extended(w: Waiting, p: PeerId, addrs: seq<Addr>): Waiting {
    w[p := Get(w, p) + addrs]
  }

  datatype Book = Book(
    relayClient: bool,
    protocolVersion: nat,
    looping: bool,
    waiting: Waiting,
    listened: seq<Addr>,
    connections: map<PeerId, nat>,
    // History: addresses submitted and addresses asked for, with their peers, in order; peers that have sent a
    // matching identify in their current connection.
    submitted: seq<(PeerId, Addr)>,
    asked: seq<(PeerId, Addr)>,
    identified: set<PeerId>)

  datatype Step =
    | ConnectBootstrap(peer: PeerId, addr: Addr)
    | StartLoop
    | AddInfrastructure(to: PeerId, addrs: seq<Addr>, relayServer: bool)
    | Established(with: PeerId)
    | Closed(of: PeerId)
    | Identify(who: PeerId, version: nat)

  function Initial(relayClient: bool, version: nat): Book {
    Book(relayClient, version, false, map[], [], map[], [], [], {})
  }

  function Connections(s: Book, p: PeerId): nat {
    if p in s.connections then s.connections[p] else 0
  }

  /** Bootstrap peers are registered before the loop starts; peers identify themselves only while connected. */
  predicate Enabled(s: Book, step: Step) {
    match step
    case ConnectBootstrap(_, _) => !s.looping
    case StartLoop => !s.looping
    case AddInfrastructure(_, _, _) => s.looping
    case Established(_) => s.looping
    case Closed(p) => s.looping && Connections(s, p) > 0
    case Identify(p, _) => s.looping && Connections(s, p) > 0
  }

  function Tagged(p: PeerId, addrs: seq<Addr>): seq<(PeerId, Addr)> {
    seq(|addrs|, i requires 0 <= i < |addrs| => (p, addrs[i]))
  }

  function Asked(s: Book, p: PeerId, addrs: seq<Addr>): Book {
    s.(listened := s.listened + RelayAddrs(p, addrs), asked := s.asked + Tagged(p, addrs))
  }

  function Next(s: Book, step: Step): Book
    requires Enabled(s, step)
  {
    match step
    case ConnectBootstrap(p, addr) =>
      if s.relayClient then s.(waiting := Extended(s.waiting, p, [addr]), submitted := s.submitted + [(p, addr)]) else s
    case StartLoop => s.(looping := true)
    case AddInfrastructure(p, addrs, relayServer) =>
      if !(relayServer && s.relayClient) then s else
      var s' := s.(submitted := s.submitted + Tagged(p, addrs));
      if Connections(s, p) > 0 then Asked(s', p, addrs) else s'.(waiting := Extended(s.waiting, p, addrs))
    case Established(p) => s.(connections := s.connections[p := Connections(s, p) + 1])
    case Closed(p) =>
      s.(connections := s.connections[p := Connections(s, p) - 1],
         identified := if Connections(s, p) == 1 then s.identified - {p} else s.identified)
    case Identify(p, version) =>
      if version != s.protocolVersion then s else
      var s' := s.(identified := s.identified + {p});
      if p in s.waiting then Asked(s', p, s.waiting[p]).(waiting := s.waiting - {p}) else s'
  }

  // ----- the invariant

  /** The addresses of one peer. */
  function Of(entries: seq<(PeerId, Addr)>, p: PeerId): multiset<Addr> {
    if entries == [] then multiset{} else
    Of(entries[..|entries| - 1], p)
    + (if entries[|entries| - 1].0 == p then multiset{entries[|entries| - 1].1} else multiset{})
  }

  /** Nothing submitted is lost, invented or asked for twice. */
  ghost predicate Conserved(s: Book, p: PeerId) {
    Of(s.submitted, p) == multiset(Get(s.waiting, p)) + Of(s.asked, p)
  }

  function ListenedFor(asked: seq<(PeerId, Addr)>): seq<Addr> {
    seq(|asked|, i requires 0 <= i < |asked| => RelayAddr(asked[i].0, asked[i].1))
  }

  ghost predicate Inv(s: Book) {
    && (forall p: PeerId :: Conserved(s, p))
    && s.listened == ListenedFor(s.asked)
    && (!s.relayClient ==> s.submitted == [] && s.asked == [] && s.waiting == map[])
    && (!s.looping ==> forall p: PeerId :: Connections(s, p) == 0)
    && (forall p :: p in s.identified ==> Connections(s, p) > 0 && p !in s.waiting)
  }

  lemma OfOneMore(entries: seq<(PeerId, Addr)>, e: (PeerId, Addr), p: PeerId)
    ensures Of(entries + [e], p) == Of(entries, p) + (if e.0 == p then multiset{e.1} else multiset{})
  {
    assert (entries + [e])[..|entries + [e]| - 1] == entries;
  }

  lemma TaggedOneMore(q: PeerId, addrs: seq<Addr>)
    requires addrs != []
    ensures var n := |addrs| - 1; Tagged(q, addrs) == Tagged(q, addrs[..n]) + [(q, addrs[n])]
  {
  }

  lemma BagOneMore(addrs: seq<Addr>)
    requires addrs != []
    ensures var n := |addrs| - 1; multiset(addrs) == multiset(addrs[..n]) + multiset{addrs[n]}
  {
    assert addrs == addrs[..|addrs| - 1] + [addrs[|addrs| - 1]];
  }

  lemma {:induction false} OfTagged(entries: seq<(PeerId, Addr)>, q: PeerId, addrs: seq<Addr>, p: PeerId)
    ensures Of(entries + Tagged(q, addrs), p) == Of(entries, p) + (if q == p then multiset(addrs) else multiset{})
  {
    if addrs == [] {
      assert entries + Tagged(q, addrs) == entries;
    } else {
      var n := |addrs| - 1;
      OfTagged(entries, q, addrs[..n], p);
      TaggedOneMore(q, addrs);
      BagOneMore(addrs);
      assert entries + Tagged(q, addrs) == (entries + Tagged(q, addrs[..n])) + [(q, addrs[n])];
      OfOneMore(entries + Tagged(q, addrs[..n]), (q, addrs[n]), p);
      hide Of, Tagged;
    }
  }

  lemma BootstrapConserves(s: Book, q: PeerId, addr: Addr, p: PeerId)
    requires Conserved(s, p) && Enabled(s, ConnectBootstrap(q, addr))
    ensures Conserved(Next(s, ConnectBootstrap(q, addr)), p)
  {
    OfOneMore(s.submitted, (q, addr), p);
    hide Of, RelayAddr;
  }

  lemma InfrastructureConserves(s: Book, q: PeerId, addrs: seq<Addr>, relayServer: bool, p: PeerId)
    requires Conserved(s, p) && Enabled(s, AddInfrastructure(q, addrs, relayServer))
    ensures Conserved(Next(s, AddInfrastructure(q, addrs, relayServer)), p)
  {
    OfTagged(s.submitted, q, addrs, p);
    OfTagged(s.asked, q, addrs, p);
    hide Of, RelayAddr, RelayAddrs, Tagged;
  }

  lemma IdentifyConserves(s: Book, q: PeerId, version: nat, p: PeerId)
    requires Conserved(s, p) && Enabled(s, Identify(q, version))
    ensures Conserved(Next(s, Identify(q, version)), p)
  {
    OfTagged(s.asked, q, Get(s.waiting, q), p);
    hide Of, RelayAddr, RelayAddrs, Tagged;
  }

  lemma ConservedKept(s: Book, step: Step, p: PeerId)
    requires Inv(s) && Enabled(s, step)
    ensures Conserved(Next(s, step), p)
  {
    assert Conserved(s, p);
    hide Inv, Of;
    match step
    case ConnectBootstrap(q, addr) => BootstrapConserves(s, q, addr, p);
    case AddInfrastructure(q, addrs, relayServer) => InfrastructureConserves(s, q, addrs, relayServer, p);
    case Identify(q, version) => IdentifyConserves(s, q, version, p);
    case _ =>
  }

  lemma AskListens(s: Book, p: PeerId, addrs: seq<Addr>)
    requires s.listened == ListenedFor(s.asked)
    ensures Asked(s, p, addrs).listened == ListenedFor(Asked(s, p, addrs).asked)
  {
  }

  /** Nobody is connected before the loop starts. */
  lemma NoneBeforeLoop(s: Book, step: Step)
    requires (!s.looping ==> forall p: PeerId :: Connections(s, p) == 0) && Enabled(s, step)
    ensures !Next(s, step).looping ==> forall p: PeerId :: Connections(Next(s, step), p) == 0
  {
    forall p: PeerId ensures !Next(s, step).looping ==> Connections(Next(s, step), p) == Connections(s, p) {}
  }

  lemma InvKept(s: Book, step: Step)
    requires Inv(s) && Enabled(s, step)
    ensures Inv(Next(s, step))
  {
    var s' := Next(s, step);
    forall p: PeerId ensures Conserved(s', p) { ConservedKept(s, step, p); }
    hide Conserved, RelayAddr;
    forall p | p in s'.identified ensures Connections(s', p) > 0 && p !in s'.waiting {
      assert p in s.identified ==> Connections(s, p) > 0;
    }
    match step
    case AddInfrastructure(p, addrs, _) => AskListens(s, p, addrs);
    case Identify(p, _) => AskListens(s, p, Get(s.waiting, p));
    case _ =>
      assert s'.listened == ListenedFor(s'.asked);
      NoneBeforeLoop(s, step);
  }

  ghost predicate CanRun(s: Book, steps: seq<Step>)
    decreases |steps|
  {
    steps == [] || (Enabled(s, steps[0]) && CanRun(Next(s, steps[0]), steps[1..]))
  }

  ghost function After(s: Book, steps: seq<Step>): Book
    requires CanRun(s, steps)
    decreases |steps|
  {
    if steps == [] then s else After(Next(s, steps[0]), steps[1..])
  }

  lemma {:induction false} InvAlong(s: Book, steps: seq<Step>)
    requires Inv(s) && CanRun(s, steps)
    ensures Inv(After(s, steps))
    decreases |steps|
  {
    hide Next, Enabled, Inv;
    if steps != [] {
      InvKept(s, steps[0]);
      InvAlong(Next(s, steps[0]), steps[1..]);
    }
  }

  /** Relay reservations are conserved over every run: for each peer, the addresses submitted are, as a multiset,
      those still waiting and those asked for; what was asked of the swarm is exactly the relay address of each
      of the latter, once. Without relay client nothing is kept or asked; and a peer that has identified itself
      with a matching protocol in its current connection has nothing waiting. */
  lemma ReservationsAreConserved(relayClient: bool, version: nat, steps: seq<Step>, p: PeerId)
    requires CanRun(Initial(relayClient, version), steps)
    ensures var s := After(Initial(relayClient, version), steps);
            && Of(s.submitted, p) == multiset(Get(s.waiting, p)) + Of(s.asked, p)
            && s.listened == ListenedFor(s.asked)
            && (!s.relayClient ==> s.submitted == [] && s.asked == [] && s.listened == [] && s.waiting == map[])
            && (p in s.identified ==> p !in s.waiting)
  {
    var init := Initial(relayClient, version);
    assert Inv(init) by {
      forall q: PeerId ensures Conserved(init, q) {}
    }
    InvAlong(init, steps);
    assert Conserved(After(init, steps), p);
  }

  /** What is submitted for a peer that is connected is asked for at once, all of it; what is submitted for one that is
      not waits, all of it, and nothing is asked of it; other peers are not concerned. */
  lemma SubmissionsWaitUnlessConnected(s: Book, q: PeerId, addrs: seq<Addr>, p: PeerId)
    requires s.looping && s.relayClient
    ensures var s' := Next(s, AddInfrastructure(q, addrs, true));
            && (p != q ==> Of(s'.asked, p) == Of(s.asked, p) && Get(s'.waiting, p) == Get(s.waiting, p))
            && (p == q && Connections(s, p) > 0 ==>
                  Of(s'.asked, p) == Of(s.asked, p) + multiset(addrs) && Get(s'.waiting, p) == Get(s.waiting, p))
            && (p == q && Connections(s, p) == 0 ==>
                  s'.asked == s.asked && Get(s'.waiting, p) == Get(s.waiting, p) + addrs)
  {
    hide Of, RelayAddrs;
    OfTagged(s.asked, q, addrs, p);
  }

  /** What waits is asked for, all of it, when its peer identifies itself with the right protocol; with another protocol
      nothing is. */
  lemma WaitingIsAskedOnIdentify(s: Book, q: PeerId, version: nat, p: PeerId)
    requires Enabled(s, Identify(q, version))
    ensures var s' := Next(s, Identify(q, version));
            && (p == q && version == s.protocolVersion ==>
                  Of(s'.asked, p) == Of(s.asked, p) + multiset(Get(s.waiting, p)) && Get(s'.waiting, p) == [])
            && (p != q || version != s.protocolVersion ==>
                  Of(s'.asked, p) == Of(s.asked, p) && Get(s'.waiting, p) == Get(s.waiting, p))
  {
    hide Of, RelayAddrs;
    if q in s.waiting { OfTagged(s.asked, q, s.waiting[q], p); }
  }

  /** Nothing is asked at any other step, and never of a peer that is not connected. */
  lemma AskedOnlyOfConnected(s: Book, step: Step, p: PeerId)
    requires Enabled(s, step) && Of(Next(s, step).asked, p) != Of(s.asked, p)
    ensures Connections(s, p) > 0
    ensures (step.AddInfrastructure? && step.to == p && step.relayServer && s.relayClient)
            || step == Identify(p, s.protocolVersion)
  {
    hide Of, RelayAddrs;
    match step
    case AddInfrastructure(q, addrs, relayServer) =>
      if relayServer && s.relayClient { SubmissionsWaitUnlessConnected(s, q, addrs, p); }
    case Identify(q, version) => WaitingIsAskedOnIdentify(s, q, version, p);
    case _ =>
  }

  /** A relay address extends the submitted one, names a peer before its end, and ends in a circuit; the submitted peer
      is added exactly if the address named none. */
  lemma RelayAddrIsComplete(peer: PeerId, addr: Addr)
    ensures var r := RelayAddr(peer, addr);
            && addr <= r && r[|r| - 1] == P2pCircuit
            && (exists i :: 0 <= i < |r| - 1 && r[i].P2p?)
            && ((forall i :: 0 <= i < |addr| ==> !addr[i].P2p?) ==> r == addr + [P2p(peer), P2pCircuit])
            && ((exists i :: 0 <= i < |addr| && addr[i].P2p?) ==> r == addr + [P2pCircuit])
  {
    var r := RelayAddr(peer, addr);
    if i :| 0 <= i < |addr| && addr[i].P2p? {
      assert r[i].P2p?;
    } else {
      assert r[|addr|] == P2p(peer);
    }
  }
}
