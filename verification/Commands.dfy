/** The command automata as values: what `run` and `on_event` of each command do.
    The classes that perform these steps in place are in KadCommands and PeerCommands. */
module Commands {
  import opened Types
  import opened SwarmCalls

  datatype Roles = Roles(kadServer: bool, relayServer: bool)

  datatype Cmd =
    | GetRecord(queryId: Option<nat>, record: Option<Record>, stats: Option<Stats>)
    | GetProviders(queryId: Option<nat>, providers: seq<PeerId>, stats: Option<Stats>)
    | GetClosestPeers(queryId: Option<nat>, peers: seq<PeerId>, stats: Option<Stats>)
    | Bootstrap(queryId: Option<nat>, stats: Option<Stats>)
    | PutRecord(queryId: Option<nat>, stats: Option<Stats>)
    | StartProvide(queryId: Option<nat>, stats: Option<Stats>)
    | SendRequest(peer: PeerId, request: Option<Request>, requestId: Option<nat>)
    | SendResponse(channel: Option<ReplyChannel>, response: Option<Response>)
    | DialPeer(peer: PeerId)
    | Disconnect(peer: PeerId)
    | AddInfrastructurePeer(peer: PeerId, addrs: seq<Addr>, roles: Roles, pendingRelay: Option<seq<Addr>>)
    | Immediate(answer: nat)

  /** What the swarm answers to the calls that one `run` makes. */
  datatype RunEnv = RunEnv(issuedId: nat, refused: Option<nat>, connected: bool, relayEnabled: bool)

  datatype Ran = Ran(cmd: Cmd, finish: Option<Outcome>)

  /** `keep` and `remaining` are the pair `on_event` returns; `finish` is the result it stored, if any. */
  datatype Reaction = Reaction(cmd: Cmd, keep: bool, remaining: Option<Event>, finish: Option<Outcome>)

  /** A command as its constructor builds it. */
  predicate IsNew(c: Cmd) {
    match c
    case GetRecord(q, r, s) => q.None? && r.None? && s.None?
    case GetProviders(q, ps, s) => q.None? && ps == [] && s.None?
    case GetClosestPeers(q, ps, s) => q.None? && ps == [] && s.None?
    case Bootstrap(q, s) => q.None? && s.None?
    case PutRecord(q, s) => q.None? && s.None?
    case StartProvide(q, s) => q.None? && s.None?
    case SendRequest(_, r, id) => r.Some? && id.None?
    case SendResponse(ch, r) => ch.Some? && r.Some?
    case AddInfrastructurePeer(_, _, _, p) => p.None?
    case _ => true
  }

  /** Commands that recognise their events by an identifier the swarm issued. */
  predicate IsCorrelated(c: Cmd) {
    c.GetRecord? || c.GetProviders? || c.GetClosestPeers? || c.Bootstrap? || c.PutRecord? || c.StartProvide?
    || c.SendRequest?
  }

  /** Commands that keep the default `on_event`: they only ever complete in `run`. */
  predicate HasDefaultOnEvent(c: Cmd) {
    c.SendResponse? || c.AddInfrastructurePeer? || c.Immediate?
  }

  function CommandKey(c: Cmd): Option<Correlation> {
    match c
    case SendRequest(_, _, Some(id)) => Some(Outbound(id))
    case GetRecord(Some(id), _, _) => Some(Query(id))
    case GetProviders(Some(id), _, _) => Some(Query(id))
    case GetClosestPeers(Some(id), _, _) => Some(Query(id))
    case Bootstrap(Some(id), _) => Some(Query(id))
    case PutRecord(Some(id), _) => Some(Query(id))
    case StartProvide(Some(id), _) => Some(Query(id))
    case _ => None
  }

  // ----- run

  function Run(c: Cmd, env: RunEnv): Ran {
    match c
    case GetRecord(_, record, stats) => Ran(GetRecord(Some(env.issuedId), record, stats), None)
    case GetProviders(_, providers, stats) => Ran(GetProviders(Some(env.issuedId), providers, stats), None)
    case GetClosestPeers(_, peers, stats) => Ran(GetClosestPeers(Some(env.issuedId), peers, stats), None)
    case Bootstrap(_, stats) =>
      if env.refused.Some? then Ran(c, Some(Err(Kad(NoKnownPeers))))
      else Ran(Bootstrap(Some(env.issuedId), stats), None)
    case PutRecord(_, stats) =>
      if env.refused.Some? then Ran(c, Some(Err(Kad(StoreRefused(env.refused.value)))))
      else Ran(PutRecord(Some(env.issuedId), stats), None)
    case StartProvide(_, stats) =>
      if env.refused.Some? then Ran(c, Some(Err(Kad(StoreRefused(env.refused.value)))))
      else Ran(StartProvide(Some(env.issuedId), stats), None)
    case SendRequest(peer, request, _) =>
      if request.None? then Ran(c, Some(Err(RunCalledTwice)))
      else Ran(SendRequest(peer, None, Some(env.issuedId)), None)
    case SendResponse(channel, response) =>
      var taken := SendResponse(None, None);
      if channel.None? || response.None? then Ran(taken, Some(Err(RunCalledTwice)))
      else if env.refused.Some? then Ran(taken, Some(Err(ReplyChannelClosed)))
      else Ran(taken, Some(Ok(Unit)))
    case DialPeer(_) =>
      if env.connected then Ran(c, Some(Ok(Unit)))
      else if env.refused.Some? then Ran(c, Some(Err(Dial(DialRefused(env.refused.value)))))
      else Ran(c, None)
    case Disconnect(peer) =>
      if !env.connected then Ran(c, Some(Err(Dial(NotConnected(peer))))) else Ran(c, None)
    case AddInfrastructurePeer(peer, addrs, roles, pending) =>
      var pendingRelay := if roles.relayServer && env.relayEnabled then Some(addrs) else pending;
      Ran(AddInfrastructurePeer(peer, addrs, roles, pendingRelay), Some(Ok(Unit)))
    case Immediate(answer) => Ran(c, Some(Ok(Value(answer))))
  }

  /** The addresses for which a command that has run wants relay reservations, handed out once. */
  function TakeRelayRequest(c: Cmd): (Cmd, Option<(PeerId, seq<Addr>)>) {
    if c.AddInfrastructurePeer? && c.pendingRelay.Some?
    then (AddInfrastructurePeer(c.peer, c.addrs, c.roles, None), Some((c.peer, c.pendingRelay.value)))
    else (c, None)
  }

  /** A command that has been run and asked for its reservation request, as it goes onto the active list. */
  function Launch(c: Cmd, env: RunEnv): Ran {
    var r := Run(c, env);
    Ran(TakeRelayRequest(r.cmd).0, r.finish)
  }

  /** The calls on the swarm that one `run` makes, whatever they are answered. */
  function CallsOf(c: Cmd, env: RunEnv): seq<Call> {
    match c
    case GetRecord(_, _, _) => [StartQuery(RecordQuery)]
    case GetProviders(_, _, _) => [StartQuery(ProvidersQuery)]
    case GetClosestPeers(_, _, _) => [StartQuery(ClosestPeersQuery)]
    case Bootstrap(_, _) => [StartQuery(BootstrapQuery)]
    case PutRecord(_, _) => [StartQuery(PutQuery)]
    case StartProvide(_, _) => [StartQuery(ProvideQuery)]
    case SendRequest(peer, request, _) => if request.Some? then [SendRequestCall(peer, request.value)] else []
    case SendResponse(channel, response) =>
      if channel.Some? && response.Some? then [SendResponseCall(channel.value, response.value)] else []
    case DialPeer(peer) => if env.connected then [] else [DialCall(peer)]
    case Disconnect(peer) => [HangUp(peer)]
    case AddInfrastructurePeer(peer, addrs, roles, _) =>
      Registrations(peer, addrs, roles.kadServer) + if env.connected then [] else [DialCall(peer)]
    case Immediate(_) => []
  }

  // ----- on_event

  function Merged(existing: Option<Stats>, incoming: nat): Stats {
    if existing.Some? then existing.value + [incoming] else [incoming]
  }

  function Pass(c: Cmd, ev: Event): Reaction { Reaction(c, true, Some(ev), None) }

  function Await(c: Cmd): Reaction { Reaction(c, true, None, None) }

  function Complete(c: Cmd, r: Outcome): Reaction { Reaction(c, false, None, Some(r)) }

  function OnGetRecord(c: Cmd, ev: Event): Reaction
    requires c.GetRecord?
  {
    if !(ev.QueryProgressed? && ev.result.GetRecordRes? && c.queryId == Some(ev.id)) then Pass(c, ev) else
    var stats := Merged(c.stats, ev.stats);
    var res := ev.result.record;
    var record := if c.record.None? && res.Good? && res.ok.Found? then Some(res.ok.record) else c.record;
    if res.Bad? && c.record.None? && ev.last then
      Complete(GetRecord(c.queryId, None, Some(stats)), Err(Kad(QueryFailed(res.reason))))
    else if !ev.last then Await(GetRecord(c.queryId, record, Some(stats)))
    else if record.Some? then
      Complete(GetRecord(c.queryId, None, Some(stats)), Ok(FoundRecord(record.value, stats)))
    else Complete(GetRecord(c.queryId, None, Some(stats)), Err(Kad(RecordNotFound)))
  }

  function OnGetProviders(c: Cmd, ev: Event): Reaction
    requires c.GetProviders?
  {
    if !(ev.QueryProgressed? && ev.result.GetProvidersRes? && c.queryId == Some(ev.id)) then Pass(c, ev) else
    var stats := Merged(c.stats, ev.stats);
    var res := ev.result.providers;
    if res.Bad? then Complete(GetProviders(c.queryId, c.providers, Some(stats)), Err(Kad(QueryFailed(res.reason)))) else
    var providers := c.providers + (if res.ok.FoundProviders? then res.ok.providers else []);
    if !ev.last then Await(GetProviders(c.queryId, providers, Some(stats)))
    else Complete(GetProviders(c.queryId, [], Some(stats)), Ok(Providers(providers, stats)))
  }

  function OnGetClosestPeers(c: Cmd, ev: Event): Reaction
    requires c.GetClosestPeers?
  {
    if !(ev.QueryProgressed? && ev.result.GetClosestPeersRes? && c.queryId == Some(ev.id)) then Pass(c, ev) else
    var stats := Merged(c.stats, ev.stats);
    var res := ev.result.closest;
    if res.Bad? then Complete(GetClosestPeers(c.queryId, c.peers, Some(stats)), Err(Kad(QueryFailed(res.reason)))) else
    var peers := c.peers + res.ok;
    if !ev.last then Await(GetClosestPeers(c.queryId, peers, Some(stats)))
    else Complete(GetClosestPeers(c.queryId, [], Some(stats)), Ok(ClosestPeers(peers, stats)))
  }

  function OnBootstrap(c: Cmd, ev: Event): Reaction
    requires c.Bootstrap?
  {
    if !(ev.QueryProgressed? && ev.result.BootstrapRes? && c.queryId == Some(ev.id)) then Pass(c, ev) else
    var stats := Merged(c.stats, ev.stats);
    var res := ev.result.remaining;
    if res.Bad? then Complete(Bootstrap(c.queryId, Some(stats)), Err(Kad(QueryFailed(res.reason))))
    else if !ev.last then Await(Bootstrap(c.queryId, Some(stats)))
    else Complete(Bootstrap(c.queryId, Some(stats)), Ok(Bootstrapped(res.ok, stats)))
  }

  function OnPutRecord(c: Cmd, ev: Event): Reaction
    requires c.PutRecord?
  {
    if !(ev.QueryProgressed? && ev.result.PutRecordRes? && c.queryId == Some(ev.id)) then Pass(c, ev)
    else
      var stats := Merged(c.stats, ev.stats);
      LastStepDecides(PutRecord(c.queryId, Some(stats)), stats, ev.last, ev.result.put)
  }

  function OnStartProvide(c: Cmd, ev: Event): Reaction
    requires c.StartProvide?
  {
    if !(ev.QueryProgressed? && ev.result.StartProvidingRes? && c.queryId == Some(ev.id)) then Pass(c, ev)
    else
      var stats := Merged(c.stats, ev.stats);
      LastStepDecides(StartProvide(c.queryId, Some(stats)), stats, ev.last, ev.result.provide)
  }

  function LastStepDecides(c: Cmd, stats: Stats, last: bool, res: QueryRes<()>): Reaction {
    if !last then Await(c)
    else if res.Good? then Complete(c, Ok(QueryStats(stats)))
    else Complete(c, Err(Kad(QueryFailed(res.reason))))
  }

  function MapOutboundFailure(f: OutboundFailure): Error {
    match f
    case FailDial => Network(DialFailure)
    case FailTimeout => Network(Timeout)
    case FailClosed => Network(NetworkFailure.ConnectionClosed)
    case FailUnsupported => Network(UnsupportedProtocol)
    case FailOther => Network(Unknown)
  }

  function OnSendRequest(c: Cmd, ev: Event): Reaction
    requires c.SendRequest?
  {
    if ev.ResponseReceived? && c.requestId == Some(ev.requestId) && ev.from == c.peer then
      Complete(c, Ok(Responded(ev.response)))
    else if ev.RequestFailed? && c.requestId == Some(ev.requestId) && ev.from == c.peer then
      Complete(c, Err(MapOutboundFailure(ev.failure)))
    else Pass(c, ev)
  }

  /** Completes without consuming: the frontend still has to see the connection event. */
  function OnDial(c: Cmd, ev: Event): Reaction
    requires c.DialPeer?
  {
    if ev.ConnectionEstablished? && ev.peer == c.peer then Reaction(c, false, Some(ev), Some(Ok(Unit)))
    else if ev.OutgoingConnectionError? && ev.to == Some(c.peer) then
      Reaction(c, false, Some(ev), Some(Err(Dial(ConnectFailed(ev.how)))))
    else Pass(c, ev)
  }

  function OnDisconnect(c: Cmd, ev: Event): Reaction
    requires c.Disconnect?
  {
    if ev.ConnectionClosed? && ev.peer == c.peer && ev.numEstablished == 0 then
      Reaction(c, false, Some(ev), Some(Ok(Unit)))
    else Pass(c, ev)
  }

  function OnEvent(c: Cmd, ev: Event): Reaction {
    match c
    case GetRecord(_, _, _) => OnGetRecord(c, ev)
    case GetProviders(_, _, _) => OnGetProviders(c, ev)
    case GetClosestPeers(_, _, _) => OnGetClosestPeers(c, ev)
    case Bootstrap(_, _) => OnBootstrap(c, ev)
    case PutRecord(_, _) => OnPutRecord(c, ev)
    case StartProvide(_, _) => OnStartProvide(c, ev)
    case SendRequest(_, _, _) => OnSendRequest(c, ev)
    case DialPeer(_) => OnDial(c, ev)
    case Disconnect(_) => OnDisconnect(c, ev)
    case _ => Reaction(c, false, Some(ev), None)
  }

  // ----- what all automata share

  /** A command that consumes an event consumes it because the event carries its own identifier;
      an event that is passed on is passed on unchanged. */
  lemma OnlyOwnEventsAreConsumed(c: Cmd, ev: Event)
    ensures OnEvent(c, ev).remaining in {None, Some(ev)}
    ensures OnEvent(c, ev).remaining.None? ==> EventKey(ev).Some? && CommandKey(c) == EventKey(ev)
  {
  }

  /** An event that carries an identifier leaves every command alone that does not wait for that
      identifier; only a command with the default `on_event` is dropped, and it writes no result. */
  lemma ForeignEventsChangeNothing(c: Cmd, ev: Event)
    requires EventKey(ev).Some? && CommandKey(c) != EventKey(ev)
    ensures OnEvent(c, ev) == if HasDefaultOnEvent(c) then Reaction(c, false, Some(ev), None) else Pass(c, ev)
  {
  }

  /** Identified commands ignore events without an identifier, and keep their own identifier for life. */
  lemma CorrelatedCommandsKeepTheirKey(c: Cmd, ev: Event)
    requires IsCorrelated(c)
    ensures CommandKey(OnEvent(c, ev).cmd) == CommandKey(c)
    ensures IsCorrelated(OnEvent(c, ev).cmd)
    ensures CommandKey(c).None? || CommandKey(c) != EventKey(ev) ==> OnEvent(c, ev) == Pass(c, ev)
    ensures OnEvent(c, ev).finish.Some? <==> !OnEvent(c, ev).keep
  {
  }

  // ----- what `run` owes its caller

  /** Commands that the swarm may refuse to start. */
  predicate MayBeRefused(c: Cmd) {
    c.Bootstrap? || c.PutRecord? || c.StartProvide?
  }

  /** `run` of a new identified command takes no identifier exactly if the swarm may and does refuse it, and then
      stores the error that belongs to it; otherwise it starts under the issued identifier and stores nothing. */
  lemma RunStartsOrRefuses(c: Cmd, env: RunEnv)
    requires IsNew(c) && IsCorrelated(c)
    ensures var r := Run(c, env);
            && IsCorrelated(r.cmd)
            && (CommandKey(r.cmd).None? <==> MayBeRefused(c) && env.refused.Some?)
            && (CommandKey(r.cmd).None? ==>
                  && r.cmd == c
                  && (c.Bootstrap? ==> r.finish == Some(Err(Kad(NoKnownPeers))))
                  && (!c.Bootstrap? ==> r.finish == Some(Err(Kad(StoreRefused(env.refused.value))))))
            && (CommandKey(r.cmd).Some? ==>
                  && r.finish.None?
                  && CommandKey(r.cmd).value == if c.SendRequest? then Outbound(env.issuedId) else Query(env.issuedId))
  {
  }

  /** The caller of a reply is told Ok exactly if the swarm accepted the response, and otherwise that the channel was
      closed. */
  lemma ReplyTellsAcceptance(channel: ReplyChannel, response: Response, env: RunEnv)
    ensures var finish := Run(SendResponse(Some(channel), Some(response)), env).finish;
            && (finish == Some(Ok(Unit)) <==> env.refused.None?)
            && (finish == Some(Err(ReplyChannelClosed)) <==> env.refused.Some?)
  {
  }

  /** Requests and responses are handed to the swarm by the first `run` and by no other; a further one stores an
      error. */
  lemma SendsOnce(c: Cmd, env: RunEnv, again: RunEnv)
    requires IsNew(c) && (c.SendRequest? || c.SendResponse?)
    ensures CallsOf(c, env) == if c.SendRequest? then [SendRequestCall(c.peer, c.request.value)]
                               else [SendResponseCall(c.channel.value, c.response.value)]
    ensures CallsOf(Run(c, env).cmd, again) == []
    ensures Run(Run(c, env).cmd, again).finish == Some(Err(RunCalledTwice))
  {
  }

  /** A dial stores Ok in `run` exactly if the peer is connected, which it then is not dialled; it stores an error
      exactly if the swarm refuses to dial, and waits exactly if it was dialled. */
  lemma DialTellsRefusal(peer: PeerId, env: RunEnv)
    ensures var finish := Run(DialPeer(peer), env).finish;
            && (finish == Some(Ok(Unit)) <==> env.connected)
            && (finish.Some? && finish.value.Err? <==> !env.connected && env.refused.Some?)
            && (finish.Some? && finish.value.Err? ==> finish.value == Err(Dial(DialRefused(env.refused.value))))
            && (Times(CallsOf(DialPeer(peer), env), DialCall(peer)) == 1 <==> finish != Some(Ok(Unit)))
            && (finish.None? ==> CallsOf(DialPeer(peer), env) == [DialCall(peer)])
  {
  }

  /** A disconnect waits exactly if the swarm had a connection to close; otherwise it says so. */
  lemma DisconnectTellsMissing(peer: PeerId, env: RunEnv)
    ensures var finish := Run(Disconnect(peer), env).finish;
            && (finish.None? <==> env.connected)
            && (finish.Some? ==> finish == Some(Err(Dial(NotConnected(peer)))))
            && CallsOf(Disconnect(peer), env) == [HangUp(peer)]
  {
  }

  /** Adding an infrastructure peer always succeeds. Each of its addresses is made known, routed exactly for a Kademlia
      server, and the peer dialled once exactly if it is not connected; no other peer is touched. It wants
      reservations for all its addresses exactly as a relay server with the relay client on, and asks for them
      once. */
  lemma InfrastructureIsRegistered(c: Cmd, env: RunEnv, p: PeerId, addr: Addr)
    requires c.AddInfrastructurePeer? && IsNew(c)
    ensures var r, calls := Run(c, env), CallsOf(c, env);
            var (left, request) := TakeRelayRequest(r.cmd);
            && r.finish == Some(Ok(Unit))
            && Times(calls, AddAddress(p, addr)) == (if p == c.peer then TimesIn(c.addrs, addr) else 0)
            && Times(calls, AddRoute(p, addr))
               == (if p == c.peer && c.roles.kadServer then TimesIn(c.addrs, addr) else 0)
            && Times(calls, DialCall(p)) == (if p == c.peer && !env.connected then 1 else 0)
            && (forall call :: call in calls ==> call.AddAddress? || call.AddRoute? || call.DialCall?)
            && (request.Some? <==> c.roles.relayServer && env.relayEnabled)
            && (request.Some? ==> request.value == (c.peer, c.addrs))
            && TakeRelayRequest(left).1.None?
  {
    hide Times, Registrations, TimesIn;
    var entries := Registrations(c.peer, c.addrs, c.roles.kadServer);
    var dials := if env.connected then [] else [DialCall(c.peer)];
    RegistrationsAreExact(c.peer, c.addrs, c.roles.kadServer, p, addr);
    forall call {:trigger Times(entries, call)} | call in {AddAddress(p, addr), AddRoute(p, addr), DialCall(p)}
      ensures Times(entries + dials, call)
              == Times(entries, call) + if !env.connected && call == DialCall(c.peer) then 1 else 0
    {
      TimesConcat(entries, dials, call);
      TimesOne(DialCall(c.peer), call);
    }
    NotMade(entries, DialCall(p));
  }

  /** Only infrastructure peers want reservations. */
  lemma OthersWantNoReservation(c: Cmd, env: RunEnv)
    requires !c.AddInfrastructurePeer?
    ensures TakeRelayRequest(Run(c, env).cmd) == (Run(c, env).cmd, None)
  {
  }

  lemma ImmediatesAnswer(answer: nat, env: RunEnv)
    ensures Run(Immediate(answer), env).finish == Some(Ok(Value(answer)))
    ensures CallsOf(Immediate(answer), env) == []
  {
  }

  /** Each query command starts one query, of its own kind, in every `run`. */
  lemma QueriesAreStarted(c: Cmd, env: RunEnv, kind: QueryKind)
    requires IsCorrelated(c) && !c.SendRequest?
    ensures |CallsOf(c, env)| == 1
    ensures CallsOf(c, env) == [StartQuery(kind)] <==>
              (c.GetRecord? && kind == RecordQuery) || (c.GetProviders? && kind == ProvidersQuery)
              || (c.GetClosestPeers? && kind == ClosestPeersQuery) || (c.Bootstrap? && kind == BootstrapQuery)
              || (c.PutRecord? && kind == PutQuery) || (c.StartProvide? && kind == ProvideQuery)
  {
  }

  /** Failures of a request are told apart, each under its own name; the rest is unknown. */
  lemma FailuresAreToldApart(f: OutboundFailure, g: OutboundFailure)
    ensures MapOutboundFailure(f) == MapOutboundFailure(g) <==> f == g
    ensures MapOutboundFailure(f) == Network(Timeout) <==> f == FailTimeout
    ensures MapOutboundFailure(f) == Network(DialFailure) <==> f == FailDial
    ensures MapOutboundFailure(f) == Network(NetworkFailure.ConnectionClosed) <==> f == FailClosed
    ensures MapOutboundFailure(f) == Network(UnsupportedProtocol) <==> f == FailUnsupported
    ensures MapOutboundFailure(f) == Network(Unknown) <==> f == FailOther
  {
  }
}
