/** Values shared by every part of the model: identifiers, results, swarm events. */
module Types {

  datatype Option<+T> = None | Some(value: T)

  datatype Result<+T> = Ok(value: T) | Err(error: Error)

  type PeerId = nat
  type Protocol = nat
  type Key = nat
  type Record = nat
  type Request = nat
  type Response = nat
  /** A linear `ResponseChannel`, named by the inbound request that created it. */
  type ReplyChannel = nat
  /** The task that polls a future; also names the future and its result cell. */
  type TaskId = nat

  /** One component of a multiaddr; only the two that the relay code looks at are told apart. */
  datatype AddrPart = Transport(tag: nat) | P2p(peer: PeerId) | P2pCircuit

  type Addr = seq<AddrPart>

  /** Query statistics are only ever merged, with an associative operation of the Kademlia library.
      They are kept symbolic: the list of step statistics in merge order, merged by concatenation. */
  type Stats = seq<nat>

  datatype NetworkFailure = Timeout | DialFailure | UnsupportedProtocol | ConnectionClosed | Unknown

  datatype KadFailure = QueryFailed(reason: nat) | RecordNotFound | NoKnownPeers | StoreRefused(why: nat)

  datatype CloseReason = ResourceLimitExceeded | ProtocolUnsupported | IoFailure(detail: nat)

  datatype Error =
    | Kad(kad: KadFailure)
    | Dial(cause: DialCause)
    | CommandChannelClosed
    | RunCalledTwice
    | ReplyChannelClosed
    | NoPendingChannel(id: nat)
    | Network(kind: NetworkFailure)
    | DataChannel(reason: CloseReason)

  datatype DialCause = DialRefused(why: nat) | NotConnected(peer: PeerId) | ConnectFailed(how: nat)

  /** What a command yields; the source gives each command its own result type. */
  datatype Output =
    | Unit
    | Value(v: nat)
    | Responded(response: Response)
    | QueryStats(stats: Stats)
    | FoundRecord(record: Record, stats: Stats)
    | Providers(providers: seq<PeerId>, stats: Stats)
    | ClosestPeers(peers: seq<PeerId>, stats: Stats)
    | Bootstrapped(numRemaining: nat, stats: Stats)

  type Outcome = Result<Output>

  /** Identifiers the swarm issues: Kademlia query ids and request ids are different spaces. */
  datatype Correlation = Query(query: nat) | Outbound(request: nat)

  datatype QueryRes<+T> = Good(ok: T) | Bad(reason: nat)

  datatype RecordStep = Found(record: Record) | FinishedWithNoAdditionalRecord

  datatype ProvidersStep = FoundProviders(providers: seq<PeerId>) | NoMoreProviders

  datatype QueryResult =
    | GetRecordRes(record: QueryRes<RecordStep>)
    | GetProvidersRes(providers: QueryRes<ProvidersStep>)
    | GetClosestPeersRes(closest: QueryRes<seq<PeerId>>)
    | BootstrapRes(remaining: QueryRes<nat>)
    | PutRecordRes(put: QueryRes<()>)
    | StartProvidingRes(provide: QueryRes<()>)

  datatype OutboundFailure = FailDial | FailTimeout | FailClosed | FailUnsupported | FailOther

  /** The swarm events that some part of the runtime reacts to. */
  datatype Event =
    | QueryProgressed(id: nat, result: QueryResult, stats: nat, last: bool)
    | ResponseReceived(from: PeerId, requestId: nat, response: Response)
    | RequestFailed(from: PeerId, requestId: nat, failure: OutboundFailure)
    | RequestReceived(from: PeerId, request: Request, channel: ReplyChannel)
    | ConnectionEstablished(peer: PeerId, numEstablished: nat)
    | ConnectionClosed(peer: PeerId, numEstablished: nat)
    | OutgoingConnectionError(to: Option<PeerId>, how: nat)
    | IdentifyReceived(peer: PeerId, protocolVersion: nat, listenAddrs: seq<Addr>)
    | OtherEvent(tag: nat)

  /** The identifier by which a command recognises an event as its own. */
  function EventKey(ev: Event): Option<Correlation> {
    match ev
    case QueryProgressed(id, _, _, _) => Some(Query(id))
    case ResponseReceived(_, id, _) => Some(Outbound(id))
    case RequestFailed(_, id, _) => Some(Outbound(id))
    case _ => None
  }
}
