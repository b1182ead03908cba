/** Commands behind one interface, as the event loop holds them: what is done to the box is done to the command
    object in it. */
module Boxes {
  import opened Types
  import opened Handler
  import opened Commands
  import opened SwarmCalls
  import Kad = KadCommands
  import Peer = PeerCommands

  datatype Boxed =
    | BoxedGetRecord(getRecord: Kad.GetRecordCommand)
    | BoxedGetProviders(getProviders: Kad.GetProvidersCommand)
    | BoxedGetClosestPeers(getClosestPeers: Kad.GetClosestPeersCommand)
    | BoxedBootstrap(bootstrap: Kad.BootstrapCommand)
    | BoxedPutRecord(putRecord: Kad.PutRecordCommand)
    | BoxedStartProvide(startProvide: Kad.StartProvideCommand)
    | BoxedSendRequest(sendRequest: Peer.SendRequestCommand)
    | BoxedSendResponse(sendResponse: Peer.SendResponseCommand)
    | BoxedDial(dial: Peer.DialCommand)
    | BoxedDisconnect(disconnect: Peer.DisconnectCommand)
    | BoxedAddInfrastructurePeer(addInfrastructurePeer: Peer.AddInfrastructurePeerCommand)
    | BoxedImmediate(immediate: Peer.ImmediateCommand)
  {
    function Object(): object {
      match this
      case BoxedGetRecord(c) => c
      case BoxedGetProviders(c) => c
      case BoxedGetClosestPeers(c) => c
      case BoxedBootstrap(c) => c
      case BoxedPutRecord(c) => c
      case BoxedStartProvide(c) => c
      case BoxedSendRequest(c) => c
      case BoxedSendResponse(c) => c
      case BoxedDial(c) => c
      case BoxedDisconnect(c) => c
      case BoxedAddInfrastructurePeer(c) => c
      case BoxedImmediate(c) => c
    }

    /** The state of the command in the box. */
    function View(): Cmd
      reads Object()
    {
      match this
      case BoxedGetRecord(c) => c.View()
      case BoxedGetProviders(c) => c.View()
      case BoxedGetClosestPeers(c) => c.View()
      case BoxedBootstrap(c) => c.View()
      case BoxedPutRecord(c) => c.View()
      case BoxedStartProvide(c) => c.View()
      case BoxedSendRequest(c) => c.View()
      case BoxedSendResponse(c) => c.View()
      case BoxedDial(c) => c.View()
      case BoxedDisconnect(c) => c.View()
      case BoxedAddInfrastructurePeer(c) => c.View()
      case BoxedImmediate(c) => c.View()
    }

    method Run(env: RunEnv, handle: ResultHandle, log: SwarmLog)
      modifies Object(), handle, handle.executor, log
      ensures var r := Commands.Run(old(View()), env);
              && View() == r.cmd
              && Wrote(r.finish, old(handle.View()), old(handle.executor.woken), handle.View(), handle.executor.woken)
      ensures log.calls == old(log.calls) + CallsOf(old(View()), env)
    {
      hide Wrote, Commands.Run, CallsOf;
      match this {
        case BoxedGetRecord(c) => c.Run(env, handle, log);
        case BoxedGetProviders(c) => c.Run(env, handle, log);
        case BoxedGetClosestPeers(c) => c.Run(env, handle, log);
        case BoxedBootstrap(c) => c.Run(env, handle, log);
        case BoxedPutRecord(c) => c.Run(env, handle, log);
        case BoxedStartProvide(c) => c.Run(env, handle, log);
        case BoxedSendRequest(c) => c.Run(env, handle, log);
        case BoxedSendResponse(c) => c.Run(env, handle, log);
        case BoxedDial(c) => c.Run(env, handle, log);
        case BoxedDisconnect(c) => c.Run(env, handle, log);
        case BoxedAddInfrastructurePeer(c) => c.Run(env, handle, log);
        case BoxedImmediate(c) => c.Run(env, handle, log);
      }
    }

    /** Commands without an `on_event` of their own leave at their first event. */
    method OnEvent(ev: Event, handle: ResultHandle) returns (keep: bool, remaining: Option<Event>)
      modifies Object(), handle, handle.executor
      ensures var r := Commands.OnEvent(old(View()), ev);
              && View() == r.cmd && keep == r.keep && remaining == r.remaining
              && Wrote(r.finish, old(handle.View()), old(handle.executor.woken), handle.View(), handle.executor.woken)
    {
      hide Wrote;
      match this {
        case BoxedGetRecord(c) => keep, remaining := c.OnEvent(ev, handle);
        case BoxedGetProviders(c) => keep, remaining := c.OnEvent(ev, handle);
        case BoxedGetClosestPeers(c) => keep, remaining := c.OnEvent(ev, handle);
        case BoxedBootstrap(c) => keep, remaining := c.OnEvent(ev, handle);
        case BoxedPutRecord(c) => keep, remaining := c.OnEvent(ev, handle);
        case BoxedStartProvide(c) => keep, remaining := c.OnEvent(ev, handle);
        case BoxedSendRequest(c) => keep, remaining := c.OnEvent(ev, handle);
        case BoxedDial(c) => keep, remaining := c.OnEvent(ev, handle);
        case BoxedDisconnect(c) => keep, remaining := c.OnEvent(ev, handle);
        case _ =>
          DefaultPasses(View(), ev);
          NothingWritten(handle.View(), handle.executor.woken);
          keep, remaining := false, Some(ev);
      }
    }

    method TakeRelayReservationRequest() returns (r: Option<(PeerId, seq<Addr>)>)
      modifies Object()
      ensures (View(), r) == TakeRelayRequest(old(View()))
    {
      match this {
        case BoxedAddInfrastructurePeer(c) => r := c.TakeRelayReservationRequest();
        case _ => r := None;
      }
    }
  }

  lemma DefaultPasses(c: Cmd, ev: Event)
    requires HasDefaultOnEvent(c)
    ensures Commands.OnEvent(c, ev) == Reaction(c, false, Some(ev), None)
  {
  }

  lemma NothingWritten(cell: ResultState, woken: set<TaskId>)
    ensures Wrote(None, cell, woken, cell, woken)
  {
  }
}
