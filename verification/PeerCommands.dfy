/** The commands that talk to one peer: requests, replies, dialling, disconnecting, infrastructure peers. */
module PeerCommands {
  import opened Types
  import opened Handler
  import opened SwarmCalls
  import C = Commands

  class SendRequestCommand {
    const peer: PeerId
    var request: Option<Request>
    var requestId: Option<nat>

    function View(): C.Cmd
      reads this
    {
      C.SendRequest(peer, request, requestId)
    }

    constructor (peer: PeerId, request: Request)
      ensures C.IsNew(View()) && View() == C.SendRequest(peer, Some(request), None)
    {
      this.peer := peer;
      this.request, requestId := Some(request), None;
    }

    method Run(env: C.RunEnv, handle: ResultHandle, log: SwarmLog)
      modifies this, handle, handle.executor, log
      ensures var r := C.Run(old(View()), env);
              && View() == r.cmd
              && Wrote(r.finish, old(handle.View()), old(handle.executor.woken), handle.View(), handle.executor.woken)
      ensures log.calls == old(log.calls) + C.CallsOf(old(View()), env)
    {
      if request.None? {
        handle.Finish(Err(RunCalledTwice));
        return;
      }
      log.Add(SendRequestCall(peer, request.value));
      request := None;
      requestId := Some(env.issuedId);
    }

    method OnEvent(ev: Event, handle: ResultHandle) returns (keep: bool, remaining: Option<Event>)
      modifies this, handle, handle.executor
      ensures var r := C.OnEvent(old(View()), ev);
              && View() == r.cmd && keep == r.keep && remaining == r.remaining
              && Wrote(r.finish, old(handle.View()), old(handle.executor.woken), handle.View(), handle.executor.woken)
    {
      if ev.ResponseReceived? && requestId == Some(ev.requestId) && ev.from == peer {
        handle.Finish(Ok(Responded(ev.response)));
        return false, None;
      } else if ev.RequestFailed? && requestId == Some(ev.requestId) && ev.from == peer {
        handle.Finish(Err(C.MapOutboundFailure(ev.failure)));
        return false, None;
      }
      return true, Some(ev);
    }
  }

  class SendResponseCommand {
    var channel: Option<ReplyChannel>
    var response: Option<Response>

    function View(): C.Cmd
      reads this
    {
      C.SendResponse(channel, response)
    }

    constructor (channel: ReplyChannel, response: Response)
      ensures C.IsNew(View()) && View() == C.SendResponse(Some(channel), Some(response))
    {
      this.channel, this.response := Some(channel), Some(response);
    }

    method Run(env: C.RunEnv, handle: ResultHandle, log: SwarmLog)
      modifies this, handle, handle.executor, log
      ensures var r := C.Run(old(View()), env);
              && View() == r.cmd
              && Wrote(r.finish, old(handle.View()), old(handle.executor.woken), handle.View(), handle.executor.woken)
      ensures log.calls == old(log.calls) + C.CallsOf(old(View()), env)
    {
      var taken := (channel, response);
      channel, response := None, None;
      if taken.0.None? || taken.1.None? {
        handle.Finish(Err(RunCalledTwice));
        return;
      }
      log.Add(SendResponseCall(taken.0.value, taken.1.value));
      if env.refused.Some? {
        handle.Finish(Err(ReplyChannelClosed));
      } else {
        handle.Finish(Ok(Unit));
      }
    }
  }

  class DialCommand {
    const peer: PeerId

    function View(): C.Cmd
      reads this
    {
      C.DialPeer(peer)
    }

    constructor (peer: PeerId)
      ensures C.IsNew(View()) && View() == C.DialPeer(peer)
    {
      this.peer := peer;
    }

    method Run(env: C.RunEnv, handle: ResultHandle, log: SwarmLog)
      modifies this, handle, handle.executor, log
      ensures var r := C.Run(old(View()), env);
              && View() == r.cmd
              && Wrote(r.finish, old(handle.View()), old(handle.executor.woken), handle.View(), handle.executor.woken)
      ensures log.calls == old(log.calls) + C.CallsOf(old(View()), env)
    {
      if env.connected {
        handle.Finish(Ok(Unit));
        return;
      }
      log.Add(DialCall(peer));
      if env.refused.Some? {
        handle.Finish(Err(Dial(DialRefused(env.refused.value))));
      }
    }

    method OnEvent(ev: Event, handle: ResultHandle) returns (keep: bool, remaining: Option<Event>)
      modifies this, handle, handle.executor
      ensures var r := C.OnEvent(old(View()), ev);
              && View() == r.cmd && keep == r.keep && remaining == r.remaining
              && Wrote(r.finish, old(handle.View()), old(handle.executor.woken), handle.View(), handle.executor.woken)
    {
      if ev.ConnectionEstablished? && ev.peer == peer {
        handle.Finish(Ok(Unit));
        return false, Some(ev);
      } else if ev.OutgoingConnectionError? && ev.to == Some(peer) {
        handle.Finish(Err(Dial(ConnectFailed(ev.how))));
        return false, Some(ev);
      }
      return true, Some(ev);
    }
  }

  class DisconnectCommand {
    const peer: PeerId

    function View(): C.Cmd
      reads this
    {
      C.Disconnect(peer)
    }

    constructor (peer: PeerId)
      ensures C.IsNew(View()) && View() == C.Disconnect(peer)
    {
      this.peer := peer;
    }

    method Run(env: C.RunEnv, handle: ResultHandle, log: SwarmLog)
      modifies this, handle, handle.executor, log
      ensures var r := C.Run(old(View()), env);
              && View() == r.cmd
              && Wrote(r.finish, old(handle.View()), old(handle.executor.woken), handle.View(), handle.executor.woken)
      ensures log.calls == old(log.calls) + C.CallsOf(old(View()), env)
    {
      log.Add(HangUp(peer));
      if !env.connected {
        handle.Finish(Err(Dial(NotConnected(peer))));
      }
    }

    method OnEvent(ev: Event, handle: ResultHandle) returns (keep: bool, remaining: Option<Event>)
      modifies this, handle, handle.executor
      ensures var r := C.OnEvent(old(View()), ev);
              && View() == r.cmd && keep == r.keep && remaining == r.remaining
              && Wrote(r.finish, old(handle.View()), old(handle.executor.woken), handle.View(), handle.executor.woken)
    {
      if ev.ConnectionClosed? && ev.peer == peer && ev.numEstablished == 0 {
        handle.Finish(Ok(Unit));
        return false, Some(ev);
      }
      return true, Some(ev);
    }
  }

  /** Any command that is answered at once: looking something up, or telling the swarm something. */
  class ImmediateCommand {
    const answer: nat

    function View(): C.Cmd
      reads this
    {
      C.Immediate(answer)
    }

    constructor (answer: nat)
      ensures C.IsNew(View()) && View() == C.Immediate(answer)
    {
      this.answer := answer;
    }

    method Run(env: C.RunEnv, handle: ResultHandle, log: SwarmLog)
      modifies this, handle, handle.executor, log
      ensures var r := C.Run(old(View()), env);
              && View() == r.cmd
              && Wrote(r.finish, old(handle.View()), old(handle.executor.woken), handle.View(), handle.executor.woken)
      ensures log.calls == old(log.calls) + C.CallsOf(old(View()), env)
    {
      handle.Finish(Ok(Value(answer)));
    }
  }

  class AddInfrastructurePeerCommand {
    const peer: PeerId
    const addrs: seq<Addr>
    const roles: C.Roles
    var pendingRelay: Option<seq<Addr>>

    function View(): C.Cmd
      reads this
    {
      C.AddInfrastructurePeer(peer, addrs, roles, pendingRelay)
    }

    constructor (peer: PeerId, addrs: seq<Addr>, roles: C.Roles)
      ensures C.IsNew(View()) && View() == C.AddInfrastructurePeer(peer, addrs, roles, None)
    {
      this.peer, this.addrs, this.roles := peer, addrs, roles;
      pendingRelay := None;
    }

    method Run(env: C.RunEnv, handle: ResultHandle, log: SwarmLog)
      modifies this, handle, handle.executor, log
      ensures var r := C.Run(old(View()), env);
              && View() == r.cmd
              && Wrote(r.finish, old(handle.View()), old(handle.executor.woken), handle.View(), handle.executor.woken)
      ensures log.calls == old(log.calls) + C.CallsOf(old(View()), env)
    {
      for i := 0 to |addrs|
        invariant log.calls == old(log.calls) + Registrations(peer, addrs[..i], roles.kadServer)
        invariant View() == old(View()) && handle.View() == old(handle.View())
        invariant handle.executor.woken == old(handle.executor.woken)
      {
        assert addrs[..i + 1][..i] == addrs[..i];
        log.Add(AddAddress(peer, addrs[i]));
        if roles.kadServer {
          log.Add(AddRoute(peer, addrs[i]));
        }
      }
      assert addrs[..|addrs|] == addrs;
      if roles.relayServer && env.relayEnabled {
        pendingRelay := Some(addrs);
      }
      if env.connected {
        handle.Finish(Ok(Unit));
        return;
      }
      log.Add(DialCall(peer));
      // Whether or not dialling is refused, the command is done.
      handle.Finish(Ok(Unit));
    }

    /** A reservation request is handed out once. */
    method TakeRelayReservationRequest() returns (r: Option<(PeerId, seq<Addr>)>)
      modifies this
      ensures (View(), r) == C.TakeRelayRequest(old(View()))
    {
      r := if pendingRelay.Some? then Some((peer, pendingRelay.value)) else None;
      pendingRelay := None;
    }
  }
}
