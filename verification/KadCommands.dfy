/** The Kademlia commands, updating their fields in place as events arrive. */
module KadCommands {
  import opened Types
  import opened Handler
  import opened SwarmCalls
  import C = Commands

  /** Accumulates the statistics of one step; the first step has nothing to merge with. */
  method MergeStats(existing: Option<Stats>, incoming: nat) returns (merged: Option<Stats>)
    ensures merged == Some(C.Merged(existing, incoming))
  {
    match existing
    case Some(s) => merged := Some(s + [incoming]);
    case None => merged := Some([incoming]);
  }

  class GetRecordCommand {
    var queryId: Option<nat>
    var record: Option<Record>
    var stats: Option<Stats>

    function View(): C.Cmd
      reads this
    {
      C.GetRecord(queryId, record, stats)
    }

    constructor ()
      ensures C.IsNew(View()) && View() == C.GetRecord(None, None, None)
    {
      queryId, record, stats := None, None, None;
    }

    method Run(env: C.RunEnv, handle: ResultHandle, log: SwarmLog)
      modifies this, handle, handle.executor, log
      ensures var r := C.Run(old(View()), env);
              && View() == r.cmd
              && Wrote(r.finish, old(handle.View()), old(handle.executor.woken), handle.View(), handle.executor.woken)
      ensures log.calls == old(log.calls) + C.CallsOf(old(View()), env)
    {
      log.Add(StartQuery(RecordQuery));
      queryId := Some(env.issuedId);
    }

    method OnEvent(ev: Event, handle: ResultHandle) returns (keep: bool, remaining: Option<Event>)
      modifies this, handle, handle.executor
      ensures var r := C.OnEvent(old(View()), ev);
              && View() == r.cmd && keep == r.keep && remaining == r.remaining
              && Wrote(r.finish, old(handle.View()), old(handle.executor.woken), handle.View(), handle.executor.woken)
    {
      if !(ev.QueryProgressed? && ev.result.GetRecordRes? && queryId == Some(ev.id)) {
        return true, Some(ev);
      }
      stats := MergeStats(stats, ev.stats);
      match ev.result.record {
        case Good(ok) =>
          if record.None? && ok.Found? {
            record := Some(ok.record);
          }
        case Bad(reason) =>
          if record.None? {
            if ev.last {
              handle.Finish(Err(Kad(QueryFailed(reason))));
              return false, None;
            }
          }
      }
      if !ev.last {
        return true, None;
      }
      match record {
        case Some(found) => handle.Finish(Ok(FoundRecord(found, stats.value)));
        case None => handle.Finish(Err(Kad(RecordNotFound)));
      }
      record := None;
      return false, None;
    }
  }

  class GetProvidersCommand {
    var queryId: Option<nat>
    var providers: seq<PeerId>
    var stats: Option<Stats>

    function View(): C.Cmd
      reads this
    {
      C.GetProviders(queryId, providers, stats)
    }

    constructor ()
      ensures C.IsNew(View()) && View() == C.GetProviders(None, [], None)
    {
      queryId, providers, stats := None, [], None;
    }

    method Run(env: C.RunEnv, handle: ResultHandle, log: SwarmLog)
      modifies this, handle, handle.executor, log
      ensures var r := C.Run(old(View()), env);
              && View() == r.cmd
              && Wrote(r.finish, old(handle.View()), old(handle.executor.woken), handle.View(), handle.executor.woken)
      ensures log.calls == old(log.calls) + C.CallsOf(old(View()), env)
    {
      log.Add(StartQuery(ProvidersQuery));
      queryId := Some(env.issuedId);
    }

    method OnEvent(ev: Event, handle: ResultHandle) returns (keep: bool, remaining: Option<Event>)
      modifies this, handle, handle.executor
      ensures var r := C.OnEvent(old(View()), ev);
              && View() == r.cmd && keep == r.keep && remaining == r.remaining
              && Wrote(r.finish, old(handle.View()), old(handle.executor.woken), handle.View(), handle.executor.woken)
    {
      if !(ev.QueryProgressed? && ev.result.GetProvidersRes? && queryId == Some(ev.id)) {
        return true, Some(ev);
      }
      stats := MergeStats(stats, ev.stats);
      match ev.result.providers {
        case Good(FoundProviders(found)) => providers := providers + found;
        case Good(NoMoreProviders) => assert providers + [] == providers;
        case Bad(reason) =>
          handle.Finish(Err(Kad(QueryFailed(reason))));
          return false, None;
      }
      if !ev.last {
        return true, None;
      }
      handle.Finish(Ok(Providers(providers, stats.value)));
      providers := [];
      return false, None;
    }
  }

  class GetClosestPeersCommand {
    var queryId: Option<nat>
    var peers: seq<PeerId>
    var stats: Option<Stats>

    function View(): C.Cmd
      reads this
    {
      C.GetClosestPeers(queryId, peers, stats)
    }

    constructor ()
      ensures C.IsNew(View()) && View() == C.GetClosestPeers(None, [], None)
    {
      queryId, peers, stats := None, [], None;
    }

    method Run(env: C.RunEnv, handle: ResultHandle, log: SwarmLog)
      modifies this, handle, handle.executor, log
      ensures var r := C.Run(old(View()), env);
              && View() == r.cmd
              && Wrote(r.finish, old(handle.View()), old(handle.executor.woken), handle.View(), handle.executor.woken)
      ensures log.calls == old(log.calls) + C.CallsOf(old(View()), env)
    {
      log.Add(StartQuery(ClosestPeersQuery));
      queryId := Some(env.issuedId);
    }

    method OnEvent(ev: Event, handle: ResultHandle) returns (keep: bool, remaining: Option<Event>)
      modifies this, handle, handle.executor
      ensures var r := C.OnEvent(old(View()), ev);
              && View() == r.cmd && keep == r.keep && remaining == r.remaining
              && Wrote(r.finish, old(handle.View()), old(handle.executor.woken), handle.View(), handle.executor.woken)
    {
      if !(ev.QueryProgressed? && ev.result.GetClosestPeersRes? && queryId == Some(ev.id)) {
        return true, Some(ev);
      }
      stats := MergeStats(stats, ev.stats);
      match ev.result.closest {
        case Good(found) => peers := peers + found;
        case Bad(reason) =>
          handle.Finish(Err(Kad(QueryFailed(reason))));
          return false, None;
      }
      if !ev.last {
        return true, None;
      }
      handle.Finish(Ok(ClosestPeers(peers, stats.value)));
      peers := [];
      return false, None;
    }
  }

  class BootstrapCommand {
    var queryId: Option<nat>
    var stats: Option<Stats>

    function View(): C.Cmd
      reads this
    {
      C.Bootstrap(queryId, stats)
    }

    constructor ()
      ensures C.IsNew(View()) && View() == C.Bootstrap(None, None)
    {
      queryId, stats := None, None;
    }

    method Run(env: C.RunEnv, handle: ResultHandle, log: SwarmLog)
      modifies this, handle, handle.executor, log
      ensures var r := C.Run(old(View()), env);
              && View() == r.cmd
              && Wrote(r.finish, old(handle.View()), old(handle.executor.woken), handle.View(), handle.executor.woken)
      ensures log.calls == old(log.calls) + C.CallsOf(old(View()), env)
    {
      log.Add(StartQuery(BootstrapQuery));
      if env.refused.Some? {
        handle.Finish(Err(Kad(NoKnownPeers)));
      } else {
        queryId := Some(env.issuedId);
      }
    }

    method OnEvent(ev: Event, handle: ResultHandle) returns (keep: bool, remaining: Option<Event>)
      modifies this, handle, handle.executor
      ensures var r := C.OnEvent(old(View()), ev);
              && View() == r.cmd && keep == r.keep && remaining == r.remaining
              && Wrote(r.finish, old(handle.View()), old(handle.executor.woken), handle.View(), handle.executor.woken)
    {
      if !(ev.QueryProgressed? && ev.result.BootstrapRes? && queryId == Some(ev.id)) {
        return true, Some(ev);
      }
      stats := MergeStats(stats, ev.stats);
      match ev.result.remaining {
        case Good(_) =>
        case Bad(reason) =>
          handle.Finish(Err(Kad(QueryFailed(reason))));
          return false, None;
      }
      if !ev.last {
        return true, None;
      }
      handle.Finish(Ok(Bootstrapped(ev.result.remaining.ok, stats.value)));
      return false, None;
    }
  }

  class PutRecordCommand {
    var queryId: Option<nat>
    var stats: Option<Stats>

    function View(): C.Cmd
      reads this
    {
      C.PutRecord(queryId, stats)
    }

    constructor ()
      ensures C.IsNew(View()) && View() == C.PutRecord(None, None)
    {
      queryId, stats := None, None;
    }

    method Run(env: C.RunEnv, handle: ResultHandle, log: SwarmLog)
      modifies this, handle, handle.executor, log
      ensures var r := C.Run(old(View()), env);
              && View() == r.cmd
              && Wrote(r.finish, old(handle.View()), old(handle.executor.woken), handle.View(), handle.executor.woken)
      ensures log.calls == old(log.calls) + C.CallsOf(old(View()), env)
    {
      log.Add(StartQuery(PutQuery));
      if env.refused.Some? {
        handle.Finish(Err(Kad(StoreRefused(env.refused.value))));
      } else {
        queryId := Some(env.issuedId);
      }
    }

    method OnEvent(ev: Event, handle: ResultHandle) returns (keep: bool, remaining: Option<Event>)
      modifies this, handle, handle.executor
      ensures var r := C.OnEvent(old(View()), ev);
              && View() == r.cmd && keep == r.keep && remaining == r.remaining
              && Wrote(r.finish, old(handle.View()), old(handle.executor.woken), handle.View(), handle.executor.woken)
    {
      if !(ev.QueryProgressed? && ev.result.PutRecordRes? && queryId == Some(ev.id)) {
        return true, Some(ev);
      }
      stats := MergeStats(stats, ev.stats);
      if !ev.last {
        return true, None;
      }
      match ev.result.put {
        case Good(_) => handle.Finish(Ok(QueryStats(stats.value)));
        case Bad(reason) => handle.Finish(Err(Kad(QueryFailed(reason))));
      }
      return false, None;
    }
  }

  class StartProvideCommand {
    var queryId: Option<nat>
    var stats: Option<Stats>

    function View(): C.Cmd
      reads this
    {
      C.StartProvide(queryId, stats)
    }

    constructor ()
      ensures C.IsNew(View()) && View() == C.StartProvide(None, None)
    {
      queryId, stats := None, None;
    }

    method Run(env: C.RunEnv, handle: ResultHandle, log: SwarmLog)
      modifies this, handle, handle.executor, log
      ensures var r := C.Run(old(View()), env);
              && View() == r.cmd
              && Wrote(r.finish, old(handle.View()), old(handle.executor.woken), handle.View(), handle.executor.woken)
      ensures log.calls == old(log.calls) + C.CallsOf(old(View()), env)
    {
      log.Add(StartQuery(ProvideQuery));
      if env.refused.Some? {
        handle.Finish(Err(Kad(StoreRefused(env.refused.value))));
      } else {
        queryId := Some(env.issuedId);
      }
    }

    method OnEvent(ev: Event, handle: ResultHandle) returns (keep: bool, remaining: Option<Event>)
      modifies this, handle, handle.executor
      ensures var r := C.OnEvent(old(View()), ev);
              && View() == r.cmd && keep == r.keep && remaining == r.remaining
              && Wrote(r.finish, old(handle.View()), old(handle.executor.woken), handle.View(), handle.executor.woken)
    {
      if !(ev.QueryProgressed? && ev.result.StartProvidingRes? && queryId == Some(ev.id)) {
        return true, Some(ev);
      }
      stats := MergeStats(stats, ev.stats);
      if !ev.last {
        return true, None;
      }
      match ev.result.provide {
        case Good(_) => handle.Finish(Ok(QueryStats(stats.value)));
        case Bad(reason) => handle.Finish(Err(Kad(QueryFailed(reason))));
      }
      return false, None;
    }
  }
}
