/** Connection events of the swarm, aggregated into one connected or disconnected event per peer. */
module PeerEvents {
  import opened Types

  datatype PeerEvent = PeerConnected(peer: PeerId) | PeerDisconnected(peer: PeerId)

  /** Only the first connection and the closing of the last one are reported. */
  function PeerEventsOf(ev: Event): seq<PeerEvent> {
    match ev
    case ConnectionEstablished(peer, n) => if n == 1 then [PeerConnected(peer)] else []
    case ConnectionClosed(peer, n) => if n == 0 then [PeerDisconnected(peer)] else []
    case _ => []
  }

  /** The events sent to the frontend for a history of swarm events. */
  function Emissions(history: seq<Event>): seq<PeerEvent> {
    if history == [] then [] else Emissions(history[..|history| - 1]) + PeerEventsOf(history[|history| - 1])
  }

  /** The number of open connections to a peer after a history. */
  function Connections(history: seq<Event>, p: PeerId): int {
    if history == [] then 0 else
    var n := Connections(history[..|history| - 1], p);
    match history[|history| - 1]
    case ConnectionEstablished(peer, _) => if peer == p then n + 1 else n
    case ConnectionClosed(peer, _) => if peer == p then n - 1 else n
    case _ => n
  }

  /** The swarm reports, with each connection event, the number of connections that are then open. */
  ghost predicate IsLegal(history: seq<Event>) {
    history == [] ||
    (IsLegal(history[..|history| - 1]) &&
     match history[|history| - 1]
     case ConnectionEstablished(p, n) => n == Connections(history, p) && n >= 1
     case ConnectionClosed(p, n) => n == Connections(history, p) && n >= 0
     case _ => true)
  }

  /** The events of one peer, in order: true for connected. */
  function OfPeer(events: seq<PeerEvent>, p: PeerId): seq<bool> {
    if events == [] then [] else
    OfPeer(events[..|events| - 1], p)
    + (if events[|events| - 1].peer == p then [events[|events| - 1].PeerConnected?] else [])
  }

  lemma {:induction false} OfPeerConcat(a: seq<PeerEvent>, b: seq<PeerEvent>, p: PeerId)
    ensures OfPeer(a + b, p) == OfPeer(a, p) + OfPeer(b, p)
  {
    if b == [] {
      assert a + b == a;
    } else {
      assert (a + b)[..|a + b| - 1] == a + b[..|b| - 1];
      OfPeerConcat(a, b[..|b| - 1], p);
    }
  }

  predicate Alternates(view: seq<bool>) {
    forall i :: 0 <= i < |view| ==> view[i] == (i % 2 == 0)
  }

  predicate EndsConnected(view: seq<bool>) {
    view != [] && view[|view| - 1]
  }

  lemma AlternatesOneMore(view: seq<bool>, connected: bool)
    requires Alternates(view) && connected != EndsConnected(view)
    ensures Alternates(view + [connected]) && EndsConnected(view + [connected]) == connected
  {
  }

  /** What one more event does to the events of a peer and to its connections. */
  lemma OneMoreEvent(history: seq<Event>, p: PeerId)
    requires IsLegal(history) && history != []
    ensures var earlier, ev := history[..|history| - 1], history[|history| - 1];
            var view, n := OfPeer(Emissions(history), p), Connections(history, p);
            && IsLegal(earlier) && n >= (if n == Connections(earlier, p) then n else 0)
            && (n == 1 && Connections(earlier, p) == 0 ==> view == OfPeer(Emissions(earlier), p) + [true])
            && (n == 0 && Connections(earlier, p) == 1 ==> view == OfPeer(Emissions(earlier), p) + [false])
            && ((n > 0) == (Connections(earlier, p) > 0) && Connections(earlier, p) >= 0 ==>
                  view == OfPeer(Emissions(earlier), p))
            && Connections(earlier, p) - 1 <= n <= Connections(earlier, p) + 1
  {
    var earlier, ev := history[..|history| - 1], history[|history| - 1];
    var news := PeerEventsOf(ev);
    OfPeerConcat(Emissions(earlier), news, p);
    if news != [] {
      assert news[..0] == [] && news[0] == news[|news| - 1];
    }
  }

  /** For every legal history, the events of each peer alternate, beginning with connected, and the last
      one says whether the peer has a connection. */
  lemma {:induction false} PeerEventsAlternate(history: seq<Event>, p: PeerId)
    requires IsLegal(history)
    ensures var view := OfPeer(Emissions(history), p);
            Alternates(view) && (Connections(history, p) > 0 <==> view != [] && view[|view| - 1])
    ensures Connections(history, p) >= 0
  {
    if history != [] {
      hide IsLegal, PeerEventsOf, OfPeer, Emissions, Connections, Alternates;
      var earlier := history[..|history| - 1];
      OneMoreEvent(history, p);
      PeerEventsAlternate(earlier, p);
      var before := OfPeer(Emissions(earlier), p);
      if !EndsConnected(before) { AlternatesOneMore(before, true); } else { AlternatesOneMore(before, false); }
    }
  }
}
