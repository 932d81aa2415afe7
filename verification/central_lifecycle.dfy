/** The life of an outgoing peer in the Central controller: which table holds it, and how
    commands, dial and probe results, leases and closures move it from one to another. */
module CentralLifecycle {
  import opened Types
  import opened Messages
  import opened CentralModel
  import opened CentralTables
  import opened CentralEffects
  import opened Node
  import opened NodeAccounting

  /** The table that holds a peer, with its flag: being probed (and wanted since), being
      dialled (and unwanted since), in the view list, or in the removal list. */
  datatype Place = Nowhere | Probed(wanted: bool) | Dialled(unwanted: bool) | InView | Leaving

  function PlaceOf(c: Central, p: Peer): Place {
    if p in c.view then InView
    else if p in c.awaiting then Leaving
    else if p in c.creating then Dialled(c.creating[p])
    else if p in c.probing then Probed(c.probing[p])
    else Nowhere
  }

  /** The controller is on course to use this peer. */
  predicate Intends(a: Place) {
    a == InView || a == Dialled(false) || a == Probed(true)
  }

  function Added(a: Place): Place {
    match a
    case Nowhere | Dialled(_) => Dialled(false)
    case Probed(_) => Probed(true)
    case InView | Leaving => InView
  }

  function Ordered(a: Place): Place {
    match a
    case Dialled(_) => Dialled(true)
    case Probed(_) => Probed(false)
    case InView | Leaving => Leaving
    case Nowhere => Nowhere
  }

  function AskedFor(a: Place): Place {
    if a.Probed? || a.Nowhere? then Probed(false) else a
  }

  /** The moves that a message allows a peer outside the shutdown; an entry on the removal
      list may go as soon as it has no reason to stay. */
  ghost predicate Moves(m: Msg, p: Peer, a: Place, b: Place) {
    || b == Moved(m, p, a)
    || (b == Nowhere && Moved(m, p, a) == Leaving && (a == Leaving ==> !m.PeerRemove?))
  }

  function Moved(m: Msg, p: Peer, a: Place): Place {
    match m
    case PeerAdd(q, _) => if q == p then Added(a) else a
    case PeerRemove(q, _) => if q == p then Ordered(a) else a
    case ProbePeerRequest(q) => if q == p then AskedFor(a) else a
    case CentralProbePeerReply(q, _) => if q == p && a.Probed? then Nowhere else a
    case OutgoingP2PCreated(q) => if q == p && a.Dialled? then InView else a
    case _ => a
  }

  /** The peer was removed while it was being dialled, or added while it was being probed. */
  predicate DialUnwanted(c: Central, m: Msg) {
    m.OutgoingP2PCreated? && PlaceOf(c, m.peer) == Dialled(true)
  }

  predicate ProbeWanted(c: Central, m: Msg) {
    m.CentralProbePeerReply? && PlaceOf(c, m.peer) == Probed(true)
  }

  /** In these two cases, and only then, the controller queues a command for itself. */
  ghost predicate Corrects(c: Central, m: Msg, self: seq<Msg>) {
    && (DialUnwanted(c, m) ==> self == [PeerRemove(m.peer, true)])
    && (ProbeWanted(c, m) ==> self == [PeerAdd(m.peer, true)])
    && (!DialUnwanted(c, m) && !ProbeWanted(c, m) ==> self == [])
  }

  ghost predicate Lives(c: Central, m: Msg, r: Reply) {
    (forall p :: Moves(m, p, PlaceOf(c, p), PlaceOf(r.c, p))) && Corrects(c, m, r.self)
  }

  // ---- Handlers --------------------------------------------------------------------

  /** Only this peer moved. */
  ghost predicate MovesTo(c: Central, p: Peer, b: Place, c1: Central) {
    PlaceOf(c1, p) == b && forall q :: q != p ==> PlaceOf(c1, q) == PlaceOf(c, q)
  }

  lemma MarkedDialled(c: Central, p: Peer, b: bool, c1: Central)
    requires Disjoint(c) && c1 == c.(creating := c.creating[p := b]) && p !in c.view && p !in c.awaiting
    ensures MovesTo(c, p, Dialled(b), c1)
  {
  }

  lemma MarkedProbed(c: Central, p: Peer, b: bool, c1: Central)
    requires Disjoint(c) && c1 == c.(probing := c.probing[p := b])
    requires p !in c.view && p !in c.awaiting && p !in c.creating
    ensures MovesTo(c, p, Probed(b), c1)
  {
  }

  lemma Returned(c: Central, p: Peer, c1: Central)
    requires Disjoint(c) && p in c.awaiting
    requires c1 == c.(awaiting := c.awaiting - {p}, view := c.view[p := c.awaiting[p]])
    ensures MovesTo(c, p, InView, c1)
  {
  }

  lemma AddMarks(c: Central, p: Peer, c1: Central)
    requires Disjoint(c) && c1 == PeerAddHandler(c, p).c && p !in c.view && p !in c.awaiting
    ensures MovesTo(c, p, Added(PlaceOf(c, p)), c1)
  {
    if p in c.creating || p !in c.probing {
      MarkedDialled(c, p, false, c1);
    } else {
      MarkedProbed(c, p, true, c1);
    }
  }

  lemma AddMoves(c: Central, p: Peer, c1: Central)
    requires Disjoint(c) && c1 == PeerAddHandler(c, p).c
    ensures MovesTo(c, p, Added(PlaceOf(c, p)), c1)
  {
    if p in c.view {
      assert c1 == c;
    } else if p in c.awaiting {
      Returned(c, p, c1);
    } else {
      AddMarks(c, p, c1);
    }
  }

  lemma AddLives(c: Central, p: Peer, self: bool, r: Reply)
    requires Disjoint(c) && r == PeerAddHandler(c, p)
    ensures Lives(c, PeerAdd(p, self), r)
  {
    AddMoves(c, p, r.c);
    AddDials(c, p, r);
  }

  lemma Departed(c: Central, p: Peer, c1: Central)
    requires Disjoint(c) && p in c.view
    requires c1 == c.(view := c.view - {p}, awaiting := RemoveIfUnused(c.awaiting[p := c.view[p]], p))
    ensures MovesTo(c, p, Leaving, c1) || MovesTo(c, p, Nowhere, c1)
  {
    RemoveIfUnusedEffect(c.awaiting[p := c.view[p]], p, c1.awaiting);
  }

  lemma RemoveMovesPeer(c: Central, p: Peer, c1: Central)
    requires Disjoint(c) && c1 == PeerRemoveHandler(c, p).c
    ensures MovesTo(c, p, Ordered(PlaceOf(c, p)), c1) || (p in c.view && MovesTo(c, p, Nowhere, c1))
  {
    if p in c.view {
      Departed(c, p, c1);
    } else {
      RemoveMarksPeer(c, p, c1);
    }
  }

  lemma RemoveMarksPeer(c: Central, p: Peer, c1: Central)
    requires Disjoint(c) && p !in c.view && c1 == PeerRemoveHandler(c, p).c
    ensures MovesTo(c, p, Ordered(PlaceOf(c, p)), c1)
  {
    if p in c.awaiting {
      assert c1 == c;
    } else if p in c.creating {
      MarkedDialled(c, p, true, c1);
    } else if p in c.probing {
      MarkedProbed(c, p, false, c1);
    } else {
      assert c1 == c;
    }
  }

  lemma RemoveLives(c: Central, p: Peer, self: bool, r: Reply)
    requires Disjoint(c) && r == PeerRemoveHandler(c, p)
    ensures Lives(c, PeerRemove(p, self), r)
  {
    RemoveMovesPeer(c, p, r.c);
    RemoveQuiet(c, p, r);
  }

  lemma ProbeMoves(c: Central, p: Peer, c1: Central)
    requires Disjoint(c) && c1 == ProbeRequestHandler(c, p).c
    ensures MovesTo(c, p, AskedFor(PlaceOf(c, p)), c1)
  {
    if p in c.view || p in c.awaiting || p in c.creating {
      assert c1 == c;
    } else {
      MarkedProbed(c, p, false, c1);
    }
  }

  lemma ProbeSelf(c: Central, p: Peer, r: Reply)
    requires r == ProbeRequestHandler(c, p)
    ensures r.self == []
  {
  }

  lemma ProbeLives(c: Central, p: Peer, r: Reply)
    requires Disjoint(c) && r == ProbeRequestHandler(c, p)
    ensures Lives(c, ProbePeerRequest(p), r)
  {
    ProbeMoves(c, p, r.c);
    ProbeSelf(c, p, r);
  }

  lemma ProbeReplyMoves(c: Central, p: Peer, alive: bool, c1: Central)
    requires Disjoint(c) && c1 == ProbeReplyHandler(c, p, alive).c
    ensures p in c.probing ==> MovesTo(c, p, Nowhere, c1)
    ensures p !in c.probing ==> c1 == c
  {
    if p in c.probing {
      assert c1 == c.(probing := c.probing - {p});
    }
  }

  lemma ProbeReplySelf(c: Central, p: Peer, alive: bool, r: Reply)
    requires r == ProbeReplyHandler(c, p, alive) && r.outcome != Panic
    ensures r.self == if p in c.probing && c.probing[p] then [PeerAdd(p, true)] else []
  {
  }

  lemma ProbeReplyLives(c: Central, p: Peer, alive: bool, r: Reply)
    requires Disjoint(c) && r == ProbeReplyHandler(c, p, alive) && r.outcome != Panic
    ensures Lives(c, CentralProbePeerReply(p, alive), r)
  {
    ProbeReplyMoves(c, p, alive, r.c);
    ProbeReplySelf(c, p, alive, r);
  }

  lemma CreatedLives(c: Central, p: Peer, r: Reply)
    requires Disjoint(c) && r == OutgoingCreatedHandler(c, p)
    ensures Lives(c, OutgoingP2PCreated(p), r)
  {
    hide Moved;
    CreatedMoves(c, p, r);
  }

  lemma CreatedMoves(c: Central, p: Peer, r: Reply)
    requires Disjoint(c) && r == OutgoingCreatedHandler(c, p)
    ensures forall q :: PlaceOf(r.c, q) == Moved(OutgoingP2PCreated(p), q, PlaceOf(c, q))
  {
    if p in c.creating {
      assert r.c == c.(creating := c.creating - {p}, total := c.total + 2, view := c.view[p := FRESH_PEER]);
    } else {
      assert r.c == c;
    }
  }

  /** Messages that at most let entries on the removal list go. */
  predicate IsOther(m: Msg) {
    !m.PeerAdd? && !m.PeerRemove? && !m.ProbePeerRequest? && !m.CentralProbePeerReply? && !m.OutgoingP2PCreated?
  }

  lemma OtherLives(c: Central, m: Msg, r: Reply)
    requires Disjoint(c) && Disjoint(r.c) && IsOther(m) && r.self == []
    requires r.c.view.Keys == c.view.Keys && r.c.awaiting.Keys <= c.awaiting.Keys
    requires r.c.creating == c.creating && r.c.probing == c.probing
    ensures Lives(c, m, r)
  {
    forall p ensures Moves(m, p, PlaceOf(c, p), PlaceOf(r.c, p)) {
      assert p in r.c.view <==> p in c.view;
      assert p in r.c.awaiting ==> p in c.awaiting;
    }
  }

  lemma ClosedKeys(c: Central, p: Peer, isReader: bool, crashed: bool, r: Reply)
    requires TablesOk(c) && !c.stopping && Runs(c, Routine(Outgoing(p), isReader))
    requires r == OutgoingClosedHandler(c, p, isReader, crashed)
    ensures r.c.view.Keys == c.view.Keys && r.c.awaiting.Keys <= c.awaiting.Keys && TablesOk(r.c)
    ensures r.c.creating == c.creating && r.c.probing == c.probing
  {
    hide OutgoingClosedHandler;
    OutgoingClosedSlot(c, p, isReader, crashed, r.c);
    forall q ensures q in r.c.view <==> q in c.view {
      assert q != p ==> SlotOf(r.c, q) == SlotOf(c, q);
    }
    forall q | q in r.c.awaiting ensures q in c.awaiting {
      assert q != p ==> SlotOf(r.c, q) == SlotOf(c, q);
    }
  }

  lemma IncomingClosedKeys(c: Central, p: Peer, isReader: bool, crashed: bool, r: Reply)
    requires r == IncomingClosedHandler(c, p, isReader, crashed)
    ensures r.c == c.(incoming := r.c.incoming, total := r.c.total)
  {
    hide BothStopped, Stopped, ClosedIfCrashed, ExitIfDone, IsRunning;
    if p in c.incoming && IsRunning(c.incoming[p], isReader) {
      var i := Stopped(c.incoming[p], isReader, crashed);
      if BothStopped(i) {
        assert r.c == c.(incoming := c.incoming - {p}, total := c.total - 1);
      } else {
        assert r.c == c.(incoming := c.incoming[p := ClosedIfCrashed(i)], total := c.total - 1);
      }
    } else {
      assert r.c == c;
    }
  }

  lemma APIClosedKeys(c: Central, cl: Client, isReader: bool, crashed: bool, r: Reply)
    requires r == APIClosedHandler(c, cl, isReader, crashed) && Runs(c, Routine(API(cl), isReader))
    ensures r.c.view == c.view && r.c.awaiting == c.awaiting && r.c.creating == c.creating && r.c.probing == c.probing
  {
    var i := StoppedClient(c.clients[cl], isReader, crashed);
    if !i.reader && !i.writer {
      assert r.c == c.(clients := c.clients - {cl}, total := c.total - 1);
    }
  }

  lemma ClosedLives(c: Central, x: Routine, crashed: bool, r: Reply)
    requires TablesOk(c) && !c.stopping && Runs(c, x) && r == EndpointClosedHandler(c, x, crashed)
    ensures Lives(c, EndpointClosed(x, crashed), r)
  {
    ClosedQuiet(c, x, crashed, r);
    match x.endpoint {
      case Outgoing(p) =>
        ClosedKeys(c, p, x.isReader, crashed, r);
      case Incoming(p) =>
        IncomingClosedKeys(c, p, x.isReader, crashed, r);
        IncomingClosedTables(c, p, x.isReader, crashed, r.c);
      case API(cl) =>
        APIClosedKeys(c, cl, x.isReader, crashed, r);
        APIClosedTables(c, cl, x.isReader, crashed, r.c);
    }
    OtherLives(c, EndpointClosed(x, crashed), r);
  }

  lemma RequestLives(c: Central, related: Option<Item>, num: nat, draw: seq<Peer>, r: Reply)
    requires TablesOk(c) && r == ListRequestHandler(c, related, draw)
    ensures Lives(c, RandomPeerListRequest(related, num), r)
  {
    RequestTables(c, draw, r.c);
    OtherLives(c, RandomPeerListRequest(related, num), r);
  }

  lemma ReleaseLives(c: Central, peers: seq<Peer>, r: Reply)
    requires TablesOk(c) && r == Quiet(ReleaseAll(c, peers))
    ensures Lives(c, RandomPeerListRelease(peers), r)
  {
    ReleaseAllTables(c, peers, r.c);
    OtherLives(c, RandomPeerListRelease(peers), r);
  }

  lemma AcceptedKeys(c: Central, m: Msg, draw: seq<Peer>, r: Reply)
    requires r == Handle(c, m, draw)
    requires m.IncomingP2PCreated? || m.APIEndpointCreated? || m.SubClosed?
    ensures r.c.view == c.view && r.c.awaiting == c.awaiting && r.c.creating == c.creating && r.c.probing == c.probing
    ensures r.self == []
  {
  }

  lemma AcceptedLives(c: Central, m: Msg, draw: seq<Peer>, r: Reply)
    requires TablesOk(c) && r == Handle(c, m, draw)
    requires m.IncomingP2PCreated? || m.APIEndpointCreated? || m.SubClosed?
    ensures Lives(c, m, r)
  {
    AcceptedKeys(c, m, draw, r);
    OtherLives(c, m, r);
  }

  lemma PassedLives(c: Central, m: Msg, draw: seq<Peer>, r: Reply)
    requires TablesOk(c) && r == Handle(c, m, draw)
    requires IsPassedOn(m)
    ensures Lives(c, m, r)
  {
    PassesOn(c, m, draw, r);
    OtherLives(c, m, r);
  }

  /** Outside the shutdown every handled message moves every peer along its life. */
  lemma HandledLives(c: Central, m: Msg, draw: seq<Peer>, r: Reply)
    requires TablesOk(c) && Expected(c, m) && !c.stopping && r == Handle(c, m, draw) && r.outcome != Panic
    requires !m.CentralClose? && (m.IncomingGossip? ==> FromOutside(m.gossip))
    ensures Lives(c, m, r)
  {
    hide PeerAddHandler, PeerRemoveHandler, ProbeRequestHandler, ProbeReplyHandler, OutgoingCreatedHandler,
      IncomingCreatedHandler, APICreatedHandler, EndpointClosedHandler, ListRequestHandler, ReleaseAll,
      ToOutgoing, ToIncoming, ToClient, ToGossiper, Lives, RemovalRule, AcceptedRun;
    match m {
      case PeerAdd(p, self) => AddLives(c, p, self, r);
      case PeerRemove(p, self) => RemoveLives(c, p, self, r);
      case ProbePeerRequest(p) => ProbeLives(c, p, r);
      case CentralProbePeerReply(p, alive) => ProbeReplyLives(c, p, alive, r);
      case OutgoingP2PCreated(p) => CreatedLives(c, p, r);
      case EndpointClosed(x, crashed) => ClosedLives(c, x, crashed, r);
      case RandomPeerListRequest(related, num) => RequestLives(c, related, num, draw, r);
      case RandomPeerListRelease(peers) => ReleaseLives(c, peers, r);
      case SubCrashed(_) =>
      case CentralCrash =>
      case IncomingP2PCreated(_) => AcceptedLives(c, m, draw, r);
      case APIEndpointCreated(_) => AcceptedLives(c, m, draw, r);
      case SubClosed(_) => AcceptedLives(c, m, draw, r);
      case _ => PassedLives(c, m, draw, r);
    }
  }
}
