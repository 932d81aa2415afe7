/** When the Central controller tells an endpoint to close, and what it remembers of crashes. */
module CentralClosing {
  import opened Types
  import opened Messages
  import opened CentralModel
  import opened CentralTables
  import opened CentralEffects
  import opened Node
  import opened NodeAccounting

  /** The endpoint is recorded. */
  predicate HasEntry(c: Central, e: Endpoint) {
    match e
    case Outgoing(p) => !SlotOf(c, p).Absent?
    case Incoming(p) => p in c.incoming
    case API(cl) => cl in c.clients
  }

  /** It is recorded that one of its goroutines ended with a crash. */
  predicate HasCrashed(c: Central, e: Endpoint) {
    match e
    case Outgoing(p) => !SlotOf(c, p).Absent? && SlotOf(c, p).i.crashed
    case Incoming(p) => p in c.incoming && c.incoming[p].crashed
    case API(cl) => cl in c.clients && c.clients[cl].crashed
  }

  /** The message is a reason to close the endpoint: the shutdown; a crash of the goroutine that
      ends now or of the one that ended before, while the other runs; a removal while no lease on
      the peer exists; or the last of its leases given back while it awaits removal. */
  predicate CallsForClosing(c: Central, m: Msg, e: Endpoint) {
    || m.CentralClose?
    || (m.EndpointClosed? && m.routine.endpoint == e && (m.crashed || HasCrashed(c, e))
        && Runs(c, Routine(e, !m.routine.isReader)))
    || (m.PeerRemove? && e == Outgoing(m.peer) && m.peer in c.view && Usage(c, m.peer) <= 0)
    || (m.RandomPeerListRelease? && e.Outgoing? && e.peer in c.awaiting && e.peer in m.peers
        && Usage(c, e.peer) <= multiset(m.peers)[e.peer])
  }

  /** An endpoint that stays recorded is told to close for a reason and otherwise stays as it was,
      and only a crash is recorded as one; a new one starts with neither. */
  ghost predicate FlagsFollow(c: Central, m: Msg, c1: Central, e: Endpoint) {
    && (HasEntry(c, e) && HasEntry(c1, e) ==>
          && (Told(c1, e) <==> Told(c, e) || CallsForClosing(c, m, e))
          && (HasCrashed(c1, e) <==>
                HasCrashed(c, e) || (m.EndpointClosed? && m.routine.endpoint == e && m.crashed)))
    && (!HasEntry(c, e) && HasEntry(c1, e) ==> !Told(c1, e) && !HasCrashed(c1, e))
  }

  /** Neither flag of any endpoint has changed. */
  ghost predicate SameFlags(c: Central, c1: Central) {
    forall e :: HasEntry(c1, e) ==>
      if HasEntry(c, e) then (Told(c1, e) <==> Told(c, e)) && (HasCrashed(c1, e) <==> HasCrashed(c, e))
      else !Told(c1, e) && !HasCrashed(c1, e)
  }

  lemma SameSlotsFlags(c: Central, c1: Central)
    requires SameSlots(c, c1)
    ensures SameFlags(c, c1)
  {
  }

  lemma OnlySlotFlags(c: Central, c1: Central, p: Peer)
    requires OnlySlot(c, c1, p)
    requires !SlotOf(c, p).Absent? && !SlotOf(c1, p).Absent? ==>
      SlotOf(c1, p).i.closed == SlotOf(c, p).i.closed && SlotOf(c1, p).i.crashed == SlotOf(c, p).i.crashed
    requires SlotOf(c, p).Absent? && !SlotOf(c1, p).Absent? ==> !SlotOf(c1, p).i.closed && !SlotOf(c1, p).i.crashed
    ensures SameFlags(c, c1)
  {
  }

  lemma FlagsKept(c: Central, m: Msg, c1: Central, e: Endpoint)
    requires SameFlags(c, c1) && !m.CentralClose? && !m.EndpointClosed? && !m.PeerRemove? && !m.RandomPeerListRelease?
    ensures FlagsFollow(c, m, c1, e)
  {
  }

  lemma AddFlags(c: Central, m: Msg, c1: Central, e: Endpoint)
    requires TablesOk(c) && m.PeerAdd? && c1 == PeerAddHandler(c, m.peer).c
    ensures FlagsFollow(c, m, c1, e)
  {
    hide SameFlags, PeerAddHandler;
    AddTables(c, m.peer, c1);
    if m.peer in c.awaiting {
      OnlySlotFlags(c, c1, m.peer);
    } else {
      SameSlotsFlags(c, c1);
    }
    FlagsKept(c, m, c1, e);
  }

  lemma RemoveFlags(c: Central, m: Msg, c1: Central, e: Endpoint)
    requires TablesOk(c) && m.PeerRemove? && c1 == PeerRemoveHandler(c, m.peer).c
    ensures FlagsFollow(c, m, c1, e)
  {
    hide PeerRemoveHandler;
    RemoveTables(c, m.peer, c1);
  }

  lemma ProbeFlags(c: Central, m: Msg, draw: seq<Peer>, r: Reply, e: Endpoint)
    requires TablesOk(c) && (m.ProbePeerRequest? || m.CentralProbePeerReply?) && r == Handle(c, m, draw)
    ensures FlagsFollow(c, m, r.c, e)
  {
    hide SameFlags, FlagsFollow, ProbeRequestHandler, ProbeReplyHandler;
    if m.ProbePeerRequest? {
      ProbeTables(c, m.peer, r.c);
    } else {
      ProbeReplyTables(c, m.peer, m.alive, r.c);
    }
    SameSlotsFlags(c, r.c);
    FlagsKept(c, m, r.c, e);
  }

  lemma DialledFlags(c: Central, m: Msg, c1: Central, e: Endpoint)
    requires TablesOk(c) && m.OutgoingP2PCreated? && m.peer in c.creating && c1 == OutgoingCreatedHandler(c, m.peer).c
    ensures FlagsFollow(c, m, c1, e)
  {
    hide SameFlags, FlagsFollow, OutgoingCreatedHandler;
    CreatedTables(c, m.peer, c1);
    OnlySlotFlags(c, c1, m.peer);
    FlagsKept(c, m, c1, e);
  }

  /** A connection or a client that is accepted was not recorded before. */
  lemma AcceptedFlags(c: Central, m: Msg, draw: seq<Peer>, r: Reply, e: Endpoint)
    requires r == Handle(c, m, draw) && (m.IncomingP2PCreated? || m.APIEndpointCreated? || m.SubClosed?)
    ensures FlagsFollow(c, m, r.c, e)
  {
    hide FlagsFollow, SameFlags, IncomingCreatedHandler, APICreatedHandler;
    match m
    case IncomingP2PCreated(p) => IncomingAccepted(c, p, r.c); FlagsKept(c, m, r.c, e);
    case APIEndpointCreated(cl) => ClientAccepted(c, cl, r.c); FlagsKept(c, m, r.c, e);
    case SubClosed(_) => SameSlotsFlags(c, r.c); FlagsKept(c, m, r.c, e);
  }

  lemma IncomingAccepted(c: Central, p: Peer, c1: Central)
    requires c1 == IncomingCreatedHandler(c, p).c
    ensures SameFlags(c, c1)
  {
    if c1 != c {
      assert c1 == c.(total := c.total + 2, incoming := c.incoming[p := FRESH_PEER]) && p !in c.incoming;
    }
  }

  lemma ClientAccepted(c: Central, cl: Client, c1: Central)
    requires c1 == APICreatedHandler(c, cl).c
    ensures SameFlags(c, c1)
  {
    if c1 != c {
      assert c1 == c.(total := c.total + 2, clients := c.clients[cl := FRESH_CLIENT]) && cl !in c.clients;
    }
  }

  lemma RequestFlags(c: Central, m: Msg, draw: seq<Peer>, c1: Central, e: Endpoint)
    requires m.RandomPeerListRequest? && c1 == c.(view := Leased(c.view, draw))
    ensures FlagsFollow(c, m, c1, e)
  {
  }

  lemma ReleaseOneFlags(c: Central, q: Peer, c1: Central, p: Peer)
    requires TablesOk(c) && c1 == ReleaseOne(c, q) && !SlotOf(c1, p).Absent?
    ensures TablesOk(c1) && !SlotOf(c, p).Absent?
    ensures SlotOf(c1, p).Awaited? <==> SlotOf(c, p).Awaited?
    ensures Usage(c1, p) == Usage(c, p) - if p == q then 1 else 0
    ensures SlotOf(c1, p).i.crashed == SlotOf(c, p).i.crashed
    ensures SlotOf(c1, p).i.closed <==>
      SlotOf(c, p).i.closed || (p == q && SlotOf(c, p).Awaited? && Usage(c, p) <= 1)
  {
    ReleaseOneSlots(c, q, c1);
  }

  lemma {:induction false} ReleaseAllFlags(c: Central, peers: seq<Peer>, c1: Central, p: Peer)
    requires TablesOk(c) && c1 == ReleaseAll(c, peers) && !SlotOf(c1, p).Absent?
    ensures !SlotOf(c, p).Absent? && SlotOf(c1, p).i.crashed == SlotOf(c, p).i.crashed
    ensures SlotOf(c1, p).i.closed <==>
      SlotOf(c, p).i.closed || (SlotOf(c, p).Awaited? && p in peers && Usage(c, p) <= multiset(peers)[p])
    decreases |peers|
  {
    hide TablesOk, ReleaseOne, Usage, SlotOf;
    if peers != [] {
      var mid, rest := ReleaseOne(c, peers[0]), peers[1..];
      assert peers == [peers[0]] + rest;
      ReleaseOneTables(c, peers[0], mid);
      ReleaseAllFlags(mid, rest, c1, p);
      ReleaseOneFlags(c, peers[0], mid, p);
    }
  }

  lemma ReleaseFlags(c: Central, m: Msg, c1: Central, e: Endpoint)
    requires TablesOk(c) && m.RandomPeerListRelease? && c1 == ReleaseAll(c, m.peers)
    ensures FlagsFollow(c, m, c1, e)
  {
    hide ReleaseAll;
    ReleaseAllTables(c, m.peers, c1);
    if e.Outgoing? && !SlotOf(c1, e.peer).Absent? {
      ReleaseAllFlags(c, m.peers, c1, e.peer);
    }
  }

  lemma CloseFlags(c: Central, m: Msg, c1: Central, e: Endpoint)
    requires m.CentralClose? && c1 == ClosedTables(c)
    ensures FlagsFollow(c, m, c1, e)
  {
  }

  // ---- Closures --------------------------------------------------------------------

  lemma OutgoingClosedFlags(c: Central, m: Msg, p: Peer, c1: Central, e: Endpoint)
    requires TablesOk(c) && m.EndpointClosed? && m.routine.endpoint == Outgoing(p) && Runs(c, m.routine)
    requires c1 == OutgoingClosedHandler(c, p, m.routine.isReader, m.crashed).c
    ensures FlagsFollow(c, m, c1, e)
  {
    hide OutgoingClosedHandler, TablesOk;
    OutgoingClosedSlot(c, p, m.routine.isReader, m.crashed, c1);
    if e != Outgoing(p) {
      OutgoingElsewhere(c, p, c1, e);
    }
  }

  lemma OutgoingElsewhere(c: Central, p: Peer, c1: Central, e: Endpoint)
    requires OnlySlot(c, c1, p) && e != Outgoing(p)
    ensures (Told(c1, e) <==> Told(c, e)) && (HasCrashed(c1, e) <==> HasCrashed(c, e))
    ensures HasEntry(c1, e) <==> HasEntry(c, e)
  {
  }

  /** The record of a connection or a client that keeps one goroutine. */
  lemma IncomingFirst(c: Central, p: Peer, isReader: bool, crashed: bool, c1: Central)
    requires Runs(c, Routine(Incoming(p), isReader)) && c1 == IncomingClosedHandler(c, p, isReader, crashed).c
    ensures Runs(c, Routine(Incoming(p), !isReader)) ==>
      && p in c1.incoming && c1 == c.(incoming := c.incoming[p := c1.incoming[p]], total := c.total - 1)
      && c1.incoming[p].crashed == (crashed || c.incoming[p].crashed)
      && c1.incoming[p].closed == (crashed || c.incoming[p].crashed || c.incoming[p].closed)
    ensures !Runs(c, Routine(Incoming(p), !isReader)) ==>
      c1 == c.(incoming := c.incoming - {p}, total := c.total - 1)
  {
  }

  lemma ClientFirst(c: Central, cl: Client, isReader: bool, crashed: bool, c1: Central)
    requires Runs(c, Routine(API(cl), isReader)) && c1 == APIClosedHandler(c, cl, isReader, crashed).c
    ensures Runs(c, Routine(API(cl), !isReader)) ==>
      && cl in c1.clients && c1 == c.(clients := c.clients[cl := c1.clients[cl]], total := c.total - 1)
      && c1.clients[cl].crashed == (crashed || c.clients[cl].crashed)
      && c1.clients[cl].closed == (crashed || c.clients[cl].crashed || c.clients[cl].closed)
    ensures !Runs(c, Routine(API(cl), !isReader)) ==> c1 == c.(clients := c.clients - {cl}, total := c.total - 1)
  {
  }

  /** A closure concerns the flags of its own endpoint. */
  lemma ClosureFlags(c: Central, m: Msg, c1: Central, e: Endpoint)
    requires m.EndpointClosed?
    requires HasEntry(c1, e) ==> HasEntry(c, e)
    requires e != m.routine.endpoint ==> (Told(c1, e) <==> Told(c, e)) && (HasCrashed(c1, e) <==> HasCrashed(c, e))
    requires e == m.routine.endpoint && HasEntry(c1, e) && Runs(c, Routine(e, !m.routine.isReader)) ==>
      && (Told(c1, e) <==> Told(c, e) || m.crashed || HasCrashed(c, e))
      && (HasCrashed(c1, e) <==> HasCrashed(c, e) || m.crashed)
    requires e == m.routine.endpoint && HasEntry(c1, e) ==> Runs(c, Routine(e, !m.routine.isReader))
    ensures FlagsFollow(c, m, c1, e)
  {
    hide Told, HasCrashed, HasEntry, Runs;
  }

  lemma IncomingElsewhere(c: Central, p: Peer, c1: Central, e: Endpoint)
    requires e != Incoming(p)
    requires c1 == c.(incoming := c.incoming - {p}, total := c1.total)
      || (p in c1.incoming && c1 == c.(incoming := c.incoming[p := c1.incoming[p]], total := c1.total))
    ensures (Told(c1, e) <==> Told(c, e)) && (HasCrashed(c1, e) <==> HasCrashed(c, e))
    ensures HasEntry(c1, e) ==> HasEntry(c, e)
  {
  }

  lemma ClientElsewhere(c: Central, cl: Client, c1: Central, e: Endpoint)
    requires e != API(cl)
    requires c1 == c.(clients := c.clients - {cl}, total := c1.total)
      || (cl in c1.clients && c1 == c.(clients := c.clients[cl := c1.clients[cl]], total := c1.total))
    ensures (Told(c1, e) <==> Told(c, e)) && (HasCrashed(c1, e) <==> HasCrashed(c, e))
    ensures HasEntry(c1, e) ==> HasEntry(c, e)
  {
  }

  lemma IncomingOwnFlags(c: Central, m: Msg, p: Peer, c1: Central)
    requires m.EndpointClosed? && m.routine.endpoint == Incoming(p) && Runs(c, m.routine)
    requires c1 == IncomingClosedHandler(c, p, m.routine.isReader, m.crashed).c
    ensures FlagsFollow(c, m, c1, Incoming(p))
  {
    hide IncomingClosedHandler, IsRunning, FlagsFollow;
    IncomingFirst(c, p, m.routine.isReader, m.crashed, c1);
    ClosureFlags(c, m, c1, Incoming(p));
  }

  lemma ClientOwnFlags(c: Central, m: Msg, cl: Client, c1: Central)
    requires m.EndpointClosed? && m.routine.endpoint == API(cl) && Runs(c, m.routine)
    requires c1 == APIClosedHandler(c, cl, m.routine.isReader, m.crashed).c
    ensures FlagsFollow(c, m, c1, API(cl))
  {
    hide APIClosedHandler, ClientRuns, FlagsFollow;
    ClientFirst(c, cl, m.routine.isReader, m.crashed, c1);
    ClosureFlags(c, m, c1, API(cl));
  }

  lemma IncomingClosedFlags(c: Central, m: Msg, p: Peer, c1: Central, e: Endpoint)
    requires m.EndpointClosed? && m.routine.endpoint == Incoming(p) && Runs(c, m.routine)
    requires c1 == IncomingClosedHandler(c, p, m.routine.isReader, m.crashed).c
    ensures FlagsFollow(c, m, c1, e)
  {
    hide IncomingClosedHandler, FlagsFollow, Runs, Told, HasCrashed, HasEntry;
    if e == Incoming(p) {
      IncomingOwnFlags(c, m, p, c1);
    } else {
      assert m.routine == Routine(Incoming(p), m.routine.isReader);
      IncomingFirst(c, p, m.routine.isReader, m.crashed, c1);
      IncomingElsewhere(c, p, c1, e);
      ElsewhereFlags(c, m, c1, e);
    }
  }

  lemma APIClosedFlags(c: Central, m: Msg, cl: Client, c1: Central, e: Endpoint)
    requires m.EndpointClosed? && m.routine.endpoint == API(cl) && Runs(c, m.routine)
    requires c1 == APIClosedHandler(c, cl, m.routine.isReader, m.crashed).c
    ensures FlagsFollow(c, m, c1, e)
  {
    hide APIClosedHandler, FlagsFollow, Runs, Told, HasCrashed, HasEntry;
    if e == API(cl) {
      ClientOwnFlags(c, m, cl, c1);
    } else {
      assert m.routine == Routine(API(cl), m.routine.isReader);
      ClientFirst(c, cl, m.routine.isReader, m.crashed, c1);
      ClientElsewhere(c, cl, c1, e);
      ElsewhereFlags(c, m, c1, e);
    }
  }

  lemma ElsewhereFlags(c: Central, m: Msg, c1: Central, e: Endpoint)
    requires m.EndpointClosed? && e != m.routine.endpoint && (HasEntry(c1, e) ==> HasEntry(c, e))
    requires (Told(c1, e) <==> Told(c, e)) && (HasCrashed(c1, e) <==> HasCrashed(c, e))
    ensures FlagsFollow(c, m, c1, e)
  {
    hide Told, HasCrashed, HasEntry;
  }

  lemma ClosedFlags(c: Central, m: Msg, c1: Central, e: Endpoint)
    requires TablesOk(c) && m.EndpointClosed? && Runs(c, m.routine)
    requires c1 == EndpointClosedHandler(c, m.routine, m.crashed).c
    ensures FlagsFollow(c, m, c1, e)
  {
    hide OutgoingClosedHandler, IncomingClosedHandler, APIClosedHandler, FlagsFollow, Runs, TablesOk;
    match m.routine.endpoint
    case Outgoing(p) => OutgoingClosedFlags(c, m, p, c1, e);
    case Incoming(p) => IncomingClosedFlags(c, m, p, c1, e);
    case API(cl) => APIClosedFlags(c, m, cl, c1, e);
  }

  /** Every handled message tells exactly the endpoints to close for which it is a reason, and
      records exactly the crashes reported. */
  lemma ToldIff(c: Central, m: Msg, draw: seq<Peer>, r: Reply, e: Endpoint)
    requires TablesOk(c) && Expected(c, m) && r == Handle(c, m, draw) && r.outcome != Panic
    requires m.IncomingGossip? ==> FromOutside(m.gossip)
    ensures FlagsFollow(c, m, r.c, e)
  {
    hide PeerAddHandler, PeerRemoveHandler, ProbeRequestHandler, ProbeReplyHandler, OutgoingCreatedHandler,
      IncomingCreatedHandler, APICreatedHandler, EndpointClosedHandler, ReleaseAll, SubClosedHandler, Leased,
      ClosedTables, ToOutgoing, ToIncoming, ToClient, ToGossiper, PushRequestHandler, FlagsFollow, TablesOk, Runs,
      SameFlags;
    match m {
      case PeerAdd(_, _) => AddFlags(c, m, r.c, e);
      case PeerRemove(_, _) => RemoveFlags(c, m, r.c, e);
      case ProbePeerRequest(_) => ProbeFlags(c, m, draw, r, e);
      case CentralProbePeerReply(_, _) => ProbeFlags(c, m, draw, r, e);
      case OutgoingP2PCreated(_) => DialledFlags(c, m, r.c, e);
      case IncomingP2PCreated(_) => AcceptedFlags(c, m, draw, r, e);
      case APIEndpointCreated(_) => AcceptedFlags(c, m, draw, r, e);
      case SubClosed(_) => AcceptedFlags(c, m, draw, r, e);
      case EndpointClosed(_, _) => ClosedFlags(c, m, r.c, e);
      case RandomPeerListRequest(_, _) => RequestFlags(c, m, draw, r.c, e);
      case RandomPeerListRelease(_) => ReleaseFlags(c, m, r.c, e);
      case CentralClose => CloseFlags(c, m, r.c, e);
      case SubCrashed(_) =>
      case CentralCrash =>
      case _ => PassedFlags(c, m, draw, r, e);
    }
  }

  lemma PassedFlags(c: Central, m: Msg, draw: seq<Peer>, r: Reply, e: Endpoint)
    requires r == Handle(c, m, draw) && IsPassedOn(m)
    ensures FlagsFollow(c, m, r.c, e)
  {
    hide Handle;
    PassesOn(c, m, draw, r);
  }
}
