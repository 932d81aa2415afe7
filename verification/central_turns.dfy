/** What one handled message makes the Central controller send, and when it tells an endpoint to
    close. */
module CentralTurns {
  import opened Types
  import opened Messages
  import opened CentralModel
  import opened CentralTables
  import opened CentralEffects
  import opened Node
  import opened NodeAccounting

  // ---- What is sent ----------------------------------------------------------------

  /** The controller keeps a record of an outgoing connection to the peer, or is dialling it. */
  predicate IsKnown(c: Central, p: Peer) {
    p in c.view || p in c.awaiting || p in c.creating
  }

  /** The report is of the end of a client's last goroutine. */
  predicate EndsClient(c: Central, m: Msg) {
    && m.EndpointClosed? && m.routine.endpoint.API?
    && Runs(c, m.routine) && !Runs(c, Routine(m.routine.endpoint, !m.routine.isReader))
  }

  /** The report is of the end of a peer's last goroutine, and nobody ordered its removal. */
  predicate LosesPeer(c: Central, m: Msg) {
    && m.EndpointClosed? && m.routine.endpoint.Outgoing? && m.routine.endpoint.peer in c.view && !c.stopping
    && Runs(c, m.routine) && !Runs(c, Routine(m.routine.endpoint, !m.routine.isReader))
  }

  /** What the Gossiper is told when a message is handled: what comes from outside, the peers
      drawn for a request together with the item it is for, the departure of a client, and the
      order to close; nothing else. */
  function ToldGossiper(c: Central, m: Msg, draw: seq<Peer>): seq<GossipMsg> {
    if m.IncomingGossip? then [m.gossip]
    else if m.RandomPeerListRequest? then [RandomPeerListReply(m.related, draw)]
    else if EndsClient(c, m) then [GossipUnnotify(m.routine.endpoint.client)]
    else if m.CentralClose? then [GossiperClose]
    else []
  }

  /** What the Membership controller is told: the answer to a request for a probe, at once or
      with the result of the probe, the loss of a connection, and the order to close. */
  function ToldMembership(c: Central, m: Msg): seq<MembershipMsg> {
    if m.ProbePeerRequest? && IsKnown(c, m.peer) then [ProbePeerReply(m.peer, true)]
    else if m.CentralProbePeerReply? && m.peer in c.probing then [ProbePeerReply(m.peer, m.alive)]
    else if LosesPeer(c, m) then [PeerDisconnected(m.routine.endpoint.peer)]
    else if m.CentralClose? then [MembershipClose]
    else []
  }

  ghost predicate Tells(c: Central, m: Msg, draw: seq<Peer>, r: Reply) {
    r.gossiper == ToldGossiper(c, m, draw) && r.membership == ToldMembership(c, m)
  }

  predicate NothingStarted(r: Reply) {
    r.started == multiset{} && r.dials == multiset{} && r.probes == multiset{}
  }

  // ---- What is started -------------------------------------------------------------

  /** A connection from a peer, or of a client, is accepted below capacity, once, outside the
      shutdown; the endpoint of a peer that was dialled always is. */
  predicate Accepts(c: Central, m: Msg) {
    || (m.OutgoingP2PCreated? && m.peer in c.creating)
    || (m.IncomingP2PCreated? && !c.stopping && m.peer !in c.incoming && |c.incoming| < c.incomingMax)
    || (m.APIEndpointCreated? && !c.stopping && m.client !in c.clients && |c.clients| < c.clientsMax)
  }

  /** The endpoint that such a message is about. */
  function Newcomer(m: Msg): Endpoint
    requires m.OutgoingP2PCreated? || m.IncomingP2PCreated? || m.APIEndpointCreated?
  {
    match m
    case OutgoingP2PCreated(p) => Outgoing(p)
    case IncomingP2PCreated(p) => Incoming(p)
    case APIEndpointCreated(cl) => API(cl)
  }

  /** Goroutines start for an endpoint that is accepted, a dial for a peer that is added and that
      the controller has nothing to do with yet, and a probe for one that is to be probed. */
  function GoroutinesStarted(c: Central, m: Msg): multiset<Routine> {
    if Accepts(c, m) then multiset{Routine(Newcomer(m), true), Routine(Newcomer(m), false)} else multiset{}
  }

  function DialsStarted(c: Central, m: Msg): multiset<Peer> {
    if m.PeerAdd? && !IsKnown(c, m.peer) && m.peer !in c.probing then multiset{m.peer} else multiset{}
  }

  function ProbesStarted(c: Central, m: Msg): multiset<Peer> {
    if m.ProbePeerRequest? && !IsKnown(c, m.peer) then multiset{m.peer} else multiset{}
  }

  ghost predicate Starts(c: Central, m: Msg, r: Reply) {
    r.started == GoroutinesStarted(c, m) && r.dials == DialsStarted(c, m) && r.probes == ProbesStarted(c, m)
  }

  lemma AddTells(c: Central, p: Peer, r: Reply)
    requires r == PeerAddHandler(c, p)
    ensures r.gossiper == [] && r.membership == [] && r.sent == [] && r.started == multiset{} && r.probes == multiset{}
    ensures r.dials == if !IsKnown(c, p) && p !in c.probing then multiset{p} else multiset{}
  {
  }

  lemma RemoveTells(c: Central, p: Peer, r: Reply)
    requires r == PeerRemoveHandler(c, p)
    ensures r == Quiet(r.c)
  {
    RemoveQuiet(c, p, r);
  }

  lemma ProbeTells(c: Central, p: Peer, r: Reply)
    requires r == ProbeRequestHandler(c, p) && r.outcome != Panic
    ensures r.gossiper == [] && r.sent == [] && r.started == multiset{} && r.dials == multiset{}
    ensures IsKnown(c, p) ==> r.membership == [ProbePeerReply(p, true)] && r.probes == multiset{}
    ensures !IsKnown(c, p) ==> r.membership == [] && r.probes == multiset{p}
  {
  }

  lemma ProbeReplyTells(c: Central, p: Peer, alive: bool, r: Reply)
    requires r == ProbeReplyHandler(c, p, alive) && r.outcome != Panic
    ensures r.gossiper == [] && r.sent == [] && NothingStarted(r)
    ensures r.membership == if p in c.probing then [ProbePeerReply(p, alive)] else []
  {
  }

  lemma DialledTells(c: Central, p: Peer, r: Reply)
    requires r == OutgoingCreatedHandler(c, p)
    ensures r.gossiper == [] && r.membership == [] && r.sent == [] && r.dials == multiset{} && r.probes == multiset{}
    ensures r.started == GoroutinesStarted(c, OutgoingP2PCreated(p))
  {
  }

  lemma IncomingTold(c: Central, p: Peer, r: Reply)
    requires r == IncomingCreatedHandler(c, p)
    ensures r.gossiper == [] && r.membership == [] && r.sent == [] && r.dials == multiset{} && r.probes == multiset{}
    ensures r.started == GoroutinesStarted(c, IncomingP2PCreated(p))
  {
  }

  lemma ClientTells(c: Central, cl: Client, r: Reply)
    requires r == APICreatedHandler(c, cl)
    ensures r.gossiper == [] && r.membership == [] && r.sent == [] && r.dials == multiset{} && r.probes == multiset{}
    ensures r.started == GoroutinesStarted(c, APIEndpointCreated(cl))
  {
  }

  lemma SubTells(c: Central, sub: Sub, r: Reply)
    requires r == SubClosedHandler(c, sub)
    ensures r.gossiper == [] && r.membership == [] && r.sent == [] && NothingStarted(r)
  {
  }

  lemma ListTells(c: Central, related: Option<Item>, draw: seq<Peer>, r: Reply)
    requires r == ListRequestHandler(c, related, draw) && r.outcome != Panic
    ensures r.gossiper == [RandomPeerListReply(related, draw)] && r.membership == [] && r.sent == []
    ensures NothingStarted(r)
  {
    hide Leased;
  }

  lemma GoneTells(c: Central, p: Peer, i: PeerInfo, awaited: bool, r: Reply)
    requires r == OutgoingGoneHandler(c, p, i, awaited) && r.outcome != Panic
    ensures r.gossiper == [] && r.sent == [] && NothingStarted(r)
    ensures r.membership == if !c.stopping && !awaited then [PeerDisconnected(p)] else []
  {
  }

  lemma OutgoingFirstTells(c: Central, p: Peer, isReader: bool, crashed: bool, r: Reply)
    requires r == OutgoingClosedHandler(c, p, isReader, crashed)
    requires !Runs(c, Routine(Outgoing(p), isReader)) || Runs(c, Routine(Outgoing(p), !isReader))
    ensures r.gossiper == [] && r.membership == [] && r.sent == [] && NothingStarted(r)
  {
  }

  lemma OutgoingLastTells(c: Central, p: Peer, isReader: bool, crashed: bool, r: Reply)
    requires Disjoint(c) && r == OutgoingClosedHandler(c, p, isReader, crashed) && r.outcome != Panic
    requires Runs(c, Routine(Outgoing(p), isReader)) && !Runs(c, Routine(Outgoing(p), !isReader))
    ensures r.gossiper == [] && r.sent == [] && NothingStarted(r)
    ensures r.membership == if p in c.view && !c.stopping then [PeerDisconnected(p)] else []
  {
    hide OutgoingClosedHandler, OutgoingGoneHandler, PutOutgoing, Stopped;
    var i := Stopped(SlotOf(c, p).i, isReader, crashed);
    OutgoingLastIs(c, p, isReader, crashed, r);
    PutKeepsStopping(c, p, i);
    GoneTells(PutOutgoing(c, p, i).(total := c.total - 1), p, i, p in c.awaiting, r);
  }

  lemma OutgoingLastIs(c: Central, p: Peer, isReader: bool, crashed: bool, r: Reply)
    requires r == OutgoingClosedHandler(c, p, isReader, crashed)
    requires Runs(c, Routine(Outgoing(p), isReader)) && !Runs(c, Routine(Outgoing(p), !isReader))
    ensures var i := Stopped(SlotOf(c, p).i, isReader, crashed);
      r == OutgoingGoneHandler(PutOutgoing(c, p, i).(total := c.total - 1), p, i, p in c.awaiting)
  {
    hide OutgoingGoneHandler, PutOutgoing, ClosedIfCrashed;
  }

  lemma PutKeepsStopping(c: Central, p: Peer, i: PeerInfo)
    ensures PutOutgoing(c, p, i).stopping == c.stopping
  {
  }

  lemma IncomingTells(c: Central, p: Peer, isReader: bool, crashed: bool, r: Reply)
    requires r == IncomingClosedHandler(c, p, isReader, crashed)
    ensures r.gossiper == [] && r.membership == [] && r.sent == [] && NothingStarted(r)
  {
  }

  lemma APITells(c: Central, cl: Client, isReader: bool, crashed: bool, r: Reply)
    requires r == APIClosedHandler(c, cl, isReader, crashed) && r.outcome != Panic
    ensures r.membership == [] && r.sent == [] && NothingStarted(r)
    ensures r.gossiper
      == if EndsClient(c, EndpointClosed(Routine(API(cl), isReader), crashed)) then [GossipUnnotify(cl)] else []
  {
  }

  lemma ClosedTells(c: Central, m: Msg, draw: seq<Peer>, r: Reply)
    requires Disjoint(c) && m.EndpointClosed?
    requires r == EndpointClosedHandler(c, m.routine, m.crashed) && r.outcome != Panic
    ensures Tells(c, m, draw, r) && r.sent == [] && NothingStarted(r)
  {
    hide OutgoingClosedHandler, IncomingClosedHandler, APIClosedHandler, Runs;
    var x := m.routine;
    assert x == Routine(x.endpoint, x.isReader);
    match x.endpoint
    case Outgoing(p) =>
      if Runs(c, x) && !Runs(c, Routine(x.endpoint, !x.isReader)) {
        OutgoingLastTells(c, p, x.isReader, m.crashed, r);
      } else {
        OutgoingFirstTells(c, p, x.isReader, m.crashed, r);
      }
    case Incoming(p) => IncomingTells(c, p, x.isReader, m.crashed, r);
    case API(cl) => APITells(c, cl, x.isReader, m.crashed, r);
  }

  /** Messages passed on to an endpoint tell the controllers nothing. */
  lemma PassedTells(c: Central, m: Msg, draw: seq<Peer>, r: Reply)
    requires r == Handle(c, m, draw) && (IsPassed(m) || m.MembershipPushRequest?)
    ensures r.gossiper == [] && r.membership == [] && NothingStarted(r)
  {
    hide ToOutgoing, ToIncoming, ToClient, PushRequestHandler, NothingStarted;
    match m
    case GossipPush(_, _, _, to) => OutgoingTells(c, to, m, r);
    case GossipPullRequest(to) => OutgoingTells(c, to, m, r);
    case MembershipPullRequest(to) => OutgoingTells(c, to, m, r);
    case MembershipPushRequest(to, _) => RequestTells(c, m, r);
    case _ => ReplyTells(c, m, draw, r);
  }

  lemma OutgoingTells(c: Central, p: Peer, m: Msg, r: Reply)
    requires r == ToOutgoing(c, p, m)
    ensures r.gossiper == [] && r.membership == [] && NothingStarted(r)
  {
  }

  lemma RequestTells(c: Central, m: Msg, r: Reply)
    requires m.MembershipPushRequest? && r == PushRequestHandler(c, m)
    ensures r.gossiper == [] && r.membership == [] && NothingStarted(r)
  {
  }

  lemma ReplyTells(c: Central, m: Msg, draw: seq<Peer>, r: Reply)
    requires r == Handle(c, m, draw) && (m.GossipPullReply? || m.MembershipPullReply? || m.GossipNotification?)
    ensures r.gossiper == [] && r.membership == [] && NothingStarted(r)
  {
  }

  lemma GossipTells(c: Central, g: GossipMsg, r: Reply)
    requires r == ToGossiper(c, g) && r.outcome != Panic
    ensures r.gossiper == [g] && r.membership == [] && r.sent == [] && NothingStarted(r)
  {
  }

  lemma CloseTells(c: Central, r: Reply)
    requires r == CloseHandler(c) && r.outcome != Panic
    ensures r.gossiper == [GossiperClose] && r.membership == [MembershipClose] && r.sent == [] && NothingStarted(r)
    ensures r.asked == {Membership, Gossip, APIListener, P2PListener}
  {
    hide ClosedTables;
  }

  /** Messages about endpoints and dials that come to be. */
  predicate IsCreation(m: Msg) {
    m.OutgoingP2PCreated? || m.IncomingP2PCreated? || m.APIEndpointCreated?
  }

  lemma HandledCreation(c: Central, m: Msg, draw: seq<Peer>, r: Reply)
    requires IsCreation(m) && r == Handle(c, m, draw)
    ensures r.gossiper == [] && r.membership == [] && r.sent == [] && r.dials == multiset{} && r.probes == multiset{}
    ensures r.started == GoroutinesStarted(c, m)
  {
    hide OutgoingCreatedHandler, IncomingCreatedHandler, APICreatedHandler, GoroutinesStarted;
    match m
    case OutgoingP2PCreated(p) => DialledTells(c, p, r);
    case IncomingP2PCreated(p) => IncomingTold(c, p, r);
    case APIEndpointCreated(cl) => ClientTells(c, cl, r);
  }

  /** All other messages that start nothing and are not passed on to an endpoint. */
  predicate StartsNothing(m: Msg) {
    !IsCreation(m) && !m.PeerAdd? && !m.ProbePeerRequest? && !IsPassed(m) && !m.MembershipPushRequest?
  }

  lemma HandledRest(c: Central, m: Msg, draw: seq<Peer>, r: Reply)
    requires Disjoint(c) && StartsNothing(m) && r == Handle(c, m, draw) && r.outcome != Panic
    ensures Tells(c, m, draw, r) && r.sent == [] && NothingStarted(r)
  {
    hide PeerRemoveHandler, ProbeReplyHandler, EndpointClosedHandler, ListRequestHandler, ReleaseAll,
      SubClosedHandler, ToGossiper, CloseHandler, EndsClient, LosesPeer;
    NotAnEnd(c, m);
    match m {
      case PeerRemove(p, _) => RemoveTells(c, p, r);
      case CentralProbePeerReply(p, alive) => ProbeReplyTells(c, p, alive, r);
      case SubClosed(sub) => SubTells(c, sub, r);
      case EndpointClosed(_, _) => ClosedTells(c, m, draw, r);
      case RandomPeerListRequest(related, _) => ListTells(c, related, draw, r);
      case RandomPeerListRelease(_) =>
      case SubCrashed(_) =>
      case CentralCrash =>
      case CentralClose => CloseTells(c, r);
      case IncomingGossip(g) => GossipTells(c, g, r);
    }
  }

  /** Every handled message tells the two controllers exactly this, and starts exactly that;
      unless it is one to be passed on, no endpoint is sent anything. */
  lemma HandledTells(c: Central, m: Msg, draw: seq<Peer>, r: Reply)
    requires Disjoint(c) && r == Handle(c, m, draw) && r.outcome != Panic
    ensures Tells(c, m, draw, r) && Starts(c, m, r)
    ensures !IsPassed(m) && !m.MembershipPushRequest? ==> r.sent == []
  {
    hide Handle, IsKnown, EndsClient, LosesPeer, Accepts;
    NotAnEnd(c, m);
    if IsCreation(m) {
      HandledCreation(c, m, draw, r);
    } else {
      NotAccepted(c, m);
      if m.PeerAdd? {
        HandledCommand(c, m, draw, r);
      } else if m.ProbePeerRequest? {
        HandledProbe(c, m, draw, r);
      } else if StartsNothing(m) {
        HandledRest(c, m, draw, r);
      } else {
        PassedTells(c, m, draw, r);
      }
    }
  }

  lemma HandledCommand(c: Central, m: Msg, draw: seq<Peer>, r: Reply)
    requires m.PeerAdd? && r == Handle(c, m, draw)
    ensures r.gossiper == [] && r.membership == [] && r.sent == []
    ensures r.started == multiset{} && r.probes == multiset{} && r.dials == DialsStarted(c, m)
  {
    hide PeerAddHandler, IsKnown;
    AddTells(c, m.peer, r);
  }

  lemma HandledProbe(c: Central, m: Msg, draw: seq<Peer>, r: Reply)
    requires m.ProbePeerRequest? && r == Handle(c, m, draw) && r.outcome != Panic
    ensures r.gossiper == [] && r.membership == ToldMembership(c, m) && r.sent == []
    ensures r.started == multiset{} && r.dials == multiset{} && r.probes == ProbesStarted(c, m)
  {
    hide ProbeRequestHandler, IsKnown;
    ProbeTells(c, m.peer, r);
  }

  lemma NotAccepted(c: Central, m: Msg)
    requires !IsCreation(m)
    ensures !Accepts(c, m)
  {
  }

  lemma NotAnEnd(c: Central, m: Msg)
    ensures !m.EndpointClosed? ==> !EndsClient(c, m) && !LosesPeer(c, m)
  {
  }
}
