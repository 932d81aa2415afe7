/** The Central controller as functions on values: each handler maps the controller's
    tables to the next ones and to what the handler sends or starts. */
module CentralModel {
  import opened Types
  import opened Messages

  /** What the controller records about an outgoing or incoming connection. `closed` is the
      endpoint's own close-once flag. */
  datatype PeerInfo = PeerInfo(usage: int, reader: bool, writer: bool, crashed: bool, closed: bool)

  datatype ClientInfo = ClientInfo(reader: bool, writer: bool, crashed: bool, closed: bool)

  /** `subs` are the submodules whose pointer is not nil. The order of the indexed view list
      only serves to draw random peers and is left to the argument of the draw. */
  datatype Central = Central(
    view: map<Peer, PeerInfo>,
    awaiting: map<Peer, PeerInfo>,
    creating: map<Peer, bool>,
    probing: map<Peer, bool>,
    incoming: map<Peer, PeerInfo>,
    clients: map<Client, ClientInfo>,
    incomingMax: nat,
    clientsMax: nat,
    subs: set<Sub>,
    stopping: bool,
    total: int)

  /** Continue, leave the event loop, or die of a panic. */
  datatype Outcome = Continue | Exit | Panic

  /** A message handed to an endpoint for its peer or client. */
  datatype Sent = Sent(to: Endpoint, m: Msg)

  /** What a handler did: messages to itself, to the Gossiper, to the Membership controller
      and to endpoints; goroutines started; dials and probes started; submodules asked to close. */
  datatype Reply = Reply(
    c: Central,
    self: seq<Msg>,
    gossiper: seq<GossipMsg>,
    membership: seq<MembershipMsg>,
    sent: seq<Sent>,
    started: multiset<Routine>,
    dials: multiset<Peer>,
    probes: multiset<Peer>,
    asked: set<Sub>,
    outcome: Outcome)

  const FRESH_PEER := PeerInfo(0, true, true, false, false)
  const FRESH_CLIENT := ClientInfo(true, true, false, false)

  function Quiet(c: Central): Reply {
    Reply(c, [], [], [], [], multiset{}, multiset{}, multiset{}, {}, Continue)
  }

  function Panicked(c: Central): Reply {
    Quiet(c).(outcome := Panic)
  }

  /** The tail of every handler that records a closure. */
  function ExitIfDone(c: Central): Outcome {
    if c.total <= 0 then Exit else Continue
  }

  function BothStopped(i: PeerInfo): bool {
    !i.reader && !i.writer
  }

  // ---- Commands of the Membership controller ---------------------------------------

  function PeerAddHandler(c: Central, p: Peer): Reply {
    if p in c.view then Quiet(c)
    else if p in c.awaiting then
      Quiet(c.(awaiting := c.awaiting - {p}, view := c.view[p := c.awaiting[p]]))
    else if p in c.creating then Quiet(c.(creating := c.creating[p := false]))
    else if p in c.probing then Quiet(c.(probing := c.probing[p := true]))
    else Quiet(c.(creating := c.creating[p := false])).(dials := multiset{p})
  }

  /** What becomes of an entry awaiting removal once its usage counter may have run out. */
  function RemoveIfUnused(awaiting: map<Peer, PeerInfo>, p: Peer): map<Peer, PeerInfo>
    requires p in awaiting
  {
    var i := awaiting[p];
    if i.usage > 0 then awaiting
    else if BothStopped(i) then awaiting - {p}
    else awaiting[p := i.(closed := true)]
  }

  function PeerRemoveHandler(c: Central, p: Peer): Reply {
    if p in c.awaiting then Quiet(c)
    else if p in c.view then
      Quiet(c.(view := c.view - {p}, awaiting := RemoveIfUnused(c.awaiting[p := c.view[p]], p)))
    else if p in c.creating then Quiet(c.(creating := c.creating[p := true]))
    else if p in c.probing then Quiet(c.(probing := c.probing[p := false]))
    else Quiet(c)
  }

  function ProbeRequestHandler(c: Central, p: Peer): Reply {
    if p in c.view || p in c.awaiting || p in c.creating then
      if Membership !in c.subs then Panicked(c)
      else Quiet(c).(membership := [ProbePeerReply(p, true)])
    else Quiet(c.(probing := c.probing[p := false])).(probes := multiset{p})
  }

  function ProbeReplyHandler(c: Central, p: Peer, alive: bool): Reply {
    if p !in c.probing then Quiet(c)
    else
      var c1 := c.(probing := c.probing - {p});
      if Membership !in c.subs then Panicked(c1)
      else Quiet(c1).(membership := [ProbePeerReply(p, alive)],
                      self := if c.probing[p] then [PeerAdd(p, true)] else [])
  }

  // ---- Leases of the Gossiper ------------------------------------------------------

  /** `peers` are the keys at some distinct random positions of the view list. */
  ghost predicate IsDraw(c: Central, num: nat, peers: seq<Peer>) {
    && Distinct(peers) && |peers| == Min(num, |c.view|)
    && forall p :: p in peers ==> p in c.view
  }

  function Leased(view: map<Peer, PeerInfo>, peers: seq<Peer>): map<Peer, PeerInfo> {
    map p | p in view :: if p in peers then view[p].(usage := view[p].usage + 1) else view[p]
  }

  function ListRequestHandler(c: Central, related: Option<Item>, peers: seq<Peer>): Reply {
    var c1 := c.(view := Leased(c.view, peers));
    if Gossip !in c.subs then Panicked(c1)
    else Quiet(c1).(gossiper := [RandomPeerListReply(related, peers)])
  }

  function ReleaseOne(c: Central, p: Peer): Central {
    if p in c.view then c.(view := c.view[p := c.view[p].(usage := c.view[p].usage - 1)])
    else if p in c.awaiting then
      c.(awaiting := RemoveIfUnused(c.awaiting[p := c.awaiting[p].(usage := c.awaiting[p].usage - 1)], p))
    else c
  }

  function ReleaseAll(c: Central, peers: seq<Peer>): Central
    decreases |peers|
  {
    if peers == [] then c else ReleaseAll(ReleaseOne(c, peers[0]), peers[1..])
  }

  // ---- Messages passed on ----------------------------------------------------------

  /** Passes a message on to an outgoing peer whose writer is running. */
  function ToOutgoing(c: Central, p: Peer, m: Msg): Reply {
    if p in c.view then
      if c.view[p].writer then Quiet(c).(sent := [Sent(Outgoing(p), m)]) else Quiet(c)
    else if p in c.awaiting && c.awaiting[p].writer then Quiet(c).(sent := [Sent(Outgoing(p), m)])
    else Quiet(c)
  }

  function ToIncoming(c: Central, p: Peer, m: Msg): Reply {
    if p in c.incoming && c.incoming[p].writer then Quiet(c).(sent := [Sent(Incoming(p), m)]) else Quiet(c)
  }

  /** A payload of another type than the handler asks for is ignored. */
  function PushRequestHandler(c: Central, m: Msg): Reply
    requires m.MembershipPushRequest?
  {
    if m.isValue then ToOutgoing(c, m.to, m) else Quiet(c)
  }

  function ToClient(c: Central, cl: Client, m: Msg): Reply {
    if cl in c.clients && c.clients[cl].writer then Quiet(c).(sent := [Sent(API(cl), m)]) else Quiet(c)
  }

  function ToGossiper(c: Central, m: GossipMsg): Reply {
    if Gossip !in c.subs then Panicked(c) else Quiet(c).(gossiper := [m])
  }

  // ---- Creation of endpoints -------------------------------------------------------

  function BothRoutines(e: Endpoint): multiset<Routine> {
    multiset{Routine(e, true), Routine(e, false)}
  }

  function OutgoingCreatedHandler(c: Central, p: Peer): Reply {
    if p !in c.creating then Quiet(c)
    else
      Quiet(c.(creating := c.creating - {p}, total := c.total + 2, view := c.view[p := FRESH_PEER]))
      .(started := BothRoutines(Outgoing(p)),
        self := if c.creating[p] then [PeerRemove(p, true)] else [])
  }

  function IncomingCreatedHandler(c: Central, p: Peer): Reply {
    if |c.incoming| >= c.incomingMax || p in c.incoming || c.stopping then Quiet(c)
    else
      Quiet(c.(total := c.total + 2, incoming := c.incoming[p := FRESH_PEER]))
      .(started := BothRoutines(Incoming(p)))
  }

  function APICreatedHandler(c: Central, cl: Client): Reply {
    if |c.clients| >= c.clientsMax || cl in c.clients || c.stopping then Quiet(c)
    else
      Quiet(c.(total := c.total + 2, clients := c.clients[cl := FRESH_CLIENT]))
      .(started := BothRoutines(API(cl)))
  }

  // ---- Closure of endpoints --------------------------------------------------------

  function IsRunning(i: PeerInfo, isReader: bool): bool {
    if isReader then i.reader else i.writer
  }

  function Stopped(i: PeerInfo, isReader: bool, crashed: bool): PeerInfo {
    var i1 := i.(crashed := i.crashed || crashed);
    if isReader then i1.(reader := false) else i1.(writer := false)
  }

  /** A crash of one goroutine closes the other one. */
  function ClosedIfCrashed(i: PeerInfo): PeerInfo {
    if i.crashed then i.(closed := true) else i
  }

  /** Both goroutines of the outgoing endpoint of p have stopped; `i` is its record. */
  function OutgoingGoneHandler(c: Central, p: Peer, i: PeerInfo, awaited: bool): Reply {
    if c.stopping then
      var c1 := c.(view := c.view - {p}, awaiting := c.awaiting - {p});
      Quiet(c1).(outcome := ExitIfDone(c1))
    else if !awaited then
      if Membership !in c.subs then Panicked(c)
      else Quiet(c).(membership := [PeerDisconnected(p)], outcome := ExitIfDone(c))
    else if i.usage <= 0 then
      var c1 := c.(awaiting := c.awaiting - {p});
      Quiet(c1).(outcome := ExitIfDone(c1))
    else Quiet(c).(outcome := ExitIfDone(c))
  }

  function OutgoingClosedHandler(c: Central, p: Peer, isReader: bool, crashed: bool): Reply {
    if p !in c.view && p !in c.awaiting then Quiet(c)
    else
      var inView := p in c.view;
      var i := if inView then c.view[p] else c.awaiting[p];
      if !IsRunning(i, isReader) then Quiet(c)
      else
        var i1 := Stopped(i, isReader, crashed);
        if BothStopped(i1) then
          OutgoingGoneHandler(PutOutgoing(c, p, i1).(total := c.total - 1), p, i1, p in c.awaiting)
        else
          Quiet(PutOutgoing(c, p, ClosedIfCrashed(i1)).(total := c.total - 1))
  }

  /** Replaces the record of an outgoing peer in the table that holds it. */
  function PutOutgoing(c: Central, p: Peer, i: PeerInfo): Central {
    if p in c.view then c.(view := c.view[p := i]) else c.(awaiting := c.awaiting[p := i])
  }

  function IncomingClosedHandler(c: Central, p: Peer, isReader: bool, crashed: bool): Reply {
    if p !in c.incoming || !IsRunning(c.incoming[p], isReader) then Quiet(c)
    else
      var i1 := Stopped(c.incoming[p], isReader, crashed);
      if BothStopped(i1) then
        var c1 := c.(incoming := c.incoming - {p}, total := c.total - 1);
        Quiet(c1).(outcome := ExitIfDone(c1))
      else
        Quiet(c.(incoming := c.incoming[p := ClosedIfCrashed(i1)], total := c.total - 1))
  }

  function StoppedClient(i: ClientInfo, isReader: bool, crashed: bool): ClientInfo {
    var i1 := i.(crashed := i.crashed || crashed);
    if isReader then i1.(reader := false) else i1.(writer := false)
  }

  function ClientRuns(i: ClientInfo, isReader: bool): bool {
    if isReader then i.reader else i.writer
  }

  function APIClosedHandler(c: Central, cl: Client, isReader: bool, crashed: bool): Reply {
    if cl !in c.clients || !ClientRuns(c.clients[cl], isReader) then Quiet(c)
    else
      var i1 := StoppedClient(c.clients[cl], isReader, crashed);
      if !i1.reader && !i1.writer then
        var c1 := c.(clients := c.clients - {cl}, total := c.total - 1);
        if Gossip !in c.subs then Panicked(c1)
        else Quiet(c1).(gossiper := [GossipUnnotify(cl)], outcome := ExitIfDone(c1))
      else
        var i2 := if i1.crashed then i1.(closed := true) else i1;
        Quiet(c.(clients := c.clients[cl := i2], total := c.total - 1))
  }

  function EndpointClosedHandler(c: Central, r: Routine, crashed: bool): Reply {
    match r.endpoint
    case Outgoing(p) => OutgoingClosedHandler(c, p, r.isReader, crashed)
    case Incoming(p) => IncomingClosedHandler(c, p, r.isReader, crashed)
    case API(cl) => APIClosedHandler(c, cl, r.isReader, crashed)
  }

  function SubClosedHandler(c: Central, sub: Sub): Reply {
    var c1 := c.(subs := c.subs - {sub}, total := c.total - 1);
    Quiet(c1).(outcome := ExitIfDone(c1))
  }

  // ---- Shutdown --------------------------------------------------------------------

  const ALL_SUBS := {Membership, Gossip, APIListener, P2PListener}

  function ClosedAll(t: map<Peer, PeerInfo>): map<Peer, PeerInfo> {
    map p | p in t :: t[p].(closed := true)
  }

  function ClosedTables(c: Central): Central {
    c.(view := ClosedAll(c.view),
       awaiting := ClosedAll(c.awaiting),
       creating := map p | p in c.creating :: true,
       probing := map p | p in c.probing :: false,
       incoming := ClosedAll(c.incoming),
       clients := map cl | cl in c.clients :: c.clients[cl].(closed := true),
       stopping := true)
  }

  function CloseHandler(c: Central): Reply {
    if c.subs != ALL_SUBS then Panicked(c)
    else Quiet(ClosedTables(c)).(membership := [MembershipClose], gossiper := [GossiperClose], asked := ALL_SUBS)
  }

  // ---- The event loop --------------------------------------------------------------

  /** Messages that are still handled while the controller is stopping. */
  predicate IsStopMessage(m: Msg) {
    || m.PeerRemove? || m.SubCrashed? || m.SubClosed? || m.APIEndpointCreated?
    || m.EndpointClosed? || m.IncomingP2PCreated? || m.OutgoingP2PCreated? || m.CentralCrash?
  }

  predicate IsDropped(c: Central, m: Msg) {
    c.stopping && !IsStopMessage(m)
  }

  /** Commands, results of dials and probes, and accepted connections. */
  predicate IsPeerMessage(m: Msg) {
    m.PeerAdd? || m.PeerRemove? || m.ProbePeerRequest? || m.CentralProbePeerReply?
    || m.OutgoingP2PCreated? || m.IncomingP2PCreated? || m.APIEndpointCreated?
  }

  /** Messages that are passed on to an endpoint. */
  predicate IsPassed(m: Msg) {
    m.GossipPush? || m.GossipPullRequest? || m.GossipPullReply? || m.GossipNotification?
    || m.MembershipPullRequest? || m.MembershipPullReply?
  }

  /** The handler registered for the message; `draw` are the peers at the random positions
      that a request for peers draws. */
  function Handle(c: Central, m: Msg, draw: seq<Peer>): Reply {
    match m
    case PeerAdd(p, _) => PeerAddHandler(c, p)
    case PeerRemove(p, _) => PeerRemoveHandler(c, p)
    case ProbePeerRequest(p) => ProbeRequestHandler(c, p)
    case CentralProbePeerReply(p, alive) => ProbeReplyHandler(c, p, alive)
    case OutgoingP2PCreated(p) => OutgoingCreatedHandler(c, p)
    case IncomingP2PCreated(p) => IncomingCreatedHandler(c, p)
    case APIEndpointCreated(cl) => APICreatedHandler(c, cl)
    case EndpointClosed(r, crashed) => EndpointClosedHandler(c, r, crashed)
    case SubClosed(sub) => SubClosedHandler(c, sub)
    case SubCrashed(_) => Panicked(c)
    case RandomPeerListRequest(related, _) => ListRequestHandler(c, related, draw)
    case RandomPeerListRelease(peers) => Quiet(ReleaseAll(c, peers))
    case GossipPush(_, _, _, to) => ToOutgoing(c, to, m)
    case GossipPullRequest(to) => ToOutgoing(c, to, m)
    case GossipPullReply(to, _) => ToIncoming(c, to, m)
    case GossipNotification(cl, _, _) => ToClient(c, cl, m)
    case MembershipPushRequest(_, _) => PushRequestHandler(c, m)
    case MembershipPullRequest(to) => ToOutgoing(c, to, m)
    case MembershipPullReply(to, _) => ToIncoming(c, to, m)
    case IncomingGossip(g) => ToGossiper(c, g)
    case CentralCrash => Panicked(c)
    case CentralClose => CloseHandler(c)
  }

  /** One turn of the event loop. */
  function Turn(c: Central, m: Msg, draw: seq<Peer>): Reply {
    if IsDropped(c, m) then Quiet(c) else Handle(c, m, draw)
  }
}
