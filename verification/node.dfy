/** One gossip node as a state machine: the Central controller and the Gossiper with the
    queues between them, the goroutines of all endpoints, the dials and probes under way,
    and an environment that stands for the Membership controller, the listeners, the
    remote nodes, the API clients and the user. */
module Node {
  import opened Types
  import opened Messages
  import G = GossiperModel
  import opened CentralModel

  datatype Status = Running | Exited | Crashed

  /** `inbox` is the Central controller's queue, `gin` the Gossiper's, and `gout` what the
      Gossiper has yet to put into the Central controller's queue. `live` are the reader and
      writer goroutines, `dials` and `probes` the goroutines that connect to or probe a peer,
      `alive` the submodules' goroutines and `asked` those that were told to close.
      The rest is history. `wanted` are the peers whose last processed command is an add,
      `ordered` those for which this holds of the commands of the Membership controller
      alone; `clobbered` are those whose add was overwritten by a later probe request, and
      `overtaken` those whose latest command was already waiting when the Central controller
      queued a contrary one for itself behind it. */
  datatype Node = Node(
    c: Central,
    inbox: seq<Msg>,
    g: G.Gossiper,
    gin: seq<GossipMsg>,
    gout: seq<Msg>,
    live: multiset<Routine>,
    dials: multiset<Peer>,
    probes: multiset<Peer>,
    alive: set<Sub>,
    asked: set<Sub>,
    status: Status,
    wanted: set<Peer>,
    clobbered: set<Peer>,
    ordered: set<Peer>,
    overtaken: set<Peer>)

  datatype Step =
    | CentralTurn(draw: seq<Peer>)
    | Environment(m: Msg)
    | RoutineEnds(routine: Routine, crashed: bool)
    | DialEnds(peer: Peer)
    | ProbeEnds(peer: Peer, ok: bool)
    | GossiperHandles(clients: seq<Client>, items: seq<Item>)
    | GossiperRound(round: G.GossipStep)
    | GossiperSends
    | SubStops(sub: Sub)
    | SubFails(sub: Sub)

  ghost predicate Init(n: Node) {
    && n.c == Central(map[], map[], map[], map[], map[], map[], n.c.incomingMax, n.c.clientsMax, ALL_SUBS, false, 4)
    && n.g == G.Gossiper(n.g.cfg, map[], map[], map[], map[], {}, {})
    && n.inbox == [] && n.gin == [] && n.gout == []
    && n.live == multiset{} && n.dials == multiset{} && n.probes == multiset{}
    && n.alive == ALL_SUBS && n.asked == {} && n.status == Running
    && n.wanted == {} && n.clobbered == {} && n.ordered == {} && n.overtaken == {}
  }

  /** Messages to the Gossiper that come from API clients and remote nodes. */
  predicate FromOutside(g: GossipMsg) {
    !g.RandomPeerListReply? && !g.GossipUnnotify? && !g.GossiperClose?
  }

  /** Messages that the Central controller passes on to an endpoint or to the Gossiper, and
      the push requests that it means to pass on. */
  predicate IsPassedOn(m: Msg) {
    IsPassed(m) || m.MembershipPushRequest? || (m.IncomingGossip? && FromOutside(m.gossip))
  }

  /** What the other submodules, the remote nodes and the user may send. */
  predicate FromEnvironment(n: Node, m: Msg) {
    match m
    case PeerAdd(_, self) => !self && Membership in n.alive
    case PeerRemove(_, self) => !self && Membership in n.alive
    case ProbePeerRequest(_) => Membership in n.alive
    case MembershipPushRequest(_, isValue) => !isValue && Membership in n.alive
    case MembershipPullRequest(_) => Membership in n.alive
    case MembershipPullReply(_, _) => Membership in n.alive
    case IncomingP2PCreated(_) => P2PListener in n.alive
    case APIEndpointCreated(_) => APIListener in n.alive
    case IncomingGossip(g) => FromOutside(g)
    case CentralClose => true
    case CentralCrash => n.c.stopping
    case _ => false
  }

  ghost predicate Enabled(n: Node, step: Step) {
    && n.status == Running
    && match step
       case CentralTurn(draw) =>
         n.inbox != [] && (n.inbox[0].RandomPeerListRequest? ==> IsDraw(n.c, n.inbox[0].num, draw))
       case Environment(m) => FromEnvironment(n, m)
       case RoutineEnds(r, _) => r in n.live
       case DialEnds(p) => p in n.dials
       case ProbeEnds(p, _) => p in n.probes
       case GossiperHandles(clients, items) =>
         Gossip in n.alive && n.gin != [] && G.Enabled(n.g, G.Handle(n.gin[0], clients, items))
       case GossiperRound(round) => Gossip in n.alive && round.Round? && G.Enabled(n.g, round)
       case GossiperSends => n.gout != []
       case SubStops(sub) => sub in n.alive && sub in n.asked && sub != Gossip
       case SubFails(sub) => sub in n.alive
  }

  /** The effect of one reply of the Central controller on the rest of the node. */
  function Delivered(n: Node, rest: seq<Msg>, r: Reply): Node {
    n.(c := r.c,
       inbox := rest + r.self,
       gin := n.gin + r.gossiper,
       live := n.live + r.started,
       dials := n.dials + r.dials,
       probes := n.probes + r.probes,
       asked := n.asked + r.asked,
       status := match r.outcome case Continue => Running case Exit => Exited case Panic => Crashed)
  }

  /** History of commands: updated when a command is handled, not when it is dropped. */
  function Remembered(n: Node, m: Msg): Node {
    if IsDropped(n.c, m) then n
    else match m
      case PeerAdd(p, _) => n.(wanted := n.wanted + {p}, clobbered := n.clobbered - {p})
      case PeerRemove(p, _) => n.(wanted := n.wanted - {p}, clobbered := n.clobbered - {p})
      case ProbePeerRequest(p) => if Clobbers(n.c, m) then n.(clobbered := n.clobbered + {p}) else n
      case _ => n
  }

  /** A probe request that hits a peer already being probed, after an add for it. */
  predicate Clobbers(c: Central, m: Msg) {
    && m.ProbePeerRequest?
    && m.peer !in c.view && m.peer !in c.awaiting && m.peer !in c.creating
    && m.peer in c.probing && c.probing[m.peer]
  }

  /** A command of the Membership controller, and one that the Central controller has queued
      for itself. */
  predicate IsOrder(m: Msg, p: Peer) {
    m == PeerAdd(p, false) || m == PeerRemove(p, false)
  }

  predicate IsSelfOrder(m: Msg, p: Peer) {
    m == PeerAdd(p, true) || m == PeerRemove(p, true)
  }

  /** A command that the controller has queued for itself is waiting. */
  predicate Pending(q: seq<Msg>, p: Peer) {
    PeerAdd(p, true) in q || PeerRemove(p, true) in q
  }

  /** Whether the last command of the Membership controller waiting for p is an add. */
  function LatestOrder(q: seq<Msg>, p: Peer): Option<bool> {
    if q == [] then None
    else
      var later := LatestOrder(q[1..], p);
      if later.None? && IsOrder(q[0], p) then Some(q[0].PeerAdd?) else later
  }

  function OrderedAfter(n: Node, m: Msg): set<Peer> {
    if IsDropped(n.c, m) then n.ordered
    else match m
      case PeerAdd(p, self) => if self then n.ordered else n.ordered + {p}
      case PeerRemove(p, self) => if self then n.ordered else n.ordered - {p}
      case _ => n.ordered
  }

  /** A command of the Membership controller settles the matter unless one queued by the
      Central controller is still to come. When the Central controller queues a command, what
      counts is whether the last one waiting before it, if any, says the contrary. */
  function OvertakenAfter(n: Node, m: Msg, rest: seq<Msg>, self: seq<Msg>): set<Peer> {
    if IsDropped(n.c, m) then n.overtaken
    else if (m.PeerAdd? || m.PeerRemove?) && !m.self && !Pending(rest, m.peer) then n.overtaken - {m.peer}
    else if self == [] then n.overtaken
    else match self[0]
      case PeerAdd(p, _) => OvertakenBy(n.overtaken, rest, p, true)
      case PeerRemove(p, _) => OvertakenBy(n.overtaken, rest, p, false)
      case _ => n.overtaken
  }

  function OvertakenBy(overtaken: set<Peer>, rest: seq<Msg>, p: Peer, add: bool): set<Peer> {
    match LatestOrder(rest, p)
    case None => overtaken
    case Some(last) => if last == add then overtaken - {p} else overtaken + {p}
  }

  function AfterTurn(n: Node, draw: seq<Peer>): Node
    requires n.inbox != []
  {
    var m, rest := n.inbox[0], n.inbox[1..];
    var r := Turn(n.c, m, draw);
    Delivered(Recalled(n, m, rest, r.self), rest, r)
  }

  /** All history after a message was taken from the queue. */
  function Recalled(n: Node, m: Msg, rest: seq<Msg>, self: seq<Msg>): Node {
    Remembered(n, m).(ordered := OrderedAfter(n, m), overtaken := OvertakenAfter(n, m, rest, self))
  }

  /** The Gossiper's own goroutine ends when it handles the message to close. */
  ghost function AfterGossip(n: Node, step: G.GossipStep, gin: seq<GossipMsg>): Node
    requires G.Enabled(n.g, step)
  {
    var r := G.Next(n.g, step);
    var n1 := n.(g := r.0, gin := gin, gout := n.gout + r.1);
    if step.Handle? && step.m.GossiperClose? then n1.(gin := [], alive := n.alive - {Gossip}) else n1
  }

  ghost function Next(n: Node, step: Step): Node
    requires Enabled(n, step)
  {
    match step
    case CentralTurn(draw) => AfterTurn(n, draw)
    case Environment(m) => n.(inbox := n.inbox + [m])
    case RoutineEnds(r, crashed) =>
      n.(live := n.live - multiset{r}, inbox := n.inbox + [EndpointClosed(r, crashed)])
    case DialEnds(p) => n.(dials := n.dials - multiset{p}, inbox := n.inbox + [OutgoingP2PCreated(p)])
    case ProbeEnds(p, ok) =>
      n.(probes := n.probes - multiset{p}, inbox := n.inbox + [CentralProbePeerReply(p, ok)])
    case GossiperHandles(clients, items) => AfterGossip(n, G.Handle(n.gin[0], clients, items), n.gin[1..])
    case GossiperRound(round) => AfterGossip(n, round, n.gin)
    case GossiperSends => n.(inbox := n.inbox + [n.gout[0]], gout := n.gout[1..])
    case SubStops(sub) => n.(alive := n.alive - {sub}, inbox := n.inbox + [SubClosed(sub)])
    case SubFails(sub) =>
      var n1 := n.(alive := n.alive - {sub});
      if sub == Gossip then n1.(gin := [], gout := n.gout + [SubCrashed(sub)])
      else n1.(inbox := n.inbox + [SubCrashed(sub)])
  }

  ghost predicate IsRun(n: Node, steps: seq<Step>)
    decreases |steps|
  {
    steps == [] || (Enabled(n, steps[0]) && IsRun(Next(n, steps[0]), steps[1..]))
  }

  ghost function After(n: Node, steps: seq<Step>): Node
    requires IsRun(n, steps)
    decreases |steps|
  {
    if steps == [] then n else After(Next(n, steps[0]), steps[1..])
  }
}
