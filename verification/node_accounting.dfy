/** Goroutine accounting over all runs of a node: what the Central controller's tables and
    counter record matches the goroutines that live and the messages that are queued. */
module NodeAccounting {
  import opened Types
  import opened Messages
  import G = GossiperModel
  import L = GossiperLease
  import opened CentralModel
  import opened CentralTables
  import opened CentralEffects
  import opened Node

  /** Number of queued reports that this goroutine has ended. */
  ghost function Closings(q: seq<Msg>, r: Routine): nat {
    multiset(q)[EndpointClosed(r, true)] + multiset(q)[EndpointClosed(r, false)]
  }

  /** Number of queued reports that this submodule has ended. */
  ghost function Endings(q: seq<Msg>, s: Sub): nat {
    multiset(q)[SubClosed(s)] + multiset(q)[SubCrashed(s)]
  }

  /** Each goroutine recorded as running lives or has exactly one report queued, never both;
      any other goroutine neither lives nor has a report queued. */
  ghost predicate RoutinesMatch(n: Node) {
    forall r :: n.live[r] + Closings(n.inbox, r) == Bit(Runs(n.c, r))
  }

  /** Each peer being created is being dialled or its endpoint is queued, once in all. */
  ghost predicate DialsMatch(n: Node) {
    forall p :: n.dials[p] + multiset(n.inbox)[OutgoingP2PCreated(p)] == Bit(p in n.c.creating)
  }

  /** Each submodule whose pointer is kept lives or has exactly one report on its way. */
  ghost predicate SubsMatch(n: Node) {
    forall s :: Bit(s in n.alive) + Endings(n.inbox, s) + Endings(n.gout, s) == Bit(s in n.c.subs)
  }

  /** Submodules close only when asked, and they are asked when the shutdown begins. */
  ghost predicate ClosesWhenAsked(n: Node) {
    !n.c.stopping ==>
      && n.asked == {} && GossiperClose !in n.gin
      && forall s :: SubClosed(s) !in n.inbox && SubClosed(s) !in n.gout
  }

  /** What the Gossiper sends. */
  predicate FromGossiper(m: Msg) {
    || m.RandomPeerListRequest? || m.RandomPeerListRelease? || m.GossipPush? || m.GossipPullRequest?
    || m.GossipPullReply? || m.GossipNotification? || m == SubClosed(Gossip) || m == SubCrashed(Gossip)
  }

  ghost predicate QueuesOk(n: Node) {
    && (forall m :: m in n.gout ==> FromGossiper(m))
    && (forall m :: m in n.inbox && m.IncomingGossip? ==> FromOutside(m.gossip))
  }

  ghost predicate Accounting(n: Node) {
    && TablesOk(n.c) && Accounted(n.c)
    && RoutinesMatch(n) && DialsMatch(n) && SubsMatch(n) && ClosesWhenAsked(n) && QueuesOk(n)
  }

  // ---- Turns of the Central controller ---------------------------------------------

  lemma QueueHead(q: seq<Msg>, m: Msg)
    requires q != []
    ensures multiset(q)[m] == multiset(q[1..])[m] + Bit(q[0] == m)
  {
    assert q == [q[0]] + q[1..];
  }

  lemma QueueTail(q: seq<Msg>, self: seq<Msg>, m: Msg)
    requires m !in self
    ensures multiset(q + self)[m] == multiset(q)[m]
  {
  }

  /** A report at the head of the queue is always expected. */
  lemma HeadExpected(n: Node)
    requires Accounting(n) && n.inbox != []
    ensures Expected(n.c, n.inbox[0])
  {
    var m := n.inbox[0];
    assert multiset(n.inbox)[m] >= 1;
    match m {
      case EndpointClosed(r, crashed) => assert Closings(n.inbox, r) >= 1;
      case OutgoingP2PCreated(p) => assert n.dials[p] >= 0;
      case SubClosed(s) => assert Endings(n.inbox, s) >= 1;
      case _ =>
    }
  }

  /** What a turn leaves in the queues. */
  ghost predicate Took(n: Node, r: Reply, n1: Node) {
    && n.inbox != []
    && n1.c == r.c && n1.inbox == n.inbox[1..] + r.self && n1.gin == n.gin + r.gossiper && n1.gout == n.gout
    && n1.live == n.live + r.started && n1.dials == n.dials + r.dials
    && n1.alive == n.alive && n1.asked == n.asked + r.asked
  }

  lemma TookRoutines(n: Node, r: Reply, n1: Node)
    requires RoutinesMatch(n) && Took(n, r, n1) && RunsEffect(n.c, n.inbox[0], r) && ToItself(r.self)
    ensures RoutinesMatch(n1)
  {
    forall x ensures n1.live[x] + Closings(n1.inbox, x) == Bit(Runs(n1.c, x)) {
      var a, b := EndpointClosed(x, true), EndpointClosed(x, false);
      QueueHead(n.inbox, a);
      QueueHead(n.inbox, b);
      QueueTail(n.inbox[1..], r.self, a);
      QueueTail(n.inbox[1..], r.self, b);
      assert n.live[x] + Closings(n.inbox, x) == Bit(Runs(n.c, x));
    }
  }

  lemma TookDials(n: Node, r: Reply, n1: Node)
    requires DialsMatch(n) && Took(n, r, n1) && DialsEffect(n.c, n.inbox[0], r) && ToItself(r.self)
    ensures DialsMatch(n1)
  {
    forall p ensures n1.dials[p] + multiset(n1.inbox)[OutgoingP2PCreated(p)] == Bit(p in n1.c.creating) {
      QueueHead(n.inbox, OutgoingP2PCreated(p));
      QueueTail(n.inbox[1..], r.self, OutgoingP2PCreated(p));
    }
  }

  lemma TookSubs(n: Node, r: Reply, n1: Node)
    requires SubsMatch(n) && Took(n, r, n1) && SubsEffect(n.c, n.inbox[0], r) && ToItself(r.self)
    requires !n.inbox[0].SubCrashed? && Expected(n.c, n.inbox[0])
    ensures SubsMatch(n1)
  {
    forall s ensures Bit(s in n1.alive) + Endings(n1.inbox, s) + Endings(n1.gout, s) == Bit(s in n1.c.subs) {
      var a, b := SubClosed(s), SubCrashed(s);
      QueueHead(n.inbox, a);
      QueueHead(n.inbox, b);
      QueueTail(n.inbox[1..], r.self, a);
      QueueTail(n.inbox[1..], r.self, b);
      assert Bit(s in n.alive) + Endings(n.inbox, s) + Endings(n.gout, s) == Bit(s in n.c.subs);
    }
  }

  lemma TookOrder(n: Node, r: Reply, n1: Node)
    requires ClosesWhenAsked(n) && Took(n, r, n1) && ShutdownEffect(n.c, n.inbox[0], r) && ToItself(r.self)
    ensures ClosesWhenAsked(n1)
  {
    assert n.inbox == [n.inbox[0]] + n.inbox[1..];
  }

  /** The effect of one turn keeps the account. */
  lemma TookAccounting(n: Node, r: Reply, n1: Node)
    requires Accounting(n) && Took(n, r, n1) && Effect(n.c, n.inbox[0], r) && !n.inbox[0].SubCrashed?
    ensures Accounting(n1)
  {
    HeadExpected(n);
    TookRoutines(n, r, n1);
    TookDials(n, r, n1);
    TookSubs(n, r, n1);
    TookOrder(n, r, n1);
    TookQueues(n, r, n1);
  }

  /** A message dropped during the shutdown is not one that the account counts. */
  lemma DroppedEffect(c: Central, m: Msg, r: Reply)
    requires TablesOk(c) && Accounted(c) && IsDropped(c, m) && r == Quiet(c)
    ensures Effect(c, m, r)
  {
  }

  lemma HandledPeerEffect(c: Central, m: Msg, draw: seq<Peer>, r: Reply)
    requires TablesOk(c) && Accounted(c) && Expected(c, m) && IsPeerMessage(m) && r == Handle(c, m, draw)
    ensures Effect(c, m, r)
  {
    hide PeerAddHandler, PeerRemoveHandler, ProbeRequestHandler, ProbeReplyHandler, OutgoingCreatedHandler,
      IncomingCreatedHandler, APICreatedHandler, EndpointClosedHandler, ListRequestHandler, ReleaseAll,
      Effect, TablesOk, Accounted;
    match m {
      case PeerAdd(p, self) => AddEffect(c, p, self, r);
      case PeerRemove(p, self) => RemoveEffect(c, p, self, r);
      case ProbePeerRequest(p) => ProbeRequestEffect(c, p, r);
      case CentralProbePeerReply(p, alive) => ProbeReplyEffect(c, p, alive, r);
      case OutgoingP2PCreated(p) => OutgoingCreatedEffect(c, p, r);
      case IncomingP2PCreated(p) => IncomingCreatedEffect(c, p, r);
      case APIEndpointCreated(cl) => APICreatedEffect(c, cl, r);
    }
  }

  lemma HandledEffect(c: Central, m: Msg, draw: seq<Peer>, r: Reply)
    requires TablesOk(c) && Accounted(c) && Expected(c, m) && !IsDropped(c, m)
    requires r == Handle(c, m, draw) && r.outcome != Panic
    requires m.IncomingGossip? ==> FromOutside(m.gossip)
    ensures Effect(c, m, r) && !m.SubCrashed?
  {
    hide PeerAddHandler, PeerRemoveHandler, ProbeRequestHandler, ProbeReplyHandler, OutgoingCreatedHandler,
      IncomingCreatedHandler, APICreatedHandler, EndpointClosedHandler, ListRequestHandler, ReleaseAll,
      ToOutgoing, ToIncoming, ToClient, ToGossiper, Effect, TablesOk, Accounted;
    if IsPeerMessage(m) {
      HandledPeerEffect(c, m, draw, r);
      return;
    }
    match m {
      case EndpointClosed(x, crashed) => ClosedEffect(c, x, crashed, r);
      case SubClosed(s) => SubClosedEffect(c, s, r);
      case SubCrashed(_) =>
      case RandomPeerListRequest(related, num) => RequestEffect(c, related, num, draw, r);
      case RandomPeerListRelease(peers) => ReleaseEffect(c, peers, r);
      case CentralCrash =>
      case CentralClose => CloseEffect(c, r);
      case _ => PassedOn(c, m, draw, r);
    }
  }

  lemma PassedOn(c: Central, m: Msg, draw: seq<Peer>, r: Reply)
    requires TablesOk(c) && Accounted(c) && r == Handle(c, m, draw)
    requires IsPassedOn(m)
    ensures Effect(c, m, r)
  {
    PassesOn(c, m, draw, r);
    PassOnEffect(c, m, r);
  }

  lemma PassesOn(c: Central, m: Msg, draw: seq<Peer>, r: Reply)
    requires r == Handle(c, m, draw)
    requires IsPassedOn(m)
    ensures PassesQuietly(c, r)
    ensures m.IncomingGossip? || r.gossiper == []
  {
    hide PeerAddHandler, PeerRemoveHandler, ProbeRequestHandler, ProbeReplyHandler, OutgoingCreatedHandler,
      IncomingCreatedHandler, APICreatedHandler, EndpointClosedHandler, ListRequestHandler, ReleaseAll,
      ToOutgoing, ToIncoming, ToClient, ToGossiper, PassesQuietly;
    match m
    case GossipPush(_, _, _, to) => OutgoingQuietly(c, to, m, r);
    case GossipPullRequest(to) => OutgoingQuietly(c, to, m, r);
    case GossipPullReply(to, _) => OthersQuietly(c, m, r);
    case GossipNotification(cl, _, _) => OthersQuietly(c, m, r);
    case MembershipPullRequest(to) => OutgoingQuietly(c, to, m, r);
    case MembershipPullReply(to, _) => OthersQuietly(c, m, r);
    case MembershipPushRequest(to, isValue) => PushQuietly(c, m, r);
    case IncomingGossip(g) => GossipQuietly(c, g, r);
  }

  /** Nothing changes, and nothing but the message is sent. */
  ghost predicate PassesQuietly(c: Central, r: Reply) {
    && r.c == c && r.started == multiset{} && r.dials == multiset{} && r.asked == {} && r.self == []
    && forall g :: g in r.gossiper ==> FromOutside(g)
  }

  lemma OutgoingQuietly(c: Central, p: Peer, m: Msg, r: Reply)
    requires r == ToOutgoing(c, p, m)
    ensures PassesQuietly(c, r) && r.gossiper == []
  {
  }

  lemma PushQuietly(c: Central, m: Msg, r: Reply)
    requires m.MembershipPushRequest? && r == PushRequestHandler(c, m)
    ensures PassesQuietly(c, r) && r.gossiper == []
  {
  }

  lemma GossipQuietly(c: Central, g: GossipMsg, r: Reply)
    requires r == ToGossiper(c, g) && FromOutside(g)
    ensures PassesQuietly(c, r)
  {
  }

  lemma OthersQuietly(c: Central, m: Msg, r: Reply)
    requires m.GossipPullReply? || m.MembershipPullReply? ==> r == ToIncoming(c, m.to, m)
    requires m.GossipNotification? ==> r == ToClient(c, m.client, m)
    requires m.GossipPullReply? || m.MembershipPullReply? || m.GossipNotification?
    ensures PassesQuietly(c, r) && r.gossiper == []
  {
  }

  /** The effect of the turn that the head of the queue calls for. */
  lemma TurnEffect(n: Node, draw: seq<Peer>, r: Reply)
    requires Accounting(n) && n.inbox != [] && r == Turn(n.c, n.inbox[0], draw) && r.outcome != Panic
    ensures Effect(n.c, n.inbox[0], r) && !n.inbox[0].SubCrashed?
  {
    HeadExpected(n);
    if IsDropped(n.c, n.inbox[0]) {
      DroppedEffect(n.c, n.inbox[0], r);
    } else {
      HandledEffect(n.c, n.inbox[0], draw, r);
    }
  }

  /** What a turn leaves of the node, for a message that does not kill the process. */
  lemma TurnTook(n: Node, draw: seq<Peer>, r: Reply, n1: Node)
    requires n.inbox != [] && r == Turn(n.c, n.inbox[0], draw) && n1 == AfterTurn(n, draw) && n1.status != Crashed
    ensures Took(n, r, n1) && n1.g == n.g && r.outcome != Panic
  {
    RecalledRest(n, n.inbox[0], n.inbox[1..], r.self);
  }

  lemma TurnAccounting(n: Node, draw: seq<Peer>, n1: Node)
    requires Accounting(n) && n.inbox != [] && n1 == AfterTurn(n, draw) && n1.status != Crashed
    ensures Accounting(n1)
  {
    var r := Turn(n.c, n.inbox[0], draw);
    TurnTook(n, draw, r, n1);
    TurnEffect(n, draw, r);
    TookAccounting(n, r, n1);
  }

  /** Recalling a message changes nothing but the history. */
  lemma RecalledRest(n: Node, m: Msg, rest: seq<Msg>, self: seq<Msg>)
    ensures var h := Recalled(n, m, rest, self);
      h == n.(wanted := h.wanted, clobbered := h.clobbered, ordered := h.ordered, overtaken := h.overtaken)
    ensures Recalled(n, m, rest, self).wanted == Remembered(n, m).wanted
    ensures Recalled(n, m, rest, self).clobbered == Remembered(n, m).clobbered
  {
  }

  lemma TookQueues(n: Node, r: Reply, n1: Node)
    requires QueuesOk(n) && Took(n, r, n1) && ToItself(r.self)
    ensures QueuesOk(n1)
  {
    assert forall m :: m in n1.inbox ==> m in n.inbox || m in r.self;
  }

  // ---- Other steps -----------------------------------------------------------------

  /** A message was appended to the Central controller's queue. */
  lemma Appended(q: seq<Msg>, m: Msg, k: Msg)
    ensures multiset(q + [m])[k] == multiset(q)[k] + Bit(m == k)
  {
  }

  /** An appended message leaves the counts of all other messages alone. */
  lemma ClosingsSame(q: seq<Msg>, m: Msg)
    requires !m.EndpointClosed?
    ensures forall r :: Closings(q + [m], r) == Closings(q, r)
  {
  }

  lemma CreationsSame(q: seq<Msg>, m: Msg)
    requires !m.OutgoingP2PCreated?
    ensures forall p :: multiset(q + [m])[OutgoingP2PCreated(p)] == multiset(q)[OutgoingP2PCreated(p)]
  {
  }

  lemma EndingsSame(q: seq<Msg>, m: Msg)
    requires !m.SubClosed? && !m.SubCrashed?
    ensures forall s :: Endings(q + [m], s) == Endings(q, s)
  {
  }

  lemma RoutinesKept(n: Node, n1: Node)
    requires RoutinesMatch(n) && n1.c == n.c && n1.live == n.live
    requires forall r :: Closings(n1.inbox, r) == Closings(n.inbox, r)
    ensures RoutinesMatch(n1)
  {
    forall r ensures n1.live[r] + Closings(n1.inbox, r) == Bit(Runs(n1.c, r)) {
      assert n.live[r] + Closings(n.inbox, r) == Bit(Runs(n.c, r));
    }
  }

  lemma DialsKept(n: Node, n1: Node)
    requires DialsMatch(n) && n1.c == n.c && n1.dials == n.dials
    requires forall p :: multiset(n1.inbox)[OutgoingP2PCreated(p)] == multiset(n.inbox)[OutgoingP2PCreated(p)]
    ensures DialsMatch(n1)
  {
  }

  lemma SubsKept(n: Node, n1: Node)
    requires SubsMatch(n) && n1.c == n.c && n1.alive == n.alive && n1.gout == n.gout
    requires forall s :: Endings(n1.inbox, s) == Endings(n.inbox, s)
    ensures SubsMatch(n1)
  {
    forall s ensures Bit(s in n1.alive) + Endings(n1.inbox, s) + Endings(n1.gout, s) == Bit(s in n1.c.subs) {
      assert Bit(s in n.alive) + Endings(n.inbox, s) + Endings(n.gout, s) == Bit(s in n.c.subs);
    }
  }

  /** An appended message keeps the order of the shutdown and the kinds of messages. */
  lemma OrderKept(n: Node, m: Msg, n1: Node)
    requires ClosesWhenAsked(n) && QueuesOk(n) && n1.inbox == n.inbox + [m]
    requires n1.c == n.c && n1.gin == n.gin && n1.asked == n.asked
    requires forall k :: k in n1.gout ==> k in n.gout
    requires n.c.stopping || !m.SubClosed?
    requires m.IncomingGossip? ==> FromOutside(m.gossip)
    ensures ClosesWhenAsked(n1) && QueuesOk(n1)
  {
  }

  /** The parts of a node that the account refers to, other than the queue. */
  ghost predicate SameParts(n: Node, n1: Node) {
    && n1.c == n.c && n1.gin == n.gin && n1.gout == n.gout && n1.live == n.live && n1.dials == n.dials
    && n1.alive == n.alive && n1.asked == n.asked
  }

  /** A message that the account does not count was appended. */
  lemma AppendedAccounting(n: Node, m: Msg, n1: Node)
    requires Accounting(n) && SameParts(n, n1) && n1.inbox == n.inbox + [m]
    requires !m.EndpointClosed? && !m.OutgoingP2PCreated? && !m.SubClosed? && !m.SubCrashed?
    requires m.IncomingGossip? ==> FromOutside(m.gossip)
    ensures Accounting(n1)
  {
    ClosingsSame(n.inbox, m);
    RoutinesKept(n, n1);
    CreationsSame(n.inbox, m);
    DialsKept(n, n1);
    EndingsSame(n.inbox, m);
    SubsKept(n, n1);
    OrderKept(n, m, n1);
  }

  lemma RoutineEndsMatch(n: Node, r: Routine, crashed: bool, n1: Node)
    requires RoutinesMatch(n) && r in n.live && n1.c == n.c
    requires n1.live == n.live - multiset{r} && n1.inbox == n.inbox + [EndpointClosed(r, crashed)]
    ensures RoutinesMatch(n1)
  {
    forall x ensures n1.live[x] + Closings(n1.inbox, x) == Bit(Runs(n1.c, x)) {
      Appended(n.inbox, EndpointClosed(r, crashed), EndpointClosed(x, true));
      Appended(n.inbox, EndpointClosed(r, crashed), EndpointClosed(x, false));
      assert n.live[x] + Closings(n.inbox, x) == Bit(Runs(n.c, x));
    }
  }

  lemma RoutineEndsAccounting(n: Node, r: Routine, crashed: bool, n1: Node)
    requires Accounting(n) && r in n.live
    requires n1 == n.(live := n.live - multiset{r}, inbox := n.inbox + [EndpointClosed(r, crashed)])
    ensures Accounting(n1)
  {
    var m := EndpointClosed(r, crashed);
    RoutineEndsMatch(n, r, crashed, n1);
    CreationsSame(n.inbox, m);
    DialsKept(n, n1);
    EndingsSame(n.inbox, m);
    SubsKept(n, n1);
    OrderKept(n, m, n1);
  }

  lemma DialEndsMatch(n: Node, p: Peer, n1: Node)
    requires DialsMatch(n) && p in n.dials && n1.c == n.c
    requires n1.dials == n.dials - multiset{p} && n1.inbox == n.inbox + [OutgoingP2PCreated(p)]
    ensures DialsMatch(n1)
  {
    forall q ensures n1.dials[q] + multiset(n1.inbox)[OutgoingP2PCreated(q)] == Bit(q in n1.c.creating) {
      Appended(n.inbox, OutgoingP2PCreated(p), OutgoingP2PCreated(q));
      assert n.dials[q] + multiset(n.inbox)[OutgoingP2PCreated(q)] == Bit(q in n.c.creating);
    }
  }

  lemma DialEndsAccounting(n: Node, p: Peer, n1: Node)
    requires Accounting(n) && p in n.dials
    requires n1 == n.(dials := n.dials - multiset{p}, inbox := n.inbox + [OutgoingP2PCreated(p)])
    ensures Accounting(n1)
  {
    var m := OutgoingP2PCreated(p);
    DialEndsMatch(n, p, n1);
    ClosingsSame(n.inbox, m);
    RoutinesKept(n, n1);
    EndingsSame(n.inbox, m);
    SubsKept(n, n1);
    OrderKept(n, m, n1);
  }

  /** Nothing but the Gossiper and its queues has changed, and it has not closed. */
  lemma GossipAccounting(n: Node, n1: Node, out: seq<Msg>)
    requires Accounting(n) && n1 == n.(g := n1.g, gin := n1.gin, gout := n.gout + out)
    requires forall m :: m in n1.gin ==> m in n.gin
    requires forall m :: m in out ==> FromGossiper(m) && !m.SubClosed? && !m.SubCrashed?
    ensures Accounting(n1)
  {
    forall s ensures Endings(n1.gout, s) == Endings(n.gout, s) {
      assert SubClosed(s) !in out && SubCrashed(s) !in out;
    }
  }

  lemma SubEndsMatch(n: Node, sub: Sub, m: Msg, n1: Node)
    requires SubsMatch(n) && sub in n.alive && (m == SubCrashed(sub) || m == SubClosed(sub))
    requires n1.c == n.c && n1.alive == n.alive - {sub}
    requires (n1.inbox == n.inbox && n1.gout == n.gout + [m]) || (n1.inbox == n.inbox + [m] && n1.gout == n.gout)
    ensures SubsMatch(n1)
  {
    forall s ensures Bit(s in n1.alive) + Endings(n1.inbox, s) + Endings(n1.gout, s) == Bit(s in n1.c.subs) {
      Appended(n.gout, m, SubClosed(s));
      Appended(n.gout, m, SubCrashed(s));
      Appended(n.inbox, m, SubClosed(s));
      Appended(n.inbox, m, SubCrashed(s));
      assert Bit(s in n.alive) + Endings(n.inbox, s) + Endings(n.gout, s) == Bit(s in n.c.subs);
    }
  }

  /** The Gossiper's goroutine has ended with this report. */
  lemma GossiperEnds(n: Node, m: Msg, n1: Node)
    requires Accounting(n) && Gossip in n.alive
    requires m == SubCrashed(Gossip) || (m == SubClosed(Gossip) && n.c.stopping)
    requires n1 == n.(g := n1.g, gin := [], gout := n.gout + [m], alive := n.alive - {Gossip})
    ensures Accounting(n1)
  {
    hide TablesOk, Accounted, RoutinesMatch, DialsMatch, SubsMatch;
    SubEndsMatch(n, Gossip, m, n1);
    RoutinesKept(n, n1);
    DialsKept(n, n1);
  }

  /** A submodule other than the Gossiper has ended with this report. */
  lemma SubEnds(n: Node, sub: Sub, m: Msg, n1: Node)
    requires Accounting(n) && sub in n.alive
    requires m == SubCrashed(sub) || (m == SubClosed(sub) && sub in n.asked)
    requires n1 == n.(alive := n.alive - {sub}, inbox := n.inbox + [m])
    ensures Accounting(n1)
  {
    ClosingsSame(n.inbox, m);
    RoutinesKept(n, n1);
    CreationsSame(n.inbox, m);
    DialsKept(n, n1);
    SubEndsMatch(n, sub, m, n1);
    OrderKept(n, m, n1);
  }

  lemma SentMatch(n: Node, n1: Node)
    requires SubsMatch(n) && n.gout != [] && n1.c == n.c && n1.alive == n.alive
    requires n1.inbox == n.inbox + [n.gout[0]] && n1.gout == n.gout[1..]
    ensures SubsMatch(n1)
  {
    forall s ensures Endings(n1.inbox, s) + Endings(n1.gout, s) == Endings(n.inbox, s) + Endings(n.gout, s) {
      QueueHead(n.gout, SubClosed(s));
      QueueHead(n.gout, SubCrashed(s));
      Appended(n.inbox, n.gout[0], SubClosed(s));
      Appended(n.inbox, n.gout[0], SubCrashed(s));
    }
  }

  lemma GossiperSendsAccounting(n: Node, n1: Node)
    requires Accounting(n) && n.gout != [] && n1 == n.(inbox := n.inbox + [n.gout[0]], gout := n.gout[1..])
    ensures Accounting(n1)
  {
    hide TablesOk, Accounted, RoutinesMatch, DialsMatch, SubsMatch;
    var m := n.gout[0];
    assert m in n.gout && FromGossiper(m);
    ClosingsSame(n.inbox, m);
    RoutinesKept(n, n1);
    CreationsSame(n.inbox, m);
    DialsKept(n, n1);
    SentMatch(n, n1);
    OrderKept(n, m, n1);
  }

  // ---- All steps -------------------------------------------------------------------

  lemma RoundAccounting(n: Node, round: G.GossipStep, n1: Node)
    requires Accounting(n) && round.Round? && G.Enabled(n.g, round) && n1 == AfterGossip(n, round, n.gin)
    ensures Accounting(n1)
  {
    var out := RoundMessages(n.g, round);
    GossipAccounting(n, n1, out);
  }

  lemma RoundMessages(g: G.Gossiper, round: G.GossipStep) returns (out: seq<Msg>)
    requires round.Round? && G.Enabled(g, round)
    ensures out == G.Next(g, round).1 && forall m :: m in out ==> FromGossiper(m) && !m.SubClosed? && !m.SubCrashed?
  {
    var pushes, releases, others := L.RoundLeases(g, round);
    out := pushes + releases + others;
  }

  lemma CloseStep(n: Node, clients: seq<Client>, items: seq<Item>, gin: seq<GossipMsg>)
    requires G.Enabled(n.g, G.Handle(GossiperClose, clients, items))
    ensures AfterGossip(n, G.Handle(GossiperClose, clients, items), gin)
      == n.(gin := [], gout := n.gout + [SubClosed(Gossip)], alive := n.alive - {Gossip})
  {
    assert G.HandleStep(n.g, GossiperClose, clients, items) == (n.g, [SubClosed(Gossip)]);
  }

  lemma CloseAccounting(n: Node, clients: seq<Client>, items: seq<Item>, n1: Node)
    requires Accounting(n) && Gossip in n.alive && GossiperClose in n.gin
    requires n1 == n.(gin := [], gout := n.gout + [SubClosed(Gossip)], alive := n.alive - {Gossip})
    ensures Accounting(n1)
  {
    GossiperEnds(n, SubClosed(Gossip), n1);
  }

  lemma HandleAccounting(n: Node, m: GossipMsg, clients: seq<Client>, items: seq<Item>, n1: Node)
    requires Accounting(n) && n.gin != [] && m != GossiperClose && G.Enabled(n.g, G.Handle(m, clients, items))
    requires n1 == AfterGossip(n, G.Handle(m, clients, items), n.gin[1..])
    ensures Accounting(n1)
  {
    HandleMessages(n.g, m, clients, items);
    GossipAccounting(n, n1, G.Next(n.g, G.Handle(m, clients, items)).1);
  }

  lemma HandleMessages(g: G.Gossiper, m: GossipMsg, clients: seq<Client>, items: seq<Item>)
    requires m != GossiperClose && G.Enabled(g, G.Handle(m, clients, items))
    ensures forall k :: k in G.Next(g, G.Handle(m, clients, items)).1 ==>
      FromGossiper(k) && !k.SubClosed? && !k.SubCrashed?
  {
    EnabledHandles(g, m, clients, items);
    L.HandleLeases(g, m, clients, items);
  }

  lemma EnabledHandles(g: G.Gossiper, m: GossipMsg, clients: seq<Client>, items: seq<Item>)
    requires G.Enabled(g, G.Handle(m, clients, items))
    ensures (forall c :: c in clients ==> c in g.clients) && forall x :: x in items ==> x in g.list
    ensures G.Next(g, G.Handle(m, clients, items)) == G.HandleStep(g, m, clients, items)
  {
  }

  lemma GossipStepAccounting(n: Node, step: Step, n1: Node)
    requires Accounting(n) && Enabled(n, step) && n1 == Next(n, step)
    requires step.GossiperHandles? || step.GossiperRound?
    ensures Accounting(n1)
  {
    if step.GossiperRound? {
      RoundAccounting(n, step.round, n1);
    } else if n.gin[0] == GossiperClose {
      CloseStep(n, step.clients, step.items, n.gin[1..]);
      CloseAccounting(n, step.clients, step.items, n1);
    } else {
      HandleAccounting(n, n.gin[0], step.clients, step.items, n1);
    }
  }

  lemma EndStepAccounting(n: Node, step: Step, n1: Node)
    requires Accounting(n) && Enabled(n, step) && n1 == Next(n, step)
    requires step.SubStops? || step.SubFails?
    ensures Accounting(n1)
  {
    if step.SubStops? {
      SubEnds(n, step.sub, SubClosed(step.sub), n1);
    } else if step.sub == Gossip {
      GossiperEnds(n, SubCrashed(Gossip), n1);
    } else {
      SubEnds(n, step.sub, SubCrashed(step.sub), n1);
    }
  }

  lemma FromEnvironmentUncounted(n: Node, m: Msg)
    requires FromEnvironment(n, m)
    ensures !m.EndpointClosed? && !m.OutgoingP2PCreated? && !m.SubClosed? && !m.SubCrashed?
    ensures m.IncomingGossip? ==> FromOutside(m.gossip)
    ensures !m.RandomPeerListRelease? && !m.GossipPush? && !m.RandomPeerListRequest?
    ensures m.PeerAdd? || m.PeerRemove? ==> !m.self
    ensures m.MembershipPushRequest? ==> !m.isValue
  {
  }

  lemma QueueStepAccounting(n: Node, step: Step, n1: Node)
    requires Accounting(n) && Enabled(n, step) && n1 == Next(n, step)
    requires step.Environment? || step.ProbeEnds?
    ensures Accounting(n1)
  {
    if step.Environment? {
      FromEnvironmentUncounted(n, step.m);
      AppendedAccounting(n, step.m, n1);
    } else {
      AppendedAccounting(n, CentralProbePeerReply(step.peer, step.ok), n1);
    }
  }

  lemma ReportStepAccounting(n: Node, step: Step, n1: Node)
    requires Accounting(n) && Enabled(n, step) && n1 == Next(n, step)
    requires step.RoutineEnds? || step.DialEnds? || step.GossiperSends?
    ensures Accounting(n1)
  {
    if step.RoutineEnds? {
      RoutineEndsAccounting(n, step.routine, step.crashed, n1);
    } else if step.DialEnds? {
      DialEndsAccounting(n, step.peer, n1);
    } else {
      GossiperSendsAccounting(n, n1);
    }
  }

  /** Every step of the node keeps the account, unless it kills the process. */
  lemma StepAccounting(n: Node, step: Step, n1: Node)
    requires Accounting(n) && Enabled(n, step) && n1 == Next(n, step) && n1.status != Crashed
    ensures Accounting(n1)
  {
    if step.CentralTurn? {
      TurnAccounting(n, step.draw, n1);
    } else if step.GossiperHandles? || step.GossiperRound? {
      GossipStepAccounting(n, step, n1);
    } else if step.SubStops? || step.SubFails? {
      EndStepAccounting(n, step, n1);
    } else if step.Environment? || step.ProbeEnds? {
      QueueStepAccounting(n, step, n1);
    } else {
      ReportStepAccounting(n, step, n1);
    }
  }

  lemma InitAccounting(n: Node)
    requires Init(n)
    ensures Accounting(n)
  {
    hide RoutinesMatch, DialsMatch, SubsMatch, Accounted, TablesOk;
    InitAccounted(n.c);
    InitMatches(n);
  }

  lemma InitAccounted(c: Central)
    requires c == Central(map[], map[], map[], map[], map[], map[], c.incomingMax, c.clientsMax, ALL_SUBS, false, 4)
    ensures TablesOk(c) && Accounted(c)
  {
    assert Endpoints(c) == {};
    assert RunningSet(c) == {};
    FourSubs();
  }

  lemma FourSubs()
    ensures |ALL_SUBS| == 4
  {
    assert ALL_SUBS == {Membership} + {Gossip} + {APIListener} + {P2PListener};
  }

  lemma InitMatches(n: Node)
    requires Init(n)
    ensures RoutinesMatch(n) && DialsMatch(n) && SubsMatch(n)
  {
    forall s: Sub ensures s in ALL_SUBS {
      match s { case Membership => case Gossip => case APIListener => case P2PListener => }
    }
  }
}
