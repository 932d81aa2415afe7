/** The lease protocol between the Central controller and the Gossiper over all runs: a
    usage counter never undercounts, and a push never arrives for a peer that is gone. */
module NodeLease {
  import opened Types
  import opened Messages
  import G = GossiperModel
  import opened GossiperLease
  import opened CentralModel
  import opened CentralTables
  import opened CentralEffects
  import opened Node
  import opened NodeAccounting

  /** Leases that exist outside the Central controller's tables: held by the Gossiper's
      items, granted in a reply under way, or given back in a message under way. */
  ghost function Demand(n: Node): multiset<Peer> {
    Held(n.g.list) + Granted(n.gin) + Released(n.inbox) + Released(n.gout)
  }

  /** Outside the shutdown no usage counter undercounts. */
  ghost predicate LeasesCovered(n: Node) {
    !n.c.stopping ==> forall p :: Demand(n)[p] <= Usage(n.c, p)
  }

  /** Every push in the queue finds more leases on its target than the debt and the
      releases ahead of it can use up. */
  ghost predicate PushesCovered(q: seq<Msg>, debt: multiset<Peer>, c: Central)
    decreases |q|
  {
    q == [] ||
    ((q[0].GossipPush? ==> debt[q[0].to] < Usage(c, q[0].to))
     && PushesCovered(q[1..], debt + ReleasedBy(q[0]), c))
  }

  ghost predicate PushesSafe(n: Node) {
    !n.c.stopping ==> PushesCovered(n.inbox + n.gout, multiset{}, n.c)
  }

  // ---- Queues ----------------------------------------------------------------------

  lemma {:induction false} CoveredConcat(a: seq<Msg>, b: seq<Msg>, debt: multiset<Peer>, c: Central)
    ensures PushesCovered(a + b, debt, c) <==> PushesCovered(a, debt, c) && PushesCovered(b, debt + Released(a), c)
    decreases |a|
  {
    if a == [] {
      assert a + b == b;
      assert debt + Released(a) == debt;
    } else {
      assert (a + b)[1..] == a[1..] + b;
      CoveredConcat(a[1..], b, debt + ReleasedBy(a[0]), c);
      var first, rest := ReleasedBy(a[0]), Released(a[1..]);
      assert Released(a) == first + rest;
      assert debt + first + rest == debt + (first + rest);
    }
  }

  lemma {:induction false} NoPushesCovered(q: seq<Msg>, debt: multiset<Peer>, c: Central)
    requires forall m :: m in q ==> !m.GossipPush?
    ensures PushesCovered(q, debt, c)
    decreases |q|
  {
    if q != [] {
      NoPushesCovered(q[1..], debt + ReleasedBy(q[0]), c);
    }
  }

  /** Pushes to peers with a lease to spare are covered if nothing is released among them. */
  lemma {:induction false} SparePushesCovered(q: seq<Msg>, debt: multiset<Peer>, c: Central)
    requires forall m :: m in q ==> m.GossipPush? && debt[m.to] < Usage(c, m.to)
    ensures PushesCovered(q, debt, c) && Released(q) == multiset{}
    decreases |q|
  {
    if q != [] {
      assert q[0] in q;
      assert debt + ReleasedBy(q[0]) == debt;
      SparePushesCovered(q[1..], debt, c);
    }
  }

  /** Counters may rise, and drop by as much as the debt shrinks. */
  lemma {:induction false} CoveredMonotone(q: seq<Msg>, d: multiset<Peer>, c: Central, d1: multiset<Peer>, c1: Central)
    requires PushesCovered(q, d, c)
    requires forall p :: Usage(c1, p) - d1[p] >= Usage(c, p) - d[p]
    ensures PushesCovered(q, d1, c1)
    decreases |q|
  {
    if q != [] {
      var r := ReleasedBy(q[0]);
      forall p ensures Usage(c1, p) - (d1 + r)[p] >= Usage(c, p) - (d + r)[p] {
      }
      CoveredMonotone(q[1..], d + r, c, d1 + r, c1);
    }
  }

  /** The meaning of the recursive definition, position by position. */
  lemma {:induction false} CoveredAt(q: seq<Msg>, debt: multiset<Peer>, c: Central, i: nat)
    requires PushesCovered(q, debt, c) && i < |q| && q[i].GossipPush?
    ensures debt[q[i].to] + Released(q[..i])[q[i].to] < Usage(c, q[i].to)
    decreases |q|
  {
    if i == 0 {
      assert Released(q[..0]) == multiset{};
    } else {
      CoveredAt(q[1..], debt + ReleasedBy(q[0]), c, i - 1);
      assert q[..i][1..] == q[1..][..i - 1];
    }
  }

  // ---- Turns of the Central controller ---------------------------------------------

  /** No counter is below what the message gives back. */
  ghost predicate InCredit(c: Central, m: Msg) {
    forall p :: ReleasedBy(m)[p] <= Usage(c, p)
  }

  /** Counters grow by exactly the leases granted and shrink by those given back. */
  ghost predicate LeaseEffect(c: Central, m: Msg, r: Reply) {
    && (forall p :: Usage(r.c, p) == Usage(c, p) + Granted(r.gossiper)[p] - ReleasedBy(m)[p])
    && ToItself(r.self)
  }

  lemma NothingGranted(c: Central, m: Msg, r: Reply)
    requires !m.RandomPeerListRelease? && forall p :: Usage(r.c, p) == Usage(c, p)
    requires forall k :: k in r.gossiper ==> !k.RandomPeerListReply?
    requires ToItself(r.self)
    ensures LeaseEffect(c, m, r)
  {
    NoGrants(r.gossiper);
  }

  lemma {:induction false} NoGrants(q: seq<GossipMsg>)
    requires forall k :: k in q ==> !k.RandomPeerListReply?
    ensures Granted(q) == multiset{}
  {
    if q != [] {
      NoGrants(q[1..]);
    }
  }

  lemma CommandLeases(c: Central, p: Peer, c1: Central)
    requires Commanded(c, p, c1)
    requires !SameSlots(c, c1) ==> Usage(c1, p) == Usage(c, p)
    ensures forall q :: Usage(c1, q) == Usage(c, q)
  {
    if SameSlots(c, c1) {
      SlotsOnly(c, c1);
    } else {
      OnlySlotElsewhere(c, c1, p);
    }
  }

  lemma AddLeases(c: Central, p: Peer, m: Msg, r: Reply)
    requires TablesOk(c) && r == PeerAddHandler(c, p) && !m.RandomPeerListRelease?
    ensures LeaseEffect(c, m, r)
  {
    AddTables(c, p, r.c);
    CommandLeases(c, p, r.c);
    AddDials(c, p, r);
    NothingGranted(c, m, r);
  }

  lemma RemoveLeases(c: Central, p: Peer, m: Msg, r: Reply)
    requires TablesOk(c) && r == PeerRemoveHandler(c, p) && !m.RandomPeerListRelease? && Usage(c, p) >= 0
    ensures LeaseEffect(c, m, r)
  {
    RemoveTables(c, p, r.c);
    CommandLeases(c, p, r.c);
    RemoveQuiet(c, p, r);
    NothingGranted(c, m, r);
  }

  lemma ProbeLeases(c: Central, p: Peer, alive: bool, m: Msg, r: Reply)
    requires TablesOk(c) && (r == ProbeRequestHandler(c, p) || r == ProbeReplyHandler(c, p, alive))
    requires !m.RandomPeerListRelease?
    ensures LeaseEffect(c, m, r)
  {
    if r == ProbeRequestHandler(c, p) {
      ProbeRequestQuiet(c, p, r);
    } else {
      ProbeReplyQuiet(c, p, alive, r);
    }
    SlotsOnly(c, r.c);
    NothingGranted(c, m, r);
  }

  lemma ProbeRequestQuiet(c: Central, p: Peer, r: Reply)
    requires r == ProbeRequestHandler(c, p)
    ensures r.c == c.(probing := r.c.probing) && r.gossiper == [] && r.self == []
  {
  }

  lemma ProbeReplyQuiet(c: Central, p: Peer, alive: bool, r: Reply)
    requires r == ProbeReplyHandler(c, p, alive)
    ensures r.c == c.(probing := r.c.probing) && r.gossiper == [] && ToItself(r.self)
  {
    if p in c.probing {
      assert r.c == c.(probing := c.probing - {p});
    } else {
      assert r == Quiet(c);
    }
  }

  lemma RequestLeases(c: Central, related: Option<Item>, num: nat, draw: seq<Peer>, r: Reply)
    requires TablesOk(c) && IsDraw(c, num, draw)
    requires r == ListRequestHandler(c, related, draw) && r.outcome != Panic
    ensures LeaseEffect(c, RandomPeerListRequest(related, num), r)
  {
    RequestUsage(c, draw, r.c);
    assert r.gossiper[1..] == [];
    assert Granted(r.gossiper) == multiset(draw);
  }

  lemma ReleaseLeases(c: Central, peers: seq<Peer>, r: Reply)
    requires TablesOk(c) && r == Quiet(ReleaseAll(c, peers)) && InCredit(c, RandomPeerListRelease(peers))
    ensures LeaseEffect(c, RandomPeerListRelease(peers), r)
  {
    assert forall p :: ReleasedBy(RandomPeerListRelease(peers))[p] == multiset(peers)[p];
    ReleaseAllUsage(c, peers, r.c);
    assert Granted(r.gossiper) == multiset{};
  }

  lemma DialledLeases(c: Central, p: Peer, r: Reply)
    requires TablesOk(c) && p in c.creating && r == OutgoingCreatedHandler(c, p)
    ensures LeaseEffect(c, OutgoingP2PCreated(p), r)
  {
    hide LeaseEffect, DialsEffect, SameElsewhere, OutgoingCreatedHandler, TablesOk;
    CreatedTables(c, p, r.c);
    OnlySlotElsewhere(c, r.c, p);
    CreatedDials(c, p, r);
    NothingGranted(c, OutgoingP2PCreated(p), r);
  }

  lemma AcceptedLeases(c: Central, m: Msg, draw: seq<Peer>, r: Reply)
    requires r == Handle(c, m, draw) && (m.IncomingP2PCreated? || m.APIEndpointCreated?)
    ensures LeaseEffect(c, m, r)
  {
    SlotsUsage(c, r.c);
    NothingGranted(c, m, r);
  }

  lemma SlotsUsage(c: Central, c1: Central)
    requires c1.view == c.view && c1.awaiting == c.awaiting
    ensures forall p :: Usage(c1, p) == Usage(c, p)
  {
  }

  lemma ClosedLeases(c: Central, x: Routine, crashed: bool, r: Reply)
    requires TablesOk(c) && Runs(c, x) && !c.stopping && r == EndpointClosedHandler(c, x, crashed)
    requires InCredit(c, EndpointClosed(x, crashed))
    ensures LeaseEffect(c, EndpointClosed(x, crashed), r)
  {
    EndpointClosedTables(c, x, crashed, r.c);
    assert forall p :: ReleasedBy(EndpointClosed(x, crashed))[p] <= Usage(c, p);
    ClosedQuiet(c, x, crashed, r);
    ClosedNoGrant(c, x, crashed, r);
    NothingGranted(c, EndpointClosed(x, crashed), r);
  }

  lemma ClosedNoGrant(c: Central, x: Routine, crashed: bool, r: Reply)
    requires r == EndpointClosedHandler(c, x, crashed)
    ensures forall k :: k in r.gossiper ==> !k.RandomPeerListReply?
  {
    match x.endpoint
    case Outgoing(p) => OutgoingClosedQuiet(c, p, x.isReader, crashed, r);
    case Incoming(p) => IncomingNoGrant(c, p, x.isReader, crashed, r);
    case API(cl) => APINoGrant(c, cl, x.isReader, crashed, r);
  }

  lemma IncomingNoGrant(c: Central, p: Peer, isReader: bool, crashed: bool, r: Reply)
    requires r == IncomingClosedHandler(c, p, isReader, crashed)
    ensures r.gossiper == []
  {
  }

  lemma APINoGrant(c: Central, cl: Client, isReader: bool, crashed: bool, r: Reply)
    requires r == APIClosedHandler(c, cl, isReader, crashed)
    ensures forall k :: k in r.gossiper ==> k == GossipUnnotify(cl)
  {
  }

  lemma SubClosedLeases(c: Central, sub: Sub, r: Reply)
    requires r == SubClosedHandler(c, sub)
    ensures LeaseEffect(c, SubClosed(sub), r)
  {
    SlotsUsage(c, r.c);
    NothingGranted(c, SubClosed(sub), r);
  }

  lemma HandledLeases(c: Central, m: Msg, draw: seq<Peer>, r: Reply)
    requires TablesOk(c) && Expected(c, m) && !c.stopping && r == Handle(c, m, draw) && r.outcome != Panic
    requires !r.c.stopping
    requires m.RandomPeerListRequest? ==> IsDraw(c, m.num, draw)
    requires m.IncomingGossip? ==> FromOutside(m.gossip)
    requires InCredit(c, m)
    ensures LeaseEffect(c, m, r)
  {
    hide PeerAddHandler, PeerRemoveHandler, ProbeRequestHandler, ProbeReplyHandler, OutgoingCreatedHandler,
      IncomingCreatedHandler, APICreatedHandler, EndpointClosedHandler, ListRequestHandler, ReleaseAll,
      ToOutgoing, ToIncoming, ToClient, ToGossiper, SubClosedHandler, LeaseEffect, TablesOk;
    match m {
      case PeerAdd(p, self) => AddLeases(c, p, m, r);
      case PeerRemove(p, self) =>
        assert ReleasedBy(m)[p] <= Usage(c, p);
        RemoveLeases(c, p, m, r);
      case ProbePeerRequest(p) => ProbeLeases(c, p, false, m, r);
      case CentralProbePeerReply(p, alive) => ProbeLeases(c, p, alive, m, r);
      case OutgoingP2PCreated(p) => DialledLeases(c, p, r);
      case IncomingP2PCreated(p) => AcceptedLeases(c, m, draw, r);
      case APIEndpointCreated(cl) => AcceptedLeases(c, m, draw, r);
      case EndpointClosed(x, crashed) => ClosedLeases(c, x, crashed, r);
      case SubClosed(s) => SubClosedLeases(c, s, r);
      case SubCrashed(_) =>
      case RandomPeerListRequest(related, num) => RequestLeases(c, related, num, draw, r);
      case RandomPeerListRelease(peers) => ReleaseLeases(c, peers, r);
      case CentralCrash =>
      case CentralClose =>
      case _ => PassedLeases(c, m, draw, r);
    }
  }

  lemma PassedLeases(c: Central, m: Msg, draw: seq<Peer>, r: Reply)
    requires r == Handle(c, m, draw)
    requires IsPassedOn(m)
    ensures LeaseEffect(c, m, r)
  {
    PassesOn(c, m, draw, r);
    NothingGranted(c, m, r);
  }

  /** Releases of the queue before and after a turn. */
  lemma TookReleases(n: Node, r: Reply, n1: Node)
    requires Took(n, r, n1) && ToItself(r.self)
    ensures Released(n.inbox) == ReleasedBy(n.inbox[0]) + Released(n1.inbox)
  {
    NoReleases(r.self);
    ReleasedConcat(n.inbox[1..], r.self);
  }

  lemma TookLeases(n: Node, r: Reply, n1: Node)
    requires LeasesCovered(n) && Took(n, r, n1) && n1.g == n.g && !n.c.stopping && LeaseEffect(n.c, n.inbox[0], r)
    ensures LeasesCovered(n1)
  {
    TookReleases(n, r, n1);
    GrantedConcat(n.gin, r.gossiper);
    forall p ensures Demand(n1)[p] <= Usage(n1.c, p) {
      assert Demand(n)[p] <= Usage(n.c, p);
    }
  }

  lemma TookPushes(n: Node, r: Reply, n1: Node)
    requires PushesSafe(n) && Took(n, r, n1) && !n.c.stopping && LeaseEffect(n.c, n.inbox[0], r)
    ensures PushesSafe(n1)
  {
    var m, rest := n.inbox[0], n.inbox[1..];
    var none: multiset<Peer> := multiset{};
    assert (n.inbox + n.gout)[1..] == rest + n.gout;
    assert none + ReleasedBy(m) == ReleasedBy(m);
    assert PushesCovered(rest + n.gout, ReleasedBy(m), n.c);
    CoveredMonotone(rest + n.gout, ReleasedBy(m), n.c, none, r.c);
    CoveredConcat(rest, n.gout, none, r.c);
    NoReleases(r.self);
    NoPushesCovered(r.self, none + Released(rest), r.c);
    CoveredConcat(rest, r.self, none, r.c);
    ReleasedConcat(rest, r.self);
    assert Released(rest) + none == Released(rest);
    CoveredConcat(rest + r.self, n.gout, none, r.c);
  }

  // ---- Other steps -----------------------------------------------------------------

  /** Nothing changed but the end of the Central controller's queue. */
  lemma AppendedLeases(n: Node, m: Msg, n1: Node)
    requires LeasesCovered(n) && PushesSafe(n)
    requires n1.c == n.c && n1.g == n.g && n1.gin == n.gin && n1.gout == n.gout && n1.inbox == n.inbox + [m]
    requires !m.RandomPeerListRelease? && !m.GossipPush?
    ensures LeasesCovered(n1) && PushesSafe(n1)
  {
    if !n.c.stopping {
      var none: multiset<Peer> := multiset{};
      NoReleases([m]);
      ReleasedConcat(n.inbox, [m]);
      assert Demand(n1) == Demand(n);
      CoveredConcat(n.inbox, n.gout, none, n.c);
      NoPushesCovered([m], none + Released(n.inbox), n.c);
      CoveredConcat(n.inbox, [m], none, n.c);
      assert none + Released(n1.inbox) == none + Released(n.inbox);
      CoveredConcat(n1.inbox, n.gout, none, n.c);
    }
  }

  lemma SentLeases(n: Node, n1: Node)
    requires LeasesCovered(n) && PushesSafe(n) && n.gout != []
    requires n1.c == n.c && n1.g == n.g && n1.gin == n.gin
    requires n1.inbox == n.inbox + [n.gout[0]] && n1.gout == n.gout[1..]
    ensures LeasesCovered(n1) && PushesSafe(n1)
  {
    SentDemand(n, n1);
    MovedHead(n.inbox, n.gout);
  }

  lemma SentDemand(n: Node, n1: Node)
    requires n.gout != [] && n1.g == n.g && n1.gin == n.gin
    requires n1.inbox == n.inbox + [n.gout[0]] && n1.gout == n.gout[1..]
    ensures Demand(n1) == Demand(n)
  {
    ReleasedConcat(n.inbox, [n.gout[0]]);
    ReleasedSingle(n.gout[0]);
    assert Released(n.gout) == ReleasedBy(n.gout[0]) + Released(n.gout[1..]);
  }

  lemma MovedHead(a: seq<Msg>, b: seq<Msg>)
    requires b != []
    ensures a + [b[0]] + b[1..] == a + b
  {
  }

  lemma GossipPushes(n: Node, pushes: seq<Msg>, others: seq<Msg>, debt: multiset<Peer>)
    requires LeasesCovered(n) && !n.c.stopping && debt == Released(n.inbox) + Released(n.gout)
    requires forall m :: m in pushes ==> m.GossipPush? && m.to in Held(n.g.list)
    requires forall m :: m in others ==> !m.GossipPush?
    ensures PushesCovered(pushes + others, debt, n.c)
  {
    forall m | m in pushes ensures m.GossipPush? && debt[m.to] < Usage(n.c, m.to) {
      assert Demand(n)[m.to] <= Usage(n.c, m.to);
    }
    SparePushesCovered(pushes, debt, n.c);
    NoPushesCovered(others, debt + Released(pushes), n.c);
    CoveredConcat(pushes, others, debt, n.c);
  }

  lemma AppendedCovered(q: seq<Msg>, out: seq<Msg>, debt: multiset<Peer>, c: Central)
    requires PushesCovered(q, multiset{}, c) && debt == Released(q) && PushesCovered(out, debt, c)
    ensures PushesCovered(q + out, multiset{}, c)
  {
    var none: multiset<Peer> := multiset{};
    assert none + Released(q) == debt;
    CoveredConcat(q, out, none, c);
  }

  lemma GossipPushesSafe(n: Node, n1: Node, pushes: seq<Msg>, others: seq<Msg>)
    requires LeasesCovered(n) && PushesSafe(n) && !n.c.stopping
    requires n1.c == n.c && n1.inbox == n.inbox && n1.gout == n.gout + (pushes + others)
    requires forall m :: m in pushes ==> m.GossipPush? && m.to in Held(n.g.list)
    requires forall m :: m in others ==> !m.GossipPush?
    ensures PushesSafe(n1)
  {
    var debt := Released(n.inbox) + Released(n.gout);
    GossipPushes(n, pushes, others, debt);
    AppendedSafe(n, n1, pushes + others, debt);
  }

  lemma AppendedSafe(n: Node, n1: Node, out: seq<Msg>, debt: multiset<Peer>)
    requires PushesSafe(n) && !n.c.stopping && debt == Released(n.inbox) + Released(n.gout)
    requires n1.c == n.c && n1.inbox == n.inbox && n1.gout == n.gout + out
    requires PushesCovered(out, debt, n.c)
    ensures PushesSafe(n1)
  {
    ReleasedConcat(n.inbox, n.gout);
    Regroup(n.inbox, n.gout, out);
    AppendedCovered(n.inbox + n.gout, out, debt, n.c);
  }

  lemma Regroup(a: seq<Msg>, b: seq<Msg>, c: seq<Msg>)
    ensures a + (b + c) == a + b + c
  {
  }

  /** The Gossiper acted on its own: it may have dropped leases or put them into messages,
      and its pushes come before its releases. */
  lemma GossipLeases(n: Node, n1: Node, pushes: seq<Msg>, others: seq<Msg>)
    requires LeasesCovered(n) && PushesSafe(n)
    requires n1.c == n.c && n1.inbox == n.inbox && n1.gout == n.gout + (pushes + others)
    requires Held(n1.g.list) + Granted(n1.gin) + Released(pushes + others) <= Held(n.g.list) + Granted(n.gin)
    requires forall m :: m in pushes ==> m.GossipPush? && m.to in Held(n.g.list)
    requires forall m :: m in others ==> !m.GossipPush?
    ensures LeasesCovered(n1) && PushesSafe(n1)
  {
    if !n.c.stopping {
      GossipDemand(n, n1, pushes + others);
      GossipPushesSafe(n, n1, pushes, others);
    }
  }

  lemma GossipDemand(n: Node, n1: Node, out: seq<Msg>)
    requires LeasesCovered(n) && !n.c.stopping
    requires n1.c == n.c && n1.inbox == n.inbox && n1.gout == n.gout + out
    requires Held(n1.g.list) + Granted(n1.gin) + Released(out) <= Held(n.g.list) + Granted(n.gin)
    ensures LeasesCovered(n1)
  {
    ReleasedConcat(n.gout, out);
    forall p ensures Demand(n1)[p] <= Usage(n1.c, p) {
      assert Demand(n)[p] <= Usage(n.c, p);
      assert (Held(n1.g.list) + Granted(n1.gin) + Released(out))[p] <= (Held(n.g.list) + Granted(n.gin))[p];
    }
  }

  // ---- All steps -------------------------------------------------------------------

  ghost predicate Leases(n: Node) {
    LeasesCovered(n) && PushesSafe(n)
  }

  lemma TurnLeases(n: Node, draw: seq<Peer>, n1: Node)
    requires Accounting(n) && Leases(n) && Enabled(n, CentralTurn(draw)) && n1 == AfterTurn(n, draw)
      && n1.status != Crashed
    ensures Leases(n1)
  {
    var r := Turn(n.c, n.inbox[0], draw);
    TurnTook(n, draw, r, n1);
    TurnEffect(n, draw, r);
    if !n.c.stopping && !r.c.stopping {
      RunningTurnLeases(n, draw, r);
      TookLeases(n, r, n1);
      TookPushes(n, r, n1);
    }
  }

  lemma HeadInCredit(n: Node)
    requires LeasesCovered(n) && !n.c.stopping && n.inbox != []
    ensures InCredit(n.c, n.inbox[0])
  {
    forall p ensures ReleasedBy(n.inbox[0])[p] <= Usage(n.c, p) {
      assert Demand(n)[p] <= Usage(n.c, p);
      assert Released(n.inbox) == ReleasedBy(n.inbox[0]) + Released(n.inbox[1..]);
    }
  }

  lemma RunningTurnLeases(n: Node, draw: seq<Peer>, r: Reply)
    requires Accounting(n) && LeasesCovered(n) && Enabled(n, CentralTurn(draw))
    requires r == Turn(n.c, n.inbox[0], draw) && r.outcome != Panic && !n.c.stopping && !r.c.stopping
    ensures LeaseEffect(n.c, n.inbox[0], r)
  {
    HeadExpected(n);
    HeadInCredit(n);
    assert n.inbox[0] in n.inbox;
    HandledLeases(n.c, n.inbox[0], draw, r);
  }

  /** Leases that the Gossiper gained do not exceed those in the reply it took. */
  lemma TakenGrant(n: Node, m: GossipMsg, held: multiset<Peer>, released: multiset<Peer>)
    requires n.gin != [] && m == n.gin[0] && held + released <= Held(n.g.list) + GrantedBy(m)
    ensures held + Granted(n.gin[1..]) + released <= Held(n.g.list) + Granted(n.gin)
  {
    var rest := Granted(n.gin[1..]);
    assert Granted(n.gin) == GrantedBy(m) + rest;
    assert held + rest + released == held + released + rest;
    assert Held(n.g.list) + Granted(n.gin) == Held(n.g.list) + GrantedBy(m) + rest;
  }

  /** Releases and neutral messages together push nothing and give back what the releases do. */
  lemma Regrouped(pushes: seq<Msg>, releases: seq<Msg>, rest: seq<Msg>)
    requires forall m :: m in releases ==> m.RandomPeerListRelease?
    requires forall m :: m in rest ==> IsNeutral(m)
    ensures forall m :: m in releases + rest ==> !m.GossipPush?
    ensures Released(pushes + (releases + rest)) == Released(pushes + releases)
    ensures pushes + (releases + rest) == pushes + releases + rest
  {
    NoReleases(rest);
    ReleasedConcat(pushes + releases, rest);
    assert pushes + (releases + rest) == pushes + releases + rest;
  }

  lemma RoundOut(g: G.Gossiper, round: G.GossipStep) returns (pushes: seq<Msg>, others: seq<Msg>)
    requires round.Round? && G.Enabled(g, round)
    ensures G.RoundStep(g, round).1 == pushes + others
    ensures forall m :: m in pushes ==> m.GossipPush? && m.to in Held(g.list)
    ensures forall m :: m in others ==> !m.GossipPush?
    ensures Held(G.RoundStep(g, round).0.list) + Released(pushes + others) == Held(g.list)
  {
    var ps, releases, rest := RoundLeases(g, round);
    Regrouped(ps, releases, rest);
    pushes, others := ps, releases + rest;
  }

  lemma RoundStepLeases(n: Node, round: G.GossipStep, n1: Node)
    requires Leases(n) && round.Round? && G.Enabled(n.g, round) && n1 == AfterGossip(n, round, n.gin)
    ensures Leases(n1)
  {
    var pushes, others := RoundOut(n.g, round);
    var held, released := Held(n1.g.list), Released(pushes + others);
    assert held + Granted(n.gin) + released == held + released + Granted(n.gin);
    GossipLeases(n, n1, pushes, others);
  }

  lemma HandleStepLeases(n: Node, m: GossipMsg, clients: seq<Client>, items: seq<Item>, n1: Node)
    requires Leases(n) && n.gin != [] && m == n.gin[0] && m != GossiperClose
      && G.Enabled(n.g, G.Handle(m, clients, items))
    requires n1 == AfterGossip(n, G.Handle(m, clients, items), n.gin[1..])
    ensures Leases(n1)
  {
    var out := G.Next(n.g, G.Handle(m, clients, items)).1;
    HandlePushesNothing(n.g, m, clients, items);
    TakenGrant(n, m, Held(n1.g.list), Released(out));
    assert [] + out == out;
    GossipLeases(n, n1, [], out);
  }

  lemma HandlePushesNothing(g: G.Gossiper, m: GossipMsg, clients: seq<Client>, items: seq<Item>)
    requires m != GossiperClose && G.Enabled(g, G.Handle(m, clients, items))
    ensures var r := G.Next(g, G.Handle(m, clients, items));
      && Held(r.0.list) + Released(r.1) + LeakedBy(g, m) == Held(g.list) + GrantedBy(m)
      && forall k :: k in r.1 ==> !k.GossipPush?
  {
    EnabledHandles(g, m, clients, items);
    HandleLeases(g, m, clients, items);
  }

  /** The Gossiper's goroutine has ended: its queue is gone, its items hold on. */
  lemma GossiperEndsLeases(n: Node, m: Msg, n1: Node)
    requires Leases(n) && n1.c == n.c && n1.g == n.g && n1.inbox == n.inbox && n1.gin == [] && n1.gout == n.gout + [m]
    requires !m.RandomPeerListRelease? && !m.GossipPush?
    ensures Leases(n1)
  {
    NoReleases([m]);
    assert [] + [m] == [m];
    GossipLeases(n, n1, [], [m]);
  }

  lemma GossipStepLeases(n: Node, step: Step, n1: Node)
    requires Leases(n) && Enabled(n, step) && n1 == Next(n, step)
    requires step.GossiperHandles? || step.GossiperRound?
    ensures Leases(n1)
  {
    if step.GossiperRound? {
      RoundStepLeases(n, step.round, n1);
    } else if n.gin[0] == GossiperClose {
      CloseStep(n, step.clients, step.items, n.gin[1..]);
      GossiperEndsLeases(n, SubClosed(Gossip), n1);
    } else {
      HandleStepLeases(n, n.gin[0], step.clients, step.items, n1);
    }
  }

  lemma EndStepLeases(n: Node, step: Step, n1: Node)
    requires Leases(n) && Enabled(n, step) && n1 == Next(n, step)
    requires step.SubStops? || step.SubFails?
    ensures Leases(n1)
  {
    if step.SubStops? {
      AppendedLeases(n, SubClosed(step.sub), n1);
    } else if step.sub == Gossip {
      GossiperEndsLeases(n, SubCrashed(Gossip), n1);
    } else {
      AppendedLeases(n, SubCrashed(step.sub), n1);
    }
  }

  lemma QueueStepLeases(n: Node, step: Step, n1: Node)
    requires Leases(n) && Enabled(n, step) && n1 == Next(n, step)
    requires step.Environment? || step.ProbeEnds?
    ensures Leases(n1)
  {
    if step.Environment? {
      FromEnvironmentUncounted(n, step.m);
      AppendedLeases(n, step.m, n1);
    } else {
      AppendedLeases(n, CentralProbePeerReply(step.peer, step.ok), n1);
    }
  }

  lemma ReportStepLeases(n: Node, step: Step, n1: Node)
    requires Leases(n) && Enabled(n, step) && n1 == Next(n, step)
    requires step.RoutineEnds? || step.DialEnds? || step.GossiperSends?
    ensures Leases(n1)
  {
    if step.RoutineEnds? {
      AppendedLeases(n, EndpointClosed(step.routine, step.crashed), n1);
    } else if step.DialEnds? {
      AppendedLeases(n, OutgoingP2PCreated(step.peer), n1);
    } else {
      SentLeases(n, n1);
    }
  }

  /** Every step of the node keeps the leases covered. */
  lemma StepLeases(n: Node, step: Step, n1: Node)
    requires Accounting(n) && Leases(n) && Enabled(n, step) && n1 == Next(n, step) && n1.status != Crashed
    ensures Leases(n1)
  {
    if step.CentralTurn? {
      TurnLeases(n, step.draw, n1);
    } else if step.GossiperHandles? || step.GossiperRound? {
      GossipStepLeases(n, step, n1);
    } else if step.SubStops? || step.SubFails? {
      EndStepLeases(n, step, n1);
    } else if step.Environment? || step.ProbeEnds? {
      QueueStepLeases(n, step, n1);
    } else {
      ReportStepLeases(n, step, n1);
    }
  }

  lemma InitLeases(n: Node)
    requires Init(n)
    ensures Leases(n)
  {
    assert Held(n.g.list) == multiset{} && Demand(n) == multiset{};
    assert n.inbox + n.gout == [];
  }

  // ---- What the leases are for -----------------------------------------------------

  /** A push that reaches the Central controller outside the shutdown finds its target's
      record, in use. */
  lemma PushFindsPeer(n: Node)
    requires Leases(n) && !n.c.stopping && n.inbox != [] && n.inbox[0].GossipPush?
    ensures !SlotOf(n.c, n.inbox[0].to).Absent? && Usage(n.c, n.inbox[0].to) > 0
  {
    assert (n.inbox + n.gout)[0] == n.inbox[0];
  }

  /** More generally, every push in the queues outnumbers the releases ahead of it. */
  lemma PushOutnumbersReleases(n: Node, i: nat)
    requires Leases(n) && !n.c.stopping && i < |n.inbox + n.gout| && (n.inbox + n.gout)[i].GossipPush?
    ensures var q := n.inbox + n.gout; Released(q[..i])[q[i].to] < Usage(n.c, q[i].to)
  {
    CoveredAt(n.inbox + n.gout, multiset{}, n.c, i);
  }

  /** Releasing the peers one by one never meets a peer whose record is gone. */
  ghost predicate NeverMisses(c: Central, peers: seq<Peer>)
    decreases |peers|
  {
    peers == [] || (!SlotOf(c, peers[0]).Absent? && NeverMisses(ReleaseOne(c, peers[0]), peers[1..]))
  }

  lemma {:induction false} CoveredNeverMisses(c: Central, peers: seq<Peer>)
    requires TablesOk(c) && forall p :: multiset(peers)[p] <= Usage(c, p)
    ensures NeverMisses(c, peers)
    decreases |peers|
  {
    if peers != [] {
      var c1 := ReleaseOne(c, peers[0]);
      assert peers == [peers[0]] + peers[1..];
      assert multiset(peers)[peers[0]] >= 1;
      ReleaseOneTables(c, peers[0], c1);
      forall p ensures multiset(peers[1..])[p] <= Usage(c1, p) {
        assert multiset(peers)[p] <= Usage(c, p);
      }
      CoveredNeverMisses(c1, peers[1..]);
    }
  }

  /** The branch for a peer that "was deleted before" its usage counter ran out is never
      taken outside the shutdown. */
  lemma ReleaseFindsPeers(n: Node)
    requires Accounting(n) && Leases(n) && !n.c.stopping && n.inbox != [] && n.inbox[0].RandomPeerListRelease?
    ensures NeverMisses(n.c, n.inbox[0].peers)
  {
    var peers := n.inbox[0].peers;
    forall p ensures multiset(peers)[p] <= Usage(n.c, p) {
      assert Demand(n)[p] <= Usage(n.c, p);
    }
    CoveredNeverMisses(n.c, peers);
  }

  /** A peer whose lease is held, granted or given back anywhere is still recorded. */
  lemma LeasedPeerRecorded(n: Node, p: Peer)
    requires Leases(n) && !n.c.stopping && p in Demand(n)
    ensures !SlotOf(n.c, p).Absent? && Usage(n.c, p) >= Demand(n)[p] > 0
  {
    assert Demand(n)[p] <= Usage(n.c, p);
  }
}
