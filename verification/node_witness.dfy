/** Concrete runs that show the exceptions in the theorems about nodes to be real. */
module NodeWitness {
  import opened Types
  import opened Messages
  import G = GossiperModel
  import opened CentralModel
  import opened CentralTables
  import opened CentralLifecycle
  import opened Node
  import opened NodeAccounting
  import opened NodeShutdown
  import opened NodeView
  import opened NodeTheorems
  import opened NodeLeaks
  import opened NodeDisconnects
  import opened NodeLease
  import opened GossiperLease

  lemma {:induction false} Snoc(n: Node, steps: seq<Step>, step: Step)
    requires IsRun(n, steps) && Enabled(After(n, steps), step)
    ensures IsRun(n, steps + [step]) && After(n, steps + [step]) == Next(After(n, steps), step)
    decreases |steps|
  {
    if steps == [] {
      assert steps + [step] == [step] && [step][1..] == [];
    } else {
      assert (steps + [step])[1..] == steps[1..] + [step];
      Snoc(Next(n, steps[0]), steps[1..], step);
    }
  }

  /** Nothing crashes in this step, nor is a crash reported to the Central controller. */
  predicate Calm(step: Step) {
    !step.SubFails? && !(step.RoutineEnds? && step.crashed) && step != Environment(CentralCrash)
  }

  /** A state that some run without any crash ends in. */
  ghost predicate CalmlyReachable(n: Node) {
    exists first: Node, steps: seq<Step> :: Reaches(first, steps, n) && forall s :: s in steps ==> Calm(s)
  }

  lemma CalmIsReachable(n: Node)
    requires CalmlyReachable(n)
    ensures Reachable(n)
  {
    var first, steps :| Reaches(first, steps, n) && forall s :: s in steps ==> Calm(s);
  }

  /** One more step leads from such a state to another. */
  lemma Reaching(n: Node, step: Step) returns (n1: Node)
    requires CalmlyReachable(n) && Enabled(n, step) && Calm(step)
    ensures CalmlyReachable(n1) && n1 == Next(n, step)
  {
    hide Init, Next;
    n1 := Next(n, step);
    var first, steps :| Reaches(first, steps, n) && forall s :: s in steps ==> Calm(s);
    Snoc(first, steps, step);
    assert Reaches(first, steps + [step], n1);
  }

  /** The set-up of a node with a cache of one item and the degree 10: the thresholds and
      sizes that the constructors compute for it. */
  const CONFIG := G.Config(1, 10, 8, 1, 1)
  const FRESH_GOSSIPER := G.Gossiper(CONFIG, map[], map[], map[], map[], {}, {})
  const FRESH_CENTRAL := Central(map[], map[], map[], map[], map[], map[], 200, 1, ALL_SUBS, false, 4)

  lemma Start() returns (n: Node)
    ensures CalmlyReachable(n) && Idle(n) && n.c == FRESH_CENTRAL && n.g == FRESH_GOSSIPER
    ensures n.live == multiset{} && n.dials == multiset{} && n.alive == ALL_SUBS && n.asked == {}
  {
    n := Node(FRESH_CENTRAL, [], FRESH_GOSSIPER, [], [], multiset{}, multiset{}, multiset{},
              ALL_SUBS, {}, Running, {}, {}, {}, {});
    assert Init(n) && IsRun(n, []) && After(n, []) == n;
    assert Reaches(n, [], n);
  }

  predicate Idle(n: Node) {
    n.status == Running && n.inbox == [] && n.gin == [] && n.gout == []
  }

  predicate SameButHistory(a: Node, b: Node) {
    a == b.(wanted := a.wanted, clobbered := a.clobbered, ordered := a.ordered, overtaken := a.overtaken)
  }

  /** The next message in the queue is handled. */
  lemma Turns(n: Node, draw: seq<Peer>) returns (n1: Node)
    requires CalmlyReachable(n) && Enabled(n, CentralTurn(draw))
    ensures CalmlyReachable(n1) && n1 == AfterTurn(n, draw)
    ensures SameButHistory(n1, Delivered(n, n.inbox[1..], Turn(n.c, n.inbox[0], draw)))
  {
    hide CalmlyReachable, Turn, Recalled;
    n1 := Reaching(n, CentralTurn(draw));
    RecalledRest(n, n.inbox[0], n.inbox[1..], Turn(n.c, n.inbox[0], draw).self);
  }

  /** A message arrives at an idle node and is handled. */
  lemma Handles(n: Node, m: Msg) returns (n1: Node)
    requires CalmlyReachable(n) && Idle(n) && FromEnvironment(n, m) && !m.RandomPeerListRequest? && !m.CentralCrash?
    ensures CalmlyReachable(n1)
    ensures n1 == Delivered(Recalled(n, m, [], Turn(n.c, m, []).self), [], Turn(n.c, m, []))
    ensures SameButHistory(n1, Delivered(n, [], Turn(n.c, m, [])))
  {
    hide CalmlyReachable, Recalled, Turn;
    var queued := Reaching(n, Environment(m));
    assert queued == n.(inbox := [m]);
    n1 := Turns(queued, []);
    assert n.inbox + [m] == [m] && [m][1..] == [];
    assert n.(inbox := [m]).(inbox := []) == n;
    RecalledQueue(n, m, Turn(n.c, m, []));
    RecalledRest(n, m, [], Turn(n.c, m, []).self);
  }

  lemma RecalledQueue(n: Node, m: Msg, r: Reply)
    ensures Delivered(Recalled(n.(inbox := [m]), m, [], r.self), [], r)
         == Delivered(Recalled(n, m, [], r.self), [], r)
  {
    hide LatestOrder, Pending;
  }

  // ---- A probe request overwrites an add -------------------------------------------

  /** All outgoing tables are empty except for one peer being probed. */
  predicate OnlyProbed(n: Node, p: Peer, wanted: bool) {
    && n.c.view == map[] && n.c.awaiting == map[] && n.c.creating == map[] && n.c.probing == map[p := wanted]
    && Idle(n) && !n.c.stopping && n.alive == ALL_SUBS
  }

  lemma Probes(p: Peer) returns (n: Node)
    ensures CalmlyReachable(n) && OnlyProbed(n, p, false)
  {
    var n0 := Start();
    n := Handles(n0, ProbePeerRequest(p));
    assert Turn(n0.c, ProbePeerRequest(p), []) == Quiet(n0.c.(probing := map[][p := false])).(probes := multiset{p});
  }

  lemma ProbesWanted(p: Peer) returns (n: Node)
    ensures CalmlyReachable(n) && OnlyProbed(n, p, true) && p in n.wanted
  {
    var n0 := Probes(p);
    n := Handles(n0, PeerAdd(p, false));
    assert Turn(n0.c, PeerAdd(p, false), []) == Quiet(n0.c.(probing := n0.c.probing[p := true]));
  }

  /** A peer added while it was being probed, and probed again: the add is lost although it
      was the last command, and nothing is queued to make up for it. */
  lemma ProbeOverwritesAdd(p: Peer) returns (n: Node)
    ensures Reachable(n) && CalmlyReachable(n) && n.status == Running && !n.c.stopping && n.inbox == []
    ensures p in n.wanted && !Intends(PlaceOf(n.c, p)) && p in n.clobbered
  {
    var n0 := ProbesWanted(p);
    n := Handles(n0, ProbePeerRequest(p));
    assert Turn(n0.c, ProbePeerRequest(p), [])
      == Quiet(n0.c.(probing := n0.c.probing[p := false])).(probes := multiset{p});
    CalmIsReachable(n);
  }

  // ---- A finished dial overtakes an add --------------------------------------------

  predicate OnlyDialled(n: Node, p: Peer, unwanted: bool) {
    && n.c.view == map[] && n.c.awaiting == map[] && n.c.creating == map[p := unwanted] && n.c.probing == map[]
    && Idle(n) && !n.c.stopping && n.alive == ALL_SUBS && p in n.dials
  }

  lemma Dials(p: Peer) returns (n: Node)
    ensures CalmlyReachable(n) && OnlyDialled(n, p, false) && n.g == FRESH_GOSSIPER
    ensures n.c.subs == ALL_SUBS && n.c.total == 4 && n.dials == multiset{p}
  {
    var n0 := Start();
    n := Handles(n0, PeerAdd(p, false));
    assert Turn(n0.c, PeerAdd(p, false), []) == Quiet(n0.c.(creating := map[][p := false])).(dials := multiset{p});
  }

  lemma DialsUnwanted(p: Peer) returns (n: Node)
    ensures CalmlyReachable(n) && OnlyDialled(n, p, true)
  {
    var n0 := Dials(p);
    n := Handles(n0, PeerRemove(p, false));
    assert Turn(n0.c, PeerRemove(p, false), []) == Quiet(n0.c.(creating := n0.c.creating[p := true]));
  }

  /** The result of the dial and a new add of the Membership controller are both queued. */
  lemma DialAndAdd(p: Peer) returns (n: Node)
    ensures CalmlyReachable(n) && n.status == Running && n.inbox == [OutgoingP2PCreated(p), PeerAdd(p, false)]
      && !n.c.stopping
    ensures n.c.view == map[] && n.c.awaiting == map[] && n.c.creating == map[p := true] && n.c.probing == map[]
  {
    var n0 := DialsUnwanted(p);
    var n1 := Reaching(n0, DialEnds(p));
    n := Reaching(n1, Environment(PeerAdd(p, false)));
  }

  /** The dial is recorded, and the controller queues a removal behind the add. */
  lemma DialRecorded(p: Peer) returns (n: Node)
    ensures CalmlyReachable(n) && n.status == Running && n.inbox == [PeerAdd(p, false), PeerRemove(p, true)]
      && !n.c.stopping
    ensures n.c.view == map[p := FRESH_PEER] && n.c.awaiting == map[] && p in n.overtaken
  {
    var n0 := DialAndAdd(p);
    n := Reaching(n0, CentralTurn([]));
    assert n0.inbox[1..] == [PeerAdd(p, false)];
    assert LatestOrder([PeerAdd(p, false)], p) == Some(true);
    assert Turn(n0.c, OutgoingP2PCreated(p), []) == OutgoingCreatedHandler(n0.c, p);
    assert n0.c.view[p := FRESH_PEER] == map[p := FRESH_PEER];
  }

  lemma AddSeen(p: Peer) returns (n: Node)
    ensures CalmlyReachable(n) && n.status == Running && n.inbox == [PeerRemove(p, true)] && !n.c.stopping
    ensures n.c.view == map[p := FRESH_PEER] && n.c.awaiting == map[]
    ensures p in n.ordered && p in n.overtaken && p !in n.clobbered
  {
    var n0 := DialRecorded(p);
    n := Reaching(n0, CentralTurn([]));
    assert n0.inbox[1..] == [PeerRemove(p, true)];
    assert Turn(n0.c, PeerAdd(p, false), []) == Quiet(n0.c);
  }

  /** The Membership controller's last command was an add, nothing is queued, and yet the
      peer is on its way out: the add was overtaken, and the two controllers' views have
      come apart. */
  lemma ViewsComeApart(p: Peer) returns (n: Node)
    ensures Reachable(n) && CalmlyReachable(n) && n.status == Running && n.inbox == [] && !n.c.stopping
    ensures p in n.ordered && PlaceOf(n.c, p) == Leaving && !Intends(PlaceOf(n.c, p))
    ensures p in n.overtaken && p !in n.clobbered
  {
    var n0 := AddSeen(p);
    assert n0.inbox[1..] == [];
    n := Reaching(n0, CentralTurn([]));
    RemovesFresh(n0.c, p);
    CalmIsReachable(n);
  }

  lemma RemovesFresh(c: Central, p: Peer)
    requires c.view == map[p := FRESH_PEER] && c.awaiting == map[] && !c.stopping
    ensures var r := Turn(c, PeerRemove(p, true), []);
      r.outcome == Continue && r.self == [] && PlaceOf(r.c, p) == Leaving && !r.c.stopping
  {
  }

  // ---- A client outlives the Gossiper ----------------------------------------------

  predicate OnlyClient(n: Node, cl: Client, i: ClientInfo) {
    && n.c.clients == map[cl := i] && n.g.clients == map[] && n.g.list == map[] && n.status == Running
  }

  lemma ClientConnects(cl: Client) returns (n: Node)
    ensures CalmlyReachable(n) && OnlyClient(n, cl, FRESH_CLIENT) && Idle(n) && !n.c.stopping && n.c.subs == ALL_SUBS
    ensures n.alive == ALL_SUBS && n.c.total == 6 && n.live == BothRoutines(API(cl))
  {
    var n0 := Start();
    n := Handles(n0, APIEndpointCreated(cl));
    assert Turn(n0.c, APIEndpointCreated(cl), []) == APICreatedHandler(n0.c, cl);
    assert map[][cl := FRESH_CLIENT] == map[cl := FRESH_CLIENT];
  }

  const TOLD_CLIENT := FRESH_CLIENT.(closed := true)

  lemma NodeCloses(cl: Client) returns (n: Node)
    ensures CalmlyReachable(n) && OnlyClient(n, cl, TOLD_CLIENT) && n.c.stopping && n.c.subs == ALL_SUBS
    ensures n.inbox == [] && n.gin == [GossiperClose] && n.gout == []
    ensures n.alive == ALL_SUBS && n.c.total == 6 && n.live == BothRoutines(API(cl))
  {
    hide CalmlyReachable, Recalled, Turn;
    var n0 := ClientConnects(cl);
    n := Handles(n0, CentralClose);
    ClosesClient(n0.c, cl);
  }

  lemma ClosesClient(c: Central, cl: Client)
    requires c.clients == map[cl := FRESH_CLIENT] && c.subs == ALL_SUBS && !c.stopping
    ensures var r := Turn(c, CentralClose, []);
      && r == Quiet(r.c).(membership := [MembershipClose], gossiper := [GossiperClose], asked := ALL_SUBS)
      && r.c.clients == map[cl := TOLD_CLIENT] && r.c.subs == ALL_SUBS && r.c.stopping && r.c.total == c.total
  {
    hide ClosedTables;
    assert Turn(c, CentralClose, []) == CloseHandler(c);
    ClosesOnlyClient(c, cl);
  }

  lemma ClosesOnlyClient(c: Central, cl: Client)
    requires c.clients == map[cl := FRESH_CLIENT]
    ensures var c1 := ClosedTables(c);
      c1.clients == map[cl := TOLD_CLIENT] && c1.subs == c.subs && c1.stopping && c1.total == c.total
  {
  }

  /** The Gossiper closes, and its report is queued. */
  lemma GossiperCloses(cl: Client) returns (n: Node)
    ensures CalmlyReachable(n) && OnlyClient(n, cl, TOLD_CLIENT) && n.c.stopping && n.c.subs == ALL_SUBS
    ensures n.inbox == [SubClosed(Gossip)] && n.c.total == 6 && n.live == BothRoutines(API(cl))
  {
    hide CalmlyReachable, FromEnvironment, FromOutside;
    var n0 := NodeCloses(cl);
    assert G.Enabled(n0.g, G.Handle(GossiperClose, [], []));
    var n1 := Reaching(n0, GossiperHandles([], []));
    n := Reaching(n1, GossiperSends);
  }

  /** Its pointer is dropped while both goroutines of the client run. */
  lemma GossiperGone(cl: Client) returns (n: Node)
    ensures CalmlyReachable(n) && OnlyClient(n, cl, TOLD_CLIENT) && n.c.stopping && Gossip !in n.c.subs
    ensures n.inbox == [] && n.c.total == 5 && n.live == BothRoutines(API(cl))
  {
    hide CalmlyReachable, AfterTurn;
    var n0 := GossiperCloses(cl);
    n := Turns(n0, []);
    assert Turn(n0.c, SubClosed(Gossip), []) == SubClosedHandler(n0.c, Gossip);
  }

  lemma ReaderEnds(cl: Client) returns (n: Node)
    ensures CalmlyReachable(n) && n.status == Running && Gossip !in n.c.subs && n.inbox == []
    ensures n.c.clients == map[cl := TOLD_CLIENT.(reader := false)] && Routine(API(cl), false) in n.live
  {
    hide CalmlyReachable, AfterTurn;
    var n0 := GossiperGone(cl);
    var r := Routine(API(cl), true);
    var n1 := Reaching(n0, RoutineEnds(r, false));
    n := Turns(n1, []);
    assert Turn(n1.c, EndpointClosed(r, false), []) == APIClosedHandler(n1.c, cl, true, false);
    assert n1.c.clients[cl := TOLD_CLIENT.(reader := false)] == map[cl := TOLD_CLIENT.(reader := false)];
  }

  /** No submodule and no endpoint has crashed, and still the next turn kills the process:
      the client's last goroutine has ended after the Gossiper. */
  lemma ClientOutlivesGossiper(cl: Client) returns (n: Node)
    ensures Reachable(n) && CalmlyReachable(n) && n.status == Running
    ensures n.inbox == [EndpointClosed(Routine(API(cl), false), false)]
    ensures Kills(n.c, n.inbox[0])
  {
    var n0 := ReaderEnds(cl);
    n := Reaching(n0, RoutineEnds(Routine(API(cl), false), false));
    CalmIsReachable(n);
  }

  // ---- A forgotten lease ------------------------------------------------------------

  /** One outgoing peer is connected, with a number of leases on it. */
  predicate OnlyConnected(n: Node, p: Peer, usage: int) {
    && n.c.view == map[p := FRESH_PEER.(usage := usage)] && n.c.awaiting == map[]
    && !n.c.stopping && n.c.subs == ALL_SUBS && n.alive == ALL_SUBS && n.status == Running && n.c.total == 6
    && n.c.creating == map[] && n.c.probing == map[] && n.dials == multiset{}
    && forall b :: Routine(Outgoing(p), b) in n.live
  }

  lemma Connects(p: Peer) returns (n: Node)
    ensures CalmlyReachable(n) && OnlyConnected(n, p, 0) && Idle(n) && n.g == FRESH_GOSSIPER
  {
    hide CalmlyReachable, AfterTurn;
    var n0 := Dials(p);
    var n1 := Reaching(n0, DialEnds(p));
    assert n1.inbox == [OutgoingP2PCreated(p)];
    n := Turns(n1, []);
    assert Turn(n1.c, OutgoingP2PCreated(p), []) == OutgoingCreatedHandler(n1.c, p);
    assert n1.c.view[p := FRESH_PEER] == map[p := FRESH_PEER];
  }

  /** A round of a Gossiper that knows no item and no peer asks for peers to pull from. */
  lemma EmptyRound(g: G.Gossiper)
    requires g == FRESH_GOSSIPER
    ensures G.Enabled(g, G.Round([], [], []))
    ensures G.RoundStep(g, G.Round([], [], [])) == (g, [RandomPeerListRequest(None, 10)])
    ensures G.Next(g, G.Round([], [], [])) == (g, [RandomPeerListRequest(None, 10)])
  {
    var push, asks := G.PushRound(g, []), [RandomPeerListRequest(None, 10)];
    assert G.Retired(g.list, g.cfg.cMax, []) == [] && push.1 == [];
    assert push.0.list == map[] && push.0.oldList == map[] && push.0 == g;
    assert G.PullOut([]) == [] && [] + asks == asks;
    assert G.PullRound(g, []) == (g, asks);
    assert G.UpdateRound(g, []).0.list == map[] && G.UpdateRound(g, []) == (g, []);
    assert G.SweepOld(g).oldList == map[] && G.SweepOld(g) == g;
    assert push.1 + asks + [] == asks;
  }

  lemma AsksForPeers(p: Peer) returns (n: Node)
    ensures CalmlyReachable(n) && OnlyConnected(n, p, 0) && n.g == FRESH_GOSSIPER
    ensures n.inbox == [RandomPeerListRequest(None, 10)] && n.gin == [] && n.gout == []
  {
    var n0 := Connects(p);
    EmptyRound(n0.g);
    var n1 := Reaching(n0, GossiperRound(G.Round([], [], [])));
    n := Reaching(n1, GossiperSends);
  }

  lemma IsGranted(p: Peer) returns (n: Node)
    ensures CalmlyReachable(n) && OnlyConnected(n, p, 1) && n.g == FRESH_GOSSIPER
    ensures n.inbox == [] && n.gin == [RandomPeerListReply(None, [p])] && n.gout == []
  {
    hide CalmlyReachable, AfterTurn, Turn;
    var n0 := AsksForPeers(p);
    GrantsOnly(n0.c, p);
    n := Turns(n0, [p]);
  }

  lemma GrantsOnly(c: Central, p: Peer)
    requires c.view == map[p := FRESH_PEER] && !c.stopping && Gossip in c.subs
    ensures IsDraw(c, 10, [p])
    ensures Turn(c, RandomPeerListRequest(None, 10), [p])
      == Quiet(c.(view := map[p := FRESH_PEER.(usage := 1)])).(gossiper := [RandomPeerListReply(None, [p])])
  {
    assert c.view.Keys == {p} && |c.view| == 1;
    assert Leased(c.view, [p]) == map[p := FRESH_PEER.(usage := 1)];
  }

  lemma ForPulling(p: Peer) returns (n: Node)
    ensures CalmlyReachable(n) && OnlyConnected(n, p, 1) && Idle(n) && n.g.list == map[]
  {
    var n0 := IsGranted(p);
    assert G.Enabled(n0.g, G.Handle(n0.gin[0], [], []));
    n := Reaching(n0, GossiperHandles([], []));
  }

  lemma NoDemand(n: Node)
    requires Idle(n) && n.g.list == map[]
    ensures Demand(n) == multiset{}
  {
    assert Held(n.g.list) == multiset{};
  }

  lemma RemovesLeased(c: Central, p: Peer)
    requires c.view == map[p := FRESH_PEER.(usage := 1)] && c.awaiting == map[] && !c.stopping
    ensures var r := Turn(c, PeerRemove(p, false), []);
      && r == Quiet(r.c) && !r.c.stopping && r.c.total == c.total
      && r.c.view == map[] && r.c.awaiting == map[p := FRESH_PEER.(usage := 1)]
      && r.c.creating == c.creating && r.c.probing == c.probing
  {
    assert Turn(c, PeerRemove(p, false), []) == PeerRemoveHandler(c, p);
    assert c.awaiting[p := c.view[p]] == map[p := FRESH_PEER.(usage := 1)];
    assert c.view - {p} == map[];
  }

  lemma RemovedWhileLeased(p: Peer) returns (n: Node)
    ensures CalmlyReachable(n) && Idle(n) && !n.c.stopping && p !in n.ordered && n.g.list == map[]
    ensures n.c.view == map[] && n.c.awaiting == map[p := FRESH_PEER.(usage := 1)] && n.c.total == 6
    ensures n.c.creating == map[] && n.c.probing == map[] && n.dials == multiset{} && n.alive == ALL_SUBS
    ensures forall b :: Routine(Outgoing(p), b) in n.live
  {
    hide CalmlyReachable, Turn;
    var n0 := ForPulling(p);
    n := Handles(n0, PeerRemove(p, false));
    RemovesLeased(n0.c, p);
  }

  /** A peer was drawn once to be pulled from, and is removed: nothing holds a lease on it,
      nothing is queued, and yet its counter is 1. It will stay connected (see
      `LeakedPeerStaysConnected`). */
  lemma PullLeaseIsForgotten(p: Peer) returns (n: Node)
    ensures Reachable(n) && CalmlyReachable(n) && Idle(n) && !n.c.stopping
    ensures p !in n.ordered && PlaceOf(n.c, p) == Leaving && Connected(n, p)
    ensures Usage(n.c, p) == 1 && p !in Demand(n)
    ensures exists first, steps :: Reaches(first, steps, n) && p in Leaked(first, steps)
  {
    n := RemovedWhileLeased(p);
    NoDemand(n);
    CalmIsReachable(n);
    UsedThoughFree(n, p);
  }

  lemma UsedThoughFree(n: Node, p: Peer)
    requires Reachable(n) && n.status != Crashed && !n.c.stopping && p !in Demand(n) && Usage(n.c, p) > 0
    ensures exists first, steps :: Reaches(first, steps, n) && p in Leaked(first, steps)
  {
    var first, steps :| Reaches(first, steps, n);
    UsageExact(first, steps, n, p);
  }

  // ---- A dead entry of the view list --------------------------------------------------

  /** A removed peer waits for a lease to come back. */
  predicate OnlyLeaving(n: Node, p: Peer, i: PeerInfo) {
    && n.c.view == map[] && n.c.awaiting == map[p := i] && i.usage > 0 && !i.crashed
    && n.c.creating == map[] && n.c.probing == map[] && n.dials == multiset{}
    && Idle(n) && !n.c.stopping && n.c.total > 1 && n.alive == ALL_SUBS
  }

  /** One of its goroutines ends, and its report is handled. */
  lemma EndsUnreported(n0: Node, n: Node, p: Peer, b: bool, i: PeerInfo) returns (n1: Node)
    requires CalmlyReachable(n) && Silently(n0, n, p) && OnlyLeaving(n, p, i) && n.c.total > 2
    requires IsRunning(i, b) && Routine(Outgoing(p), b) in n.live
    ensures CalmlyReachable(n1) && Silently(n0, n1, p) && OnlyLeaving(n1, p, Stopped(i, b, false))
    ensures n1.live == n.live - multiset{Routine(Outgoing(p), b)} && n1.c.total == n.c.total - 1
  {
    hide CalmlyReachable, Silently, Turn;
    var r := Routine(Outgoing(p), b);
    var ended := Reaching(n, RoutineEnds(r, false));
    SilentStep(n0, n, RoutineEnds(r, false), p);
    EndRecorded(ended.c, p, b, i);
    n1 := Turns(ended, []);
    SilentStep(n0, ended, CentralTurn([]), p);
  }

  lemma EndRecorded(c: Central, p: Peer, b: bool, i: PeerInfo)
    requires c.view == map[] && c.awaiting == map[p := i] && i.usage > 0 && IsRunning(i, b) && !i.crashed
    requires !c.stopping && c.total > 1
    ensures Turn(c, EndpointClosed(Routine(Outgoing(p), b), false), [])
      == Quiet(c.(awaiting := map[p := Stopped(i, b, false)], total := c.total - 1))
  {
    assert PutOutgoing(c, p, Stopped(i, b, false)) == c.(awaiting := map[p := Stopped(i, b, false)]);
  }

  const DEAD_PEER := PeerInfo(1, false, false, false, false)

  lemma LostWhileLeaving(p: Peer) returns (n0: Node, n: Node)
    ensures Reachable(n0) && Connected(n0, p)
    ensures CalmlyReachable(n) && Silently(n0, n, p) && OnlyLeaving(n, p, DEAD_PEER)
  {
    n0 := RemovedWhileLeased(p);
    CalmIsReachable(n0);
    assert IsRun(n0, []) && After(n0, []) == n0 && !LossReported(n0, [], p);
    assert Silently(n0, n0, p);
    var i := FRESH_PEER.(usage := 1);
    var n1 := EndsUnreported(n0, n0, p, true, i);
    n := EndsUnreported(n0, n1, p, false, Stopped(i, true, false));
  }

  lemma AddsDead(c: Central, p: Peer)
    requires c.view == map[] && c.awaiting == map[p := DEAD_PEER] && !c.stopping
    ensures Turn(c, PeerAdd(p, false), []) == Quiet(c.(view := map[p := DEAD_PEER], awaiting := map[]))
  {
    assert c.awaiting - {p} == map[];
    assert c.view[p := DEAD_PEER] == map[p := DEAD_PEER];
  }

  /** A leased peer is removed, its connection is lost while it waits, and it is added again:
      it is back in the view list with no goroutine, no dial and no report of the loss. */
  lemma DeadEntryReturns(p: Peer) returns (n0: Node, n: Node)
    ensures Reachable(n0) && Connected(n0, p) && Silently(n0, n, p)
    ensures Reachable(n) && CalmlyReachable(n) && Idle(n) && !n.c.stopping
    ensures p in n.ordered && DeadInView(n.c, p) && p !in n.dials
  {
    hide CalmlyReachable, Silently, Turn, LossReported;
    var n1;
    n0, n1 := LostWhileLeaving(p);
    var added := Reaching(n1, Environment(PeerAdd(p, false)));
    SilentStep(n0, n1, Environment(PeerAdd(p, false)), p);
    AddsDead(added.c, p);
    n := Turns(added, []);
    SilentStep(n0, added, CentralTurn([]), p);
    CalmIsReachable(n);
  }
}
