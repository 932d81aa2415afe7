/** The shutdown of a node: everything that still runs has been told to stop or will be,
    every report brings the end closer, and the event loop ends exactly when all is done. */
module NodeShutdown {
  import opened Types
  import opened Messages
  import G = GossiperModel
  import opened CentralModel
  import opened CentralTables
  import opened CentralEffects
  import opened CentralLifecycle
  import opened Node
  import opened NodeAccounting

  /** Close was called on the endpoint, or the command that will lead to it is queued: the
      endpoint is unused, so removing it closes it. */
  predicate IsClosing(c: Central, q: seq<Msg>, e: Endpoint) {
    || Told(c, e)
    || (e.Outgoing? && e.peer in c.view && c.view[e.peer].usage == 0 && PeerRemove(e.peer, true) in q)
  }

  ghost predicate AllClosing(c: Central, q: seq<Msg>) {
    forall r :: Runs(c, r) ==> IsClosing(c, q, r.endpoint)
  }

  ghost predicate NothingWanted(c: Central) {
    && (forall p :: p in c.creating ==> c.creating[p])
    && (forall p :: p in c.probing ==> !c.probing[p])
  }

  ghost predicate SubsTold(n: Node) {
    n.asked == ALL_SUBS && (Gossip in n.alive ==> GossiperClose in n.gin)
  }

  ghost predicate Stopping(n: Node) {
    if n.c.stopping then NothingWanted(n.c) && AllClosing(n.c, n.inbox) && SubsTold(n) else n.c.subs == ALL_SUBS
  }

  // ---- What one message of the shutdown does to the endpoints ----------------------

  /** An endpoint's record is as it was, and so is the queue as far as it matters. */
  lemma SameClosing(c: Central, q: seq<Msg>, c1: Central, q1: seq<Msg>, e: Endpoint)
    requires IsClosing(c, q, e) && (Told(c1, e) <==> Told(c, e))
    requires e.Outgoing? ==> SlotOf(c1, e.peer) == SlotOf(c, e.peer)
    requires e.Outgoing? && PeerRemove(e.peer, true) in q ==> PeerRemove(e.peer, true) in q1
    ensures IsClosing(c1, q1, e)
  {
  }

  lemma QueueWithout(q: seq<Msg>, self: seq<Msg>)
    requires q != []
    ensures forall m :: m in q && m != q[0] ==> m in q[1..] + self
    ensures forall m :: m in self ==> m in q[1..] + self
  {
    assert q == [q[0]] + q[1..];
  }

  /** Nothing but messages other than removals was taken from the queue. */
  lemma IdleClosing(c: Central, q: seq<Msg>, c1: Central, q1: seq<Msg>)
    requires AllClosing(c, q) && SameSlots(c, c1) && forall p :: PeerRemove(p, true) in q ==> PeerRemove(p, true) in q1
    ensures AllClosing(c1, q1)
  {
    SlotsOnly(c, c1);
    forall r | Runs(c1, r) ensures IsClosing(c1, q1, r.endpoint) {
      assert Runs(c, r);
    }
  }

  lemma RemoveClosing(c: Central, q: seq<Msg>, p: Peer, c1: Central, q1: seq<Msg>)
    requires TablesOk(c) && AllClosing(c, q) && p in c.view && c1 == PeerRemoveHandler(c, p).c
    requires forall m: Msg :: m in q && !(m.PeerRemove? && m.peer == p) ==> m in q1
    ensures AllClosing(c1, q1)
  {
    RemoveTables(c, p, c1);
    OnlySlotElsewhere(c, c1, p);
    forall r | Runs(c1, r) ensures IsClosing(c1, q1, r.endpoint) {
      if r.endpoint == Outgoing(p) {
        assert Runs(c, Routine(Outgoing(p), r.isReader));
      } else {
        assert Runs(c, r);
        SameClosing(c, q, c1, q1, r.endpoint);
      }
    }
  }

  lemma RemoveOtherClosing(c: Central, q: seq<Msg>, p: Peer, c1: Central, q1: seq<Msg>)
    requires TablesOk(c) && AllClosing(c, q) && p !in c.view && c1 == PeerRemoveHandler(c, p).c
    requires forall m: Msg :: m in q && !(m.PeerRemove? && m.peer == p) ==> m in q1
    ensures AllClosing(c1, q1)
  {
    RemoveTables(c, p, c1);
    SlotsOnly(c, c1);
    forall r | Runs(c1, r) ensures IsClosing(c1, q1, r.endpoint) {
      assert Runs(c, r);
    }
  }

  lemma CreatedClosing(c: Central, q: seq<Msg>, p: Peer, r: Reply, q1: seq<Msg>)
    requires TablesOk(c) && AllClosing(c, q) && p in c.creating && c.creating[p] && r == OutgoingCreatedHandler(c, p)
    requires forall m: Msg :: m in q && m.PeerRemove? ==> m in q1
    requires PeerRemove(p, true) in q1
    ensures AllClosing(r.c, q1)
  {
    CreatedTables(c, p, r.c);
    forall x | Runs(r.c, x) ensures IsClosing(r.c, q1, x.endpoint) {
      if x.endpoint != Outgoing(p) {
        assert Runs(c, x);
        SameClosing(c, q, r.c, q1, x.endpoint);
      }
    }
  }

  lemma OutgoingClosedClosing(c: Central, q: seq<Msg>, p: Peer, isReader: bool, crashed: bool, c1: Central,
        q1: seq<Msg>)
    requires TablesOk(c) && AllClosing(c, q) && Runs(c, Routine(Outgoing(p), isReader))
    requires c1 == OutgoingClosedHandler(c, p, isReader, crashed).c
    requires forall m: Msg :: m in q && m.PeerRemove? ==> m in q1
    ensures AllClosing(c1, q1)
  {
    OutgoingClosedSlot(c, p, isReader, crashed, c1);
    OutgoingClosedTables(c, p, isReader, crashed, c1);
    forall r | Runs(c1, r) ensures IsClosing(c1, q1, r.endpoint) {
      if r.endpoint == Outgoing(p) {
        assert r == Routine(Outgoing(p), r.isReader);
        assert r.isReader == !isReader;
        StoppedClosing(c, q, p, isReader, crashed, c1, q1);
      } else {
        assert Runs(c, r);
        SameClosing(c, q, c1, q1, r.endpoint);
      }
    }
  }

  lemma StoppedClosing(c: Central, q: seq<Msg>, p: Peer, isReader: bool, crashed: bool, c1: Central, q1: seq<Msg>)
    requires SlotRuns(SlotOf(c, p), isReader) && IsClosing(c, q, Outgoing(p))
    requires SlotRuns(SlotOf(c1, p), !isReader)
    requires SlotOf(c1, p) == StoppedSlot(SlotOf(c, p), isReader, crashed, c.stopping)
    requires PeerRemove(p, true) in q ==> PeerRemove(p, true) in q1
    ensures IsClosing(c1, q1, Outgoing(p))
  {
  }

  lemma AcceptedClosedClosing(c: Central, q: seq<Msg>, x: Routine, crashed: bool, c1: Central, q1: seq<Msg>)
    requires TablesOk(c) && AllClosing(c, q) && Runs(c, x) && !x.endpoint.Outgoing?
    requires c1 == EndpointClosedHandler(c, x, crashed).c
    requires forall m: Msg :: m in q && m.PeerRemove? ==> m in q1
    ensures AllClosing(c1, q1)
  {
    EndpointClosedTables(c, x, crashed, c1);
    AcceptedSlots(c, x, crashed, c1);
    forall r | Runs(c1, r) ensures IsClosing(c1, q1, r.endpoint) {
      if r.endpoint == x.endpoint {
        assert r == Routine(x.endpoint, r.isReader);
        assert r.isReader == !x.isReader;
      } else {
        assert Runs(c, r);
        assert c1.view == c.view && c1.awaiting == c.awaiting;
        SameClosing(c, q, c1, q1, r.endpoint);
      }
    }
  }

  lemma AcceptedSlots(c: Central, x: Routine, crashed: bool, c1: Central)
    requires Runs(c, x) && !x.endpoint.Outgoing? && c1 == EndpointClosedHandler(c, x, crashed).c
    ensures c1.view == c.view && c1.awaiting == c.awaiting
  {
    var r := EndpointClosedHandler(c, x, crashed);
    if x.endpoint.Incoming? {
      IncomingClosedKeys(c, x.endpoint.peer, x.isReader, crashed, r);
    } else {
      APIClosedKeys(c, x.endpoint.client, x.isReader, crashed, r);
    }
  }

  // ---- Turns -----------------------------------------------------------------------

  lemma RefusedSlots(c: Central, m: Msg, draw: seq<Peer>, r: Reply)
    requires c.stopping && r == Handle(c, m, draw)
    requires m.IncomingP2PCreated? || m.APIEndpointCreated? || m.SubClosed?
    ensures SameSlots(c, r.c) && r.c.creating == c.creating && r.c.probing == c.probing
  {
  }

  /** A message handled during the shutdown keeps every endpoint on its way out. */
  lemma StopTurnClosing(c: Central, q: seq<Msg>, draw: seq<Peer>, r: Reply)
    requires TablesOk(c) && c.stopping && NothingWanted(c) && AllClosing(c, q) && q != [] && Expected(c, q[0])
    requires r == Handle(c, q[0], draw) && r.outcome != Panic && IsStopMessage(q[0])
    ensures AllClosing(r.c, q[1..] + r.self)
  {
    hide PeerAddHandler, PeerRemoveHandler, ProbeRequestHandler, ProbeReplyHandler, OutgoingCreatedHandler,
      IncomingCreatedHandler, APICreatedHandler, ListRequestHandler, ReleaseAll, OutgoingClosedHandler,
      IncomingClosedHandler, APIClosedHandler, AllClosing, TablesOk;
    var m, q1 := q[0], q[1..] + r.self;
    QueueWithout(q, r.self);
    match m {
      case PeerRemove(p, _) =>
        if p in c.view { RemoveClosing(c, q, p, r.c, q1); } else { RemoveOtherClosing(c, q, p, r.c, q1); }
      case OutgoingP2PCreated(p) =>
        CreatedQueues(c, p, r);
        CreatedClosing(c, q, p, r, q1);
      case EndpointClosed(x, crashed) =>
        if x.endpoint.Outgoing? {
          OutgoingClosedClosing(c, q, x.endpoint.peer, x.isReader, crashed, r.c, q1);
        } else {
          AcceptedClosedClosing(c, q, x, crashed, r.c, q1);
        }
      case SubCrashed(_) =>
      case CentralCrash =>
      case _ =>
        RefusedSlots(c, m, draw, r);
        IdleClosing(c, q, r.c, q1);
    }
  }

  lemma CreatedQueues(c: Central, p: Peer, r: Reply)
    requires p in c.creating && c.creating[p] && r == OutgoingCreatedHandler(c, p)
    ensures PeerRemove(p, true) in r.self
  {
  }

  lemma StopTurnUnwanted(c: Central, m: Msg, draw: seq<Peer>, r: Reply)
    requires TablesOk(c) && c.stopping && NothingWanted(c) && Expected(c, m)
    requires r == Handle(c, m, draw) && r.outcome != Panic && IsStopMessage(m)
    ensures NothingWanted(r.c)
  {
    hide PeerAddHandler, PeerRemoveHandler, ProbeRequestHandler, ProbeReplyHandler, OutgoingCreatedHandler,
      IncomingCreatedHandler, APICreatedHandler, EndpointClosedHandler, ListRequestHandler, ReleaseAll, TablesOk;
    match m {
      case PeerRemove(p, _) => RemoveFlags(c, p, r.c); FlagsUnwanted(c, p, r.c);
      case OutgoingP2PCreated(p) => CreatedTables(c, p, r.c);
      case EndpointClosed(x, crashed) => EndpointClosedTables(c, x, crashed, r.c);
      case SubCrashed(_) =>
      case CentralCrash =>
      case _ => RefusedSlots(c, m, draw, r);
    }
  }

  lemma RemoveFlags(c: Central, p: Peer, c1: Central)
    requires c1 == PeerRemoveHandler(c, p).c
    ensures c1.creating == c.creating || c1.creating == c.creating[p := true]
    ensures c1.probing == c.probing || c1.probing == c.probing[p := false]
  {
    if p in c.view && p !in c.awaiting {
      assert c1 == c.(view := c.view - {p}, awaiting := RemoveIfUnused(c.awaiting[p := c.view[p]], p));
    } else {
      RemoveMarkFlags(c, p, c1);
    }
  }

  lemma RemoveMarkFlags(c: Central, p: Peer, c1: Central)
    requires c1 == PeerRemoveHandler(c, p).c && (p !in c.view || p in c.awaiting)
    ensures c1.creating == c.creating || c1.creating == c.creating[p := true]
    ensures c1.probing == c.probing || c1.probing == c.probing[p := false]
  {
    if p in c.awaiting {
      assert c1 == c;
    } else if p in c.creating {
      assert c1 == c.(creating := c.creating[p := true]);
    }
  }

  lemma FlagsUnwanted(c: Central, p: Peer, c1: Central)
    requires NothingWanted(c)
    requires c1.creating == c.creating || c1.creating == c.creating[p := true]
    requires c1.probing == c.probing || c1.probing == c.probing[p := false]
    ensures NothingWanted(c1)
  {
  }

  lemma CloseTurn(c: Central, r: Reply)
    requires r == CloseHandler(c) && r.outcome != Panic
    ensures r.c == ClosedTables(c) && r.c.stopping && r.asked == ALL_SUBS && GossiperClose in r.gossiper
  {
  }

  lemma CloseUnwanted(c: Central)
    ensures NothingWanted(ClosedTables(c))
  {
  }

  /** The turn that begins the shutdown. */
  lemma CloseStopping(n: Node, r: Reply, n1: Node)
    requires Took(n, r, n1) && r == CloseHandler(n.c) && r.outcome != Panic && n.asked <= ALL_SUBS
    ensures Stopping(n1)
  {
    CloseTurn(n.c, r);
    CloseUnwanted(n.c);
    CloseRuns(n.c, n1.c);
  }

  lemma DroppedClosing(c: Central, q: seq<Msg>)
    requires AllClosing(c, q) && q != [] && IsDropped(c, q[0])
    ensures AllClosing(c, q[1..] + [])
  {
    QueueWithout(q, []);
    IdleClosing(c, q, c, q[1..] + []);
  }

  lemma StopTurn(n: Node, draw: seq<Peer>, r: Reply, n1: Node)
    requires Accounting(n) && Stopping(n) && n.c.stopping && Took(n, r, n1)
    requires r == Turn(n.c, n.inbox[0], draw) && r.outcome != Panic && Effect(n.c, n.inbox[0], r)
    ensures Stopping(n1)
  {
    HeadExpected(n);
    if IsDropped(n.c, n.inbox[0]) {
      DroppedClosing(n.c, n.inbox);
    } else {
      StopTurnClosing(n.c, n.inbox, draw, r);
      StopTurnUnwanted(n.c, n.inbox[0], draw, r);
    }
    AskedAll(n.asked, r.asked);
  }

  lemma AskedAll(a: set<Sub>, b: set<Sub>)
    requires a == ALL_SUBS
    ensures a + b == ALL_SUBS
  {
    forall s: Sub ensures s in ALL_SUBS {
      match s { case Membership => case Gossip => case APIListener => case P2PListener => }
    }
  }

  lemma AllSubsAre(a: set<Sub>)
    ensures a <= ALL_SUBS
  {
    AskedAll(ALL_SUBS, a);
  }

  lemma RunningTurnSubs(n: Node, r: Reply)
    requires Accounting(n) && n.inbox != [] && !n.c.stopping && n.c.subs == ALL_SUBS
    requires Effect(n.c, n.inbox[0], r)
    ensures r.c.subs == ALL_SUBS
  {
    assert n.inbox[0] in n.inbox;
  }

  lemma CloseIsHandled(c: Central, m: Msg, draw: seq<Peer>)
    requires !c.stopping && m.CentralClose?
    ensures Turn(c, m, draw) == CloseHandler(c)
  {
  }

  lemma StaysRunning(n: Node, r: Reply, n1: Node)
    requires Accounting(n) && Stopping(n) && !n.c.stopping && Took(n, r, n1) && !n.inbox[0].CentralClose?
    requires Effect(n.c, n.inbox[0], r)
    ensures Stopping(n1) && !n1.c.stopping
  {
    RunningTurnSubs(n, r);
  }

  lemma TurnStopping(n: Node, draw: seq<Peer>, n1: Node)
    requires Accounting(n) && Stopping(n) && n.inbox != [] && n1 == AfterTurn(n, draw) && n1.status != Crashed
    ensures Stopping(n1)
  {
    var r := Turn(n.c, n.inbox[0], draw);
    TurnTook(n, draw, r, n1);
    TurnEffect(n, draw, r);
    if n.c.stopping {
      StopTurn(n, draw, r, n1);
    } else if n.inbox[0].CentralClose? {
      AllSubsAre(n.asked);
      CloseIsHandled(n.c, n.inbox[0], draw);
      CloseStopping(n, r, n1);
    } else {
      StaysRunning(n, r, n1);
    }
  }

  // ---- Other steps -----------------------------------------------------------------

  lemma GossipStepTold(n: Node, step: Step, n1: Node)
    requires SubsTold(n) && Enabled(n, step) && n1 == Next(n, step) && (step.GossiperHandles? || step.GossiperRound?)
    ensures SubsTold(n1)
  {
    if step.GossiperHandles? {
      assert n.gin == [n.gin[0]] + n.gin[1..];
    }
  }

  lemma OtherStepTold(n: Node, step: Step, n1: Node)
    requires SubsTold(n) && Enabled(n, step) && n1 == Next(n, step) && !step.CentralTurn?
    ensures SubsTold(n1)
  {
    if step.GossiperHandles? || step.GossiperRound? {
      GossipStepTold(n, step, n1);
    }
  }

  lemma OtherStepStopping(n: Node, step: Step, n1: Node)
    requires Stopping(n) && Enabled(n, step) && n1 == Next(n, step) && !step.CentralTurn?
    ensures Stopping(n1)
  {
    OtherStepQueue(n, step, n1);
    if n.c.stopping {
      OtherStepTold(n, step, n1);
      IdleClosing(n.c, n.inbox, n1.c, n1.inbox);
    }
  }

  lemma OtherStepQueue(n: Node, step: Step, n1: Node)
    requires Enabled(n, step) && !step.CentralTurn? && n1 == Next(n, step)
    ensures n1.c == n.c && forall m :: m in n.inbox ==> m in n1.inbox
  {
  }

  /** Every step of the node keeps the shutdown on its way. */
  lemma StepStopping(n: Node, step: Step, n1: Node)
    requires Accounting(n) && Stopping(n) && Enabled(n, step) && n1 == Next(n, step) && n1.status != Crashed
    ensures Stopping(n1)
  {
    if step.CentralTurn? {
      TurnStopping(n, step.draw, n1);
    } else {
      OtherStepStopping(n, step, n1);
    }
  }

  lemma InitStopping(n: Node)
    requires Init(n)
    ensures Stopping(n)
  {
  }

  // ---- Progress --------------------------------------------------------------------

  /** Reports that a stopping controller has yet to handle before it is done. */
  function Potential(c: Central): int {
    3 * |c.creating| + c.total
  }

  predicate IsReport(m: Msg) {
    m.EndpointClosed? || m.SubClosed? || m.OutgoingP2PCreated?
  }

  lemma SameKeysSize(a: map<Peer, bool>, b: map<Peer, bool>)
    requires a.Keys == b.Keys
    ensures |a| == |b|
  {
    assert |a| == |a.Keys| && |b| == |b.Keys|;
  }

  lemma CreatedPotential(c: Central, p: Peer, c1: Central)
    requires TablesOk(c) && p in c.creating && c1 == OutgoingCreatedHandler(c, p).c
    ensures Potential(c1) == Potential(c) - 1
  {
    CreatedTables(c, p, c1);
    assert |c1.creating.Keys| == |c.creating.Keys - {p}|;
    assert |c.creating| == |c.creating.Keys| && |c1.creating| == |c1.creating.Keys|;
  }

  lemma HandledPotential(c: Central, m: Msg, draw: seq<Peer>, r: Reply)
    requires TablesOk(c) && Expected(c, m) && c.stopping && IsStopMessage(m)
    requires r == Handle(c, m, draw) && r.outcome != Panic
    ensures Potential(r.c) == Potential(c) - Bit(IsReport(m))
  {
    hide PeerAddHandler, PeerRemoveHandler, ProbeRequestHandler, ProbeReplyHandler, OutgoingCreatedHandler,
      IncomingCreatedHandler, APICreatedHandler, EndpointClosedHandler, ListRequestHandler, ReleaseAll, TablesOk;
    match m {
      case PeerRemove(p, _) =>
        RemoveTables(c, p, r.c);
        RemoveQuiet(c, p, r);
        SameKeysSize(c.creating, r.c.creating);
      case OutgoingP2PCreated(p) => CreatedPotential(c, p, r.c);
      case EndpointClosed(x, crashed) => EndpointClosedTables(c, x, crashed, r.c);
      case SubCrashed(_) =>
      case CentralCrash =>
      case _ => RefusedTotal(c, m, draw, r);
    }
  }

  /** During the shutdown each report lowers the potential by one and nothing else moves it. */
  lemma StopTurnPotential(n: Node, draw: seq<Peer>, r: Reply)
    requires Accounting(n) && n.inbox != [] && n.c.stopping
    requires r == Turn(n.c, n.inbox[0], draw) && r.outcome != Panic
    ensures Potential(r.c) == Potential(n.c) - Bit(IsReport(n.inbox[0]))
  {
    HeadExpected(n);
    if !IsDropped(n.c, n.inbox[0]) {
      HandledPotential(n.c, n.inbox[0], draw, r);
    }
  }

  lemma RefusedTotal(c: Central, m: Msg, draw: seq<Peer>, r: Reply)
    requires c.stopping && r == Handle(c, m, draw)
    requires m.IncomingP2PCreated? || m.APIEndpointCreated? || m.SubClosed?
    ensures r.c.creating == c.creating && r.c.total == c.total - Bit(m.SubClosed?)
  {
  }

  // ---- The end ---------------------------------------------------------------------

  /** What the turn that ends one goroutine of an outgoing endpoint returns. */
  lemma GoneOutcome(c: Central, p: Peer, i: PeerInfo, awaited: bool, r: Reply)
    requires r == OutgoingGoneHandler(c, p, i, awaited) && r.outcome != Panic
    ensures r.outcome == ExitIfDone(r.c)
  {
  }

  lemma OutgoingLast(c: Central, p: Peer, isReader: bool, crashed: bool, r: Reply)
    requires r == OutgoingClosedHandler(c, p, isReader, crashed) && r.outcome != Panic
      && SlotRuns(SlotOf(c, p), isReader)
    requires !SlotRuns(SlotOf(c, p), !isReader)
    ensures r.outcome == ExitIfDone(r.c)
  {
    var i := Stopped(SlotOf(c, p).i, isReader, crashed);
    GoneOutcome(PutOutgoing(c, p, i).(total := c.total - 1), p, i, p in c.awaiting, r);
  }

  lemma OutgoingFirst(c: Central, p: Peer, isReader: bool, crashed: bool, r: Reply)
    requires r == OutgoingClosedHandler(c, p, isReader, crashed) && SlotRuns(SlotOf(c, p), isReader)
    requires SlotRuns(SlotOf(c, p), !isReader)
    ensures r.outcome == Continue
  {
  }

  lemma OutgoingOutcome(c: Central, p: Peer, isReader: bool, crashed: bool, r: Reply)
    requires r == OutgoingClosedHandler(c, p, isReader, crashed) && r.outcome != Panic
      && SlotRuns(SlotOf(c, p), isReader)
    ensures !SlotRuns(SlotOf(c, p), !isReader) ==> r.outcome == ExitIfDone(r.c)
    ensures SlotRuns(SlotOf(c, p), !isReader) ==> r.outcome == Continue
  {
    if SlotRuns(SlotOf(c, p), !isReader) {
      OutgoingFirst(c, p, isReader, crashed, r);
    } else {
      OutgoingLast(c, p, isReader, crashed, r);
    }
  }

  lemma IncomingOutcome(c: Central, p: Peer, isReader: bool, crashed: bool, r: Reply)
    requires r == IncomingClosedHandler(c, p, isReader, crashed) && p in c.incoming
      && IsRunning(c.incoming[p], isReader)
    ensures !IsRunning(c.incoming[p], !isReader) ==> r.outcome == ExitIfDone(r.c)
    ensures IsRunning(c.incoming[p], !isReader) ==> r.outcome == Continue
  {
  }

  lemma APIOutcome(c: Central, cl: Client, isReader: bool, crashed: bool, r: Reply)
    requires r == APIClosedHandler(c, cl, isReader, crashed) && cl in c.clients && ClientRuns(c.clients[cl], isReader)
    ensures !ClientRuns(c.clients[cl], !isReader) && Gossip in c.subs ==> r.outcome == ExitIfDone(r.c)
    ensures !ClientRuns(c.clients[cl], !isReader) && Gossip !in c.subs ==> r.outcome == Panic
    ensures ClientRuns(c.clients[cl], !isReader) ==> r.outcome == Continue
  {
  }

  lemma ClosedOutcome(c: Central, x: Routine, crashed: bool, r: Reply)
    requires TablesOk(c) && Runs(c, x) && r == EndpointClosedHandler(c, x, crashed) && r.outcome != Panic
    ensures r.outcome == Exit ==> r.c.total <= 0
    ensures r.outcome == Continue ==> r.c.total > 0 || Runs(r.c, Routine(x.endpoint, !x.isReader))
  {
    EndpointClosedTables(c, x, crashed, r.c);
    match x.endpoint
    case Outgoing(p) => OutgoingOutcome(c, p, x.isReader, crashed, r);
    case Incoming(p) => IncomingOutcome(c, p, x.isReader, crashed, r);
    case API(cl) => APIOutcome(c, cl, x.isReader, crashed, r);
  }

  /** The counter bounds what is recorded from above. */
  lemma CountedRun(c: Central, x: Routine)
    requires Accounted(c) && Runs(c, x)
    ensures c.total > 0
  {
    InRunningSet(c);
    assert x in RunningSet(c);
  }

  lemma NothingLeft(c: Central)
    requires TablesOk(c) && Accounted(c) && c.total <= 0
    ensures c.total == 0 && c.subs == {} && c.incoming == map[] && c.clients == map[]
    ensures forall x :: !Runs(c, x)
  {
    InRunningSet(c);
    assert RunningSet(c) == {};
    assert forall p :: p in c.incoming ==> Runs(c, Routine(Incoming(p), true)) || Runs(c, Routine(Incoming(p), false));
    assert forall cl :: cl in c.clients ==> Runs(c, Routine(API(cl), true)) || Runs(c, Routine(API(cl), false));
  }

  /** Messages other than closures neither lower the counter nor end the loop. */
  lemma OtherOutcome(c: Central, m: Msg, draw: seq<Peer>, r: Reply)
    requires TablesOk(c) && r == Handle(c, m, draw) && !m.EndpointClosed? && !m.SubClosed? && r.outcome != Panic
    ensures r.outcome == Continue && r.c.total >= c.total
  {
    match m {
      case PeerAdd(p, _) => AddTables(c, p, r.c);
      case PeerRemove(p, _) => RemoveTables(c, p, r.c); RemoveQuiet(c, p, r);
      case RandomPeerListRelease(peers) => ReleaseAllTables(c, peers, r.c);
      case _ => RestOutcome(c, m, draw, r);
    }
  }

  lemma RestOutcome(c: Central, m: Msg, draw: seq<Peer>, r: Reply)
    requires r == Handle(c, m, draw) && !m.EndpointClosed? && !m.SubClosed? && r.outcome != Panic
    requires !m.PeerAdd? && !m.PeerRemove? && !m.RandomPeerListRelease?
    ensures r.outcome == Continue && r.c.total >= c.total
  {
  }

  lemma HandledExits(c: Central, m: Msg, draw: seq<Peer>, r: Reply)
    requires TablesOk(c) && Expected(c, m) && c.total > 0
    requires r == Handle(c, m, draw) && r.outcome != Panic && Accounted(r.c)
    ensures r.outcome == Exit <==> r.c.total == 0
  {
    match m {
      case EndpointClosed(x, crashed) =>
        ClosedOutcome(c, x, crashed, r);
        if Runs(r.c, Routine(x.endpoint, !x.isReader)) {
          CountedRun(r.c, Routine(x.endpoint, !x.isReader));
        }
      case SubClosed(_) =>
      case _ => OtherOutcome(c, m, draw, r);
    }
  }

  /** A turn ends the event loop exactly when it brings the goroutine counter to zero. */
  lemma TurnExits(n: Node, draw: seq<Peer>, r: Reply)
    requires Accounting(n) && n.inbox != [] && n.c.total > 0
    requires r == Turn(n.c, n.inbox[0], draw) && r.outcome != Panic
    ensures r.outcome == Exit <==> r.c.total == 0
    ensures r.c.total >= 0
  {
    HeadExpected(n);
    TurnEffect(n, draw, r);
    if !IsDropped(n.c, n.inbox[0]) {
      HandledExits(n.c, n.inbox[0], draw, r);
    }
  }

  /** While the node is not stopping its four submodules are counted. */
  lemma RunningCounts(n: Node)
    requires Accounting(n) && Stopping(n) && !n.c.stopping
    ensures n.c.total >= 4
  {
    FourSubs();
  }

  // ---- Panics ----------------------------------------------------------------------

  /** The messages that kill the process: a submodule's crash, the time-out of the shutdown,
      and the end of an API client's last goroutine once the Gossiper's pointer is nil. */
  predicate Kills(c: Central, m: Msg) {
    || m.SubCrashed? || m.CentralCrash?
    || (m.EndpointClosed? && m.routine.endpoint.API? && Gossip !in c.subs
        && !Runs(c, Routine(m.routine.endpoint, !m.routine.isReader)))
  }

  lemma RunningNeverPanics(c: Central, m: Msg, draw: seq<Peer>, r: Reply)
    requires c.subs == ALL_SUBS && r == Handle(c, m, draw) && !m.EndpointClosed?
    requires !m.SubCrashed? && !m.CentralCrash?
    ensures r.outcome != Panic
  {
  }

  lemma OutgoingNeverPanics(c: Central, p: Peer, isReader: bool, crashed: bool, r: Reply)
    requires c.stopping || Membership in c.subs
    requires r == OutgoingClosedHandler(c, p, isReader, crashed)
    ensures r.outcome != Panic
  {
  }

  lemma ClosedPanics(c: Central, x: Routine, crashed: bool, r: Reply)
    requires c.stopping || c.subs == ALL_SUBS
    requires Runs(c, x) && r == EndpointClosedHandler(c, x, crashed)
    ensures r.outcome == Panic <==> Kills(c, EndpointClosed(x, crashed))
  {
    match x.endpoint
    case Outgoing(p) => OutgoingNeverPanics(c, p, x.isReader, crashed, r);
    case Incoming(p) => IncomingOutcome(c, p, x.isReader, crashed, r);
    case API(cl) => APIOutcome(c, cl, x.isReader, crashed, r);
  }

  lemma StopNeverPanics(c: Central, m: Msg, draw: seq<Peer>, r: Reply)
    requires c.stopping && IsStopMessage(m) && r == Handle(c, m, draw)
    requires !m.EndpointClosed? && !m.SubCrashed? && !m.CentralCrash?
    ensures r.outcome != Panic
  {
    if m.PeerRemove? {
      RemoveQuiet(c, m.peer, r);
    }
  }

  lemma HandledPanics(c: Central, m: Msg, draw: seq<Peer>, r: Reply)
    requires c.stopping || c.subs == ALL_SUBS
    requires Expected(c, m) && !IsDropped(c, m) && r == Handle(c, m, draw)
    ensures r.outcome == Panic <==> Kills(c, m)
  {
    if m.EndpointClosed? {
      ClosedPanics(c, m.routine, m.crashed, r);
    } else if !m.SubCrashed? && !m.CentralCrash? {
      if c.stopping {
        StopNeverPanics(c, m, draw, r);
      } else {
        RunningNeverPanics(c, m, draw, r);
      }
    }
  }

  /** The event loop panics on exactly these messages. */
  lemma TurnPanics(n: Node, draw: seq<Peer>, r: Reply)
    requires Accounting(n) && Stopping(n) && n.inbox != [] && r == Turn(n.c, n.inbox[0], draw)
    ensures r.outcome == Panic <==> Kills(n.c, n.inbox[0])
  {
    HeadExpected(n);
    if !IsDropped(n.c, n.inbox[0]) {
      HandledPanics(n.c, n.inbox[0], draw, r);
    }
  }

  /** A stopping node with work left has something to do that no other party holds up. */
  ghost predicate CanProgress(n: Node) {
    || n.inbox != [] || n.gout != []
    || (exists r :: r in n.live && Told(n.c, r.endpoint))
    || (exists sub :: sub in n.alive && sub in n.asked && (sub == Gossip ==> GossiperClose in n.gin))
  }

  /** The shutdown never gets stuck: an idle queue leaves an endpoint that was told to
      close or a submodule that was asked to. */
  lemma ShutdownProgress(n: Node)
    requires Accounting(n) && Stopping(n) && n.c.stopping && n.c.total > 0
    ensures CanProgress(n)
  {
    if n.inbox == [] && n.gout == [] {
      if n.c.subs != {} {
        var s :| s in n.c.subs;
        assert Bit(s in n.alive) + Endings(n.inbox, s) + Endings(n.gout, s) == Bit(s in n.c.subs);
        assert s in n.alive;
        AllSubsAre({s});
        assert s in n.asked;
      } else {
        SomeRunning(n.c);
        var x :| Runs(n.c, x);
        assert n.live[x] + Closings(n.inbox, x) == Bit(Runs(n.c, x));
        assert x in n.live && IsClosing(n.c, n.inbox, x.endpoint);
      }
    }
  }

  lemma SomeRunning(c: Central)
    requires Accounted(c) && c.total > 0 && c.subs == {}
    ensures exists x :: Runs(c, x)
  {
    InRunningSet(c);
    assert RunningSet(c) != {};
    var x :| x in RunningSet(c);
  }
}
