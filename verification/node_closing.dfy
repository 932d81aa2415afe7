/** Endpoints with a crashed goroutine, and the capacity for accepted connections and clients, in
    every reachable state of a node. */
module NodeClosing {
  import opened Types
  import opened Messages
  import opened CentralModel
  import opened CentralTables
  import opened CentralEffects
  import opened CentralTurns
  import opened CentralClosing
  import opened Node
  import opened NodeAccounting
  import opened NodeTheorems

  // ---- Crashes ---------------------------------------------------------------------

  /** A crash of one goroutine has told the endpoint of the other one to close. */
  ghost predicate CrashCloses(c: Central, e: Endpoint) {
    HasCrashed(c, e) && (exists b :: Runs(c, Routine(e, b))) ==> Told(c, e)
  }

  ghost predicate CrashesClose(c: Central) {
    forall e :: CrashCloses(c, e)
  }

  /** Goroutines start only for an endpoint that was not recorded. */
  lemma NoRestart(c: Central, m: Msg, draw: seq<Peer>, r: Reply, e: Endpoint, b: bool)
    requires TablesOk(c) && Expected(c, m) && r == Handle(c, m, draw) && r.outcome != Panic
    requires RunsEffect(c, m, r) && HasEntry(c, e) && Runs(r.c, Routine(e, b))
    ensures Runs(c, Routine(e, b))
    ensures m != EndpointClosed(Routine(e, b), true) && m != EndpointClosed(Routine(e, b), false)
  {
    hide Handle, HasEntry, Accepts, Runs;
    HandledTells(c, m, draw, r);
    if Accepts(c, m) {
      AcceptedIsNew(c, m);
    }
    var x := Routine(e, b);
    assert Bit(Runs(r.c, x)) == Bit(Runs(c, x)) + r.started[x] - Bit(m.EndpointClosed? && m.routine == x);
  }

  lemma AcceptedIsNew(c: Central, m: Msg)
    requires Disjoint(c) && Accepts(c, m)
    ensures !HasEntry(c, Newcomer(m))
  {
  }

  lemma HandledCrashes(c: Central, m: Msg, draw: seq<Peer>, r: Reply, e: Endpoint)
    requires TablesOk(c) && Expected(c, m) && r == Handle(c, m, draw) && r.outcome != Panic && RunsEffect(c, m, r)
    requires m.IncomingGossip? ==> FromOutside(m.gossip)
    requires CrashCloses(c, e)
    ensures CrashCloses(r.c, e)
  {
    hide Handle, TablesOk, RunsEffect, Told, HasCrashed, HasEntry, Runs;
    ToldIff(c, m, draw, r, e);
    EntriesOnly(c, e);
    EntriesOnly(r.c, e);
    if HasCrashed(r.c, e) && exists b :: Runs(r.c, Routine(e, b)) {
      var b :| Runs(r.c, Routine(e, b));
      if HasEntry(c, e) {
        NoRestart(c, m, draw, r, e, b);
        CrashReason(c, m, e, b);
      }
    }
  }

  lemma EntriesOnly(c: Central, e: Endpoint)
    ensures HasCrashed(c, e) || Told(c, e) || (exists b :: Runs(c, Routine(e, b))) ==> HasEntry(c, e)
  {
  }

  /** The end with a crash of one goroutine is a reason to close, while the other one runs. */
  lemma CrashReason(c: Central, m: Msg, e: Endpoint, b: bool)
    requires Runs(c, Routine(e, b))
    requires m != EndpointClosed(Routine(e, b), true) && m != EndpointClosed(Routine(e, b), false)
    ensures m.EndpointClosed? && m.routine.endpoint == e && m.crashed ==> CallsForClosing(c, m, e)
  {
    hide Runs, HasCrashed;
    if m.EndpointClosed? && m.routine.endpoint == e && m.crashed {
      assert m.routine == Routine(e, m.routine.isReader);
      assert b == !m.routine.isReader;
    }
  }

  lemma TurnCrashes(n: Node, draw: seq<Peer>, n1: Node)
    requires Accounting(n) && CrashesClose(n.c) && Enabled(n, CentralTurn(draw)) && n1 == AfterTurn(n, draw)
    requires n1.status != Crashed
    ensures CrashesClose(n1.c)
  {
    hide Turn, Handle, CrashCloses, RoutinesMatch, DialsMatch, SubsMatch, ClosesWhenAsked;
    var m, r := n.inbox[0], Turn(n.c, n.inbox[0], draw);
    TurnTook(n, draw, r, n1);
    TurnEffect(n, draw, r);
    HeadExpected(n);
    assert m in n.inbox;
    TurnHandles(n.c, m, draw, r);
    if !IsDropped(n.c, m) {
      forall e ensures CrashCloses(r.c, e) {
        HandledCrashes(n.c, m, draw, r, e);
      }
    }
  }

  lemma TurnHandles(c: Central, m: Msg, draw: seq<Peer>, r: Reply)
    requires r == Turn(c, m, draw)
    ensures r == if IsDropped(c, m) then Quiet(c) else Handle(c, m, draw)
    ensures IsDropped(c, m) ==> r.c == c
  {
    hide Handle;
  }

  // ---- Capacity --------------------------------------------------------------------

  /** The tables of accepted connections and clients stay within their capacity. */
  ghost predicate WithinCapacity(c: Central) {
    |c.incoming| <= c.incomingMax && |c.clients| <= c.clientsMax
  }

  /** Neither table has grown, and the capacities are the same. */
  ghost predicate NotGrown(c: Central, c1: Central) {
    && c1.incomingMax == c.incomingMax && c1.clientsMax == c.clientsMax
    && c1.incoming.Keys <= c.incoming.Keys && c1.clients.Keys <= c.clients.Keys
  }

  lemma NotGrownFits(c: Central, c1: Central)
    requires WithinCapacity(c) && NotGrown(c, c1)
    ensures WithinCapacity(c1)
  {
    FewerKeys(c1.incoming.Keys, c.incoming.Keys);
    FewerKeys(c1.clients.Keys, c.clients.Keys);
    assert |c1.incoming| == |c1.incoming.Keys| && |c.incoming| == |c.incoming.Keys|;
    assert |c1.clients| == |c1.clients.Keys| && |c.clients| == |c.clients.Keys|;
  }

  lemma FewerKeys<T>(a: set<T>, b: set<T>)
    requires a <= b
    ensures |a| <= |b|
  {
    assert b == a + (b - a);
  }

  /** The tables of accepted connections and clients are the same. */
  ghost predicate OutgoingOnly(c: Central, c1: Central) {
    && c1.incomingMax == c.incomingMax && c1.clientsMax == c.clientsMax
    && c1.incoming == c.incoming && c1.clients == c.clients
  }

  lemma OutgoingTables(c: Central, view: map<Peer, PeerInfo>, awaiting: map<Peer, PeerInfo>, creating: map<Peer, bool>,
                       probing: map<Peer, bool>, c1: Central)
    requires c1 == c.(view := view, awaiting := awaiting, creating := creating, probing := probing)
    ensures OutgoingOnly(c, c1)
  {
  }

  lemma AddFits(c: Central, p: Peer, r: Reply)
    requires r == PeerAddHandler(c, p)
    ensures OutgoingOnly(c, r.c)
  {
    hide OutgoingOnly;
    if p in c.view {
      OutgoingTables(c, c.view, c.awaiting, c.creating, c.probing, r.c);
    } else if p in c.awaiting {
      OutgoingTables(c, c.view[p := c.awaiting[p]], c.awaiting - {p}, c.creating, c.probing, r.c);
    } else if p in c.creating || p !in c.probing {
      OutgoingTables(c, c.view, c.awaiting, c.creating[p := false], c.probing, r.c);
    } else {
      OutgoingTables(c, c.view, c.awaiting, c.creating, c.probing[p := true], r.c);
    }
  }

  lemma RemoveFits(c: Central, p: Peer, r: Reply)
    requires r == PeerRemoveHandler(c, p)
    ensures OutgoingOnly(c, r.c)
  {
    hide OutgoingOnly, RemoveIfUnused;
    if p !in c.awaiting && p in c.view {
      OutgoingTables(c, c.view - {p}, RemoveIfUnused(c.awaiting[p := c.view[p]], p), c.creating, c.probing, r.c);
    } else {
      OutgoingTables(c, c.view, c.awaiting, r.c.creating, r.c.probing, r.c);
    }
  }

  lemma ProbesFit(c: Central, m: Msg, draw: seq<Peer>, r: Reply)
    requires TablesOk(c) && (m.ProbePeerRequest? || m.CentralProbePeerReply?) && r == Handle(c, m, draw)
    ensures OutgoingOnly(c, r.c)
  {
    hide ProbeRequestHandler, ProbeReplyHandler, TablesOk;
    if m.ProbePeerRequest? {
      ProbeTables(c, m.peer, r.c);
    } else {
      ProbeReplyTables(c, m.peer, m.alive, r.c);
    }
  }

  lemma DialFits(c: Central, p: Peer, r: Reply)
    requires r == OutgoingCreatedHandler(c, p)
    ensures OutgoingOnly(c, r.c)
  {
    hide BothRoutines;
  }

  lemma CommandFits(c: Central, m: Msg, draw: seq<Peer>, r: Reply)
    requires m.PeerAdd? || m.PeerRemove? || m.ProbePeerRequest? || m.CentralProbePeerReply? || m.OutgoingP2PCreated?
    requires TablesOk(c) && r == Handle(c, m, draw)
    ensures NotGrown(c, r.c)
  {
    hide PeerAddHandler, PeerRemoveHandler, ProbeRequestHandler, ProbeReplyHandler, OutgoingCreatedHandler;
    match m
    case PeerAdd(p, _) => AddFits(c, p, r);
    case PeerRemove(p, _) => RemoveFits(c, p, r);
    case OutgoingP2PCreated(p) => DialFits(c, p, r);
    case _ => ProbesFit(c, m, draw, r);
  }

  lemma {:induction false} ReleaseFits(c: Central, peers: seq<Peer>)
    ensures NotGrown(c, ReleaseAll(c, peers))
    decreases |peers|
  {
    hide RemoveIfUnused;
    if peers != [] {
      ReleaseFits(ReleaseOne(c, peers[0]), peers[1..]);
    }
  }

  lemma ClosedFits(c: Central, x: Routine, crashed: bool, r: Reply)
    requires TablesOk(c) && Runs(c, x) && r == EndpointClosedHandler(c, x, crashed)
    ensures NotGrown(c, r.c)
  {
    hide OutgoingClosedHandler, IncomingClosedHandler, APIClosedHandler, TablesOk, Runs, StoppedSlot, SlotOf;
    assert x == Routine(x.endpoint, x.isReader);
    match x.endpoint
    case Outgoing(p) => OutgoingFits(c, p, x.isReader, crashed, r.c);
    case Incoming(p) => IncomingFits(c, p, x.isReader, crashed, r.c);
    case API(cl) => ClientFits(c, cl, x.isReader, crashed, r.c);
  }

  lemma OutgoingFits(c: Central, p: Peer, isReader: bool, crashed: bool, c1: Central)
    requires TablesOk(c) && Runs(c, Routine(Outgoing(p), isReader))
    requires c1 == OutgoingClosedHandler(c, p, isReader, crashed).c
    ensures NotGrown(c, c1)
  {
    hide OutgoingClosedHandler, StoppedSlot;
    OutgoingClosedSlot(c, p, isReader, crashed, c1);
  }

  lemma IncomingFits(c: Central, p: Peer, isReader: bool, crashed: bool, c1: Central)
    requires Runs(c, Routine(Incoming(p), isReader)) && c1 == IncomingClosedHandler(c, p, isReader, crashed).c
    ensures NotGrown(c, c1)
  {
    hide IncomingClosedHandler;
    IncomingFirst(c, p, isReader, crashed, c1);
  }

  lemma ClientFits(c: Central, cl: Client, isReader: bool, crashed: bool, c1: Central)
    requires Runs(c, Routine(API(cl), isReader)) && c1 == APIClosedHandler(c, cl, isReader, crashed).c
    ensures NotGrown(c, c1)
  {
    hide APIClosedHandler;
    ClientFirst(c, cl, isReader, crashed, c1);
  }

  lemma AcceptFits(c: Central, m: Msg, draw: seq<Peer>, r: Reply)
    requires (m.IncomingP2PCreated? || m.APIEndpointCreated?) && r == Handle(c, m, draw) && WithinCapacity(c)
    ensures WithinCapacity(r.c)
  {
    hide BothRoutines;
  }

  lemma RestFits(c: Central, m: Msg, draw: seq<Peer>, r: Reply)
    requires m.SubClosed? || m.SubCrashed? || m.RandomPeerListRequest? || m.CentralCrash? || m.CentralClose?
    requires r == Handle(c, m, draw)
    ensures NotGrown(c, r.c)
  {
    hide NotGrown, SubClosedHandler, ListRequestHandler, CloseHandler;
    match m
    case SubClosed(sub) => SubFits(c, sub, r.c);
    case RandomPeerListRequest(related, _) => RequestFits(c, related, draw, r.c);
    case CentralClose => CloseFits(c, r.c);
    case _ => SameFits(c);
  }

  lemma SubFits(c: Central, sub: Sub, c1: Central)
    requires c1 == SubClosedHandler(c, sub).c
    ensures NotGrown(c, c1)
  {
    hide ExitIfDone;
  }

  lemma RequestFits(c: Central, related: Option<Item>, draw: seq<Peer>, c1: Central)
    requires c1 == ListRequestHandler(c, related, draw).c
    ensures NotGrown(c, c1)
  {
    hide Leased, NotGrown;
    assert c1 == c.(view := Leased(c.view, draw));
    OutgoingTables(c, Leased(c.view, draw), c.awaiting, c.creating, c.probing, c1);
    SameTablesFit(c, c1);
  }

  lemma SameTablesFit(c: Central, c1: Central)
    requires OutgoingOnly(c, c1)
    ensures NotGrown(c, c1)
  {
  }

  lemma CloseFits(c: Central, c1: Central)
    requires c1 == CloseHandler(c).c
    ensures NotGrown(c, c1)
  {
  }

  lemma SameFits(c: Central)
    ensures NotGrown(c, c)
  {
  }

  lemma PassedFits(c: Central, m: Msg, draw: seq<Peer>, r: Reply)
    requires r == Handle(c, m, draw) && IsPassedOn(m)
    ensures NotGrown(c, r.c)
  {
    hide Handle;
    PassesOn(c, m, draw, r);
  }

  lemma HandledFits(c: Central, m: Msg, draw: seq<Peer>, r: Reply)
    requires TablesOk(c) && Expected(c, m) && (m.IncomingGossip? ==> FromOutside(m.gossip))
    requires r == Handle(c, m, draw) && WithinCapacity(c)
    ensures WithinCapacity(r.c)
  {
    hide EndpointClosedHandler, WithinCapacity, NotGrown, TablesOk;
    if m.IncomingP2PCreated? || m.APIEndpointCreated? {
      hide Handle;
      AcceptFits(c, m, draw, r);
    } else {
      match m {
        case EndpointClosed(x, crashed) => ClosedFits(c, x, crashed, r);
        case RandomPeerListRelease(peers) => ReleaseFits(c, peers);
        case _ => HandledNotGrown(c, m, draw, r);
      }
      NotGrownFits(c, r.c);
    }
  }

  lemma HandledNotGrown(c: Central, m: Msg, draw: seq<Peer>, r: Reply)
    requires TablesOk(c) && r == Handle(c, m, draw) && (m.IncomingGossip? ==> FromOutside(m.gossip))
    requires !m.IncomingP2PCreated? && !m.APIEndpointCreated? && !m.EndpointClosed? && !m.RandomPeerListRelease?
    ensures NotGrown(c, r.c)
  {
    hide Handle, NotGrown, TablesOk;
    if IsPassedOn(m) {
      PassedFits(c, m, draw, r);
    } else if m.PeerAdd? || m.PeerRemove? || m.ProbePeerRequest? || m.CentralProbePeerReply? || m.OutgoingP2PCreated? {
      CommandFits(c, m, draw, r);
    } else {
      RestFits(c, m, draw, r);
    }
  }

  lemma TurnFits(n: Node, draw: seq<Peer>, n1: Node)
    requires Accounting(n) && WithinCapacity(n.c) && Enabled(n, CentralTurn(draw)) && n1 == AfterTurn(n, draw)
    requires n1.status != Crashed
    ensures WithinCapacity(n1.c)
  {
    hide Turn, Handle, WithinCapacity, RoutinesMatch, DialsMatch, SubsMatch, ClosesWhenAsked;
    var m, r := n.inbox[0], Turn(n.c, n.inbox[0], draw);
    TurnTook(n, draw, r, n1);
    HeadExpected(n);
    assert m in n.inbox;
    TurnHandles(n.c, m, draw, r);
    if !IsDropped(n.c, m) {
      HandledFits(n.c, m, draw, r);
    }
  }

  // ---- Runs ------------------------------------------------------------------------

  ghost predicate TablesKept(c: Central) {
    CrashesClose(c) && WithinCapacity(c)
  }

  lemma StepKeeps(n: Node, step: Step, n1: Node)
    requires Accounting(n) && TablesKept(n.c) && Enabled(n, step) && n1 == Next(n, step) && n1.status != Crashed
    ensures TablesKept(n1.c)
  {
    hide CrashesClose, WithinCapacity, Accounting, AfterTurn;
    if step.CentralTurn? {
      TurnCrashes(n, step.draw, n1);
      TurnFits(n, step.draw, n1);
    } else {
      OtherStatus(n, step, n1);
    }
  }

  lemma {:induction false} RunKeeps(n: Node, steps: seq<Step>)
    requires Invariant(n) && TablesKept(n.c) && IsRun(n, steps) && After(n, steps).status != Crashed
    ensures TablesKept(After(n, steps).c)
    decreases |steps|
  {
    hide Accounting, TablesKept;
    if steps != [] {
      var n1 := Next(n, steps[0]);
      FirstSurvives(n, steps);
      StepInvariant(n, steps[0], n1);
      StepKeeps(n, steps[0], n1);
      RunKeeps(n1, steps[1..]);
    }
  }

  lemma ReachableKept(n: Node)
    requires Reachable(n) && n.status != Crashed
    ensures TablesKept(n.c)
  {
    hide Invariant, TablesKept;
    var first, steps :| Reaches(first, steps, n);
    InitInvariant(first);
    InitKept(first);
    RunKeeps(first, steps);
  }

  lemma InitKept(n: Node)
    requires Init(n)
    ensures TablesKept(n.c)
  {
  }

  // ---- Theorems --------------------------------------------------------------------

  /** In every reachable state an endpoint one of whose goroutines has crashed was told to close,
      as long as the other one runs. */
  lemma CrashStopsTheOther(n: Node, e: Endpoint, b: bool)
    requires Reachable(n) && n.status != Crashed && HasCrashed(n.c, e) && Runs(n.c, Routine(e, b))
    ensures Told(n.c, e)
  {
    hide Reachable, HasCrashed, Runs, Told;
    ReachableKept(n);
    assert CrashCloses(n.c, e);
  }

  /** Accepted connections and clients never exceed their capacities, on any run. */
  lemma CapacityKept(n: Node)
    requires Reachable(n) && n.status != Crashed
    ensures |n.c.incoming| <= n.c.incomingMax && |n.c.clients| <= n.c.clientsMax
  {
    hide Reachable, CrashesClose;
    ReachableKept(n);
  }

  /** Once the end of one goroutine of an endpoint was recorded, the endpoint of the other one has
      been told to close if and only if it had been told before, or this end or the earlier one
      was a crash. */
  lemma ClosureTellsIff(n: Node, draw: seq<Peer>)
    requires Reachable(n) && Enabled(n, CentralTurn(draw)) && AfterTurn(n, draw).status != Crashed
    requires n.inbox[0].EndpointClosed?
    ensures var m, c, c1 := n.inbox[0], n.c, AfterTurn(n, draw).c;
      var e, other := m.routine.endpoint, Routine(m.routine.endpoint, !m.routine.isReader);
      && Runs(c, m.routine) && !Runs(c1, m.routine) && (Runs(c1, other) <==> Runs(c, other))
      && (Runs(c1, other) ==>
            && (Told(c1, e) <==> Told(c, e) || m.crashed || HasCrashed(c, e))
            && (HasCrashed(c1, e) <==> HasCrashed(c, e) || m.crashed))
  {
    hide Reachable, Handle, Invariant, TablesOk, HasCrashed, Told, Runs;
    ReachableInvariant(n);
    InvariantAccounts(n);
    var m, r := n.inbox[0], Turn(n.c, n.inbox[0], draw);
    ClosureFacts(n, draw, r);
    ToldIff(n.c, m, draw, r, m.routine.endpoint);
    var other := Routine(m.routine.endpoint, !m.routine.isReader);
    RunsHasEntry(n.c, other);
    RunsHasEntry(r.c, other);
  }

  lemma InvariantAccounts(n: Node)
    requires Invariant(n)
    ensures Accounting(n)
  {
  }

  lemma RunsHasEntry(c: Central, x: Routine)
    ensures Runs(c, x) ==> HasEntry(c, x.endpoint)
  {
  }

  lemma ClosureFacts(n: Node, draw: seq<Peer>, r: Reply)
    requires Accounting(n) && Enabled(n, CentralTurn(draw)) && AfterTurn(n, draw).status != Crashed
    requires n.inbox[0].EndpointClosed? && r == Turn(n.c, n.inbox[0], draw)
    ensures r == Handle(n.c, n.inbox[0], draw) && r.outcome != Panic && r.c == AfterTurn(n, draw).c
    ensures TablesOk(n.c) && Expected(n.c, n.inbox[0])
    ensures var x := n.inbox[0].routine;
      Runs(n.c, x) && !Runs(r.c, x)
      && (Runs(r.c, Routine(x.endpoint, !x.isReader)) <==> Runs(n.c, Routine(x.endpoint, !x.isReader)))
  {
    hide Runs, EndpointClosedHandler, TablesOk, RoutinesMatch, DialsMatch, SubsMatch, ClosesWhenAsked, QueuesOk,
      Accounted;
    TurnTook(n, draw, r, AfterTurn(n, draw));
    TurnHandles(n.c, n.inbox[0], draw, r);
    HeadExpected(n);
    EndpointClosedTables(n.c, n.inbox[0].routine, n.inbox[0].crashed, r.c);
  }
}
