/** By how much usage counters exceed the leases that exist: by exactly those that the
    Gossiper has forgotten. What this means for a peer that is removed. */
module NodeLeaks {
  import opened Types
  import opened Messages
  import G = GossiperModel
  import opened GossiperLease
  import opened CentralModel
  import opened CentralTables
  import opened CentralEffects
  import opened CentralLifecycle
  import opened Node
  import opened NodeAccounting
  import opened NodeLease
  import opened NodeTheorems

  // ---- Leases forgotten ------------------------------------------------------------

  /** Leases that a step forgets: those of one message that the Gossiper handles, or the
      grants that are still queued for it when it ends. */
  ghost function LeakedIn(n: Node, step: Step): multiset<Peer>
    requires step.GossiperHandles? ==> n.gin != []
  {
    match step
    case GossiperHandles(_, _) =>
      if n.gin[0] == GossiperClose then Granted(n.gin[1..]) else LeakedBy(n.g, n.gin[0])
    case SubFails(Gossip) => Granted(n.gin)
    case _ => multiset{}
  }

  ghost function Leaked(n: Node, steps: seq<Step>): multiset<Peer>
    requires IsRun(n, steps)
    decreases |steps|
  {
    if steps == [] then multiset{} else LeakedIn(n, steps[0]) + Leaked(Next(n, steps[0]), steps[1..])
  }

  /** Nothing changes but that these leases leave the account. */
  ghost predicate Forgets(n: Node, n1: Node, leak: multiset<Peer>) {
    n1.c == n.c && Demand(n1) + leak == Demand(n)
  }

  lemma ForgetsGossip(n: Node, n1: Node, out: seq<Msg>, leak: multiset<Peer>)
    requires n1.c == n.c && n1.inbox == n.inbox && n1.gout == n.gout + out
    requires Held(n1.g.list) + Granted(n1.gin) + Released(out) + leak == Held(n.g.list) + Granted(n.gin)
    ensures Forgets(n, n1, leak)
  {
    ReleasedConcat(n.gout, out);
    forall p ensures (Demand(n1) + leak)[p] == Demand(n)[p] {
      assert (Held(n1.g.list) + Granted(n1.gin) + Released(out) + leak)[p] == (Held(n.g.list) + Granted(n.gin))[p];
    }
  }

  lemma ForgetsAppended(n: Node, n1: Node, m: Msg)
    requires n1.c == n.c && n1.g == n.g && n1.gin == n.gin && n1.gout == n.gout && n1.inbox == n.inbox + [m]
    requires !m.RandomPeerListRelease?
    ensures Forgets(n, n1, multiset{})
  {
    NoReleases([m]);
    ReleasedConcat(n.inbox, [m]);
  }

  lemma ForgetsSent(n: Node, n1: Node)
    requires n.gout != [] && n1.c == n.c && n1.g == n.g && n1.gin == n.gin
    requires n1.inbox == n.inbox + [n.gout[0]] && n1.gout == n.gout[1..]
    ensures Forgets(n, n1, multiset{})
  {
    SentDemand(n, n1);
  }

  lemma RoundForgets(n: Node, round: G.GossipStep, n1: Node)
    requires round.Round? && G.Enabled(n.g, round) && n1 == AfterGossip(n, round, n.gin)
    ensures Forgets(n, n1, multiset{})
  {
    var pushes, others := RoundOut(n.g, round);
    var held, released := Held(n1.g.list), Released(pushes + others);
    assert held + Granted(n.gin) + released + multiset{} == held + released + Granted(n.gin);
    ForgetsGossip(n, n1, pushes + others, multiset{});
  }

  lemma TakenExactly(n: Node, m: GossipMsg, held: multiset<Peer>, released: multiset<Peer>, leak: multiset<Peer>)
    requires n.gin != [] && m == n.gin[0] && held + released + leak == Held(n.g.list) + GrantedBy(m)
    ensures held + Granted(n.gin[1..]) + released + leak == Held(n.g.list) + Granted(n.gin)
  {
    var rest := Granted(n.gin[1..]);
    assert Granted(n.gin) == GrantedBy(m) + rest;
    assert held + rest + released + leak == held + released + leak + rest;
  }

  lemma HandleForgets(n: Node, m: GossipMsg, clients: seq<Client>, items: seq<Item>, n1: Node)
    requires n.gin != [] && m == n.gin[0] && m != GossiperClose && G.Enabled(n.g, G.Handle(m, clients, items))
    requires n1 == AfterGossip(n, G.Handle(m, clients, items), n.gin[1..])
    ensures Forgets(n, n1, LeakedBy(n.g, m))
  {
    var out := G.Next(n.g, G.Handle(m, clients, items)).1;
    NodeLease.HandlePushesNothing(n.g, m, clients, items);
    TakenExactly(n, m, Held(n1.g.list), Released(out), LeakedBy(n.g, m));
    ForgetsGossip(n, n1, out, LeakedBy(n.g, m));
  }

  /** The Gossiper has ended with this message, and its queue is gone. */
  lemma EndForgets(n: Node, n1: Node, m: Msg, leak: multiset<Peer>)
    requires n1.c == n.c && n1.g == n.g && n1.inbox == n.inbox && n1.gin == [] && n1.gout == n.gout + [m]
    requires !m.RandomPeerListRelease? && leak == Granted(n.gin)
    ensures Forgets(n, n1, leak)
  {
    NoReleases([m]);
    ForgetsGossip(n, n1, [m], leak);
  }

  lemma GossipForgets(n: Node, step: Step, n1: Node)
    requires Enabled(n, step) && n1 == Next(n, step) && (step.GossiperHandles? || step.GossiperRound?)
    ensures Forgets(n, n1, LeakedIn(n, step))
  {
    if step.GossiperRound? {
      RoundForgets(n, step.round, n1);
    } else if n.gin[0] == GossiperClose {
      CloseStep(n, step.clients, step.items, n.gin[1..]);
      assert Granted(n.gin) == GrantedBy(n.gin[0]) + Granted(n.gin[1..]);
      EndForgets(n, n1, SubClosed(Gossip), Granted(n.gin[1..]));
    } else {
      HandleForgets(n, n.gin[0], step.clients, step.items, n1);
    }
  }

  lemma SubForgets(n: Node, step: Step, n1: Node)
    requires Enabled(n, step) && n1 == Next(n, step) && (step.SubStops? || step.SubFails?)
    ensures Forgets(n, n1, LeakedIn(n, step))
  {
    hide Forgets;
    if step.SubStops? {
      ForgetsAppended(n, n1, SubClosed(step.sub));
    } else if step.sub == Gossip {
      EndForgets(n, n1, SubCrashed(Gossip), Granted(n.gin));
    } else {
      ForgetsAppended(n, n1, SubCrashed(step.sub));
    }
  }

  lemma QueueForgets(n: Node, step: Step, n1: Node)
    requires Enabled(n, step) && n1 == Next(n, step)
    requires step.Environment? || step.ProbeEnds? || step.RoutineEnds? || step.DialEnds? || step.GossiperSends?
    ensures Forgets(n, n1, LeakedIn(n, step))
  {
    hide Forgets, FromEnvironment;
    match step
    case Environment(m) =>
      FromEnvironmentUncounted(n, m);
      ForgetsAppended(n, n1, m);
    case ProbeEnds(p, ok) => ForgetsAppended(n, n1, CentralProbePeerReply(p, ok));
    case RoutineEnds(r, crashed) => ForgetsAppended(n, n1, EndpointClosed(r, crashed));
    case DialEnds(p) => ForgetsAppended(n, n1, OutgoingP2PCreated(p));
    case GossiperSends => ForgetsSent(n, n1);
  }

  // ---- The balance of every step ---------------------------------------------------

  ghost function Surplus(n: Node, p: Peer): int {
    Usage(n.c, p) - Demand(n)[p]
  }

  lemma TurnBalance(n: Node, draw: seq<Peer>, n1: Node, p: Peer)
    requires Accounting(n) && Leases(n) && Enabled(n, CentralTurn(draw)) && n1 == AfterTurn(n, draw)
    requires n1.status != Crashed && !n.c.stopping && !n1.c.stopping
    ensures Surplus(n1, p) == Surplus(n, p)
  {
    var r := Turn(n.c, n.inbox[0], draw);
    TurnTook(n, draw, r, n1);
    RunningTurnLeases(n, draw, r);
    TookBalance(n, r, n1, p);
  }

  lemma TookBalance(n: Node, r: Reply, n1: Node, p: Peer)
    requires Took(n, r, n1) && n1.g == n.g && LeaseEffect(n.c, n.inbox[0], r)
    ensures Surplus(n1, p) == Surplus(n, p)
  {
    TookReleases(n, r, n1);
    GrantedConcat(n.gin, r.gossiper);
    assert Usage(r.c, p) == Usage(n.c, p) + Granted(r.gossiper)[p] - ReleasedBy(n.inbox[0])[p];
  }

  /** Every step outside the shutdown moves counters and leases alike, but for the leases
      that it forgets. */
  lemma StepBalance(n: Node, step: Step, n1: Node, p: Peer)
    requires Accounting(n) && Leases(n) && Enabled(n, step) && n1 == Next(n, step)
    requires n1.status != Crashed && !n.c.stopping && !n1.c.stopping
    ensures Surplus(n1, p) == Surplus(n, p) + LeakedIn(n, step)[p]
  {
    if step.CentralTurn? {
      TurnBalance(n, step.draw, n1, p);
    } else {
      StepForgets(n, step, n1);
      assert (Demand(n1) + LeakedIn(n, step))[p] == Demand(n)[p];
    }
  }

  lemma StepForgets(n: Node, step: Step, n1: Node)
    requires Enabled(n, step) && n1 == Next(n, step) && !step.CentralTurn?
    ensures Forgets(n, n1, LeakedIn(n, step))
  {
    hide Forgets, LeakedIn;
    if step.GossiperHandles? || step.GossiperRound? {
      GossipForgets(n, step, n1);
    } else if step.SubStops? || step.SubFails? {
      SubForgets(n, step, n1);
    } else {
      QueueForgets(n, step, n1);
    }
  }

  // ---- Runs ------------------------------------------------------------------------

  lemma StopsForGood(n: Node, step: Step, n1: Node)
    requires Invariant(n) && n.c.stopping && Enabled(n, step) && n1 == Next(n, step) && n1.status != Crashed
    ensures n1.c.stopping
  {
    StepPotential(n, step, n1);
  }

  lemma {:induction false} StoppedForGood(n: Node, steps: seq<Step>)
    requires Invariant(n) && n.c.stopping && IsRun(n, steps) && After(n, steps).status != Crashed
    ensures After(n, steps).c.stopping
    decreases |steps|
  {
    if steps != [] {
      var n1 := Next(n, steps[0]);
      FirstSurvives(n, steps);
      StepInvariant(n, steps[0], n1);
      StopsForGood(n, steps[0], n1);
      StoppedForGood(n1, steps[1..]);
    }
  }

  /** A run that does not end in the shutdown has not begun with it either. */
  lemma NotStoppedYet(n: Node, steps: seq<Step>)
    requires Invariant(n) && IsRun(n, steps) && steps != []
    requires After(n, steps).status != Crashed && !After(n, steps).c.stopping
    ensures var n1 := Next(n, steps[0]);
      !n.c.stopping && n1.status != Crashed && !n1.c.stopping && Invariant(n1)
  {
    FirstSurvives(n, steps);
    StepInvariant(n, steps[0], Next(n, steps[0]));
    if n.c.stopping {
      StoppedForGood(n, steps);
    }
    if Next(n, steps[0]).c.stopping {
      StoppedForGood(Next(n, steps[0]), steps[1..]);
    }
  }

  lemma {:induction false} RunBalance(n: Node, steps: seq<Step>, p: Peer)
    requires Invariant(n) && IsRun(n, steps) && After(n, steps).status != Crashed && !After(n, steps).c.stopping
    ensures Surplus(After(n, steps), p) == Surplus(n, p) + Leaked(n, steps)[p]
    decreases |steps|
  {
    hide Surplus, LeakedIn;
    if steps != [] {
      var n1, rest := Next(n, steps[0]), steps[1..];
      NotStoppedYet(n, steps);
      StepBalance(n, steps[0], n1, p);
      RunBalance(n1, rest, p);
    }
  }

  // ---- Theorems --------------------------------------------------------------------

  /** Outside the shutdown a peer's usage counter is exactly the number of leases on it that
      the Gossiper's items hold, that are granted or given back in either queue, and that
      the Gossiper has forgotten on the way. */
  lemma UsageExact(first: Node, steps: seq<Step>, n: Node, p: Peer)
    requires Reaches(first, steps, n) && n.status != Crashed && !n.c.stopping
    ensures Usage(n.c, p) == Demand(n)[p] + Leaked(first, steps)[p]
  {
    InitInvariant(first);
    RunBalance(first, steps, p);
    assert Held(first.g.list) == multiset{} && Demand(first) == multiset{};
  }

  /** So the counter tells the leases in use if and only if none was forgotten, and it is
      zero if and only if there is neither. */
  lemma UsageTellsLeasesIff(first: Node, steps: seq<Step>, n: Node, p: Peer)
    requires Reaches(first, steps, n) && n.status != Crashed && !n.c.stopping
    ensures Usage(n.c, p) == Demand(n)[p] <==> p !in Leaked(first, steps)
    ensures Usage(n.c, p) == 0 <==> p !in Demand(n) && p !in Leaked(first, steps)
  {
    UsageExact(first, steps, n, p);
  }

  // ---- A forgotten lease keeps the record ------------------------------------------

  lemma {:induction false} RunsConcat(n: Node, steps: seq<Step>, more: seq<Step>)
    requires IsRun(n, steps) && IsRun(After(n, steps), more)
    ensures IsRun(n, steps + more) && After(n, steps + more) == After(After(n, steps), more)
    decreases |steps|
  {
    hide Next, Enabled;
    if steps == [] {
      assert steps + more == more;
    } else {
      assert (steps + more)[1..] == steps[1..] + more;
      RunsConcat(Next(n, steps[0]), steps[1..], more);
    }
  }

  lemma {:induction false} RunsJoin(n: Node, steps: seq<Step>, more: seq<Step>)
    requires IsRun(n, steps) && IsRun(After(n, steps), more)
    ensures IsRun(n, steps + more) && After(n, steps + more) == After(After(n, steps), more)
    ensures Leaked(n, steps + more) == Leaked(n, steps) + Leaked(After(n, steps), more)
    decreases |steps|
  {
    hide LeakedIn, Next, Enabled;
    RunsConcat(n, steps, more);
    if steps == [] {
      assert steps + more == more;
    } else {
      assert (steps + more)[1..] == steps[1..] + more;
      RunsJoin(Next(n, steps[0]), steps[1..], more);
    }
  }

  /** Whatever happens later, before the shutdown the record of such a peer is not dropped,
      nor does its counter fall to zero. */
  lemma LeakedPeerStays(first: Node, steps: seq<Step>, n: Node, more: seq<Step>, p: Peer)
    requires Reaches(first, steps, n) && p in Leaked(first, steps) && IsRun(n, more)
    requires After(n, more).status != Crashed && !After(n, more).c.stopping
    ensures !SlotOf(After(n, more).c, p).Absent? && Usage(After(n, more).c, p) >= Leaked(first, steps)[p] > 0
  {
    RunsJoin(first, steps, more);
    UsageExact(first, steps + more, After(n, more), p);
  }

  /** A removed peer whose endpoint was not told to close waits for a lease that is in use or
      was forgotten. */
  lemma AwaitingUntold(first: Node, steps: seq<Step>, n: Node, p: Peer)
    requires Reaches(first, steps, n) && n.status != Crashed && !n.c.stopping
    requires p in n.c.awaiting && !Told(n.c, Outgoing(p))
    ensures p in Demand(n) || p in Leaked(first, steps)
  {
    ReachableInvariant(n);
    UsageExact(first, steps, n, p);
    assert p !in n.c.view && AwaitsForReason(n.c.awaiting[p]);
  }

  /** The endpoint of an outgoing peer is up and has not been told to close. */
  ghost predicate Connected(n: Node, p: Peer) {
    (forall b :: Routine(Outgoing(p), b) in n.live) && !Told(n.c, Outgoing(p))
  }

  lemma ReleaseOneTold(c: Central, q: Peer, c1: Central, p: Peer)
    requires TablesOk(c) && c1 == ReleaseOne(c, q) && Usage(c1, p) > 0
    ensures TablesOk(c1) && Usage(c, p) > 0 && (Told(c1, Outgoing(p)) <==> Told(c, Outgoing(p)))
  {
    ReleaseOneSlots(c, q, c1);
    assert p != q ==> SlotOf(c1, p) == SlotOf(c, p);
  }

  /** Only an entry whose counter runs out is told to close when leases are given back. */
  lemma {:induction false} ReleaseAllTold(c: Central, peers: seq<Peer>, c1: Central, p: Peer)
    requires TablesOk(c) && c1 == ReleaseAll(c, peers) && Usage(c1, p) > 0
    ensures Usage(c, p) > 0 && (Told(c1, Outgoing(p)) <==> Told(c, Outgoing(p)))
    decreases |peers|
  {
    if peers != [] {
      var mid := ReleaseOne(c, peers[0]);
      ReleaseOneTables(c, peers[0], mid);
      ReleaseAllTold(mid, peers[1..], c1, p);
      ReleaseOneTold(c, peers[0], mid, p);
    }
  }

  lemma CommandTold(c: Central, q: Peer, c1: Central, p: Peer)
    requires Commanded(c, q, c1)
    requires !SameSlots(c, c1) && p == q ==> (Told(c1, Outgoing(p)) <==> Told(c, Outgoing(p)))
    ensures Told(c1, Outgoing(p)) <==> Told(c, Outgoing(p))
  {
  }

  lemma RemoveTold(c: Central, q: Peer, c1: Central, p: Peer)
    requires TablesOk(c) && c1 == PeerRemoveHandler(c, q).c && Usage(c1, p) > 0
    ensures Told(c1, Outgoing(p)) <==> Told(c, Outgoing(p))
  {
    RemoveTables(c, q, c1);
    CommandTold(c, q, c1, p);
  }

  lemma AddTold(c: Central, q: Peer, c1: Central, p: Peer)
    requires TablesOk(c) && c1 == PeerAddHandler(c, q).c
    ensures Told(c1, Outgoing(p)) <==> Told(c, Outgoing(p))
  {
    AddTables(c, q, c1);
    CommandTold(c, q, c1, p);
  }

  lemma ElsewhereTold(c: Central, c1: Central, e: Endpoint, p: Peer)
    requires SameElsewhere(c, c1, e) && e != Outgoing(p)
    ensures Told(c1, Outgoing(p)) <==> Told(c, Outgoing(p))
  {
    assert Routine(Outgoing(p), true).endpoint != e;
    assert Runs(c1, Routine(Outgoing(p), true)) <==> Runs(c, Routine(Outgoing(p), true));
  }

  lemma ProbeTold(c: Central, m: Msg, draw: seq<Peer>, r: Reply, p: Peer)
    requires r == Handle(c, m, draw) && (m.ProbePeerRequest? || m.CentralProbePeerReply?)
    ensures Told(r.c, Outgoing(p)) <==> Told(c, Outgoing(p))
  {
    if m.ProbePeerRequest? {
      ProbeRequestQuiet(c, m.peer, r);
    } else {
      ProbeReplyQuiet(c, m.peer, m.alive, r);
    }
  }

  lemma CreatedTold(c: Central, q: Peer, c1: Central, p: Peer)
    requires TablesOk(c) && q in c.creating && c1 == OutgoingCreatedHandler(c, q).c && !SlotOf(c, p).Absent?
    ensures Told(c1, Outgoing(p)) <==> Told(c, Outgoing(p))
  {
    CreatedTables(c, q, c1);
    assert SlotOf(c1, p) == SlotOf(c, p);
  }

  /** A message outside the shutdown that leaves the peer in use, and reports no end of its
      goroutines, does not tell its endpoint to close. */
  lemma HandledTold(c: Central, m: Msg, draw: seq<Peer>, r: Reply, p: Peer)
    requires TablesOk(c) && Expected(c, m) && r == Handle(c, m, draw) && r.outcome != Panic && !r.c.stopping
    requires m.IncomingGossip? ==> FromOutside(m.gossip)
    requires !SlotOf(c, p).Absent? && Usage(r.c, p) > 0
    requires m.EndpointClosed? ==> m.routine.endpoint != Outgoing(p)
    ensures Told(r.c, Outgoing(p)) <==> Told(c, Outgoing(p))
  {
    hide PeerAddHandler, PeerRemoveHandler, ProbeRequestHandler, ProbeReplyHandler, OutgoingCreatedHandler,
      IncomingCreatedHandler, APICreatedHandler, EndpointClosedHandler, ReleaseAll, Told, Usage, SlotOf, Runs,
      ToOutgoing, ToIncoming, ToClient, ToGossiper, TablesOk;
    match m {
      case PeerAdd(q, _) => AddTold(c, q, r.c, p);
      case PeerRemove(q, _) => RemoveTold(c, q, r.c, p);
      case ProbePeerRequest(_) => ProbeTold(c, m, draw, r, p);
      case CentralProbePeerReply(_, _) => ProbeTold(c, m, draw, r, p);
      case OutgoingP2PCreated(q) => CreatedTold(c, q, r.c, p);
      case IncomingP2PCreated(_) => AcceptedTold(c, m, draw, r, p);
      case APIEndpointCreated(_) => AcceptedTold(c, m, draw, r, p);
      case SubClosed(_) => AcceptedTold(c, m, draw, r, p);
      case EndpointClosed(x, crashed) =>
        EndpointClosedTables(c, x, crashed, r.c);
        ElsewhereTold(c, r.c, x.endpoint, p);
      case SubCrashed(_) =>
      case RandomPeerListRequest(_, _) => RequestTables(c, draw, r.c);
      case RandomPeerListRelease(peers) => ReleaseAllTold(c, peers, r.c, p);
      case CentralCrash =>
      case CentralClose =>
      case _ => PassesOn(c, m, draw, r);
    }
  }

  lemma AcceptedTold(c: Central, m: Msg, draw: seq<Peer>, r: Reply, p: Peer)
    requires r == Handle(c, m, draw) && (m.IncomingP2PCreated? || m.APIEndpointCreated? || m.SubClosed?)
    ensures Told(r.c, Outgoing(p)) <==> Told(c, Outgoing(p))
  {
    AcceptedKeys(c, m, draw, r);
  }

  // ---- A forgotten lease keeps the connection --------------------------------------

  /** The step is not the end of one of the peer's own goroutines. */
  predicate Spares(step: Step, p: Peer) {
    step.RoutineEnds? ==> step.routine.endpoint != Outgoing(p)
  }

  /** A goroutine that lives has no report queued. */
  lemma NoReportYet(n: Node, r: Routine, crashed: bool)
    requires RoutinesMatch(n) && r in n.live
    ensures EndpointClosed(r, crashed) !in n.inbox && Runs(n.c, r)
  {
    assert n.live[r] + Closings(n.inbox, r) == Bit(Runs(n.c, r));
  }

  lemma TurnConnected(n: Node, draw: seq<Peer>, n1: Node, p: Peer)
    requires Accounting(n) && Enabled(n, CentralTurn(draw)) && n1 == AfterTurn(n, draw) && n1.status != Crashed
    requires !n.c.stopping && !n1.c.stopping && Connected(n, p) && Usage(n1.c, p) > 0
    ensures Connected(n1, p)
  {
    var r, m := Turn(n.c, n.inbox[0], draw), n.inbox[0];
    TurnTook(n, draw, r, n1);
    HeadExpected(n);
    assert m in n.inbox;
    NoReportYet(n, Routine(Outgoing(p), true), false);
    if m.EndpointClosed? && m.routine.endpoint == Outgoing(p) {
      NoReportYet(n, m.routine, m.crashed);
    }
    HandledTold(n.c, m, draw, r, p);
  }

  lemma StepConnected(n: Node, step: Step, n1: Node, p: Peer)
    requires Accounting(n) && Enabled(n, step) && n1 == Next(n, step) && n1.status != Crashed
    requires !n.c.stopping && !n1.c.stopping && Connected(n, p) && Usage(n1.c, p) > 0 && Spares(step, p)
    ensures Connected(n1, p)
  {
    hide TablesOk, Accounted, RoutinesMatch, DialsMatch, SubsMatch, ClosesWhenAsked, QueuesOk, Told, Usage, AfterTurn,
      AfterGossip;
    if step.CentralTurn? {
      TurnConnected(n, step.draw, n1, p);
    } else {
      OtherLive(n, step, n1, p);
    }
  }

  /** No other step ends a goroutine of the peer. */
  lemma OtherLive(n: Node, step: Step, n1: Node, p: Peer)
    requires Enabled(n, step) && n1 == Next(n, step) && !step.CentralTurn? && Spares(step, p)
    ensures n1.c == n.c && forall b :: Routine(Outgoing(p), b) in n.live ==> Routine(Outgoing(p), b) in n1.live
  {
    hide G.Enabled, G.Next, FromEnvironment, IsDraw;
  }

  /** Removed or not, such a peer stays connected: before the shutdown nothing tells its
      endpoint to close as long as its own goroutines do not end. */
  lemma {:induction false} LeakedPeerStaysConnected(first: Node, steps: seq<Step>, n: Node, more: seq<Step>, p: Peer)
    requires Reaches(first, steps, n) && p in Leaked(first, steps) && Connected(n, p)
    requires IsRun(n, more) && forall s :: s in more ==> Spares(s, p)
    requires After(n, more).status != Crashed && !After(n, more).c.stopping
    ensures Connected(After(n, more), p)
    decreases |more|
  {
    if more != [] {
      var s, n1 := more[0], Next(n, more[0]);
      NextStays(first, steps, n, more, p);
      assert s in more;
      StepConnected(n, s, n1, p);
      LeakedPeerStaysConnected(first, steps + [s], n1, more[1..], p);
    }
  }

  lemma NextStays(first: Node, steps: seq<Step>, n: Node, more: seq<Step>, p: Peer)
    requires Reaches(first, steps, n) && p in Leaked(first, steps) && IsRun(n, more) && more != []
    requires After(n, more).status != Crashed && !After(n, more).c.stopping
    ensures Accounting(n) && !n.c.stopping
    ensures var n1 := Next(n, more[0]);
      && n1.status != Crashed && !n1.c.stopping && Usage(n1.c, p) > 0
      && Reaches(first, steps + [more[0]], n1) && p in Leaked(first, steps + [more[0]])
  {
    var s, n1 := more[0], Next(n, more[0]);
    ReachableInvariant(n);
    NotStoppedYet(n, more);
    OneStep(n, s);
    RunsJoin(first, steps, [s]);
    LeakedPeerStays(first, steps, n, [s], p);
  }

  lemma OneStep(n: Node, s: Step)
    requires Enabled(n, s)
    ensures IsRun(n, [s]) && After(n, [s]) == Next(n, s)
  {
    assert [s][1..] == [];
    assert After(Next(n, s), []) == Next(n, s);
  }
}
