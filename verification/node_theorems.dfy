/** Properties of every run of a node, from its initial state on. */
module NodeTheorems {
  import opened Types
  import opened Messages
  import G = GossiperModel
  import I = GossiperInvariant
  import opened GossiperLease
  import opened CentralModel
  import opened CentralTables
  import opened CentralEffects
  import opened CentralLifecycle
  import opened Node
  import opened NodeAccounting
  import opened NodeLease
  import opened NodeView
  import opened NodeOrders
  import opened NodeShutdown

  ghost predicate Invariant(n: Node) {
    && Accounting(n) && Leases(n) && ViewFollows(n) && OrdersFollow(n) && Stopping(n)
    && (n.status == Running ==> n.c.total > 0)
    && (n.status == Exited ==> n.c.total == 0)
  }

  lemma InitInvariant(n: Node)
    requires Init(n)
    ensures Invariant(n)
  {
    InitAccounting(n);
    InitLeases(n);
    InitView(n);
    InitOrders(n);
    InitStopping(n);
  }

  lemma TurnStatus(n: Node, draw: seq<Peer>, n1: Node)
    requires Accounting(n) && n.c.total > 0 && n.inbox != [] && n1 == AfterTurn(n, draw) && n1.status != Crashed
    ensures n1.status == Running ==> n1.c.total > 0
    ensures n1.status == Exited ==> n1.c.total == 0
  {
    var r := Turn(n.c, n.inbox[0], draw);
    TurnTook(n, draw, r, n1);
    TurnExits(n, draw, r);
    TurnOutcome(n, draw, r, n1);
  }

  lemma TurnOutcome(n: Node, draw: seq<Peer>, r: Reply, n1: Node)
    requires n.inbox != [] && n1 == AfterTurn(n, draw) && r == Turn(n.c, n.inbox[0], draw)
    ensures n1.status == Exited <==> r.outcome == Exit
    ensures n1.status == Crashed <==> r.outcome == Panic
  {
  }

  lemma OtherStatus(n: Node, step: Step, n1: Node)
    requires Enabled(n, step) && !step.CentralTurn? && n1 == Next(n, step)
    ensures n1.status == Running && n1.c == n.c
  {
  }

  lemma StepInvariant(n: Node, step: Step, n1: Node)
    requires Invariant(n) && Enabled(n, step) && n1 == Next(n, step) && n1.status != Crashed
    ensures Invariant(n1)
  {
    StepAccounting(n, step, n1);
    StepLeases(n, step, n1);
    StepView(n, step, n1);
    StepOrders(n, step, n1);
    StepStopping(n, step, n1);
    if step.CentralTurn? {
      TurnStatus(n, step.draw, n1);
    } else {
      OtherStatus(n, step, n1);
    }
  }

  /** A node that has crashed takes no further step. */
  lemma FirstSurvives(n: Node, steps: seq<Step>)
    requires steps != [] && IsRun(n, steps) && After(n, steps).status != Crashed
    ensures Next(n, steps[0]).status != Crashed
  {
    var n1, rest := Next(n, steps[0]), steps[1..];
    assert IsRun(n1, rest) && After(n, steps) == After(n1, rest);
    assert rest == [] || n1.status == Running;
  }

  lemma {:induction false} RunInvariant(n: Node, steps: seq<Step>)
    requires Invariant(n) && IsRun(n, steps) && After(n, steps).status != Crashed
    ensures Invariant(After(n, steps))
    decreases |steps|
  {
    if steps != [] {
      var n1 := Next(n, steps[0]);
      FirstSurvives(n, steps);
      StepInvariant(n, steps[0], n1);
      RunInvariant(n1, steps[1..]);
    }
  }

  /** A state that some run from an initial state ends in. */
  ghost predicate Reachable(n: Node) {
    exists first: Node, steps: seq<Step> :: Reaches(first, steps, n)
  }

  ghost predicate Reaches(first: Node, steps: seq<Step>, n: Node) {
    Init(first) && IsRun(first, steps) && After(first, steps) == n
  }

  lemma ReachableInvariant(n: Node)
    requires Reachable(n) && n.status != Crashed
    ensures Invariant(n)
  {
    var first, steps :| Reaches(first, steps, n);
    InitInvariant(first);
    RunInvariant(first, steps);
  }

  // ---- Leases ----------------------------------------------------------------------

  /** Outside the shutdown, a peer's usage counter is at least the number of leases on it
      that the Gossiper holds or that are in either queue, and such a peer is recorded. */
  lemma UsageNeverUndercounts(n: Node, p: Peer)
    requires Reachable(n) && n.status != Crashed && !n.c.stopping
    ensures 0 <= Held(n.g.list)[p] + Granted(n.gin)[p] + Released(n.inbox)[p] + Released(n.gout)[p] <= Usage(n.c, p)
    ensures p in Demand(n) ==> p in n.c.view || p in n.c.awaiting
  {
    ReachableInvariant(n);
    assert Demand(n)[p] <= Usage(n.c, p);
    if p in Demand(n) {
      LeasedPeerRecorded(n, p);
    }
  }

  /** Whenever a push reaches the Central controller its target is still recorded, and a
      release never names a peer whose record is gone. */
  lemma QueueHeadsFindTheirPeers(n: Node)
    requires Reachable(n) && n.status != Crashed && !n.c.stopping && n.inbox != []
    ensures n.inbox[0].GossipPush? ==> n.inbox[0].to in n.c.view || n.inbox[0].to in n.c.awaiting
    ensures n.inbox[0].RandomPeerListRelease? ==> NeverMisses(n.c, n.inbox[0].peers)
  {
    ReachableInvariant(n);
    if n.inbox[0].GossipPush? {
      PushFindsPeer(n);
    } else if n.inbox[0].RandomPeerListRelease? {
      ReleaseFindsPeers(n);
    }
  }

  // ---- Accounting ------------------------------------------------------------------

  /** The counter is the number of submodules and endpoint goroutines not yet recorded as
      closed, and each goroutine recorded as running lives or has one report queued. */
  lemma GoroutinesAccounted(n: Node, r: Routine)
    requires Reachable(n) && n.status != Crashed
    ensures n.c.total == |n.c.subs| + |RunningSet(n.c)|
    ensures Runs(n.c, r) <==> (r in n.live || EndpointClosed(r, true) in n.inbox || EndpointClosed(r, false) in n.inbox)
    ensures n.live[r] + Closings(n.inbox, r) <= 1
  {
    ReachableInvariant(n);
    assert n.live[r] + Closings(n.inbox, r) == Bit(Runs(n.c, r));
  }

  /** An outgoing peer is in one table at most, and a finished dial finds its registration
      and no record that it would overwrite. */
  lemma OneEndpointPerPeer(n: Node, p: Peer)
    requires Reachable(n) && n.status != Crashed
    ensures Disjoint(n.c)
    ensures p in n.c.creating <==> p in n.dials || OutgoingP2PCreated(p) in n.inbox
    ensures n.dials[p] + multiset(n.inbox)[OutgoingP2PCreated(p)] <= 1
    ensures n.inbox != [] && n.inbox[0] == OutgoingP2PCreated(p) ==> p in n.c.creating && SlotOf(n.c, p).Absent?
  {
    ReachableInvariant(n);
    assert n.dials[p] + multiset(n.inbox)[OutgoingP2PCreated(p)] == Bit(p in n.c.creating);
  }

  // ---- The view --------------------------------------------------------------------

  lemma ViewFollowsCommands(n: Node, p: Peer)
    requires Reachable(n) && n.status != Crashed && !n.c.stopping && !Pending(n.inbox, p)
    ensures (Intends(PlaceOf(n.c, p)) <==> p in n.wanted) <==> p !in n.clobbered
  {
    ReachableInvariant(n);
    IntendedIff(n, p);
  }

  /** The same for the commands of the Membership controller alone: the controller is on
      course to use exactly the peers that it was last told to add, except precisely those
      whose command was either overtaken or overwritten, but not both. */
  lemma ViewFollowsOrders(n: Node, p: Peer)
    requires Reachable(n) && n.status != Crashed && !n.c.stopping && !Pending(n.inbox, p)
    ensures (Intends(PlaceOf(n.c, p)) <==> p in n.ordered) <==> (p in n.overtaken <==> p in n.clobbered)
  {
    ReachableInvariant(n);
    IntendedIff(n, p);
    OrderedIff(n, p);
  }

  /** The turns that let a command be overtaken, and those that settle the matter. */
  lemma OvertakenWhen(n: Node, draw: seq<Peer>, p: Peer)
    requires Reachable(n) && Enabled(n, CentralTurn(draw)) && AfterTurn(n, draw).status != Crashed
    requires !n.c.stopping && !AfterTurn(n, draw).c.stopping
    ensures var m, rest := n.inbox[0], n.inbox[1..];
      p in AfterTurn(n, draw).overtaken <==>
        if p in n.overtaken then !Settles(n.c, m, rest, p) else Overtakes(n.c, m, rest, p)
  {
    hide Overtakes, Settles;
    ReachableInvariant(n);
    var r, n1 := Turn(n.c, n.inbox[0], draw), AfterTurn(n, draw);
    TurnTook(n, draw, r, n1);
    TurnEffect(n, draw, r);
    TurnLives(n, draw, r);
    TurnRecollects(n, draw, r, n1);
    OvertakenByTurn(n, n.inbox[0], n.inbox[1..], r.self, p);
  }

  // ---- Push requests ---------------------------------------------------------------

  /** All push requests in the queue carry pointers. */
  ghost predicate OnlyPointers(q: seq<Msg>) {
    forall m :: m in q && m.MembershipPushRequest? ==> !m.isValue
  }

  lemma TurnPointers(n: Node, draw: seq<Peer>, n1: Node)
    requires Accounting(n) && OnlyPointers(n.inbox) && n.inbox != [] && n1 == AfterTurn(n, draw)
    requires n1.status != Crashed
    ensures OnlyPointers(n1.inbox)
  {
    var r := Turn(n.c, n.inbox[0], draw);
    TurnTook(n, draw, r, n1);
    TurnEffect(n, draw, r);
    RestQueued(n.inbox);
  }

  lemma StepPointers(n: Node, step: Step, n1: Node)
    requires Accounting(n) && OnlyPointers(n.inbox) && Enabled(n, step) && n1 == Next(n, step)
    requires n1.status != Crashed
    ensures OnlyPointers(n1.inbox)
  {
    hide TablesOk, Accounted, RoutinesMatch, DialsMatch, SubsMatch, ClosesWhenAsked, QueuesOk, AfterTurn, AfterGossip;
    if step.CentralTurn? {
      TurnPointers(n, step.draw, n1);
    } else {
      var more := OtherStepAppends(n, step, n1);
    }
  }

  lemma {:induction false} RunPointers(n: Node, steps: seq<Step>)
    requires Invariant(n) && OnlyPointers(n.inbox) && IsRun(n, steps) && After(n, steps).status != Crashed
    ensures OnlyPointers(After(n, steps).inbox)
    decreases |steps|
  {
    if steps != [] {
      var n1 := Next(n, steps[0]);
      FirstSurvives(n, steps);
      StepInvariant(n, steps[0], n1);
      StepPointers(n, steps[0], n1);
      RunPointers(n1, steps[1..]);
    }
  }

  /** No push request of the Membership controller is ever passed on to a peer: each reaches
      the Central controller as a pointer, which has no effect; the request itself would be
      sent to a peer whose writer runs. */
  lemma PushRequestsAreLost(n: Node, draw: seq<Peer>)
    requires Reachable(n) && Enabled(n, CentralTurn(draw)) && n.inbox[0].MembershipPushRequest?
    ensures Turn(n.c, n.inbox[0], draw) == Quiet(n.c)
    ensures var m := n.inbox[0].(isValue := true);
      !n.c.stopping && Runs(n.c, Routine(Outgoing(m.to), false)) ==>
        Turn(n.c, m, draw).sent == [Sent(Outgoing(m.to), m)]
  {
    hide Reachable, Turn, Runs;
    ReachablePointers(n);
    PointerIgnored(n.c, n.inbox[0], draw);
    ValuePassed(n.c, n.inbox[0].(isValue := true), draw);
  }

  lemma ReachablePointers(n: Node)
    requires Reachable(n) && n.status != Crashed
    ensures OnlyPointers(n.inbox)
  {
    hide Turn, OnlyPointers;
    var first, steps :| Reaches(first, steps, n);
    InitInvariant(first);
    InitPointers(first);
    RunPointers(first, steps);
  }

  lemma InitPointers(n: Node)
    requires Init(n)
    ensures OnlyPointers(n.inbox)
  {
  }

  lemma PointerIgnored(c: Central, m: Msg, draw: seq<Peer>)
    requires m.MembershipPushRequest? && !m.isValue
    ensures Turn(c, m, draw) == Quiet(c)
  {
  }

  lemma ValuePassed(c: Central, m: Msg, draw: seq<Peer>)
    requires m.MembershipPushRequest? && m.isValue
    ensures !c.stopping && Runs(c, Routine(Outgoing(m.to), false)) ==>
      Turn(c, m, draw).sent == [Sent(Outgoing(m.to), m)]
  {
    PassedIffWriterRuns(c, m, draw, Handle(c, m, draw));
  }

  // ---- Removal ---------------------------------------------------------------------

  lemma RemovalFollowsProtocol(n: Node, draw: seq<Peer>, p: Peer)
    requires Reachable(n) && Enabled(n, CentralTurn(draw))
    requires AfterTurn(n, draw).status != Crashed && !AfterTurn(n, draw).c.stopping
    requires !SlotOf(n.c, p).Absent? && SlotOf(AfterTurn(n, draw).c, p).Absent?
    ensures GoneForGood(n, AfterTurn(n, draw), p)
  {
    ReachableInvariant(n);
    RemovalProtocol(n, draw, AfterTurn(n, draw), p);
  }

  /** Why an entry awaits removal. */
  lemma AwaitingForReason(n: Node, p: Peer)
    requires Reachable(n) && n.status != Crashed && p in n.c.awaiting
    ensures n.c.awaiting[p].usage > 0 ||
      (Told(n.c, Outgoing(p)) && (Runs(n.c, Routine(Outgoing(p), true)) || Runs(n.c, Routine(Outgoing(p), false))))
  {
    hide Leases, ViewFollows, OrdersFollow, Stopping, RoutinesMatch, DialsMatch, SubsMatch, ClosesWhenAsked, QueuesOk,
      Accounted, AcceptedRun, Reachable;
    ReachableInvariant(n);
    assert p !in n.c.view;
  }

  // ---- Shutdown --------------------------------------------------------------------

  lemma EverythingToldToStop(n: Node, r: Routine)
    requires Reachable(n) && n.status != Crashed && n.c.stopping
    ensures r in n.live ==> IsClosing(n.c, n.inbox, r.endpoint)
    ensures n.status == Running ==> CanProgress(n)
  {
    ReachableInvariant(n);
    assert n.live[r] + Closings(n.inbox, r) == Bit(Runs(n.c, r));
    if n.status == Running {
      ShutdownProgress(n);
    }
  }

  /** Number of reports that the Central controller handles during these steps. */
  ghost function Reports(n: Node, steps: seq<Step>): nat
    requires IsRun(n, steps)
    decreases |steps|
  {
    if steps == [] then 0
    else Bit(steps[0].CentralTurn? && IsReport(n.inbox[0])) + Reports(Next(n, steps[0]), steps[1..])
  }

  lemma StepPotential(n: Node, step: Step, n1: Node)
    requires Invariant(n) && n.c.stopping && Enabled(n, step) && n1 == Next(n, step) && n1.status != Crashed
    ensures Potential(n1.c) == Potential(n.c) - Bit(step.CentralTurn? && IsReport(n.inbox[0])) && n1.c.stopping
  {
    if step.CentralTurn? {
      var r := Turn(n.c, n.inbox[0], step.draw);
      TurnTook(n, step.draw, r, n1);
      TurnEffect(n, step.draw, r);
      StopTurnPotential(n, step.draw, r);
    } else {
      OtherStatus(n, step, n1);
    }
  }

  /** From the beginning of the shutdown the reports handled and those outstanding add up
      to a constant, so the shutdown is bounded. */
  lemma {:induction false} ShutdownBounded(n: Node, steps: seq<Step>)
    requires Invariant(n) && n.c.stopping && IsRun(n, steps) && After(n, steps).status != Crashed
    ensures Reports(n, steps) + Potential(After(n, steps).c) == Potential(n.c)
    ensures Reports(n, steps) <= Potential(n.c)
    decreases |steps|
  {
    RunInvariant(n, steps);
    PotentialNat(After(n, steps));
    if steps != [] {
      var n1 := Next(n, steps[0]);
      FirstSurvives(n, steps);
      StepInvariant(n, steps[0], n1);
      StepPotential(n, steps[0], n1);
      ShutdownBounded(n1, steps[1..]);
    }
  }

  lemma PotentialNat(n: Node)
    requires Invariant(n)
    ensures Potential(n.c) >= 0
  {
    assert Accounted(n.c);
  }

  /** The event loop has ended cleanly exactly when nothing is left to wait for. */
  lemma ExitedWhenDone(n: Node)
    requires Reachable(n) && n.status != Crashed
    ensures n.status == Exited <==> n.c.total == 0
    ensures n.status == Exited ==>
      && n.c.stopping && n.c.subs == {} && n.c.incoming == map[] && n.c.clients == map[]
      && n.live == multiset{} && n.alive == {}
  {
    ReachableInvariant(n);
    if n.status == Exited {
      NothingLeft(n.c);
      if !n.c.stopping {
        RunningCounts(n);
      }
      NobodyLeft(n);
    }
  }

  lemma NobodyLeft(n: Node)
    requires RoutinesMatch(n) && SubsMatch(n) && n.c.subs == {} && forall r :: !Runs(n.c, r)
    ensures n.live == multiset{} && n.alive == {}
  {
    forall r ensures n.live[r] == 0 {
      assert n.live[r] + Closings(n.inbox, r) == Bit(Runs(n.c, r));
    }
    forall s ensures s !in n.alive {
      assert Bit(s in n.alive) + Endings(n.inbox, s) + Endings(n.gout, s) == Bit(s in n.c.subs);
    }
  }

  /** The message to close has been handled during these steps. */
  ghost predicate HandlesClose(n: Node, steps: seq<Step>)
    requires IsRun(n, steps)
    decreases |steps|
  {
    steps != [] &&
    ((steps[0].CentralTurn? && n.inbox[0].CentralClose?) || HandlesClose(Next(n, steps[0]), steps[1..]))
  }

  lemma HandlesCloseFirst(n: Node, steps: seq<Step>)
    requires IsRun(n, steps) && steps != []
    requires (steps[0].CentralTurn? && n.inbox[0].CentralClose?) || HandlesClose(Next(n, steps[0]), steps[1..])
    ensures HandlesClose(n, steps)
  {
  }

  lemma {:induction false} StopsOnlyWhenClosed(n: Node, steps: seq<Step>)
    requires Invariant(n) && IsRun(n, steps) && After(n, steps).status != Crashed
    requires !n.c.stopping && After(n, steps).c.stopping
    ensures HandlesClose(n, steps)
    decreases |steps|
  {
    assert steps != [];
    var n1 := Next(n, steps[0]);
    FirstSurvives(n, steps);
    StepInvariant(n, steps[0], n1);
    if n1.c.stopping {
      StepStops(n, steps[0], n1);
    } else {
      StopsOnlyWhenClosed(n1, steps[1..]);
    }
    HandlesCloseFirst(n, steps);
  }

  lemma StepStops(n: Node, step: Step, n1: Node)
    requires Invariant(n) && Enabled(n, step) && n1 == Next(n, step) && n1.status != Crashed
    requires !n.c.stopping && n1.c.stopping
    ensures step.CentralTurn? && n.inbox[0].CentralClose?
  {
    if step.CentralTurn? {
      var r := Turn(n.c, n.inbox[0], step.draw);
      TurnTook(n, step.draw, r, n1);
      TurnEffect(n, step.draw, r);
    } else {
      OtherStatus(n, step, n1);
    }
  }

  /** If submodules close only when asked, a node never exits before it is told to. */
  lemma NeverExitsUnasked(n: Node, steps: seq<Step>)
    requires Init(n) && IsRun(n, steps) && After(n, steps).status == Exited
    ensures HandlesClose(n, steps)
  {
    InitInvariant(n);
    assert Reaches(n, steps, After(n, steps));
    ExitedWhenDone(After(n, steps));
    StopsOnlyWhenClosed(n, steps);
  }

  /** The process dies on exactly the messages that kill it. */
  lemma PanicIff(n: Node, draw: seq<Peer>)
    requires Reachable(n) && Enabled(n, CentralTurn(draw))
    ensures AfterTurn(n, draw).status == Crashed <==> Kills(n.c, n.inbox[0])
    ensures AfterTurn(n, draw).status == Exited <==> !Kills(n.c, n.inbox[0]) && AfterTurn(n, draw).c.total == 0
  {
    ReachableInvariant(n);
    var r := Turn(n.c, n.inbox[0], draw);
    TurnPanics(n, draw, r);
    TurnOutcome(n, draw, r, AfterTurn(n, draw));
    if r.outcome != Panic {
      TurnTook(n, draw, r, AfterTurn(n, draw));
      TurnExits(n, draw, r);
    }
  }

  // ---- The Gossiper inside the node ------------------------------------------------

  lemma StepGossiper(n: Node, step: Step, n1: Node)
    requires I.Inv(n.g) && Enabled(n, step) && n1 == Next(n, step)
    ensures I.Inv(n1.g)
  {
    hide I.Inv;
    if step.GossiperHandles? {
      I.StepInv(n.g, G.Handle(n.gin[0], step.clients, step.items));
    } else if step.GossiperRound? {
      I.StepInv(n.g, step.round);
    }
  }

  lemma {:induction false} RunGossiper(n: Node, steps: seq<Step>)
    requires I.Inv(n.g) && IsRun(n, steps)
    ensures I.Inv(After(n, steps).g)
    decreases |steps|
  {
    if steps != [] {
      StepGossiper(n, steps[0], Next(n, steps[0]));
      RunGossiper(Next(n, steps[0]), steps[1..]);
    }
  }

  /** Whatever the rest of the node does, the Gossiper's tables stay in order from the start. */
  lemma GossiperStaysInOrder(n: Node, steps: seq<Step>)
    requires Init(n) && I.ValidConfig(n.g.cfg) && IsRun(n, steps)
    ensures I.Inv(After(n, steps).g)
  {
    I.InitialInv(n.g);
    RunGossiper(n, steps);
  }
}
