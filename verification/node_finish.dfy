/** From which states of the shutdown a node can still exit cleanly. */
module NodeFinish {
  import opened Types
  import opened Messages
  import G = GossiperModel
  import opened CentralModel
  import opened CentralTables
  import opened CentralEffects
  import opened CentralLifecycle
  import opened Node
  import opened NodeAccounting
  import opened NodeOrders
  import opened NodeShutdown
  import opened NodeTheorems
  import opened NodeLeaks

  /** These steps lead to a clean exit. */
  ghost predicate Finishes(n: Node, steps: seq<Step>) {
    IsRun(n, steps) && After(n, steps).status == Exited
  }

  ghost predicate CanFinish(n: Node) {
    exists steps :: Finishes(n, steps)
  }

  /** A submodule's crash is on its way to the Central controller. */
  ghost predicate CrashQueued(n: Node) {
    exists s :: SubCrashed(s) in n.inbox || SubCrashed(s) in n.gout
  }

  /** Clients are left for whose end the Gossiper's pointer is needed. */
  predicate ClientsStranded(n: Node) {
    Gossip !in n.c.subs && n.c.clients != map[]
  }

  ghost predicate Doomed(n: Node) {
    CrashQueued(n) || ClientsStranded(n)
  }

  // ---- No way out ------------------------------------------------------------------

  lemma OutgoingKeepsClients(c: Central, p: Peer, isReader: bool, crashed: bool, r: Reply)
    requires TablesOk(c) && Runs(c, Routine(Outgoing(p), isReader))
    requires r == OutgoingClosedHandler(c, p, isReader, crashed)
    ensures r.c.clients == c.clients
  {
    OutgoingClosedSlot(c, p, isReader, crashed, r.c);
  }

  lemma APIKeepsClients(c: Central, cl: Client, isReader: bool, crashed: bool, r: Reply)
    requires r == APIClosedHandler(c, cl, isReader, crashed) && Gossip !in c.subs && r.outcome != Panic
    ensures r.c.clients.Keys == c.clients.Keys
  {
    hide StoppedClient, ExitIfDone;
  }

  lemma ClosedKeepsClients(c: Central, x: Routine, crashed: bool, r: Reply)
    requires TablesOk(c) && Runs(c, x) && r == EndpointClosedHandler(c, x, crashed)
    requires Gossip !in c.subs && r.outcome != Panic
    ensures r.c.clients.Keys == c.clients.Keys
  {
    match x.endpoint
    case Outgoing(p) => OutgoingKeepsClients(c, p, x.isReader, crashed, r);
    case Incoming(p) => IncomingClosedKeys(c, p, x.isReader, crashed, r);
    case API(cl) => APIKeepsClients(c, cl, x.isReader, crashed, r);
  }

  lemma AcceptedClients(c: Central, m: Msg, draw: seq<Peer>, r: Reply)
    requires r == Handle(c, m, draw) && (m.IncomingP2PCreated? || m.APIEndpointCreated? || m.SubClosed?)
    ensures c.clients.Keys <= r.c.clients.Keys && r.c.subs <= c.subs
    ensures c.stopping ==> r.c.clients == c.clients
  {
  }

  /** Clients leave the table only with their last goroutine, which the process does not
      survive once the Gossiper's pointer is gone. */
  lemma ClientsStay(c: Central, m: Msg, draw: seq<Peer>, r: Reply)
    requires TablesOk(c) && Expected(c, m) && r == Handle(c, m, draw) && r.outcome != Panic
    requires Gossip !in c.subs && (m.IncomingGossip? ==> FromOutside(m.gossip))
    ensures c.clients.Keys <= r.c.clients.Keys
  {
    hide PeerAddHandler, PeerRemoveHandler, ProbeRequestHandler, ProbeReplyHandler, OutgoingCreatedHandler,
      IncomingCreatedHandler, APICreatedHandler, EndpointClosedHandler, ReleaseAll, ToOutgoing, ToIncoming, ToClient,
      ToGossiper, SubClosedHandler, TablesOk;
    match m {
      case PeerAdd(p, _) => AddTables(c, p, r.c);
      case PeerRemove(p, _) => RemoveTables(c, p, r.c);
      case ProbePeerRequest(p) => ProbeTables(c, p, r.c);
      case CentralProbePeerReply(p, alive) => ProbeReplyTables(c, p, alive, r.c);
      case OutgoingP2PCreated(p) => CreatedTables(c, p, r.c);
      case IncomingP2PCreated(_) => AcceptedClients(c, m, draw, r);
      case APIEndpointCreated(_) => AcceptedClients(c, m, draw, r);
      case SubClosed(_) => AcceptedClients(c, m, draw, r);
      case EndpointClosed(x, crashed) => ClosedKeepsClients(c, x, crashed, r);
      case SubCrashed(_) =>
      case RandomPeerListRequest(_, _) =>
      case RandomPeerListRelease(peers) => ReleaseAllTables(c, peers, r.c);
      case CentralCrash =>
      case CentralClose =>
      case _ => PassesOn(c, m, draw, r);
    }
  }

  lemma TurnStranded(n: Node, draw: seq<Peer>, n1: Node)
    requires Accounting(n) && ClientsStranded(n) && n.inbox != [] && n1 == AfterTurn(n, draw) && n1.status != Crashed
    ensures ClientsStranded(n1)
  {
    var r := Turn(n.c, n.inbox[0], draw);
    TurnTook(n, draw, r, n1);
    TurnEffect(n, draw, r);
    HeadExpected(n);
    assert n.inbox[0] in n.inbox;
    if !IsDropped(n.c, n.inbox[0]) {
      ClientsStay(n.c, n.inbox[0], draw, r);
    }
  }

  lemma TurnCrashQueued(n: Node, draw: seq<Peer>, n1: Node)
    requires Accounting(n) && CrashQueued(n) && n.inbox != [] && n1 == AfterTurn(n, draw) && n1.status != Crashed
    ensures CrashQueued(n1)
  {
    var r := Turn(n.c, n.inbox[0], draw);
    TurnTook(n, draw, r, n1);
    TurnEffect(n, draw, r);
    QueueWithout(n.inbox, r.self);
    var s :| SubCrashed(s) in n.inbox || SubCrashed(s) in n.gout;
    assert SubCrashed(s) in n1.inbox || SubCrashed(s) in n1.gout;
  }

  /** Other steps keep what is on its way to the Central controller on its way. */
  lemma OtherKeepsQueued(n: Node, step: Step, n1: Node, m: Msg)
    requires Enabled(n, step) && !step.CentralTurn? && n1 == Next(n, step) && (m in n.inbox || m in n.gout)
    ensures n1.c == n.c && (m in n1.inbox || m in n1.gout)
  {
    hide G.Enabled, G.Next, FromEnvironment;
    if step.GossiperSends? {
      assert n.gout == [n.gout[0]] + n.gout[1..];
    }
  }

  lemma OtherSameCentral(n: Node, step: Step, n1: Node)
    requires Enabled(n, step) && !step.CentralTurn? && n1 == Next(n, step)
    ensures n1.c == n.c
  {
    OtherStatus(n, step, n1);
  }

  lemma StepDoomed(n: Node, step: Step, n1: Node)
    requires Accounting(n) && Doomed(n) && Enabled(n, step) && n1 == Next(n, step) && n1.status != Crashed
    ensures Doomed(n1)
  {
    hide TablesOk, Accounted, RoutinesMatch, DialsMatch, SubsMatch, ClosesWhenAsked, QueuesOk, AfterTurn, AfterGossip;
    if step.CentralTurn? {
      if ClientsStranded(n) {
        TurnStranded(n, step.draw, n1);
      } else {
        TurnCrashQueued(n, step.draw, n1);
      }
    } else {
      OtherSameCentral(n, step, n1);
      if CrashQueued(n) {
        var s :| SubCrashed(s) in n.inbox || SubCrashed(s) in n.gout;
        OtherKeepsQueued(n, step, n1, SubCrashed(s));
      }
    }
  }

  /** A node that has exited has none of these. */
  lemma ExitedNotDoomed(n: Node)
    requires Invariant(n) && n.status == Exited
    ensures !Doomed(n)
  {
    NothingLeft(n.c);
    forall s ensures SubCrashed(s) !in n.inbox && SubCrashed(s) !in n.gout {
      assert Bit(s in n.alive) + Endings(n.inbox, s) + Endings(n.gout, s) == Bit(s in n.c.subs);
    }
  }

  lemma {:induction false} DoomedNeverFinishes(n: Node, steps: seq<Step>)
    requires Invariant(n) && Doomed(n) && IsRun(n, steps)
    ensures After(n, steps).status != Exited
    decreases |steps|
  {
    hide Doomed, Invariant;
    if steps == [] {
      if n.status == Exited {
        ExitedNotDoomed(n);
      }
    } else if After(n, steps).status != Crashed {
      var n1 := Next(n, steps[0]);
      FirstSurvives(n, steps);
      StepInvariant(n, steps[0], n1);
      KeepsDoomed(n, steps[0], n1);
      DoomedNeverFinishes(n1, steps[1..]);
    }
  }

  lemma KeepsDoomed(n: Node, step: Step, n1: Node)
    requires Invariant(n) && Doomed(n) && Enabled(n, step) && n1 == Next(n, step) && n1.status != Crashed
    ensures Doomed(n1)
  {
    StepDoomed(n, step, n1);
  }

  // ---- The way out -----------------------------------------------------------------

  /** Nothing that would kill the process is on its way, and while there are clients the
      Gossiper's report of its end is not queued yet. */
  ghost predicate Hopeful(n: Node) {
    && n.c.stopping && !CrashQueued(n) && CentralCrash !in n.inbox
    && (n.c.clients == map[] || (Gossip in n.c.subs && SubClosed(Gossip) !in n.inbox))
  }

  /** Fewer reports outstanding; or as many, and fewer messages for the Gossiper; or as many,
      and fewer from it; and so on for goroutines and for messages to the Central controller. */
  ghost predicate Smaller(n1: Node, n: Node) {
    || Potential(n1.c) < Potential(n.c)
    || (Potential(n1.c) == Potential(n.c) &&
         (|n1.gin| < |n.gin| || (|n1.gin| == |n.gin| &&
           (|n1.gout| < |n.gout| || (|n1.gout| == |n.gout| &&
             (Left(n1) < Left(n) || (Left(n1) == Left(n) && |n1.inbox| < |n.inbox|)))))))
  }

  ghost function Left(n: Node): nat {
    |n.live| + |n.alive|
  }

  // ---- Turns -----------------------------------------------------------------------

  /** A message that is no report has no consequences during the shutdown. */
  lemma QuietTurn(c: Central, m: Msg, draw: seq<Peer>, r: Reply)
    requires c.stopping && !IsReport(m) && r == Turn(c, m, draw) && r.outcome != Panic
    ensures r.self == [] && r.gossiper == [] && r.started == multiset{}
  {
    hide RemoveIfUnused;
    if m.PeerRemove? {
      RemoveQuiet(c, m.peer, r);
    }
  }

  lemma APIShrinksClients(c: Central, cl: Client, isReader: bool, crashed: bool, r: Reply)
    requires r == APIClosedHandler(c, cl, isReader, crashed) && cl in c.clients
    ensures r.c.clients.Keys <= c.clients.Keys
  {
    hide StoppedClient, ExitIfDone;
  }

  /** No client is accepted during the shutdown. */
  lemma StopClients(c: Central, m: Msg, draw: seq<Peer>, r: Reply)
    requires TablesOk(c) && Expected(c, m) && c.stopping && IsStopMessage(m)
    requires r == Handle(c, m, draw) && r.outcome != Panic
    ensures r.c.clients.Keys <= c.clients.Keys
  {
    hide PeerRemoveHandler, OutgoingCreatedHandler, IncomingCreatedHandler, APICreatedHandler, OutgoingClosedHandler,
      IncomingClosedHandler, APIClosedHandler, SubClosedHandler, TablesOk;
    match m {
      case PeerRemove(p, _) => RemoveTables(c, p, r.c);
      case OutgoingP2PCreated(p) => CreatedTables(c, p, r.c);
      case EndpointClosed(x, crashed) =>
        match x.endpoint {
          case Outgoing(p) => OutgoingKeepsClients(c, p, x.isReader, crashed, r);
          case Incoming(p) => IncomingClosedKeys(c, p, x.isReader, crashed, r);
          case API(cl) => APIShrinksClients(c, cl, x.isReader, crashed, r);
        }
      case SubCrashed(_) =>
      case CentralCrash =>
      case _ => AcceptedClients(c, m, draw, r);
    }
  }

  lemma HeadSurvives(n: Node)
    requires Invariant(n) && Hopeful(n) && n.inbox != []
    ensures !Kills(n.c, n.inbox[0])
  {
    HeadExpected(n);
    assert n.inbox[0] in n.inbox;
  }

  lemma TurnPotential(n: Node, draw: seq<Peer>, r: Reply)
    requires Invariant(n) && n.c.stopping && n.inbox != [] && r == Turn(n.c, n.inbox[0], draw) && r.outcome != Panic
    ensures Potential(r.c) == Potential(n.c) - Bit(IsReport(n.inbox[0])) && r.c.stopping
  {
    TurnEffect(n, draw, r);
    StopTurnPotential(n, draw, r);
  }

  lemma TurnSmaller(n: Node, draw: seq<Peer>, r: Reply, n1: Node)
    requires Took(n, r, n1) && Potential(r.c) == Potential(n.c) - Bit(IsReport(n.inbox[0]))
    requires !IsReport(n.inbox[0]) ==> r.self == [] && r.gossiper == [] && r.started == multiset{}
    ensures Smaller(n1, n)
  {
    if !IsReport(n.inbox[0]) {
      assert n1.gin == n.gin && n1.live == n.live && n1.inbox == n.inbox[1..];
    }
  }

  /** A turn queues nothing but commands. */
  lemma TurnQueuesNoEnd(n: Node, r: Reply, n1: Node)
    requires Hopeful(n) && Took(n, r, n1) && ToItself(r.self)
    ensures !CrashQueued(n1) && CentralCrash !in n1.inbox
    ensures SubClosed(Gossip) in n1.inbox ==> SubClosed(Gossip) in n.inbox
  {
    RestQueued(n.inbox);
  }

  lemma TurnClients(c: Central, m: Msg, draw: seq<Peer>, r: Reply)
    requires TablesOk(c) && Expected(c, m) && c.stopping && r == Turn(c, m, draw) && r.outcome != Panic
    requires SubsEffect(c, m, r)
    ensures c.clients == map[] ==> r.c.clients == map[]
    ensures Gossip in c.subs && m != SubClosed(Gossip) ==> Gossip in r.c.subs
  {
    hide Handle, TablesOk, Expected;
    if !IsDropped(c, m) {
      StopClients(c, m, draw, r);
    }
    assert c.clients == map[] ==> r.c.clients.Keys == {};
  }

  lemma TurnHopeful(n: Node, draw: seq<Peer>, r: Reply, n1: Node)
    requires Invariant(n) && Hopeful(n) && Took(n, r, n1) && r == Turn(n.c, n.inbox[0], draw) && r.outcome != Panic
    requires r.c.stopping && SubsEffect(n.c, n.inbox[0], r) && ToItself(r.self)
    ensures Hopeful(n1)
  {
    hide Turn, CrashQueued, SubsEffect;
    HeadExpected(n);
    TurnQueuesNoEnd(n, r, n1);
    TurnClients(n.c, n.inbox[0], draw, r);
    assert n.inbox[0] in n.inbox;
  }

  lemma TurnOnward(n: Node, draw: seq<Peer>, n1: Node)
    requires Invariant(n) && Hopeful(n) && n.inbox != [] && n1 == AfterTurn(n, draw)
    ensures n1.status != Crashed && Hopeful(n1) && Smaller(n1, n)
  {
    hide Hopeful, Smaller;
    var r := Turn(n.c, n.inbox[0], draw);
    HeadSurvives(n);
    TurnPanics(n, draw, r);
    TurnOutcome(n, draw, r, n1);
    TurnTook(n, draw, r, n1);
    TurnEffect(n, draw, r);
    HopefulStops(n);
    TurnPotential(n, draw, r);
    TurnHopeful(n, draw, r, n1);
    if !IsReport(n.inbox[0]) {
      QuietTurn(n.c, n.inbox[0], draw, r);
    }
    TurnSmaller(n, draw, r, n1);
  }

  lemma HopefulStops(n: Node)
    requires Hopeful(n)
    ensures n.c.stopping
  {
  }

  // ---- One step onward -------------------------------------------------------------

  /** A step that needs no other party and is no crash. */
  predicate IsInternal(step: Step) {
    !step.Environment? && !step.SubFails? && !(step.RoutineEnds? && step.crashed)
  }

  /** The step can be taken, keeps hope, and brings the end nearer. */
  ghost predicate Onward(n: Node, step: Step) {
    && IsInternal(step) && Enabled(n, step)
    && var n1 := Next(n, step);
       n1.status != Crashed && Hopeful(n1) && Smaller(n1, n)
  }

  lemma {:induction false} SomeOf(s: set<Peer>, k: nat) returns (xs: seq<Peer>)
    ensures Distinct(xs) && |xs| == Min(k, |s|) && forall x :: x in xs ==> x in s
    decreases k
  {
    if k == 0 || s == {} {
      xs := [];
    } else {
      var x :| x in s;
      var rest := SomeOf(s - {x}, k - 1);
      xs := rest + [x];
    }
  }

  lemma SomeDraw(n: Node) returns (draw: seq<Peer>)
    requires n.status == Running && n.inbox != []
    ensures Enabled(n, CentralTurn(draw))
  {
    var num := if n.inbox[0].RandomPeerListRequest? then n.inbox[0].num else 0;
    draw := SomeOf(n.c.view.Keys, num);
    assert |n.c.view.Keys| == |n.c.view|;
  }

  lemma {:induction false} SomeOrder<T>(s: set<T>) returns (order: seq<T>)
    ensures Enumerates(order, s)
    decreases s
  {
    if s == {} {
      order := [];
    } else {
      var x :| x in s;
      var rest := SomeOrder(s - {x});
      order := rest + [x];
      EnumeratesSnoc(rest, s - {x}, x);
      assert s - {x} + {x} == s;
    }
  }

  lemma TurnsOnward(n: Node) returns (step: Step)
    requires Invariant(n) && Hopeful(n) && n.status == Running && n.inbox != []
    ensures Onward(n, step)
  {
    hide Invariant, Hopeful, Smaller, AfterTurn, FromEnvironment;
    var draw := SomeDraw(n);
    step := CentralTurn(draw);
    TurnOnward(n, draw, AfterTurn(n, draw));
  }

  lemma OneFewer(live: multiset<Routine>, r: Routine)
    requires r in live
    ensures |live - multiset{r}| == |live| - 1
  {
    assert live == live - multiset{r} + multiset{r};
  }

  lemma EndsOnward(n: Node, r: Routine)
    requires Hopeful(n) && n.status == Running && r in n.live
    ensures Onward(n, RoutineEnds(r, false))
  {
    OneFewer(n.live, r);
  }

  /** With nothing queued, a client has a goroutine that lives. */
  lemma ClientOnward(n: Node) returns (step: Step)
    requires Accounting(n) && Hopeful(n) && n.status == Running && n.inbox == [] && n.c.clients != map[]
    ensures Onward(n, step)
  {
    hide Hopeful, Onward, Disjoint, RemovalRule, Accounted, DialsMatch, SubsMatch, ClosesWhenAsked, QueuesOk;
    var cl :| cl in n.c.clients;
    var r := Routine(API(cl), n.c.clients[cl].reader);
    assert n.c.clients[cl].reader || n.c.clients[cl].writer;
    assert Runs(n.c, r);
    assert n.live[r] + Closings(n.inbox, r) == Bit(Runs(n.c, r));
    step := RoutineEnds(r, false);
    EndsOnward(n, r);
  }

  lemma SentIsHarmless(n: Node, n1: Node)
    requires QueuesOk(n) && !CrashQueued(n) && n.inbox == [] && n.gout != []
    requires n1 == n.(inbox := [n.gout[0]], gout := n.gout[1..])
    ensures !CrashQueued(n1) && CentralCrash !in n1.inbox
  {
    var m := n.gout[0];
    assert m in n.gout && FromGossiper(m);
    assert n.gout == [m] + n.gout[1..];
    forall s ensures SubCrashed(s) !in n1.inbox && SubCrashed(s) !in n1.gout {
      assert SubCrashed(s) !in n.gout;
    }
  }

  lemma SendsOnward(n: Node)
    requires Accounting(n) && Hopeful(n) && n.status == Running && n.inbox == [] && n.c.clients == map[] && n.gout != []
    ensures Onward(n, GossiperSends)
  {
    hide TablesOk, Accounted, RoutinesMatch, DialsMatch, SubsMatch, ClosesWhenAsked, QueuesOk, CrashQueued, Potential;
    var n1 := Next(n, GossiperSends);
    assert n.inbox + [n.gout[0]] == [n.gout[0]];
    SentIsHarmless(n, n1);
  }

  lemma SubStopsOnward(n: Node, sub: Sub)
    requires Hopeful(n) && n.status == Running && n.c.clients == map[] && n.inbox == []
    requires sub in n.alive && sub in n.asked && sub != Gossip
    ensures Onward(n, SubStops(sub))
  {
    var n1 := Next(n, SubStops(sub));
    assert n1.inbox == [SubClosed(sub)];
    assert n1.alive == n.alive - {sub} && |n1.alive| == |n.alive| - 1;
  }

  lemma GossipEnabled(n: Node) returns (clients: seq<Client>, items: seq<Item>)
    requires n.status == Running && Gossip in n.alive && n.gin != []
    ensures Enabled(n, GossiperHandles(clients, items))
  {
    clients := SomeOrder(n.g.clients.Keys);
    items := SomeOrder(n.g.list.Keys);
  }

  lemma GossipOnward(n: Node, clients: seq<Client>, items: seq<Item>)
    requires Accounting(n) && Hopeful(n) && n.c.clients == map[] && Enabled(n, GossiperHandles(clients, items))
    ensures Onward(n, GossiperHandles(clients, items))
  {
    hide TablesOk, Accounted, RoutinesMatch, DialsMatch, SubsMatch, ClosesWhenAsked, Potential, FromEnvironment, IsDraw;
    var m, n1 := n.gin[0], Next(n, GossiperHandles(clients, items));
    if m == GossiperClose {
      CloseStep(n, clients, items, n.gin[1..]);
    } else {
      HandleMessages(n.g, m, clients, items);
    }
    forall s ensures SubCrashed(s) !in n1.inbox && SubCrashed(s) !in n1.gout {
      assert SubCrashed(s) !in n.inbox && SubCrashed(s) !in n.gout;
    }
  }

  /** There is always such a step. */
  lemma SomeStepOnward(n: Node) returns (step: Step)
    requires Invariant(n) && Hopeful(n) && n.status == Running
    ensures Onward(n, step)
  {
    hide Hopeful, Onward;
    if n.inbox != [] {
      step := TurnsOnward(n);
    } else if n.c.clients != map[] {
      InvariantAccounts(n);
      step := ClientOnward(n);
    } else if n.gout != [] {
      step := GossiperSends;
      InvariantAccounts(n);
      SendsOnward(n);
    } else {
      HopefulStops(n);
      ShutdownProgress(n);
      step := LastStepsOnward(n);
    }
  }

  lemma LastStepsOnward(n: Node) returns (step: Step)
    requires Invariant(n) && Hopeful(n) && n.status == Running && CanProgress(n)
    requires n.inbox == [] && n.gout == [] && n.c.clients == map[]
    ensures Onward(n, step)
  {
    hide Hopeful, Onward, Invariant, Enabled;
    if r :| r in n.live {
      step := RoutineEnds(r, false);
      EndsOnward(n, r);
    } else {
      var sub :| sub in n.alive && sub in n.asked && (sub == Gossip ==> GossiperClose in n.gin);
      if sub == Gossip {
        var clients, items := GossipEnabled(n);
        step := GossiperHandles(clients, items);
        InvariantAccounts(n);
        GossipOnward(n, clients, items);
      } else {
        step := SubStops(sub);
        SubStopsOnward(n, sub);
      }
    }
  }

  lemma InvariantAccounts(n: Node)
    requires Invariant(n)
    ensures Accounting(n)
  {
  }

  // ---- Theorems --------------------------------------------------------------------

  /** From a state of the shutdown in which nothing is on its way that kills the process,
      steps that need no other party lead to a clean exit. */
  lemma {:induction false} HopefulFinishes(n: Node) returns (steps: seq<Step>)
    requires Invariant(n) && Hopeful(n) && n.status == Running
    ensures Finishes(n, steps) && forall s :: s in steps ==> IsInternal(s)
    decreases Potential(n.c), |n.gin|, |n.gout|, Left(n), |n.inbox|
  {
    hide Hopeful, Invariant, Potential;
    var step := SomeStepOnward(n);
    var n1 := Next(n, step);
    StepInvariant(n, step, n1);
    PotentialNat(n);
    PotentialNat(n1);
    if n1.status == Running {
      var rest := HopefulFinishes(n1);
      steps := [step] + rest;
      assert steps[1..] == rest;
    } else {
      steps := [step];
      OneStep(n, step);
    }
  }

  /** With an empty queue a stopping node can still exit cleanly if and only if no crash of a
      submodule is on its way and no client is left once the Gossiper's pointer is gone. */
  lemma CanFinishIff(n: Node)
    requires Reachable(n) && n.status == Running && n.c.stopping && n.inbox == []
    ensures CanFinish(n) <==> !Doomed(n)
  {
    ReachableInvariant(n);
    if Doomed(n) {
      forall steps | IsRun(n, steps) ensures !Finishes(n, steps) {
        DoomedNeverFinishes(n, steps);
      }
    } else {
      assert Hopeful(n);
      var steps := HopefulFinishes(n);
    }
  }
}
