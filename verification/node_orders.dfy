/** How the peers that the Central controller is on course to use relate to the commands of
    the Membership controller alone, on every run. A command that the Central controller
    queues for itself may overtake one of the Membership controller that is already waiting. */
module NodeOrders {
  import opened Types
  import opened Messages
  import opened CentralModel
  import opened CentralTables
  import opened CentralEffects
  import opened CentralLifecycle
  import opened Node
  import opened NodeAccounting
  import opened NodeView

  // ---- What the queue holds in store -----------------------------------------------

  /** Whether the last command of the Membership controller (`order`) and the last command
      of all (`last`) will agree once all commands that the Central controller has queued
      for itself are processed. */
  ghost predicate Foreseen(order: bool, last: bool, q: seq<Msg>, p: Peer)
    decreases |q|
  {
    if !Pending(q, p) then order == last
    else Foreseen(if IsOrder(q[0], p) then q[0].PeerAdd? else order,
                  if IsCommand(q[0], p) then q[0].PeerAdd? else last, q[1..], p)
  }

  lemma PendingMore(q: seq<Msg>, m: Msg, p: Peer)
    ensures Pending(q + [m], p) <==> Pending(q, p) || IsSelfOrder(m, p)
  {
  }

  lemma PendingHead(q: seq<Msg>, p: Peer)
    requires q != []
    ensures Pending(q, p) <==> IsSelfOrder(q[0], p) || Pending(q[1..], p)
  {
    assert q == [q[0]] + q[1..];
  }

  /** Any other message at the end of the queue makes no difference. */
  lemma {:induction false} ForeseenMore(order: bool, last: bool, q: seq<Msg>, m: Msg, p: Peer)
    requires !IsSelfOrder(m, p)
    ensures Foreseen(order, last, q + [m], p) <==> Foreseen(order, last, q, p)
    decreases |q|
  {
    PendingMore(q, m, p);
    if Pending(q, p) {
      assert (q + [m])[1..] == q[1..] + [m];
      ForeseenMore(if IsOrder(q[0], p) then q[0].PeerAdd? else order,
                   if IsCommand(q[0], p) then q[0].PeerAdd? else last, q[1..], m, p);
    }
  }

  /** With a command of its own at the end of the queue, all depends on the last order that
      waits before it. */
  lemma {:induction false} ForeseenSelf(order: bool, last: bool, q: seq<Msg>, m: Msg, p: Peer)
    requires IsSelfOrder(m, p)
    ensures Foreseen(order, last, q + [m], p) <==> m.PeerAdd? == LatestOrder(q, p).UnwrapOr(order)
    decreases |q|
  {
    PendingMore(q, m, p);
    if q == [] {
      assert ([] + [m])[1..] == [];
      assert [] + [m] == [m];
    } else {
      assert (q + [m])[1..] == q[1..] + [m];
      ForeseenSelf(if IsOrder(q[0], p) then q[0].PeerAdd? else order,
                   if IsCommand(q[0], p) then q[0].PeerAdd? else last, q[1..], m, p);
    }
  }

  /** The commands waiting for p are the Central controller's own and repeat the last one. */
  lemma {:induction false} ForeseenRepeated(order: bool, last: bool, q: seq<Msg>, p: Peer)
    requires LatestOrder(q, p).None?
    requires forall m :: m in q && IsSelfOrder(m, p) ==> m.PeerAdd? == last
    ensures Foreseen(order, last, q, p) <==> order == last
    decreases |q|
  {
    if Pending(q, p) {
      assert q[0] in q;
      ForeseenRepeated(order, last, q[1..], p);
    }
  }

  // ---- The order of messages in the queue ------------------------------------------

  /** Once the result of a dial is queued, no command of the controller's own follows for
      that peer before it is handled; and its own removals precede the reports of the
      goroutines that they will stop. */
  predicate MayFollow(a: Msg, b: Msg) {
    && (a.OutgoingP2PCreated? ==> !IsSelfOrder(b, a.peer))
    && (a.EndpointClosed? && a.routine.endpoint.Outgoing? ==> b != PeerRemove(a.routine.endpoint.peer, true))
  }

  ghost predicate InSequence(q: seq<Msg>) {
    forall i, j :: 0 <= i < j < |q| ==> MayFollow(q[i], q[j])
  }

  /** A removal that the controller has queued for itself finds the endpoint running. */
  ghost predicate RemovalsFindRunning(n: Node) {
    forall p, b :: PeerRemove(p, true) in n.inbox ==> Runs(n.c, Routine(Outgoing(p), b))
  }

  ghost predicate OrderFollows(n: Node, p: Peer) {
    Foreseen(p in n.ordered, p in n.wanted, n.inbox, p) <==> p !in n.overtaken
  }

  ghost predicate OrdersFollow(n: Node) {
    !n.c.stopping ==>
      InSequence(n.inbox) && RemovalsFindRunning(n) && forall p :: OrderFollows(n, p)
  }

  lemma SequenceHead(q: seq<Msg>, m: Msg)
    requires InSequence(q) && q != [] && m in q[1..]
    ensures MayFollow(q[0], m) && m in q
  {
    var j :| 0 <= j < |q[1..]| && q[1..][j] == m;
    assert q[j + 1] == m;
  }

  lemma SequenceRest(q: seq<Msg>)
    requires InSequence(q) && q != []
    ensures InSequence(q[1..])
  {
    forall i, j | 0 <= i < j < |q[1..]| ensures MayFollow(q[1..][i], q[1..][j]) {
      assert MayFollow(q[i + 1], q[j + 1]);
    }
  }

  lemma SequenceMore(q: seq<Msg>, m: Msg)
    requires InSequence(q) && forall a :: a in q ==> MayFollow(a, m)
    ensures InSequence(q + [m])
  {
    forall i, j | 0 <= i < j < |q + [m]| ensures MayFollow((q + [m])[i], (q + [m])[j]) {
      if j < |q| {
        assert MayFollow(q[i], q[j]);
      } else {
        assert q[i] in q;
      }
    }
  }

  // ---- What a turn queues ----------------------------------------------------------

  lemma NotQueued(n: Node, m: Msg)
    requires multiset(n.inbox)[m] == 0
    ensures m !in n.inbox
  {
  }

  /** A peer that is not recorded has no report of its goroutines queued. */
  lemma AbsentReports(n: Node, p: Peer, b: bool, crashed: bool)
    requires Accounting(n) && p !in n.c.view && p !in n.c.awaiting
    ensures EndpointClosed(Routine(Outgoing(p), b), crashed) !in n.inbox
  {
    var r := Routine(Outgoing(p), b);
    assert !Runs(n.c, r);
    assert n.live[r] + Closings(n.inbox, r) == Bit(Runs(n.c, r));
    NotQueued(n, EndpointClosed(r, crashed));
  }

  /** The result of a dial is queued once at most, and only while the peer is being dialled. */
  lemma CreatedOnce(n: Node, p: Peer)
    requires Accounting(n) && n.inbox != []
    ensures n.inbox[0] == OutgoingP2PCreated(p) || p !in n.c.creating ==> OutgoingP2PCreated(p) !in n.inbox[1..]
  {
    var m := OutgoingP2PCreated(p);
    assert n.dials[p] + multiset(n.inbox)[m] == Bit(p in n.c.creating);
    QueueHead(n.inbox, m);
  }

  lemma RestQueued(q: seq<Msg>)
    requires q != []
    ensures forall m :: m in q[1..] ==> m in q
  {
    assert q == [q[0]] + q[1..];
  }

  lemma RemovalMayFollow(n: Node, p: Peer, a: Msg)
    requires Accounting(n) && n.inbox != [] && DialUnwanted(n.c, n.inbox[0]) && n.inbox[0].peer == p
    requires a in n.inbox[1..]
    ensures MayFollow(a, PeerRemove(p, true))
  {
    CreatedOnce(n, p);
    RestQueued(n.inbox);
    if a.EndpointClosed? && a.routine.endpoint == Outgoing(p) {
      AbsentReports(n, p, a.routine.isReader, a.crashed);
    }
  }

  lemma AddMayFollow(n: Node, p: Peer, a: Msg)
    requires Accounting(n) && n.inbox != [] && ProbeWanted(n.c, n.inbox[0]) && n.inbox[0].peer == p
    requires a in n.inbox[1..]
    ensures MayFollow(a, PeerAdd(p, true))
  {
    CreatedOnce(n, p);
  }

  lemma TurnSequence(n: Node, self: seq<Msg>)
    requires Accounting(n) && n.inbox != [] && InSequence(n.inbox) && Corrects(n.c, n.inbox[0], self)
    ensures InSequence(n.inbox[1..] + self)
  {
    var m, rest := n.inbox[0], n.inbox[1..];
    SequenceRest(n.inbox);
    if DialUnwanted(n.c, m) {
      forall a | a in rest ensures MayFollow(a, PeerRemove(m.peer, true)) {
        RemovalMayFollow(n, m.peer, a);
      }
      SequenceMore(rest, PeerRemove(m.peer, true));
    } else if ProbeWanted(n.c, m) {
      forall a | a in rest ensures MayFollow(a, PeerAdd(m.peer, true)) {
        AddMayFollow(n, m.peer, a);
      }
      SequenceMore(rest, PeerAdd(m.peer, true));
    } else {
      assert rest + self == rest;
    }
  }

  lemma CreatedRuns(c: Central, p: Peer, draw: seq<Peer>, r: Reply, b: bool)
    requires r == Turn(c, OutgoingP2PCreated(p), draw) && p in c.creating
    ensures Runs(r.c, Routine(Outgoing(p), b))
  {
  }

  lemma TurnRemovals(n: Node, draw: seq<Peer>, r: Reply, p: Peer, b: bool)
    requires n.inbox != [] && r == Turn(n.c, n.inbox[0], draw)
    requires InSequence(n.inbox) && RemovalsFindRunning(n)
    requires RunsEffect(n.c, n.inbox[0], r) && Corrects(n.c, n.inbox[0], r.self)
    requires PeerRemove(p, true) in n.inbox[1..] + r.self
    ensures Runs(r.c, Routine(Outgoing(p), b))
  {
    var m, x := n.inbox[0], Routine(Outgoing(p), b);
    if PeerRemove(p, true) in n.inbox[1..] {
      SequenceHead(n.inbox, PeerRemove(p, true));
      assert Runs(n.c, x);
      assert Bit(Runs(r.c, x)) == Bit(Runs(n.c, x)) + r.started[x] - Bit(m.EndpointClosed? && m.routine == x);
    } else {
      assert DialUnwanted(n.c, m) && m == OutgoingP2PCreated(p);
      CreatedRuns(n.c, p, draw, r, b);
    }
  }

  // ---- One peer --------------------------------------------------------------------

  /** The message at the head is a command for p. */
  lemma CommandForeseen(n: Node, r: Reply, n1: Node, p: Peer)
    requires !n.c.stopping && OrderFollows(n, p) && Recollects(n, r, n1) && r.self == [] && IsCommand(n.inbox[0], p)
    requires p in n1.wanted <==> n.inbox[0].PeerAdd?
    ensures OrderFollows(n1, p)
  {
    var m, rest := n.inbox[0], n.inbox[1..];
    assert rest + [] == rest;
    PendingHead(n.inbox, p);
    assert IsOrder(m, p) <==> !m.self;
    assert !Pending(rest, p) ==>
      (Foreseen(p in n1.ordered, p in n1.wanted, rest, p) <==> (p in n1.ordered <==> p in n1.wanted));
  }

  /** The message at the head is no command for p, and none is queued for it. */
  lemma OtherForeseen(n: Node, r: Reply, n1: Node, p: Peer)
    requires !n.c.stopping && OrderFollows(n, p) && Recollects(n, r, n1) && !IsCommand(n.inbox[0], p)
    requires p in n1.wanted <==> p in n.wanted
    requires r.self == [] || (exists q, self :: q != p && r.self == [self] && IsSelfOrder(self, q))
    ensures OrderFollows(n1, p)
  {
    var m, rest := n.inbox[0], n.inbox[1..];
    PendingHead(n.inbox, p);
    assert p in n1.ordered <==> p in n.ordered;
    assert p in n1.overtaken <==> p in n.overtaken;
    assert Foreseen(p in n.ordered, p in n.wanted, n.inbox, p) <==> Foreseen(p in n.ordered, p in n.wanted, rest, p);
    if r.self == [] {
      assert rest + r.self == rest;
    } else {
      ForeseenMore(p in n.ordered, p in n.wanted, rest, r.self[0], p);
    }
  }

  /** The controller queues a command for p, which agrees with the last one handled. */
  lemma CorrectionForeseen(n: Node, r: Reply, n1: Node, p: Peer, add: bool)
    requires !n.c.stopping && OrderFollows(n, p) && Recollects(n, r, n1) && !IsCommand(n.inbox[0], p)
    requires r.self == [if add then PeerAdd(p, true) else PeerRemove(p, true)]
    requires p in n1.wanted <==> p in n.wanted
    requires p in n.wanted <==> add
    requires forall m :: m in n.inbox[1..] && IsSelfOrder(m, p) ==> m.PeerAdd? == add
    requires p in n1.ordered <==> p in n.ordered
    requires p in n1.overtaken <==> p in OvertakenBy(n.overtaken, n.inbox[1..], p, add)
    ensures OrderFollows(n1, p)
  {
    var rest, order := n.inbox[1..], p in n.ordered;
    PendingHead(n.inbox, p);
    ForeseenSelf(order, add, rest, r.self[0], p);
    if LatestOrder(rest, p).None? {
      ForeseenRepeated(order, add, rest, p);
      assert Foreseen(order, add, n.inbox, p) <==> Foreseen(order, add, rest, p);
    }
  }

  lemma CorrectionRecalled(n: Node, m: Msg, rest: seq<Msg>, self: seq<Msg>, p: Peer, add: bool)
    requires !n.c.stopping && !m.PeerAdd? && !m.PeerRemove?
    requires self == [if add then PeerAdd(p, true) else PeerRemove(p, true)]
    ensures OrderedAfter(n, m) == n.ordered
    ensures OvertakenAfter(n, m, rest, self) == OvertakenBy(n.overtaken, rest, p, add)
  {
  }

  /** Nothing of the controller's own is waiting when a dial turns out unwanted. */
  lemma NonePendingAtDial(q: seq<Msg>, p: Peer, m: Msg)
    requires InSequence(q) && q != [] && q[0] == OutgoingP2PCreated(p) && m in q[1..]
    ensures !IsSelfOrder(m, p)
  {
    SequenceHead(q, m);
  }

  /** When a probe turns out wanted, no removal of the controller's own is waiting. */
  lemma NoRemovalAtProbe(n: Node, p: Peer)
    requires Disjoint(n.c) && RemovalsFindRunning(n) && PlaceOf(n.c, p).Probed?
    ensures PeerRemove(p, true) !in n.inbox
  {
    assert !Runs(n.c, Routine(Outgoing(p), true));
  }

  lemma TurnOrder(n: Node, r: Reply, n1: Node, p: Peer)
    requires !n.c.stopping && Accounting(n) && PeersFollow(n, p) && OrderFollows(n, p)
    requires InSequence(n.inbox) && RemovalsFindRunning(n)
    requires Recollects(n, r, n1) && Corrects(n.c, n.inbox[0], r.self)
    ensures OrderFollows(n1, p)
  {
    hide Foreseen, Accounted, RoutinesMatch, DialsMatch, SubsMatch, RemovalRule, AcceptedRun, Moves;
    var m := n.inbox[0];
    RememberedPeer(n, m, p);
    RestQueued(n.inbox);
    if IsCommand(m, p) {
      CommandForeseen(n, r, n1, p);
    } else if DialUnwanted(n.c, m) && m.peer == p {
      forall k | k in n.inbox[1..] ensures !IsSelfOrder(k, p) {
        NonePendingAtDial(n.inbox, p, k);
      }
      CorrectionRecalled(n, m, n.inbox[1..], r.self, p, false);
      CorrectionForeseen(n, r, n1, p, false);
    } else if ProbeWanted(n.c, m) && m.peer == p {
      NoRemovalAtProbe(n, p);
      CorrectionRecalled(n, m, n.inbox[1..], r.self, p, true);
      CorrectionForeseen(n, r, n1, p, true);
    } else {
      assert r.self != [] ==> IsSelfOrder(r.self[0], m.peer);
      OtherForeseen(n, r, n1, p);
    }
  }

  /** A dial or a probe has ended at odds with the last command handled for p, and what the
      controller now queues for itself contradicts the last command waiting. */
  predicate Overtakes(c: Central, m: Msg, rest: seq<Msg>, p: Peer) {
    || (DialUnwanted(c, m) && m.peer == p && LatestOrder(rest, p) == Some(true))
    || (ProbeWanted(c, m) && m.peer == p && LatestOrder(rest, p) == Some(false))
  }

  /** A command comes last, or what the controller now queues for itself repeats the last
      command waiting. */
  predicate Settles(c: Central, m: Msg, rest: seq<Msg>, p: Peer) {
    || (IsOrder(m, p) && !Pending(rest, p))
    || (DialUnwanted(c, m) && m.peer == p && LatestOrder(rest, p) == Some(false))
    || (ProbeWanted(c, m) && m.peer == p && LatestOrder(rest, p) == Some(true))
  }

  lemma OvertakenByTurn(n: Node, m: Msg, rest: seq<Msg>, self: seq<Msg>, p: Peer)
    requires !n.c.stopping && Corrects(n.c, m, self)
    ensures p in OvertakenAfter(n, m, rest, self) <==>
      if p in n.overtaken then !Settles(n.c, m, rest, p) else Overtakes(n.c, m, rest, p)
  {
  }

  // ---- All steps -------------------------------------------------------------------

  lemma TurnOrders(n: Node, draw: seq<Peer>, n1: Node)
    requires Accounting(n) && ViewFollows(n) && OrdersFollow(n)
    requires n.inbox != [] && n1 == AfterTurn(n, draw) && n1.status != Crashed
    ensures OrdersFollow(n1)
  {
    var r := Turn(n.c, n.inbox[0], draw);
    TurnTook(n, draw, r, n1);
    TurnEffect(n, draw, r);
    if !n.c.stopping && !r.c.stopping {
      TurnLives(n, draw, r);
      TurnRecollects(n, draw, r, n1);
      TurnSequence(n, r.self);
      forall p, b | PeerRemove(p, true) in n1.inbox ensures Runs(n1.c, Routine(Outgoing(p), b)) {
        TurnRemovals(n, draw, r, p, b);
      }
      forall p ensures OrderFollows(n1, p) {
        TurnOrder(n, r, n1, p);
      }
    }
  }

  /** The parts of a node that the relation refers to, other than the queue. */
  ghost predicate SameOrders(n: Node, n1: Node) {
    n1.c == n.c && n1.wanted == n.wanted && n1.ordered == n.ordered && n1.overtaken == n.overtaken
  }

  lemma AppendedOrders(n: Node, n1: Node, more: seq<Msg>)
    requires !n.c.stopping && OrdersFollow(n) && SameOrders(n, n1) && n1.inbox == n.inbox + more && |more| <= 1
    requires more != [] && (more[0].PeerAdd? || more[0].PeerRemove?) ==> !more[0].self
    ensures OrdersFollow(n1)
  {
    if more == [] {
      assert n1.inbox == n.inbox;
      forall p ensures OrderFollows(n1, p) {
        assert OrderFollows(n, p);
      }
    } else {
      var m := more[0];
      assert more == [m];
      SequenceMore(n.inbox, m);
      forall p ensures OrderFollows(n1, p) {
        assert OrderFollows(n, p);
        ForeseenMore(p in n.ordered, p in n.wanted, n.inbox, m, p);
      }
    }
  }

  lemma GossipAppendsNothing(n: Node, step: Step, n1: Node)
    requires Enabled(n, step) && n1 == Next(n, step) && (step.GossiperHandles? || step.GossiperRound?)
    ensures n1.inbox == n.inbox && SameOrders(n, n1)
  {
    hide G.Enabled, G.Next;
  }

  /** Steps of the other parties append at most one message, which is no command of the
      Central controller's own. */
  lemma OtherStepAppends(n: Node, step: Step, n1: Node) returns (more: seq<Msg>)
    requires QueuesOk(n) && Enabled(n, step) && !step.CentralTurn? && n1 == Next(n, step)
    ensures n1.inbox == n.inbox + more && |more| <= 1
    ensures more != [] && (more[0].PeerAdd? || more[0].PeerRemove?) ==> !more[0].self
    ensures more != [] && more[0].MembershipPushRequest? ==> !more[0].isValue
    ensures step.Environment? ==> more == [step.m]
    ensures !step.Environment? && more != [] ==> !more[0].PeerAdd? && !more[0].PeerRemove?
    ensures SameOrders(n, n1)
  {
    hide FromEnvironment, AfterTurn, AfterGossip, IsDraw;
    match step {
      case Environment(m) =>
        FromEnvironmentUncounted(n, m);
        more := [m];
      case RoutineEnds(r, crashed) => more := [EndpointClosed(r, crashed)];
      case DialEnds(p) => more := [OutgoingP2PCreated(p)];
      case ProbeEnds(p, ok) => more := [CentralProbePeerReply(p, ok)];
      case GossiperSends =>
        assert n.gout[0] in n.gout;
        more := [n.gout[0]];
      case SubStops(sub) => more := [SubClosed(sub)];
      case SubFails(sub) => more := if sub == Gossip then [] else [SubCrashed(sub)];
      case _ =>
        GossipAppendsNothing(n, step, n1);
        more := [];
    }
  }

  lemma StepOrders(n: Node, step: Step, n1: Node)
    requires Accounting(n) && ViewFollows(n) && OrdersFollow(n)
    requires Enabled(n, step) && n1 == Next(n, step) && n1.status != Crashed
    ensures OrdersFollow(n1)
  {
    hide TablesOk, Accounted, RoutinesMatch, DialsMatch, SubsMatch, ClosesWhenAsked, QueuesOk, ViewFollows,
      InSequence, RemovalsFindRunning, OrderFollows, AfterTurn, AfterGossip;
    if step.CentralTurn? {
      TurnOrders(n, step.draw, n1);
    } else {
      var more := OtherStepAppends(n, step, n1);
      if !n.c.stopping {
        AppendedOrders(n, n1, more);
      }
    }
  }

  lemma InitOrders(n: Node)
    requires Init(n)
    ensures OrdersFollow(n)
  {
  }

  /** The last command of all agrees with the last one of the Membership controller except
      precisely when the latter was overtaken. */
  lemma OrderedIff(n: Node, p: Peer)
    requires OrdersFollow(n) && !n.c.stopping && !Pending(n.inbox, p)
    ensures (p in n.wanted <==> p in n.ordered) <==> p !in n.overtaken
  {
    assert OrderFollows(n, p);
  }
}
