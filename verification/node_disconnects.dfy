/** Which outgoing connections that break are reported to the Membership controller. */
module NodeDisconnects {
  import opened Types
  import opened Messages
  import opened CentralModel
  import opened CentralTables
  import opened CentralEffects
  import opened CentralLifecycle
  import opened Node
  import opened NodeAccounting
  import opened NodeView
  import opened NodeTheorems

  /** One goroutine of the peer's endpoint at least is recorded as running. */
  predicate Alive(c: Central, p: Peer) {
    Runs(c, Routine(Outgoing(p), true)) || Runs(c, Routine(Outgoing(p), false))
  }

  /** The view list has an entry for a connection of which nothing is left. */
  predicate DeadInView(c: Central, p: Peer) {
    p in c.view && !Alive(c, p)
  }

  predicate ReportsLoss(r: Reply, p: Peer) {
    PeerDisconnected(p) in r.membership
  }

  // ---- One handler -----------------------------------------------------------------

  lemma GoneReports(c: Central, q: Peer, i: PeerInfo, awaited: bool, r: Reply, p: Peer)
    requires r == OutgoingGoneHandler(c, q, i, awaited) && r.outcome != Panic && !c.stopping
    ensures ReportsLoss(r, p) <==> p == q && !awaited
  {
  }

  lemma OutgoingLastReports(c: Central, q: Peer, isReader: bool, crashed: bool, r: Reply, p: Peer)
    requires Disjoint(c) && !c.stopping && r == OutgoingClosedHandler(c, q, isReader, crashed) && r.outcome != Panic
    requires Runs(c, Routine(Outgoing(q), isReader)) && !Runs(c, Routine(Outgoing(q), !isReader))
    ensures ReportsLoss(r, p) <==> p == q && q in c.view
  {
    var i := Stopped(SlotOf(c, q).i, isReader, crashed);
    GoneReports(PutOutgoing(c, q, i).(total := c.total - 1), q, i, q in c.awaiting, r, p);
  }

  lemma OutgoingFirstReports(c: Central, q: Peer, isReader: bool, crashed: bool, r: Reply, p: Peer)
    requires r == OutgoingClosedHandler(c, q, isReader, crashed)
    requires Runs(c, Routine(Outgoing(q), isReader)) && Runs(c, Routine(Outgoing(q), !isReader))
    ensures !ReportsLoss(r, p)
  {
  }

  lemma AcceptedReports(c: Central, x: Routine, crashed: bool, r: Reply, p: Peer)
    requires r == EndpointClosedHandler(c, x, crashed) && !x.endpoint.Outgoing?
    ensures !ReportsLoss(r, p)
  {
  }

  lemma ProbesReport(c: Central, m: Msg, draw: seq<Peer>, r: Reply, p: Peer)
    requires r == Handle(c, m, draw) && (m.ProbePeerRequest? || m.CentralProbePeerReply?)
    ensures !ReportsLoss(r, p)
  {
  }

  /** Every other handler tells the Membership controller something else, if anything. */
  lemma OthersReport(c: Central, m: Msg, draw: seq<Peer>, r: Reply, p: Peer)
    requires r == Handle(c, m, draw) && !m.EndpointClosed? && !r.c.stopping
    ensures !ReportsLoss(r, p)
  {
    hide PeerAddHandler, PeerRemoveHandler, ProbeRequestHandler, ProbeReplyHandler, OutgoingCreatedHandler,
      IncomingCreatedHandler, APICreatedHandler, ListRequestHandler, ReleaseAll, ToOutgoing, ToIncoming, ToClient,
      ToGossiper, SubClosedHandler, ReportsLoss;
    match m {
      case PeerRemove(q, _) => RemoveReports(c, q, r, p);
      case ProbePeerRequest(_) => ProbesReport(c, m, draw, r, p);
      case CentralProbePeerReply(_, _) => ProbesReport(c, m, draw, r, p);
      case CentralClose => CloseReports(c, r, p);
      case _ => OthersSilent(c, m, draw, r, p);
    }
  }

  lemma RemoveReports(c: Central, q: Peer, r: Reply, p: Peer)
    requires r == PeerRemoveHandler(c, q)
    ensures !ReportsLoss(r, p)
  {
    RemoveQuiet(c, q, r);
  }

  lemma CloseReports(c: Central, r: Reply, p: Peer)
    requires r == CloseHandler(c)
    ensures !ReportsLoss(r, p)
  {
  }

  lemma OthersSilent(c: Central, m: Msg, draw: seq<Peer>, r: Reply, p: Peer)
    requires r == Handle(c, m, draw) && !m.EndpointClosed?
    requires !m.PeerRemove? && !m.ProbePeerRequest? && !m.CentralProbePeerReply? && !m.CentralClose?
    ensures !ReportsLoss(r, p)
  {
    hide IsDraw, ReleaseAll, Leased, RemoveIfUnused, ClosedTables, BothRoutines, ExitIfDone;
    assert r.membership == [];
  }

  lemma ClosedReports(c: Central, x: Routine, crashed: bool, r: Reply, p: Peer)
    requires TablesOk(c) && !c.stopping && Runs(c, x) && r == EndpointClosedHandler(c, x, crashed) && r.outcome != Panic
    ensures ReportsLoss(r, p) <==>
      x.endpoint == Outgoing(p) && p in c.view && !Runs(c, Routine(Outgoing(p), !x.isReader))
  {
    hide ReportsLoss, OutgoingClosedHandler, IncomingClosedHandler, APIClosedHandler;
    if x.endpoint.Outgoing? {
      var q := x.endpoint.peer;
      assert x == Routine(Outgoing(q), x.isReader);
      if Runs(c, Routine(Outgoing(q), !x.isReader)) {
        OutgoingFirstReports(c, q, x.isReader, crashed, r, p);
      } else {
        OutgoingLastReports(c, q, x.isReader, crashed, r, p);
      }
    } else {
      AcceptedReports(c, x, crashed, r, p);
    }
  }

  // ---- Turns of the node -----------------------------------------------------------

  /** The message at the head of the queue, and what handling it does to the goroutines. */
  lemma TurnFacts(n: Node, draw: seq<Peer>, r: Reply)
    requires Invariant(n) && Enabled(n, CentralTurn(draw)) && r == Turn(n.c, n.inbox[0], draw)
    requires AfterTurn(n, draw).status != Crashed && !AfterTurn(n, draw).c.stopping && !n.c.stopping
    ensures r.c == AfterTurn(n, draw).c && r.outcome != Panic && r == Handle(n.c, n.inbox[0], draw)
    ensures TablesOk(n.c) && Expected(n.c, n.inbox[0])
    ensures RunsEffect(n.c, n.inbox[0], r) && Lives(n.c, n.inbox[0], r)
  {
    TurnTook(n, draw, r, AfterTurn(n, draw));
    TurnEffect(n, draw, r);
    HeadExpected(n);
    TurnLives(n, draw, r);
  }

  lemma RunsOn(c: Central, m: Msg, r: Reply, p: Peer, b: bool)
    requires RunsEffect(c, m, r)
    requires Runs(c, Routine(Outgoing(p), b)) && m != EndpointClosed(Routine(Outgoing(p), b), true)
    requires m != EndpointClosed(Routine(Outgoing(p), b), false)
    ensures Runs(r.c, Routine(Outgoing(p), b))
  {
    var x := Routine(Outgoing(p), b);
    assert Bit(Runs(r.c, x)) == Bit(Runs(c, x)) + r.started[x] - Bit(m.EndpointClosed? && m.routine == x);
  }

  /** The loss of a connection is reported exactly if the peer was in the view list when the
      end of its last goroutine was recorded. */
  lemma LossReportedIff(n: Node, draw: seq<Peer>, p: Peer)
    requires Reachable(n) && Enabled(n, CentralTurn(draw)) && !n.c.stopping
    requires AfterTurn(n, draw).status != Crashed && !AfterTurn(n, draw).c.stopping
    ensures ReportsLoss(Turn(n.c, n.inbox[0], draw), p) <==>
      p in n.c.view && Alive(n.c, p) && !Alive(AfterTurn(n, draw).c, p)
  {
    hide Invariant, ReportsLoss, Alive, AfterTurn, Turn, RunsEffect, Lives;
    ReachableInvariant(n);
    var m, r := n.inbox[0], Turn(n.c, n.inbox[0], draw);
    TurnFacts(n, draw, r);
    HandledReportsIff(n.c, m, draw, r, p);
  }

  lemma HandledReportsIff(c: Central, m: Msg, draw: seq<Peer>, r: Reply, p: Peer)
    requires TablesOk(c) && Expected(c, m) && !c.stopping && !r.c.stopping
    requires r == Handle(c, m, draw) && r.outcome != Panic && RunsEffect(c, m, r)
    ensures ReportsLoss(r, p) <==> p in c.view && Alive(c, p) && !Alive(r.c, p)
  {
    hide ReportsLoss, Alive, EndpointClosedHandler, RunsEffect, TablesOk;
    if m.EndpointClosed? {
      ClosedReports(c, m.routine, m.crashed, r, p);
      ClosedQuiet(c, m.routine, m.crashed, r);
      ClosedAlive(c, m, r, p);
    } else {
      OthersReport(c, m, draw, r, p);
      KeepsAlive(c, m, r, p);
    }
  }

  lemma KeepsAlive(c: Central, m: Msg, r: Reply, p: Peer)
    requires RunsEffect(c, m, r) && (m.EndpointClosed? ==> m.routine.endpoint != Outgoing(p))
    ensures Alive(c, p) ==> Alive(r.c, p)
  {
    forall b | Runs(c, Routine(Outgoing(p), b)) ensures Runs(r.c, Routine(Outgoing(p), b)) {
      RunsOn(c, m, r, p, b);
    }
  }

  lemma ClosedAlive(c: Central, m: Msg, r: Reply, p: Peer)
    requires RunsEffect(c, m, r) && m.EndpointClosed? && Runs(c, m.routine) && r.started == multiset{}
    ensures Alive(c, p) && !Alive(r.c, p) <==>
      m.routine.endpoint == Outgoing(p) && !Runs(c, Routine(Outgoing(p), !m.routine.isReader))
  {
    var x := m.routine;
    if x.endpoint == Outgoing(p) {
      assert x == Routine(Outgoing(p), x.isReader);
      forall b ensures Runs(r.c, Routine(Outgoing(p), b)) <==> Runs(c, Routine(Outgoing(p), b)) && b != x.isReader {
        var y := Routine(Outgoing(p), b);
        assert Bit(Runs(r.c, y)) == Bit(Runs(c, y)) + r.started[y] - Bit(m.EndpointClosed? && m.routine == y);
      }
    } else {
      KeepsAlive(c, m, r, p);
    }
  }

  /** An entry of the view list without goroutines comes about in two ways: the loss of its
      connection has just been reported, or it comes back from the removal list, where its
      connection was lost without a report; in this case there is none now either. */
  lemma DeadInViewIff(n: Node, draw: seq<Peer>, p: Peer)
    requires Reachable(n) && Enabled(n, CentralTurn(draw)) && !n.c.stopping && !DeadInView(n.c, p)
    requires AfterTurn(n, draw).status != Crashed && !AfterTurn(n, draw).c.stopping
    ensures var m, r := n.inbox[0], Turn(n.c, n.inbox[0], draw);
      && (DeadInView(AfterTurn(n, draw).c, p) <==>
            ReportsLoss(r, p) || (m.PeerAdd? && m.peer == p && p in n.c.awaiting && !Alive(n.c, p)))
      && (ReportsLoss(r, p) ==> !m.PeerAdd?)
  {
    hide Invariant, ReportsLoss, Alive, AfterTurn, Turn, RunsEffect, Moves, TablesOk;
    LossReportedIff(n, draw, p);
    ReachableInvariant(n);
    var m, r := n.inbox[0], Turn(n.c, n.inbox[0], draw);
    TurnFacts(n, draw, r);
    assert Moves(m, p, PlaceOf(n.c, p), PlaceOf(r.c, p));
    if m.PeerAdd? {
      OthersReport(n.c, m, draw, r, p);
      AddAlive(n.c, m, draw, r, p);
    } else if m == OutgoingP2PCreated(p) {
      OthersReport(n.c, m, draw, r, p);
      CreatedAlive(n.c, p, draw, r);
    } else if p in n.c.view && !m.EndpointClosed? {
      KeepsAlive(n.c, m, r, p);
    }
    MovesIntoView(m, p, PlaceOf(n.c, p), PlaceOf(r.c, p));
  }

  lemma MovesIntoView(m: Msg, p: Peer, a: Place, b: Place)
    requires Moves(m, p, a, b)
    ensures b == InView && a != InView ==>
      (m.PeerAdd? && m.peer == p && a == Leaving) || (m == OutgoingP2PCreated(p) && a.Dialled?)
    ensures m.PeerAdd? && (a == InView || (m.peer == p && a == Leaving)) ==> b == InView
    ensures m.EndpointClosed? && a == InView ==> b == InView
  {
  }

  lemma AddAlive(c: Central, m: Msg, draw: seq<Peer>, r: Reply, p: Peer)
    requires r == Handle(c, m, draw) && m.PeerAdd? && RunsEffect(c, m, r)
    ensures Alive(r.c, p) <==> Alive(c, p)
  {
    hide PeerAddHandler, IsDropped;
    AddDials(c, m.peer, r);
    forall b ensures Runs(r.c, Routine(Outgoing(p), b)) <==> Runs(c, Routine(Outgoing(p), b)) {
      var x := Routine(Outgoing(p), b);
      assert Bit(Runs(r.c, x)) == Bit(Runs(c, x)) + r.started[x];
    }
  }

  lemma CreatedAlive(c: Central, p: Peer, draw: seq<Peer>, r: Reply)
    requires r == Handle(c, OutgoingP2PCreated(p), draw) && p in c.creating
    ensures Alive(r.c, p)
  {
  }

  // ---- Runs without a report -------------------------------------------------------

  ghost predicate ReportedIn(n: Node, step: Step, p: Peer)
    requires Enabled(n, step)
  {
    step.CentralTurn? && ReportsLoss(Turn(n.c, n.inbox[0], step.draw), p)
  }

  /** The loss of the peer's connection is reported during these steps. */
  ghost predicate LossReported(n: Node, steps: seq<Step>, p: Peer)
    requires IsRun(n, steps)
    decreases |steps|
  {
    steps != [] && (ReportedIn(n, steps[0], p) || LossReported(Next(n, steps[0]), steps[1..], p))
  }

  /** Some steps lead from one state to the other without any report about the peer. */
  ghost predicate Silently(n: Node, n1: Node, p: Peer) {
    exists steps :: IsRun(n, steps) && After(n, steps) == n1 && !LossReported(n, steps, p)
  }

  lemma {:induction false} SilentSnoc(n: Node, steps: seq<Step>, step: Step, p: Peer)
    requires IsRun(n, steps) && Enabled(After(n, steps), step)
    requires !LossReported(n, steps, p) && !ReportedIn(After(n, steps), step, p)
    ensures IsRun(n, steps + [step]) && After(n, steps + [step]) == Next(After(n, steps), step)
    ensures !LossReported(n, steps + [step], p)
    decreases |steps|
  {
    hide ReportedIn;
    if steps == [] {
      assert steps + [step] == [step] && [step][1..] == [];
    } else {
      assert (steps + [step])[1..] == steps[1..] + [step];
      SilentSnoc(Next(n, steps[0]), steps[1..], step, p);
    }
  }

  lemma SilentStep(n: Node, mid: Node, step: Step, p: Peer)
    requires Silently(n, mid, p) && Enabled(mid, step) && !ReportedIn(mid, step, p)
    ensures Silently(n, Next(mid, step), p)
  {
    var steps :| IsRun(n, steps) && After(n, steps) == mid && !LossReported(n, steps, p);
    SilentSnoc(n, steps, step, p);
  }
}
