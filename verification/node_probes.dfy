/** Probes of a node: what the Membership controller is told, and that each of its requests for a
    probe is answered once. */
module NodeProbes {
  import opened Types
  import opened Messages
  import opened CentralModel
  import opened CentralTables
  import opened CentralEffects
  import opened CentralLifecycle
  import opened CentralTurns
  import opened Node
  import opened NodeAccounting
  import opened NodeView
  import opened NodeTheorems
  import opened NodeLeaks

  // ---- One turn --------------------------------------------------------------------

  /** A turn tells the Membership controller the answer to a request for a probe, at once for a
      peer that the Central controller knows and otherwise with the result of the probe, the loss
      of a connection, and the order to close; nothing else. */
  lemma TurnTellsMembership(n: Node, draw: seq<Peer>)
    requires Reachable(n) && Enabled(n, CentralTurn(draw)) && AfterTurn(n, draw).status != Crashed
    ensures var m := n.inbox[0];
      Turn(n.c, m, draw).membership == if IsDropped(n.c, m) then [] else ToldMembership(n.c, m)
  {
    hide Reachable, Invariant, ToldMembership, ToldGossiper, Handle;
    ReachableInvariant(n);
    InvariantTables(n);
    TurnTook(n, draw, Turn(n.c, n.inbox[0], draw), AfterTurn(n, draw));
    TurnStarts(n, draw, Turn(n.c, n.inbox[0], draw));
  }

  lemma InvariantTables(n: Node)
    requires Invariant(n)
    ensures Accounting(n) && TablesOk(n.c)
  {
  }

  lemma TurnStarts(n: Node, draw: seq<Peer>, r: Reply)
    requires TablesOk(n.c) && n.inbox != [] && r == Turn(n.c, n.inbox[0], draw) && r.outcome != Panic
    ensures IsDropped(n.c, n.inbox[0]) ==> r == Quiet(n.c)
    ensures !IsDropped(n.c, n.inbox[0]) ==> Tells(n.c, n.inbox[0], draw, r) && Starts(n.c, n.inbox[0], r)
  {
    hide Handle, Tells, Starts, IsDropped;
    if !IsDropped(n.c, n.inbox[0]) {
      HandledTells(n.c, n.inbox[0], draw, r);
    }
  }

  // ---- Probes under way ------------------------------------------------------------

  /** Probes of the peer that run or whose result waits in the queue. */
  ghost function UnderWay(n: Node, p: Peer): nat {
    n.probes[p] + multiset(n.inbox)[CentralProbePeerReply(p, true)] + multiset(n.inbox)[CentralProbePeerReply(p, false)]
  }

  ghost predicate ProbesRun(n: Node) {
    !n.c.stopping ==> forall p :: p in n.c.probing ==> UnderWay(n, p) >= 1
  }

  predicate IsResult(m: Msg, p: Peer) {
    m.CentralProbePeerReply? && m.peer == p
  }

  lemma TakenResults(n: Node, r: Reply, n1: Node, p: Peer)
    requires Took(n, r, n1) && ToItself(r.self) && n1.probes == n.probes + r.probes
    ensures UnderWay(n1, p) == UnderWay(n, p) + r.probes[p] - Bit(IsResult(n.inbox[0], p))
  {
    QueueHead(n.inbox, CentralProbePeerReply(p, true));
    QueueHead(n.inbox, CentralProbePeerReply(p, false));
    QueueTail(n.inbox[1..], r.self, CentralProbePeerReply(p, true));
    QueueTail(n.inbox[1..], r.self, CentralProbePeerReply(p, false));
  }

  lemma PlaceIsProbed(c: Central, p: Peer)
    requires Disjoint(c)
    ensures p in c.probing <==> PlaceOf(c, p).Probed?
    ensures IsKnown(c, p) || p in c.probing <==> PlaceOf(c, p) != Nowhere
  {
  }

  /** A peer begins to be probed with a request while the controller has nothing to do with it,
      and ceases with a result. */
  lemma ProbedMoves(c: Central, m: Msg, r: Reply, p: Peer)
    requires Disjoint(c) && Disjoint(r.c) && Moves(m, p, PlaceOf(c, p), PlaceOf(r.c, p))
    ensures p in r.c.probing <==>
      (p in c.probing && !IsResult(m, p)) || (m == ProbePeerRequest(p) && !IsKnown(c, p))
  {
    hide PlaceOf, IsKnown;
    PlaceIsProbed(c, p);
    PlaceIsProbed(r.c, p);
  }

  lemma TurnProbed(n: Node, draw: seq<Peer>, n1: Node, p: Peer)
    requires Accounting(n) && Enabled(n, CentralTurn(draw)) && n1 == AfterTurn(n, draw) && n1.status != Crashed
    requires !n.c.stopping && !n1.c.stopping
    ensures var m := n.inbox[0];
      && (p in n1.c.probing <==>
            (p in n.c.probing && !IsResult(m, p)) || (m == ProbePeerRequest(p) && !IsKnown(n.c, p)))
      && UnderWay(n1, p)
         == UnderWay(n, p) + Bit(m == ProbePeerRequest(p) && !IsKnown(n.c, p)) - Bit(IsResult(m, p))
  {
    hide Turn, Handle, RoutinesMatch, DialsMatch, SubsMatch, ClosesWhenAsked, QueuesOk, Accounted, UnderWay, Took,
      Moves, RunsEffect, DialsEffect, SubsEffect, IsKnown;
    var r := Turn(n.c, n.inbox[0], draw);
    TurnTook(n, draw, r, n1);
    TurnEffect(n, draw, r);
    TookSame(n, r, n1);
    TurnLives(n, draw, r);
    TurnStarts(n, draw, r);
    ProbedMoves(n.c, n.inbox[0], r, p);
    TurnAddsProbes(n, draw, r, n1);
    TakenResults(n, r, n1, p);
  }

  lemma TookSame(n: Node, r: Reply, n1: Node)
    requires Took(n, r, n1)
    ensures n1.c == r.c
  {
  }

  lemma TurnAddsProbes(n: Node, draw: seq<Peer>, r: Reply, n1: Node)
    requires n.inbox != [] && r == Turn(n.c, n.inbox[0], draw) && n1 == AfterTurn(n, draw)
    ensures n1.probes == n.probes + r.probes
  {
    hide Turn;
    RecalledRest(n, n.inbox[0], n.inbox[1..], r.self);
  }

  lemma TurnProbesRun(n: Node, draw: seq<Peer>, n1: Node)
    requires Accounting(n) && ProbesRun(n) && Enabled(n, CentralTurn(draw)) && n1 == AfterTurn(n, draw)
    requires n1.status != Crashed && !n.c.stopping && !n1.c.stopping
    ensures forall p :: p in n1.c.probing ==> UnderWay(n1, p) >= 1
  {
    hide Accounting, UnderWay, AfterTurn;
    forall p | p in n1.c.probing ensures UnderWay(n1, p) >= 1 {
      TurnProbed(n, draw, n1, p);
    }
  }

  lemma OtherProbes(n: Node, step: Step, n1: Node, p: Peer)
    requires Enabled(n, step) && !step.CentralTurn? && n1 == Next(n, step)
    ensures n1.c == n.c && UnderWay(n1, p) >= UnderWay(n, p)
  {
    hide Turn, IsDraw, AfterTurn, FromEnvironment;
    match step
    case GossiperHandles(_, _) => GossipProbes(n, step, n1);
    case GossiperRound(_) => GossipProbes(n, step, n1);
    case _ =>
  }

  lemma GossipProbes(n: Node, step: Step, n1: Node)
    requires Enabled(n, step) && (step.GossiperHandles? || step.GossiperRound?) && n1 == Next(n, step)
    ensures n1.c == n.c && n1.probes == n.probes && n1.inbox == n.inbox
  {
  }

  lemma StepProbesRun(n: Node, step: Step, n1: Node)
    requires Accounting(n) && ProbesRun(n) && Enabled(n, step) && n1 == Next(n, step) && n1.status != Crashed
    requires !n.c.stopping && !n1.c.stopping
    ensures ProbesRun(n1)
  {
    hide Accounting, UnderWay, AfterTurn, Next;
    if step.CentralTurn? {
      assert n1 == AfterTurn(n, step.draw) by { TurnIsNext(n, step.draw); }
      TurnProbesRun(n, step.draw, n1);
    } else {
      forall p | p in n1.c.probing ensures UnderWay(n1, p) >= 1 {
        OtherProbes(n, step, n1, p);
      }
    }
  }

  lemma TurnIsNext(n: Node, draw: seq<Peer>)
    requires Enabled(n, CentralTurn(draw))
    ensures Next(n, CentralTurn(draw)) == AfterTurn(n, draw)
  {
  }

  lemma {:induction false} RunProbes(n: Node, steps: seq<Step>)
    requires Invariant(n) && ProbesRun(n) && IsRun(n, steps)
    requires After(n, steps).status != Crashed && !After(n, steps).c.stopping
    ensures ProbesRun(After(n, steps))
    decreases |steps|
  {
    hide Invariant, ProbesRun, Next;
    if steps != [] {
      NotStoppedYet(n, steps);
      InvariantTables(n);
      StepProbesRun(n, steps[0], Next(n, steps[0]));
      RunProbes(Next(n, steps[0]), steps[1..]);
    }
  }

  /** Before the shutdown a peer that counts as being probed has a probe that runs or whose result
      is queued, on every run. */
  lemma ProbedHasProbe(n: Node, p: Peer)
    requires Reachable(n) && n.status != Crashed && !n.c.stopping && p in n.c.probing
    ensures p in n.probes || CentralProbePeerReply(p, true) in n.inbox || CentralProbePeerReply(p, false) in n.inbox
  {
    hide Invariant;
    var first, steps :| Reaches(first, steps, n);
    InitInvariant(first);
    RunProbes(first, steps);
    assert UnderWay(n, p) >= 1;
  }

  // ---- Requests and answers --------------------------------------------------------

  /** The step is the turn on a request to probe this peer. */
  predicate AsksProbe(n: Node, step: Step, p: Peer) {
    step.CentralTurn? && n.inbox != [] && n.inbox[0] == ProbePeerRequest(p)
  }

  /** Answers about this peer in a list of messages to the Membership controller. */
  ghost function AnswersFor(ms: seq<MembershipMsg>, p: Peer): nat {
    multiset(ms)[ProbePeerReply(p, true)] + multiset(ms)[ProbePeerReply(p, false)]
  }

  ghost function AnsweredIn(n: Node, step: Step, p: Peer): nat {
    if step.CentralTurn? && n.inbox != [] then AnswersFor(Turn(n.c, n.inbox[0], step.draw).membership, p) else 0
  }

  /** Requests for a probe of this peer that are handled during these steps. */
  ghost function ProbesAsked(n: Node, steps: seq<Step>, p: Peer): nat
    requires IsRun(n, steps)
    decreases |steps|
  {
    if steps == [] then 0 else Bit(AsksProbe(n, steps[0], p)) + ProbesAsked(Next(n, steps[0]), steps[1..], p)
  }

  ghost function ProbesAnswered(n: Node, steps: seq<Step>, p: Peer): nat
    requires IsRun(n, steps)
    decreases |steps|
  {
    if steps == [] then 0 else AnsweredIn(n, steps[0], p) + ProbesAnswered(Next(n, steps[0]), steps[1..], p)
  }

  /** Those of the requests that find the peer being probed already, and share its answer. */
  ghost function ProbesShared(n: Node, steps: seq<Step>, p: Peer): nat
    requires IsRun(n, steps)
    decreases |steps|
  {
    if steps == [] then 0
    else
      Bit(AsksProbe(n, steps[0], p) && p in n.c.probing) + ProbesShared(Next(n, steps[0]), steps[1..], p)
  }

  lemma ToldAnswers(c: Central, m: Msg, p: Peer)
    ensures AnswersFor(ToldMembership(c, m), p)
      == Bit((m == ProbePeerRequest(p) && IsKnown(c, p)) || (IsResult(m, p) && p in c.probing))
  {
    hide IsKnown, LosesPeer;
  }

  lemma TurnBalances(n: Node, draw: seq<Peer>, n1: Node, p: Peer)
    requires Accounting(n) && Enabled(n, CentralTurn(draw)) && n1 == AfterTurn(n, draw) && n1.status != Crashed
    requires !n.c.stopping && !n1.c.stopping
    ensures Bit(p in n.c.probing) + Bit(n.inbox[0] == ProbePeerRequest(p))
      == AnsweredIn(n, CentralTurn(draw), p) + Bit(n.inbox[0] == ProbePeerRequest(p) && p in n.c.probing)
         + Bit(p in n1.c.probing)
  {
    hide Turn, Handle, RoutinesMatch, DialsMatch, SubsMatch, ClosesWhenAsked, QueuesOk, Accounted, UnderWay, AfterTurn,
      IsKnown, AnswersFor;
    var m, r := n.inbox[0], Turn(n.c, n.inbox[0], draw);
    TurnTook(n, draw, r, n1);
    TurnProbed(n, draw, n1, p);
    TurnStarts(n, draw, r);
    ToldAnswers(n.c, m, p);
    ProbedUnknown(n.c, p);
  }

  lemma ProbedUnknown(c: Central, p: Peer)
    requires TablesOk(c)
    ensures p in c.probing ==> !IsKnown(c, p)
  {
  }

  lemma StepBalances(n: Node, step: Step, n1: Node, p: Peer)
    requires Accounting(n) && Enabled(n, step) && n1 == Next(n, step) && n1.status != Crashed
    requires !n.c.stopping && !n1.c.stopping
    ensures Bit(p in n.c.probing) + Bit(AsksProbe(n, step, p))
      == AnsweredIn(n, step, p) + Bit(AsksProbe(n, step, p) && p in n.c.probing) + Bit(p in n1.c.probing)
  {
    hide Accounting, AfterTurn, Turn, AnswersFor;
    if step.CentralTurn? {
      TurnBalances(n, step.draw, n1, p);
    } else {
      OtherStatus(n, step, n1);
    }
  }

  lemma {:induction false} RunBalances(n: Node, steps: seq<Step>, p: Peer)
    requires Invariant(n) && IsRun(n, steps) && After(n, steps).status != Crashed && !After(n, steps).c.stopping
    ensures Bit(p in n.c.probing) + ProbesAsked(n, steps, p)
      == ProbesAnswered(n, steps, p) + ProbesShared(n, steps, p) + Bit(p in After(n, steps).c.probing)
    decreases |steps|
  {
    hide Invariant, Next, AnsweredIn, AsksProbe;
    if steps != [] {
      NotStoppedYet(n, steps);
      InvariantTables(n);
      StepBalances(n, steps[0], Next(n, steps[0]), p);
      RunBalances(Next(n, steps[0]), steps[1..], p);
    }
  }

  /** Before the shutdown every request for a probe is answered exactly once, except one that finds
      the peer being probed already, which shares the answer, and at most one whose probe is still
      under way. */
  lemma EachProbeAnswered(first: Node, steps: seq<Step>, n: Node, p: Peer)
    requires Reaches(first, steps, n) && n.status != Crashed && !n.c.stopping
    ensures ProbesAsked(first, steps, p)
      == ProbesAnswered(first, steps, p) + ProbesShared(first, steps, p) + Bit(p in n.c.probing)
  {
    hide Invariant;
    InitInvariant(first);
    RunBalances(first, steps, p);
  }
}
