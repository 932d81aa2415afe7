/** What reaches the Gossiper of a node: everything that clients and remote nodes say to it, and
    an answer to each of its requests for peers, in order and nothing else. */
module NodeDelivery {
  import opened Types
  import opened Messages
  import G = GossiperModel
  import opened CentralModel
  import opened CentralTables
  import opened CentralEffects
  import opened CentralTurns
  import opened Node
  import opened NodeAccounting
  import opened NodeTheorems
  import opened NodeLeaks

  // ---- One turn --------------------------------------------------------------------

  /** A turn appends to the Gossiper's queue what comes from outside, the peers drawn for a
      request together with the item it is for, the departure of a client, and the order to
      close; and nothing else. What is dropped during the shutdown appends nothing. */
  lemma TurnTellsGossiper(n: Node, draw: seq<Peer>)
    requires Reachable(n) && Enabled(n, CentralTurn(draw)) && AfterTurn(n, draw).status != Crashed
    ensures var m := n.inbox[0];
      AfterTurn(n, draw).gin == n.gin + if IsDropped(n.c, m) then [] else ToldGossiper(n.c, m, draw)
  {
    hide Invariant, Reachable, ToldGossiper, Handle;
    ReachableInvariant(n);
    assert Invariant(n);
    InvariantTells(n, draw);
  }

  lemma InvariantTells(n: Node, draw: seq<Peer>)
    requires Accounting(n) && Enabled(n, CentralTurn(draw)) && AfterTurn(n, draw).status != Crashed
    ensures var m := n.inbox[0];
      AfterTurn(n, draw).gin == n.gin + if IsDropped(n.c, m) then [] else ToldGossiper(n.c, m, draw)
  {
    hide ToldGossiper, Handle, IsDropped, ToldMembership;
    var m, r := n.inbox[0], Turn(n.c, n.inbox[0], draw);
    TurnTook(n, draw, r, AfterTurn(n, draw));
    if !IsDropped(n.c, m) {
      HandledTells(n.c, m, draw, r);
    }
  }

  // ---- What is due to the Gossiper -------------------------------------------------

  /** An answer to a request for peers, told by the item that it is for, or a message from
      outside. */
  datatype Delivery = Answer(related: Option<Item>) | FromWorld(g: GossipMsg)

  function DueOf(m: Msg): seq<Delivery> {
    if m.RandomPeerListRequest? then [Answer(m.related)]
    else if m.IncomingGossip? then [FromWorld(m.gossip)]
    else []
  }

  /** What the Gossiper will hear because of the messages in a queue of the Central controller. */
  function Due(q: seq<Msg>): seq<Delivery> {
    if q == [] then [] else DueOf(q[0]) + Due(q[1..])
  }

  function HeardOf(g: GossipMsg): seq<Delivery> {
    if g.RandomPeerListReply? then [Answer(g.related)]
    else if FromOutside(g) then [FromWorld(g)]
    else []
  }

  function Heard(q: seq<GossipMsg>): seq<Delivery> {
    if q == [] then [] else HeardOf(q[0]) + Heard(q[1..])
  }

  lemma {:induction false} DueConcat(a: seq<Msg>, b: seq<Msg>)
    ensures Due(a + b) == Due(a) + Due(b)
  {
    if a == [] {
      assert a + b == b;
    } else {
      assert (a + b)[1..] == a[1..] + b;
      DueConcat(a[1..], b);
    }
  }

  lemma {:induction false} HeardConcat(a: seq<GossipMsg>, b: seq<GossipMsg>)
    ensures Heard(a + b) == Heard(a) + Heard(b)
  {
    if a == [] {
      assert a + b == b;
    } else {
      assert (a + b)[1..] == a[1..] + b;
      HeardConcat(a[1..], b);
    }
  }

  lemma DueSingle(m: Msg)
    ensures Due([m]) == DueOf(m)
  {
    assert [m][1..] == [];
  }

  lemma {:induction false} NothingDue(q: seq<Msg>)
    requires forall m :: m in q ==> !m.RandomPeerListRequest? && !m.IncomingGossip?
    ensures Due(q) == []
  {
    if q != [] {
      NothingDue(q[1..]);
    }
  }

  /** Everything on its way to the Gossiper, the messages in front first. */
  function OnItsWay(n: Node): seq<Delivery> {
    Heard(n.gin) + Due(n.inbox)
  }

  /** What a step puts on its way: a message from outside, or a request that the Gossiper's queue
      hands over. */
  function Enters(n: Node, step: Step): seq<Delivery>
    requires step.GossiperSends? ==> n.gout != []
  {
    match step
    case Environment(m) => DueOf(m)
    case GossiperSends => DueOf(n.gout[0])
    case _ => []
  }

  /** What the Gossiper takes from its queue in a step. */
  function Takes(n: Node, step: Step): seq<Delivery>
    requires step.GossiperHandles? ==> n.gin != []
  {
    if step.GossiperHandles? then HeardOf(n.gin[0]) else []
  }

  ghost function Entered(n: Node, steps: seq<Step>): seq<Delivery>
    requires IsRun(n, steps)
    decreases |steps|
  {
    if steps == [] then [] else Enters(n, steps[0]) + Entered(Next(n, steps[0]), steps[1..])
  }

  ghost function Taken(n: Node, steps: seq<Step>): seq<Delivery>
    requires IsRun(n, steps)
    decreases |steps|
  {
    if steps == [] then [] else Takes(n, steps[0]) + Taken(Next(n, steps[0]), steps[1..])
  }

  // ---- Steps -----------------------------------------------------------------------

  /** Nothing is lost, added or reordered. */
  ghost predicate Conveys(n: Node, step: Step, n1: Node)
    requires Enabled(n, step)
  {
    OnItsWay(n) + Enters(n, step) == Takes(n, step) + OnItsWay(n1)
  }

  lemma ToldIsDue(c: Central, m: Msg, draw: seq<Peer>)
    requires m.IncomingGossip? ==> FromOutside(m.gossip)
    ensures Heard(ToldGossiper(c, m, draw)) == DueOf(m)
  {
    hide EndsClient;
    var told := ToldGossiper(c, m, draw);
    if told != [] {
      assert told == [told[0]] && [told[0]][1..] == [];
    }
  }

  lemma TurnConveys(n: Node, draw: seq<Peer>, n1: Node)
    requires Accounting(n) && Enabled(n, CentralTurn(draw)) && n1 == AfterTurn(n, draw) && n1.status != Crashed
    requires !n.c.stopping
    ensures Conveys(n, CentralTurn(draw), n1)
  {
    hide ToldGossiper, Turn, RoutinesMatch, DialsMatch, SubsMatch, TablesOk, Accounted, AfterTurn, IsDraw, Conveys,
      RunsEffect, DialsEffect, SubsEffect, ShutdownEffect, ClosesWhenAsked, DueOf, Due;
    var m, r := n.inbox[0], Turn(n.c, n.inbox[0], draw);
    InvariantTells(n, draw);
    TurnTook(n, draw, r, n1);
    TurnEffect(n, draw, r);
    assert m in n.inbox;
    ToldIsDue(n.c, m, draw);
    NothingDue(r.self);
    TookConveys(n, draw, ToldGossiper(n.c, m, draw), r.self, n1);
  }

  lemma TookConveys(n: Node, draw: seq<Peer>, told: seq<GossipMsg>, self: seq<Msg>, n1: Node)
    requires Enabled(n, CentralTurn(draw)) && Heard(told) == DueOf(n.inbox[0]) && Due(self) == []
    requires n1.gin == n.gin + told && n1.inbox == n.inbox[1..] + self
    ensures Conveys(n, CentralTurn(draw), n1)
  {
    hide DueOf, HeardOf, IsDraw, Due, Heard;
    MovedIsOnItsWay(n.gin, n.inbox, told, self);
    assert OnItsWay(n1) == OnItsWay(n);
    assert [] + OnItsWay(n1) == OnItsWay(n) + [];
  }

  lemma MovedIsOnItsWay(gin: seq<GossipMsg>, inbox: seq<Msg>, told: seq<GossipMsg>, self: seq<Msg>)
    requires inbox != [] && Heard(told) == DueOf(inbox[0]) && Due(self) == []
    ensures Heard(gin + told) + Due(inbox[1..] + self) == Heard(gin) + Due(inbox)
  {
    hide DueOf, HeardOf;
    HeardConcat(gin, told);
    DueConcat(inbox[1..], self);
    assert Due(inbox) == DueOf(inbox[0]) + Due(inbox[1..]);
  }

  lemma AppendedConveys(n: Node, m: Msg, step: Step, n1: Node)
    requires Enabled(n, step) && n1.gin == n.gin && n1.inbox == n.inbox + [m]
    requires Enters(n, step) == DueOf(m) && Takes(n, step) == []
    ensures Conveys(n, step, n1)
  {
    DueConcat(n.inbox, [m]);
    DueSingle(m);
  }

  lemma GossipConveys(n: Node, step: Step, n1: Node)
    requires ClosesWhenAsked(n) && !n.c.stopping && Enabled(n, step) && n1 == Next(n, step)
    requires step.GossiperHandles? || step.GossiperRound?
    ensures Conveys(n, step, n1)
  {
    hide G.Enabled, G.Next;
    if step.GossiperHandles? {
      assert n.gin[0] in n.gin;
      assert n1.gin == n.gin[1..] && n1.inbox == n.inbox;
    }
  }

  /** Reports append a message of which the Gossiper hears nothing. */
  lemma ReportConveys(n: Node, step: Step, n1: Node, m: Msg)
    requires Enabled(n, step) && n1.gin == n.gin && n1.inbox == n.inbox + [m] && DueOf(m) == []
    requires step.RoutineEnds? || step.DialEnds? || step.ProbeEnds? || step.SubStops? || step.SubFails?
    ensures Conveys(n, step, n1)
  {
    hide Conveys, DueOf, Due, Heard;
    AppendedConveys(n, m, step, n1);
  }

  lemma EntersConveys(n: Node, step: Step, n1: Node)
    requires Enabled(n, step) && n1 == Next(n, step) && (step.Environment? || step.GossiperSends?)
    ensures Conveys(n, step, n1)
  {
    hide Conveys, DueOf, Due, Heard, FromEnvironment, AfterTurn, AfterGossip;
    AppendedConveys(n, if step.Environment? then step.m else n.gout[0], step, n1);
  }

  lemma QueueConveys(n: Node, step: Step, n1: Node)
    requires Enabled(n, step) && n1 == Next(n, step)
    requires step.RoutineEnds? || step.DialEnds? || step.ProbeEnds?
    ensures Conveys(n, step, n1)
  {
    hide Conveys, AfterTurn, AfterGossip, Due, Heard;
    ReportConveys(n, step, n1, Reported(step));
  }

  /** The report of the end of a goroutine, a dial or a probe. */
  function Reported(step: Step): Msg
    requires step.RoutineEnds? || step.DialEnds? || step.ProbeEnds?
  {
    match step
    case RoutineEnds(r, crashed) => EndpointClosed(r, crashed)
    case DialEnds(p) => OutgoingP2PCreated(p)
    case ProbeEnds(p, ok) => CentralProbePeerReply(p, ok)
  }

  lemma SubConveys(n: Node, step: Step, n1: Node)
    requires Enabled(n, step) && n1 == Next(n, step) && Gossip in n1.alive && (step.SubStops? || step.SubFails?)
    ensures Conveys(n, step, n1)
  {
    hide Conveys, AfterTurn, AfterGossip, Due, Heard;
    ReportConveys(n, step, n1, if step.SubStops? then SubClosed(step.sub) else SubCrashed(step.sub));
  }

  lemma StepConveys(n: Node, step: Step, n1: Node)
    requires Accounting(n) && Enabled(n, step) && n1 == Next(n, step) && n1.status != Crashed
    requires !n.c.stopping && Gossip in n1.alive
    ensures Conveys(n, step, n1)
  {
    hide Conveys, TablesOk, Accounted, RoutinesMatch, DialsMatch, SubsMatch, QueuesOk;
    if step.CentralTurn? {
      TurnConveys(n, step.draw, n1);
    } else if step.GossiperHandles? || step.GossiperRound? {
      GossipConveys(n, step, n1);
    } else if step.Environment? || step.GossiperSends? {
      EntersConveys(n, step, n1);
    } else if step.SubStops? || step.SubFails? {
      SubConveys(n, step, n1);
    } else {
      QueueConveys(n, step, n1);
    }
  }

  // ---- Runs ------------------------------------------------------------------------

  lemma GoneStaysGone(n: Node, step: Step)
    requires Enabled(n, step) && Gossip !in n.alive
    ensures Gossip !in Next(n, step).alive
  {
    hide G.Enabled, G.Next, Turn, FromEnvironment, IsDraw;
  }

  lemma {:induction false} GoneForever(n: Node, steps: seq<Step>)
    requires IsRun(n, steps) && Gossip !in n.alive
    ensures Gossip !in After(n, steps).alive
    decreases |steps|
  {
    hide Next, Enabled;
    if steps != [] {
      GoneStaysGone(n, steps[0]);
      GoneForever(Next(n, steps[0]), steps[1..]);
    }
  }

  lemma {:induction false} RunConveys(n: Node, steps: seq<Step>)
    requires Invariant(n) && IsRun(n, steps)
    requires After(n, steps).status != Crashed && !After(n, steps).c.stopping && Gossip in After(n, steps).alive
    ensures OnItsWay(n) + Entered(n, steps) == Taken(n, steps) + OnItsWay(After(n, steps))
    decreases |steps|
  {
    hide Invariant, Next, Enters, Takes, OnItsWay;
    if steps != [] {
      var n1, rest := Next(n, steps[0]), steps[1..];
      NotStoppedYet(n, steps);
      if Gossip !in n1.alive {
        GoneForever(n1, rest);
      }
      FirstConveys(n, steps[0], n1);
      RunConveys(n1, rest);
      Rotates(OnItsWay(n), Enters(n, steps[0]), Takes(n, steps[0]), OnItsWay(n1),
              Entered(n1, rest), Taken(n1, rest), OnItsWay(After(n1, rest)));
    }
  }

  lemma FirstConveys(n: Node, step: Step, n1: Node)
    requires Invariant(n) && Enabled(n, step) && n1 == Next(n, step) && n1.status != Crashed
    requires !n.c.stopping && Gossip in n1.alive
    ensures Conveys(n, step, n1)
  {
    hide Conveys;
    InvariantAccounting(n);
    hide Invariant, Accounting, Next;
    StepConveys(n, step, n1);
  }

  lemma InvariantAccounting(n: Node)
    requires Invariant(n)
    ensures Accounting(n)
  {
  }

  lemma Rotates(way: seq<Delivery>, enters: seq<Delivery>, takes: seq<Delivery>, way1: seq<Delivery>,
                entered: seq<Delivery>, taken: seq<Delivery>, way2: seq<Delivery>)
    requires way + enters == takes + way1 && way1 + entered == taken + way2
    ensures way + (enters + entered) == takes + taken + way2
  {
    assert way + (enters + entered) == way + enters + entered;
    assert takes + way1 + entered == takes + (way1 + entered);
  }

  /** Before the shutdown, and as long as the Gossiper runs, it hears all that comes from outside
      and an answer to each of its requests, in the order in which they reach the Central
      controller: what it has taken from its queue so far and what is still on its way are
      together exactly what has entered. */
  lemma GossiperHearsAll(first: Node, steps: seq<Step>, n: Node)
    requires Reaches(first, steps, n) && n.status != Crashed && !n.c.stopping && Gossip in n.alive
    ensures Entered(first, steps) == Taken(first, steps) + OnItsWay(n)
  {
    InitInvariant(first);
    RunConveys(first, steps);
    assert OnItsWay(first) == [];
  }

  // ---- Requests for peers ----------------------------------------------------------

  function Answers(ds: seq<Delivery>): seq<Delivery> {
    if ds == [] then [] else (if ds[0].Answer? then [ds[0]] else []) + Answers(ds[1..])
  }

  lemma {:induction false} AnswersConcat(a: seq<Delivery>, b: seq<Delivery>)
    ensures Answers(a + b) == Answers(a) + Answers(b)
  {
    if a == [] {
      assert a + b == b;
    } else {
      assert (a + b)[1..] == a[1..] + b;
      AnswersConcat(a[1..], b);
    }
  }

  /** The requests for peers that the Gossiper makes in a step. */
  ghost function Requests(n: Node, step: Step): seq<Delivery>
    requires Enabled(n, step)
  {
    match step
    case GossiperHandles(clients, items) => Due(G.Next(n.g, G.Handle(n.gin[0], clients, items)).1)
    case GossiperRound(round) => Due(G.Next(n.g, round).1)
    case _ => []
  }

  ghost function Requested(n: Node, steps: seq<Step>): seq<Delivery>
    requires IsRun(n, steps)
    decreases |steps|
  {
    if steps == [] then [] else Requests(n, steps[0]) + Requested(Next(n, steps[0]), steps[1..])
  }

  /** The Gossiper's own queue hands its requests over in order. */
  ghost predicate HandsOver(n: Node, step: Step, n1: Node)
    requires Enabled(n, step)
  {
    Due(n.gout) + Requests(n, step) == Answers(Enters(n, step)) + Due(n1.gout)
  }

  lemma GossipHandsOver(n: Node, step: Step, n1: Node)
    requires Enabled(n, step) && n1 == Next(n, step) && (step.GossiperHandles? || step.GossiperRound?)
    ensures HandsOver(n, step, n1)
  {
    hide G.Enabled, G.Next, Due;
    var out := if step.GossiperHandles? then G.Next(n.g, G.Handle(n.gin[0], step.clients, step.items)).1
               else G.Next(n.g, step.round).1;
    assert n1.gout == n.gout + out;
    DueConcat(n.gout, out);
  }

  lemma SendsHandsOver(n: Node, n1: Node)
    requires QueuesOk(n) && Enabled(n, GossiperSends) && n1 == Next(n, GossiperSends)
    ensures HandsOver(n, GossiperSends, n1)
  {
    var m := n.gout[0];
    assert m in n.gout && FromGossiper(m);
    assert Answers(DueOf(m)) == DueOf(m) by { assert DueOf(m) != [] ==> DueOf(m)[1..] == []; }
  }

  lemma EnvironmentHandsOver(n: Node, m: Msg, n1: Node)
    requires Enabled(n, Environment(m)) && n1.gout == n.gout
    ensures HandsOver(n, Environment(m), n1)
  {
    FromEnvironmentUncounted(n, m);
    assert Answers(DueOf(m)) == [] by { assert DueOf(m) != [] ==> DueOf(m)[1..] == []; }
  }

  lemma OtherHandsOver(n: Node, step: Step, n1: Node)
    requires Enabled(n, step) && n1 == Next(n, step)
    requires !step.GossiperHandles? && !step.GossiperRound? && !step.GossiperSends? && !step.Environment?
    ensures HandsOver(n, step, n1)
  {
    hide G.Enabled, G.Next, Turn, IsDraw, Due;
    if step.SubFails? && step.sub == Gossip {
      DueConcat(n.gout, [SubCrashed(Gossip)]);
      DueSingle(SubCrashed(Gossip));
    }
  }

  lemma StepHandsOver(n: Node, step: Step, n1: Node)
    requires QueuesOk(n) && Enabled(n, step) && n1 == Next(n, step)
    ensures HandsOver(n, step, n1)
  {
    hide HandsOver, QueuesOk, FromEnvironment, AfterGossip, AfterTurn;
    if step.GossiperHandles? || step.GossiperRound? {
      GossipHandsOver(n, step, n1);
    } else if step.GossiperSends? {
      SendsHandsOver(n, n1);
    } else if step.Environment? {
      EnvironmentHandsOver(n, step.m, n1);
    } else {
      OtherHandsOver(n, step, n1);
    }
  }

  lemma FirstHandsOver(n: Node, step: Step, n1: Node)
    requires Invariant(n) && Enabled(n, step) && n1 == Next(n, step)
    ensures HandsOver(n, step, n1)
  {
    hide HandsOver;
    InvariantAccounting(n);
    hide Invariant, Next;
    StepHandsOver(n, step, n1);
  }

  lemma {:induction false} RunHandsOver(n: Node, steps: seq<Step>)
    requires Invariant(n) && IsRun(n, steps) && After(n, steps).status != Crashed
    ensures Due(n.gout) + Requested(n, steps) == Answers(Entered(n, steps)) + Due(After(n, steps).gout)
    decreases |steps|
  {
    hide Invariant, Next, Enters, Requests, Due;
    if steps != [] {
      var n1, rest := Next(n, steps[0]), steps[1..];
      FirstSurvives(n, steps);
      StepInvariant(n, steps[0], n1);
      FirstHandsOver(n, steps[0], n1);
      RunHandsOver(n1, rest);
      AnswersConcat(Enters(n, steps[0]), Entered(n1, rest));
      Rotates(Due(n.gout), Requests(n, steps[0]), Answers(Enters(n, steps[0])), Due(n1.gout),
              Requested(n1, rest), Answers(Entered(n1, rest)), Due(After(n1, rest).gout));
    }
  }

  /** Before the shutdown, and as long as the Gossiper runs, each of its requests for peers gets
      one answer, for the item that it was made for, in the order of the requests: those that it
      has taken, those on their way and the requests that it has yet to hand over are together
      exactly those made. */
  lemma RequestsAnswered(first: Node, steps: seq<Step>, n: Node)
    requires Reaches(first, steps, n) && n.status != Crashed && !n.c.stopping && Gossip in n.alive
    ensures Requested(first, steps) == Answers(Taken(first, steps)) + Answers(OnItsWay(n)) + Due(n.gout)
  {
    hide Invariant, OnItsWay, Answers;
    InitInvariant(first);
    GossiperHearsAll(first, steps, n);
    RunHandsOver(first, steps);
    AnswersConcat(Taken(first, steps), OnItsWay(n));
    assert Due(first.gout) == [];
  }

  // ---- What an answer brings -------------------------------------------------------

  lemma HandledReply(g: G.Gossiper, step: G.GossipStep, x: Item)
    requires step.Handle? && G.Enabled(g, step) && step.m.RandomPeerListReply? && step.m.related == Some(x)
    ensures x in g.list ==> G.Next(g, step) == (g.(list := g.list[x := g.list[x].(peerList := step.m.peers)]), [])
    ensures x !in g.list ==> G.Next(g, step) == (g, [RandomPeerListRelease(step.m.peers)])
  {
  }

  /** A request for peers is answered with as many as it asks for, or all of the view list if that
      has fewer, distinct and taken from the view list; and an item that is active when the
      Gossiper handles the answer holds exactly these peers from then on. */
  lemma AnswerArrives(n: Node, draw: seq<Peer>, clients: seq<Client>, items: seq<Item>)
    requires Reachable(n) && n.status == Running && !n.c.stopping && n.gin == [] && Enabled(n, CentralTurn(draw))
    requires n.inbox[0].RandomPeerListRequest? && n.inbox[0].related.Some?
    requires AfterTurn(n, draw).status == Running && Enabled(AfterTurn(n, draw), GossiperHandles(clients, items))
    ensures var n2, m := Next(AfterTurn(n, draw), GossiperHandles(clients, items)), n.inbox[0];
      && Distinct(draw) && |draw| == Min(m.num, |n.c.view|) && (forall p :: p in draw ==> p in n.c.view)
      && (m.related.value in n.g.list ==>
            m.related.value in n2.g.list && n2.g.list[m.related.value] == n.g.list[m.related.value].(peerList := draw))
      && (m.related.value !in n.g.list ==> n2.gout == n.gout + [RandomPeerListRelease(draw)])
  {
    hide Reachable, Handle, ToldMembership;
    var m, n1 := n.inbox[0], AfterTurn(n, draw);
    TurnTellsGossiper(n, draw);
    TurnTook(n, draw, Turn(n.c, m, draw), n1);
    assert n1.gin == [RandomPeerListReply(m.related, draw)];
    HandledReply(n1.g, G.Handle(n1.gin[0], clients, items), m.related.value);
  }
}
