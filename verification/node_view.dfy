/** The peers that the Central controller is on course to use follow the commands it has
    processed, on every run and up to one exception that is characterised exactly. */
module NodeView {
  import opened Types
  import opened Messages
  import opened GossiperLease
  import opened CentralModel
  import opened CentralTables
  import opened CentralEffects
  import opened CentralLifecycle
  import opened Node
  import opened NodeAccounting
  import opened NodeLease

  /** How the place of a peer relates to the commands processed for it. */
  predicate PeerOk(a: Place, wanted: bool, clobbered: bool, pending: bool) {
    && (a == Probed(true) ==> wanted)
    && (a.Dialled? ==> (a.unwanted <==> !wanted))
    && (a == Leaving ==> !wanted)
    && (clobbered ==> wanted && !Intends(a))
    && (!pending && !clobbered ==> (Intends(a) <==> wanted))
  }

  ghost predicate PeersFollow(n: Node, p: Peer) {
    PeerOk(PlaceOf(n.c, p), p in n.wanted, p in n.clobbered, Pending(n.inbox, p))
  }

  ghost predicate ViewFollows(n: Node) {
    !n.c.stopping ==> forall p :: PeersFollow(n, p)
  }

  // ---- One peer --------------------------------------------------------------------

  predicate IsCommand(m: Msg, p: Peer) {
    (m.PeerAdd? || m.PeerRemove?) && m.peer == p
  }

  /** A command settles the matter, whatever was going on before. */
  lemma CommandSettles(m: Msg, p: Peer, a: Place, b: Place, wanted: bool, pending: bool)
    requires IsCommand(m, p) && Moves(m, p, a, b) && (wanted <==> m.PeerAdd?)
    ensures PeerOk(b, wanted, false, pending)
  {
  }

  lemma ProbeKeeps(p: Peer, a: Place, b: Place, wanted: bool, clobbered: bool, pending: bool)
    requires PeerOk(a, wanted, clobbered, pending) && Moves(ProbePeerRequest(p), p, a, b)
    ensures PeerOk(b, wanted, clobbered || a == Probed(true), pending)
  {
  }

  /** A dial or a probe that ends leaves a command in the queue if its result is at odds
      with the last one. */
  lemma ResultKeeps(m: Msg, p: Peer, a: Place, b: Place, wanted: bool, clobbered: bool, pending: bool, pending1: bool)
    requires PeerOk(a, wanted, clobbered, pending) && Moves(m, p, a, b) && (pending ==> pending1)
    requires m.OutgoingP2PCreated? || m.CentralProbePeerReply?
    requires m.peer == p && (m.OutgoingP2PCreated? && a == Dialled(true) ==> pending1)
    requires m.peer == p && (m.CentralProbePeerReply? && a == Probed(true) ==> pending1)
    ensures PeerOk(b, wanted, clobbered, pending1)
  {
  }

  lemma OthersKeep(m: Msg, p: Peer, a: Place, b: Place, wanted: bool, clobbered: bool, pending: bool, pending1: bool)
    requires PeerOk(a, wanted, clobbered, pending) && Moves(m, p, a, b) && (pending ==> pending1)
    requires IsOther(m) || m.peer != p
    ensures PeerOk(b, wanted, clobbered, pending1)
  {
  }

  // ---- Turns of the Central controller ---------------------------------------------

  lemma PendingRest(q: seq<Msg>, self: seq<Msg>, p: Peer)
    requires q != []
    ensures Pending(q, p) && !IsCommand(q[0], p) ==> Pending(q[1..] + self, p)
    ensures Pending(self, p) ==> Pending(q[1..] + self, p)
  {
    assert q == [q[0]] + q[1..];
  }

  /** What remembering a message does to the history of one peer. */
  lemma RememberedPeer(n: Node, m: Msg, p: Peer)
    requires !n.c.stopping && Disjoint(n.c)
    ensures IsCommand(m, p) ==>
      (p in Remembered(n, m).wanted <==> m.PeerAdd?) && p !in Remembered(n, m).clobbered
    ensures !IsCommand(m, p) ==> (p in Remembered(n, m).wanted <==> p in n.wanted)
    ensures m == ProbePeerRequest(p) ==>
      (p in Remembered(n, m).clobbered <==> p in n.clobbered || PlaceOf(n.c, p) == Probed(true))
    ensures !IsCommand(m, p) && m != ProbePeerRequest(p) ==> (p in Remembered(n, m).clobbered <==> p in n.clobbered)
  {
  }

  /** What a turn leaves of the history and the queue. */
  ghost predicate Recollects(n: Node, r: Reply, n1: Node) {
    && n.inbox != [] && n1.c == r.c && n1.inbox == n.inbox[1..] + r.self
    && n1.wanted == Remembered(n, n.inbox[0]).wanted && n1.clobbered == Remembered(n, n.inbox[0]).clobbered
    && n1.ordered == OrderedAfter(n, n.inbox[0])
    && n1.overtaken == OvertakenAfter(n, n.inbox[0], n.inbox[1..], r.self)
  }

  lemma CorrectsPending(c: Central, m: Msg, self: seq<Msg>)
    requires Corrects(c, m, self)
    ensures DialUnwanted(c, m) || ProbeWanted(c, m) ==> Pending(self, m.peer)
  {
  }

  lemma TurnPeer(n: Node, r: Reply, n1: Node, p: Peer)
    requires !n.c.stopping && Disjoint(n.c) && PeersFollow(n, p)
    requires Recollects(n, r, n1) && Lives(n.c, n.inbox[0], r)
    ensures PeersFollow(n1, p)
  {
    var m, a, b := n.inbox[0], PlaceOf(n.c, p), PlaceOf(n1.c, p);
    assert Moves(m, p, a, b);
    RememberedPeer(n, m, p);
    PendingRest(n.inbox, r.self, p);
    CorrectsPending(n.c, m, r.self);
    if IsCommand(m, p) {
      CommandSettles(m, p, a, b, p in n1.wanted, Pending(n1.inbox, p));
    } else {
      TurnPeerKept(n, r, n1, p, a, b);
    }
  }

  lemma TurnPeerKept(n: Node, r: Reply, n1: Node, p: Peer, a: Place, b: Place)
    requires n.inbox != [] && !IsCommand(n.inbox[0], p) && PeersFollow(n, p)
    requires a == PlaceOf(n.c, p) && b == PlaceOf(n1.c, p) && Moves(n.inbox[0], p, a, b)
    requires p in n1.wanted <==> p in n.wanted
    requires Pending(n.inbox, p) ==> Pending(n1.inbox, p)
    requires n.inbox[0] == ProbePeerRequest(p) ==> (p in n1.clobbered <==> p in n.clobbered || a == Probed(true))
    requires n.inbox[0] != ProbePeerRequest(p) ==> (p in n1.clobbered <==> p in n.clobbered)
    requires (DialUnwanted(n.c, n.inbox[0]) || ProbeWanted(n.c, n.inbox[0])) && n.inbox[0].peer == p ==>
      Pending(n1.inbox, p)
    ensures PeersFollow(n1, p)
  {
    var m := n.inbox[0];
    if m == ProbePeerRequest(p) {
      ProbeKeeps(p, a, b, p in n.wanted, p in n.clobbered, Pending(n.inbox, p));
    } else if (m.OutgoingP2PCreated? || m.CentralProbePeerReply?) && m.peer == p {
      ResultKeeps(m, p, a, b, p in n.wanted, p in n.clobbered, Pending(n.inbox, p), Pending(n1.inbox, p));
    } else {
      OthersKeep(m, p, a, b, p in n.wanted, p in n.clobbered, Pending(n.inbox, p), Pending(n1.inbox, p));
    }
  }

  /** Outside the shutdown, each turn moves every peer along its life. */
  lemma TurnLives(n: Node, draw: seq<Peer>, r: Reply)
    requires Accounting(n) && n.inbox != [] && r == Turn(n.c, n.inbox[0], draw) && r.outcome != Panic
    requires !n.c.stopping && !r.c.stopping
    ensures Lives(n.c, n.inbox[0], r)
  {
    HeadExpected(n);
    TurnEffect(n, draw, r);
    assert n.inbox[0] in n.inbox;
    HandledLives(n.c, n.inbox[0], draw, r);
  }

  lemma TurnRecollects(n: Node, draw: seq<Peer>, r: Reply, n1: Node)
    requires n.inbox != [] && r == Turn(n.c, n.inbox[0], draw) && n1 == AfterTurn(n, draw)
    ensures Recollects(n, r, n1)
  {
  }

  lemma TurnView(n: Node, draw: seq<Peer>, n1: Node)
    requires Accounting(n) && ViewFollows(n) && n.inbox != [] && n1 == AfterTurn(n, draw) && n1.status != Crashed
    ensures ViewFollows(n1)
  {
    var r := Turn(n.c, n.inbox[0], draw);
    TurnTook(n, draw, r, n1);
    TurnEffect(n, draw, r);
    if !n.c.stopping && !r.c.stopping {
      TurnLives(n, draw, r);
      TurnRecollects(n, draw, r, n1);
      forall p ensures PeersFollow(n1, p) {
        TurnPeer(n, r, n1, p);
      }
    }
  }

  // ---- All steps -------------------------------------------------------------------

  /** Steps of the other parties only append to the queue. */
  lemma OtherStepKeeps(n: Node, step: Step, n1: Node)
    requires Enabled(n, step) && !step.CentralTurn? && n1 == Next(n, step)
    ensures n1.c == n.c && n1.wanted == n.wanted && n1.clobbered == n.clobbered && n.inbox <= n1.inbox
  {
  }

  lemma LongerQueue(n: Node, n1: Node, p: Peer)
    requires PeersFollow(n, p) && n.inbox <= n1.inbox
    requires n1.c == n.c && n1.wanted == n.wanted && n1.clobbered == n.clobbered
    ensures PeersFollow(n1, p)
  {
    assert forall m :: m in n.inbox ==> m in n1.inbox;
  }

  /** Every step of the node keeps the relation between places and commands. */
  lemma StepView(n: Node, step: Step, n1: Node)
    requires Accounting(n) && ViewFollows(n) && Enabled(n, step) && n1 == Next(n, step) && n1.status != Crashed
    ensures ViewFollows(n1)
  {
    if step.CentralTurn? {
      TurnView(n, step.draw, n1);
    } else {
      OtherStepKeeps(n, step, n1);
      if !n.c.stopping {
        forall p ensures PeersFollow(n1, p) {
          LongerQueue(n, n1, p);
        }
      }
    }
  }

  lemma InitView(n: Node)
    requires Init(n)
    ensures ViewFollows(n)
  {
  }

  /** The controller is on course to use exactly the peers whose last processed command was
      an add, except precisely those whose add a later probe request overwrote. */
  lemma IntendedIff(n: Node, p: Peer)
    requires ViewFollows(n) && !n.c.stopping && !Pending(n.inbox, p)
    ensures (Intends(PlaceOf(n.c, p)) <==> p in n.wanted) <==> p !in n.clobbered
  {
    assert PeersFollow(n, p);
  }

  // ---- Removal ---------------------------------------------------------------------

  /** When the record of an outgoing peer goes, nothing of it is left running, its leases
      have all been given back, and its removal was the last command. */
  ghost predicate GoneForGood(n: Node, n1: Node, p: Peer)
    requires n.inbox != []
  {
    && (forall b :: Runs(n.c, Routine(Outgoing(p), b)) ==>
          n.inbox[0].EndpointClosed? && n.inbox[0].routine == Routine(Outgoing(p), b))
    && Usage(n.c, p) - ReleasedBy(n.inbox[0])[p] <= 0 && Demand(n1)[p] == 0
    && p !in n1.wanted
  }

  lemma AbsentStopped(c: Central, m: Msg, r: Reply, p: Peer, b: bool)
    requires RunsEffect(c, m, r) && SlotOf(r.c, p).Absent? && Runs(c, Routine(Outgoing(p), b))
    ensures m.EndpointClosed? && m.routine == Routine(Outgoing(p), b)
  {
    assert !Runs(r.c, Routine(Outgoing(p), b));
  }

  lemma AbsentUnwanted(n: Node, r: Reply, n1: Node, p: Peer)
    requires !n.c.stopping && Disjoint(n.c) && PeersFollow(n, p)
    requires Recollects(n, r, n1) && Lives(n.c, n.inbox[0], r)
    requires !SlotOf(n.c, p).Absent? && SlotOf(n1.c, p).Absent?
    ensures p !in n1.wanted
  {
    RememberedPeer(n, n.inbox[0], p);
    assert Moves(n.inbox[0], p, PlaceOf(n.c, p), PlaceOf(n1.c, p));
  }

  lemma AbsentUnused(n: Node, r: Reply, n1: Node, p: Peer)
    requires n.inbox != [] && LeaseEffect(n.c, n.inbox[0], r) && Leases(n1) && !n1.c.stopping
    requires n1.c == r.c && SlotOf(n1.c, p).Absent?
    ensures Usage(n.c, p) - ReleasedBy(n.inbox[0])[p] <= 0 && Demand(n1)[p] == 0
  {
    assert Usage(r.c, p) == 0;
    assert Demand(n1)[p] <= Usage(n1.c, p);
  }

  lemma RemovalProtocol(n: Node, draw: seq<Peer>, n1: Node, p: Peer)
    requires Accounting(n) && Leases(n) && ViewFollows(n)
    requires Enabled(n, CentralTurn(draw)) && n1 == AfterTurn(n, draw) && n1.status != Crashed && !n1.c.stopping
    requires !SlotOf(n.c, p).Absent? && SlotOf(n1.c, p).Absent?
    ensures GoneForGood(n, n1, p)
  {
    var r := Turn(n.c, n.inbox[0], draw);
    TurnTook(n, draw, r, n1);
    TurnEffect(n, draw, r);
    TurnLives(n, draw, r);
    TurnRecollects(n, draw, r, n1);
    AbsentUnwanted(n, r, n1, p);
    RunningTurnLeases(n, draw, r);
    TurnLeases(n, draw, n1);
    AbsentUnused(n, r, n1, p);
    forall b | Runs(n.c, Routine(Outgoing(p), b))
      ensures n.inbox[0].EndpointClosed? && n.inbox[0].routine == Routine(Outgoing(p), b) {
      AbsentStopped(n.c, n.inbox[0], r, p, b);
    }
  }
}
