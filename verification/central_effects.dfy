/** What one handled message does to the quantities that the node accounts for: running
    goroutines, dials under way, submodules, and the controller's goroutine counter. */
module CentralEffects {
  import opened Types
  import opened Messages
  import opened CentralModel
  import opened CentralTables

  function Bit(b: bool): int {
    if b then 1 else 0
  }

  // ---- Counting goroutines ---------------------------------------------------------

  function Endpoints(c: Central): set<Endpoint> {
    (set p | p in c.view :: Outgoing(p)) + (set p | p in c.awaiting :: Outgoing(p))
    + (set p | p in c.incoming :: Incoming(p)) + (set cl | cl in c.clients :: API(cl))
  }

  /** The goroutines recorded as running. */
  ghost function RunningSet(c: Central): set<Routine> {
    (set e | e in Endpoints(c) && Runs(c, Routine(e, true)) :: Routine(e, true))
    + (set e | e in Endpoints(c) && Runs(c, Routine(e, false)) :: Routine(e, false))
  }

  lemma InRunningSet(c: Central)
    ensures forall r :: r in RunningSet(c) <==> Runs(c, r)
  {
    forall r ensures r in RunningSet(c) <==> Runs(c, r) {
      if Runs(c, r) {
        assert r.endpoint in Endpoints(c);
        assert r == Routine(r.endpoint, r.isReader);
      }
    }
  }

  /** The counter is the number of submodules and endpoint goroutines not yet recorded as
      closed. */
  ghost predicate Accounted(c: Central) {
    c.total == |c.subs| + |RunningSet(c)|
  }

  lemma SameCount(c: Central, c1: Central)
    requires Accounted(c) && c1.total == c.total && c1.subs == c.subs
    requires forall r :: Runs(c1, r) <==> Runs(c, r)
    ensures Accounted(c1)
  {
    InRunningSet(c);
    InRunningSet(c1);
    assert RunningSet(c1) == RunningSet(c);
  }

  lemma StartedCount(c: Central, e: Endpoint, c1: Central)
    requires Accounted(c) && Started(c, e, c1)
    ensures Accounted(c1)
  {
    InRunningSet(c);
    InRunningSet(c1);
    var a, b := Routine(e, true), Routine(e, false);
    assert Runs(c1, a) && !Runs(c, a) && Runs(c1, b) && !Runs(c, b);
    forall r ensures r in RunningSet(c1) <==> r in RunningSet(c) + {a} + {b} {
      assert r == Routine(r.endpoint, r.isReader);
    }
    assert RunningSet(c1) == RunningSet(c) + {a} + {b};
  }

  lemma RecordedRuns(c: Central, r: Routine, c1: Central)
    requires Recorded(c, r, c1)
    ensures forall x :: Runs(c1, x) <==> Runs(c, x) && x != r
  {
    forall x ensures Runs(c1, x) <==> Runs(c, x) && x != r {
      if x.endpoint == r.endpoint && x != r {
        assert x == Routine(r.endpoint, !r.isReader);
      }
    }
  }

  lemma RecordedCount(c: Central, r: Routine, c1: Central)
    requires Accounted(c) && Runs(c, r) && Recorded(c, r, c1)
    ensures Accounted(c1)
  {
    InRunningSet(c);
    InRunningSet(c1);
    RecordedRuns(c, r, c1);
    assert RunningSet(c1) == RunningSet(c) - {r};
  }

  // ---- The effect of a message -----------------------------------------------------

  /** A message that can only arrive once what it reports has been recorded as expected. */
  ghost predicate Expected(c: Central, m: Msg) {
    && (m.EndpointClosed? ==> Runs(c, m.routine))
    && (m.OutgoingP2PCreated? ==> m.peer in c.creating)
    && (m.SubClosed? ==> m.sub in c.subs)
  }

  ghost predicate ToItself(self: seq<Msg>) {
    forall m :: m in self ==> (m.PeerAdd? || m.PeerRemove?) && m.self
  }

  ghost predicate RunsEffect(c: Central, m: Msg, r: Reply) {
    forall x :: Bit(Runs(r.c, x)) == Bit(Runs(c, x)) + r.started[x] - Bit(m.EndpointClosed? && m.routine == x)
  }

  ghost predicate DialsEffect(c: Central, m: Msg, r: Reply) {
    forall p :: Bit(p in r.c.creating) == Bit(p in c.creating) + r.dials[p] - Bit(m.OutgoingP2PCreated? && m.peer == p)
  }

  ghost predicate SubsEffect(c: Central, m: Msg, r: Reply) {
    r.c.subs == if m.SubClosed? then c.subs - {m.sub} else c.subs
  }

  ghost predicate ShutdownEffect(c: Central, m: Msg, r: Reply) {
    && (r.c.stopping <==> c.stopping || m.CentralClose?)
    && (!m.CentralClose? ==> r.asked == {} && GossiperClose !in r.gossiper)
  }

  /** Goroutines started minus closures reported, dials started minus ended, and submodules
      are exactly what the tables record; the rest of the tables stays in order. */
  ghost predicate Effect(c: Central, m: Msg, r: Reply) {
    && RunsEffect(c, m, r) && DialsEffect(c, m, r) && SubsEffect(c, m, r) && ShutdownEffect(c, m, r)
    && ToItself(r.self) && TablesOk(r.c) && Accounted(r.c)
  }

  /** Most messages leave all of this alone. */
  lemma NoEffect(c: Central, m: Msg, r: Reply)
    requires TablesOk(c) && Accounted(c)
    requires !m.EndpointClosed? && !m.OutgoingP2PCreated? && !m.SubClosed? && !m.CentralClose?
    requires TablesOk(r.c) && SameState(c, r.c) && r.c.creating.Keys == c.creating.Keys
    requires forall x :: Runs(r.c, x) <==> Runs(c, x)
    requires r.started == multiset{} && r.dials == multiset{} && r.asked == {} && ToItself(r.self)
    requires GossiperClose !in r.gossiper
    ensures Effect(c, m, r)
  {
    SameCount(c, r.c);
  }

  lemma CommandedRuns(c: Central, p: Peer, c1: Central)
    requires Commanded(c, p, c1)
    requires !SameSlots(c, c1) ==> forall b :: SlotRuns(SlotOf(c1, p), b) <==> SlotRuns(SlotOf(c, p), b)
    ensures forall x :: Runs(c1, x) <==> Runs(c, x)
  {
    if SameSlots(c, c1) {
      SlotsOnly(c, c1);
    } else {
      OnlySlotElsewhere(c, c1, p);
    }
  }

  lemma AddEffect(c: Central, p: Peer, self: bool, r: Reply)
    requires TablesOk(c) && Accounted(c) && r == PeerAddHandler(c, p)
    ensures Effect(c, PeerAdd(p, self), r)
  {
    AddTables(c, p, r.c);
    CommandedRuns(c, p, r.c);
    SameCount(c, r.c);
    AddDials(c, p, r);
  }

  lemma AddDials(c: Central, p: Peer, r: Reply)
    requires r == PeerAddHandler(c, p)
    ensures DialsEffect(c, PeerAdd(p, false), r)
    ensures r.started == multiset{} && r.asked == {} && r.self == [] && r.gossiper == []
  {
    if p in c.view || p in c.awaiting || p in c.creating || p in c.probing {
      AddOld(c, p, r);
    } else {
      AddDialed(c, p, r);
    }
  }

  lemma AddOld(c: Central, p: Peer, r: Reply)
    requires r == PeerAddHandler(c, p) && (p in c.view || p in c.awaiting || p in c.creating || p in c.probing)
    ensures r == Quiet(r.c) && r.c.creating.Keys == c.creating.Keys
  {
  }

  lemma AddDialed(c: Central, p: Peer, r: Reply)
    requires r == PeerAddHandler(c, p) && p !in c.view && p !in c.awaiting && p !in c.creating && p !in c.probing
    ensures r == Quiet(r.c).(dials := multiset{p}) && r.c.creating == c.creating[p := false]
  {
  }

  lemma RemoveEffect(c: Central, p: Peer, self: bool, r: Reply)
    requires TablesOk(c) && Accounted(c) && r == PeerRemoveHandler(c, p)
    ensures Effect(c, PeerRemove(p, self), r)
  {
    RemoveTables(c, p, r.c);
    CommandedRuns(c, p, r.c);
    RemoveQuiet(c, p, r);
    NoEffect(c, PeerRemove(p, self), r);
  }

  lemma RemoveQuiet(c: Central, p: Peer, r: Reply)
    requires r == PeerRemoveHandler(c, p)
    ensures r.c.creating.Keys == c.creating.Keys && r == Quiet(r.c)
  {
    if p in c.view {
      RemoveMoves(c, p, r);
    } else {
      RemoveMarks(c, p, r);
    }
  }

  lemma RemoveMoves(c: Central, p: Peer, r: Reply)
    requires r == PeerRemoveHandler(c, p) && p in c.view
    ensures r.c.creating == c.creating && r == Quiet(r.c)
  {
  }

  lemma RemoveMarks(c: Central, p: Peer, r: Reply)
    requires r == PeerRemoveHandler(c, p) && p !in c.view
    ensures r.c.creating.Keys == c.creating.Keys && r == Quiet(r.c)
  {
    if p in c.awaiting {
      assert r == Quiet(c);
    } else if p in c.creating {
      assert r == Quiet(c.(creating := c.creating[p := true]));
    }
  }

  lemma ProbeRequestEffect(c: Central, p: Peer, r: Reply)
    requires TablesOk(c) && Accounted(c) && r == ProbeRequestHandler(c, p)
    ensures Effect(c, ProbePeerRequest(p), r)
  {
    hide TablesOk, Accounted, Effect;
    ProbeTables(c, p, r.c);
    SlotsOnly(c, r.c);
    NoEffect(c, ProbePeerRequest(p), r);
  }

  lemma ProbeReplyEffect(c: Central, p: Peer, alive: bool, r: Reply)
    requires TablesOk(c) && Accounted(c) && r == ProbeReplyHandler(c, p, alive)
    ensures Effect(c, CentralProbePeerReply(p, alive), r)
  {
    hide TablesOk, Accounted, Effect;
    ProbeReplyTables(c, p, alive, r.c);
    SlotsOnly(c, r.c);
    NoEffect(c, CentralProbePeerReply(p, alive), r);
  }

  lemma RequestEffect(c: Central, related: Option<Item>, num: nat, draw: seq<Peer>, r: Reply)
    requires TablesOk(c) && Accounted(c) && r == ListRequestHandler(c, related, draw)
    ensures Effect(c, RandomPeerListRequest(related, num), r)
  {
    RequestTables(c, draw, r.c);
    NoEffect(c, RandomPeerListRequest(related, num), r);
  }

  lemma ReleaseEffect(c: Central, peers: seq<Peer>, r: Reply)
    requires TablesOk(c) && Accounted(c) && r == Quiet(ReleaseAll(c, peers))
    ensures Effect(c, RandomPeerListRelease(peers), r)
  {
    ReleaseAllTables(c, peers, r.c);
    NoEffect(c, RandomPeerListRelease(peers), r);
  }

  /** Messages that are only passed on. */
  lemma PassOnEffect(c: Central, m: Msg, r: Reply)
    requires TablesOk(c) && Accounted(c)
    requires !m.EndpointClosed? && !m.OutgoingP2PCreated? && !m.SubClosed? && !m.CentralClose?
    requires r.c == c && r.started == multiset{} && r.dials == multiset{} && r.asked == {} && r.self == []
    requires GossiperClose !in r.gossiper
    ensures Effect(c, m, r)
  {
    NoEffect(c, m, r);
  }

  lemma OutgoingCreatedEffect(c: Central, p: Peer, r: Reply)
    requires TablesOk(c) && Accounted(c) && p in c.creating && r == OutgoingCreatedHandler(c, p)
    ensures Effect(c, OutgoingP2PCreated(p), r)
  {
    CreatedTables(c, p, r.c);
    StartedCount(c, Outgoing(p), r.c);
    StartedRuns(c, Outgoing(p), r.c);
    CreatedDials(c, p, r);
  }

  lemma CreatedDials(c: Central, p: Peer, r: Reply)
    requires p in c.creating && r == OutgoingCreatedHandler(c, p)
    ensures DialsEffect(c, OutgoingP2PCreated(p), r)
    ensures r.started == BothRoutines(Outgoing(p)) && r.asked == {} && r.gossiper == [] && ToItself(r.self)
  {
  }

  lemma StartedRuns(c: Central, e: Endpoint, c1: Central)
    requires Started(c, e, c1)
    ensures forall x :: Bit(Runs(c1, x)) == Bit(Runs(c, x)) + BothRoutines(e)[x]
  {
    forall x ensures Bit(Runs(c1, x)) == Bit(Runs(c, x)) + BothRoutines(e)[x] {
      assert x == Routine(x.endpoint, x.isReader);
    }
  }

  /** A connection or client was accepted. */
  lemma AcceptedEffect(c: Central, m: Msg, e: Endpoint, r: Reply)
    requires Accounted(c) && Started(c, e, r.c) && TablesOk(r.c)
    requires m.IncomingP2PCreated? || m.APIEndpointCreated?
    requires r.c.creating == c.creating && r.c.subs == c.subs && r.c.stopping == c.stopping
    requires r == Quiet(r.c).(started := BothRoutines(e))
    ensures Effect(c, m, r)
  {
    StartedCount(c, e, r.c);
    StartedRuns(c, e, r.c);
  }

  lemma IncomingCreatedReply(c: Central, p: Peer, r: Reply)
    requires r == IncomingCreatedHandler(c, p)
    ensures r.c == c ==> r == Quiet(c)
    ensures r.c != c ==>
      r == Quiet(c.(incoming := r.c.incoming, total := r.c.total)).(started := BothRoutines(Incoming(p)))
  {
  }

  lemma IncomingCreatedEffect(c: Central, p: Peer, r: Reply)
    requires TablesOk(c) && Accounted(c) && r == IncomingCreatedHandler(c, p)
    ensures Effect(c, IncomingP2PCreated(p), r)
  {
    hide Effect, TablesOk, Accounted, Started;
    IncomingCreatedReply(c, p, r);
    if r.c == c {
      PassOnEffect(c, IncomingP2PCreated(p), r);
    } else {
      IncomingCreatedTables(c, p, r.c);
      AcceptedEffect(c, IncomingP2PCreated(p), Incoming(p), r);
    }
  }

  lemma APICreatedReply(c: Central, cl: Client, r: Reply)
    requires r == APICreatedHandler(c, cl)
    ensures r.c == c ==> r == Quiet(c)
    ensures r.c != c ==> r == Quiet(c.(clients := r.c.clients, total := r.c.total)).(started := BothRoutines(API(cl)))
  {
  }

  lemma APICreatedEffect(c: Central, cl: Client, r: Reply)
    requires TablesOk(c) && Accounted(c) && r == APICreatedHandler(c, cl)
    ensures Effect(c, APIEndpointCreated(cl), r)
  {
    hide Effect, TablesOk, Accounted, Started;
    APICreatedReply(c, cl, r);
    if r.c == c {
      PassOnEffect(c, APIEndpointCreated(cl), r);
    } else {
      APICreatedTables(c, cl, r.c);
      AcceptedEffect(c, APIEndpointCreated(cl), API(cl), r);
    }
  }

  lemma ClosedEffect(c: Central, x: Routine, crashed: bool, r: Reply)
    requires TablesOk(c) && Accounted(c) && Runs(c, x) && r == EndpointClosedHandler(c, x, crashed)
    ensures Effect(c, EndpointClosed(x, crashed), r)
  {
    EndpointClosedTables(c, x, crashed, r.c);
    RecordedCount(c, x, r.c);
    RecordedRuns(c, x, r.c);
    ClosedQuiet(c, x, crashed, r);
  }

  lemma ClosedQuiet(c: Central, x: Routine, crashed: bool, r: Reply)
    requires r == EndpointClosedHandler(c, x, crashed)
    ensures r.started == multiset{} && r.dials == multiset{} && r.asked == {} && r.self == []
    ensures GossiperClose !in r.gossiper
  {
    match x.endpoint
    case Outgoing(p) => OutgoingClosedQuiet(c, p, x.isReader, crashed, r);
    case Incoming(p) =>
    case API(cl) =>
  }

  lemma OutgoingClosedQuiet(c: Central, p: Peer, isReader: bool, crashed: bool, r: Reply)
    requires r == OutgoingClosedHandler(c, p, isReader, crashed)
    ensures r.started == multiset{} && r.dials == multiset{} && r.asked == {} && r.self == [] && r.gossiper == []
  {
    if SlotRuns(SlotOf(c, p), isReader) && !SlotRuns(SlotOf(c, p), !isReader) {
      OutgoingLastQuiet(c, p, isReader, crashed, r);
    } else {
      OutgoingFirstQuiet(c, p, isReader, crashed, r);
    }
  }

  lemma OutgoingLastQuiet(c: Central, p: Peer, isReader: bool, crashed: bool, r: Reply)
    requires r == OutgoingClosedHandler(c, p, isReader, crashed)
    requires SlotRuns(SlotOf(c, p), isReader) && !SlotRuns(SlotOf(c, p), !isReader)
    ensures r.started == multiset{} && r.dials == multiset{} && r.asked == {} && r.self == [] && r.gossiper == []
  {
    var i := Stopped(SlotOf(c, p).i, isReader, crashed);
    OutgoingGoneQuiet(PutOutgoing(c, p, i).(total := c.total - 1), p, i, p in c.awaiting, r);
  }

  lemma OutgoingFirstQuiet(c: Central, p: Peer, isReader: bool, crashed: bool, r: Reply)
    requires r == OutgoingClosedHandler(c, p, isReader, crashed)
    requires !SlotRuns(SlotOf(c, p), isReader) || SlotRuns(SlotOf(c, p), !isReader)
    ensures r.started == multiset{} && r.dials == multiset{} && r.asked == {} && r.self == [] && r.gossiper == []
  {
  }

  lemma OutgoingGoneQuiet(c: Central, p: Peer, i: PeerInfo, awaited: bool, r: Reply)
    requires r == OutgoingGoneHandler(c, p, i, awaited)
    ensures r.started == multiset{} && r.dials == multiset{} && r.asked == {} && r.self == [] && r.gossiper == []
  {
  }

  lemma SubClosedCount(c: Central, s: Sub, c1: Central)
    requires Accounted(c) && s in c.subs && c1 == c.(subs := c.subs - {s}, total := c.total - 1)
    ensures Accounted(c1)
  {
    SlotsOnly(c, c1);
    InRunningSet(c);
    InRunningSet(c1);
    assert RunningSet(c1) == RunningSet(c);
  }

  lemma SubClosedEffect(c: Central, s: Sub, r: Reply)
    requires TablesOk(c) && Accounted(c) && s in c.subs && r == SubClosedHandler(c, s)
    ensures Effect(c, SubClosed(s), r)
  {
    SlotsOnly(c, r.c);
    SubClosedCount(c, s, r.c);
  }

  lemma CloseEffect(c: Central, r: Reply)
    requires TablesOk(c) && Accounted(c) && r == CloseHandler(c) && r.outcome != Panic
    ensures Effect(c, CentralClose, r)
  {
    CloseTables(c, r.c);
    CloseRuns(c, r.c);
    SameCount(c, r.c);
  }

  // ---- Messages passed on ----------------------------------------------------------

  /** The endpoint that a passed message is meant for. */
  function Recipient(m: Msg): Option<Endpoint> {
    match m
    case GossipPush(_, _, _, to) => Some(Outgoing(to))
    case GossipPullRequest(to) => Some(Outgoing(to))
    case MembershipPullRequest(to) => Some(Outgoing(to))
    case MembershipPushRequest(to, true) => Some(Outgoing(to))
    case GossipPullReply(to, _) => Some(Incoming(to))
    case MembershipPullReply(to, _) => Some(Incoming(to))
    case GossipNotification(cl, _, _) => Some(API(cl))
    case _ => None
  }

  /** A message is passed on exactly if its recipient's writer is running, and to nobody else. */
  lemma PassedIffWriterRuns(c: Central, m: Msg, draw: seq<Peer>, r: Reply)
    requires Recipient(m).Some? && r == Handle(c, m, draw)
    ensures Runs(c, Routine(Recipient(m).value, false)) ==> r.sent == [Sent(Recipient(m).value, m)]
    ensures !Runs(c, Routine(Recipient(m).value, false)) ==> r.sent == []
  {
  }
}
