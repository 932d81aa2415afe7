/** What each handler of the Central controller does to the peer tables: who may hold a
    peer, which goroutines run, and what the usage counters and the removal rule become. */
module CentralTables {
  import opened Types
  import opened Messages
  import opened CentralModel

  /** An outgoing peer is in at most one of the four tables. */
  ghost predicate Disjoint(c: Central) {
    && (forall p :: p in c.view ==> p !in c.awaiting && p !in c.creating && p !in c.probing)
    && (forall p :: p in c.awaiting ==> p !in c.creating && p !in c.probing)
    && (forall p :: p in c.creating ==> p !in c.probing)
  }

  /** An entry awaits removal because it is in use, or because it was told to close and
      has a goroutine left that has not. */
  predicate AwaitsForReason(i: PeerInfo) {
    i.usage > 0 || (i.closed && !BothStopped(i))
  }

  ghost predicate RemovalRule(awaiting: map<Peer, PeerInfo>) {
    forall p :: p in awaiting ==> AwaitsForReason(awaiting[p])
  }

  /** Connections and clients accepted from outside leave the tables when they stop. */
  ghost predicate AcceptedRun(incoming: map<Peer, PeerInfo>, clients: map<Client, ClientInfo>) {
    && (forall p :: p in incoming ==> !BothStopped(incoming[p]))
    && (forall cl :: cl in clients ==> clients[cl].reader || clients[cl].writer)
  }

  ghost predicate TablesOk(c: Central) {
    Disjoint(c) && RemovalRule(c.awaiting) && AcceptedRun(c.incoming, c.clients)
  }

  /** Where the record of an outgoing connection is kept. */
  datatype Slot = Absent | Viewed(i: PeerInfo) | Awaited(i: PeerInfo)

  function SlotOf(c: Central, p: Peer): Slot {
    if p in c.view then Viewed(c.view[p]) else if p in c.awaiting then Awaited(c.awaiting[p]) else Absent
  }

  predicate SlotRuns(s: Slot, isReader: bool) {
    !s.Absent? && IsRunning(s.i, isReader)
  }

  /** The controller believes that this goroutine runs. */
  predicate Runs(c: Central, r: Routine) {
    match r.endpoint
    case Outgoing(p) => SlotRuns(SlotOf(c, p), r.isReader)
    case Incoming(p) => p in c.incoming && IsRunning(c.incoming[p], r.isReader)
    case API(cl) => cl in c.clients && ClientRuns(c.clients[cl], r.isReader)
  }

  /** Leases granted on a peer; none once its record is gone. */
  function Usage(c: Central, p: Peer): int {
    SlotUsage(SlotOf(c, p))
  }

  function SlotUsage(s: Slot): int {
    if s.Absent? then 0 else s.i.usage
  }

  /** Counters stay as they are; only one below zero might go with its record. */
  ghost predicate UsageKept(c: Central, c1: Central) {
    forall q :: Usage(c1, q) >= Usage(c, q) && (Usage(c, q) >= 0 ==> Usage(c1, q) == Usage(c, q))
  }

  /** Close was called on the endpoint. */
  predicate Told(c: Central, e: Endpoint) {
    match e
    case Outgoing(p) => !SlotOf(c, p).Absent? && SlotOf(c, p).i.closed
    case Incoming(p) => p in c.incoming && c.incoming[p].closed
    case API(cl) => cl in c.clients && c.clients[cl].closed
  }

  // ---- Effects common to several handlers ------------------------------------------

  /** Nothing but the record of this outgoing peer may have changed. */
  ghost predicate OnlySlot(c: Central, c1: Central, p: Peer) {
    && c1.incoming == c.incoming && c1.clients == c.clients
    && forall q :: q != p ==> SlotOf(c1, q) == SlotOf(c, q)
  }

  /** Only the tables of peers being created or probed may have changed. */
  ghost predicate SameSlots(c: Central, c1: Central) {
    c1.view == c.view && c1.awaiting == c.awaiting && c1.incoming == c.incoming && c1.clients == c.clients
  }

  /** Goroutines of other endpoints are not affected. */
  ghost predicate SameElsewhere(c: Central, c1: Central, e: Endpoint) {
    forall r: Routine :: r.endpoint != e ==>
      (Runs(c1, r) <==> Runs(c, r)) && (Told(c1, r.endpoint) <==> Told(c, r.endpoint))
  }

  lemma OnlySlotElsewhere(c: Central, c1: Central, p: Peer)
    requires OnlySlot(c, c1, p)
    ensures SameElsewhere(c, c1, Outgoing(p))
    ensures forall q :: q != p ==> Usage(c1, q) == Usage(c, q)
  {
  }

  /** The counters and flags that only creations, closures and the shutdown change. */
  ghost predicate SameState(c: Central, c1: Central) {
    c1.subs == c.subs && c1.stopping == c.stopping && c1.total == c.total
  }

  // ---- Moves between the tables ----------------------------------------------------

  /** A record moves from the removal list back to the view list. */
  lemma MoveBack(c: Central, p: Peer, c1: Central)
    requires TablesOk(c) && p in c.awaiting && p !in c.view
    requires c1 == c.(awaiting := c.awaiting - {p}, view := c.view[p := c.awaiting[p]])
    ensures TablesOk(c1) && OnlySlot(c, c1, p) && SlotOf(c1, p) == Viewed(c.awaiting[p])
  {
  }

  /** What is left of a record that awaits removal. */
  function Removed(i: PeerInfo): Slot {
    if i.usage > 0 then Awaited(i) else if BothStopped(i) then Absent else Awaited(i.(closed := true))
  }

  /** A record is put on the removal list, from the view list or with a new counter. */
  lemma MoveAway(c: Central, p: Peer, i: PeerInfo, c1: Central)
    requires TablesOk(c) && HasSlot(c, p)
    requires c1.view == c.view - {p} && c1.awaiting == RemoveIfUnused(c.awaiting[p := i], p)
    requires c1.incoming == c.incoming && c1.clients == c.clients
    requires c1.creating == c.creating && c1.probing == c.probing
    ensures TablesOk(c1) && OnlySlot(c, c1, p) && SlotOf(c1, p) == Removed(i)
  {
    hide RemoveIfUnused;
    RemoveIfUnusedEffect(c.awaiting[p := i], p, c1.awaiting);
  }

  predicate HasSlot(c: Central, p: Peer) {
    p in c.view || p in c.awaiting
  }

  lemma RemoveIfUnusedEffect(m: map<Peer, PeerInfo>, p: Peer, m1: map<Peer, PeerInfo>)
    requires p in m && m1 == RemoveIfUnused(m, p)
    ensures forall q :: q != p ==> (q in m1 <==> q in m)
    ensures forall q :: q != p && q in m ==> m1[q] == m[q]
    ensures p in m1 <==> Removed(m[p]).Awaited?
    ensures p in m1 ==> Removed(m[p]) == Awaited(m1[p]) && AwaitsForReason(m1[p])
  {
  }

  /** A peer's flag is set in one of the tables of peers being created or probed. */
  lemma MarkCreating(c: Central, p: Peer, b: bool, c1: Central)
    requires TablesOk(c) && c1 == c.(creating := c.creating[p := b])
    requires p in c.creating || (p !in c.view && p !in c.awaiting && p !in c.probing)
    ensures TablesOk(c1) && SameSlots(c, c1)
  {
  }

  lemma MarkProbing(c: Central, p: Peer, b: bool, c1: Central)
    requires TablesOk(c) && c1 == c.(probing := c.probing[p := b])
    requires p in c.probing || (p !in c.view && p !in c.awaiting && p !in c.creating)
    ensures TablesOk(c1) && SameSlots(c, c1)
  {
  }

  // ---- Commands --------------------------------------------------------------------

  /** A command leaves the records alone, except that it may move that of its own peer. */
  ghost predicate Commanded(c: Central, p: Peer, c1: Central) {
    TablesOk(c1) && SameState(c, c1) && (SameSlots(c, c1) || OnlySlot(c, c1, p))
  }

  lemma AddAwaited(c: Central, p: Peer, c1: Central)
    requires TablesOk(c) && p in c.awaiting && c1 == PeerAddHandler(c, p).c
    ensures Commanded(c, p, c1) && OnlySlot(c, c1, p) && SlotOf(c1, p) == Viewed(c.awaiting[p])
  {
    assert c1 == c.(awaiting := c.awaiting - {p}, view := c.view[p := c.awaiting[p]]);
    MoveBack(c, p, c1);
  }

  lemma AddCreating(c: Central, p: Peer, c1: Central)
    requires TablesOk(c) && p in c.creating && c1 == PeerAddHandler(c, p).c
    ensures Commanded(c, p, c1) && SameSlots(c, c1)
  {
    assert c1 == c.(creating := c.creating[p := false]);
    MarkCreating(c, p, false, c1);
  }

  lemma AddProbing(c: Central, p: Peer, c1: Central)
    requires TablesOk(c) && p in c.probing && c1 == PeerAddHandler(c, p).c
    ensures Commanded(c, p, c1) && SameSlots(c, c1)
  {
    assert c1 == c.(probing := c.probing[p := true]);
    MarkProbing(c, p, true, c1);
  }

  lemma AddNew(c: Central, p: Peer, c1: Central)
    requires TablesOk(c) && p !in c.view && p !in c.awaiting && p !in c.creating && p !in c.probing
    requires c1 == PeerAddHandler(c, p).c
    ensures Commanded(c, p, c1) && SameSlots(c, c1)
  {
    assert c1 == c.(creating := c.creating[p := false]);
    MarkCreating(c, p, false, c1);
  }

  lemma AddTables(c: Central, p: Peer, c1: Central)
    requires TablesOk(c) && c1 == PeerAddHandler(c, p).c
    ensures Commanded(c, p, c1)
    ensures p in c.awaiting ==> OnlySlot(c, c1, p) && SlotOf(c1, p) == Viewed(c.awaiting[p])
    ensures p !in c.awaiting ==> SameSlots(c, c1)
  {
    if p in c.awaiting {
      AddAwaited(c, p, c1);
    } else if p in c.creating {
      AddCreating(c, p, c1);
    } else if p in c.probing {
      AddProbing(c, p, c1);
    } else if p !in c.view {
      AddNew(c, p, c1);
    }
  }

  lemma RemoveViewed(c: Central, p: Peer, c1: Central)
    requires TablesOk(c) && p in c.view && c1 == PeerRemoveHandler(c, p).c
    ensures Commanded(c, p, c1) && OnlySlot(c, c1, p) && SlotOf(c1, p) == Removed(c.view[p])
  {
    assert c1 == c.(view := c.view - {p}, awaiting := RemoveIfUnused(c.awaiting[p := c.view[p]], p));
    MoveAway(c, p, c.view[p], c1);
  }

  lemma RemoveCreating(c: Central, p: Peer, c1: Central)
    requires TablesOk(c) && p in c.creating && c1 == PeerRemoveHandler(c, p).c
    ensures Commanded(c, p, c1) && SameSlots(c, c1)
  {
    assert c1 == c.(creating := c.creating[p := true]);
    MarkCreating(c, p, true, c1);
  }

  lemma RemoveProbing(c: Central, p: Peer, c1: Central)
    requires TablesOk(c) && p in c.probing && c1 == PeerRemoveHandler(c, p).c
    ensures Commanded(c, p, c1) && SameSlots(c, c1)
  {
    assert c1 == c.(probing := c.probing[p := false]);
    MarkProbing(c, p, false, c1);
  }

  lemma RemoveTables(c: Central, p: Peer, c1: Central)
    requires TablesOk(c) && c1 == PeerRemoveHandler(c, p).c
    ensures Commanded(c, p, c1)
    ensures p in c.view ==> OnlySlot(c, c1, p) && SlotOf(c1, p) == Removed(c.view[p])
    ensures p !in c.view ==> SameSlots(c, c1)
  {
    if p in c.view {
      RemoveViewed(c, p, c1);
    } else if p in c.creating {
      RemoveCreating(c, p, c1);
    } else if p in c.probing {
      RemoveProbing(c, p, c1);
    }
  }

  lemma ProbeTables(c: Central, p: Peer, c1: Central)
    requires TablesOk(c) && c1 == ProbeRequestHandler(c, p).c
    ensures TablesOk(c1) && c1 == c.(probing := c1.probing)
  {
    hide TablesOk;
    if p in c.view || p in c.awaiting || p in c.creating {
      assert c1 == c;
    } else {
      MarkProbing(c, p, false, c1);
    }
  }

  lemma ProbeReplyTables(c: Central, p: Peer, alive: bool, c1: Central)
    requires TablesOk(c) && c1 == ProbeReplyHandler(c, p, alive).c
    ensures TablesOk(c1) && c1 == c.(probing := c1.probing)
  {
    if p in c.probing {
      assert c1 == c.(probing := c.probing - {p});
    } else {
      assert c1 == c;
    }
  }

  // ---- Leases ----------------------------------------------------------------------

  /** The lookup functions do not depend on the other tables. */
  lemma SlotsOnly(c: Central, c1: Central)
    requires c1.view == c.view && c1.awaiting == c.awaiting && c1.incoming == c.incoming && c1.clients == c.clients
    ensures forall r :: Runs(c1, r) <==> Runs(c, r)
    ensures forall p :: Usage(c1, p) == Usage(c, p)
    ensures forall e :: Told(c1, e) <==> Told(c, e)
  {
  }

  lemma RequestTables(c: Central, draw: seq<Peer>, c1: Central)
    requires TablesOk(c) && c1 == c.(view := Leased(c.view, draw))
    ensures TablesOk(c1) && c1.view.Keys == c.view.Keys
    ensures forall r :: Runs(c1, r) <==> Runs(c, r)
    ensures forall e :: Told(c1, e) <==> Told(c, e)
  {
  }

  lemma RequestUsage(c: Central, draw: seq<Peer>, c1: Central)
    requires c1 == c.(view := Leased(c.view, draw))
    requires Distinct(draw) && forall p :: p in draw ==> p in c.view
    ensures forall p :: Usage(c1, p) == Usage(c, p) + multiset(draw)[p]
  {
    forall p ensures multiset(draw)[p] == if p in draw then 1 else 0 {
      DistinctCount(draw, p);
    }
  }

  lemma {:induction false} DistinctCount(xs: seq<Peer>, p: Peer)
    requires Distinct(xs)
    ensures multiset(xs)[p] == if p in xs then 1 else 0
  {
    if xs != [] {
      DistinctTail(xs);
      assert xs == [xs[0]] + xs[1..];
      DistinctCount(xs[1..], p);
    }
  }

  function ReleasedSlot(s: Slot): Slot {
    match s
    case Absent => Absent
    case Viewed(i) => Viewed(i.(usage := i.usage - 1))
    case Awaited(i) => Removed(i.(usage := i.usage - 1))
  }

  lemma ReleaseViewed(c: Central, p: Peer, c1: Central)
    requires TablesOk(c) && p in c.view
    requires c1 == c.(view := c.view[p := c.view[p].(usage := c.view[p].usage - 1)])
    ensures TablesOk(c1) && OnlySlot(c, c1, p) && SlotOf(c1, p) == ReleasedSlot(SlotOf(c, p))
    ensures c1.view.Keys == c.view.Keys
  {
  }

  lemma ReleaseAwaited(c: Central, p: Peer, i: PeerInfo, c1: Central)
    requires TablesOk(c) && p in c.awaiting && i == c.awaiting[p].(usage := c.awaiting[p].usage - 1)
    requires c1 == c.(awaiting := RemoveIfUnused(c.awaiting[p := i], p))
    ensures TablesOk(c1) && OnlySlot(c, c1, p) && SlotOf(c1, p) == ReleasedSlot(SlotOf(c, p))
    ensures c1.awaiting.Keys <= c.awaiting.Keys
  {
    assert c.view - {p} == c.view;
    MoveAway(c, p, i, c1);
    RemoveIfUnusedEffect(c.awaiting[p := i], p, c1.awaiting);
  }

  lemma ReleaseOneSlots(c: Central, p: Peer, c1: Central)
    requires TablesOk(c) && c1 == ReleaseOne(c, p)
    ensures TablesOk(c1) && OnlySlot(c, c1, p) && SlotOf(c1, p) == ReleasedSlot(SlotOf(c, p))
    ensures c1 == c.(view := c1.view, awaiting := c1.awaiting)
    ensures c1.view.Keys == c.view.Keys && c1.awaiting.Keys <= c.awaiting.Keys
  {
    hide TablesOk;
    if p in c.view {
      ReleaseViewed(c, p, c1);
    } else if p in c.awaiting {
      ReleaseAwaited(c, p, c.awaiting[p].(usage := c.awaiting[p].usage - 1), c1);
    } else {
      assert c1 == c;
    }
  }

  /** Effect of releasing a list of peers: counters drop by no more than their number of
      occurrences, and entries awaiting removal may go. */
  ghost predicate ReleasedTables(c: Central, c1: Central) {
    && c1 == c.(view := c1.view, awaiting := c1.awaiting)
    && c1.view.Keys == c.view.Keys && c1.awaiting.Keys <= c.awaiting.Keys
    && (forall r :: Runs(c1, r) <==> Runs(c, r))
    && (forall e :: Told(c, e) && !Told(c1, e) ==> forall b :: !Runs(c1, Routine(e, b)))
  }

  lemma ReleaseOneTables(c: Central, p: Peer, c1: Central)
    requires TablesOk(c) && c1 == ReleaseOne(c, p)
    ensures TablesOk(c1) && ReleasedTables(c, c1)
    ensures forall q :: Usage(c1, q) >= Usage(c, q) - (if q == p then 1 else 0)
  {
    ReleaseOneSlots(c, p, c1);
    OnlySlotElsewhere(c, c1, p);
    ReleasedSlotRuns(c, c1, p);
  }

  lemma ReleasedSlotRuns(c: Central, c1: Central, p: Peer)
    requires SlotOf(c1, p) == ReleasedSlot(SlotOf(c, p)) && OnlySlot(c, c1, p)
    ensures forall r: Routine :: r.endpoint == Outgoing(p) ==> (Runs(c1, r) <==> Runs(c, r))
    ensures Told(c, Outgoing(p)) && !Told(c1, Outgoing(p)) ==> forall b :: !Runs(c1, Routine(Outgoing(p), b))
    ensures forall e :: e != Outgoing(p) ==> (Told(c1, e) <==> Told(c, e))
    ensures Usage(c1, p) >= Usage(c, p) - 1
  {
  }

  lemma {:induction false} ReleaseAllTables(c: Central, peers: seq<Peer>, c1: Central)
    requires TablesOk(c) && c1 == ReleaseAll(c, peers)
    ensures TablesOk(c1) && ReleasedTables(c, c1)
    ensures forall q :: Usage(c1, q) >= Usage(c, q) - multiset(peers)[q]
    decreases |peers|
  {
    if peers != [] {
      var mid := ReleaseOne(c, peers[0]);
      assert peers == [peers[0]] + peers[1..];
      ReleaseOneTables(c, peers[0], mid);
      ReleaseAllTables(mid, peers[1..], c1);
    }
  }

  lemma ReleaseOneUsage(c: Central, p: Peer, c1: Central)
    requires TablesOk(c) && c1 == ReleaseOne(c, p) && Usage(c, p) >= 1
    ensures TablesOk(c1) && Usage(c1, p) == Usage(c, p) - 1 && forall q :: q != p ==> Usage(c1, q) == Usage(c, q)
  {
    hide TablesOk, OnlySlot, SameElsewhere, ReleaseOne;
    ReleaseOneSlots(c, p, c1);
    OnlySlotElsewhere(c, c1, p);
  }

  /** As long as no more is given back than was granted, counters drop by exactly the number
      of occurrences. */
  lemma {:induction false} ReleaseAllUsage(c: Central, peers: seq<Peer>, c1: Central)
    requires TablesOk(c) && c1 == ReleaseAll(c, peers) && forall q :: multiset(peers)[q] <= Usage(c, q)
    ensures forall q :: Usage(c1, q) == Usage(c, q) - multiset(peers)[q]
    decreases |peers|
  {
    if peers != [] {
      var mid, rest := ReleaseOne(c, peers[0]), peers[1..];
      assert peers == [peers[0]] + rest;
      assert multiset(peers)[peers[0]] == 1 + multiset(rest)[peers[0]];
      assert multiset(peers)[peers[0]] <= Usage(c, peers[0]);
      ReleaseOneUsage(c, peers[0], mid);
      forall q ensures multiset(rest)[q] <= Usage(mid, q) {
        assert multiset(peers)[q] <= Usage(c, q);
      }
      ReleaseAllUsage(mid, rest, c1);
    }
  }

  // ---- Creation of endpoints -------------------------------------------------------

  /** Exactly the two goroutines of this endpoint have started. */
  ghost predicate Started(c: Central, e: Endpoint, c1: Central) {
    && c1.total == c.total + 2 && c1.subs == c.subs && c1.stopping == c.stopping
    && SameElsewhere(c, c1, e)
    && (forall b :: Runs(c1, Routine(e, b)) && !Runs(c, Routine(e, b)))
  }

  lemma CreatedTables(c: Central, p: Peer, c1: Central)
    requires TablesOk(c) && p in c.creating && c1 == OutgoingCreatedHandler(c, p).c
    ensures TablesOk(c1) && c1.creating == c.creating - {p} && c1.probing == c.probing
    ensures OnlySlot(c, c1, p) && SlotOf(c, p) == Absent && SlotOf(c1, p) == Viewed(FRESH_PEER)
    ensures Started(c, Outgoing(p), c1)
  {
    OnlySlotElsewhere(c, c1, p);
  }

  lemma IncomingCreatedTables(c: Central, p: Peer, c1: Central)
    requires TablesOk(c) && p !in c.incoming && c1 == c.(total := c.total + 2, incoming := c.incoming[p := FRESH_PEER])
    ensures TablesOk(c1) && Started(c, Incoming(p), c1)
    ensures forall q :: Usage(c1, q) == Usage(c, q)
  {
  }

  lemma APICreatedTables(c: Central, cl: Client, c1: Central)
    requires TablesOk(c) && cl !in c.clients && c1 == c.(total := c.total + 2, clients := c.clients[cl := FRESH_CLIENT])
    ensures TablesOk(c1) && Started(c, API(cl), c1)
    ensures forall q :: Usage(c1, q) == Usage(c, q)
  {
  }

  // ---- Closure of endpoints --------------------------------------------------------

  /** The closure of exactly this goroutine was recorded. */
  ghost predicate Recorded(c: Central, r: Routine, c1: Central) {
    && c1.total == c.total - 1 && c1.subs == c.subs && c1.stopping == c.stopping
    && c1.creating == c.creating && c1.probing == c.probing
    && SameElsewhere(c, c1, r.endpoint)
    && !Runs(c1, r)
    && (Runs(c1, Routine(r.endpoint, !r.isReader)) <==> Runs(c, Routine(r.endpoint, !r.isReader)))
    && (Runs(c1, Routine(r.endpoint, !r.isReader)) && Told(c, r.endpoint) ==> Told(c1, r.endpoint))
  }

  /** The record of an outgoing peer after one of its goroutines has stopped. */
  function StoppedSlot(s: Slot, isReader: bool, crashed: bool, stopping: bool): Slot
    requires !s.Absent?
  {
    var i := Stopped(s.i, isReader, crashed);
    if !BothStopped(i) then s.(i := ClosedIfCrashed(i))
    else if stopping || (s.Awaited? && i.usage <= 0) then Absent
    else s.(i := i)
  }

  /** The record of an outgoing peer is replaced in the table that holds it. */
  lemma PutViewed(c: Central, p: Peer, i: PeerInfo, c1: Central)
    requires TablesOk(c) && p in c.view && c1 == PutOutgoing(c, p, i).(total := c.total - 1)
    ensures c1 == c.(view := c.view[p := i], total := c.total - 1)
    ensures TablesOk(c1) && OnlySlot(c, c1, p) && SlotOf(c1, p) == Viewed(i)
  {
  }

  lemma PutAwaited(c: Central, p: Peer, i: PeerInfo, c1: Central)
    requires TablesOk(c) && p in c.awaiting && c1 == PutOutgoing(c, p, i).(total := c.total - 1)
    ensures c1 == c.(awaiting := c.awaiting[p := i], total := c.total - 1)
    ensures OnlySlot(c, c1, p) && SlotOf(c1, p) == Awaited(i)
    ensures Disjoint(c1) && AcceptedRun(c1.incoming, c1.clients) && RemovalRule(c1.awaiting - {p})
    ensures AwaitsForReason(i) ==> TablesOk(c1)
  {
  }

  /** The record of an outgoing peer is dropped. */
  lemma DropTables(c: Central, p: Peer, c1: Central)
    requires Disjoint(c) && AcceptedRun(c.incoming, c.clients) && RemovalRule(c.awaiting - {p})
    requires c1 == c.(view := c1.view, awaiting := c.awaiting - {p})
    requires c1.view == c.view - {p} || (p !in c.view && c1.view == c.view)
    ensures TablesOk(c1) && OnlySlot(c, c1, p) && SlotOf(c1, p) == Absent
  {
  }

  /** Both goroutines of an endpoint in the view list have stopped. */
  lemma ViewedGone(c: Central, p: Peer, i: PeerInfo, c1: Central)
    requires TablesOk(c) && SlotOf(c, p) == Viewed(i)
    requires c1 == OutgoingGoneHandler(c, p, i, p in c.awaiting).c
    ensures c1 == c.(view := c1.view, awaiting := c1.awaiting)
    ensures TablesOk(c1) && OnlySlot(c, c1, p)
    ensures SlotOf(c1, p) == (if c.stopping then Absent else Viewed(i))
  {
    if c.stopping {
      DropTables(c, p, c1);
    } else {
      assert c1 == c;
    }
  }

  /** Both goroutines of an endpoint that awaits removal have stopped. */
  lemma AwaitedGone(c: Central, p: Peer, i: PeerInfo, c1: Central)
    requires Disjoint(c) && AcceptedRun(c.incoming, c.clients) && RemovalRule(c.awaiting - {p})
    requires SlotOf(c, p) == Awaited(i) && c1 == OutgoingGoneHandler(c, p, i, p in c.awaiting).c
    ensures c1 == c.(view := c1.view, awaiting := c1.awaiting)
    ensures TablesOk(c1) && OnlySlot(c, c1, p)
    ensures SlotOf(c1, p) == (if c.stopping || i.usage <= 0 then Absent else Awaited(i))
  {
    if c.stopping || i.usage <= 0 {
      DropTables(c, p, c1);
    } else {
      assert c1 == c;
      assert forall q :: q in c.awaiting ==> q == p || c.awaiting[q] == (c.awaiting - {p})[q];
    }
  }

  /** What the closure of a goroutine of an outgoing endpoint does to its record. */
  ghost predicate SlotStopped(c: Central, p: Peer, isReader: bool, crashed: bool, c1: Central)
    requires HasSlot(c, p)
  {
    && TablesOk(c1) && OnlySlot(c, c1, p)
    && SlotOf(c1, p) == StoppedSlot(SlotOf(c, p), isReader, crashed, c.stopping)
    && c1 == c.(view := c1.view, awaiting := c1.awaiting, total := c.total - 1)
  }

  lemma FirstClosedViewed(c: Central, p: Peer, isReader: bool, crashed: bool, c1: Central)
    requires TablesOk(c) && p in c.view && SlotRuns(SlotOf(c, p), isReader) && SlotRuns(SlotOf(c, p), !isReader)
    requires c1 == OutgoingClosedHandler(c, p, isReader, crashed).c
    ensures SlotStopped(c, p, isReader, crashed, c1)
  {
    PutViewed(c, p, ClosedIfCrashed(Stopped(c.view[p], isReader, crashed)), c1);
  }

  lemma FirstClosedAwaited(c: Central, p: Peer, isReader: bool, crashed: bool, c1: Central)
    requires TablesOk(c) && p in c.awaiting && SlotRuns(SlotOf(c, p), isReader) && SlotRuns(SlotOf(c, p), !isReader)
    requires c1 == OutgoingClosedHandler(c, p, isReader, crashed).c
    ensures SlotStopped(c, p, isReader, crashed, c1)
  {
    PutAwaited(c, p, ClosedIfCrashed(Stopped(c.awaiting[p], isReader, crashed)), c1);
  }

  lemma LastClosedViewed(c: Central, p: Peer, isReader: bool, crashed: bool, c1: Central)
    requires TablesOk(c) && p in c.view && SlotRuns(SlotOf(c, p), isReader) && !SlotRuns(SlotOf(c, p), !isReader)
    requires c1 == OutgoingClosedHandler(c, p, isReader, crashed).c
    ensures SlotStopped(c, p, isReader, crashed, c1)
  {
    hide TablesOk;
    var i := Stopped(c.view[p], isReader, crashed);
    var mid := PutOutgoing(c, p, i).(total := c.total - 1);
    PutViewed(c, p, i, mid);
    ViewedGone(mid, p, i, c1);
  }

  lemma LastClosedAwaited(c: Central, p: Peer, isReader: bool, crashed: bool, c1: Central)
    requires TablesOk(c) && p in c.awaiting && SlotRuns(SlotOf(c, p), isReader) && !SlotRuns(SlotOf(c, p), !isReader)
    requires c1 == OutgoingClosedHandler(c, p, isReader, crashed).c
    ensures SlotStopped(c, p, isReader, crashed, c1)
  {
    hide TablesOk;
    var i := Stopped(c.awaiting[p], isReader, crashed);
    var mid := PutOutgoing(c, p, i).(total := c.total - 1);
    PutAwaited(c, p, i, mid);
    AwaitedGone(mid, p, i, c1);
  }

  lemma StoppedSlotRuns(c: Central, p: Peer, isReader: bool, crashed: bool, c1: Central)
    requires SlotRuns(SlotOf(c, p), isReader) && OnlySlot(c, c1, p)
    requires SlotOf(c1, p) == StoppedSlot(SlotOf(c, p), isReader, crashed, c.stopping)
    requires c1 == c.(view := c1.view, awaiting := c1.awaiting, total := c.total - 1)
    ensures Recorded(c, Routine(Outgoing(p), isReader), c1)
    ensures !c.stopping ==> UsageKept(c, c1)
  {
    OnlySlotElsewhere(c, c1, p);
  }

  lemma OutgoingClosedSlot(c: Central, p: Peer, isReader: bool, crashed: bool, c1: Central)
    requires TablesOk(c) && Runs(c, Routine(Outgoing(p), isReader))
    requires c1 == OutgoingClosedHandler(c, p, isReader, crashed).c
    ensures SlotStopped(c, p, isReader, crashed, c1)
  {
    if p in c.view {
      if SlotRuns(SlotOf(c, p), !isReader) {
        FirstClosedViewed(c, p, isReader, crashed, c1);
      } else {
        LastClosedViewed(c, p, isReader, crashed, c1);
      }
    } else if SlotRuns(SlotOf(c, p), !isReader) {
      FirstClosedAwaited(c, p, isReader, crashed, c1);
    } else {
      LastClosedAwaited(c, p, isReader, crashed, c1);
    }
  }

  lemma OutgoingClosedTables(c: Central, p: Peer, isReader: bool, crashed: bool, c1: Central)
    requires TablesOk(c) && Runs(c, Routine(Outgoing(p), isReader))
    requires c1 == OutgoingClosedHandler(c, p, isReader, crashed).c
    ensures TablesOk(c1) && Recorded(c, Routine(Outgoing(p), isReader), c1)
    ensures !c.stopping ==> UsageKept(c, c1)
  {
    OutgoingClosedSlot(c, p, isReader, crashed, c1);
    OnlySlotElsewhere(c, c1, p);
    StoppedSlotRuns(c, p, isReader, crashed, c1);
  }

  lemma LastClosedIncoming(c: Central, p: Peer, isReader: bool, crashed: bool, c1: Central)
    requires TablesOk(c) && Runs(c, Routine(Incoming(p), isReader)) && !Runs(c, Routine(Incoming(p), !isReader))
    requires c1 == IncomingClosedHandler(c, p, isReader, crashed).c
    ensures TablesOk(c1) && Recorded(c, Routine(Incoming(p), isReader), c1)
    ensures forall q :: Usage(c1, q) == Usage(c, q)
  {
    assert c1 == c.(incoming := c.incoming - {p}, total := c.total - 1);
    IncomingDropped(c, p, isReader, c1);
  }

  lemma FirstClosedIncoming(c: Central, p: Peer, isReader: bool, crashed: bool, c1: Central)
    requires TablesOk(c) && Runs(c, Routine(Incoming(p), isReader)) && Runs(c, Routine(Incoming(p), !isReader))
    requires c1 == IncomingClosedHandler(c, p, isReader, crashed).c
    ensures TablesOk(c1) && Recorded(c, Routine(Incoming(p), isReader), c1)
    ensures forall q :: Usage(c1, q) == Usage(c, q)
  {
    var i := ClosedIfCrashed(Stopped(c.incoming[p], isReader, crashed));
    assert c1 == c.(incoming := c.incoming[p := i], total := c.total - 1);
    IncomingPut(c, p, isReader, i, c1);
  }

  lemma IncomingClosedTables(c: Central, p: Peer, isReader: bool, crashed: bool, c1: Central)
    requires TablesOk(c) && Runs(c, Routine(Incoming(p), isReader))
    requires c1 == IncomingClosedHandler(c, p, isReader, crashed).c
    ensures TablesOk(c1) && Recorded(c, Routine(Incoming(p), isReader), c1)
    ensures forall q :: Usage(c1, q) == Usage(c, q)
  {
    if Runs(c, Routine(Incoming(p), !isReader)) {
      FirstClosedIncoming(c, p, isReader, crashed, c1);
    } else {
      LastClosedIncoming(c, p, isReader, crashed, c1);
    }
  }

  lemma IncomingDropped(c: Central, p: Peer, isReader: bool, c1: Central)
    requires TablesOk(c) && p in c.incoming && !IsRunning(c.incoming[p], !isReader)
    requires c1 == c.(incoming := c.incoming - {p}, total := c.total - 1)
    ensures TablesOk(c1) && Recorded(c, Routine(Incoming(p), isReader), c1)
    ensures forall q :: Usage(c1, q) == Usage(c, q)
  {
  }

  lemma IncomingPut(c: Central, p: Peer, isReader: bool, i: PeerInfo, c1: Central)
    requires TablesOk(c) && p in c.incoming && !BothStopped(i)
    requires !IsRunning(i, isReader) && (IsRunning(i, !isReader) <==> IsRunning(c.incoming[p], !isReader))
    requires c.incoming[p].closed ==> i.closed
    requires c1 == c.(incoming := c.incoming[p := i], total := c.total - 1)
    ensures TablesOk(c1) && Recorded(c, Routine(Incoming(p), isReader), c1)
    ensures forall q :: Usage(c1, q) == Usage(c, q)
  {
  }

  lemma LastClosedClient(c: Central, cl: Client, isReader: bool, crashed: bool, c1: Central)
    requires TablesOk(c) && Runs(c, Routine(API(cl), isReader)) && !Runs(c, Routine(API(cl), !isReader))
    requires c1 == APIClosedHandler(c, cl, isReader, crashed).c
    ensures TablesOk(c1) && Recorded(c, Routine(API(cl), isReader), c1)
    ensures forall q :: Usage(c1, q) == Usage(c, q)
  {
    hide Recorded, TablesOk, Usage;
    assert c1 == c.(clients := c.clients - {cl}, total := c.total - 1);
    ClientDropped(c, cl, isReader, c1);
  }

  lemma FirstClosedClient(c: Central, cl: Client, isReader: bool, crashed: bool, c1: Central)
    requires TablesOk(c) && Runs(c, Routine(API(cl), isReader)) && Runs(c, Routine(API(cl), !isReader))
    requires c1 == APIClosedHandler(c, cl, isReader, crashed).c
    ensures TablesOk(c1) && Recorded(c, Routine(API(cl), isReader), c1)
    ensures forall q :: Usage(c1, q) == Usage(c, q)
  {
    hide Recorded, TablesOk, Usage;
    var i := StoppedClient(c.clients[cl], isReader, crashed);
    var i2 := if i.crashed then i.(closed := true) else i;
    assert c1 == c.(clients := c.clients[cl := i2], total := c.total - 1);
    ClientPut(c, cl, isReader, i2, c1);
  }

  lemma APIClosedTables(c: Central, cl: Client, isReader: bool, crashed: bool, c1: Central)
    requires TablesOk(c) && Runs(c, Routine(API(cl), isReader))
    requires c1 == APIClosedHandler(c, cl, isReader, crashed).c
    ensures TablesOk(c1) && Recorded(c, Routine(API(cl), isReader), c1)
    ensures forall q :: Usage(c1, q) == Usage(c, q)
  {
    if Runs(c, Routine(API(cl), !isReader)) {
      FirstClosedClient(c, cl, isReader, crashed, c1);
    } else {
      LastClosedClient(c, cl, isReader, crashed, c1);
    }
  }

  lemma ClientDropped(c: Central, cl: Client, isReader: bool, c1: Central)
    requires TablesOk(c) && cl in c.clients && !ClientRuns(c.clients[cl], !isReader)
    requires c1 == c.(clients := c.clients - {cl}, total := c.total - 1)
    ensures TablesOk(c1) && Recorded(c, Routine(API(cl), isReader), c1)
    ensures forall q :: Usage(c1, q) == Usage(c, q)
  {
  }

  lemma ClientPut(c: Central, cl: Client, isReader: bool, i: ClientInfo, c1: Central)
    requires TablesOk(c) && cl in c.clients && (i.reader || i.writer)
    requires !ClientRuns(i, isReader) && (ClientRuns(i, !isReader) <==> ClientRuns(c.clients[cl], !isReader))
    requires c.clients[cl].closed ==> i.closed
    requires c1 == c.(clients := c.clients[cl := i], total := c.total - 1)
    ensures TablesOk(c1) && Recorded(c, Routine(API(cl), isReader), c1)
    ensures forall q :: Usage(c1, q) == Usage(c, q)
  {
  }

  /** A closure reported for a goroutine that the tables record as running. */
  lemma EndpointClosedTables(c: Central, r: Routine, crashed: bool, c1: Central)
    requires TablesOk(c) && Runs(c, r) && c1 == EndpointClosedHandler(c, r, crashed).c
    ensures TablesOk(c1) && Recorded(c, r, c1)
    ensures !c.stopping ==> UsageKept(c, c1)
  {
    match r.endpoint
    case Outgoing(p) => OutgoingClosedTables(c, p, r.isReader, crashed, c1);
    case Incoming(p) => IncomingClosedTables(c, p, r.isReader, crashed, c1);
    case API(cl) => APIClosedTables(c, cl, r.isReader, crashed, c1);
  }

  // ---- Shutdown --------------------------------------------------------------------

  lemma CloseTables(c: Central, c1: Central)
    requires TablesOk(c) && c1 == ClosedTables(c)
    ensures TablesOk(c1) && c1.creating.Keys == c.creating.Keys
  {
  }

  lemma CloseRuns(c: Central, c1: Central)
    requires c1 == ClosedTables(c)
    ensures forall r :: Runs(c1, r) <==> Runs(c, r)
    ensures forall r :: Runs(c1, r) ==> Told(c1, r.endpoint)
  {
    assert c1.view == ClosedAll(c.view) && c1.awaiting == ClosedAll(c.awaiting);
  }
}
