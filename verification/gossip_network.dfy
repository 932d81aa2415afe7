/** Several Gossipers that hear only of copies which one of them has sent: when an item that is
    announced to one node becomes active at another. */
module GossipNetwork {
  import opened Types
  import opened Messages
  import opened GossipItems
  import opened GossiperModel
  import opened GossiperInvariant
  import GossiperLease
  import opened GossiperLifetime
  import opened GossiperRounds
  import opened GossiperSends
  import opened GossiperSteps
  import opened GossiperSpreading

  /** `sent` are all copies that any node has sent so far. Each may arrive anywhere, any number
      of times, late or never. */
  datatype Net = Net(nodes: seq<Gossiper>, sent: set<ItemExt>)

  datatype NetStep = NetStep(node: nat, step: GossipStep)

  /** Copies of items that a message carries to another node. */
  function CopiesIn(m: Msg): set<ItemExt> {
    match m
    case GossipPush(x, state, counter, _) => {ItemExt(Some(x), state, counter)}
    case GossipPullReply(_, items) => set e | e in items
    case _ => {}
  }

  /** Copies that a message from another node brings. */
  function CopiesFrom(m: GossipMsg): set<ItemExt> {
    match m
    case IncomingPush(ext) => {ext}
    case IncomingPullReply(_, items) => set e | e in items
    case _ => {}
  }

  function AllCopies(out: seq<Msg>): set<ItemExt> {
    set m, e | m in out && e in CopiesIn(m) :: e
  }

  ghost predicate NetEnabled(n: Net, s: NetStep) {
    && s.node < |n.nodes| && Enabled(n.nodes[s.node], s.step)
    && (s.step.Handle? ==> CopiesFrom(s.step.m) <= n.sent)
  }

  ghost function NetNext(n: Net, s: NetStep): Net
    requires NetEnabled(n, s)
  {
    var r := Next(n.nodes[s.node], s.step);
    Net(n.nodes[s.node := r.0], n.sent + AllCopies(r.1))
  }

  ghost predicate IsNetRun(n: Net, steps: seq<NetStep>)
    decreases |steps|
  {
    steps == [] || (NetEnabled(n, steps[0]) && IsNetRun(NetNext(n, steps[0]), steps[1..]))
  }

  ghost function NetAfter(n: Net, steps: seq<NetStep>): Net
    requires IsNetRun(n, steps)
    decreases |steps|
  {
    if steps == [] then n else NetAfter(NetNext(n, steps[0]), steps[1..])
  }

  /** The item is announced to this node during these steps. */
  predicate AnnouncedAt(steps: seq<NetStep>, node: nat, x: Item) {
    exists s :: s in steps && s.node == node && s.step.Handle? && s.step.m.GossipAnnounce? && s.step.m.item == Some(x)
  }

  // ---- With the threshold 1 no item leaves its node --------------------------------

  /** A copy as a node sends it whose own items have never left the start of state B. */
  predicate IsStuck(e: ItemExt) {
    e.state == B && e.counter >= 1
  }

  /** The node has received nothing that it let in. */
  ghost predicate IsIsolated(g: Gossiper) {
    && Inv(g) && g.cfg.bMax <= 1 && g.incoming == map[]
    && forall x :: x in g.list ==> g.list[x].s.state == B && g.list[x].s.counter >= 1
  }

  lemma StuckNotAdmitted(cfg: Config, e: ItemExt)
    requires cfg.bMax <= 1 && IsStuck(e)
    ensures !Admits(cfg, e) && Normalised(cfg, e) == None
  {
  }

  lemma {:induction false} StuckIgnored(cfg: Config, incoming: map<Item, ItemInfo>, upTo: int, es: seq<ItemExt>)
    requires cfg.bMax <= 1 && forall e :: e in es ==> IsStuck(e)
    ensures PullAll(cfg, incoming, upTo, es) == incoming
    decreases |es|
  {
    if es != [] && upTo > 0 {
      StuckNotAdmitted(cfg, es[0]);
      StuckIgnored(cfg, incoming, upTo, es[1..]);
    }
  }

  /** Handlers of such a node let in what is announced, and nothing else. */
  lemma HandleIsolated(g: Gossiper, step: GossipStep)
    requires g.cfg.bMax <= 1 && g.incoming == map[] && OnlyB(g.list)
    requires step.Handle? && Enabled(g, step) && forall e :: e in CopiesFrom(step.m) ==> IsStuck(e)
    ensures var g1 := Next(g, step).0;
      && OnlyB(g1.list) && g1.incoming == map[] && g1.cfg == g.cfg
      && forall x :: x in g1.list && x !in g.list ==> step.m.GossipAnnounce? && step.m.item == Some(x)
  {
    hide AnnounceHandler, ValidationHandler, PushHandler, PullReplyHandler, ListReplyHandler, OnlyB, IsStuck;
    match step.m
    case GossipAnnounce(item, ttl) => AnnounceIsolated(g, item, ttl, step.clients);
    case GossipValidation(who, id, valid) => ValidationIsolated(g, who, id, valid);
    case RandomPeerListReply(related, peers) => ReplyIsolated(g, related, peers);
    case IncomingPush(e) => PushIsolated(g, e);
    case IncomingPullReply(from, es) => AnswerIsolated(g, from, es);
    case _ =>
  }

  ghost predicate OnlyB(list: map<Item, ItemInfo>) {
    forall x :: x in list ==> list[x].s.state == B && list[x].s.counter >= 1
  }

  lemma AnnounceIsolated(g: Gossiper, item: Option<Item>, ttl: uint8, order: seq<Client>)
    requires OnlyB(g.list) && forall c :: c in order ==> c in g.clients
    ensures var g1 := AnnounceHandler(g, item, ttl, order).0;
      && OnlyB(g1.list) && g1.incoming == g.incoming && g1.cfg == g.cfg
      && forall x :: x in g1.list && x !in g.list ==> item == Some(x)
  {
    hide NotifyOut, NotifiedAll;
  }

  lemma ValidationIsolated(g: Gossiper, who: Client, id: uint16, valid: bool)
    requires OnlyB(g.list) && g.incoming == map[]
    ensures var g1 := ValidationHandler(g, who, id, valid);
      OnlyB(g1.list) && g1.incoming == map[] && g1.cfg == g.cfg && g1.list.Keys <= g.list.Keys
  {
  }

  lemma ReplyIsolated(g: Gossiper, related: Option<Item>, peers: seq<Peer>)
    requires OnlyB(g.list)
    ensures var g1 := ListReplyHandler(g, related, peers).0;
      OnlyB(g1.list) && g1.incoming == g.incoming && g1.cfg == g.cfg && g1.list.Keys == g.list.Keys
  {
  }

  lemma PushIsolated(g: Gossiper, e: ItemExt)
    requires g.cfg.bMax <= 1 && IsStuck(e)
    ensures PushHandler(g, e) == g
  {
    StuckNotAdmitted(g.cfg, e);
  }

  lemma AnswerIsolated(g: Gossiper, from: Peer, es: seq<ItemExt>)
    requires g.cfg.bMax <= 1 && forall e :: e in es ==> IsStuck(e)
    ensures PullReplyHandler(g, from, es) == g.(pullPeers := PullReplyHandler(g, from, es).pullPeers)
  {
    StuckIgnored(g.cfg, g.incoming, g.cfg.cacheSize - |g.incoming|, es);
  }

  /** Rounds of such a node leave its items in state B and take in none. */
  lemma RoundIsolated(g: Gossiper, step: GossipStep)
    requires IsIsolated(g) && step.Round? && Enabled(g, step)
    ensures IsIsolated(Next(g, step).0) && Next(g, step).0.list.Keys <= g.list.Keys
  {
    hide RoundStep, VisitAll;
    var g1 := RoundStep(g, step).0;
    RoundInv(g, step, g1);
    var push, pull, mid := RoundSplit(g, step);
    forall x | x in g1.list ensures x in g.list && g1.list[x].s.state == B && g1.list[x].s.counter >= 1 {
      if x in g.list {
        LeavesIff(g, step, x);
        assert Settled(g.cfg, g.list[x].s);
        MedianRule(g, step, x);
      } else {
        RoundTakesIn(g, step, x);
      }
    }
  }

  lemma StepIsolated(g: Gossiper, step: GossipStep)
    requires IsIsolated(g) && Enabled(g, step)
    requires step.Handle? ==> forall e :: e in CopiesFrom(step.m) ==> IsStuck(e)
    ensures IsIsolated(Next(g, step).0)
    ensures forall x :: x in Next(g, step).0.list && x !in g.list ==>
      step.Handle? && step.m.GossipAnnounce? && step.m.item == Some(x)
  {
    hide Inv, RoundStep, HandleStep;
    StepInv(g, step);
    if step.Round? {
      RoundIsolated(g, step);
    } else {
      HandleIsolated(g, step);
    }
  }

  // ---- What is sent is one's own ---------------------------------------------------

  lemma RoundCopies(g: Gossiper, step: GossipStep, m: Msg, e: ItemExt)
    requires step.Round? && Enabled(g, step) && m in RoundStep(g, step).1 && e in CopiesIn(m)
    ensures IsOwnCopy(g, e)
  {
    hide RoundStep;
    RoundNoReply(g, step);
    PushedIff(g, step, m);
  }

  lemma HandleCopies(g: Gossiper, step: GossipStep, m: Msg, e: ItemExt)
    requires step.Handle? && Enabled(g, step) && m in Next(g, step).1 && e in CopiesIn(m)
    ensures IsOwnCopy(g, e) && step.m.IncomingPullRequest?
  {
    hide AnnounceHandler, ListReplyHandler, PushHandler, PullReplyHandler;
    match step.m
    case GossipAnnounce(item, ttl) => AnnounceCopies(g, item, ttl, step.clients);
    case RandomPeerListReply(_, _) => ReplyReleases(g, step);
    case IncomingPush(_) => KeepsList(g, step);
    case IncomingPullReply(_, _) => KeepsList(g, step);
    case IncomingPullRequest(_) => var entries := PullReplyListsActive(g, step);
    case _ =>
  }

  lemma AnnounceCopies(g: Gossiper, item: Option<Item>, ttl: uint8, order: seq<Client>)
    requires forall c :: c in order ==> c in g.clients
    ensures forall m :: m in AnnounceHandler(g, item, ttl, order).1 ==> IsForNews(m)
  {
    hide NotifyOut, NotifiedAll;
    if item.Some? {
      GossiperLease.NotifyOutKind(g.clients, item.value, order);
    }
  }

  /** Every copy that a node sends is one of an item that is active at it, as it is then. */
  lemma SendsOwnCopies(g: Gossiper, step: GossipStep, e: ItemExt)
    requires Enabled(g, step) && e in AllCopies(Next(g, step).1)
    ensures IsOwnCopy(g, e)
  {
    hide RoundStep, HandleStep, IsOwnCopy;
    var m :| m in Next(g, step).1 && e in CopiesIn(m);
    if step.Round? {
      RoundCopies(g, step, m, e);
    } else {
      HandleCopies(g, step, m, e);
    }
  }

  // ---- The whole network -----------------------------------------------------------

  ghost predicate AllIsolated(n: Net) {
    && (forall i :: 0 <= i < |n.nodes| ==> IsIsolated(n.nodes[i]))
    && (forall e :: e in n.sent ==> IsStuck(e))
  }

  lemma NetStepIsolated(n: Net, s: NetStep, i: nat, x: Item)
    requires AllIsolated(n) && NetEnabled(n, s) && i < |n.nodes|
    ensures AllIsolated(NetNext(n, s)) && |NetNext(n, s).nodes| == |n.nodes|
    ensures x in NetNext(n, s).nodes[i].list ==> x in n.nodes[i].list || AnnouncedAt([s], i, x)
  {
    hide IsStuck, Next, Enabled;
    var g, out := n.nodes[s.node], Next(n.nodes[s.node], s.step).1;
    StepIsolated(g, s.step);
    forall e | e in AllCopies(out) ensures IsStuck(e) {
      SendsOwnCopies(g, s.step, e);
      OwnCopyStuck(g, e);
    }
    if s.node == i {
      assert s in [s];
    }
  }

  lemma OwnCopyStuck(g: Gossiper, e: ItemExt)
    requires IsIsolated(g) && IsOwnCopy(g, e)
    ensures IsStuck(e)
  {
    hide Inv;
  }

  lemma AnnouncedMore(steps: seq<NetStep>, i: nat, x: Item)
    requires steps != [] && (AnnouncedAt([steps[0]], i, x) || AnnouncedAt(steps[1..], i, x))
    ensures AnnouncedAt(steps, i, x)
  {
    var first, rest := [steps[0]], steps[1..];
    assert forall s :: s in first || s in rest ==> s in steps;
  }

  lemma {:induction false} NetRunIsolated(n: Net, steps: seq<NetStep>, i: nat, x: Item)
    requires AllIsolated(n) && IsNetRun(n, steps) && i < |n.nodes|
    ensures |NetAfter(n, steps).nodes| == |n.nodes|
    ensures x in NetAfter(n, steps).nodes[i].list ==> x in n.nodes[i].list || AnnouncedAt(steps, i, x)
    decreases |steps|
  {
    hide AllIsolated, NetEnabled, NetNext;
    if steps != [] {
      var n1 := NetNext(n, steps[0]);
      NetStepIsolated(n, steps[0], i, x);
      NetRunIsolated(n1, steps[1..], i, x);
      if AnnouncedAt([steps[0]], i, x) || AnnouncedAt(steps[1..], i, x) {
        AnnouncedMore(steps, i, x);
      }
    }
  }

  ghost predicate NetStart(n: Net) {
    n.sent == {} && forall i :: 0 <= i < |n.nodes| ==> Initial(n.nodes[i])
  }

  /** In a network of nodes whose threshold is 1, as the constructor computes it for the degrees
      9 and 10, no item ever becomes active anywhere but where it was announced. */
  lemma NothingSpreads(n: Net, steps: seq<NetStep>, i: nat, x: Item)
    requires NetStart(n) && IsNetRun(n, steps) && i < |n.nodes|
    requires forall j :: 0 <= j < |n.nodes| ==> n.nodes[j].cfg.bMax <= 1
    ensures |NetAfter(n, steps).nodes| == |n.nodes|
    ensures x in NetAfter(n, steps).nodes[i].list ==> AnnouncedAt(steps, i, x)
  {
    forall j | 0 <= j < |n.nodes| ensures IsIsolated(n.nodes[j]) {
      InitialInv(n.nodes[j]);
    }
    NetRunIsolated(n, steps, i, x);
  }

  // ---- With a higher threshold items spread ----------------------------------------

  const ITEM := Item(0, "")
  const TARGET := Peer("")
  const COPY := ItemExt(Some(ITEM), B, 1)

  /** A run that leads from one state of the network to another and announces the item at no node
      but the first. */
  ghost predicate LeadsTo(n: Net, steps: seq<NetStep>, n1: Net) {
    IsNetRun(n, steps) && NetAfter(n, steps) == n1 && !AnnouncedAt(steps, 1, ITEM)
  }

  lemma {:induction false} LeadsOn(n: Net, steps: seq<NetStep>, mid: Net, s: NetStep)
    requires LeadsTo(n, steps, mid) && NetEnabled(mid, s) && !AnnouncedAt([s], 1, ITEM)
    ensures LeadsTo(n, steps + [s], NetNext(mid, s))
    decreases |steps|
  {
    hide NetEnabled, NetNext, AnnouncedAt;
    if steps == [] {
      assert steps + [s] == [s] && [s][1..] == [];
      assert IsNetRun(NetNext(n, s), []) && NetAfter(NetNext(n, s), []) == NetNext(n, s);
    } else {
      assert (steps + [s])[1..] == steps[1..] + [s];
      NotAnnouncedRest(steps, s);
      LeadsOn(NetNext(n, steps[0]), steps[1..], mid, s);
    }
  }

  lemma NotAnnouncedRest(steps: seq<NetStep>, s: NetStep)
    requires steps != [] && !AnnouncedAt(steps, 1, ITEM) && !AnnouncedAt([s], 1, ITEM)
    ensures !AnnouncedAt(steps[1..], 1, ITEM) && !AnnouncedAt(steps + [s], 1, ITEM)
  {
    assert forall t :: t in steps[1..] ==> t in steps;
    assert forall t :: t in steps + [s] ==> t in steps || t in [s];
  }

  /** The first node after the item was announced to it and it was granted a peer. */
  ghost function Announced(g: Gossiper): Gossiper {
    g.(list := map[ITEM := Fresh(B, 1, g.cfg.maxTTL)])
  }

  ghost function Supplied(g: Gossiper): Gossiper {
    g.(list := map[ITEM := ItemInfo(ItemState(B, 1, g.cfg.maxTTL, 0), [TARGET])])
  }

  lemma AnnounceStep(g: Gossiper, step: GossipStep)
    requires Initial(g) && g.cfg.cacheSize >= 1 && step == Handle(GossipAnnounce(Some(ITEM), 0), [], [])
    ensures Enabled(g, step) && Next(g, step).0 == Announced(g)
  {
    assert NotifiedAll(g.clients, ITEM) == map[];
  }

  lemma SupplyStep(g: Gossiper, step: GossipStep)
    requires Initial(g) && step == Handle(RandomPeerListReply(Some(ITEM), [TARGET]), [], [ITEM])
    ensures Enabled(Announced(g), step) && Next(Announced(g), step).0 == Supplied(g)
  {
  }

  lemma NoVisits(g: Gossiper)
    requires g.incoming == map[]
    ensures VisitOrder(g, [])
  {
    var none: seq<Visit> := [];
    assert seq(|none|, i requires 0 <= i < |none| => none[i].item) == [];
  }

  lemma SendStep(g: Gossiper, step: GossipStep)
    requires Initial(g) && g.cfg.degree >= 1 && step == Round([ITEM], [], [])
    ensures Enabled(Supplied(g), step) && COPY in AllCopies(Next(Supplied(g), step).1)
  {
    hide RoundStep;
    var h := Supplied(g);
    NoVisits(h);
    var m := GossipPush(ITEM, B, 1, TARGET);
    assert Targets(h.list[ITEM], g.cfg.degree)[0] == TARGET;
    PushedIff(h, step, m);
    assert COPY in CopiesIn(m);
  }

  /** The second node with the copy in its buffer. */
  ghost function Reached(g: Gossiper): Gossiper {
    g.(incoming := map[ITEM := Fresh(B, 1, g.cfg.maxTTL)])
  }

  lemma ReceiveStep(g: Gossiper, step: GossipStep)
    requires Initial(g) && g.cfg.cacheSize >= 1 && g.cfg.bMax >= 2 && step == Handle(IncomingPush(COPY), [], [])
    ensures Enabled(g, step) && Next(g, step).0 == Reached(g)
  {
  }

  lemma AdoptStep(g: Gossiper, step: GossipStep)
    requires Initial(g) && g.cfg.cacheSize >= 1 && g.cfg.bMax >= 2 && step == Round([], [], [Visit(ITEM, [])])
    ensures Enabled(Reached(g), step) && ITEM in Next(Reached(g), step).0.list
  {
    hide RoundStep;
    var h := Reached(g);
    assert seq(1, i requires 0 <= i < 1 => [Visit(ITEM, [])][i].item) == [ITEM];
    RoundTakesIn(h, step, ITEM);
    var l := RoundStep(h, step).0.list;
    if ITEM !in l {
      forall x ensures x !in l {
        RoundTakesIn(h, step, x);
      }
    }
  }

  /** Between two nodes whose threshold is at least 2 an announced item can become active at the
      other one. */
  lemma ItemSpreads(g: Gossiper, n: Net) returns (steps: seq<NetStep>, n1: Net)
    requires Initial(g) && g.cfg.cacheSize >= 1 && g.cfg.degree >= 1 && g.cfg.bMax >= 2 && n == Net([g, g], {})
    ensures LeadsTo(n, steps, n1) && |n1.nodes| == 2 && ITEM in n1.nodes[1].list
  {
    hide Initial, Enabled, Next;
    var s1 := NetStep(0, Handle(GossipAnnounce(Some(ITEM), 0), [], []));
    var s2 := NetStep(0, Handle(RandomPeerListReply(Some(ITEM), [TARGET]), [], [ITEM]));
    var s3 := NetStep(0, Round([ITEM], [], []));
    var s4 := NetStep(1, Handle(IncomingPush(COPY), [], []));
    var s5 := NetStep(1, Round([], [], [Visit(ITEM, [])]));
    assert LeadsTo(n, [], n);
    AnnounceStep(g, s1.step);
    LeadsOn(n, [], n, s1);
    var a := NetNext(n, s1);
    SupplyStep(g, s2.step);
    LeadsOn(n, [] + [s1], a, s2);
    var b := NetNext(a, s2);
    SendStep(g, s3.step);
    LeadsOn(n, [] + [s1] + [s2], b, s3);
    var c := NetNext(b, s3);
    ReceiveStep(g, s4.step);
    LeadsOn(n, [] + [s1] + [s2] + [s3], c, s4);
    var d := NetNext(c, s4);
    AdoptStep(g, s5.step);
    LeadsOn(n, [] + [s1] + [s2] + [s3] + [s4], d, s5);
    steps, n1 := [] + [s1] + [s2] + [s3] + [s4] + [s5], NetNext(d, s5);
  }

  ghost predicate Spreads(n: Net, steps: seq<NetStep>, x: Item) {
    && IsNetRun(n, steps) && |NetAfter(n, steps).nodes| == 2
    && x in NetAfter(n, steps).nodes[1].list && !AnnouncedAt(steps, 1, x)
  }

  /** An item can get from one node to another with the same set-up if and only if the threshold
      of state B is at least 2. */
  lemma SpreadsIff(g: Gossiper)
    requires Initial(g) && g.cfg.cacheSize >= 1 && g.cfg.degree >= 1
    ensures (exists steps, x :: Spreads(Net([g, g], {}), steps, x)) <==> g.cfg.bMax >= 2
  {
    hide Initial;
    var n := Net([g, g], {});
    if g.cfg.bMax >= 2 {
      var steps, n1 := ItemSpreads(g, n);
      assert Spreads(n, steps, ITEM);
    } else if exists steps, x :: Spreads(n, steps, x) {
      var steps, x :| Spreads(n, steps, x);
      NothingSpreads(n, steps, 1, x);
    }
  }
}
