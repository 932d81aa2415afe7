/** How items travel from one node to another: whom the Gossiper pulls from and whose answers
    count, what an answer contains, and which copies another node lets in. */
module GossiperSpreading {
  import opened Types
  import opened Messages
  import opened GossipItems
  import opened GossiperModel
  import opened GossiperInvariant
  import opened GossiperIncoming
  import opened GossiperLease
  import opened GossiperRounds
  import opened GossiperSends
  import opened GossiperSteps

  // ---- Whom to pull from -----------------------------------------------------------

  /** Peers that a message grants for pulling. */
  function GrantedForPull(m: GossipMsg): set<Peer> {
    if m.RandomPeerListReply? && m.related.None? then ToSet(m.peers) else {}
  }

  function AnsweredBy(m: GossipMsg): set<Peer> {
    if m.IncomingPullReply? then {m.from} else {}
  }

  /** Peers granted for pulling since the last round, if `due` were at first. */
  function PullsDue(due: set<Peer>, steps: seq<GossipStep>): set<Peer>
    decreases |steps|
  {
    if steps == [] then due
    else PullsDue(if steps[0].Round? then {} else due + GrantedForPull(steps[0].m), steps[1..])
  }

  /** Peers that were due at the last round and have not answered since. */
  function PullsAwaited(due: set<Peer>, awaited: set<Peer>, steps: seq<GossipStep>): set<Peer>
    decreases |steps|
  {
    if steps == [] then awaited
    else if steps[0].Round? then PullsAwaited({}, due, steps[1..])
    else PullsAwaited(due + GrantedForPull(steps[0].m), awaited - AnsweredBy(steps[0].m), steps[1..])
  }

  lemma StepPulls(g: Gossiper, step: GossipStep)
    requires Enabled(g, step)
    ensures var g1 := Next(g, step).0;
      && (step.Round? ==> g1.nextPull == {} && g1.pullPeers == g.nextPull)
      && (step.Handle? ==>
            g1.nextPull == g.nextPull + GrantedForPull(step.m) && g1.pullPeers == g.pullPeers - AnsweredBy(step.m))
  {
    hide RoundStep, VisitAll, HandleStep, GrantedForPull, AnsweredBy;
    if step.Round? {
      var push, pull, mid := RoundSplit(g, step);
    } else {
      HandlePulls(g, step);
    }
  }

  lemma HandlePulls(g: Gossiper, step: GossipStep)
    requires step.Handle? && Enabled(g, step)
    ensures var g1 := Next(g, step).0;
      g1.nextPull == g.nextPull + GrantedForPull(step.m) && g1.pullPeers == g.pullPeers - AnsweredBy(step.m)
  {
    hide AnnounceHandler, ValidationHandler, PushHandler, PullReplyHandler, ListReplyHandler, PullRequestHandler;
    match step.m
    case GossipAnnounce(item, ttl) => AnnouncePulls(g, item, ttl, step.clients);
    case GossipValidation(who, id, valid) => ValidationPulls(g, who, id, valid);
    case RandomPeerListReply(related, peers) => ReplyPulls(g, related, peers);
    case IncomingPush(ext) => PushPulls(g, ext);
    case IncomingPullReply(from, exts) => AnswerPulls(g, from, exts);
    case _ =>
  }

  lemma ValidationPulls(g: Gossiper, who: Client, id: uint16, valid: bool)
    ensures var g1 := ValidationHandler(g, who, id, valid); g1.nextPull == g.nextPull && g1.pullPeers == g.pullPeers
  {
  }

  lemma ReplyPulls(g: Gossiper, related: Option<Item>, peers: seq<Peer>)
    ensures var g1 := ListReplyHandler(g, related, peers).0;
      g1.nextPull == g.nextPull + GrantedForPull(RandomPeerListReply(related, peers)) && g1.pullPeers == g.pullPeers
  {
  }

  lemma PushPulls(g: Gossiper, ext: ItemExt)
    ensures var g1 := PushHandler(g, ext); g1.nextPull == g.nextPull && g1.pullPeers == g.pullPeers
  {
    hide CheckAndAdd;
  }

  lemma AnswerPulls(g: Gossiper, from: Peer, exts: seq<ItemExt>)
    ensures var g1 := PullReplyHandler(g, from, exts);
      g1.nextPull == g.nextPull && g1.pullPeers == g.pullPeers - {from}
  {
    hide PullAll;
  }

  lemma AnnouncePulls(g: Gossiper, item: Option<Item>, ttl: uint8, order: seq<Client>)
    requires forall c :: c in order ==> c in g.clients
    ensures var g1 := AnnounceHandler(g, item, ttl, order).0; g1.nextPull == g.nextPull && g1.pullPeers == g.pullPeers
  {
    hide NotifyOut, NotifiedAll;
  }

  /** Over every run the next round pulls from exactly the peers granted for it since the last
      one, and an answer is awaited from exactly those of the last round that have not answered. */
  lemma {:induction false} PullsFollow(g: Gossiper, steps: seq<GossipStep>)
    requires IsRun(g, steps)
    ensures After(g, steps).nextPull == PullsDue(g.nextPull, steps)
    ensures After(g, steps).pullPeers == PullsAwaited(g.nextPull, g.pullPeers, steps)
    decreases |steps|
  {
    hide Next, Enabled, GrantedForPull, AnsweredBy;
    if steps != [] {
      StepPulls(g, steps[0]);
      PullsFollow(Next(g, steps[0]).0, steps[1..]);
    }
  }

  /** A round asks each of these peers once, and nothing else sends a pull request. */
  lemma PullRequestsIff(g: Gossiper, step: GossipStep, p: Peer)
    requires Enabled(g, step)
    ensures multiset(Next(g, step).1)[GossipPullRequest(p)] == if step.Round? && p in g.nextPull then 1 else 0
  {
    hide RoundStep, HandleStep;
    match step
    case Round(pushes, pulls, _) =>
      RoundPullRequests(g, step, p);
    case Handle(m, clients, items) =>
      HandleNoPull(g, step, p);
  }

  lemma HandleNoPull(g: Gossiper, step: GossipStep, p: Peer)
    requires step.Handle? && Enabled(g, step)
    ensures GossipPullRequest(p) !in Next(g, step).1
  {
    hide AnnounceHandler, ListReplyHandler, PushHandler, PullReplyHandler;
    match step.m
    case GossipAnnounce(item, ttl) => AnnounceNoPull(g, item, ttl, step.clients, p);
    case RandomPeerListReply(_, _) => ReplyReleases(g, step);
    case IncomingPush(_) => KeepsList(g, step);
    case IncomingPullReply(_, _) => KeepsList(g, step);
    case _ =>
  }

  lemma ReplyReleases(g: Gossiper, step: GossipStep)
    requires step.Handle? && Enabled(g, step) && step.m.RandomPeerListReply?
    ensures forall m :: m in Next(g, step).1 ==> m.RandomPeerListRelease?
  {
  }

  lemma AnnounceNoPull(g: Gossiper, item: Option<Item>, ttl: uint8, order: seq<Client>, p: Peer)
    requires forall c :: c in order ==> c in g.clients
    ensures GossipPullRequest(p) !in AnnounceHandler(g, item, ttl, order).1
  {
    hide NotifyOut;
    if item.Some? {
      NotifyOutKind(g.clients, item.value, order);
    }
  }

  lemma {:induction false} EnumeratedOnce(order: seq<Peer>, p: Peer)
    requires Distinct(order)
    ensures multiset(PullOut(order))[GossipPullRequest(p)] == if p in order then 1 else 0
  {
    if order != [] {
      DistinctTail(order);
      assert PullOut(order) == [GossipPullRequest(order[0])] + PullOut(order[1..]);
      assert order == [order[0]] + order[1..];
      EnumeratedOnce(order[1..], p);
    }
  }

  lemma RoundPullRequests(g: Gossiper, step: GossipStep, p: Peer)
    requires step.Round? && Enabled(g, step)
    ensures multiset(RoundStep(g, step).1)[GossipPullRequest(p)] == if p in g.nextPull then 1 else 0
  {
    hide RoundStep, VisitAll, PushRound, PullOut;
    var m := GossipPullRequest(p);
    var push, pull, mid := RoundSplit(g, step);
    var pushes, releases := PushParts(g, step.pushes);
    assert m !in pushes + releases;
    VisitsKinds(pull, step.visits);
    assert m !in VisitAll(pull, step.visits).1;
    EnumeratedOnce(step.pulls, p);
    assert p in step.pulls <==> p in g.nextPull;
    assert PullRound(push, step.pulls).1 == PullOut(step.pulls) + [RandomPeerListRequest(None, g.cfg.degree)];
  }

  /** The kinds of messages that visits to received items send. */
  predicate IsForNews(m: Msg) {
    m.GossipNotification? || m.RandomPeerListRequest?
  }

  lemma VisitKinds(g: Gossiper, v: Visit)
    requires v.item in g.incoming && forall c :: c in v.clients ==> c in g.clients
    ensures forall m :: m in VisitOne(g, v).1 ==> IsForNews(m)
  {
    hide Adopt, Updated;
    if v.item in g.oldList || v.item in g.list {
      assert VisitOne(g, v).1 == [];
    } else {
      assert VisitOne(g, v) == Adopt(g, v.item, v.clients);
      AdoptNews(g, v.item, v.clients);
    }
  }

  lemma AdoptNews(g: Gossiper, x: Item, order: seq<Client>)
    requires x in g.incoming && x !in g.list && forall c :: c in order ==> c in g.clients
    ensures forall m :: m in Adopt(g, x, order).1 ==> IsForNews(m)
  {
    hide Adopt, NotifyOut, Wanted;
    var g1, out := Adopt(g, x, order).0, Adopt(g, x, order).1;
    NotifyOutKind(g.clients, x, order);
    AdoptMessages(g, x, order, g1, out);
  }

  lemma {:induction false} VisitsKinds(g: Gossiper, visits: seq<Visit>)
    requires Visitable(g, visits) && EachOnce(visits)
    ensures forall m :: m in VisitAll(g, visits).1 ==> IsForNews(m)
  {
    hide VisitOne;
    if visits != [] {
      var mid, out, last := LastVisit(g, visits);
      VisitsKinds(g, visits[..|visits| - 1]);
      VisitKinds(mid, last);
    }
  }

  /** A round answers nobody. */
  lemma RoundNoReply(g: Gossiper, step: GossipStep)
    requires step.Round? && Enabled(g, step)
    ensures forall m :: m in RoundStep(g, step).1 ==> !m.GossipPullReply?
  {
    hide RoundStep, VisitAll, PushRound;
    var push, pull, mid := RoundSplit(g, step);
    var pushes, releases := PushParts(g, step.pushes);
    VisitsKinds(pull, step.visits);
  }

  // ---- What an answer contains -----------------------------------------------------

  /** A copy of an active item as it is sent. */
  predicate IsOwnCopy(g: Gossiper, e: ItemExt) {
    && e.item.Some? && e.item.value in g.list
    && e.state == g.list[e.item.value].s.state && e.counter == g.list[e.item.value].s.counter
  }

  /** An answer to a pull request lists exactly the active items, each once, in the state and
      with the counter that they have; it goes to the peer that asked. */
  lemma PullReplyListsActive(g: Gossiper, step: GossipStep) returns (entries: seq<ItemExt>)
    requires step.Handle? && Enabled(g, step) && step.m.IncomingPullRequest?
    ensures Next(g, step) == (g, [GossipPullReply(step.m.from, entries)])
    ensures Distinct(entries) && forall e :: e in entries <==> IsOwnCopy(g, e)
  {
    var order := step.items;
    entries := Next(g, step).1[0].items;
    assert Distinct(order) && forall x :: x in order <==> x in g.list;
    forall e | IsOwnCopy(g, e) ensures e in entries {
      var i :| 0 <= i < |order| && order[i] == e.item.value;
      assert entries[i] == e;
    }
    forall i, j | 0 <= i < j < |entries| ensures entries[i] != entries[j] {
      assert entries[i].item == Some(order[i]) && entries[j].item == Some(order[j]);
    }
  }

  // ---- Which copies are let in -----------------------------------------------------

  /** The sanity check of the thresholds. */
  predicate Admits(cfg: Config, e: ItemExt) {
    e.item.Some? && ((e.state == B && e.counter < cfg.bMax) || (e.state == C && e.counter < cfg.cMax))
  }

  /** A stored copy is at least as far as one that was sent; counters of state C start anew. */
  predicate AtLeastAsFar(s: ItemState, e: ItemExt) {
    s.state == C || (s.state == B && e.state == B && s.counter >= e.counter)
  }

  lemma AdmitsIsValid(cfg: Config, e: ItemExt)
    ensures Admits(cfg, e) <==> ValidExt(cfg, e)
  {
  }

  lemma AdmittedStored(cfg: Config, e: ItemExt, s: ItemState)
    requires ValidExt(cfg, e) && s.state != D && Dominates(s, Normalised(cfg, e).value.s)
    ensures AtLeastAsFar(s, e)
  {
  }

  ghost predicate AllReceived(cfg: Config, m: map<Item, ItemInfo>) {
    forall x :: x in m ==> Received(cfg, m[x])
  }

  lemma EntryLetIn(cfg: Config, m: map<Item, ItemInfo>, e: ItemExt, r: map<Item, ItemInfo>, x: Item)
    requires ValidConfig(cfg) && AllReceived(cfg, m) && r == CheckAndAdd(cfg, m, e).0
    ensures x in r <==> x in m || (e.item == Some(x) && Admits(cfg, e))
    ensures e.item == Some(x) && Admits(cfg, e) ==> AtLeastAsFar(r[x].s, e)
  {
    hide CheckAndAdd, Received, ValidExt;
    AdmitsIsValid(cfg, e);
    ReceiveJoins(cfg, m, e);
    CheckAndAddBounds(cfg, m, e);
    ItemsOfOne(cfg, e, x);
    if e.item == Some(x) && Admits(cfg, e) {
      StoredState(cfg, r[x]);
      AdmittedStored(cfg, e, r[x].s);
    }
  }

  lemma StoredState(cfg: Config, info: ItemInfo)
    requires Received(cfg, info)
    ensures info.s.state != D
  {
  }

  lemma ItemsOfOne(cfg: Config, e: ItemExt, x: Item)
    ensures x in ValidItems(cfg, [e]) <==> e.item == Some(x) && ValidExt(cfg, e)
  {
    if e.item == Some(x) && ValidExt(cfg, e) {
      assert e in [e];
    }
  }

  /** A push is let in, if there is room, exactly if the thresholds admit it; then the buffer
      holds a copy at least as far. Other items are not affected. */
  lemma PushLetInIff(g: Gossiper, step: GossipStep, x: Item)
    requires Inv(g) && step.Handle? && Enabled(g, step) && step.m.IncomingPush?
    ensures var g1, e := Next(g, step).0, step.m.ext;
      && (x in g1.incoming <==>
            x in g.incoming || (e.item == Some(x) && Admits(g.cfg, e) && |g.incoming| < g.cfg.cacheSize))
      && (e.item == Some(x) && Admits(g.cfg, e) && |g.incoming| < g.cfg.cacheSize ==>
            AtLeastAsFar(g1.incoming[x].s, e))
  {
    hide InBounds, Settled, Received, OldOk, CheckAndAdd, Admits, AtLeastAsFar;
    var e := step.m.ext;
    EntryLetIn(g.cfg, g.incoming, e, CheckAndAdd(g.cfg, g.incoming, e).0, x);
  }

  lemma EntriesLetIn(cfg: Config, m: map<Item, ItemInfo>, es: seq<ItemExt>, r: map<Item, ItemInfo>, x: Item)
    requires AllReceived(cfg, r) && Joins(cfg, m, es, r)
    ensures x in r <==> x in m || exists e :: e in es && e.item == Some(x) && Admits(cfg, e)
    ensures forall e :: e in es && e.item == Some(x) && Admits(cfg, e) ==> AtLeastAsFar(r[x].s, e)
  {
    hide Received, AtLeastAsFar, Dominates, ValidExt;
    forall e | e in es && Admits(cfg, e) ensures ValidExt(cfg, e) && e.item.value in ValidItems(cfg, es) {
      AdmitsIsValid(cfg, e);
    }
    forall e | e in es && e.item == Some(x) && Admits(cfg, e) ensures AtLeastAsFar(r[x].s, e) {
      StoredState(cfg, r[x]);
      AdmittedStored(cfg, e, r[x].s);
    }
    if x in r && x !in m {
      var e :| e in es && Stores(cfg, e, x, r[x]);
      AdmitsIsValid(cfg, e);
      assert e.item.Some?;
    }
    if exists e :: e in es && e.item == Some(x) && Admits(cfg, e) {
      var e :| e in es && e.item == Some(x) && Admits(cfg, e);
      assert e.item.Some? && e.item.value == x;
    }
  }

  /** The same for an answer that is awaited, as long as there is room for all its items. */
  lemma PullLetInIff(g: Gossiper, step: GossipStep, x: Item)
    requires Inv(g) && step.Handle? && Enabled(g, step) && step.m.IncomingPullReply?
    requires step.m.from in g.pullPeers && |g.incoming| + |step.m.items| < g.cfg.cacheSize
    ensures var g1, es := Next(g, step).0, step.m.items;
      && (x in g1.incoming <==> x in g.incoming || exists e :: e in es && e.item == Some(x) && Admits(g.cfg, e))
      && forall e :: e in es && e.item == Some(x) && Admits(g.cfg, e) ==> AtLeastAsFar(g1.incoming[x].s, e)
  {
    hide InBounds, Settled, Received, OldOk, PullReplyHandler, Admits, AtLeastAsFar, ReceiveAll, Joins, Handled;
    var g1, es := Next(g, step).0, step.m.items;
    assert g1 == PullReplyHandler(g, step.m.from, es);
    ReceivePulled(g, step.m.from, es);
    PullReplyInv(g, step.m.from, es);
    RoomForAll(g.cfg, g.incoming, es);
    ReceiveAllJoins(g.cfg, g.incoming, es);
    SameConfig(g, step.m.from, es);
    EntriesLetIn(g.cfg, g.incoming, es, g1.incoming, x);
  }

  lemma SameConfig(g: Gossiper, from: Peer, es: seq<ItemExt>)
    ensures PullReplyHandler(g, from, es).cfg == g.cfg
  {
  }

  lemma {:induction false} FewItems(cfg: Config, es: seq<ItemExt>)
    ensures |ValidItems(cfg, es)| <= |es|
  {
    if es == [] {
      assert ValidItems(cfg, es) == {};
    } else {
      FewItems(cfg, es[1..]);
      ValidItemsSplit(cfg, es);
      OneItem(cfg, es[0]);
    }
  }

  lemma OneItem(cfg: Config, e: ItemExt)
    ensures |ValidItems(cfg, [e])| <= 1
  {
    if ValidExt(cfg, e) {
      assert ValidItems(cfg, [e]) == {e.item.value};
    } else {
      assert ValidItems(cfg, [e]) == {};
    }
  }

  lemma RoomForAll(cfg: Config, m: map<Item, ItemInfo>, es: seq<ItemExt>)
    requires |m| + |es| < cfg.cacheSize
    ensures |m.Keys + ValidItems(cfg, es)| < cfg.cacheSize
  {
    FewItems(cfg, es);
    assert |m| == |m.Keys|;
  }

  // ---- One exchange ----------------------------------------------------------------

  /** Every copy that a node sends passes the sanity check of a node with the same thresholds, if
      that of state B is at least 2. */
  lemma OwnCopyAdmitted(g: Gossiper, cfg: Config, e: ItemExt)
    requires Inv(g) && IsOwnCopy(g, e) && cfg.bMax == g.cfg.bMax >= 2 && cfg.cMax == g.cfg.cMax
    ensures Admits(cfg, e)
  {
    assert Settled(g.cfg, g.list[e.item.value].s);
  }

  /** An exchange by pull brings exactly the active items of one node into the buffer of another,
      in copies at least as far, as long as there is room. */
  lemma PullSpreads(a: Gossiper, ask: GossipStep, b: Gossiper, tell: GossipStep, x: Item)
    requires Inv(a) && ask.Handle? && Enabled(a, ask) && ask.m.IncomingPullRequest?
    requires Inv(b) && tell.Handle? && Enabled(b, tell) && tell.m.IncomingPullReply? && tell.m.from in b.pullPeers
    requires Next(a, ask).1 == [GossipPullReply(ask.m.from, tell.m.items)]
    requires b.cfg.bMax == a.cfg.bMax >= 2 && b.cfg.cMax == a.cfg.cMax
    requires |b.incoming| + |tell.m.items| < b.cfg.cacheSize
    ensures var b1 := Next(b, tell).0;
      && (x in b1.incoming <==> x in b.incoming || x in a.list)
      && (x in a.list ==> AtLeastAsFar(b1.incoming[x].s, ItemExt(Some(x), a.list[x].s.state, a.list[x].s.counter)))
  {
    hide Inv, Next, Enabled, Admits, AtLeastAsFar;
    var entries := PullReplyListsActive(a, ask);
    PullLetInIff(b, tell, x);
    forall e | e in entries ensures Admits(b.cfg, e) {
      OwnCopyAdmitted(a, b.cfg, e);
    }
    if x in a.list {
      assert ItemExt(Some(x), a.list[x].s.state, a.list[x].s.counter) in entries;
    }
  }
}
