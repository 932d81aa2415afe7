/** What every run of the Gossiper keeps: bounds on each item's state, the bounded caches,
    and the separation of active from quarantined items. */
module GossiperInvariant {
  import opened Types
  import opened Messages
  import opened GossipItems
  import opened GossiperModel

  /** What the constructor guarantees of the parameters it is given and computes; the
      threshold of state B can be any, in particular 1. */
  ghost predicate ValidConfig(cfg: Config) {
    cfg.maxTTL >= 1 && cfg.cMax >= 1
  }

  /** Counter and ttl of an item in state B together: a round adds one to the first at most
      and takes one off the second, so the counter never wraps. */
  ghost predicate WithinTime(s: ItemState, bound: int) {
    s.state == B ==> s.counter as int + s.ttl as int <= bound
  }

  /** Bounds that hold even in the middle of a round, before the median rule is applied. */
  ghost predicate InBounds(cfg: Config, s: ItemState) {
    && 1 <= s.ttl <= cfg.maxTTL
    && s.state != D
    && WithinTime(s, cfg.maxTTL as int + 1)
    && (s.state == B && cfg.bMax >= 2 ==> s.counter < cfg.bMax)
    && (s.state == C ==> s.counter < cfg.cMax && s.medianRule == 0)
  }

  ghost predicate Settled(cfg: Config, s: ItemState) {
    InBounds(cfg, s) && s.medianRule == 0
  }

  /** An item that was pushed this round has time left for its counter to grow. */
  ghost predicate Pushed(cfg: Config, s: ItemState) {
    InBounds(cfg, s) && WithinTime(s, cfg.maxTTL as int)
  }

  ghost predicate Received(cfg: Config, info: ItemInfo) {
    (info.s.state == B && info == Fresh(B, info.s.counter, cfg.maxTTL) && info.s.counter < cfg.bMax)
    || info == Fresh(C, 0, cfg.maxTTL)
  }

  ghost predicate OldOk(cfg: Config, info: ItemInfo) {
    1 <= info.s.ttl <= cfg.maxTTL && info == Fresh(D, 0, info.s.ttl)
  }

  /** Everything but the items' own state, true also in the middle of a round. */
  ghost predicate Tables(g: Gossiper) {
    && ValidConfig(g.cfg)
    && g.list.Keys !! g.oldList.Keys
    && |g.list| <= g.cfg.cacheSize
    && |g.incoming| <= g.cfg.cacheSize
    && (forall x :: x in g.oldList ==> OldOk(g.cfg, g.oldList[x]))
    && (forall x :: x in g.incoming ==> Received(g.cfg, g.incoming[x]))
  }

  ghost predicate Inv(g: Gossiper) {
    Tables(g) && forall x :: x in g.list ==> Settled(g.cfg, g.list[x].s)
  }

  /** In the middle of a round: the items that were pushed, and those adopted since. */
  ghost predicate MidInv(g: Gossiper, pushed: set<Item>) {
    && Tables(g)
    && forall x :: x in g.list ==>
      if x in pushed then Pushed(g.cfg, g.list[x].s) else Settled(g.cfg, g.list[x].s)
  }

  ghost predicate Initial(g: Gossiper) {
    && ValidConfig(g.cfg)
    && g.list == map[] && g.oldList == map[] && g.incoming == map[] && g.clients == map[]
    && g.nextPull == {} && g.pullPeers == {}
  }

  lemma SubsetSize<T>(a: set<T>, b: set<T>)
    requires a <= b
    ensures |a| <= |b|
  {
    assert b == a + (b - a);
  }

  lemma UpdatedBounds(cfg: Config, s: ItemState, received: ItemState)
    requires ValidConfig(cfg) && Pushed(cfg, s)
    ensures Pushed(cfg, Updated(s, received)) && Dominates(Updated(s, received), s)
    ensures Updated(s, received).ttl == s.ttl
    ensures s.state == C ==> Updated(s, received) == s
    ensures s.state == B && Updated(s, received).state == C ==> Updated(s, received).counter == 0
  {
  }

  /** The counter does not wrap when an item is judged, whatever the threshold. */
  lemma JudgedBounds(cfg: Config, s: ItemState)
    requires ValidConfig(cfg) && (Pushed(cfg, s) || Settled(cfg, s))
    ensures Settled(cfg, Judged(s, cfg.bMax)) && Dominates(Judged(s, cfg.bMax), s)
    ensures Judged(s, cfg.bMax).ttl == s.ttl
    ensures s.state == C ==> Judged(s, cfg.bMax) == s
    ensures s.state == B && Judged(s, cfg.bMax).state == C ==> Judged(s, cfg.bMax).counter == 0
  {
  }

  /** Neither ttl nor counter wraps when an item ages. */
  lemma AgedBounds(cfg: Config, s: ItemState)
    requires ValidConfig(cfg) && Settled(cfg, s)
    ensures var (aged, retires) := Aged(s, cfg.cMax);
      && aged.ttl as int == s.ttl as int - 1
      && aged.state == s.state && aged.medianRule == s.medianRule
      && aged.counter as int == s.counter as int + (if s.state == C && s.ttl > 1 then 1 else 0)
      && (!retires ==> Pushed(cfg, aged) && Dominates(aged, s))
      && (retires <==> s.ttl == 1 || (s.state == C && s.counter + 1 == cfg.cMax))
  {
  }

  // ---- One round -----------------------------------------------------------------

  /** Every active item stays active, does not regress and keeps its ttl. */
  ghost predicate Improved(l0: map<Item, ItemInfo>, l1: map<Item, ItemInfo>) {
    forall x :: x in l0 ==>
      x in l1 && Dominates(l1[x].s, l0[x].s) && l1[x].s.ttl == l0[x].s.ttl
      && (l0[x].s.state == C ==> l1[x].s == l0[x].s)
      && (l0[x].s.state == B && l1[x].s.state == C ==> l1[x].s.counter == 0)
  }

  /** Items that do not retire stay active, one round older; the others are quarantined. */
  ghost predicate AgedByPush(g: Gossiper, g1: Gossiper) {
    && (forall x :: x in g1.list ==> x in g.list)
    && (forall x :: x in g.list ==> (x !in g1.list <==> Retires(g.list[x], g.cfg.cMax)))
    && (forall x :: x in g.list && x in g1.list ==> g1.list[x].s == Aged(g.list[x].s, g.cfg.cMax).0)
    && (forall x :: x in g.list && x !in g1.list ==> x in g1.oldList)
    && (forall x :: x in g.oldList ==> x in g1.oldList)
  }

  lemma PushRoundAges(g: Gossiper, order: seq<Item>, g1: Gossiper)
    requires Inv(g) && forall x :: x in order ==> x in g.list
    requires g1 == PushRound(g, order).0
    ensures AgedByPush(g, g1)
    ensures g1.cfg == g.cfg && g1.incoming == g.incoming
    ensures forall x :: x in g1.oldList ==>
      if x in g.list then Retires(g.list[x], g.cfg.cMax) && g1.oldList[x] == Fresh(D, 0, g.cfg.maxTTL)
      else x in g.oldList && g1.oldList[x] == g.oldList[x]
  {
  }

  lemma PushRoundInv(g: Gossiper, order: seq<Item>, g1: Gossiper)
    requires Inv(g) && forall x :: x in order ==> x in g.list
    requires g1 == PushRound(g, order).0
    ensures MidInv(g1, g1.list.Keys) && AgedByPush(g, g1)
  {
    PushRoundAges(g, order, g1);
    AgedInv(g, g1);
  }

  lemma AgedInv(g: Gossiper, g1: Gossiper)
    requires Inv(g) && AgedByPush(g, g1) && g1.cfg == g.cfg && g1.incoming == g.incoming
    requires forall x :: x in g1.oldList ==>
      if x in g.list then Retires(g.list[x], g.cfg.cMax) && g1.oldList[x] == Fresh(D, 0, g.cfg.maxTTL)
      else x in g.oldList && g1.oldList[x] == g.oldList[x]
    ensures MidInv(g1, g1.list.Keys)
  {
    hide Received, Pushed, Settled, Aged;
    forall x | x in g1.list ensures Pushed(g.cfg, g1.list[x].s) {
      AgedBounds(g.cfg, g.list[x].s);
    }
    SubsetSize(g1.list.Keys, g.list.Keys);
  }

  lemma AdoptInv(g: Gossiper, pushed: set<Item>, x: Item, order: seq<Client>, g1: Gossiper)
    requires MidInv(g, pushed) && x in g.incoming && x !in g.list && x !in g.oldList && x !in pushed
    requires forall c :: c in order ==> c in g.clients
    requires g1 == Adopt(g, x, order).0
    ensures MidInv(g1, pushed)
    ensures g1.list == g.list || (x in g1.list && g1.list == g.list[x := g1.list[x]])
  {
    hide OldOk;
    assert Received(g.cfg, g.incoming[x]);
    if g1.list == g.list {
      assert g1 == g.(clients := g1.clients);
    } else {
      AdoptedInv(g, pushed, x, g1.list[x], g1);
    }
  }

  lemma AdoptedInv(g: Gossiper, pushed: set<Item>, x: Item, info: ItemInfo, g1: Gossiper)
    requires MidInv(g, pushed) && x !in g.list && x !in g.oldList && x !in pushed && |g.list| < g.cfg.cacheSize
    requires Settled(g.cfg, info.s)
    requires g1 == g.(clients := g1.clients, list := g.list[x := info])
    ensures MidInv(g1, pushed)
  {
  }

  lemma RevisedInv(g: Gossiper, pushed: set<Item>, x: Item, info: ItemInfo, g1: Gossiper)
    requires MidInv(g, pushed) && x in g.list && x in pushed && Pushed(g.cfg, info.s)
    requires g1 == g.(list := g.list[x := info])
    ensures MidInv(g1, pushed)
  {
    assert g1.list.Keys == g.list.Keys;
    assert |g1.list| == |g1.list.Keys|;
  }

  /** A visit leaves every active item in place and improves it, and adopts at most the
      visited item. */
  lemma VisitOneInv(g: Gossiper, pushed: set<Item>, v: Visit, g1: Gossiper)
    requires MidInv(g, pushed) && v.item in g.incoming && (v.item in g.list <==> v.item in pushed)
    requires forall c :: c in v.clients ==> c in g.clients
    requires g1 == VisitOne(g, v).0
    ensures MidInv(g1, pushed) && Improved(g.list, g1.list)
    ensures forall x :: x in g1.list && x !in g.list ==> x == v.item && x !in g.oldList
  {
    hide OldOk, Received, Settled, Pushed, Adopt;
    var x := v.item;
    if x in g.oldList {
    } else if x in g.list {
      UpdatedBounds(g.cfg, g.list[x].s, g.incoming[x].s);
      RevisedInv(g, pushed, x, g1.list[x], g1);
    } else {
      AdoptInv(g, pushed, x, v.clients, g1);
    }
  }

  ghost predicate EachOnce(visits: seq<Visit>) {
    forall i, j :: 0 <= i < j < |visits| ==> visits[i].item != visits[j].item
  }

  lemma VisitOrderOnce(g: Gossiper, visits: seq<Visit>)
    requires VisitOrder(g, visits)
    ensures EachOnce(visits) && Visitable(g, visits)
  {
    var items := seq(|visits|, i requires 0 <= i < |visits| => visits[i].item);
    assert Distinct(items);
    forall i, j | 0 <= i < j < |visits| ensures visits[i].item != visits[j].item {
      assert items[i] != items[j];
    }
  }

  lemma VisitAllLast(g: Gossiper, visits: seq<Visit>)
    requires Visitable(g, visits) && visits != []
    ensures var n := |visits| - 1;
      var mid := VisitAll(g, visits[..n]).0;
      VisitAll(g, visits).0 == VisitOne(mid, visits[n]).0
  {
    hide VisitOne;
  }

  /** A round's visits leave every item that was active in place, and improve it. An item
      adopted by one of them is not visited again. */
  lemma {:induction false} VisitAllInv(g: Gossiper, visits: seq<Visit>, g1: Gossiper)
    requires MidInv(g, g.list.Keys) && Visitable(g, visits) && EachOnce(visits) && g1 == VisitAll(g, visits).0
    ensures MidInv(g1, g.list.Keys) && Improved(g.list, g1.list)
    ensures forall x :: x in g1.list && x !in g.list ==> x !in g.oldList && exists v :: v in visits && v.item == x
  {
    hide VisitOne, Improved, Tables, Pushed, Settled;
    if visits == [] {
      ImprovedKeys(g.list, g1.list);
    } else {
      var n := |visits| - 1;
      var earlier, last := visits[..n], visits[n];
      assert visits == earlier + [last];
      var mid := VisitAll(g, earlier).0;
      VisitAllInv(g, earlier, mid);
      ImprovedKeys(g.list, mid.list);
      VisitAllLast(g, visits);
      assert forall v :: v in earlier ==> v.item != last.item;
      VisitOneInv(mid, g.list.Keys, last, g1);
      ImprovedTransitive(g.list, mid.list, g1.list);
      forall x | x in g1.list && x !in g.list
        ensures x !in g.oldList && exists v :: v in visits && v.item == x
      {
        VisitedItem(visits, x, x in mid.list);
      }
    }
  }

  lemma VisitedItem(visits: seq<Visit>, x: Item, before: bool)
    requires visits != []
    requires if before then exists v :: v in visits[..|visits| - 1] && v.item == x else visits[|visits| - 1].item == x
    ensures exists v :: v in visits && v.item == x
  {
    var v :| v in visits && v.item == x;
  }

  lemma JudgedAllInv(cfg: Config, l0: map<Item, ItemInfo>, l1: map<Item, ItemInfo>)
    requires ValidConfig(cfg) && l1 == JudgedAll(l0, cfg.bMax)
    requires forall x :: x in l0 ==> Pushed(cfg, l0[x].s) || Settled(cfg, l0[x].s)
    ensures l1.Keys == l0.Keys && Improved(l0, l1)
    ensures forall x :: x in l1 ==> Settled(cfg, l1[x].s)
  {
    forall x | x in l0
      ensures Settled(cfg, l1[x].s) && Dominates(l1[x].s, l0[x].s) && l1[x].s.ttl == l0[x].s.ttl
      ensures l0[x].s.state == C ==> l1[x].s == l0[x].s
      ensures l0[x].s.state == B && l1[x].s.state == C ==> l1[x].s.counter == 0
    {
      JudgedBounds(cfg, l0[x].s);
    }
  }

  lemma ImprovedKeys(l0: map<Item, ItemInfo>, l1: map<Item, ItemInfo>)
    ensures Improved(l0, l1) ==> l0.Keys <= l1.Keys
    ensures l0 == l1 ==> Improved(l0, l1)
  {
  }

  lemma ImprovedTransitive(l0: map<Item, ItemInfo>, l1: map<Item, ItemInfo>, l2: map<Item, ItemInfo>)
    requires Improved(l0, l1) && Improved(l1, l2)
    ensures Improved(l0, l2)
  {
  }

  lemma UpdateRoundInv(g: Gossiper, visits: seq<Visit>, g1: Gossiper)
    requires MidInv(g, g.list.Keys) && Visitable(g, visits) && EachOnce(visits)
    requires g1 == UpdateRound(g, visits).0
    ensures Inv(g1) && Improved(g.list, g1.list) && g1.oldList == g.oldList
    ensures forall x :: x in g1.list && x !in g.list ==> x !in g.oldList
  {
    var mid := VisitAll(g, visits).0;
    VisitAllInv(g, visits, mid);
    JudgedAllInv(g.cfg, mid.list, g1.list);
    assert |g1.list| == |mid.list| by { assert |g1.list.Keys| == |mid.list.Keys|; }
    ImprovedTransitive(g.list, mid.list, g1.list);
  }

  /** The old list after a sweep, for an item whose quarantine had `ttl` sweeps left. */
  ghost predicate SweptFrom(ttl: uint8, oldList: map<Item, ItemInfo>, x: Item) {
    if ttl <= 1 then x !in oldList else x in oldList && oldList[x].s.ttl == ttl - 1
  }

  lemma SweepOldInv(g: Gossiper)
    requires Inv(g)
    ensures Inv(SweepOld(g)) && SweepOld(g).list == g.list
    ensures forall x :: x in g.oldList ==> SweptFrom(g.oldList[x].s.ttl, SweepOld(g).oldList, x)
    ensures SweepOld(g).oldList.Keys <= g.oldList.Keys
  {
  }

  lemma SurvivedRound(cfg: Config, s: ItemState, l0: ItemState, l1: ItemState)
    requires ValidConfig(cfg) && Settled(cfg, s) && !Aged(s, cfg.cMax).1 && l0 == Aged(s, cfg.cMax).0
    requires Dominates(l1, l0) && l1.ttl == l0.ttl && (l0.state == C ==> l1 == l0)
    requires l0.state == B && l1.state == C ==> l1.counter == 0
    ensures Survived(s, l1)
  {
    AgedBounds(cfg, s);
  }

  /** One gossip round: the invariant is kept, each survivor has lost one ttl and not
      regressed, and exactly the items due to retire leave. */
  lemma RoundInv(g: Gossiper, step: GossipStep, g1: Gossiper)
    requires Inv(g) && step.Round? && Enabled(g, step) && g1 == RoundStep(g, step).0
    ensures Inv(g1)
    ensures forall x :: x in g.list && x in g1.list ==> Survived(g.list[x].s, g1.list[x].s)
    ensures forall x :: x in g.list ==> (x !in g1.list <==> Retires(g.list[x], g.cfg.cMax))
    ensures forall x :: x in g1.list && x !in g.list ==> x !in g.oldList
    ensures g1.cfg == g.cfg
    ensures forall x :: x in g.oldList ==> SweptFrom(g.oldList[x].s.ttl, g1.oldList, x)
    ensures forall x :: x in g.list && x !in g1.list ==> SweptFrom(g.cfg.maxTTL, g1.oldList, x)
  {
    var push := PushRound(g, step.pushes).0;
    PushRoundInv(g, step.pushes, push);
    PushRoundAges(g, step.pushes, push);
    var pull := PullRound(push, step.pulls).0;
    VisitOrderOnce(pull, step.visits);
    var update := UpdateRound(pull, step.visits).0;
    UpdateRoundInv(pull, step.visits, update);
    SweepOldInv(update);
    RoundParts(g, push, update);
  }

  lemma RoundParts(g: Gossiper, push: Gossiper, update: Gossiper)
    requires Inv(g) && AgedByPush(g, push) && Improved(push.list, update.list)
    requires push.list.Keys !! push.oldList.Keys && update.list.Keys !! update.oldList.Keys
    requires update.oldList == push.oldList
    ensures forall x :: x in g.list ==> (x !in update.list <==> Retires(g.list[x], g.cfg.cMax))
    ensures forall x :: x in g.list && x in update.list ==> Survived(g.list[x].s, update.list[x].s)
    ensures forall x :: x in update.list && x !in g.list ==> x !in g.oldList
  {
    forall x | x in g.list && x in update.list ensures Survived(g.list[x].s, update.list[x].s) {
      assert x in push.list;
      SurvivedRound(g.cfg, g.list[x].s, push.list[x].s, update.list[x].s);
    }
  }

  /** How one round changes the state of an item that stays active. */
  ghost predicate Survived(before: ItemState, after: ItemState) {
    && Dominates(after, before)
    && after.ttl as int == before.ttl as int - 1
    && (before.state == C ==> after.state == C && after.counter as int == before.counter as int + 1)
    && (before.state == B && after.state == C ==> after.counter == 0)
  }

  // ---- Handlers ------------------------------------------------------------------

  lemma CheckAndAddBounds(cfg: Config, incoming: map<Item, ItemInfo>, ext: ItemExt)
    requires ValidConfig(cfg)
    requires forall x :: x in incoming ==> Received(cfg, incoming[x])
    ensures var r := CheckAndAdd(cfg, incoming, ext);
      && (forall x :: x in r.0 ==> Received(cfg, r.0[x]))
      && |r.0| == |incoming| + (if r.1 then 1 else 0)
  {
  }

  lemma {:induction false} PullAllBounds(cfg: Config, incoming: map<Item, ItemInfo>, upTo: int, items: seq<ItemExt>)
    requires ValidConfig(cfg) && upTo >= 0
    requires forall x :: x in incoming ==> Received(cfg, incoming[x])
    ensures var r := PullAll(cfg, incoming, upTo, items);
      (forall x :: x in r ==> Received(cfg, r[x])) && |r| <= |incoming| + upTo
    decreases |items|
  {
    if items != [] && upTo > 0 {
      CheckAndAddBounds(cfg, incoming, items[0]);
      var r := CheckAndAdd(cfg, incoming, items[0]);
      PullAllBounds(cfg, r.0, if r.1 then upTo - 1 else upTo, items[1..]);
    }
  }

  /** What every handler does to the two item tables: active items keep their state, none is
      adopted from quarantine, quarantine times do not shrink, and an item dropped from
      the active list is quarantined for the full time. */
  ghost predicate Handled(g: Gossiper, g1: Gossiper) {
    && g1.cfg == g.cfg
    && (forall x :: x in g.list && x in g1.list ==> g1.list[x].s == g.list[x].s)
    && (forall x :: x in g1.list && x !in g.list ==> x !in g.oldList)
    && (forall x :: x in g.oldList ==> x in g1.oldList && g1.oldList[x].s.ttl >= g.oldList[x].s.ttl)
    && (forall x :: x in g.list && x !in g1.list ==> x in g1.oldList && g1.oldList[x].s.ttl == g.cfg.maxTTL)
  }

  lemma AnnounceInv(g: Gossiper, item: Option<Item>, ttl: uint8, order: seq<Client>)
    requires Inv(g)
    requires forall c :: c in order ==> c in g.clients
    ensures Inv(AnnounceHandler(g, item, ttl, order).0) && Handled(g, AnnounceHandler(g, item, ttl, order).0)
  {
    var g1 := AnnounceHandler(g, item, ttl, order).0;
    if g1.list == g.list {
      assert g1 == g.(clients := g1.clients);
    } else {
      AnnouncedInv(g, item.value, AnnouncedTTL(g.cfg, ttl), g1);
    }
  }

  lemma AnnouncedInv(g: Gossiper, x: Item, ttl: uint8, g1: Gossiper)
    requires Inv(g) && x !in g.list && x !in g.oldList && |g.list| < g.cfg.cacheSize && 1 <= ttl <= g.cfg.maxTTL
    requires g1 == g.(clients := g1.clients, list := g.list[x := Fresh(B, 1, ttl)])
    ensures Inv(g1) && Handled(g, g1)
  {
  }

  lemma ValidationInv(g: Gossiper, who: Client, id: uint16, valid: bool)
    requires Inv(g)
    ensures Inv(ValidationHandler(g, who, id, valid)) && Handled(g, ValidationHandler(g, who, id, valid))
  {
    if Awaits(g, who, id) {
      var x := g.clients[who].validation[id];
      var g1 := ValidationHandler(g, who, id, valid);
      if valid {
        assert g1 == g.(clients := g1.clients);
      } else {
        RejectInv(g, x, g1);
      }
    }
  }

  lemma RejectInv(g: Gossiper, x: Item, g1: Gossiper)
    requires Inv(g)
    requires g1 == g.(clients := g1.clients, list := g.list - {x}, incoming := g.incoming - {x},
                      oldList := g.oldList[x := Fresh(D, 0, g.cfg.maxTTL)])
    ensures Inv(g1) && Handled(g, g1)
  {
    RejectTables(g, x, g1);
    RejectHandled(g, x, g1);
  }

  lemma RejectTables(g: Gossiper, x: Item, g1: Gossiper)
    requires Inv(g)
    requires g1 == g.(clients := g1.clients, list := g.list - {x}, incoming := g.incoming - {x},
                      oldList := g.oldList[x := Fresh(D, 0, g.cfg.maxTTL)])
    ensures Inv(g1)
  {
    FewerItems(g.list, x);
    FewerItems(g.incoming, x);
  }

  lemma RejectHandled(g: Gossiper, x: Item, g1: Gossiper)
    requires forall y :: y in g.oldList ==> OldOk(g.cfg, g.oldList[y])
    requires g1 == g.(clients := g1.clients, list := g.list - {x}, incoming := g.incoming - {x},
                      oldList := g.oldList[x := Fresh(D, 0, g.cfg.maxTTL)])
    ensures Handled(g, g1)
  {
  }

  lemma FewerItems(list: map<Item, ItemInfo>, x: Item)
    ensures |list - {x}| <= |list|
  {
    SubsetSize((list - {x}).Keys, list.Keys);
  }

  lemma ListReplyInv(g: Gossiper, related: Option<Item>, peers: seq<Peer>)
    requires Inv(g)
    ensures Inv(ListReplyHandler(g, related, peers).0) && Handled(g, ListReplyHandler(g, related, peers).0)
  {
    hide InBounds, Received, OldOk, ValidConfig;
  }

  lemma PushInv(g: Gossiper, ext: ItemExt)
    requires Inv(g)
    ensures Inv(PushHandler(g, ext)) && Handled(g, PushHandler(g, ext))
  {
    hide Settled, Received, OldOk, CheckAndAdd, ValidConfig;
    CheckAndAddBounds(g.cfg, g.incoming, ext);
  }

  lemma PullReplyInv(g: Gossiper, from: Peer, exts: seq<ItemExt>)
    requires Inv(g)
    ensures Inv(PullReplyHandler(g, from, exts)) && Handled(g, PullReplyHandler(g, from, exts))
  {
    hide Settled, Received, OldOk, PullAll, ValidConfig;
    PullAllBounds(g.cfg, g.incoming, g.cfg.cacheSize - |g.incoming|, exts);
  }

  /** Nothing but the clients' interests may have changed. */
  lemma ClientsInv(g: Gossiper, g1: Gossiper)
    requires Inv(g) && g1 == g.(clients := g1.clients)
    ensures Inv(g1) && Handled(g, g1)
  {
  }

  lemma HandleInv(g: Gossiper, m: GossipMsg, clients: seq<Client>, items: seq<Item>)
    requires Inv(g)
    requires forall c :: c in clients ==> c in g.clients
    requires forall x :: x in items ==> x in g.list
    ensures Inv(HandleStep(g, m, clients, items).0)
    ensures Handled(g, HandleStep(g, m, clients, items).0)
  {
    hide ListReplyHandler, AnnounceHandler, ValidationHandler, PushHandler, PullReplyHandler, Inv, Handled;
    match m
    case RandomPeerListReply(related, peers) => ListReplyInv(g, related, peers);
    case GossipAnnounce(item, ttl) => AnnounceInv(g, item, ttl, clients);
    case GossipValidation(who, id, valid) => ValidationInv(g, who, id, valid);
    case IncomingPush(ext) => PushInv(g, ext);
    case IncomingPullReply(from, exts) => PullReplyInv(g, from, exts);
    case _ => ClientsInv(g, HandleStep(g, m, clients, items).0);
  }

  // ---- Runs ----------------------------------------------------------------------

  lemma StepInv(g: Gossiper, step: GossipStep)
    requires Inv(g) && Enabled(g, step)
    ensures Inv(Next(g, step).0)
  {
    match step
    case Round(_, _, _) => RoundInv(g, step, RoundStep(g, step).0);
    case Handle(m, clients, items) => HandleInv(g, m, clients, items);
  }

  /** In every state of every run the caches are within bounds, active and quarantined items
      are disjoint, and each active item's state is within the limits of its phase. */
  lemma {:induction false} RunInv(g: Gossiper, steps: seq<GossipStep>)
    requires Inv(g) && IsRun(g, steps)
    ensures Inv(After(g, steps))
    decreases |steps|
  {
    if steps != [] {
      StepInv(g, steps[0]);
      RunInv(Next(g, steps[0]).0, steps[1..]);
    }
  }

  lemma InitialInv(g: Gossiper)
    requires Initial(g)
    ensures Inv(g)
  {
  }

  /** Every run from the state that the constructor builds. */
  lemma RunFromInitial(g: Gossiper, steps: seq<GossipStep>)
    requires Initial(g) && IsRun(g, steps)
    ensures Inv(After(g, steps))
  {
    InitialInv(g);
    RunInv(g, steps);
  }
}
