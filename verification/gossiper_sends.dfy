/** What the Gossiper sends: pushes, pull requests, requests for peers and notifications, and
    which new items it takes in. */
module GossiperSends {
  import opened Types
  import opened Messages
  import opened GossipItems
  import opened GossiperModel
  import opened GossiperInvariant
  import opened GossiperLifetime
  import opened GossiperLease
  import opened GossiperRounds

  // ---- What is in a list of messages -----------------------------------------------

  /** How many peers are asked for on behalf of an item, or of the pull round, message by
      message. */
  function AskedNums(out: seq<Msg>, related: Option<Item>): seq<nat> {
    if out == [] then []
    else
      (if out[0].RandomPeerListRequest? && out[0].related == related then [out[0].num] else [])
      + AskedNums(out[1..], related)
  }

  /** Ids under which a client is told of an item. */
  function NoticesOf(out: seq<Msg>, c: Client, x: Item): seq<uint16> {
    if out == [] then []
    else
      (if out[0].GossipNotification? && out[0].client == c && out[0].item == x then [out[0].id] else [])
      + NoticesOf(out[1..], c, x)
  }

  lemma {:induction false} AskedNumsConcat(a: seq<Msg>, b: seq<Msg>, related: Option<Item>)
    ensures AskedNums(a + b, related) == AskedNums(a, related) + AskedNums(b, related)
  {
    if a == [] {
      assert a + b == b;
    } else {
      assert (a + b)[1..] == a[1..] + b;
      AskedNumsConcat(a[1..], b, related);
    }
  }

  lemma {:induction false} NoticesOfConcat(a: seq<Msg>, b: seq<Msg>, c: Client, x: Item)
    ensures NoticesOf(a + b, c, x) == NoticesOf(a, c, x) + NoticesOf(b, c, x)
  {
    if a == [] {
      assert a + b == b;
    } else {
      assert (a + b)[1..] == a[1..] + b;
      NoticesOfConcat(a[1..], b, c, x);
    }
  }

  lemma {:induction false} NothingAsked(out: seq<Msg>, related: Option<Item>)
    requires forall m :: m in out ==> !(m.RandomPeerListRequest? && m.related == related)
    ensures AskedNums(out, related) == []
  {
    if out != [] {
      NothingAsked(out[1..], related);
    }
  }

  lemma {:induction false} NothingNoticed(out: seq<Msg>, c: Client, x: Item)
    requires forall m :: m in out ==> !(m.GossipNotification? && m.client == c && m.item == x)
    ensures NoticesOf(out, c, x) == []
  {
    if out != [] {
      NothingNoticed(out[1..], c, x);
    }
  }

  lemma OneAsked(related: Option<Item>, num: nat, r: Option<Item>)
    ensures AskedNums([RandomPeerListRequest(related, num)], r) == if r == related then [num] else []
  {
    assert [RandomPeerListRequest(related, num)][1..] == [];
  }

  // ---- Notifications of one item ---------------------------------------------------

  lemma {:induction false} NotifyNotices(clients: map<Client, Registration>, y: Item, order: seq<Client>, c: Client,
                                         x: Item)
    requires Distinct(order) && forall d :: d in order ==> d in clients
    ensures NoticesOf(NotifyOut(clients, y, order), c, x)
      == if x == y && c in order && x.dataType in clients[c].dataTypes then [clients[c].nextID] else []
  {
    if order != [] {
      var n := |order| - 1;
      var rest, last := order[..n], order[n];
      assert order == rest + [last] && last !in rest;
      NotifyNotices(clients, y, rest, c, x);
      var m := GossipNotification(last, y, clients[last].nextID);
      NoticesOfConcat(NotifyOut(clients, y, rest), [m], c, x);
      assert [m][1..] == [];
    }
  }

  lemma NotifyAsksNothing(clients: map<Client, Registration>, y: Item, order: seq<Client>, related: Option<Item>)
    requires forall d :: d in order ==> d in clients
    ensures AskedNums(NotifyOut(clients, y, order), related) == []
  {
    NotifyOutKind(clients, y, order);
    NothingAsked(NotifyOut(clients, y, order), related);
  }

  // ---- One visit -------------------------------------------------------------------

  /** Peers to ask for on behalf of an item just taken in: `degree` for each round in which it
      can be pushed. */
  function Wanted(cfg: Config, info: ItemInfo): nat {
    cfg.degree * (if info.s.state == B then info.s.ttl else cfg.cMax) as int
  }

  /** An item that the node knows nothing of. */
  predicate IsUnknown(g: Gossiper, x: Item) {
    x !in g.list && x !in g.oldList
  }

  /** A visit to a new item takes it in, if there is room. */
  lemma AdoptTakesIn(g: Gossiper, x: Item, order: seq<Client>, g1: Gossiper)
    requires x in g.incoming && (forall c :: c in order ==> c in g.clients) && g1 == Adopt(g, x, order).0
    ensures |g.list| >= g.cfg.cacheSize || g.incoming[x].s.state == D ==> g1.list == g.list
    ensures |g.list| < g.cfg.cacheSize && g.incoming[x].s.state == B ==>
      g1.list == g.list[x := Fresh(B, 1, g.cfg.maxTTL)]
    ensures |g.list| < g.cfg.cacheSize && g.incoming[x].s.state == C ==>
      g1.list == g.list[x := Fresh(C, 0, g.cfg.maxTTL)]
  {
  }

  /** The messages of such a visit. */
  lemma AdoptMessages(g: Gossiper, x: Item, order: seq<Client>, g1: Gossiper, out: seq<Msg>)
    requires x in g.incoming && x !in g.list && (forall c :: c in order ==> c in g.clients)
    requires (g1, out) == Adopt(g, x, order)
    ensures x !in g1.list ==> out == NotifyOut(g.clients, x, order)
    ensures x in g1.list ==>
      out == NotifyOut(g.clients, x, order) + [RandomPeerListRequest(Some(x), Wanted(g.cfg, g1.list[x]))]
  {
  }

  lemma AdoptAsks(g: Gossiper, x: Item, order: seq<Client>, g1: Gossiper, out: seq<Msg>, related: Option<Item>)
    requires x in g.incoming && x !in g.list && (forall c :: c in order ==> c in g.clients)
    requires (g1, out) == Adopt(g, x, order)
    ensures AskedNums(out, related) == if related == Some(x) && x in g1.list then [Wanted(g.cfg, g1.list[x])] else []
  {
    hide Adopt, Wanted;
    AdoptMessages(g, x, order, g1, out);
    NotifyAsksNothing(g.clients, x, order, related);
    if x in g1.list {
      var num := Wanted(g.cfg, g1.list[x]);
      AskedNumsConcat(NotifyOut(g.clients, x, order), [RandomPeerListRequest(Some(x), num)], related);
      OneAsked(Some(x), num, related);
    }
  }

  lemma AdoptNotifies(g: Gossiper, x: Item, order: seq<Client>, c: Client, y: Item)
    requires x in g.incoming && x !in g.list && Enumerates(order, g.clients.Keys)
    requires forall c :: c in order ==> c in g.clients
    ensures |NoticesOf(Adopt(g, x, order).1, c, y)| == if y == x && IsInterested(g.clients, c, x) then 1 else 0
  {
    hide Adopt, Wanted;
    var g1, out := Adopt(g, x, order).0, Adopt(g, x, order).1;
    AdoptMessages(g, x, order, g1, out);
    NotifyNotices(g.clients, x, order, c, y);
    assert c in order <==> c in g.clients;
    if x in g1.list {
      var request := RandomPeerListRequest(Some(x), Wanted(g.cfg, g1.list[x]));
      NoticesOfConcat(NotifyOut(g.clients, x, order), [request], c, y);
      NothingNoticed([request], c, y);
    }
  }

  /** The client is registered for items of this type. */
  predicate IsInterested(clients: map<Client, Registration>, c: Client, x: Item) {
    c in clients && x.dataType in clients[c].dataTypes
  }

  // ---- All visits ------------------------------------------------------------------

  /** Being notified does not change what a client is interested in. */
  ghost predicate SameInterests(clients: map<Client, Registration>, clients1: map<Client, Registration>) {
    clients1.Keys == clients.Keys && forall c :: c in clients ==> clients1[c].dataTypes == clients[c].dataTypes
  }

  lemma VisitInterests(g: Gossiper, v: Visit)
    requires v.item in g.incoming && forall c :: c in v.clients ==> c in g.clients
    ensures SameInterests(g.clients, VisitOne(g, v).0.clients)
  {
  }

  lemma {:induction false} VisitsInterests(g: Gossiper, visits: seq<Visit>)
    requires Visitable(g, visits) && EachOnce(visits)
    ensures SameInterests(g.clients, VisitAll(g, visits).0.clients)
  {
    hide VisitOne;
    if visits != [] {
      var mid, out, last := LastVisit(g, visits);
      VisitsInterests(g, visits[..|visits| - 1]);
      VisitInterests(mid, last);
    }
  }

  /** A visit adds at most its own item to the list. */
  lemma VisitAdds(g: Gossiper, v: Visit, x: Item)
    requires v.item in g.incoming && forall c :: c in v.clients ==> c in g.clients
    ensures var l := VisitOne(g, v).0.list;
      (x in g.list ==> x in l) && (x != v.item ==> (x in l <==> x in g.list) && (x in l ==> l[x] == g.list[x]))
  {
    hide Updated, NotifiedAll, NotifyOut;
  }

  lemma {:induction false} VisitsAdd(g: Gossiper, visits: seq<Visit>, x: Item)
    requires Visitable(g, visits) && EachOnce(visits)
    ensures x in g.list ==> x in VisitAll(g, visits).0.list
    ensures !IsVisited(visits, x) ==> (x in VisitAll(g, visits).0.list <==> x in g.list)
  {
    hide VisitOne;
    if visits != [] {
      var mid, out, last := LastVisit(g, visits);
      VisitsAdd(g, visits[..|visits| - 1], x);
      VisitAdds(mid, last, x);
    }
  }

  /** What visits do for an item that was not active. */
  ghost predicate TakenIn(g: Gossiper, visits: seq<Visit>, x: Item, list: map<Item, ItemInfo>)
    requires Visitable(g, visits)
  {
    && (x in list ==> IsVisited(visits, x) && x !in g.oldList)
    && (x in list && x in g.incoming && g.incoming[x].s.state == B ==> list[x] == Fresh(B, 1, g.cfg.maxTTL))
    && (x in list && x in g.incoming && g.incoming[x].s.state == C ==> list[x] == Fresh(C, 0, g.cfg.maxTTL))
    && (IsVisited(visits, x) && x !in g.oldList && x !in list ==>
          |list| >= g.cfg.cacheSize || (x in g.incoming && g.incoming[x].s.state == D))
  }

  lemma VisitGrows(g: Gossiper, v: Visit)
    requires v.item in g.incoming && forall c :: c in v.clients ==> c in g.clients
    ensures |g.list| <= |VisitOne(g, v).0.list|
  {
    hide VisitOne;
    var l := VisitOne(g, v).0.list;
    forall x | x in g.list ensures x in l {
      VisitAdds(g, v, x);
    }
    SubsetSize(g.list.Keys, l.Keys);
  }

  lemma {:induction false} VisitsTakeIn(g: Gossiper, visits: seq<Visit>, x: Item)
    requires Visitable(g, visits) && EachOnce(visits) && x !in g.list
    ensures TakenIn(g, visits, x, VisitAll(g, visits).0.list)
  {
    hide VisitOne, Adopt;
    if visits == [] {
      assert !IsVisited(visits, x);
    } else {
      var n := |visits| - 1;
      var mid, out, last := LastVisit(g, visits);
      VisitsTakeIn(g, visits[..n], x);
      VisitGrows(mid, last);
      VisitAdds(mid, last, x);
      VisitsAdd(g, visits[..n], x);
      if last.item == x {
        VisitNew(mid, last);
      }
    }
  }

  lemma VisitNew(g: Gossiper, v: Visit)
    requires v.item in g.incoming && v.item !in g.list && forall c :: c in v.clients ==> c in g.clients
    ensures v.item in g.oldList ==> VisitOne(g, v) == (g, [])
    ensures v.item !in g.oldList ==> VisitOne(g, v) == Adopt(g, v.item, v.clients)
    ensures var l, x := VisitOne(g, v).0.list, v.item;
      && (x in l ==> x !in g.oldList)
      && (x in l && g.incoming[x].s.state == B ==> l[x] == Fresh(B, 1, g.cfg.maxTTL))
      && (x in l && g.incoming[x].s.state == C ==> l[x] == Fresh(C, 0, g.cfg.maxTTL))
      && (x !in g.oldList && x !in l ==> |l| >= g.cfg.cacheSize || g.incoming[x].s.state == D)
  {
    hide Adopt;
    AdoptTakesIn(g, v.item, v.clients, Adopt(g, v.item, v.clients).0);
  }

  lemma VisitAsks(g: Gossiper, v: Visit, related: Option<Item>)
    requires v.item in g.incoming && forall c :: c in v.clients ==> c in g.clients
    ensures var g1, out := VisitOne(g, v).0, VisitOne(g, v).1;
      AskedNums(out, related)
        == if related == Some(v.item) && v.item !in g.list && v.item in g1.list then [Wanted(g.cfg, g1.list[v.item])]
           else []
  {
    hide Adopt, Wanted;
    if v.item in g.oldList || v.item in g.list {
      assert VisitOne(g, v).1 == [];
    } else {
      AdoptAsks(g, v.item, v.clients, Adopt(g, v.item, v.clients).0, Adopt(g, v.item, v.clients).1, related);
    }
  }

  /** Visits ask for peers on behalf of each item that they take in, once. */
  lemma {:induction false} VisitsAsk(g: Gossiper, visits: seq<Visit>, related: Option<Item>)
    requires Visitable(g, visits) && EachOnce(visits)
    ensures var g1, out := VisitAll(g, visits).0, VisitAll(g, visits).1;
      AskedNums(out, related)
        == if related.Some? && related.value !in g.list && related.value in g1.list
           then [Wanted(g.cfg, g1.list[related.value])] else []
  {
    hide VisitOne, Wanted;
    if visits != [] {
      var n := |visits| - 1;
      var mid, out, last := LastVisit(g, visits);
      VisitsAsk(g, visits[..n], related);
      VisitAsks(mid, last, related);
      AskedNumsConcat(out, VisitOne(mid, last).1, related);
      if related.Some? {
        VisitsAdd(g, visits[..n], related.value);
        VisitAdds(mid, last, related.value);
      }
    }
  }

  lemma VisitNotifies(g: Gossiper, v: Visit, c: Client, x: Item)
    requires v.item in g.incoming && Enumerates(v.clients, g.clients.Keys)
    requires forall d :: d in v.clients ==> d in g.clients
    ensures |NoticesOf(VisitOne(g, v).1, c, x)|
      == if v.item == x && x !in g.list && x !in g.oldList && IsInterested(g.clients, c, x) then 1 else 0
  {
    hide Adopt;
    if v.item in g.oldList || v.item in g.list {
      assert VisitOne(g, v).1 == [];
    } else {
      AdoptNotifies(g, v.item, v.clients, c, x);
    }
  }

  ghost predicate AllListed(g: Gossiper, visits: seq<Visit>) {
    forall v :: v in visits ==> Enumerates(v.clients, g.clients.Keys)
  }

  /** Visits tell each interested client of each new item, once. */
  lemma {:induction false} VisitsNotify(g: Gossiper, visits: seq<Visit>, c: Client, x: Item)
    requires Visitable(g, visits) && EachOnce(visits) && AllListed(g, visits)
    ensures |NoticesOf(VisitAll(g, visits).1, c, x)|
      == if IsVisited(visits, x) && x !in g.list && x !in g.oldList && IsInterested(g.clients, c, x) then 1 else 0
  {
    hide VisitOne, Enumerates;
    if visits != [] {
      var n := |visits| - 1;
      var mid, out, last := LastVisit(g, visits);
      assert last in visits && forall v :: v in visits[..n] ==> v in visits;
      VisitsNotify(g, visits[..n], c, x);
      VisitsInterests(g, visits[..n]);
      VisitsAdd(g, visits[..n], x);
      VisitNotifies(mid, last, c, x);
      NoticesOfConcat(out, VisitOne(mid, last).1, c, x);
    }
  }

  // ---- Rounds ----------------------------------------------------------------------

  /** Items that a push round drops were active before, so no new item is among them. */
  lemma PushOldList(g: Gossiper, order: seq<Item>, push: Gossiper, x: Item)
    requires Enumerates(order, g.list.Keys) && (forall y :: y in order ==> y in g.list)
    requires push == PushRound(g, order).0
    ensures x in push.list ==> x in g.list
    ensures x !in g.list ==> (x in push.oldList <==> x in g.oldList)
    ensures x in g.list && x !in push.list ==> x in push.oldList
  {
    hide Aged, PushOut, ReleaseOut, Retires, Retired;
  }

  /** A round takes in an unknown item that was received, with a fresh state, or the cache is
      full afterwards; and it takes in nothing else. */
  lemma RoundTakesIn(g: Gossiper, step: GossipStep, x: Item)
    requires Inv(g) && step.Round? && Enabled(g, step) && x !in g.list
    ensures var g1 := RoundStep(g, step).0;
      && (x in g1.list ==> x in g.incoming && x !in g.oldList)
      && (x in g1.list && g.incoming[x].s.state == B ==>
            g1.list[x] == ItemInfo(ItemState(B, 1, g.cfg.maxTTL, 0), []))
      && (x in g1.list && g.incoming[x].s.state == C ==>
            g1.list[x] == ItemInfo(ItemState(C, 0, g.cfg.maxTTL, 0), []))
      && (x in g.incoming && x !in g.oldList && x !in g1.list ==> |g1.list| == g.cfg.cacheSize)
  {
    hide RoundStep, VisitAll, Inv, PushRound, JudgedAll;
    var push, pull, mid := RoundSplit(g, step);
    PushOldList(g, step.pushes, push, x);
    OrderVisits(pull, step.visits, x);
    VisitsTakeIn(pull, step.visits, x);
    JudgedAllSame(mid.list, g.cfg.bMax, x);
    RoundFits(g, step);
    if x in g.incoming {
      BufferedState(g, x);
    }
  }

  lemma RoundFits(g: Gossiper, step: GossipStep)
    requires Inv(g) && step.Round? && Enabled(g, step)
    ensures |RoundStep(g, step).0.list| <= g.cfg.cacheSize
  {
    hide RoundStep;
    RoundInv(g, step, RoundStep(g, step).0);
  }

  lemma BufferedState(g: Gossiper, x: Item)
    requires Inv(g) && x in g.incoming
    ensures g.incoming[x].s.state != D
  {
    assert Received(g.cfg, g.incoming[x]);
  }

  lemma JudgedAllSame(list: map<Item, ItemInfo>, bMax: uint8, x: Item)
    ensures var l := JudgedAll(list, bMax);
      |l| == |list| && (x in l <==> x in list)
      && (x in list && list[x].s.medianRule == 0 ==> l[x] == list[x])
      && (x in list && list[x].s.state == B && list[x].s.medianRule == 0 ==> l[x].s.state == B)
  {
    assert JudgedAll(list, bMax).Keys == list.Keys;
  }

  /** The push round and the pull round ask for nothing on behalf of an item. */
  lemma PushesAskNothing(g: Gossiper, order: seq<Item>, related: Option<Item>)
    requires Enumerates(order, g.list.Keys) && (forall y :: y in order ==> y in g.list)
    ensures AskedNums(PushRound(g, order).1, related) == []
  {
    var pushes, releases := PushParts(g, order);
    NothingAsked(pushes + releases, related);
  }

  lemma PullsAsk(g: Gossiper, order: seq<Peer>, related: Option<Item>)
    ensures AskedNums(PullRound(g, order).1, related) == if related == None then [g.cfg.degree] else []
  {
    NothingAsked(PullOut(order), related);
    AskedNumsConcat(PullOut(order), [RandomPeerListRequest(None, g.cfg.degree)], related);
    OneAsked(None, g.cfg.degree, related);
  }

  lemma RoundAsksParts(g: Gossiper, step: GossipStep, related: Option<Item>)
      returns (pull: Gossiper, mid: Gossiper)
    requires step.Round? && Enabled(g, step)
    ensures Visitable(pull, step.visits) && EachOnce(step.visits) && mid == VisitAll(pull, step.visits).0
    ensures RoundStep(g, step).0.list == JudgedAll(mid.list, g.cfg.bMax)
    ensures pull.cfg == g.cfg && pull.incoming == g.incoming
    ensures pull.list == PushRound(g, step.pushes).0.list && pull.oldList == PushRound(g, step.pushes).0.oldList
    ensures AskedNums(RoundStep(g, step).1, related)
      == (if related == None then [g.cfg.degree] else []) + AskedNums(VisitAll(pull, step.visits).1, related)
  {
    hide RoundStep, VisitAll;
    var push;
    push, pull, mid := RoundSplit(g, step);
    var a, b, c := PushRound(g, step.pushes).1, PullRound(push, step.pulls).1, VisitAll(pull, step.visits).1;
    PushesAskNothing(g, step.pushes, related);
    PullsAsk(push, step.pulls, related);
    AskedNumsConcat(a, b, related);
    AskedNumsConcat(a + b, c, related);
  }

  lemma RoundAsks(g: Gossiper, step: GossipStep, related: Option<Item>)
    requires Inv(g) && step.Round? && Enabled(g, step)
    ensures var g1, out := RoundStep(g, step).0, RoundStep(g, step).1;
      && (related == None ==> AskedNums(out, related) == [g.cfg.degree])
      && (related.Some? && related.value !in g.list && related.value in g1.list ==>
            AskedNums(out, related) == [Wanted(g.cfg, g1.list[related.value])])
      && (related.Some? && (related.value in g.list || related.value !in g1.list) ==> AskedNums(out, related) == [])
  {
    hide RoundStep, VisitAll, Wanted;
    var pull, mid := RoundAsksParts(g, step, related);
    VisitsAsk(pull, step.visits, related);
    if related.Some? {
      RoundAsksItem(g, step, pull, mid, related.value);
    }
  }

  lemma RoundAsksItem(g: Gossiper, step: GossipStep, pull: Gossiper, mid: Gossiper, x: Item)
    requires Inv(g) && step.Round? && Enabled(g, step)
    requires Visitable(pull, step.visits) && EachOnce(step.visits) && mid == VisitAll(pull, step.visits).0
    requires RoundStep(g, step).0.list == JudgedAll(mid.list, g.cfg.bMax) && pull.cfg == g.cfg
    requires pull.list == PushRound(g, step.pushes).0.list && pull.oldList == PushRound(g, step.pushes).0.oldList
    requires pull.incoming == g.incoming
    ensures var g1 := RoundStep(g, step).0;
      && (x !in pull.list && x in mid.list <==> x !in g.list && x in g1.list)
      && (x !in g.list && x in g1.list ==> g1.list[x] == mid.list[x])
  {
    hide RoundStep, VisitAll, PushRound, Tables, JudgedAll, Settled;
    PushOldList(g, step.pushes, PushRound(g, step.pushes).0, x);
    JudgedAllSame(mid.list, g.cfg.bMax, x);
    if x in pull.list {
      VisitsAdd(pull, step.visits, x);
    } else {
      VisitsTakeIn(pull, step.visits, x);
      if x in mid.list {
        TakenInFresh(g, pull, step.visits, x, mid.list);
      }
    }
  }

  lemma TakenInFresh(g: Gossiper, pull: Gossiper, visits: seq<Visit>, x: Item, list: map<Item, ItemInfo>)
    requires Inv(g) && pull.incoming == g.incoming && Visitable(pull, visits)
    requires TakenIn(pull, visits, x, list) && x in list
    ensures list[x].s.medianRule == 0 && x !in pull.oldList
  {
    assert x in pull.incoming;
    assert Received(g.cfg, g.incoming[x]);
  }
}
