/** The Gossiper as the object that its goroutine works on: every method is proved to do
    what the functions on values say, for whatever order its ranges over maps take. */
module Gossipers {
  import opened Types
  import opened Messages
  import opened GossipItems
  import M = GossiperModel
  import opened GossiperLease

  type Infos = map<Item, ItemInfo>

  /** The list of active items while a push round goes through it. */
  function PartlyAged(list: Infos, cMax: uint8, done: seq<Item>): Infos {
    map x | x in list :: if x in done then list[x].(s := Aged(list[x].s, cMax).0) else list[x]
  }

  lemma PartlyAgedMore(list: Infos, cMax: uint8, order: seq<Item>, i: nat)
    requires i < |order| && order[i] in list && Distinct(order)
    ensures var now := PartlyAged(list, cMax, order[..i]);
      && now[order[i]] == list[order[i]]
      && PartlyAged(list, cMax, order[..i + 1]) == now[order[i] := list[order[i]].(s := Aged(list[order[i]].s, cMax).0)]
  {
    assert order[..i + 1] == order[..i] + [order[i]];
    assert order[i] !in order[..i];
  }

  /** One more step of the recursive specifications of a push round. */
  lemma PushMore(list: Infos, cfg: M.Config, order: seq<Item>, i: nat)
    requires i < |order| && forall x :: x in order ==> x in list
    ensures M.PushOut(list, cfg.degree, order[..i + 1])
         == M.PushOut(list, cfg.degree, order[..i]) + M.PushMsgs(order[i], list[order[i]], cfg.degree)
    ensures M.Retires(list[order[i]], cfg.cMax) ==>
      M.Retired(list, cfg.cMax, order[..i + 1]) == M.Retired(list, cfg.cMax, order[..i]) + [order[i]]
    ensures !M.Retires(list[order[i]], cfg.cMax) ==>
      M.Retired(list, cfg.cMax, order[..i + 1]) == M.Retired(list, cfg.cMax, order[..i])
  {
    assert order[..i + 1][..i] == order[..i];
  }

  /** How far the first loop of a push round has come. */
  ghost predicate Aging(list: Infos, cfg: M.Config, done: seq<Item>, now: Infos, retired: seq<Item>)
    requires forall x :: x in done ==> x in list
  {
    now == PartlyAged(list, cfg.cMax, done) && retired == M.Retired(list, cfg.cMax, done)
  }

  lemma AgingMore(list: Infos, cfg: M.Config, order: seq<Item>, i: nat, now: Infos, retired: seq<Item>)
    requires i < |order| && Distinct(order) && (forall x :: x in order ==> x in list)
    requires Aging(list, cfg, order[..i], now, retired)
    ensures order[i] in now && now[order[i]] == list[order[i]]
    ensures var next := now[order[i] := now[order[i]].(s := Aged(now[order[i]].s, cfg.cMax).0)];
      && (M.Retires(now[order[i]], cfg.cMax) ==> Aging(list, cfg, order[..i + 1], next, retired + [order[i]]))
      && (!M.Retires(now[order[i]], cfg.cMax) ==> Aging(list, cfg, order[..i + 1], next, retired))
    ensures M.PushOut(list, cfg.degree, order[..i + 1])
         == M.PushOut(list, cfg.degree, order[..i]) + M.PushMsgs(order[i], list[order[i]], cfg.degree)
  {
    PartlyAgedMore(list, cfg.cMax, order, i);
    PushMore(list, cfg, order, i);
  }

  /** Moving the retired items out of the aged list leaves what the push round keeps. */
  lemma RetiringKeeps(g: M.Gossiper, order: seq<Item>, retired: seq<Item>, kept: Infos)
    requires Enumerates(order, g.list.Keys) && retired == M.Retired(g.list, g.cfg.cMax, order)
    requires kept == M.PushRound(g, order).0.list
    ensures PartlyAged(g.list, g.cfg.cMax, order) - Members(retired) == kept
  {
    var left := PartlyAged(g.list, g.cfg.cMax, order) - Members(retired);
    forall x ensures x in left <==> x in kept {
      assert x in g.list <==> x in order;
    }
    forall x | x in left ensures left[x] == kept[x] {
      assert x in order;
    }
  }

  lemma QuarantineRetired(g: M.Gossiper, order: seq<Item>, retired: seq<Item>, oldList: Infos)
    requires Enumerates(order, g.list.Keys) && retired == M.Retired(g.list, g.cfg.cMax, order)
    requires oldList == M.PushRound(g, order).0.oldList
    ensures Quarantined(g.oldList, retired, g.cfg.maxTTL) == oldList
  {
    var q := map x | x in retired :: M.Fresh(D, 0, g.cfg.maxTTL);
    var r := map x | x in g.list && M.Retires(g.list[x], g.cfg.cMax) :: M.Fresh(D, 0, g.cfg.maxTTL);
    assert forall x :: x in q <==> x in r;
    assert q == r;
  }

  /** A push round as the work of its two loops. */
  lemma PushRoundParts(g: M.Gossiper, order: seq<Item>) returns (retired: seq<Item>)
    requires Enumerates(order, g.list.Keys)
    ensures Distinct(order) && forall x :: x in order ==> x in g.list
    ensures retired == M.Retired(g.list, g.cfg.cMax, order) && Distinct(retired)
    ensures var aged := PartlyAged(g.list, g.cfg.cMax, order);
      M.PushRound(g, order) == (
        g.(list := aged - Members(retired), oldList := Quarantined(g.oldList, retired, g.cfg.maxTTL)),
        M.PushOut(g.list, g.cfg.degree, order) + M.ReleaseOut(g.list, retired))
    ensures forall x :: x in retired ==>
      x in g.list && PartlyAged(g.list, g.cfg.cMax, order)[x].peerList == g.list[x].peerList
  {
    assert forall x :: x in order ==> x in g.list;
    retired := M.Retired(g.list, g.cfg.cMax, order);
    ghost var next := M.PushRound(g, order).0;
    RetiringKeeps(g, order, retired, next.list);
    QuarantineRetired(g, order, retired, next.oldList);
    RetiredDistinct(g.list, g.cfg.cMax, order);
  }

  lemma QuarantinedMore(oldList: Infos, retired: seq<Item>, i: nat, maxTTL: uint8)
    requires i < |retired|
    ensures Quarantined(oldList, retired[..i + 1], maxTTL)
      == Quarantined(oldList, retired[..i], maxTTL)[retired[i] := M.Fresh(D, 0, maxTTL)]
  {
    assert retired[..i + 1] == retired[..i] + [retired[i]];
  }

  lemma RemovedMore(list: Infos, retired: seq<Item>, i: nat)
    requires i < |retired| && Distinct(retired) && retired[i] in list
    ensures list - Members(retired[..i + 1]) == list - Members(retired[..i]) - {retired[i]}
    ensures retired[i] in list - Members(retired[..i])
  {
    assert retired[..i + 1] == retired[..i] + [retired[i]];
    assert retired[i] !in retired[..i];
  }

  lemma ReleaseMore(list: Infos, retired: seq<Item>, i: nat)
    requires i < |retired| && forall x :: x in retired ==> x in list
    ensures M.ReleaseOut(list, retired[..i + 1])
      == M.ReleaseOut(list, retired[..i]) + [RandomPeerListRelease(list[retired[i]].peerList)]
  {
    assert retired[..i + 1][..i] == retired[..i];
  }

  function Members(xs: seq<Item>): set<Item> {
    set x | x in xs
  }

  function Quarantined(oldList: Infos, retired: seq<Item>, maxTTL: uint8): Infos {
    oldList + map x | x in retired :: M.Fresh(D, 0, maxTTL)
  }

  /** The list of active items while the median rule is applied to it. */
  function PartlyJudged(list: Infos, bMax: uint8, rest: set<Item>): Infos {
    map x | x in list :: if x in rest then list[x] else list[x].(s := Judged(list[x].s, bMax))
  }

  /** The quarantine list while its entries are counted down. */
  function PartlySwept(oldList: Infos, rest: set<Item>): Infos {
    map x | x in oldList ::
      if x in rest then oldList[x] else oldList[x].(s := oldList[x].s.(ttl := Dec8(oldList[x].s.ttl)))
  }

  /** The clients while they are told of an item one by one. */
  function PartlyNotified(clients: map<Client, M.Registration>, x: Item, done: seq<Client>)
    : map<Client, M.Registration>
  {
    map c | c in clients :: if c in done then M.Notified(clients[c], x) else clients[c]
  }

  lemma PartlyNotifiedMore(clients: map<Client, M.Registration>, x: Item, order: seq<Client>, i: nat)
    requires i < |order| && order[i] in clients && Distinct(order)
    ensures var now := PartlyNotified(clients, x, order[..i]);
      && now[order[i]] == clients[order[i]]
      && PartlyNotified(clients, x, order[..i + 1]) == now[order[i] := M.Notified(clients[order[i]], x)]
  {
    assert order[..i + 1] == order[..i] + [order[i]];
    assert order[i] !in order[..i];
  }

  ghost predicate ClientsListed(g: M.Gossiper, visits: seq<M.Visit>) {
    forall v :: v in visits ==> Enumerates(v.clients, g.clients.Keys)
  }

  lemma OrderVisitable(g: M.Gossiper, visits: seq<M.Visit>)
    requires M.VisitOrder(g, visits)
    ensures M.Visitable(g, visits) && ClientsListed(g, visits)
  {
  }

  lemma VisitsVisitable(g: M.Gossiper, visits: seq<M.Visit>)
    requires M.Visitable(g, visits)
    ensures forall i :: 0 <= i <= |visits| ==> M.Visitable(g, visits[..i])
    ensures visits[..0] == [] && visits[..|visits|] == visits
  {
  }

  /** One more step of the recursive specification of an update round. */
  lemma VisitMore(g: M.Gossiper, visits: seq<M.Visit>, i: nat)
    requires ClientsListed(g, visits) && i < |visits| && M.Visitable(g, visits) && M.Visitable(g, visits[..i])
      && M.Visitable(g, visits[..i + 1])
    ensures var before := M.VisitAll(g, visits[..i]);
      && visits[i].item in before.0.incoming && Enumerates(visits[i].clients, before.0.clients.Keys)
      && (forall c :: c in visits[i].clients ==> c in before.0.clients)
      && M.VisitAll(g, visits[..i + 1])
        == (M.VisitOne(before.0, visits[i]).0, before.1 + M.VisitOne(before.0, visits[i]).1)
  {
    assert visits[i] in visits;
    assert visits[..i + 1][..i] == visits[..i];
  }

  lemma Concat4(a: seq<Msg>, b: seq<Msg>, c: seq<Msg>, d: seq<Msg>)
    ensures a + b + c + d == a + (b + c + d)
  {
  }

  lemma Concat3(a: seq<Msg>, b: seq<Msg>, c: seq<Msg>)
    ensures a + b + c == a + (b + c)
  {
  }

  class Gossiper {
    const cfg: M.Config
    var gossipList: Infos
    var oldGossipList: Infos
    var apiClientsToNotify: map<Client, M.Registration>
    var incomingGossips: Infos
    var nextRoundPullPeers: set<Peer>
    var pullPeers: set<Peer>
    /** Everything sent to the Central controller so far. */
    var out: seq<Msg>

    ghost function Abs(): M.Gossiper
      reads this
    {
      M.Gossiper(cfg, gossipList, oldGossipList, apiClientsToNotify, incomingGossips, nextRoundPullPeers, pullPeers)
    }

    constructor (cfg: M.Config)
      ensures Abs() == M.Gossiper(cfg, map[], map[], map[], map[], {}, {}) && out == []
    {
      this.cfg := cfg;
      gossipList, oldGossipList, apiClientsToNotify, incomingGossips := map[], map[], map[], map[];
      nextRoundPullPeers, pullPeers, out := {}, {}, [];
    }

    // ---- Push round ----------------------------------------------------------------

    /** Pushes one item to the peers whose turn it is. */
    method PushItem(x: Item, info: ItemInfo)
      modifies this`out
      ensures out == old(out) + M.PushMsgs(x, info, cfg.degree)
    {
      var n := Min(cfg.degree, |info.peerList|);
      for i := 0 to n
        invariant out == old(out) + M.PushMsgs(x, info, cfg.degree)[..i]
      {
        var peerIndex := (info.s.ttl as int * cfg.degree + i) % |info.peerList|;
        out := out + [GossipPush(x, info.s.state, info.s.counter, info.peerList[peerIndex])];
      }
      assert M.PushMsgs(x, info, cfg.degree)[..n] == M.PushMsgs(x, info, cfg.degree);
    }

    /** Ages one item; returns true iff it is to be removed. */
    method AgeItem(s: ItemState) returns (s1: ItemState, remove: bool)
      ensures (s1, remove) == Aged(s, cfg.cMax)
    {
      s1, remove := s.(ttl := Dec8(s.ttl)), false;
      if s1.ttl == 0 {
        remove := true;
      } else if s1.state == C {
        s1 := s1.(counter := Inc8(s1.counter));
        if s1.counter >= cfg.cMax {
          remove := true;
        }
      }
    }

    method PushOne(item: Item) returns (remove: bool)
      requires item in gossipList
      modifies this`gossipList, this`out
      ensures gossipList == old(gossipList)[item :=
        old(gossipList)[item].(s := Aged(old(gossipList)[item].s, cfg.cMax).0)]
      ensures out == old(out) + M.PushMsgs(item, old(gossipList)[item], cfg.degree)
      ensures remove == M.Retires(old(gossipList)[item], cfg.cMax)
    {
      var info := gossipList[item];
      PushItem(item, info);
      var s;
      s, remove := AgeItem(info.s);
      gossipList := gossipList[item := info.(s := s)];
    }

    /** First loop: pushes and ages every item. */
    method PushAll(order: seq<Item>) returns (itemsToRemove: seq<Item>)
      requires Distinct(order) && forall x :: x in order ==> x in gossipList
      modifies this`gossipList, this`out
      ensures gossipList == PartlyAged(old(gossipList), cfg.cMax, order)
      ensures itemsToRemove == M.Retired(old(gossipList), cfg.cMax, order)
      ensures out == old(out) + M.PushOut(old(gossipList), cfg.degree, order)
    {
      hide M.PushMsgs, M.Retires, Aged;
      ghost var list, sent := gossipList, out;
      itemsToRemove := [];
      assert order[..0] == [];
      for i := 0 to |order|
        invariant Aging(list, cfg, order[..i], gossipList, itemsToRemove)
          && out == sent + M.PushOut(list, cfg.degree, order[..i])
      {
        var item := order[i];
        AgingMore(list, cfg, order, i, gossipList, itemsToRemove);
        var remove := PushOne(item);
        if remove {
          itemsToRemove := itemsToRemove + [item];
        }
      }
      assert order[..|order|] == order;
    }

    /** Second loop: releases the peers of retired items and puts these in quarantine. */
    method RetireAll(itemsToRemove: seq<Item>, ghost list: Infos)
      requires Distinct(itemsToRemove) && forall x :: x in itemsToRemove ==> x in gossipList
      requires forall x :: x in itemsToRemove ==> x in list && gossipList[x].peerList == list[x].peerList
      modifies this`gossipList, this`oldGossipList, this`out
      ensures gossipList == old(gossipList) - Members(itemsToRemove)
      ensures oldGossipList == Quarantined(old(oldGossipList), itemsToRemove, cfg.maxTTL)
      ensures out == old(out) + M.ReleaseOut(list, itemsToRemove)
    {
      hide M.Fresh;
      ghost var aged, before, sent := gossipList, oldGossipList, out;
      assert itemsToRemove[..0] == [];
      for i := 0 to |itemsToRemove|
        invariant gossipList == aged - Members(itemsToRemove[..i])
        invariant oldGossipList == Quarantined(before, itemsToRemove[..i], cfg.maxTTL)
        invariant out == sent + M.ReleaseOut(list, itemsToRemove[..i])
      {
        var item := itemsToRemove[i];
        RemovedMore(aged, itemsToRemove, i);
        QuarantinedMore(before, itemsToRemove, i, cfg.maxTTL);
        ReleaseMore(list, itemsToRemove, i);
        out := out + [RandomPeerListRelease(gossipList[item].peerList)];
        gossipList := gossipList - {item};
        oldGossipList := oldGossipList[item := M.Fresh(D, 0, cfg.maxTTL)];
      }
      assert itemsToRemove[..|itemsToRemove|] == itemsToRemove;
    }

    method PushRound(order: seq<Item>)
      requires Enumerates(order, gossipList.Keys)
      modifies this`gossipList, this`oldGossipList, this`out
      ensures Abs() == M.PushRound(old(Abs()), order).0
      ensures out == old(out) + M.PushRound(old(Abs()), order).1
    {
      ghost var g := Abs();
      ghost var retired := PushRoundParts(g, order);
      PushAndRetire(order, retired);
    }

    method PushAndRetire(order: seq<Item>, ghost retired: seq<Item>)
      requires Distinct(order) && (forall x :: x in order ==> x in gossipList) && Distinct(retired)
      requires retired == M.Retired(gossipList, cfg.cMax, order)
      requires forall x :: x in retired ==>
        PartlyAged(gossipList, cfg.cMax, order)[x].peerList == gossipList[x].peerList
      modifies this`gossipList, this`oldGossipList, this`out
      ensures gossipList == PartlyAged(old(gossipList), cfg.cMax, order) - Members(retired)
      ensures oldGossipList == Quarantined(old(oldGossipList), retired, cfg.maxTTL)
      ensures out == old(out) + (M.PushOut(old(gossipList), cfg.degree, order) + M.ReleaseOut(old(gossipList), retired))
    {
      ghost var list, sent := gossipList, out;
      var itemsToRemove := PushAll(order);
      RetireAll(itemsToRemove, list);
      Concat3(sent, M.PushOut(list, cfg.degree, order), M.ReleaseOut(list, retired));
    }

    // ---- Pull round ----------------------------------------------------------------

    method PullRound(order: seq<Peer>)
      requires Enumerates(order, nextRoundPullPeers)
      modifies this`nextRoundPullPeers, this`pullPeers, this`out
      ensures Abs() == M.PullRound(old(Abs()), order).0
      ensures out == old(out) + M.PullRound(old(Abs()), order).1
    {
      for i := 0 to |order|
        invariant out == old(out) + M.PullOut(order)[..i] && nextRoundPullPeers == old(nextRoundPullPeers)
      {
        out := out + [GossipPullRequest(order[i])];
      }
      assert M.PullOut(order)[..|order|] == M.PullOut(order);
      assert old(out) + M.PullOut(order) + [RandomPeerListRequest(None, cfg.degree)]
          == old(out) + (M.PullOut(order) + [RandomPeerListRequest(None, cfg.degree)]);
      pullPeers := nextRoundPullPeers;
      nextRoundPullPeers := {};
      out := out + [RandomPeerListRequest(None, cfg.degree)];
    }

    // ---- Update round --------------------------------------------------------------

    /** Tells interested clients of a new item. */
    method NotifyClients(x: Item, order: seq<Client>)
      requires Enumerates(order, apiClientsToNotify.Keys)
      modifies this`apiClientsToNotify, this`out
      ensures apiClientsToNotify == M.NotifiedAll(old(apiClientsToNotify), x)
      ensures out == old(out) + M.NotifyOut(old(apiClientsToNotify), x, order)
    {
      ghost var clients, sent := apiClientsToNotify, out;
      assert order[..0] == [];
      for i := 0 to |order|
        invariant apiClientsToNotify == PartlyNotified(clients, x, order[..i])
        invariant out == sent + M.NotifyOut(clients, x, order[..i])
      {
        var client := order[i];
        assert client in clients;
        PartlyNotifiedMore(clients, x, order, i);
        assert order[..i + 1][..i] == order[..i];
        var cInfo := apiClientsToNotify[client];
        if x.dataType in cInfo.dataTypes {
          out := out + [GossipNotification(client, x, cInfo.nextID)];
          cInfo := cInfo.(validation := cInfo.validation[cInfo.nextID := x]);
          cInfo := cInfo.(nextID := Inc16(cInfo.nextID));
          apiClientsToNotify := apiClientsToNotify[client := cInfo];
        }
      }
      assert order[..|order|] == order;
      assert forall c :: c in clients <==> c in order;
      assert PartlyNotified(clients, x, order) == M.NotifiedAll(clients, x);
    }

    /** Takes a received item into account. */
    method VisitOne(v: M.Visit)
      requires v.item in incomingGossips && Enumerates(v.clients, apiClientsToNotify.Keys)
      modifies this`gossipList, this`apiClientsToNotify, this`out
      ensures Abs() == M.VisitOne(old(Abs()), v).0 && out == old(out) + M.VisitOne(old(Abs()), v).1
    {
      var item, info := v.item, incomingGossips[v.item];
      if item in oldGossipList {
        return;
      }
      if item in gossipList {
        var mine := new GossipItemInfo(gossipList[item].s, gossipList[item].peerList);
        mine.UpdateItemInfo(info.s);
        gossipList := gossipList[item := gossipList[item].(s := mine.s)];
      } else {
        NotifyClients(item, v.clients);
        AdoptItem(item, info);
      }
    }

    /** Adopts a received item if there is room for it. */
    method AdoptItem(item: Item, info: ItemInfo)
      modifies this`gossipList, this`out
      ensures |old(gossipList)| >= cfg.cacheSize || info.s.state == D ==>
        gossipList == old(gossipList) && out == old(out)
      ensures |old(gossipList)| < cfg.cacheSize && info.s.state == B ==>
        gossipList == old(gossipList)[item := M.Fresh(B, 1, cfg.maxTTL)]
          && out == old(out) + [M.Request(item, cfg.degree, cfg.maxTTL)]
      ensures |old(gossipList)| < cfg.cacheSize && info.s.state == C ==>
        gossipList == old(gossipList)[item := M.Fresh(C, 0, cfg.maxTTL)]
          && out == old(out) + [M.Request(item, cfg.degree, cfg.cMax)]
    {
      if |gossipList| < cfg.cacheSize {
        match info.s.state {
          case B =>
            gossipList := gossipList[item := ItemInfo(ItemState(B, 1, cfg.maxTTL, 0), [])];
            out := out + [RandomPeerListRequest(Some(item), cfg.degree * cfg.maxTTL as int)];
          case C =>
            gossipList := gossipList[item := ItemInfo(ItemState(C, 0, cfg.maxTTL, 0), [])];
            out := out + [RandomPeerListRequest(Some(item), cfg.degree * cfg.cMax as int)];
          case D =>
        }
      }
    }

    /** First loop: all received items. */
    method VisitAll(visits: seq<M.Visit>)
      requires M.Visitable(Abs(), visits) && ClientsListed(Abs(), visits)
      modifies this`gossipList, this`apiClientsToNotify, this`out
      ensures Abs() == M.VisitAll(old(Abs()), visits).0 && out == old(out) + M.VisitAll(old(Abs()), visits).1
    {
      ghost var g, sent := Abs(), out;
      VisitsVisitable(g, visits);
      for i := 0 to |visits|
        invariant Abs() == M.VisitAll(g, visits[..i]).0 && out == sent + M.VisitAll(g, visits[..i]).1
      {
        VisitMore(g, visits, i);
        ghost var before, part := Abs(), M.VisitAll(g, visits[..i]).1;
        VisitOne(visits[i]);
        Concat3(sent, part, M.VisitOne(before, visits[i]).1);
      }
      assert visits[..|visits|] == visits;
    }

    /** The median rule for one item. */
    method JudgeItem(s: ItemState) returns (s1: ItemState)
      ensures s1 == Judged(s, cfg.bMax)
    {
      s1 := s;
      match s1.state
      case B =>
        if s1.medianRule > 0 {
          s1 := s1.(counter := Inc8(s1.counter));
          if s1.counter == cfg.bMax {
            s1 := s1.(state := C);
            s1 := s1.(counter := 0);
          }
        }
        s1 := s1.(medianRule := 0);
      case C =>
      case D =>
    }

    /** Second loop: the median rule for all items. */
    method JudgeAll()
      modifies this`gossipList
      ensures gossipList == M.JudgedAll(old(gossipList), cfg.bMax)
    {
      ghost var list := gossipList;
      var rest := gossipList.Keys;
      assert PartlyJudged(list, cfg.bMax, rest) == list;
      while rest != {}
        invariant rest <= list.Keys && gossipList == PartlyJudged(list, cfg.bMax, rest)
        decreases rest
      {
        var item :| item in rest;
        var s := JudgeItem(gossipList[item].s);
        gossipList := gossipList[item := gossipList[item].(s := s)];
        rest := rest - {item};
      }
      assert PartlyJudged(list, cfg.bMax, {}) == M.JudgedAll(list, cfg.bMax);
    }

    method UpdateRound(visits: seq<M.Visit>)
      requires M.VisitOrder(Abs(), visits)
      modifies this`gossipList, this`apiClientsToNotify, this`incomingGossips, this`out
      ensures Abs() == M.UpdateRound(old(Abs()), visits).0 && out == old(out) + M.UpdateRound(old(Abs()), visits).1
    {
      OrderVisitable(Abs(), visits);
      VisitAll(visits);
      incomingGossips := map[];
      JudgeAll();
    }

    // ---- Quarantine ----------------------------------------------------------------

    method UpdateOldGossipsRound()
      modifies this`oldGossipList
      ensures Abs() == M.SweepOld(old(Abs()))
    {
      ghost var oldList := oldGossipList;
      var itemsToRemove: set<Item> := {};
      var rest := oldGossipList.Keys;
      assert PartlySwept(oldList, rest) == oldList;
      while rest != {}
        invariant rest <= oldList.Keys && oldGossipList == PartlySwept(oldList, rest)
        invariant itemsToRemove == set x | x in oldList && x !in rest && Dec8(oldList[x].s.ttl) == 0
        decreases rest
      {
        var oldItem :| oldItem in rest;
        var info := oldGossipList[oldItem];
        info := info.(s := info.s.(ttl := Dec8(info.s.ttl)));
        oldGossipList := oldGossipList[oldItem := info];
        if info.s.ttl == 0 {
          itemsToRemove := itemsToRemove + {oldItem};
        }
        rest := rest - {oldItem};
      }
      oldGossipList := oldGossipList - itemsToRemove;
    }

    /** One gossip round. The orders of the later parts refer to what the earlier ones leave. */
    method GossipRound(pushes: seq<Item>, pulls: seq<Peer>, visits: seq<M.Visit>)
      requires M.Enabled(Abs(), M.Round(pushes, pulls, visits))
      modifies this
      ensures Abs() == M.RoundStep(old(Abs()), M.Round(pushes, pulls, visits)).0
      ensures out == old(out) + M.RoundStep(old(Abs()), M.Round(pushes, pulls, visits)).1
    {
      ghost var g, sent := Abs(), out;
      PushRound(pushes);
      ghost var push := M.PushRound(g, pushes);
      PullRound(pulls);
      ghost var pull := M.PullRound(push.0, pulls);
      UpdateRound(visits);
      Concat4(sent, push.1, pull.1, M.UpdateRound(pull.0, visits).1);
      UpdateOldGossipsRound();
    }

    // ---- Handlers ------------------------------------------------------------------

    method RandomPeerListReplyHandler(related: Option<Item>, peers: seq<Peer>)
      modifies this`nextRoundPullPeers, this`gossipList, this`out
      ensures Abs() == M.ListReplyHandler(old(Abs()), related, peers).0
      ensures out == old(out) + M.ListReplyHandler(old(Abs()), related, peers).1
    {
      if related.None? {
        for i := 0 to |peers|
          invariant nextRoundPullPeers == old(nextRoundPullPeers) + (set p | p in peers[..i])
          invariant gossipList == old(gossipList) && out == old(out)
        {
          assert peers[..i + 1] == peers[..i] + [peers[i]];
          nextRoundPullPeers := nextRoundPullPeers + {peers[i]};
        }
        assert peers[..|peers|] == peers;
      } else if related.value in gossipList {
        gossipList := gossipList[related.value := gossipList[related.value].(peerList := peers)];
      } else {
        out := out + [RandomPeerListRelease(peers)];
      }
    }

    method AnnounceHandler(item: Option<Item>, ttl: uint8, order: seq<Client>)
      requires Enumerates(order, apiClientsToNotify.Keys)
      modifies this`gossipList, this`apiClientsToNotify, this`out
      ensures (forall c :: c in order ==> c in old(Abs()).clients)
        && Abs() == M.AnnounceHandler(old(Abs()), item, ttl, order).0
        && out == old(out) + M.AnnounceHandler(old(Abs()), item, ttl, order).1
    {
      assert forall c :: c in order ==> c in apiClientsToNotify;
      if item.None? {
        return;
      }
      NotifyClients(item.value, order);
      if |gossipList| >= cfg.cacheSize {
        return;
      }
      if item.value in oldGossipList || item.value in gossipList {
        return;
      }
      var t := cfg.maxTTL;
      if ttl != 0 {
        t := ttl;
        if t > cfg.maxTTL {
          t := cfg.maxTTL;
        }
      }
      gossipList := gossipList[item.value := ItemInfo(ItemState(B, 1, t, 0), [])];
      out := out + [RandomPeerListRequest(item, cfg.degree * t as int)];
    }

    method NotifyHandler(who: Client, what: nat)
      modifies this`apiClientsToNotify
      ensures Abs() == M.NotifyHandler(old(Abs()), who, what)
    {
      if who in apiClientsToNotify {
        var info := apiClientsToNotify[who];
        apiClientsToNotify := apiClientsToNotify[who := info.(dataTypes := info.dataTypes + {what})];
      } else {
        apiClientsToNotify := apiClientsToNotify[who := M.Registration({what}, map[], 0)];
      }
    }

    method UnnotifyHandler(who: Client)
      modifies this`apiClientsToNotify
      ensures Abs() == M.UnnotifyHandler(old(Abs()), who)
    {
      apiClientsToNotify := apiClientsToNotify - {who};
    }

    method ValidationHandler(who: Client, id: uint16, valid: bool)
      modifies this`gossipList, this`oldGossipList, this`incomingGossips, this`apiClientsToNotify
      ensures Abs() == M.ValidationHandler(old(Abs()), who, id, valid)
    {
      if who in apiClientsToNotify {
        var info := apiClientsToNotify[who];
        if id in info.validation {
          var item := info.validation[id];
          if !valid {
            gossipList := gossipList - {item};
            incomingGossips := incomingGossips - {item};
            oldGossipList := oldGossipList[item := ItemInfo(ItemState(D, 0, cfg.maxTTL, 0), [])];
          }
          apiClientsToNotify := apiClientsToNotify[who := info.(validation := info.validation - {id})];
        }
      }
    }

    /** Returns true (no error) iff a new item was added. */
    method CheckAndAddIncomingGossip(ext: ItemExt) returns (added: bool)
      modifies this`incomingGossips
      ensures (incomingGossips, added) == M.CheckAndAdd(cfg, old(incomingGossips), ext)
    {
      if ext.item.None? {
        return false;
      }
      var newInfo: Option<ItemInfo> := None;
      match ext.state {
        case B =>
          if ext.counter < cfg.bMax {
            newInfo := Some(ItemInfo(ItemState(B, ext.counter, cfg.maxTTL, 0), []));
          }
        case C =>
          if ext.counter < cfg.cMax {
            newInfo := Some(ItemInfo(ItemState(C, 0, cfg.maxTTL, 0), []));
          }
        case D =>
      }
      if newInfo.Some? {
        if ext.item.value in incomingGossips {
          if Cmp(incomingGossips[ext.item.value].s, newInfo.value.s) < 0 {
            incomingGossips := incomingGossips[ext.item.value := newInfo.value];
          }
        } else {
          incomingGossips := incomingGossips[ext.item.value := newInfo.value];
          return true;
        }
      }
      return false;
    }

    method IncomingPushHandler(ext: ItemExt)
      modifies this`incomingGossips
      ensures Abs() == M.PushHandler(old(Abs()), ext)
    {
      if |incomingGossips| >= cfg.cacheSize {
        return;
      }
      var added := CheckAndAddIncomingGossip(ext);
    }

    /** Replies with all active items, in the order in which the list is visited. */
    method IncomingPullRequestHandler(from: Peer, order: seq<Item>)
      requires Enumerates(order, gossipList.Keys)
      modifies this`out
      ensures (forall x :: x in order ==> x in Abs().list) && out == old(out) + M.PullRequestHandler(Abs(), from, order)
    {
      assert forall x :: x in order ==> x in gossipList;
      var itemList: seq<ItemExt> := [];
      for i := 0 to |order|
        invariant |itemList| == i && out == old(out)
        invariant forall j :: 0 <= j < i ==>
          itemList[j] == ItemExt(Some(order[j]), gossipList[order[j]].s.state, gossipList[order[j]].s.counter)
      {
        var info := gossipList[order[i]];
        itemList := itemList + [ItemExt(Some(order[i]), info.s.state, info.s.counter)];
      }
      assert itemList == M.PullRequestHandler(Abs(), from, order)[0].items;
      out := out + [GossipPullReply(from, itemList)];
    }

    method IncomingPullReplyHandler(from: Peer, items: seq<ItemExt>)
      modifies this`incomingGossips, this`pullPeers
      ensures Abs() == M.PullReplyHandler(old(Abs()), from, items)
    {
      if from !in pullPeers {
        return;
      }
      var upTo := cfg.cacheSize - |incomingGossips|;
      ghost var total := M.PullAll(cfg, incomingGossips, upTo, items);
      var i := 0;
      assert items[0..] == items;
      while i < |items| && upTo > 0
        invariant 0 <= i <= |items| && pullPeers == old(pullPeers)
        invariant M.PullAll(cfg, incomingGossips, upTo, items[i..]) == total
      {
        assert items[i..][1..] == items[i + 1..];
        var added := CheckAndAddIncomingGossip(items[i]);
        if added {
          upTo := upTo - 1;
        }
        i := i + 1;
      }
      pullPeers := pullPeers - {from};
    }

    method CloseHandler()
      modifies this`out
      ensures out == old(out) + [SubClosed(Gossip)]
    {
      out := out + [SubClosed(Gossip)];
    }
  }
}
