/** The Gossiper's side of the lease protocol: which peers its items hold, which it gives
    back, and to whom it pushes. */
module GossiperLease {
  import opened Types
  import opened Messages
  import opened GossipItems
  import opened GossiperModel

  // ---- Leases held, returned and granted -------------------------------------------

  /** Leases held by the items of a table, with multiplicity. */
  ghost function Held(list: map<Item, ItemInfo>): multiset<Peer>
    decreases |list|
  {
    if list == map[] then multiset{}
    else
      var x :| x in list;
      multiset(list[x].peerList) + Held(list - {x})
  }

  /** Leases that a queue of messages gives back. */
  ghost function Released(q: seq<Msg>): multiset<Peer> {
    if q == [] then multiset{} else ReleasedBy(q[0]) + Released(q[1..])
  }

  ghost function ReleasedBy(m: Msg): multiset<Peer> {
    if m.RandomPeerListRelease? then multiset(m.peers) else multiset{}
  }

  /** Leases that a queue of replies grants. */
  ghost function Granted(q: seq<GossipMsg>): multiset<Peer> {
    if q == [] then multiset{} else GrantedBy(q[0]) + Granted(q[1..])
  }

  ghost function GrantedBy(m: GossipMsg): multiset<Peer> {
    if m.RandomPeerListReply? then multiset(m.peers) else multiset{}
  }

  lemma {:induction false} ReleasedConcat(a: seq<Msg>, b: seq<Msg>)
    ensures Released(a + b) == Released(a) + Released(b)
  {
    if a == [] {
      assert a + b == b;
    } else {
      assert (a + b)[1..] == a[1..] + b;
      ReleasedConcat(a[1..], b);
    }
  }

  lemma {:induction false} GrantedConcat(a: seq<GossipMsg>, b: seq<GossipMsg>)
    ensures Granted(a + b) == Granted(a) + Granted(b)
  {
    if a == [] {
      assert a + b == b;
    } else {
      assert (a + b)[1..] == a[1..] + b;
      GrantedConcat(a[1..], b);
    }
  }

  lemma {:induction false} NoReleases(q: seq<Msg>)
    requires forall m :: m in q ==> !m.RandomPeerListRelease?
    ensures Released(q) == multiset{}
  {
    if q != [] {
      NoReleases(q[1..]);
    }
  }

  lemma ReleasedSingle(m: Msg)
    ensures Released([m]) == ReleasedBy(m)
  {
    assert [m][1..] == [];
  }

  lemma HeldPick(list: map<Item, ItemInfo>) returns (y: Item)
    requires list != map[]
    ensures y in list && Held(list) == multiset(list[y].peerList) + Held(list - {y})
  {
    y :| y in list && Held(list) == multiset(list[y].peerList) + Held(list - {y});
  }

  lemma SumSwaps(all: multiset<Peer>, withoutX: multiset<Peer>, withoutY: multiset<Peer>,
                 rest: multiset<Peer>, a: multiset<Peer>, b: multiset<Peer>)
    requires all == b + withoutY && withoutY == a + rest && withoutX == b + rest
    ensures all == a + withoutX
  {
  }

  /** Any item of the table can be taken out of the sum first. */
  lemma {:induction false} HeldWithout(list: map<Item, ItemInfo>, x: Item)
    requires x in list
    ensures Held(list) == multiset(list[x].peerList) + Held(list - {x})
    decreases |list|
  {
    var y := HeldPick(list);
    hide Held;
    if y != x {
      HeldWithout(list - {y}, x);
      HeldWithout(list - {x}, y);
      assert list - {y} - {x} == list - {x} - {y};
      SumSwaps(Held(list), Held(list - {x}), Held(list - {y}), Held(list - {x} - {y}),
               multiset(list[x].peerList), multiset(list[y].peerList));
    }
  }

  /** Only the lists of peers matter. */
  lemma {:induction false} HeldSame(a: map<Item, ItemInfo>, b: map<Item, ItemInfo>)
    requires a.Keys == b.Keys && forall x :: x in a ==> a[x].peerList == b[x].peerList
    ensures Held(a) == Held(b)
    decreases |a|
  {
    if a == map[] {
      assert b == map[];
    } else {
      var x :| x in a;
      HeldWithout(a, x);
      HeldWithout(b, x);
      HeldSame(a - {x}, b - {x});
    }
  }

  lemma HeldUpdate(list: map<Item, ItemInfo>, x: Item, info: ItemInfo)
    ensures x !in list ==> Held(list[x := info]) == Held(list) + multiset(info.peerList)
    ensures x in list && info.peerList == list[x].peerList ==> Held(list[x := info]) == Held(list)
    ensures x in list ==> Held(list[x := info]) == Held(list - {x}) + multiset(info.peerList)
    ensures Held(list[x := info]) <= Held(list) + multiset(info.peerList)
  {
    HeldWithout(list[x := info], x);
    assert list[x := info] - {x} == list - {x};
    if x in list {
      HeldWithout(list, x);
    } else {
      assert list - {x} == list;
    }
  }

  // ---- A gossip round --------------------------------------------------------------

  /** The table without these items. */
  ghost function Without(list: map<Item, ItemInfo>, xs: seq<Item>): (r: map<Item, ItemInfo>)
    ensures forall x :: x in r <==> x in list && x !in xs
    ensures forall x :: x in r ==> r[x] == list[x]
  {
    if xs == [] then list
    else
      var n := |xs| - 1;
      assert xs == xs[..n] + [xs[n]];
      Without(list, xs[..n]) - {xs[n]}
  }

  /** Retiring items hand exactly their leases back. */
  lemma {:induction false} RetiredRelease(list: map<Item, ItemInfo>, retired: seq<Item>)
    requires Distinct(retired) && forall x :: x in retired ==> x in list
    ensures Held(list) == Held(Without(list, retired)) + Released(ReleaseOut(list, retired))
  {
    if retired != [] {
      var n := |retired| - 1;
      var x, rest := retired[n], retired[..n];
      assert retired == rest + [x] && x !in rest;
      RetiredRelease(list, rest);
      HeldWithout(Without(list, rest), x);
      ReleasedConcat(ReleaseOut(list, rest), [RandomPeerListRelease(list[x].peerList)]);
      ReleasedSingle(RandomPeerListRelease(list[x].peerList));
    }
  }

  lemma {:induction false} RetiredDistinct(list: map<Item, ItemInfo>, cMax: uint8, order: seq<Item>)
    requires Distinct(order) && forall x :: x in order ==> x in list
    ensures Distinct(Retired(list, cMax, order))
  {
    if order != [] {
      var n := |order| - 1;
      assert order == order[..n] + [order[n]];
      RetiredDistinct(list, cMax, order[..n]);
      assert order[n] !in order[..n];
    }
  }

  lemma PushRoundLeases(g: Gossiper, order: seq<Item>)
    requires Enumerates(order, g.list.Keys)
    ensures Held(PushRound(g, order).0.list) + Released(PushRound(g, order).1) == Held(g.list)
  {
    var retired := Retired(g.list, g.cfg.cMax, order);
    var kept := PushRound(g, order).0.list;
    RetiredDistinct(g.list, g.cfg.cMax, order);
    RetiredRelease(g.list, retired);
    KeptLeases(g, order, retired, kept);
    PushOutKind(g.list, g.cfg.degree, order);
    NoReleases(PushOut(g.list, g.cfg.degree, order));
    ReleasedConcat(PushOut(g.list, g.cfg.degree, order), ReleaseOut(g.list, retired));
  }

  lemma KeptLeases(g: Gossiper, order: seq<Item>, retired: seq<Item>, kept: map<Item, ItemInfo>)
    requires Enumerates(order, g.list.Keys) && retired == Retired(g.list, g.cfg.cMax, order)
    requires kept == PushRound(g, order).0.list
    ensures Held(kept) == Held(Without(g.list, retired))
  {
    forall x ensures x in kept <==> x in Without(g.list, retired) {
      assert x in g.list ==> x in order;
    }
    HeldSame(kept, Without(g.list, retired));
  }

  lemma {:induction false} PushOutKind(list: map<Item, ItemInfo>, degree: nat, order: seq<Item>)
    requires forall x :: x in order ==> x in list
    ensures forall m :: m in PushOut(list, degree, order) ==> m.GossipPush? && m.item in order
    ensures forall m :: m in PushOut(list, degree, order) ==> m.item in list && m.to in list[m.item].peerList
  {
    if order != [] {
      var n := |order| - 1;
      assert order == order[..n] + [order[n]];
      PushOutKind(list, degree, order[..n]);
    }
  }

  lemma {:induction false} ReleaseOutKind(list: map<Item, ItemInfo>, retired: seq<Item>)
    requires forall x :: x in retired ==> x in list
    ensures forall m :: m in ReleaseOut(list, retired) ==> m.RandomPeerListRelease?
  {
    if retired != [] {
      ReleaseOutKind(list, retired[..|retired| - 1]);
    }
  }

  /** Messages that neither push nor give back: requests and notifications. */
  predicate IsNeutral(m: Msg) {
    m.RandomPeerListRequest? || m.GossipNotification? || m.GossipPullRequest? || m.GossipPullReply?
  }

  lemma {:induction false} NotifyOutKind(clients: map<Client, Registration>, x: Item, order: seq<Client>)
    requires forall c :: c in order ==> c in clients
    ensures forall m :: m in NotifyOut(clients, x, order) ==> m.GossipNotification?
  {
    if order != [] {
      NotifyOutKind(clients, x, order[..|order| - 1]);
    }
  }

  lemma AdoptList(g: Gossiper, x: Item, order: seq<Client>)
    requires x in g.incoming
    requires forall c :: c in order ==> c in g.clients
    ensures var l := Adopt(g, x, order).0.list;
      l == g.list || l == g.list[x := Fresh(B, 1, g.cfg.maxTTL)] || l == g.list[x := Fresh(C, 0, g.cfg.maxTTL)]
  {
  }

  lemma AdoptKind(g: Gossiper, x: Item, order: seq<Client>)
    requires x in g.incoming
    requires forall c :: c in order ==> c in g.clients
    ensures forall m :: m in Adopt(g, x, order).1 ==> IsNeutral(m)
  {
    NotifyOutKind(g.clients, x, order);
  }

  lemma AdoptLeases(g: Gossiper, x: Item, order: seq<Client>)
    requires x in g.incoming && x !in g.list
    requires forall c :: c in order ==> c in g.clients
    ensures Held(Adopt(g, x, order).0.list) == Held(g.list)
    ensures forall m :: m in Adopt(g, x, order).1 ==> IsNeutral(m)
  {
    AdoptKind(g, x, order);
    AdoptList(g, x, order);
    HeldFresh(g.list, x, B, 1, g.cfg.maxTTL);
    HeldFresh(g.list, x, C, 0, g.cfg.maxTTL);
  }

  lemma HeldFresh(list: map<Item, ItemInfo>, x: Item, state: MCState, counter: uint8, ttl: uint8)
    requires x !in list
    ensures Held(list[x := Fresh(state, counter, ttl)]) == Held(list)
  {
    HeldUpdate(list, x, Fresh(state, counter, ttl));
  }

  lemma VisitOneLeases(g: Gossiper, v: Visit)
    requires v.item in g.incoming
    requires forall c :: c in v.clients ==> c in g.clients
    ensures Held(VisitOne(g, v).0.list) == Held(g.list)
    ensures forall m :: m in VisitOne(g, v).1 ==> IsNeutral(m)
  {
    var x := v.item;
    if x in g.oldList {
    } else if x in g.list {
      HeldUpdate(g.list, x, g.list[x].(s := Updated(g.list[x].s, g.incoming[x].s)));
    } else {
      AdoptLeases(g, x, v.clients);
    }
  }

  lemma {:induction false} VisitAllLeases(g: Gossiper, visits: seq<Visit>)
    requires Visitable(g, visits)
    ensures Held(VisitAll(g, visits).0.list) == Held(g.list)
    ensures forall m :: m in VisitAll(g, visits).1 ==> IsNeutral(m)
  {
    if visits != [] {
      var n := |visits| - 1;
      assert visits == visits[..n] + [visits[n]];
      VisitAllLeases(g, visits[..n]);
      VisitOneLeases(VisitAll(g, visits[..n]).0, visits[n]);
    }
  }

  lemma UpdateRoundLeases(g: Gossiper, visits: seq<Visit>)
    requires Visitable(g, visits)
    ensures Held(UpdateRound(g, visits).0.list) == Held(g.list)
    ensures forall m :: m in UpdateRound(g, visits).1 ==> IsNeutral(m)
  {
    VisitAllLeases(g, visits);
    HeldSame(UpdateRound(g, visits).0.list, VisitAll(g, visits).0.list);
  }

  lemma PushParts(g: Gossiper, order: seq<Item>) returns (pushes: seq<Msg>, releases: seq<Msg>)
    requires Enumerates(order, g.list.Keys)
    ensures PushRound(g, order).1 == pushes + releases
    ensures forall m :: m in pushes ==> m.GossipPush? && m.to in Held(g.list)
    ensures forall m :: m in releases ==> m.RandomPeerListRelease?
  {
    var retired := Retired(g.list, g.cfg.cMax, order);
    pushes, releases := PushOut(g.list, g.cfg.degree, order), ReleaseOut(g.list, retired);
    PushOutKind(g.list, g.cfg.degree, order);
    ReleaseOutKind(g.list, retired);
    forall m | m in pushes ensures m.to in Held(g.list) {
      HeldWithout(g.list, m.item);
    }
  }

  lemma RestNeutral(g: Gossiper, step: GossipStep, push: Gossiper, others: seq<Msg>)
    requires step.Round? && Enabled(g, step) && push == PushRound(g, step.pushes).0
    requires others == PullRound(push, step.pulls).1 + UpdateRound(PullRound(push, step.pulls).0, step.visits).1
    ensures forall m :: m in others ==> IsNeutral(m)
    ensures Held(RoundStep(g, step).0.list) == Held(push.list)
  {
    UpdateRoundLeases(PullRound(push, step.pulls).0, step.visits);
  }

  /** The messages of one round are its pushes, then its releases, then neutral ones. */
  lemma RoundLeases(g: Gossiper, step: GossipStep) returns (pushes: seq<Msg>, releases: seq<Msg>, others: seq<Msg>)
    requires step.Round? && Enabled(g, step)
    ensures RoundStep(g, step).1 == pushes + releases + others
    ensures forall m :: m in pushes ==> m.GossipPush? && m.to in Held(g.list)
    ensures forall m :: m in releases ==> m.RandomPeerListRelease?
    ensures forall m :: m in others ==> IsNeutral(m)
    ensures Held(RoundStep(g, step).0.list) + Released(pushes + releases) == Held(g.list)
  {
    hide Held, Released, IsNeutral, UpdateRound;
    var push := PushRound(g, step.pushes);
    var pull := PullRound(push.0, step.pulls);
    var update := UpdateRound(pull.0, step.visits);
    others := pull.1 + update.1;
    pushes, releases := PushParts(g, step.pushes);
    PushRoundLeases(g, step.pushes);
    RestNeutral(g, step, push.0, others);
    assert push.1 + pull.1 + update.1 == push.1 + others;
  }

  // ---- Handlers --------------------------------------------------------------------

  /** Leases that the Gossiper forgets when it handles a message: those of a reply to a request
      for pull peers, those that a reply for an active item replaces, and those of an item
      that a client rejects. No message gives them back. */
  function LeakedBy(g: Gossiper, m: GossipMsg): multiset<Peer> {
    match m
    case RandomPeerListReply(None, peers) => multiset(peers)
    case RandomPeerListReply(Some(x), _) => HeldBy(g.list, x)
    case GossipValidation(who, id, false) =>
      if Awaits(g, who, id) then HeldBy(g.list, g.clients[who].validation[id]) else multiset{}
    case _ => multiset{}
  }

  function HeldBy(list: map<Item, ItemInfo>, x: Item): multiset<Peer> {
    if x in list then multiset(list[x].peerList) else multiset{}
  }

  lemma HeldSplit(list: map<Item, ItemInfo>, x: Item)
    ensures Held(list) == HeldBy(list, x) + Held(list - {x})
  {
    if x in list {
      HeldWithout(list, x);
    } else {
      assert list - {x} == list;
    }
  }

  lemma ListReplyLeases(g: Gossiper, related: Option<Item>, peers: seq<Peer>)
    ensures var r := ListReplyHandler(g, related, peers);
      && Held(r.0.list) + Released(r.1) + LeakedBy(g, RandomPeerListReply(related, peers))
         == Held(g.list) + multiset(peers)
      && forall m :: m in r.1 ==> m.RandomPeerListRelease?
  {
    if related.Some? {
      if related.value in g.list {
        HeldSplit(g.list, related.value);
        HeldUpdate(g.list, related.value, g.list[related.value].(peerList := peers));
      } else {
        ReleasedSingle(RandomPeerListRelease(peers));
      }
    }
  }

  lemma AnnounceLeases(g: Gossiper, item: Option<Item>, ttl: uint8, order: seq<Client>)
    requires forall c :: c in order ==> c in g.clients
    ensures Held(AnnounceHandler(g, item, ttl, order).0.list) == Held(g.list)
    ensures forall m :: m in AnnounceHandler(g, item, ttl, order).1 ==> IsNeutral(m)
  {
    if item.Some? {
      NotifyOutKind(g.clients, item.value, order);
      HeldUpdate(g.list, item.value, Fresh(B, 1, AnnouncedTTL(g.cfg, ttl)));
    }
  }

  lemma ValidationLeases(g: Gossiper, who: Client, id: uint16, valid: bool)
    ensures Held(ValidationHandler(g, who, id, valid).list) + LeakedBy(g, GossipValidation(who, id, valid))
         == Held(g.list)
  {
    if Awaits(g, who, id) {
      HeldSplit(g.list, g.clients[who].validation[id]);
    }
  }

  /** What a handler holds, gives back and forgets is exactly what was held or has just been
      granted; and it pushes nothing. */
  lemma HandleLeases(g: Gossiper, m: GossipMsg, clients: seq<Client>, items: seq<Item>)
    requires forall c :: c in clients ==> c in g.clients
    requires forall x :: x in items ==> x in g.list
    requires m != GossiperClose
    ensures var r := HandleStep(g, m, clients, items);
      && Held(r.0.list) + Released(r.1) + LeakedBy(g, m) == Held(g.list) + GrantedBy(m)
      && forall k :: k in r.1 ==> IsNeutral(k) || k.RandomPeerListRelease?
  {
    hide ListReplyHandler, AnnounceHandler, Held;
    match m
    case RandomPeerListReply(related, peers) =>
      ListReplyLeases(g, related, peers);
    case GossipAnnounce(item, ttl) =>
      AnnounceLeases(g, item, ttl, clients);
      NoReleases(AnnounceHandler(g, item, ttl, clients).1);
    case GossipValidation(who, id, valid) =>
      ValidationLeases(g, who, id, valid);
    case IncomingPullRequest(from) =>
      NoReleases(PullRequestHandler(g, from, items));
    case _ =>
  }
}
