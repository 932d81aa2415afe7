/** What any step of the Gossiper, a round or a handled message, sends: to whom and in which
    state items are pushed, how many peers are asked for, and which clients are told of what. */
module GossiperSteps {
  import opened Types
  import opened Messages
  import opened GossipItems
  import opened GossiperModel
  import opened GossiperInvariant
  import opened GossiperLifetime
  import opened GossiperLease
  import opened GossiperRounds
  import opened GossiperSends

  // ---- Pushes ----------------------------------------------------------------------

  lemma {:induction false} PushOutIff(list: map<Item, ItemInfo>, degree: nat, order: seq<Item>, m: Msg)
    requires forall x :: x in order ==> x in list
    ensures m in PushOut(list, degree, order) <==>
      && m.GossipPush? && m.item in order && m.to in Targets(list[m.item], degree)
      && m.state == list[m.item].s.state && m.counter == list[m.item].s.counter
  {
    hide Targets;
    if order != [] {
      var n := |order| - 1;
      assert order == order[..n] + [order[n]];
      PushOutIff(list, degree, order[..n], m);
      PushMsgsIff(order[n], list[order[n]], degree, m);
    }
  }

  lemma PushMsgsIff(x: Item, info: ItemInfo, degree: nat, m: Msg)
    ensures m in PushMsgs(x, info, degree) <==>
      && m.GossipPush? && m.item == x && m.to in Targets(info, degree)
      && m.state == info.s.state && m.counter == info.s.counter
  {
    hide Targets;
    var to, msgs := Targets(info, degree), PushMsgs(x, info, degree);
    if m.GossipPush? && m.item == x && m.to in to && m.state == info.s.state && m.counter == info.s.counter {
      var i :| 0 <= i < |to| && to[i] == m.to;
      assert msgs[i] == m;
    }
  }

  /** A round pushes every active item, also one that retires in it, to the peers whose turn it
      is, in the state and with the counter that the item has before the round. */
  lemma PushedIff(g: Gossiper, step: GossipStep, m: Msg)
    requires step.Round? && Enabled(g, step) && m.GossipPush?
    ensures m in RoundStep(g, step).1 <==>
      && m.item in g.list && m.to in Targets(g.list[m.item], g.cfg.degree)
      && m.state == g.list[m.item].s.state && m.counter == g.list[m.item].s.counter
  {
    hide Targets, UpdateRound, PushOut, ReleaseOut, Retired;
    PushOutIff(g.list, g.cfg.degree, step.pushes, m);
    assert m.item in step.pushes <==> m.item in g.list;
    var retired := Retired(g.list, g.cfg.cMax, step.pushes);
    ReleaseOutKind(g.list, retired);
    RestNeutral(g, step, PushRound(g, step.pushes).0, RoundRest(g, step));
    RoundOutSplit(g, step);
  }

  ghost function RoundRest(g: Gossiper, step: GossipStep): seq<Msg>
    requires step.Round? && Enabled(g, step)
  {
    var push := PushRound(g, step.pushes).0;
    PullRound(push, step.pulls).1 + UpdateRound(PullRound(push, step.pulls).0, step.visits).1
  }

  lemma RoundOutSplit(g: Gossiper, step: GossipStep)
    requires step.Round? && Enabled(g, step)
    ensures RoundStep(g, step).1
      == PushOut(g.list, g.cfg.degree, step.pushes)
         + ReleaseOut(g.list, Retired(g.list, g.cfg.cMax, step.pushes)) + RoundRest(g, step)
  {
    hide UpdateRound, PushOut, ReleaseOut, Retired;
  }

  // ---- Requests for peers ----------------------------------------------------------

  /** A handler asks for peers on behalf of an item that is announced, if it takes it in. */
  lemma AnnounceAsks(g: Gossiper, item: Option<Item>, ttl: uint8, order: seq<Client>, related: Option<Item>)
    requires forall c :: c in order ==> c in g.clients
    ensures var g1, out := AnnounceHandler(g, item, ttl, order).0, AnnounceHandler(g, item, ttl, order).1;
      AskedNums(out, related)
        == if related.Some? && related.value !in g.list && related.value in g1.list
           then [Wanted(g.cfg, g1.list[related.value])] else []
  {
    if item.Some? {
      var x, t := item.value, AnnouncedTTL(g.cfg, ttl);
      NotifyAsksNothing(g.clients, x, order, related);
      AskedNumsConcat(NotifyOut(g.clients, x, order), [Request(x, g.cfg.degree, t)], related);
      OneAsked(Some(x), g.cfg.degree * t as int, related);
    }
  }

  lemma HandleAsks(g: Gossiper, step: GossipStep, related: Option<Item>)
    requires step.Handle? && Enabled(g, step)
    ensures var g1, out := Next(g, step).0, Next(g, step).1;
      AskedNums(out, related)
        == if related.Some? && related.value !in g.list && related.value in g1.list
           then [Wanted(g.cfg, g1.list[related.value])] else []
  {
    hide AnnounceHandler, Wanted, PushHandler, PullReplyHandler;
    match step.m
    case GossipAnnounce(item, ttl) => AnnounceAsks(g, item, ttl, step.clients, related);
    case IncomingPullRequest(_) => NothingAsked(Next(g, step).1, related);
    case RandomPeerListReply(_, _) => NothingAsked(Next(g, step).1, related);
    case GossiperClose => NothingAsked(Next(g, step).1, related);
    case IncomingPush(_) => KeepsList(g, step);
    case IncomingPullReply(_, _) => KeepsList(g, step);
    case _ =>
  }

  lemma KeepsList(g: Gossiper, step: GossipStep)
    requires step.Handle? && Enabled(g, step) && (step.m.IncomingPush? || step.m.IncomingPullReply?)
    ensures Next(g, step).0.list == g.list && Next(g, step).1 == []
  {
  }

  /** Peers are asked for on behalf of exactly the items that become active, once, `degree` for
      each round in which the item can be pushed; and `degree` for pulling in each round. */
  lemma StepAsks(g: Gossiper, step: GossipStep, x: Item)
    requires Inv(g) && Enabled(g, step)
    ensures var g1, out := Next(g, step).0, Next(g, step).1;
      && (x !in g.list && x in g1.list ==> AskedNums(out, Some(x)) == [Wanted(g.cfg, g1.list[x])])
      && (x in g.list || x !in g1.list ==> AskedNums(out, Some(x)) == [])
      && AskedNums(out, None) == if step.Round? then [g.cfg.degree] else []
  {
    hide RoundStep, HandleStep, Wanted;
    if step.Round? {
      RoundAsks(g, step, Some(x));
      RoundAsks(g, step, None);
    } else {
      HandleAsks(g, step, Some(x));
      HandleAsks(g, step, None);
    }
  }

  /** An announced item becomes active exactly if there is room and the node knows nothing of it;
      it then lives as long as announced, but no longer than the maximum. */
  lemma AnnouncedIff(g: Gossiper, step: GossipStep, x: Item)
    requires step.Handle? && Enabled(g, step) && step.m.GossipAnnounce? && step.m.item == Some(x) && x !in g.list
    ensures var g1, ttl := Next(g, step).0, step.m.ttl;
      && (x in g1.list <==> x !in g.oldList && |g.list| < g.cfg.cacheSize)
      && (x in g1.list ==> g1.list[x].peerList == [] && g1.list[x].s.state == B && g1.list[x].s.counter == 1)
      && (x in g1.list && 1 <= ttl <= g.cfg.maxTTL ==> g1.list[x].s.ttl == ttl)
      && (x in g1.list && (ttl == 0 || ttl > g.cfg.maxTTL) ==> g1.list[x].s.ttl == g.cfg.maxTTL)
  {
    hide NotifyOut, NotifiedAll;
  }

  // ---- Notifications ---------------------------------------------------------------

  /** The step brings this item to the node's attention: a copy of an unknown item came in
      since the last round, or a client announces it. */
  predicate IsNews(g: Gossiper, step: GossipStep, x: Item) {
    if step.Round? then x in g.incoming && IsUnknown(g, x)
    else step.m.GossipAnnounce? && step.m.item == Some(x)
  }

  lemma RoundNotifies(g: Gossiper, step: GossipStep, c: Client, x: Item)
    requires step.Round? && Enabled(g, step)
    ensures |NoticesOf(RoundStep(g, step).1, c, x)|
      == if IsNews(g, step, x) && IsInterested(g.clients, c, x) then 1 else 0
  {
    hide RoundStep, VisitAll, PushRound;
    var push, pull, mid := RoundSplit(g, step);
    var a, b, rest := PushRound(g, step.pushes).1, PullRound(push, step.pulls).1, VisitAll(pull, step.visits).1;
    PushPullSilent(g, step, push, c, x);
    NoticesOfConcat(a, b, c, x);
    NoticesOfConcat(a + b, rest, c, x);
    VisitsNotify(pull, step.visits, c, x);
    OrderVisits(pull, step.visits, x);
    PushOldList(g, step.pushes, push, x);
  }

  lemma PushPullSilent(g: Gossiper, step: GossipStep, push: Gossiper, c: Client, x: Item)
    requires step.Round? && Enabled(g, step) && push == PushRound(g, step.pushes).0
    ensures NoticesOf(PushRound(g, step.pushes).1, c, x) == [] && NoticesOf(PullRound(push, step.pulls).1, c, x) == []
  {
    var pushes, releases := PushParts(g, step.pushes);
    NothingNoticed(pushes + releases, c, x);
    NothingNoticed(PullRound(push, step.pulls).1, c, x);
  }

  lemma AnnounceNotifies(g: Gossiper, item: Option<Item>, ttl: uint8, order: seq<Client>, c: Client, x: Item)
    requires Enumerates(order, g.clients.Keys) && forall d :: d in order ==> d in g.clients
    ensures |NoticesOf(AnnounceHandler(g, item, ttl, order).1, c, x)|
      == if item == Some(x) && IsInterested(g.clients, c, x) then 1 else 0
  {
    if item.Some? {
      var y, t := item.value, AnnouncedTTL(g.cfg, ttl);
      NotifyNotices(g.clients, y, order, c, x);
      assert c in order <==> c in g.clients;
      NoticesOfConcat(NotifyOut(g.clients, y, order), [Request(y, g.cfg.degree, t)], c, x);
      NothingNoticed([Request(y, g.cfg.degree, t)], c, x);
    }
  }

  lemma HandleNotifies(g: Gossiper, step: GossipStep, c: Client, x: Item)
    requires step.Handle? && Enabled(g, step)
    ensures |NoticesOf(Next(g, step).1, c, x)|
      == if IsNews(g, step, x) && IsInterested(g.clients, c, x) then 1 else 0
  {
    hide AnnounceHandler, PushHandler, PullReplyHandler;
    match step.m
    case GossipAnnounce(item, ttl) => AnnounceNotifies(g, item, ttl, step.clients, c, x);
    case IncomingPullRequest(_) => NothingNoticed(Next(g, step).1, c, x);
    case RandomPeerListReply(_, _) => NothingNoticed(Next(g, step).1, c, x);
    case GossiperClose => NothingNoticed(Next(g, step).1, c, x);
    case IncomingPush(_) => KeepsList(g, step);
    case IncomingPullReply(_, _) => KeepsList(g, step);
    case _ =>
  }

  /** A client is told of an item, once, exactly if it is registered for its type and the step
      brings it to the node's attention; whether there is room for the item does not matter. */
  lemma NotifiedIff(g: Gossiper, step: GossipStep, c: Client, x: Item)
    requires Enabled(g, step)
    ensures |NoticesOf(Next(g, step).1, c, x)| <= 1
    ensures NoticesOf(Next(g, step).1, c, x) != [] <==> IsNews(g, step, x) && IsInterested(g.clients, c, x)
  {
    hide RoundStep, HandleStep;
    if step.Round? {
      RoundNotifies(g, step, c, x);
    } else {
      HandleNotifies(g, step, c, x);
    }
  }
}
