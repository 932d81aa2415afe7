/** How long an item stays active, and how long a retired item stays out. */
module GossiperLifetime {
  import opened Types
  import opened Messages
  import opened GossipItems
  import opened GossiperModel
  import opened GossiperInvariant

  /** Number of gossip rounds in a run; each one pushes once and sweeps the old list once. */
  function Rounds(steps: seq<GossipStep>): nat {
    if steps == [] then 0 else (if steps[0].Round? then 1 else 0) + Rounds(steps[1..])
  }

  /** The item is active in every state of the run. */
  ghost predicate StaysActive(g: Gossiper, steps: seq<GossipStep>, x: Item)
    requires IsRun(g, steps)
    decreases |steps|
  {
    x in g.list && (steps == [] || StaysActive(Next(g, steps[0]).0, steps[1..], x))
  }

  /** Number of rounds of the run that push the item in state C. */
  ghost function RoundsInC(g: Gossiper, steps: seq<GossipStep>, x: Item): nat
    requires IsRun(g, steps) && StaysActive(g, steps, x)
    decreases |steps|
  {
    if steps == [] then 0
    else
      (if steps[0].Round? && g.list[x].s.state == C then 1 else 0)
      + RoundsInC(Next(g, steps[0]).0, steps[1..], x)
  }

  /** One step on an item that stays active. */
  lemma StepOnActive(g: Gossiper, step: GossipStep, x: Item)
    requires Inv(g) && Enabled(g, step) && x in g.list && x in Next(g, step).0.list
    ensures Inv(Next(g, step).0)
    ensures var s := Next(g, step).0.list[x].s;
      if step.Round? then Survived(g.list[x].s, s) else s == g.list[x].s
  {
    match step
    case Round(_, _, _) => RoundInv(g, step, RoundStep(g, step).0);
    case Handle(m, clients, items) => HandleInv(g, m, clients, items);
  }

  /** While an item stays active its ttl counts the rounds exactly, its counter counts the
      rounds in state C exactly, and its median-counter state never goes back. */
  lemma {:induction false} ActiveLifetime(g: Gossiper, steps: seq<GossipStep>, x: Item)
    requires Inv(g) && IsRun(g, steps) && StaysActive(g, steps, x)
    ensures x in After(g, steps).list
    ensures var s0, s1 := g.list[x].s, After(g, steps).list[x].s;
      && s1.ttl as int + Rounds(steps) == s0.ttl as int
      && Dominates(s1, s0)
      && (s1.state == B ==> RoundsInC(g, steps, x) == 0)
      && (s1.state == C ==>
            s1.counter as int == (if s0.state == C then s0.counter as int else 0) + RoundsInC(g, steps, x))
    decreases |steps|
  {
    if steps != [] {
      StepOnActive(g, steps[0], x);
      ActiveLifetime(Next(g, steps[0]).0, steps[1..], x);
    }
  }

  /** An item active since it had time to live `ttl` has seen fewer than `ttl` rounds, fewer
      than `cMax` of them in state C; so it is pushed in at most `ttl` rounds and at most
      `cMax` rounds of state C before it retires. */
  lemma LifetimeBound(g: Gossiper, steps: seq<GossipStep>, x: Item)
    requires Inv(g) && IsRun(g, steps) && StaysActive(g, steps, x)
    ensures Rounds(steps) < g.list[x].s.ttl as int <= g.cfg.maxTTL as int
    ensures RoundsInC(g, steps, x) < g.cfg.cMax as int
  {
    ActiveLifetime(g, steps, x);
    RunInv(g, steps);
    RunConfig(g, steps);
  }

  lemma {:induction false} RunConfig(g: Gossiper, steps: seq<GossipStep>)
    requires Inv(g) && IsRun(g, steps)
    ensures After(g, steps).cfg == g.cfg
    decreases |steps|
  {
    if steps != [] {
      match steps[0] {
        case Round(_, _, _) => RoundInv(g, steps[0], RoundStep(g, steps[0]).0);
        case Handle(m, clients, items) => HandleInv(g, m, clients, items);
      }
      StepInv(g, steps[0]);
      RunConfig(Next(g, steps[0]).0, steps[1..]);
    }
  }

  /** The step is a client's rejection of this item. */
  ghost predicate Rejects(g: Gossiper, step: GossipStep, x: Item) {
    && step.Handle? && step.m.GossipValidation? && !step.m.valid
    && Awaits(g, step.m.who, step.m.id) && g.clients[step.m.who].validation[step.m.id] == x
  }

  lemma AnnounceKeeps(g: Gossiper, item: Option<Item>, ttl: uint8, order: seq<Client>)
    requires forall c :: c in order ==> c in g.clients
    ensures g.list.Keys <= AnnounceHandler(g, item, ttl, order).0.list.Keys
  {
  }

  lemma HandleLeavesIff(g: Gossiper, step: GossipStep, x: Item)
    requires step.Handle? && Enabled(g, step) && x in g.list
    ensures x !in HandleStep(g, step.m, step.clients, step.items).0.list <==> Rejects(g, step, x)
  {
    match step.m
    case GossipAnnounce(item, ttl) => AnnounceKeeps(g, item, ttl, step.clients);
    case _ =>
  }

  /** An active item leaves exactly when its last round is over or a client rejects it. */
  lemma LeavesIff(g: Gossiper, step: GossipStep, x: Item)
    requires Inv(g) && Enabled(g, step) && x in g.list
    ensures x !in Next(g, step).0.list <==>
      (if step.Round? then g.list[x].s.ttl == 1 || (g.list[x].s.state == C && g.list[x].s.counter + 1 == g.cfg.cMax)
       else Rejects(g, step, x))
  {
    match step
    case Round(_, _, _) =>
      RoundInv(g, step, RoundStep(g, step).0);
      AgedBounds(g.cfg, g.list[x].s);
    case Handle(m, clients, items) =>
      HandleLeavesIff(g, step, x);
  }

  // ---- Quarantine ----------------------------------------------------------------

  lemma StepOnQuarantined(g: Gossiper, step: GossipStep, x: Item)
    requires Inv(g) && Enabled(g, step) && x in g.oldList
    ensures Inv(Next(g, step).0) && Next(g, step).0.cfg == g.cfg
    ensures var g1 := Next(g, step).0;
      if step.Round? then SweptFrom(g.oldList[x].s.ttl, g1.oldList, x)
      else x in g1.oldList && g1.oldList[x].s.ttl >= g.oldList[x].s.ttl
  {
    match step
    case Round(_, _, _) => RoundInv(g, step, RoundStep(g, step).0);
    case Handle(m, clients, items) => HandleInv(g, m, clients, items);
  }

  /** An item with `t` sweeps of quarantine left is not active in any state before the
      `t`-th sweep, whatever is pushed, pulled or announced meanwhile. */
  lemma {:induction false} QuarantineHolds(g: Gossiper, steps: seq<GossipStep>, x: Item)
    requires Inv(g) && IsRun(g, steps) && x in g.oldList
    requires Rounds(steps) < g.oldList[x].s.ttl as int
    ensures x in After(g, steps).oldList && x !in After(g, steps).list
    decreases |steps|
  {
    if steps != [] {
      StepOnQuarantined(g, steps[0], x);
      QuarantineHolds(Next(g, steps[0]).0, steps[1..], x);
    }
  }

  /** After it has been retired by a push round or rejected by a client, an item is not
      active again before `maxTTL` sweeps of the old list; the sweep that ends the
      retiring round is the first of them. */
  lemma RetiredStaysOut(g: Gossiper, step: GossipStep, steps: seq<GossipStep>, x: Item)
    requires Inv(g) && Enabled(g, step) && IsRun(Next(g, step).0, steps)
    requires (x in g.list && x !in Next(g, step).0.list) || Rejects(g, step, x)
    requires Rounds([step] + steps) < g.cfg.maxTTL as int
    ensures x !in After(Next(g, step).0, steps).list
  {
    var g1 := Next(g, step).0;
    StepInv(g, step);
    assert ([step] + steps)[1..] == steps;
    match step {
      case Round(_, _, _) => RoundInv(g, step, g1);
      case Handle(m, clients, items) => HandleInv(g, m, clients, items);
    }
    QuarantineHolds(g1, steps, x);
  }

  /** Unless a client rejects the item again, the quarantine lasts exactly as long: the
      remaining sweeps count down one by one and the last one lets the item go. */
  lemma QuarantineExact(g: Gossiper, step: GossipStep, x: Item)
    requires Inv(g) && Enabled(g, step) && x in g.oldList && !Rejects(g, step, x)
    ensures var g1 := Next(g, step).0;
      if step.Round? then SweptFrom(g.oldList[x].s.ttl, g1.oldList, x)
      else x in g1.oldList && g1.oldList[x] == g.oldList[x]
  {
    match step
    case Round(_, _, _) => RoundInv(g, step, RoundStep(g, step).0);
    case Handle(m, clients, items) => HandleKeepsOld(g, m, clients, items, x);
  }

  lemma HandleKeepsOld(g: Gossiper, m: GossipMsg, clients: seq<Client>, items: seq<Item>, x: Item)
    requires Enabled(g, Handle(m, clients, items)) && x in g.oldList && !Rejects(g, Handle(m, clients, items), x)
    ensures var g1 := HandleStep(g, m, clients, items).0; x in g1.oldList && g1.oldList[x] == g.oldList[x]
  {
    match m
    case GossipAnnounce(item, ttl) => AnnounceKeeps(g, item, ttl, clients);
    case GossipValidation(who, id, valid) =>
    case _ =>
  }

  // ---- The threshold of state B ---------------------------------------------------

  ghost predicate CounterBelowThreshold(g: Gossiper) {
    forall x :: x in g.list && g.list[x].s.state == B ==> g.list[x].s.counter < g.cfg.bMax
  }

  ghost predicate BelowThresholdAfter(g: Gossiper, steps: seq<GossipStep>) {
    IsRun(g, steps) ==> CounterBelowThreshold(After(g, steps))
  }

  lemma BelowThreshold(g: Gossiper, steps: seq<GossipStep>)
    requires Initial(g) && g.cfg.bMax >= 2
    ensures BelowThresholdAfter(g, steps)
  {
    if IsRun(g, steps) {
      RunFromInitial(g, steps);
      RunConfig(g, steps);
    }
  }

  /** An announced item enters with counter 1. */
  lemma AnnouncedAtThreshold(g: Gossiper, x: Item)
    requires Initial(g) && g.cfg.cacheSize >= 1 && g.cfg.bMax <= 1
    ensures !BelowThresholdAfter(g, [Handle(GossipAnnounce(Some(x), 0), [], [])])
  {
    var step := Handle(GossipAnnounce(Some(x), 0), [], []);
    var g1 := AnnounceHandler(g, Some(x), 0, []).0;
    assert g1.list[x] == Fresh(B, 1, g.cfg.maxTTL);
    assert Next(g, step).0 == g1;
    OneStepRun(g, step);
  }

  lemma OneStepRun(g: Gossiper, step: GossipStep)
    requires Enabled(g, step)
    ensures IsRun(g, [step]) && After(g, [step]) == Next(g, step).0
  {
    assert [step][1..] == [];
    assert After(Next(g, step).0, []) == Next(g, step).0;
  }

  /** Active items in state B stay below the promotion threshold on every run from a start
      state if and only if the threshold is at least 2; the constructor computes the
      threshold 1 when the degree is 9 or 10. */
  lemma ThresholdIff(g: Gossiper)
    requires Initial(g) && g.cfg.cacheSize >= 1
    ensures (forall steps :: BelowThresholdAfter(g, steps)) <==> g.cfg.bMax >= 2
  {
    if g.cfg.bMax >= 2 {
      forall steps ensures BelowThresholdAfter(g, steps) {
        BelowThreshold(g, steps);
      }
    } else {
      AnnouncedAtThreshold(g, Item(0, ""));
    }
  }

  // ---- Notifications ---------------------------------------------------------------

  lemma {:induction false} NotificationsSent(clients: map<Client, Registration>, x: Item, order: seq<Client>)
    requires forall c :: c in order ==> c in clients
    ensures forall m :: m in NotifyOut(clients, x, order) <==>
      m.GossipNotification? && m.client in order && Interested(clients[m.client], x)
      && m == GossipNotification(m.client, x, clients[m.client].nextID)
  {
    if order != [] {
      var n := |order| - 1;
      assert order == order[..n] + [order[n]];
      NotificationsSent(clients, x, order[..n]);
    }
  }

  ghost function InterestedIn(clients: map<Client, Registration>, x: Item, among: set<Client>): set<Client> {
    set c | c in among && c in clients && Interested(clients[c], x)
  }

  lemma InterestedInMore(clients: map<Client, Registration>, x: Item, among: set<Client>, c: Client)
    requires c in clients && c !in among
    ensures |InterestedIn(clients, x, among + {c})|
         == |InterestedIn(clients, x, among)| + if Interested(clients[c], x) then 1 else 0
  {
    var before, now := InterestedIn(clients, x, among), InterestedIn(clients, x, among + {c});
    if Interested(clients[c], x) {
      assert now == before + {c};
    } else {
      assert now == before;
    }
  }

  lemma {:induction false} NotificationsOnce(clients: map<Client, Registration>, x: Item, order: seq<Client>,
        among: set<Client>)
    requires Enumerates(order, among) && forall c :: c in order ==> c in clients
    ensures |NotifyOut(clients, x, order)| == |InterestedIn(clients, x, among)|
  {
    if order == [] {
      assert InterestedIn(clients, x, among) == {};
    } else {
      var n := |order| - 1;
      var last, rest := order[n], order[..n];
      assert order == rest + [last] && last !in rest;
      var fewer := set c | c in rest;
      assert among == fewer + {last};
      NotificationsOnce(clients, x, rest, fewer);
      InterestedInMore(clients, x, fewer, last);
    }
  }

  /** Every interested client, and no other, is sent one notification, and an answer with its
      id will find the item. */
  lemma NotificationsAwaitAnswers(g: Gossiper, x: Item, order: seq<Client>)
    requires Enumerates(order, g.clients.Keys)
    ensures (forall c :: c in order ==> c in g.clients)
    ensures forall c :: c in g.clients && Interested(g.clients[c], x) ==>
      var m := GossipNotification(c, x, g.clients[c].nextID);
      m in NotifyOut(g.clients, x, order) && NotifiedAll(g.clients, x)[c].validation[m.id] == x
    ensures |NotifyOut(g.clients, x, order)| == |InterestedIn(g.clients, x, g.clients.Keys)|
  {
    assert forall c :: c in order <==> c in g.clients;
    NotificationsSent(g.clients, x, order);
    NotificationsOnce(g.clients, x, order, g.clients.Keys);
  }
}
