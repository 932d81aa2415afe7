/** What the Gossiper knows of its API clients over a run: the types of items for which they
    have registered, and the notifications that they have yet to answer. */
module GossiperClients {
  import opened Types
  import opened Messages
  import opened GossipItems
  import opened GossiperModel
  import opened GossiperInvariant
  import GossiperLease
  import opened GossiperRounds
  import opened GossiperSends
  import opened GossiperSteps

  // ---- Registrations ---------------------------------------------------------------

  predicate WantsType(g: Gossiper, c: Client, t: nat) {
    c in g.clients && t in g.clients[c].dataTypes
  }

  predicate IsDeparture(step: GossipStep, c: Client) {
    step.Handle? && step.m == GossipUnnotify(c)
  }

  predicate IsRegistration(step: GossipStep, c: Client, t: nat) {
    step.Handle? && step.m == GossipNotify(c, t)
  }

  /** The client has not left during these steps. */
  predicate Stays(steps: seq<GossipStep>, c: Client) {
    forall s :: s in steps ==> !IsDeparture(s, c)
  }

  /** The client has registered for this type and not left since. */
  predicate RegisteredIn(steps: seq<GossipStep>, c: Client, t: nat) {
    steps != []
    && (RegisteredIn(steps[1..], c, t) || (IsRegistration(steps[0], c, t) && Stays(steps[1..], c)))
  }

  lemma HandleInterests(g: Gossiper, step: GossipStep, c: Client, t: nat)
    requires step.Handle? && Enabled(g, step)
    ensures WantsType(Next(g, step).0, c, t) <==>
      IsRegistration(step, c, t) || (WantsType(g, c, t) && !IsDeparture(step, c))
  {
    hide AnnounceHandler, ValidationHandler, NotifyHandler, UnnotifyHandler, PushHandler, PullReplyHandler,
      ListReplyHandler;
    match step.m
    case GossipAnnounce(item, ttl) => AnnounceInterests(g, item, ttl, step.clients, c, t);
    case GossipNotify(who, what) => RegistrationInterests(g, who, what, c, t);
    case GossipUnnotify(who) => DepartureInterests(g, who, c, t);
    case GossipValidation(who, id, valid) => ValidationInterests(g, who, id, valid, c, t);
    case IncomingPush(_) => OnlyIncoming(g, step);
    case IncomingPullReply(_, _) => OnlyIncoming(g, step);
    case RandomPeerListReply(_, _) => ReplyKeepsClients(g, step);
    case _ =>
  }

  lemma AnnounceInterests(g: Gossiper, item: Option<Item>, ttl: uint8, order: seq<Client>, c: Client, t: nat)
    requires forall d :: d in order ==> d in g.clients
    ensures WantsType(AnnounceHandler(g, item, ttl, order).0, c, t) <==> WantsType(g, c, t)
  {
    hide NotifyOut;
  }

  lemma RegistrationInterests(g: Gossiper, who: Client, what: nat, c: Client, t: nat)
    ensures WantsType(NotifyHandler(g, who, what), c, t) <==> (who == c && what == t) || WantsType(g, c, t)
  {
  }

  lemma DepartureInterests(g: Gossiper, who: Client, c: Client, t: nat)
    ensures WantsType(UnnotifyHandler(g, who), c, t) <==> WantsType(g, c, t) && who != c
  {
  }

  lemma ValidationInterests(g: Gossiper, who: Client, id: uint16, valid: bool, c: Client, t: nat)
    ensures WantsType(ValidationHandler(g, who, id, valid), c, t) <==> WantsType(g, c, t)
  {
  }

  lemma OnlyIncoming(g: Gossiper, step: GossipStep)
    requires step.Handle? && Enabled(g, step) && (step.m.IncomingPush? || step.m.IncomingPullReply?)
    ensures Next(g, step).0.clients == g.clients
  {
  }

  lemma ReplyKeepsClients(g: Gossiper, step: GossipStep)
    requires step.Handle? && Enabled(g, step) && step.m.RandomPeerListReply?
    ensures Next(g, step).0.clients == g.clients && forall m :: m in Next(g, step).1 ==> !m.GossipNotification?
  {
  }

  lemma StepInterests(g: Gossiper, step: GossipStep, c: Client, t: nat)
    requires Enabled(g, step)
    ensures WantsType(Next(g, step).0, c, t) <==>
      IsRegistration(step, c, t) || (WantsType(g, c, t) && !IsDeparture(step, c))
  {
    hide RoundStep, HandleStep, VisitAll;
    if step.Round? {
      var push, pull, mid := RoundSplit(g, step);
      VisitsInterests(pull, step.visits);
    } else {
      HandleInterests(g, step, c, t);
    }
  }

  /** Over every run a client is registered for a type exactly if it has asked for it, during
      the run or before, and not left since. */
  lemma {:induction false} RegisteredIff(g: Gossiper, steps: seq<GossipStep>, c: Client, t: nat)
    requires IsRun(g, steps)
    ensures WantsType(After(g, steps), c, t) <==> RegisteredIn(steps, c, t) || (WantsType(g, c, t) && Stays(steps, c))
    decreases |steps|
  {
    hide Next, Enabled, WantsType;
    if steps != [] {
      StepInterests(g, steps[0], c, t);
      RegisteredIff(Next(g, steps[0]).0, steps[1..], c, t);
      assert steps == [steps[0]] + steps[1..];
    }
  }

  // ---- Notifications to be answered ------------------------------------------------

  /** The item about which an answer with this id is awaited from the client. */
  function AwaitedItem(g: Gossiper, c: Client, id: uint16): Option<Item> {
    if Awaits(g, c, id) then Some(g.clients[c].validation[id]) else None
  }

  /** The item of the last of these messages that tells the client of one under this id. */
  function LastNotice(out: seq<Msg>, c: Client, id: uint16, was: Option<Item>): Option<Item>
    decreases |out|
  {
    if out == [] then was
    else
      var m := out[0];
      LastNotice(out[1..], c, id,
                 if m.GossipNotification? && m.client == c && m.id == id then Some(m.item) else was)
  }

  lemma {:induction false} LastNoticeConcat(a: seq<Msg>, b: seq<Msg>, c: Client, id: uint16, was: Option<Item>)
    ensures LastNotice(a + b, c, id, was) == LastNotice(b, c, id, LastNotice(a, c, id, was))
    decreases |a|
  {
    if a == [] {
      assert a + b == b;
    } else {
      assert (a + b)[1..] == a[1..] + b;
      var m := a[0];
      var now := if m.GossipNotification? && m.client == c && m.id == id then Some(m.item) else was;
      LastNoticeConcat(a[1..], b, c, id, now);
    }
  }

  lemma {:induction false} NoNotice(out: seq<Msg>, c: Client, id: uint16, was: Option<Item>)
    requires forall m :: m in out ==> !m.GossipNotification?
    ensures LastNotice(out, c, id, was) == was
    decreases |out|
  {
    if out != [] {
      NoNotice(out[1..], c, id, was);
    }
  }

  lemma {:induction false} NotifyLast(clients: map<Client, Registration>, x: Item, order: seq<Client>, c: Client,
                                      id: uint16, was: Option<Item>)
    requires Distinct(order) && forall d :: d in order ==> d in clients
    ensures LastNotice(NotifyOut(clients, x, order), c, id, was)
      == if c in order && Interested(clients[c], x) && clients[c].nextID == id then Some(x) else was
  {
    if order != [] {
      var n := |order| - 1;
      var rest, last := order[..n], order[n];
      assert order == rest + [last] && last !in rest;
      NotifyLast(clients, x, rest, c, id, was);
      var m := GossipNotification(last, x, clients[last].nextID);
      LastNoticeConcat(NotifyOut(clients, x, rest), [m], c, id, was);
      assert [m][1..] == [];
    }
  }

  /** Telling all clients of an item leaves exactly these notifications to be answered. */
  lemma NotifyAwaits(g: Gossiper, x: Item, order: seq<Client>, rest: seq<Msg>, g1: Gossiper, c: Client, id: uint16)
    requires Enumerates(order, g.clients.Keys) && forall d :: d in order ==> d in g.clients
    requires g1.clients == NotifiedAll(g.clients, x) && forall m :: m in rest ==> !m.GossipNotification?
    ensures AwaitedItem(g1, c, id) == LastNotice(NotifyOut(g.clients, x, order) + rest, c, id, AwaitedItem(g, c, id))
  {
    var out, was := NotifyOut(g.clients, x, order), AwaitedItem(g, c, id);
    LastNoticeConcat(out, rest, c, id, was);
    NoNotice(rest, c, id, LastNotice(out, c, id, was));
    NotifyLast(g.clients, x, order, c, id, was);
    assert c in order <==> c in g.clients;
  }

  lemma AdoptParts(g: Gossiper, x: Item, order: seq<Client>) returns (rest: seq<Msg>)
    requires x in g.incoming && forall c :: c in order ==> c in g.clients
    ensures Adopt(g, x, order).0.clients == NotifiedAll(g.clients, x)
    ensures Adopt(g, x, order).1 == NotifyOut(g.clients, x, order) + rest
    ensures forall m :: m in rest ==> !m.GossipNotification?
  {
    hide NotifyOut, NotifiedAll;
    var out, all := NotifyOut(g.clients, x, order), Adopt(g, x, order).1;
    rest := all[|out|..];
  }

  lemma VisitAwaits(g: Gossiper, v: Visit, c: Client, id: uint16)
    requires v.item in g.incoming && Enumerates(v.clients, g.clients.Keys)
    requires forall d :: d in v.clients ==> d in g.clients
    ensures AwaitedItem(VisitOne(g, v).0, c, id) == LastNotice(VisitOne(g, v).1, c, id, AwaitedItem(g, c, id))
  {
    hide Adopt, Updated, NotifyOut, NotifiedAll;
    if v.item in g.oldList || v.item in g.list {
      assert VisitOne(g, v).1 == [] && VisitOne(g, v).0.clients == g.clients;
    } else {
      var rest := AdoptParts(g, v.item, v.clients);
      NotifyAwaits(g, v.item, v.clients, rest, VisitOne(g, v).0, c, id);
    }
  }

  lemma {:induction false} VisitsAwait(g: Gossiper, visits: seq<Visit>, c: Client, id: uint16)
    requires Visitable(g, visits) && EachOnce(visits) && AllListed(g, visits)
    ensures AwaitedItem(VisitAll(g, visits).0, c, id) == LastNotice(VisitAll(g, visits).1, c, id, AwaitedItem(g, c, id))
  {
    hide VisitOne, Enumerates, AwaitedItem;
    if visits != [] {
      var n := |visits| - 1;
      var mid, out, last := LastVisit(g, visits);
      assert last in visits && forall v :: v in visits[..n] ==> v in visits;
      VisitsAwait(g, visits[..n], c, id);
      VisitAwaits(mid, last, c, id);
      LastNoticeConcat(out, VisitOne(mid, last).1, c, id, AwaitedItem(g, c, id));
    }
  }

  lemma RoundAwaits(g: Gossiper, step: GossipStep, c: Client, id: uint16)
    requires step.Round? && Enabled(g, step)
    ensures AwaitedItem(RoundStep(g, step).0, c, id)
         == LastNotice(RoundStep(g, step).1, c, id, AwaitedItem(g, c, id))
  {
    hide RoundStep, VisitAll, PushRound;
    var push, pull, mid := RoundSplit(g, step);
    var a, b, rest := PushRound(g, step.pushes).1, PullRound(push, step.pulls).1, VisitAll(pull, step.visits).1;
    RoundQuietParts(g, step, push);
    var was := AwaitedItem(g, c, id);
    NoNotice(a + b, c, id, was);
    LastNoticeConcat(a + b, rest, c, id, was);
    VisitsAwait(pull, step.visits, c, id);
  }

  lemma RoundQuietParts(g: Gossiper, step: GossipStep, push: Gossiper)
    requires step.Round? && Enabled(g, step) && push == PushRound(g, step.pushes).0
    ensures forall m :: m in PushRound(g, step.pushes).1 + PullRound(push, step.pulls).1 ==> !m.GossipNotification?
  {
    hide PushRound;
    var pushes, releases := GossiperLease.PushParts(g, step.pushes);
  }

  /** The client answers the notification, or leaves. */
  predicate Settles(step: GossipStep, c: Client, id: uint16) {
    IsDeparture(step, c)
    || (step.Handle? && step.m.GossipValidation? && step.m.who == c && step.m.id == id)
  }

  lemma AnnounceAwaits(g: Gossiper, item: Option<Item>, ttl: uint8, order: seq<Client>, c: Client, id: uint16)
    requires Enumerates(order, g.clients.Keys) && forall d :: d in order ==> d in g.clients
    ensures var g1, out := AnnounceHandler(g, item, ttl, order).0, AnnounceHandler(g, item, ttl, order).1;
      AwaitedItem(g1, c, id) == LastNotice(out, c, id, AwaitedItem(g, c, id))
  {
    hide AwaitedItem, NotifyOut, NotifiedAll, Enumerates;
    if item.Some? {
      var x, t := item.value, AnnouncedTTL(g.cfg, ttl);
      var g1, out := AnnounceHandler(g, item, ttl, order).0, NotifyOut(g.clients, x, order);
      assert out + [] == out;
      NotifyAwaits(g, x, order, [], g1, c, id);
      NotifyAwaits(g, x, order, [Request(x, g.cfg.degree, t)], g1, c, id);
    }
  }

  lemma HandleAwaits(g: Gossiper, step: GossipStep, c: Client, id: uint16)
    requires step.Handle? && Enabled(g, step)
    ensures AwaitedItem(Next(g, step).0, c, id)
      == if Settles(step, c, id) then None else LastNotice(Next(g, step).1, c, id, AwaitedItem(g, c, id))
  {
    hide AnnounceHandler, ValidationHandler, PushHandler, PullReplyHandler, ListReplyHandler, LastNotice;
    var was, out := AwaitedItem(g, c, id), Next(g, step).1;
    match step.m {
      case GossipAnnounce(item, ttl) => AnnounceAwaits(g, item, ttl, step.clients, c, id);
      case GossipValidation(who, i, valid) => ValidationAwaits(g, who, i, valid, c, id); NoNotice(out, c, id, was);
      case IncomingPush(_) => OnlyIncoming(g, step); NoNotice([], c, id, was);
      case IncomingPullReply(_, _) => OnlyIncoming(g, step); NoNotice([], c, id, was);
      case RandomPeerListReply(_, _) => ReplyKeepsClients(g, step); NoNotice(out, c, id, was);
      case _ => NoNotice(out, c, id, was);
    }
  }

  lemma ValidationAwaits(g: Gossiper, who: Client, i: uint16, valid: bool, c: Client, id: uint16)
    ensures AwaitedItem(ValidationHandler(g, who, i, valid), c, id)
      == if who == c && i == id then None else AwaitedItem(g, c, id)
  {
  }

  lemma StepAwaits(g: Gossiper, step: GossipStep, c: Client, id: uint16)
    requires Enabled(g, step)
    ensures AwaitedItem(Next(g, step).0, c, id)
      == if Settles(step, c, id) then None else LastNotice(Next(g, step).1, c, id, AwaitedItem(g, c, id))
  {
    hide RoundStep, HandleStep;
    if step.Round? {
      RoundAwaits(g, step, c, id);
    } else {
      HandleAwaits(g, step, c, id);
    }
  }

  /** The item of the last notification under this id during the run, unless the client has
      answered it or left since. */
  ghost function Outstanding(g: Gossiper, steps: seq<GossipStep>, c: Client, id: uint16, was: Option<Item>)
    : Option<Item>
    requires IsRun(g, steps)
    decreases |steps|
  {
    if steps == [] then was
    else
      Outstanding(Next(g, steps[0]).0, steps[1..], c, id,
                  if Settles(steps[0], c, id) then None else LastNotice(Next(g, steps[0]).1, c, id, was))
  }

  /** Over every run an answer is awaited for exactly the notifications that were sent and not
      answered since: about the item that the client was told of last under this id. */
  lemma {:induction false} AwaitsWhatWasSent(g: Gossiper, steps: seq<GossipStep>, c: Client, id: uint16)
    requires IsRun(g, steps)
    ensures AwaitedItem(After(g, steps), c, id) == Outstanding(g, steps, c, id, AwaitedItem(g, c, id))
    decreases |steps|
  {
    hide Next, Enabled, AwaitedItem, LastNotice, Settles;
    if steps != [] {
      StepAwaits(g, steps[0], c, id);
      AwaitsWhatWasSent(Next(g, steps[0]).0, steps[1..], c, id);
    }
  }

  // ---- Ids of notifications --------------------------------------------------------

  /** The ids under which a client is told of items, in order. */
  function IdsTo(out: seq<Msg>, c: Client): seq<uint16> {
    if out == [] then []
    else
      (if out[0].GossipNotification? && out[0].client == c then [out[0].id] else []) + IdsTo(out[1..], c)
  }

  lemma {:induction false} IdsToConcat(a: seq<Msg>, b: seq<Msg>, c: Client)
    ensures IdsTo(a + b, c) == IdsTo(a, c) + IdsTo(b, c)
  {
    if a == [] {
      assert a + b == b;
    } else {
      assert (a + b)[1..] == a[1..] + b;
      IdsToConcat(a[1..], b, c);
    }
  }

  lemma {:induction false} NoIds(out: seq<Msg>, c: Client)
    requires forall m :: m in out ==> !m.GossipNotification?
    ensures IdsTo(out, c) == []
  {
    if out != [] {
      NoIds(out[1..], c);
    }
  }

  /** The client's next id, if it is registered. */
  function NextId(g: Gossiper, c: Client): uint16 {
    if c in g.clients then g.clients[c].nextID else 0
  }

  /** `k` ids later, modulo the width of an id. */
  function Later(id: uint16, k: nat): uint16 {
    ((id as int + k) % 0x1_0000) as uint16
  }

  lemma LaterAdds(id: uint16, j: nat, k: nat)
    ensures Later(Later(id, j), k) == Later(id, j + k)
  {
  }

  /** Ids are used one after the other, from this one to the next one to be used. */
  ghost predicate Counted(ids: seq<uint16>, first: uint16, next: uint16) {
    (forall i :: 0 <= i < |ids| ==> ids[i] == Later(first, i)) && next == Later(first, |ids|)
  }

  lemma CountedConcat(a: seq<uint16>, b: seq<uint16>, first: uint16, mid: uint16, next: uint16)
    requires Counted(a, first, mid) && Counted(b, mid, next)
    ensures Counted(a + b, first, next)
  {
    forall i | |a| <= i < |a + b| ensures (a + b)[i] == Later(first, i) {
      LaterAdds(first, |a|, i - |a|);
    }
    LaterAdds(first, |a|, |b|);
  }

  lemma CountedOne(id: uint16)
    ensures Counted([id], id, Inc16(id)) && Counted([], id, id)
  {
  }

  lemma {:induction false} NotifyIds(clients: map<Client, Registration>, x: Item, order: seq<Client>, c: Client)
    requires Distinct(order) && forall d :: d in order ==> d in clients
    ensures IdsTo(NotifyOut(clients, x, order), c)
      == if c in order && Interested(clients[c], x) then [clients[c].nextID] else []
  {
    if order != [] {
      var n := |order| - 1;
      var rest, last := order[..n], order[n];
      assert order == rest + [last] && last !in rest;
      NotifyIds(clients, x, rest, c);
      var m := GossipNotification(last, x, clients[last].nextID);
      IdsToConcat(NotifyOut(clients, x, rest), [m], c);
      assert [m][1..] == [];
    }
  }

  lemma NotifyCounts(g: Gossiper, x: Item, order: seq<Client>, rest: seq<Msg>, g1: Gossiper, c: Client)
    requires Enumerates(order, g.clients.Keys) && forall d :: d in order ==> d in g.clients
    requires g1.clients == NotifiedAll(g.clients, x) && forall m :: m in rest ==> !m.GossipNotification?
    ensures Counted(IdsTo(NotifyOut(g.clients, x, order) + rest, c), NextId(g, c), NextId(g1, c))
  {
    var out := NotifyOut(g.clients, x, order);
    IdsToConcat(out, rest, c);
    NoIds(rest, c);
    NotifyIds(g.clients, x, order, c);
    assert c in order <==> c in g.clients;
    CountedOne(NextId(g, c));
  }

  lemma VisitCounts(g: Gossiper, v: Visit, c: Client)
    requires v.item in g.incoming && Enumerates(v.clients, g.clients.Keys)
    requires forall d :: d in v.clients ==> d in g.clients
    ensures Counted(IdsTo(VisitOne(g, v).1, c), NextId(g, c), NextId(VisitOne(g, v).0, c))
  {
    hide Adopt, Updated, NotifyOut, NotifiedAll, Counted;
    if v.item in g.oldList || v.item in g.list {
      assert VisitOne(g, v).1 == [] && VisitOne(g, v).0.clients == g.clients;
      CountedOne(NextId(g, c));
    } else {
      var rest := AdoptParts(g, v.item, v.clients);
      NotifyCounts(g, v.item, v.clients, rest, VisitOne(g, v).0, c);
    }
  }

  lemma {:induction false} VisitsCount(g: Gossiper, visits: seq<Visit>, c: Client)
    requires Visitable(g, visits) && EachOnce(visits) && AllListed(g, visits)
    ensures Counted(IdsTo(VisitAll(g, visits).1, c), NextId(g, c), NextId(VisitAll(g, visits).0, c))
  {
    hide VisitOne, Enumerates, NextId, Counted;
    if visits == [] {
      CountedOne(NextId(g, c));
    } else {
      var n := |visits| - 1;
      var mid, out, last := LastVisit(g, visits);
      assert last in visits && forall v :: v in visits[..n] ==> v in visits;
      VisitsCount(g, visits[..n], c);
      VisitCounts(mid, last, c);
      IdsToConcat(out, VisitOne(mid, last).1, c);
      CountedConcat(IdsTo(out, c), IdsTo(VisitOne(mid, last).1, c), NextId(g, c), NextId(mid, c),
                    NextId(VisitOne(mid, last).0, c));
    }
  }

  lemma RoundCounts(g: Gossiper, step: GossipStep, c: Client)
    requires step.Round? && Enabled(g, step)
    ensures Counted(IdsTo(RoundStep(g, step).1, c), NextId(g, c), NextId(RoundStep(g, step).0, c))
  {
    hide RoundStep, VisitAll, PushRound, Counted;
    var push, pull, mid := RoundSplit(g, step);
    var a, b, rest := PushRound(g, step.pushes).1, PullRound(push, step.pulls).1, VisitAll(pull, step.visits).1;
    RoundQuietParts(g, step, push);
    NoIds(a + b, c);
    IdsToConcat(a + b, rest, c);
    assert IdsTo(a + b, c) + IdsTo(rest, c) == IdsTo(rest, c);
    VisitsCount(pull, step.visits, c);
  }

  lemma AnnounceCounts(g: Gossiper, item: Option<Item>, ttl: uint8, order: seq<Client>, c: Client)
    requires Enumerates(order, g.clients.Keys) && forall d :: d in order ==> d in g.clients
    ensures var g1, out := AnnounceHandler(g, item, ttl, order).0, AnnounceHandler(g, item, ttl, order).1;
      Counted(IdsTo(out, c), NextId(g, c), NextId(g1, c))
  {
    hide NextId, NotifyOut, NotifiedAll, Enumerates, Counted;
    if item.None? {
      CountedOne(NextId(g, c));
    } else {
      var x, t := item.value, AnnouncedTTL(g.cfg, ttl);
      var g1, out := AnnounceHandler(g, item, ttl, order).0, NotifyOut(g.clients, x, order);
      assert out + [] == out;
      NotifyCounts(g, x, order, [], g1, c);
      NotifyCounts(g, x, order, [Request(x, g.cfg.degree, t)], g1, c);
    }
  }

  lemma ValidationKeepsId(g: Gossiper, who: Client, id: uint16, valid: bool, c: Client)
    ensures NextId(ValidationHandler(g, who, id, valid), c) == NextId(g, c)
  {
  }

  lemma HandleCounts(g: Gossiper, step: GossipStep, c: Client)
    requires step.Handle? && Enabled(g, step) && !IsDeparture(step, c)
    ensures Counted(IdsTo(Next(g, step).1, c), NextId(g, c), NextId(Next(g, step).0, c))
  {
    hide AnnounceHandler, ValidationHandler, PushHandler, PullReplyHandler, ListReplyHandler, Counted;
    CountedOne(NextId(g, c));
    match step.m {
      case GossipAnnounce(item, ttl) => AnnounceCounts(g, item, ttl, step.clients, c);
      case GossipValidation(who, i, valid) => ValidationKeepsId(g, who, i, valid, c);
      case IncomingPush(_) => OnlyIncoming(g, step);
      case IncomingPullReply(_, _) => OnlyIncoming(g, step);
      case RandomPeerListReply(_, _) => ReplyKeepsClients(g, step); NoIds(Next(g, step).1, c);
      case _ => NoIds(Next(g, step).1, c);
    }
  }

  /** The ids under which a client is told of items during a run. */
  ghost function IdsOver(g: Gossiper, steps: seq<GossipStep>, c: Client): seq<uint16>
    requires IsRun(g, steps)
    decreases |steps|
  {
    if steps == [] then [] else IdsTo(Next(g, steps[0]).1, c) + IdsOver(Next(g, steps[0]).0, steps[1..], c)
  }

  lemma {:induction false} RunCounts(g: Gossiper, steps: seq<GossipStep>, c: Client)
    requires IsRun(g, steps) && Stays(steps, c)
    ensures Counted(IdsOver(g, steps, c), NextId(g, c), NextId(After(g, steps), c))
    decreases |steps|
  {
    hide RoundStep, HandleStep, NextId, Counted, IsDeparture;
    if steps == [] {
      CountedOne(NextId(g, c));
    } else {
      var g1 := Next(g, steps[0]).0;
      assert steps[0] in steps;
      if steps[0].Round? {
        RoundCounts(g, steps[0], c);
      } else {
        HandleCounts(g, steps[0], c);
      }
      RunCounts(g1, steps[1..], c);
      CountedConcat(IdsTo(Next(g, steps[0]).1, c), IdsOver(g1, steps[1..], c), NextId(g, c), NextId(g1, c),
                    NextId(After(g1, steps[1..]), c));
    }
  }

  lemma CountedDiffer(ids: seq<uint16>, next: uint16, i: nat, j: nat)
    requires Counted(ids, 0, next) && j < |ids|
    ensures ids[j] as int == j % 0x1_0000
    ensures i < j < i + 0x1_0000 ==> ids[i] != ids[j]
  {
    if i < j < i + 0x1_0000 {
      assert ids[i] == Later(0, i);
    }
  }

  /** From its registration on, the notifications of a client are numbered 0, 1, 2 and so on, all
      different until the 16 bits of an id are used up, as long as the client does not leave. */
  lemma NotificationsNumbered(g: Gossiper, steps: seq<GossipStep>, c: Client, i: nat, j: nat)
    requires IsRun(g, steps) && c !in g.clients && Stays(steps, c) && j < |IdsOver(g, steps, c)|
    ensures IdsOver(g, steps, c)[j] as int == j % 0x1_0000
    ensures i < j < i + 0x1_0000 ==> IdsOver(g, steps, c)[i] != IdsOver(g, steps, c)[j]
  {
    hide IsRun, IdsOver, Counted, Stays, After;
    RunCounts(g, steps, c);
    CountedDiffer(IdsOver(g, steps, c), NextId(After(g, steps), c), i, j);
  }
}
