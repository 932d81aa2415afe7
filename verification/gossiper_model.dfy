/** The Gossiper as functions on values: each handler and each part of a gossip round
    maps a state to the next one and to the messages sent to the Central controller.
    The order in which Go ranges over a map is an explicit argument. */
module GossiperModel {
  import opened Types
  import opened Messages
  import opened GossipItems

  datatype Config = Config(cacheSize: nat, degree: nat, maxTTL: uint8, bMax: uint8, cMax: uint8)

  /** An API client's interests and the notifications it has yet to answer. */
  datatype Registration = Registration(dataTypes: set<nat>, validation: map<uint16, Item>, nextID: uint16)

  datatype Gossiper = Gossiper(
    cfg: Config,
    list: map<Item, ItemInfo>,
    oldList: map<Item, ItemInfo>,
    clients: map<Client, Registration>,
    incoming: map<Item, ItemInfo>,
    nextPull: set<Peer>,
    pullPeers: set<Peer>)

  /** One iteration over `incoming`, with the order in which clients would be notified. */
  datatype Visit = Visit(item: Item, clients: seq<Client>)

  function Fresh(state: MCState, counter: uint8, ttl: uint8): ItemInfo {
    ItemInfo(ItemState(state, counter, ttl, 0), [])
  }

  // ---- Push round ----------------------------------------------------------------

  /** Position in a list of `n` peers of the `i`-th target in the round with this ttl. */
  function TargetIndex(ttl: nat, degree: nat, i: nat, n: nat): nat
    requires n > 0
  {
    (ttl * degree + i) % n
  }

  /** Peers to which one round pushes an item. */
  function Targets(info: ItemInfo, degree: nat): seq<Peer> {
    var n := |info.peerList|;
    seq(Min(degree, n), i requires 0 <= i < Min(degree, n) =>
      info.peerList[TargetIndex(info.s.ttl as int, degree, i, n)])
  }

  function PushMsgs(x: Item, info: ItemInfo, degree: nat): seq<Msg> {
    var to := Targets(info, degree);
    seq(|to|, i requires 0 <= i < |to| => GossipPush(x, info.s.state, info.s.counter, to[i]))
  }

  function PushOut(list: map<Item, ItemInfo>, degree: nat, order: seq<Item>): seq<Msg>
    requires forall x :: x in order ==> x in list
  {
    if order == [] then []
    else
      var n := |order| - 1;
      PushOut(list, degree, order[..n]) + PushMsgs(order[n], list[order[n]], degree)
  }

  function Retires(info: ItemInfo, cMax: uint8): bool {
    Aged(info.s, cMax).1
  }

  /** Items that this push round retires, in visiting order. */
  function Retired(list: map<Item, ItemInfo>, cMax: uint8, order: seq<Item>): (r: seq<Item>)
    requires forall x :: x in order ==> x in list
    ensures forall x :: x in r <==> x in order && Retires(list[x], cMax)
  {
    if order == [] then []
    else
      var n := |order| - 1;
      assert order == order[..n] + [order[n]];
      var rest := Retired(list, cMax, order[..n]);
      if Retires(list[order[n]], cMax) then rest + [order[n]] else rest
  }

  function ReleaseOut(list: map<Item, ItemInfo>, retired: seq<Item>): seq<Msg>
    requires forall x :: x in retired ==> x in list
  {
    if retired == [] then []
    else
      var n := |retired| - 1;
      ReleaseOut(list, retired[..n]) + [RandomPeerListRelease(list[retired[n]].peerList)]
  }

  function PushRound(g: Gossiper, order: seq<Item>): (Gossiper, seq<Msg>)
    requires forall x :: x in order ==> x in g.list
  {
    var kept := map x | x in g.list && !Retires(g.list[x], g.cfg.cMax)
                  :: g.list[x].(s := Aged(g.list[x].s, g.cfg.cMax).0);
    var quarantined := map x | x in g.list && Retires(g.list[x], g.cfg.cMax)
                         :: Fresh(D, 0, g.cfg.maxTTL);
    (g.(list := kept, oldList := g.oldList + quarantined),
     PushOut(g.list, g.cfg.degree, order)
     + ReleaseOut(g.list, Retired(g.list, g.cfg.cMax, order)))
  }

  // ---- Pull round ----------------------------------------------------------------

  function PullOut(order: seq<Peer>): seq<Msg> {
    seq(|order|, i requires 0 <= i < |order| => GossipPullRequest(order[i]))
  }

  function PullRound(g: Gossiper, order: seq<Peer>): (Gossiper, seq<Msg>) {
    (g.(pullPeers := g.nextPull, nextPull := {}),
     PullOut(order) + [RandomPeerListRequest(None, g.cfg.degree)])
  }

  // ---- Update round --------------------------------------------------------------

  function Interested(r: Registration, x: Item): bool {
    x.dataType in r.dataTypes
  }

  function Notified(r: Registration, x: Item): Registration {
    if Interested(r, x)
    then r.(validation := r.validation[r.nextID := x], nextID := Inc16(r.nextID))
    else r
  }

  function NotifiedAll(clients: map<Client, Registration>, x: Item): map<Client, Registration> {
    map c | c in clients :: Notified(clients[c], x)
  }

  function NotifyOut(clients: map<Client, Registration>, x: Item, order: seq<Client>): seq<Msg>
    requires forall c :: c in order ==> c in clients
  {
    if order == [] then []
    else
      var n := |order| - 1;
      var rest := NotifyOut(clients, x, order[..n]);
      var r := clients[order[n]];
      if Interested(r, x) then rest + [GossipNotification(order[n], x, r.nextID)] else rest
  }

  function Request(x: Item, degree: nat, rounds: uint8): Msg {
    RandomPeerListRequest(Some(x), degree * rounds as int)
  }

  /** A received item that is new here: notify, and adopt it if there is room. */
  function Adopt(g: Gossiper, x: Item, order: seq<Client>): (Gossiper, seq<Msg>)
    requires x in g.incoming
    requires forall c :: c in order ==> c in g.clients
  {
    var g1 := g.(clients := NotifiedAll(g.clients, x));
    var out := NotifyOut(g.clients, x, order);
    if |g.list| >= g.cfg.cacheSize then (g1, out)
    else match g.incoming[x].s.state
      case B => (g1.(list := g.list[x := Fresh(B, 1, g.cfg.maxTTL)]),
                 out + [Request(x, g.cfg.degree, g.cfg.maxTTL)])
      case C => (g1.(list := g.list[x := Fresh(C, 0, g.cfg.maxTTL)]),
                 out + [Request(x, g.cfg.degree, g.cfg.cMax)])
      case D => (g1, out)
  }

  function VisitOne(g: Gossiper, v: Visit): (Gossiper, seq<Msg>)
    requires v.item in g.incoming
    requires forall c :: c in v.clients ==> c in g.clients
  {
    var x := v.item;
    if x in g.oldList then (g, [])
    else if x in g.list then
      (g.(list := g.list[x := g.list[x].(s := Updated(g.list[x].s, g.incoming[x].s))]), [])
    else Adopt(g, x, v.clients)
  }

  lemma VisitOneKeeps(g: Gossiper, v: Visit)
    requires v.item in g.incoming
    requires forall c :: c in v.clients ==> c in g.clients
    ensures SameBut(g, VisitOne(g, v).0)
  {
  }

  /** A visit changes nothing but the list and the clients' notifications. */
  ghost predicate SameBut(g: Gossiper, g1: Gossiper) {
    && g1.incoming == g.incoming && g1.oldList == g.oldList && g1.cfg == g.cfg
    && g1.nextPull == g.nextPull && g1.pullPeers == g.pullPeers
    && g1.clients.Keys == g.clients.Keys
  }

  ghost predicate Visitable(g: Gossiper, visits: seq<Visit>) {
    forall v :: v in visits ==> v.item in g.incoming && forall c :: c in v.clients ==> c in g.clients
  }

  ghost function VisitAll(g: Gossiper, visits: seq<Visit>): (r: (Gossiper, seq<Msg>))
    requires Visitable(g, visits)
    ensures SameBut(g, r.0)
  {
    if visits == [] then (g, [])
    else
      var n := |visits| - 1;
      assert visits == visits[..n] + [visits[n]];
      var before := VisitAll(g, visits[..n]);
      VisitOneKeeps(before.0, visits[n]);
      hide VisitOne;
      var last := VisitOne(before.0, visits[n]);
      (last.0, before.1 + last.1)
  }

  function JudgedAll(list: map<Item, ItemInfo>, bMax: uint8): map<Item, ItemInfo> {
    map x | x in list :: list[x].(s := Judged(list[x].s, bMax))
  }

  ghost function UpdateRound(g: Gossiper, visits: seq<Visit>): (Gossiper, seq<Msg>)
    requires Visitable(g, visits)
  {
    var r := VisitAll(g, visits);
    (r.0.(incoming := map[], list := JudgedAll(r.0.list, g.cfg.bMax)), r.1)
  }

  function SweepOld(g: Gossiper): Gossiper {
    g.(oldList := map x | x in g.oldList && Dec8(g.oldList[x].s.ttl) != 0
                :: g.oldList[x].(s := g.oldList[x].s.(ttl := Dec8(g.oldList[x].s.ttl))))
  }

  // ---- Handlers ------------------------------------------------------------------

  function ListReplyHandler(g: Gossiper, related: Option<Item>, peers: seq<Peer>): (Gossiper, seq<Msg>) {
    match related
    case None => (g.(nextPull := g.nextPull + set p | p in peers), [])
    case Some(x) =>
      if x in g.list then (g.(list := g.list[x := g.list[x].(peerList := peers)]), [])
      else (g, [RandomPeerListRelease(peers)])
  }

  function AnnouncedTTL(cfg: Config, ttl: uint8): uint8 {
    if ttl == 0 || ttl > cfg.maxTTL then cfg.maxTTL else ttl
  }

  function AnnounceHandler(g: Gossiper, item: Option<Item>, ttl: uint8, order: seq<Client>): (Gossiper, seq<Msg>)
    requires forall c :: c in order ==> c in g.clients
  {
    match item
    case None => (g, [])
    case Some(x) =>
      var g1 := g.(clients := NotifiedAll(g.clients, x));
      var out := NotifyOut(g.clients, x, order);
      if |g.list| >= g.cfg.cacheSize || x in g.oldList || x in g.list then (g1, out)
      else
        var t := AnnouncedTTL(g.cfg, ttl);
        (g1.(list := g.list[x := Fresh(B, 1, t)]), out + [Request(x, g.cfg.degree, t)])
  }

  function NotifyHandler(g: Gossiper, who: Client, what: nat): Gossiper {
    if who in g.clients
    then g.(clients := g.clients[who := g.clients[who].(dataTypes := g.clients[who].dataTypes + {what})])
    else g.(clients := g.clients[who := Registration({what}, map[], 0)])
  }

  function UnnotifyHandler(g: Gossiper, who: Client): Gossiper {
    g.(clients := g.clients - {who})
  }

  /** True iff the client was sent this notification and has not answered it yet. */
  predicate Awaits(g: Gossiper, who: Client, id: uint16) {
    who in g.clients && id in g.clients[who].validation
  }

  function ValidationHandler(g: Gossiper, who: Client, id: uint16, valid: bool): Gossiper {
    if !Awaits(g, who, id) then g
    else
      var x := g.clients[who].validation[id];
      var r := g.clients[who].(validation := g.clients[who].validation - {id});
      var g1 := g.(clients := g.clients[who := r]);
      if valid then g1
      else g1.(list := g.list - {x}, incoming := g.incoming - {x},
               oldList := g.oldList[x := Fresh(D, 0, g.cfg.maxTTL)])
  }

  /** The state stored for a received copy, or None when the copy is rejected. */
  function Normalised(cfg: Config, ext: ItemExt): Option<ItemInfo> {
    match ext.state
    case B => if ext.counter < cfg.bMax then Some(Fresh(B, ext.counter, cfg.maxTTL)) else None
    case C => if ext.counter < cfg.cMax then Some(Fresh(C, 0, cfg.maxTTL)) else None
    case D => None
  }

  /** Result of the sanity check: the buffer afterwards, and whether a new key was added. */
  function CheckAndAdd(cfg: Config, incoming: map<Item, ItemInfo>, ext: ItemExt): (map<Item, ItemInfo>, bool) {
    if ext.item.None? || Normalised(cfg, ext).None? then (incoming, false)
    else
      var x, info := ext.item.value, Normalised(cfg, ext).value;
      if x !in incoming then (incoming[x := info], true)
      else if Cmp(incoming[x].s, info.s) < 0 then (incoming[x := info], false)
      else (incoming, false)
  }

  function PushHandler(g: Gossiper, ext: ItemExt): Gossiper {
    if |g.incoming| >= g.cfg.cacheSize then g
    else g.(incoming := CheckAndAdd(g.cfg, g.incoming, ext).0)
  }

  function PullAll(cfg: Config, incoming: map<Item, ItemInfo>, upTo: int, items: seq<ItemExt>): map<Item, ItemInfo>
    decreases |items|
  {
    if items == [] || upTo <= 0 then incoming
    else
      var r := CheckAndAdd(cfg, incoming, items[0]);
      PullAll(cfg, r.0, if r.1 then upTo - 1 else upTo, items[1..])
  }

  function PullReplyHandler(g: Gossiper, from: Peer, items: seq<ItemExt>): Gossiper {
    if from !in g.pullPeers then g
    else g.(incoming := PullAll(g.cfg, g.incoming, g.cfg.cacheSize - |g.incoming|, items),
            pullPeers := g.pullPeers - {from})
  }

  function PullRequestHandler(g: Gossiper, from: Peer, order: seq<Item>): seq<Msg>
    requires forall x :: x in order ==> x in g.list
  {
    [GossipPullReply(from, seq(|order|, i requires 0 <= i < |order| =>
      ItemExt(Some(order[i]), g.list[order[i]].s.state, g.list[order[i]].s.counter)))]
  }

  // ---- Steps ---------------------------------------------------------------------

  datatype GossipStep =
    | Round(pushes: seq<Item>, pulls: seq<Peer>, visits: seq<Visit>)
    | Handle(m: GossipMsg, clients: seq<Client>, items: seq<Item>)

  ghost predicate VisitOrder(g: Gossiper, visits: seq<Visit>) {
    && Enumerates(seq(|visits|, i requires 0 <= i < |visits| => visits[i].item), g.incoming.Keys)
    && forall v :: v in visits ==> v.item in g.incoming && Enumerates(v.clients, g.clients.Keys)
  }

  ghost predicate Enabled(g: Gossiper, step: GossipStep) {
    match step
    case Round(pushes, pulls, visits) =>
      Enumerates(pushes, g.list.Keys) && Enumerates(pulls, g.nextPull) && VisitOrder(g, visits)
    case Handle(m, clients, items) =>
      Enumerates(clients, g.clients.Keys) && Enumerates(items, g.list.Keys)
  }

  ghost function RoundStep(g: Gossiper, step: GossipStep): (Gossiper, seq<Msg>)
    requires step.Round? && Enabled(g, step)
  {
    var push := PushRound(g, step.pushes);
    var pull := PullRound(push.0, step.pulls);
    var update := UpdateRound(pull.0, step.visits);
    (SweepOld(update.0), push.1 + pull.1 + update.1)
  }

  function HandleStep(g: Gossiper, m: GossipMsg, clients: seq<Client>, items: seq<Item>): (Gossiper, seq<Msg>)
    requires forall c :: c in clients ==> c in g.clients
    requires forall x :: x in items ==> x in g.list
  {
    match m
    case RandomPeerListReply(related, peers) => ListReplyHandler(g, related, peers)
    case GossipAnnounce(item, ttl) => AnnounceHandler(g, item, ttl, clients)
    case GossipNotify(who, what) => (NotifyHandler(g, who, what), [])
    case GossipUnnotify(who) => (UnnotifyHandler(g, who), [])
    case GossipValidation(who, id, valid) => (ValidationHandler(g, who, id, valid), [])
    case IncomingPush(ext) => (PushHandler(g, ext), [])
    case IncomingPullRequest(from) => (g, PullRequestHandler(g, from, items))
    case IncomingPullReply(from, exts) => (PullReplyHandler(g, from, exts), [])
    case GossiperClose => (g, [SubClosed(Gossip)])
  }

  ghost function Next(g: Gossiper, step: GossipStep): (Gossiper, seq<Msg>)
    requires Enabled(g, step)
  {
    match step
    case Round(_, _, _) => RoundStep(g, step)
    case Handle(m, clients, items) => HandleStep(g, m, clients, items)
  }

  /** All steps of a run are enabled in the state in which they are taken. */
  ghost predicate IsRun(g: Gossiper, steps: seq<GossipStep>)
    decreases |steps|
  {
    steps == [] || (Enabled(g, steps[0]) && IsRun(Next(g, steps[0]).0, steps[1..]))
  }

  ghost function After(g: Gossiper, steps: seq<GossipStep>): Gossiper
    requires IsRun(g, steps)
    decreases |steps|
  {
    if steps == [] then g else After(Next(g, steps[0]).0, steps[1..])
  }
}
