/** Which peers an item is pushed to over consecutive rounds. */
module PushCoverage {
  import opened Types
  import opened Messages
  import opened GossipItems
  import opened GossiperModel
  import opened GossiperInvariant
  import opened GossiperLease
  import opened GossiperLifetime

  // ---- Counting along a circular list ----------------------------------------------

  /** The list read around and around. */
  function Around(peers: seq<Peer>): nat -> Peer
    requires peers != []
  {
    (x: nat) => peers[x % |peers|]
  }

  /** Number of positions in [a, a + len) that hold p. */
  ghost function CountAt(at: nat -> Peer, a: nat, len: nat, p: Peer): nat
    decreases len
  {
    if len == 0 then 0 else (if at(a) == p then 1 else 0) + CountAt(at, a + 1, len - 1, p)
  }

  ghost predicate OncePerPeriod(at: nat -> Peer, n: nat, p: Peer) {
    forall a: nat :: CountAt(at, a, n, p) == 1
  }

  lemma {:induction false} CountSplit(at: nat -> Peer, a: nat, l1: nat, l2: nat, p: Peer)
    ensures CountAt(at, a, l1 + l2, p) == CountAt(at, a, l1, p) + CountAt(at, a + l1, l2, p)
    decreases l1
  {
    if l1 != 0 {
      CountSplit(at, a + 1, l1 - 1, l2, p);
    }
  }

  lemma {:induction false} CountBelow(peers: seq<Peer>, a: nat, len: nat, r: nat)
    requires Distinct(peers) && r < |peers| && a + len <= |peers|
    ensures CountAt(Around(peers), a, len, peers[r]) == if a <= r < a + len then 1 else 0
    decreases len
  {
    if len != 0 {
      assert a % |peers| == a;
      CountBelow(peers, a + 1, len - 1, r);
    }
  }

  /** Any |peers| consecutive positions hold each peer once. */
  lemma {:induction false} CountPeriod(peers: seq<Peer>, a: nat, r: nat)
    requires Distinct(peers) && r < |peers|
    ensures CountAt(Around(peers), a, |peers|, peers[r]) == 1
  {
    var n, at := |peers|, Around(peers);
    if a == 0 {
      CountBelow(peers, 0, n, r);
    } else {
      CountPeriod(peers, a - 1, r);
      CountSplit(at, a - 1, 1, n - 1, peers[r]);
      CountSplit(at, a, n - 1, 1, peers[r]);
      ModShift(a - 1, n);
      assert at(a - 1) == at(a + n - 1);
      CountOne(at, a - 1, peers[r]);
      CountOne(at, a + n - 1, peers[r]);
    }
  }

  lemma CountOne(at: nat -> Peer, a: nat, p: Peer)
    ensures CountAt(at, a, 1, p) == if at(a) == p then 1 else 0
  {
    assert CountAt(at, a + 1, 0, p) == 0;
  }

  lemma EachPeerOnce(peers: seq<Peer>, p: Peer)
    requires Distinct(peers) && p in peers
    ensures OncePerPeriod(Around(peers), |peers|, p)
  {
    var r :| 0 <= r < |peers| && peers[r] == p;
    forall a: nat ensures CountAt(Around(peers), a, |peers|, p) == 1 {
      CountPeriod(peers, a, r);
    }
  }

  lemma ModShift(a: nat, n: nat)
    requires n > 0
    ensures (a + n) % n == a % n
  {
    var q, m, q1, m1 := a / n, a % n, (a + n) / n, (a + n) % n;
    Distribute(q, n);
    MulGap(q + 1, q1, n);
  }

  lemma Distribute(k: int, d: int)
    ensures (k + 1) * d == k * d + d
  {
  }

  /** Different multiples of n are at least n apart. */
  lemma MulGap(a: int, b: int, n: nat)
    ensures a < b ==> a * n + n <= b * n
    ensures b < a ==> b * n + n <= a * n
  {
    if a < b {
      MulShift(a, b - a - 1, n);
    } else if b < a {
      MulShift(b, a - b - 1, n);
    }
  }

  lemma {:induction false} MulShift(a: int, e: nat, n: nat)
    ensures (a + 1 + e) * n >= a * n + n
  {
    if e == 0 {
      Distribute(a, n);
    } else {
      MulShift(a, e - 1, n);
      Distribute(a + e, n);
    }
  }

  /** In any stretch of positions two peers occur equally often, up to one. */
  lemma {:induction false} CountBalanced(at: nat -> Peer, a: nat, len: nat, n: nat, p: Peer, q: Peer)
    requires n > 0 && OncePerPeriod(at, n, p) && OncePerPeriod(at, n, q)
    ensures -1 <= CountAt(at, a, len, p) - CountAt(at, a, len, q) <= 1
    decreases len
  {
    assert CountAt(at, a, n, p) == 1 && CountAt(at, a, n, q) == 1;
    if len < n {
      CountSplit(at, a, len, n - len, p);
      CountSplit(at, a, len, n - len, q);
    } else {
      CountSplit(at, a, n, len - n, p);
      CountSplit(at, a, n, len - n, q);
      CountBalanced(at, a + n, len - n, n, p, q);
    }
  }

  // ---- Targets of consecutive rounds ----------------------------------------------

  /** What `width` consecutive positions hold. */
  function Stretch(at: nat -> Peer, width: nat, base: nat): seq<Peer> {
    seq(width, i requires 0 <= i < width => at(base + i))
  }

  /** The number of positions that so many rounds move on. */
  function Span(degree: nat, rounds: nat): nat {
    if rounds == 0 then 0 else degree + Span(degree, rounds - 1)
  }

  lemma {:induction false} SpanIsProduct(degree: nat, rounds: nat)
    ensures Span(degree, rounds) == rounds * degree
  {
    if rounds != 0 {
      SpanIsProduct(degree, rounds - 1);
      Distribute(rounds - 1, degree);
    }
  }

  lemma SpanOfRounds(degree: nat, rounds: nat)
    ensures Span(degree, rounds) == degree * rounds
  {
    SpanIsProduct(degree, rounds);
  }

  lemma {:induction false} SpanMonotone(degree: nat, k: nat, rounds: nat)
    requires k <= rounds
    ensures Span(degree, k) <= Span(degree, rounds)
    decreases rounds
  {
    if k < rounds {
      SpanMonotone(degree, k, rounds - 1);
    }
  }

  /** How often consecutive rounds push to p, when `left` rounds were left before them. */
  ghost function RunCount(at: nat -> Peer, width: nat, degree: nat, left: nat, rounds: nat, p: Peer): nat
    requires rounds <= left
    decreases rounds
  {
    if rounds == 0 then 0
    else CountAt(at, Span(degree, left), width, p) + RunCount(at, width, degree, left - 1, rounds - 1, p)
  }

  lemma {:induction false} PrefixHits(at: nat -> Peer, width: nat, base: nat, p: Peer, k: nat)
    requires k <= width
    ensures multiset(Stretch(at, width, base)[..k])[p] == CountAt(at, base, k, p)
    decreases k
  {
    if k != 0 {
      PrefixHits(at, width, base, p, k - 1);
      var t := Stretch(at, width, base);
      assert t[..k] == t[..k - 1] + [t[k - 1]];
      CountSplit(at, base, k - 1, 1, p);
      CountOne(at, base + k - 1, p);
    }
  }

  lemma RoundHits(at: nat -> Peer, width: nat, base: nat, p: Peer)
    ensures multiset(Stretch(at, width, base))[p] == CountAt(at, base, width, p)
  {
    var t := Stretch(at, width, base);
    assert t[..width] == t;
    PrefixHits(at, width, base, p, width);
  }

  /** Rounds that push to `degree` peers each cover one stretch of positions, which ends
      where the first of them ends. */
  lemma {:induction false} RunHits(at: nat -> Peer, degree: nat, left: nat, rounds: nat, p: Peer, start: nat)
    requires rounds <= left
    requires start + Span(degree, rounds) == Span(degree, left) + degree
    ensures RunCount(at, degree, degree, left, rounds, p) == CountAt(at, start, Span(degree, rounds), p)
    decreases rounds
  {
    if rounds != 0 {
      RunHits(at, degree, left - 1, rounds - 1, p, start);
      CountSplit(at, start, Span(degree, rounds - 1), degree, p);
    }
  }

  lemma {:induction false} ShortListHits(at: nat -> Peer, n: nat, degree: nat, left: nat, rounds: nat, p: Peer)
    requires OncePerPeriod(at, n, p) && rounds <= left
    ensures RunCount(at, n, degree, left, rounds, p) == rounds
    decreases rounds
  {
    if rounds != 0 {
      ShortListHits(at, n, degree, left - 1, rounds - 1, p);
    }
  }

  // ---- Pushes actually sent -------------------------------------------------------

  /** Targets of the pushes of item `x` in a message sequence, in order. */
  function PushedTo(out: seq<Msg>, x: Item): seq<Peer> {
    if out == [] then []
    else
      (if out[0].GossipPush? && out[0].item == x then [out[0].to] else []) + PushedTo(out[1..], x)
  }

  lemma {:induction false} PushedToConcat(a: seq<Msg>, b: seq<Msg>, x: Item)
    ensures PushedTo(a + b, x) == PushedTo(a, x) + PushedTo(b, x)
  {
    if a == [] {
      assert a + b == b;
    } else {
      assert (a + b)[1..] == a[1..] + b;
      PushedToConcat(a[1..], b, x);
    }
  }

  lemma {:induction false} NoPushes(out: seq<Msg>, x: Item)
    requires forall m :: m in out ==> !m.GossipPush? || m.item != x
    ensures PushedTo(out, x) == []
  {
    if out != [] {
      NoPushes(out[1..], x);
    }
  }

  lemma {:induction false} AllPushes(out: seq<Msg>, x: Item, to: seq<Peer>)
    requires |out| == |to|
    requires forall i :: 0 <= i < |out| ==> out[i].GossipPush? && out[i].item == x && out[i].to == to[i]
    ensures PushedTo(out, x) == to
  {
    if out != [] {
      AllPushes(out[1..], x, to[1..]);
      assert to == [to[0]] + to[1..];
    }
  }

  lemma {:induction false} PushOutTargets(list: map<Item, ItemInfo>, degree: nat, order: seq<Item>, x: Item)
    requires Distinct(order) && forall y :: y in order ==> y in list
    ensures PushedTo(PushOut(list, degree, order), x) == if x in order then Targets(list[x], degree) else []
  {
    if order != [] {
      var n := |order| - 1;
      assert order == order[..n] + [order[n]];
      PushOutTargets(list, degree, order[..n], x);
      var msgs := PushMsgs(order[n], list[order[n]], degree);
      PushedToConcat(PushOut(list, degree, order[..n]), msgs, x);
      if order[n] == x {
        assert x !in order[..n];
        AllPushes(msgs, x, Targets(list[x], degree));
      } else {
        NoPushes(msgs, x);
      }
    }
  }

  lemma PushRoundPushes(g: Gossiper, order: seq<Item>, x: Item)
    requires Enumerates(order, g.list.Keys) && x in g.list
    ensures PushedTo(PushRound(g, order).1, x) == Targets(g.list[x], g.cfg.degree)
  {
    var retired := Retired(g.list, g.cfg.cMax, order);
    PushOutTargets(g.list, g.cfg.degree, order, x);
    assert x in order;
    ReleaseOutKind(g.list, retired);
    NoPushes(ReleaseOut(g.list, retired), x);
    PushedToConcat(PushOut(g.list, g.cfg.degree, order), ReleaseOut(g.list, retired), x);
  }

  lemma PullRoundPushes(g: Gossiper, order: seq<Peer>, x: Item)
    ensures PushedTo(PullRound(g, order).1, x) == []
  {
    NoPushes(PullRound(g, order).1, x);
  }

  lemma UpdateRoundPushes(g: Gossiper, visits: seq<Visit>, x: Item)
    requires Visitable(g, visits)
    ensures PushedTo(UpdateRound(g, visits).1, x) == []
  {
    VisitAllLeases(g, visits);
    NoPushes(UpdateRound(g, visits).1, x);
  }

  /** A round pushes an active item to its targets and nowhere else. */
  lemma RoundPushes(g: Gossiper, step: GossipStep, x: Item, out: seq<Msg>)
    requires step.Round? && Enabled(g, step) && x in g.list && out == RoundStep(g, step).1
    ensures PushedTo(out, x) == Targets(g.list[x], g.cfg.degree)
  {
    var push := PushRound(g, step.pushes);
    var pull := PullRound(push.0, step.pulls);
    var update := UpdateRound(pull.0, step.visits);
    PushRoundPushes(g, step.pushes, x);
    PullRoundPushes(push.0, step.pulls, x);
    UpdateRoundPushes(pull.0, step.visits, x);
    PushedToConcat(push.1, pull.1, x);
    PushedToConcat(push.1 + pull.1, update.1, x);
  }

  lemma HandlePushesNothing(g: Gossiper, m: GossipMsg, clients: seq<Client>, items: seq<Item>, x: Item)
    requires forall c :: c in clients ==> c in g.clients
    requires forall y :: y in items ==> y in g.list
    ensures PushedTo(HandleStep(g, m, clients, items).1, x) == []
  {
    if m.GossipAnnounce? && m.item.Some? {
      NotifyOutKind(g.clients, m.item.value, clients);
    }
    NoPushes(HandleStep(g, m, clients, items).1, x);
  }

  // ---- Runs -----------------------------------------------------------------------

  /** Before each step of the run the item is active and holds these peers. */
  ghost predicate HeldBefore(g: Gossiper, steps: seq<GossipStep>, x: Item, peers: seq<Peer>)
    requires IsRun(g, steps)
    decreases |steps|
  {
    steps == [] ||
    (x in g.list && g.list[x].peerList == peers && HeldBefore(Next(g, steps[0]).0, steps[1..], x, peers))
  }

  /** How often the messages of one step push the item to this peer. */
  ghost function SentIn(g: Gossiper, step: GossipStep, x: Item, p: Peer): nat
    requires Enabled(g, step)
  {
    multiset(PushedTo(Next(g, step).1, x))[p]
  }

  /** How often the run pushes the item to this peer. */
  ghost function Sent(g: Gossiper, steps: seq<GossipStep>, x: Item, p: Peer): nat
    requires IsRun(g, steps)
    decreases |steps|
  {
    if steps == [] then 0
    else SentIn(g, steps[0], x, p) + Sent(Next(g, steps[0]).0, steps[1..], x, p)
  }

  lemma TargetsAreStretch(info: ItemInfo, degree: nat)
    requires info.peerList != []
    ensures Targets(info, degree)
      == Stretch(Around(info.peerList), Min(degree, |info.peerList|), Span(degree, info.s.ttl as int))
  {
    SpanIsProduct(degree, info.s.ttl as int);
  }

  lemma StepKeepsClock(g: Gossiper, step: GossipStep, x: Item, g1: Gossiper)
    requires Inv(g) && Enabled(g, step) && x in g.list && g1 == Next(g, step).0
    ensures Inv(g1) && g1.cfg == g.cfg && g.list[x].s.ttl >= 1
    ensures x in g1.list ==> g1.list[x].s.ttl as int == g.list[x].s.ttl as int - (if step.Round? then 1 else 0)
  {
    match step
    case Round(_, _, _) => RoundInv(g, step, g1);
    case Handle(m, clients, items) => HandleInv(g, m, clients, items);
  }

  lemma SentInStep(g: Gossiper, step: GossipStep, x: Item, at: nat -> Peer, width: nat, left: nat, p: Peer)
    requires Inv(g) && Enabled(g, step) && x in g.list && g.list[x].peerList != []
    requires at == Around(g.list[x].peerList) && width == Min(g.cfg.degree, |g.list[x].peerList|)
    requires left == g.list[x].s.ttl as int
    ensures SentIn(g, step, x, p) == if step.Round? then CountAt(at, Span(g.cfg.degree, left), width, p) else 0
  {
    match step
    case Round(_, _, _) =>
      RoundPushes(g, step, x, RoundStep(g, step).1);
      TargetsAreStretch(g.list[x], g.cfg.degree);
      RoundHits(at, width, Span(g.cfg.degree, left), p);
    case Handle(m, clients, items) =>
      HandlePushesNothing(g, m, clients, items, x);
  }

  lemma {:induction false} SentIsRunCount(g: Gossiper, steps: seq<GossipStep>, x: Item, peers: seq<Peer>,
                                          at: nat -> Peer, width: nat, p: Peer)
    requires Inv(g) && IsRun(g, steps) && HeldBefore(g, steps, x, peers) && steps != []
    requires peers != [] && at == Around(peers) && width == Min(g.cfg.degree, |peers|)
    ensures Rounds(steps) <= g.list[x].s.ttl as int
    ensures Sent(g, steps, x, p) == RunCount(at, width, g.cfg.degree, g.list[x].s.ttl as int, Rounds(steps), p)
    decreases |steps|
  {
    hide Inv, Enabled, Next, Around, CountAt;
    var g1, ttl, rest := Next(g, steps[0]).0, g.list[x].s.ttl as int, Rounds(steps[1..]);
    StepKeepsClock(g, steps[0], x, g1);
    SentInStep(g, steps[0], x, at, width, ttl, p);
    var left := ttl - (if steps[0].Round? then 1 else 0);
    assert Sent(g1, steps[1..], x, p) == RunCount(at, width, g.cfg.degree, left, rest, p) by {
      if steps[1..] == [] {
        assert Sent(g1, steps[1..], x, p) == 0 && rest == 0;
      } else {
        SentIsRunCount(g1, steps[1..], x, peers, at, width, p);
        assert g1.list[x].s.ttl as int == left && g1.cfg.degree == g.cfg.degree;
      }
    }
    AddRound(steps[0].Round?, at, width, g.cfg.degree, ttl, left, Rounds(steps), rest,
             SentIn(g, steps[0], x, p), Sent(g1, steps[1..], x, p), p);
  }

  lemma AddRound(isRound: bool, at: nat -> Peer, width: nat, degree: nat, left: nat, left1: nat,
                 rounds: nat, rounds1: nat, first: nat, rest: nat, p: Peer)
    requires rounds1 <= left1 && rest == RunCount(at, width, degree, left1, rounds1, p)
    requires isRound ==> left == left1 + 1 && rounds == rounds1 + 1
    requires isRound ==> first == CountAt(at, Span(degree, left), width, p)
    requires !isRound ==> left == left1 && rounds == rounds1 && first == 0
    ensures rounds <= left && first + rest == RunCount(at, width, degree, left, rounds, p)
  {
  }

  /** While an item keeps its list of at least `degree` peers, over any run of consecutive
      rounds it is pushed to any two of them equally often, up to one. */
  lemma BalancedPushes(g: Gossiper, steps: seq<GossipStep>, x: Item, peers: seq<Peer>, p: Peer, q: Peer)
    requires Inv(g) && IsRun(g, steps) && HeldBefore(g, steps, x, peers) && steps != []
    requires Distinct(peers) && g.cfg.degree <= |peers| && p in peers && q in peers
    ensures Sent(g, steps, x, p) <= Sent(g, steps, x, q) + 1 && Sent(g, steps, x, q) <= Sent(g, steps, x, p) + 1
  {
    SentIsRunCount(g, steps, x, peers, Around(peers), g.cfg.degree, p);
    SentIsRunCount(g, steps, x, peers, Around(peers), g.cfg.degree, q);
    EachPeerOnce(peers, p);
    EachPeerOnce(peers, q);
    BalancedTargets(Around(peers), |peers|, g.cfg.degree, g.list[x].s.ttl as int, Rounds(steps), p, q);
  }

  lemma BalancedTargets(at: nat -> Peer, n: nat, degree: nat, left: nat, rounds: nat, p: Peer, q: Peer)
    requires n > 0 && OncePerPeriod(at, n, p) && OncePerPeriod(at, n, q) && rounds <= left
    ensures RunCount(at, degree, degree, left, rounds, p) <= RunCount(at, degree, degree, left, rounds, q) + 1
    ensures RunCount(at, degree, degree, left, rounds, q) <= RunCount(at, degree, degree, left, rounds, p) + 1
  {
    SpanMonotone(degree, rounds, left);
    var start := Span(degree, left) + degree - Span(degree, rounds);
    RunHits(at, degree, left, rounds, p, start);
    RunHits(at, degree, left, rounds, q, start);
    CountBalanced(at, start, Span(degree, rounds), n, p, q);
  }

  lemma FullRun(g: Gossiper, steps: seq<GossipStep>, x: Item, peers: seq<Peer>, p: Peer)
    requires Inv(g) && IsRun(g, steps) && HeldBefore(g, steps, x, peers) && steps != []
    requires Distinct(peers) && p in peers && |peers| == Span(g.cfg.degree, Rounds(steps))
    ensures Sent(g, steps, x, p) == 1
  {
    var d, ttl, rounds := g.cfg.degree, g.list[x].s.ttl as int, Rounds(steps);
    SpanMonotone(d, 1, rounds);
    SentIsRunCount(g, steps, x, peers, Around(peers), d, p);
    SpanMonotone(d, rounds, ttl);
    EachPeerOnce(peers, p);
    RunHits(Around(peers), d, ttl, rounds, p, Span(d, ttl) + d - Span(d, rounds));
  }

  /** With `degree` peers for each of so many rounds, these push the item to every one of
      them exactly once: `degree * maxTTL` peers for an item adopted in state B, which lives
      through its ttl, and `degree * cMax` for one adopted in state C. */
  lemma FullCoverage(g: Gossiper, steps: seq<GossipStep>, x: Item, peers: seq<Peer>, p: Peer)
    requires Inv(g) && IsRun(g, steps) && HeldBefore(g, steps, x, peers) && steps != []
    requires Distinct(peers) && p in peers && |peers| == g.cfg.degree * Rounds(steps)
    ensures Sent(g, steps, x, p) == 1
  {
    hide Inv, IsRun, HeldBefore, Rounds, Sent;
    SpanOfRounds(g.cfg.degree, Rounds(steps));
    FullRun(g, steps, x, peers, p);
  }

  /** With at most `degree` peers, every round pushes the item to every peer once. */
  lemma ShortListCoverage(g: Gossiper, steps: seq<GossipStep>, x: Item, peers: seq<Peer>, p: Peer)
    requires Inv(g) && IsRun(g, steps) && HeldBefore(g, steps, x, peers) && steps != []
    requires Distinct(peers) && |peers| <= g.cfg.degree && p in peers
    ensures Sent(g, steps, x, p) == Rounds(steps)
  {
    SentIsRunCount(g, steps, x, peers, Around(peers), |peers|, p);
    EachPeerOnce(peers, p);
    ShortListHits(Around(peers), |peers|, g.cfg.degree, g.list[x].s.ttl as int, Rounds(steps), p);
  }
}
