/** What one gossip round does to each item and what it sends: which items move on under the
    median rule, which are taken in, and which messages go out. */
module GossiperRounds {
  import opened Types
  import opened Messages
  import opened GossipItems
  import opened GossiperModel
  import opened GossiperInvariant
  import opened GossiperLifetime
  import opened GossiperLease

  // ---- Visits to items that are active ---------------------------------------------

  ghost predicate IsVisited(visits: seq<Visit>, x: Item) {
    exists v :: v in visits && v.item == x
  }

  lemma VisitedSplit(visits: seq<Visit>, x: Item)
    requires visits != []
    ensures var n := |visits| - 1;
      IsVisited(visits, x) <==> IsVisited(visits[..n], x) || visits[n].item == x
  {
    var n := |visits| - 1;
    assert visits == visits[..n] + [visits[n]];
    if IsVisited(visits, x) && visits[n].item != x {
      var v :| v in visits && v.item == x;
      assert v in visits[..n];
    }
    if IsVisited(visits[..n], x) {
      var v :| v in visits[..n] && v.item == x;
      assert v in visits;
    }
    if visits[n].item == x {
      assert visits[n] in visits;
    }
  }

  /** The earlier visits, the state they lead to, and the last visit. */
  lemma LastVisit(g: Gossiper, visits: seq<Visit>) returns (mid: Gossiper, out: seq<Msg>, last: Visit)
    requires Visitable(g, visits) && EachOnce(visits) && visits != []
    ensures var n := |visits| - 1;
      && last == visits[n] && Visitable(g, visits[..n]) && EachOnce(visits[..n])
      && (mid, out) == VisitAll(g, visits[..n]) && SameBut(g, mid)
      && last.item in mid.incoming && (forall c :: c in last.clients ==> c in mid.clients)
      && VisitAll(g, visits).0 == VisitOne(mid, last).0 && VisitAll(g, visits).1 == out + VisitOne(mid, last).1
      && !IsVisited(visits[..n], last.item)
      && forall x :: IsVisited(visits, x) <==> IsVisited(visits[..n], x) || last.item == x
  {
    hide VisitOne;
    var n := |visits| - 1;
    last := visits[n];
    assert visits == visits[..n] + [last];
    mid, out := VisitAll(g, visits[..n]).0, VisitAll(g, visits[..n]).1;
    assert last in visits;
    forall x ensures IsVisited(visits, x) <==> IsVisited(visits[..n], x) || last.item == x {
      VisitedSplit(visits, x);
    }
  }

  /** A visit to another item, or to one in quarantine, leaves an active item alone. */
  lemma VisitLeaves(g: Gossiper, v: Visit, x: Item)
    requires v.item in g.incoming && forall c :: c in v.clients ==> c in g.clients
    requires x in g.list && v.item != x
    ensures var l := VisitOne(g, v).0.list; x in l && l[x] == g.list[x]
  {
    hide Updated, NotifiedAll, NotifyOut;
  }

  lemma VisitUpdates(g: Gossiper, v: Visit)
    requires v.item in g.incoming && forall c :: c in v.clients ==> c in g.clients
    requires v.item in g.list && v.item !in g.oldList
    ensures VisitOne(g, v).1 == []
    ensures VisitOne(g, v).0.list
      == g.list[v.item := g.list[v.item].(s := Updated(g.list[v.item].s, g.incoming[v.item].s))]
  {
  }

  /** Visits update each active item once, with the copy received. */
  lemma {:induction false} VisitedActive(g: Gossiper, visits: seq<Visit>, x: Item)
    requires Visitable(g, visits) && EachOnce(visits) && x in g.list && x !in g.oldList && x in g.incoming
    ensures var l := VisitAll(g, visits).0.list;
      && x in l
      && (IsVisited(visits, x) ==> l[x] == g.list[x].(s := Updated(g.list[x].s, g.incoming[x].s)))
      && (!IsVisited(visits, x) ==> l[x] == g.list[x])
  {
    hide VisitOne, Updated;
    if visits != [] {
      var mid, out, last := LastVisit(g, visits);
      VisitedActive(g, visits[..|visits| - 1], x);
      if last.item == x {
        VisitUpdates(mid, last);
      } else {
        VisitLeaves(mid, last, x);
      }
    }
  }

  lemma {:induction false} UnvisitedActive(g: Gossiper, visits: seq<Visit>, x: Item)
    requires Visitable(g, visits) && EachOnce(visits) && x in g.list && x !in g.incoming
    ensures var l := VisitAll(g, visits).0.list; x in l && l[x] == g.list[x]
  {
    hide VisitOne;
    if visits != [] {
      var mid, out, last := LastVisit(g, visits);
      UnvisitedActive(g, visits[..|visits| - 1], x);
      VisitLeaves(mid, last, x);
    }
  }

  lemma OrderVisits(g: Gossiper, visits: seq<Visit>, x: Item)
    requires VisitOrder(g, visits)
    ensures IsVisited(visits, x) <==> x in g.incoming
  {
    var items := seq(|visits|, i requires 0 <= i < |visits| => visits[i].item);
    assert (set y | y in items) == g.incoming.Keys;
    if x in g.incoming {
      assert x in items;
      var i :| 0 <= i < |items| && items[i] == x;
      assert visits[i] in visits;
    }
  }

  // ---- The median rule -------------------------------------------------------------

  /** The parts of a round. */
  lemma RoundSplit(g: Gossiper, step: GossipStep) returns (push: Gossiper, pull: Gossiper, mid: Gossiper)
    requires step.Round? && Enabled(g, step)
    ensures push == PushRound(g, step.pushes).0 && pull == push.(pullPeers := push.nextPull, nextPull := {})
    ensures pull.cfg == g.cfg && pull.incoming == g.incoming && pull.clients == g.clients
    ensures VisitOrder(pull, step.visits) && Visitable(pull, step.visits) && EachOnce(step.visits)
    ensures mid == VisitAll(pull, step.visits).0 && SameBut(pull, mid)
    ensures var g1 := RoundStep(g, step).0;
      && g1.list == JudgedAll(mid.list, g.cfg.bMax) && g1.clients == mid.clients && g1.cfg == g.cfg
      && g1.nextPull == {} && g1.pullPeers == g.nextPull && g1.incoming == map[]
    ensures RoundStep(g, step).1
      == PushRound(g, step.pushes).1 + PullRound(push, step.pulls).1 + VisitAll(pull, step.visits).1
  {
    hide VisitAll, JudgedAll, PushOut, ReleaseOut, Retired, Retires, Aged;
    push := PushRound(g, step.pushes).0;
    pull := PullRound(push, step.pulls).0;
    VisitOrderOnce(pull, step.visits);
    mid := VisitAll(pull, step.visits).0;
  }

  /** The copy of an item that waits in the buffer. */
  predicate HasCopy(g: Gossiper, x: Item, state: MCState) {
    x in g.incoming && g.incoming[x].s.state == state
  }

  /** A copy in state B that is at least as far as the node's own. */
  predicate HasAheadCopy(g: Gossiper, x: Item) {
    x in g.list && HasCopy(g, x, B) && g.incoming[x].s.counter >= g.list[x].s.counter
  }

  /** An active item through the three parts of a round. */
  lemma RoundItem(g: Gossiper, step: GossipStep, x: Item, aged: ItemState, told: ItemState)
    requires Inv(g) && step.Round? && Enabled(g, step) && x in g.list && !Retires(g.list[x], g.cfg.cMax)
    requires aged == Aged(g.list[x].s, g.cfg.cMax).0
    requires told == if x in g.incoming then Updated(aged, g.incoming[x].s) else aged
    ensures var g1 := RoundStep(g, step).0;
      x in g1.list && g1.list[x] == g.list[x].(s := Judged(told, g.cfg.bMax))
  {
    hide Aged, Updated, Judged, VisitAll, RoundStep;
    var push, pull, mid := RoundSplit(g, step);
    PushKeeps(g, step.pushes, push, x);
    OrderVisits(pull, step.visits, x);
    if x in g.incoming {
      VisitedActive(pull, step.visits, x);
    } else {
      UnvisitedActive(pull, step.visits, x);
    }
  }

  lemma PushKeeps(g: Gossiper, order: seq<Item>, push: Gossiper, x: Item)
    requires Inv(g) && Enumerates(order, g.list.Keys) && x in g.list && !Retires(g.list[x], g.cfg.cMax)
    requires (forall y :: y in order ==> y in g.list) && push == PushRound(g, order).0
    ensures x in push.list && push.list[x] == g.list[x].(s := Aged(g.list[x].s, g.cfg.cMax).0)
    ensures x !in push.oldList
  {
    hide Aged, PushOut, ReleaseOut, InBounds;
  }

  lemma AgedState(cfg: Config, s: ItemState)
    requires ValidConfig(cfg) && Settled(cfg, s) && !Aged(s, cfg.cMax).1
    ensures var a := Aged(s, cfg.cMax).0;
      && 2 <= s.ttl && a.ttl == s.ttl - 1 && a.state == s.state && a.medianRule == 0
      && (s.state == B ==> a.counter == s.counter < 255)
      && (s.state == C ==> s.counter < 255 && a.counter == s.counter + 1)
  {
  }

  lemma NoRetirement(cfg: Config, s: ItemState)
    requires ValidConfig(cfg) && Settled(cfg, s) && s.state == B && s.ttl > 1
    ensures !Aged(s, cfg.cMax).1
  {
  }

  lemma RuleAlone(s: ItemState, bMax: uint8)
    requires s.medianRule == 0
    ensures Judged(s, bMax) == s
  {
  }

  lemma RuleWithCopy(s: ItemState, copy: ItemState, bMax: uint8)
    requires s.state == B && s.medianRule == 0 && s.counter < 255
    ensures var s1 := Judged(Updated(s, copy), bMax);
      && (copy.state == D || (copy.state == B && copy.counter < s.counter) ==> s1 == s)
      && (copy.state == C ==> s1.state == C && s1.counter == 0)
      && (copy.state == B && copy.counter >= s.counter ==>
            if s.counter + 1 == bMax then s1.state == C && s1.counter == 0
            else s1.state == B && s1.counter == s.counter + 1)
  {
  }

  /** The median rule over a whole round, for an item in state B that does not retire: a copy
      in state C makes it follow; a copy in state B that is at least as far adds one to its
      counter, which takes it to state C at the threshold; any other copy, or none, leaves
      it where it is. */
  lemma MedianRule(g: Gossiper, step: GossipStep, x: Item)
    requires Inv(g) && step.Round? && Enabled(g, step) && x in g.list && g.list[x].s.state == B
    requires g.list[x].s.ttl > 1
    ensures x in RoundStep(g, step).0.list
    ensures var k, s1 := g.list[x].s.counter as int, RoundStep(g, step).0.list[x].s;
      && (s1.state == C <==> HasCopy(g, x, C) || (HasAheadCopy(g, x) && k + 1 == g.cfg.bMax as int))
      && (s1.state == B <==> s1.state != C)
      && (s1.state == C ==> s1.counter == 0)
      && (s1.state == B ==> s1.counter as int == if HasAheadCopy(g, x) then k + 1 else k)
  {
    hide RoundStep, Judged, Updated, Aged;
    var s, cfg := g.list[x].s, g.cfg;
    assert Settled(cfg, s);
    NoRetirement(cfg, s);
    var aged := Aged(s, cfg.cMax).0;
    AgedState(cfg, s);
    if x in g.incoming {
      RuleWithCopy(aged, g.incoming[x].s, cfg.bMax);
      RoundItem(g, step, x, aged, Updated(aged, g.incoming[x].s));
    } else {
      RuleAlone(aged, cfg.bMax);
      RoundItem(g, step, x, aged, aged);
    }
  }

  /** What a round leaves of an item that does not retire, apart from state and counter. */
  lemma RoundAges(g: Gossiper, step: GossipStep, x: Item)
    requires Inv(g) && step.Round? && Enabled(g, step) && x in g.list && x in RoundStep(g, step).0.list
    ensures var i, i1 := g.list[x], RoundStep(g, step).0.list[x];
      && i1.peerList == i.peerList && i1.s.ttl as int == i.s.ttl as int - 1 && i1.s.medianRule == 0
      && (i.s.state == C ==> i1.s.state == C && i1.s.counter as int == i.s.counter as int + 1)
  {
    hide RoundStep;
    var g1 := RoundStep(g, step).0;
    RoundInv(g, step, g1);
    assert Settled(g.cfg, g.list[x].s) && Settled(g1.cfg, g1.list[x].s);
    var aged := Aged(g.list[x].s, g.cfg.cMax).0;
    RoundItem(g, step, x, aged, if x in g.incoming then Updated(aged, g.incoming[x].s) else aged);
  }

  // ---- The median rule over runs ---------------------------------------------------

  /** Rounds of a run in which a copy at least as far as the node's own had come in. */
  ghost function Advances(g: Gossiper, steps: seq<GossipStep>, x: Item): nat
    requires IsRun(g, steps)
    decreases |steps|
  {
    if steps == [] then 0
    else
      (if steps[0].Round? && HasAheadCopy(g, x) then 1 else 0) + Advances(Next(g, steps[0]).0, steps[1..], x)
  }

  /** In some round of the run a copy in state C had come in. */
  ghost predicate Overruled(g: Gossiper, steps: seq<GossipStep>, x: Item)
    requires IsRun(g, steps)
    decreases |steps|
  {
    steps != [] && ((steps[0].Round? && HasCopy(g, x, C)) || Overruled(Next(g, steps[0]).0, steps[1..], x))
  }

  /** While an item stays in state B its counter counts exactly the rounds with such copies,
      none of which was in state C. */
  lemma {:induction false} CounterCountsCopies(g: Gossiper, steps: seq<GossipStep>, x: Item)
    requires Inv(g) && IsRun(g, steps) && StaysActive(g, steps, x)
    requires x in After(g, steps).list && After(g, steps).list[x].s.state == B
    ensures g.list[x].s.state == B && !Overruled(g, steps, x)
    ensures After(g, steps).list[x].s.counter as int == g.list[x].s.counter as int + Advances(g, steps, x)
    decreases |steps|
  {
    hide Next, Enabled, HasAheadCopy, HasCopy;
    ActiveLifetime(g, steps, x);
    if steps != [] {
      var g1 := Next(g, steps[0]).0;
      StepInv(g, steps[0]);
      CounterCountsCopies(g1, steps[1..], x);
      StepInB(g, steps[0], x, g1);
    }
  }

  lemma StepInB(g: Gossiper, step: GossipStep, x: Item, g1: Gossiper)
    requires Inv(g) && Enabled(g, step) && g1 == Next(g, step).0
    requires x in g.list && x in g1.list && g1.list[x].s.state == B
    ensures g.list[x].s.state == B && !(step.Round? && HasCopy(g, x, C))
    ensures g1.list[x].s.counter as int
      == g.list[x].s.counter as int + if step.Round? && HasAheadCopy(g, x) then 1 else 0
  {
    hide RoundStep, HandleStep, HasAheadCopy, HasCopy;
    StepOnActive(g, step, x);
    if step.Round? {
      assert Settled(g.cfg, g.list[x].s) && Settled(g1.cfg, g1.list[x].s);
      MedianRule(g, step, x);
    }
  }
}
