/** The Central controller's account of what the Membership controller has ordered is the view
    that the Membership controller's own messages describe. */
module NodeReplay {
  import opened Types
  import opened Messages
  import opened MembershipModel
  import opened CentralModel
  import opened CentralLifecycle
  import opened Node
  import opened NodeAccounting
  import opened NodeView
  import opened NodeOrders
  import opened NodeTheorems
  import opened NodeLeaks

  predicate IsMembershipOrder(m: Msg) {
    IsViewCommand(m) && !m.self
  }

  /** The commands that the Membership controller sends during these steps. */
  function OrdersSent(steps: seq<Step>): seq<Msg> {
    if steps == [] then [] else OrderSent(steps[0]) + OrdersSent(steps[1..])
  }

  function OrderSent(step: Step): seq<Msg> {
    if step.Environment? && IsMembershipOrder(step.m) then [step.m] else []
  }

  /** A view after the commands that wait in a queue. */
  function AfterOrders(view: set<Peer>, q: seq<Msg>): set<Peer>
    decreases |q|
  {
    if q == [] then view else AfterOrders(if IsMembershipOrder(q[0]) then Played(view, q[0]) else view, q[1..])
  }

  lemma {:induction false} AfterOrdersMore(view: set<Peer>, q: seq<Msg>, m: Msg)
    ensures AfterOrders(view, q + [m])
      == if IsMembershipOrder(m) then Played(AfterOrders(view, q), m) else AfterOrders(view, q)
    decreases |q|
  {
    if q == [] {
      assert q + [m] == [m] && [m][1..] == [];
    } else {
      assert (q + [m])[1..] == q[1..] + [m];
      AfterOrdersMore(if IsMembershipOrder(q[0]) then Played(view, q[0]) else view, q[1..], m);
    }
  }

  lemma {:induction false} AfterOrdersSelf(view: set<Peer>, q: seq<Msg>, self: seq<Msg>)
    requires |self| <= 1 && forall m :: m in self ==> !IsMembershipOrder(m)
    ensures AfterOrders(view, q + self) == AfterOrders(view, q)
  {
    if self == [] {
      assert q + self == q;
    } else {
      assert self == [self[0]];
      AfterOrdersMore(view, q, self[0]);
    }
  }

  /** For one peer only the last command waiting for it counts. */
  lemma {:induction false} AfterOrdersLatest(view: set<Peer>, q: seq<Msg>, p: Peer)
    ensures p in AfterOrders(view, q) <==> LatestOrder(q, p).UnwrapOr(p in view)
    decreases |q|
  {
    if q != [] {
      AfterOrdersLatest(if IsMembershipOrder(q[0]) then Played(view, q[0]) else view, q[1..], p);
    }
  }

  // ---- Steps -----------------------------------------------------------------------

  /** The view that the commands sent so far add up to. */
  function Announced(n: Node): set<Peer> {
    AfterOrders(n.ordered, n.inbox)
  }

  lemma TurnAnnounced(n: Node, draw: seq<Peer>, n1: Node)
    requires Invariant(n) && n.inbox != [] && n1 == AfterTurn(n, draw) && n1.status != Crashed
    requires !n.c.stopping && !n1.c.stopping
    ensures Announced(n1) == Announced(n)
  {
    var r := Turn(n.c, n.inbox[0], draw);
    TurnTook(n, draw, r, n1);
    TurnEffect(n, draw, r);
    TurnLives(n, draw, r);
    TurnRecollects(n, draw, r, n1);
    TookAnnounced(n, r, n1);
  }

  lemma TookAnnounced(n: Node, r: Reply, n1: Node)
    requires !n.c.stopping && Recollects(n, r, n1) && Corrects(n.c, n.inbox[0], r.self)
    ensures Announced(n1) == Announced(n)
  {
    AfterOrdersSelf(n1.ordered, n.inbox[1..], r.self);
  }

  /** The view changes as the message sent in this step, if any, says. */
  ghost predicate Announces(n: Node, sent: seq<Msg>, n1: Node) {
    && (sent == [] ==> Announced(n1) == Announced(n))
    && (sent != [] ==> sent == [sent[0]] && Announced(n1) == Played(Announced(n), sent[0]))
  }

  lemma AppendedAnnounced(n: Node, more: seq<Msg>, n1: Node)
    requires n1.inbox == n.inbox + more && n1.ordered == n.ordered && |more| <= 1
    ensures Announces(n, if more != [] && IsMembershipOrder(more[0]) then more else [], n1)
  {
    if more == [] {
      assert n1.inbox == n.inbox;
    } else {
      assert more == [more[0]];
      AfterOrdersMore(n.ordered, n.inbox, more[0]);
    }
  }

  lemma StepAnnounced(n: Node, step: Step, n1: Node)
    requires Invariant(n) && Enabled(n, step) && n1 == Next(n, step) && n1.status != Crashed
    requires !n.c.stopping && !n1.c.stopping
    ensures Announces(n, OrderSent(step), n1)
  {
    hide ViewFollows, OrdersFollow, RoutinesMatch, DialsMatch, SubsMatch, ClosesWhenAsked, QueuesOk, AfterTurn,
      AfterGossip, Announced, IsMembershipOrder;
    if step.CentralTurn? {
      TurnAnnounced(n, step.draw, n1);
    } else {
      var more := OtherStepAppends(n, step, n1);
      AppendedAnnounced(n, more, n1);
      SentIsAppended(step, more);
    }
  }

  lemma SentIsAppended(step: Step, more: seq<Msg>)
    requires step.Environment? ==> more == [step.m]
    requires !step.Environment? && more != [] ==> !more[0].PeerAdd? && !more[0].PeerRemove?
    ensures OrderSent(step) == if more != [] && IsMembershipOrder(more[0]) then more else []
  {
  }

  lemma ReplayAnnounced(log: seq<Msg>, n: Node, sent: seq<Msg>, n1: Node)
    requires Replay(log) == Announced(n) && Announces(n, sent, n1)
    ensures Replay(log + sent) == Announced(n1)
  {
    hide Replay, Announced;
    if sent == [] {
      assert log + sent == log;
    } else {
      ReplaySnoc(log, sent[0]);
    }
  }

  lemma {:induction false} RunAnnounced(n: Node, steps: seq<Step>, log: seq<Msg>)
    requires Invariant(n) && IsRun(n, steps) && After(n, steps).status != Crashed && !After(n, steps).c.stopping
    requires Replay(log) == Announced(n)
    ensures Replay(log + OrdersSent(steps)) == Announced(After(n, steps))
    decreases |steps|
  {
    hide Announced, Replay, Announces, OrderSent, Invariant, Next, Enabled;
    if steps == [] {
      assert log + OrdersSent(steps) == log;
    } else {
      var n1, sent, rest := Next(n, steps[0]), OrderSent(steps[0]), steps[1..];
      NotStoppedYet(n, steps);
      StepAnnounced(n, steps[0], n1);
      ReplayAnnounced(log, n, sent, n1);
      RunAnnounced(n1, rest, log + sent);
      assert log + OrdersSent(steps) == log + sent + OrdersSent(rest);
    }
  }

  // ---- Theorems --------------------------------------------------------------------

  lemma NothingAnnounced(n: Node)
    requires Init(n)
    ensures Replay([]) == Announced(n)
  {
  }

  /** With no command for the peer waiting, it counts as ordered exactly if replaying all
      commands of the Membership controller puts it into the view. */
  lemma OrderedIsReplayed(first: Node, steps: seq<Step>, n: Node, p: Peer)
    requires Reaches(first, steps, n) && n.status != Crashed && !n.c.stopping
    requires LatestOrder(n.inbox, p).None?
    ensures p in n.ordered <==> p in Replay(OrdersSent(steps))
  {
    hide Invariant, Replay;
    InitInvariant(first);
    NothingAnnounced(first);
    RunAnnounced(first, steps, []);
    assert [] + OrdersSent(steps) == OrdersSent(steps);
    AfterOrdersLatest(n.ordered, n.inbox, p);
  }

  /** With no command for a peer waiting, the Central controller and the Membership
      controller agree about it if and only if its last command was both overtaken and
      overwritten, or neither. */
  lemma ViewsAgreeIff(first: Node, steps: seq<Step>, n: Node, p: Peer)
    requires Reaches(first, steps, n) && n.status != Crashed && !n.c.stopping
    requires LatestOrder(n.inbox, p).None? && !Pending(n.inbox, p)
    ensures (Intends(PlaceOf(n.c, p)) <==> p in Replay(OrdersSent(steps))) <==> (p in n.overtaken <==> p in n.clobbered)
  {
    OrderedIsReplayed(first, steps, n, p);
    ViewFollowsOrders(n, p);
  }
}
