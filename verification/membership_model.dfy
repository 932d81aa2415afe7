/** What the Membership controller's messages and sampler table mean, on values. */
module MembershipModel {
  import opened Types
  import opened Messages

  // ---- The command log -------------------------------------------------------------

  /** The view that a recipient of these messages builds up from nothing. */
  function Replay(log: seq<Msg>): set<Peer> {
    if log == [] then {} else Played(Replay(log[..|log| - 1]), log[|log| - 1])
  }

  function Played(view: set<Peer>, m: Msg): set<Peer> {
    if m.PeerAdd? then view + {m.peer} else if m.PeerRemove? then view - {m.peer} else view
  }

  predicate IsViewCommand(m: Msg) {
    m.PeerAdd? || m.PeerRemove?
  }

  lemma ReplaySnoc(log: seq<Msg>, m: Msg)
    ensures Replay(log + [m]) == Played(Replay(log), m)
  {
    assert (log + [m])[..|log|] == log;
  }

  function RemoveMsgs(ps: seq<Peer>): seq<Msg> {
    seq(|ps|, i requires 0 <= i < |ps| => PeerRemove(ps[i], false))
  }

  function AddMsgs(ps: seq<Peer>): seq<Msg> {
    seq(|ps|, i requires 0 <= i < |ps| => PeerAdd(ps[i], false))
  }

  lemma RemoveMsgsSnoc(ps: seq<Peer>, p: Peer)
    ensures RemoveMsgs(ps + [p]) == RemoveMsgs(ps) + [PeerRemove(p, false)]
  {
  }

  lemma AddMsgsSnoc(ps: seq<Peer>, p: Peer)
    ensures AddMsgs(ps + [p]) == AddMsgs(ps) + [PeerAdd(p, false)]
  {
  }

  function PullMsgs(ps: seq<Peer>): seq<Msg> {
    seq(|ps|, i requires 0 <= i < |ps| => MembershipPullRequest(ps[i]))
  }

  function ProbeMsgs(ps: seq<Peer>): seq<Msg> {
    seq(|ps|, i requires 0 <= i < |ps| => ProbePeerRequest(ps[i]))
  }

  /** Push requests to those peers for which the coin and the proof of work turn out well;
      the constructor of a request returns a pointer to it. */
  function PushMsgs(ps: seq<Peer>, made: seq<bool>): seq<Msg>
    requires |ps| == |made|
  {
    if ps == [] then []
    else
      var n := |ps| - 1;
      PushMsgs(ps[..n], made[..n]) + if made[n] then [MembershipPushRequest(ps[n], false)] else []
  }

  lemma PushMore(ps: seq<Peer>, made: seq<bool>, i: nat)
    requires i < |ps| == |made|
    ensures PushMsgs(ps[..i + 1], made[..i + 1])
         == PushMsgs(ps[..i], made[..i]) + if made[i] then [MembershipPushRequest(ps[i], false)] else []
  {
    assert ps[..i + 1][..i] == ps[..i] && made[..i + 1][..i] == made[..i];
  }

  /** Drawn peers for which the coin and the proof of work turn out well are sent one request each,
      the others none. */
  lemma {:induction false} PushedWhereMade(ps: seq<Peer>, made: seq<bool>, i: nat)
    requires |ps| == |made| && Distinct(ps) && i < |ps|
    ensures multiset(PushMsgs(ps, made))[MembershipPushRequest(ps[i], false)] == if made[i] then 1 else 0
    ensures forall m :: m in PushMsgs(ps, made) ==> m.MembershipPushRequest? && !m.isValue && m.to in ps
  {
    var n := |ps| - 1;
    var rest, last := PushMsgs(ps[..n], made[..n]), if made[n] then [MembershipPushRequest(ps[n], false)] else [];
    NotPushed(ps[..n], made[..n], ps[n]);
    NotPushed(ps, made, Peer(""));
    if i < n {
      PushedWhereMade(ps[..n], made[..n], i);
    }
    assert PushMsgs(ps, made) == rest + last;
  }

  lemma {:induction false} NotPushed(ps: seq<Peer>, made: seq<bool>, p: Peer)
    requires |ps| == |made|
    ensures p !in ps ==> MembershipPushRequest(p, false) !in PushMsgs(ps, made)
    ensures forall m :: m in PushMsgs(ps, made) ==> m.MembershipPushRequest? && !m.isValue && m.to in ps
  {
    if ps != [] {
      var n := |ps| - 1;
      assert ps == ps[..n] + [ps[n]];
      NotPushed(ps[..n], made[..n], p);
    }
  }

  lemma PullMsgsSnoc(ps: seq<Peer>, p: Peer)
    ensures PullMsgs(ps + [p]) == PullMsgs(ps) + [MembershipPullRequest(p)]
  {
  }

  lemma PullMore(draw: seq<Peer>, i: nat)
    requires i < |draw|
    ensures PullMsgs(draw[..i + 1]) == PullMsgs(draw[..i]) + [MembershipPullRequest(draw[i])]
    ensures ToSet(draw[..i + 1]) == ToSet(draw[..i]) + {draw[i]}
  {
    assert draw[..i + 1] == draw[..i] + [draw[i]];
    PullMsgsSnoc(draw[..i], draw[i]);
  }

  lemma ProbeMsgsSnoc(ps: seq<Peer>, p: Peer)
    ensures ProbeMsgs(ps + [p]) == ProbeMsgs(ps) + [ProbePeerRequest(p)]
  {
  }

  /** Peers at some distinct random positions of an indexed collection. */
  ghost predicate IsDraw(draw: seq<Peer>, most: nat, from: set<Peer>) {
    Distinct(draw) && |draw| == Min(most, |from|) && forall p :: p in draw ==> p in from
  }

  lemma {:induction false} ReplayRemoves(log: seq<Msg>, ps: seq<Peer>)
    ensures Replay(log + RemoveMsgs(ps)) == Replay(log) - ToSet(ps)
  {
    if ps == [] {
      assert log + RemoveMsgs(ps) == log;
    } else {
      var n := |ps| - 1;
      assert ps == ps[..n] + [ps[n]];
      RemoveMsgsSnoc(ps[..n], ps[n]);
      ReplayRemoves(log, ps[..n]);
      assert log + RemoveMsgs(ps) == log + RemoveMsgs(ps[..n]) + [PeerRemove(ps[n], false)];
      ReplaySnoc(log + RemoveMsgs(ps[..n]), PeerRemove(ps[n], false));
    }
  }

  lemma {:induction false} ReplayAdds(log: seq<Msg>, ps: seq<Peer>)
    ensures Replay(log + AddMsgs(ps)) == Replay(log) + ToSet(ps)
  {
    if ps == [] {
      assert log + AddMsgs(ps) == log;
    } else {
      var n := |ps| - 1;
      assert ps == ps[..n] + [ps[n]];
      AddMsgsSnoc(ps[..n], ps[n]);
      ReplayAdds(log, ps[..n]);
      assert log + AddMsgs(ps) == log + AddMsgs(ps[..n]) + [PeerAdd(ps[n], false)];
      ReplaySnoc(log + AddMsgs(ps[..n]), PeerAdd(ps[n], false));
    }
  }

  /** Removing one difference and adding the other turns one view into the other. */
  lemma ReplayReplaces(log: seq<Msg>, view: set<Peer>, next: set<Peer>, removed: seq<Peer>, added: seq<Peer>)
    requires Replay(log) == view
    requires Enumerates(removed, view - next) && Enumerates(added, next - view)
    ensures Replay(log + RemoveMsgs(removed) + AddMsgs(added)) == next
  {
    ReplayRemoves(log, removed);
    ReplayAdds(log + RemoveMsgs(removed), added);
    assert ToSet(removed) == view - next && ToSet(added) == next - view;
  }

  lemma {:induction false} ReplayOthers(log: seq<Msg>, others: seq<Msg>)
    requires forall m :: m in others ==> !IsViewCommand(m)
    ensures Replay(log + others) == Replay(log)
  {
    if others == [] {
      assert log + others == log;
    } else {
      var n := |others| - 1;
      assert log + others == log + others[..n] + [others[n]];
      ReplaySnoc(log + others[..n], others[n]);
      ReplayOthers(log, others[..n]);
      assert !IsViewCommand(others[n]);
    }
  }

  // ---- All sequences of changes ----------------------------------------------------

  /** What the Membership controller does to its view and its log: it replaces the view,
      forgets a peer that went down, or sends other messages. */
  datatype ViewChange =
    | Replaced(next: set<Peer>, removed: seq<Peer>, added: seq<Peer>)
    | Forgotten(peer: Peer)
    | OtherSent(ms: seq<Msg>)

  ghost predicate Allowed(view: set<Peer>, change: ViewChange) {
    match change
    case Replaced(next, removed, added) => Enumerates(removed, view - next) && Enumerates(added, next - view)
    case Forgotten(_) => true
    case OtherSent(ms) => forall m :: m in ms ==> !IsViewCommand(m)
  }

  function ChangedView(view: set<Peer>, change: ViewChange): set<Peer> {
    match change
    case Replaced(next, _, _) => next
    case Forgotten(p) => view - {p}
    case OtherSent(_) => view
  }

  function ChangedLog(log: seq<Msg>, view: set<Peer>, change: ViewChange): seq<Msg> {
    match change
    case Replaced(_, removed, added) => log + RemoveMsgs(removed) + AddMsgs(added)
    case Forgotten(p) => if p in view then log + [PeerRemove(p, false)] else log
    case OtherSent(ms) => log + ms
  }

  ghost predicate AllAllowed(view: set<Peer>, changes: seq<ViewChange>)
    decreases |changes|
  {
    changes == [] || (Allowed(view, changes[0]) && AllAllowed(ChangedView(view, changes[0]), changes[1..]))
  }

  function FinalView(view: set<Peer>, changes: seq<ViewChange>): set<Peer>
    decreases |changes|
  {
    if changes == [] then view else FinalView(ChangedView(view, changes[0]), changes[1..])
  }

  function FinalLog(log: seq<Msg>, view: set<Peer>, changes: seq<ViewChange>): seq<Msg>
    decreases |changes|
  {
    if changes == [] then log
    else FinalLog(ChangedLog(log, view, changes[0]), ChangedView(view, changes[0]), changes[1..])
  }

  lemma ChangeReplays(log: seq<Msg>, view: set<Peer>, change: ViewChange)
    requires Replay(log) == view && Allowed(view, change)
    ensures Replay(ChangedLog(log, view, change)) == ChangedView(view, change)
  {
    match change
    case Replaced(next, removed, added) => ReplayReplaces(log, view, next, removed, added);
    case Forgotten(p) =>
      ReplaySnoc(log, PeerRemove(p, false));
      if p !in view {
        assert view - {p} == view;
      }
    case OtherSent(ms) => ReplayOthers(log, ms);
  }

  /** After any sequence of changes, replaying the whole log on nothing gives the view. */
  lemma {:induction false} LogYieldsView(log: seq<Msg>, view: set<Peer>, changes: seq<ViewChange>)
    requires Replay(log) == view && AllAllowed(view, changes)
    ensures Replay(FinalLog(log, view, changes)) == FinalView(view, changes)
    decreases |changes|
  {
    if changes != [] {
      ChangeReplays(log, view, changes[0]);
      LogYieldsView(ChangedLog(log, view, changes[0]), ChangedView(view, changes[0]), changes[1..]);
    }
  }

  lemma ToSetSnoc(view: set<Peer>, draw: seq<Peer>, i: nat)
    requires i < |draw|
    ensures view + ToSet(draw[..i + 1]) == view + ToSet(draw[..i]) + {draw[i]}
    ensures |view + ToSet(draw[..i + 1])| <= |view + ToSet(draw[..i])| + 1
  {
    assert draw[..i + 1] == draw[..i] + [draw[i]];
    var before, after := view + ToSet(draw[..i]), view + ToSet(draw[..i + 1]);
    assert after == before + {draw[i]};
  }

  // ---- The sampler table -----------------------------------------------------------

  /** All elements of the sets in a table. */
  ghost function UnionOf<K, T>(m: map<K, set<T>>): set<T> {
    set k, x | k in m && x in m[k] :: x
  }

  ghost predicate PairwiseDisjoint<K, T>(m: map<K, set<T>>) {
    forall j, k :: j in m && k in m && j != k ==> m[j] !! m[k]
  }

  /** Sum of the sizes of the sets in a table. */
  ghost function SizeSum<K, T>(m: map<K, set<T>>): nat
    decreases |m|
  {
    if m == map[] then 0
    else
      var k :| k in m;
      |m[k]| + SizeSum(m - {k})
  }

  /** A set taken out of the table takes exactly its elements out of the union. */
  lemma UnionWithout<K, T>(m: map<K, set<T>>, k: K)
    requires PairwiseDisjoint(m) && k in m
    ensures UnionOf(m - {k}) == UnionOf(m) - m[k] && m[k] <= UnionOf(m)
    ensures |UnionOf(m - {k})| == |UnionOf(m)| - |m[k]|
    ensures PairwiseDisjoint(m - {k})
  {
    forall x ensures x in UnionOf(m - {k}) <==> x in UnionOf(m) - m[k] {
      if x in UnionOf(m) - m[k] {
        var j :| j in m && x in m[j];
        assert j in m - {k};
      }
    }
    assert UnionOf(m - {k}) == UnionOf(m) - m[k];
  }

  lemma {:induction false} SizeSumWithout<K, T>(m: map<K, set<T>>, k: K)
    requires k in m
    ensures SizeSum(m) == |m[k]| + SizeSum(m - {k})
    decreases |m|
  {
    var j :| j in m && SizeSum(m) == |m[j]| + SizeSum(m - {j});
    if j != k {
      SizeSumWithout(m - {j}, k);
      SizeSumWithout(m - {k}, j);
      assert m - {j} - {k} == m - {k} - {j};
    }
  }

  /** What the sampler table stores in all is the sum of what its sets store. */
  lemma {:induction false} SizesAddUp<K, T>(m: map<K, set<T>>)
    requires PairwiseDisjoint(m)
    ensures SizeSum(m) == |UnionOf(m)|
    decreases |m|
  {
    if m == map[] {
      assert UnionOf(m) == {};
    } else {
      var k :| k in m && SizeSum(m) == |m[k]| + SizeSum(m - {k});
      UnionWithout(m, k);
      SizesAddUp(m - {k});
    }
  }
}
