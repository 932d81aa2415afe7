/** One round of the sampler table: new samplers are created, all are fed, and those that
    changed their mind move to the set of the peer they sample now. */
module SampleTables {
  import opened Types
  import opened MembershipModel
  import PeerSamplers

  type Sampler = PeerSamplers.PeerSampler
  type Permuter = PeerSamplers.Permuter

  /** The table holds exactly these samplers, each under its peer. */
  ghost predicate Holds(m: map<Peer, set<Sampler>>, ss: set<Sampler>)
    reads ss
  {
    && (forall s :: s in ss ==> s.peer.Some? && s.peer.value in m && s in m[s.peer.value])
    && (forall p, s {:trigger s in m[p]} :: p in m && s in m[p] ==> s in ss && s.peer == Some(p))
  }

  /** In addition the samplers are in order and no set is empty. */
  ghost predicate Keyed(m: map<Peer, set<Sampler>>, ss: set<Sampler>)
    reads ss
  {
    Holds(m, ss) && (forall s :: s in ss ==> s.Valid()) && {} !in m.Values
  }

  lemma HoldsDisjoint(m: map<Peer, set<Sampler>>, ss: set<Sampler>)
    requires Holds(m, ss)
    ensures PairwiseDisjoint(m)
  {
    forall j, k | j in m && k in m && j != k ensures m[j] !! m[k] {
      assert forall s :: s in m[j] ==> s.peer == Some(j);
    }
  }

  /** So the sets are pairwise disjoint and their sizes add up. */
  lemma HoldsSizes(m: map<Peer, set<Sampler>>, ss: set<Sampler>)
    requires Holds(m, ss)
    ensures PairwiseDisjoint(m) && ss == UnionOf(m) && SizeSum(m) == |ss|
  {
    HoldsDisjoint(m, ss);
    assert ss == UnionOf(m);
    SizesAddUp(m);
  }

  lemma KeyedWithout(m: map<Peer, set<Sampler>>, ss: set<Sampler>, p: Peer)
    requires Keyed(m, ss) && p in m
    ensures Keyed(m - {p}, ss - m[p])
  {
  }

  lemma HoldsSize(m: map<Peer, set<Sampler>>, ss: set<Sampler>)
    requires Holds(m, ss)
    ensures SizeSum(m) == |ss|
  {
    HoldsSizes(m, ss);
  }

  /** New samplers add to the sizes of the sets, wherever they and the others end up. */
  lemma SizesGrow(m: map<Peer, set<Sampler>>, ss: set<Sampler>, created: set<Sampler>, size: nat)
    requires Holds(m, ss + created) && ss !! created && size == |ss|
    ensures SizeSum(m) == size + |created|
  {
    HoldsSizes(m, ss + created);
  }

  // ---- Feeding ---------------------------------------------------------------------

  /** Feeds every sampler of one set; returns those that sample another peer now. */
  method FeedSet(ss: set<Sampler>, peers: set<Peer>) returns (moved: set<Sampler>)
    requires forall s :: s in ss ==> s.Valid() && s.peer.Some?
    modifies ss
    ensures forall s :: s in ss ==> s.Valid() && s.peer.Some? && s.history == old(s.history) + peers
    ensures moved == set s | s in ss && s.peer != old(s.peer)
  {
    moved := {};
    var rest := ss;
    while rest != {}
      invariant rest <= ss
      invariant forall s :: s in rest ==> s.Valid() && s.peer == old(s.peer) && s.history == old(s.history)
      invariant forall s :: s in ss - rest ==> s.Valid() && s.peer.Some? && s.history == old(s.history) + peers
      invariant moved == set s | s in ss - rest && s.peer != old(s.peer)
      decreases rest
    {
      var s :| s in rest;
      var ok := s.NextSet(peers);
      if ok {
        moved := moved + {s};
      }
      rest := rest - {s};
    }
  }

  /** The table without the samplers that moved away, and which of the sets gone through
      are left empty. */
  ghost predicate Without(m: map<Peer, set<Sampler>>, moved: set<Sampler>, m1: map<Peer, set<Sampler>>,
                          done: set<Peer>, emptied: set<Peer>) {
    && m1.Keys == m.Keys && (forall p :: p in m ==> m1[p] == m[p] - moved)
    && emptied == set p | p in done && p in m1 && m1[p] == {}
  }

  /** Going through one more set concerns no other, since the sets are disjoint. */
  lemma WithoutMore(m: map<Peer, set<Sampler>>, moved: set<Sampler>, m1: map<Peer, set<Sampler>>, done: set<Peer>,
                    emptied: set<Peer>, p: Peer, away: set<Sampler>)
    requires PairwiseDisjoint(m) && Without(m, moved, m1, done, emptied)
    requires p in m && p !in done && away <= m[p] && moved !! m[p]
    ensures Without(m, moved + away, m1[p := m[p] - away], done + {p},
      if m[p] - away == {} then emptied + {p} else emptied)
  {
    forall q | q in m && q != p ensures m[q] - (moved + away) == m[q] - moved {
      assert m[q] !! away;
    }
    assert m[p] - (moved + away) == m[p] - away;
  }

  /** Feeds the samplers of all sets, set by set. */
  method FeedAll(m: map<Peer, set<Sampler>>, ghost ss: set<Sampler>, peers: set<Peer>)
      returns (m1: map<Peer, set<Sampler>>, moved: set<Sampler>, toRemove: set<Peer>)
    requires Holds(m, ss) && forall s :: s in ss ==> s.Valid()
    modifies ss
    ensures forall s :: s in ss ==> s.Valid() && s.peer.Some? && s.history == old(s.history) + peers
    ensures moved == set s | s in ss && s.peer != old(s.peer)
    ensures Without(m, moved, m1, m.Keys, toRemove)
  {
    m1, moved, toRemove := m, {}, {};
    var rest := m.Keys;
    ghost var done: set<Peer> := {};
    HoldsDisjoint(m, ss);
    while rest != {}
      invariant rest + done == m.Keys && rest !! done
      invariant forall s :: s in ss ==> s.Valid() && s.peer.Some?
      invariant forall s :: s in ss && old(s.peer.value) in rest ==>
        s.peer == old(s.peer) && s.history == old(s.history)
      invariant forall s :: s in ss && old(s.peer.value) !in rest ==> s.history == old(s.history) + peers
      invariant moved == set s | s in ss && s.peer != old(s.peer)
      invariant Without(m, moved, m1, done, toRemove)
      decreases rest
    {
      var p :| p in rest;
      assert forall s :: s in m[p] <==> s in ss && old(s.peer.value) == p;
      label before:
      var away := FeedSet(m[p], peers);
      assert unchanged@before(ss - m[p]);
      WithoutMore(m, moved, m1, done, toRemove, p, away);
      m1, moved := m1[p := m[p] - away], moved + away;
      if m1[p] == {} {
        toRemove := toRemove + {p};
      }
      rest, done := rest - {p}, done + {p};
    }
    assert done == m.Keys;
  }

  // ---- Creating and regrouping -----------------------------------------------------

  /** Attempts that yield a permuter; the others fail for want of random bytes. */
  function Successes(permuters: seq<Option<Permuter>>): nat {
    if permuters == [] then 0
    else Successes(permuters[..|permuters| - 1]) + if permuters[|permuters| - 1].Some? then 1 else 0
  }

  ghost predicate Started(s: Sampler, peers: set<Peer>)
    reads s
  {
    s.Valid() && s.peer.Some? && s.history == peers
  }

  /** New samplers that sampled a peer; none if there is no peer to feed them. */
  method Create(permuters: seq<Option<Permuter>>, peers: set<Peer>) returns (created: set<Sampler>)
    ensures fresh(created) && forall s :: s in created ==> Started(s, peers)
    ensures |created| == if peers == {} then 0 else Successes(permuters)
  {
    created := {};
    for i := 0 to |permuters|
      invariant fresh(created) && forall s :: s in created ==> Started(s, peers)
      invariant |created| == if peers == {} then 0 else Successes(permuters[..i])
    {
      assert permuters[..i + 1][..i] == permuters[..i];
      if permuters[i].Some? {
        var s := new PeerSamplers.PeerSampler(permuters[i].value);
        var ok := s.NextSet(peers);
        if ok {
          created := created + {s};
        }
      }
    }
    assert permuters[..|permuters|] == permuters;
  }

  /** Puts every sampler into the set of the peer that it samples now. */
  method Regroup(m: map<Peer, set<Sampler>>, ghost ss: set<Sampler>, moved: set<Sampler>)
      returns (m1: map<Peer, set<Sampler>>)
    requires Holds(m, ss) && {} !in m.Values && forall s :: s in moved ==> s.peer.Some?
    ensures Holds(m1, ss + moved) && {} !in m1.Values
  {
    m1 := m;
    var rest := moved;
    while rest != {}
      invariant rest <= moved
      invariant Holds(m1, ss + (moved - rest)) && {} !in m1.Values
      decreases rest
    {
      var s :| s in rest;
      var p := s.Sample();
      if p !in m1 {
        m1 := m1[p := {s}];
      } else {
        m1 := m1[p := m1[p] + {s}];
      }
      rest := rest - {s};
      assert ss + (moved - rest) == ss + (moved - (rest + {s})) + {s};
    }
    assert moved - rest == moved;
  }

  /** Samplers that stayed where they were are still under the peer they sample. */
  lemma HoldsRest(m: map<Peer, set<Sampler>>, ss: set<Sampler>, moved: set<Sampler>, m1: map<Peer, set<Sampler>>,
        emptied: set<Peer>)
    requires Without(m, moved, m1, m.Keys, emptied)
    requires forall s :: s in ss - moved ==> s.peer.Some? && s.peer.value in m && s in m[s.peer.value]
    requires forall p, s {:trigger s in m[p]} :: p in m && s in m[p] ==> s in ss && (s in moved || s.peer == Some(p))
    ensures Holds(m1 - emptied, ss - moved) && {} !in (m1 - emptied).Values
  {
    forall s | s in ss - moved ensures s.peer.value in m1 - emptied && s in (m1 - emptied)[s.peer.value] {
      assert s in m1[s.peer.value];
    }
    forall p | p in m1 - emptied ensures (m1 - emptied)[p] == m1[p] != {} {
    }
  }

  /** Feeds all samplers, drops the sets left empty, and puts samplers that moved back. */
  method Migrate(m: map<Peer, set<Sampler>>, ghost ss: set<Sampler>, created: set<Sampler>, peers: set<Peer>)
      returns (m1: map<Peer, set<Sampler>>)
    requires Keyed(m, ss) && created !! ss && forall s :: s in created ==> s.Valid() && s.peer.Some?
    modifies ss
    ensures Keyed(m1, ss + created)
    ensures forall s :: s in ss ==> s.history == old(s.history) + peers
  {
    var fed, moved, emptied := FeedAll(m, ss, peers);
    assert forall s :: s in ss - moved ==> s.peer == old(s.peer);
    HoldsRest(m, ss, moved, fed, emptied);
    m1 := Regroup(fed - emptied, ss - moved, created + moved);
    assert ss - moved + (created + moved) == ss + created;
  }

  /** In addition, new samplers add to the sizes of the sets wherever they end up. */
  method MigrateAll(m: map<Peer, set<Sampler>>, ghost ss: set<Sampler>, created: set<Sampler>, peers: set<Peer>)
      returns (m1: map<Peer, set<Sampler>>)
    requires Keyed(m, ss) && created !! ss && forall s :: s in created ==> s.Valid() && s.peer.Some?
    modifies ss
    ensures Keyed(m1, ss + created) && SizeSum(m1) == SizeSum(m) + |created|
    ensures forall s :: s in ss ==> s.history == old(s.history) + peers
  {
    ghost var size := SizeSum(m);
    HoldsSize(m, ss);
    m1 := Migrate(m, ss, created, peers);
    SizesGrow(m1, ss, created, size);
  }

  lemma {:induction false} SuccessesBound(permuters: seq<Option<Permuter>>)
    ensures Successes(permuters) <= |permuters|
  {
    if permuters != [] {
      SuccessesBound(permuters[..|permuters| - 1]);
    }
  }
}
