/** Min-wise sampling: a sampler keeps, of all peers it was ever fed, the one whose
    permuted value is least. The permutation is an arbitrary function of the peer. */
module PeerSamplers {
  import opened Types

  /** The value that a sampler's key gives to each peer. */
  datatype Permuter = Permuter(pval: imap<Peer, nat>) {
    function Value(p: Peer): nat {
      if p in pval then pval[p] else 0
    }
  }

  /** The peer that a sampler holds after one more peer, and whether it accepts it. */
  function Fed(perm: Permuter, cur: Option<Peer>, p: Peer): Option<Peer> {
    if Accepts(perm, cur, p) then Some(p) else cur
  }

  predicate Accepts(perm: Permuter, cur: Option<Peer>, p: Peer) {
    cur.None? || perm.Value(p) < perm.Value(cur.value)
  }

  function FedAll(perm: Permuter, cur: Option<Peer>, ps: seq<Peer>): Option<Peer>
    decreases |ps|
  {
    if ps == [] then cur else FedAll(perm, Fed(perm, cur, ps[0]), ps[1..])
  }

  /** One of the peers is accepted when it is its turn. */
  predicate AcceptsAny(perm: Permuter, cur: Option<Peer>, ps: seq<Peer>)
    decreases |ps|
  {
    ps != [] && (Accepts(perm, cur, ps[0]) || AcceptsAny(perm, Fed(perm, cur, ps[0]), ps[1..]))
  }

  /** The sample of a history of peers. */
  ghost predicate IsLeast(perm: Permuter, history: set<Peer>, r: Option<Peer>) {
    if history == {} then r.None?
    else r.Some? && r.value in history && forall q :: q in history ==> perm.Value(r.value) <= perm.Value(q)
  }

  ghost predicate Injective(perm: Permuter) {
    forall p, q :: perm.Value(p) == perm.Value(q) ==> p == q
  }

  /** Feeding keeps the sample least over the whole history. */
  lemma {:induction false} FeedingKeepsLeast(perm: Permuter, history: set<Peer>, cur: Option<Peer>, ps: seq<Peer>)
    requires IsLeast(perm, history, cur)
    ensures IsLeast(perm, history + ToSet(ps), FedAll(perm, cur, ps))
    decreases |ps|
  {
    if ps == [] {
      assert history + ToSet(ps) == history;
    } else {
      assert ps == [ps[0]] + ps[1..];
      FeedingKeepsLeast(perm, history + {ps[0]}, Fed(perm, cur, ps[0]), ps[1..]);
      assert history + ToSet(ps) == history + {ps[0]} + ToSet(ps[1..]);
    }
  }

  lemma LeastIsUnique(perm: Permuter, history: set<Peer>, a: Option<Peer>, b: Option<Peer>)
    requires Injective(perm) && IsLeast(perm, history, a) && IsLeast(perm, history, b)
    ensures a == b
  {
    if history != {} {
      assert perm.Value(a.value) == perm.Value(b.value);
    }
  }

  /** With an injective permutation only the set of peers fed matters: not their order, nor
      how they were split into batches, nor how often each was fed. */
  lemma SampleIgnoresOrder(perm: Permuter, batches: seq<seq<Peer>>, others: seq<seq<Peer>>)
    requires Injective(perm) && History(batches) == History(others)
    ensures FedBatches(perm, batches) == FedBatches(perm, others)
  {
    BatchesKeepLeast(perm, batches);
    BatchesKeepLeast(perm, others);
    LeastIsUnique(perm, History(batches), FedBatches(perm, batches), FedBatches(perm, others));
  }

  function FedBatches(perm: Permuter, batches: seq<seq<Peer>>): Option<Peer> {
    if batches == [] then None
    else FedAll(perm, FedBatches(perm, batches[..|batches| - 1]), batches[|batches| - 1])
  }

  function History(batches: seq<seq<Peer>>): set<Peer> {
    if batches == [] then {} else History(batches[..|batches| - 1]) + ToSet(batches[|batches| - 1])
  }

  lemma {:induction false} BatchesKeepLeast(perm: Permuter, batches: seq<seq<Peer>>)
    ensures IsLeast(perm, History(batches), FedBatches(perm, batches))
  {
    if batches != [] {
      var n := |batches| - 1;
      BatchesKeepLeast(perm, batches[..n]);
      FeedingKeepsLeast(perm, History(batches[..n]), FedBatches(perm, batches[..n]), batches[n]);
    }
  }

  /** Injectivity is needed: of two peers with the same value the first one stays. */
  lemma TiesDependOnOrder(perm: Permuter, p: Peer, q: Peer)
    requires p != q && perm.Value(p) == perm.Value(q)
    ensures FedAll(perm, None, [p, q]) != FedAll(perm, None, [q, p])
  {
    assert [p, q][1..] == [q] && [q, p][1..] == [p];
    assert FedAll(perm, Some(p), [q]) == Some(p) && FedAll(perm, Some(q), [p]) == Some(q);
  }

  /** Some peer is accepted exactly when the sample ends up different. */
  lemma {:induction false} AcceptedIffChanged(perm: Permuter, cur: Option<Peer>, ps: seq<Peer>)
    ensures AcceptsAny(perm, cur, ps) <==> FedAll(perm, cur, ps) != cur
    ensures cur.Some? ==>
      FedAll(perm, cur, ps).Some? && perm.Value(FedAll(perm, cur, ps).value) <= perm.Value(cur.value)
    ensures cur.Some? && AcceptsAny(perm, cur, ps) ==> perm.Value(FedAll(perm, cur, ps).value) < perm.Value(cur.value)
    ensures cur.None? ==> (FedAll(perm, cur, ps).Some? <==> ps != [])
    decreases |ps|
  {
    if ps != [] {
      AcceptedIffChanged(perm, Fed(perm, cur, ps[0]), ps[1..]);
    }
  }

  lemma {:induction false} FedSnoc(perm: Permuter, cur: Option<Peer>, ps: seq<Peer>, p: Peer)
    ensures FedAll(perm, cur, ps + [p]) == Fed(perm, FedAll(perm, cur, ps), p)
    ensures AcceptsAny(perm, cur, ps + [p]) <==> AcceptsAny(perm, cur, ps) || Accepts(perm, FedAll(perm, cur, ps), p)
    decreases |ps|
  {
    if ps == [] {
      assert ps + [p] == [p] && [p][1..] == [];
    } else {
      assert (ps + [p])[1..] == ps[1..] + [p];
      FedSnoc(perm, Fed(perm, cur, ps[0]), ps[1..], p);
    }
  }

  // ---- The object ------------------------------------------------------------------

  lemma EmptyOrder(order: seq<Peer>, peers: set<Peer>)
    requires Enumerates(order, peers)
    ensures order == [] <==> peers == {}
    ensures ToSet(order) == peers
  {
    if order != [] {
      assert order[0] in peers;
    }
  }

  class PeerSampler {
    const permuter: Permuter
    var peer: Option<Peer>
    var peerPVal: nat
    /** All peers that were ever introduced. */
    ghost var history: set<Peer>

    ghost predicate Consistent()
      reads this`peer, this`peerPVal
    {
      peer.Some? ==> peerPVal == permuter.Value(peer.value)
    }

    /** The sample is least over everything that was ever introduced. */
    ghost predicate Valid()
      reads this
    {
      Consistent() && IsLeast(permuter, history, peer)
    }

    constructor (permuter: Permuter)
      ensures Valid() && peer == None && history == {} && this.permuter == permuter
    {
      this.permuter := permuter;
      peer, peerPVal, history := None, 0, {};
    }

    /** Returns true (no error) iff the new peer is now the sampled one. */
    method Next(p: Peer) returns (ok: bool)
      requires Consistent()
      modifies this`peer, this`peerPVal
      ensures Consistent()
      ensures ok == Accepts(permuter, old(peer), p) && peer == Fed(permuter, old(peer), p)
    {
      var newPeerPVal := permuter.Value(p);
      if peer.None? {
        peer := Some(p);
        peerPVal := newPeerPVal;
        return true;
      }
      if newPeerPVal < peerPVal {
        peer := Some(p);
        peerPVal := newPeerPVal;
        return true;
      }
      return false;
    }

    method NextEach(peers: set<Peer>) returns (ok: bool, ghost order: seq<Peer>)
      requires Consistent()
      modifies this`peer, this`peerPVal
      ensures Consistent() && Enumerates(order, peers) && peer == FedAll(permuter, old(peer), order)
      ensures ok <==> AcceptsAny(permuter, old(peer), order)
    {
      ok, order := false, [];
      var rest := peers;
      while rest != {}
        invariant rest <= peers && Enumerates(order, peers - rest) && Consistent()
        invariant peer == FedAll(permuter, old(peer), order)
        invariant ok <==> AcceptsAny(permuter, old(peer), order)
        decreases rest
      {
        var p :| p in rest;
        FedSnoc(permuter, old(peer), order, p);
        EnumeratesSnoc(order, peers - rest, p);
        var curOk := Next(p);
        if curOk {
          ok := true;
        }
        assert peers - (rest - {p}) == peers - rest + {p};
        rest, order := rest - {p}, order + [p];
      }
      assert peers - rest == peers;
    }

    /** Returns true iff the sampled peer has changed. */
    method NextSet(peers: set<Peer>) returns (ok: bool)
      requires Valid()
      modifies this
      ensures Valid() && history == old(history) + peers
      ensures ok <==> peer != old(peer)
      ensures peer.Some? <==> old(peer).Some? || peers != {}
    {
      ghost var order;
      ok, order := NextEach(peers);
      AcceptedIffChanged(permuter, old(peer), order);
      FeedingKeepsLeast(permuter, history, old(peer), order);
      EmptyOrder(order, peers);
      history := history + peers;
    }

    /** The sampled peer, or the empty peer when there is none. */
    method Sample() returns (p: Peer)
      ensures p == if peer.Some? then peer.value else Peer("")
    {
      if peer.None? {
        return Peer("");
      }
      return peer.value;
    }

    /** Two samplers with the same injective permutation that were introduced to the same
        peers, in whatever batches and orders, sample the same peer. */
    lemma SameSample(other: PeerSampler)
      requires Valid() && other.Valid() && permuter == other.permuter && Injective(permuter)
      requires history == other.history
      ensures peer == other.peer
    {
      LeastIsUnique(permuter, history, peer, other.peer);
    }
  }
}
