/** The Membership controller: a view replaced wholesale by messages to the Central
    controller, and a table of min-wise samplers keyed by the peer they sample. */
module MembershipControllers {
  import opened Types
  import opened Messages
  import opened IndexedSets
  import opened MembershipModel
  import opened SampleTables

  lemma SmallerView(view: set<Peer>, p: Peer)
    ensures |view - {p}| <= |view|
    ensures p !in view ==> view - {p} == view
  {
  }

  class MembershipController {
    const bootstrapper: string
    const alphaSize: nat
    const betaSize: nat
    const gammaSize: nat
    const viewList: IndexedSet<Peer>
    var sampleList: map<Peer, set<Sampler>>
    var sampleListRemainingCap: uint32
    var pushRequests: set<Peer>
    var pullReplies: set<Peer>
    var pullPeers: set<Peer>
    /** Everything sent to the Central controller so far. */
    var out: seq<Msg>
    /** All samplers in use, and the capacity that the constructor was given. */
    ghost var samplers: set<Sampler>
    ghost const capacity: nat

    ghost function View(): set<Peer>
      reads viewList
    {
      viewList.Elems()
    }

    /** What the Central controller was told is the view, which keeps within its capacity. */
    ghost predicate ViewOk()
      reads this`out, viewList
    {
      viewList.Valid() && Replay(out) == View() && |View()| <= ViewMax()
    }

    /** Only the bootstrapping peer may exceed a capacity of zero. */
    ghost function ViewMax(): nat {
      if alphaSize + betaSize + gammaSize == 0 then 1 else alphaSize + betaSize + gammaSize
    }

    /** The sizes of the sampler sets and the room for more add up to the capacity. */
    ghost predicate SamplesOk()
      reads this`sampleListRemainingCap, this`samplers, this`sampleList, samplers
    {
      && Keyed(sampleList, samplers)
      && SizeSum(sampleList) + sampleListRemainingCap as nat == capacity < 0x1_0000_0000
    }

    ghost predicate Valid()
      reads this, viewList, samplers
    {
      ViewOk() && SamplesOk()
    }

    constructor (bootstrapper: string, alphaSize: nat, betaSize: nat, gammaSize: nat, cap: uint32)
      ensures Valid() && fresh(viewList)
      ensures View() == {} && samplers == {} && out == [] && capacity == cap as nat
      ensures this.bootstrapper == bootstrapper && this.alphaSize == alphaSize && this.betaSize == betaSize
        && this.gammaSize == gammaSize
    {
      this.bootstrapper, this.alphaSize, this.betaSize, this.gammaSize := bootstrapper, alphaSize, betaSize, gammaSize;
      viewList := new IndexedSet();
      sampleList := map[];
      sampleListRemainingCap := cap;
      pushRequests, pullReplies, pullPeers, out := {}, {}, {}, [];
      capacity, samplers := cap as nat, {};
    }

    // ---- The view ------------------------------------------------------------------

    /** Splits the two views: afterwards the argument, under its second name, holds only the
        peers to be added. */
    method SplitViews(newViewList: IndexedSet<Peer>)
      returns (toBeRemoved: IndexedSet<Peer>, toBeAdded: IndexedSet<Peer>)
      requires viewList.Valid() && newViewList.Valid() && newViewList != viewList
      modifies newViewList
      ensures fresh(toBeRemoved) && toBeAdded == newViewList && toBeRemoved.Valid() && toBeAdded.Valid()
      ensures toBeRemoved.Elems() == View() - old(newViewList.Elems())
      ensures toBeAdded.Elems() == old(newViewList.Elems()) - View()
    {
      hide IndexedSet.Valid;
      toBeRemoved := new IndexedSet();
      toBeAdded := newViewList;
      ghost var next := newViewList.Elems();
      ghost var done: set<Peer> := {};
      var rest := viewList.s.Keys;
      while rest != {}
        invariant done + rest == View() && done !! rest && fresh(toBeRemoved) && toBeRemoved.Valid()
          && newViewList.Valid()
        invariant toBeRemoved.Elems() == done - next && newViewList.Elems() == next - done
        decreases rest
      {
        var p :| p in rest;
        if !newViewList.IsMember(p) {
          toBeRemoved.Add(p);
        } else {
          toBeAdded.Remove(p);
        }
        rest, done := rest - {p}, done + {p};
      }
    }

    method SendRemovals(toBeRemoved: IndexedSet<Peer>) returns (ghost removed: seq<Peer>)
      requires viewList.Valid() && toBeRemoved.Valid() && toBeRemoved != viewList
      modifies this`out, viewList
      ensures viewList.Valid() && View() == old(View()) - toBeRemoved.Elems()
      ensures Enumerates(removed, toBeRemoved.Elems()) && out == old(out) + RemoveMsgs(removed)
    {
      hide IndexedSet.Valid;
      removed := [];
      var rest := toBeRemoved.s.Keys;
      while rest != {}
        invariant rest <= toBeRemoved.Elems() && Enumerates(removed, toBeRemoved.Elems() - rest)
        invariant viewList.Valid() && View() == old(View()) - (toBeRemoved.Elems() - rest)
        invariant out == old(out) + RemoveMsgs(removed)
        decreases rest
      {
        var p :| p in rest;
        out := out + [PeerRemove(p, false)];
        viewList.Remove(p);
        EnumeratesSnoc(removed, toBeRemoved.Elems() - rest, p);
        RemoveMsgsSnoc(removed, p);
        assert toBeRemoved.Elems() - (rest - {p}) == toBeRemoved.Elems() - rest + {p};
        rest, removed := rest - {p}, removed + [p];
      }
      assert toBeRemoved.Elems() - rest == toBeRemoved.Elems();
    }

    method SendAdditions(toBeAdded: IndexedSet<Peer>) returns (ghost added: seq<Peer>)
      requires viewList.Valid() && toBeAdded.Valid() && toBeAdded != viewList
      modifies this`out, viewList
      ensures viewList.Valid() && View() == old(View()) + toBeAdded.Elems()
      ensures Enumerates(added, toBeAdded.Elems()) && out == old(out) + AddMsgs(added)
    {
      hide IndexedSet.Valid;
      added := [];
      var rest := toBeAdded.s.Keys;
      while rest != {}
        invariant rest <= toBeAdded.Elems() && Enumerates(added, toBeAdded.Elems() - rest)
        invariant viewList.Valid() && View() == old(View()) + (toBeAdded.Elems() - rest)
        invariant out == old(out) + AddMsgs(added)
        decreases rest
      {
        var p :| p in rest;
        out := out + [PeerAdd(p, false)];
        viewList.Add(p);
        EnumeratesSnoc(added, toBeAdded.Elems() - rest, p);
        AddMsgsSnoc(added, p);
        assert toBeAdded.Elems() - (rest - {p}) == toBeAdded.Elems() - rest + {p};
        rest, added := rest - {p}, added + [p];
      }
      assert toBeAdded.Elems() - rest == toBeAdded.Elems();
    }

    method SendDifferences(newViewList: IndexedSet<Peer>) returns (ghost removed: seq<Peer>, ghost added: seq<Peer>)
      requires viewList.Valid() && newViewList.Valid() && newViewList != viewList
      modifies this`out, viewList, newViewList
      ensures viewList.Valid() && View() == old(newViewList.Elems())
      ensures Enumerates(removed, old(View()) - View()) && Enumerates(added, View() - old(View()))
      ensures out == old(out) + RemoveMsgs(removed) + AddMsgs(added)
    {
      ghost var before, next := View(), newViewList.Elems();
      var toBeRemoved, toBeAdded := SplitViews(newViewList);
      removed := SendRemovals(toBeRemoved);
      added := SendAdditions(toBeAdded);
      assert View() == next;
    }

    /** The Central controller is told of each peer of the two differences exactly once,
        removals first, although the argument is changed under way. */
    method ReplaceViewList(newViewList: IndexedSet<Peer>) returns (ghost removed: seq<Peer>, ghost added: seq<Peer>)
      requires ViewOk() && newViewList.Valid() && newViewList != viewList && |newViewList.Elems()| <= ViewMax()
      modifies this`out, viewList, newViewList
      ensures ViewOk() && View() == old(newViewList.Elems())
      ensures Enumerates(removed, old(View()) - View()) && Enumerates(added, View() - old(View()))
      ensures out == old(out) + RemoveMsgs(removed) + AddMsgs(added)
    {
      ghost var log, before := out, View();
      removed, added := SendDifferences(newViewList);
      ReplayReplaces(log, before, View(), removed, added);
    }

    // ---- The samplers --------------------------------------------------------------

    /** Samplers of a peer that went down make room for new ones. */
    method RemoveSamplers(peer: Peer)
      requires SamplesOk()
      modifies this`sampleList, this`sampleListRemainingCap, this`samplers
      ensures SamplesOk() && sampleList == old(sampleList) - {peer} && samplers <= old(samplers)
    {
      if peer in sampleList {
        ghost var left := samplers - sampleList[peer];
        KeyedWithout(sampleList, samplers, peer);
        SizeSumWithout(sampleList, peer);
        sampleListRemainingCap := sampleListRemainingCap + |sampleList[peer]| as uint32;
        sampleList := sampleList - {peer};
        samplers := left;
      } else {
        assert sampleList - {peer} == sampleList;
      }
    }

    method RemoveFromView(peer: Peer)
      requires ViewOk()
      modifies this`out, viewList
      ensures ViewOk() && View() == old(View()) - {peer}
      ensures peer in old(View()) ==> out == old(out) + [PeerRemove(peer, false)]
      ensures peer !in old(View()) ==> out == old(out)
    {
      ReplaySnoc(out, PeerRemove(peer, false));
      SmallerView(View(), peer);
      if viewList.IsMember(peer) {
        viewList.Remove(peer);
        out := out + [PeerRemove(peer, false)];
      }
    }

    method RemoveRequests(peer: Peer)
      modifies this`pushRequests, this`pullReplies, this`pullPeers
      ensures pushRequests == old(pushRequests) - {peer} && pullReplies == old(pullReplies) - {peer}
      ensures pullPeers == old(pullPeers) - {peer}
    {
      pushRequests := pushRequests - {peer};
      pullReplies := pullReplies - {peer};
      pullPeers := pullPeers - {peer};
    }

    /** Everything about a peer that went down is forgotten. */
    method RemovePeer(peer: Peer)
      requires Valid()
      modifies this, viewList
      ensures Valid() && View() == old(View()) - {peer}
      ensures peer in old(View()) ==> out == old(out) + [PeerRemove(peer, false)]
      ensures peer !in old(View()) ==> out == old(out)
      ensures sampleList == old(sampleList) - {peer}
      ensures pushRequests == old(pushRequests) - {peer} && pullPeers == old(pullPeers) - {peer}
      ensures pullReplies == old(pullReplies) - {peer}
    {
      hide ViewOk, SamplesOk;
      RemoveFromView(peer);
      assert SamplesOk() && unchanged(samplers);
      RemoveSamplers(peer);
      assert ViewOk();
      RemoveRequests(peer);
      assert SamplesOk() && ViewOk();
    }

    /** Each sampler in use is fed the pushed and pulled peers, and the free capacity is
        tried for new ones; `permuters` are the results of drawing their keys. */
    method UpdateSampleRound(permuters: seq<Option<Permuter>>)
      returns (newPeers: set<Peer>, ghost created: set<Sampler>)
      requires SamplesOk() && |permuters| == sampleListRemainingCap as nat
      modifies this`sampleList, this`sampleListRemainingCap, this`samplers, this`pushRequests, this`pullReplies,
        samplers
      ensures newPeers == old(pushRequests + pullReplies) && pushRequests == {} && pullReplies == {}
      ensures SamplesOk() && samplers == old(samplers) + created && fresh(created)
      ensures forall s :: s in old(samplers) ==> s.history == old(s.history) + newPeers
      ensures forall s :: s in created ==> Started(s, newPeers)
      ensures |created| == if newPeers == {} then 0 else Successes(permuters)
    {
      hide Keyed, SizeSum, Successes;
      newPeers := pushRequests + pullReplies;
      pushRequests, pullReplies := {}, {};
      var newSamplers := Create(permuters, newPeers);
      created := newSamplers;
      SuccessesBound(permuters);
      assert SamplesOk() && unchanged(samplers) && |created| <= sampleListRemainingCap as nat;
      AddSamplers(newSamplers, newPeers);
    }

    /** Makes room for the new samplers and lets all others choose again. */
    method AddSamplers(created: set<Sampler>, newPeers: set<Peer>)
      requires SamplesOk() && created !! samplers && |created| <= sampleListRemainingCap as nat
      requires forall s :: s in created ==> s.Valid() && s.peer.Some?
      modifies this`sampleList, this`sampleListRemainingCap, this`samplers, samplers
      ensures SamplesOk() && samplers == old(samplers) + created
      ensures forall s :: s in old(samplers) ==> s.history == old(s.history) + newPeers
    {
      hide Keyed, SizeSum;
      ghost var ss := samplers;
      var cap := sampleListRemainingCap;
      var table := MigrateAll(sampleList, ss, created, newPeers);
      assert unchanged(this);
      sampleListRemainingCap := cap - |created| as uint32;
      sampleList, samplers := table, ss + created;
      assert Keyed(sampleList, samplers);
    }

    // ---- Rounds --------------------------------------------------------------------

    /** Sends messages that are no view commands. */
    method Send(ms: seq<Msg>)
      requires ViewOk() && forall m :: m in ms ==> !IsViewCommand(m)
      modifies this`out
      ensures ViewOk() && out == old(out) + ms
    {
      ReplayOthers(out, ms);
      out := out + ms;
    }

    /** Sends push requests to some random peers of the view; `made` says for which of them
        the coin, weighted by the push probability, and the proof of work turn out well. */
    method PushRound(draw: seq<Peer>, made: seq<bool>)
      requires ViewOk() && IsDraw(draw, alphaSize, View()) && |made| == |draw|
      modifies this`out
      ensures ViewOk() && out == old(out) + PushMsgs(draw, made)
    {
      for i := 0 to |draw|
        invariant ViewOk() && out == old(out) + PushMsgs(draw[..i], made[..i])
      {
        PushMore(draw, made, i);
        if made[i] {
          Send([MembershipPushRequest(draw[i], false)]);
        }
      }
      assert draw[..|draw|] == draw && made[..|draw|] == made;
    }

    /** Asks some random peers of the view for their views. */
    method PullRound(draw: seq<Peer>)
      requires ViewOk() && IsDraw(draw, betaSize, View())
      modifies this`out, this`pullPeers
      ensures ViewOk() && pullPeers == ToSet(draw) && out == old(out) + PullMsgs(draw)
    {
      pullPeers := {};
      for i := 0 to |draw|
        invariant ViewOk() && pullPeers == ToSet(draw[..i]) && out == old(out) + PullMsgs(draw[..i])
      {
        PullMore(draw, i);
        pullPeers := pullPeers + {draw[i]};
        Send([MembershipPullRequest(draw[i])]);
      }
      assert draw[..|draw|] == draw;
    }

    method Collect(newViewList: IndexedSet<Peer>, draw: seq<Peer>)
      requires newViewList.Valid()
      modifies newViewList
      ensures newViewList.Valid() && newViewList.Elems() == old(newViewList.Elems()) + ToSet(draw)
      ensures |newViewList.Elems()| <= old(|newViewList.Elems()|) + |draw|
    {
      ghost var before := newViewList.Elems();
      assert before + ToSet(draw[..0]) == before;
      for i := 0 to |draw|
        invariant newViewList.Valid() && newViewList.Elems() == before + ToSet(draw[..i])
        invariant |before + ToSet(draw[..i])| <= |before| + i
      {
        ToSetSnoc(before, draw, i);
        newViewList.Add(draw[i]);
      }
      assert draw[..|draw|] == draw;
    }

    /** Pushed, pulled and sampled peers make up the new view. */
    method NewView(pushes: seq<Peer>, pulls: seq<Peer>, samples: seq<Peer>) returns (newViewList: IndexedSet<Peer>)
      ensures fresh(newViewList) && newViewList.Valid()
      ensures newViewList.Elems() == ToSet(pushes) + ToSet(pulls) + ToSet(samples)
      ensures |newViewList.Elems()| <= |pushes| + |pulls| + |samples|
    {
      newViewList := new IndexedSet();
      Collect(newViewList, pushes);
      Collect(newViewList, pulls);
      Collect(newViewList, samples);
    }

    method Renew(pushes: seq<Peer>, pulls: seq<Peer>, samples: seq<Peer>)
      returns (ghost removed: seq<Peer>, ghost added: seq<Peer>)
      requires ViewOk() && |pushes| <= alphaSize && |pulls| <= betaSize && |samples| <= gammaSize
      modifies this`out, viewList
      ensures ViewOk() && View() == ToSet(pushes) + ToSet(pulls) + ToSet(samples)
      ensures Enumerates(removed, old(View()) - View()) && Enumerates(added, View() - old(View()))
      ensures out == old(out) + RemoveMsgs(removed) + AddMsgs(added)
    {
      var newViewList := NewView(pushes, pulls, samples);
      removed, added := ReplaceViewList(newViewList);
    }

    /** The view is replaced exactly if not too many peers pushed and somebody pushed or answered.
        `pushes` is the order in which the push requests are visited; `pulls` and `samples` are
        random draws. */
    method UpdateRound(pushes: seq<Peer>, pulls: seq<Peer>, samples: seq<Peer>)
      returns (ghost removed: seq<Peer>, ghost added: seq<Peer>)
      requires ViewOk() && Enumerates(pushes, pushRequests) && |pushes| == |pushRequests|
      requires IsDraw(pulls, betaSize, pullReplies) && IsDraw(samples, gammaSize, sampleList.Keys)
      modifies this`out, viewList
      ensures ViewOk()
      ensures |pushRequests| <= alphaSize && pushRequests + pullReplies != {} ==>
        View() == pushRequests + ToSet(pulls) + ToSet(samples)
      ensures |pushRequests| > alphaSize || pushRequests + pullReplies == {} ==> View() == old(View())
      ensures Enumerates(removed, old(View()) - View()) && Enumerates(added, View() - old(View()))
      ensures out == old(out) + RemoveMsgs(removed) + AddMsgs(added)
    {
      if |pushRequests| <= alphaSize && (|pushRequests| > 0 || |pullReplies| > 0) {
        removed, added := Renew(pushes, pulls, samples);
      } else {
        removed, added := [], [];
      }
    }

    /** Asks the Central controller to probe every sampled peer. */
    method ProbePeerRound() returns (ghost probed: seq<Peer>)
      requires ViewOk()
      modifies this`out
      ensures ViewOk() && Enumerates(probed, sampleList.Keys) && out == old(out) + ProbeMsgs(probed)
    {
      probed := [];
      var rest := sampleList.Keys;
      while rest != {}
        invariant ViewOk() && rest <= sampleList.Keys && Enumerates(probed, sampleList.Keys - rest)
        invariant out == old(out) + ProbeMsgs(probed)
        decreases rest
      {
        var p :| p in rest;
        Send([ProbePeerRequest(p)]);
        EnumeratesSnoc(probed, sampleList.Keys - rest, p);
        ProbeMsgsSnoc(probed, p);
        assert sampleList.Keys - (rest - {p}) == sampleList.Keys - rest + {p};
        rest, probed := rest - {p}, probed + [p];
      }
      assert sampleList.Keys - rest == sampleList.Keys;
    }

    /** The first two parts of a round: push requests and pull requests. */
    method RequestRounds(pushed: seq<Peer>, made: seq<bool>, asked: seq<Peer>)
      requires ViewOk() && IsDraw(pushed, alphaSize, View()) && |made| == |pushed| && IsDraw(asked, betaSize, View())
      modifies this`out, this`pullPeers
      ensures ViewOk() && pullPeers == ToSet(asked) && out == old(out) + PushMsgs(pushed, made) + PullMsgs(asked)
    {
      PushRound(pushed, made);
      PullRound(asked);
    }

    /** The first three parts: requests, and the new view. */
    method ViewRounds(pushed: seq<Peer>, made: seq<bool>, asked: seq<Peer>,
                      pushes: seq<Peer>, pulls: seq<Peer>, samples: seq<Peer>)
      returns (ghost removed: seq<Peer>, ghost added: seq<Peer>)
      requires ViewOk() && IsDraw(pushed, alphaSize, View()) && |made| == |pushed| && IsDraw(asked, betaSize, View())
      requires Enumerates(pushes, pushRequests) && |pushes| == |pushRequests|
      requires IsDraw(pulls, betaSize, pullReplies) && IsDraw(samples, gammaSize, sampleList.Keys)
      modifies this`out, this`pullPeers, viewList
      ensures ViewOk() && pullPeers == ToSet(asked)
      ensures |pushRequests| <= alphaSize && pushRequests + pullReplies != {} ==>
        View() == pushRequests + ToSet(pulls) + ToSet(samples)
      ensures |pushRequests| > alphaSize || pushRequests + pullReplies == {} ==> View() == old(View())
      ensures Enumerates(removed, old(View()) - View()) && Enumerates(added, View() - old(View()))
      ensures out == old(out) + PushMsgs(pushed, made) + PullMsgs(asked) + RemoveMsgs(removed) + AddMsgs(added)
    {
      hide ViewOk, Enumerates, IsDraw;
      RequestRounds(pushed, made, asked);
      removed, added := UpdateRound(pushes, pulls, samples);
    }

    /** The last two parts: new peers for the samplers, and probes of all they sample. */
    method SampleRounds(permuters: seq<Option<Permuter>>)
      returns (newPeers: set<Peer>, ghost created: set<Sampler>, ghost probed: seq<Peer>)
      requires ViewOk() && SamplesOk() && |permuters| == sampleListRemainingCap as nat
      modifies this`out, this`sampleList, this`sampleListRemainingCap, this`samplers,
        this`pushRequests, this`pullReplies, samplers
      ensures ViewOk() && SamplesOk() && newPeers == old(pushRequests + pullReplies)
      ensures pushRequests == {} && pullReplies == {}
      ensures samplers == old(samplers) + created && fresh(created)
      ensures forall s :: s in old(samplers) ==> s.history == old(s.history) + newPeers
      ensures forall s :: s in created ==> Started(s, newPeers)
      ensures Enumerates(probed, sampleList.Keys) && out == old(out) + ProbeMsgs(probed)
    {
      hide *;
      newPeers, created := UpdateSampleRound(permuters);
      assert ViewOk();
      ghost var all := samplers;
      label fed:
      probed := ProbePeerRound();
      assert unchanged@fed(all) && samplers == all;
    }

    /** One membership round: requests, the new view, the samplers, and probes. The messages
        of its parts follow one another; the view changes only in the second part. */
    method MembershipRound(pushed: seq<Peer>, made: seq<bool>, asked: seq<Peer>, pushes: seq<Peer>,
                           pulls: seq<Peer>, samples: seq<Peer>, permuters: seq<Option<Permuter>>)
      returns (ghost removed: seq<Peer>, ghost added: seq<Peer>, ghost created: set<Sampler>, ghost probed: seq<Peer>)
      requires Valid() && IsDraw(pushed, alphaSize, View()) && |made| == |pushed| && IsDraw(asked, betaSize, View())
      requires Enumerates(pushes, pushRequests) && |pushes| == |pushRequests|
      requires IsDraw(pulls, betaSize, pullReplies) && IsDraw(samples, gammaSize, sampleList.Keys)
      requires |permuters| == sampleListRemainingCap as nat
      modifies this, viewList, samplers
      ensures Valid() && pullPeers == ToSet(asked) && pushRequests == {} && pullReplies == {}
      ensures old(|pushRequests| <= alphaSize && pushRequests + pullReplies != {}) ==>
        View() == old(pushRequests) + ToSet(pulls) + ToSet(samples)
      ensures old(|pushRequests| > alphaSize || pushRequests + pullReplies == {}) ==> View() == old(View())
      ensures Enumerates(removed, old(View()) - View()) && Enumerates(added, View() - old(View()))
      ensures samplers == old(samplers) + created && fresh(created)
      ensures forall s :: s in old(samplers) ==> s.history == old(s.history) + old(pushRequests + pullReplies)
      ensures forall s :: s in created ==> Started(s, old(pushRequests + pullReplies))
      ensures Enumerates(probed, sampleList.Keys)
      ensures out == old(out) + PushMsgs(pushed, made) + PullMsgs(asked)
                     + RemoveMsgs(removed) + AddMsgs(added) + ProbeMsgs(probed)
    {
      hide ViewOk, SamplesOk, View, Enumerates, IsDraw, Started;
      removed, added := ViewRounds(pushed, made, asked, pushes, pulls, samples);
      assert SamplesOk() && unchanged(samplers);
      var newPeers;
      newPeers, created, probed := SampleRounds(permuters);
    }

    /** Starts from the bootstrapping peer alone, if there is one; then the push probability is
        zero, so `made` says for which peers the coin shows zero. */
    method Bootstrap(pushed: seq<Peer>, made: seq<bool>, asked: seq<Peer>)
      returns (ghost removed: seq<Peer>, ghost added: seq<Peer>)
      requires Valid() && |made| == |pushed|
      requires bootstrapper != "" ==>
        IsDraw(pushed, alphaSize, {Peer(bootstrapper)}) && IsDraw(asked, betaSize, {Peer(bootstrapper)})
      modifies this`out, this`pullPeers, viewList
      ensures Valid() && Enumerates(removed, old(View()) - View()) && Enumerates(added, View() - old(View()))
      ensures bootstrapper != "" ==> View() == {Peer(bootstrapper)} && pullPeers == ToSet(asked)
      ensures bootstrapper != "" ==>
        out == old(out) + RemoveMsgs(removed) + AddMsgs(added) + PushMsgs(pushed, made) + PullMsgs(asked)
      ensures bootstrapper == "" ==> View() == old(View()) && out == old(out) && pullPeers == old(pullPeers)
    {
      hide ViewOk, SamplesOk, IsDraw;
      removed, added := [], [];
      if bootstrapper == "" {
        return;
      }
      removed, added := StartFrom(Peer(bootstrapper));
      assert SamplesOk() && unchanged(samplers);
      RequestRounds(pushed, made, asked);
      assert SamplesOk();
    }

    /** Replaces the view by one peer. */
    method StartFrom(peer: Peer) returns (ghost removed: seq<Peer>, ghost added: seq<Peer>)
      requires ViewOk()
      modifies this`out, viewList
      ensures ViewOk() && View() == {peer}
      ensures Enumerates(removed, old(View()) - View()) && Enumerates(added, View() - old(View()))
      ensures out == old(out) + RemoveMsgs(removed) + AddMsgs(added)
    {
      var newViewList := new IndexedSet();
      newViewList.Add(peer);
      assert newViewList.Elems() == {peer};
      removed, added := ReplaceViewList(newViewList);
    }

    // ---- Handlers ------------------------------------------------------------------

    method PeerDisconnectedHandler(peer: Peer)
      requires Valid()
      modifies this, viewList
      ensures Valid() && peer !in View() && peer !in sampleList
    {
      RemovePeer(peer);
    }

    method ProbePeerReplyHandler(peer: Peer, alive: bool)
      requires Valid()
      modifies this, viewList
      ensures Valid() && (!alive ==> peer !in View() && peer !in sampleList)
      ensures alive ==> View() == old(View()) && sampleList == old(sampleList) && out == old(out)
    {
      if !alive {
        RemovePeer(peer);
      }
    }

    /** `valid` stands for the checks of the request's age, addressee, proof of work and
        sender's address. */
    method IncomingPushRequestHandler(from: Peer, valid: bool)
      modifies this`pushRequests
      ensures pushRequests == old(pushRequests) + (if valid then {from} else {})
    {
      if valid {
        pushRequests := pushRequests + {from};
      }
    }

    /** Only an answer that was asked for counts, once, and only its well-formed addresses;
        `malformed` are those that are not. */
    method IncomingPullReplyHandler(from: Peer, view: seq<Peer>, malformed: set<Peer>)
      modifies this`pullReplies, this`pullPeers
      ensures pullPeers == old(pullPeers) - {from}
      ensures pullReplies == old(pullReplies) + (if from in old(pullPeers) then ToSet(view) - malformed else {})
    {
      if from in pullPeers {
        pullPeers := pullPeers - {from};
        for i := 0 to |view|
          invariant pullPeers == old(pullPeers) - {from}
          invariant pullReplies == old(pullReplies) + (ToSet(view[..i]) - malformed)
        {
          assert view[..i + 1] == view[..i] + [view[i]];
          if view[i] !in malformed {
            pullReplies := pullReplies + {view[i]};
          }
        }
        assert view[..|view|] == view;
      }
    }

    /** The answer lists the view in some order. */
    method IncomingPullRequestHandler(from: Peer)
      requires ViewOk()
      modifies this`out
      ensures ViewOk() && |out| == |old(out)| + 1 && out[..|old(out)|] == old(out)
      ensures var m := out[|old(out)|]; m.MembershipPullReply? && m.to == from && Enumerates(m.view, View())
    {
      ghost var before := out;
      Send([MembershipPullReply(from, viewList.elemList)]);
      ElemsListed(viewList.Abs());
      assert out[|before|] == MembershipPullReply(from, viewList.elemList);
    }

    method CloseHandler()
      requires ViewOk()
      modifies this`out
      ensures ViewOk() && out == old(out) + [SubClosed(Membership)]
    {
      Send([SubClosed(Membership)]);
    }
  }
}
