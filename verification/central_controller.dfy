/** The Central controller as the object that its goroutine works on: every handler is
    proved to do what the functions on values say. */
module CentralControllers {
  import opened Types
  import opened Messages
  import M = CentralModel
  import opened CentralTables
  import opened CentralEffects
  import Node
  import NodeAccounting

  type PeerInfo = M.PeerInfo
  type ClientInfo = M.ClientInfo

  /** These entries, and no others, were added to a log. */
  ghost predicate Extended<T>(was: seq<T>, more: seq<T>, now: seq<T>) {
    if more == [] then now == was else now == was + more
  }

  ghost predicate Increased<T>(was: multiset<T>, more: multiset<T>, now: multiset<T>) {
    if more == multiset{} then now == was else now == was + more
  }

  class CentralController {
    var viewList: map<Peer, PeerInfo>
    var awaitingRemovalViewList: map<Peer, PeerInfo>
    var activelyCreatedPeers: map<Peer, bool>
    var activelyProbedPeers: map<Peer, bool>
    var incomingViewList: map<Peer, PeerInfo>
    const incomingViewListMAX: nat
    var apiClients: map<Client, ClientInfo>
    const apiClientsMAX: nat
    /** The submodules whose pointers are not nil. */
    var subs: set<Sub>
    var isStopping: bool
    var totalGoroutines: int
    // Everything sent and started so far.
    var toSelf: seq<Msg>
    var toGossiper: seq<GossipMsg>
    var toMembership: seq<MembershipMsg>
    var sent: seq<M.Sent>
    var started: multiset<Routine>
    var dialled: multiset<Peer>
    var probed: multiset<Peer>
    var asked: set<Sub>

    ghost function Abs(): M.Central
      reads this
    {
      M.Central(viewList, awaitingRemovalViewList, activelyCreatedPeers, activelyProbedPeers,
                incomingViewList, apiClients,
                incomingViewListMAX, apiClientsMAX, subs, isStopping, totalGoroutines)
    }

    /** The object has come to the state that the reply calls for, and has sent and started
        what it lists and nothing else. */
    twostate predicate Performs(new r: M.Reply)
      reads this
    {
      && Abs() == r.c
      && Extended(old(toSelf), r.self, toSelf)
      && Extended(old(toGossiper), r.gossiper, toGossiper)
      && Extended(old(toMembership), r.membership, toMembership)
      && Extended(old(sent), r.sent, sent)
      && Increased(old(started), r.started, started)
      && Increased(old(dialled), r.dials, dialled)
      && Increased(old(probed), r.probes, probed)
      && (if r.asked == {} then asked == old(asked) else asked == old(asked) + r.asked)
    }

    constructor (incomingViewListMAX: nat, apiClientsMAX: nat)
      ensures Abs() == M.Central(map[], map[], map[], map[], map[], map[],
                                 incomingViewListMAX, apiClientsMAX, M.ALL_SUBS, false, 4)
      ensures toSelf == [] && toGossiper == [] && toMembership == [] && sent == []
      ensures started == multiset{} && dialled == multiset{} && probed == multiset{} && asked == {}
    {
      this.incomingViewListMAX, this.apiClientsMAX := incomingViewListMAX, apiClientsMAX;
      viewList, awaitingRemovalViewList, incomingViewList, apiClients := map[], map[], map[], map[];
      activelyCreatedPeers, activelyProbedPeers := map[], map[];
      subs, isStopping, totalGoroutines := M.ALL_SUBS, false, 4;
      toSelf, toGossiper, toMembership, sent := [], [], [], [];
      started, dialled, probed, asked := multiset{}, multiset{}, multiset{}, {};
    }

    // ---- Commands ------------------------------------------------------------------

    method PeerAddHandler(peer: Peer)
      modifies this`viewList, this`awaitingRemovalViewList, this`activelyCreatedPeers, this`activelyProbedPeers,
        this`dialled
      ensures var r := M.PeerAddHandler(old(Abs()), peer); Performs(r) && r.outcome == M.Continue
    {
      if peer in viewList {
        return;
      }
      if peer in awaitingRemovalViewList {
        var info := awaitingRemovalViewList[peer];
        awaitingRemovalViewList := awaitingRemovalViewList - {peer};
        viewList := viewList[peer := info];
        return;
      }
      AddUnlistedPeer(peer);
    }

    /** The peer is in neither list: note that it is wanted, or dial it. */
    method AddUnlistedPeer(peer: Peer)
      requires peer !in viewList && peer !in awaitingRemovalViewList
      modifies this`activelyCreatedPeers, this`activelyProbedPeers, this`dialled
      ensures var r := M.PeerAddHandler(old(Abs()), peer); Performs(r) && r.outcome == M.Continue
    {
      if peer in activelyCreatedPeers {
        activelyCreatedPeers := activelyCreatedPeers[peer := false];
        return;
      }
      if peer in activelyProbedPeers {
        activelyProbedPeers := activelyProbedPeers[peer := true];
        return;
      }
      activelyCreatedPeers := activelyCreatedPeers[peer := false];
      dialled := dialled + multiset{peer};
    }

    /** What becomes of an entry on the removal list once it may have run out of uses. */
    method RemoveIfUnused(peer: Peer)
      requires peer in awaitingRemovalViewList
      modifies this`awaitingRemovalViewList
      ensures awaitingRemovalViewList == M.RemoveIfUnused(old(awaitingRemovalViewList), peer)
    {
      var info := awaitingRemovalViewList[peer];
      if info.usage <= 0 {
        if !info.reader && !info.writer {
          awaitingRemovalViewList := awaitingRemovalViewList - {peer};
        } else {
          awaitingRemovalViewList := awaitingRemovalViewList[peer := info.(closed := true)];
        }
      }
    }

    method PeerRemoveHandler(peer: Peer)
      modifies this`viewList, this`awaitingRemovalViewList, this`activelyCreatedPeers, this`activelyProbedPeers
      ensures var r := M.PeerRemoveHandler(old(Abs()), peer); Performs(r) && r.outcome == M.Continue
    {
      if peer in awaitingRemovalViewList {
        return;
      }
      if peer in viewList {
        var info := viewList[peer];
        viewList := viewList - {peer};
        awaitingRemovalViewList := awaitingRemovalViewList[peer := info];
        RemoveIfUnused(peer);
        return;
      }
      RemoveUnlistedPeer(peer);
    }

    /** The peer is in neither list: note that it is not wanted. */
    method RemoveUnlistedPeer(peer: Peer)
      requires peer !in viewList && peer !in awaitingRemovalViewList
      modifies this`activelyCreatedPeers, this`activelyProbedPeers
      ensures var r := M.PeerRemoveHandler(old(Abs()), peer); Performs(r) && r.outcome == M.Continue
    {
      if peer in activelyCreatedPeers {
        activelyCreatedPeers := activelyCreatedPeers[peer := true];
        return;
      }
      if peer in activelyProbedPeers {
        activelyProbedPeers := activelyProbedPeers[peer := false];
      }
    }

    method ProbePeerRequestHandler(peer: Peer) returns (outcome: M.Outcome)
      modifies this`activelyProbedPeers, this`probed, this`toMembership
      ensures var r := M.ProbeRequestHandler(old(Abs()), peer); Performs(r) && outcome == r.outcome
    {
      outcome := M.Continue;
      if peer in viewList || peer in awaitingRemovalViewList || peer in activelyCreatedPeers {
        if Membership !in subs {
          return M.Panic;
        }
        toMembership := toMembership + [ProbePeerReply(peer, true)];
        return;
      }
      activelyProbedPeers := activelyProbedPeers[peer := false];
      probed := probed + multiset{peer};
    }

    method CentralProbePeerReplyHandler(peer: Peer, alive: bool) returns (outcome: M.Outcome)
      modifies this`activelyProbedPeers, this`toSelf, this`toMembership
      ensures var r := M.ProbeReplyHandler(old(Abs()), peer, alive); Performs(r) && outcome == r.outcome
    {
      outcome := M.Continue;
      if peer !in activelyProbedPeers {
        return;
      }
      var addPeer := activelyProbedPeers[peer];
      activelyProbedPeers := activelyProbedPeers - {peer};
      if Membership !in subs {
        return M.Panic;
      }
      toMembership := toMembership + [ProbePeerReply(peer, alive)];
      if addPeer {
        toSelf := toSelf + [PeerAdd(peer, true)];
      }
    }

    // ---- Leases --------------------------------------------------------------------

    /** `draw` are the peers at the random positions. */
    method RandomPeerListRequestHandler(related: Option<Item>, num: nat, draw: seq<Peer>) returns (outcome: M.Outcome)
      requires M.IsDraw(Abs(), num, draw)
      modifies this`viewList, this`toGossiper
      ensures var r := M.ListRequestHandler(old(Abs()), related, draw); Performs(r) && outcome == r.outcome
    {
      ghost var view := viewList;
      LeaseDraw(draw);
      if Gossip !in subs {
        return M.Panic;
      }
      toGossiper := toGossiper + [RandomPeerListReply(related, draw)];
      return M.Continue;
    }

    method LeaseDraw(draw: seq<Peer>)
      requires Distinct(draw) && forall p :: p in draw ==> p in viewList
      modifies this`viewList
      ensures viewList == M.Leased(old(viewList), draw)
    {
      ghost var view := viewList;
      assert M.Leased(view, draw[..0]) == view;
      for i := 0 to |draw|
        invariant viewList == M.Leased(view, draw[..i])
      {
        LeasedMore(view, draw, i);
        var info := viewList[draw[i]];
        viewList := viewList[draw[i] := info.(usage := info.usage + 1)];
      }
      assert draw[..|draw|] == draw;
    }

    method ReleaseOne(peer: Peer)
      modifies this`viewList, this`awaitingRemovalViewList
      ensures Abs() == M.ReleaseOne(old(Abs()), peer)
    {
      if peer in viewList {
        var info := viewList[peer];
        viewList := viewList[peer := info.(usage := info.usage - 1)];
      } else if peer in awaitingRemovalViewList {
        var info := awaitingRemovalViewList[peer];
        awaitingRemovalViewList := awaitingRemovalViewList[peer := info.(usage := info.usage - 1)];
        RemoveIfUnused(peer);
      }
    }

    method RandomPeerListReleaseHandler(peers: seq<Peer>)
      modifies this`viewList, this`awaitingRemovalViewList
      ensures Performs(M.Quiet(M.ReleaseAll(old(Abs()), peers)))
    {
      ghost var total := M.ReleaseAll(Abs(), peers);
      assert peers[0..] == peers;
      for i := 0 to |peers|
        invariant M.ReleaseAll(Abs(), peers[i..]) == total
      {
        assert peers[i..][0] == peers[i] && peers[i..][1..] == peers[i + 1..];
        ReleaseOne(peers[i]);
      }
    }

    // ---- Messages passed on --------------------------------------------------------

    /** Membership pull requests, gossip pushes and gossip pull requests. */
    method PassToOutgoing(peer: Peer, m: Msg)
      modifies this`sent
      ensures var r := M.ToOutgoing(old(Abs()), peer, m); Performs(r) && r.outcome == M.Continue
    {
      var running: bool;
      if peer in viewList {
        running := viewList[peer].writer;
      } else if peer in awaitingRemovalViewList {
        running := awaitingRemovalViewList[peer].writer;
      } else {
        return;
      }
      if running {
        sent := sent + [M.Sent(Outgoing(peer), m)];
      }
    }

    method MembershipPushRequestHandler(m: Msg)
      requires m.MembershipPushRequest?
      modifies this`sent
      ensures var r := M.PushRequestHandler(old(Abs()), m); Performs(r) && r.outcome == M.Continue
    {
      if m.isValue {
        PassToOutgoing(m.to, m);
      }
    }

    /** Membership and gossip pull replies. */
    method PassToIncoming(peer: Peer, m: Msg)
      modifies this`sent
      ensures var r := M.ToIncoming(old(Abs()), peer, m); Performs(r) && r.outcome == M.Continue
    {
      if peer in incomingViewList && incomingViewList[peer].writer {
        sent := sent + [M.Sent(Incoming(peer), m)];
      }
    }

    /** Gossip notifications. */
    method PassToClient(client: Client, m: Msg)
      modifies this`sent
      ensures var r := M.ToClient(old(Abs()), client, m); Performs(r) && r.outcome == M.Continue
    {
      if client in apiClients && apiClients[client].writer {
        sent := sent + [M.Sent(API(client), m)];
      }
    }

    /** What clients and remote nodes say to the Gossiper. */
    method PassToGossiper(m: GossipMsg) returns (outcome: M.Outcome)
      modifies this`toGossiper
      ensures var r := M.ToGossiper(old(Abs()), m); Performs(r) && outcome == r.outcome
    {
      if Gossip !in subs {
        return M.Panic;
      }
      toGossiper := toGossiper + [m];
      return M.Continue;
    }

    // ---- Creation of endpoints -----------------------------------------------------

    method RunRoutines(e: Endpoint)
      modifies this`started, this`totalGoroutines
      ensures started == old(started) + M.BothRoutines(e) && totalGoroutines == old(totalGoroutines) + 2
    {
      started := started + multiset{Routine(e, true)};
      started := started + multiset{Routine(e, false)};
      totalGoroutines := totalGoroutines + 2;
    }

    /** The endpoint of an outgoing peer that was dialled starts with both goroutines running. */
    method EnterView(peer: Peer)
      modifies this`activelyCreatedPeers, this`started, this`totalGoroutines, this`viewList
      ensures Abs() == Entered(old(Abs()), peer) && started == old(started) + M.BothRoutines(Outgoing(peer))
    {
      activelyCreatedPeers := activelyCreatedPeers - {peer};
      RunRoutines(Outgoing(peer));
      viewList := viewList[peer := M.PeerInfo(0, true, true, false, false)];
    }

    method OutgoingP2PCreatedHandler(peer: Peer)
      modifies this`activelyCreatedPeers, this`started, this`totalGoroutines, this`viewList, this`toSelf
      ensures var r := M.OutgoingCreatedHandler(old(Abs()), peer); Performs(r) && r.outcome == M.Continue
    {
      hide Entered, M.BothRoutines;
      if peer !in activelyCreatedPeers {
        return;
      }
      EnteredReply(Abs(), peer);
      hide M.OutgoingCreatedHandler;
      var isToBeRemoved := activelyCreatedPeers[peer];
      EnterView(peer);
      if isToBeRemoved {
        toSelf := toSelf + [PeerRemove(peer, true)];
      }
    }

    method IncomingP2PCreatedHandler(peer: Peer)
      modifies this`started, this`totalGoroutines, this`incomingViewList
      ensures var r := M.IncomingCreatedHandler(old(Abs()), peer); Performs(r) && r.outcome == M.Continue
    {
      if |incomingViewList| >= incomingViewListMAX || peer in incomingViewList || isStopping {
        return;
      }
      RunRoutines(Incoming(peer));
      incomingViewList := incomingViewList[peer := M.PeerInfo(0, true, true, false, false)];
    }

    method APIEndpointCreatedHandler(client: Client)
      modifies this`started, this`totalGoroutines, this`apiClients
      ensures var r := M.APICreatedHandler(old(Abs()), client); Performs(r) && r.outcome == M.Continue
    {
      if |apiClients| >= apiClientsMAX || client in apiClients || isStopping {
        return;
      }
      RunRoutines(API(client));
      apiClients := apiClients[client := M.ClientInfo(true, true, false, false)];
    }

    // ---- Closure of endpoints ------------------------------------------------------

    method ExitIfDone() returns (outcome: M.Outcome)
      ensures outcome == M.ExitIfDone(Abs())
    {
      return if totalGoroutines <= 0 then M.Exit else M.Continue;
    }

    method OutgoingPeerCompletelyClosed(peer: Peer, info: PeerInfo, isInRemovalList: bool) returns (outcome: M.Outcome)
      modifies this`viewList, this`awaitingRemovalViewList, this`toMembership
      ensures var r := M.OutgoingGoneHandler(old(Abs()), peer, info, isInRemovalList);
        Performs(r) && outcome == r.outcome
    {
      if isStopping {
        viewList := viewList - {peer};
        awaitingRemovalViewList := awaitingRemovalViewList - {peer};
      } else if !isInRemovalList {
        if Membership !in subs {
          return M.Panic;
        }
        toMembership := toMembership + [PeerDisconnected(peer)];
      } else if info.usage <= 0 {
        awaitingRemovalViewList := awaitingRemovalViewList - {peer};
      }
      outcome := ExitIfDone();
    }

    /** Records that the reader or the writer has stopped, and how. */
    method StopRoutine(info: PeerInfo, isReader: bool, crashed: bool) returns (stopped: PeerInfo)
      ensures stopped == M.Stopped(info, isReader, crashed)
    {
      stopped := if isReader then info.(reader := false) else info.(writer := false);
      if crashed {
        stopped := stopped.(crashed := true);
      }
    }

    /** A crash of one goroutine closes the other one. */
    method CloseIfCrashed(info: PeerInfo) returns (closed: PeerInfo)
      ensures closed == M.ClosedIfCrashed(info)
    {
      closed := if info.crashed then info.(closed := true) else info;
    }

    method StopClientRoutine(info: ClientInfo, isReader: bool, crashed: bool) returns (stopped: ClientInfo)
      ensures stopped == M.StoppedClient(info, isReader, crashed)
    {
      stopped := if isReader then info.(reader := false) else info.(writer := false);
      if crashed {
        stopped := stopped.(crashed := true);
      }
    }

    /** Replaces the record of an outgoing peer and counts one goroutine less. */
    method Record(peer: Peer, info: PeerInfo)
      requires HasSlot(Abs(), peer)
      modifies this`viewList, this`awaitingRemovalViewList, this`totalGoroutines
      ensures var c := old(Abs()); Performs(M.Quiet(M.PutOutgoing(c, peer, info).(total := c.total - 1)))
    {
      if peer in viewList {
        viewList := viewList[peer := info];
      } else {
        awaitingRemovalViewList := awaitingRemovalViewList[peer := info];
      }
      totalGoroutines := totalGoroutines - 1;
    }

    /** Both goroutines have stopped now. */
    method RecordLast(peer: Peer, info: PeerInfo) returns (outcome: M.Outcome)
      requires HasSlot(Abs(), peer)
      modifies this`viewList, this`awaitingRemovalViewList, this`totalGoroutines, this`toMembership
      ensures var c := old(Abs());
        var c1 := M.PutOutgoing(c, peer, info).(total := c.total - 1);
        var r := M.OutgoingGoneHandler(c1, peer, info, peer in c.awaiting);
        Performs(r) && outcome == r.outcome
    {
      hide M.PutOutgoing, M.OutgoingGoneHandler;
      var isInRemovalList := peer in awaitingRemovalViewList;
      Record(peer, info);
      outcome := OutgoingPeerCompletelyClosed(peer, info, isInRemovalList);
    }

    method OutgoingPeerClosed(peer: Peer, isReader: bool, crashed: bool) returns (outcome: M.Outcome)
      modifies this`viewList, this`awaitingRemovalViewList, this`totalGoroutines, this`toMembership
      ensures var r := M.OutgoingClosedHandler(old(Abs()), peer, isReader, crashed);
        Performs(r) && outcome == r.outcome
    {
      outcome := M.Continue;
      var info: PeerInfo;
      if peer in viewList {
        info := viewList[peer];
      } else if peer in awaitingRemovalViewList {
        info := awaitingRemovalViewList[peer];
      } else {
        return;
      }
      if (isReader && !info.reader) || (!isReader && !info.writer) {
        return;
      }
      outcome := StopOutgoing(peer, info, isReader, crashed);
    }

    /** The recorded goroutine of an outgoing peer has stopped. */
    method StopOutgoing(peer: Peer, i: PeerInfo, isReader: bool, crashed: bool) returns (outcome: M.Outcome)
      requires HasSlot(Abs(), peer) && M.IsRunning(i, isReader)
      requires i == if peer in viewList then viewList[peer] else awaitingRemovalViewList[peer]
      modifies this`viewList, this`awaitingRemovalViewList, this`totalGoroutines, this`toMembership
      ensures var r := M.OutgoingClosedHandler(old(Abs()), peer, isReader, crashed);
        Performs(r) && outcome == r.outcome
    {
      hide M.OutgoingClosedHandler, M.OutgoingGoneHandler, M.Stopped, M.PutOutgoing, M.ClosedIfCrashed;
      OutgoingClosing(Abs(), peer, i, isReader, crashed);
      outcome := M.Continue;
      var info := StopRoutine(i, isReader, crashed);
      if !info.reader && !info.writer {
        outcome := RecordLast(peer, info);
      } else {
        info := CloseIfCrashed(info);
        Record(peer, info);
      }
    }

    method IncomingPeerClosed(peer: Peer, isReader: bool, crashed: bool) returns (outcome: M.Outcome)
      modifies this`incomingViewList, this`totalGoroutines
      ensures var r := M.IncomingClosedHandler(old(Abs()), peer, isReader, crashed);
        Performs(r) && outcome == r.outcome
    {
      outcome := M.Continue;
      if peer !in incomingViewList {
        return;
      }
      var info := incomingViewList[peer];
      if (isReader && !info.reader) || (!isReader && !info.writer) {
        return;
      }
      info := StopRoutine(info, isReader, crashed);
      totalGoroutines := totalGoroutines - 1;
      if !info.reader && !info.writer {
        incomingViewList := incomingViewList - {peer};
        outcome := ExitIfDone();
      } else {
        info := CloseIfCrashed(info);
        incomingViewList := incomingViewList[peer := info];
      }
    }

    method APIEndpointClosed(client: Client, isReader: bool, crashed: bool) returns (outcome: M.Outcome)
      modifies this`apiClients, this`totalGoroutines, this`toGossiper
      ensures var r := M.APIClosedHandler(old(Abs()), client, isReader, crashed);
        Performs(r) && outcome == r.outcome
    {
      outcome := M.Continue;
      if client !in apiClients {
        return;
      }
      var info := apiClients[client];
      if (isReader && !info.reader) || (!isReader && !info.writer) {
        return;
      }
      outcome := StopClient(client, info, isReader, crashed);
    }

    /** The Gossiper need not notify the client any more. */
    method TellGossiper(client: Client) returns (outcome: M.Outcome)
      modifies this`toGossiper
      ensures var r := ClientGone(old(Abs()), client); Performs(r) && outcome == r.outcome
    {
      if Gossip !in subs {
        return M.Panic;
      }
      toGossiper := toGossiper + [GossipUnnotify(client)];
      outcome := ExitIfDone();
    }

    method DropClient(client: Client) returns (outcome: M.Outcome)
      modifies this`apiClients, this`totalGoroutines, this`toGossiper
      ensures var c := old(Abs());
        var r := ClientGone(c.(clients := c.clients - {client}, total := c.total - 1), client);
        Performs(r) && outcome == r.outcome
    {
      hide ClientGone;
      totalGoroutines := totalGoroutines - 1;
      apiClients := apiClients - {client};
      outcome := TellGossiper(client);
    }

    /** Replaces the record of a client and counts one goroutine less; a crash of one closes
        the other. */
    method RecordClient(client: Client, i: ClientInfo)
      modifies this`apiClients, this`totalGoroutines
      ensures var c := old(Abs());
        Performs(M.Quiet(c.(clients := c.clients[client := CrashCloses(i)], total := c.total - 1)))
    {
      totalGoroutines := totalGoroutines - 1;
      apiClients := apiClients[client := if i.crashed then i.(closed := true) else i];
    }

    /** The recorded goroutine of a client has stopped. */
    method StopClient(client: Client, i: ClientInfo, isReader: bool, crashed: bool) returns (outcome: M.Outcome)
      requires client in apiClients && i == apiClients[client] && M.ClientRuns(i, isReader)
      modifies this`apiClients, this`totalGoroutines, this`toGossiper
      ensures var r := M.APIClosedHandler(old(Abs()), client, isReader, crashed);
        Performs(r) && outcome == r.outcome
    {
      hide M.APIClosedHandler, ClientGone, M.StoppedClient;
      ClientClosing(Abs(), client, i, isReader, crashed);
      outcome := M.Continue;
      var info := StopClientRoutine(i, isReader, crashed);
      if !info.reader && !info.writer {
        outcome := DropClient(client);
      } else {
        RecordClient(client, info);
      }
    }

    /** The four handlers for the end of a submodule. */
    method SubClosedHandler(sub: Sub) returns (outcome: M.Outcome)
      modifies this`subs, this`totalGoroutines
      ensures var r := M.SubClosedHandler(old(Abs()), sub); Performs(r) && outcome == r.outcome
    {
      subs := subs - {sub};
      totalGoroutines := totalGoroutines - 1;
      outcome := ExitIfDone();
    }

    // ---- Shutdown ------------------------------------------------------------------

    method CloseEndpoints(table: map<Peer, PeerInfo>) returns (closed: map<Peer, PeerInfo>)
      ensures closed == M.ClosedAll(table)
    {
      closed := table;
      var rest := table.Keys;
      while rest != {}
        invariant rest <= table.Keys && closed.Keys == table.Keys
        invariant forall p :: p in table ==> closed[p] == if p in rest then table[p] else table[p].(closed := true)
        decreases rest
      {
        var p :| p in rest;
        closed := closed[p := closed[p].(closed := true)];
        rest := rest - {p};
      }
    }

    method CloseClients(table: map<Client, ClientInfo>) returns (closed: map<Client, ClientInfo>)
      ensures closed == map cl | cl in table :: table[cl].(closed := true)
    {
      closed := table;
      var rest := table.Keys;
      while rest != {}
        invariant rest <= table.Keys && closed.Keys == table.Keys
        invariant forall cl :: cl in table ==>
          closed[cl] == if cl in rest then table[cl] else table[cl].(closed := true)
        decreases rest
      {
        var cl :| cl in rest;
        closed := closed[cl := closed[cl].(closed := true)];
        rest := rest - {cl};
      }
    }

    method SetAll(table: map<Peer, bool>, flag: bool) returns (marked: map<Peer, bool>)
      ensures marked == map p | p in table :: flag
    {
      marked := table;
      var rest := table.Keys;
      while rest != {}
        invariant rest <= table.Keys && marked.Keys == table.Keys
        invariant forall p :: p in table ==> marked[p] == if p in rest then table[p] else flag
        decreases rest
      {
        var p :| p in rest;
        marked := marked[p := flag];
        rest := rest - {p};
      }
    }

    /** Tells every endpoint to close and cancels what is being dialled or probed. */
    method CloseAll()
      modifies this`viewList, this`awaitingRemovalViewList, this`activelyCreatedPeers, this`activelyProbedPeers,
        this`incomingViewList, this`apiClients, this`isStopping
      ensures Abs() == M.ClosedTables(old(Abs()))
    {
      viewList := CloseEndpoints(viewList);
      awaitingRemovalViewList := CloseEndpoints(awaitingRemovalViewList);
      activelyCreatedPeers := SetAll(activelyCreatedPeers, true);
      activelyProbedPeers := SetAll(activelyProbedPeers, false);
      incomingViewList := CloseEndpoints(incomingViewList);
      apiClients := CloseClients(apiClients);
      isStopping := true;
    }

    method TellSubmodules()
      modifies this`asked, this`toMembership, this`toGossiper
      ensures asked == old(asked) + M.ALL_SUBS
      ensures toMembership == old(toMembership) + [MembershipClose]
      ensures toGossiper == old(toGossiper) + [GossiperClose]
    {
      asked := asked + M.ALL_SUBS;
      toMembership := toMembership + [MembershipClose];
      toGossiper := toGossiper + [GossiperClose];
    }

    method CloseHandler() returns (outcome: M.Outcome)
      modifies this`viewList, this`awaitingRemovalViewList, this`activelyCreatedPeers, this`activelyProbedPeers,
        this`incomingViewList, this`apiClients, this`isStopping, this`asked, this`toMembership, this`toGossiper
      ensures var r := M.CloseHandler(old(Abs())); Performs(r) && outcome == r.outcome
    {
      if subs != M.ALL_SUBS {
        return M.Panic;
      }
      CloseEverything();
      return M.Continue;
    }

    method CloseEverything()
      requires subs == M.ALL_SUBS
      modifies this`viewList, this`awaitingRemovalViewList, this`activelyCreatedPeers, this`activelyProbedPeers,
        this`incomingViewList, this`apiClients, this`isStopping, this`asked, this`toMembership, this`toGossiper
      ensures Performs(M.CloseHandler(old(Abs())))
    {
      TellSubmodules();
      CloseAll();
    }

    // ---- The event loop ------------------------------------------------------------

    predicate IsDropped(m: Msg)
      reads this`isStopping
    {
      isStopping && !M.IsStopMessage(m)
    }

    method HandleClosure(r: Routine, crashed: bool) returns (outcome: M.Outcome)
      modifies this`viewList, this`awaitingRemovalViewList, this`incomingViewList, this`apiClients,
        this`totalGoroutines, this`toMembership, this`toGossiper
      ensures var reply := M.EndpointClosedHandler(old(Abs()), r, crashed);
        Performs(reply) && outcome == reply.outcome
    {
      match r.endpoint
      case Outgoing(p) => outcome := OutgoingPeerClosed(p, r.isReader, crashed);
      case Incoming(p) => outcome := IncomingPeerClosed(p, r.isReader, crashed);
      case API(cl) => outcome := APIEndpointClosed(cl, r.isReader, crashed);
    }

    method HandlePassed(m: Msg)
      requires M.IsPassed(m)
      modifies this`sent
      ensures var reply := M.Handle(old(Abs()), m, []); Performs(reply) && reply.outcome == M.Continue
    {
      hide M.ToOutgoing, M.ToIncoming, M.ToClient, Performs;
      match m {
        case GossipPush(_, _, _, to) => PassToOutgoing(to, m);
        case GossipPullRequest(to) => PassToOutgoing(to, m);
        case MembershipPullRequest(to) => PassToOutgoing(to, m);
        case _ => HandleReply(m);
      }
    }

    /** Messages that answer an accepted connection or an API client. */
    method HandleReply(m: Msg)
      requires m.GossipPullReply? || m.MembershipPullReply? || m.GossipNotification?
      modifies this`sent
      ensures var reply := M.Handle(old(Abs()), m, []); Performs(reply) && reply.outcome == M.Continue
    {
      hide M.ToOutgoing, M.ToIncoming, M.ToClient, Performs;
      match m {
        case GossipPullReply(to, _) => PassToIncoming(to, m);
        case MembershipPullReply(to, _) => PassToIncoming(to, m);
        case GossipNotification(cl, _, _) => PassToClient(cl, m);
      }
    }

    method HandlePeer(m: Msg) returns (outcome: M.Outcome)
      requires M.IsPeerMessage(m)
      modifies this
      ensures var reply := M.Handle(old(Abs()), m, []); Performs(reply) && outcome == reply.outcome
    {
      hide M.PeerAddHandler, M.PeerRemoveHandler, M.ProbeRequestHandler, M.ProbeReplyHandler,
        M.OutgoingCreatedHandler, M.IncomingCreatedHandler, M.APICreatedHandler, Performs;
      outcome := M.Continue;
      match m {
        case PeerAdd(p, _) => PeerAddHandler(p);
        case PeerRemove(p, _) => PeerRemoveHandler(p);
        case ProbePeerRequest(p) => outcome := ProbePeerRequestHandler(p);
        case CentralProbePeerReply(p, alive) => outcome := CentralProbePeerReplyHandler(p, alive);
        case OutgoingP2PCreated(p) => OutgoingP2PCreatedHandler(p);
        case IncomingP2PCreated(p) => IncomingP2PCreatedHandler(p);
        case APIEndpointCreated(cl) => APIEndpointCreatedHandler(cl);
      }
    }

    method HandleOther(m: Msg, draw: seq<Peer>) returns (outcome: M.Outcome)
      requires !M.IsPeerMessage(m) && !M.IsPassed(m) && (m.RandomPeerListRequest? ==> M.IsDraw(Abs(), m.num, draw))
      modifies this
      ensures var reply := M.Handle(old(Abs()), m, draw); Performs(reply) && outcome == reply.outcome
    {
      outcome := M.Continue;
      match m {
        case EndpointClosed(r, crashed) => outcome := HandleClosure(r, crashed);
        case SubClosed(sub) => outcome := SubClosedHandler(sub);
        case SubCrashed(_) => outcome := M.Panic;
        case RandomPeerListRequest(related, num) => outcome := RandomPeerListRequestHandler(related, num, draw);
        case RandomPeerListRelease(peers) => RandomPeerListReleaseHandler(peers);
        case CentralCrash => outcome := M.Panic;
        case CentralClose => outcome := CloseHandler();
        case MembershipPushRequest(_, _) => MembershipPushRequestHandler(m);
        case IncomingGossip(g) => outcome := PassToGossiper(g);
      }
    }

    /** The tables are in order and the counter is what still runs. */
    ghost predicate InOrder()
      reads this
    {
      TablesOk(Abs()) && Accounted(Abs())
    }

    /** One turn of the event loop. It keeps the object in order for every message that the
        tables give reason to expect, unless it kills the process. */
    method Turn(m: Msg, draw: seq<Peer>) returns (outcome: M.Outcome)
      requires m.RandomPeerListRequest? ==> M.IsDraw(Abs(), m.num, draw)
      modifies this
      ensures old(InOrder() && Expected(Abs(), m)) && IsGenuine(m) && outcome != M.Panic ==>
        InOrder() && Effect(old(Abs()), m, M.Turn(old(Abs()), m, draw))
      ensures var reply := M.Turn(old(Abs()), m, draw); Performs(reply) && outcome == reply.outcome
    {
      outcome := M.Continue;
      ghost var c := Abs();
      hide TablesOk, Accounted, Expected, M.Handle;
      if !IsDropped(m) {
        outcome := Dispatch(m, draw);
      }
      TurnKeepsOrder(c, m, draw, M.Turn(c, m, draw));
    }

    /** Calls the handler registered for the message. */
    method Dispatch(m: Msg, draw: seq<Peer>) returns (outcome: M.Outcome)
      requires m.RandomPeerListRequest? ==> M.IsDraw(Abs(), m.num, draw)
      modifies this
      ensures var reply := M.Handle(old(Abs()), m, draw); Performs(reply) && outcome == reply.outcome
    {
      outcome := M.Continue;
      if M.IsPeerMessage(m) {
        outcome := HandlePeer(m);
      } else if M.IsPassed(m) {
        HandlePassed(m);
      } else {
        outcome := HandleOther(m, draw);
      }
    }
  }

  /** The two cases of the end of an outgoing endpoint's goroutine. */
  lemma OutgoingClosing(c: M.Central, p: Peer, i: PeerInfo, isReader: bool, crashed: bool)
    requires HasSlot(c, p) && i == (if p in c.view then c.view[p] else c.awaiting[p]) && M.IsRunning(i, isReader)
    ensures var i1, r := M.Stopped(i, isReader, crashed), M.OutgoingClosedHandler(c, p, isReader, crashed);
      && (M.BothStopped(i1) ==>
            r == M.OutgoingGoneHandler(M.PutOutgoing(c, p, i1).(total := c.total - 1), p, i1, p in c.awaiting))
      && (!M.BothStopped(i1) ==>
            r == M.Quiet(M.PutOutgoing(c, p, M.ClosedIfCrashed(i1)).(total := c.total - 1)))
  {
  }

  /** Gossip that claims to come from outside does not carry the node's own commands. */
  predicate IsGenuine(m: Msg) {
    m.IncomingGossip? ==> Node.FromOutside(m.gossip)
  }

  lemma TurnKeepsOrder(c: M.Central, m: Msg, draw: seq<Peer>, r: M.Reply)
    requires r == M.Turn(c, m, draw)
    ensures TablesOk(c) && Accounted(c) && Expected(c, m) && IsGenuine(m) && r.outcome != M.Panic ==> Effect(c, m, r)
  {
    hide TablesOk, Accounted, Effect, Expected, M.Handle;
    if TablesOk(c) && Accounted(c) && Expected(c, m) && IsGenuine(m) && r.outcome != M.Panic {
      if M.IsDropped(c, m) {
        NodeAccounting.DroppedEffect(c, m, r);
      } else {
        NodeAccounting.HandledEffect(c, m, draw, r);
      }
    }
  }

  function Entered(c: M.Central, p: Peer): M.Central {
    c.(creating := c.creating - {p}, total := c.total + 2, view := c.view[p := M.FRESH_PEER])
  }

  lemma EnteredReply(c: M.Central, p: Peer)
    requires p in c.creating
    ensures M.OutgoingCreatedHandler(c, p)
         == M.Quiet(Entered(c, p)).(started := M.BothRoutines(Outgoing(p)),
                                   self := if c.creating[p] then [PeerRemove(p, true)] else [])
  {
  }

  /** The first of a client's goroutines has ended, or the second. */
  lemma ClientClosing(c: M.Central, cl: Client, i: ClientInfo, isReader: bool, crashed: bool)
    requires cl in c.clients && i == c.clients[cl] && M.ClientRuns(i, isReader)
    ensures var i1, r := M.StoppedClient(i, isReader, crashed), M.APIClosedHandler(c, cl, isReader, crashed);
      && (i1.reader || i1.writer ==>
            r == M.Quiet(c.(clients := c.clients[cl := CrashCloses(i1)], total := c.total - 1)))
      && (!i1.reader && !i1.writer ==> r == ClientGone(c.(clients := c.clients - {cl}, total := c.total - 1), cl))
  {
  }

  function CrashCloses(i: ClientInfo): ClientInfo {
    if i.crashed then i.(closed := true) else i
  }

  function ClientGone(c: M.Central, cl: Client): M.Reply {
    if Gossip !in c.subs then M.Panicked(c)
    else M.Quiet(c).(gossiper := [GossipUnnotify(cl)], outcome := M.ExitIfDone(c))
  }

  lemma LeasedMore(view: map<Peer, PeerInfo>, draw: seq<Peer>, i: nat)
    requires i < |draw| && Distinct(draw) && draw[i] in view
    ensures var now := M.Leased(view, draw[..i]);
      M.Leased(view, draw[..i + 1]) == now[draw[i] := now[draw[i]].(usage := now[draw[i]].usage + 1)]
  {
    assert draw[..i + 1] == draw[..i] + [draw[i]];
    assert draw[i] !in draw[..i];
  }
}
