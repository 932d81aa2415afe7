/** Messages that travel over the queues of one node. A payload always has the type its
    message calls for, except perhaps that of a membership push request. */
module Messages {
  import opened Types

  /** The four submodules that the Central controller starts once and waits for. */
  datatype Sub = Membership | Gossip | APIListener | P2PListener

  /** A connection endpoint, named by the table key under which it is kept. */
  datatype Endpoint =
    | Outgoing(peer: Peer)
    | Incoming(peer: Peer)
    | API(client: Client)

  /** One of the two goroutines of an endpoint. */
  datatype Routine = Routine(endpoint: Endpoint, isReader: bool)

  /** Messages to the Gossiper. */
  datatype GossipMsg =
    | RandomPeerListReply(related: Option<Item>, peers: seq<Peer>)
    | GossipAnnounce(item: Option<Item>, ttl: uint8)
    | GossipNotify(who: Client, what: nat)
    | GossipUnnotify(who: Client)
    | GossipValidation(who: Client, id: uint16, valid: bool)
    | IncomingPush(ext: ItemExt)
    | IncomingPullRequest(from: Peer)
    | IncomingPullReply(from: Peer, items: seq<ItemExt>)
    | GossiperClose

  /** Messages from the Central controller to the Membership controller. */
  datatype MembershipMsg =
    | PeerDisconnected(peer: Peer)
    | ProbePeerReply(peer: Peer, alive: bool)
    | MembershipClose

  /** Messages to the Central controller. `self` tells the commands that the Central
      controller queues for itself from those of the Membership controller; no handler
      looks at it. `isValue` tells whether the payload of a push request is the request itself,
      as the handler asks, or a pointer to it. */
  datatype Msg =
    | PeerAdd(peer: Peer, self: bool)
    | PeerRemove(peer: Peer, self: bool)
    | ProbePeerRequest(peer: Peer)
    | CentralProbePeerReply(peer: Peer, alive: bool)
    | OutgoingP2PCreated(peer: Peer)
    | IncomingP2PCreated(peer: Peer)
    | APIEndpointCreated(client: Client)
    | EndpointClosed(routine: Routine, crashed: bool)
    | SubClosed(sub: Sub)
    | SubCrashed(sub: Sub)
    | RandomPeerListRequest(related: Option<Item>, num: nat)
    | RandomPeerListRelease(peers: seq<Peer>)
    | GossipPush(item: Item, state: MCState, counter: uint8, to: Peer)
    | GossipPullRequest(to: Peer)
    | GossipPullReply(to: Peer, items: seq<ItemExt>)
    | GossipNotification(client: Client, item: Item, id: uint16)
    | MembershipPushRequest(to: Peer, isValue: bool)
    | MembershipPullRequest(to: Peer)
    | MembershipPullReply(to: Peer, view: seq<Peer>)
    | IncomingGossip(gossip: GossipMsg)
    | CentralCrash
    | CentralClose
}
