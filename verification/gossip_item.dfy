/** The state a node keeps for one gossip item, and its median-counter transitions. */
module GossipItems {
  import opened Types

  datatype ItemState = ItemState(state: MCState, counter: uint8, ttl: uint8, medianRule: int)

  /** An item's state together with the peers leased for pushing it. */
  datatype ItemInfo = ItemInfo(s: ItemState, peerList: seq<Peer>)

  function Rank(state: MCState): int {
    match state
    case B => 0
    case C => 1
    case D => 2
  }

  /** Three-way comparison of the 16-bit word whose high byte is the state. */
  function Cmp(l: ItemState, r: ItemState): (c: int)
  {
    var lv := Rank(l.state) * 256 + l.counter as int;
    var rv := Rank(r.state) * 256 + r.counter as int;
    if lv > rv then 1 else if lv < rv then -1 else 0
  }

  /** What `Cmp` means: state first, counter second; ttl and medianRule are ignored. */
  ghost predicate Dominates(l: ItemState, r: ItemState) {
    Rank(l.state) > Rank(r.state) || (l.state == r.state && l.counter >= r.counter)
  }

  lemma CmpIsLexicographic(l: ItemState, r: ItemState)
    ensures Cmp(l, r) >= 0 <==> Dominates(l, r)
    ensures Cmp(l, r) == 0 <==> l.state == r.state && l.counter == r.counter
    ensures Cmp(l, r) == -Cmp(r, l)
  {
    match l.state { case B => case C => case D => }
    match r.state { case B => case C => case D => }
  }

  /** Median-counter reaction to a copy of the item received from another node. */
  function Updated(mine: ItemState, received: ItemState): ItemState {
    if mine.state != B then mine
    else match received.state
      case B =>
        if received.counter >= mine.counter
        then mine.(medianRule := mine.medianRule + 1)
        else mine.(medianRule := mine.medianRule - 1)
      case C => mine.(state := C, counter := 0, medianRule := 0)
      case D => mine
  }

  /** End-of-round application of the median rule, with promotion to state C at `bMax`. */
  function Judged(s: ItemState, bMax: uint8): ItemState {
    if s.state != B then s
    else if s.medianRule <= 0 then s.(medianRule := 0)
    else
      var counter := Inc8(s.counter);
      if counter == bMax then s.(state := C, counter := 0, medianRule := 0)
      else s.(counter := counter, medianRule := 0)
  }

  /** Ageing of an item by one push round: the new state and whether the item retires. */
  function Aged(s: ItemState, cMax: uint8): (ItemState, bool) {
    var ttl := Dec8(s.ttl);
    if ttl == 0 then (s.(ttl := ttl), true)
    else if s.state == C then
      var counter := Inc8(s.counter);
      (s.(ttl := ttl, counter := counter), counter >= cMax)
    else (s.(ttl := ttl), false)
  }

  /** The heap object of which the Gossiper's tables hold references. */
  class GossipItemInfo {
    var s: ItemState
    var peerList: seq<Peer>

    constructor (s: ItemState, peerList: seq<Peer>)
      ensures Abs() == ItemInfo(s, peerList)
    {
      this.s, this.peerList := s, peerList;
    }

    ghost function Abs(): ItemInfo
      reads this
    {
      ItemInfo(s, peerList)
    }

    method UpdateItemInfo(newState: ItemState)
      modifies this`s
      ensures s == Updated(old(s), newState)
    {
      match s.state
      case B =>
        match newState.state {
          case B =>
            if newState.counter >= s.counter {
              s := s.(medianRule := s.medianRule + 1);
            } else {
              s := s.(medianRule := s.medianRule - 1);
            }
          case C =>
            s := s.(state := C);
            s := s.(counter := 0);
            s := s.(medianRule := 0);
          case D =>
        }
      case C =>
      case D =>
    }
  }
}
