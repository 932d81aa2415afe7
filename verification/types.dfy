/** Entities that several components of the gossip node exchange. */
module Types {

  datatype Option<+T> = None | Some(value: T) {
    function UnwrapOr(default: T): T {
      if Some? then value else default
    }
  }

  /** A remote node, known by its TCP/IP address. */
  datatype Peer = Peer(addr: string)

  /** A local program connected through the API socket. */
  datatype Client = Client(addr: string)

  /** A gossip item: what is spread, and the key under which it is stored. */
  datatype Item = Item(dataType: nat, data: string)

  /** States of the median-counter algorithm, in increasing order. `D` also stands
      for any state byte above 1 that a remote node may send. */
  datatype MCState = B | C | D

  /** An item with its median-counter state as it travels between nodes; the item
      may be missing, since the wire format carries a pointer. */
  datatype ItemExt = ItemExt(item: Option<Item>, state: MCState, counter: uint8)

  newtype uint8 = x: int | 0 <= x < 0x100
  newtype uint16 = x: int | 0 <= x < 0x1_0000
  newtype uint32 = x: int | 0 <= x < 0x1_0000_0000

  function Min(x: int, y: int): int {
    if x <= y then x else y
  }

  function ToSet(ps: seq<Peer>): set<Peer> {
    set p | p in ps
  }

  /** Wrap-around increment and decrement of the machine integers in use. */
  function Inc8(x: uint8): uint8 {
    if x == 255 then 0 else x + 1
  }

  function Dec8(x: uint8): uint8 {
    if x == 0 then 255 else x - 1
  }

  function Inc16(x: uint16): uint16 {
    if x == 0xFFFF then 0 else x + 1
  }

  /** `order` lists each element of `s` exactly once: one possible order in which
      a range over a map or a set visits its keys. */
  ghost predicate Enumerates<T>(order: seq<T>, s: set<T>) {
    && Distinct(order)
    && (set x | x in order) == s
  }

  ghost predicate Distinct<T>(xs: seq<T>) {
    forall i, j :: 0 <= i < j < |xs| ==> xs[i] != xs[j]
  }

  lemma DistinctTail<T>(xs: seq<T>)
    requires Distinct(xs) && xs != []
    ensures Distinct(xs[1..]) && xs[0] !in xs[1..]
  {
  }

  lemma EnumeratesSnoc<T>(order: seq<T>, s: set<T>, x: T)
    requires Enumerates(order, s) && x !in s
    ensures Enumerates(order + [x], s + {x})
  {
    assert forall y :: y in order ==> y in s;
    assert (set y | y in order + [x]) == s + {x};
  }
}
