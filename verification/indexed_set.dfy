/** A set whose elements can also be reached by index. */
module IndexedSets {
  import opened Types
  import IndexedMaps

  /** The table gives each element its position in the list. */
  datatype Table<T(==)> = Table(s: map<T, nat>, elemList: seq<T>)
  {
    ghost predicate Agrees() {
      && (forall i :: 0 <= i < |elemList| ==> elemList[i] in s && s[elemList[i]] == i)
      && (forall e :: e in s ==> s[e] < |elemList| && elemList[s[e]] == e)
    }

    function Add(elem: T): Table<T> {
      if elem in s then this else Table(s[elem := |elemList|], elemList + [elem])
    }

    function Remove(elem: T): Table<T>
      requires elem in s ==> s[elem] < |elemList|
    {
      if elem !in s then this
      else
        var i, last := s[elem], |elemList| - 1;
        var lastElem := elemList[last];
        Table(s[lastElem := i] - {elem}, elemList[i := lastElem][..last])
    }

    function ElemIndex(elem: T): int {
      if elem in s then s[elem] else -1
    }
  }

  lemma AddRefines<T>(t: Table<T>, elem: T)
    requires t.Agrees()
    ensures t.Add(elem).Agrees() && t.Add(elem).s.Keys == t.s.Keys + {elem}
  {
  }

  lemma RemoveAgrees<T>(t: Table<T>, elem: T)
    requires t.Agrees() && elem in t.s
    ensures t.Remove(elem).Agrees()
  {
    var t1 := t.Remove(elem);
    var i, last := t.s[elem], |t.elemList| - 1;
    forall j | 0 <= j < |t1.elemList| ensures t1.elemList[j] in t1.s && t1.s[t1.elemList[j]] == j {
      assert t1.elemList[j] == if j == i then t.elemList[last] else t.elemList[j];
    }
    forall e | e in t1.s ensures t1.s[e] < |t1.elemList| && t1.elemList[t1.s[e]] == e {
      assert e in t.s && e != elem;
      assert t.elemList[t.s[e]] == e;
    }
  }

  lemma RemoveRefines<T>(t: Table<T>, elem: T)
    requires t.Agrees()
    ensures t.Remove(elem).Agrees() && t.Remove(elem).s.Keys == t.s.Keys - {elem}
  {
    if elem in t.s {
      RemoveAgrees(t, elem);
    }
  }

  /** Lookup by element and by index are inverse to each other. */
  lemma IndexInverse<T>(t: Table<T>, elem: T, index: nat)
    requires t.Agrees()
    ensures index < |t.elemList| && t.elemList[index] == elem <==> t.ElemIndex(elem) == index
  {
  }

  lemma ElemsListed<T>(t: Table<T>)
    requires t.Agrees()
    ensures Enumerates(t.elemList, t.s.Keys) && |t.elemList| == |t.s.Keys|
  {
    assert (set e | e in t.elemList) == t.s.Keys;
    IndexedMaps.DistinctSize(t.elemList);
  }

  // ---- All sequences of operations -------------------------------------------------

  datatype Op<T> = AddOp(elem: T) | RemoveOp(elem: T)

  function PlainAll<T(==)>(ops: seq<Op<T>>): set<T> {
    if ops == [] then {}
    else
      var rest := PlainAll(ops[..|ops| - 1]);
      match ops[|ops| - 1]
      case AddOp(e) => rest + {e}
      case RemoveOp(e) => rest - {e}
  }

  /** Whatever is added and removed in whatever order, the table stands for the plain set. */
  ghost function ApplyAll<T>(ops: seq<Op<T>>): (r: Table<T>)
    ensures r.Agrees() && r.s.Keys == PlainAll(ops)
  {
    if ops == [] then Table(map[], [])
    else
      var rest := ApplyAll(ops[..|ops| - 1]);
      match ops[|ops| - 1]
      case AddOp(e) => AddRefines(rest, e); rest.Add(e)
      case RemoveOp(e) => RemoveRefines(rest, e); rest.Remove(e)
  }

  // ---- The object ------------------------------------------------------------------

  class IndexedSet<T(==)> {
    var s: map<T, nat>
    var elemList: seq<T>

    ghost function Abs(): Table<T>
      reads this
    {
      Table(s, elemList)
    }

    ghost predicate Valid()
      reads this
    {
      Abs().Agrees()
    }

    /** The plain set that the object stands for. */
    ghost function Elems(): set<T>
      reads this
    {
      s.Keys
    }

    constructor ()
      ensures Valid() && Elems() == {}
    {
      s, elemList := map[], [];
    }

    method Add(elem: T)
      requires Valid()
      modifies this
      ensures Valid() && Elems() == old(Elems()) + {elem}
      ensures elemList == old(Abs()).Add(elem).elemList
    {
      AddRefines(Abs(), elem);
      if elem !in s {
        s := s[elem := |elemList|];
        elemList := elemList + [elem];
      }
    }

    method Remove(elem: T)
      requires Valid()
      modifies this
      ensures Valid() && Elems() == old(Elems()) - {elem}
      ensures elemList == old(Abs()).Remove(elem).elemList
    {
      RemoveRefines(Abs(), elem);
      if elem in s {
        var i := s[elem];
        var lastIndex := |elemList| - 1;
        var lastElem := elemList[lastIndex];
        elemList := elemList[i := lastElem];
        elemList := elemList[..lastIndex];
        s := s[lastElem := i];
        s := s - {elem};
      }
    }

    predicate IsMember(elem: T)
      reads this
    {
      elem in s
    }

    /** The source indexes its slice without a check. */
    method ElemAtIndex(index: int) returns (elem: T)
      requires Valid() && 0 <= index < |Elems()|
      ensures elem in Elems() && Abs().ElemIndex(elem) == index
    {
      ElemsListed(Abs());
      return elemList[index];
    }

    method ElemIndex(elem: T) returns (index: int)
      requires Valid()
      ensures elem in Elems() <==> index >= 0
      ensures index >= 0 ==> index < |elemList| && elemList[index] == elem
      ensures index < 0 ==> index == -1
    {
      if elem in s {
        return s[elem];
      }
      return -1;
    }

    method Len() returns (n: nat)
      requires Valid()
      ensures n == |Elems()|
    {
      ElemsListed(Abs());
      return |elemList|;
    }
  }
}
