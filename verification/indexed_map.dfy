/** A hash table whose keys can also be reached by index: the indices of random draws. */
module IndexedMaps {
  import opened Types

  datatype ValueAndIndex<V> = ValueAndIndex(value: V, index: nat)

  /** The two structures that must agree: the table with each key's position, and the list
      of keys in no particular order. */
  datatype Table<K(==), V> = Table(m: map<K, ValueAndIndex<V>>, keyList: seq<K>)
  {
    ghost predicate Agrees() {
      && (forall i :: 0 <= i < |keyList| ==> keyList[i] in m && m[keyList[i]].index == i)
      && (forall k :: k in m ==> m[k].index < |keyList| && keyList[m[k].index] == k)
    }

    /** The plain map that the table stands for. */
    function Contents(): map<K, V> {
      map k | k in m :: m[k].value
    }

    function Put(key: K, value: V): Table<K, V> {
      if key in m
      then Table(m[key := ValueAndIndex(value, m[key].index)], keyList)
      else Table(m[key := ValueAndIndex(value, |keyList|)], keyList + [key])
    }

    /** Swap with last: the last key takes the position of the removed one. */
    function Remove(key: K): Table<K, V>
      requires key in m ==> m[key].index < |keyList| && keyList[|keyList| - 1] in m
    {
      if key !in m then this
      else
        var i, last := m[key].index, |keyList| - 1;
        var lastKey := keyList[last];
        Table(m[lastKey := ValueAndIndex(m[lastKey].value, i)] - {key}, keyList[i := lastKey][..last])
    }

    function KeyAtIndex(index: int): Option<K> {
      if index < 0 || index >= |keyList| then None else Some(keyList[index])
    }

    function KeyIndex(key: K): int {
      if key in m then m[key].index else -1
    }

    function GetValue(key: K): Option<V> {
      if key in m then Some(m[key].value) else None
    }
  }

  lemma PutRefines<K, V>(t: Table<K, V>, key: K, value: V)
    requires t.Agrees()
    ensures t.Put(key, value).Agrees()
    ensures t.Put(key, value).Contents() == t.Contents()[key := value]
  {
    PutAgrees(t, key, value);
  }

  lemma PutAgrees<K, V>(t: Table<K, V>, key: K, value: V)
    requires t.Agrees()
    ensures t.Put(key, value).Agrees()
  {
  }

  lemma RemoveAgrees<K, V>(t: Table<K, V>, key: K)
    requires t.Agrees() && key in t.m
    ensures t.Remove(key).Agrees()
  {
    var t1 := t.Remove(key);
    var i, last := t.m[key].index, |t.keyList| - 1;
    forall j | 0 <= j < |t1.keyList| ensures t1.keyList[j] in t1.m && t1.m[t1.keyList[j]].index == j {
      assert t1.keyList[j] == if j == i then t.keyList[last] else t.keyList[j];
    }
    forall k | k in t1.m ensures t1.m[k].index < |t1.keyList| && t1.keyList[t1.m[k].index] == k {
      assert k in t.m && k != key;
      assert t.keyList[t.m[k].index] == k;
    }
  }

  /** Removal takes out exactly the given key and leaves every other value alone, even when
      that key is the last one. */
  lemma RemoveRefines<K, V>(t: Table<K, V>, key: K)
    requires t.Agrees()
    ensures t.Remove(key).Agrees()
    ensures t.Remove(key).Contents() == t.Contents() - {key}
  {
    if key in t.m {
      RemoveAgrees(t, key);
    }
  }

  /** Lookup by key and by index are inverse to each other. */
  lemma IndexInverse<K, V>(t: Table<K, V>, key: K, index: int)
    requires t.Agrees()
    ensures t.KeyAtIndex(index) == Some(key) <==> (index >= 0 && t.KeyIndex(key) == index)
    ensures t.GetValue(key).Some? <==> t.KeyIndex(key) >= 0
  {
  }

  /** The list holds each key exactly once. */
  lemma KeysListed<K, V>(t: Table<K, V>)
    requires t.Agrees()
    ensures Enumerates(t.keyList, t.Contents().Keys)
    ensures |t.keyList| == |t.Contents()|
  {
    var keys := t.Contents().Keys;
    assert (set k | k in t.keyList) == keys;
    DistinctSize(t.keyList);
  }

  lemma {:induction false} DistinctSize<K>(xs: seq<K>)
    requires Distinct(xs)
    ensures |set x | x in xs| == |xs|
  {
    if xs == [] {
    } else {
      var n := |xs| - 1;
      var rest := set x | x in xs[..n];
      DistinctSize(xs[..n]);
      assert xs == xs[..n] + [xs[n]];
      assert (set x | x in xs) == rest + {xs[n]};
    }
  }

  // ---- All sequences of operations -------------------------------------------------

  datatype Op<K, V> = PutOp(key: K, value: V) | RemoveOp(key: K)

  /** What the operation does to a plain map. */
  function Plain<K, V>(m: map<K, V>, op: Op<K, V>): map<K, V> {
    match op
    case PutOp(k, v) => m[k := v]
    case RemoveOp(k) => m - {k}
  }

  function PlainAll<K, V>(ops: seq<Op<K, V>>): map<K, V> {
    if ops == [] then map[] else Plain(PlainAll(ops[..|ops| - 1]), ops[|ops| - 1])
  }

  ghost function Apply<K, V>(t: Table<K, V>, op: Op<K, V>): (r: Table<K, V>)
    requires t.Agrees()
    ensures r.Agrees() && r.Contents() == Plain(t.Contents(), op)
  {
    match op
    case PutOp(k, v) => PutRefines(t, k, v); t.Put(k, v)
    case RemoveOp(k) => RemoveRefines(t, k); t.Remove(k)
  }

  /** Whatever is put and removed in whatever order, the table stands for the plain map. */
  ghost function ApplyAll<K, V>(ops: seq<Op<K, V>>): (r: Table<K, V>)
    ensures r.Agrees() && r.Contents() == PlainAll(ops)
  {
    if ops == [] then Table(map[], []) else Apply(ApplyAll(ops[..|ops| - 1]), ops[|ops| - 1])
  }

  // ---- The object ------------------------------------------------------------------

  class IndexedMap<K(==), V> {
    var m: map<K, ValueAndIndex<V>>
    var keyList: seq<K>
    /** The plain map that the object stands for. */
    ghost var contents: map<K, V>

    ghost function Abs(): Table<K, V>
      reads this
    {
      Table(m, keyList)
    }

    ghost predicate Valid()
      reads this
    {
      Abs().Agrees() && contents == Abs().Contents()
    }

    constructor ()
      ensures Valid() && contents == map[]
    {
      m, keyList, contents := map[], [], map[];
    }

    method Put(key: K, value: V)
      requires Valid()
      modifies this
      ensures Valid() && contents == old(contents)[key := value]
      ensures keyList == if key in old(contents) then old(keyList) else old(keyList) + [key]
    {
      PutRefines(Abs(), key, value);
      if key !in m {
        m := m[key := ValueAndIndex(value, |keyList|)];
        keyList := keyList + [key];
      } else {
        m := m[key := ValueAndIndex(value, m[key].index)];
      }
      contents := contents[key := value];
    }

    method Remove(key: K)
      requires Valid()
      modifies this
      ensures Valid() && contents == old(contents) - {key}
      ensures keyList == old(Abs()).Remove(key).keyList
    {
      RemoveRefines(Abs(), key);
      if key in m {
        var index := m[key].index;
        var lastIndex := |keyList| - 1;
        var lastKey := keyList[lastIndex];
        keyList := keyList[index := lastKey];
        keyList := keyList[..lastIndex];
        m := m[lastKey := m[lastKey].(index := index)];
        m := m - {key};
      }
      contents := contents - {key};
    }

    method KeyAtIndex(index: int) returns (key: Option<K>)
      requires Valid()
      ensures key.None? <==> index < 0 || index >= |contents|
      ensures key.Some? ==> key.value in contents && Abs().KeyIndex(key.value) == index
    {
      KeysListed(Abs());
      if index < 0 || index >= |keyList| {
        return None;
      }
      return Some(keyList[index]);
    }

    method KeyIndex(key: K) returns (index: int)
      requires Valid()
      ensures key in contents <==> index >= 0
      ensures index >= 0 ==> Abs().KeyAtIndex(index) == Some(key)
      ensures index < 0 ==> index == -1
    {
      if key in m {
        return m[key].index;
      }
      return -1;
    }

    predicate IsMember(key: K)
      reads this
    {
      key in m
    }

    method GetValue(key: K) returns (value: Option<V>)
      requires Valid()
      ensures value == if key in contents then Some(contents[key]) else None
    {
      if key in m {
        return Some(m[key].value);
      }
      return None;
    }

    method Len() returns (n: nat)
      requires Valid()
      ensures n == |contents|
    {
      KeysListed(Abs());
      return |keyList|;
    }
  }
}
