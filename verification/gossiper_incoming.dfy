/** The buffer of copies received since the last round: a bounded join under `Cmp`. */
module GossiperIncoming {
  import opened Types
  import opened Messages
  import opened GossipItems
  import opened GossiperModel
  import opened GossiperInvariant

  // ---- One entry at a time --------------------------------------------------------

  /** A push of one entry, on the buffer alone. */
  function Receive(cfg: Config, incoming: map<Item, ItemInfo>, ext: ItemExt): map<Item, ItemInfo> {
    if |incoming| >= cfg.cacheSize then incoming else CheckAndAdd(cfg, incoming, ext).0
  }

  function ReceiveAll(cfg: Config, incoming: map<Item, ItemInfo>, exts: seq<ItemExt>): map<Item, ItemInfo>
    decreases |exts|
  {
    if exts == [] then incoming else ReceiveAll(cfg, Receive(cfg, incoming, exts[0]), exts[1..])
  }

  lemma {:induction false} ReceiveAllConcat(cfg: Config, incoming: map<Item, ItemInfo>, a: seq<ItemExt>,
        b: seq<ItemExt>)
    ensures ReceiveAll(cfg, incoming, a + b) == ReceiveAll(cfg, ReceiveAll(cfg, incoming, a), b)
    decreases |a|
  {
    if a == [] {
      assert a + b == b;
    } else {
      assert (a + b)[1..] == a[1..] + b;
      ReceiveAllConcat(cfg, Receive(cfg, incoming, a[0]), a[1..], b);
    }
  }

  lemma {:induction false} FullBufferIgnores(cfg: Config, incoming: map<Item, ItemInfo>, exts: seq<ItemExt>)
    requires |incoming| >= cfg.cacheSize
    ensures ReceiveAll(cfg, incoming, exts) == incoming
    decreases |exts|
  {
    if exts != [] {
      FullBufferIgnores(cfg, incoming, exts[1..]);
    }
  }

  /** The budget that a pull reply counts down is the room left in the buffer, so a pull
      reply has the effect of pushing its entries one after the other. */
  lemma {:induction false} PullIsPushes(cfg: Config, incoming: map<Item, ItemInfo>, exts: seq<ItemExt>)
    requires |incoming| <= cfg.cacheSize
    ensures PullAll(cfg, incoming, cfg.cacheSize - |incoming|, exts) == ReceiveAll(cfg, incoming, exts)
    decreases |exts|
  {
    if exts == [] {
    } else if |incoming| == cfg.cacheSize {
      FullBufferIgnores(cfg, incoming, exts);
    } else {
      var r := CheckAndAdd(cfg, incoming, exts[0]);
      assert |r.0| == |incoming| + if r.1 then 1 else 0;
      PullIsPushes(cfg, r.0, exts[1..]);
    }
  }

  // ---- Deliveries -----------------------------------------------------------------

  /** What can reach the buffer between two rounds. */
  datatype Delivery = Pushed(ext: ItemExt) | Pulled(from: Peer, exts: seq<ItemExt>)

  function Deliver(g: Gossiper, d: Delivery): Gossiper {
    match d
    case Pushed(ext) => PushHandler(g, ext)
    case Pulled(from, exts) => PullReplyHandler(g, from, exts)
  }

  function DeliverAll(g: Gossiper, ds: seq<Delivery>): Gossiper
    decreases |ds|
  {
    if ds == [] then g else DeliverAll(Deliver(g, ds[0]), ds[1..])
  }

  /** Entries of the pushes and of the pull replies that this state accepts, in order. */
  function Accepted(g: Gossiper, ds: seq<Delivery>): seq<ItemExt>
    decreases |ds|
  {
    if ds == [] then [] else EntriesOf(g, ds[0]) + Accepted(Deliver(g, ds[0]), ds[1..])
  }

  function EntriesOf(g: Gossiper, d: Delivery): seq<ItemExt> {
    match d
    case Pushed(ext) => [ext]
    case Pulled(from, exts) => if from in g.pullPeers then exts else []
  }

  /** One delivery has the effect of receiving its accepted entries. */
  lemma DeliverOne(g: Gossiper, d: Delivery)
    requires Inv(g)
    ensures Inv(Deliver(g, d)) && Deliver(g, d).cfg == g.cfg
    ensures Deliver(g, d).incoming == ReceiveAll(g.cfg, g.incoming, EntriesOf(g, d))
  {
    match d
    case Pushed(ext) =>
      PushInv(g, ext);
      ReceiveSingle(g, ext);
    case Pulled(from, exts) =>
      PullReplyInv(g, from, exts);
      ReceivePulled(g, from, exts);
  }

  lemma ReceivePulled(g: Gossiper, from: Peer, exts: seq<ItemExt>)
    requires |g.incoming| <= g.cfg.cacheSize
    ensures PullReplyHandler(g, from, exts).incoming == ReceiveAll(g.cfg, g.incoming, EntriesOf(g, Pulled(from, exts)))
  {
    PullIsPushes(g.cfg, g.incoming, exts);
  }

  lemma ReceiveSingle(g: Gossiper, ext: ItemExt)
    ensures PushHandler(g, ext).incoming == ReceiveAll(g.cfg, g.incoming, [ext])
  {
    assert [ext][1..] == [];
  }

  /** However the accepted entries are split between pushes and pull replies, the buffer
      is the one obtained from their plain sequence. */
  lemma {:induction false} DeliverIsReceive(g: Gossiper, ds: seq<Delivery>)
    requires Inv(g)
    ensures DeliverAll(g, ds).incoming == ReceiveAll(g.cfg, g.incoming, Accepted(g, ds))
    decreases |ds|
  {
    if ds != [] {
      var g1 := Deliver(g, ds[0]);
      DeliverOne(g, ds[0]);
      DeliverIsReceive(g1, ds[1..]);
      ReceiveAllConcat(g.cfg, g.incoming, EntriesOf(g, ds[0]), Accepted(g1, ds[1..]));
    }
  }

  // ---- The join -------------------------------------------------------------------

  ghost predicate ValidExt(cfg: Config, ext: ItemExt) {
    ext.item.Some? && Normalised(cfg, ext).Some?
  }

  ghost function ValidItems(cfg: Config, exts: seq<ItemExt>): set<Item> {
    set e | e in exts && ValidExt(cfg, e) :: e.item.value
  }

  /** The entry is a valid copy of `x` whose stored form is `info`. */
  ghost predicate Stores(cfg: Config, e: ItemExt, x: Item, info: ItemInfo) {
    ValidExt(cfg, e) && e.item.value == x && Normalised(cfg, e).value == info
  }

  /** `r` extends `m` by the entries: one value per valid item, taken from `m` or from an
      entry, that dominates all candidates for that item. */
  ghost predicate Joins(cfg: Config, m: map<Item, ItemInfo>, exts: seq<ItemExt>, r: map<Item, ItemInfo>) {
    && r.Keys == m.Keys + ValidItems(cfg, exts)
    && (forall x :: x in m ==> Dominates(r[x].s, m[x].s))
    && (forall e :: e in exts && ValidExt(cfg, e) ==> Dominates(r[e.item.value].s, Normalised(cfg, e).value.s))
    && (forall x :: x in r ==> (x in m && r[x] == m[x]) || exists e :: e in exts && Stores(cfg, e, x, r[x]))
  }

  lemma ReceiveJoins(cfg: Config, m: map<Item, ItemInfo>, ext: ItemExt)
    ensures var r := CheckAndAdd(cfg, m, ext).0;
      && r.Keys == m.Keys + ValidItems(cfg, [ext])
      && (forall x :: x in m ==> Dominates(r[x].s, m[x].s))
      && (ValidExt(cfg, ext) ==> Dominates(r[ext.item.value].s, Normalised(cfg, ext).value.s))
      && (forall x :: x in r ==> (x in m && r[x] == m[x]) || Stores(cfg, ext, x, r[x]))
  {
    if ValidExt(cfg, ext) && ext.item.value in m {
      CmpIsLexicographic(m[ext.item.value].s, Normalised(cfg, ext).value.s);
    }
  }

  /** As long as all items involved fit below the capacity, nothing received is lost. */
  lemma {:induction false} ReceiveAllJoins(cfg: Config, m: map<Item, ItemInfo>, exts: seq<ItemExt>)
    requires |m.Keys + ValidItems(cfg, exts)| < cfg.cacheSize
    ensures Joins(cfg, m, exts, ReceiveAll(cfg, m, exts))
    decreases |exts|
  {
    if exts != [] {
      var m1 := Receive(cfg, m, exts[0]);
      ReceiveWithRoom(cfg, m, exts, m1);
      ReceiveAllJoins(cfg, m1, exts[1..]);
      JoinsStep(cfg, m, exts, m1, ReceiveAll(cfg, m1, exts[1..]));
    }
  }

  lemma ReceiveWithRoom(cfg: Config, m: map<Item, ItemInfo>, exts: seq<ItemExt>, m1: map<Item, ItemInfo>)
    requires exts != [] && m1 == Receive(cfg, m, exts[0])
    requires |m.Keys + ValidItems(cfg, exts)| < cfg.cacheSize
    ensures m1 == CheckAndAdd(cfg, m, exts[0]).0
    ensures m1.Keys + ValidItems(cfg, exts[1..]) == m.Keys + ValidItems(cfg, exts)
  {
    SubsetSize(m.Keys, m.Keys + ValidItems(cfg, exts));
    assert |m| == |m.Keys|;
    ReceiveJoins(cfg, m, exts[0]);
    ValidItemsSplit(cfg, exts);
  }

  lemma ValidItemsSplit(cfg: Config, exts: seq<ItemExt>)
    requires exts != []
    ensures ValidItems(cfg, exts) == ValidItems(cfg, [exts[0]]) + ValidItems(cfg, exts[1..])
  {
    assert exts == [exts[0]] + exts[1..];
  }

  lemma JoinsStep(cfg: Config, m: map<Item, ItemInfo>, exts: seq<ItemExt>,
                  m1: map<Item, ItemInfo>, r: map<Item, ItemInfo>)
    requires exts != [] && m1 == CheckAndAdd(cfg, m, exts[0]).0 && Joins(cfg, m1, exts[1..], r)
    ensures Joins(cfg, m, exts, r)
  {
    JoinsBounds(cfg, m, exts, m1, r);
    forall x | x in r ensures (x in m && r[x] == m[x]) || exists e :: e in exts && Stores(cfg, e, x, r[x]) {
      JoinsSource(cfg, m, exts, m1, r, x);
    }
  }

  lemma JoinsBounds(cfg: Config, m: map<Item, ItemInfo>, exts: seq<ItemExt>,
                    m1: map<Item, ItemInfo>, r: map<Item, ItemInfo>)
    requires exts != [] && m1 == CheckAndAdd(cfg, m, exts[0]).0
    requires r.Keys == m1.Keys + ValidItems(cfg, exts[1..]) && forall x :: x in m1 ==> Dominates(r[x].s, m1[x].s)
    requires forall e :: e in exts[1..] && ValidExt(cfg, e) ==>
      Dominates(r[e.item.value].s, Normalised(cfg, e).value.s)
    ensures r.Keys == m.Keys + ValidItems(cfg, exts)
    ensures forall x :: x in m ==> Dominates(r[x].s, m[x].s)
    ensures forall e :: e in exts && ValidExt(cfg, e) ==> Dominates(r[e.item.value].s, Normalised(cfg, e).value.s)
  {
    ReceiveJoins(cfg, m, exts[0]);
    ValidItemsSplit(cfg, exts);
    forall e | e in exts && ValidExt(cfg, e) ensures Dominates(r[e.item.value].s, Normalised(cfg, e).value.s) {
      assert e == exts[0] || e in exts[1..];
    }
  }

  lemma JoinsSource(cfg: Config, m: map<Item, ItemInfo>, exts: seq<ItemExt>,
                    m1: map<Item, ItemInfo>, r: map<Item, ItemInfo>, x: Item)
    requires exts != [] && m1 == CheckAndAdd(cfg, m, exts[0]).0 && x in r
    requires (x in m1 && r[x] == m1[x]) || exists e :: e in exts[1..] && Stores(cfg, e, x, r[x])
    ensures (x in m && r[x] == m[x]) || exists e :: e in exts && Stores(cfg, e, x, r[x])
  {
    ReceiveJoins(cfg, m, exts[0]);
    if x in m1 && r[x] == m1[x] {
      assert exts[0] in exts;
    } else {
      var e :| e in exts[1..] && Stores(cfg, e, x, r[x]);
      assert e in exts;
    }
  }

  lemma JoinIsUnique(cfg: Config, a: seq<ItemExt>, b: seq<ItemExt>, ra: map<Item, ItemInfo>, rb: map<Item, ItemInfo>)
    requires forall e :: e in a <==> e in b
    requires Joins(cfg, map[], a, ra) && Joins(cfg, map[], b, rb)
    ensures ra == rb
  {
    assert ValidItems(cfg, a) == ValidItems(cfg, b);
    forall x | x in ra ensures ra[x] == rb[x] {
      var e :| e in a && Stores(cfg, e, x, ra[x]);
      var f :| f in b && Stores(cfg, f, x, rb[x]);
      StoredIsUnique(cfg, e, f, x, ra[x], rb[x]);
    }
  }

  lemma StoredIsUnique(cfg: Config, e: ItemExt, f: ItemExt, x: Item, a: ItemInfo, b: ItemInfo)
    requires Stores(cfg, e, x, a) && Stores(cfg, f, x, b)
    requires Dominates(a.s, b.s) && Dominates(b.s, a.s)
    ensures a == b
  {
  }

  /** Between two rounds, while the distinct valid items stay below the cache size, the
      buffer holds for each item the greatest copy received, and depends only on which
      entries were accepted: neither on their order nor on how they arrived. */
  lemma BufferIsJoin(g: Gossiper, ds: seq<Delivery>)
    requires Inv(g) && g.incoming == map[]
    requires |ValidItems(g.cfg, Accepted(g, ds))| < g.cfg.cacheSize
    ensures Joins(g.cfg, map[], Accepted(g, ds), DeliverAll(g, ds).incoming)
  {
    DeliverIsReceive(g, ds);
    var m: map<Item, ItemInfo> := map[];
    assert m.Keys + ValidItems(g.cfg, Accepted(g, ds)) == ValidItems(g.cfg, Accepted(g, ds));
    ReceiveAllJoins(g.cfg, map[], Accepted(g, ds));
  }

  lemma BufferIgnoresOrder(g: Gossiper, ds: seq<Delivery>, es: seq<Delivery>)
    requires Inv(g) && g.incoming == map[]
    requires forall e :: e in Accepted(g, ds) <==> e in Accepted(g, es)
    requires |ValidItems(g.cfg, Accepted(g, ds))| < g.cfg.cacheSize
    ensures DeliverAll(g, ds).incoming == DeliverAll(g, es).incoming
  {
    assert ValidItems(g.cfg, Accepted(g, ds)) == ValidItems(g.cfg, Accepted(g, es));
    BufferIsJoin(g, ds);
    BufferIsJoin(g, es);
    JoinIsUnique(g.cfg, Accepted(g, ds), Accepted(g, es), DeliverAll(g, ds).incoming, DeliverAll(g, es).incoming);
  }

  // ---- A buffer that fills up -------------------------------------------------------

  /** For each valid item all copies have the same stored form. */
  ghost predicate OneCopyEach(cfg: Config, exts: seq<ItemExt>) {
    forall e, f :: e in exts && f in exts && ValidExt(cfg, e) && ValidExt(cfg, f) && e.item == f.item ==>
      Normalised(cfg, e) == Normalised(cfg, f)
  }

  /** The buffer never fills up before all valid items are in it, and then there is nothing
      left to learn about any of them. */
  ghost predicate FitsTheBuffer(cfg: Config, exts: seq<ItemExt>) {
    || cfg.cacheSize == 0
    || |ValidItems(cfg, exts)| < cfg.cacheSize
    || (|ValidItems(cfg, exts)| == cfg.cacheSize && OneCopyEach(cfg, exts))
  }

  /** All orders of the entries lead to the same buffer. */
  ghost predicate AnyOrder(cfg: Config, exts: seq<ItemExt>) {
    forall a, b :: multiset(a) == multiset(exts) && multiset(b) == multiset(exts) ==>
      ReceiveAll(cfg, map[], a) == ReceiveAll(cfg, map[], b)
  }

  lemma SameMembers(a: seq<ItemExt>, b: seq<ItemExt>)
    requires multiset(a) == multiset(b)
    ensures forall e :: e in a <==> e in b
  {
    assert forall e :: e in a <==> e in multiset(a);
    assert forall e :: e in b <==> e in multiset(b);
  }

  lemma SameValidItems(cfg: Config, a: seq<ItemExt>, b: seq<ItemExt>)
    requires forall e :: e in a <==> e in b
    ensures ValidItems(cfg, a) == ValidItems(cfg, b)
  {
  }

  /** Keys are only ever added, and only these; values only improve. */
  ghost predicate Grown(m: map<Item, ItemInfo>, r: map<Item, ItemInfo>, items: set<Item>) {
    m.Keys <= r.Keys <= m.Keys + items && forall x :: x in m ==> Dominates(r[x].s, m[x].s)
  }

  lemma GrownTransitive(m: map<Item, ItemInfo>, m1: map<Item, ItemInfo>, r: map<Item, ItemInfo>,
                        a: set<Item>, b: set<Item>)
    requires Grown(m, m1, a) && Grown(m1, r, b)
    ensures Grown(m, r, a + b)
  {
  }

  lemma ReceiveGrows(cfg: Config, m: map<Item, ItemInfo>, e: ItemExt, m1: map<Item, ItemInfo>)
    requires m1 == Receive(cfg, m, e)
    ensures Grown(m, m1, ValidItems(cfg, [e]))
    ensures |m| < cfg.cacheSize ==> m1.Keys == m.Keys + ValidItems(cfg, [e])
  {
    ReceiveJoins(cfg, m, e);
  }

  lemma {:induction false} ReceiveAllGrows(cfg: Config, m: map<Item, ItemInfo>, exts: seq<ItemExt>)
    ensures Grown(m, ReceiveAll(cfg, m, exts), ValidItems(cfg, exts))
    decreases |exts|
  {
    if exts != [] {
      var m1 := Receive(cfg, m, exts[0]);
      ReceiveGrows(cfg, m, exts[0], m1);
      ReceiveAllGrows(cfg, m1, exts[1..]);
      ValidItemsSplit(cfg, exts);
      GrownTransitive(m, m1, ReceiveAll(cfg, m1, exts[1..]), ValidItems(cfg, [exts[0]]), ValidItems(cfg, exts[1..]));
    }
  }

  lemma ItemsInStore(cfg: Config, m: map<Item, ItemInfo>, exts: seq<ItemExt>, m1: map<Item, ItemInfo>)
    requires exts != [] && |m| < cfg.cacheSize && m1 == Receive(cfg, m, exts[0])
    ensures m1.Keys + ValidItems(cfg, exts[1..]) == m.Keys + ValidItems(cfg, exts)
  {
    ReceiveGrows(cfg, m, exts[0], m1);
    ValidItemsSplit(cfg, exts);
  }

  /** The buffer fills up if there are enough items to fill it. */
  lemma {:induction false} ReceiveAllFills(cfg: Config, m: map<Item, ItemInfo>, exts: seq<ItemExt>)
    requires |m.Keys + ValidItems(cfg, exts)| >= cfg.cacheSize
    ensures |ReceiveAll(cfg, m, exts)| >= cfg.cacheSize
    decreases |exts|
  {
    if exts == [] {
      assert m.Keys + ValidItems(cfg, exts) == m.Keys;
      assert |m| == |m.Keys|;
    } else if |m| >= cfg.cacheSize {
      FullBufferIgnores(cfg, m, exts);
    } else {
      var m1 := Receive(cfg, m, exts[0]);
      ItemsInStore(cfg, m, exts, m1);
      ReceiveAllFills(cfg, m1, exts[1..]);
    }
  }

  /** Entries for other items leave the value of an item alone. */
  lemma {:induction false} OthersLeave(cfg: Config, m: map<Item, ItemInfo>, exts: seq<ItemExt>, x: Item)
    requires x in m && forall e :: e in exts ==> e.item != Some(x)
    ensures x in ReceiveAll(cfg, m, exts) && ReceiveAll(cfg, m, exts)[x] == m[x]
    decreases |exts|
  {
    if exts != [] {
      assert exts[0] in exts;
      OthersLeave(cfg, Receive(cfg, m, exts[0]), exts[1..], x);
    }
  }

  // ---- Orders that bring out the difference -----------------------------------------

  /** The entries for x, or all the others. */
  function Select(exts: seq<ItemExt>, x: Item, own: bool): seq<ItemExt> {
    if exts == [] then []
    else
      var rest := Select(exts[1..], x, own);
      if (exts[0].item == Some(x)) == own then [exts[0]] + rest else rest
  }

  lemma {:induction false} SelectMembers(exts: seq<ItemExt>, x: Item, own: bool)
    ensures forall e :: e in Select(exts, x, own) <==> e in exts && ((e.item == Some(x)) == own)
  {
    if exts != [] {
      assert exts == [exts[0]] + exts[1..];
      SelectMembers(exts[1..], x, own);
    }
  }

  /** The entries reordered: those for other items come first. */
  function Postponed(exts: seq<ItemExt>, x: Item): seq<ItemExt> {
    Select(exts, x, false) + Select(exts, x, true)
  }

  lemma {:induction false} PostponedSame(exts: seq<ItemExt>, x: Item)
    ensures multiset(Postponed(exts, x)) == multiset(exts)
  {
    if exts != [] {
      assert exts == [exts[0]] + exts[1..];
      PostponedSame(exts[1..], x);
    }
  }

  /** The entries reordered: this one comes first. */
  lemma Preferred(exts: seq<ItemExt>, e: ItemExt) returns (rest: seq<ItemExt>)
    requires e in exts
    ensures multiset([e] + rest) == multiset(exts)
  {
    var i :| 0 <= i < |exts| && exts[i] == e;
    rest := exts[..i] + exts[i + 1..];
    assert exts == exts[..i] + [e] + exts[i + 1..];
  }

  lemma OthersItems(cfg: Config, exts: seq<ItemExt>, x: Item)
    ensures ValidItems(cfg, Select(exts, x, false)) == ValidItems(cfg, exts) - {x}
  {
    SelectMembers(exts, x, false);
  }

  /** With the entries for x postponed until the buffer is full, they are all ignored. */
  lemma PostponedIgnored(cfg: Config, m: map<Item, ItemInfo>, exts: seq<ItemExt>, x: Item)
    requires |m.Keys + (ValidItems(cfg, exts) - {x})| >= cfg.cacheSize
    ensures ReceiveAll(cfg, m, Postponed(exts, x)) == ReceiveAll(cfg, m, Select(exts, x, false))
  {
    OthersItems(cfg, exts, x);
    ReceiveAllFills(cfg, m, Select(exts, x, false));
    ReceiveAllConcat(cfg, m, Select(exts, x, false), Select(exts, x, true));
    FullBufferIgnores(cfg, ReceiveAll(cfg, m, Select(exts, x, false)), Select(exts, x, true));
  }

  lemma FirstIn(cfg: Config, e: ItemExt, rest: seq<ItemExt>, x: Item, info: ItemInfo)
    requires cfg.cacheSize >= 1 && Stores(cfg, e, x, info)
    ensures ReceiveAll(cfg, map[], [e] + rest) == ReceiveAll(cfg, map[x := info], rest)
  {
    assert ([e] + rest)[1..] == rest;
    assert Receive(cfg, map[], e) == map[x := info];
  }

  /** More valid items than the buffer holds: which of them get in depends on the order. */
  lemma TooManyItems(cfg: Config, exts: seq<ItemExt>, e: ItemExt, x: Item)
    requires cfg.cacheSize >= 1 && |ValidItems(cfg, exts)| > cfg.cacheSize
    requires e in exts && ValidExt(cfg, e) && e.item.value == x
    ensures !AnyOrder(cfg, exts)
  {
    var a := Postponed(exts, x);
    PostponedSame(exts, x);
    PostponedMisses(cfg, exts, x);
    var b := FirstCopyCounts(cfg, exts, e, x, Normalised(cfg, e).value);
    assert ReceiveAll(cfg, map[], a) != ReceiveAll(cfg, map[], b);
  }

  lemma PostponedMisses(cfg: Config, exts: seq<ItemExt>, x: Item)
    requires |ValidItems(cfg, exts)| > cfg.cacheSize && x in ValidItems(cfg, exts)
    ensures x !in ReceiveAll(cfg, map[], Postponed(exts, x))
  {
    var none: map<Item, ItemInfo> := map[];
    assert none.Keys + (ValidItems(cfg, exts) - {x}) == ValidItems(cfg, exts) - {x};
    PostponedIgnored(cfg, map[], exts, x);
    ReceiveAllGrows(cfg, map[], Select(exts, x, false));
    OthersItems(cfg, exts, x);
  }

  /** Preferring a low copy and postponing the others of its item keeps it in the buffer. */
  lemma LowCopyStays(cfg: Config, exts: seq<ItemExt>, low: ItemExt, x: Item, i: ItemInfo) returns (a: seq<ItemExt>)
    requires cfg.cacheSize >= 1 && |ValidItems(cfg, exts)| >= cfg.cacheSize && low in exts && Stores(cfg, low, x, i)
    ensures multiset(a) == multiset(exts)
    ensures x in ReceiveAll(cfg, map[], a) && ReceiveAll(cfg, map[], a)[x] == i
  {
    var after := Preferred(exts, low);
    a := [low] + Postponed(after, x);
    PostponedSame(after, x);
    assert multiset(a) == multiset([low] + after);
    PreferredItems(cfg, exts, low, after, x);
    PostponedIgnored(cfg, map[x := i], after, x);
    SelectMembers(after, x, false);
    OthersLeave(cfg, map[x := i], Select(after, x, false), x);
    FirstIn(cfg, low, Postponed(after, x), x, i);
  }

  /** Preferring a copy brings it, or a better one, into the buffer. */
  lemma FirstCopyCounts(cfg: Config, exts: seq<ItemExt>, e: ItemExt, x: Item, i: ItemInfo) returns (a: seq<ItemExt>)
    requires cfg.cacheSize >= 1 && e in exts && Stores(cfg, e, x, i)
    ensures multiset(a) == multiset(exts)
    ensures x in ReceiveAll(cfg, map[], a) && Dominates(ReceiveAll(cfg, map[], a)[x].s, i.s)
  {
    var rest := Preferred(exts, e);
    a := [e] + rest;
    FirstIn(cfg, e, rest, x, i);
    ReceiveAllGrows(cfg, map[x := i], rest);
  }

  /** A better copy that comes after the buffer has filled up is ignored. */
  lemma BetterCopyIgnored(cfg: Config, exts: seq<ItemExt>, low: ItemExt, high: ItemExt, x: Item)
    requires cfg.cacheSize >= 1 && |ValidItems(cfg, exts)| >= cfg.cacheSize && low in exts && high in exts
    requires ValidExt(cfg, low) && ValidExt(cfg, high) && low.item.value == x == high.item.value
    requires !Dominates(Normalised(cfg, low).value.s, Normalised(cfg, high).value.s)
    ensures !AnyOrder(cfg, exts)
  {
    var a := LowCopyStays(cfg, exts, low, x, Normalised(cfg, low).value);
    var b := FirstCopyCounts(cfg, exts, high, x, Normalised(cfg, high).value);
    assert ReceiveAll(cfg, map[], a) != ReceiveAll(cfg, map[], b);
  }

  lemma PreferredItems(cfg: Config, exts: seq<ItemExt>, e: ItemExt, rest: seq<ItemExt>, x: Item)
    requires multiset([e] + rest) == multiset(exts) && ValidExt(cfg, e) && e.item.value == x
    ensures map[x := Normalised(cfg, e).value].Keys + (ValidItems(cfg, rest) - {x}) == ValidItems(cfg, exts)
  {
    SameMembers([e] + rest, exts);
    SameValidItems(cfg, [e] + rest, exts);
    ValidItemsSplit(cfg, [e] + rest);
    assert ([e] + rest)[1..] == rest;
  }

  // ---- Orders that make no difference -----------------------------------------------

  /** The stored form of the only copy of each valid item. */
  ghost function OneOfEach(cfg: Config, exts: seq<ItemExt>): map<Item, ItemInfo> {
    map x | x in ValidItems(cfg, exts) :: CopyOf(cfg, exts, x)
  }

  ghost function CopyOf(cfg: Config, exts: seq<ItemExt>, x: Item): ItemInfo
    requires x in ValidItems(cfg, exts)
  {
    var e :| e in exts && ValidExt(cfg, e) && e.item.value == x;
    Normalised(cfg, e).value
  }

  /** Each valid entry is the copy that this table has of its item. */
  ghost predicate ListedIn(cfg: Config, exts: seq<ItemExt>, t: map<Item, ItemInfo>) {
    forall e :: e in exts && ValidExt(cfg, e) ==> e.item.value in t && t[e.item.value] == Normalised(cfg, e).value
  }

  ghost predicate Within(m: map<Item, ItemInfo>, t: map<Item, ItemInfo>) {
    forall x :: x in m ==> x in t && m[x] == t[x]
  }

  lemma OneOfEachLists(cfg: Config, exts: seq<ItemExt>)
    requires OneCopyEach(cfg, exts)
    ensures ListedIn(cfg, exts, OneOfEach(cfg, exts))
  {
    forall e | e in exts && ValidExt(cfg, e) ensures CopyOf(cfg, exts, e.item.value) == Normalised(cfg, e).value {
      var f :| f in exts && ValidExt(cfg, f) && f.item.value == e.item.value
            && CopyOf(cfg, exts, e.item.value) == Normalised(cfg, f).value;
      assert e.item == f.item;
    }
  }

  lemma CopyKeeps(cfg: Config, t: map<Item, ItemInfo>, m: map<Item, ItemInfo>, e: ItemExt)
    requires Within(m, t) && ListedIn(cfg, [e], t)
    ensures Within(Receive(cfg, m, e), t)
  {
    assert e in [e];
  }

  lemma ListedSplit(cfg: Config, exts: seq<ItemExt>, t: map<Item, ItemInfo>)
    requires ListedIn(cfg, exts, t)
    ensures ValidItems(cfg, exts) <= t.Keys
    ensures exts != [] ==> ListedIn(cfg, [exts[0]], t) && ListedIn(cfg, exts[1..], t)
  {
    assert exts != [] ==> exts == [exts[0]] + exts[1..];
  }

  /** With one copy of each item, ignoring the entries that follow a full buffer is harmless. */
  lemma {:induction false} UniformJoins(cfg: Config, t: map<Item, ItemInfo>, m: map<Item, ItemInfo>, exts: seq<ItemExt>)
    requires Within(m, t) && ListedIn(cfg, exts, t) && |t| == cfg.cacheSize
    ensures Within(ReceiveAll(cfg, m, exts), t)
    ensures ReceiveAll(cfg, m, exts).Keys == m.Keys + ValidItems(cfg, exts)
    decreases |exts|
  {
    ListedSplit(cfg, exts, t);
    if |m| >= cfg.cacheSize {
      SubsetFull(m.Keys, t.Keys);
      FullBufferIgnores(cfg, m, exts);
    } else if exts != [] {
      var m1 := Receive(cfg, m, exts[0]);
      ItemsInStore(cfg, m, exts, m1);
      CopyKeeps(cfg, t, m, exts[0]);
      UniformJoins(cfg, t, m1, exts[1..]);
    }
  }

  lemma SubsetFull<T>(a: set<T>, b: set<T>)
    requires a <= b && |a| >= |b|
    ensures a == b
  {
    assert b == a + (b - a);
  }

  /** Such a buffer ends up with the only copy of each item. */
  lemma UniformBuffer(cfg: Config, t: map<Item, ItemInfo>, exts: seq<ItemExt>)
    requires ListedIn(cfg, exts, t) && ValidItems(cfg, exts) == t.Keys && |t| == cfg.cacheSize
    ensures ReceiveAll(cfg, map[], exts) == t
  {
    UniformJoins(cfg, t, map[], exts);
  }

  lemma ListedAlike(cfg: Config, a: seq<ItemExt>, b: seq<ItemExt>, t: map<Item, ItemInfo>)
    requires ListedIn(cfg, a, t) && forall e :: e in b ==> e in a
    ensures ListedIn(cfg, b, t)
  {
  }

  lemma OneOfEachKeys(cfg: Config, exts: seq<ItemExt>)
    ensures OneOfEach(cfg, exts).Keys == ValidItems(cfg, exts)
    ensures |OneOfEach(cfg, exts)| == |ValidItems(cfg, exts)|
  {
  }

  lemma FittingIgnoresOrder(cfg: Config, exts: seq<ItemExt>, a: seq<ItemExt>, b: seq<ItemExt>)
    requires FitsTheBuffer(cfg, exts) && multiset(a) == multiset(exts) && multiset(b) == multiset(exts)
    ensures ReceiveAll(cfg, map[], a) == ReceiveAll(cfg, map[], b)
  {
    SameMembers(a, exts);
    SameMembers(b, exts);
    SameValidItems(cfg, a, exts);
    SameValidItems(cfg, b, exts);
    var none: map<Item, ItemInfo> := map[];
    assert none.Keys + ValidItems(cfg, exts) == ValidItems(cfg, exts);
    if cfg.cacheSize == 0 {
      FullBufferIgnores(cfg, map[], a);
      FullBufferIgnores(cfg, map[], b);
    } else if |ValidItems(cfg, exts)| < cfg.cacheSize {
      ReceiveAllJoins(cfg, map[], a);
      ReceiveAllJoins(cfg, map[], b);
      JoinIsUnique(cfg, a, b, ReceiveAll(cfg, map[], a), ReceiveAll(cfg, map[], b));
    } else {
      var t := OneOfEach(cfg, exts);
      OneOfEachLists(cfg, exts);
      OneOfEachKeys(cfg, exts);
      ListedAlike(cfg, exts, a, t);
      ListedAlike(cfg, exts, b, t);
      UniformBuffer(cfg, t, a);
      UniformBuffer(cfg, t, b);
    }
  }

  /** All orders of the same entries lead to the same buffer if and only if the valid items
      stay below the capacity, or just reach it with one copy of each. */
  lemma AnyOrderIff(cfg: Config, exts: seq<ItemExt>)
    ensures AnyOrder(cfg, exts) <==> FitsTheBuffer(cfg, exts)
  {
    if FitsTheBuffer(cfg, exts) {
      forall a, b | multiset(a) == multiset(exts) && multiset(b) == multiset(exts)
        ensures ReceiveAll(cfg, map[], a) == ReceiveAll(cfg, map[], b)
      {
        FittingIgnoresOrder(cfg, exts, a, b);
      }
    } else if |ValidItems(cfg, exts)| > cfg.cacheSize {
      var x :| x in ValidItems(cfg, exts);
      var e :| e in exts && ValidExt(cfg, e) && e.item.value == x;
      TooManyItems(cfg, exts, e, x);
    } else {
      var e, f :| e in exts && f in exts && ValidExt(cfg, e) && ValidExt(cfg, f) && e.item == f.item
        && Normalised(cfg, e) != Normalised(cfg, f);
      if Dominates(Normalised(cfg, e).value.s, Normalised(cfg, f).value.s) {
        BetterCopyIgnored(cfg, exts, f, e, e.item.value);
      } else {
        BetterCopyIgnored(cfg, exts, e, f, e.item.value);
      }
    }
  }

  // ---- Any deliveries of the same entries -------------------------------------------

  function Pushes(exts: seq<ItemExt>): seq<Delivery> {
    seq(|exts|, i requires 0 <= i < |exts| => Pushed(exts[i]))
  }

  lemma {:induction false} PushesAccepted(g: Gossiper, exts: seq<ItemExt>)
    ensures Accepted(g, Pushes(exts)) == exts
    decreases |exts|
  {
    if exts != [] {
      assert Pushes(exts)[1..] == Pushes(exts[1..]);
      PushesAccepted(Deliver(g, Pushed(exts[0])), exts[1..]);
      assert exts == [exts[0]] + exts[1..];
    }
  }

  ghost predicate Brings(g: Gossiper, ds: seq<Delivery>, exts: seq<ItemExt>) {
    multiset(Accepted(g, ds)) == multiset(exts)
  }

  /** However the same entries arrive, and in whatever order, the buffer is the same at the
      end of the round: true exactly of the entries that fit the buffer. */
  lemma BufferOrderIff(g: Gossiper, exts: seq<ItemExt>)
    requires Inv(g) && g.incoming == map[]
    ensures (forall ds, es :: Brings(g, ds, exts) && Brings(g, es, exts) ==>
               DeliverAll(g, ds).incoming == DeliverAll(g, es).incoming)
       <==> FitsTheBuffer(g.cfg, exts)
  {
    AnyOrderIff(g.cfg, exts);
    if FitsTheBuffer(g.cfg, exts) {
      forall ds, es | Brings(g, ds, exts) && Brings(g, es, exts)
        ensures DeliverAll(g, ds).incoming == DeliverAll(g, es).incoming
      {
        DeliverIsReceive(g, ds);
        DeliverIsReceive(g, es);
      }
    } else {
      var a, b :| multiset(a) == multiset(exts) && multiset(b) == multiset(exts)
        && ReceiveAll(g.cfg, map[], a) != ReceiveAll(g.cfg, map[], b);
      PushesAccepted(g, a);
      PushesAccepted(g, b);
      DeliverIsReceive(g, Pushes(a));
      DeliverIsReceive(g, Pushes(b));
      assert Brings(g, Pushes(a), exts) && Brings(g, Pushes(b), exts);
    }
  }
}
