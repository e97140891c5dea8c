/**
  The LLF container: laying tensors out and writing them (inference/convert/convert.c) and
  accepting a mapped file (inference/core/llf.c).
*/
module Llf {
  import opened ByteFile

  const ALIGN := 4096
  const HEADER := 128
  const ENTRY := 32
  const META := 64
  const SLOTS := 31
  const U32 := 0x1_0000_0000
  const U64 := 0x1_0000_0000_0000_0000

  /** One tensor of the plan; `info` is its name, type and shape as they are stored. */
  datatype Item = Item(layer: nat, slot: nat, info: seq<byte>, data: seq<byte>)

  datatype Dir = Dir(offset: nat, size: nat, count: nat)

  datatype Meta = Meta(info: seq<byte>, offset: nat, size: nat)

  /** The header fields the container itself uses; `rest` is copied through. */
  datatype Header = Header(magic: seq<byte>, version: nat, arch: seq<byte>, nBlocks: nat, rest: seq<byte>)

  function NLayers(nBlocks: nat): (n: nat) {
    (nBlocks + 3) % U32
  }

  /** `align_up` to 4096. */
  function Align(v: nat): (a: nat)
    ensures v <= a < v + ALIGN && a % ALIGN == 0
  {
    (v + ALIGN - 1) / ALIGN * ALIGN
  }

  // ----- sorting the plan -----

  /** `conv_item_compare`. */
  predicate Before(a: Item, b: Item) {
    a.layer < b.layer || (a.layer == b.layer && a.slot < b.slot)
  }

  predicate SameKey(a: Item, b: Item) {
    a.layer == b.layer && a.slot == b.slot
  }

  predicate Distinct(items: seq<Item>) {
    forall i, j :: 0 <= i < j < |items| ==> !SameKey(items[i], items[j])
  }

  predicate Ordered(items: seq<Item>) {
    forall i, j :: 0 <= i < j < |items| ==> Before(items[i], items[j])
  }

  function Insert(x: Item, s: seq<Item>): (r: seq<Item>) {
    if s == [] || !Before(s[0], x) then [x] + s else [s[0]] + Insert(x, s[1..])
  }

  function Sorted(items: seq<Item>): (r: seq<Item>) {
    if items == [] then [] else Insert(items[0], Sorted(items[1..]))
  }

  lemma {:induction false} InsertKeeps(x: Item, s: seq<Item>)
    ensures |Insert(x, s)| == |s| + 1
    ensures forall y :: y in Insert(x, s) <==> y == x || y in s
  {
    if s != [] && Before(s[0], x) {
      InsertKeeps(x, s[1..]);
      assert s == [s[0]] + s[1..];
    }
  }

  lemma {:induction false} InsertOrders(x: Item, s: seq<Item>)
    requires Ordered(s) && forall y :: y in s ==> !SameKey(x, y)
    ensures Ordered(Insert(x, s))
  {
    if s != [] && Before(s[0], x) {
      assert s == [s[0]] + s[1..];
      InsertOrders(x, s[1..]);
      InsertKeeps(x, s[1..]);
      var r := Insert(x, s[1..]);
      forall j | 0 <= j < |r|
        ensures Before(s[0], r[j])
      {
        assert r[j] in r;
      }
    } else if s != [] {
      assert s[0] in s;
    }
  }

  /** Sorting keeps the items and puts distinct keys in order. */
  lemma {:induction false} SortedIsOrder(items: seq<Item>)
    requires Distinct(items)
    ensures |Sorted(items)| == |items| && Ordered(Sorted(items))
    ensures forall y :: y in Sorted(items) <==> y in items
  {
    if items != [] {
      var s := Sorted(items[1..]);
      SortedIsOrder(items[1..]);
      InsertKeeps(items[0], s);
      assert items == [items[0]] + items[1..];
      forall y | y in s
        ensures !SameKey(items[0], y)
      {
        var j :| 0 <= j < |items[1..]| && items[1..][j] == y;
        assert items[j + 1] == y;
      }
      InsertOrders(items[0], s);
    }
  }

  // ----- the layout -----

  /** Where the data of sorted item `k` starts, with the first layer at `c0`. */
  function Off(items: seq<Item>, c0: nat, k: nat): (o: nat)
    requires k < |items|
    ensures o >= c0
    decreases k
  {
    if k == 0 then Align(c0)
    else if items[k].layer == items[k - 1].layer then End(items, c0, k - 1)
    else Align(End(items, c0, k - 1))
  }

  function End(items: seq<Item>, c0: nat, k: nat): (o: nat)
    requires k < |items|
    ensures o >= c0
    decreases k
  {
    (if k == 0 then Align(c0)
     else if items[k].layer == items[k - 1].layer then End(items, c0, k - 1)
     else Align(End(items, c0, k - 1))) + |items[k].data|
  }

  lemma {:induction false} EndIs(items: seq<Item>, c0: nat, k: nat)
    requires k < |items|
    ensures End(items, c0, k) == Off(items, c0, k) + |items[k].data|
  {
  }

  /** The first item of `k`'s layer. */
  function First(items: seq<Item>, k: nat): (f: nat)
    requires k < |items|
    ensures f <= k && items[f].layer == items[k].layer
    ensures f == 0 || items[f - 1].layer != items[f].layer
  {
    if k == 0 || items[k].layer != items[k - 1].layer then k else First(items, k - 1)
  }

  function LayerStart(items: seq<Item>, c0: nat, k: nat): (o: nat)
    requires k < |items|
  {
    Off(items, c0, First(items, k))
  }

  lemma {:induction false} StartAligned(items: seq<Item>, c0: nat, k: nat)
    requires k < |items|
    ensures LayerStart(items, c0, k) % ALIGN == 0 && LayerStart(items, c0, k) <= Off(items, c0, k)
    decreases k
  {
    if k > 0 && items[k].layer == items[k - 1].layer {
      StartAligned(items, c0, k - 1);
      EndIs(items, c0, k - 1);
    }
  }

  /** Data ranges follow each other. */
  lemma {:induction false} OffsGrow(items: seq<Item>, c0: nat, j: nat, k: nat)
    requires j < k < |items|
    ensures End(items, c0, j) <= Off(items, c0, k)
    decreases k
  {
    if j < k - 1 {
      OffsGrow(items, c0, j, k - 1);
      EndIs(items, c0, k - 1);
    }
  }

  // ----- the tables -----

  function Cell(x: Item): (i: nat) {
    SLOTS * x.layer + x.slot
  }

  predicate InRange(items: seq<Item>, n: nat) {
    forall k :: 0 <= k < |items| ==> items[k].layer < n && items[k].slot < SLOTS
  }

  function MetaOf(items: seq<Item>, c0: nat, k: nat): (m: Meta)
    requires k < |items|
  {
    StartAligned(items, c0, k);
    Meta(items[k].info, Off(items, c0, k) - LayerStart(items, c0, k), |items[k].data|)
  }

  const BLANK := Meta([], 0, 0)

  predicate NoName(info: seq<byte>) {
    info == [] || info[0] == 0
  }

  /** The first `n` items are in the tables. */
  predicate Placed(items: seq<Item>, c0: nat, n: nat, offs: seq<nat>, metas: seq<Meta>)
    requires n <= |items| && InRange(items, |offs|) && |metas| == SLOTS * |offs|
  {
    forall k :: 0 <= k < n ==>
      metas[Cell(items[k])] == MetaOf(items, c0, k) && offs[items[k].layer] == LayerStart(items, c0, k)
  }

  /** A table cell holds nothing unless one of the first `n` items is there. */
  ghost predicate Blank(items: seq<Item>, n: nat, metas: seq<Meta>)
    requires n <= |items|
  {
    forall i :: 0 <= i < |metas| ==> metas[i] == BLANK || exists k :: 0 <= k < n && Cell(items[k]) == i
  }

  lemma {:induction false} CellsDiffer(items: seq<Item>, j: nat, k: nat, n: nat)
    requires Ordered(items) && InRange(items, n) && j < k < |items|
    ensures Cell(items[j]) < Cell(items[k]) < SLOTS * n
  {
    assert Before(items[j], items[k]);
  }

  lemma {:induction false} SameStart(items: seq<Item>, c0: nat, j: nat, k: nat)
    requires Ordered(items) && j <= k < |items| && items[j].layer == items[k].layer
    ensures First(items, j) == First(items, k) && LayerStart(items, c0, j) == LayerStart(items, c0, k)
    decreases k
  {
    if j < k {
      assert !Before(items[k], items[k - 1]) && Before(items[k - 1], items[k]);
      assert j < k - 1 ==> Before(items[j], items[k - 1]);
      SameStart(items, c0, j, k - 1);
    }
  }

  /** The placing loop of `llf_emit`. */
  method Place(items: seq<Item>, n: nat, c0: nat) returns (offs: seq<nat>, metas: seq<Meta>, cursor: nat)
    requires Ordered(items) && InRange(items, n) && items != []
    ensures |offs| == n && |metas| == SLOTS * n && cursor == End(items, c0, |items| - 1)
    ensures Placed(items, c0, |items|, offs, metas) && Blank(items, |items|, metas)
  {
    hide Ordered, MetaOf, LayerStart, Off, Placed, Blank;
    offs, metas := seq(n, _ => 0), seq(SLOTS * n, _ => BLANK);
    NothingPlaced(items, c0, n, offs, metas);
    cursor := c0;
    var last: int := -1;
    for i := 0 to |items|
      invariant |offs| == n && |metas| == SLOTS * n
      invariant cursor == if i == 0 then c0 else End(items, c0, i - 1)
      invariant last == if i == 0 then -1 else items[i - 1].layer
      invariant Placed(items, c0, i, offs, metas) && Blank(items, i, metas)
    {
      var li, slot := items[i].layer, items[i].slot;
      ghost var offs0, metas0 := offs, metas;
      if li != last {
        cursor := Align(cursor);
        offs := offs[li := cursor];
        last := li;
      }
      StartIs(items, c0, i);
      OffIs(items, c0, i);
      if i > 0 && items[i].layer == items[i - 1].layer {
        SameStart(items, c0, i - 1, i);
      }
      assert cursor == Off(items, c0, i) && offs[li] == LayerStart(items, c0, i) by {
        PlacedAt(items, c0, i, offs0, metas0);
      }
      MetaIs(items, c0, i);
      var cell := SLOTS * li + slot;
      metas := metas[cell := Meta(items[i].info, cursor - offs[li], |items[i].data|)];
      OneMorePlaced(items, c0, i, n, offs0, metas0, offs, metas);
      cursor := cursor + |items[i].data|;
      EndIs(items, c0, i);
    }
  }

  lemma {:induction false} PlacedAt(items: seq<Item>, c0: nat, n: nat, offs: seq<nat>, metas: seq<Meta>)
    requires n <= |items| && InRange(items, |offs|) && |metas| == SLOTS * |offs| && Placed(items, c0, n, offs, metas)
    ensures n > 0 ==> offs[items[n - 1].layer] == LayerStart(items, c0, n - 1)
  {
  }

  lemma {:induction false} MetaIs(items: seq<Item>, c0: nat, k: nat)
    requires k < |items|
    ensures LayerStart(items, c0, k) <= Off(items, c0, k)
    ensures MetaOf(items, c0, k) == Meta(items[k].info, Off(items, c0, k) - LayerStart(items, c0, k), |items[k].data|)
  {
    StartAligned(items, c0, k);
  }

  lemma {:induction false} NothingPlaced(items: seq<Item>, c0: nat, n: nat, offs: seq<nat>, metas: seq<Meta>)
    requires InRange(items, n) && |offs| == n && |metas| == SLOTS * n
    requires forall i :: 0 <= i < |metas| ==> metas[i] == BLANK
    ensures Placed(items, c0, 0, offs, metas) && Blank(items, 0, metas)
  {
  }

  lemma {:induction false} OffIs(items: seq<Item>, c0: nat, k: nat)
    requires k < |items|
    ensures
      Off(items, c0, k) == if k == 0 then Align(c0)
                           else if items[k].layer == items[k - 1].layer then End(items, c0, k - 1)
                           else Align(End(items, c0, k - 1))
  {
  }

  lemma {:induction false} StartIs(items: seq<Item>, c0: nat, k: nat)
    requires k < |items|
    ensures LayerStart(items, c0, k) <= Off(items, c0, k)
    ensures k == 0 || items[k].layer != items[k - 1].layer ==> LayerStart(items, c0, k) == Off(items, c0, k)
  {
    StartAligned(items, c0, k);
  }

  lemma {:induction false} OneMorePlaced(items: seq<Item>, c0: nat, i: nat, n: nat, offs0: seq<nat>, metas0: seq<Meta>,
                                         offs: seq<nat>, metas: seq<Meta>)
    requires Ordered(items) && i < |items| && InRange(items, n) && |offs0| == |offs| == n
    requires |metas0| == |metas| == SLOTS * n && Cell(items[i]) < |metas|
    requires Placed(items, c0, i, offs0, metas0) && Blank(items, i, metas0)
    requires metas == metas0[Cell(items[i]) := MetaOf(items, c0, i)]
    requires offs == offs0 || offs == offs0[items[i].layer := LayerStart(items, c0, i)]
    requires offs[items[i].layer] == LayerStart(items, c0, i)
    ensures Placed(items, c0, i + 1, offs, metas) && Blank(items, i + 1, metas)
  {
    hide MetaOf, LayerStart, Ordered;
    forall k | 0 <= k < i
      ensures metas[Cell(items[k])] == MetaOf(items, c0, k) && offs[items[k].layer] == LayerStart(items, c0, k)
    {
      CellsDiffer(items, k, i, n);
      if items[k].layer == items[i].layer {
        SameStart(items, c0, k, i);
      }
    }
    forall c | 0 <= c < |metas|
      ensures metas[c] == BLANK || exists k :: 0 <= k < i + 1 && Cell(items[k]) == c
    {
      if c == Cell(items[i]) {
      } else if metas0[c] != BLANK {
        var k :| 0 <= k < i && Cell(items[k]) == c;
      }
    }
  }

  /** The number of the first `m` items that belong to layer `l`. */
  function CountOf(items: seq<Item>, l: nat, m: nat): (c: nat)
    requires m <= |items|
    ensures c <= m
  {
    if m == 0 then 0 else CountOf(items, l, m - 1) + if items[m - 1].layer == l then 1 else 0
  }

  lemma {:induction false} CountFinds(items: seq<Item>, l: nat, m: nat)
    requires m <= |items|
    ensures CountOf(items, l, m) > 0 <==> exists k :: 0 <= k < m && items[k].layer == l
  {
    if m > 0 {
      CountFinds(items, l, m - 1);
      if items[m - 1].layer != l && exists k :: 0 <= k < m && items[k].layer == l {
        var k :| 0 <= k < m && items[k].layer == l;
        assert k < m - 1;
      }
    }
  }

  /** The plan `llf_emit` accepts: every item in range and no layer without one. */
  predicate PlanOk(items: seq<Item>, n: nat) {
    && items != [] && InRange(items, n)
    && forall l :: 0 <= l < n ==> CountOf(items, l, |items|) > 0
  }

  /** The last item of layer `l`, given one of its items. */
  function Last(items: seq<Item>, k: nat): (m: nat)
    requires k < |items|
    ensures k <= m < |items| && items[m].layer == items[k].layer
    ensures m == |items| - 1 || items[m + 1].layer != items[m].layer
    decreases |items| - k
  {
    if k == |items| - 1 || items[k + 1].layer != items[k].layer then k else Last(items, k + 1)
  }

  lemma {:induction false} LaterLayer(items: seq<Item>, m: nat, i: nat)
    requires Ordered(items) && m < i < |items| && items[m + 1].layer != items[m].layer
    ensures items[i].layer > items[m].layer
  {
    assert Before(items[m], items[m + 1]);
    if m + 1 < i {
      assert Before(items[m + 1], items[i]);
    }
  }

  lemma {:induction false} LastCovers(items: seq<Item>, j: nat, k: nat)
    requires Ordered(items) && j < |items| && k < |items| && items[j].layer == items[k].layer
    ensures j <= Last(items, k)
  {
    var m := Last(items, k);
    if j > m {
      LaterLayer(items, m, j);
      assert false;
    }
  }

  /** The end of layer `l`'s data, as the second loop of `llf_emit` finds it from the table. */
  method LayerEnd(items: seq<Item>, c0: nat, metas: seq<Meta>, offs: seq<nat>, l: nat, loff: nat, ghost k: nat)
    returns (lend: nat)
    requires Ordered(items) && InRange(items, |offs|) && |metas| == SLOTS * |offs| && l < |offs|
    requires k < |items| && items[k].layer == l && loff == LayerStart(items, c0, k)
    requires Placed(items, c0, |items|, offs, metas) && Blank(items, |items|, metas)
    requires forall i :: 0 <= i < |items| ==> |items[i].data| > 0
    ensures lend == End(items, c0, Last(items, k))
  {
    ghost var m := Last(items, k);
    hide MetaOf, LayerStart, Ordered, Placed, Blank, Last;
    lend := 0;
    for s2 := 0 to SLOTS
      invariant lend <= End(items, c0, m)
      invariant items[m].slot < s2 ==> lend == End(items, c0, m)
    {
      SlotFacts(items, c0, metas, offs, l, k, s2);
      var tm := metas[SLOTS * l + s2];
      if tm.size == 0 && NoName(tm.info) {
      } else if loff + tm.offset + tm.size > lend {
        lend := loff + tm.offset + tm.size;
      }
    }
  }

  /** A cell of layer `l` is blank, or an item's whose end is at most the layer's. */
  lemma {:induction false} SlotFacts(items: seq<Item>, c0: nat, metas: seq<Meta>, offs: seq<nat>, l: nat, k: nat, s2: nat)
    requires Ordered(items) && InRange(items, |offs|) && |metas| == SLOTS * |offs| && l < |offs| && s2 < SLOTS
    requires k < |items| && items[k].layer == l
    requires Placed(items, c0, |items|, offs, metas) && Blank(items, |items|, metas)
    requires forall i :: 0 <= i < |items| ==> |items[i].data| > 0
    ensures
      var (m, tm) := (Last(items, k), metas[SLOTS * l + s2]);
      var e := LayerStart(items, c0, k) + tm.offset + tm.size;
      && (tm.size == 0 <==> tm == BLANK)
      && (tm.size > 0 ==> e <= End(items, c0, m))
      && (items[m].slot == s2 ==> tm.size > 0 && e == End(items, c0, m))
  {
    hide MetaOf, LayerStart, Ordered;
    var m, c := Last(items, k), SLOTS * l + s2;
    if items[m].slot == s2 {
      assert Cell(items[m]) == c;
      MetaSize(items, c0, m);
      SlotEnd(items, c0, m, k, m);
    } else if metas[c] != BLANK {
      var j :| 0 <= j < |items| && Cell(items[j]) == c;
      assert items[j].layer == l;
      MetaSize(items, c0, j);
      SlotEnd(items, c0, j, k, m);
    }
  }

  lemma {:induction false} MetaSize(items: seq<Item>, c0: nat, k: nat)
    requires k < |items|
    ensures MetaOf(items, c0, k).size == |items[k].data|
  {
  }

  lemma {:induction false} SlotEnd(items: seq<Item>, c0: nat, j: nat, k: nat, m: nat)
    requires Ordered(items) && j < |items| && k < |items| && items[j].layer == items[k].layer && m == Last(items, k)
    ensures
      var tm := MetaOf(items, c0, j);
      && LayerStart(items, c0, k) + tm.offset + tm.size == End(items, c0, j) <= End(items, c0, m)
  {
    LastCovers(items, j, k);
    EndIs(items, c0, j);
    StartAligned(items, c0, j);
    if j <= k {
      SameStart(items, c0, j, k);
    } else {
      SameStart(items, c0, k, j);
    }
    if j < m {
      OffsGrow(items, c0, j, m);
      EndIs(items, c0, m);
    }
  }

  // ----- the finished tables -----

  predicate Positive(items: seq<Item>) {
    forall i :: 0 <= i < |items| ==> |items[i].data| > 0
  }

  /** Where the tables end and the first layer starts. */
  function TablesEnd(n: nat): (e: nat) {
    HEADER + ENTRY * n + META * (SLOTS * n)
  }

  function FirstStart(n: nat): (c: nat) {
    Align(TablesEnd(n))
  }

  /** The directory entry of layer `l`, one of whose items is `k`. */
  predicate EntryOf(items: seq<Item>, c0: nat, d: Dir, k: nat)
    requires k < |items|
  {
    && d.offset == LayerStart(items, c0, k)
    && d.offset + d.size == Align(End(items, c0, Last(items, k)))
    && d.count == CountOf(items, items[k].layer, |items|)
  }

  /** The first `m` entries are finished. */
  ghost predicate Entered(items: seq<Item>, c0: nat, dir: seq<Dir>, m: nat)
    requires m <= |dir|
  {
    forall k :: 0 <= k < |items| && items[k].layer < m ==> EntryOf(items, c0, dir[items[k].layer], k)
  }

  /** Counting items per layer: the plan's refusals. */
  method CountLayers(items: seq<Item>, n: nat) returns (ok: bool, per: seq<nat>)
    requires items != []
    ensures ok <==> PlanOk(items, n)
    ensures ok ==> |per| == n && forall l :: 0 <= l < n ==> per[l] == CountOf(items, l, |items|)
  {
    per := seq(n, _ => 0);
    for i := 0 to |items|
      invariant |per| == n
      invariant forall k :: 0 <= k < i ==> items[k].layer < n && items[k].slot < SLOTS
      invariant forall l :: 0 <= l < n ==> per[l] == CountOf(items, l, i)
    {
      if items[i].layer >= n || items[i].slot >= SLOTS {
        return false, per;
      }
      per := per[items[i].layer := per[items[i].layer] + 1];
    }
    for l := 0 to n
      invariant forall j :: 0 <= j < l ==> per[j] > 0
    {
      if per[l] == 0 {
        return false, per;
      }
    }
    ok := true;
  }

  /** The directory loop of `llf_emit`. */
  method Enter(items: seq<Item>, n: nat, c0: nat, offs: seq<nat>, metas: seq<Meta>, per: seq<nat>)
    returns (dir: seq<Dir>)
    requires Ordered(items) && PlanOk(items, n) && Positive(items) && |offs| == |per| == n && |metas| == SLOTS * n
    requires Placed(items, c0, |items|, offs, metas) && Blank(items, |items|, metas)
    requires forall l :: 0 <= l < n ==> per[l] == CountOf(items, l, |items|)
    ensures |dir| == n && Entered(items, c0, dir, n)
  {
    hide Ordered, MetaOf, LayerStart, Placed, Blank, Last, CountOf, EntryOf;
    dir := [];
    for l := 0 to n
      invariant |dir| == l && Entered(items, c0, dir, l)
    {
      ghost var k := ItemOf(items, l);
      OffsetIs(items, c0, offs, metas, k);
      var loff := Align(offs[l]);
      var lend := LayerEnd(items, c0, metas, offs, l, loff, k);
      lend := Align(lend);
      RoomInLayer(items, c0, k);
      var d := Dir(loff, lend - loff, per[l]);
      EntryHolds(items, c0, d, k);
      dir := dir + [d];
    }
  }

  ghost function ItemOf(items: seq<Item>, l: nat): (k: nat)
    requires CountOf(items, l, |items|) > 0
    ensures k < |items| && items[k].layer == l
  {
    CountFinds(items, l, |items|);
    var k :| 0 <= k < |items| && items[k].layer == l;
    k
  }

  lemma {:induction false} OffsetIs(items: seq<Item>, c0: nat, offs: seq<nat>, metas: seq<Meta>, k: nat)
    requires InRange(items, |offs|) && |metas| == SLOTS * |offs| && k < |items|
    requires Placed(items, c0, |items|, offs, metas)
    ensures offs[items[k].layer] == LayerStart(items, c0, k) == Align(LayerStart(items, c0, k))
  {
    hide MetaOf, LayerStart, Align;
    StartAligned(items, c0, k);
    AlignedStays(LayerStart(items, c0, k));
  }

  lemma {:induction false} AlignedStays(v: nat)
    requires v % ALIGN == 0
    ensures Align(v) == v
  {
  }

  lemma {:induction false} RoomInLayer(items: seq<Item>, c0: nat, k: nat)
    requires Ordered(items) && k < |items|
    ensures LayerStart(items, c0, k) <= End(items, c0, Last(items, k))
  {
    var m := Last(items, k);
    SlotEnd(items, c0, m, k, m);
  }

  lemma {:induction false} EntryHolds(items: seq<Item>, c0: nat, d: Dir, k: nat)
    requires Ordered(items) && k < |items| && d.offset == LayerStart(items, c0, k)
    requires d.offset + d.size == Align(End(items, c0, Last(items, k)))
    requires d.count == CountOf(items, items[k].layer, |items|)
    ensures forall j :: 0 <= j < |items| && items[j].layer == items[k].layer ==> EntryOf(items, c0, d, j)
  {
    hide Ordered, CountOf, LayerStart;
    forall j | 0 <= j < |items| && items[j].layer == items[k].layer
      ensures EntryOf(items, c0, d, j)
    {
      if j <= k {
        SameStart(items, c0, j, k);
      } else {
        SameStart(items, c0, k, j);
      }
      LastCovers(items, Last(items, j), k);
      LastCovers(items, Last(items, k), j);
    }
  }

  // ----- the bytes of the tables -----

  const INFO := 48

  function EncDir(d: Dir): (b: seq<byte>)
    ensures |b| == ENTRY
  {
    Enc(d.offset, 8) + (Enc(d.size, 8) + (Enc(d.count, 4) + Zeros(12)))
  }

  function EncMeta(m: Meta): (b: seq<byte>)
    ensures |b| == META
  {
    (if |m.info| == INFO then m.info else Zeros(INFO)) + (Enc(m.offset, 8) + Enc(m.size, 8))
  }

  function DirTable(dir: seq<Dir>, n: nat): (b: seq<byte>)
    requires n <= |dir|
    ensures |b| == ENTRY * n
  {
    if n == 0 then [] else DirTable(dir, n - 1) + EncDir(dir[n - 1])
  }

  function MetaTable(metas: seq<Meta>, n: nat): (b: seq<byte>)
    requires n <= |metas|
    ensures |b| == META * n
  {
    if n == 0 then [] else MetaTable(metas, n - 1) + EncMeta(metas[n - 1])
  }

  lemma {:induction false} DirTableAt(dir: seq<Dir>, n: nat, i: nat)
    requires i < n <= |dir|
    ensures DirTable(dir, n)[ENTRY * i..ENTRY * i + ENTRY] == EncDir(dir[i])
  {
    hide EncDir;
    if i < n - 1 {
      DirTableAt(dir, n - 1, i);
    }
  }

  lemma {:induction false} MetaTableAt(metas: seq<Meta>, n: nat, i: nat)
    requires i < n <= |metas|
    ensures MetaTable(metas, n)[META * i..META * i + META] == EncMeta(metas[i])
  {
    hide EncMeta;
    if i < n - 1 {
      MetaTableAt(metas, n - 1, i);
    }
  }

  function DecDir(b: seq<byte>): (d: Dir)
    requires |b| == ENTRY
  {
    Dir(Dec(b[..8]), Dec(b[8..16]), Dec(b[16..20]))
  }

  function DecMeta(b: seq<byte>): (m: Meta)
    requires |b| == META
  {
    Meta(b[..INFO], Dec(b[INFO..INFO + 8]), Dec(b[INFO + 8..INFO + 16]))
  }

  /** The parts of four pieces put together. */
  lemma {:induction false} Pieces(a: seq<byte>, b: seq<byte>, c: seq<byte>, d: seq<byte>)
    ensures
      var s := a + (b + (c + d));
      && s[..|a|] == a && s[|a|..|a| + |b|] == b && s[|a| + |b|..|a| + |b| + |c|] == c && s[|a| + |b| + |c|..] == d
  {
  }

  lemma {:induction false} DirRoundTrip(d: Dir)
    requires d.offset < U64 && d.size < U64 && d.count < U32
    ensures DecDir(EncDir(d)) == d
  {
    Widths();
    FieldRoundTrip(d.offset, 8);
    FieldRoundTrip(d.size, 8);
    FieldRoundTrip(d.count, 4);
    hide Enc, Dec, Zeros, Pow256;
    Pieces(Enc(d.offset, 8), Enc(d.size, 8), Enc(d.count, 4), Zeros(12));
  }

  lemma {:induction false} MetaRoundTrip(m: Meta)
    requires m.offset < U64 && m.size < U64 && |m.info| == INFO
    ensures DecMeta(EncMeta(m)) == m
  {
    Widths();
    FieldRoundTrip(m.offset, 8);
    FieldRoundTrip(m.size, 8);
    hide Enc, Dec, Zeros, Pow256;
    var a, b := Enc(m.offset, 8), Enc(m.size, 8);
    Pieces(m.info, a, b, []);
    assert m.info + (a + (b + [])) == EncMeta(m) by { assert b + [] == b; }
  }

  const MAGIC: seq<byte> := [0x59, 0x4c, 0x4c, 0x4d, 0x4c, 0x4c, 0x46, 0x31]
  const VERSION := 6

  predicate HeaderOk(h: Header) {
    |h.magic| == 8 && h.version < U32 && |h.arch| == 4 && h.nBlocks < U32 && |h.rest| == 100
  }

  function EncHeader(h: Header, fileSize: nat): (b: seq<byte>)
    requires HeaderOk(h)
    ensures |b| == HEADER
  {
    h.magic + (Enc(h.version, 4) + (h.arch + (Enc(fileSize, 8) + (Enc(h.nBlocks, 4) + h.rest))))
  }

  lemma {:induction false} HeaderRoundTrip(h: Header, fileSize: nat)
    requires HeaderOk(h) && fileSize < U64
    ensures
      var b := EncHeader(h, fileSize);
      && b[..8] == h.magic && Dec(b[8..12]) == h.version && Dec(b[16..24]) == fileSize && Dec(b[24..28]) == h.nBlocks
  {
    Widths();
    FieldRoundTrip(h.version, 4);
    FieldRoundTrip(fileSize, 8);
    FieldRoundTrip(h.nBlocks, 4);
    hide Enc, Dec, Pow256;
    var tail := Enc(fileSize, 8) + (Enc(h.nBlocks, 4) + h.rest);
    var b := EncHeader(h, fileSize);
    Pieces(h.magic, Enc(h.version, 4), h.arch, tail);
    Pieces(Enc(fileSize, 8), Enc(h.nBlocks, 4), h.rest, []);
    assert Enc(fileSize, 8) + (Enc(h.nBlocks, 4) + (h.rest + [])) == tail by { assert h.rest + [] == h.rest; }
    TailSlice(b, 16, tail, 0, 8);
    TailSlice(b, 16, tail, 8, 12);
  }

  lemma {:induction false} TailSlice(b: seq<byte>, k: nat, tail: seq<byte>, i: nat, j: nat)
    requires k <= |b| && b[k..] == tail && i <= j <= |tail|
    ensures b[k + i..k + j] == tail[i..j]
  {
    assert b[k..][i..j] == b[k + i..k + j];
  }

  // ----- reading -----

  function FileDir(f: seq<byte>, l: nat): (d: Dir)
    requires HEADER + ENTRY * l + ENTRY <= |f|
  {
    DecDir(f[HEADER + ENTRY * l..HEADER + ENTRY * l + ENTRY])
  }

  function FileMeta(f: seq<byte>, n: nat, i: nat): (m: Meta)
    requires HEADER + ENTRY * n + META * i + META <= |f|
  {
    DecMeta(f[HEADER + ENTRY * n + META * i..HEADER + ENTRY * n + META * i + META])
  }

  /** The files `llf_read` accepts. */
  predicate Accepts(f: seq<byte>) {
    && |f| >= HEADER && f[..8] == MAGIC && Dec(f[8..12]) == VERSION && Dec(f[16..24]) == |f|
    && var n := NLayers(Dec(f[24..28]));
       && HEADER + ENTRY * n <= |f|
       && forall l :: 0 <= l < n ==>
         FileDir(f, l).offset % ALIGN == 0 && (FileDir(f, l).offset + FileDir(f, l).size) % U64 <= |f|
  }

  /** `llf_read`. */
  method Read(f: seq<byte>) returns (ok: bool, nLayers: nat)
    ensures ok <==> Accepts(f)
    ensures ok ==> nLayers == NLayers(Dec(f[24..28]))
  {
    hide DecDir, Dec;
    nLayers := 0;
    if |f| < HEADER || f[..8] != MAGIC || Dec(f[8..12]) != VERSION || Dec(f[16..24]) != |f| {
      return false, 0;
    }
    nLayers := NLayers(Dec(f[24..28]));
    if HEADER + ENTRY * nLayers > |f| {
      return false, 0;
    }
    for j := 0 to nLayers
      invariant forall l :: 0 <= l < j ==>
        FileDir(f, l).offset % ALIGN == 0 && (FileDir(f, l).offset + FileDir(f, l).size) % U64 <= |f|
    {
      var d := FileDir(f, j);
      if d.offset % ALIGN != 0 || (d.offset + d.size) % U64 > |f| {
        return false, 0;
      }
    }
    ok := true;
  }

  // ----- writing -----

  const CHUNK := 0x40_0000

  /** A tensor goes out in chunks of at most 4 MB. */
  method WriteData(f0: seq<byte>, off: nat, data: seq<byte>, chunk: nat) returns (f: seq<byte>)
    requires |f0| <= off && data != [] && chunk > 0
    ensures |f| == off + |data| && f[..|f0|] == f0 && f[off..] == data
  {
    f := f0;
    var n := 0;
    while n < |data|
      invariant n <= |data|
      invariant if n == 0 then f == f0 else |f| == off + n && f[..|f0|] == f0 && f[off..] == data[..n]
    {
      var take := if |data| - n > chunk then chunk else |data| - n;
      WriteBehind(f, off + n, data[n..n + take]);
      ghost var g := f;
      f := WriteAt(f, off + n, data[n..n + take]);
      hide WriteAt;
      Grown(f0, g, f, off, data, n, take);
      n := n + take;
    }
    assert data[..|data|] == data;
  }

  lemma {:induction false} Grown(f0: seq<byte>, g: seq<byte>, f: seq<byte>, off: nat, data: seq<byte>, n: nat, take: nat)
    requires |f0| <= off && n + take <= |data| && take > 0
    requires if n == 0 then g == f0 else |g| == off + n && g[..|f0|] == f0 && g[off..] == data[..n]
    requires |f| == off + n + take && |g| <= |f| && f[..|g|] == g && f[off + n..off + n + take] == data[n..n + take]
    ensures f[..|f0|] == f0 && f[off..] == data[..n + take]
  {
    assert f[..|f0|] == f[..|g|][..|f0|];
    if n > 0 {
      assert f[off..off + n] == f[..|g|][off..off + n] == g[off..];
      assert f[off..] == f[off..off + n] + f[off + n..];
      assert data[..n + take] == data[..n] + data[n..n + take];
    } else {
      assert f[off..] == f[off..off + take];
    }
  }

  datatype Tables = Tables(header: seq<byte>, dir: seq<Dir>, metas: seq<Meta>)

  predicate TablesIn(f: seq<byte>, t: Tables) {
    var d := HEADER + ENTRY * |t.dir|;
    && |f| >= d + META * |t.metas| && |t.header| == HEADER
    && f[..HEADER] == t.header && f[HEADER..d] == DirTable(t.dir, |t.dir|)
    && f[d..d + META * |t.metas|] == MetaTable(t.metas, |t.metas|)
  }

  predicate DataIn(f: seq<byte>, items: seq<Item>, c0: nat, m: nat)
    requires m <= |items|
  {
    forall k :: 0 <= k < m ==>
      Off(items, c0, k) <= End(items, c0, k) <= |f| && f[Off(items, c0, k)..End(items, c0, k)] == items[k].data
  }

  lemma {:induction false} StillIn(f: seq<byte>, g: seq<byte>, t: Tables, items: seq<Item>, c0: nat, m: nat)
    requires m <= |items| && |f| <= |g| && g[..|f|] == f && TablesIn(f, t) && DataIn(f, items, c0, m)
    ensures TablesIn(g, t) && DataIn(g, items, c0, m)
  {
    hide DirTable, MetaTable, Off, End;
    var d := HEADER + ENTRY * |t.dir|;
    SameSlice(f, g, 0, HEADER);
    SameSlice(f, g, HEADER, d);
    SameSlice(f, g, d, d + META * |t.metas|);
    forall k | 0 <= k < m
      ensures g[Off(items, c0, k)..End(items, c0, k)] == items[k].data
    {
      SameSlice(f, g, Off(items, c0, k), End(items, c0, k));
    }
  }

  lemma {:induction false} SameSlice(f: seq<byte>, g: seq<byte>, a: nat, b: nat)
    requires a <= b <= |f| <= |g| && g[..|f|] == f
    ensures g[a..b] == f[a..b]
  {
    forall i | a <= i < b
      ensures g[i] == f[i]
    {
      assert g[..|f|][i] == g[i];
    }
  }

  /** Header, directory and metas, in one write each. */
  method WriteTables(t: Tables) returns (f: seq<byte>)
    requires |t.header| == HEADER && t.dir != [] && t.metas != []
    ensures |f| == HEADER + ENTRY * |t.dir| + META * |t.metas| && TablesIn(f, t)
  {
    hide DirTable, MetaTable;
    var d := HEADER + ENTRY * |t.dir|;
    WriteBehind([], 0, t.header);
    var f0 := WriteAt([], 0, t.header);
    WriteBehind(f0, HEADER, DirTable(t.dir, |t.dir|));
    var f1 := WriteAt(f0, HEADER, DirTable(t.dir, |t.dir|));
    WriteBehind(f1, d, MetaTable(t.metas, |t.metas|));
    f := WriteAt(f1, d, MetaTable(t.metas, |t.metas|));
    hide WriteAt;
    SameSlice(f0, f1, 0, HEADER);
    SameSlice(f1, f, 0, HEADER);
    SameSlice(f1, f, HEADER, d);
    assert f0[..HEADER] == f0;
  }

  function FileEnd(items: seq<Item>, c0: nat): (e: nat)
    requires items != []
  {
    Align(End(items, c0, |items| - 1))
  }

  /** The data loop and the padding at the end. */
  method WriteItems(f0: seq<byte>, t: Tables, items: seq<Item>, c0: nat) returns (f: seq<byte>)
    requires TablesIn(f0, t) && |f0| <= c0 && items != [] && Positive(items)
    ensures TablesIn(f, t) && DataIn(f, items, c0, |items|) && |f| == FileEnd(items, c0)
  {
    hide TablesIn, DataIn, Off, End;
    f := f0;
    NoData(f, items, c0);
    for i := 0 to |items|
      invariant TablesIn(f, t) && DataIn(f, items, c0, i)
      invariant if i == 0 then |f| <= c0 else |f| == End(items, c0, i - 1)
    {
      StartsBehind(items, c0, i);
      ghost var g := f;
      f := WriteData(f, Off(items, c0, i), items[i].data, CHUNK);
      EndIs(items, c0, i);
      StillIn(g, f, t, items, c0, i);
      OneMoreIn(f, items, c0, i);
    }
    var cursor := |f|;
    var pos := Align(cursor);
    if pos > cursor {
      ghost var g := f;
      f := WriteData(f, cursor, Zeros(pos - cursor), 4096);
      StillIn(g, f, t, items, c0, |items|);
    }
  }

  lemma {:induction false} NoData(f: seq<byte>, items: seq<Item>, c0: nat)
    ensures DataIn(f, items, c0, 0)
  {
  }

  lemma {:induction false} StartsBehind(items: seq<Item>, c0: nat, i: nat)
    requires i < |items|
    ensures Off(items, c0, i) >= if i == 0 then c0 else End(items, c0, i - 1)
  {
    OffIs(items, c0, i);
  }

  lemma {:induction false} OneMoreIn(f: seq<byte>, items: seq<Item>, c0: nat, i: nat)
    requires i < |items| && DataIn(f, items, c0, i) && |f| == End(items, c0, i) && Off(items, c0, i) <= |f|
    requires f[Off(items, c0, i)..] == items[i].data
    ensures DataIn(f, items, c0, i + 1)
  {
    hide Off, End;
    var (o, e) := (Off(items, c0, i), End(items, c0, i));
    assert f[o..e] == f[o..];
  }

  // ----- emitting -----

  datatype Result<T> = Ok(value: T) | Err

  predicate InfosOk(items: seq<Item>) {
    forall k :: 0 <= k < |items| ==> |items[k].info| == INFO
  }

  /** The finished file: its tables describe the sorted items, and every item's bytes are in place. */
  ghost predicate Emitted(f: seq<byte>, h: Header, items: seq<Item>, t: Tables)
    requires HeaderOk(h) && items != []
  {
    var n := NLayers(h.nBlocks);
    var c0 := FirstStart(n);
    && PlanOk(items, n) && |t.dir| == n && |t.metas| == SLOTS * n && t.header == EncHeader(h, |f|)
    && (forall k :: 0 <= k < |items| ==> t.metas[Cell(items[k])] == MetaOf(items, c0, k))
    && Entered(items, c0, t.dir, n)
    && TablesIn(f, t) && DataIn(f, items, c0, |items|) && |f| == FileEnd(items, c0)
  }

  /** `llf_emit`. */
  method Emit(h: Header, plan: seq<Item>) returns (r: Result<seq<byte>>, ghost t: Tables)
    requires HeaderOk(h) && Distinct(plan) && Positive(plan)
    ensures
      var n := NLayers(h.nBlocks);
      r.Ok? <==> PlanOk(Sorted(plan), n)
    ensures r.Ok? ==> Sorted(plan) != [] && Emitted(r.value, h, Sorted(plan), t)
  {
    hide PlanOk, Ordered, Distinct, Placed, Blank, Entered, TablesIn, DataIn, Sorted, End, Positive, CountOf, EncHeader;
    t := Tables([], [], []);
    SortedIsOrder(plan);
    if plan == [] {
      NoPlan(NLayers(h.nBlocks));
      return Err, t;
    }
    var items, n := Sorted(plan), NLayers(h.nBlocks);
    var ok, per := CountLayers(items, n);
    if !ok {
      return Err, t;
    }
    PlanFacts(plan, items, n);
    var c0 := FirstStart(n);
    var offs, metas, cursor := Place(items, n, c0);
    var dir := Enter(items, n, c0, offs, metas, per);
    var fileSize := Align(cursor);
    var tt := Tables(EncHeader(h, fileSize), dir, metas);
    var f := WriteTables(tt);
    f := WriteItems(f, tt, items, c0);
    t := tt;
    PlacedMetas(items, c0, offs, metas);
    return Ok(f), t;
  }

  lemma {:induction false} NoPlan(n: nat)
    ensures !PlanOk([], n)
  {
  }

  lemma {:induction false} PlanFacts(plan: seq<Item>, items: seq<Item>, n: nat)
    requires PlanOk(items, n) && Positive(plan) && forall y :: y in items <==> y in plan
    ensures n > 0 && InRange(items, n) && Positive(items)
  {
    forall i | 0 <= i < |items|
      ensures |items[i].data| > 0
    {
      assert items[i] in items;
      assert items[i] in plan;
    }
    assert items[0].layer < n;
  }

  lemma {:induction false} PlacedMetas(items: seq<Item>, c0: nat, offs: seq<nat>, metas: seq<Meta>)
    requires InRange(items, |offs|) && |metas| == SLOTS * |offs| && Placed(items, c0, |items|, offs, metas)
    ensures forall k :: 0 <= k < |items| ==> Cell(items[k]) < |metas| && metas[Cell(items[k])] == MetaOf(items, c0, k)
  {
    hide MetaOf, LayerStart;
  }

  // ----- what a reader finds -----

  /** Layer `l`'s first byte and the byte behind its last, in terms of one of its items. */
  lemma {:induction false} LayerBounds(items: seq<Item>, n: nat, k: nat)
    requires Ordered(items) && PlanOk(items, n) && k < |items|
    ensures
      var (c0, m, l) := (FirstStart(n), Last(items, k), items[k].layer);
      && (l == 0 ==> LayerStart(items, c0, k) == c0)
      && (l == n - 1 ==> Align(End(items, c0, m)) == FileEnd(items, c0))
      && (l < n - 1 ==> m + 1 < |items| && items[m + 1].layer == l + 1
                        && Align(End(items, c0, m)) == LayerStart(items, c0, m + 1))
  {
    hide Ordered, PlanOk, Align, Off, End, Last, First, LayerStart, FileEnd, FirstStart;
    if items[k].layer == 0 { FirstBound(items, n, k); }
    if items[k].layer < n - 1 { NextBound(items, n, k); }
    if items[k].layer == n - 1 { LastBound(items, n, k); }
  }

  lemma {:induction false} FirstBound(items: seq<Item>, n: nat, k: nat)
    requires Ordered(items) && k < |items| && items[k].layer == 0
    ensures LayerStart(items, FirstStart(n), k) == FirstStart(n)
  {
    hide Ordered;
    LayerZero(items, k);
    AlignedStays(FirstStart(n));
  }

  lemma {:induction false} LastBound(items: seq<Item>, n: nat, k: nat)
    requires Ordered(items) && PlanOk(items, n) && k < |items| && items[k].layer == n - 1
    ensures Align(End(items, FirstStart(n), Last(items, k))) == FileEnd(items, FirstStart(n))
  {
    hide Ordered, CountOf, Align, End, Last;
    LastLayer(items, n, k);
  }

  lemma {:induction false} NextBound(items: seq<Item>, n: nat, k: nat)
    requires Ordered(items) && PlanOk(items, n) && k < |items| && items[k].layer < n - 1
    ensures
      var (c0, m) := (FirstStart(n), Last(items, k));
      && m + 1 < |items| && items[m + 1].layer == items[k].layer + 1
      && Align(End(items, c0, m)) == LayerStart(items, c0, m + 1)
  {
    hide Ordered, PlanOk, Align, Off, End, Last, FirstStart;
    NextLayer(items, n, k);
    OffIs(items, FirstStart(n), Last(items, k) + 1);
  }

  lemma {:induction false} LayersRise(items: seq<Item>, i: nat, j: nat)
    requires Ordered(items) && i <= j < |items|
    ensures items[i].layer <= items[j].layer
  {
    if i < j {
      assert Before(items[i], items[j]);
    }
  }

  lemma {:induction false} LayerZero(items: seq<Item>, k: nat)
    requires Ordered(items) && k < |items| && items[k].layer == 0
    ensures First(items, k) == 0
  {
    LayersRise(items, 0, k);
    SameStart(items, 0, 0, k);
  }

  lemma {:induction false} LastLayer(items: seq<Item>, n: nat, k: nat)
    requires Ordered(items) && InRange(items, n) && k < |items| && items[k].layer == n - 1
    ensures Last(items, k) == |items| - 1
  {
    LayersRise(items, k, |items| - 1);
    LastCovers(items, |items| - 1, k);
  }

  lemma {:induction false} NextLayer(items: seq<Item>, n: nat, k: nat)
    requires Ordered(items) && PlanOk(items, n) && k < |items| && items[k].layer < n - 1
    ensures Last(items, k) + 1 < |items| && items[Last(items, k) + 1].layer == items[k].layer + 1
  {
    hide CountOf, Ordered;
    var m, l := Last(items, k), items[k].layer;
    var j := ItemOf(items, l + 1);
    if j <= m {
      LayersRise(items, j, m);
      assert false;
    }
    LaterLayer(items, m, m + 1);
    LayersRise(items, m + 1, j);
  }

  predicate Fits(f: seq<byte>, items: seq<Item>) {
    |f| < U64 && |items| < U32
  }

  lemma {:induction false} Monotone(items: seq<Item>, c0: nat, k: nat)
    requires k < |items|
    ensures LayerStart(items, c0, k) <= Off(items, c0, k) <= End(items, c0, k) <= End(items, c0, |items| - 1)
  {
    StartAligned(items, c0, k);
    EndIs(items, c0, k);
    if k < |items| - 1 {
      OffsGrow(items, c0, k, |items| - 1);
      EndIs(items, c0, |items| - 1);
    }
  }

  /** The directory entry a reader finds for an item's layer. */
  lemma {:induction false} DirRead(f: seq<byte>, h: Header, items: seq<Item>, t: Tables, k: nat)
    requires HeaderOk(h) && items != [] && Emitted(f, h, items, t) && Fits(f, items) && k < |items| && Ordered(items)
    ensures HEADER + ENTRY * items[k].layer + ENTRY <= |f| && items[k].layer < |t.dir|
    ensures FileDir(f, items[k].layer) == t.dir[items[k].layer]
    ensures EntryOf(items, FirstStart(|t.dir|), t.dir[items[k].layer], k)
  {
    hide TablesIn, DataIn, EncHeader, FileEnd, Ordered, MetaOf, EntryOf, CountOf, DecDir;
    var n, l := |t.dir|, items[k].layer;
    assert l < n && EntryOf(items, FirstStart(n), t.dir[l], k);
    EntryFits(items, FirstStart(n), t.dir[l], k);
    DirEntryRead(f, t, l);
  }

  lemma {:induction false} DirEntryRead(f: seq<byte>, t: Tables, l: nat)
    requires TablesIn(f, t) && l < |t.dir| && t.dir[l].offset < U64 && t.dir[l].size < U64 && t.dir[l].count < U32
    ensures HEADER + ENTRY * l + ENTRY <= |f| && FileDir(f, l) == t.dir[l]
  {
    hide EncDir, DecDir, DirTable, MetaTable, TablesIn;
    DirInFile(f, t, l);
    DirRoundTrip(t.dir[l]);
  }

  lemma {:induction false} DirInFile(f: seq<byte>, t: Tables, l: nat)
    requires TablesIn(f, t) && l < |t.dir|
    ensures HEADER + ENTRY * l + ENTRY <= |f|
    ensures f[HEADER + ENTRY * l..HEADER + ENTRY * l + ENTRY] == EncDir(t.dir[l])
  {
    hide EncDir, DirTable, MetaTable;
    DirTableAt(t.dir, |t.dir|, l);
    SliceOfTable(f, HEADER, DirTable(t.dir, |t.dir|), ENTRY * l, ENTRY * l + ENTRY);
  }

  lemma {:induction false} MetaInFile(f: seq<byte>, t: Tables, c: nat)
    requires TablesIn(f, t) && c < |t.metas|
    ensures
      var o := HEADER + ENTRY * |t.dir| + META * c;
      o + META <= |f| && f[o..o + META] == EncMeta(t.metas[c])
  {
    hide EncMeta, DirTable, MetaTable;
    MetaTableAt(t.metas, |t.metas|, c);
    SliceOfTable(f, HEADER + ENTRY * |t.dir|, MetaTable(t.metas, |t.metas|), META * c, META * c + META);
  }

  lemma {:induction false} EntryFits(items: seq<Item>, c0: nat, d: Dir, k: nat)
    requires k < |items| && EntryOf(items, c0, d, k) && Ordered(items)
    ensures d.offset + d.size <= FileEnd(items, c0) && d.count <= |items|
  {
    hide Ordered, CountOf, LayerStart, Off, End;
    Monotone(items, c0, Last(items, k));
    AlignMonotone(End(items, c0, Last(items, k)), End(items, c0, |items| - 1));
  }

  lemma {:induction false} AlignMonotone(a: nat, b: nat)
    requires a <= b
    ensures Align(a) <= Align(b)
  {
  }

  lemma {:induction false} SliceOfTable(f: seq<byte>, o: nat, table: seq<byte>, a: nat, b: nat)
    requires o + |table| <= |f| && f[o..o + |table|] == table && a <= b <= |table|
    ensures f[o + a..o + b] == table[a..b]
  {
    forall i | a <= i < b
      ensures f[o + i] == table[i]
    {
      assert f[o..o + |table|][i] == f[o + i];
    }
  }

  /** The tensor entry a reader finds for an item. */
  lemma {:induction false} MetaRead(f: seq<byte>, h: Header, items: seq<Item>, t: Tables, k: nat)
    requires HeaderOk(h) && items != [] && Emitted(f, h, items, t) && Fits(f, items) && k < |items| && InfosOk(items)
    ensures
      var n := |t.dir|;
      && HEADER + ENTRY * n + META * Cell(items[k]) + META <= |f|
      && FileMeta(f, n, Cell(items[k])) == MetaOf(items, FirstStart(n), k)
  {
    hide DecMeta, EncMeta, Off, End, Last, MetaOf, CountOf, EncHeader, DataIn, LayerStart, Entered, DirTable, MetaTable;
    var n, c := |t.dir|, Cell(items[k]);
    assert items[k].layer < n && items[k].slot < SLOTS;
    MetaInFile(f, t, c);
    MetaFits(items, FirstStart(n), k);
    MetaRoundTrip(t.metas[c]);
  }

  lemma {:induction false} MetaFits(items: seq<Item>, c0: nat, k: nat)
    requires k < |items|
    ensures
      var m := MetaOf(items, c0, k);
      && LayerStart(items, c0, k) + m.offset == Off(items, c0, k) && m.offset + m.size <= FileEnd(items, c0)
      && m.info == items[k].info && Off(items, c0, k) + m.size == End(items, c0, k)
  {
    hide Off, End, LayerStart;
    MetaIs(items, c0, k);
    Monotone(items, c0, k);
    EndIs(items, c0, k);
  }

  lemma {:induction false} HeaderRead(f: seq<byte>, h: Header, items: seq<Item>, t: Tables)
    requires HeaderOk(h) && items != [] && Emitted(f, h, items, t) && |f| < U64
    ensures |f| >= HEADER && f[..8] == h.magic && Dec(f[8..12]) == h.version && Dec(f[16..24]) == |f|
    ensures NLayers(Dec(f[24..28])) == |t.dir| && HEADER + ENTRY * |t.dir| <= |f|
  {
    hide DirTable, MetaTable, Off, End, Last, Align, MetaOf, CountOf, EncHeader, DataIn, LayerStart, Entered, Dec, PlanOk;
    HeaderRoundTrip(h, |f|);
    var b := f[..HEADER];
    assert f[..8] == b[..8] && f[8..12] == b[8..12] && f[16..24] == b[16..24] && f[24..28] == b[24..28];
  }

  /** Reading tensor (`l`, `slot`) at its layer's offset plus its own. */
  function Tensor(f: seq<byte>, l: nat, slot: nat): (data: Result<seq<byte>>) {
    if !Accepts(f) then Err
    else
      var n := NLayers(Dec(f[24..28]));
      if l >= n || slot >= SLOTS || HEADER + ENTRY * n + META * (SLOTS * l + slot) + META > |f| then Err
      else
        var (d, m) := (FileDir(f, l), FileMeta(f, n, SLOTS * l + slot));
        if d.offset + m.offset + m.size > |f| then Err
        else Ok(f[d.offset + m.offset..d.offset + m.offset + m.size])
  }

  /** The layers' byte ranges are aligned, follow each other without gap or overlap from the
      first aligned byte behind the tables, and end with the file. */
  predicate Tiled(f: seq<byte>, n: nat)
    requires n > 0 && HEADER + ENTRY * n <= |f|
  {
    && FileDir(f, 0).offset == FirstStart(n)
    && (forall l :: 0 <= l < n ==> FileDir(f, l).offset % ALIGN == 0)
    && (forall l :: 0 <= l < n - 1 ==> FileDir(f, l).offset + FileDir(f, l).size == FileDir(f, l + 1).offset)
    && FileDir(f, n - 1).offset + FileDir(f, n - 1).size == |f|
  }

  predicate LayerFact(f: seq<byte>, n: nat, l: nat)
    requires HEADER + ENTRY * n <= |f| && l < n
  {
    var d := FileDir(f, l);
    && d.offset % ALIGN == 0 && d.offset + d.size <= |f|
    && (l == 0 ==> d.offset == FirstStart(n))
    && (l < n - 1 ==> d.offset + d.size == FileDir(f, l + 1).offset)
    && (l == n - 1 ==> d.offset + d.size == |f|)
  }

  /** A layer's entry and the next one's, from the layout. */
  lemma {:induction false} EntryBounds(items: seq<Item>, n: nat, d: Dir, k: nat)
    requires Ordered(items) && PlanOk(items, n) && k < |items| && EntryOf(items, FirstStart(n), d, k)
    ensures
      var (c0, l, m) := (FirstStart(n), items[k].layer, Last(items, k) + 1);
      && d.offset % ALIGN == 0 && d.offset + d.size <= FileEnd(items, c0)
      && (l == 0 ==> d.offset == c0) && (l == n - 1 ==> d.offset + d.size == FileEnd(items, c0))
      && (l < n - 1 ==> m < |items| && items[m].layer == l + 1 && d.offset + d.size == LayerStart(items, c0, m))
  {
    hide Ordered, PlanOk, CountOf, LayerStart, End, Last, Off, FirstStart, Align, FileEnd;
    EntryFits(items, FirstStart(n), d, k);
    StartAligned(items, FirstStart(n), k);
    LayerBounds(items, n, k);
  }

  lemma {:induction false} OneLayer(f: seq<byte>, h: Header, items: seq<Item>, t: Tables, l: nat)
    requires HeaderOk(h) && items != [] && Emitted(f, h, items, t) && Fits(f, items) && Ordered(items) && l < |t.dir|
    ensures HEADER + ENTRY * |t.dir| <= |f| && LayerFact(f, |t.dir|, l)
  {
    hide TablesIn, DataIn, EncHeader, FileEnd, Ordered, MetaOf, CountOf, FileDir, LayerStart, Last, FirstStart, Entered;
    var n := |t.dir|;
    HeaderRead(f, h, items, t);
    var k := ItemOf(items, l);
    DirRead(f, h, items, t, k);
    EntryBounds(items, n, t.dir[l], k);
    if l < n - 1 {
      DirRead(f, h, items, t, Last(items, k) + 1);
    }
  }

  lemma {:induction false} TiledFrom(f: seq<byte>, n: nat)
    requires n > 0 && HEADER + ENTRY * n <= |f| < U64 && forall l :: 0 <= l < n ==> LayerFact(f, n, l)
    ensures Tiled(f, n)
    ensures forall l :: 0 <= l < n ==>
      FileDir(f, l).offset % ALIGN == 0 && (FileDir(f, l).offset + FileDir(f, l).size) % U64 <= |f|
  {
    hide FileDir, FirstStart;
    assert LayerFact(f, n, 0) && LayerFact(f, n, n - 1);
    forall l | 0 <= l < n
      ensures FileDir(f, l).offset % ALIGN == 0
      ensures FileDir(f, l).offset + FileDir(f, l).size <= |f|
      ensures l < n - 1 ==> FileDir(f, l).offset + FileDir(f, l).size == FileDir(f, l + 1).offset
    {
      assert LayerFact(f, n, l);
    }
  }

  /** The reader accepts what was emitted, and the layers tile the file. */
  lemma {:induction false} EmittedAccepted(f: seq<byte>, h: Header, items: seq<Item>, t: Tables)
    requires HeaderOk(h) && items != [] && Emitted(f, h, items, t) && Fits(f, items) && Ordered(items)
    requires h.magic == MAGIC && h.version == VERSION
    ensures Accepts(f) && NLayers(Dec(f[24..28])) == |t.dir| > 0 && HEADER + ENTRY * |t.dir| <= |f| && Tiled(f, |t.dir|)
  {
    hide TablesIn, DataIn, EncHeader, FileEnd, Ordered, MetaOf, CountOf, FileDir, Entered, Dec, LayerFact, Tiled, FirstStart;
    HeaderRead(f, h, items, t);
    assert items[0].layer < |t.dir|;
    forall l | 0 <= l < |t.dir|
      ensures LayerFact(f, |t.dir|, l)
    {
      OneLayer(f, h, items, t, l);
    }
    TiledFrom(f, |t.dir|);
  }

  lemma {:induction false} DataAt(f: seq<byte>, items: seq<Item>, c0: nat, k: nat)
    requires DataIn(f, items, c0, |items|) && k < |items|
    ensures Off(items, c0, k) <= End(items, c0, k) <= |f| && f[Off(items, c0, k)..End(items, c0, k)] == items[k].data
  {
  }

  lemma {:induction false} EmittedParts(f: seq<byte>, h: Header, items: seq<Item>, t: Tables, k: nat)
    requires HeaderOk(h) && items != [] && Emitted(f, h, items, t) && k < |items|
    ensures DataIn(f, items, FirstStart(|t.dir|), |items|) && items[k].layer < |t.dir| && items[k].slot < SLOTS
  {
    hide TablesIn, DataIn, EncHeader, FileEnd, MetaOf, CountOf, Entered;
  }

  lemma {:induction false} EmittedTensor(f: seq<byte>, h: Header, items: seq<Item>, t: Tables, k: nat)
    requires HeaderOk(h) && items != [] && Emitted(f, h, items, t) && Fits(f, items) && Ordered(items)
    requires h.magic == MAGIC && h.version == VERSION && InfosOk(items) && k < |items|
    ensures Tensor(f, items[k].layer, items[k].slot) == Ok(items[k].data)
    ensures FileMeta(f, |t.dir|, Cell(items[k])).info == items[k].info
  {
    hide Emitted, Accepts, FileDir, FileMeta, Dec, FirstStart, Ordered, MetaOf, Off, End, LayerStart, CountOf, Last, Tiled,
      DataIn, Align, FileEnd;
    EmittedAccepted(f, h, items, t);
    DirRead(f, h, items, t, k);
    MetaRead(f, h, items, t, k);
    MetaFits(items, FirstStart(|t.dir|), k);
    EmittedParts(f, h, items, t, k);
    DataAt(f, items, FirstStart(|t.dir|), k);
  }

  /** `llf_emit` then `llf_read`, for any plan with distinct (layer, slot) and no empty tensor: the
      file is accepted, its layers tile it, and every tensor of the plan reads back its source bytes
      and its description. */
  method EmitThenRead(h: Header, plan: seq<Item>) returns (r: Result<seq<byte>>)
    requires HeaderOk(h) && h.magic == MAGIC && h.version == VERSION
    requires Distinct(plan) && Positive(plan) && InfosOk(plan) && |plan| < U32
    ensures r.Ok? <==> PlanOk(Sorted(plan), NLayers(h.nBlocks))
    ensures r.Ok? && |r.value| < U64 ==>
      var (f, n) := (r.value, NLayers(h.nBlocks));
      && Accepts(f) && n > 0 && HEADER + ENTRY * n <= |f| && Tiled(f, n)
      && forall x :: x in plan ==> Tensor(f, x.layer, x.slot) == Ok(x.data)
  {
    hide PlanOk, Emitted, Accepts, Tiled, Tensor, Ordered, Distinct, Sorted, Positive;
    ghost var t;
    r, t := Emit(h, plan);
    if r.Ok? && |r.value| < U64 {
      ghost var items := Sorted(plan);
      SortedIsOrder(plan);
      SortedInfos(plan, items);
      EmittedAccepted(r.value, h, items, t);
      HeaderRead(r.value, h, items, t);
      LayersOf(r.value, h, items, t);
      forall x | x in plan
        ensures Tensor(r.value, x.layer, x.slot) == Ok(x.data)
      {
        assert x in items;
        var k :| 0 <= k < |items| && items[k] == x;
        EmittedTensor(r.value, h, items, t, k);
      }
    }
  }

  lemma {:induction false} LayersOf(f: seq<byte>, h: Header, items: seq<Item>, t: Tables)
    requires HeaderOk(h) && items != [] && Emitted(f, h, items, t)
    ensures |t.dir| == NLayers(h.nBlocks)
  {
  }

  lemma {:induction false} SortedInfos(plan: seq<Item>, items: seq<Item>)
    requires InfosOk(plan) && forall y :: y in items <==> y in plan
    ensures InfosOk(items)
  {
    forall k | 0 <= k < |items|
      ensures |items[k].info| == INFO
    {
      assert items[k] in items;
      assert items[k] in plan;
    }
  }
}
