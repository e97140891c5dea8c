/**
  Saving the KV rows of a session and loading them back (inference/core/cache.c).  The buffer
  has 2 * nb + 1 regions of equal size: region 0 is unused, 1..nb hold keys, nb+1..2*nb values.
*/
module KvFile {
  import opened ByteFile

  const MAGIC: seq<byte> := [0x59, 0x4c, 0x4c, 0x4d, 0x53, 0x4b, 0x56, 0x30]
  const HEAD := 28
  const U32 := 0x1_0000_0000

  /** What the header pins down of the engine. */
  datatype Shape = Shape(nb: nat, kvDim: nat, maxSeq: nat, rowSz: nat, q8: bool)

  predicate ShapeOk(e: Shape) {
    e.nb < U32 && e.kvDim < U32 && e.maxSeq < U32
  }

  function Region(e: Shape): (n: nat) {
    e.maxSeq * e.rowSz
  }

  /** Where region `r` starts. */
  function Base(e: Shape, r: nat): (o: nat) {
    r * Region(e)
  }

  function RowBytes(e: Shape, pos: nat): (n: nat) {
    pos * e.rowSz
  }

  lemma {:induction false} MulMono(a: nat, b: nat, n: nat)
    requires a <= b
    ensures a * n <= b * n
  {
  }

  /** Regions do not overlap, rows stay inside their region, and all stay inside the buffer. */
  lemma {:induction false} Layout(e: Shape, pos: nat, r: nat, s: nat)
    requires pos <= e.maxSeq && r < s
    ensures Base(e, r) + RowBytes(e, pos) <= Base(e, s)
  {
    MulMono(pos, e.maxSeq, e.rowSz);
    MulMono(r + 1, s, Region(e));
    assert (r + 1) * Region(e) == r * Region(e) + Region(e);
  }

  function EncHead(e: Shape, pos: nat): (h: seq<byte>)
    ensures |h| == HEAD
  {
    MAGIC + (Enc(e.nb, 4) + (Enc(e.kvDim, 4) + (Enc(e.maxSeq, 4) + (Enc(pos, 4) + Enc(if e.q8 then 1 else 0, 4)))))
  }

  /** The position a header gives, when its magic, shape and format flag are the engine's. */
  predicate HeadMatches(f: seq<byte>, e: Shape) {
    && |f| >= HEAD && f[..8] == MAGIC
    && Dec(f[8..12]) == e.nb && Dec(f[12..16]) == e.kvDim && Dec(f[16..20]) == e.maxSeq
    && Dec(f[20..24]) <= e.maxSeq && Dec(f[24..28]) == (if e.q8 then 1 else 0)
  }

  lemma {:induction false} Behind(a: seq<byte>, b: seq<byte>, i: nat, j: nat)
    requires i <= j <= |b|
    ensures (a + b)[|a| + i..|a| + j] == b[i..j]
  {
  }

  lemma {:induction false} Front(a: seq<byte>, b: seq<byte>)
    ensures (a + b)[..|a|] == a
  {
  }

  lemma {:induction false} FirstField(a: seq<byte>, b: seq<byte>, c: seq<byte>)
    ensures (a + (b + c))[|a|..|a| + |b|] == b
  {
  }

  /** The fields of a header, where the reader looks for them. */
  lemma {:induction false} HeadFields(e: Shape, pos: nat, body: seq<byte>)
    ensures
      var f := EncHead(e, pos) + body;
      && f[..8] == MAGIC && f[8..12] == Enc(e.nb, 4) && f[12..16] == Enc(e.kvDim, 4)
      && f[16..20] == Enc(e.maxSeq, 4) && f[20..24] == Enc(pos, 4) && f[24..28] == Enc(if e.q8 then 1 else 0, 4)
  {
    hide Enc;
    var q := Enc(if e.q8 then 1 else 0, 4);
    var t4 := Enc(pos, 4) + q;
    var t3 := Enc(e.maxSeq, 4) + t4;
    var t2 := Enc(e.kvDim, 4) + t3;
    var t1 := Enc(e.nb, 4) + t2;
    var h := EncHead(e, pos);
    assert h == MAGIC + t1;
    var f := h + body;
    assert f[..8] == h[..8] && f[8..12] == h[8..12] && f[12..16] == h[12..16];
    assert f[16..20] == h[16..20] && f[20..24] == h[20..24] && f[24..28] == h[24..28];
    HeadTail(t1, t2, t3, t4, q, e, pos);
  }

  lemma {:induction false} HeadTail(t1: seq<byte>, t2: seq<byte>, t3: seq<byte>, t4: seq<byte>, q: seq<byte>, e: Shape, pos: nat)
    requires |q| == 4 && t4 == Enc(pos, 4) + q && t3 == Enc(e.maxSeq, 4) + t4
    requires t2 == Enc(e.kvDim, 4) + t3 && t1 == Enc(e.nb, 4) + t2
    ensures
      var h := MAGIC + t1;
      && |h| == HEAD && h[..8] == MAGIC && h[8..12] == Enc(e.nb, 4) && h[12..16] == Enc(e.kvDim, 4)
      && h[16..20] == Enc(e.maxSeq, 4) && h[20..24] == Enc(pos, 4) && h[24..28] == q
  {
    hide Enc;
    Front(MAGIC, t1);
    FirstField(MAGIC, Enc(e.nb, 4), t2);
    Behind(MAGIC, t1, 4, 20);
    Behind(Enc(e.nb, 4), t2, 0, 16);
    var h := MAGIC + t1;
    assert h[12..28] == t2;
    assert h[12..16] == t2[..4] && h[16..20] == t2[4..8] && h[20..24] == t2[8..12] && h[24..28] == t2[12..16];
    Front(Enc(e.kvDim, 4), t3);
    FirstField(Enc(e.kvDim, 4), Enc(e.maxSeq, 4), t4);
    Behind(Enc(e.kvDim, 4), t3, 4, 8);
    Behind(Enc(e.kvDim, 4), t3, 8, 12);
    FirstField(Enc(e.maxSeq, 4), Enc(pos, 4), q);
    Behind(Enc(e.maxSeq, 4), t4, 4, 8);
    Behind(Enc(pos, 4), q, 0, 4);
  }

  /** Fields that differ from the engine's are told apart: a saved header matches exactly the
      engines of its own shape and format that have room for its position. */
  lemma {:induction false} HeaderDecides(e: Shape, other: Shape, pos: nat, body: seq<byte>)
    requires ShapeOk(e) && ShapeOk(other) && pos < U32
    ensures
      var f := EncHead(other, pos) + body;
      && Dec(f[20..24]) == pos
      && (HeadMatches(f, e)
          <==> other.nb == e.nb && other.kvDim == e.kvDim && other.maxSeq == e.maxSeq && other.q8 == e.q8
               && pos <= e.maxSeq)
  {
    Widths();
    var q := if other.q8 then 1 else 0;
    FieldRoundTrip(other.nb, 4);
    FieldRoundTrip(other.kvDim, 4);
    FieldRoundTrip(other.maxSeq, 4);
    FieldRoundTrip(pos, 4);
    FieldRoundTrip(q, 4);
    hide Enc, Dec, Pow256, EncHead;
    HeadFields(other, pos, body);
  }

  // ----- the body -----

  /** The rows of region `r` in a buffer. */
  function Rows(e: Shape, kv: seq<byte>, pos: nat, r: nat): (x: seq<byte>)
    requires pos <= e.maxSeq && |kv| == Base(e, 2 * e.nb + 1) && r <= 2 * e.nb
    ensures |x| == RowBytes(e, pos)
  {
    Layout(e, pos, r, 2 * e.nb + 1);
    kv[Base(e, r)..Base(e, r) + RowBytes(e, pos)]
  }

  /** Where the pair of blocks `l` (keys, then values) stands in the file's body. */
  function PairAt(e: Shape, pos: nat, l: nat): (o: nat)
    requires l >= 1
  {
    HEAD + (l - 1) * (2 * RowBytes(e, pos))
  }

  lemma {:induction false} PairNext(e: Shape, pos: nat, l: nat)
    requires l >= 1
    ensures PairAt(e, pos, l + 1) == PairAt(e, pos, l) + 2 * RowBytes(e, pos)
  {
    var n := 2 * RowBytes(e, pos);
    assert l * n == (l - 1) * n + n;
  }

  lemma {:induction false} PairOrder(e: Shape, pos: nat, l: nat, m: nat)
    requires 1 <= l < m
    ensures PairAt(e, pos, l) + 2 * RowBytes(e, pos) <= PairAt(e, pos, m)
  {
    PairNext(e, pos, l);
    MulMono(l, m - 1, 2 * RowBytes(e, pos));
  }

  /** The file holds the rows of block `l`. */
  predicate HoldsPair(f: seq<byte>, e: Shape, kv: seq<byte>, pos: nat, l: nat)
    requires pos <= e.maxSeq && |kv| == Base(e, 2 * e.nb + 1) && 1 <= l <= e.nb
  {
    var (o, n) := (PairAt(e, pos, l), RowBytes(e, pos));
    && o + 2 * n <= |f| && f[o..o + n] == Rows(e, kv, pos, l) && f[o + n..o + 2 * n] == Rows(e, kv, pos, e.nb + l)
  }

  /** Blocks 1 to `m - 1` are in the file. */
  predicate Holds(f: seq<byte>, e: Shape, kv: seq<byte>, pos: nat, m: nat)
    requires pos <= e.maxSeq && |kv| == Base(e, 2 * e.nb + 1) && 1 <= m <= e.nb + 1
  {
    forall l :: 1 <= l < m ==> HoldsPair(f, e, kv, pos, l)
  }

  lemma {:induction false} PairAppended(f: seq<byte>, g: seq<byte>, e: Shape, kv: seq<byte>, pos: nat, m: nat)
    requires pos <= e.maxSeq && |kv| == Base(e, 2 * e.nb + 1) && 1 <= m <= e.nb
    requires Holds(f, e, kv, pos, m) && |f| == PairAt(e, pos, m)
    requires g == f + Rows(e, kv, pos, m) + Rows(e, kv, pos, e.nb + m)
    ensures Holds(g, e, kv, pos, m + 1) && |g| == PairAt(e, pos, m + 1)
  {
    hide Rows, Base, RowBytes, PairAt;
    PairNext(e, pos, m);
    forall l | 1 <= l < m + 1
      ensures HoldsPair(g, e, kv, pos, l)
    {
      if l < m {
        PairOrder(e, pos, l, m);
        assert HoldsPair(f, e, kv, pos, l);
        var o, n := PairAt(e, pos, l), RowBytes(e, pos);
        assert g[o..o + n] == f[o..o + n] && g[o + n..o + 2 * n] == f[o + n..o + 2 * n];
      }
    }
  }

  /** `sess_kv_save`. */
  method Save(e: Shape, kv: array<byte>, pos: nat) returns (f: seq<byte>)
    requires pos <= e.maxSeq && kv.Length == Base(e, 2 * e.nb + 1)
    ensures |f| == PairAt(e, pos, e.nb + 1) >= HEAD && f[..HEAD] == EncHead(e, pos)
    ensures Holds(f, e, kv[..], pos, e.nb + 1)
  {
    hide Base, RowBytes, HoldsPair, EncHead;
    f := EncHead(e, pos);
    var l := 1;
    while l <= e.nb
      invariant 1 <= l <= e.nb + 1 && |f| == PairAt(e, pos, l) >= HEAD && f[..HEAD] == EncHead(e, pos)
      invariant Holds(f, e, kv[..], pos, l)
    {
      Layout(e, pos, l, 2 * e.nb + 1);
      Layout(e, pos, e.nb + l, 2 * e.nb + 1);
      var k := kv[Base(e, l)..Base(e, l) + RowBytes(e, pos)];
      var v := kv[Base(e, e.nb + l)..Base(e, e.nb + l) + RowBytes(e, pos)];
      assert k == Rows(e, kv[..], pos, l) && v == Rows(e, kv[..], pos, e.nb + l);
      ghost var g := f;
      f := f + k + v;
      PairAppended(g, f, e, kv[..], pos, l);
      assert f[..HEAD] == g[..HEAD];
      l := l + 1;
    }
  }

  /** Byte `j` of the buffer lies in no region's first `pos` rows. */
  ghost predicate Outside(e: Shape, pos: nat, j: nat) {
    forall r :: 1 <= r <= 2 * e.nb ==> !InRows(e, pos, r, j)
  }

  predicate InRows(e: Shape, pos: nat, r: nat, j: nat) {
    Base(e, r) <= j < Base(e, r) + RowBytes(e, pos)
  }

  /** Reads `n` bytes at `o` into the buffer; a short file gives what it has and fails. */
  method ReadRows(f: seq<byte>, o: nat, n: nat, kv: array<byte>, base: nat) returns (ok: bool)
    requires base + n <= kv.Length && o <= |f|
    modifies kv
    ensures ok <==> o + n <= |f|
    ensures ok ==> kv[base..base + n] == f[o..o + n]
    ensures forall j :: 0 <= j < kv.Length && !(base <= j < base + n) ==> kv[j] == old(kv[j])
  {
    var got := if o + n <= |f| then n else |f| - o;
    for i := 0 to got
      invariant forall j :: 0 <= j < kv.Length ==> kv[j] == if base <= j < base + i then f[o + j - base] else old(kv[j])
    {
      kv[base + i] := f[o + i];
    }
    ok := got == n;
  }

  /** Loading a region leaves the regions before and after it as they were. */
  lemma {:induction false} OtherRows(e: Shape, a: seq<byte>, b: seq<byte>, pos: nat, r: nat, s: nat)
    requires pos <= e.maxSeq && |a| == |b| == Base(e, 2 * e.nb + 1) && r <= 2 * e.nb && s <= 2 * e.nb && r != s
    requires forall j :: 0 <= j < |a| && !InRows(e, pos, s, j) ==> a[j] == b[j]
    ensures Rows(e, a, pos, r) == Rows(e, b, pos, r)
  {
    Layout(e, pos, r, 2 * e.nb + 1);
    if r < s {
      Layout(e, pos, r, s);
    } else {
      Layout(e, pos, s, r);
    }
    hide Base, RowBytes;
    var o, n := Base(e, r), RowBytes(e, pos);
    forall j | o <= j < o + n
      ensures a[j] == b[j]
    {
      assert !InRows(e, pos, s, j);
    }
  }

  lemma {:induction false} PairKept(f: seq<byte>, e: Shape, a: seq<byte>, b: seq<byte>, pos: nat, m: nat, s: nat)
    requires pos <= e.maxSeq && |a| == |b| == Base(e, 2 * e.nb + 1) && 1 <= m <= e.nb + 1 && s <= 2 * e.nb
    requires m <= s && (s <= e.nb || e.nb + m <= s)
    requires Holds(f, e, a, pos, m) && forall j :: 0 <= j < |a| && !InRows(e, pos, s, j) ==> a[j] == b[j]
    ensures Holds(f, e, b, pos, m)
  {
    hide Base, RowBytes, Rows, PairAt, InRows;
    forall l | 1 <= l < m
      ensures HoldsPair(f, e, b, pos, l)
    {
      assert HoldsPair(f, e, a, pos, l);
      OtherRows(e, a, b, pos, l, s);
      OtherRows(e, a, b, pos, e.nb + l, s);
    }
  }

  /** `sess_kv_load`. */
  method Load(f: seq<byte>, e: Shape, kv: array<byte>) returns (ok: bool, pos: nat)
    requires kv.Length == Base(e, 2 * e.nb + 1)
    modifies kv
    ensures ok <==> HeadMatches(f, e) && PairAt(e, Dec(f[20..24]), e.nb + 1) <= |f|
    ensures ok ==> pos == Dec(f[20..24]) && Holds(f, e, kv[..], pos, e.nb + 1)
    ensures !HeadMatches(f, e) ==> kv[..] == old(kv[..])
    ensures HeadMatches(f, e) ==>
      forall j :: 0 <= j < kv.Length && Outside(e, Dec(f[20..24]), j) ==> kv[j] == old(kv[j])
  {
    hide Dec;
    if !(|f| >= HEAD && f[..8] == MAGIC) {
      return false, 0;
    }
    if !(Dec(f[8..12]) == e.nb && Dec(f[12..16]) == e.kvDim && Dec(f[16..20]) == e.maxSeq
         && Dec(f[20..24]) <= e.maxSeq && Dec(f[24..28]) == (if e.q8 then 1 else 0)) {
      return false, 0;
    }
    pos := Dec(f[20..24]);
    ok := LoadBody(f, e, kv, pos);
  }

  method LoadBody(f: seq<byte>, e: Shape, kv: array<byte>, pos: nat) returns (ok: bool)
    requires kv.Length == Base(e, 2 * e.nb + 1) && pos <= e.maxSeq && |f| >= HEAD
    modifies kv
    ensures ok <==> PairAt(e, pos, e.nb + 1) <= |f|
    ensures ok ==> Holds(f, e, kv[..], pos, e.nb + 1)
    ensures forall j :: 0 <= j < kv.Length && Outside(e, pos, j) ==> kv[j] == old(kv[j])
  {
    hide Base, RowBytes, Rows, PairAt, Holds, HoldsPair;
    var l, o, n := 1, HEAD, RowBytes(e, pos);
    NoPairs(f, e, kv[..], pos);
    while l <= e.nb
      invariant 1 <= l <= e.nb + 1 && o == PairAt(e, pos, l) <= |f| && Holds(f, e, kv[..], pos, l)
      invariant forall j :: 0 <= j < kv.Length && Outside(e, pos, j) ==> kv[j] == old(kv[j])
    {
      Layout(e, pos, l, 2 * e.nb + 1);
      Layout(e, pos, e.nb + l, 2 * e.nb + 1);
      PairNext(e, pos, l);
      PairsMonotone(e, pos, l + 1, e.nb + 1);
      OutsideOf(e, pos, l);
      OutsideOf(e, pos, e.nb + l);
      ghost var a := kv[..];
      var got := ReadRows(f, o, n, kv, Base(e, l));
      if !got {
        return false;
      }
      ghost var b := kv[..];
      PairKept(f, e, a, b, pos, l, l);
      got := ReadRows(f, o + n, n, kv, Base(e, e.nb + l));
      if !got {
        return false;
      }
      PairKept(f, e, b, kv[..], pos, l, e.nb + l);
      OtherRows(e, b, kv[..], pos, l, e.nb + l);
      PairLoaded(f, e, b, kv[..], pos, l);
      o := o + 2 * n;
      l := l + 1;
    }
    ok := true;
  }

  lemma {:induction false} OutsideOf(e: Shape, pos: nat, r: nat)
    requires 1 <= r <= 2 * e.nb
    ensures forall j: nat :: Outside(e, pos, j) ==> !(Base(e, r) <= j < Base(e, r) + RowBytes(e, pos))
  {
    forall j: nat | Outside(e, pos, j)
      ensures !(Base(e, r) <= j < Base(e, r) + RowBytes(e, pos))
    {
      assert !InRows(e, pos, r, j);
    }
  }

  lemma {:induction false} NoPairs(f: seq<byte>, e: Shape, kv: seq<byte>, pos: nat)
    requires pos <= e.maxSeq && |kv| == Base(e, 2 * e.nb + 1)
    ensures PairAt(e, pos, 1) == HEAD && Holds(f, e, kv, pos, 1)
  {
  }

  lemma {:induction false} PairsMonotone(e: Shape, pos: nat, l: nat, m: nat)
    requires 1 <= l <= m
    ensures PairAt(e, pos, l) <= PairAt(e, pos, m)
  {
    MulMono(l - 1, m - 1, 2 * RowBytes(e, pos));
  }

  lemma {:induction false} PairLoaded(f: seq<byte>, e: Shape, b: seq<byte>, kv: seq<byte>, pos: nat, l: nat)
    requires pos <= e.maxSeq && |kv| == |b| == Base(e, 2 * e.nb + 1) && 1 <= l <= e.nb && Holds(f, e, kv, pos, l)
    requires PairAt(e, pos, l) + 2 * RowBytes(e, pos) <= |f|
    requires Base(e, l) + RowBytes(e, pos) <= |kv| && Base(e, e.nb + l) + RowBytes(e, pos) <= |kv|
    requires
      var (o, n) := (PairAt(e, pos, l), RowBytes(e, pos));
      && b[Base(e, l)..Base(e, l) + n] == f[o..o + n] && Rows(e, kv, pos, l) == Rows(e, b, pos, l)
      && kv[Base(e, e.nb + l)..Base(e, e.nb + l) + n] == f[o + n..o + 2 * n]
    ensures Holds(f, e, kv, pos, l + 1)
  {
    hide Base, RowBytes, PairAt;
    assert HoldsPair(f, e, kv, pos, l);
    hide HoldsPair;
  }

  /** Loading what was saved restores exactly the rows [0, pos) of all 2 * nb regions and changes
      nothing else. */
  method SaveThenLoad(e: Shape, from: array<byte>, to: array<byte>, pos: nat)
    requires ShapeOk(e) && pos <= e.maxSeq
    requires from.Length == to.Length == Base(e, 2 * e.nb + 1)
    modifies to
    ensures forall r :: 1 <= r <= 2 * e.nb ==> Rows(e, to[..], pos, r) == Rows(e, old(from[..]), pos, r)
    ensures forall j :: 0 <= j < to.Length && Outside(e, pos, j) ==> to[j] == old(to[j])
  {
    hide Base, RowBytes, Rows, PairAt, Holds, HoldsPair, EncHead, Dec, HeadMatches, Outside;
    var f := Save(e, from, pos);
    assert f == f[..HEAD] + f[HEAD..];
    HeaderDecides(e, e, pos, f[HEAD..]);
    ghost var was := from[..];
    var ok, p := Load(f, e, to);
    SameRows(f, e, was, to[..], pos);
  }

  lemma {:induction false} SameRows(f: seq<byte>, e: Shape, a: seq<byte>, b: seq<byte>, pos: nat)
    requires pos <= e.maxSeq && |a| == |b| == Base(e, 2 * e.nb + 1)
    requires Holds(f, e, a, pos, e.nb + 1) && Holds(f, e, b, pos, e.nb + 1)
    ensures forall r :: 1 <= r <= 2 * e.nb ==> Rows(e, a, pos, r) == Rows(e, b, pos, r)
  {
    hide Base, RowBytes, PairAt, Rows;
    forall r | 1 <= r <= 2 * e.nb
      ensures Rows(e, a, pos, r) == Rows(e, b, pos, r)
    {
      var l := if r <= e.nb then r else r - e.nb;
      assert HoldsPair(f, e, a, pos, l) && HoldsPair(f, e, b, pos, l);
    }
  }
}
