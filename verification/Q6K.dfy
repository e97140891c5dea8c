/**
  The Q6_K row product (inference/core/matvec.c): 256-weight blocks of 6-bit values kept as
  low nibbles and high bit pairs, with one signed scale for 16 values and the offset 32,
  dotted with int8 activations in the integer domain.
*/
module Q6K {
  import opened Simd

  datatype Block = Block(ql: seq<int>, qh: seq<int>, sc: seq<int>, d: real)

  predicate BlockOk(b: Block) {
    |b.ql| == 128 && Bytes(b.ql) && |b.qh| == 64 && Bytes(b.qh) && |b.sc| == 16 && Signed(b.sc)
  }

  // ----- the dequantised block -----

  /** The six bits of value `e`, as `q6k_val` gathers them. */
  function Bits(b: Block, e: nat): (q: int)
    requires BlockOk(b) && e < 256
  {
    var half, k := e / 128, e % 128;
    var quad, ll := k / 32, k % 32;
    var ql, qh := b.ql[half * 64 + quad % 2 * 32 + ll], b.qh[half * 32 + ll];
    BitOr(if quad / 2 == 1 then ql / 16 else ql % 16, qh / Pow2(2 * quad) % 4 * 16)
  }

  /** `q6k_val`. */
  function Value(b: Block, e: nat): (w: real)
    requires BlockOk(b) && e < 256
  {
    var half, k := e / 128, e % 128;
    var quad, ll := k / 32, k % 32;
    b.d * b.sc[half * 8 + quad * 2 + ll / 16] as real * (Bits(b, e) - 32) as real
  }

  function BitsFrom(b: Block, e: nat, n: nat): (v: seq<int>)
    requires BlockOk(b) && e + n <= 256
    ensures |v| == n
    decreases n
  {
    if n == 0 then [] else [Bits(b, e)] + BitsFrom(b, e + 1, n - 1)
  }

  function Values(b: Block, e: nat, n: nat): (w: seq<real>)
    requires BlockOk(b) && e + n <= 256
    ensures |w| == n
    decreases n
  {
    if n == 0 then [] else [Value(b, e)] + Values(b, e + 1, n - 1)
  }

  lemma {:induction false} ValuesAppend(b: Block, e: nat, m: nat, n: nat)
    requires BlockOk(b) && e + m + n <= 256
    ensures Values(b, e, m + n) == Values(b, e, m) + Values(b, e + m, n)
    decreases m
  {
    hide Value, BlockOk;
    if m > 0 {
      ValuesAppend(b, e + 1, m - 1, n);
      Assoc([Value(b, e)], Values(b, e + 1, m - 1), Values(b, e + m, n));
    }
  }

  lemma {:induction false} Assoc(a: seq<real>, b: seq<real>, c: seq<real>)
    ensures a + (b + c) == (a + b) + c
  {
  }

  lemma {:induction false} BitsFromAt(b: Block, e: nat, n: nat, i: nat)
    requires BlockOk(b) && e + n <= 256 && i < n
    ensures BitsFrom(b, e, n)[i] == Bits(b, e + i)
    decreases n
  {
    hide Bits, BlockOk;
    if i > 0 {
      BitsFromAt(b, e + 1, n - 1, i - 1);
    }
  }

  /** Value `16 * g + i` stands in half `g / 8`, quad `g % 8 / 2`, and takes the scale `g`. */
  lemma {:induction false} Place(g: nat, i: nat)
    requires g < 16 && i < 16
    ensures
      var e := 16 * g + i;
      var k := e % 128;
      && e / 128 == g / 8 && k / 32 == g % 8 / 2 && k % 32 == 16 * (g % 2) + i
      && e / 128 * 8 + k / 32 * 2 + k % 32 / 16 == g
  {
    var e := 16 * g + i;
    var h, q, p := g / 8, g % 8 / 2, g % 2;
    assert g == 8 * h + 2 * q + p;
    assert e == 128 * h + (32 * q + 16 * p + i) && 32 * q + 16 * p + i < 128;
    assert e / 128 == h && e % 128 == 32 * q + (16 * p + i);
  }

  // ----- the vector form -----

  function VOr(u: seq<int>, v: seq<int>): (r: seq<int>)
    requires |u| == |v| && Bytes(u) && Bytes(v)
    ensures |r| == |u|
  {
    if u == [] then [] else [BitOr(u[0], v[0])] + VOr(u[1..], v[1..])
  }

  lemma {:induction false} VOrAt(u: seq<int>, v: seq<int>, i: nat)
    requires |u| == |v| && Bytes(u) && Bytes(v) && i < |u|
    ensures VOr(u, v)[i] == BitOr(u[i], v[i])
  {
    if i > 0 {
      VOrAt(u[1..], v[1..], i - 1);
    }
  }

  /** The bit pair at `k`, moved to bits 4 and 5. */
  function HighPairs(v: seq<int>, k: nat): (r: seq<int>)
    ensures |r| == |v|
  {
    if v == [] then [] else [v[0] / Pow2(k) % 4 * 16] + HighPairs(v[1..], k)
  }

  lemma {:induction false} HighPairsAt(v: seq<int>, k: nat, i: nat)
    requires i < |v|
    ensures HighPairs(v, k)[i] == v[i] / Pow2(k) % 4 * 16
  {
    if i > 0 {
      HighPairsAt(v[1..], k, i - 1);
    }
  }

  lemma {:induction false} PairUp(a: int, b: int)
    requires 0 <= a < 4 && 0 <= b < 4
    ensures
      var lane := (a + 256 * b) * Pow2(4) % 65536;
      lane % 256 == a * 16 && lane / 256 == b * 16
  {
    assert Pow2(4) == 16;
    assert (a + 256 * b) * 16 == a * 16 + 256 * (b * 16);
  }

  lemma {:induction false} SrliStep(v: seq<int>, k: nat)
    requires |v| >= 2 && |v| % 2 == 0
    ensures
      var lane := (v[0] + 256 * v[1]) / Pow2(k);
      |Srli16(v, k)| == 2 + |Srli16(v[2..], k)| && Srli16(v, k) == [lane % 256, lane / 256] + Srli16(v[2..], k)
  {
  }

  lemma {:induction false} SlliStep(a: int, b: int, tail: seq<int>)
    requires 0 <= a < 4 && 0 <= b < 4 && |tail| % 2 == 0
    ensures Slli16([a, b] + tail, 4) == [a * 16, b * 16] + Slli16(tail, 4)
  {
    PairUp(a, b);
    var w := [a, b] + tail;
    assert w[0] == a && w[1] == b && w[2..] == tail;
  }

  lemma {:induction false} SrliLength(v: seq<int>, k: nat)
    requires |v| % 2 == 0
    ensures |Srli16(v, k)| == |v|
    decreases |v|
  {
    if v != [] {
      SrliLength(v[2..], k);
    }
  }

  /** Shift right, mask two bits, shift left, all on 16-bit lanes, picks each byte's own pair. */
  lemma {:induction false} VectorPairs(v: seq<int>, k: nat)
    requires |v| % 2 == 0 && Bytes(v) && (k == 0 || k == 2 || k == 4 || k == 6)
    ensures |Srli16(v, k)| == |v| && Slli16(Mask(Srli16(v, k), 4), 4) == HighPairs(v, k)
    decreases |v|
  {
    SrliLength(v, k);
    if v != [] {
      LaneShift(v[0], v[1], k);
      SrliStep(v, k);
      VectorPairs(v[2..], k);
      var lane := (v[0] + 256 * v[1]) / Pow2(k);
      var tail := Srli16(v[2..], k);
      hide Srli16, Slli16, Mask, Pow2, Bytes;
      MaskPair(lane % 256, lane / 256, tail, 4);
      SlliStep(lane % 256 % 4, lane / 256 % 4, Mask(tail, 4));
      PairsStep(v, k);
    }
  }

  lemma {:induction false} PairsStep(v: seq<int>, k: nat)
    requires |v| >= 2
    ensures HighPairs(v, k) == [v[0] / Pow2(k) % 4 * 16, v[1] / Pow2(k) % 4 * 16] + HighPairs(v[2..], k)
  {
    assert v[1..][1..] == v[2..];
  }

  /** The 16 low nibbles and the 16 high pairs of group `g`: half `h`, quad `q`, part `p`. */
  function LowVector(b: Block, g: nat): (v: seq<int>)
    requires BlockOk(b) && g < 16
    ensures |v| == 16
  {
    var h, q, p := g / 8, g % 8 / 2, g % 2;
    var o := h * 64 + q % 2 * 32 + p * 16;
    if q / 2 == 1 then Shift(b.ql[o..o + 16], 16) else Mask(b.ql[o..o + 16], 16)
  }

  function HighVector(b: Block, g: nat): (v: seq<int>)
    requires BlockOk(b) && g < 16
    ensures |v| == 16
  {
    var h, q, p := g / 8, g % 8 / 2, g % 2;
    var o := h * 32 + p * 16;
    HighPairs(b.qh[o..o + 16], 2 * q)
  }

  lemma {:induction false} LowAt(b: Block, g: nat, i: nat)
    requires BlockOk(b) && g < 16 && i < 16
    ensures
      var (h, q, p) := (g / 8, g % 8 / 2, g % 2);
      var x := b.ql[h * 64 + q % 2 * 32 + p * 16 + i];
      && LowVector(b, g)[i] == (if q / 2 == 1 then x / 16 else x % 16)
      && 0 <= LowVector(b, g)[i] < 16
  {
    var h, q, p := g / 8, g % 8 / 2, g % 2;
    var o := h * 64 + q % 2 * 32 + p * 16;
    ShiftAt(b.ql[o..o + 16], 16, i);
    MaskAt(b.ql[o..o + 16], 16, i);
  }

  lemma {:induction false} HighAt(b: Block, g: nat, i: nat)
    requires BlockOk(b) && g < 16 && i < 16
    ensures
      var (h, q, p) := (g / 8, g % 8 / 2, g % 2);
      && HighVector(b, g)[i] == b.qh[h * 32 + p * 16 + i] / Pow2(2 * q) % 4 * 16
      && 0 <= HighVector(b, g)[i] <= 48
  {
    var h, q, p := g / 8, g % 8 / 2, g % 2;
    var o := h * 32 + p * 16;
    HighPairsAt(b.qh[o..o + 16], 2 * q, i);
  }

  lemma {:induction false} VectorsAreBytes(b: Block, g: nat)
    requires BlockOk(b) && g < 16
    ensures Bytes(LowVector(b, g)) && Bytes(HighVector(b, g))
  {
    forall i | 0 <= i < 16
      ensures 0 <= LowVector(b, g)[i] < 256 && 0 <= HighVector(b, g)[i] < 256
    {
      LowAt(b, g, i);
      HighAt(b, g, i);
    }
    hide LowVector, HighVector;
  }

  lemma {:induction false} BitsInGroup(b: Block, g: nat, i: nat)
    requires BlockOk(b) && g < 16 && i < 16
    ensures
      var (h, q, p) := (g / 8, g % 8 / 2, g % 2);
      var (ql, qh) := (b.ql[h * 64 + q % 2 * 32 + p * 16 + i], b.qh[h * 32 + p * 16 + i]);
      Bits(b, 16 * g + i) == BitOr(if q / 2 == 1 then ql / 16 else ql % 16, qh / Pow2(2 * q) % 4 * 16)
  {
    hide BitOr, Pow2, Bytes, Signed;
    Place(g, i);
  }

  /** A lane of the vector form is `q6k_val`'s value. */
  lemma {:induction false} LaneIsBits(b: Block, g: nat, i: nat)
    requires BlockOk(b) && g < 16 && i < 16
    ensures 0 <= LowVector(b, g)[i] && 0 <= HighVector(b, g)[i]
    ensures BitOr(LowVector(b, g)[i], HighVector(b, g)[i]) == Bits(b, 16 * g + i)
    ensures 0 <= Bits(b, 16 * g + i) < 64
  {
    hide LowVector, HighVector, BitOr, Pow2, Bits;
    LowAt(b, g, i);
    HighAt(b, g, i);
    BitsInGroup(b, g, i);
    SixBits(LowVector(b, g)[i], HighVector(b, g)[i] / 16);
  }

  lemma {:induction false} OredLane(b: Block, g: nat, i: nat)
    requires BlockOk(b) && g < 16 && i < 16 && Bytes(LowVector(b, g)) && Bytes(HighVector(b, g))
    ensures VOr(LowVector(b, g), HighVector(b, g))[i] == BitsFrom(b, 16 * g, 16)[i]
    ensures 0 <= BitsFrom(b, 16 * g, 16)[i] < 64
  {
    hide LowVector, HighVector, Bits, BitOr, BlockOk, BitsFrom, VOr;
    VOrAt(LowVector(b, g), HighVector(b, g), i);
    LaneIsBits(b, g, i);
    BitsFromAt(b, 16 * g, 16, i);
  }

  /** The OR of the two vectors holds the group's values, all below 64. */
  lemma {:induction false} VectorIsBits(b: Block, g: nat)
    requires BlockOk(b) && g < 16
    ensures Bytes(LowVector(b, g)) && Bytes(HighVector(b, g))
    ensures
      var v := BitsFrom(b, 16 * g, 16);
      VOr(LowVector(b, g), HighVector(b, g)) == v && Below(v, 64)
  {
    hide LowVector, HighVector, Bits, BitOr, BlockOk, BitsFrom, VOr, Bytes;
    VectorsAreBytes(b, g);
    forall i | 0 <= i < 16
      ensures VOr(LowVector(b, g), HighVector(b, g))[i] == BitsFrom(b, 16 * g, 16)[i]
      ensures 0 <= BitsFrom(b, 16 * g, 16)[i] < 64
    {
      OredLane(b, g, i);
    }
  }

  // ----- a group's dot -----

  lemma {:induction false} ValueInGroup(b: Block, g: nat, i: nat, f: real)
    requires BlockOk(b) && g < 16 && i < 16 && f == b.d * b.sc[g] as real
    ensures Value(b, 16 * g + i) == f * (Bits(b, 16 * g + i) - 32) as real
  {
    hide Bits, Bytes, Signed;
    Place(g, i);
  }

  lemma {:induction false} TermForm(f: real, q: int, s: real, x: int, k: real)
    requires k == f * s
    ensures f * (q - 32) as real * (s * x as real) == (q * x - 32 * x) as real * k
  {
    assert (q - 32) * x == q * x - 32 * x;
    assert ((q - 32) * x) as real == (q - 32) as real * x as real;
  }

  lemma {:induction false} GroupDot(b: Block, g: nat, i: nat, x: seq<int>, s: real, f: real, k: real)
    requires BlockOk(b) && g < 16 && i <= 16 && |x| == 16 - i
    requires f == b.d * b.sc[g] as real && k == f * s
    ensures RealDot(Values(b, 16 * g + i, 16 - i), x, s)
         == (IntDot(BitsFrom(b, 16 * g + i, 16 - i), x) - 32 * Sum(x)) as real * k
    decreases 16 - i
  {
    hide Bits, Value, BlockOk;
    if i < 16 {
      GroupDot(b, g, i + 1, x[1..], s, f, k);
      var e := 16 * g + i;
      ValueInGroup(b, g, i, f);
      TermForm(f, Bits(b, e), s, x[0], k);
      assert Values(b, e, 16 - i)[1..] == Values(b, e + 1, 15 - i);
      assert BitsFrom(b, e, 16 - i)[1..] == BitsFrom(b, e + 1, 15 - i);
      Distribute(Bits(b, e) * x[0] - 32 * x[0], IntDot(BitsFrom(b, e + 1, 15 - i), x[1..]) - 32 * Sum(x[1..]), k);
    }
  }

  /** The block's dot from group `g` on. */
  function Tail(b: Block, g: nat, x: seq<int>, s: real): (t: real)
    requires BlockOk(b) && g <= 16 && |x| == 256
  {
    RealDot(Values(b, 16 * g, 256 - 16 * g), x[16 * g..], s)
  }

  lemma {:induction false} GroupStep(b: Block, g: nat, x: seq<int>, s: real, f: real, k: real)
    requires BlockOk(b) && g < 16 && |x| == 256 && f == b.d * b.sc[g] as real && k == f * s
    ensures
      var y := x[16 * g..16 * g + 16];
      Tail(b, g, x, s) == (IntDot(BitsFrom(b, 16 * g, 16), y) - 32 * Sum(y)) as real * k + Tail(b, g + 1, x, s)
  {
    hide Values, BitsFrom, BlockOk, RealDot, IntDot, Sum;
    var y := x[16 * g..16 * g + 16];
    GroupDot(b, g, 0, y, s, f, k);
    ValuesAppend(b, 16 * g, 16, 240 - 16 * g);
    assert x[16 * g..] == y + x[16 * (g + 1)..];
    RealDotAppend(Values(b, 16 * g, 16), Values(b, 16 * (g + 1), 240 - 16 * g), y, x[16 * (g + 1)..], s);
  }

  function SubAll(v: seq<int>, c: int): (r: seq<int>)
    ensures |r| == |v|
  {
    if v == [] then [] else [v[0] - c] + SubAll(v[1..], c)
  }

  lemma {:induction false} SubAllSum(v: seq<int>, c: int)
    ensures Sum(SubAll(v, c)) == Sum(v) - |v| * c
  {
    if v != [] {
      SubAllSum(v[1..], c);
      assert SubAll(v, c)[1..] == SubAll(v[1..], c);
    }
  }

  /** Four lanes of products, each less eight times the activations' sum: the offset 32 is
      spread over the lanes and comes out whole. */
  lemma {:induction false} OffsetOverLanes(v: seq<int>, x: seq<int>, sb: int)
    requires |v| == |x| == 16 && Below(v, 64) && Signed(x) && sb == Sum(x)
    ensures |MaddOnes(Maddubs(v, x))| == 4
    ensures Sum(SubAll(MaddOnes(Maddubs(v, x)), 8 * sb)) == IntDot(v, x) - 32 * Sum(x)
  {
    hide Below, Signed, IntDot;
    MaddubsIsDot(v, x);
    MaddOnesKeepsSum(Maddubs(v, x));
    SubAllSum(MaddOnes(Maddubs(v, x)), 8 * sb);
    hide Sum, MaddOnes, Maddubs, SubAll;
  }

  lemma {:induction false} GroupFold(b: Block, g: nat, x: seq<int>, s: real, acc: seq<real>, m: seq<int>, w: real, sb: int)
    requires BlockOk(b) && g < 16 && |x| == 256 && Signed(x) && |acc| == 4
    requires sb == Sum(x[16 * g..16 * g + 16]) && w == b.d * s * b.sc[g] as real
    requires m == SubAll(MaddOnes(Maddubs(BitsFrom(b, 16 * g, 16), x[16 * g..16 * g + 16])), 8 * sb)
    ensures |m| == 4 && Total(Fma(acc, m, w)) + Tail(b, g + 1, x, s) == Total(acc) + Tail(b, g, x, s)
  {
    hide BitsFrom, Signed, Sum, Total, Fma, MaddOnes, Maddubs, SubAll, Tail, IntDot, Bytes, LowVector, HighVector, VOr;
    var y, v := x[16 * g..16 * g + 16], BitsFrom(b, 16 * g, 16);
    SignedSlice(x, 16 * g, 16 * g + 16);
    VectorIsBits(b, g);
    OffsetOverLanes(v, y, sb);
    var f := b.d * b.sc[g] as real;
    FactorForms(b.d, s, b.sc[g] as real, f, w);
    GroupStep(b, g, x, s, f, w);
    FmaTotal(acc, m, w);
    SameProduct(Sum(m), IntDot(v, y) - 32 * Sum(y), w);
  }

  lemma {:induction false} BytesSlice(x: seq<int>, lo: nat, hi: nat)
    requires Bytes(x) && lo <= hi <= |x|
    ensures Bytes(x[lo..hi])
  {
  }

  lemma {:induction false} LowForm(v: seq<int>, hi: bool)
    requires |v| == 16 && Bytes(v)
    ensures |Srli16(v, 4)| == 16
    ensures (if hi then Shift(v, 16) else Mask(v, 16)) == if hi then Mask(Srli16(v, 4), 16) else Mask(v, 16)
  {
    SrliLength(v, 4);
    HighNibbles(v);
  }

  /** What the kernel loads and shifts for half `h`, quad `q`, part `p` are the group's vectors. */
  lemma {:induction false} VectorForms(b: Block, h: nat, q: nat, p: nat)
    requires BlockOk(b) && h < 2 && q < 4 && p < 2
    ensures
      var ql := b.ql[h * 64 + q % 2 * 32 + p * 16..h * 64 + q % 2 * 32 + p * 16 + 16];
      var qh := b.qh[h * 32 + p * 16..h * 32 + p * 16 + 16];
      var g := h * 8 + q * 2 + p;
      && |Srli16(ql, 4)| == 16 && |Srli16(qh, 2 * q)| == 16
      && LowVector(b, g) == (if q / 2 == 1 then Mask(Srli16(ql, 4), 16) else Mask(ql, 16))
      && HighVector(b, g) == Slli16(Mask(Srli16(qh, 2 * q), 4), 4)
  {
    hide Srli16, Slli16, Mask, Shift, HighPairs, Bytes, Signed;
    var g := h * 8 + q * 2 + p;
    assert g / 8 == h && g % 8 / 2 == q && g % 2 == p;
    var o, i := h * 64 + q % 2 * 32 + p * 16, h * 32 + p * 16;
    BytesSlice(b.ql, o, o + 16);
    BytesSlice(b.qh, i, i + 16);
    LowForm(b.ql[o..o + 16], q / 2 == 1);
    VectorPairs(b.qh[i..i + 16], 2 * q);
  }

  /** The activations' sums, group by group. */
  predicate SumsOf(sb: seq<int>, x: seq<int>)
    requires |sb| == 16 && |x| == 256
  {
    forall g :: 0 <= g < 16 ==> sb[g] == Sum(x[16 * g..16 * g + 16])
  }

  /** One group folded into its accumulator. */
  method FoldGroup(acc0: seq<real>, b: Block, x: seq<int>, sb: seq<int>, xsb: real, g: nat, lo: seq<int>, h2: seq<int>)
    returns (acc: seq<real>)
    requires |acc0| == 4 && BlockOk(b) && |x| == 256 && Signed(x) && |sb| == 16 && SumsOf(sb, x) && g < 16
    requires lo == LowVector(b, g) && h2 == HighVector(b, g)
    ensures |acc| == 4 && Total(acc) + Tail(b, g + 1, x, xsb) == Total(acc0) + Tail(b, g, x, xsb)
  {
    hide Tail, Total, Sum, Fma, MaddOnes, Maddubs, Signed, LowVector, HighVector, VOr, BitsFrom, SubAll, Bytes;
    VectorIsBits(b, g);
    var pp := Maddubs(VOr(lo, h2), x[16 * g..16 * g + 16]);
    var m := SubAll(MaddOnes(pp), 8 * sb[g]);
    var wv := b.d * xsb * b.sc[g] as real;
    GroupFold(b, g, x, xsb, acc0, m, wv, sb[g]);
    acc := Fma(acc0, m, wv);
  }

  lemma {:induction false} WholeTail(b: Block, x: seq<int>, s: real)
    requires BlockOk(b) && |x| == 256
    ensures Tail(b, 0, x, s) == RealDot(Values(b, 0, 256), x, s)
  {
    assert x[0..] == x;
  }

  /** The even and the odd group of half `h`, quad `q`. */
  method FoldQuad(accA0: seq<real>, accB0: seq<real>, b: Block, x: seq<int>, sb: seq<int>, xsb: real, h: nat, q: nat)
    returns (accA: seq<real>, accB: seq<real>)
    requires |accA0| == |accB0| == 4 && BlockOk(b) && |x| == 256 && Signed(x) && |sb| == 16 && SumsOf(sb, x)
    requires h < 2 && q < 4
    ensures |accA| == |accB| == 4
    ensures Total(accA) + Total(accB) + Tail(b, 8 * h + 2 * q + 2, x, xsb)
         == Total(accA0) + Total(accB0) + Tail(b, 8 * h + 2 * q, x, xsb)
  {
    hide Total, Mask, Srli16, Slli16, Signed, LowVector, HighVector, Tail, SumsOf, Bytes;
    VectorForms(b, h, q, 0);
    VectorForms(b, h, q, 1);
    var off, hi := h * 64 + q % 2 * 32, q / 2 == 1;
    var qla, qlb := b.ql[off..off + 16], b.ql[off + 16..off + 32];
    var qha, qhb := b.qh[h * 32..h * 32 + 16], b.qh[h * 32 + 16..h * 32 + 32];
    var loa := if hi then Mask(Srli16(qla, 4), 16) else Mask(qla, 16);
    var lob := if hi then Mask(Srli16(qlb, 4), 16) else Mask(qlb, 16);
    var h2a := Slli16(Mask(Srli16(qha, 2 * q), 4), 4);
    var h2b := Slli16(Mask(Srli16(qhb, 2 * q), 4), 4);
    var g := 8 * h + 2 * q;
    accA := FoldGroup(accA0, b, x, sb, xsb, g, loa, h2a);
    accB := FoldGroup(accB0, b, x, sb, xsb, g + 1, lob, h2b);
  }

  /** One block folded into the accumulators of the even and the odd groups. */
  method AccBlock(accA0: seq<real>, accB0: seq<real>, b: Block, x: seq<int>, sb: seq<int>, xsb: real)
    returns (accA: seq<real>, accB: seq<real>)
    requires |accA0| == |accB0| == 4 && BlockOk(b) && |x| == 256 && Signed(x) && |sb| == 16 && SumsOf(sb, x)
    ensures |accA| == |accB| == 4
    ensures Total(accA) + Total(accB) == Total(accA0) + Total(accB0) + RealDot(Values(b, 0, 256), x, xsb)
  {
    hide RealDot, Total, Values, Signed, Tail, SumsOf, BlockOk;
    WholeTail(b, x, xsb);
    accA, accB := accA0, accB0;
    for h := 0 to 2
      invariant |accA| == |accB| == 4
      invariant Total(accA) + Total(accB) + Tail(b, 8 * h, x, xsb) == Total(accA0) + Total(accB0) + Tail(b, 0, x, xsb)
    {
      for q := 0 to 4
        invariant |accA| == |accB| == 4
        invariant Total(accA) + Total(accB) + Tail(b, 8 * h + 2 * q, x, xsb)
               == Total(accA0) + Total(accB0) + Tail(b, 0, x, xsb)
      {
        accA, accB := FoldQuad(accA, accB, b, x, sb, xsb, h, q);
      }
    }
    NoTail(b, x, xsb);
  }

  lemma {:induction false} NoTail(b: Block, x: seq<int>, s: real)
    requires BlockOk(b) && |x| == 256
    ensures Tail(b, 16, x, s) == 0.0
  {
  }

  predicate RowOk(row: seq<Block>, nb: nat) {
    |row| == nb && forall k :: 0 <= k < nb ==> BlockOk(row[k])
  }

  /** The row's dot with dequantised weights and activations, over its first `n` blocks. */
  function RowDot(row: seq<Block>, xq: seq<int>, xs: seq<real>, n: nat): (t: real)
    requires RowOk(row, |xs|) && n <= |xs| && |xq| == 256 * |xs|
  {
    if n == 0 then 0.0
    else RowDot(row, xq, xs, n - 1) + RealDot(Values(row[n - 1], 0, 256), xq[256 * (n - 1)..256 * n], xs[n - 1])
  }

  predicate GroupSums(sxg: seq<int>, xq: seq<int>, nb: nat)
    requires |xq| == 256 * nb && |sxg| == 16 * nb
  {
    forall k, g :: 0 <= k < nb && 0 <= g < 16 ==>
      sxg[16 * k + g] == Sum(xq[256 * k + 16 * g..256 * k + 16 * g + 16])
  }

  lemma {:induction false} BlockSums(sxg: seq<int>, xq: seq<int>, nb: nat, b: nat)
    requires |xq| == 256 * nb && |sxg| == 16 * nb && b < nb && GroupSums(sxg, xq, nb)
    ensures SumsOf(sxg[16 * b..16 * b + 16], xq[256 * b..256 * b + 256])
  {
    hide Sum;
    var xp, sb := xq[256 * b..256 * b + 256], sxg[16 * b..16 * b + 16];
    forall g | 0 <= g < 16
      ensures sb[g] == Sum(xp[16 * g..16 * g + 16])
    {
      assert sb[g] == sxg[16 * b + g];
      SliceOfSlice(xq, 256 * b, 256 * b + 256, 16 * g, 16 * g + 16);
    }
  }

  /** The sums over 16 activations each. */
  method PrepareSums(xq: seq<int>, nb: nat) returns (sxg: seq<int>)
    requires |xq| == 256 * nb
    ensures |sxg| == 16 * nb && GroupSums(sxg, xq, nb)
  {
    hide Sum;
    sxg := [];
    for b := 0 to nb
      invariant |sxg| == 16 * b
      invariant forall k, g :: 0 <= k < b && 0 <= g < 16 ==>
        sxg[16 * k + g] == Sum(xq[256 * k + 16 * g..256 * k + 16 * g + 16])
    {
      for g := 0 to 16
        invariant |sxg| == 16 * b + g
        invariant forall k, h :: 0 <= k < b && 0 <= h < 16 ==>
          sxg[16 * k + h] == Sum(xq[256 * k + 16 * h..256 * k + 16 * h + 16])
        invariant forall h :: 0 <= h < g ==>
          sxg[16 * b + h] == Sum(xq[256 * b + 16 * h..256 * b + 16 * h + 16])
      {
        var s := SumLoop(xq[256 * b + 16 * g..256 * b + 16 * g + 16]);
        sxg := sxg + [s];
      }
    }
  }

  method SumLoop(x: seq<int>) returns (s: int)
    ensures s == Sum(x)
  {
    s := 0;
    for l := 0 to |x|
      invariant s + Sum(x[l..]) == Sum(x)
    {
      assert x[l..][1..] == x[l + 1..];
      s := s + x[l];
    }
    assert x[|x|..] == [];
  }

  function AddLanes(a: seq<real>, b: seq<real>): (r: seq<real>)
    requires |a| == |b|
    ensures |r| == |a|
  {
    if a == [] then [] else [a[0] + b[0]] + AddLanes(a[1..], b[1..])
  }

  lemma {:induction false} LanesTotal(a: seq<real>, b: seq<real>)
    requires |a| == |b|
    ensures Total(AddLanes(a, b)) == Total(a) + Total(b)
  {
    if a != [] {
      LanesTotal(a[1..], b[1..]);
      assert AddLanes(a, b)[1..] == AddLanes(a[1..], b[1..]);
    }
  }

  method Reduce(accA: seq<real>, accB: seq<real>) returns (y: real)
    requires |accA| == |accB| == 4
    ensures y == Total(accA) + Total(accB)
  {
    LanesTotal(accA, accB);
    HSum4IsTotal(AddLanes(accA, accB));
    y := HSum4(AddLanes(accA, accB));
  }

  const ZERO: seq<real> := [0.0, 0.0, 0.0, 0.0]

  lemma {:induction false} ZeroTotal()
    ensures Total(ZERO) == 0.0
  {
    HSum4IsTotal(ZERO);
  }

  method TwoRows(row0: seq<Block>, row1: seq<Block>, xq: seq<int>, xs: seq<real>, sxg: seq<int>)
    returns (y0: real, y1: real)
    requires RowOk(row0, |xs|) && RowOk(row1, |xs|) && |xq| == 256 * |xs| && Signed(xq) && |sxg| == 16 * |xs|
    requires GroupSums(sxg, xq, |xs|)
    ensures y0 == RowDot(row0, xq, xs, |xs|) && y1 == RowDot(row1, xq, xs, |xs|)
  {
    hide RealDot, Values, Total, BlockOk, SumsOf, Signed, GroupSums;
    ZeroTotal();
    var accA0, accB0, accA1, accB1 := ZERO, ZERO, ZERO, ZERO;
    for b := 0 to |xs|
      invariant |accA0| == |accB0| == |accA1| == |accB1| == 4
      invariant Total(accA0) + Total(accB0) == RowDot(row0, xq, xs, b)
      invariant Total(accA1) + Total(accB1) == RowDot(row1, xq, xs, b)
    {
      var xp, sb := xq[256 * b..256 * b + 256], sxg[16 * b..16 * b + 16];
      SignedSlice(xq, 256 * b, 256 * b + 256);
      BlockSums(sxg, xq, |xs|, b);
      accA0, accB0 := AccBlock(accA0, accB0, row0[b], xp, sb, xs[b]);
      accA1, accB1 := AccBlock(accA1, accB1, row1[b], xp, sb, xs[b]);
    }
    y0 := Reduce(accA0, accB0);
    y1 := Reduce(accA1, accB1);
  }

  method RowProduct(row: seq<Block>, xq: seq<int>, xs: seq<real>, sxg: seq<int>) returns (y: real)
    requires RowOk(row, |xs|) && |xq| == 256 * |xs| && Signed(xq) && |sxg| == 16 * |xs|
    requires GroupSums(sxg, xq, |xs|)
    ensures y == RowDot(row, xq, xs, |xs|)
  {
    hide RealDot, Values, Total, BlockOk, SumsOf, Signed, GroupSums;
    ZeroTotal();
    var accA, accB := ZERO, ZERO;
    for b := 0 to |xs|
      invariant |accA| == |accB| == 4 && Total(accA) + Total(accB) == RowDot(row, xq, xs, b)
    {
      var xp, sb := xq[256 * b..256 * b + 256], sxg[16 * b..16 * b + 16];
      SignedSlice(xq, 256 * b, 256 * b + 256);
      BlockSums(sxg, xq, |xs|, b);
      accA, accB := AccBlock(accA, accB, row[b], xp, sb, xs[b]);
    }
    y := Reduce(accA, accB);
  }

  /** `matmul_q6k`, from the quantised activations on: every output is the dot of the row
      dequantised with the activations dequantised. */
  method Matmul(y: array<real>, w: seq<seq<Block>>, xq: seq<int>, xs: seq<real>)
    requires y.Length == |w| && |xq| == 256 * |xs| && Signed(xq)
    requires forall r :: 0 <= r < |w| ==> RowOk(w[r], |xs|)
    modifies y
    ensures forall r :: 0 <= r < |w| ==> y[r] == RowDot(w[r], xq, xs, |xs|)
  {
    hide RowOk, RowDot, Signed, GroupSums;
    var sxg := PrepareSums(xq, |xs|);
    var oo, n2 := 0, |w| - |w| % 2;
    while oo < n2
      invariant oo % 2 == 0 && 0 <= oo <= n2
      invariant forall r :: 0 <= r < oo ==> y[r] == RowDot(w[r], xq, xs, |xs|)
    {
      var y0, y1 := TwoRows(w[oo], w[oo + 1], xq, xs, sxg);
      y[oo], y[oo + 1] := y0, y1;
      oo := oo + 2;
    }
    if |w| % 2 == 1 {
      y[|w| - 1] := RowProduct(w[|w| - 1], xq, xs, sxg);
    }
  }
}
