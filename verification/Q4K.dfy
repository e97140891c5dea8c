/**
  The Q4_K row product (inference/core/matvec.c): 256-weight blocks of 4-bit values with
  6-bit group scales and minima, dotted with int8 activations in the integer domain.
  The half-precision factors of a block are given as reals.
*/
module Q4K {
  import opened Simd

  datatype Block = Block(d: real, dmin: real, scp: seq<int>, qs: seq<int>)

  predicate BlockOk(b: Block) {
    |b.scp| == 12 && Bytes(b.scp) && |b.qs| == 128 && Bytes(b.qs)
  }

  // ----- scales -----

  /** `gsm_k4`: the scale and the minimum of group `j`. */
  function GroupScale(j: nat, q: seq<int>): (r: (int, int))
    requires j < 8 && |q| == 12 && Bytes(q)
  {
    if j < 4 then (q[j] % 64, q[j + 4] % 64)
    else (BitOr(q[j + 4] % 16, q[j - 4] / 64 * 16), BitOr(q[j + 4] / 16, q[j] / 64 * 16))
  }

  /** `q4k_unpack_sc`: all eight at once. */
  method UnpackScales(scp: seq<int>) returns (sc: seq<int>, mn: seq<int>)
    requires |scp| == 12 && Bytes(scp)
    ensures |sc| == |mn| == 8
    ensures forall j :: 0 <= j < 8 ==> (sc[j], mn[j]) == GroupScale(j, scp)
  {
    hide BitOr;
    sc := [scp[0] % 64, scp[1] % 64, scp[2] % 64, scp[3] % 64,
           BitOr(scp[8] % 16, scp[0] / 64 * 16), BitOr(scp[9] % 16, scp[1] / 64 * 16),
           BitOr(scp[10] % 16, scp[2] / 64 * 16), BitOr(scp[11] % 16, scp[3] / 64 * 16)];
    mn := [scp[4] % 64, scp[5] % 64, scp[6] % 64, scp[7] % 64,
           BitOr(scp[8] / 16, scp[4] / 64 * 16), BitOr(scp[9] / 16, scp[5] / 64 * 16),
           BitOr(scp[10] / 16, scp[6] / 64 * 16), BitOr(scp[11] / 16, scp[7] / 64 * 16)];
  }

  /** A group's scale and minimum have six bits. */
  lemma {:induction false} ScaleBound(j: nat, q: seq<int>)
    requires j < 8 && |q| == 12 && Bytes(q)
    ensures 0 <= GroupScale(j, q).0 < 64 && 0 <= GroupScale(j, q).1 < 64
  {
    hide BitOr;
    if j >= 4 {
      SixBits(q[j + 4] % 16, q[j - 4] / 64);
      SixBits(q[j + 4] / 16, q[j] / 64);
    }
  }

  // ----- the dequantised block -----

  /** Two groups share 32 bytes: the even one in the low nibbles, the odd one in the high. */
  function Nibbles(b: Block, g: nat): (n: seq<int>)
    requires BlockOk(b) && g < 8
    ensures |n| == 32
  {
    var q := b.qs[32 * (g / 2)..32 * (g / 2) + 32];
    if g % 2 == 1 then Shift(q, 16) else Mask(q, 16)
  }

  function Factor(b: Block, g: nat): (r: real)
    requires BlockOk(b) && g < 8
  {
    b.d * GroupScale(g, b.scp).0 as real
  }

  function Minimum(b: Block, g: nat): (r: real)
    requires BlockOk(b) && g < 8
  {
    b.dmin * GroupScale(g, b.scp).1 as real
  }

  function GroupWeights(d1: real, m1: real, n: seq<int>): (w: seq<real>)
    ensures |w| == |n|
  {
    if n == [] then [] else [d1 * n[0] as real - m1] + GroupWeights(d1, m1, n[1..])
  }

  /** The weights of groups `g` to 7: a value times its group's scale, less its group's minimum. */
  function Weights(b: Block, g: nat): (w: seq<real>)
    requires BlockOk(b) && g <= 8
    ensures |w| == 256 - 32 * g
    decreases 8 - g
  {
    if g == 8 then []
    else
      GroupWeights(Factor(b, g), Minimum(b, g), Nibbles(b, g)) + Weights(b, g + 1)
  }

  lemma {:induction false} GroupWeightsAt(d1: real, m1: real, n: seq<int>, e: nat)
    requires e < |n|
    ensures GroupWeights(d1, m1, n)[e] == d1 * n[e] as real - m1
  {
    if e > 0 {
      GroupWeightsAt(d1, m1, n[1..], e - 1);
    }
  }

  lemma {:induction false} NibblesAt(b: Block, g: nat, e: nat)
    requires BlockOk(b) && g < 8 && e < 32
    ensures
      var byte := b.qs[32 * (g / 2) + e];
      Nibbles(b, g)[e] == if g % 2 == 1 then byte / 16 else byte % 16
  {
    var q := b.qs[32 * (g / 2)..32 * (g / 2) + 32];
    ShiftAt(q, 16, e);
    MaskAt(q, 16, e);
  }

  /** Every weight from group `g` on stands at its place. */
  lemma {:induction false} WeightsAt(b: Block, g: nat, h: nat, e: nat)
    requires BlockOk(b) && g <= h < 8 && e < 32
    ensures Weights(b, g)[32 * (h - g) + e] == Factor(b, h) * Nibbles(b, h)[e] as real - Minimum(b, h)
    decreases h - g
  {
    hide Factor, Minimum, Nibbles, GroupWeights;
    if g == h {
      GroupWeightsAt(Factor(b, g), Minimum(b, g), Nibbles(b, g), e);
    } else {
      WeightsAt(b, g + 1, h, e);
    }
  }

  function Times(a: real, n: int): (r: real) {
    a * n as real
  }

  /** `q4k_block`: dequantises a block into a row. */
  method DequantBlock(y: array<real>, base: nat, b: Block)
    requires BlockOk(b) && base + 256 <= y.Length
    modifies y
    ensures forall k :: 0 <= k < y.Length ==>
      y[k] == if base <= k < base + 256 then Weights(b, 0)[k - base] else old(y[k])
  {
    BlockSizes(b);
    hide *;
    ghost var w := Weights(b, 0);
    var sc8, mn8 := UnpackScales(b.scp);
    for g := 0 to 8
      invariant forall k :: 0 <= k < y.Length ==> y[k] == if base <= k < base + 32 * g then w[k - base] else old(y[k])
    {
      FactorsAre(b, g, sc8[g], mn8[g]);
      var d1, m1 := Times(b.d, sc8[g]), Times(b.dmin, mn8[g]);
      DequantTurn(y, base + 32 * g, b, g, d1, m1);
    }
  }

  /** One weight as the loop computes it. */
  lemma {:induction false} GroupWeightIs(d1: real, m1: real, n: seq<int>, e: nat)
    requires e < |n|
    ensures GroupWeights(d1, m1, n)[e] == Times(d1, n[e]) - m1
  {
    GroupWeightsAt(d1, m1, n, e);
  }

  /** The inner loop: one group of 32. */
  method DequantGroup(y: array<real>, at: nat, b: Block, g: nat, d1: real, m1: real)
    requires BlockOk(b) && g < 8 && at + 32 <= y.Length
    modifies y
    ensures forall k :: 0 <= k < y.Length ==>
      y[k] == if at <= k < at + 32 then GroupWeights(d1, m1, Nibbles(b, g))[k - at] else old(y[k])
  {
    BlockSizes(b);
    hide *;
    ghost var w := GroupWeights(d1, m1, Nibbles(b, g));
    for e := 0 to 32
      invariant forall k :: 0 <= k < y.Length ==> y[k] == if at <= k < at + e then w[k - at] else old(y[k])
    {
      var q := b.qs[32 * (g / 2) + e];
      var nib := if g % 2 == 1 then q / 16 else q % 16;
      NibblesAt(b, g, e);
      GroupWeightIs(d1, m1, Nibbles(b, g), e);
      y[at + e] := Times(d1, nib) - m1;
    }
  }

  /** One turn of the outer loop. */
  method DequantTurn(y: array<real>, at: nat, b: Block, g: nat, d1: real, m1: real)
    requires BlockOk(b) && g < 8 && at + 32 <= y.Length && d1 == Factor(b, g) && m1 == Minimum(b, g)
    modifies y
    ensures forall k :: 0 <= k < y.Length ==>
      y[k] == if at <= k < at + 32 then Weights(b, 0)[32 * g + (k - at)] else old(y[k])
  {
    hide *;
    GroupStands(b, g);
    DequantGroup(y, at, b, g, d1, m1);
  }

  /** Group `g`'s weights in the block's. */
  lemma {:induction false} GroupStands(b: Block, g: nat)
    requires BlockOk(b) && g < 8
    ensures forall e :: 0 <= e < 32 ==>
      GroupWeights(Factor(b, g), Minimum(b, g), Nibbles(b, g))[e] == Weights(b, 0)[32 * g + e]
  {
    hide *;
    forall e | 0 <= e < 32
      ensures GroupWeights(Factor(b, g), Minimum(b, g), Nibbles(b, g))[e] == Weights(b, 0)[32 * g + e]
    {
      WeightIs(b, g, e);
      GroupWeightIs(Factor(b, g), Minimum(b, g), Nibbles(b, g), e);
    }
  }

  lemma {:induction false} WeightIs(b: Block, g: nat, e: nat)
    requires BlockOk(b) && g < 8 && e < 32
    ensures Weights(b, 0)[32 * g + e] == Times(Factor(b, g), Nibbles(b, g)[e]) - Minimum(b, g)
  {
    hide Factor, Minimum, Weights, Nibbles, Bytes;
    WeightsAt(b, 0, g, e);
  }

  lemma {:induction false} FactorsAre(b: Block, g: nat, sc: int, mn: int)
    requires BlockOk(b) && g < 8 && (sc, mn) == GroupScale(g, b.scp)
    ensures Times(b.d, sc) == Factor(b, g) && Times(b.dmin, mn) == Minimum(b, g)
  {
    hide GroupScale, Bytes;
  }

  lemma {:induction false} BlockSizes(b: Block)
    requires BlockOk(b)
    ensures |b.scp| == 12 && Bytes(b.scp) && |b.qs| == 128
  {
  }

  // ----- the integer-domain form -----

  lemma {:induction false} TermSplit(a: real, b: real, n: int, s: real, x: int)
    ensures (a * n as real - b) * (s * x as real) == (n * x) as real * (a * s) - x as real * (b * s)
  {
    IntMul(n, x);
    RealTerm(a, b, n as real, s, x as real);
  }

  lemma {:induction false} RealTerm(a: real, b: real, n: real, s: real, x: real)
    ensures (a * n - b) * (s * x) == (n * x) * (a * s) - x * (b * s)
  {
  }

  /** The first weight of a group, and the rest. */
  lemma {:induction false} GroupHead(a: real, b: real, n: seq<int>, s: real, x: seq<int>)
    requires |n| == |x| && n != []
    ensures RealDot(GroupWeights(a, b, n), x, s)
            == (a * n[0] as real - b) * (s * x[0] as real) + RealDot(GroupWeights(a, b, n[1..]), x[1..], s)
    ensures IntDot(n, x) == n[0] * x[0] + IntDot(n[1..], x[1..]) && Sum(x) == x[0] + Sum(x[1..])
  {
    assert GroupWeights(a, b, n)[1..] == GroupWeights(a, b, n[1..]);
  }

  lemma {:induction false} GroupAdd(h: real, t: real, p: int, i: int, x: int, u: int, k: real, c: real)
    requires h == p as real * k - x as real * c && t == i as real * k - u as real * c
    ensures h + t == (p + i) as real * k - (x + u) as real * c
  {
    Distribute(p, i, k);
    Distribute(x, u, c);
  }

  lemma {:induction false} NoGroup(a: real, b: real, s: real, k: real, c: real)
    ensures RealDot(GroupWeights(a, b, []), [], s) == IntDot([], []) as real * k - Sum([]) as real * c
  {
  }

  /** A group's dot with dequantised weights is its integer dot scaled, less the activations' sum scaled. */
  lemma {:induction false} GroupDot(a: real, b: real, n: seq<int>, s: real, x: seq<int>, k: real, c: real)
    requires |n| == |x| && k == a * s && c == b * s
    ensures RealDot(GroupWeights(a, b, n), x, s) == IntDot(n, x) as real * k - Sum(x) as real * c
  {
    hide RealDot, IntDot, Sum, GroupWeights;
    if n == [] {
      NoGroup(a, b, s, k, c);
    } else {
      GroupDot(a, b, n[1..], s, x[1..], k, c);
      GroupHead(a, b, n, s, x);
      TermSplit(a, b, n[0], s, x[0]);
      GroupAdd((a * n[0] as real - b) * (s * x[0] as real), RealDot(GroupWeights(a, b, n[1..]), x[1..], s),
               n[0] * x[0], IntDot(n[1..], x[1..]), x[0], Sum(x[1..]), k, c);
    }
  }

  function Tail(b: Block, g: nat, x: seq<int>, s: real): (t: real)
    requires BlockOk(b) && g <= 8 && |x| == 256
  {
    RealDot(Weights(b, g), x[32 * g..], s)
  }

  /** What group `g` adds to the block's dot. */
  lemma {:induction false} GroupStep(b: Block, g: nat, x: seq<int>, s: real, k: real, c: real)
    requires BlockOk(b) && g < 8 && |x| == 256 && k == Factor(b, g) * s && c == Minimum(b, g) * s
    ensures
      var y := x[32 * g..32 * g + 32];
      Tail(b, g, x, s) == IntDot(Nibbles(b, g), y) as real * k - Sum(y) as real * c + Tail(b, g + 1, x, s)
  {
    hide Factor, Minimum, Nibbles, RealDot, GroupWeights, Bytes, IntDot, Sum;
    var n, y := Nibbles(b, g), x[32 * g..32 * g + 32];
    GroupDot(Factor(b, g), Minimum(b, g), n, s, y, k, c);
    assert x[32 * g..] == y + x[32 * (g + 1)..];
    RealDotAppend(GroupWeights(Factor(b, g), Minimum(b, g), n), Weights(b, g + 1), y, x[32 * (g + 1)..], s);
  }

  /** The vector form of a group's nibbles: two 16-byte halves, the odd group through 16-bit shifts. */
  lemma {:induction false} VectorNibbles(b: Block, g: nat)
    requires BlockOk(b) && g < 8
    ensures
      var o := 32 * (g / 2);
      var (q0, q1) := (b.qs[o..o + 16], b.qs[o + 16..o + 32]);
      && |q0| == 16 && |q1| == 16
      && Nibbles(b, g) == (if g % 2 == 1 then Mask(Srli16(q0, 4), 16) + Mask(Srli16(q1, 4), 16)
                           else Mask(q0, 16) + Mask(q1, 16))
      && Below(Nibbles(b, g), 16)
  {
    var o := 32 * (g / 2);
    var q0, q1 := b.qs[o..o + 16], b.qs[o + 16..o + 32];
    assert q0 + q1 == b.qs[o..o + 32];
    HighNibbles(q0);
    HighNibbles(q1);
    ShiftSplit(q0, q1, 16);
    MaskSplit(q0, q1, 16);
    ShiftBelow(b.qs[o..o + 32]);
    MaskBelow(b.qs[o..o + 32], 16);
  }

  /** Eight lanes of a group's products: `maddubs`, then `madd` with ones. */
  lemma {:induction false} LanesAreDot(n: seq<int>, x: seq<int>)
    requires |n| == |x| == 32 && Below(n, 16) && Signed(x)
    ensures |MaddOnes(Maddubs(n, x))| == 8 && Sum(MaddOnes(Maddubs(n, x))) == IntDot(n, x)
  {
    assert Below(n, 64);
    MaddubsIsDot(n, x);
    MaddOnesKeepsSum(Maddubs(n, x));
  }

  function Prod(a: real, b: real): (r: real) {
    a * b
  }

  lemma {:induction false} FactorsScaled(b: Block, g: nat, s: real, d1: real, m1: real)
    requires BlockOk(b) && g < 8
    requires d1 == Times(Prod(b.d, s), GroupScale(g, b.scp).0) && m1 == Times(Prod(b.dmin, s), GroupScale(g, b.scp).1)
    ensures d1 == Prod(Factor(b, g), s) && m1 == Prod(Minimum(b, g), s)
  {
    hide GroupScale, Bytes;
    assert d1 == b.d * s * GroupScale(g, b.scp).0 as real && m1 == b.dmin * s * GroupScale(g, b.scp).1 as real;
    FactorForms(b.d, s, GroupScale(g, b.scp).0 as real, Factor(b, g), d1);
    FactorForms(b.dmin, s, GroupScale(g, b.scp).1 as real, Minimum(b, g), m1);
    hide Factor, Minimum;
  }

  lemma {:induction false} SameReal(a: real, b: real, k: real)
    requires a == b
    ensures a * k == b * k
  {
  }

  /** One group folded into the accumulator and the correction: `sx` is the sum of its activations. */
  lemma {:induction false} GroupFold(b: Block, g: nat, xp: seq<int>, s: real, acc: seq<real>, lanes: seq<int>,
                                     d1: real, m1: real, sx: real)
    requires BlockOk(b) && g < 8 && |xp| == 256 && Signed(xp) && |acc| == 8
    requires lanes == MaddOnes(Maddubs(Nibbles(b, g), xp[32 * g..32 * g + 32]))
    requires d1 == Prod(Factor(b, g), s) && m1 == Prod(Minimum(b, g), s)
    requires sx == Sum(xp[32 * g..32 * g + 32]) as real
    ensures |lanes| == 8
    ensures Total(Fma(acc, lanes, d1)) - Prod(sx, m1) + Tail(b, g + 1, xp, s) == Total(acc) + Tail(b, g, xp, s)
  {
    hide Factor, Minimum, Tail, Nibbles, IntDot, Sum, Total, Fma, MaddOnes, Maddubs, Signed, GroupScale;
    var y := xp[32 * g..32 * g + 32];
    SignedSlice(xp, 32 * g, 32 * g + 32);
    VectorNibbles(b, g);
    LanesAreDot(Nibbles(b, g), y);
    GroupStep(b, g, xp, s, d1, m1);
    FmaTotal(acc, lanes, d1);
    SameProduct(Sum(lanes), IntDot(Nibbles(b, g), y), d1);
    SameReal(sx, Sum(y) as real, m1);
  }

  /** The activations' sums, group by group. */
  predicate SumsOf(sxb: seq<real>, xp: seq<int>)
    requires |sxb| == 8 && |xp| == 256
  {
    forall g :: 0 <= g < 8 ==> sxb[g] == Sum(xp[32 * g..32 * g + 32]) as real
  }

  /** `q4k_acc_block`. */
  method AccBlock(acc0: seq<real>, cmin0: real, b: Block, xp: seq<int>, sxb: seq<real>, xsb: real)
    returns (acc: seq<real>, cmin: real)
    requires |acc0| == 8 && BlockOk(b) && |xp| == 256 && Signed(xp) && |sxb| == 8
    requires SumsOf(sxb, xp)
    ensures |acc| == 8
    ensures Total(acc) + cmin == Total(acc0) + cmin0 + RealDot(Weights(b, 0), xp, xsb)
  {
    hide GroupScale, Factor, Minimum, Nibbles, RealDot, Total, Sum, Fma, MaddOnes, Maddubs, Mask, Srli16, Weights,
      Signed, Times, Prod;
    assert xp[0..] == xp;
    acc, cmin := acc0, cmin0;
    var sc8, mn8 := UnpackScales(b.scp);
    var dsc, msc := Prod(b.d, xsb), Prod(b.dmin, xsb);
    for j := 0 to 4
      invariant |acc| == 8
      invariant Total(acc) + cmin + Tail(b, 2 * j, xp, xsb) == Total(acc0) + cmin0 + Tail(b, 0, xp, xsb)
    {
      var g := 2 * j;
      var q0, q1 := b.qs[32 * j..32 * j + 16], b.qs[32 * j + 16..32 * j + 32];
      VectorNibbles(b, g);
      VectorNibbles(b, g + 1);
      var qv1 := Mask(q0, 16) + Mask(q1, 16);
      var qv2 := Mask(Srli16(q0, 4), 16) + Mask(Srli16(q1, 4), 16);
      var p1 := Maddubs(qv1, xp[64 * j..64 * j + 32]);
      var p2 := Maddubs(qv2, xp[64 * j + 32..64 * j + 64]);
      var d1, d2 := Times(dsc, sc8[g]), Times(dsc, sc8[g + 1]);
      var m1, m2 := Times(msc, mn8[g]), Times(msc, mn8[g + 1]);
      FactorsScaled(b, g, xsb, d1, m1);
      GroupFold(b, g, xp, xsb, acc, MaddOnes(p1), d1, m1, sxb[g]);
      acc := Fma(acc, MaddOnes(p1), d1);
      FactorsScaled(b, g + 1, xsb, d2, m2);
      GroupFold(b, g + 1, xp, xsb, acc, MaddOnes(p2), d2, m2, sxb[g + 1]);
      acc := Fma(acc, MaddOnes(p2), d2);
      cmin := cmin - (Prod(sxb[g], m1) + Prod(sxb[g + 1], m2));
    }
    NoTail(b, xp, xsb);
  }

  lemma {:induction false} NoTail(b: Block, x: seq<int>, s: real)
    requires BlockOk(b) && |x| == 256
    ensures Tail(b, 8, x, s) == 0.0
  {
  }

  predicate RowOk(row: seq<Block>, nb: nat) {
    |row| == nb && forall k :: 0 <= k < nb ==> BlockOk(row[k])
  }

  /** The row's dot with dequantised weights and activations, over its first `n` blocks. */
  function RowDot(row: seq<Block>, xq: seq<int>, xs: seq<real>, n: nat): (t: real)
    requires RowOk(row, |xs|) && n <= |xs| && |xq| == 256 * |xs|
  {
    if n == 0 then 0.0
    else RowDot(row, xq, xs, n - 1) + RealDot(Weights(row[n - 1], 0), xq[256 * (n - 1)..256 * n], xs[n - 1])
  }

  predicate GroupSums(sxg: seq<real>, xq: seq<int>, nb: nat)
    requires |xq| == 256 * nb && |sxg| == 8 * nb
  {
    forall k, g :: 0 <= k < nb && 0 <= g < 8 ==>
      sxg[8 * k + g] == Sum(xq[256 * k + 32 * g..256 * k + 32 * g + 32]) as real
  }

  /** One row's loop over its blocks. */
  method RowProduct(row: seq<Block>, xq: seq<int>, xs: seq<real>, sxg: seq<real>) returns (y: real)
    requires RowOk(row, |xs|) && |xq| == 256 * |xs| && Signed(xq) && |sxg| == 8 * |xs|
    requires GroupSums(sxg, xq, |xs|)
    ensures y == RowDot(row, xq, xs, |xs|)
  {
    hide RealDot, Weights, Total, Sum, BlockOk, SumsOf, Signed, GroupSums;
    var acc := [0.0, 0.0, 0.0, 0.0, 0.0, 0.0, 0.0, 0.0];
    Zeros();
    var c := 0.0;
    for b := 0 to |xs|
      invariant |acc| == 8 && Total(acc) + c == RowDot(row, xq, xs, b)
    {
      var xp, sxb := xq[256 * b..256 * b + 256], sxg[8 * b..8 * b + 8];
      SignedSlice(xq, 256 * b, 256 * b + 256);
      BlockSums(sxg, xq, |xs|, b);
      acc, c := AccBlock(acc, c, row[b], xp, sxb, xs[b]);
    }
    HSum8IsTotal(acc);
    y := HSum8(acc) + c;
  }

  lemma {:induction false} Zeros()
    ensures Total([0.0, 0.0, 0.0, 0.0, 0.0, 0.0, 0.0, 0.0]) == 0.0
  {
    HSum8IsTotal([0.0, 0.0, 0.0, 0.0, 0.0, 0.0, 0.0, 0.0]);
  }

  lemma {:induction false} BlockSums(sxg: seq<real>, xq: seq<int>, nb: nat, b: nat)
    requires |xq| == 256 * nb && |sxg| == 8 * nb && b < nb && GroupSums(sxg, xq, nb)
    ensures SumsOf(sxg[8 * b..8 * b + 8], xq[256 * b..256 * b + 256])
  {
    hide Sum;
    var xp, sxb := xq[256 * b..256 * b + 256], sxg[8 * b..8 * b + 8];
    forall g | 0 <= g < 8
      ensures sxb[g] == Sum(xp[32 * g..32 * g + 32]) as real
    {
      assert sxb[g] == sxg[8 * b + g];
      SliceOfSlice(xq, 256 * b, 256 * b + 256, 32 * g, 32 * g + 32);
    }
  }

  /** The group sums computed once per activation vector, with the same lane operations. */
  method PrepareSums(xq: seq<int>, nb: nat) returns (sxg: seq<real>)
    requires |xq| == 256 * nb && Signed(xq)
    ensures |sxg| == 8 * nb && GroupSums(sxg, xq, nb)
  {
    hide Sum, MaddOnes, Maddubs, Signed, HSum8;
    sxg := [];
    var ones := [1, 1, 1, 1, 1, 1, 1, 1, 1, 1, 1, 1, 1, 1, 1, 1, 1, 1, 1, 1, 1, 1, 1, 1, 1, 1, 1, 1, 1, 1, 1, 1];
    for b := 0 to nb
      invariant |sxg| == 8 * b
      invariant forall k, g :: 0 <= k < b && 0 <= g < 8 ==>
        sxg[8 * k + g] == Sum(xq[256 * k + 32 * g..256 * k + 32 * g + 32]) as real
    {
      for g := 0 to 8
        invariant |sxg| == 8 * b + g
        invariant forall k, h :: 0 <= k < b && 0 <= h < 8 ==>
          sxg[8 * k + h] == Sum(xq[256 * k + 32 * h..256 * k + 32 * h + 32]) as real
        invariant forall h :: 0 <= h < g ==>
          sxg[8 * b + h] == Sum(xq[256 * b + 32 * h..256 * b + 32 * h + 32]) as real
      {
        var xv := xq[256 * b + 32 * g..256 * b + 32 * g + 32];
        SignedSlice(xq, 256 * b + 32 * g, 256 * b + 32 * g + 32);
        OnesDot(ones, xv);
        var s := HSum8(Reals(MaddOnes(Maddubs(ones, xv))));
        sxg := sxg + [s];
      }
    }
  }

  function Reals(v: seq<int>): (r: seq<real>)
    ensures |r| == |v|
  {
    if v == [] then [] else [v[0] as real] + Reals(v[1..])
  }

  lemma {:induction false} RealsTotal(v: seq<int>)
    ensures Total(Reals(v)) == Sum(v) as real
  {
    if v != [] {
      RealsTotal(v[1..]);
      assert Reals(v)[1..] == Reals(v[1..]);
    }
  }

  lemma {:induction false} DotWithOnes(u: seq<int>, x: seq<int>)
    requires |u| == |x| && forall i :: 0 <= i < |u| ==> u[i] == 1
    ensures IntDot(u, x) == Sum(x)
  {
    if u != [] {
      DotWithOnes(u[1..], x[1..]);
    }
  }

  lemma {:induction false} OnesDot(u: seq<int>, x: seq<int>)
    requires |u| == |x| == 32 && Signed(x) && forall i :: 0 <= i < 32 ==> u[i] == 1
    ensures HSum8(Reals(MaddOnes(Maddubs(u, x)))) == Sum(x) as real
  {
    LanesAreDot(u, x);
    DotWithOnes(u, x);
    RealsTotal(MaddOnes(Maddubs(u, x)));
    HSum8IsTotal(Reals(MaddOnes(Maddubs(u, x))));
  }

  /** Two rows share the pass over the activations. */
  method TwoRows(row0: seq<Block>, row1: seq<Block>, xq: seq<int>, xs: seq<real>, sxg: seq<real>)
    returns (y0: real, y1: real)
    requires RowOk(row0, |xs|) && RowOk(row1, |xs|) && |xq| == 256 * |xs| && Signed(xq) && |sxg| == 8 * |xs|
    requires GroupSums(sxg, xq, |xs|)
    ensures y0 == RowDot(row0, xq, xs, |xs|) && y1 == RowDot(row1, xq, xs, |xs|)
  {
    hide RealDot, Weights, Total, Sum, BlockOk, SumsOf, Signed, GroupSums;
    var acc0 := [0.0, 0.0, 0.0, 0.0, 0.0, 0.0, 0.0, 0.0];
    var acc1 := acc0;
    Zeros();
    var c0, c1 := 0.0, 0.0;
    for b := 0 to |xs|
      invariant |acc0| == |acc1| == 8
      invariant Total(acc0) + c0 == RowDot(row0, xq, xs, b) && Total(acc1) + c1 == RowDot(row1, xq, xs, b)
    {
      var xp, sxb := xq[256 * b..256 * b + 256], sxg[8 * b..8 * b + 8];
      SignedSlice(xq, 256 * b, 256 * b + 256);
      BlockSums(sxg, xq, |xs|, b);
      acc0, c0 := AccBlock(acc0, c0, row0[b], xp, sxb, xs[b]);
      acc1, c1 := AccBlock(acc1, c1, row1[b], xp, sxb, xs[b]);
    }
    HSum8IsTotal(acc0);
    HSum8IsTotal(acc1);
    y0, y1 := HSum8(acc0) + c0, HSum8(acc1) + c1;
  }

  /** `matmul_q4k`, from the quantised activations on: every output is the dot of the row
      dequantised with the activations dequantised. */
  method Matmul(y: array<real>, w: seq<seq<Block>>, xq: seq<int>, xs: seq<real>)
    requires y.Length == |w| && |xq| == 256 * |xs| && Signed(xq)
    requires forall r :: 0 <= r < |w| ==> RowOk(w[r], |xs|)
    modifies y
    ensures forall r :: 0 <= r < |w| ==> y[r] == RowDot(w[r], xq, xs, |xs|)
  {
    hide RowOk, RowDot, Signed, GroupSums;
    var sxg := PrepareSums(xq, |xs|);
    var oo, n2 := 0, |w| - |w| % 2;
    while oo < n2
      invariant oo % 2 == 0 && 0 <= oo <= n2
      invariant forall r :: 0 <= r < oo ==> y[r] == RowDot(w[r], xq, xs, |xs|)
    {
      var y0, y1 := TwoRows(w[oo], w[oo + 1], xq, xs, sxg);
      y[oo], y[oo + 1] := y0, y1;
      oo := oo + 2;
    }
    if |w| % 2 == 1 {
      y[|w| - 1] := RowProduct(w[|w| - 1], xq, xs, sxg);
    }
  }
}
