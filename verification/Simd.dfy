/**
  The lane operations the integer kernels are made of (inference/core/matvec.c): vectors are
  sequences of lanes, bytes are integers 0..255, signed bytes -128..127, and a 16-bit lane
  holds two bytes, low byte first.  Masking with 2^k - 1 is written as a remainder and a
  right shift as a quotient; the OR and the shifts of 16-bit lanes are spelled out.
*/
module Simd {
  predicate Bytes(v: seq<int>) {
    forall i :: 0 <= i < |v| ==> 0 <= v[i] < 256
  }

  predicate Below(v: seq<int>, bound: int) {
    forall i :: 0 <= i < |v| ==> 0 <= v[i] < bound
  }

  predicate Signed(v: seq<int>) {
    forall i :: 0 <= i < |v| ==> -128 <= v[i] < 128
  }

  function Sum(v: seq<int>): (s: int) {
    if v == [] then 0 else v[0] + Sum(v[1..])
  }

  function Total(v: seq<real>): (s: real) {
    if v == [] then 0.0 else v[0] + Total(v[1..])
  }

  function IntDot(u: seq<int>, x: seq<int>): (s: int)
    requires |u| == |x|
  {
    if u == [] then 0 else u[0] * x[0] + IntDot(u[1..], x[1..])
  }

  /** The dot of real weights with the activations `s * x[i]`. */
  function RealDot(w: seq<real>, x: seq<int>, s: real): (t: real)
    requires |w| == |x|
  {
    if w == [] then 0.0 else w[0] * (s * x[0] as real) + RealDot(w[1..], x[1..], s)
  }

  lemma {:induction false} RealDotAppend(v: seq<real>, w: seq<real>, x: seq<int>, y: seq<int>, s: real)
    requires |v| == |x| && |w| == |y|
    ensures RealDot(v + w, x + y, s) == RealDot(v, x, s) + RealDot(w, y, s)
  {
    if v == [] {
      assert v + w == w && x + y == y;
    } else {
      assert (v + w)[1..] == v[1..] + w && (x + y)[1..] == x[1..] + y;
      RealDotAppend(v[1..], w, x[1..], y, s);
    }
  }

  lemma {:induction false} IntDotAppend(v: seq<int>, w: seq<int>, x: seq<int>, y: seq<int>)
    requires |v| == |x| && |w| == |y|
    ensures IntDot(v + w, x + y) == IntDot(v, x) + IntDot(w, y)
  {
    if v == [] {
      assert v + w == w && x + y == y;
    } else {
      assert (v + w)[1..] == v[1..] + w && (x + y)[1..] == x[1..] + y;
      IntDotAppend(v[1..], w, x[1..], y);
    }
  }

  // ----- bytes in 16-bit lanes -----

  function Pow2(k: nat): (p: nat)
    ensures p > 0
  {
    if k == 0 then 1 else 2 * Pow2(k - 1)
  }

  /** `_mm_srli_epi16` on bytes. */
  function Srli16(v: seq<int>, k: nat): (r: seq<int>)
    requires |v| % 2 == 0
  {
    if v == [] then []
    else
      var lane := (v[0] + 256 * v[1]) / Pow2(k);
      [lane % 256, lane / 256] + Srli16(v[2..], k)
  }

  /** `_mm_slli_epi16` on bytes. */
  function Slli16(v: seq<int>, k: nat): (r: seq<int>)
    requires |v| % 2 == 0
  {
    if v == [] then []
    else
      var lane := (v[0] + 256 * v[1]) * Pow2(k) % 65536;
      [lane % 256, lane / 256] + Slli16(v[2..], k)
  }

  /** `_mm_and_si128` with every byte `m - 1`, for `m` a power of two. */
  function Mask(v: seq<int>, m: int): (r: seq<int>)
    requires m > 0
    ensures |r| == |v|
  {
    if v == [] then [] else [v[0] % m] + Mask(v[1..], m)
  }

  function Shift(v: seq<int>, d: int): (r: seq<int>)
    requires d > 0
    ensures |r| == |v|
  {
    if v == [] then [] else [v[0] / d] + Shift(v[1..], d)
  }

  function BitOr(a: nat, b: nat): (r: nat)
    decreases a + b
  {
    if a == 0 && b == 0 then 0
    else (if a % 2 == 1 || b % 2 == 1 then 1 else 0) + 2 * BitOr(a / 2, b / 2)
  }

  lemma {:induction false} OrOfZero(b: nat)
    ensures BitOr(0, b) == b
    decreases b
  {
    if b != 0 {
      OrOfZero(b / 2);
    }
  }

  /** OR of a value below 2^k with a multiple of 2^k adds them. */
  lemma {:induction false} OrAdds(a: nat, c: nat, k: nat)
    requires a < Pow2(k)
    ensures c * Pow2(k) >= 0 && BitOr(a, c * Pow2(k)) == a + c * Pow2(k)
    decreases k
  {
    if k == 0 {
      OrOfZero(c);
    } else {
      var h := c * Pow2(k - 1);
      assert c * Pow2(k) == 2 * h;
      OrAdds(a / 2, c, k - 1);
    }
  }

  // ----- multiply-add -----

  function Sat16(x: int): (r: int) {
    if x < -32768 then -32768 else if x > 32767 then 32767 else x
  }

  /** `maddubs_epi16`: unsigned times signed bytes, neighbouring products added with saturation. */
  function Maddubs(u: seq<int>, x: seq<int>): (p: seq<int>)
    requires |u| == |x| && |u| % 2 == 0
    ensures |p| == |u| / 2
  {
    if u == [] then [] else [Sat16(u[0] * x[0] + u[1] * x[1])] + Maddubs(u[2..], x[2..])
  }

  /** `madd_epi16` with ones. */
  function MaddOnes(p: seq<int>): (q: seq<int>)
    requires |p| % 2 == 0
    ensures |q| == |p| / 2
  {
    if p == [] then [] else [p[0] + p[1]] + MaddOnes(p[2..])
  }

  lemma {:induction false} ProductBound(u: int, x: int)
    requires 0 <= u < 64 && -128 <= x < 128
    ensures -8064 <= u * x <= 8001
  {
    assert u * x <= u * 127 && u * x >= u * -128;
  }

  /** With weights below 64 no 16-bit pair sum saturates, so the pair sums add up to the dot. */
  lemma {:induction false} MaddubsIsDot(u: seq<int>, x: seq<int>)
    requires |u| == |x| && |u| % 2 == 0 && Below(u, 64) && Signed(x)
    ensures forall i :: 0 <= i < |u| / 2 ==> Maddubs(u, x)[i] == u[2 * i] * x[2 * i] + u[2 * i + 1] * x[2 * i + 1]
    ensures Sum(Maddubs(u, x)) == IntDot(u, x)
  {
    hide Maddubs, Sum, IntDot, Below, Signed;
    MaddubsSum(u, x);
    forall i | 0 <= i < |u| / 2
      ensures Maddubs(u, x)[i] == u[2 * i] * x[2 * i] + u[2 * i + 1] * x[2 * i + 1]
    {
      MaddubsAt(u, x, i);
    }
  }

  /** The first pair does not saturate. */
  lemma {:induction false} MaddubsHead(u: seq<int>, x: seq<int>)
    requires |u| == |x| && |u| % 2 == 0 && u != [] && Below(u, 64) && Signed(x)
    ensures Maddubs(u, x) == [u[0] * x[0] + u[1] * x[1]] + Maddubs(u[2..], x[2..])
    ensures Below(u[2..], 64) && Signed(x[2..])
  {
    ProductBound(u[0], x[0]);
    ProductBound(u[1], x[1]);
  }

  lemma {:induction false} MaddubsAt(u: seq<int>, x: seq<int>, i: nat)
    requires |u| == |x| && |u| % 2 == 0 && Below(u, 64) && Signed(x) && i < |u| / 2
    ensures Maddubs(u, x)[i] == u[2 * i] * x[2 * i] + u[2 * i + 1] * x[2 * i + 1]
    decreases i
  {
    hide Maddubs, Below, Signed;
    MaddubsHead(u, x);
    if i > 0 {
      MaddubsAt(u[2..], x[2..], i - 1);
    }
  }

  lemma {:induction false} DotHead(u: seq<int>, x: seq<int>)
    requires |u| == |x| && |u| % 2 == 0 && u != []
    ensures IntDot(u, x) == u[0] * x[0] + u[1] * x[1] + IntDot(u[2..], x[2..])
  {
    assert u[1..][1..] == u[2..] && x[1..][1..] == x[2..];
  }

  lemma {:induction false} SumHead(a: int, v: seq<int>)
    ensures Sum([a] + v) == a + Sum(v)
  {
    assert ([a] + v)[1..] == v;
  }

  lemma {:induction false} MaddubsSum(u: seq<int>, x: seq<int>)
    requires |u| == |x| && |u| % 2 == 0 && Below(u, 64) && Signed(x)
    ensures Sum(Maddubs(u, x)) == IntDot(u, x)
    decreases |u|
  {
    if u != [] {
      MaddubsHead(u, x);
      DotHead(u, x);
      SumHead(u[0] * x[0] + u[1] * x[1], Maddubs(u[2..], x[2..]));
      MaddubsSum(u[2..], x[2..]);
      hide Maddubs, Sum, IntDot, Below, Signed;
    }
  }

  lemma {:induction false} MaddOnesKeepsSum(p: seq<int>)
    requires |p| % 2 == 0
    ensures Sum(MaddOnes(p)) == Sum(p)
    decreases |p|
  {
    if p != [] {
      MaddOnesKeepsSum(p[2..]);
      assert p[1..][1..] == p[2..];
      assert MaddOnes(p)[1..] == MaddOnes(p[2..]);
    }
  }

  /** One fused multiply-add of integer lanes, scaled, into real lanes. */
  function Fma(acc: seq<real>, v: seq<int>, w: real): (r: seq<real>)
    requires |acc| == |v|
    ensures |r| == |acc|
  {
    if acc == [] then [] else [acc[0] + v[0] as real * w] + Fma(acc[1..], v[1..], w)
  }

  lemma {:induction false} FmaTotal(acc: seq<real>, v: seq<int>, w: real)
    requires |acc| == |v|
    ensures Total(Fma(acc, v, w)) == Total(acc) + Sum(v) as real * w
  {
    if acc != [] {
      FmaTotal(acc[1..], v[1..], w);
      assert Fma(acc, v, w)[1..] == Fma(acc[1..], v[1..], w);
      Distribute(v[0], Sum(v[1..]), w);
    }
  }

  lemma {:induction false} IntMul(a: int, b: int)
    ensures (a * b) as real == a as real * b as real
  {
  }

  lemma {:induction false} Distribute(a: int, b: int, w: real)
    ensures (a + b) as real * w == a as real * w + b as real * w
  {
    assert (a + b) as real == a as real + b as real;
  }

  // ----- 16-bit shifts act on bytes once masked -----

  predicate Lane(a: int, b: int, d: int)
    requires d > 0
  {
    var lane := (a + 256 * b) / d;
    lane % 256 % 4 == a / d % 4 && lane / 256 % 4 == b / d % 4
  }

  lemma {:induction false} Lane4(a: int, b: int)
    requires 0 <= a < 256 && 0 <= b < 256
    ensures (a + 256 * b) / 4 == a / 4 + 64 * b
    ensures (a / 4 + 64 * b) % 256 == a / 4 + 64 * (b % 4) && (a / 4 + 64 * b) / 256 == b / 4
  {
    var q, bh, bl := a / 4, b / 4, b % 4;
    assert (a + 256 * b) / 4 == q + 64 * b;
    assert q + 64 * b == 256 * bh + (q + 64 * bl);
  }

  lemma {:induction false} Lane16(a: int, b: int)
    requires 0 <= a < 256 && 0 <= b < 256
    ensures (a + 256 * b) / 16 == a / 16 + 16 * b
    ensures (a / 16 + 16 * b) % 256 == a / 16 + 16 * (b % 16) && (a / 16 + 16 * b) / 256 == b / 16
  {
    var q, bh, bl := a / 16, b / 16, b % 16;
    assert (a + 256 * b) / 16 == q + 16 * b;
    assert q + 16 * b == 256 * bh + (q + 16 * bl);
  }

  lemma {:induction false} Lane64(a: int, b: int)
    requires 0 <= a < 256 && 0 <= b < 256
    ensures (a + 256 * b) / 64 == a / 64 + 4 * b
    ensures (a / 64 + 4 * b) % 256 == a / 64 + 4 * (b % 64) && (a / 64 + 4 * b) / 256 == b / 64
  {
    var q, bh, bl := a / 64, b / 64, b % 64;
    assert (a + 256 * b) / 64 == q + 4 * b;
    assert q + 4 * b == 256 * bh + (q + 4 * bl);
  }

  lemma {:induction false} LowPart(q: int, r: int, m: int)
    requires q >= 0 && r >= 0 && (m == 4 || m == 16)
    ensures (q + m * r) % m == q % m
  {
    if m == 4 { LowPart4(q, r); } else { LowPart16(q, r); }
  }

  lemma {:induction false} LowPart4(q: int, r: int)
    ensures (q + 4 * r) % 4 == q % 4
  {
    var d := q / 4;
    assert q + 4 * r == 4 * (d + r) + q % 4;
  }

  lemma {:induction false} LowPart16(q: int, r: int)
    ensures (q + 16 * r) % 16 == q % 16
  {
    var d := q / 16;
    assert q + 16 * r == 16 * (d + r) + q % 16;
  }

  lemma {:induction false} NibbleShift(a: int, b: int)
    requires 0 <= a < 256 && 0 <= b < 256
    ensures
      var lane := (a + 256 * b) / 16;
      lane % 256 % 16 == a / 16 && lane / 256 % 16 == b / 16
  {
    Lane16(a, b);
    LowPart(a / 16, b % 16, 16);
  }

  lemma {:induction false} LaneBy4(a: int, b: int)
    requires 0 <= a < 256 && 0 <= b < 256
    ensures Lane(a, b, 4)
  {
    Lane4(a, b);
    LowPart(a / 4, 16 * (b % 4), 4);
  }

  lemma {:induction false} LaneBy16(a: int, b: int)
    requires 0 <= a < 256 && 0 <= b < 256
    ensures Lane(a, b, 16)
  {
    Lane16(a, b);
    LowPart(a / 16, 4 * (b % 16), 4);
  }

  lemma {:induction false} LaneBy64(a: int, b: int)
    requires 0 <= a < 256 && 0 <= b < 256
    ensures Lane(a, b, 64)
  {
    Lane64(a, b);
    LowPart(a / 64, b % 64, 4);
  }

  lemma {:induction false} LaneShift(a: int, b: int, k: nat)
    requires 0 <= a < 256 && 0 <= b < 256 && (k == 0 || k == 2 || k == 4 || k == 6)
    ensures Lane(a, b, Pow2(k))
  {
    assert Pow2(2) == 4 && Pow2(4) == 16 && Pow2(6) == 64;
    if k == 0 {
      assert Lane(a, b, 1);
    }
    hide Lane;
    LaneBy4(a, b);
    LaneBy16(a, b);
    LaneBy64(a, b);
  }

  lemma {:induction false} HighNibbles(v: seq<int>)
    requires |v| % 2 == 0 && Bytes(v)
    ensures Mask(Srli16(v, 4), 16) == Shift(v, 16)
    decreases |v|
  {
    if v != [] {
      NibbleShift(v[0], v[1]);
      assert Pow2(4) == 16;
      HighNibbles(v[2..]);
      hide Bytes;
      var lane := (v[0] + 256 * v[1]) / Pow2(4);
      var tail := Srli16(v[2..], 4);
      assert Srli16(v, 4) == [lane % 256, lane / 256] + tail;
      MaskPair(lane % 256, lane / 256, tail, 16);
      ShiftPair(v, 16);
    }
  }

  lemma {:induction false} MaskPair(a: int, b: int, tail: seq<int>, m: int)
    requires m > 0
    ensures Mask([a, b] + tail, m) == [a % m, b % m] + Mask(tail, m)
  {
    assert ([a, b] + tail)[1..] == [b] + tail && ([b] + tail)[1..] == tail;
  }

  lemma {:induction false} ShiftPair(v: seq<int>, d: int)
    requires d > 0 && |v| >= 2
    ensures Shift(v, d) == [v[0] / d, v[1] / d] + Shift(v[2..], d)
  {
    assert v[1..][1..] == v[2..];
  }

  lemma {:induction false} MaskSplit(v: seq<int>, w: seq<int>, m: int)
    requires m > 0
    ensures Mask(v + w, m) == Mask(v, m) + Mask(w, m)
  {
    if v == [] {
      assert v + w == w;
    } else {
      assert (v + w)[1..] == v[1..] + w;
      MaskSplit(v[1..], w, m);
    }
  }

  lemma {:induction false} ShiftSplit(v: seq<int>, w: seq<int>, d: int)
    requires d > 0
    ensures Shift(v + w, d) == Shift(v, d) + Shift(w, d)
  {
    if v == [] {
      assert v + w == w;
    } else {
      assert (v + w)[1..] == v[1..] + w;
      ShiftSplit(v[1..], w, d);
    }
  }

  lemma {:induction false} MaskAt(v: seq<int>, m: int, i: nat)
    requires m > 0 && i < |v|
    ensures Mask(v, m)[i] == v[i] % m
  {
    if i > 0 {
      MaskAt(v[1..], m, i - 1);
    }
  }

  lemma {:induction false} ShiftAt(v: seq<int>, d: int, i: nat)
    requires d > 0 && i < |v|
    ensures Shift(v, d)[i] == v[i] / d
  {
    if i > 0 {
      ShiftAt(v[1..], d, i - 1);
    }
  }

  lemma {:induction false} MaskBelow(v: seq<int>, m: int)
    requires m > 0
    ensures Below(Mask(v, m), m)
  {
    if v != [] {
      MaskBelow(v[1..], m);
    }
  }

  lemma {:induction false} ShiftBelow(v: seq<int>)
    requires Bytes(v)
    ensures Below(Shift(v, 16), 16)
  {
    if v != [] {
      ShiftBelow(v[1..]);
    }
  }

  // ----- horizontal sums -----

  /** `hsum128`. */
  function HSum4(v: seq<real>): (s: real)
    requires |v| == 4
  {
    (v[0] + v[2]) + (v[1] + v[3])
  }

  /** `hsum_avx2`. */
  function HSum8(v: seq<real>): (s: real)
    requires |v| == 8
  {
    HSum4([v[0] + v[4], v[1] + v[5], v[2] + v[6], v[3] + v[7]])
  }

  lemma {:induction false} HSum4IsTotal(v: seq<real>)
    requires |v| == 4
    ensures HSum4(v) == Total(v)
  {
    assert v[1..][1..] == v[2..] && v[2..][1..] == v[3..] && v[3..][1..] == [];
    assert Total(v[3..]) == v[3] + Total([]);
    assert Total(v[2..]) == v[2] + Total(v[3..]);
    assert Total(v[1..]) == v[1] + Total(v[2..]);
  }

  lemma {:induction false} TotalSplit(v: seq<real>, w: seq<real>)
    ensures Total(v + w) == Total(v) + Total(w)
  {
    if v == [] {
      assert v + w == w;
    } else {
      assert (v + w)[1..] == v[1..] + w;
      TotalSplit(v[1..], w);
    }
  }

  lemma {:induction false} HSum8IsTotal(v: seq<real>)
    requires |v| == 8
    ensures HSum8(v) == Total(v)
  {
    assert v == v[..4] + v[4..];
    TotalSplit(v[..4], v[4..]);
    HSum4IsTotal(v[..4]);
    HSum4IsTotal(v[4..]);
  }

  lemma {:induction false} SignedSlice(x: seq<int>, lo: nat, hi: nat)
    requires Signed(x) && lo <= hi <= |x|
    ensures Signed(x[lo..hi])
  {
  }

  lemma {:induction false} SliceOfSlice<T>(x: seq<T>, lo: nat, hi: nat, a: nat, c: nat)
    requires lo <= hi <= |x| && a <= c <= hi - lo
    ensures x[lo..hi][a..c] == x[lo + a..lo + c]
  {
    var y := x[lo..hi];
    forall i | 0 <= i < c - a
      ensures y[a..c][i] == x[lo + a..lo + c][i]
    {
      assert y[a..c][i] == y[a + i];
    }
    assert y[a..c] == x[lo + a..lo + c];
  }

  lemma {:induction false} SameProduct(a: int, b: int, k: real)
    requires a == b
    ensures a as real * k == b as real * k
  {
  }

  lemma {:induction false} FactorForms(d: real, s: real, n: real, f: real, k: real)
    requires f == d * n && k == d * s * n
    ensures k == f * s
  {
  }

  lemma {:induction false} SixBits(lo: int, hi: int)
    requires 0 <= lo < 16 && 0 <= hi < 4
    ensures 0 <= BitOr(lo, hi * 16) < 64
  {
    assert Pow2(4) == 16;
    OrAdds(lo, hi, 4);
  }
}
