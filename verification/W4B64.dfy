/**
  The W4B64 weight format (inference/core/matvec.c): panels of 8 rows by 64 columns, packed
  from reals, multiplied in the integer domain, dequantised, and permuted between the Arm82
  and the Arm86 cell order.  Memory is a sequence of 32-bit words: four weight bytes or one
  float; a panel is 64 weight words, 8 scales and 8 zeros.
*/
module W4B64 {
  import opened Simd

  datatype Word = Quad(b: seq<int>) | Float(f: real)

  const BLK := 64
  const PANEL := 80

  predicate QuadOk(w: Word) {
    w.Quad? && |w.b| == 4 && Bytes(w.b)
  }

  predicate PanelOk(panel: seq<Word>) {
    && |panel| == PANEL
    && (forall i :: 0 <= i < 64 ==> QuadOk(panel[i]))
    && (forall i :: 64 <= i < PANEL ==> panel[i].Float?)
  }

  function PanelAt(w: seq<Word>, p: nat): (panel: seq<Word>)
    requires PANEL * p + PANEL <= |w|
  {
    w[PANEL * p..PANEL * p + PANEL]
  }

  predicate MatrixOk(w: seq<Word>, panels: nat) {
    |w| >= PANEL * panels && forall p :: 0 <= p < panels ==> PanelOk(PanelAt(w, p))
  }

  // ----- Arm82 cells -----

  /** The nibble of row `r`, column `k`: word `r % 4` of cell `k / 4`, high half for rows 0..3. */
  function Nib(panel: seq<Word>, r: nat, k: nat): (n: int)
    requires PanelOk(panel) && r < 8 && k < BLK
  {
    var byte := panel[4 * (k / 4) + r % 4].b[k % 4];
    if r < 4 then byte / 16 else byte % 16
  }

  function Scale(panel: seq<Word>, r: nat): (s: real)
    requires PanelOk(panel) && r < 8
  {
    panel[64 + r].f
  }

  function Weight(panel: seq<Word>, r: nat, k: nat): (x: real)
    requires PanelOk(panel) && r < 8 && k < BLK
  {
    Scale(panel, r) * (Nib(panel, r, k) - 8) as real
  }

  // ----- the product -----

  /** The integer dot of row `r`'s nibbles with the activations, over `n` columns. */
  function NibDot(panel: seq<Word>, r: nat, x: seq<int>, n: nat): (s: int)
    requires PanelOk(panel) && r < 8 && |x| == BLK && n <= BLK
  {
    if n == 0 then 0 else NibDot(panel, r, x, n - 1) + x[n - 1] * Nib(panel, r, n - 1)
  }

  function SumTo(x: seq<int>, n: nat): (s: int)
    requires n <= |x|
  {
    if n == 0 then 0 else SumTo(x, n - 1) + x[n - 1]
  }

  /** The dot of the dequantised row with the activations `xsc * x[k]`. */
  function WeightDot(panel: seq<Word>, r: nat, x: seq<int>, xsc: real, n: nat): (s: real)
    requires PanelOk(panel) && r < 8 && |x| == BLK && n <= BLK
  {
    if n == 0 then 0.0
    else WeightDot(panel, r, x, xsc, n - 1) + Weight(panel, r, n - 1) * (xsc * x[n - 1] as real)
  }

  lemma {:induction false} WeightTerm(ws: real, q: int, xsc: real, x: int, k: real)
    requires k == ws * xsc
    ensures ws * (q - 8) as real * (xsc * x as real) == (x * q - 8 * x) as real * k
  {
    assert x * q - 8 * x == (q - 8) * x;
    IntMul(q - 8, x);
    RealTerm(ws, (q - 8) as real, xsc, x as real);
  }

  lemma {:induction false} RealTerm(ws: real, q: real, xsc: real, x: real)
    ensures ws * q * (xsc * x) == (q * x) * (ws * xsc)
  {
  }

  /** One column more in the three dots. */
  lemma {:induction false} ColumnTerms(panel: seq<Word>, r: nat, x: seq<int>, xsc: real, n: nat)
    requires PanelOk(panel) && r < 8 && |x| == BLK && 0 < n <= BLK
    ensures
      var q := Nib(panel, r, n - 1);
      && WeightDot(panel, r, x, xsc, n)
         == WeightDot(panel, r, x, xsc, n - 1) + Scale(panel, r) * (q - 8) as real * (xsc * x[n - 1] as real)
      && NibDot(panel, r, x, n) - 8 * SumTo(x, n)
         == (NibDot(panel, r, x, n - 1) - 8 * SumTo(x, n - 1)) + (x[n - 1] * q - 8 * x[n - 1])
  {
    hide Nib, Scale, PanelOk;
  }

  lemma {:induction false} NoColumns(panel: seq<Word>, r: nat, x: seq<int>, xsc: real, k: real)
    requires PanelOk(panel) && r < 8 && |x| == BLK
    ensures WeightDot(panel, r, x, xsc, 0) == (NibDot(panel, r, x, 0) - 8 * SumTo(x, 0)) as real * k
  {
    hide PanelOk;
  }

  /** The nibbles carry the offset 8: subtracting eight times the activations' sum takes it out. */
  lemma {:induction false} OffsetComesOut(panel: seq<Word>, r: nat, x: seq<int>, xsc: real, n: nat, k: real)
    requires PanelOk(panel) && r < 8 && |x| == BLK && n <= BLK && k == Scale(panel, r) * xsc
    ensures WeightDot(panel, r, x, xsc, n) == (NibDot(panel, r, x, n) - 8 * SumTo(x, n)) as real * k
  {
    hide PanelOk, Nib, Scale, WeightDot, NibDot, SumTo;
    if n == 0 {
      NoColumns(panel, r, x, xsc, k);
    } else {
      OffsetComesOut(panel, r, x, xsc, n - 1, k);
      var q := Nib(panel, r, n - 1);
      ColumnTerms(panel, r, x, xsc, n);
      WeightTerm(Scale(panel, r), q, xsc, x[n - 1], k);
      Distribute(NibDot(panel, r, x, n - 1) - 8 * SumTo(x, n - 1), x[n - 1] * q - 8 * x[n - 1], k);
    }
  }

  function Ceil8(out: nat): (hu: nat) {
    (out + 7) / 8
  }

  /** The place of the panel of row group `h` and column block `bl`, with `bn` blocks a row. */
  function Index(h: nat, bn: nat, bl: nat): (p: nat) {
    h * bn + bl
  }

  lemma {:induction false} IndexBound(h: nat, bn: nat, bl: nat, hu: nat)
    requires h < hu && bl < bn
    ensures Index(h, bn, bl) < hu * bn
  {
    assert (h + 1) * bn <= hu * bn;
    assert (h + 1) * bn == h * bn + bn;
  }

  /** Panels lie in row-group order. */
  lemma {:induction false} IndexOrder(h: nat, bn: nat, bl: nat, k: nat, cl: nat)
    requires h < k || (h == k && bl < cl)
    requires bl < bn
    ensures Index(h, bn, bl) < Index(k, bn, cl)
  {
    if h < k {
      IndexBound(h, bn, bl, k);
    }
  }

  /** The panel of row group `h` and column block `bl`, in a matrix of `hu` by `bn` panels. */
  function PanelOf(w: seq<Word>, hu: nat, bn: nat, h: nat, bl: nat): (panel: seq<Word>)
    requires MatrixOk(w, hu * bn) && h < hu && bl < bn
    ensures PanelOk(panel)
  {
    IndexBound(h, bn, bl, hu);
    PanelAt(w, Index(h, bn, bl))
  }

  /** The dot of row `r` of group `h` of the dequantised matrix, over the first `n` blocks of columns. */
  function RowDot(w: seq<Word>, hu: nat, h: nat, r: nat, xq: seq<int>, xs: seq<real>, n: nat): (s: real)
    requires MatrixOk(w, hu * |xs|) && |xq| == BLK * |xs| && n <= |xs| && h < hu && r < 8
  {
    if n == 0 then 0.0
    else
      RowDot(w, hu, h, r, xq, xs, n - 1)
        + WeightDot(PanelOf(w, hu, |xs|, h, n - 1), r, xq[BLK * (n - 1)..BLK * n], xs[n - 1], BLK)
  }

  lemma {:induction false} NibInCell(panel: seq<Word>, j: nat, r: nat, i: nat)
    requires PanelOk(panel) && j < 16 && r < 8 && i < 4
    ensures panel[4 * j + r % 4].Quad? && |panel[4 * j + r % 4].b| == 4
    ensures
      var byte := panel[4 * j + r % 4].b[i];
      Nib(panel, r, 4 * j + i) == if r < 4 then byte / 16 else byte % 16
  {
    assert (4 * j + i) / 4 == j && (4 * j + i) % 4 == i;
  }

  /** One cell's four products for one row. */
  method CellRow(s0: int, panel: seq<Word>, j: nat, r: nat, x4: seq<int>, ghost xp: seq<int>) returns (s: int)
    requires PanelOk(panel) && j < 16 && r < 8 && |xp| == BLK && x4 == xp[4 * j..4 * j + 4]
    requires s0 == NibDot(panel, r, xp, 4 * j)
    ensures s == NibDot(panel, r, xp, 4 * j + 4)
  {
    hide Nib, Bytes;
    s := s0;
    for i := 0 to 4
      invariant s == NibDot(panel, r, xp, 4 * j + i)
    {
      NibInCell(panel, j, r, i);
      var byte := panel[4 * j + r % 4].b[i];
      var w8 := if r < 4 then byte / 16 else byte % 16;
      s := s + x4[i] * w8;
    }
  }

  /** A panel's eight integer dots. */
  method PanelProducts(panel: seq<Word>, xp: seq<int>) returns (iacc: seq<int>)
    requires PanelOk(panel) && |xp| == BLK
    ensures |iacc| == 8 && forall r :: 0 <= r < 8 ==> iacc[r] == NibDot(panel, r, xp, BLK)
  {
    hide PanelOk;
    iacc := [0, 0, 0, 0, 0, 0, 0, 0];
    for j := 0 to 16
      invariant |iacc| == 8 && forall r :: 0 <= r < 8 ==> iacc[r] == NibDot(panel, r, xp, 4 * j)
    {
      hide NibDot;
      for r := 0 to 8
        invariant |iacc| == 8
        invariant forall i :: 0 <= i < r ==> iacc[i] == NibDot(panel, i, xp, 4 * j + 4)
        invariant forall i :: r <= i < 8 ==> iacc[i] == NibDot(panel, i, xp, 4 * j)
      {
        var s := CellRow(iacc[r], panel, j, r, xp[4 * j..4 * j + 4], xp);
        iacc := iacc[r := s];
      }
    }
  }

  predicate SumsOk(xsum: seq<int>, xq: seq<int>, bn: nat) {
    && |xsum| == bn && |xq| == BLK * bn
    && forall bl :: 0 <= bl < bn ==> xsum[bl] == SumTo(xq[BLK * bl..BLK * bl + BLK], BLK)
  }

  lemma {:induction false} SumsAt(xsum: seq<int>, xq: seq<int>, bn: nat, bl: nat)
    requires SumsOk(xsum, xq, bn) && bl < bn
    ensures |xsum| == bn && |xq| == BLK * bn && xsum[bl] == SumTo(xq[BLK * bl..BLK * bl + BLK], BLK)
  {
  }

  lemma {:induction false} Regroup(i: int, ws: real, xsc: real)
    ensures i as real * ws * xsc == i as real * (ws * xsc)
  {
  }

  lemma {:induction false} BlockTerm(panel: seq<Word>, r: nat, xp: seq<int>, xsc: real, d: int)
    requires PanelOk(panel) && r < 8 && |xp| == BLK && d == NibDot(panel, r, xp, BLK) - 8 * SumTo(xp, BLK)
    ensures WeightDot(panel, r, xp, xsc, BLK) == d as real * Scale(panel, r) * xsc
  {
    hide NibDot, SumTo, WeightDot, PanelOk, Scale;
    OffsetComesOut(panel, r, xp, xsc, BLK, Scale(panel, r) * xsc);
    Regroup(d, Scale(panel, r), xsc);
  }

  /** The eight outputs of one group of rows. */
  method GroupRows(w: seq<Word>, hu: nat, h: nat, xq: seq<int>, xs: seq<real>, xsum: seq<int>, out: nat)
    returns (acc: seq<real>)
    requires SumsOk(xsum, xq, |xs|) && MatrixOk(w, hu * |xs|) && h < hu && |xq| == BLK * |xs|
    ensures |acc| == 8
    ensures forall r :: 0 <= r < 8 && 8 * h + r < out ==> acc[r] == RowDot(w, hu, h, r, xq, xs, |xs|)
  {
    hide SumsOk, MatrixOk, PanelOf, PanelOk, NibDot, SumTo, WeightDot, Scale;
    acc := [0.0, 0.0, 0.0, 0.0, 0.0, 0.0, 0.0, 0.0];
    for bl := 0 to |xs|
      invariant |acc| == 8
      invariant forall r :: 0 <= r < 8 && 8 * h + r < out ==> acc[r] == RowDot(w, hu, h, r, xq, xs, bl)
    {
      var panel, xp := PanelOf(w, hu, |xs|, h, bl), xq[BLK * bl..BLK * bl + BLK];
      var iacc := PanelProducts(panel, xp);
      SumsAt(xsum, xq, |xs|, bl);
      var corr := 8 * xsum[bl];
      ghost var acc0 := acc;
      for r := 0 to 8
        invariant |acc| == 8
        invariant forall i :: 0 <= i < r && 8 * h + i < out ==> acc[i] == RowDot(w, hu, h, i, xq, xs, bl + 1)
        invariant forall i :: r <= i < 8 ==> acc[i] == acc0[i]
      {
        if 8 * h + r < out {
          BlockTerm(panel, r, xp, xs[bl], iacc[r] - corr);
          acc := acc[r := acc[r] + (iacc[r] - corr) as real * Scale(panel, r) * xs[bl]];
        }
      }
    }
  }

  /** `matmul_w4b64_arm82_scalar`: every output is the dot of the dequantised row with the
      dequantised activations. */
  method MatmulArm82(y: array<real>, w: seq<Word>, xq: seq<int>, xs: seq<real>, xsum: seq<int>)
    requires SumsOk(xsum, xq, |xs|) && MatrixOk(w, Ceil8(y.Length) * |xs|) && |xq| == BLK * |xs|
    modifies y
    ensures forall o :: 0 <= o < y.Length ==> y[o] == RowDot(w, Ceil8(y.Length), o / 8, o % 8, xq, xs, |xs|)
  {
    hide SumsOk, MatrixOk, RowDot;
    var out := y.Length;
    for h := 0 to Ceil8(out)
      invariant forall o :: 0 <= o < out && o < 8 * h ==> y[o] == RowDot(w, Ceil8(out), o / 8, o % 8, xq, xs, |xs|)
    {
      var acc := GroupRows(w, Ceil8(out), h, xq, xs, xsum, out);
      for r := 0 to 8
        invariant forall o :: 0 <= o < out && o < 8 * h + r ==>
          y[o] == RowDot(w, Ceil8(out), o / 8, o % 8, xq, xs, |xs|)
      {
        if 8 * h + r < out {
          assert (8 * h + r) / 8 == h && (8 * h + r) % 8 == r;
          y[8 * h + r] := acc[r];
        }
      }
    }
  }

  // ----- dequantising -----

  lemma {:induction false} QuadWeights(panel: seq<Word>, j: nat, r: nat, i: nat)
    requires PanelOk(panel) && j < 16 && r < 4 && i < 4
    ensures panel[4 * j + r].Quad? && |panel[4 * j + r].b| == 4
    ensures
      var byte := panel[4 * j + r].b[i];
      && Scale(panel, r) * (byte / 16 - 8) as real == Weight(panel, r, 4 * j + i)
      && Scale(panel, r + 4) * (byte % 16 - 8) as real == Weight(panel, r + 4, 4 * j + i)
  {
    hide Scale, Bytes;
    NibInCell(panel, j, r, i);
    NibInCell(panel, j, r + 4, i);
  }

  /** What column step `n` of a cell word has made of the element at (o, ic). */
  ghost function QuadCell(panel: seq<Word>, h: nat, bl: nat, j: nat, r: nat, n: nat, o: nat, ic: nat, was: real): (v: real)
    requires PanelOk(panel) && j < 16 && r < 4 && n <= 4
  {
    if (o == 8 * h + r || o == 8 * h + r + 4) && 0 <= ic - BLK * bl - 4 * j < n
    then Weight(panel, o - 8 * h, ic - BLK * bl) else was
  }

  lemma {:induction false} QuadNone(panel: seq<Word>, h: nat, bl: nat, j: nat, r: nat)
    requires PanelOk(panel) && j < 16 && r < 4
    ensures forall o: nat, ic: nat, was :: QuadCell(panel, h, bl, j, r, 0, o, ic, was) == was
  {
  }

  lemma {:induction false} QuadDone(panel: seq<Word>, h: nat, bl: nat, j: nat, r: nat)
    requires PanelOk(panel) && j < 16 && r < 4
    ensures forall o: nat, ic: nat, was ::
              QuadCell(panel, h, bl, j, r, 4, o, ic, was)
              == (if (o == 8 * h + r || o == 8 * h + r + 4) && 0 <= ic - BLK * bl - 4 * j < 4
                  then Weight(panel, o - 8 * h, ic - BLK * bl) else was)
  {
    hide PanelOk, Weight;
  }

  ghost predicate QuadMore(panel: seq<Word>, h: nat, bl: nat, j: nat, r: nat, i: nat, n: nat, o: nat, ic: nat, was: real)
    requires PanelOk(panel) && j < 16 && r < 4 && n == i + 1 <= 4
  {
    QuadCell(panel, h, bl, j, r, n, o, ic, was)
    == if ic == BLK * bl + 4 * j + i && o == 8 * h + r then Weight(panel, r, 4 * j + i)
       else if ic == BLK * bl + 4 * j + i && o == 8 * h + r + 4 then Weight(panel, r + 4, 4 * j + i)
       else QuadCell(panel, h, bl, j, r, i, o, ic, was)
  }

  /** One step changes the two elements of its byte, and no others. */
  lemma {:induction false} QuadStep(panel: seq<Word>, h: nat, bl: nat, j: nat, r: nat, i: nat, n: nat)
    requires PanelOk(panel) && j < 16 && r < 4 && n == i + 1 <= 4
    ensures forall o: nat, ic: nat, was :: QuadMore(panel, h, bl, j, r, i, n, o, ic, was)
  {
    hide PanelOk, Weight;
    forall o: nat, ic: nat, was
      ensures QuadMore(panel, h, bl, j, r, i, n, o, ic, was)
    {
      if ic == BLK * bl + 4 * j + i {
        assert ic - BLK * bl == 4 * j + i;
        if o == 8 * h + r { assert o - 8 * h == r; }
        if o == 8 * h + r + 4 { assert o - 8 * h == r + 4; }
      }
    }
  }

  /** The two bounds-checked stores of a byte's weights. */
  method PutPair(dst: array2<real>, ic: nat, oc0: nat, oc1: nat, w0: real, w1: real)
    requires ic < dst.Length1 && oc0 != oc1
    modifies dst
    ensures forall o, k :: 0 <= o < dst.Length0 && 0 <= k < dst.Length1 ==>
      dst[o, k] == if k == ic && o == oc0 then w0 else if k == ic && o == oc1 then w1 else old(dst[o, k])
  {
    if oc0 < dst.Length0 {
      dst[oc0, ic] := w0;
    }
    if oc1 < dst.Length0 {
      dst[oc1, ic] := w1;
    }
  }

  /** One weight byte holds two rows of a column: rows `r` and `r + 4`, four columns. */
  method DequantByte(dst: array2<real>, panel: seq<Word>, h: nat, bl: nat, j: nat, r: nat, i: nat)
    requires PanelOk(panel) && j < 16 && r < 4 && i < 4 && BLK * bl + BLK <= dst.Length1
    modifies dst
    ensures forall o, k :: 0 <= o < dst.Length0 && 0 <= k < dst.Length1 ==>
      dst[o, k] == if k == BLK * bl + 4 * j + i && o == 8 * h + r then Weight(panel, r, 4 * j + i)
                   else if k == BLK * bl + 4 * j + i && o == 8 * h + r + 4 then Weight(panel, r + 4, 4 * j + i)
                   else old(dst[o, k])
  {
    assert |panel| == PANEL;
    QuadWeights(panel, j, r, i);
    hide PanelOk, Scale, QuadOk, Bytes, Weight;
    var byte := panel[4 * j + r].b[i];
    PutPair(dst, BLK * bl + 4 * j + i, 8 * h + r, 8 * h + r + 4,
            Scale(panel, r) * (byte / 16 - 8) as real, Scale(panel, r + 4) * (byte % 16 - 8) as real);
  }

  /** One word of a cell: rows `r` and `r + 4`, four columns. */
  method DequantQuad(dst: array2<real>, panel: seq<Word>, h: nat, bl: nat, j: nat, r: nat)
    requires PanelOk(panel) && j < 16 && r < 4 && BLK * bl + BLK <= dst.Length1
    modifies dst
    ensures forall o, ic :: 0 <= o < dst.Length0 && 0 <= ic < dst.Length1 ==>
      dst[o, ic] == if (o == 8 * h + r || o == 8 * h + r + 4) && 0 <= ic - BLK * bl - 4 * j < 4
                    then Weight(panel, o - 8 * h, ic - BLK * bl) else old(dst[o, ic])
  {
    QuadNone(panel, h, bl, j, r);
    hide PanelOk, QuadCell, Weight;
    for i := 0 to 4
      invariant forall o, ic :: 0 <= o < dst.Length0 && 0 <= ic < dst.Length1 ==>
        dst[o, ic] == QuadCell(panel, h, bl, j, r, i, o, ic, old(dst[o, ic]))
    {
      QuadStep(panel, h, bl, j, r, i, i + 1);
      DequantByte(dst, panel, h, bl, j, r, i);
      forall o, ic | 0 <= o < dst.Length0 && 0 <= ic < dst.Length1
        ensures dst[o, ic] == QuadCell(panel, h, bl, j, r, i + 1, o, ic, old(dst[o, ic]))
      {
        assert QuadMore(panel, h, bl, j, r, i, i + 1, o, ic, old(dst[o, ic]));
      }
    }
    QuadDone(panel, h, bl, j, r);
  }

  method DequantCell(dst: array2<real>, panel: seq<Word>, h: nat, bl: nat, j: nat)
    requires PanelOk(panel) && j < 16 && BLK * bl + BLK <= dst.Length1
    modifies dst
    ensures forall o, ic :: 0 <= o < dst.Length0 && 0 <= ic < dst.Length1 ==>
      dst[o, ic] == if 8 * h <= o < 8 * h + 8 && 0 <= ic - BLK * bl - 4 * j < 4
                    then Weight(panel, o - 8 * h, ic - BLK * bl) else old(dst[o, ic])
  {
    hide PanelOk, Weight;
    for r := 0 to 4
      invariant forall o, ic :: 0 <= o < dst.Length0 && 0 <= ic < dst.Length1 ==>
        dst[o, ic] == if (8 * h <= o < 8 * h + r || 8 * h + 4 <= o < 8 * h + 4 + r)
                         && 0 <= ic - BLK * bl - 4 * j < 4
                      then Weight(panel, o - 8 * h, ic - BLK * bl) else old(dst[o, ic])
    {
      DequantQuad(dst, panel, h, bl, j, r);
    }
  }

  method DequantPanel(dst: array2<real>, panel: seq<Word>, h: nat, bl: nat)
    requires PanelOk(panel) && BLK * bl + BLK <= dst.Length1
    modifies dst
    ensures forall o, ic :: 0 <= o < dst.Length0 && 0 <= ic < dst.Length1 ==>
      dst[o, ic] == if 8 * h <= o < 8 * h + 8 && 0 <= ic - BLK * bl < BLK
                    then Weight(panel, o - 8 * h, ic - BLK * bl) else old(dst[o, ic])
  {
    hide PanelOk, Weight;
    for j := 0 to 16
      invariant forall o, ic :: 0 <= o < dst.Length0 && 0 <= ic < dst.Length1 ==>
        dst[o, ic] == if 8 * h <= o < 8 * h + 8 && 0 <= ic - BLK * bl < 4 * j
                      then Weight(panel, o - 8 * h, ic - BLK * bl) else old(dst[o, ic])
    {
      DequantCell(dst, panel, h, bl, j);
    }
  }

  lemma {:induction false} Within(x: nat, n: nat, d: nat)
    requires d > 0 && d * n <= x < d * n + d
    ensures x / d == n && x % d == x - d * n
  {
    assert x - d * n == x - n * d;
    if x / d < n {
      MulMono(x / d + 1, n, d);
    } else if x / d > n {
      MulMono(n + 1, x / d, d);
    }
  }

  /** One row of panels. */
  method DequantRows(dst: array2<real>, w: seq<Word>, bn: nat, h: nat)
    requires MatrixOk(w, Ceil8(dst.Length0) * bn) && dst.Length1 == BLK * bn && h < Ceil8(dst.Length0)
    modifies dst
    ensures forall o, ic :: 0 <= o < dst.Length0 && 0 <= ic < dst.Length1 ==>
      dst[o, ic] == if 8 * h <= o < 8 * h + 8
                    then Weight(PanelOf(w, Ceil8(dst.Length0), bn, h, ic / BLK), o - 8 * h, ic % BLK) else old(dst[o, ic])
  {
    hide MatrixOk, PanelOf, PanelOk, Weight, Ceil8;
    var hu := Ceil8(dst.Length0);
    for bl := 0 to bn
      invariant forall o, ic :: 0 <= o < dst.Length0 && 0 <= ic < dst.Length1 ==>
        dst[o, ic] == if 8 * h <= o < 8 * h + 8 && ic < BLK * bl
                      then Weight(PanelOf(w, hu, bn, h, ic / BLK), o - 8 * h, ic % BLK) else old(dst[o, ic])
    {
      forall ic | BLK * bl <= ic < BLK * bl + BLK
        ensures ic / BLK == bl && ic % BLK == ic - BLK * bl
      {
        Within(ic, bl, BLK);
      }
      DequantPanel(dst, PanelOf(w, hu, bn, h, bl), h, bl);
    }
  }

  /** `dequant_mat_f32` for W4B64. */
  method DequantMat(dst: array2<real>, w: seq<Word>, bn: nat)
    requires MatrixOk(w, Ceil8(dst.Length0) * bn) && dst.Length1 == BLK * bn
    modifies dst
    ensures forall o, ic :: 0 <= o < dst.Length0 && 0 <= ic < dst.Length1 ==>
      dst[o, ic] == Weight(PanelOf(w, Ceil8(dst.Length0), bn, o / 8, ic / BLK), o % 8, ic % BLK)
  {
    hide MatrixOk, PanelOf, PanelOk, Weight;
    var hu := Ceil8(dst.Length0);
    for h := 0 to hu
      invariant forall o, ic :: 0 <= o < dst.Length0 && 0 <= ic < dst.Length1 && o < 8 * h ==>
        dst[o, ic] == Weight(PanelOf(w, hu, bn, o / 8, ic / BLK), o % 8, ic % BLK)
    {
      DequantRows(dst, w, bn, h);
      forall o | 8 * h <= o < 8 * h + 8
        ensures o / 8 == h && o % 8 == o - 8 * h
      {
        Within(o, h, 8);
      }
    }
  }

  // ----- packing -----

  function Abs(x: real): (r: real) {
    if x < 0.0 then -x else x
  }

  /** `lrintf`: to the nearest integer, ties to even. */
  function Rint(x: real): (n: int) {
    var f := x.Floor;
    var d := x - f as real;
    if d < 0.5 then f else if d > 0.5 then f + 1 else if f % 2 == 0 then f else f + 1
  }

  lemma {:induction false} RintNear(x: real)
    ensures -0.5 <= x - Rint(x) as real <= 0.5
  {
    var f := x.Floor;
    assert f as real <= x < f as real + 1.0;
    assert (f + 1) as real == f as real + 1.0;
  }

  function Clamp(q: int, lo: int, hi: int): (r: int)
    requires lo <= hi
  {
    if q < lo then lo else if q > hi then hi else q
  }

  /** The largest magnitude among the first `n` values. */
  function AmaxTo(x: seq<real>, n: nat): (a: real)
    requires n <= |x|
  {
    if n == 0 then 0.0
    else
      var a := AmaxTo(x, n - 1);
      if Abs(x[n - 1]) > a then Abs(x[n - 1]) else a
  }

  lemma {:induction false} AmaxBounds(x: seq<real>, n: nat, i: nat)
    requires i < n <= |x|
    ensures Abs(x[i]) <= AmaxTo(x, n)
  {
    if i < n - 1 {
      AmaxBounds(x, n - 1, i);
    }
  }

  lemma {:induction false} AmaxMet(x: seq<real>, n: nat)
    requires n <= |x|
    ensures AmaxTo(x, n) == 0.0 || exists i :: 0 <= i < n && Abs(x[i]) == AmaxTo(x, n)
  {
    if n > 0 {
      AmaxMet(x, n - 1);
      assert Abs(x[n - 1]) > AmaxTo(x, n - 1) ==> Abs(x[n - 1]) == AmaxTo(x, n);
    }
  }

  method Amax(x: seq<real>) returns (amax: real)
    ensures amax == AmaxTo(x, |x|)
  {
    amax := 0.0;
    for i := 0 to |x|
      invariant amax == AmaxTo(x, i)
    {
      var a := Abs(x[i]);
      if a > amax {
        amax := a;
      }
    }
  }

  function ScaleFor(amax: real): (s: real) {
    if amax > 0.00000001 then amax / 8.0 else 1.0
  }

  /** The four-bit value `q` stands for `x` up to one scale, and up to half a scale wherever it is
      not clamped to 7. */
  predicate Near(x: real, s: real, q: int) {
    && -8 <= q <= 7 && Abs(x - s * q as real) <= s
    && (if x <= 7.5 * s then Abs(x - s * q as real) <= 0.5 * s else q == 7)
  }

  /** Rounding to a multiple of the scale and clamping to -8..7 loses at most the scale. */
  lemma {:induction false} QuantError(x: real, amax: real, s: real, inv: real, t: real, q: int)
    requires Abs(x) <= amax && s == ScaleFor(amax) && inv == 1.0 / s
    requires t == x * inv && q == Clamp(Rint(t), -8, 7)
    ensures s > 0.0 && Near(x, s, q)
  {
    hide Rint, Abs;
    assert s > 0.0;
    ScaledValue(x, s, inv, t);
    ScaledRange(x, amax, s, t);
    RintNear(t);
    hide ScaleFor;
    ClampNear(t, Rint(t));
    ErrorScales(x, s, t, q);
    UnclampedAt(x, s, t);
    if t <= 7.5 {
      HalfScale(x, s, t, q);
      AbsBetween(x - s * q as real, 0.5 * s);
    }
  }

  lemma {:induction false} ClampNear(t: real, r: int)
    requires -8.0 <= t <= 8.0 && -0.5 <= t - r as real <= 0.5
    ensures -1.0 <= t - Clamp(r, -8, 7) as real <= 1.0
    ensures if t <= 7.5 then -0.5 <= t - Clamp(r, -8, 7) as real <= 0.5 else Clamp(r, -8, 7) == 7
  {
  }

  lemma {:induction false} UnclampedAt(x: real, s: real, t: real)
    requires s > 0.0 && x == s * t
    ensures x <= 7.5 * s <==> t <= 7.5
  {
    if t < 7.5 { Grows(s, t, 7.5); }
    if t > 7.5 { Grows(s, 7.5, t); }
  }

  lemma {:induction false} AbsBetween(x: real, b: real)
    requires -b <= x <= b
    ensures Abs(x) <= b
  {
  }

  lemma {:induction false} ScaledValue(x: real, s: real, inv: real, t: real)
    requires s != 0.0 && inv == 1.0 / s && t == x * inv
    ensures x == s * t
  {
    assert s * inv == 1.0;
    assert s * t == (s * inv) * x;
  }

  lemma {:induction false} Grows(s: real, a: real, b: real)
    requires s > 0.0 && a < b
    ensures s * a < s * b
  {
  }

  lemma {:induction false} Squeeze(s: real, t: real, y: real)
    requires s > 0.0 && y == s * t && -8.0 * s <= y <= 8.0 * s
    ensures -8.0 <= t <= 8.0
  {
    if t > 8.0 {
      Grows(s, 8.0, t);
      assert false;
    }
    if t < -8.0 {
      Grows(s, t, -8.0);
      assert false;
    }
  }

  lemma {:induction false} ScaledRange(x: real, amax: real, s: real, t: real)
    requires Abs(x) <= amax && s == ScaleFor(amax) && x == s * t
    ensures -8.0 <= t <= 8.0
  {
    if amax > 0.00000001 {
      assert amax == 8.0 * s;
      Squeeze(s, t, x);
    } else {
      assert t == x;
    }
  }

  lemma {:induction false} ErrorScales(x: real, s: real, t: real, q: int)
    requires s > 0.0 && x == s * t && -1.0 <= t - q as real <= 1.0
    ensures Abs(x - s * q as real) <= s
  {
    var e := t - q as real;
    assert x - s * q as real == s * e;
    ScaleUnit(s, e);
  }

  lemma {:induction false} ScaleUnit(s: real, e: real)
    requires s > 0.0 && -1.0 <= e <= 1.0
    ensures -s <= s * e <= s
  {
    if e < 1.0 { Grows(s, e, 1.0); }
    if -1.0 < e { Grows(s, -1.0, e); }
  }

  /** `w4b64_quant_row_block`. */
  method QuantRowBlock(x: seq<real>) returns (q: seq<int>, scale: real)
    requires |x| == BLK
    ensures |q| == BLK && scale == ScaleFor(AmaxTo(x, BLK))
    ensures forall i :: 0 <= i < BLK ==> Near(x[i], scale, q[i])
  {
    hide ScaleFor, Near, Rint, Clamp, AmaxTo;
    var amax := Amax(x);
    scale := ScaleFor(amax);
    ScalePositive(amax);
    var inv := 1.0 / scale;
    q := [];
    for i := 0 to BLK
      invariant |q| == i
      invariant forall k :: 0 <= k < i ==> Near(x[k], scale, q[k])
    {
      AmaxBounds(x, BLK, i);
      var t := x[i] * inv;
      var c := Clamp(Rint(t), -8, 7);
      QuantError(x[i], amax, scale, inv, t, c);
      q := q + [c];
    }
  }

  lemma {:induction false} ScalePositive(amax: real)
    ensures ScaleFor(amax) > 0.0
  {
  }

  predicate FourBit(q: seq<int>) {
    |q| == BLK && forall k :: 0 <= k < BLK ==> -8 <= q[k] <= 7
  }

  /** What a packed word of cell `j` holds: rows `r` and `r + 4`, columns `4 * j` to `4 * j + 3`. */
  predicate PackedQuad(w: Word, hi: seq<int>, lo: seq<int>, j: nat)
    requires FourBit(hi) && FourBit(lo) && j < 16
  {
    QuadOk(w) && forall i :: 0 <= i < 4 ==> w.b[i] == 16 * (hi[4 * j + i] + 8) + (lo[4 * j + i] + 8)
  }

  lemma {:induction false} PackByte(q0: int, q1: int)
    requires 0 <= q0 < 16 && 0 <= q1 < 16
    ensures BitOr(q1, q0 * 16) == 16 * q0 + q1
  {
    assert Pow2(4) == 16;
    OrAdds(q1, q0, 4);
  }

  /** Four bytes of `w4b64_pack_arm82_cell`. */
  method PackQuad(hi: seq<int>, lo: seq<int>, j: nat) returns (w: Word)
    requires FourBit(hi) && FourBit(lo) && j < 16
    ensures PackedQuad(w, hi, lo, j)
  {
    var b := [];
    for i := 0 to 4
      invariant |b| == i
      invariant forall k :: 0 <= k < i ==> b[k] == 16 * (hi[4 * j + k] + 8) + (lo[4 * j + k] + 8)
    {
      var q0, q1 := Clamp(hi[4 * j + i] + 8, 0, 15), Clamp(lo[4 * j + i] + 8, 0, 15);
      PackByte(q0, q1);
      b := b + [BitOr(q1, q0 * 16)];
    }
    w := Quad(b);
  }

  predicate Rows(q: seq<seq<int>>) {
    |q| == 8 && forall r :: 0 <= r < 8 ==> FourBit(q[r])
  }

  /** The 16 cells of a panel, the scales and the zeros. */
  method PackPanel(q: seq<seq<int>>, scales: seq<real>) returns (panel: seq<Word>)
    requires Rows(q) && |scales| == 8
    ensures PanelOk(panel)
    ensures forall r, k :: 0 <= r < 8 && 0 <= k < BLK ==> Nib(panel, r, k) == q[r][k] + 8
    ensures forall r :: 0 <= r < 8 ==> Scale(panel, r) == scales[r]
  {
    hide FourBit, QuadOk;
    panel := [];
    for j := 0 to 16
      invariant |panel| == 4 * j
      invariant forall i :: 0 <= i < 4 * j ==> PackedQuad(panel[i], q[i % 4], q[i % 4 + 4], i / 4)
    {
      for r := 0 to 4
        invariant |panel| == 4 * j + r
        invariant forall i :: 0 <= i < 4 * j + r ==> PackedQuad(panel[i], q[i % 4], q[i % 4 + 4], i / 4)
      {
        var w := PackQuad(q[r], q[r + 4], j);
        assert (4 * j + r) % 4 == r && (4 * j + r) / 4 == j;
        panel := panel + [w];
      }
    }
    ghost var quads := panel;
    for r := 0 to 16
      invariant |panel| == 64 + r && panel[..64] == quads
      invariant forall i :: 64 <= i < 64 + r ==> panel[i] == Float(if i < 72 then scales[i - 64] else 0.0)
    {
      panel := panel + [Float(if r < 8 then scales[r] else 0.0)];
    }
    PanelPacked(panel, q);
  }

  lemma {:induction false} PanelPacked(panel: seq<Word>, q: seq<seq<int>>)
    requires Rows(q) && |panel| == PANEL && forall i :: 64 <= i < PANEL ==> panel[i].Float?
    requires forall i :: 0 <= i < 64 ==> PackedQuad(panel[..64][i], q[i % 4], q[i % 4 + 4], i / 4)
    ensures PanelOk(panel)
    ensures forall r, k :: 0 <= r < 8 && 0 <= k < BLK ==> Nib(panel, r, k) == q[r][k] + 8
  {
    forall i | 0 <= i < 64
      ensures PackedQuad(panel[i], q[i % 4], q[i % 4 + 4], i / 4)
    {
      assert panel[i] == panel[..64][i];
    }
    forall r, k | 0 <= r < 8 && 0 <= k < BLK
      ensures Nib(panel, r, k) == q[r][k] + 8
    {
      NibPacked(panel, q, r, k);
    }
  }

  lemma {:induction false} NibPacked(panel: seq<Word>, q: seq<seq<int>>, r: nat, k: nat)
    requires PanelOk(panel) && Rows(q) && r < 8 && k < BLK
    requires
      var i := 4 * (k / 4) + r % 4;
      PackedQuad(panel[i], q[r % 4], q[r % 4 + 4], k / 4)
    ensures Nib(panel, r, k) == q[r][k] + 8
  {
    assert k == 4 * (k / 4) + k % 4;
    assert panel[4 * (k / 4) + r % 4].b[k % 4] == 16 * (q[r % 4][k] + 8) + (q[r % 4 + 4][k] + 8);
  }

  /** `w4b64_bytes`, in words: zero for a shape the format has no room for. */
  function Words(out: nat, inn: nat): (n: nat) {
    if out == 0 || inn == 0 || inn % BLK != 0 then 0 else Ceil8(out) * (inn / BLK) * PANEL
  }

  predicate RowPacked(panel: seq<Word>, r: nat, x: seq<real>)
    requires PanelOk(panel) && r < 8 && |x| == BLK
  {
    && Scale(panel, r) == ScaleFor(AmaxTo(x, BLK))
    && forall k :: 0 <= k < BLK ==> Near(x[k], Scale(panel, r), Nib(panel, r, k) - 8)
  }

  predicate RowBlank(panel: seq<Word>, r: nat)
    requires PanelOk(panel) && r < 8
  {
    forall k :: 0 <= k < BLK ==> Weight(panel, r, k) == 0.0
  }

  predicate Shaped(src: seq<seq<real>>, bn: nat) {
    forall o :: 0 <= o < |src| ==> |src[o]| == BLK * bn
  }

  /** The panel of row group `h` and column block `bl` packs the source; rows past the end are zero. */
  predicate PanelPacks(panel: seq<Word>, src: seq<seq<real>>, bn: nat, h: nat, bl: nat)
    requires Shaped(src, bn) && bl < bn
  {
    PanelOk(panel) && forall r :: 0 <= r < 8 ==> RowPacks(panel, src, bn, h, bl, r)
  }

  predicate RowPacks(panel: seq<Word>, src: seq<seq<real>>, bn: nat, h: nat, bl: nat, r: nat)
    requires Shaped(src, bn) && bl < bn && PanelOk(panel) && r < 8
  {
    if 8 * h + r < |src| then RowPacked(panel, r, src[8 * h + r][BLK * bl..BLK * bl + BLK])
    else RowBlank(panel, r)
  }

  method QuantGroup(src: seq<seq<real>>, bn: nat, h: nat, bl: nat) returns (q: seq<seq<int>>, scales: seq<real>)
    requires Shaped(src, bn) && bl < bn
    ensures Rows(q) && |scales| == 8
    ensures forall r :: 0 <= r < 8 ==>
      if 8 * h + r < |src| then
        var x := src[8 * h + r][BLK * bl..BLK * bl + BLK];
        scales[r] == ScaleFor(AmaxTo(x, BLK)) && forall k :: 0 <= k < BLK ==> Near(x[k], scales[r], q[r][k])
      else scales[r] == 0.0
  {
    hide ScaleFor, AmaxTo, Abs;
    q, scales := [], [];
    var zero: seq<int> := seq(BLK, _ => 0);
    for r := 0 to 8
      invariant |q| == |scales| == r
      invariant forall i :: 0 <= i < r ==> FourBit(q[i])
      invariant forall i :: 0 <= i < r ==>
        if 8 * h + i < |src| then
          var x := src[8 * h + i][BLK * bl..BLK * bl + BLK];
          scales[i] == ScaleFor(AmaxTo(x, BLK)) && forall k :: 0 <= k < BLK ==> Near(x[k], scales[i], q[i][k])
        else scales[i] == 0.0
    {
      if 8 * h + r < |src| {
        var qr, s := QuantRowBlock(src[8 * h + r][BLK * bl..BLK * bl + BLK]);
        q, scales := q + [qr], scales + [s];
      } else {
        q, scales := q + [zero], scales + [0.0];
      }
    }
  }

  lemma {:induction false} BlankRow(panel: seq<Word>, r: nat)
    requires PanelOk(panel) && r < 8 && Scale(panel, r) == 0.0
    ensures RowBlank(panel, r)
  {
    hide Scale, Nib, PanelOk;
  }

  lemma {:induction false} PackedRow(panel: seq<Word>, r: nat, x: seq<real>, q: seq<int>)
    requires PanelOk(panel) && r < 8 && |x| == |q| == BLK
    requires Scale(panel, r) == ScaleFor(AmaxTo(x, BLK))
    requires forall k :: 0 <= k < BLK ==> Near(x[k], Scale(panel, r), q[k]) && Nib(panel, r, k) == q[k] + 8
    ensures RowPacked(panel, r, x)
  {
    hide Scale, Nib, PanelOk, Near, ScaleFor, AmaxTo;
  }

  /** One panel of the source, quantised and packed. */
  method PackBlock(src: seq<seq<real>>, bn: nat, h: nat, bl: nat) returns (panel: seq<Word>)
    requires Shaped(src, bn) && bl < bn
    ensures PanelPacks(panel, src, bn, h, bl)
  {
    hide ScaleFor, AmaxTo, Near, Nib, PanelOk, Scale, RowPacked, RowBlank;
    var q, scales := QuantGroup(src, bn, h, bl);
    panel := PackPanel(q, scales);
    forall r | 0 <= r < 8
      ensures RowPacks(panel, src, bn, h, bl, r)
    {
      if 8 * h + r < |src| {
        PackedRow(panel, r, src[8 * h + r][BLK * bl..BLK * bl + BLK], q[r]);
      } else {
        BlankRow(panel, r);
      }
    }
  }

  method WritePanel(dst: array<Word>, p: nat, panel: seq<Word>)
    requires |panel| == PANEL && PANEL * p + PANEL <= dst.Length
    modifies dst
    ensures PanelAt(dst[..], p) == panel
    ensures dst[..PANEL * p] == old(dst[..PANEL * p])
    ensures dst[PANEL * p + PANEL..] == old(dst[PANEL * p + PANEL..])
  {
    for i := 0 to PANEL
      invariant forall k :: 0 <= k < dst.Length ==>
        dst[k] == if PANEL * p <= k < PANEL * p + i then panel[k - PANEL * p] else old(dst[k])
    {
      dst[PANEL * p + i] := panel[i];
    }
  }

  lemma {:induction false} SamePanel(v: seq<Word>, w: seq<Word>, p: nat, n: nat)
    requires p < n && PANEL * n <= |v| == |w| && v[..PANEL * n] == w[..PANEL * n]
    ensures PanelAt(v, p) == PanelAt(w, p)
  {
    assert PanelAt(v, p) == v[..PANEL * n][PANEL * p..PANEL * p + PANEL];
    assert PanelAt(w, p) == w[..PANEL * n][PANEL * p..PANEL * p + PANEL];
  }

  /** All panels before row group `h`, block `bl` are packed. */
  ghost predicate PackedTo(w: seq<Word>, src: seq<seq<real>>, bn: nat, h: nat, bl: nat)
    requires Shaped(src, bn) && bl <= bn && PANEL * Index(h, bn, bl) <= |w|
  {
    forall k, c :: 0 <= c < bn && (0 <= k < h || (k == h && c < bl)) ==> PackedAt(w, src, bn, k, c)
  }

  predicate PackedAt(w: seq<Word>, src: seq<seq<real>>, bn: nat, h: nat, bl: nat)
    requires Shaped(src, bn) && bl < bn
  {
    PANEL * Index(h, bn, bl) + PANEL <= |w| && PanelPacks(PanelAt(w, Index(h, bn, bl)), src, bn, h, bl)
  }

  lemma {:induction false} PackedMore(v: seq<Word>, w: seq<Word>, src: seq<seq<real>>, bn: nat, h: nat, bl: nat)
    requires Shaped(src, bn) && bl < bn && |v| == |w| && PANEL * Index(h, bn, bl) + PANEL <= |w|
    requires PackedTo(v, src, bn, h, bl) && v[..PANEL * Index(h, bn, bl)] == w[..PANEL * Index(h, bn, bl)]
    requires PackedAt(w, src, bn, h, bl)
    ensures Index(h, bn, bl + 1) == Index(h, bn, bl) + 1 && PackedTo(w, src, bn, h, bl + 1)
  {
    assert Index(h, bn, bl + 1) == Index(h, bn, bl) + 1;
    hide Index, PanelPacks, PanelAt, Shaped;
    forall k, c | 0 <= c < bn && (0 <= k < h || (k == h && c < bl))
      ensures PackedAt(w, src, bn, k, c)
    {
      IndexOrder(k, bn, c, h, bl);
      assert PackedAt(v, src, bn, k, c);
      SamePanel(v, w, Index(k, bn, c), Index(h, bn, bl));
    }
  }

  /** The panels of one row group. */
  method PackGroup(dst: array<Word>, src: seq<seq<real>>, bn: nat, h: nat)
    requires Shaped(src, bn) && PANEL * Index(h + 1, bn, 0) <= dst.Length
    requires Index(h, bn, 0) <= Index(h + 1, bn, 0) && PackedTo(dst[..], src, bn, h, 0)
    modifies dst
    ensures PackedTo(dst[..], src, bn, h + 1, 0)
    ensures dst[PANEL * Index(h + 1, bn, 0)..] == old(dst[..])[PANEL * Index(h + 1, bn, 0)..]
  {
    assert Index(h, bn, bn) == Index(h + 1, bn, 0);
    hide PackedTo, PanelPacks;
    for bl := 0 to bn
      invariant Index(h, bn, bl) <= Index(h + 1, bn, 0) && PackedTo(dst[..], src, bn, h, bl)
      invariant dst[PANEL * Index(h + 1, bn, 0)..] == old(dst[..])[PANEL * Index(h + 1, bn, 0)..]
    {
      var panel := PackBlock(src, bn, h, bl);
      var p := Index(h, bn, bl);
      assert |panel| == PANEL by { PanelSize(panel, src, bn, h, bl); }
      ghost var before := dst[..];
      WritePanel(dst, p, panel);
      assert dst[..][..PANEL * p] == before[..PANEL * p];
      PackedMore(before, dst[..], src, bn, h, bl);
    }
    GroupDone(dst[..], src, bn, h);
  }

  lemma {:induction false} PanelSize(panel: seq<Word>, src: seq<seq<real>>, bn: nat, h: nat, bl: nat)
    requires Shaped(src, bn) && bl < bn && PanelPacks(panel, src, bn, h, bl)
    ensures |panel| == PANEL
  {
  }

  lemma {:induction false} GroupDone(w: seq<Word>, src: seq<seq<real>>, bn: nat, h: nat)
    requires Shaped(src, bn) && PANEL * Index(h, bn, bn) <= |w| && PackedTo(w, src, bn, h, bn)
    ensures Index(h, bn, bn) == Index(h + 1, bn, 0) && PackedTo(w, src, bn, h + 1, 0)
  {
    assert Index(h, bn, bn) == Index(h + 1, bn, 0);
    hide PackedAt;
  }

  /** `w4b64_pack_mat_f32`: every panel packs its part of the source. */
  method PackMat(dst: array<Word>, src: seq<seq<real>>, inn: nat) returns (ok: bool)
    requires forall o :: 0 <= o < |src| ==> |src[o]| == inn
    requires Words(|src|, inn) <= dst.Length
    modifies dst
    ensures ok <==> Words(|src|, inn) != 0
    ensures dst[if ok then Words(|src|, inn) else 0..] == old(dst[..])[if ok then Words(|src|, inn) else 0..]
    ensures ok ==> inn % BLK == 0 && Shaped(src, inn / BLK) && MatrixOk(dst[..], Ceil8(|src|) * (inn / BLK))
    ensures ok ==> forall h, bl :: 0 <= h < Ceil8(|src|) && 0 <= bl < inn / BLK ==>
      PanelPacks(PanelOf(dst[..], Ceil8(|src|), inn / BLK, h, bl), src, inn / BLK, h, bl)
  {
    if Words(|src|, inn) == 0 {
      return false;
    }
    var hu, bn := Ceil8(|src|), inn / BLK;
    for h := 0 to hu
      invariant Index(h, bn, 0) <= hu * bn && PackedTo(dst[..], src, bn, h, 0)
      invariant dst[PANEL * (hu * bn)..] == old(dst[..])[PANEL * (hu * bn)..]
    {
      GroupBounds(h, bn, hu);
      ghost var before := dst[..];
      PackGroup(dst, src, bn, h);
      KeepTail(old(dst[..]), before, dst[..], PANEL * Index(h + 1, bn, 0), PANEL * (hu * bn));
    }
    AllPacked(dst[..], src, bn, hu);
    return true;
  }

  lemma {:induction false} GroupBounds(h: nat, bn: nat, hu: nat)
    requires h < hu
    ensures Index(h, bn, 0) <= Index(h + 1, bn, 0) <= hu * bn
  {
    assert (h + 1) * bn <= hu * bn;
    assert (h + 1) * bn == h * bn + bn;
  }

  lemma {:induction false} KeepTail<T>(a: seq<T>, b: seq<T>, c: seq<T>, m: nat, n: nat)
    requires |a| == |b| == |c| && m <= n <= |a| && b[n..] == a[n..] && c[m..] == b[m..]
    ensures c[n..] == a[n..]
  {
    assert c[n..] == c[m..][n - m..];
    assert b[n..] == b[m..][n - m..];
  }

  lemma {:induction false} AllPacked(w: seq<Word>, src: seq<seq<real>>, bn: nat, hu: nat)
    requires Shaped(src, bn) && PANEL * (hu * bn) <= |w| && Index(hu, bn, 0) == hu * bn && PackedTo(w, src, bn, hu, 0)
    ensures MatrixOk(w, hu * bn)
    ensures forall h, bl :: 0 <= h < hu && 0 <= bl < bn ==> PanelPacks(PanelOf(w, hu, bn, h, bl), src, bn, h, bl)
  {
    hide PackedAt, PanelPacks, Shaped, PanelOk, PanelAt, Index;
    forall p | 0 <= p < hu * bn
      ensures PanelOk(PanelAt(w, p))
    {
      IndexSplit(p, bn, hu);
      PackedAtIs(w, src, bn, p / bn, p % bn);
    }
    forall h, bl | 0 <= h < hu && 0 <= bl < bn
      ensures PanelPacks(PanelOf(w, hu, bn, h, bl), src, bn, h, bl)
    {
      PackedAtIs(w, src, bn, h, bl);
    }
  }

  lemma {:induction false} PackedAtIs(w: seq<Word>, src: seq<seq<real>>, bn: nat, h: nat, bl: nat)
    requires Shaped(src, bn) && bl < bn && PackedAt(w, src, bn, h, bl)
    ensures PANEL * Index(h, bn, bl) + PANEL <= |w| && PanelOk(PanelAt(w, Index(h, bn, bl)))
    ensures PanelPacks(PanelAt(w, Index(h, bn, bl)), src, bn, h, bl)
  {
    hide Index, RowPacks, Shaped;
  }

  lemma {:induction false} MulMono(a: nat, b: nat, n: nat)
    requires a <= b
    ensures a * n <= b * n
  {
  }

  lemma {:induction false} IndexSplit(p: nat, bn: nat, hu: nat)
    requires p < hu * bn
    ensures bn > 0 && p / bn < hu && p % bn < bn && Index(p / bn, bn, p % bn) == p
  {
    assert bn > 0;
    var h := p / bn;
    assert p == h * bn + p % bn;
    if h >= hu {
      MulMono(hu, h, bn);
      assert false;
    }
  }

  lemma {:induction false} NearWeight(panel: seq<Word>, r: nat, k: nat, x: real)
    requires PanelOk(panel) && r < 8 && k < BLK && Near(x, Scale(panel, r), Nib(panel, r, k) - 8)
    ensures Abs(x - Weight(panel, r, k)) <= Scale(panel, r)
    ensures x <= 7.5 * Scale(panel, r) ==> Abs(x - Weight(panel, r, k)) <= 0.5 * Scale(panel, r)
  {
    hide PanelOk, Nib, Scale;
  }

  /** Dequantising what was packed gives every source element back up to its block's scale, an eighth of the block's
      largest magnitude, and up to half of it unless the element lies above seven and a half scales. */
  lemma {:induction false} PackingError(panel: seq<Word>, src: seq<seq<real>>, bn: nat, h: nat, r: nat, bl: nat, k: nat)
    requires Shaped(src, bn) && bl < bn && r < 8 && k < BLK && 8 * h + r < |src|
    requires PanelPacks(panel, src, bn, h, bl)
    ensures
      var row := src[8 * h + r];
      && (8 * h + r) / 8 == h && (8 * h + r) % 8 == r
      && var x, s := row[BLK * bl + k], ScaleFor(AmaxTo(row[BLK * bl..BLK * bl + BLK], BLK));
      Abs(x - Weight(panel, r, k)) <= s && (x <= 7.5 * s ==> Abs(x - Weight(panel, r, k)) <= 0.5 * s)
  {
    hide AmaxTo, ScaleFor, PanelOk, Nib, Scale, Weight, Near, Abs;
    var x := src[8 * h + r][BLK * bl..BLK * bl + BLK];
    assert x[k] == src[8 * h + r][BLK * bl + k];
    assert RowPacks(panel, src, bn, h, bl, r);
    NearWeight(panel, r, k, x[k]);
  }

  // ----- the two cell orders -----

  /** `w4_zip_pair_bytes` interleaves two cells word by word; `w4_uzp_pair_bytes` takes them apart. */
  function PairPermuted(c: seq<Word>, to86: bool): (v: seq<Word>)
    requires |c| == 8
    ensures |v| == 8
  {
    if to86 then [c[0], c[4], c[1], c[5], c[2], c[6], c[3], c[7]]
    else [c[0], c[2], c[4], c[6], c[1], c[3], c[5], c[7]]
  }

  predicate PanelPermuted(d: seq<Word>, s: seq<Word>, to86: bool) {
    && |d| == |s| == PANEL && d[64..] == s[64..]
    && forall j :: 0 <= j < 8 ==> d[8 * j..8 * j + 8] == PairPermuted(s[8 * j..8 * j + 8], to86)
  }

  /** The first `n` panels of `d` are those of `s` in the other order. */
  predicate Permuted(d: seq<Word>, s: seq<Word>, n: nat, to86: bool) {
    && |d| >= PANEL * n && |s| >= PANEL * n
    && forall p :: 0 <= p < n ==> PanelPermuted(PanelAt(d, p), PanelAt(s, p), to86)
  }

  // ----- reading Arm86 panels -----

  /** The word of row `r`, column `k` in an Arm86 panel: rows `r % 4` of both cells of a pair side by
      side. */
  function Word86(r: nat, k: nat): (w: nat)
    requires r < 8 && k < BLK
    ensures w < 64
  {
    8 * (k / 8) + 2 * (r % 4) + (k / 4) % 2
  }

  /** The nibble of row `r`, column `k` in an Arm86 panel, high half for rows 0..3. */
  function Nib86(panel: seq<Word>, r: nat, k: nat): (n: int)
    requires PanelOk(panel) && r < 8 && k < BLK
  {
    var byte := panel[Word86(r, k)].b[k % 4];
    if r < 4 then byte / 16 else byte % 16
  }

  /** Eight columns of a row are eight bytes in a row, as the matrix instruction loads them. */
  lemma {:induction false} ColumnsAdjacent(r: nat, k: nat)
    requires r < 8 && k < BLK
    ensures 4 * Word86(r, k) + k % 4 == 32 * (k / 8) + 8 * (r % 4) + k % 8
  {
  }

  /** Where a word of a pair of cells goes. */
  lemma {:induction false} ZipAt(c: seq<Word>, i: nat, half: nat)
    requires |c| == 8 && i < 4 && half < 2
    ensures PairPermuted(c, true)[2 * i + half] == c[4 * half + i]
    ensures PairPermuted(c, false)[4 * half + i] == c[2 * i + half]
  {
  }

  lemma {:induction false} Word82(r: nat, k: nat)
    requires r < 8 && k < BLK
    ensures
      var (j, i, half) := (k / 8, r % 4, (k / 4) % 2);
      && j < 8 && i < 4 && half < 2 && 4 * (k / 4) + r % 4 == 8 * j + (4 * half + i) && Word86(r, k) == 8 * j + (2 * i + half)
  {
    var j := k / 8;
    assert k / 4 == 2 * j + (k / 4) % 2;
  }

  lemma {:induction false} PairWord(d: seq<Word>, s: seq<Word>, to86: bool, j: nat, x: nat)
    requires PanelPermuted(d, s, to86) && j < 8 && x < 8
    ensures |d| == |s| == PANEL && d[8 * j + x] == PairPermuted(s[8 * j..8 * j + 8], to86)[x]
  {
    hide PairPermuted;
    assert d[8 * j..8 * j + 8][x] == d[8 * j + x];
  }

  /** The word a row and column read is the same in both orders. */
  lemma {:induction false} SameWord(d: seq<Word>, s: seq<Word>, to86: bool, r: nat, k: nat)
    requires PanelPermuted(d, s, to86) && r < 8 && k < BLK
    ensures |d| == |s| == PANEL && 4 * (k / 4) + r % 4 < 64
    ensures to86 ==> d[Word86(r, k)] == s[4 * (k / 4) + r % 4]
    ensures !to86 ==> d[4 * (k / 4) + r % 4] == s[Word86(r, k)]
  {
    hide *;
    Word82(r, k);
    PairMoves(d, s, to86, k / 8, r % 4, (k / 4) % 2);
  }

  lemma {:induction false} PairMoves(d: seq<Word>, s: seq<Word>, to86: bool, j: nat, i: nat, half: nat)
    requires PanelPermuted(d, s, to86) && j < 8 && i < 4 && half < 2
    ensures |d| == |s| == PANEL
    ensures to86 ==> d[8 * j + (2 * i + half)] == s[8 * j + (4 * half + i)]
    ensures !to86 ==> d[8 * j + (4 * half + i)] == s[8 * j + (2 * i + half)]
  {
    hide PanelPermuted, PairPermuted;
    var x, y := 2 * i + half, 4 * half + i;
    PairWord(d, s, to86, j, if to86 then x else y);
    ZipAt(s[8 * j..8 * j + 8], i, half);
    assert s[8 * j..8 * j + 8][x] == s[8 * j + x] && s[8 * j..8 * j + 8][y] == s[8 * j + y];
  }

  /** Every word of a permuted panel is a word of the source. */
  lemma {:induction false} PermutedOk(d: seq<Word>, s: seq<Word>, to86: bool)
    requires PanelPermuted(d, s, to86) && PanelOk(s)
    ensures PanelOk(d)
  {
    forall i | 0 <= i < 64
      ensures QuadOk(d[i])
    {
      var j, x := i / 8, i % 8;
      PairWord(d, s, to86, j, x);
      assert PairPermuted(s[8 * j..8 * j + 8], to86)[x] in s[8 * j..8 * j + 8];
    }
    hide PairPermuted;
    assert forall i :: 64 <= i < PANEL ==> d[i] == d[64..][i - 64] && s[i] == s[64..][i - 64];
  }

  /** A panel permuted to Arm86 and read as Arm86, or permuted to Arm82 and read as Arm82, holds the
      source's nibbles and scales. */
  lemma {:induction false} PanelReads(d: seq<Word>, s: seq<Word>, to86: bool, r: nat, k: nat)
    requires PanelPermuted(d, s, to86) && PanelOk(s) && r < 8 && k < BLK
    ensures PanelOk(d) && Scale(d, r) == Scale(s, r)
    ensures to86 ==> Nib86(d, r, k) == Nib(s, r, k)
    ensures !to86 ==> Nib(d, r, k) == Nib86(s, r, k)
  {
    PermutedOk(d, s, to86);
    SameWord(d, s, to86, r, k);
    assert d[64 + r] == d[64..][r] && s[64 + r] == s[64..][r];
    hide PanelPermuted, Word86;
  }

  /** The permutation of a whole matrix moves no element: what the Arm86 reading finds at any panel,
      row and column is what the Arm82 reading finds in the other order. */
  lemma {:induction false} OrdersAgree(d: seq<Word>, s: seq<Word>, n: nat, to86: bool, p: nat, r: nat, k: nat)
    requires Permuted(d, s, n, to86) && MatrixOk(s, n) && p < n && r < 8 && k < BLK
    ensures MatrixOk(d, n) && Scale(PanelAt(d, p), r) == Scale(PanelAt(s, p), r)
    ensures to86 ==> Nib86(PanelAt(d, p), r, k) == Nib(PanelAt(s, p), r, k)
    ensures !to86 ==> Nib(PanelAt(d, p), r, k) == Nib86(PanelAt(s, p), r, k)
  {
    hide PanelPermuted, PanelAt, PanelOk, Nib, Nib86, Scale;
    forall q | 0 <= q < n
      ensures PanelOk(PanelAt(d, q))
    {
      PermutedOk(PanelAt(d, q), PanelAt(s, q), to86);
    }
    PanelReads(PanelAt(d, p), PanelAt(s, p), to86, r, k);
  }

  lemma {:induction false} PairUndo(c: seq<Word>, to86: bool)
    requires |c| == 8
    ensures PairPermuted(PairPermuted(c, to86), !to86) == c
  {
  }

  lemma {:induction false} PanelUndo(s: seq<Word>, d: seq<Word>, e: seq<Word>, to86: bool)
    requires PanelPermuted(d, s, to86) && PanelPermuted(e, d, !to86)
    ensures e == s
  {
    forall i | 0 <= i < 64
      ensures e[i] == s[i]
    {
      var j := i / 8;
      PairUndo(s[8 * j..8 * j + 8], to86);
      hide PairPermuted;
      assert e[i] == e[8 * j..8 * j + 8][i - 8 * j] && s[i] == s[8 * j..8 * j + 8][i - 8 * j];
    }
    hide PairPermuted;
    assert forall i :: 64 <= i < PANEL ==> e[i] == e[64..][i - 64] && s[i] == s[64..][i - 64];
  }

  lemma {:induction false} SamePanels(a: seq<Word>, b: seq<Word>, n: nat)
    requires |a| >= PANEL * n && |b| >= PANEL * n
    requires forall p :: 0 <= p < n ==> PanelAt(a, p) == PanelAt(b, p)
    ensures a[..PANEL * n] == b[..PANEL * n]
  {
    if n > 0 {
      SamePanels(a, b, n - 1);
      var m := PANEL * (n - 1);
      assert PanelAt(a, n - 1) == PanelAt(b, n - 1);
      assert a[..PANEL * n] == a[..m] + PanelAt(a, n - 1);
      assert b[..PANEL * n] == b[..m] + PanelAt(b, n - 1);
    }
  }

  /** Permuting there and back, from either order and for every number of panels, is the identity. */
  lemma {:induction false} PermutationsUndo(s: seq<Word>, d: seq<Word>, e: seq<Word>, n: nat, to86: bool)
    requires Permuted(d, s, n, to86) && Permuted(e, d, n, !to86)
    ensures e[..PANEL * n] == s[..PANEL * n]
  {
    hide PanelPermuted, PanelAt;
    forall p | 0 <= p < n
      ensures PanelAt(e, p) == PanelAt(s, p)
    {
      PanelUndo(PanelAt(s, p), PanelAt(d, p), PanelAt(e, p), to86);
    }
    SamePanels(e, s, n);
  }

  /** One pair of cells through a 32-byte buffer, so that source and destination may be the same. */
  method PermutePair(dst: array<Word>, src: array<Word>, o: nat, to86: bool)
    requires o + 8 <= dst.Length && o + 8 <= src.Length
    modifies dst
    ensures dst[o..o + 8] == PairPermuted(old(src[o..o + 8]), to86)
    ensures forall i :: 0 <= i < dst.Length && !(o <= i < o + 8) ==> dst[i] == old(dst[i])
  {
    var tmp := PairPermuted(src[o..o + 8], to86);
    for i := 0 to 8
      invariant forall k :: 0 <= k < dst.Length ==> dst[k] == if o <= k < o + i then tmp[k - o] else old(dst[k])
    {
      dst[o + i] := tmp[i];
    }
  }

  /** The first `n` pairs of the panel at word `b` are permuted. */
  predicate PairsPermuted(d: seq<Word>, s: seq<Word>, b: nat, n: nat, to86: bool)
    requires b + 8 * n <= |d| && b + 8 * n <= |s|
  {
    forall k :: 0 <= k < n ==> d[b + 8 * k..b + 8 * k + 8] == PairPermuted(s[b + 8 * k..b + 8 * k + 8], to86)
  }

  lemma {:induction false} OnePairMore(v: seq<Word>, d: seq<Word>, s: seq<Word>, b: nat, n: nat, to86: bool)
    requires |v| == |d| && b + 8 * n + 8 <= |d| && b + 8 * n + 8 <= |s| && PairsPermuted(v, s, b, n, to86)
    requires forall i :: 0 <= i < b + 8 * n ==> d[i] == v[i]
    requires d[b + 8 * n..b + 8 * n + 8] == PairPermuted(s[b + 8 * n..b + 8 * n + 8], to86)
    ensures PairsPermuted(d, s, b, n + 1, to86)
  {
    hide PairPermuted;
    forall k | 0 <= k < n
      ensures d[b + 8 * k..b + 8 * k + 8] == v[b + 8 * k..b + 8 * k + 8]
    {
    }
  }

  /** The eight pairs of the panel at word `b`. */
  method PermuteCells(dst: array<Word>, src: array<Word>, b: nat, to86: bool)
    requires b + PANEL <= dst.Length && b + PANEL <= src.Length
    modifies dst
    ensures PairsPermuted(dst[..], old(src[..]), b, 8, to86)
    ensures forall i :: 0 <= i < dst.Length && !(b <= i < b + 64) ==> dst[i] == old(dst[i])
  {
    hide PairPermuted;
    for j := 0 to 8
      invariant PairsPermuted(dst[..], old(src[..]), b, j, to86)
      invariant forall i :: 0 <= i < dst.Length && !(b <= i < b + 8 * j) ==> dst[i] == old(dst[i])
    {
      hide PairsPermuted;
      ghost var before := dst[..];
      assert src[b + 8 * j..b + 8 * j + 8] == old(src[..])[b + 8 * j..b + 8 * j + 8];
      PermutePair(dst, src, b + 8 * j, to86);
      assert dst[..][b + 8 * j..b + 8 * j + 8] == dst[b + 8 * j..b + 8 * j + 8];
      OnePairMore(before, dst[..], old(src[..]), b, j, to86);
    }
  }

  lemma {:induction false} PanelFromPairs(d: seq<Word>, s: seq<Word>, p: nat, to86: bool)
    requires PANEL * p + PANEL <= |d| && PANEL * p + PANEL <= |s| && PairsPermuted(d, s, PANEL * p, 8, to86)
    requires forall i :: PANEL * p + 64 <= i < PANEL * p + PANEL ==> d[i] == s[i]
    ensures PanelPermuted(PanelAt(d, p), PanelAt(s, p), to86)
  {
    hide PairPermuted;
    var b := PANEL * p;
    forall j | 0 <= j < 8
      ensures PanelAt(d, p)[8 * j..8 * j + 8] == PairPermuted(PanelAt(s, p)[8 * j..8 * j + 8], to86)
    {
      SliceOfSlice(d, b, b + PANEL, 8 * j, 8 * j + 8);
      SliceOfSlice(s, b, b + PANEL, 8 * j, 8 * j + 8);
    }
    assert PanelAt(d, p)[64..] == PanelAt(s, p)[64..];
  }

  method PermutePanel(dst: array<Word>, src: array<Word>, p: nat, to86: bool)
    requires PANEL * p + PANEL <= dst.Length && PANEL * p + PANEL <= src.Length
    modifies dst
    ensures PanelPermuted(PanelAt(dst[..], p), PanelAt(old(src[..]), p), to86)
    ensures forall i :: 0 <= i < dst.Length && !(PANEL * p <= i < PANEL * p + PANEL) ==> dst[i] == old(dst[i])
  {
    hide PairPermuted, PanelPermuted;
    var b := PANEL * p;
    PermuteCells(dst, src, b, to86);
    ghost var cells := dst[..];
    if dst != src {
      for i := 0 to 16
        invariant forall k :: 0 <= k < dst.Length ==>
          dst[k] == if b + 64 <= k < b + 64 + i then old(src[..])[k] else cells[k]
      {
        dst[b + 64 + i] := src[b + 64 + i];
      }
    }
    SamePairs(cells, dst[..], old(src[..]), b, to86);
    PanelFromPairs(dst[..], old(src[..]), p, to86);
  }

  lemma {:induction false} SamePairs(v: seq<Word>, d: seq<Word>, s: seq<Word>, b: nat, to86: bool)
    requires |v| == |d| && b + 64 <= |d| && b + 64 <= |s| && PairsPermuted(v, s, b, 8, to86)
    requires forall i :: 0 <= i < b + 64 ==> d[i] == v[i]
    ensures PairsPermuted(d, s, b, 8, to86)
  {
    hide PairPermuted;
    forall k | 0 <= k < 8
      ensures d[b + 8 * k..b + 8 * k + 8] == v[b + 8 * k..b + 8 * k + 8]
    {
    }
  }

  /** `w4b64_permute_pairs`: both directions, with `dst` and `src` distinct or the same. */
  method PermutePairs(dst: array<Word>, src: array<Word>, out: nat, inn: nat, to86: bool) returns (ok: bool)
    requires Words(out, inn) <= dst.Length && Words(out, inn) <= src.Length
    modifies dst
    ensures ok <==> Words(out, inn) != 0
    ensures ok ==> Permuted(dst[..], old(src[..]), Ceil8(out) * (inn / BLK), to86)
    ensures forall i :: Words(out, inn) <= i < dst.Length ==> dst[i] == old(dst[i])
  {
    if Words(out, inn) == 0 {
      return false;
    }
    var hu, bn := Ceil8(out), inn / BLK;
    for h := 0 to hu
      invariant Index(h, bn, 0) <= hu * bn && Permuted(dst[..], old(src[..]), Index(h, bn, 0), to86)
      invariant forall i :: PANEL * Index(h, bn, 0) <= i < dst.Length ==> dst[i] == old(dst[i])
    {
      GroupBounds(h, bn, hu);
      assert Index(h, bn, bn) == Index(h + 1, bn, 0);
      hide Permuted;
      for bl := 0 to bn
        invariant Index(h, bn, bl) <= Index(h + 1, bn, 0)
        invariant Permuted(dst[..], old(src[..]), Index(h, bn, bl), to86)
        invariant forall i :: PANEL * Index(h, bn, bl) <= i < dst.Length ==> dst[i] == old(dst[i])
      {
        var p := Index(h, bn, bl);
        assert Index(h, bn, bl + 1) == p + 1;
        ghost var before := dst[..];
        if dst == src {
          assert PanelAt(src[..], p) == PanelAt(old(src[..]), p);
        }
        PermutePanel(dst, src, p, to86);
        PermutedMore(before, dst[..], old(src[..]), p, to86);
      }
    }
    return true;
  }

  lemma {:induction false} PermutedMore(v: seq<Word>, d: seq<Word>, s: seq<Word>, p: nat, to86: bool)
    requires Permuted(v, s, p, to86) && |v| == |d| && PANEL * (p + 1) <= |d| && PANEL * (p + 1) <= |s|
    requires forall i :: 0 <= i < PANEL * p ==> d[i] == v[i]
    requires PanelPermuted(PanelAt(d, p), PanelAt(s, p), to86)
    ensures Permuted(d, s, p + 1, to86)
  {
    hide PanelPermuted;
    assert v[..PANEL * p] == d[..PANEL * p];
    forall k | 0 <= k < p
      ensures PanelAt(d, k) == PanelAt(v, k)
    {
      SamePanel(v, d, k, p);
    }
  }

  // ----- activations -----

  lemma {:induction false} SumToSlice(x: seq<int>, y: seq<int>, n: nat)
    requires n <= |x| && n <= |y| && x[..n] == y[..n]
    ensures SumTo(x, n) == SumTo(y, n)
  {
    if n > 0 {
      assert x[..n - 1] == x[..n][..n - 1] && y[..n - 1] == y[..n][..n - 1];
      assert x[n - 1] == x[..n][n - 1] && y[n - 1] == y[..n][n - 1];
      SumToSlice(x, y, n - 1);
    }
  }

  /** The scale of an activation block: its largest magnitude becomes 127. */
  function ActScale(amax: real): (s: real) {
    if amax > 0.00000001 then amax / 127.0 else 1.0
  }

  /** The code `q` stands for the activation `x` up to half a scale, without clamping. */
  predicate ActNear(x: real, s: real, q: int) {
    -127 <= q <= 127 && -0.5 * s <= x - s * q as real <= 0.5 * s
  }

  lemma {:induction false} ActScalePositive(amax: real)
    ensures ActScale(amax) > 0.0
  {
  }

  lemma {:induction false} ActSqueeze(s: real, t: real, y: real)
    requires s > 0.0 && y == s * t && -127.0 * s <= y <= 127.0 * s
    ensures -127.0 <= t <= 127.0
  {
    if t > 127.0 {
      Grows(s, 127.0, t);
      assert false;
    }
    if t < -127.0 {
      Grows(s, t, -127.0);
      assert false;
    }
  }

  lemma {:induction false} ActRange(x: real, amax: real, s: real, t: real)
    requires Abs(x) <= amax && s == ActScale(amax) && x == s * t
    ensures -127.0 <= t <= 127.0
  {
    if amax > 0.00000001 {
      assert amax == 127.0 * s;
      ActSqueeze(s, t, x);
    } else {
      assert t == x;
    }
  }

  lemma {:induction false} ActCode(t: real)
    requires -127.0 <= t <= 127.0
    ensures -127 <= Rint(t) <= 127
  {
    RintNear(t);
    hide Rint;
    assert -127.5 <= Rint(t) as real <= 127.5;
  }

  lemma {:induction false} HalfScale(x: real, s: real, t: real, q: int)
    requires s > 0.0 && x == s * t && -0.5 <= t - q as real <= 0.5
    ensures -0.5 * s <= x - s * q as real <= 0.5 * s
  {
    var e := t - q as real;
    assert x - s * q as real == s * e;
    ScaleUnit(s, 2.0 * e);
    assert s * (2.0 * e) == 2.0 * (s * e);
  }

  /** Rounding an activation to a multiple of its block's scale loses at most half of it. */
  lemma {:induction false} ActError(x: real, amax: real, s: real, inv: real, t: real, q: int)
    requires Abs(x) <= amax && s == ActScale(amax) && inv == 1.0 / s && t == x * inv && q == Clamp(Rint(t), -127, 127)
    ensures ActNear(x, s, q)
  {
    ActScalePositive(amax);
    hide Rint, Abs, ActScale;
    ScaledValue(x, s, inv, t);
    ActRange(x, amax, s, t);
    ActCode(t);
    RintNear(t);
    HalfScale(x, s, t, q);
  }

  method ActQuantBlock(x: seq<real>) returns (q: seq<int>, scale: real, sum: int)
    requires |x| == BLK
    ensures |q| == BLK && scale == ActScale(AmaxTo(x, BLK)) && sum == SumTo(q, BLK)
    ensures forall i :: 0 <= i < BLK ==> ActNear(x[i], scale, q[i])
  {
    hide Rint, AmaxTo, ActNear, ActScale, Clamp;
    var amax := Amax(x);
    scale := ActScale(amax);
    ActScalePositive(amax);
    var inv := 1.0 / scale;
    q, sum := [], 0;
    for i := 0 to BLK
      invariant |q| == i && sum == SumTo(q, i)
      invariant forall k :: 0 <= k < i ==> ActNear(x[k], scale, q[k])
    {
      AmaxBounds(x, BLK, i);
      var t := x[i] * inv;
      var c := Clamp(Rint(t), -127, 127);
      ActError(x[i], amax, scale, inv, t, c);
      SumToSlice(q, q + [c], i);
      q, sum := q + [c], sum + c;
    }
  }

  /** Block `b` of the activations, its codes, scale and sum. */
  predicate ActBlock(x: seq<real>, xq: seq<int>, s: real, sum: int, b: nat)
    requires BLK * b + BLK <= |x| && BLK * b + BLK <= |xq|
  {
    var xb, qb := x[BLK * b..BLK * b + BLK], xq[BLK * b..BLK * b + BLK];
    s == ActScale(AmaxTo(xb, BLK)) && sum == SumTo(qb, BLK) && forall i :: 0 <= i < BLK ==> ActNear(xb[i], s, qb[i])
  }

  lemma {:induction false} ActBlockStays(x: seq<real>, xq: seq<int>, more: seq<int>, s: real, sum: int, b: nat)
    requires BLK * b + BLK <= |x| && BLK * b + BLK <= |xq| && ActBlock(x, xq, s, sum, b)
    ensures ActBlock(x, xq + more, s, sum, b)
  {
    assert (xq + more)[BLK * b..BLK * b + BLK] == xq[BLK * b..BLK * b + BLK];
  }

  /** What the product asks of the sums and the codes. */
  lemma {:induction false} ActBlocksGive(x: seq<real>, xq: seq<int>, xs: seq<real>, xsum: seq<int>, nb: nat)
    requires |x| == |xq| == BLK * nb && |xs| == |xsum| == nb
    requires forall b :: 0 <= b < nb ==> ActBlock(x, xq, xs[b], xsum[b], b)
    ensures SumsOk(xsum, xq, nb) && Signed(xq)
  {
    hide ActScale, AmaxTo, SumTo;
    forall k | 0 <= k < |xq|
      ensures -128 <= xq[k] < 128
    {
      var b, i := k / BLK, k % BLK;
      assert ActBlock(x, xq, xs[b], xsum[b], b);
      var xb, qb := x[BLK * b..BLK * b + BLK], xq[BLK * b..BLK * b + BLK];
      assert ActNear(xb[i], xs[b], qb[i]);
    }
  }

  /** `parts` steps of `s` reach exactly the largest magnitude among `x`; where that is tiny, `s` is 1. */
  predicate Spans(x: seq<real>, s: real, parts: real) {
    || (s == 1.0 && forall k :: 0 <= k < |x| ==> Abs(x[k]) <= 0.00000001)
    || (exists i :: 0 <= i < |x| && s * parts == Abs(x[i]) > 0.00000001 && forall k :: 0 <= k < |x| ==> Abs(x[k]) <= Abs(x[i]))
  }

  /** A weight's scale is an eighth of its block's largest magnitude, an activation's a 127th. */
  lemma {:induction false} ScalesSpan(x: seq<real>)
    ensures Spans(x, ScaleFor(AmaxTo(x, |x|)), 8.0) && Spans(x, ActScale(AmaxTo(x, |x|)), 127.0)
  {
    hide AmaxTo, Abs;
    var a := AmaxTo(x, |x|);
    AmaxMet(x, |x|);
    forall k | 0 <= k < |x|
      ensures Abs(x[k]) <= a
    {
      AmaxBounds(x, |x|, k);
    }
    if a > 0.00000001 {
      var i :| 0 <= i < |x| && Abs(x[i]) == a;
    }
  }

  /** `w4_act_quant_block`: every block's scale is its largest magnitude over 127 (or 1), every code
      stands for its activation up to half a scale, and the sums and codes are what the product
      relies on. */
  method ActQuant(x: seq<real>, nb: nat) returns (xq: seq<int>, xs: seq<real>, xsum: seq<int>)
    requires |x| == BLK * nb
    ensures |xq| == |x| && |xs| == |xsum| == nb && forall b :: 0 <= b < nb ==> ActBlock(x, xq, xs[b], xsum[b], b)
    ensures SumsOk(xsum, xq, nb) && Signed(xq)
  {
    hide ActScale, AmaxTo, SumTo, ActNear;
    xq, xs, xsum := [], [], [];
    for b := 0 to nb
      invariant |xq| == BLK * b && |xs| == |xsum| == b
      invariant forall k :: 0 <= k < b ==> ActBlock(x, xq, xs[k], xsum[k], k)
    {
      var q, s, sum := ActQuantBlock(x[BLK * b..BLK * b + BLK]);
      assert (xq + q)[BLK * b..BLK * b + BLK] == q;
      forall k | 0 <= k < b
        ensures ActBlock(x, xq + q, xs[k], xsum[k], k)
      {
        ActBlockStays(x, xq, q, xs[k], xsum[k], k);
      }
      xq, xs, xsum := xq + q, xs + [s], xsum + [sum];
    }
    ActBlocksGive(x, xq, xs, xsum, nb);
  }
}
