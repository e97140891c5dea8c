/**
  Streaming attention (inference/core/matvec.c, `attn_qh_kv_f16`, `attn_gqa_kv_f16`): one
  pass over the rows with a running maximum, a running normaliser and rescaled partial sums.
  Numbers are exact reals; exp is any positive function with e(a+b) = e(a) e(b), tanh any
  function; K and V are the rows after conversion from f16.
*/
module Softmax {
  datatype Fns = Fns(exp: real -> real, tanh: real -> real)

  predicate Splits(exp: real -> real, x: real, y: real) {
    exp(x + y) == exp(x) * exp(y)
  }

  ghost predicate IsExp(exp: real -> real) {
    (forall x :: exp(x) > 0.0) && (forall x, y :: Splits(exp, x, y))
  }

  // ----- the two-pass definition -----

  function Dot(a: seq<real>, b: seq<real>): (d: real)
    requires |a| == |b|
  {
    if a == [] then 0.0 else Dot(a[..|a| - 1], b[..|b| - 1]) + a[|a| - 1] * b[|b| - 1]
  }

  /** The score of one key: scaled dot product, soft-capped when `cap` is positive. */
  function Score(f: Fns, q: seq<real>, k: seq<real>, invD: real, cap: real): (s: real)
    requires |q| == |k|
  {
    var s := Dot(q, k) * invD;
    if cap > 0.0 then cap * f.tanh(s / cap) else s
  }

  function Scores(f: Fns, q: seq<real>, ks: seq<seq<real>>, invD: real, cap: real): (sc: seq<real>)
    requires forall k :: k in ks ==> |k| == |q|
    ensures |sc| == |ks| && forall j :: 0 <= j < |ks| ==> sc[j] == Score(f, q, ks[j], invD, cap)
  {
    seq(|ks|, j requires 0 <= j < |ks| => Score(f, q, ks[j], invD, cap))
  }

  function Max(sc: seq<real>, n: nat): (m: real)
    requires 0 < n <= |sc|
    ensures forall j :: 0 <= j < n ==> sc[j] <= m
    ensures exists j :: 0 <= j < n && sc[j] == m
  {
    if n == 1 then sc[0]
    else
      var m := Max(sc, n - 1);
      if sc[n - 1] > m then sc[n - 1] else m
  }

  /** The weights' sum, relative to the reference score `m`. */
  function Norm(exp: real -> real, sc: seq<real>, m: real, n: nat): (z: real)
    requires n <= |sc|
  {
    if n == 0 then 0.0 else Norm(exp, sc, m, n - 1) + exp(sc[n - 1] - m)
  }

  /** The weighted sum of component i, relative to the reference score `m`. */
  function Weighted(exp: real -> real, sc: seq<real>, vs: seq<seq<real>>, i: nat, m: real, n: nat): (w: real)
    requires n <= |sc| == |vs| && forall v :: v in vs ==> i < |v|
  {
    if n == 0 then 0.0 else Weighted(exp, sc, vs, i, m, n - 1) + exp(sc[n - 1] - m) * vs[n - 1][i]
  }

  /** Two-pass softmax attention: first the maximum, then the weights and the weighted mean. */
  function TwoPass(exp: real -> real, sc: seq<real>, vs: seq<seq<real>>, i: nat): (o: real)
    requires 0 < |sc| == |vs| && forall v :: v in vs ==> i < |v|
    requires Norm(exp, sc, Max(sc, |sc|), |sc|) != 0.0
  {
    Weighted(exp, sc, vs, i, Max(sc, |sc|), |sc|) / Norm(exp, sc, Max(sc, |sc|), |sc|)
  }

  lemma {:induction false} NormPositive(exp: real -> real, sc: seq<real>, m: real, n: nat)
    requires IsExp(exp) && n <= |sc|
    ensures Norm(exp, sc, m, n) >= 0.0 && (n > 0 ==> Norm(exp, sc, m, n) > 0.0)
  {
    if n > 0 { NormPositive(exp, sc, m, n - 1); }
  }

  // ----- rescaling -----

  lemma {:induction false} ShiftWeight(exp: real -> real, s: real, m: real, m': real)
    requires IsExp(exp)
    ensures exp(s - m') == exp(s - m) * exp(m - m')
  {
    assert Splits(exp, s - m, m - m');
    assert s - m + (m - m') == s - m';
  }

  lemma {:induction false} ShiftNorm(exp: real -> real, sc: seq<real>, m: real, m': real, n: nat)
    requires IsExp(exp) && n <= |sc|
    ensures Norm(exp, sc, m', n) == Norm(exp, sc, m, n) * exp(m - m')
  {
    if n > 0 {
      ShiftNorm(exp, sc, m, m', n - 1);
      ShiftWeight(exp, sc[n - 1], m, m');
    }
  }

  lemma {:induction false} ShiftWeighted(exp: real -> real, sc: seq<real>, vs: seq<seq<real>>, i: nat, m: real, m': real, n: nat)
    requires IsExp(exp) && n <= |sc| == |vs| && forall v :: v in vs ==> i < |v|
    ensures Weighted(exp, sc, vs, i, m', n) == Weighted(exp, sc, vs, i, m, n) * exp(m - m')
  {
    if n > 0 {
      ShiftWeighted(exp, sc, vs, i, m, m', n - 1);
      ShiftWeight(exp, sc[n - 1], m, m');
      var w, e, a, v := Weighted(exp, sc, vs, i, m, n - 1), exp(sc[n - 1] - m), exp(m - m'), vs[n - 1][i];
      assert (e * a) * v == (e * v) * a;
      assert w * a + (e * v) * a == (w + e * v) * a;
    }
  }

  /** The softmax mean does not depend on the reference score: subtracting the maximum
      changes nothing. */
  lemma {:induction false} TwoPassIsSoftmax(exp: real -> real, sc: seq<real>, vs: seq<seq<real>>, i: nat, m: real)
    requires IsExp(exp) && 0 < |sc| == |vs| && forall v :: v in vs ==> i < |v|
    ensures Norm(exp, sc, Max(sc, |sc|), |sc|) > 0.0 && Norm(exp, sc, m, |sc|) > 0.0
    ensures TwoPass(exp, sc, vs, i) == Weighted(exp, sc, vs, i, m, |sc|) / Norm(exp, sc, m, |sc|)
  {
    var n, x := |sc|, Max(sc, |sc|);
    NormPositive(exp, sc, x, n);
    NormPositive(exp, sc, m, n);
    ShiftNorm(exp, sc, m, x, n);
    ShiftWeighted(exp, sc, vs, i, m, x, n);
    var w, z, c := Weighted(exp, sc, vs, i, m, n), Norm(exp, sc, m, n), exp(m - x);
    assert Norm(exp, sc, x, n) == z * c && Weighted(exp, sc, vs, i, x, n) == w * c;
    Cancel(w, z, c);
  }

  lemma {:induction false} Cancel(a: real, b: real, c: real)
    requires b > 0.0 && c > 0.0 && b * c > 0.0
    ensures (a * c) / (b * c) == a / b
  {
    var q := a / b;
    assert q * b == a;
    assert q * (b * c) == a * c;
  }

  // ----- the vector loops -----

  method VecDot(a: seq<real>, b: seq<real>) returns (d: real)
    requires |a| == |b|
    ensures d == Dot(a, b)
  {
    d := 0.0;
    for j := 0 to |a|
      invariant d == Dot(a[..j], b[..j])
    {
      d := d + a[j] * b[j];
      assert a[..j + 1][..j] == a[..j] && b[..j + 1][..j] == b[..j];
    }
    assert a[..|a|] == a && b[..|b|] == b;
  }

  method VecScale(y: seq<real>, a: real) returns (r: seq<real>)
    ensures |r| == |y| && forall j :: 0 <= j < |y| ==> r[j] == y[j] * a
  {
    r := y;
    for i := 0 to |y|
      invariant |r| == |y|
      invariant forall j :: 0 <= j < i ==> r[j] == y[j] * a
      invariant forall j :: i <= j < |y| ==> r[j] == y[j]
    {
      r := r[i := r[i] * a];
    }
  }

  method VecAxpy(y: seq<real>, x: seq<real>, a: real) returns (r: seq<real>)
    requires |x| == |y|
    ensures |r| == |y| && forall j :: 0 <= j < |y| ==> r[j] == y[j] + a * x[j]
  {
    r := y;
    for i := 0 to |y|
      invariant |r| == |y|
      invariant forall j :: 0 <= j < i ==> r[j] == y[j] + a * x[j]
      invariant forall j :: i <= j < |y| ==> r[j] == y[j]
    {
      r := r[i := r[i] + a * x[i]];
    }
  }

  // ----- one step of the stream -----

  /** The running maximum: none before the first row (`-INFINITY`). */
  datatype Ref = NegInf | At(m: real)

  function NewRef(r: Ref, s: real): (m: real) {
    if r.NegInf? || s > r.m then s else r.m
  }

  /** `alpha`: how much the old partial sums shrink. */
  function Alpha(exp: real -> real, r: Ref, m': real): (a: real) {
    if r.NegInf? then 0.0 else exp(r.m - m')
  }

  /** The reference score of the first n rows. */
  predicate RefOf(sc: seq<real>, n: nat, r: Ref)
    requires n <= |sc|
  {
    if n == 0 then r.NegInf? else r == At(Max(sc, n))
  }

  /** One row more: the rescaled sums are the sums relative to the new maximum. */
  lemma {:induction false} StreamNorm(exp: real -> real, sc: seq<real>, n: nat, r: Ref, l: real)
    requires IsExp(exp) && n < |sc| && RefOf(sc, n, r) && l == (if r.NegInf? then 0.0 else Norm(exp, sc, r.m, n))
    ensures
      var m' := NewRef(r, sc[n]);
      RefOf(sc, n + 1, At(m')) && l * Alpha(exp, r, m') + exp(sc[n] - m') == Norm(exp, sc, m', n + 1)
  {
    var m' := NewRef(r, sc[n]);
    if n > 0 { ShiftNorm(exp, sc, r.m, m', n); }
  }

  lemma {:induction false} StreamWeighted(exp: real -> real, sc: seq<real>, vs: seq<seq<real>>, i: nat, n: nat, r: Ref, w: real)
    requires IsExp(exp) && n < |sc| == |vs| && (forall v :: v in vs ==> i < |v|) && RefOf(sc, n, r)
    requires w == (if r.NegInf? then 0.0 else Weighted(exp, sc, vs, i, r.m, n))
    ensures
      var m' := NewRef(r, sc[n]);
      w * Alpha(exp, r, m') + exp(sc[n] - m') * vs[n][i] == Weighted(exp, sc, vs, i, m', n + 1)
  {
    var m' := NewRef(r, sc[n]);
    if n > 0 { ShiftWeighted(exp, sc, vs, i, r.m, m', n); }
  }

  /** The partial sums of a head after n rows. */
  ghost predicate Streamed(exp: real -> real, sc: seq<real>, vs: seq<seq<real>>, n: nat, r: Ref, l: real, out: seq<real>)
    requires n <= |sc| == |vs| && forall v :: v in vs ==> |v| == |out|
  {
    && RefOf(sc, n, r)
    && l == (if r.NegInf? then 0.0 else Norm(exp, sc, r.m, n))
    && forall i :: 0 <= i < |out| ==> out[i] == if r.NegInf? then 0.0 else Weighted(exp, sc, vs, i, r.m, n)
  }

  lemma {:induction false} StreamStep(exp: real -> real, sc: seq<real>, vs: seq<seq<real>>, n: nat, r: Ref, l: real,
                                      l': real, out: seq<real>, out': seq<real>)
    requires IsExp(exp) && n < |sc| == |vs| && (forall x :: x in vs ==> |x| == |out|) && |out'| == |out|
    requires Streamed(exp, sc, vs, n, r, l, out)
    requires
      var m' := NewRef(r, sc[n]);
      && l' == l * Alpha(exp, r, m') + exp(sc[n] - m')
      && forall i :: 0 <= i < |out| ==> out'[i] == out[i] * Alpha(exp, r, m') + exp(sc[n] - m') * vs[n][i]
    ensures Streamed(exp, sc, vs, n + 1, At(NewRef(r, sc[n])), l', out')
  {
    var m' := NewRef(r, sc[n]);
    StreamNorm(exp, sc, n, r, l);
    forall i | 0 <= i < |out|
      ensures out'[i] == Weighted(exp, sc, vs, i, m', n + 1)
    {
      StreamWeighted(exp, sc, vs, i, n, r, out[i]);
    }
  }

  /** The body of the streaming loop for one head. */
  method StreamRow(f: Fns, ghost sc: seq<real>, ghost vs: seq<seq<real>>, ghost n: nat,
                   s: real, v: seq<real>, r: Ref, l: real, out: seq<real>)
    returns (r': Ref, l': real, out': seq<real>)
    requires IsExp(f.exp) && n < |sc| == |vs| && (forall x :: x in vs ==> |x| == |out|)
    requires s == sc[n] && v == vs[n] && Streamed(f.exp, sc, vs, n, r, l, out)
    ensures |out'| == |out| && Streamed(f.exp, sc, vs, n + 1, r', l', out')
  {
    hide Streamed, IsExp;
    var m' := NewRef(r, s);
    var alpha := Alpha(f.exp, r, m');
    var p := f.exp(s - m');
    l' := l * alpha + p;
    out' := Rescale(out, alpha, v, p);
    r' := At(m');
    StreamStep(f.exp, sc, vs, n, r, l, l', out, out');
  }

  method Rescale(out: seq<real>, alpha: real, v: seq<real>, p: real) returns (out': seq<real>)
    requires |v| == |out|
    ensures |out'| == |out| && forall i :: 0 <= i < |out| ==> out'[i] == out[i] * alpha + p * v[i]
  {
    out' := out;
    if alpha != 1.0 {
      out' := VecScale(out, alpha);
    }
    out' := VecAxpy(out', v, p);
  }

  /** The final division. */
  method Normalise(f: Fns, ghost sc: seq<real>, ghost vs: seq<seq<real>>, r: Ref, l: real, out: seq<real>)
    returns (out': seq<real>)
    requires IsExp(f.exp) && 0 < |sc| == |vs| && (forall x :: x in vs ==> |x| == |out|)
    requires Streamed(f.exp, sc, vs, |sc|, r, l, out)
    ensures Norm(f.exp, sc, Max(sc, |sc|), |sc|) > 0.0
    ensures |out'| == |out| && forall i :: 0 <= i < |out| ==> out'[i] == TwoPass(f.exp, sc, vs, i)
  {
    NormPositive(f.exp, sc, r.m, |sc|);
    hide Weighted, Norm, Max, IsExp;
    out' := out;
    if l > 0.0 {
      out' := VecScale(out, 1.0 / l);
    }
    forall i | 0 <= i < |out|
      ensures out'[i] == TwoPass(f.exp, sc, vs, i)
    {
      assert out[i] * (1.0 / l) == out[i] / l;
    }
  }

  // ----- the kernels -----

  predicate RowFits(row: seq<real>, kvHead: nat, hd: nat) {
    (kvHead + 1) * hd <= |row|
  }

  /** The slice of a cache row that belongs to one K/V head. */
  function HeadSlice(row: seq<real>, kvHead: nat, hd: nat): (s: seq<real>)
    requires RowFits(row, kvHead, hd)
    ensures |s| == hd
  {
    assert (kvHead + 1) * hd == kvHead * hd + hd;
    row[kvHead * hd..kvHead * hd + hd]
  }

  ghost predicate CachesFine(ks: seq<seq<real>>, vs: seq<seq<real>>, s0: nat, pos: nat, kvHead: nat, hd: nat) {
    && s0 <= pos < |ks| == |vs|
    && (forall j :: 0 <= j < |ks| ==> RowFits(ks[j], kvHead, hd) && RowFits(vs[j], kvHead, hd))
  }

  /** The first n rows of `s0..`, as one K/V head sees them. */
  function Window(cache: seq<seq<real>>, s0: nat, n: nat, kvHead: nat, hd: nat): (w: seq<seq<real>>)
    requires s0 + n <= |cache| && forall j :: 0 <= j < |cache| ==> RowFits(cache[j], kvHead, hd)
    ensures |w| == n && forall x :: x in w ==> |x| == hd
    ensures forall j :: 0 <= j < n ==> w[j] == HeadSlice(cache[s0 + j], kvHead, hd)
  {
    if n == 0 then [] else Window(cache, s0, n - 1, kvHead, hd) + [HeadSlice(cache[s0 + n - 1], kvHead, hd)]
  }

  /** `out` is softmax attention of the query over the rows `s0..pos`. */
  ghost predicate IsAttention(f: Fns, out: seq<real>, q: seq<real>, ks: seq<seq<real>>, vs: seq<seq<real>>,
                              s0: nat, pos: nat, kvHead: nat, hd: nat, invD: real, cap: real)
    requires hd == |q| && CachesFine(ks, vs, s0, pos, kvHead, hd)
  {
    var kw, vw := Window(ks, s0, pos + 1 - s0, kvHead, hd), Window(vs, s0, pos + 1 - s0, kvHead, hd);
    var sc := Scores(f, q, kw, invD, cap);
    && Norm(f.exp, sc, Max(sc, |sc|), |sc|) > 0.0
    && |out| == hd && forall i :: 0 <= i < hd ==> out[i] == TwoPass(f.exp, sc, vw, i)
  }

  method ScoreOf(f: Fns, q: seq<real>, k: seq<real>, invD: real, cap: real) returns (s: real)
    requires |q| == |k|
    ensures s == Score(f, q, k, invD, cap)
  {
    var d := VecDot(q, k);
    var t := d * invD;
    assert t == Dot(q, k) * invD;
    return if cap > 0.0 then cap * f.tanh(t / cap) else t;
  }

  /** A query's stream after n rows of its window. */
  ghost predicate HeadStreamed(f: Fns, q: seq<real>, kw: seq<seq<real>>, vw: seq<seq<real>>, invD: real, cap: real,
                               n: nat, r: Ref, l: real, out: seq<real>) {
    && |out| == |q| && n <= |kw| == |vw| && (forall x :: x in kw ==> |x| == |q|) && (forall x :: x in vw ==> |x| == |q|)
    && Streamed(f.exp, Scores(f, q, kw, invD, cap), vw, n, r, l, out)
  }

  method StreamHead(f: Fns, q: seq<real>, ghost kw: seq<seq<real>>, ghost vw: seq<seq<real>>, invD: real, cap: real,
                    ghost n: nat, k: seq<real>, v: seq<real>, r: Ref, l: real, out: seq<real>)
    returns (r': Ref, l': real, out': seq<real>)
    requires IsExp(f.exp) && HeadStreamed(f, q, kw, vw, invD, cap, n, r, l, out) && n < |kw| == |vw|
    requires k == kw[n] && v == vw[n]
    ensures HeadStreamed(f, q, kw, vw, invD, cap, n + 1, r', l', out')
  {
    var c := ScoreOf(f, q, k, invD, cap);
    r', l', out' := StreamRow(f, Scores(f, q, kw, invD, cap), vw, n, c, v, r, l, out);
  }

  /** The stream of a query over the rows `s0..pos` of the caches, n rows in. */
  ghost predicate HeadAt(f: Fns, q: seq<real>, ks: seq<seq<real>>, vs: seq<seq<real>>, s0: nat, pos: nat, kvHead: nat,
                         invD: real, cap: real, n: nat, r: Ref, l: real, out: seq<real>) {
    && CachesFine(ks, vs, s0, pos, kvHead, |q|) && n <= pos + 1 - s0
    && (var kw, vw := Window(ks, s0, pos + 1 - s0, kvHead, |q|), Window(vs, s0, pos + 1 - s0, kvHead, |q|);
        HeadStreamed(f, q, kw, vw, invD, cap, n, r, l, out))
  }

  method StreamBegin(f: Fns, q: seq<real>, ghost ks: seq<seq<real>>, ghost vs: seq<seq<real>>, ghost s0: nat, ghost pos: nat,
                     ghost kvHead: nat, ghost invD: real, ghost cap: real) returns (r: Ref, l: real, out: seq<real>)
    requires CachesFine(ks, vs, s0, pos, kvHead, |q|)
    ensures HeadAt(f, q, ks, vs, s0, pos, kvHead, invD, cap, 0, r, l, out)
  {
    hide Scores, Window, HeadSlice, Norm, Weighted;
    r, l, out := NegInf, 0.0, seq(|q|, _ => 0.0);
  }

  method StreamNext(f: Fns, q: seq<real>, ghost ks: seq<seq<real>>, ghost vs: seq<seq<real>>, ghost s0: nat, ghost pos: nat,
                    ghost kvHead: nat, invD: real, cap: real, ghost n: nat, k: seq<real>, v: seq<real>,
                    r: Ref, l: real, out: seq<real>) returns (r': Ref, l': real, out': seq<real>)
    requires IsExp(f.exp) && HeadAt(f, q, ks, vs, s0, pos, kvHead, invD, cap, n, r, l, out) && n < pos + 1 - s0
    requires k == HeadSlice(ks[s0 + n], kvHead, |q|) && v == HeadSlice(vs[s0 + n], kvHead, |q|)
    ensures HeadAt(f, q, ks, vs, s0, pos, kvHead, invD, cap, n + 1, r', l', out')
  {
    hide HeadStreamed, HeadSlice, IsExp, RowFits;
    ghost var kw, vw := Window(ks, s0, pos + 1 - s0, kvHead, |q|), Window(vs, s0, pos + 1 - s0, kvHead, |q|);
    r', l', out' := StreamHead(f, q, kw, vw, invD, cap, n, k, v, r, l, out);
  }

  method StreamEnd(f: Fns, q: seq<real>, ghost ks: seq<seq<real>>, ghost vs: seq<seq<real>>, ghost s0: nat, ghost pos: nat,
                   ghost kvHead: nat, invD: real, cap: real, r: Ref, l: real, out: seq<real>) returns (out': seq<real>)
    requires IsExp(f.exp) && CachesFine(ks, vs, s0, pos, kvHead, |q|)
    requires HeadAt(f, q, ks, vs, s0, pos, kvHead, invD, cap, pos + 1 - s0, r, l, out)
    ensures IsAttention(f, out', q, ks, vs, s0, pos, kvHead, |q|, invD, cap)
  {
    hide IsExp, Streamed, Norm, Max, Weighted, TwoPass, Scores, Window, HeadSlice, RowFits;
    ghost var n := pos + 1 - s0;
    out' := Normalise(f, Scores(f, q, Window(ks, s0, n, kvHead, |q|), invD, cap), Window(vs, s0, n, kvHead, |q|), r, l, out);
  }

  /** `attn_qh_kv_f16`: one query head. */
  method AttnHead(f: Fns, q: seq<real>, ks: seq<seq<real>>, vs: seq<seq<real>>,
                  s0: nat, pos: nat, kvHead: nat, hd: nat, invD: real, cap: real) returns (og: seq<real>)
    requires IsExp(f.exp) && hd == |q| && CachesFine(ks, vs, s0, pos, kvHead, hd)
    ensures IsAttention(f, og, q, ks, vs, s0, pos, kvHead, hd, invD, cap)
  {
    hide HeadAt, HeadSlice, IsExp, RowFits, IsAttention;
    var m, l;
    m, l, og := StreamBegin(f, q, ks, vs, s0, pos, kvHead, invD, cap);
    var s := s0;
    while s <= pos
      invariant s0 <= s <= pos + 1
      invariant HeadAt(f, q, ks, vs, s0, pos, kvHead, invD, cap, s - s0, m, l, og)
    {
      var k, v := HeadSlice(ks[s], kvHead, hd), HeadSlice(vs[s], kvHead, hd);
      m, l, og := StreamNext(f, q, ks, vs, s0, pos, kvHead, invD, cap, s - s0, k, v, m, l, og);
      s := s + 1;
    }
    og := StreamEnd(f, q, ks, vs, s0, pos, kvHead, invD, cap, m, l, og);
  }

  /** The group's running state before its first row. */
  method GroupBegin(f: Fns, out: array<seq<real>>, hh0: nat, gqa: nat, qs: seq<seq<real>>, ghost ks: seq<seq<real>>,
                    ghost vs: seq<seq<real>>, ghost s0: nat, ghost pos: nat, ghost kvHead: nat, ghost hd: nat,
                    ghost invD: real, ghost cap: real)
    returns (m: array<Ref>, l: array<real>)
    requires IsExp(f.exp) && hh0 + gqa <= out.Length == |qs| && CachesFine(ks, vs, s0, pos, kvHead, hd)
    requires forall h :: 0 <= h < |qs| ==> |qs[h]| == hd
    modifies out
    ensures fresh(m) && fresh(l) && m.Length == l.Length == gqa
    ensures forall h :: hh0 <= h < hh0 + gqa ==>
      HeadAt(f, qs[h], ks, vs, s0, pos, kvHead, invD, cap, 0, m[h - hh0], l[h - hh0], out[h])
    ensures forall h :: 0 <= h < out.Length && !(hh0 <= h < hh0 + gqa) ==> out[h] == old(out[h])
  {
    hide HeadAt, IsExp, RowFits;
    m, l := new Ref[gqa](_ => NegInf), new real[gqa](_ => 0.0);
    for g := 0 to gqa
      invariant forall h :: hh0 <= h < hh0 + g ==>
        HeadAt(f, qs[h], ks, vs, s0, pos, kvHead, invD, cap, 0, m[h - hh0], l[h - hh0], out[h])
      invariant forall h :: 0 <= h < out.Length && !(hh0 <= h < hh0 + gqa) ==> out[h] == old(out[h])
    {
      m[g], l[g], out[hh0 + g] := StreamBegin(f, qs[hh0 + g], ks, vs, s0, pos, kvHead, invD, cap);
    }
  }

  /** The final divisions of a group. */
  method GroupEnd(f: Fns, out: array<seq<real>>, hh0: nat, gqa: nat, qs: seq<seq<real>>, ghost ks: seq<seq<real>>,
                  ghost vs: seq<seq<real>>, ghost s0: nat, ghost pos: nat, ghost kvHead: nat, ghost hd: nat,
                  invD: real, cap: real, m: array<Ref>, l: array<real>)
    requires IsExp(f.exp) && hh0 + gqa <= out.Length == |qs| && CachesFine(ks, vs, s0, pos, kvHead, hd)
    requires (forall h :: 0 <= h < |qs| ==> |qs[h]| == hd) && m.Length == l.Length == gqa
    requires forall h :: hh0 <= h < hh0 + gqa ==>
      HeadAt(f, qs[h], ks, vs, s0, pos, kvHead, invD, cap, pos + 1 - s0, m[h - hh0], l[h - hh0], out[h])
    modifies out
    ensures forall h :: hh0 <= h < hh0 + gqa ==> IsAttention(f, out[h], qs[h], ks, vs, s0, pos, kvHead, hd, invD, cap)
    ensures forall h :: 0 <= h < out.Length && !(hh0 <= h < hh0 + gqa) ==> out[h] == old(out[h])
  {
    hide HeadAt, IsExp, RowFits, IsAttention;
    for g := 0 to gqa
      invariant forall h :: hh0 <= h < hh0 + g ==> IsAttention(f, out[h], qs[h], ks, vs, s0, pos, kvHead, hd, invD, cap)
      invariant forall h :: hh0 + g <= h < hh0 + gqa ==>
        HeadAt(f, qs[h], ks, vs, s0, pos, kvHead, invD, cap, pos + 1 - s0, m[h - hh0], l[h - hh0], out[h])
      invariant forall h :: 0 <= h < out.Length && !(hh0 <= h < hh0 + gqa) ==> out[h] == old(out[h])
    {
      out[hh0 + g] := StreamEnd(f, qs[hh0 + g], ks, vs, s0, pos, kvHead, invD, cap, m[g], l[g], out[hh0 + g]);
    }
  }

  /** `attn_gqa_kv_f16`: the query heads `hh0..hh0+gqa` that share one K/V head, row by row;
      `out[h]` is the output row of head h. */
  method AttnGroup(f: Fns, out: array<seq<real>>, hh0: nat, gqa: nat, qs: seq<seq<real>>, ks: seq<seq<real>>,
                   vs: seq<seq<real>>, s0: nat, pos: nat, kvHead: nat, hd: nat, invD: real, cap: real)
    requires IsExp(f.exp) && hh0 + gqa <= out.Length == |qs| && CachesFine(ks, vs, s0, pos, kvHead, hd)
    requires forall h :: 0 <= h < |qs| ==> |qs[h]| == hd
    modifies out
    ensures forall h :: hh0 <= h < hh0 + gqa ==> IsAttention(f, out[h], qs[h], ks, vs, s0, pos, kvHead, hd, invD, cap)
    ensures forall h :: 0 <= h < out.Length && !(hh0 <= h < hh0 + gqa) ==> out[h] == old(out[h])
  {
    hide HeadAt, HeadSlice, IsExp, RowFits, IsAttention;
    var m, l := GroupBegin(f, out, hh0, gqa, qs, ks, vs, s0, pos, kvHead, hd, invD, cap);
    var s := s0;
    while s <= pos
      invariant s0 <= s <= pos + 1
      invariant forall h :: hh0 <= h < hh0 + gqa ==>
        HeadAt(f, qs[h], ks, vs, s0, pos, kvHead, invD, cap, s - s0, m[h - hh0], l[h - hh0], out[h])
      invariant forall h :: 0 <= h < out.Length && !(hh0 <= h < hh0 + gqa) ==> out[h] == old(out[h])
    {
      GroupRow(f, out, hh0, gqa, qs, ks, vs, s0, pos, kvHead, hd, invD, cap, s, m, l);
      s := s + 1;
    }
    GroupEnd(f, out, hh0, gqa, qs, ks, vs, s0, pos, kvHead, hd, invD, cap, m, l);
  }

  /** One cache row, converted once, for all heads of the group. */
  method GroupRow(f: Fns, out: array<seq<real>>, hh0: nat, gqa: nat, qs: seq<seq<real>>, ks: seq<seq<real>>,
                  vs: seq<seq<real>>, s0: nat, pos: nat, kvHead: nat, hd: nat, invD: real, cap: real, s: nat,
                  m: array<Ref>, l: array<real>)
    requires IsExp(f.exp) && hh0 + gqa <= out.Length == |qs| && CachesFine(ks, vs, s0, pos, kvHead, hd)
    requires (forall h :: 0 <= h < |qs| ==> |qs[h]| == hd) && m.Length == l.Length == gqa && s0 <= s <= pos
    requires forall h :: hh0 <= h < hh0 + gqa ==>
      HeadAt(f, qs[h], ks, vs, s0, pos, kvHead, invD, cap, s - s0, m[h - hh0], l[h - hh0], out[h])
    modifies out, m, l
    ensures forall h :: hh0 <= h < hh0 + gqa ==>
      HeadAt(f, qs[h], ks, vs, s0, pos, kvHead, invD, cap, s + 1 - s0, m[h - hh0], l[h - hh0], out[h])
    ensures forall h :: 0 <= h < out.Length && !(hh0 <= h < hh0 + gqa) ==> out[h] == old(out[h])
  {
    hide HeadAt, HeadSlice, IsExp, RowFits;
    var k, v := HeadSlice(ks[s], kvHead, hd), HeadSlice(vs[s], kvHead, hd);
    for g := 0 to gqa
      invariant forall h :: hh0 <= h < hh0 + g ==>
        HeadAt(f, qs[h], ks, vs, s0, pos, kvHead, invD, cap, s + 1 - s0, m[h - hh0], l[h - hh0], out[h])
      invariant forall h :: hh0 + g <= h < hh0 + gqa ==>
        HeadAt(f, qs[h], ks, vs, s0, pos, kvHead, invD, cap, s - s0, m[h - hh0], l[h - hh0], out[h])
      invariant forall h :: 0 <= h < out.Length && !(hh0 <= h < hh0 + gqa) ==> out[h] == old(out[h])
    {
      m[g], l[g], out[hh0 + g] := StreamNext(f, qs[hh0 + g], ks, vs, s0, pos, kvHead, invD, cap, s - s0, k, v, m[g], l[g], out[hh0 + g]);
    }
  }
}
