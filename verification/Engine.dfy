/**
  The layer-range semantics of the inference engine (inference/core/engine.c).

  A model is a row of layers: layer 0 embeds the token, the blocks follow, the final
  norm and the output head come last.  What a layer computes is opaque; what is modelled
  is what a layer may read and write: an attention block writes one K/V row at the
  position of its token and reads the rows of positions 0..pos of one layer, its own or
  (gemma4 shared KV) that of an earlier layer.
*/
module Engine {
  type Token = nat
  type Vec = seq<real>

  /** K/V rows: `mem[l][p]` is the row of layer `l` at position `p`. */
  type Mem = seq<seq<Vec>>

  datatype LayerKind = NoKv | OwnKv | SharedKv(src: nat)

  datatype Model = Model(
    layers: nat,
    maxSeq: nat,
    kind: nat -> LayerKind,
    project: (nat, Token, nat, Vec) -> Vec,
    block: (nat, Token, nat, seq<Vec>, Vec) -> Vec)
  {
    /** A shared layer reads an earlier layer that keeps rows of its own. */
    ghost predicate Valid() {
      forall l :: 0 <= l < layers && kind(l).SharedKv? ==>
        kind(l).src < l && kind(kind(l).src).OwnKv?
    }

    ghost predicate Fits(mem: Mem) {
      |mem| == layers && forall l :: 0 <= l < layers ==> |mem[l]| == maxSeq
    }

    /** No layer in `[lo, hi)` reads rows of a layer outside `[lo, hi)`. */
    ghost predicate Closed(lo: nat, hi: nat) {
      forall l :: lo <= l < hi && kind(l).SharedKv? ==> lo <= kind(l).src
    }
  }

  datatype Out = Out(mem: Mem, x: Vec)
  datatype OutSeq = OutSeq(mem: Mem, xs: seq<Vec>)

  /** One layer on one token (`forward_layer`). */
  function LayerStep(m: Model, mem: Mem, l: nat, tok: Token, pos: nat, x: Vec): (o: Out)
    requires m.Valid() && m.Fits(mem) && l < m.layers && pos < m.maxSeq
    ensures m.Fits(o.mem)
  {
    match m.kind(l)
    case NoKv => Out(mem, m.block(l, tok, pos, [], x))
    case OwnKv =>
      var rows := mem[l][pos := m.project(l, tok, pos, x)];
      Out(mem[l := rows], m.block(l, tok, pos, rows[..pos + 1], x))
    case SharedKv(src) => Out(mem, m.block(l, tok, pos, mem[src][..pos + 1], x))
  }

  /** Layers `[lo, hi)` on one token (`engine_forward_range`). */
  function SegStep(m: Model, mem: Mem, lo: nat, hi: nat, tok: Token, pos: nat, x: Vec): (o: Out)
    requires m.Valid() && m.Fits(mem) && lo <= hi <= m.layers && pos < m.maxSeq
    ensures m.Fits(o.mem)
    decreases hi
  {
    if lo == hi then Out(mem, x)
    else
      var o := SegStep(m, mem, lo, hi - 1, tok, pos, x);
      LayerStep(m, o.mem, hi - 1, tok, pos, o.x)
  }

  /** Layers `[lo, hi)` on a run of tokens, one token at a time. */
  function SegRun(m: Model, mem: Mem, lo: nat, hi: nat, toks: seq<Token>, pos: nat, xs: seq<Vec>): (o: OutSeq)
    requires m.Valid() && m.Fits(mem) && lo <= hi <= m.layers
    requires pos + |toks| <= m.maxSeq && |xs| == |toks|
    ensures m.Fits(o.mem) && |o.xs| == |toks|
    decreases |toks|
  {
    if toks == [] then OutSeq(mem, [])
    else
      var n := |toks| - 1;
      var r := SegRun(m, mem, lo, hi, toks[..n], pos, xs[..n]);
      var o := SegStep(m, r.mem, lo, hi, toks[n], pos + n, xs[n]);
      OutSeq(o.mem, r.xs + [o.x])
  }

  /** One layer on a whole batch: all K/V rows first, then attention per token
      (`engine_call_fwd_block_batch`). */
  function BatchLayer(m: Model, mem: Mem, l: nat, toks: seq<Token>, pos: nat, xs: seq<Vec>): (o: OutSeq)
    requires m.Valid() && m.Fits(mem) && l < m.layers
    requires pos + |toks| <= m.maxSeq && |xs| == |toks|
    ensures m.Fits(o.mem) && |o.xs| == |toks|
  {
    match m.kind(l)
    case NoKv =>
      OutSeq(mem, seq(|toks|, t requires 0 <= t < |toks| => m.block(l, toks[t], pos + t, [], xs[t])))
    case OwnKv =>
      var rows := WriteRows(m, mem[l], l, toks, pos, xs);
      OutSeq(mem[l := rows],
             seq(|toks|, t requires 0 <= t < |toks| =>
               m.block(l, toks[t], pos + t, rows[..pos + t + 1], xs[t])))
    case SharedKv(src) =>
      OutSeq(mem, seq(|toks|, t requires 0 <= t < |toks| =>
               m.block(l, toks[t], pos + t, mem[src][..pos + t + 1], xs[t])))
  }

  function WriteRows(m: Model, rows: seq<Vec>, l: nat, toks: seq<Token>, pos: nat, xs: seq<Vec>): (r: seq<Vec>)
    requires pos + |toks| <= |rows| && |xs| == |toks|
    ensures |r| == |rows|
  {
    rows[..pos]
    + seq(|toks|, t requires 0 <= t < |toks| => m.project(l, toks[t], pos + t, xs[t]))
    + rows[pos + |toks|..]
  }

  /** Layers `[lo, hi)` on a batch, one layer at a time (`engine_forward_batch_tokens`,
      `engine_forward_batch_x`). */
  function BatchRun(m: Model, mem: Mem, lo: nat, hi: nat, toks: seq<Token>, pos: nat, xs: seq<Vec>): (o: OutSeq)
    requires m.Valid() && m.Fits(mem) && lo <= hi <= m.layers
    requires pos + |toks| <= m.maxSeq && |xs| == |toks|
    ensures m.Fits(o.mem) && |o.xs| == |toks|
    decreases hi
  {
    if lo == hi then OutSeq(mem, xs)
    else
      var o := BatchRun(m, mem, lo, hi - 1, toks, pos, xs);
      BatchLayer(m, o.mem, hi - 1, toks, pos, o.xs)
  }

  // ----- what a step touches -----

  /** A segment writes only its own layers, and there only the row of its token. */
  lemma {:induction false} SegStepFrame(m: Model, mem: Mem, lo: nat, hi: nat, tok: Token, pos: nat, x: Vec)
    requires m.Valid() && m.Fits(mem) && lo <= hi <= m.layers && pos < m.maxSeq
    ensures
      var o := SegStep(m, mem, lo, hi, tok, pos, x);
      && (forall l :: 0 <= l < m.layers && !(lo <= l < hi) ==> o.mem[l] == mem[l])
      && (forall l, p :: 0 <= l < m.layers && 0 <= p < m.maxSeq && p != pos ==> o.mem[l][p] == mem[l][p])
    decreases hi
  {
    if lo < hi {
      SegStepFrame(m, mem, lo, hi - 1, tok, pos, x);
    }
  }

  lemma {:induction false} SegStepCompose(m: Model, mem: Mem, lo: nat, mid: nat, hi: nat, tok: Token, pos: nat, x: Vec)
    requires m.Valid() && m.Fits(mem) && lo <= mid <= hi <= m.layers && pos < m.maxSeq
    ensures
      var o := SegStep(m, mem, lo, mid, tok, pos, x);
      SegStep(m, mem, lo, hi, tok, pos, x) == SegStep(m, o.mem, mid, hi, tok, pos, o.x)
    decreases hi
  {
    if mid < hi {
      SegStepCompose(m, mem, lo, mid, hi - 1, tok, pos, x);
    }
  }

  // ----- a batch, layer by layer, computes what its tokens compute one at a time -----

  /** Layers below `l` neither read nor write the rows of layer `l`. */
  lemma {:induction false} SegStepIgnores(m: Model, mem: Mem, lo: nat, hi: nat, l: nat, rows: seq<Vec>,
                                          tok: Token, pos: nat, x: Vec)
    requires m.Valid() && m.Fits(mem) && lo <= hi <= l < m.layers && pos < m.maxSeq && |rows| == m.maxSeq
    ensures
      var o := SegStep(m, mem, lo, hi, tok, pos, x);
      SegStep(m, mem[l := rows], lo, hi, tok, pos, x) == Out(o.mem[l := rows], o.x)
    decreases hi
  {
    if lo < hi {
      SegStepIgnores(m, mem, lo, hi - 1, l, rows, tok, pos, x);
      var o := SegStep(m, mem, lo, hi - 1, tok, pos, x);
      LayerStepIgnores(m, o.mem, hi - 1, l, rows, tok, pos, o.x);
    }
  }

  lemma {:induction false} LayerStepIgnores(m: Model, mem: Mem, k: nat, l: nat, rows: seq<Vec>, tok: Token, pos: nat, x: Vec)
    requires m.Valid() && m.Fits(mem) && k < l < m.layers && pos < m.maxSeq && |rows| == m.maxSeq
    ensures
      var o := LayerStep(m, mem, k, tok, pos, x);
      LayerStep(m, mem[l := rows], k, tok, pos, x) == Out(o.mem[l := rows], o.x)
  {
    var a := LayerStep(m, mem[l := rows], k, tok, pos, x);
    var o := LayerStep(m, mem, k, tok, pos, x);
    assert a.mem == o.mem[l := rows];
  }

  lemma {:induction false} NoTokens(m: Model, mem: Mem, l: nat, pos: nat)
    requires m.Valid() && m.Fits(mem) && l < m.layers && pos <= m.maxSeq
    ensures BatchLayer(m, mem, l, [], pos, []) == OutSeq(mem, [])
  {
    if m.kind(l).OwnKv? {
      assert WriteRows(m, mem[l], l, [], pos, []) == mem[l];
    }
  }

  lemma {:induction false} BatchLayerFrame(m: Model, mem: Mem, l: nat, toks: seq<Token>, pos: nat, xs: seq<Vec>)
    requires m.Valid() && m.Fits(mem) && l < m.layers && pos + |toks| <= m.maxSeq && |xs| == |toks|
    ensures
      var b := BatchLayer(m, mem, l, toks, pos, xs);
      m.Fits(b.mem) && b.mem == mem[l := b.mem[l]]
  {
  }

  /** One more layer on top of a token-wise run is one batched layer on its output. */
  lemma {:induction false} RunOneLayerMore(m: Model, mem: Mem, lo: nat, hi: nat, toks: seq<Token>, pos: nat, xs: seq<Vec>)
    requires m.Valid() && m.Fits(mem) && lo <= hi < m.layers
    requires pos + |toks| <= m.maxSeq && |xs| == |toks|
    ensures
      var r := SegRun(m, mem, lo, hi, toks, pos, xs);
      SegRun(m, mem, lo, hi + 1, toks, pos, xs) == BatchLayer(m, r.mem, hi, toks, pos, r.xs)
    decreases |toks|
  {
    hide LayerStep, BatchLayer;
    if toks == [] {
      NoTokens(m, mem, hi, pos);
    } else {
      var n := |toks| - 1;
      var ti, xi := toks[..n], xs[..n];
      RunOneLayerMore(m, mem, lo, hi, ti, pos, xi);
      var r0 := SegRun(m, mem, lo, hi, ti, pos, xi);
      var b0 := BatchLayer(m, r0.mem, hi, ti, pos, r0.xs);
      BatchLayerFrame(m, r0.mem, hi, ti, pos, r0.xs);
      var s := SegStep(m, r0.mem, lo, hi, toks[n], pos + n, xs[n]);
      SegStepIgnores(m, r0.mem, lo, hi, hi, b0.mem[hi], toks[n], pos + n, xs[n]);
      SegStepFrame(m, r0.mem, lo, hi, toks[n], pos + n, xs[n]);
      var t := LayerStep(m, s.mem[hi := b0.mem[hi]], hi, toks[n], pos + n, s.x);
      assert SegRun(m, mem, lo, hi + 1, toks, pos, xs) == OutSeq(t.mem, b0.xs + [t.x]);
      BatchLayerLast(m, r0.mem, s.mem, hi, toks, pos, r0.xs, s.x);
    }
  }

  /** A batched layer on n+1 tokens is the batched layer on n tokens and one layer step. */
  lemma {:induction false} BatchLayerLast(m: Model, mem: Mem, mem': Mem, l: nat, toks: seq<Token>, pos: nat, xs: seq<Vec>, x: Vec)
    requires m.Valid() && m.Fits(mem) && m.Fits(mem') && l < m.layers && |toks| == |xs| + 1
    requires pos + |toks| <= m.maxSeq
    requires mem'[l] == mem[l]
    requires forall k, p :: 0 <= k < m.layers && 0 <= p < m.maxSeq && p != pos + |xs| ==> mem'[k][p] == mem[k][p]
    ensures
      var n := |xs|;
      var b := BatchLayer(m, mem, l, toks[..n], pos, xs);
      var t := LayerStep(m, mem'[l := b.mem[l]], l, toks[n], pos + n, x);
      BatchLayer(m, mem', l, toks, pos, xs + [x]) == OutSeq(t.mem, b.xs + [t.x])
  {
    hide BatchLayer, LayerStep;
    match m.kind(l)
    case NoKv => PlainLast(m, mem, mem', l, toks, pos, xs, x);
    case OwnKv => OwnLast(m, mem, mem', l, toks, pos, xs, x);
    case SharedKv(_) => SharedLast(m, mem, mem', l, toks, pos, xs, x);
  }

  lemma {:induction false} PlainLast(m: Model, mem: Mem, mem': Mem, l: nat, toks: seq<Token>, pos: nat, xs: seq<Vec>, x: Vec)
    requires m.Valid() && m.Fits(mem) && m.Fits(mem') && l < m.layers && |toks| == |xs| + 1
    requires pos + |toks| <= m.maxSeq
    requires mem'[l] == mem[l]
    requires forall k, p :: 0 <= k < m.layers && 0 <= p < m.maxSeq && p != pos + |xs| ==> mem'[k][p] == mem[k][p]
    requires m.kind(l).NoKv?
    ensures
      var n := |xs|;
      var b := BatchLayer(m, mem, l, toks[..n], pos, xs);
      var t := LayerStep(m, mem'[l := b.mem[l]], l, toks[n], pos + n, x);
      BatchLayer(m, mem', l, toks, pos, xs + [x]) == OutSeq(t.mem, b.xs + [t.x])
  {
    var n := |xs|;
    var b := BatchLayer(m, mem, l, toks[..n], pos, xs);
    var t := LayerStep(m, mem'[l := b.mem[l]], l, toks[n], pos + n, x);
    var c := BatchLayer(m, mem', l, toks, pos, xs + [x]);
    assert mem'[l := b.mem[l]] == mem';
    assert c.xs == b.xs + [t.x];
  }

  lemma {:induction false} OwnLast(m: Model, mem: Mem, mem': Mem, l: nat, toks: seq<Token>, pos: nat, xs: seq<Vec>, x: Vec)
    requires m.Valid() && m.Fits(mem) && m.Fits(mem') && l < m.layers && |toks| == |xs| + 1
    requires pos + |toks| <= m.maxSeq
    requires mem'[l] == mem[l]
    requires forall k, p :: 0 <= k < m.layers && 0 <= p < m.maxSeq && p != pos + |xs| ==> mem'[k][p] == mem[k][p]
    requires m.kind(l).OwnKv?
    ensures
      var n := |xs|;
      var b := BatchLayer(m, mem, l, toks[..n], pos, xs);
      var t := LayerStep(m, mem'[l := b.mem[l]], l, toks[n], pos + n, x);
      BatchLayer(m, mem', l, toks, pos, xs + [x]) == OutSeq(t.mem, b.xs + [t.x])
  {
    var n := |xs|;
    var b := BatchLayer(m, mem, l, toks[..n], pos, xs);
    var t := LayerStep(m, mem'[l := b.mem[l]], l, toks[n], pos + n, x);
    var c := BatchLayer(m, mem', l, toks, pos, xs + [x]);
    OwnRows(m, mem, mem', l, toks, pos, xs, x);
    var r, r' := WriteRows(m, mem[l], l, toks[..n], pos, xs), WriteRows(m, mem'[l], l, toks, pos, xs + [x]);
    hide WriteRows;
    assert b.mem == mem[l := r] && c.mem == mem'[l := r'];
    assert mem'[l := r][l := r'] == mem'[l := r'];
    forall k | 0 <= k < n
      ensures c.xs[k] == b.xs[k]
    {
      assert r'[..pos + k + 1] == r[..pos + k + 1];
    }
    assert c.xs == b.xs + [t.x];
  }

  /** The rows written for one token more. */
  lemma {:induction false} OwnRows(m: Model, mem: Mem, mem': Mem, l: nat, toks: seq<Token>, pos: nat, xs: seq<Vec>, x: Vec)
    requires m.Valid() && m.Fits(mem) && m.Fits(mem') && l < m.layers && |toks| == |xs| + 1
    requires pos + |toks| <= m.maxSeq
    requires mem'[l] == mem[l]
    requires forall k, p :: 0 <= k < m.layers && 0 <= p < m.maxSeq && p != pos + |xs| ==> mem'[k][p] == mem[k][p]
    ensures
      var n := |xs|;
      var r := WriteRows(m, mem[l], l, toks[..n], pos, xs);
      WriteRows(m, mem'[l], l, toks, pos, xs + [x]) == r[pos + n := m.project(l, toks[n], pos + n, x)]
  {
  }

  lemma {:induction false} SharedLast(m: Model, mem: Mem, mem': Mem, l: nat, toks: seq<Token>, pos: nat, xs: seq<Vec>, x: Vec)
    requires m.Valid() && m.Fits(mem) && m.Fits(mem') && l < m.layers && |toks| == |xs| + 1
    requires pos + |toks| <= m.maxSeq
    requires mem'[l] == mem[l]
    requires forall k, p :: 0 <= k < m.layers && 0 <= p < m.maxSeq && p != pos + |xs| ==> mem'[k][p] == mem[k][p]
    requires m.kind(l).SharedKv?
    ensures
      var n := |xs|;
      var b := BatchLayer(m, mem, l, toks[..n], pos, xs);
      var t := LayerStep(m, mem'[l := b.mem[l]], l, toks[n], pos + n, x);
      BatchLayer(m, mem', l, toks, pos, xs + [x]) == OutSeq(t.mem, b.xs + [t.x])
  {
    var n := |xs|;
    var b := BatchLayer(m, mem, l, toks[..n], pos, xs);
    var t := LayerStep(m, mem'[l := b.mem[l]], l, toks[n], pos + n, x);
    var c := BatchLayer(m, mem', l, toks, pos, xs + [x]);
    var src := m.kind(l).src;
    assert mem'[l := b.mem[l]] == mem';
    forall k | 0 <= k < n
      ensures c.xs[k] == b.xs[k]
    {
      assert mem'[src][..pos + k + 1] == mem[src][..pos + k + 1];
    }
    assert c.xs == b.xs + [t.x];
  }

  /** The batched, layer-major prefill computes exactly what the token-major loop computes:
      same rows, same activations. */
  lemma {:induction false} BatchIsTokenwise(m: Model, mem: Mem, lo: nat, hi: nat, toks: seq<Token>, pos: nat, xs: seq<Vec>)
    requires m.Valid() && m.Fits(mem) && lo <= hi <= m.layers
    requires pos + |toks| <= m.maxSeq && |xs| == |toks|
    ensures BatchRun(m, mem, lo, hi, toks, pos, xs) == SegRun(m, mem, lo, hi, toks, pos, xs)
    decreases hi
  {
    hide BatchLayer, SegRun, SegStep, LayerStep;
    if lo == hi {
      EmptySegment(m, mem, lo, toks, pos, xs);
    } else {
      BatchIsTokenwise(m, mem, lo, hi - 1, toks, pos, xs);
      RunOneLayerMore(m, mem, lo, hi - 1, toks, pos, xs);
    }
  }

  lemma {:induction false} EmptySegment(m: Model, mem: Mem, lo: nat, toks: seq<Token>, pos: nat, xs: seq<Vec>)
    requires m.Valid() && m.Fits(mem) && lo <= m.layers
    requires pos + |toks| <= m.maxSeq && |xs| == |toks|
    ensures SegRun(m, mem, lo, lo, toks, pos, xs) == OutSeq(mem, xs)
    decreases |toks|
  {
    if toks != [] {
      var n := |toks| - 1;
      EmptySegment(m, mem, lo, toks[..n], pos, xs[..n]);
      assert xs[..n] + [xs[n]] == xs;
    }
  }

  // ----- memories that agree on the rows a token can see -----

  ghost predicate Agree(m: Model, a: Mem, b: Mem, lo: nat, hi: nat, n: nat)
    requires m.Fits(a) && m.Fits(b) && hi <= m.layers && n <= m.maxSeq
  {
    forall l, p :: lo <= l < hi && m.kind(l).OwnKv? && 0 <= p < n ==> a[l][p] == b[l][p]
  }

  /** What a layer computes depends only on the rows it may see. */
  lemma {:induction false} LayerStepAgree(m: Model, a: Mem, b: Mem, lo: nat, l: nat, tok: Token, pos: nat, x: Vec)
    requires m.Valid() && m.Fits(a) && m.Fits(b) && lo <= l < m.layers && pos < m.maxSeq
    requires m.Closed(lo, l + 1) && Agree(m, a, b, lo, l, pos + 1) && Agree(m, a, b, l, l + 1, pos)
    ensures
      var oa, ob := LayerStep(m, a, l, tok, pos, x), LayerStep(m, b, l, tok, pos, x);
      oa.x == ob.x && Agree(m, oa.mem, ob.mem, lo, l + 1, pos + 1)
  {
    match m.kind(l)
    case NoKv =>
    case OwnKv =>
      var row := m.project(l, tok, pos, x);
      assert a[l][pos := row][..pos + 1] == b[l][pos := row][..pos + 1];
    case SharedKv(src) =>
      assert a[src][..pos + 1] == b[src][..pos + 1];
  }

  /** What a segment computes depends only on the rows before `pos` of its own layers. */
  lemma {:induction false} SegStepAgree(m: Model, a: Mem, b: Mem, lo: nat, hi: nat, tok: Token, pos: nat, x: Vec)
    requires m.Valid() && m.Fits(a) && m.Fits(b) && lo <= hi <= m.layers && pos < m.maxSeq
    requires m.Closed(lo, hi) && Agree(m, a, b, lo, hi, pos)
    ensures
      var oa, ob := SegStep(m, a, lo, hi, tok, pos, x), SegStep(m, b, lo, hi, tok, pos, x);
      oa.x == ob.x && Agree(m, oa.mem, ob.mem, lo, hi, pos + 1)
    decreases hi
  {
    if lo < hi {
      AgreeParts(m, a, b, lo, hi, pos);
      SegStepAgree(m, a, b, lo, hi - 1, tok, pos, x);
      var oa, ob := SegStep(m, a, lo, hi - 1, tok, pos, x), SegStep(m, b, lo, hi - 1, tok, pos, x);
      SegStepFrame(m, a, lo, hi - 1, tok, pos, x);
      SegStepFrame(m, b, lo, hi - 1, tok, pos, x);
      AgreeCopy(m, a, b, oa.mem, ob.mem, hi - 1, pos);
      LayerStepAgree(m, oa.mem, ob.mem, lo, hi - 1, tok, pos, oa.x);
      hide LayerStep, Agree;
    }
  }

  lemma {:induction false} AgreeParts(m: Model, a: Mem, b: Mem, lo: nat, hi: nat, pos: nat)
    requires m.Fits(a) && m.Fits(b) && lo < hi <= m.layers && pos <= m.maxSeq && m.Closed(lo, hi) && Agree(m, a, b, lo, hi, pos)
    ensures Agree(m, a, b, lo, hi - 1, pos) && Agree(m, a, b, hi - 1, hi, pos) && m.Closed(lo, hi - 1)
  {
  }

  lemma {:induction false} AgreeCopy(m: Model, a: Mem, b: Mem, c: Mem, d: Mem, l: nat, pos: nat)
    requires m.Fits(a) && m.Fits(b) && m.Fits(c) && m.Fits(d) && l < m.layers && pos <= m.maxSeq
    requires Agree(m, a, b, l, l + 1, pos) && c[l] == a[l] && d[l] == b[l]
    ensures Agree(m, c, d, l, l + 1, pos)
  {
  }

  // ----- the single-process engine -----

  function Blanks(n: nat): (xs: seq<Vec>)
    ensures |xs| == n && forall i :: 0 <= i < n ==> xs[i] == []
  {
    seq(n, _ => [])
  }

  /** The rows after all layers have seen `toks` at positions `pos, pos+1, ...`. */
  function Full(m: Model, mem: Mem, pos: nat, toks: seq<Token>): (r: Mem)
    requires m.Valid() && m.Fits(mem) && pos + |toks| <= m.maxSeq
    ensures m.Fits(r)
    decreases |toks|
  {
    if toks == [] then mem
    else
      var n := |toks| - 1;
      SegStep(m, Full(m, mem, pos, toks[..n]), 0, m.layers, toks[n], pos + n, []).mem
  }

  /** The activation of one token at `pos`, after layers `[0, cut)`. */
  function StageX(m: Model, mem: Mem, cut: nat, tok: Token, pos: nat): (x: Vec)
    requires m.Valid() && m.Fits(mem) && cut <= m.layers && pos < m.maxSeq
  {
    SegStep(m, mem, 0, cut, tok, pos, []).x
  }

  /** The activations of `toks` in the single-process run, after layers `[0, cut)`. */
  function StageXs(m: Model, mem: Mem, cut: nat, toks: seq<Token>, pos: nat): (xs: seq<Vec>)
    requires m.Valid() && m.Fits(mem) && cut <= m.layers && pos + |toks| <= m.maxSeq
    ensures |xs| == |toks|
    decreases |toks|
  {
    if toks == [] then []
    else
      var n := |toks| - 1;
      StageXs(m, mem, cut, toks[..n], pos)
      + [StageX(m, Full(m, mem, pos, toks[..n]), cut, toks[n], pos + n)]
  }

  /** The logits of the last token of a non-empty run. */
  function Logits(m: Model, mem: Mem, pos: nat, toks: seq<Token>): (x: Vec)
    requires m.Valid() && m.Fits(mem) && pos + |toks| <= m.maxSeq && toks != []
  {
    var n := |toks| - 1;
    StageX(m, Full(m, mem, pos, toks[..n]), m.layers, toks[n], pos + n)
  }

  lemma {:induction false} FullEmpty(m: Model, mem: Mem, pos: nat)
    requires m.Valid() && m.Fits(mem) && pos <= m.maxSeq
    ensures Full(m, mem, pos, []) == mem
  {
  }

  lemma {:induction false} FullAppend(m: Model, mem: Mem, pos: nat, a: seq<Token>, b: seq<Token>)
    requires m.Valid() && m.Fits(mem) && pos + |a| + |b| <= m.maxSeq
    ensures Full(m, mem, pos, a + b) == Full(m, Full(m, mem, pos, a), pos + |a|, b)
    decreases |b|
  {
    if b == [] {
      assert a + b == a;
    } else {
      var n := |b| - 1;
      FullAppend(m, mem, pos, a, b[..n]);
      assert (a + b)[..|a| + n] == a + b[..n];
    }
  }

  lemma {:induction false} FullFrame(m: Model, mem: Mem, pos: nat, toks: seq<Token>)
    requires m.Valid() && m.Fits(mem) && pos + |toks| <= m.maxSeq
    ensures forall l, p :: 0 <= l < m.layers && 0 <= p < pos ==> Full(m, mem, pos, toks)[l][p] == mem[l][p]
    decreases |toks|
  {
    if toks != [] {
      var n := |toks| - 1;
      FullFrame(m, mem, pos, toks[..n]);
      SegStepFrame(m, Full(m, mem, pos, toks[..n]), 0, m.layers, toks[n], pos + n, []);
    }
  }

  /** One token through a segment whose rows agree with the single-process memory `f`. */
  lemma {:induction false} StageStep(m: Model, a: Mem, f: Mem, lo: nat, hi: nat, tok: Token, pos: nat)
    requires m.Valid() && m.Fits(a) && m.Fits(f) && lo <= hi <= m.layers && pos < m.maxSeq
    requires m.Closed(lo, hi) && Agree(m, a, f, lo, hi, pos)
    ensures
      var o := SegStep(m, a, lo, hi, tok, pos, StageX(m, f, lo, tok, pos));
      && o.x == StageX(m, f, hi, tok, pos)
      && Agree(m, o.mem, SegStep(m, f, 0, m.layers, tok, pos, []).mem, lo, hi, pos + 1)
  {
    var below := SegStep(m, f, 0, lo, tok, pos, []);
    SegStepFrame(m, f, 0, lo, tok, pos, []);
    SegStepAgree(m, a, below.mem, lo, hi, tok, pos, below.x);
    SegStepCompose(m, f, 0, lo, hi, tok, pos, []);
    SegStepCompose(m, f, 0, hi, m.layers, tok, pos, []);
    var upto := SegStep(m, f, 0, hi, tok, pos, []);
    SegStepFrame(m, upto.mem, hi, m.layers, tok, pos, upto.x);
  }

  /** A segment whose rows agree with the single-process memory `g`, fed the single-process
      activations of its input, produces the single-process activations of its output and
      keeps agreeing. */
  lemma {:induction false} StageAgree(m: Model, a: Mem, g: Mem, lo: nat, hi: nat, toks: seq<Token>, pos: nat)
    requires m.Valid() && m.Fits(a) && m.Fits(g) && lo <= hi <= m.layers && pos + |toks| <= m.maxSeq
    requires m.Closed(lo, hi) && Agree(m, a, g, lo, hi, pos)
    ensures
      var o := SegRun(m, a, lo, hi, toks, pos, StageXs(m, g, lo, toks, pos));
      o.xs == StageXs(m, g, hi, toks, pos) && Agree(m, o.mem, Full(m, g, pos, toks), lo, hi, pos + |toks|)
    decreases |toks|
  {
    hide SegRun, SegStep, LayerStep, Agree, StageX, StageXs, Full;
    if toks == [] {
      StageEmpty(m, a, g, lo, hi, toks, pos);
    } else {
      var n := |toks| - 1;
      var ti, tok, f := toks[..n], toks[n], Full(m, g, pos, toks[..n]);
      StageAgree(m, a, g, lo, hi, ti, pos);
      var r := SegRun(m, a, lo, hi, ti, pos, StageXs(m, g, lo, ti, pos));
      StageLast(m, g, lo, toks, pos);
      StageLast(m, g, hi, toks, pos);
      SegRunLast(m, a, lo, hi, toks, pos, StageXs(m, g, lo, ti, pos), StageX(m, f, lo, tok, pos + n));
      StageStep(m, r.mem, f, lo, hi, tok, pos + n);
    }
  }

  lemma {:induction false} StageEmpty(m: Model, a: Mem, g: Mem, lo: nat, hi: nat, toks: seq<Token>, pos: nat)
    requires m.Valid() && m.Fits(a) && m.Fits(g) && lo <= hi <= m.layers && pos <= m.maxSeq && toks == []
    ensures SegRun(m, a, lo, hi, toks, pos, StageXs(m, g, lo, toks, pos)) == OutSeq(a, StageXs(m, g, hi, toks, pos))
    ensures Full(m, g, pos, toks) == g
  {
  }

  lemma {:induction false} StageLast(m: Model, g: Mem, l: nat, toks: seq<Token>, pos: nat)
    requires m.Valid() && m.Fits(g) && l <= m.layers && pos + |toks| <= m.maxSeq && toks != []
    ensures
      var n := |toks| - 1;
      var f := Full(m, g, pos, toks[..n]);
      && StageXs(m, g, l, toks, pos) == StageXs(m, g, l, toks[..n], pos) + [StageX(m, f, l, toks[n], pos + n)]
      && Full(m, g, pos, toks) == SegStep(m, f, 0, m.layers, toks[n], pos + n, []).mem
  {
    hide SegStep, StageX;
  }

  lemma {:induction false} SegRunLast(m: Model, mem: Mem, lo: nat, hi: nat, toks: seq<Token>, pos: nat, xs: seq<Vec>, x: Vec)
    requires m.Valid() && m.Fits(mem) && lo <= hi <= m.layers
    requires pos + |toks| <= m.maxSeq && |xs| + 1 == |toks|
    ensures
      var n := |xs|;
      var r := SegRun(m, mem, lo, hi, toks[..n], pos, xs);
      var o := SegStep(m, r.mem, lo, hi, toks[n], pos + n, x);
      SegRun(m, mem, lo, hi, toks, pos, xs + [x]) == OutSeq(o.mem, r.xs + [o.x])
  {
    assert (xs + [x])[..|xs|] == xs;
  }

  lemma {:induction false} StageXsBlank(m: Model, mem: Mem, toks: seq<Token>, pos: nat)
    requires m.Valid() && m.Fits(mem) && pos + |toks| <= m.maxSeq
    ensures StageXs(m, mem, 0, toks, pos) == Blanks(|toks|)
    decreases |toks|
  {
    if toks != [] {
      StageXsBlank(m, mem, toks[..|toks| - 1], pos);
    }
  }

  /** Two memories that agree before `pos` run alike from `pos` on: same rows, same logits. */
  lemma {:induction false} FullAgree(m: Model, a: Mem, g: Mem, toks: seq<Token>, pos: nat)
    requires m.Valid() && m.Fits(a) && m.Fits(g) && pos + |toks| <= m.maxSeq
    requires Agree(m, a, g, 0, m.layers, pos)
    ensures Agree(m, Full(m, a, pos, toks), Full(m, g, pos, toks), 0, m.layers, pos + |toks|)
    ensures toks != [] ==> Logits(m, a, pos, toks) == Logits(m, g, pos, toks)
    decreases |toks|
  {
    if toks != [] {
      var n := |toks| - 1;
      FullAgree(m, a, g, toks[..n], pos);
      SegStepAgree(m, Full(m, a, pos, toks[..n]), Full(m, g, pos, toks[..n]), 0, m.layers, toks[n], pos + n, []);
    }
  }

  /** Running all layers token by token is the single-process run. */
  lemma {:induction false} SegRunIsFull(m: Model, mem: Mem, toks: seq<Token>, pos: nat)
    requires m.Valid() && m.Fits(mem) && pos + |toks| <= m.maxSeq
    ensures
      var o := SegRun(m, mem, 0, m.layers, toks, pos, Blanks(|toks|));
      o.mem == Full(m, mem, pos, toks) && o.xs == StageXs(m, mem, m.layers, toks, pos)
    decreases |toks|
  {
    if toks != [] {
      var n := |toks| - 1;
      SegRunIsFull(m, mem, toks[..n], pos);
      assert Blanks(|toks|)[..n] == Blanks(n);
    }
  }

  lemma {:induction false} LogitsAt(m: Model, mem: Mem, pos: nat, toks: seq<Token>, f: Mem, tok: Token)
    requires m.Valid() && m.Fits(mem) && pos + |toks| <= m.maxSeq && toks != []
    requires f == Full(m, mem, pos, toks[..|toks| - 1]) && tok == toks[|toks| - 1]
    ensures m.Fits(f) && Logits(m, mem, pos, toks) == StageX(m, f, m.layers, tok, pos + |toks| - 1)
  {
  }

  lemma {:induction false} LogitsAppend(m: Model, mem: Mem, pos: nat, a: seq<Token>, b: seq<Token>)
    requires m.Valid() && m.Fits(mem) && pos + |a| + |b| <= m.maxSeq && b != []
    ensures Logits(m, mem, pos, a + b) == Logits(m, Full(m, mem, pos, a), pos + |a|, b)
  {
    hide Logits, Full, StageX;
    var n := |b| - 1;
    var f := Full(m, mem, pos, a + b[..n]);
    FullAppend(m, mem, pos, a, b[..n]);
    LogitsAt(m, Full(m, mem, pos, a), pos + |a|, b, f, b[n]);
    var t := a + b;
    assert t[..|t| - 1] == a + b[..n];
    LogitsAt(m, mem, pos, t, f, b[n]);
  }

  // ----- rows as a function of tokens -----

  function Fresh(m: Model): (mem: Mem)
    ensures m.Fits(mem)
  {
    seq(m.layers, _ => seq(m.maxSeq, _ => []))
  }

  /** Rows `[0, |toks|)` of `mem` are those a prefill of `toks` into an empty cache writes. */
  ghost predicate Holds(m: Model, mem: Mem, toks: seq<Token>)
    requires m.Valid() && m.Fits(mem)
  {
    |toks| <= m.maxSeq && Agree(m, mem, Full(m, Fresh(m), 0, toks), 0, m.layers, |toks|)
  }

  lemma {:induction false} HoldsPrefix(m: Model, mem: Mem, toks: seq<Token>, n: nat)
    requires m.Valid() && m.Fits(mem) && Holds(m, mem, toks) && n <= |toks|
    ensures Holds(m, mem, toks[..n])
  {
    assert toks[..n] + toks[n..] == toks;
    FullAppend(m, Fresh(m), 0, toks[..n], toks[n..]);
    FullFrame(m, Full(m, Fresh(m), 0, toks[..n]), n, toks[n..]);
  }

  /** Continuing from held rows is prefilling from scratch: the rows and the logits of the
      whole token list, whatever lay beyond the held rows. */
  lemma {:induction false} HoldsExtend(m: Model, mem: Mem, toks: seq<Token>, more: seq<Token>)
    requires m.Valid() && m.Fits(mem) && Holds(m, mem, toks) && |toks| + |more| <= m.maxSeq
    ensures Holds(m, Full(m, mem, |toks|, more), toks + more)
    ensures more != [] ==> Logits(m, mem, |toks|, more) == Logits(m, Fresh(m), 0, toks + more)
  {
    FullAppend(m, Fresh(m), 0, toks, more);
    FullAgree(m, mem, Full(m, Fresh(m), 0, toks), more, |toks|);
    if more != [] {
      LogitsAppend(m, Fresh(m), 0, toks, more);
    }
  }

  /** Rows restored from a copy of the first `|toks|` positions are held as well. */
  lemma {:induction false} HoldsCopy(m: Model, a: Mem, b: Mem, toks: seq<Token>)
    requires m.Valid() && m.Fits(a) && m.Fits(b) && Holds(m, a, toks)
    requires Agree(m, b, a, 0, m.layers, |toks|)
    ensures Holds(m, b, toks)
  {
  }
}
