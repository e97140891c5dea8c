/**
  The single-process generation loop of a rank (serve/rank.c, the tail of
  `handle_infer_cache`; inference/core/engine.c, `engine_forward_prefill`): prefill the
  prompt, sample and forward until eos or a limit, then write the eos row.
*/
module Generation {
  import opened Engine

  type Rng = nat

  /** What one request fixes: the model, the eos token, the token limit and the sampler. */
  datatype Gen = Gen(m: Model, eos: Token, ntokens: nat, sample: (Rng, Vec) -> (Rng, Token))

  /** The loop's variables; `out` are the tokens sent to the client. */
  datatype Run = Run(mem: Mem, logits: Vec, rng: Rng, pos: nat, out: seq<Token>)

  ghost predicate Fine(g: Gen, r: Run) {
    g.m.Valid() && g.m.Fits(r.mem) && r.pos <= g.m.maxSeq
  }

  /** Feed tokens at the current position. */
  function Feed(g: Gen, r: Run, toks: seq<Token>): (r': Run)
    requires Fine(g, r) && toks != [] && r.pos + |toks| <= g.m.maxSeq
    ensures Fine(g, r') && r'.pos == r.pos + |toks|
  {
    r.(mem := Full(g.m, r.mem, r.pos, toks), logits := Logits(g.m, r.mem, r.pos, toks), pos := r.pos + |toks|)
  }

  function Decode(g: Gen, r: Run, i: nat): (r': Run)
    requires Fine(g, r) && i <= g.ntokens
    ensures Fine(g, r') && r.out <= r'.out && |r'.out| <= |r.out| + g.ntokens - i
    ensures r'.pos - r.pos == |r'.out| - |r.out|
    decreases g.ntokens - i
  {
    if i == g.ntokens || r.pos >= g.m.maxSeq then r
    else
      var (rng, tok) := g.sample(r.rng, r.logits);
      if tok == g.eos then r.(rng := rng)
      else Decode(g, Feed(g, r.(rng := rng, out := r.out + [tok]), [tok]), i + 1)
  }

  function Finish(g: Gen, r: Run): (r': Run)
    requires Fine(g, r)
    ensures Fine(g, r') && r'.out == r.out
    ensures r'.pos == if r.pos < g.m.maxSeq then r.pos + 1 else r.pos
  {
    if r.pos < g.m.maxSeq then Feed(g, r, [g.eos]) else r
  }

  function Local(g: Gen, mem: Mem, start: nat, prompt: seq<Token>, seed: Rng): (r: Run)
    requires g.m.Valid() && g.m.Fits(mem) && prompt != [] && start + |prompt| <= g.m.maxSeq
    ensures Fine(g, r)
  {
    Finish(g, Decode(g, Feed(g, Run(mem, [], seed, start, []), prompt), 0))
  }

  // ----- the tokens the loop has put into the rows -----

  /** Prompt, answer and, when there is room, the eos row: what the rows hold afterwards. */
  function Fed(g: Gen, prompt: seq<Token>, r: Run): (ts: seq<Token>) {
    prompt + r.out + if r.pos > |prompt| + |r.out| then [g.eos] else []
  }

  /** Runs that differ only beyond the visible rows emit the same tokens. */
  ghost predicate Alike(g: Gen, a: Run, b: Run)
    requires Fine(g, a) && Fine(g, b)
  {
    && a.logits == b.logits && a.rng == b.rng && a.pos == b.pos && a.out == b.out
    && Agree(g.m, a.mem, b.mem, 0, g.m.layers, a.pos)
  }

  lemma {:induction false} FeedAlike(g: Gen, a: Run, b: Run, toks: seq<Token>)
    requires Fine(g, a) && Fine(g, b) && a.pos == b.pos && a.rng == b.rng && a.out == b.out
    requires Agree(g.m, a.mem, b.mem, 0, g.m.layers, a.pos)
    requires toks != [] && a.pos + |toks| <= g.m.maxSeq
    ensures Alike(g, Feed(g, a, toks), Feed(g, b, toks))
  {
    FullAgree(g.m, a.mem, b.mem, toks, a.pos);
  }

  lemma {:induction false} DecodeAlike(g: Gen, a: Run, b: Run, i: nat)
    requires Fine(g, a) && Fine(g, b) && Alike(g, a, b) && i <= g.ntokens
    ensures Alike(g, Decode(g, a, i), Decode(g, b, i))
    decreases g.ntokens - i
  {
    if i < g.ntokens && a.pos < g.m.maxSeq {
      var (rng, tok) := g.sample(a.rng, a.logits);
      if tok != g.eos {
        var a1, b1 := a.(rng := rng, out := a.out + [tok]), b.(rng := rng, out := b.out + [tok]);
        FeedAlike(g, a1, b1, [tok]);
        DecodeAlike(g, Feed(g, a1, [tok]), Feed(g, b1, [tok]), i + 1);
      }
    }
  }

  /** The whole answer depends only on the rows before `start`. */
  lemma {:induction false} LocalAlike(g: Gen, a: Mem, b: Mem, start: nat, prompt: seq<Token>, seed: Rng)
    requires g.m.Valid() && g.m.Fits(a) && g.m.Fits(b) && prompt != [] && start + |prompt| <= g.m.maxSeq
    requires Agree(g.m, a, b, 0, g.m.layers, start)
    ensures
      var ra, rb := Local(g, a, start, prompt, seed), Local(g, b, start, prompt, seed);
      Alike(g, ra, rb)
  {
    var ra, rb := Run(a, [], seed, start, []), Run(b, [], seed, start, []);
    FeedAlike(g, ra, rb, prompt);
    var pa, pb := Feed(g, ra, prompt), Feed(g, rb, prompt);
    DecodeAlike(g, pa, pb, 0);
    var da, db := Decode(g, pa, 0), Decode(g, pb, 0);
    if da.pos < g.m.maxSeq {
      FeedAlike(g, da, db, [g.eos]);
    }
  }

  /** Answering from cached rows is answering the whole prompt from an empty cache: same
      tokens, same final position. */
  lemma {:induction false} ContinuationIsFromScratch(g: Gen, mem: Mem, held: seq<Token>, delta: seq<Token>, seed: Rng)
    requires g.m.Valid() && g.m.Fits(mem) && Holds(g.m, mem, held)
    requires delta != [] && |held| + |delta| <= g.m.maxSeq
    ensures
      var c := Local(g, mem, |held|, delta, seed);
      var s := Local(g, Fresh(g.m), 0, held + delta, seed);
      Alike(g, c, s)
  {
    hide Full, Logits, SegStep, Decode;
    LocalAlike(g, mem, Full(g.m, Fresh(g.m), 0, held), |held|, delta, seed);
    FullAppend(g.m, Fresh(g.m), 0, held, delta);
    LogitsAppend(g.m, Fresh(g.m), 0, held, delta);
  }

  /** Rows after decoding hold the tokens fed so far. */
  lemma {:induction false} DecodeHolds(g: Gen, r: Run, i: nat, ts: seq<Token>)
    requires Fine(g, r) && i <= g.ntokens && |ts| == r.pos && Holds(g.m, r.mem, ts)
    ensures
      var d := Decode(g, r, i);
      Holds(g.m, d.mem, ts + d.out[|r.out|..])
    decreases g.ntokens - i
  {
    hide Full, Logits, SegStep;
    var d := Decode(g, r, i);
    if i < g.ntokens && r.pos < g.m.maxSeq && g.sample(r.rng, r.logits).1 != g.eos {
      var (rng, tok) := g.sample(r.rng, r.logits);
      var n := Feed(g, r.(rng := rng, out := r.out + [tok]), [tok]);
      HoldsExtend(g.m, r.mem, ts, [tok]);
      DecodeHolds(g, n, i + 1, ts + [tok]);
      assert ts + [tok] + d.out[|r.out| + 1..] == ts + d.out[|r.out|..];
    } else {
      assert ts + d.out[|r.out|..] == ts;
    }
  }

  /** After a request the rows hold prompt, answer and eos, exactly as many as `pos` says. */
  lemma {:induction false} LocalHolds(g: Gen, mem: Mem, held: seq<Token>, delta: seq<Token>, seed: Rng)
    requires g.m.Valid() && g.m.Fits(mem) && Holds(g.m, mem, held)
    requires delta != [] && |held| + |delta| <= g.m.maxSeq
    ensures
      var r := Local(g, mem, |held|, delta, seed);
      Holds(g.m, r.mem, Fed(g, held + delta, r)) && |Fed(g, held + delta, r)| == r.pos
  {
    hide Full, Logits, SegStep, Decode;
    var p := Feed(g, Run(mem, [], seed, |held|, []), delta);
    HoldsExtend(g.m, mem, held, delta);
    DecodeHolds(g, p, 0, held + delta);
    var d := Decode(g, p, 0);
    assert d.out[0..] == d.out;
    var r := Finish(g, d);
    if d.pos < g.m.maxSeq {
      HoldsExtend(g.m, d.mem, held + delta + d.out, [g.eos]);
    } else {
      assert held + delta + d.out + [] == held + delta + d.out;
    }
  }

  // ----- the answer, said without the loop -----

  /** What is sampled behind the tokens `ts`. */
  function Draw(g: Gen, ts: seq<Token>, rng: Rng): (r: (Rng, Token))
    requires g.m.Valid() && ts != [] && |ts| <= g.m.maxSeq
  {
    g.sample(rng, Logits(g.m, Fresh(g.m), 0, ts))
  }

  /** The sampler's state once it has drawn the tokens `out` behind `ts`. */
  function RngAfter(g: Gen, ts: seq<Token>, out: seq<Token>, seed: Rng): (rng: Rng)
    requires g.m.Valid() && ts != [] && |ts| + |out| <= g.m.maxSeq + 1
  {
    if out == [] then seed
    else
      var front := out[..|out| - 1];
      Draw(g, ts + front, RngAfter(g, ts, front, seed)).0
  }

  /** The next token drawn behind `ts` and the answer so far. */
  function NextToken(g: Gen, ts: seq<Token>, out: seq<Token>, seed: Rng): (tok: Token)
    requires g.m.Valid() && ts != [] && |ts| + |out| <= g.m.maxSeq
  {
    Draw(g, ts + out, RngAfter(g, ts, out, seed)).1
  }

  /** `out` answers `ts`: every token is the one drawn behind the prompt and the tokens before it and is not eos, and
      the answer ends only at the token limit, at the end of the sequence, or in front of an eos. */
  ghost predicate Answers(g: Gen, ts: seq<Token>, out: seq<Token>, seed: Rng)
    requires g.m.Valid() && ts != []
  {
    && |out| <= g.ntokens && |ts| + |out| <= g.m.maxSeq
    && (forall k :: 0 <= k < |out| ==> out[k] == NextToken(g, ts, out[..k], seed) != g.eos)
    && (|out| == g.ntokens || |ts| + |out| == g.m.maxSeq || NextToken(g, ts, out, seed) == g.eos)
  }

  /** There is one answer only. */
  lemma {:induction false} OneAnswer(g: Gen, ts: seq<Token>, a: seq<Token>, b: seq<Token>, seed: Rng, k: nat)
    requires g.m.Valid() && ts != [] && Answers(g, ts, a, seed) && Answers(g, ts, b, seed) && k <= |a| <= |b|
    ensures a[..k] == b[..k] && (k == |a| ==> a == b)
  {
    hide NextToken;
    if k > 0 {
      OneAnswer(g, ts, a, b, seed, k - 1);
    }
    if k == |a| {
      assert a == b[..k];
    }
  }

  /** The rows hold the prompt `ts` and the answer so far. */
  ghost predicate RowsDrawn(g: Gen, r: Run, ts: seq<Token>)
    requires Fine(g, r) && ts != []
  {
    && r.pos == |ts| + |r.out|
    && r.mem == Full(g.m, Fresh(g.m), 0, ts + r.out) && r.logits == Logits(g.m, Fresh(g.m), 0, ts + r.out)
  }

  /** The tokens `out` are what is drawn behind `ts`, which leaves the sampler at `rng`. */
  ghost predicate TokensDrawn(g: Gen, ts: seq<Token>, out: seq<Token>, rng: Rng, seed: Rng)
    requires g.m.Valid() && ts != []
  {
    && |out| <= g.ntokens && |ts| + |out| <= g.m.maxSeq && rng == RngAfter(g, ts, out, seed)
    && forall k :: 0 <= k < |out| ==> out[k] == NextToken(g, ts, out[..k], seed) != g.eos
  }

  ghost predicate Drawn(g: Gen, r: Run, ts: seq<Token>, seed: Rng)
    requires Fine(g, r) && ts != []
  {
    RowsDrawn(g, r, ts) && TokensDrawn(g, ts, r.out, r.rng, seed)
  }

  /** The loop after one more token. */
  function After(g: Gen, r: Run): (r': Run)
    requires Fine(g, r) && r.pos < g.m.maxSeq
    ensures Fine(g, r')
  {
    var (rng, tok) := g.sample(r.rng, r.logits);
    Run(Full(g.m, r.mem, r.pos, [tok]), Logits(g.m, r.mem, r.pos, [tok]), rng, r.pos + 1, r.out + [tok])
  }

  lemma {:induction false} AnswerEnds(g: Gen, r: Run, ts: seq<Token>, seed: Rng)
    requires Fine(g, r) && ts != [] && Drawn(g, r, ts, seed)
    requires |r.out| == g.ntokens || r.pos >= g.m.maxSeq || g.sample(r.rng, r.logits).1 == g.eos
    ensures Answers(g, ts, r.out, seed)
  {
    hide Full, Logits, Fresh, RngAfter;
  }

  lemma {:induction false} RowsMore(g: Gen, r: Run, ts: seq<Token>)
    requires Fine(g, r) && ts != [] && RowsDrawn(g, r, ts) && r.pos < g.m.maxSeq
    ensures RowsDrawn(g, After(g, r), ts)
  {
    hide Full, Logits, Fresh;
    var tok := g.sample(r.rng, r.logits).1;
    FullAppend(g.m, Fresh(g.m), 0, ts + r.out, [tok]);
    LogitsAppend(g.m, Fresh(g.m), 0, ts + r.out, [tok]);
    assert ts + r.out + [tok] == ts + After(g, r).out;
  }

  lemma {:induction false} TokensMore(g: Gen, ts: seq<Token>, out: seq<Token>, rng: Rng, seed: Rng)
    requires g.m.Valid() && ts != [] && TokensDrawn(g, ts, out, rng, seed)
    requires |out| < g.ntokens && |ts| + |out| < g.m.maxSeq && Draw(g, ts + out, rng).1 != g.eos
    ensures TokensDrawn(g, ts, out + [Draw(g, ts + out, rng).1], Draw(g, ts + out, rng).0, seed)
  {
    hide Draw;
    var more := out + [Draw(g, ts + out, rng).1];
    assert more[..|out|] == out;
    forall k | 0 <= k < |more|
      ensures more[k] == NextToken(g, ts, more[..k], seed) != g.eos
    {
      assert more[..k] == out[..k];
    }
  }

  lemma {:induction false} DrawnMore(g: Gen, r: Run, ts: seq<Token>, seed: Rng)
    requires Fine(g, r) && ts != [] && Drawn(g, r, ts, seed) && |r.out| < g.ntokens && r.pos < g.m.maxSeq
    requires g.sample(r.rng, r.logits).1 != g.eos
    ensures Drawn(g, After(g, r), ts, seed) && |After(g, r).out| == |r.out| + 1
    ensures Decode(g, r, |r.out|) == Decode(g, After(g, r), |r.out| + 1)
  {
    hide Decode, Full, Logits, Fresh, RowsDrawn, TokensDrawn, Draw;
    DrawnIs(g, r, ts, seed);
    RowsMore(g, r, ts);
    TokensMore(g, ts, r.out, r.rng, seed);
    DecodeTurn(g, r, |r.out|);
  }

  lemma {:induction false} DrawnIs(g: Gen, r: Run, ts: seq<Token>, seed: Rng)
    requires Fine(g, r) && ts != [] && Drawn(g, r, ts, seed)
    ensures RowsDrawn(g, r, ts) && TokensDrawn(g, ts, r.out, r.rng, seed) && r.pos == |ts| + |r.out|
    ensures Draw(g, ts + r.out, r.rng) == g.sample(r.rng, r.logits)
  {
    hide Full, Logits, Fresh, RngAfter, NextToken;
  }

  /** The decode loop, from rows that hold prompt and answer so far, completes the answer. */
  lemma {:induction false} DecodeAnswers(g: Gen, r: Run, i: nat, ts: seq<Token>, seed: Rng)
    requires Fine(g, r) && i == |r.out| <= g.ntokens && ts != [] && Drawn(g, r, ts, seed)
    ensures Answers(g, ts, Decode(g, r, i).out, seed)
    decreases g.ntokens - i
  {
    hide *;
    if i < g.ntokens && r.pos < g.m.maxSeq {
      DecodeTurn(g, r, i);
      if g.sample(r.rng, r.logits).1 == g.eos {
        AnswerEnds(g, r, ts, seed);
      } else {
        DrawnMore(g, r, ts, seed);
        DecodeAnswers(g, After(g, r), i + 1, ts, seed);
      }
    } else {
      DecodeOver(g, r, i);
      AnswerEnds(g, r, ts, seed);
    }
  }

  /** Whatever rows are continued from: a request's tokens are the answer to the whole list, and behind them stands
      one eos row where there is room for it. */
  lemma {:induction false} LocalAnswers(g: Gen, mem: Mem, held: seq<Token>, delta: seq<Token>, seed: Rng)
    requires g.m.Valid() && g.m.Fits(mem) && Holds(g.m, mem, held)
    requires delta != [] && |held| + |delta| <= g.m.maxSeq
    ensures
      var r := Local(g, mem, |held|, delta, seed);
      var n := |held| + |delta| + |r.out|;
      Answers(g, held + delta, r.out, seed) && r.pos == if n < g.m.maxSeq then n + 1 else n
  {
    ContinuationIsFromScratch(g, mem, held, delta, seed);
    hide Full, Logits, SegStep, Decode, Fresh, Answers;
    var p := Feed(g, Run(Fresh(g.m), [], seed, 0, []), held + delta);
    assert held + delta + [] == held + delta;
    DecodeAnswers(g, p, 0, held + delta, seed);
  }

  // ----- the loops as the code runs them -----

  /** `engine_forward_prefill`: batches of at most `cap` tokens, a short batch token by
      token, the head only on the last token. */
  method ForwardPrefill(m: Model, mem0: Mem, toks: seq<Token>, start: nat, cap: nat, batchMin: nat)
    returns (mem: Mem, logits: Vec)
    requires m.Valid() && m.Fits(mem0) && toks != [] && start + |toks| <= m.maxSeq && cap > 0
    ensures m.Fits(mem) && mem == Full(m, mem0, start, toks) && logits == Logits(m, mem0, start, toks)
  {
    hide *;
    FullEmpty(m, mem0, start);
    assert toks[..0] == [];
    mem, logits := mem0, [];
    var off := 0;
    while off < |toks|
      invariant 0 <= off <= |toks| && m.Fits(mem)
      invariant mem == Full(m, mem0, start, toks[..off])
      invariant off == |toks| ==> logits == Logits(m, mem0, start, toks)
      decreases |toks| - off
    {
      var nb := if |toks| - off > cap then cap else |toks| - off;
      var x;
      PrefillStep(m, mem0, start, toks, off, nb);
      mem, x := ForwardBatch(m, mem, toks[off..off + nb], start + off, batchMin);
      if off + nb == |toks| {
        logits := x;
      }
      off := off + nb;
    }
    assert toks[..off] == toks;
  }

  lemma {:induction false} PrefillStep(m: Model, mem0: Mem, start: nat, toks: seq<Token>, off: nat, nb: nat)
    requires m.Valid() && m.Fits(mem0) && start + |toks| <= m.maxSeq && 0 < nb && off + nb <= |toks|
    ensures
      var mem := Full(m, mem0, start, toks[..off]);
      && Full(m, mem0, start, toks[..off + nb]) == Full(m, mem, start + off, toks[off..off + nb])
      && (off + nb == |toks| ==> Logits(m, mem0, start, toks) == Logits(m, mem, start + off, toks[off..off + nb]))
  {
    hide Full, Logits;
    assert toks[..off] + toks[off..off + nb] == toks[..off + nb];
    FullAppend(m, mem0, start, toks[..off], toks[off..off + nb]);
    if off + nb == |toks| {
      assert toks[..off] + toks[off..off + nb] == toks;
      LogitsAppend(m, mem0, start, toks[..off], toks[off..off + nb]);
    }
  }

  /** One batch of the prefill: layer by layer, or token by token when it is short. */
  method ForwardBatch(m: Model, mem0: Mem, toks: seq<Token>, pos: nat, batchMin: nat) returns (mem: Mem, x: Vec)
    requires m.Valid() && m.Fits(mem0) && toks != [] && pos + |toks| <= m.maxSeq
    ensures m.Fits(mem) && mem == Full(m, mem0, pos, toks) && x == Logits(m, mem0, pos, toks)
  {
    if |toks| < batchMin {
      mem, x := ForwardEach(m, mem0, toks, pos);
    } else {
      hide SegStep, SegRun, BatchRun;
      var o := BatchRun(m, mem0, 0, m.layers, toks, pos, Blanks(|toks|));
      BatchIsTokenwise(m, mem0, 0, m.layers, toks, pos, Blanks(|toks|));
      SegRunIsFull(m, mem0, toks, pos);
      LastStage(m, mem0, toks, pos);
      mem, x := o.mem, o.xs[|toks| - 1];
    }
  }

  lemma {:induction false} LastStage(m: Model, mem: Mem, toks: seq<Token>, pos: nat)
    requires m.Valid() && m.Fits(mem) && toks != [] && pos + |toks| <= m.maxSeq
    ensures StageXs(m, mem, m.layers, toks, pos)[|toks| - 1] == Logits(m, mem, pos, toks)
  {
  }

  /** `engine_forward` on each token of a short batch. */
  method ForwardEach(m: Model, mem0: Mem, toks: seq<Token>, start: nat) returns (mem: Mem, x: Vec)
    requires m.Valid() && m.Fits(mem0) && toks != [] && start + |toks| <= m.maxSeq
    ensures m.Fits(mem) && mem == Full(m, mem0, start, toks) && x == Logits(m, mem0, start, toks)
  {
    mem, x := mem0, [];
    for i := 0 to |toks|
      invariant m.Fits(mem) && mem == Full(m, mem0, start, toks[..i])
      invariant i > 0 ==> x == Logits(m, mem0, start, toks[..i])
    {
      var o := SegStep(m, mem, 0, m.layers, toks[i], start + i, []);
      mem, x := o.mem, o.x;
      assert toks[..i + 1][..i] == toks[..i];
    }
    assert toks[..|toks|] == toks;
  }

  /** The prefill, decode and eos loops of `handle_infer_cache` on one rank. */
  method RunLocal(g: Gen, mem0: Mem, start: nat, prompt: seq<Token>, seed: Rng, cap: nat, batchMin: nat)
    returns (mem: Mem, pos: nat, out: seq<Token>)
    requires g.m.Valid() && g.m.Fits(mem0) && prompt != [] && start + |prompt| <= g.m.maxSeq && cap > 0
    ensures
      var r := Local(g, mem0, start, prompt, seed);
      mem == r.mem && pos == r.pos && out == r.out
  {
    hide Full, Logits, SegStep, Decode;
    ghost var p := Feed(g, Run(mem0, [], seed, start, []), prompt);
    var logits;
    mem, logits := ForwardPrefill(g.m, mem0, prompt, start, cap, batchMin);
    pos := start + |prompt|;
    var rng, i, stop := seed, 0, false;
    out := [];
    while i < g.ntokens && pos < g.m.maxSeq && !stop
      invariant 0 <= i <= g.ntokens && g.m.Fits(mem) && pos <= g.m.maxSeq
      invariant !stop ==> Decode(g, p, 0) == Decode(g, Run(mem, logits, rng, pos, out), i)
      invariant stop ==> Decode(g, p, 0) == Run(mem, logits, rng, pos, out)
      decreases g.ntokens - i, if stop then 0 else 1
    {
      DecodeTurn(g, Run(mem, logits, rng, pos, out), i);
      var (rng', tok) := g.sample(rng, logits);
      rng := rng';
      if tok == g.eos {
        stop := true;
      } else {
        out := out + [tok];
        mem, logits := ForwardEach(g.m, mem, [tok], pos);
        pos := pos + 1;
        i := i + 1;
      }
    }
    if !stop {
      DecodeOver(g, Run(mem, logits, rng, pos, out), i);
    }
    if pos < g.m.maxSeq {
      mem, logits := ForwardEach(g.m, mem, [g.eos], pos);
      pos := pos + 1;
    }
  }

  /** One turn of the decode loop. */
  lemma {:induction false} DecodeTurn(g: Gen, r: Run, i: nat)
    requires Fine(g, r) && i < g.ntokens && r.pos < g.m.maxSeq
    ensures
      var (rng, tok) := g.sample(r.rng, r.logits);
      Decode(g, r, i)
        == if tok == g.eos then r.(rng := rng)
           else Decode(g, Run(Full(g.m, r.mem, r.pos, [tok]), Logits(g.m, r.mem, r.pos, [tok]), rng, r.pos + 1,
                              r.out + [tok]), i + 1)
  {
    hide Full, Logits;
  }

  lemma {:induction false} DecodeOver(g: Gen, r: Run, i: nat)
    requires Fine(g, r) && i <= g.ntokens && (i == g.ntokens || r.pos >= g.m.maxSeq)
    ensures Decode(g, r, i) == r
  {
  }
}
