/**
  Every interleaving of the pipeline refines the single-process loop.  The invariant keeps a
  view of the run: the single-process memory, and at most one unit of work (an activation
  frame or its logits) travelling past the ranks.
*/
module PipelineProof {
  import opened Engine
  import opened Generation
  import opened Pipeline

  /** `gm` is the single-process memory before the unit `toks`, which starts at position
      `base`.  `at` says where the unit is: 2r+1 on the link below rank r, 2r held by rank r,
      2R-1 as logits on the way back, 2R when there is none.  Ranks 1..h have shaken hands,
      ranks 0..d have left. */
  datatype View = View(gm: Mem, base: nat, toks: seq<Token>, at: nat, h: nat, d: int)

  ghost predicate ViewOk(c: Config, v: View) {
    && c.Valid() && c.g.m.Fits(v.gm) && v.base + |v.toks| <= c.g.m.maxSeq
    && (v.toks == [] <==> v.at == 2 * c.ranks) && 1 <= v.at <= 2 * c.ranks
    && v.h < c.ranks && -1 <= v.d < c.ranks
  }

  ghost function After(c: Config, v: View): (mem: Mem)
    requires ViewOk(c, v)
    ensures c.g.m.Fits(mem)
  {
    Full(c.g.m, v.gm, v.base, v.toks)
  }

  /** Rows rank r has written, and the single-process memory they agree with. */
  ghost function Upto(v: View, r: nat): (n: nat) {
    if 2 * r < v.at then v.base + |v.toks| else v.base
  }

  ghost function Seen(c: Config, v: View, r: nat): (mem: Mem)
    requires ViewOk(c, v)
    ensures c.g.m.Fits(mem)
  {
    if 2 * r < v.at then After(c, v) else v.gm
  }

  /** The unit as it enters rank r: the single process's activations at that cut. */
  ghost function Unit(c: Config, v: View, r: nat): (f: Frame)
    requires ViewOk(c, v) && r < c.ranks
  {
    assert c.SegmentOk(r);
    Acts(v.base, v.toks, StageXs(c.g.m, v.gm, c.cut[r], v.toks, v.base))
  }

  ghost predicate LinkIs(c: Config, s: State, v: View, r: nat)
    requires ViewOk(c, v) && |s.links| == c.ranks - 1 && r < c.ranks - 1
  {
    s.links[r] == (if r == v.h && !s.ms.pc.MSess? then [Sess(c.start)] else [])
                  + (if v.at == 2 * r + 1 then [Unit(c, v, r + 1)] else [])
                  + (if r == v.d then [Done] else [])
  }

  ghost predicate RankIs(c: Config, s: State, v: View, r: nat)
    requires ViewOk(c, v) && Shape(c, s) && r < c.ranks
  {
    assert c.SegmentOk(r) && RankOk(c, s.ranks[r]);
    var k := s.ranks[r];
    && !k.failed && (k.exited <==> r <= v.d)
    && (k.work.Shake? <==> r > v.h) && (k.work.Hold? <==> r > 0 && v.at == 2 * r)
    && (k.work.Hold? ==> k.work.f == Unit(c, v, r))
    && k.pos == (if k.work.Shake? then c.have[r] else Upto(v, r))
    && Agree(c.g.m, k.mem, Seen(c, v, r), c.cut[r], c.cut[r + 1], Upto(v, r))
  }

  ghost predicate LogIs(c: Config, s: State, v: View)
    requires ViewOk(c, v)
  {
    && s.log == (if v.at == 2 * c.ranks - 1 then [Logits(c.g.m, v.gm, v.base, v.toks)] else [])
    && s.logSent == s.ms.logRecv + |s.log|
    && s.ms.xSent == s.ms.logRecv + (if v.toks == [] then 0 else 1)
  }

  /** A rank that has not shaken hands has seen no frame; a rank leaves only when no unit
      is under way. */
  ghost predicate FrontIs(c: Config, s: State, v: View) {
    && (v.h < c.ranks - 1 ==> v.base == c.start && (if v.toks == [] then s.ms.xSent == 0 else v.at <= 2 * v.h + 1))
    && (s.ms.pc.MSess? ==> v.h == 0)
    && (s.ms.pc.MSess? || s.ms.pc.MPrefill? || s.ms.xSent > 0)
    && (v.d == -1 <==> !s.ms.pc.MExit?)
    && (v.d >= 0 ==> v.h == c.ranks - 1 && v.toks == [])
  }

  // ----- the single-process run this round is compared with -----

  ghost function Prefilled(c: Config): (r: Run)
    requires c.Valid()
    ensures Fine(c.g, r)
  {
    Feed(c.g, Run(c.mem0, [], c.seed, c.start, []), c.prompt)
  }

  ghost function Decoded(c: Config): (r: Run)
    requires c.Valid()
    ensures Fine(c.g, r)
  {
    Decode(c.g, Prefilled(c), 0)
  }

  ghost function Final(c: Config): (r: Run)
    requires c.Valid()
    ensures Fine(c.g, r)
  {
    Local(c.g, c.mem0, c.start, c.prompt, c.seed)
  }

  ghost predicate At(c: Config, s: State, v: View, r: Run)
    requires ViewOk(c, v)
  {
    r.mem == After(c, v) && r.pos == v.base + |v.toks| && r.out == s.ms.out
  }

  ghost predicate PrefillAt(c: Config, s: State, v: View)
    requires ViewOk(c, v)
  {
    && s.ms.i <= |c.prompt| && v.base + |v.toks| == c.start + s.ms.i
    && After(c, v) == Full(c.g.m, c.mem0, c.start, c.prompt[..s.ms.i])
    && s.ms.k == 0 && s.ms.out == [] && s.ms.rng == c.seed && !s.ms.pend
  }

  ghost predicate MasterIs(c: Config, s: State, v: View)
    requires ViewOk(c, v)
  {
    var ms := s.ms;
    && ms.ok && ms.k <= c.g.ntokens
    && match ms.pc
       case MSess => PrefillAt(c, s, v) && v.toks == [] && ms.i == 0
       case MPrefill => PrefillAt(c, s, v) && v.toks == []
       case MPrefillWait => PrefillAt(c, s, v) && v.toks != []
       case MDecode =>
         && v.toks != [] && (ms.pend <==> ms.k > 0) && (ms.k > 0 ==> c.Room())
         && (ms.k == 0 ==> v.base + |v.toks| == c.start + |c.prompt|)
         && Decoded(c) == Decode(c.g, Run(After(c, v), Logits(c.g.m, v.gm, v.base, v.toks), ms.rng,
                                          v.base + |v.toks|, ms.out), ms.k)
       case MSend(tok) =>
         && v.toks == [] && !ms.pend && c.Room() && v.base < c.g.m.maxSeq && ms.k < c.g.ntokens
         && Decoded(c) == Decode(c.g, Feed(c.g, Run(v.gm, [], ms.rng, v.base, ms.out + [tok]), [tok]), ms.k + 1)
       case MFlush => v.toks != [] && ms.pend && c.Room() && At(c, s, v, Decoded(c))
       case MEos => (v.toks == [] <==> c.Room()) && At(c, s, v, Decoded(c))
       case MEosWait => v.toks != [] && c.Room() && At(c, s, v, Final(c))
       case MDone => (v.toks == [] <==> c.Room()) && At(c, s, v, Final(c))
       case MExit => c.Room() && v.toks == [] && At(c, s, v, Final(c))
  }

  ghost predicate Inv(c: Config, s: State, v: View) {
    && c.Valid() && c.Restored() && Shape(c, s) && ViewOk(c, v)
    && (forall r :: 0 <= r < c.ranks ==> RankIs(c, s, v, r))
    && (forall r :: 0 <= r < c.ranks - 1 ==> LinkIs(c, s, v, r))
    && LogIs(c, s, v) && FrontIs(c, s, v) && MasterIs(c, s, v)
  }

  ghost function InitView(c: Config): (v: View)
    requires c.Valid()
  {
    View(c.mem0, c.start, [], 2 * c.ranks, 0, -1)
  }

  lemma {:induction false} InitInv(c: Config)
    requires c.Valid() && c.Restored()
    ensures Inv(c, Init(c), InitView(c))
  {
    var s, v := Init(c), InitView(c);
    FullEmpty(c.g.m, c.mem0, c.start);
    forall r | 0 <= r < c.ranks
      ensures RankIs(c, s, v, r)
    {
      assert c.SegmentOk(r);
    }
    assert c.prompt[..0] == [];
  }

  // ----- rank 0 sends a unit -----

  ghost predicate Batch(c: Config, v: View, toks: seq<Token>) {
    ViewOk(c, v) && v.toks == [] && toks != [] && v.base + |toks| <= c.g.m.maxSeq
  }

  ghost function SentView(c: Config, v: View, toks: seq<Token>): (v': View)
    requires Batch(c, v, toks)
    ensures ViewOk(c, v')
  {
    v.(toks := toks, at := 1)
  }

  /** A computed stage is the single process's, whichever path computed it. */
  lemma {:induction false} ComputeStage(c: Config, v: View, r: nat, mem: Mem)
    requires ViewOk(c, v) && r < c.ranks && c.g.m.Fits(mem)
    requires c.SegmentOk(r) && Agree(c.g.m, mem, v.gm, c.cut[r], c.cut[r + 1], v.base)
    ensures
      var m := c.g.m;
      var o := Compute(m, mem, c.cut[r], c.cut[r + 1], v.toks, v.base, StageXs(m, v.gm, c.cut[r], v.toks, v.base));
      && o.xs == StageXs(m, v.gm, c.cut[r + 1], v.toks, v.base)
      && Agree(m, o.mem, After(c, v), c.cut[r], c.cut[r + 1], v.base + |v.toks|)
  {
    hide Full, StageXs, SegRun, BatchRun;
    BatchIsTokenwise(c.g.m, mem, c.cut[r], c.cut[r + 1], v.toks, v.base, StageXs(c.g.m, v.gm, c.cut[r], v.toks, v.base));
    StageAgree(c.g.m, mem, v.gm, c.cut[r], c.cut[r + 1], v.toks, v.base);
  }

  /** Nobody has left while rank 0 is still at work. */
  lemma {:induction false} NobodyLeft(c: Config, s: State, v: View, r: nat)
    requires Inv(c, s, v) && r < c.ranks && !s.ms.pc.MExit?
    ensures !s.ranks[r].exited
  {
    assert RankIs(c, s, v, r);
  }

  /** Rank 0's computation and send, for the prompt, a sampled token or eos. */
  lemma {:induction false} SendInv(c: Config, s: State, v: View, toks: seq<Token>)
    requires Inv(c, s, v) && Batch(c, v, toks) && !s.ms.pc.MSess? && !s.ms.pc.MExit?
    requires c.SegmentOk(0) && s.ranks[0].pos == v.base
    ensures
      var t, v' := SendActs(c, s, toks, false), SentView(c, v, toks);
      && t.ms == s.ms.(xSent := s.ms.xSent + 1) && t.log == s.log && t.logSent == s.logSent
      && RanksOk(c, t.ranks) && LinksOk(c, t.links)
      && (forall r :: 1 <= r < c.ranks ==> t.ranks[r] == s.ranks[r])
      && t.ranks[0].pos == v.base + |toks| && !t.ranks[0].exited && !t.ranks[0].failed && t.ranks[0].work.Wait?
      && Agree(c.g.m, t.ranks[0].mem, After(c, v'), c.cut[0], c.cut[1], v.base + |toks|)
      && (forall r :: 1 <= r < c.ranks - 1 ==> t.links[r] == s.links[r])
      && t.links[0] == s.links[0] + [Unit(c, v', 1)]
  {
    hide Full, StageXs, Compute;
    assert RankIs(c, s, v, 0) && c.SegmentOk(0) && RankOk(c, s.ranks[0]);
    FullEmpty(c.g.m, v.gm, v.base);
    SendActsOk(c, s, toks, false);
    var v' := SentView(c, v, toks);
    ComputeStage(c, v', 0, s.ranks[0].mem);
    StageXsBlank(c.g.m, v.gm, toks, v.base);
  }

  /** The parts of the invariant that do not look at rank 0's control state. */
  ghost predicate Core(c: Config, s: State, v: View) {
    && c.Valid() && c.Restored() && Shape(c, s) && ViewOk(c, v)
    && (forall r :: 0 <= r < c.ranks ==> RankIs(c, s, v, r))
    && (forall r :: 0 <= r < c.ranks - 1 ==> LinkIs(c, s, v, r))
    && LogIs(c, s, v) && FrontIs(c, s, v)
  }

  lemma {:induction false} SendCore(c: Config, s: State, v: View, toks: seq<Token>, s': State)
    requires Inv(c, s, v) && Batch(c, v, toks) && !s.ms.pc.MSess? && !s.ms.pc.MExit?
    requires c.SegmentOk(0) && s.ranks[0].pos == v.base
    requires
      var t := SendActs(c, s, toks, false);
      && s'.ranks == t.ranks && s'.links == t.links && s'.log == t.log && s'.logSent == t.logSent
      && s'.ms.xSent == t.ms.xSent && s'.ms.logRecv == t.ms.logRecv
    requires Shape(c, s') && !s'.ms.pc.MSess? && !s'.ms.pc.MExit?
    ensures Core(c, s', SentView(c, v, toks))
  {
    hide Full, StageXs, Compute, SendActs, Logits;
    var v' := SentView(c, v, toks);
    SendInv(c, s, v, toks);
    FullEmpty(c.g.m, v.gm, v.base);
    forall r | 0 <= r < c.ranks
      ensures RankIs(c, s', v', r)
    {
      assert RankIs(c, s, v, r) && c.SegmentOk(r);
    }
    forall r | 0 <= r < c.ranks - 1
      ensures LinkIs(c, s', v', r)
    {
      assert LinkIs(c, s, v, r);
    }
    assert RankIs(c, s, v, 0);
  }

  // ----- rank 0's other steps -----

  ghost function TakenView(c: Config, v: View): (v': View)
    requires ViewOk(c, v)
    ensures ViewOk(c, v')
  {
    View(After(c, v), v.base + |v.toks|, [], 2 * c.ranks, v.h, v.d)
  }

  /** Taking the logits ends the unit. */
  lemma {:induction false} TakeCore(c: Config, s: State, v: View, s': State)
    requires Inv(c, s, v) && s.log != []
    requires s'.ranks == s.ranks && s'.links == s.links && s'.log == s.log[1..] && s'.logSent == s.logSent
    requires s'.ms.xSent == s.ms.xSent && s'.ms.logRecv == s.ms.logRecv + 1
    requires Shape(c, s') && !s.ms.pc.MSess? && !s.ms.pc.MExit? && !s'.ms.pc.MSess? && !s'.ms.pc.MExit?
    requires s.ms.xSent > 0
    ensures Core(c, s', TakenView(c, v))
  {
    hide Full, StageXs, Logits;
    var v' := TakenView(c, v);
    FullEmpty(c.g.m, After(c, v), v'.base);
    forall r | 0 <= r < c.ranks
      ensures RankIs(c, s', v', r)
    {
      assert RankIs(c, s, v, r) && c.SegmentOk(r);
    }
    forall r | 0 <= r < c.ranks - 1
      ensures LinkIs(c, s', v', r)
    {
      assert LinkIs(c, s, v, r);
    }
  }

  /** Steps of rank 0 that only change its own control state. */
  lemma {:induction false} IdleCore(c: Config, s: State, v: View, s': State)
    requires Inv(c, s, v) && Shape(c, s')
    requires s' == s.(ms := s'.ms) && s'.ms.xSent == s.ms.xSent && s'.ms.logRecv == s.ms.logRecv
    requires !s.ms.pc.MSess? && !s.ms.pc.MExit? && !s'.ms.pc.MSess? && !s'.ms.pc.MExit? && s.ms.xSent > 0
    ensures Core(c, s', v)
  {
    hide Full, StageXs, Logits;
    forall r | 0 <= r < c.ranks
      ensures RankIs(c, s', v, r)
    {
      assert RankIs(c, s, v, r);
    }
    forall r | 0 <= r < c.ranks - 1
      ensures LinkIs(c, s', v, r)
    {
      assert LinkIs(c, s, v, r);
    }
  }

  lemma {:induction false} SessInv(c: Config, s: State, v: View, err: bool)
    requires Inv(c, s, v) && s.ms.pc.MSess? && MasterEnabled(c, s, err)
    ensures Inv(c, MasterNext(c, s, err), v)
  {
    hide Full, StageXs, Logits, Decoded, Final;
    NobodyLeft(c, s, v, 1);
    MasterShape(c, s, err);
    var s' := MasterNext(c, s, err);
    forall r | 0 <= r < c.ranks
      ensures RankIs(c, s', v, r)
    {
      assert RankIs(c, s, v, r);
    }
    forall r | 0 <= r < c.ranks - 1
      ensures LinkIs(c, s', v, r)
    {
      assert LinkIs(c, s, v, r);
    }
  }

  lemma {:induction false} PrefillInv(c: Config, s: State, v: View, err: bool) returns (v': View)
    requires Inv(c, s, v) && s.ms.pc.MPrefill? && MasterEnabled(c, s, err)
    ensures Inv(c, MasterNext(c, s, err), v') && v'.at == 1 && v'.base == v.base
  {
    hide Full, StageXs, Logits, SendActs, Decode;
    NobodyLeft(c, s, v, 1);
    MasterShape(c, s, err);
    var s', toks := MasterNext(c, s, err), NextBatch(c, s.ms.i);
    assert RankIs(c, s, v, 0) && c.SegmentOk(0);
    FullEmpty(c.g.m, v.gm, v.base);
    v' := SentView(c, v, toks);
    SendActsOk(c, s, toks, err);
    SendCore(c, s, v, toks, s');
    var i := s.ms.i;
    PrefillStep(c.g.m, c.mem0, c.start, c.prompt, i, |toks|);
    if i + |toks| == |c.prompt| {
      assert c.prompt[..i + |toks|] == c.prompt;
    }
  }

  lemma {:induction false} PrefillWaitInv(c: Config, s: State, v: View, err: bool) returns (v': View)
    requires Inv(c, s, v) && s.ms.pc.MPrefillWait? && MasterEnabled(c, s, err)
    ensures Inv(c, MasterNext(c, s, err), v')
  {
    hide Full, StageXs, Logits, Decoded, Final;
    NobodyLeft(c, s, v, c.ranks - 1);
    MasterShape(c, s, err);
    v' := TakenView(c, v);
    FullEmpty(c.g.m, After(c, v), v'.base);
    TakeCore(c, s, v, MasterNext(c, s, err));
  }

  lemma {:induction false} DecodeInv(c: Config, s: State, v: View, err: bool) returns (v': View)
    requires Inv(c, s, v) && s.ms.pc.MDecode? && MasterEnabled(c, s, err)
    ensures Inv(c, MasterNext(c, s, err), v') && (DecodeEnds(c, s) ==> v' == v)
  {
    hide MasterNext, MasterEnabled, RankIs, LinkIs, LogIs, FrontIs, MasterIs;
    if DecodeEnds(c, s) {
      v' := v;
      DecodeStops(c, s, v, err);
    } else {
      v' := TakenView(c, v);
      DecodeSamples(c, s, v, err);
    }
  }

  lemma {:induction false} DecodeStops(c: Config, s: State, v: View, err: bool)
    requires Inv(c, s, v) && s.ms.pc.MDecode? && MasterEnabled(c, s, err) && DecodeEnds(c, s)
    ensures Inv(c, MasterNext(c, s, err), v)
  {
    hide Full, StageXs, Logits, Prefilled, LinkIs, LogIs;
    MasterShape(c, s, err);
    assert RankIs(c, s, v, 0);
    IdleCore(c, s, v, MasterNext(c, s, err));
  }

  lemma {:induction false} DecodeSamples(c: Config, s: State, v: View, err: bool)
    requires Inv(c, s, v) && s.ms.pc.MDecode? && MasterEnabled(c, s, err) && !DecodeEnds(c, s)
    ensures ViewOk(c, TakenView(c, v)) && Inv(c, MasterNext(c, s, err), TakenView(c, v))
  {
    hide Full, StageXs, Logits, Prefilled, LinkIs;
    NobodyLeft(c, s, v, c.ranks - 1);
    MasterShape(c, s, err);
    assert RankIs(c, s, v, 0);
    FullEmpty(c.g.m, After(c, v), v.base + |v.toks|);
    TakeCore(c, s, v, MasterNext(c, s, err));
  }

  lemma {:induction false} SendTokenInv(c: Config, s: State, v: View, err: bool) returns (v': View)
    requires Inv(c, s, v) && s.ms.pc.MSend? && MasterEnabled(c, s, err)
    ensures Inv(c, MasterNext(c, s, err), v')
  {
    hide Full, StageXs, Logits, SendActs, Decode, Prefilled;
    NobodyLeft(c, s, v, 1);
    MasterShape(c, s, err);
    var s', toks := MasterNext(c, s, err), [s.ms.pc.tok];
    assert RankIs(c, s, v, 0) && c.SegmentOk(0);
    v' := SentView(c, v, toks);
    SendActsOk(c, s, toks, err);
    SendCore(c, s, v, toks, s');
  }

  lemma {:induction false} FlushInv(c: Config, s: State, v: View, err: bool) returns (v': View)
    requires Inv(c, s, v) && (s.ms.pc.MFlush? || s.ms.pc.MEosWait?) && MasterEnabled(c, s, err)
    ensures Inv(c, MasterNext(c, s, err), v')
  {
    hide Full, StageXs, Logits, Decoded, Final;
    NobodyLeft(c, s, v, c.ranks - 1);
    MasterShape(c, s, err);
    v' := TakenView(c, v);
    FullEmpty(c.g.m, After(c, v), v'.base);
    TakeCore(c, s, v, MasterNext(c, s, err));
  }

  lemma {:induction false} EosInv(c: Config, s: State, v: View, err: bool) returns (v': View)
    requires Inv(c, s, v) && s.ms.pc.MEos? && MasterEnabled(c, s, err)
    ensures Inv(c, MasterNext(c, s, err), v') && (!WritesEos(c, s) ==> v' == v)
  {
    hide Full, StageXs, Logits, SendActs, Decode;
    NobodyLeft(c, s, v, 1);
    MasterShape(c, s, err);
    assert RankIs(c, s, v, 0) && c.SegmentOk(0);
    var s' := MasterNext(c, s, err);
    if WritesEos(c, s) {
      FullEmpty(c.g.m, v.gm, v.base);
      DecodeKeepsRoom(c, v);
      v' := SentView(c, v, [c.g.eos]);
      SendActsOk(c, s, [c.g.eos], err);
      SendCore(c, s, v, [c.g.eos], s');
    } else {
      v' := v;
      IdleCore(c, s, v, s');
    }
  }

  /** Without room the prompt already fills the sequence: decoding ends where it starts. */
  lemma {:induction false} DecodeKeepsRoom(c: Config, v: View)
    requires c.Valid()
    ensures !c.Room() ==> Decoded(c).pos == c.g.m.maxSeq
  {
  }

  lemma {:induction false} DoneInv(c: Config, s: State, v: View, err: bool) returns (v': View)
    requires Inv(c, s, v) && s.ms.pc.MDone? && MasterEnabled(c, s, err) && c.Room()
    ensures Inv(c, MasterNext(c, s, err), v')
  {
    hide Full, StageXs, Logits, Decoded, Final, RankIs, LinkIs;
    NobodyLeft(c, s, v, 1);
    MasterShape(c, s, err);
    var s' := MasterNext(c, s, err);
    v' := v.(d := 0);
    forall r | 0 <= r < c.ranks
      ensures RankIs(c, s', v', r)
    {
      DoneRank(c, s, v, s', r);
    }
    forall r | 0 <= r < c.ranks - 1
      ensures LinkIs(c, s', v', r)
    {
      DoneLink(c, s, v, s', r);
    }
  }

  lemma {:induction false} DoneRank(c: Config, s: State, v: View, s': State, r: nat)
    requires ViewOk(c, v) && Shape(c, s) && Shape(c, s') && r < c.ranks && RankIs(c, s, v, r) && v.d == -1
    requires s'.ranks == s.ranks[0 := s.ranks[0].(exited := true)]
    ensures RankIs(c, s', v.(d := 0), r)
  {
    hide Full, StageXs, Logits, LinksOk, MasterOk, Agree;
  }

  lemma {:induction false} DoneLink(c: Config, s: State, v: View, s': State, r: nat)
    requires ViewOk(c, v) && |s.links| == |s'.links| == c.ranks - 1 && r < c.ranks - 1 && LinkIs(c, s, v, r) && v.d == -1
    requires s'.links == s.links[0 := s.links[0] + [Done]] && !s.ms.pc.MSess? && !s'.ms.pc.MSess?
    ensures LinkIs(c, s', v.(d := 0), r)
  {
    hide ViewOk, StageXs;
  }

  // ----- workers -----

  /** A worker's step moves the unit, not rank 0 and not the run it stands for. */
  lemma {:induction false} MasterKept(c: Config, s: State, v: View, s': State, v': View)
    requires ViewOk(c, v) && ViewOk(c, v') && MasterIs(c, s, v) && s'.ms == s.ms
    requires v'.gm == v.gm && v'.base == v.base && v'.toks == v.toks
    ensures MasterIs(c, s', v')
  {
    hide Full, Logits, Decoded, Final, Decode, Feed;
  }

  /** The view changes only around rank r. */
  ghost predicate Moves(v: View, v': View, r: nat) {
    && v'.gm == v.gm && v'.base == v.base && v'.toks == v.toks
    && (v'.at == v.at || (2 * r - 1 <= v.at <= 2 * r + 1 && 2 * r - 1 <= v'.at <= 2 * r + 1))
    && (v'.h == v.h || (v.h == r - 1 && v'.h == r))
    && (v'.d == v.d || (v.d == r - 1 && v'.d == r))
  }

  lemma {:induction false} RankKept(c: Config, s: State, v: View, s': State, v': View, r: nat, j: nat)
    requires ViewOk(c, v) && ViewOk(c, v') && Shape(c, s) && Shape(c, s') && 0 < r < c.ranks && Moves(v, v', r)
    requires j < c.ranks && j != r && s'.ranks[j] == s.ranks[j] && RankIs(c, s, v, j)
    ensures RankIs(c, s', v', j)
  {
    hide Full, StageXs, Agree, Shape;
  }

  lemma {:induction false} LinkKept(c: Config, s: State, v: View, s': State, v': View, r: nat, j: nat)
    requires ViewOk(c, v) && ViewOk(c, v') && |s.links| == |s'.links| == c.ranks - 1 && 0 < r < c.ranks && Moves(v, v', r)
    requires s'.ms == s.ms && j < c.ranks - 1 && j != r - 1 && j != r && s'.links[j] == s.links[j] && LinkIs(c, s, v, j)
    ensures LinkIs(c, s', v', j)
  {
    hide StageXs, ViewOk;
  }

  lemma {:induction false} MovesKeep(v: View, v': View, r: nat)
    requires Moves(v, v', r)
    ensures v'.gm == v.gm && v'.base == v.base && v'.toks == v.toks
  {
  }

  lemma {:induction false} Sizes(c: Config, s: State)
    requires c.Valid() && Shape(c, s)
    ensures |s.links| == c.ranks - 1 && |s.ranks| == c.ranks
  {
  }

  lemma {:induction false} CoreKept(c: Config, s: State, v: View, s': State, v': View, r: nat)
    requires Inv(c, s, v) && Shape(c, s') && ViewOk(c, v') && 0 < r < c.ranks && Moves(v, v', r)
    requires s'.ms == s.ms && !s.ms.pc.MSess?
    requires s'.ranks == s.ranks[r := s'.ranks[r]] && RankIs(c, s', v', r)
    requires forall j :: 0 <= j < c.ranks - 1 && j != r - 1 && j != r ==> s'.links[j] == s.links[j]
    requires LinkIs(c, s', v', r - 1) && (r + 1 < c.ranks ==> LinkIs(c, s', v', r))
    requires LogIs(c, s', v') && FrontIs(c, s', v')
    ensures Inv(c, s', v')
  {
    hide MasterIs, RankIs, LinkIs, LogIs, FrontIs, Moves, Shape, ViewOk;
    MovesKeep(v, v', r);
    Sizes(c, s);
    Sizes(c, s');
    MasterKept(c, s, v, s', v');
    forall j | 0 <= j < c.ranks
      ensures RankIs(c, s', v', j)
    {
      assert RankIs(c, s, v, j);
      if j != r {
        RankKept(c, s, v, s', v', r, j);
      }
    }
    forall j | 0 <= j < c.ranks - 1
      ensures LinkIs(c, s', v', j)
    {
      assert LinkIs(c, s, v, j);
      if j != r - 1 && j != r {
        LinkKept(c, s, v, s', v', r, j);
      }
    }
  }

  /** What a worker's step does, read off the view. */
  lemma {:induction false} ShakeStep(c: Config, s: State, v: View, r: nat, err: bool)
    requires Inv(c, s, v) && 0 < r < c.ranks && s.ranks[r].work.Shake? && WorkerEnabled(c, s, r, err)
    ensures r == v.h + 1 && !s.ms.pc.MSess? && v.d == -1 && s.links[r - 1] != [] && s.links[r - 1][0] == Sess(c.start)
    ensures
      var t := SetRank(Pop(s, r), r, s.ranks[r].(work := Wait, pos := c.start));
      WorkerNext(c, s, r, err) == if r + 1 == c.ranks then t else Push(t, r, Sess(c.start))
  {
    hide Full, StageXs, Logits, Decoded, Final, Compute;
    assert RankIs(c, s, v, r) && RankIs(c, s, v, r - 1) && LinkIs(c, s, v, r - 1);
    if r + 1 < c.ranks { assert RankIs(c, s, v, r + 1); }
  }

  /** After the handshake the worker stands at the round's position and waits. */
  lemma {:induction false} ShakeRank(c: Config, s: State, v: View, s': State, r: nat)
    requires Inv(c, s, v) && 0 < r < c.ranks && s.ranks[r].work.Shake? && r == v.h + 1 && v.d == -1 && Shape(c, s')
    requires s'.ranks == s.ranks[r := s.ranks[r].(work := Wait, pos := c.start)]
    ensures ViewOk(c, v.(h := r)) && RankIs(c, s', v.(h := r), r)
  {
    hide Full, StageXs, Logits, Agree, MasterIs, LinkIs, LogIs;
    assert RankIs(c, s, v, r);
  }

  /** The handshake has moved one link on, and nothing else has. */
  lemma {:induction false} ShakeLinks(c: Config, s: State, v: View, s': State, r: nat)
    requires Inv(c, s, v) && 0 < r < c.ranks && r == v.h + 1 && v.d == -1 && !s.ms.pc.MSess? && s'.ms == s.ms
    requires s.links[r - 1] != [] && |s'.links| == c.ranks - 1 && s'.links[r - 1] == s.links[r - 1][1..]
    requires r + 1 < c.ranks ==> s'.links[r] == s.links[r] + [Sess(c.start)]
    ensures ViewOk(c, v.(h := r)) && LinkIs(c, s', v.(h := r), r - 1)
    ensures r + 1 < c.ranks ==> LinkIs(c, s', v.(h := r), r)
  {
    assert LinkIs(c, s, v, r - 1);
    if r + 1 < c.ranks {
      assert LinkIs(c, s, v, r);
    }
    hide StageXs, MasterIs, RankIs, LogIs;
  }

  lemma {:induction false} ShakeInv(c: Config, s: State, v: View, r: nat, err: bool) returns (v': View)
    requires Inv(c, s, v) && 0 < r < c.ranks && s.ranks[r].work.Shake? && WorkerEnabled(c, s, r, err)
    ensures Inv(c, WorkerNext(c, s, r, err), v') && Moves(v, v', r) && v'.at <= v.at + 1
  {
    hide Full, StageXs, Logits, Compute, WorkerNext, WorkerEnabled, MasterIs, Agree, RankIs, LinkIs;
    WorkerShape(c, s, r, err);
    ShakeStep(c, s, v, r, err);
    var s' := WorkerNext(c, s, r, err);
    v' := v.(h := r);
    ShakeRank(c, s, v, s', r);
    ShakeLinks(c, s, v, s', r);
    CoreKept(c, s, v, s', v', r);
  }

  lemma {:induction false} WaitStep(c: Config, s: State, v: View, r: nat, err: bool)
    requires Inv(c, s, v) && 0 < r < c.ranks && s.ranks[r].work.Wait? && WorkerEnabled(c, s, r, err)
    ensures s.links[r - 1] != [] && r <= v.h && v.d < r
    ensures s.links[r - 1][0].Done? ==>
      && v.d == r - 1 && s.links[r - 1] == [Done]
      && (var t := SetRank(Pop(s, r), r, s.ranks[r].(exited := true));
          WorkerNext(c, s, r, err) == if r + 1 == c.ranks then t else Push(t, r, Done))
    ensures !s.links[r - 1][0].Done? ==>
      && v.at == 2 * r - 1 && s.links[r - 1] == [Unit(c, v, r)]
      && WorkerNext(c, s, r, err) == SetRank(Pop(s, r), r, s.ranks[r].(work := Hold(Unit(c, v, r))))
  {
    hide Full, StageXs, Logits, Decoded, Final, Compute;
    assert RankIs(c, s, v, r) && RankIs(c, s, v, r - 1) && LinkIs(c, s, v, r - 1);
    if r + 1 < c.ranks { assert RankIs(c, s, v, r + 1); }
  }

  lemma {:induction false} WaitInv(c: Config, s: State, v: View, r: nat, err: bool) returns (v': View)
    requires Inv(c, s, v) && 0 < r < c.ranks && s.ranks[r].work.Wait? && WorkerEnabled(c, s, r, err)
    ensures Inv(c, WorkerNext(c, s, r, err), v') && Moves(v, v', r) && v'.at <= v.at + 1
  {
    WaitStep(c, s, v, r, err);
    if s.links[r - 1][0].Done? {
      v' := LeaveInv(c, s, v, r, err);
    } else {
      v' := ReceiveInv(c, s, v, r, err);
    }
  }

  lemma {:induction false} LeaveInv(c: Config, s: State, v: View, r: nat, err: bool) returns (v': View)
    requires Inv(c, s, v) && 0 < r < c.ranks && s.ranks[r].work.Wait? && WorkerEnabled(c, s, r, err)
    requires s.links[r - 1] != [] && s.links[r - 1][0].Done?
    ensures Inv(c, WorkerNext(c, s, r, err), v') && Moves(v, v', r) && v'.at <= v.at + 1
  {
    hide Full, StageXs, Logits, Compute, WorkerNext, WorkerEnabled, MasterIs, Agree;
    WorkerShape(c, s, r, err);
    WaitStep(c, s, v, r, err);
    var s' := WorkerNext(c, s, r, err);
    v' := v.(d := r);
    assert RankIs(c, s, v, r) && LinkIs(c, s, v, r - 1);
    if r + 1 < c.ranks { assert LinkIs(c, s, v, r); }
    CoreKept(c, s, v, s', v', r);
  }

  lemma {:induction false} ReceiveInv(c: Config, s: State, v: View, r: nat, err: bool) returns (v': View)
    requires Inv(c, s, v) && 0 < r < c.ranks && s.ranks[r].work.Wait? && WorkerEnabled(c, s, r, err)
    requires s.links[r - 1] != [] && !s.links[r - 1][0].Done?
    ensures Inv(c, WorkerNext(c, s, r, err), v') && Moves(v, v', r) && v'.at <= v.at + 1
  {
    hide Full, StageXs, Logits, Compute, WorkerNext, WorkerEnabled, MasterIs, Agree;
    WorkerShape(c, s, r, err);
    WaitStep(c, s, v, r, err);
    var s' := WorkerNext(c, s, r, err);
    v' := v.(at := 2 * r);
    assert RankIs(c, s, v, r) && LinkIs(c, s, v, r - 1);
    if r + 1 < c.ranks { assert LinkIs(c, s, v, r); }
    CoreKept(c, s, v, s', v', r);
  }

  lemma {:induction false} HoldStep(c: Config, s: State, v: View, r: nat, err: bool)
    requires Inv(c, s, v) && 0 < r < c.ranks && s.ranks[r].work.Hold? && WorkerEnabled(c, s, r, err)
    ensures v.at == 2 * r && r <= v.h && v.d == -1 && v.toks != [] && c.SegmentOk(r)
    ensures
      var s', v', k := WorkerNext(c, s, r, err), v.(at := 2 * r + 1), s.ranks[r];
      && s'.ms == s.ms && |s'.ranks| == c.ranks && s'.ranks == s.ranks[r := s'.ranks[r]]
      && s'.ranks[r] == k.(mem := s'.ranks[r].mem, work := Wait, pos := v.base + |v.toks|)
      && c.g.m.Fits(s'.ranks[r].mem)
      && Agree(c.g.m, s'.ranks[r].mem, After(c, v), c.cut[r], c.cut[r + 1], v.base + |v.toks|)
      && (r + 1 == c.ranks ==>
            && s'.links == s.links && s'.log == s.log + [Logits(c.g.m, v.gm, v.base, v.toks)]
            && s'.logSent == s.logSent + 1)
      && (r + 1 < c.ranks ==>
            s'.links == s.links[r := s.links[r] + [Unit(c, v', r + 1)]] && s'.log == s.log && s'.logSent == s.logSent)
  {
    hide Full, Decoded, Final, Compute, StageXs, Logits, MasterIs;
    assert RankIs(c, s, v, r) && c.SegmentOk(r) && RankOk(c, s.ranks[r]);
    assert RankIs(c, s, v, Dest(c, r));
    ComputeStage(c, v, r, s.ranks[r].mem);
    LastStage(c.g.m, v.gm, v.toks, v.base);
  }

  lemma {:induction false} HoldInv(c: Config, s: State, v: View, r: nat, err: bool) returns (v': View)
    requires Inv(c, s, v) && 0 < r < c.ranks && s.ranks[r].work.Hold? && WorkerEnabled(c, s, r, err)
    ensures Inv(c, WorkerNext(c, s, r, err), v') && Moves(v, v', r) && v'.at <= v.at + 1
  {
    hide Full, StageXs, Logits, Compute, WorkerNext, WorkerEnabled, MasterIs, Agree;
    WorkerShape(c, s, r, err);
    HoldStep(c, s, v, r, err);
    var s' := WorkerNext(c, s, r, err);
    v' := v.(at := 2 * r + 1);
    assert RankIs(c, s, v, r) && LinkIs(c, s, v, r - 1);
    if r + 1 < c.ranks { assert LinkIs(c, s, v, r); }
    CoreKept(c, s, v, s', v', r);
  }
}
