/**
  The layer pipeline (inference/core/dist.c, `dist_gen`): R ranks, each owning a contiguous
  range of layers, joined by FIFO links.  Rank 0 samples; activations travel down the chain
  and the last rank sends logits back.  A run is any interleaving of the ranks' atomic
  steps; the operations of a rank whose peer has left may fail.
*/
module Pipeline {
  import opened Engine
  import opened Generation

  /** Tokens per prefill frame. */
  const PP_XB := 16

  /** `mem0` is the memory of the single process the round is compared with; `init[r]` and
      `have[r]` are the rows and the row count rank r holds when the round starts. */
  datatype Config = Config(
    g: Gen, ranks: nat, cut: seq<nat>, start: nat, prompt: seq<Token>, seed: Rng,
    mem0: Mem, init: seq<Mem>, have: seq<nat>)
  {
    ghost predicate Valid() {
      && g.m.Valid() && ranks >= 2 && g.m.Fits(mem0)
      && |cut| == ranks + 1 && cut[0] == 0 && cut[ranks] == g.m.layers
      && |init| == ranks && |have| == ranks && have[0] == start
      && (forall r :: 0 <= r < ranks ==> SegmentOk(r))
      && prompt != [] && g.ntokens >= 1 && start + |prompt| <= g.m.maxSeq
    }

    /** Rank r owns the layers `[cut[r], cut[r+1])`, which read no rows of other ranks, and
        the rows it restored are those of the single process. */
    ghost predicate SegmentOk(r: nat)
      requires g.m.Valid() && g.m.Fits(mem0) && |cut| == ranks + 1 && |init| == ranks && |have| == ranks && r < ranks
    {
      && cut[r] <= cut[r + 1] <= g.m.layers && g.m.Closed(cut[r], cut[r + 1]) && g.m.Fits(init[r])
      && (var n := if have[r] < start then have[r] else start;
          n <= g.m.maxSeq && Agree(g.m, init[r], mem0, cut[r], cut[r + 1], n))
    }

    /** What a round asks of the cuts alone: contiguous ranges over all layers, each of which reads
        no rows of other ranks. */
    ghost predicate CutsOk() {
      && |cut| == ranks + 1 && cut[0] == 0 && cut[ranks] == g.m.layers
      && forall r :: 0 <= r < ranks ==> CutOk(r)
    }

    ghost predicate CutOk(r: nat)
      requires r + 1 < |cut|
    {
      cut[r] <= cut[r + 1] <= g.m.layers && g.m.Closed(cut[r], cut[r + 1])
    }

    /** Every segment restored at least the rows the handshake asks for. */
    ghost predicate Restored() {
      |have| == ranks && forall r :: 0 <= r < ranks ==> start <= have[r]
    }

    /** The prompt leaves room for at least one more position. */
    predicate Room() {
      start + |prompt| < g.m.maxSeq
    }
  }

  datatype Frame =
    | Sess(pos: nat)
    | Acts(base: nat, toks: seq<Token>, xs: seq<Vec>)
    | Done

  datatype Work = Shake | Wait | Hold(f: Frame)

  datatype Rank = Rank(mem: Mem, pos: nat, work: Work, failed: bool, exited: bool)

  datatype Pc =
    | MSess | MPrefill | MPrefillWait | MDecode | MSend(tok: Token)
    | MFlush | MEos | MEosWait | MDone | MExit

  /** Rank 0's loop variables: prompt index, decode index, `pend`, `rc == 0`, the sampler
      state, the emitted tokens and the frame counters. */
  datatype Master = Master(
    pc: Pc, i: nat, k: nat, pend: bool, ok: bool, rng: Rng, out: seq<Token>, xSent: nat, logRecv: nat)

  /** `links[r]` carries frames from rank r to rank r+1, `log` logits from the last rank. */
  datatype State = State(ms: Master, ranks: seq<Rank>, links: seq<seq<Frame>>, log: seq<Vec>, logSent: nat)

  /** Rank `r` takes a step; `err` says that its socket operation fails. */
  datatype Action = Action(r: nat, err: bool)

  // ----- well-formed states -----

  ghost predicate FrameOk(c: Config, f: Frame) {
    f.Acts? ==> 0 < |f.toks| == |f.xs| && f.base + |f.toks| <= c.g.m.maxSeq
  }

  ghost predicate LinkOk(c: Config, q: seq<Frame>) {
    forall j :: 0 <= j < |q| ==> FrameOk(c, q[j])
  }

  ghost predicate RankOk(c: Config, k: Rank) {
    c.g.m.Fits(k.mem) && (k.work.Hold? ==> k.work.f.Acts? && FrameOk(c, k.work.f))
  }

  ghost predicate RanksOk(c: Config, ranks: seq<Rank>) {
    |ranks| == c.ranks && forall r :: 0 <= r < |ranks| ==> RankOk(c, ranks[r])
  }

  ghost predicate LinksOk(c: Config, links: seq<seq<Frame>>) {
    |links| == c.ranks - 1 && forall r :: 0 <= r < |links| ==> LinkOk(c, links[r])
  }

  ghost predicate MasterOk(c: Config, ms: Master, pos: nat) {
    && pos <= c.g.m.maxSeq && ms.i <= |c.prompt| && ms.k <= c.g.ntokens
    && (ms.pc.MSess? || ms.pc.MPrefill? || ms.pc.MPrefillWait? ==> ms.i < |c.prompt| && pos == c.start + ms.i)
    && (ms.pc.MSend? ==> pos < c.g.m.maxSeq && ms.k < c.g.ntokens)
  }

  ghost predicate Shape(c: Config, s: State)
    requires c.Valid()
  {
    && RanksOk(c, s.ranks) && LinksOk(c, s.links)
    && MasterOk(c, s.ms, s.ranks[0].pos)
    && (s.ranks[0].exited <==> s.ms.pc.MExit?)
  }

  ghost function Init(c: Config): (s: State)
    requires c.Valid()
    ensures Shape(c, s)
  {
    State(Master(MSess, 0, 0, false, true, c.seed, [], 0, 0),
          seq(c.ranks, r requires 0 <= r < c.ranks => InitRank(c, r)), seq(c.ranks - 1, _ => []), [], 0)
  }

  ghost function InitRank(c: Config, r: nat): (k: Rank)
    requires c.Valid() && r < c.ranks
    ensures RankOk(c, k)
  {
    assert c.SegmentOk(r);
    Rank(c.init[r], c.have[r], if r == 0 then Wait else Shake, false, false)
  }

  // ----- one rank's computation -----

  /** A worker takes the single-token path for one token and the batch path otherwise. */
  function Compute(m: Model, mem: Mem, lo: nat, hi: nat, toks: seq<Token>, pos: nat, xs: seq<Vec>): (o: OutSeq)
    requires m.Valid() && m.Fits(mem) && lo <= hi <= m.layers
    requires pos + |toks| <= m.maxSeq && |xs| == |toks|
    ensures m.Fits(o.mem) && |o.xs| == |toks|
  {
    if |toks| == 1 then SegRun(m, mem, lo, hi, toks, pos, xs) else BatchRun(m, mem, lo, hi, toks, pos, xs)
  }

  // ----- rank 0 -----

  function Push(s: State, r: nat, f: Frame): (s': State)
    requires r < |s.links|
  {
    s.(links := s.links[r := s.links[r] + [f]])
  }

  function SetPc(s: State, pc: Pc): (s': State) {
    s.(ms := s.ms.(pc := pc))
  }

  /** `rc = -1`: no further decoding; pending logits are still flushed, DONE is still sent. */
  function Fail(s: State): (s': State) {
    s.(ms := s.ms.(ok := false, pc := if s.ms.pend then MFlush else MEos))
  }

  function TakeLogits(s: State): (s': State)
    requires s.log != []
  {
    s.(log := s.log[1..], ms := s.ms.(logRecv := s.ms.logRecv + 1))
  }

  predicate LogReady(s: State, err: bool)
    requires s.ranks != []
  {
    if err then s.log == [] && s.ranks[|s.ranks| - 1].exited else s.log != []
  }

  predicate SendReady(s: State, dest: nat, err: bool)
    requires dest < |s.ranks|
  {
    err ==> s.ranks[dest].exited
  }

  ghost predicate MasterEnabled(c: Config, s: State, err: bool)
    requires c.Valid() && Shape(c, s)
  {
    match s.ms.pc
    case MSess => SendReady(s, 1, err)
    case MPrefill => SendReady(s, 1, err)
    case MPrefillWait => LogReady(s, err)
    case MDecode => if DecodeEnds(c, s) then !err else LogReady(s, err)
    case MSend(_) => SendReady(s, 1, err)
    case MFlush => LogReady(s, err)
    case MEos => if WritesEos(c, s) then SendReady(s, 1, err) else !err
    case MEosWait => LogReady(s, err)
    case MDone => SendReady(s, 1, err)
    case MExit => false
  }

  predicate DecodeEnds(c: Config, s: State)
    requires s.ranks != []
  {
    s.ms.k == c.g.ntokens || s.ranks[0].pos >= c.g.m.maxSeq
  }

  predicate WritesEos(c: Config, s: State)
    requires s.ranks != []
  {
    s.ms.ok && s.ranks[0].pos < c.g.m.maxSeq
  }

  /** Run rank 0's layers on `toks` and send the activations; a failed send still leaves
      the computed rows behind. */
  ghost function SendActs(c: Config, s: State, toks: seq<Token>, err: bool): (s': State)
    requires c.Valid() && Shape(c, s) && toks != [] && s.ranks[0].pos + |toks| <= c.g.m.maxSeq
  {
    var k := s.ranks[0];
    assert c.SegmentOk(0) && RankOk(c, k);
    var o := Compute(c.g.m, k.mem, 0, c.cut[1], toks, k.pos, Blanks(|toks|));
    if err then s.(ranks := s.ranks[0 := k.(mem := o.mem)])
    else
      var t := Push(s, 0, Acts(k.pos, toks, o.xs));
      t.(ranks := s.ranks[0 := k.(mem := o.mem, pos := k.pos + |toks|)],
         ms := s.ms.(xSent := s.ms.xSent + 1))
  }

  function NextBatch(c: Config, i: nat): (toks: seq<Token>)
    requires i < |c.prompt|
    ensures 0 < |toks| <= |c.prompt| - i && toks == c.prompt[i..i + |toks|]
    ensures |toks| == PP_XB || i + |toks| == |c.prompt|
  {
    var nb := if |c.prompt| - i > PP_XB then PP_XB else |c.prompt| - i;
    c.prompt[i..i + nb]
  }

  ghost function MasterNext(c: Config, s: State, err: bool): (s': State)
    requires c.Valid() && Shape(c, s) && MasterEnabled(c, s, err)
  {
    match s.ms.pc
    case MSess => if err then Fail(s) else SetPc(Push(s, 0, Sess(c.start)), MPrefill)
    case MPrefill =>
      var toks := NextBatch(c, s.ms.i);
      var t := SendActs(c, s, toks, err);
      if err then Fail(t)
      else
        var i := s.ms.i + |toks|;
        t.(ms := t.ms.(i := i, pc := if i < |c.prompt| then MPrefillWait else MDecode))
    case MPrefillWait => if err then Fail(s) else SetPc(TakeLogits(s), MPrefill)
    case MDecode =>
      if DecodeEnds(c, s) then SetPc(s, if s.ms.pend then MFlush else MEos)
      else if err then Fail(s)
      else
        var (rng, tok) := c.g.sample(s.ms.rng, s.log[0]);
        var t := TakeLogits(s);
        t.(ms := t.ms.(rng := rng, pend := false, pc := if tok == c.g.eos then MEos else MSend(tok)))
    case MSend(tok) =>
      var t := SendActs(c, s, [tok], err);
      if err then Fail(t)
      else t.(ms := t.ms.(k := t.ms.k + 1, out := t.ms.out + [tok], pend := true, pc := MDecode))
    case MFlush => SetPc(if err then s else TakeLogits(s), MEos)
    case MEos =>
      if WritesEos(c, s) then SetPc(SendActs(c, s, [c.g.eos], err), if err then MDone else MEosWait)
      else SetPc(s, MDone)
    case MEosWait => SetPc(if err then s else TakeLogits(s), MDone)
    case MDone =>
      var t := if err then s else Push(s, 0, Done);
      SetPc(t.(ranks := t.ranks[0 := t.ranks[0].(exited := true)]), MExit)
  }

  // ----- ranks 1 .. R-1 -----

  /** The worker's next frame, or the end of its input when the upstream rank has left. */
  predicate InputReady(s: State, r: nat)
    requires 0 < r < |s.ranks| && r - 1 < |s.links|
  {
    s.links[r - 1] != [] || s.ranks[r - 1].exited
  }

  /** The rank a worker's send goes to: the next one, or rank 0 for logits. */
  function Dest(c: Config, r: nat): (d: nat) {
    if r + 1 < c.ranks then r + 1 else 0
  }

  ghost predicate WorkerEnabled(c: Config, s: State, r: nat, err: bool)
    requires c.Valid() && Shape(c, s) && 0 < r < c.ranks
  {
    var k := s.ranks[r];
    && !k.exited
    && match k.work
       case Shake =>
         InputReady(s, r)
         && (s.links[r - 1] != [] ==> s.links[r - 1][0].Sess?)
         && (if s.links[r - 1] != [] && r + 1 < c.ranks then SendReady(s, r + 1, err) else !err)
       case Wait =>
         InputReady(s, r)
         && (s.links[r - 1] != [] ==> !s.links[r - 1][0].Sess?)
         && (if s.links[r - 1] != [] && s.links[r - 1][0].Done? && r + 1 < c.ranks then SendReady(s, r + 1, err) else !err)
       case Hold(_) => SendReady(s, Dest(c, r), err)
  }

  function Pop(s: State, r: nat): (s': State)
    requires 0 < r <= |s.links| && s.links[r - 1] != []
  {
    s.(links := s.links[r - 1 := s.links[r - 1][1..]])
  }

  function SetRank(s: State, r: nat, k: Rank): (s': State)
    requires r < |s.ranks|
  {
    s.(ranks := s.ranks[r := k])
  }

  /** Compare the handshake position with the rows this segment holds: equal or fewer asked
      for continues (dropping the surplus), more is refused. */
  function ShakeHands(k: Rank, pos: nat, err: bool): (k': Rank) {
    if pos <= k.pos then k.(work := Wait, pos := pos, failed := k.failed || err)
    else k.(work := Wait, pos := 0, failed := true)
  }

  ghost function WorkerNext(c: Config, s: State, r: nat, err: bool): (s': State)
    requires c.Valid() && Shape(c, s) && 0 < r < c.ranks && WorkerEnabled(c, s, r, err)
  {
    var k, q := s.ranks[r], s.links[r - 1];
    assert c.SegmentOk(r) && RankOk(c, k);
    var last := r + 1 == c.ranks;
    match k.work
    case Shake =>
      if q == [] then SetRank(s, r, k.(work := Wait, failed := true))
      else
        var t := SetRank(Pop(s, r), r, ShakeHands(k, q[0].pos, err));
        if last || err then t else Push(t, r, q[0])
    case Wait =>
      if q == [] then SetRank(s, r, k.(exited := true))
      else if q[0].Done? then
        var t := SetRank(Pop(s, r), r, k.(exited := true));
        if last || err then t else Push(t, r, Done)
      else if k.failed then SetRank(Pop(s, r), r, k.(exited := true))
      else SetRank(Pop(s, r), r, k.(work := Hold(q[0])))
    case Hold(f) =>
      var o := Compute(c.g.m, k.mem, c.cut[r], c.cut[r + 1], f.toks, f.base, f.xs);
      if err then SetRank(s, r, k.(mem := o.mem, work := Wait, failed := true, exited := true))
      else
        var t := SetRank(s, r, k.(mem := o.mem, work := Wait, pos := f.base + |f.toks|));
        if last then t.(log := t.log + [o.xs[|o.xs| - 1]], logSent := t.logSent + 1)
        else Push(t, r, Acts(f.base, f.toks, o.xs))
  }

  // ----- runs -----

  ghost predicate Enabled(c: Config, s: State, a: Action)
    requires c.Valid() && Shape(c, s)
  {
    a.r < c.ranks && if a.r == 0 then MasterEnabled(c, s, a.err) else WorkerEnabled(c, s, a.r, a.err)
  }

  ghost function Next(c: Config, s: State, a: Action): (s': State)
    requires c.Valid() && Shape(c, s) && Enabled(c, s, a)
  {
    if a.r == 0 then MasterNext(c, s, a.err) else WorkerNext(c, s, a.r, a.err)
  }

  lemma {:induction false} PushOk(c: Config, s: State, r: nat, f: Frame)
    requires LinksOk(c, s.links) && r < |s.links| && FrameOk(c, f)
    ensures LinksOk(c, Push(s, r, f).links)
  {
    assert LinkOk(c, s.links[r] + [f]);
  }

  lemma {:induction false} PopOk(c: Config, s: State, r: nat)
    requires LinksOk(c, s.links) && 0 < r <= |s.links| && s.links[r - 1] != []
    ensures LinksOk(c, Pop(s, r).links) && FrameOk(c, s.links[r - 1][0])
  {
    assert LinkOk(c, s.links[r - 1]);
    assert LinkOk(c, s.links[r - 1][1..]);
  }

  lemma {:induction false} SendActsOk(c: Config, s: State, toks: seq<Token>, err: bool)
    requires c.Valid() && Shape(c, s) && toks != [] && s.ranks[0].pos + |toks| <= c.g.m.maxSeq
    ensures
      var t := SendActs(c, s, toks, err);
      && RanksOk(c, t.ranks) && LinksOk(c, t.links) && t.log == s.log
      && t.ranks[0].pos == s.ranks[0].pos + (if err then 0 else |toks|)
      && t.ranks[0].exited == s.ranks[0].exited
      && t.ms == s.ms.(xSent := s.ms.xSent + if err then 0 else 1)
  {
    hide BatchRun, SegRun;
    var k := s.ranks[0];
    assert c.SegmentOk(0);
    assert RankOk(c, k);
    var o := Compute(c.g.m, k.mem, 0, c.cut[1], toks, k.pos, Blanks(|toks|));
    PushOk(c, s, 0, Acts(k.pos, toks, o.xs));
  }

  lemma {:induction false} MasterShape(c: Config, s: State, err: bool)
    requires c.Valid() && Shape(c, s) && MasterEnabled(c, s, err)
    ensures Shape(c, MasterNext(c, s, err))
  {
    hide SendActs;
    match s.ms.pc
    case MSess => PushOk(c, s, 0, Sess(c.start));
    case MPrefill => SendActsOk(c, s, NextBatch(c, s.ms.i), err);
    case MSend(tok) => SendActsOk(c, s, [tok], err);
    case MEos => if WritesEos(c, s) { SendActsOk(c, s, [c.g.eos], err); }
    case MDone => PushOk(c, s, 0, Done);
    case _ =>
  }

  lemma {:induction false} WorkerShape(c: Config, s: State, r: nat, err: bool)
    requires c.Valid() && Shape(c, s) && 0 < r < c.ranks && WorkerEnabled(c, s, r, err)
    ensures Shape(c, WorkerNext(c, s, r, err))
  {
    hide BatchRun, SegRun;
    assert c.SegmentOk(r);
    var k, q := s.ranks[r], s.links[r - 1];
    assert RankOk(c, k);
    if k.work.Hold? {
      var f := k.work.f;
      var o := Compute(c.g.m, k.mem, c.cut[r], c.cut[r + 1], f.toks, f.base, f.xs);
      if r + 1 < c.ranks { PushOk(c, s, r, Acts(f.base, f.toks, o.xs)); }
    } else if q != [] {
      PopOk(c, s, r);
      if r + 1 < c.ranks { PushOk(c, Pop(s, r), r, q[0]); }
    }
  }
}
