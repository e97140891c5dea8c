/**
  When do the segments of a finished round agree?  With room left, always.  A prompt that fills
  the sequence leaves the last logits unread: the last rank may find rank 0 gone, and then ends
  one frame behind while rank 0 reports success.
*/
module PipelineAgreement {
  import opened Engine
  import opened Generation
  import opened Pipeline
  import opened PipelineProof
  import opened PipelineRuns
  import opened PipelineLiveness

  /** Rank 0 reports success and every rank stands at its position. */
  predicate AgreedEnd(s: State) {
    s.ms.ok && forall q :: 0 <= q < |s.ranks| ==> s.ranks[q].pos == s.ranks[0].pos
  }

  /** All runs in which every rank has left end so. */
  ghost predicate AlwaysAgrees(c: Config) {
    forall ss, acts :: IsRun(c, ss, acts) && AllLeft(c, ss[|acts|]) ==> AgreedEnd(ss[|acts|])
  }

  // ----- the run that lets rank 0 leave first -----

  /** Index of the first token of the prompt's last frame. */
  function LastFrame(c: Config): (i: nat)
    requires c.prompt != []
    ensures i < |c.prompt| <= i + PP_XB && i % PP_XB == 0
  {
    (|c.prompt| - 1) / PP_XB * PP_XB
  }

  /** Rank 0 goes first whenever it can: the last frame stays ahead of the last rank's send. */
  ghost predicate Paced(c: Config, s: State, v: View) {
    && c.prompt != []
    && match s.ms.pc
       case MSess => s.ms.i % PP_XB == 0
       case MPrefill => s.ms.i % PP_XB == 0
       case MPrefillWait => s.ms.i % PP_XB == 0
       case MDecode => v.at == 1 && v.base == c.start + LastFrame(c)
       case MEos => v.at == 1 && v.base == c.start + LastFrame(c)
       case MDone => v.at <= 2 * (c.ranks - 1) && v.base == c.start + LastFrame(c)
       case _ => false
  }

  /** Rank 0 waits to leave and the last rank still holds the last frame. */
  ghost predicate Brink(c: Config, s: State, v: View) {
    s.ms.pc.MDone? && v.at == 2 * (c.ranks - 1)
  }

  lemma {:induction false} FrameSteps(c: Config, i: nat)
    requires i < |c.prompt| && i % PP_XB == 0
    ensures
      var n := |NextBatch(c, i)|;
      if i + n < |c.prompt| then (i + n) % PP_XB == 0 else i == LastFrame(c)
  {
  }

  /** Rank 0's turn in the paced run. */
  lemma {:induction false} MasterPaced(c: Config, s: State, v: View) returns (v': View)
    requires Inv(c, s, v) && Paced(c, s, v) && !c.Room() && !s.ms.pc.MDone? && MasterEnabled(c, s, false)
    ensures Inv(c, MasterNext(c, s, false), v') && Paced(c, MasterNext(c, s, false), v')
  {
    hide Full, StageXs, Logits, SendActs, Decode, RankIs, LinkIs, LogIs, FrontIs, Decoded, Final, Compute;
    match s.ms.pc
    case MSess =>
      v' := v;
      SessInv(c, s, v, false);
    case MPrefill =>
      v' := PrefillInv(c, s, v, false);
      SendActsOk(c, s, NextBatch(c, s.ms.i), false);
      FrameSteps(c, s.ms.i);
    case MPrefillWait =>
      v' := PrefillWaitInv(c, s, v, false);
    case MDecode =>
      FullAlready(c, s, v);
      v' := DecodeInv(c, s, v, false);
    case MEos =>
      FullAlready(c, s, v);
      v' := EosInv(c, s, v, false);
  }

  /** A prompt that fills the sequence leaves nothing to decode. */
  lemma {:induction false} FullAlready(c: Config, s: State, v: View)
    requires Inv(c, s, v) && !c.Room() && (s.ms.pc.MDecode? || s.ms.pc.MEos? || s.ms.pc.MDone?)
    ensures s.ranks != [] && s.ranks[0].pos == c.g.m.maxSeq && v.toks != []
    ensures s.ms.pc.MDecode? ==> !s.ms.pend
  {
    hide Full, StageXs, Logits;
    assert RankIs(c, s, v, 0);
  }

  /** While a unit is on its way to the last rank some worker can move it on. */
  lemma {:induction false} WorkerReady(c: Config, s: State, v: View) returns (r: nat)
    requires Inv(c, s, v) && Order(c, s) && v.toks != [] && v.at < 2 * c.ranks - 1 && !s.ms.pc.MExit?
    ensures 0 < r < c.ranks && WorkerEnabled(c, s, r, false)
  {
    hide Full, StageXs, Logits, Decoded, Final, WorkerEnabled, MasterIs;
    r := ViewHasSign(c, s, v);
    NobodyLeft(c, s, v, r);
    WorkerCanStep(c, s, r);
  }

  /** A worker's turn in the paced run. */
  lemma {:induction false} WorkerPaced(c: Config, s: State, v: View, r: nat) returns (v': View)
    requires Inv(c, s, v) && Paced(c, s, v) && !Brink(c, s, v) && (s.ms.pc.MPrefillWait? || s.ms.pc.MDone?)
    requires 0 < r < c.ranks && WorkerEnabled(c, s, r, false)
    ensures Inv(c, WorkerNext(c, s, r, false), v') && Paced(c, WorkerNext(c, s, r, false), v')
  {
    WorkerEffect(c, s, r, false);
    hide Inv, WorkerNext, WorkerEnabled;
    match s.ranks[r].work
    case Shake => v' := ShakeInv(c, s, v, r, false);
    case Wait => v' := WaitInv(c, s, v, r, false);
    case Hold(_) => v' := HoldInv(c, s, v, r, false);
  }

  /** Rank 0 if it can step, else a worker. */
  lemma {:induction false} PacedStep(c: Config, s: State, v: View) returns (a: Action, v': View)
    requires Inv(c, s, v) && Order(c, s) && Paced(c, s, v) && !c.Room() && !Brink(c, s, v)
    ensures Enabled(c, s, a) && Inv(c, Next(c, s, a), v') && Paced(c, Next(c, s, a), v')
  {
    if !s.ms.pc.MDone? && MasterEnabled(c, s, false) {
      a := Action(0, false);
      v' := MasterPaced(c, s, v);
    } else {
      MasterTurn(c, s, v);
      hide MasterEnabled, WorkerEnabled, MasterNext, WorkerNext, Inv, Order, Paced;
      var r := WorkerReady(c, s, v);
      a := Action(r, false);
      v' := WorkerPaced(c, s, v, r);
    }
  }

  /** Rank 0 only waits for the logits of a frame that is still on its way, or at the end. */
  lemma {:induction false} MasterTurn(c: Config, s: State, v: View)
    requires Inv(c, s, v) && Paced(c, s, v) && !c.Room() && !Brink(c, s, v)
    requires s.ms.pc.MDone? || !MasterEnabled(c, s, false)
    ensures (s.ms.pc.MPrefillWait? || s.ms.pc.MDone?) && v.toks != [] && v.at < 2 * c.ranks - 1
  {
    hide Full, StageXs, Logits, RankIs, LinkIs, Decode, Decoded, Final;
    if s.ms.pc.MDecode? || s.ms.pc.MEos? || s.ms.pc.MDone? { FullAlready(c, s, v); }
  }

  /** From any paced state the paced run reaches the brink. */
  lemma {:induction false} ReachBrink(c: Config, ss: seq<State>, acts: seq<Action>, v: View)
    returns (ss': seq<State>, acts': seq<Action>, v': View)
    requires IsRun(c, ss, acts) && !c.Room() && Inv(c, ss[|acts|], v) && Paced(c, ss[|acts|], v)
    ensures IsRun(c, ss', acts')
    ensures var s := ss'[|acts'|]; Inv(c, s, v') && Paced(c, s, v') && Brink(c, s, v')
    decreases Measure(c, Init(c)) - |acts|
  {
    hide Measure, Shape, Next, Enabled, Inv, Paced, Brink, Order;
    var s := ss[|acts|];
    ss', acts', v' := ss, acts, v;
    if !Brink(c, s, v) {
      RunShape(c, ss, acts, |acts|);
      RunOrder(c, ss, acts, |acts|);
      var a, u := PacedStep(c, s, v);
      RunGrows(c, ss, acts, a);
      RunsEnd(c, ss + [Next(c, s, a)], acts + [a], |acts| + 1);
      ss', acts', v' := ReachBrink(c, ss + [Next(c, s, a)], acts + [a], u);
    }
  }

  /** Over the brink: rank 0 leaves, then the last rank's send fails. */
  ghost predicate Lags(c: Config, s: State) {
    && c.Valid() && Shape(c, s) && s.ms.pc.MExit? && s.ms.ok
    && s.ranks[0].exited && s.ranks[0].pos == c.start + |c.prompt|
    && s.ranks[c.ranks - 1].exited && s.ranks[c.ranks - 1].pos == c.start + LastFrame(c)
  }

  lemma {:induction false} MasterGone(c: Config, s: State, v: View)
    requires Inv(c, s, v) && Paced(c, s, v) && Brink(c, s, v) && !c.Room()
    ensures Enabled(c, s, Action(0, false))
    ensures
      var t, last := Next(c, s, Action(0, false)), c.ranks - 1;
      && Shape(c, t) && t.ms.pc.MExit? && t.ms.ok && t.ranks[0].exited && t.ranks[0].pos == c.start + |c.prompt|
      && t.ranks[last].work.Hold? && !t.ranks[last].exited && t.ranks[last].pos == c.start + LastFrame(c)
  {
    hide Full, StageXs, Logits, Decode, Decoded, Final, LinkIs;
    FullAlready(c, s, v);
    assert RankIs(c, s, v, 0) && RankIs(c, s, v, c.ranks - 1);
    MasterShape(c, s, false);
  }

  lemma {:induction false} LastSendFails(c: Config, t: State)
    requires c.Valid() && Shape(c, t) && t.ms.pc.MExit? && t.ms.ok && t.ranks[0].exited
    requires
      var last := c.ranks - 1;
      && t.ranks[0].pos == c.start + |c.prompt| && t.ranks[last].work.Hold? && !t.ranks[last].exited
      && t.ranks[last].pos == c.start + LastFrame(c)
    ensures Enabled(c, t, Action(c.ranks - 1, true)) && Lags(c, Next(c, t, Action(c.ranks - 1, true)))
  {
    WorkerShape(c, t, c.ranks - 1, true);
    hide Compute;
  }

  /** Ranks that have left stay as they are. */
  lemma {:induction false} LagStays(c: Config, ss: seq<State>, acts: seq<Action>, i: nat, n: nat)
    requires IsRun(c, ss, acts) && i <= n < |ss| && Lags(c, ss[i])
    ensures Lags(c, ss[n])
  {
    if i < n {
      LagStays(c, ss, acts, i, n - 1);
      var s, a := ss[n - 1], acts[n - 1];
      assert IsStep(c, s, a, ss[n]);
      RunShape(c, ss, acts, n);
      StepFrozen(c, s, a, 0);
      StepFrozen(c, s, a, c.ranks - 1);
      hide Next, Enabled, Shape;
    }
  }

  /** For every round whose prompt fills the sequence there is a run that rank 0 reports as a
      success and after which the last rank is one frame behind. */
  lemma {:induction false} LastRankLags(c: Config) returns (ss: seq<State>, acts: seq<Action>)
    requires c.Valid() && c.Restored() && !c.Room()
    ensures IsRun(c, ss, acts) && AllLeft(c, ss[|acts|])
    ensures
      var s := ss[|acts|];
      && s.ms.ok && |s.ranks| == c.ranks && s.ranks[0].pos == c.start + |c.prompt|
      && s.ranks[c.ranks - 1].pos == c.start + LastFrame(c) < s.ranks[0].pos
  {
    hide Shape, Next, Enabled, Inv, AllLeft, Lags;
    InitInv(c);
    PacedAtInit(c);
    var v;
    ss, acts, v := ReachBrink(c, [Init(c)], [], InitView(c));
    var s := ss[|acts|];
    MasterGone(c, s, v);
    RunShape(c, ss, acts, |acts|);
    RunGrows(c, ss, acts, Action(0, false));
    ss, acts := ss + [Next(c, s, Action(0, false))], acts + [Action(0, false)];
    var t := ss[|acts|];
    LastSendFails(c, t);
    RunGrows(c, ss, acts, Action(c.ranks - 1, true));
    ss, acts := ss + [Next(c, t, Action(c.ranks - 1, true))], acts + [Action(c.ranks - 1, true)];
    var n := |acts|;
    ss, acts := EveryRunCompletes(c, ss, acts);
    LagStays(c, ss, acts, n, |acts|);
    LagEnd(c, ss[|acts|]);
  }

  lemma {:induction false} PacedAtInit(c: Config)
    requires c.Valid()
    ensures Paced(c, Init(c), InitView(c))
  {
  }

  lemma {:induction false} LagEnd(c: Config, s: State)
    requires Lags(c, s)
    ensures |s.ranks| == c.ranks && s.ranks[c.ranks - 1].pos == c.start + LastFrame(c)
    ensures s.ms.ok && s.ranks[0].pos == c.start + |c.prompt|
  {
  }

  /** All finished runs of a round whose segments restored their rows report success with every
      rank at rank 0's position if and only if the prompt leaves room. */
  lemma {:induction false} SegmentsAgree(c: Config)
    requires c.Valid() && c.Restored()
    ensures AlwaysAgrees(c) <==> c.Room()
  {
    hide Shape, AllLeft;
    if c.Room() {
      forall ss, acts | IsRun(c, ss, acts) && AllLeft(c, ss[|acts|])
        ensures AgreedEnd(ss[|acts|])
      {
        RunShape(c, ss, acts, |acts|);
        LeftIsExit(c, ss[|acts|]);
        PipelineRefinesLocal(c, ss, acts);
        RanksAgree(c, ss[|acts|]);
      }
    } else {
      var ss, acts := LastRankLags(c);
      assert !AgreedEnd(ss[|acts|]);
    }
  }

  lemma {:induction false} RanksAgree(c: Config, s: State)
    requires c.Valid() && Shape(c, s) && s.ms.ok && forall q :: 0 <= q < c.ranks ==> SegmentAt(c, s, q, Final(c))
    ensures AgreedEnd(s)
  {
    hide Local, Agree;
    assert SegmentAt(c, s, 0, Final(c));
    forall q | 0 <= q < |s.ranks|
      ensures s.ranks[q].pos == s.ranks[0].pos
    {
      assert SegmentAt(c, s, q, Final(c));
    }
  }

  /** Two ranks, room for one position, a prompt of one token. */
  function TinyLag(): (c: Config) {
    var m := Model(2, 1, l => if l == 0 then NoKv else OwnKv, (l, t, p, x) => [], (l, t, p, rows, x) => []);
    var mem := [[[]], [[]]];
    Config(Gen(m, 0, 1, (r, x) => (r, 0)), 2, [0, 1, 2], 0, [7], 0, mem, [mem, mem], [0, 0])
  }

  lemma {:induction false} TinyLagOk()
    ensures TinyLag().Valid() && TinyLag().Restored() && !TinyLag().Room()
  {
    var c := TinyLag();
    assert c.g.m.Valid() && c.g.m.Fits(c.mem0);
    assert c.g.m.Closed(0, 1) && c.g.m.Closed(1, 2);
    assert c.SegmentOk(0) && c.SegmentOk(1);
  }

  /** A concrete successful round after which rank 0 stands at position 1 and rank 1 at 0. */
  lemma {:induction false} LagHappens() returns (c: Config, ss: seq<State>, acts: seq<Action>)
    ensures IsRun(c, ss, acts) && c.Restored() && AllLeft(c, ss[|acts|])
    ensures var s := ss[|acts|]; s.ms.ok && |s.ranks| == 2 && s.ranks[0].pos == 1 && s.ranks[1].pos == 0
  {
    TinyLagOk();
    c := TinyLag();
    assert c.ranks == 2 && c.start == 0 && |c.prompt| == 1 && LastFrame(c) == 0;
    hide TinyLag, AllLeft, IsRun, Config.Valid, Config.Restored, Config.Room;
    ss, acts := LastRankLags(c);
  }
}
