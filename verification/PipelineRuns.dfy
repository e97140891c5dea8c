/**
  Whole runs of the layer pipeline: refinement of the single-process loop, flow control,
  agreement of the segments, refusal of a round some segment cannot continue, absence of
  deadlock and termination.
*/
module PipelineRuns {
  import opened Engine
  import opened Generation
  import opened Pipeline
  import opened PipelineProof

  /** `ss` are the states of a run and `acts` the steps between them. */
  ghost predicate IsRun(c: Config, ss: seq<State>, acts: seq<Action>) {
    && c.Valid() && |ss| == |acts| + 1 && ss[0] == Init(c)
    && forall n :: 0 <= n < |acts| ==> IsStep(c, ss[n], acts[n], ss[n + 1])
  }

  ghost predicate IsStep(c: Config, s: State, a: Action, s': State) {
    c.Valid() && Shape(c, s) && Enabled(c, s, a) && s' == Next(c, s, a)
  }

  lemma {:induction false} RunStart(c: Config, ss: seq<State>, acts: seq<Action>)
    requires IsRun(c, ss, acts)
    ensures c.Valid() && |ss| == |acts| + 1 && ss[0] == Init(c)
  {
  }

  /** The n-th step of a run. */
  lemma {:induction false} RunStep(c: Config, ss: seq<State>, acts: seq<Action>, n: nat)
    requires IsRun(c, ss, acts) && n < |acts|
    ensures |ss| == |acts| + 1 && c.Valid() && Shape(c, ss[n]) && Enabled(c, ss[n], acts[n])
    ensures ss[n + 1] == Next(c, ss[n], acts[n])
  {
    hide Next, Enabled, Shape;
    assert IsStep(c, ss[n], acts[n], ss[n + 1]);
  }

  lemma {:induction false} StepShape(c: Config, s: State, a: Action)
    requires c.Valid() && Shape(c, s) && Enabled(c, s, a)
    ensures Shape(c, Next(c, s, a))
  {
    hide MasterNext, WorkerNext, MasterEnabled, WorkerEnabled;
    if a.r == 0 { MasterShape(c, s, a.err); } else { WorkerShape(c, s, a.r, a.err); }
  }

  lemma {:induction false} RunShape(c: Config, ss: seq<State>, acts: seq<Action>, n: nat)
    requires IsRun(c, ss, acts) && n < |ss|
    ensures Shape(c, ss[n])
  {
    hide Next, Shape;
    if n > 0 {
      assert IsStep(c, ss[n - 1], acts[n - 1], ss[n]);
      StepShape(c, ss[n - 1], acts[n - 1]);
    }
  }

  // ----- good rounds -----

  lemma {:induction false} MasterInv(c: Config, s: State, v: View, err: bool) returns (v': View)
    requires Inv(c, s, v) && MasterEnabled(c, s, err) && (s.ms.pc.MDone? ==> c.Room())
    ensures Inv(c, MasterNext(c, s, err), v')
  {
    hide MasterNext, MasterIs, RankIs, LinkIs, LogIs, FrontIs;
    match s.ms.pc
    case MSess => v' := v; SessInv(c, s, v, err);
    case MPrefill => v' := PrefillInv(c, s, v, err);
    case MPrefillWait => v' := PrefillWaitInv(c, s, v, err);
    case MDecode => v' := DecodeInv(c, s, v, err);
    case MSend(_) => v' := SendTokenInv(c, s, v, err);
    case MFlush => v' := FlushInv(c, s, v, err);
    case MEos => v' := EosInv(c, s, v, err);
    case MEosWait => v' := FlushInv(c, s, v, err);
    case MDone => v' := DoneInv(c, s, v, err);
  }

  lemma {:induction false} StepInv(c: Config, s: State, v: View, a: Action) returns (v': View)
    requires Inv(c, s, v) && Enabled(c, s, a) && (s.ms.pc.MDone? && a.r == 0 ==> c.Room())
    ensures Inv(c, Next(c, s, a), v')
  {
    hide MasterNext, WorkerNext, MasterEnabled, WorkerEnabled, MasterIs, RankIs, LinkIs, LogIs, FrontIs;
    if a.r == 0 {
      v' := MasterInv(c, s, v, a.err);
    } else {
      match s.ranks[a.r].work
      case Shake => v' := ShakeInv(c, s, v, a.r, a.err);
      case Wait => v' := WaitInv(c, s, v, a.r, a.err);
      case Hold(_) => v' := HoldInv(c, s, v, a.r, a.err);
    }
  }

  lemma {:induction false} ExitStays(c: Config, s: State, a: Action)
    requires c.Valid() && Shape(c, s) && Enabled(c, s, a)
    ensures s.ms.pc.MExit? ==> Next(c, s, a).ms.pc.MExit?
    ensures s.ms.pc.MDone? && a.r == 0 ==> Next(c, s, a).ms.pc.MExit?
  {
    hide SendActs, Compute;
  }

  /** The invariant holds in every state of every round whose segments restored their rows;
      once rank 0 has left, provided the prompt left room. */
  lemma {:induction false} RunInv(c: Config, ss: seq<State>, acts: seq<Action>, n: nat) returns (v: View)
    requires IsRun(c, ss, acts) && n < |ss| && c.Restored()
    requires c.Room() || !ss[n].ms.pc.MExit?
    ensures Inv(c, ss[n], v)
  {
    hide *;
    RunStart(c, ss, acts);
    if n == 0 {
      InitInv(c);
      v := InitView(c);
    } else {
      RunStep(c, ss, acts, n - 1);
      ExitStays(c, ss[n - 1], acts[n - 1]);
      v := RunInv(c, ss, acts, n - 1);
      v := StepInv(c, ss[n - 1], v, acts[n - 1]);
    }
  }

  /** Segment q ended at the single process's position, with its rows. */
  ghost predicate SegmentAt(c: Config, s: State, q: nat, r: Run)
    requires c.Valid() && Shape(c, s) && q < c.ranks && Fine(c.g, r)
  {
    assert c.SegmentOk(q) && RankOk(c, s.ranks[q]);
    && !s.ranks[q].failed && s.ranks[q].pos == r.pos
    && Agree(c.g.m, s.ranks[q].mem, r.mem, c.cut[q], c.cut[q + 1], r.pos)
  }

  /** What rank 0 leaves with: success, the tokens, position and rows of the single process. */
  ghost predicate MasterAt(c: Config, s: State) {
    && c.Valid() && Shape(c, s)
    && s.ms.ok && s.ms.out == Final(c).out && SegmentAt(c, s, 0, Final(c))
    && s.ms.xSent == s.ms.logRecv + if c.Room() then 0 else 1
  }

  lemma {:induction false} MasterLeaves(c: Config, s: State, v: View, err: bool)
    requires Inv(c, s, v) && s.ms.pc.MDone? && MasterEnabled(c, s, err)
    ensures MasterAt(c, MasterNext(c, s, err))
  {
    hide Full, Logits, StageXs, Local, Decoded;
    MasterShape(c, s, err);
    assert RankIs(c, s, v, 0) && c.SegmentOk(0) && RankOk(c, s.ranks[0]);
  }

  /** A rank that has left changes no more, and neither does rank 0's result. */
  lemma {:induction false} StepFrozen(c: Config, s: State, a: Action, q: nat)
    requires c.Valid() && Shape(c, s) && Enabled(c, s, a) && q < c.ranks && s.ranks[q].exited
    ensures
      var s' := Next(c, s, a);
      && |s'.ranks| == c.ranks && s'.ranks[q] == s.ranks[q] && (q == 0 ==> s'.ms == s.ms)
  {
    hide Compute;
    if a.r > 0 {
      WorkerEffect(c, s, a.r, a.err);
    } else if q > 0 {
      MasterOnly(c, s, a.err);
    }
  }

  lemma {:induction false} MasterOnly(c: Config, s: State, err: bool)
    requires c.Valid() && Shape(c, s) && MasterEnabled(c, s, err)
    ensures MasterNext(c, s, err).ranks == s.ranks[0 := MasterNext(c, s, err).ranks[0]]
  {
    hide Compute;
  }

  lemma {:induction false} LeavesFromDone(c: Config, s: State, a: Action)
    requires c.Valid() && Shape(c, s) && Enabled(c, s, a) && !s.ms.pc.MExit? && Next(c, s, a).ms.pc.MExit?
    ensures s.ms.pc.MDone? && a.r == 0
  {
    hide SendActs, Compute;
    if a.r > 0 { WorkerEffect(c, s, a.r, a.err); }
  }

  /** Rank 0's result, whatever the other ranks still do and whether or not the prompt left room. */
  lemma {:induction false} MasterResult(c: Config, ss: seq<State>, acts: seq<Action>, n: nat)
    requires IsRun(c, ss, acts) && n < |ss| && c.Restored() && ss[n].ms.pc.MExit?
    ensures MasterAt(c, ss[n])
  {
    hide *;
    NotAtStart(c, ss, acts, n);
    var s, a := ss[n - 1], acts[n - 1];
    RunStep(c, ss, acts, n - 1);
    RunShape(c, ss, acts, n);
    if s.ms.pc.MExit? {
      MasterResult(c, ss, acts, n - 1);
      ShapeSizes(c, s);
      ExitIsLeft(c, s);
      StepFrozen(c, s, a, 0);
      MasterStays(c, s, ss[n]);
    } else {
      LeavesFromDone(c, s, a);
      var v := RunInv(c, ss, acts, n - 1);
      MasterSteps(c, s, a);
      MasterLeaves(c, s, v, a.err);
    }
  }

  lemma {:induction false} NotAtStart(c: Config, ss: seq<State>, acts: seq<Action>, n: nat)
    requires IsRun(c, ss, acts) && n < |ss| && ss[n].ms.pc.MExit?
    ensures n > 0 && |ss| == |acts| + 1
  {
  }

  lemma {:induction false} ExitIsLeft(c: Config, s: State)
    requires c.Valid() && Shape(c, s) && s.ms.pc.MExit?
    ensures s.ranks[0].exited
  {
  }

  lemma {:induction false} MasterSteps(c: Config, s: State, a: Action)
    requires c.Valid() && Shape(c, s) && Enabled(c, s, a) && a.r == 0
    ensures MasterEnabled(c, s, a.err) && Next(c, s, a) == MasterNext(c, s, a.err)
  {
    hide MasterEnabled, MasterNext;
  }

  lemma {:induction false} MasterStays(c: Config, s: State, s': State)
    requires MasterAt(c, s) && Shape(c, s') && s'.ms == s.ms && s'.ranks != [] && s'.ranks[0] == s.ranks[0]
    ensures MasterAt(c, s')
  {
    hide Local, Final, LinksOk;
  }

  /** A round whose segments restored their rows succeeds with exactly the tokens and the final
      position of the single-process loop, and rank 0's rows are those of the loop; when the
      prompt leaves room, every segment's rows and row count are. */
  lemma {:induction false} PipelineRefinesLocal(c: Config, ss: seq<State>, acts: seq<Action>)
    requires IsRun(c, ss, acts) && c.Restored() && ss[|acts|].ms.pc.MExit?
    ensures
      var s, r := ss[|acts|], Local(c.g, c.mem0, c.start, c.prompt, c.seed);
      && s.ms.ok && s.ms.out == r.out
      && Shape(c, s) && SegmentAt(c, s, 0, r)
      && (c.Room() ==> forall q :: 0 <= q < c.ranks ==> SegmentAt(c, s, q, r))
  {
    MasterResult(c, ss, acts, |acts|);
    if c.Room() {
      var v := RunInv(c, ss, acts, |acts|);
      SegmentsStand(c, ss[|acts|], v);
    }
  }

  lemma {:induction false} SegmentsStand(c: Config, s: State, v: View)
    requires Inv(c, s, v) && s.ms.pc.MExit?
    ensures forall q :: 0 <= q < c.ranks ==> SegmentAt(c, s, q, Final(c))
  {
    hide Full, Logits, StageXs, Local;
    FullEmpty(c.g.m, v.gm, v.base);
    forall q | 0 <= q < c.ranks
      ensures SegmentAt(c, s, q, Final(c))
    {
      assert RankIs(c, s, v, q) && c.SegmentOk(q) && RankOk(c, s.ranks[q]);
    }
  }

  // ----- flow control -----

  function NumActs(q: seq<Frame>): (n: nat) {
    if q == [] then 0 else (if q[0].Acts? then 1 else 0) + NumActs(q[1..])
  }

  function LinkActs(links: seq<seq<Frame>>, n: nat): (k: nat)
    requires n <= |links|
  {
    if n == 0 then 0 else LinkActs(links, n - 1) + NumActs(links[n - 1])
  }

  function Held(ranks: seq<Rank>, n: nat): (k: nat)
    requires n <= |ranks|
  {
    if n == 0 then 0 else Held(ranks, n - 1) + if ranks[n - 1].work.Hold? then 1 else 0
  }

  /** Activation frames on links or in a worker's hands, and logits on the way back. */
  function InFlight(s: State): (n: nat) {
    LinkActs(s.links, |s.links|) + Held(s.ranks, |s.ranks|) + |s.log|
  }

  predicate Awaits(c: Config, s: State)
    requires s.ranks != []
  {
    s.ms.pc.MPrefillWait? || s.ms.pc.MFlush? || s.ms.pc.MEosWait? || (s.ms.pc.MDecode? && !DecodeEnds(c, s))
  }

  lemma {:induction false} LinkCountAt(c: Config, s: State, v: View, r: nat)
    requires ViewOk(c, v) && |s.links| == c.ranks - 1 && r < c.ranks - 1 && LinkIs(c, s, v, r)
    ensures NumActs(s.links[r]) == if v.at == 2 * r + 1 then 1 else 0
  {
    var sess := if r == v.h && !s.ms.pc.MSess? then [Sess(c.start)] else [];
    var unit := if v.at == 2 * r + 1 then [Unit(c, v, r + 1)] else [];
    var done := if r == v.d then [Done] else [];
    assert s.links[r] == sess + unit + done;
    hide LinkIs, ViewOk;
    NumActsAppend(sess + unit, done);
    NumActsAppend(sess, unit);
  }

  lemma {:induction false} LinkCount(c: Config, s: State, v: View, n: nat)
    requires Inv(c, s, v) && n <= c.ranks - 1
    ensures LinkActs(s.links, n) == if v.at % 2 == 1 && v.at < 2 * n then 1 else 0
  {
    hide Full, StageXs, Logits, MasterIs, RankIs, LinkIs, NumActs, LogIs, FrontIs;
    if n > 0 {
      LinkCount(c, s, v, n - 1);
      LinkCountAt(c, s, v, n - 1);
    }
  }

  lemma {:induction false} NumActsAppend(a: seq<Frame>, b: seq<Frame>)
    ensures NumActs(a + b) == NumActs(a) + NumActs(b)
  {
    if a == [] {
      assert a + b == b;
    } else {
      NumActsAppend(a[1..], b);
      assert (a + b)[1..] == a[1..] + b;
    }
  }

  lemma {:induction false} HeldCount(c: Config, s: State, v: View, n: nat)
    requires Inv(c, s, v) && n <= c.ranks
    ensures Held(s.ranks, n) == if v.at % 2 == 0 && v.at < 2 * n then 1 else 0
  {
    hide Full, StageXs, Logits, MasterIs, LinkIs;
    if n > 0 {
      HeldCount(c, s, v, n - 1);
      assert RankIs(c, s, v, n - 1);
    }
  }

  /** In every state of a good round at most one unit is in flight, the frame counters say
      whether there is one (until rank 0 has left with its last logits unread), rank 0 blocks on
      logits only while one is pending, and from DONE on all logits have been read exactly when
      the prompt left room. */
  lemma {:induction false} FlowControl(c: Config, ss: seq<State>, acts: seq<Action>, n: nat)
    requires IsRun(c, ss, acts) && n < |ss| && c.Restored()
    ensures
      var s := ss[n];
      && s.ranks != [] && InFlight(s) <= s.ms.xSent - s.ms.logRecv <= 1
      && (c.Room() || !s.ms.pc.MExit? ==> InFlight(s) == s.ms.xSent - s.ms.logRecv)
      && s.logSent == s.ms.logRecv + |s.log|
      && (Awaits(c, s) ==> InFlight(s) == 1)
      && (s.ms.pc.MDone? || s.ms.pc.MExit? ==> (s.ms.xSent == s.ms.logRecv <==> c.Room()))
  {
    hide Inv, Local, IsRun, InFlight;
    if ss[n].ms.pc.MExit? { MasterResult(c, ss, acts, n); }
    if c.Room() || !ss[n].ms.pc.MExit? {
      var v := RunInv(c, ss, acts, n);
      FlowAt(c, ss[n], v);
    } else {
      FlowAfter(c, ss, acts, n);
    }
  }

  function HeldAt(k: Rank): (n: nat) {
    if k.work.Hold? then 1 else 0
  }

  lemma {:induction false} LinkActsUpdate(links: seq<seq<Frame>>, n: nat, r: nat, q: seq<Frame>)
    requires n <= |links| && r < |links|
    ensures LinkActs(links[r := q], n) == LinkActs(links, n) + if r < n then NumActs(q) - NumActs(links[r]) else 0
  {
    hide NumActs;
    if n > 0 { LinkActsUpdate(links, n - 1, r, q); }
  }

  lemma {:induction false} HeldUpdate(ranks: seq<Rank>, n: nat, r: nat, k: Rank)
    requires n <= |ranks| && r < |ranks|
    ensures Held(ranks[r := k], n) == Held(ranks, n) + if r < n then HeldAt(k) - HeldAt(ranks[r]) else 0
  {
    if n > 0 { HeldUpdate(ranks, n - 1, r, k); }
  }

  function Handled(s: State, r: nat): (n: nat)
    requires 0 < r < |s.ranks| == |s.links| + 1
  {
    HeldAt(s.ranks[r]) + |s.log| + NumActs(s.links[r - 1]) + if r < |s.links| then NumActs(s.links[r]) else 0
  }

  /** The frame a worker takes from its link, what it holds and the logits it sends. */
  lemma {:induction false} WorkerHands(c: Config, s: State, r: nat, err: bool)
    requires c.Valid() && Shape(c, s) && 0 < r < c.ranks && WorkerEnabled(c, s, r, err)
    ensures
      var s', k, q := WorkerNext(c, s, r, err), s.ranks[r], s.links[r - 1];
      && |s'.ranks| == c.ranks && s'.ranks == s.ranks[r := s'.ranks[r]]
      && s'.logSent - |s'.log| == s.logSent - |s.log|
      && HeldAt(s'.ranks[r]) <= (if k.work.Wait? && q != [] && q[0].Acts? then 1 else 0)
      && |s'.log| <= |s.log| + (if k.work.Hold? && r + 1 == c.ranks then 1 else 0)
      && (k.work.Shake? && q != [] ==> q[0].Sess?)
  {
    hide Compute;
  }

  /** What a worker takes in it keeps, passes on or drops. */
  lemma {:induction false} WorkerCarries(c: Config, s: State, r: nat, err: bool)
    requires c.Valid() && Shape(c, s) && 0 < r < c.ranks && WorkerEnabled(c, s, r, err)
    ensures
      var s' := WorkerNext(c, s, r, err);
      && |s'.ranks| == c.ranks && s'.ranks == s.ranks[r := s'.ranks[r]] && |s'.links| == c.ranks - 1
      && Handled(s', r) <= Handled(s, r)
  {
    WorkerHands(c, s, r, err);
    WorkerEffect(c, s, r, err);
    var s', q := WorkerNext(c, s, r, err), s.links[r - 1];
    hide WorkerNext, WorkerEnabled, Shape;
    if r + 1 < c.ranks && s'.links[r] != s.links[r] {
      var f := s'.links[r][|s.links[r]|];
      assert s'.links[r] == s.links[r] + [f] && NumActs([f]) == if f.Acts? then 1 else 0;
      NumActsAppend(s.links[r], [f]);
    }
  }

  lemma {:induction false} FlowParts(s: State, r: nat)
    requires 0 < r < |s.ranks| == |s.links| + 1
    ensures InFlight(s) == LinkActs(s.links, |s.links|) + Held(s.ranks, |s.ranks|) + |s.log|
    ensures Handled(s, r) == HeldAt(s.ranks[r]) + |s.log| + NumActs(s.links[r - 1])
                             + (if r < |s.links| then NumActs(s.links[r]) else 0)
  {
  }

  lemma {:induction false} WorkerFlow(c: Config, s: State, r: nat, err: bool)
    requires c.Valid() && Shape(c, s) && 0 < r < c.ranks && WorkerEnabled(c, s, r, err)
    ensures InFlight(WorkerNext(c, s, r, err)) <= InFlight(s)
  {
    hide *;
    ShapeSizes(c, s);
    WorkerCarries(c, s, r, err);
    WorkerEffect(c, s, r, err);
    var s' := WorkerNext(c, s, r, err);
    FlowParts(s, r);
    FlowParts(s', r);
    HeldUpdate(s.ranks, c.ranks, r, s'.ranks[r]);
    LinkActsUpdate(s.links, c.ranks - 1, r - 1, s'.links[r - 1]);
    var mid := s.links[r - 1 := s'.links[r - 1]];
    if r + 1 < c.ranks {
      LinkActsUpdate(mid, c.ranks - 1, r, s'.links[r]);
      assert s'.links == mid[r := s'.links[r]];
    } else {
      assert s'.links == mid;
    }
  }

  lemma {:induction false} ShapeSizes(c: Config, s: State)
    requires c.Valid() && Shape(c, s)
    ensures |s.ranks| == c.ranks >= 2 && |s.links| == c.ranks - 1
  {
  }

  /** Leaving sends no unit. */
  lemma {:induction false} ExitFlow(c: Config, s: State, err: bool)
    requires c.Valid() && Shape(c, s) && s.ms.pc.MDone? && MasterEnabled(c, s, err)
    ensures
      var s' := MasterNext(c, s, err);
      InFlight(s') == InFlight(s) && s'.log == s.log && s'.logSent == s.logSent && s'.ms == s.ms.(pc := MExit)
  {
    var s' := MasterNext(c, s, err);
    HeldUpdate(s.ranks, c.ranks, 0, s'.ranks[0]);
    if !err {
      NumActsAppend(s.links[0], [Done]);
      LinkActsUpdate(s.links, c.ranks - 1, 0, s'.links[0]);
    }
    hide LinkActs, Held, NumActs;
  }

  /** Nothing new is in flight once rank 0 has left. */
  lemma {:induction false} FlowAfter(c: Config, ss: seq<State>, acts: seq<Action>, n: nat)
    requires IsRun(c, ss, acts) && n < |ss| && c.Restored() && ss[n].ms.pc.MExit?
    ensures ss[n].ranks != [] && InFlight(ss[n]) <= ss[n].ms.xSent - ss[n].ms.logRecv
    ensures ss[n].logSent == ss[n].ms.logRecv + |ss[n].log|
  {
    hide InFlight, Inv, MasterNext, WorkerNext, MasterEnabled, WorkerEnabled;
    var s, a := ss[n - 1], acts[n - 1];
    assert IsStep(c, s, a, ss[n]);
    RunShape(c, ss, acts, n);
    if s.ms.pc.MExit? {
      FlowAfter(c, ss, acts, n - 1);
      ExitIdle(c, s, a.err);
      WorkerFlow(c, s, a.r, a.err);
      WorkerHands(c, s, a.r, a.err);
      WorkerEffect(c, s, a.r, a.err);
    } else {
      LeavesFromDone(c, s, a);
      var v := RunInv(c, ss, acts, n - 1);
      FlowAt(c, s, v);
      ExitFlow(c, s, a.err);
    }
  }

  lemma {:induction false} ExitIdle(c: Config, s: State, err: bool)
    requires c.Valid() && Shape(c, s) && s.ms.pc.MExit?
    ensures !MasterEnabled(c, s, err)
  {
  }

  lemma {:induction false} FlowAt(c: Config, s: State, v: View)
    requires Inv(c, s, v)
    ensures s.ranks != [] && InFlight(s) == (if v.toks == [] then 0 else 1) == s.ms.xSent - s.ms.logRecv
    ensures s.logSent == s.ms.logRecv + |s.log|
    ensures Awaits(c, s) ==> v.toks != []
    ensures s.ms.pc.MDone? ==> (v.toks == [] <==> c.Room())
  {
    hide Full, StageXs, Logits, RankIs, LinkIs, Decode, Decoded, Final, Feed;
    LinkCount(c, s, v, c.ranks - 1);
    HeldCount(c, s, v, c.ranks);
  }

  // ----- frames arrive in order -----

  predicate NoSess(q: seq<Frame>) {
    forall j :: 0 <= j < |q| ==> !q[j].Sess?
  }

  ghost predicate UpShaken(s: State, r: nat)
    requires r < |s.ranks|
  {
    if r == 0 then !s.ms.pc.MSess? else !s.ranks[r].work.Shake?
  }

  /** The handshake is the first frame on every link. */
  ghost predicate OrderAt(c: Config, s: State, r: nat)
    requires c.Valid() && Shape(c, s) && 0 < r < c.ranks
  {
    var k, q := s.ranks[r], s.links[r - 1];
    if k.work.Shake? then
      && !k.exited
      && (if UpShaken(s, r - 1) then q != [] && q[0] == Sess(c.start) && NoSess(q[1..]) else q == [])
    else UpShaken(s, r - 1) && NoSess(q)
  }

  ghost predicate Order(c: Config, s: State) {
    && c.Valid() && Shape(c, s)
    && (forall r :: 0 < r < c.ranks ==> OrderAt(c, s, r))
  }

  /** A later frame on a link changes nothing at its reader. */
  lemma {:induction false} OrderKept(c: Config, s: State, s': State, r: nat)
    requires c.Valid() && Shape(c, s) && Shape(c, s') && 0 < r < c.ranks && OrderAt(c, s, r)
    requires s'.ranks[r] == s.ranks[r] && UpShaken(s', r - 1) == UpShaken(s, r - 1)
    requires s'.links[r - 1] == s.links[r - 1]
      || (UpShaken(s, r - 1) && exists f: Frame :: !f.Sess? && s'.links[r - 1] == s.links[r - 1] + [f])
    ensures OrderAt(c, s', r)
  {
    hide UpShaken;
    var q, q' := s.links[r - 1], s'.links[r - 1];
    if q' != q {
      var f: Frame :| !f.Sess? && q' == q + [f];
      if q != [] {
        assert q'[1..] == q[1..] + [f];
      }
    }
  }

  /** What rank 0's step does to the first link. */
  lemma {:induction false} MasterEffect(c: Config, s: State, err: bool)
    requires c.Valid() && Shape(c, s) && MasterEnabled(c, s, err) && (s.ms.pc.MSess? ==> !err)
    ensures
      var s' := MasterNext(c, s, err);
      && |s'.ranks| == |s.ranks| && |s'.links| == |s.links|
      && (forall j :: 0 < j < |s.ranks| ==> s'.ranks[j] == s.ranks[j])
      && (forall j :: 0 < j < |s.links| ==> s'.links[j] == s.links[j])
      && !s'.ms.pc.MSess?
      && (s.ms.pc.MSess? ==> s'.links[0] == s.links[0] + [Sess(c.start)])
      && (!s.ms.pc.MSess? ==> s'.links[0] == s.links[0]
                              || (exists f: Frame :: !f.Sess? && s'.links[0] == s.links[0] + [f]))
  {
    hide Compute;
  }

  lemma {:induction false} MasterOrder(c: Config, s: State, err: bool)
    requires Order(c, s) && MasterEnabled(c, s, err)
    ensures Order(c, MasterNext(c, s, err))
  {
    MasterShape(c, s, err);
    MasterGreets(c, s, err);
    MasterEffect(c, s, err);
    var s' := MasterNext(c, s, err);
    assert forall r :: 0 < r < c.ranks ==> OrderAt(c, s, r);
    hide MasterNext, MasterEnabled, Shape;
    forall r | 0 < r < c.ranks
      ensures OrderAt(c, s', r)
    {
      assert OrderAt(c, s, r);
      if r == 1 && s.ms.pc.MSess? {
        FirstFrame(c, s, s');
      } else {
        if s'.links[r - 1] != s.links[r - 1] {
          var f: Frame :| !f.Sess? && s'.links[0] == s.links[0] + [f];
        }
        OrderKept(c, s, s', r);
      }
    }
  }

  /** Rank 1 is there to take the handshake. */
  lemma {:induction false} MasterGreets(c: Config, s: State, err: bool)
    requires Order(c, s) && MasterEnabled(c, s, err)
    ensures s.ms.pc.MSess? ==> !err
  {
    assert OrderAt(c, s, 1);
  }

  lemma {:induction false} FirstFrame(c: Config, s: State, s': State)
    requires c.Valid() && Shape(c, s) && Shape(c, s') && OrderAt(c, s, 1) && s.ms.pc.MSess? && !s'.ms.pc.MSess?
    requires s'.ranks[1] == s.ranks[1] && s'.links[0] == s.links[0] + [Sess(c.start)]
    ensures OrderAt(c, s', 1)
  {
    assert s.links[0] == [];
  }

  /** The frames a worker's step takes and sends. */
  lemma {:induction false} WorkerEffect(c: Config, s: State, r: nat, err: bool)
    requires c.Valid() && Shape(c, s) && 0 < r < c.ranks && WorkerEnabled(c, s, r, err)
    ensures
      var s', k, q := WorkerNext(c, s, r, err), s.ranks[r], s.links[r - 1];
      && s'.ms == s.ms && |s'.ranks| == c.ranks && |s'.links| == c.ranks - 1
      && (forall j :: 0 <= j < c.ranks && j != r ==> s'.ranks[j] == s.ranks[j])
      && (forall j :: 0 <= j < c.ranks - 1 && j != r && j != r - 1 ==> s'.links[j] == s.links[j])
      && s'.links[r - 1] == (if k.work.Hold? || q == [] then q else q[1..])
      && (r + 1 < c.ranks ==>
            || s'.links[r] == s.links[r]
            || (k.work.Shake? && q != [] && s'.links[r] == s.links[r] + [q[0]])
            || (k.work.Wait? && s'.links[r] == s.links[r] + [Done])
            || (k.work.Hold? && exists f: Frame :: f.Acts? && s'.links[r] == s.links[r] + [f]))
      && (k.work.Shake? && r + 1 < c.ranks && q != [] && !s.ranks[r + 1].exited ==> s'.links[r] == s.links[r] + [q[0]])
      && !s'.ranks[r].work.Shake? && (k.work.Shake? ==> s'.ranks[r].work.Wait? && s'.ranks[r].exited == k.exited)
  {
    hide Compute;
  }

  lemma {:induction false} WorkerOrder(c: Config, s: State, r: nat, err: bool)
    requires Order(c, s) && 0 < r < c.ranks && WorkerEnabled(c, s, r, err)
    ensures Order(c, WorkerNext(c, s, r, err))
  {
    WorkerShape(c, s, r, err);
    forall j | 0 < j < c.ranks
      ensures OrderAt(c, WorkerNext(c, s, r, err), j)
    {
      assert OrderAt(c, s, j) && OrderAt(c, s, r);
      hide WorkerNext, WorkerEnabled, Shape, OrderAt;
      if j == r {
        WorkerOwn(c, s, r, err);
      } else if j == r + 1 {
        WorkerBelow(c, s, r, err);
      } else {
        WorkerEffect(c, s, r, err);
        OrderKept(c, s, WorkerNext(c, s, r, err), j);
      }
    }
  }

  /** The stepping worker's own input: it lost its first frame, or nothing. */
  lemma {:induction false} WorkerOwn(c: Config, s: State, r: nat, err: bool)
    requires Order(c, s) && 0 < r < c.ranks && WorkerEnabled(c, s, r, err) && Shape(c, WorkerNext(c, s, r, err))
    ensures OrderAt(c, WorkerNext(c, s, r, err), r)
  {
    WorkerEffect(c, s, r, err);
    assert OrderAt(c, s, r);
    if s.ranks[r].work.Shake? {
      ShakeHead(c, s, r, err);
      UpstreamShaken(c, s, r);
    }
    hide WorkerNext, WorkerEnabled, Shape;
  }

  lemma {:induction false} UpstreamShaken(c: Config, s: State, r: nat)
    requires Order(c, s) && 0 < r < c.ranks && s.ranks[r].work.Shake? && s.links[r - 1] != []
    ensures UpShaken(s, r - 1)
  {
    assert OrderAt(c, s, r);
  }

  /** The input of the worker below the stepping one. */
  lemma {:induction false} WorkerBelow(c: Config, s: State, r: nat, err: bool)
    requires Order(c, s) && 0 < r < c.ranks - 1 && WorkerEnabled(c, s, r, err) && Shape(c, WorkerNext(c, s, r, err))
    ensures OrderAt(c, WorkerNext(c, s, r, err), r + 1)
  {
    WorkerEffect(c, s, r, err);
    assert OrderAt(c, s, r + 1) && OrderAt(c, s, r);
    var s' := WorkerNext(c, s, r, err);
    if s.ranks[r].work.Shake? {
      ShakeHead(c, s, r, err);
      hide WorkerNext, WorkerEnabled, Shape;
      assert s'.links[r] == [Sess(c.start)];
    } else {
      hide WorkerNext, WorkerEnabled, Shape;
      OrderKept(c, s, s', r + 1);
    }
  }

  /** A worker shakes hands only on a handshake frame, never at the end of its input. */
  lemma {:induction false} ShakeHead(c: Config, s: State, r: nat, err: bool)
    requires Order(c, s) && 0 < r < c.ranks && s.ranks[r].work.Shake? && WorkerEnabled(c, s, r, err)
    ensures s.links[r - 1] != [] && s.links[r - 1][0] == Sess(c.start) && NoSess(s.links[r - 1][1..])
    ensures r + 1 < c.ranks ==> !s.ranks[r + 1].exited && s.ranks[r + 1].work.Shake? && s.links[r] == []
  {
    assert OrderAt(c, s, r);
    if r > 1 { assert OrderAt(c, s, r - 1); }
    if r + 1 < c.ranks { assert OrderAt(c, s, r + 1); }
  }

  lemma {:induction false} RunOrder(c: Config, ss: seq<State>, acts: seq<Action>, n: nat)
    requires IsRun(c, ss, acts) && n < |ss|
    ensures Order(c, ss[n])
  {
    if n == 0 {
      forall r | 0 < r < c.ranks
        ensures OrderAt(c, ss[0], r)
      {
      }
    } else {
      hide MasterNext, WorkerNext, MasterEnabled, WorkerEnabled;
      RunOrder(c, ss, acts, n - 1);
      var s, a := ss[n - 1], acts[n - 1];
      assert IsStep(c, s, a, ss[n]);
      if a.r == 0 { MasterOrder(c, s, a.err); } else { WorkerOrder(c, s, a.r, a.err); }
    }
  }
}
