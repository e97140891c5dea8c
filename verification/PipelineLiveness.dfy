/**
  Rounds of the layer pipeline that a segment refuses, absence of deadlock, termination.
*/
module PipelineLiveness {
  import opened Engine
  import opened Generation
  import opened Pipeline
  import opened PipelineProof
  import opened PipelineRuns

  // ----- a segment that restored too few rows -----

  /** Segment w holds fewer rows than the handshake asks for. */
  ghost predicate Refuses(c: Config, w: nat) {
    c.Valid() && 0 < w < c.ranks && c.have[w] < c.start
  }

  /** The one family of rounds in which rank 0 never reads logits: a one-frame prompt that
      fills the sequence. */
  predicate Slips(c: Config) {
    !c.Room() && |c.prompt| <= PP_XB
  }

  predicate NoActs(q: seq<Frame>) {
    forall j :: 0 <= j < |q| ==> !q[j].Acts?
  }

  predicate OnlySess(q: seq<Frame>) {
    forall j :: 0 <= j < |q| ==> q[j].Sess?
  }

  /** A sign that the frame rank 0 waits on is still being worked on, or was refused. */
  ghost predicate Sign(s: State, r: nat)
    requires 0 < r < |s.ranks| && |s.links| + 1 == |s.ranks|
  {
    s.ranks[r].exited || s.ranks[r].work.Hold? || !NoActs(s.links[r - 1])
  }

  /** No activation passes segment w, so no logits ever exist. */
  ghost predicate Silent(c: Config, s: State, w: nat)
    requires Refuses(c, w) && Shape(c, s)
  {
    && (forall r :: w <= r < c.ranks - 1 ==> NoActs(s.links[r]))
    && (forall r :: w <= r < c.ranks ==> !s.ranks[r].work.Hold?)
    && (if s.ranks[w].work.Shake? then s.ranks[w].pos == c.have[w] else s.ranks[w].failed)
    && s.log == [] && s.logSent == 0 && s.ms.logRecv == 0
  }

  ghost predicate BadMaster(c: Config, s: State)
    requires c.Valid() && Shape(c, s)
  {
    var ms := s.ms;
    && !ms.pend && ms.k == 0 && ms.out == []
    && match ms.pc
       case MSess => ms.ok && ms.xSent == 0 && ms.i == 0
       case MPrefill => ms.ok && ms.xSent == 0 && ms.i == 0
       case MPrefillWait => ms.ok && ms.xSent > 0 && |c.prompt| > PP_XB
       case MDecode => ms.ok && ms.xSent > 0 && |c.prompt| <= PP_XB && s.ranks[0].pos == c.start + |c.prompt|
       case MEos => ms.xSent > 0 && (ms.ok <==> Slips(c)) && (ms.ok ==> s.ranks[0].pos >= c.g.m.maxSeq)
       case MDone => ms.xSent > 0 && (ms.ok <==> Slips(c))
       case MExit => ms.xSent > 0 && (ms.ok <==> Slips(c))
       case _ => false
  }

  /** Before the first activation only handshakes travel and nobody leaves. */
  ghost predicate Quiet(c: Config, s: State)
    requires c.Valid() && Shape(c, s)
  {
    && (forall r :: 0 <= r < c.ranks - 1 ==> OnlySess(s.links[r]))
    && (forall r :: 0 <= r < c.ranks ==> !s.ranks[r].exited && !s.ranks[r].work.Hold?)
  }

  ghost predicate BadInv(c: Config, s: State, w: nat) {
    && Refuses(c, w) && Order(c, s)
    && Silent(c, s, w) && BadMaster(c, s)
    && (s.ms.xSent == 0 ==> Quiet(c, s))
    && (s.ms.pc.MPrefillWait? || s.ms.pc.MDecode? ==> exists r :: 0 < r < c.ranks && Sign(s, r))
  }

  lemma {:induction false} BadMasterStep(c: Config, s: State, w: nat, err: bool)
    requires BadInv(c, s, w) && MasterEnabled(c, s, err)
    ensures BadInv(c, MasterNext(c, s, err), w)
  {
    MasterShape(c, s, err);
    MasterOrder(c, s, err);
    var s' := MasterNext(c, s, err);
    hide Compute, Order;
    if s.ms.pc.MPrefill? {
      hide SendActs;
      SendActsOk(c, s, NextBatch(c, 0), err);
      SendActsPushes(c, s, NextBatch(c, 0), err);
      assert s'.links[0][|s.links[0]|].Acts?;
      assert Sign(s', 1);
    }
  }

  lemma {:induction false} SendActsPushes(c: Config, s: State, toks: seq<Token>, err: bool)
    requires c.Valid() && Shape(c, s) && toks != [] && s.ranks[0].pos + |toks| <= c.g.m.maxSeq
    ensures
      var t := SendActs(c, s, toks, err);
      && t.log == s.log && t.logSent == s.logSent && |t.ranks| == c.ranks && |t.links| == c.ranks - 1
      && (forall r :: 1 <= r < c.ranks ==> t.ranks[r] == s.ranks[r])
      && (forall r :: 1 <= r < c.ranks - 1 ==> t.links[r] == s.links[r])
      && (if err then t.links[0] == s.links[0]
          else exists f: Frame :: f.Acts? && t.links[0] == s.links[0] + [f])
  {
    hide Compute;
  }

  lemma {:induction false} BadSilent(c: Config, s: State, w: nat, r: nat, err: bool)
    requires BadInv(c, s, w) && 0 < r < c.ranks && WorkerEnabled(c, s, r, err)
    ensures Shape(c, WorkerNext(c, s, r, err)) && Silent(c, WorkerNext(c, s, r, err), w)
  {
    WorkerShape(c, s, r, err);
    if s.ranks[r].work.Shake? { ShakeHead(c, s, r, err); }
    hide Compute, Order, BadMaster, Quiet;
  }

  lemma {:induction false} BadQuiet(c: Config, s: State, w: nat, r: nat, err: bool)
    requires BadInv(c, s, w) && 0 < r < c.ranks && WorkerEnabled(c, s, r, err) && s.ms.xSent == 0
    ensures Shape(c, WorkerNext(c, s, r, err)) && Quiet(c, WorkerNext(c, s, r, err))
  {
    WorkerShape(c, s, r, err);
    if s.ranks[r].work.Shake? { ShakeHead(c, s, r, err); }
    hide Compute, Order, BadMaster, Silent;
  }

  lemma {:induction false} BadSign(c: Config, s: State, w: nat, r: nat, err: bool, j: nat) returns (j': nat)
    requires BadInv(c, s, w) && 0 < r < c.ranks && WorkerEnabled(c, s, r, err) && 0 < j < c.ranks && Sign(s, j)
    ensures var s' := WorkerNext(c, s, r, err); 0 < j' < |s'.ranks| == |s'.links| + 1 == c.ranks && Sign(s', j')
  {
    hide WorkerNext, WorkerEnabled, Order, BadMaster, Quiet, Silent, NoActs, Sign;
    BadSizes(c, s, w);
    WorkerEffect(c, s, r, err);
    var s' := WorkerNext(c, s, r, err);
    if j != r {
      j' := j;
      SignStays(s, s', j);
    } else if s.ranks[r].work.Hold? {
      j' := HoldSign(c, s, w, r, err);
    } else {
      j' := r;
      InputSign(c, s, w, r, err);
    }
  }

  lemma {:induction false} BadSizes(c: Config, s: State, w: nat)
    requires BadInv(c, s, w)
    ensures c.Valid() && Shape(c, s) && |s.ranks| == c.ranks && |s.links| == c.ranks - 1
  {
    hide Silent, BadMaster, Quiet, OrderAt;
  }

  /** A rank that does not step keeps its sign: its input only grows. */
  lemma {:induction false} SignStays(s: State, s': State, j: nat)
    requires 0 < j < |s.ranks| == |s'.ranks| == |s.links| + 1 == |s'.links| + 1 && Sign(s, j)
    requires s'.ranks[j] == s.ranks[j]
    requires s'.links[j - 1] == s.links[j - 1] || exists f: Frame :: s'.links[j - 1] == s.links[j - 1] + [f]
    ensures Sign(s', j)
  {
    if !NoActs(s.links[j - 1]) {
      var i :| 0 <= i < |s.links[j - 1]| && s.links[j - 1][i].Acts?;
      assert s'.links[j - 1][i] == s.links[j - 1][i];
    }
  }

  /** What a rank above w holds goes to the next link, or the rank leaves. */
  lemma {:induction false} HoldSign(c: Config, s: State, w: nat, r: nat, err: bool) returns (j: nat)
    requires BadInv(c, s, w) && 0 < r < c.ranks && WorkerEnabled(c, s, r, err) && s.ranks[r].work.Hold?
    ensures var s' := WorkerNext(c, s, r, err); 0 < j < |s'.ranks| == |s'.links| + 1 == c.ranks && Sign(s', j)
  {
    hide Compute, OrderAt, BadMaster, Quiet;
    WorkerShape(c, s, r, err);
    j := if err then r else r + 1;
    if !err {
      assert r < w;
      assert WorkerNext(c, s, r, err).links[r][|s.links[r]|].Acts?;
    }
  }

  /** A rank that reads an activation holds it or leaves; one that reads another frame keeps the
      activations behind it. */
  lemma {:induction false} InputSign(c: Config, s: State, w: nat, r: nat, err: bool)
    requires BadInv(c, s, w) && 0 < r < c.ranks && WorkerEnabled(c, s, r, err) && !s.ranks[r].work.Hold? && Sign(s, r)
    ensures var s' := WorkerNext(c, s, r, err); |s'.ranks| == |s'.links| + 1 == c.ranks && Sign(s', r)
  {
    var s', q := WorkerNext(c, s, r, err), s.links[r - 1];
    WorkerEffect(c, s, r, err);
    if s.ranks[r].work.Shake? { ShakeHead(c, s, r, err); }
    hide Compute, Order, BadMaster, Quiet, Silent;
    if !(s.ranks[r].work.Wait? && q != [] && q[0].Acts?) && !NoActs(q) {
      var i :| 0 <= i < |q| && q[i].Acts?;
      assert i > 0 ==> s'.links[r - 1][i - 1].Acts?;
    }
  }

  lemma {:induction false} BadWorkerStep(c: Config, s: State, w: nat, r: nat, err: bool)
    requires BadInv(c, s, w) && 0 < r < c.ranks && WorkerEnabled(c, s, r, err)
    ensures BadInv(c, WorkerNext(c, s, r, err), w)
  {
    WorkerOrder(c, s, r, err);
    WorkerEffect(c, s, r, err);
    BadSilent(c, s, w, r, err);
    if s.ms.xSent == 0 { BadQuiet(c, s, w, r, err); }
    if s.ms.pc.MPrefillWait? || s.ms.pc.MDecode? {
      var j :| 0 < j < c.ranks && Sign(s, j);
      var j' := BadSign(c, s, w, r, err, j);
    }
    hide Compute, WorkerNext, WorkerEnabled, Silent, Quiet, Sign, Order;
  }

  lemma {:induction false} RunBad(c: Config, ss: seq<State>, acts: seq<Action>, n: nat, w: nat)
    requires IsRun(c, ss, acts) && n < |ss| && Refuses(c, w)
    ensures BadInv(c, ss[n], w)
  {
    hide *;
    if n == 0 {
      BadStart(c, ss, acts, w);
    } else {
      RunStart(c, ss, acts);
      RunBad(c, ss, acts, n - 1, w);
      RunStep(c, ss, acts, n - 1);
      BadStep(c, ss[n - 1], w, acts[n - 1]);
    }
  }

  lemma {:induction false} BadStart(c: Config, ss: seq<State>, acts: seq<Action>, w: nat)
    requires IsRun(c, ss, acts) && Refuses(c, w)
    ensures ss != [] && BadInv(c, ss[0], w)
  {
    RunOrder(c, ss, acts, 0);
    hide Order;
  }

  lemma {:induction false} BadStep(c: Config, s: State, w: nat, a: Action)
    requires BadInv(c, s, w) && c.Valid() && Shape(c, s) && Enabled(c, s, a)
    ensures BadInv(c, Next(c, s, a), w)
  {
    hide MasterNext, WorkerNext, MasterEnabled, WorkerEnabled, BadInv;
    if a.r == 0 { BadMasterStep(c, s, w, a.err); } else { BadWorkerStep(c, s, w, a.r, a.err); }
  }

  /** A round that some segment refuses emits nothing, and rank 0 reports it as an error
      exactly unless the prompt is a single frame that fills the sequence: there rank 0
      never reads logits and reports success. */
  lemma {:induction false} RefusedRoundFails(c: Config, ss: seq<State>, acts: seq<Action>, w: nat)
    requires IsRun(c, ss, acts) && Refuses(c, w) && ss[|acts|].ms.pc.MExit?
    ensures ss[|acts|].ms.ok <==> (!c.Room() && |c.prompt| <= PP_XB)
    ensures ss[|acts|].ms.out == [] && ss[|acts|].logSent == 0
  {
    RunBad(c, ss, acts, |acts|, w);
  }

  // ----- no deadlock -----

  ghost predicate AllLeft(c: Config, s: State) {
    forall r :: 0 <= r < |s.ranks| ==> s.ranks[r].exited
  }

  lemma {:induction false} WorkerCanStep(c: Config, s: State, r: nat)
    requires Order(c, s) && 0 < r < c.ranks && !s.ranks[r].exited
    requires s.ranks[r].work.Hold? || InputReady(s, r)
    ensures WorkerEnabled(c, s, r, false)
  {
    assert OrderAt(c, s, r);
  }

  /** Below a rank that has left, the first rank still there can step. */
  lemma {:induction false} BelowLeft(c: Config, s: State, lo: nat, hi: nat) returns (r: nat)
    requires Order(c, s) && lo < hi < c.ranks && s.ranks[lo].exited && !s.ranks[hi].exited
    ensures 0 < r < c.ranks && WorkerEnabled(c, s, r, false)
    decreases hi - lo
  {
    if s.ranks[lo + 1].exited {
      r := BelowLeft(c, s, lo + 1, hi);
    } else {
      r := lo + 1;
      WorkerCanStep(c, s, r);
    }
  }

  /** While rank 0 waits for logits, something is under way or somebody has left. */
  lemma {:induction false} WaitHasSign(c: Config, ss: seq<State>, acts: seq<Action>) returns (r: nat)
    requires IsRun(c, ss, acts)
    requires var s := ss[|acts|]; s.ranks != [] && Awaits(c, s) && s.log == []
    ensures var s := ss[|acts|]; 0 < r < |s.ranks| == |s.links| + 1 == c.ranks && Sign(s, r)
  {
    hide Inv, Sign, BadInv, InFlight;
    var s := ss[|acts|];
    RunShape(c, ss, acts, |acts|);
    if c.Restored() {
      var v := RunInv(c, ss, acts, |acts|);
      FlowAt(c, s, v);
      r := ViewHasSign(c, s, v);
    } else {
      var w :| 0 <= w < c.ranks && c.have[w] < c.start;
      RunBad(c, ss, acts, |acts|, w);
      r := BadHasSign(c, s, w);
    }
  }

  lemma {:induction false} ViewHasSign(c: Config, s: State, v: View) returns (r: nat)
    requires Inv(c, s, v) && v.toks != [] && s.log == []
    ensures 0 < r < |s.ranks| == |s.links| + 1 == c.ranks && Sign(s, r)
  {
    hide MasterIs, FrontIs, Full, StageXs, Logits;
    r := (v.at + 1) / 2;
    if v.at % 2 == 0 {
      assert RankIs(c, s, v, r);
    } else {
      assert LinkIs(c, s, v, r - 1);
      var u := if r - 1 == v.h && !s.ms.pc.MSess? then 1 else 0;
      assert s.links[r - 1][u].Acts?;
    }
  }

  lemma {:induction false} BadHasSign(c: Config, s: State, w: nat) returns (r: nat)
    requires BadInv(c, s, w) && s.ranks != [] && Awaits(c, s)
    ensures 0 < r < |s.ranks| == |s.links| + 1 == c.ranks && Sign(s, r)
  {
    hide Silent, Quiet, Sign, OrderAt;
    r :| 0 < r < c.ranks && Sign(s, r);
  }

  /** In every reachable state, of good and of refused rounds alike, some rank can step until
      all have left. */
  lemma {:induction false} NoDeadlock(c: Config, ss: seq<State>, acts: seq<Action>) returns (a: Action)
    requires IsRun(c, ss, acts) && !AllLeft(c, ss[|acts|])
    ensures Shape(c, ss[|acts|]) && Enabled(c, ss[|acts|], a)
  {
    var s := ss[|acts|];
    RunShape(c, ss, acts, |acts|);
    RunOrder(c, ss, acts, |acts|);
    var last := c.ranks - 1;
    if s.ms.pc.MExit? {
      var hi :| 0 <= hi < |s.ranks| && !s.ranks[hi].exited;
      var r := BelowLeft(c, s, 0, hi);
      a := Action(r, false);
    } else if MasterEnabled(c, s, false) {
      a := Action(0, false);
    } else if s.ranks[last].exited {
      a := Action(0, true);
    } else {
      var r := WaitHasSign(c, ss, acts);
      if s.ranks[r].exited {
        r := BelowLeft(c, s, r, last);
      } else {
        WorkerCanStep(c, s, r);
      }
      a := Action(r, false);
    }
  }

  // ----- termination -----

  /** Steps rank 0 still has to take, at most. */
  function MasterLeft(c: Config, ms: Master): (n: int) {
    var n, t := 2 * (|c.prompt| - ms.i), 3 * (c.g.ntokens - ms.k);
    match ms.pc
    case MSess => n + t + 7
    case MPrefillWait => n + t + 6
    case MPrefill => n + t + 5
    case MDecode => t + 5
    case MSend(_) => t + 4
    case MFlush => 4
    case MEos => 3
    case MEosWait => 2
    case MDone => 1
    case MExit => 0
  }

  /** The hops a frame on link r still has before it, and those of rank r itself. */
  function LinkCost(c: Config, r: nat): (n: int) {
    3 * (c.ranks - r)
  }

  function RankCost(c: Config, k: Rank, r: nat): (n: int) {
    (if k.exited then 0 else 1) + (if k.work.Shake? then 1 else 0) + (if k.work.Hold? then LinkCost(c, r) + 2 else 0)
  }

  function LinksCost(c: Config, links: seq<seq<Frame>>, n: nat): (k: int)
    requires n <= |links|
  {
    if n == 0 then 0 else LinksCost(c, links, n - 1) + |links[n - 1]| * LinkCost(c, n - 1)
  }

  function RanksCost(c: Config, ranks: seq<Rank>, n: nat): (k: int)
    requires n <= |ranks|
  {
    if n == 0 then 0 else RanksCost(c, ranks, n - 1) + RankCost(c, ranks[n - 1], n - 1)
  }

  function Measure(c: Config, s: State): (n: int) {
    MasterLeft(c, s.ms) * (3 * c.ranks + 1) + LinksCost(c, s.links, |s.links|)
    + RanksCost(c, s.ranks, |s.ranks|) + |s.log|
  }

  lemma {:induction false} LinksCostUpdate(c: Config, links: seq<seq<Frame>>, n: nat, r: nat, q: seq<Frame>)
    requires n <= |links| && r < |links|
    ensures LinksCost(c, links[r := q], n)
            == LinksCost(c, links, n) + if r < n then (|q| - |links[r]|) * LinkCost(c, r) else 0
  {
    if n > 0 {
      LinksCostUpdate(c, links, n - 1, r, q);
      if r == n - 1 {
        assert |q| * LinkCost(c, r) == |links[r]| * LinkCost(c, r) + (|q| - |links[r]|) * LinkCost(c, r);
      }
    }
  }

  lemma {:induction false} RanksCostUpdate(c: Config, ranks: seq<Rank>, n: nat, r: nat, k: Rank)
    requires n <= |ranks| && r < |ranks|
    ensures RanksCost(c, ranks[r := k], n)
            == RanksCost(c, ranks, n) + if r < n then RankCost(c, k, r) - RankCost(c, ranks[r], r) else 0
  {
    if n > 0 {
      RanksCostUpdate(c, ranks, n - 1, r, k);
    }
  }

  lemma {:induction false} MeasureNonneg(c: Config, s: State)
    requires c.Valid() && Shape(c, s)
    ensures Measure(c, s) >= 0
  {
    LinksNonneg(c, s.links, |s.links|);
    RanksNonneg(c, s.ranks, |s.ranks|);
    assert MasterLeft(c, s.ms) >= 0;
  }

  lemma {:induction false} LinksNonneg(c: Config, links: seq<seq<Frame>>, n: nat)
    requires n <= |links| && n <= c.ranks
    ensures LinksCost(c, links, n) >= 0
  {
    if n > 0 { LinksNonneg(c, links, n - 1); }
  }

  lemma {:induction false} RanksNonneg(c: Config, ranks: seq<Rank>, n: nat)
    requires n <= |ranks| && n <= c.ranks
    ensures RanksCost(c, ranks, n) >= 0
  {
    if n > 0 { RanksNonneg(c, ranks, n - 1); }
  }

  lemma {:induction false} AtMostOne(x: int, w: int)
    requires x <= 1 && w >= 0
    ensures x * w <= w
  {
  }

  lemma {:induction false} OneStepLess(a: int, b: int, k: int)
    requires a < b && k >= 0
    ensures a * k + k <= b * k
    decreases k
  {
    if k > 0 {
      OneStepLess(a, b, k - 1);
      assert a * (k - 1) == a * k - a && b * (k - 1) == b * k - b;
    }
  }

  lemma {:induction false} MasterDecreases(c: Config, s: State, err: bool)
    requires c.Valid() && Shape(c, s) && MasterEnabled(c, s, err)
    ensures Measure(c, MasterNext(c, s, err)) < Measure(c, s)
  {
    var s' := MasterNext(c, s, err);
    MasterPays(c, s, err);
    hide MasterNext, MasterEnabled, MasterLeft, RankCost, Shape;
    RanksCostUpdate(c, s.ranks, |s.ranks|, 0, s'.ranks[0]);
    LinksCostUpdate(c, s.links, |s.links|, 0, s'.links[0]);
    AtMostOne(|s'.links[0]| - |s.links[0]|, LinkCost(c, 0));
    OneStepLess(MasterLeft(c, s'.ms), MasterLeft(c, s.ms), 3 * c.ranks + 1);
  }

  /** Each step of rank 0 uses up one of its steps and puts at most one frame on link 0. */
  lemma {:induction false} MasterPays(c: Config, s: State, err: bool)
    requires c.Valid() && Shape(c, s) && MasterEnabled(c, s, err)
    ensures
      var s' := MasterNext(c, s, err);
      && MasterLeft(c, s'.ms) < MasterLeft(c, s.ms)
      && |s'.ranks| == c.ranks && s'.ranks == s.ranks[0 := s'.ranks[0]]
      && RankCost(c, s'.ranks[0], 0) <= RankCost(c, s.ranks[0], 0)
      && |s'.links| == c.ranks - 1 && s'.links == s.links[0 := s'.links[0]]
      && |s'.links[0]| <= |s.links[0]| + 1 && |s'.log| <= |s.log|
  {
    hide MasterNext, MasterEnabled, MasterLeft, RankCost;
    MasterStepLeft(c, s, err);
    MasterFrames(c, s, err);
  }

  lemma {:induction false} MasterStepLeft(c: Config, s: State, err: bool)
    requires c.Valid() && Shape(c, s) && MasterEnabled(c, s, err)
    ensures MasterLeft(c, MasterNext(c, s, err).ms) < MasterLeft(c, s.ms)
  {
    hide Compute, RankCost;
  }

  lemma {:induction false} MasterFrames(c: Config, s: State, err: bool)
    requires c.Valid() && Shape(c, s) && MasterEnabled(c, s, err)
    ensures
      var s' := MasterNext(c, s, err);
      && |s'.ranks| == c.ranks && s'.ranks == s.ranks[0 := s'.ranks[0]]
      && RankCost(c, s'.ranks[0], 0) <= RankCost(c, s.ranks[0], 0)
      && |s'.links| == c.ranks - 1 && s'.links == s.links[0 := s'.links[0]]
      && |s'.links[0]| <= |s.links[0]| + 1 && |s'.log| <= |s.log|
  {
    hide Compute, MasterLeft;
  }

  lemma {:induction false} Bit(x: int, w: int)
    requires x == 0 || x == 1
    ensures x * w == (if x == 1 then w else 0) && (-x) * w == (if x == 1 then -w else 0)
  {
  }

  lemma {:induction false} WorkerDecreases(c: Config, s: State, r: nat, err: bool)
    requires c.Valid() && Shape(c, s) && 0 < r < c.ranks && WorkerEnabled(c, s, r, err)
    ensures Measure(c, WorkerNext(c, s, r, err)) < Measure(c, s)
  {
    var s' := WorkerNext(c, s, r, err);
    WorkerPays(c, s, r, err);
    hide WorkerNext, WorkerEnabled, RankCost, Shape, MasterLeft, LinkCost, LinksCost, RanksCost;
    RanksCostUpdate(c, s.ranks, |s.ranks|, r, s'.ranks[r]);
    LinksCostUpdate(c, s.links, |s.links|, r - 1, s'.links[r - 1]);
    Bit(|s.links[r - 1]| - |s'.links[r - 1]|, LinkCost(c, r - 1));
    var mid := s.links[r - 1 := s'.links[r - 1]];
    if r + 1 < c.ranks {
      LinksCostUpdate(c, mid, |mid|, r, s'.links[r]);
      Bit(|s'.links[r]| - |s.links[r]|, LinkCost(c, r));
      assert s'.links == mid[r := s'.links[r]];
    } else {
      assert s'.links == mid;
    }
  }

  lemma {:induction false} WorkerPays(c: Config, s: State, r: nat, err: bool)
    requires c.Valid() && Shape(c, s) && 0 < r < c.ranks && WorkerEnabled(c, s, r, err)
    ensures
      var s' := WorkerNext(c, s, r, err);
      && s'.ms == s.ms && |s'.ranks| == c.ranks && s'.ranks == s.ranks[r := s'.ranks[r]]
      && |s'.links| == c.ranks - 1
      && (forall j :: 0 <= j < c.ranks - 1 && j != r && j != r - 1 ==> s'.links[j] == s.links[j])
      && (var paid := RankCost(c, s.ranks[r], r) - RankCost(c, s'.ranks[r], r);
          var pop := |s.links[r - 1]| - |s'.links[r - 1]|;
          var push := if r + 1 < c.ranks then |s'.links[r]| - |s.links[r]| else 0;
          var logs := |s'.log| - |s.log|;
          && 0 <= pop <= 1 && 0 <= push <= 1 && 0 <= logs <= 1
          && (if pop == 1 then LinkCost(c, r - 1) else 0) + paid > (if push == 1 then LinkCost(c, r) else 0) + logs)
  {
    hide Compute;
  }

  /** Every run ends: each step lowers the measure, so no run is longer than it. */
  lemma {:induction false} RunsEnd(c: Config, ss: seq<State>, acts: seq<Action>, n: nat)
    requires IsRun(c, ss, acts) && n < |ss|
    ensures n + Measure(c, ss[n]) <= Measure(c, Init(c)) && Measure(c, ss[n]) >= 0
  {
    hide Measure, MasterNext, WorkerNext, MasterEnabled, WorkerEnabled, Shape;
    RunShape(c, ss, acts, n);
    MeasureNonneg(c, ss[n]);
    if n > 0 {
      RunsEnd(c, ss, acts, n - 1);
      var s, a := ss[n - 1], acts[n - 1];
      assert IsStep(c, s, a, ss[n]);
      if a.r == 0 { MasterDecreases(c, s, a.err); } else { WorkerDecreases(c, s, a.r, a.err); }
    }
  }

  // ----- complete runs -----

  lemma {:induction false} RunGrows(c: Config, ss: seq<State>, acts: seq<Action>, a: Action)
    requires IsRun(c, ss, acts) && Shape(c, ss[|acts|]) && Enabled(c, ss[|acts|], a)
    ensures IsRun(c, ss + [Next(c, ss[|acts|], a)], acts + [a])
  {
    hide Shape, Enabled, Next;
    var ss', acts' := ss + [Next(c, ss[|acts|], a)], acts + [a];
    forall n | 0 <= n < |acts'|
      ensures IsStep(c, ss'[n], acts'[n], ss'[n + 1])
    {
      if n < |acts| {
        assert IsStep(c, ss[n], acts[n], ss[n + 1]);
      }
    }
  }

  /** Every run, of a good or of a refused round, extends to one in which all ranks have left. */
  lemma {:induction false} EveryRunCompletes(c: Config, ss: seq<State>, acts: seq<Action>)
    returns (ss': seq<State>, acts': seq<Action>)
    requires IsRun(c, ss, acts)
    ensures IsRun(c, ss', acts') && ss <= ss' && acts <= acts' && AllLeft(c, ss'[|acts'|])
    decreases Measure(c, Init(c)) - |acts|
  {
    hide Measure, Shape, Next, AllLeft, Enabled;
    ss', acts' := ss, acts;
    if !AllLeft(c, ss[|acts|]) {
      var a := NoDeadlock(c, ss, acts);
      RunGrows(c, ss, acts, a);
      RunsEnd(c, ss, acts, |acts|);
      RunsEnd(c, ss + [Next(c, ss[|acts|], a)], acts + [a], |acts| + 1);
      ss', acts' := EveryRunCompletes(c, ss + [Next(c, ss[|acts|], a)], acts + [a]);
    }
  }

  lemma {:induction false} LeftIsExit(c: Config, s: State)
    requires c.Valid() && Shape(c, s) && AllLeft(c, s)
    ensures s.ms.pc.MExit?
  {
    hide LinksOk, MasterOk;
  }

  /** Two ranks, an embedding layer and one block, room for two positions; the round continues at
      position 1 with one token, and rank 1 has restored no rows. */
  function TinyRefusal(): (c: Config) {
    var m := Model(2, 2, l => if l == 0 then NoKv else OwnKv, (l, t, p, x) => [], (l, t, p, rows, x) => []);
    var mem := [[[], []], [[], []]];
    Config(Gen(m, 0, 1, (r, x) => (r, 0)), 2, [0, 1, 2], 1, [7], 0, mem, [mem, mem], [1, 0])
  }

  /** A refused round that rank 0 reports as a success: rank 1 refuses, rank 0 never finds out. */
  lemma {:induction false} RefusalMisreported() returns (c: Config, ss: seq<State>, acts: seq<Action>)
    ensures Refuses(c, 1) && IsRun(c, ss, acts)
    ensures ss[|acts|].ms.pc.MExit? && ss[|acts|].ms.ok && ss[|acts|].logSent == 0
  {
    c := TinyRefusal();
    assert c.g.m.Valid() && c.g.m.Fits(c.mem0);
    assert c.SegmentOk(0) && c.SegmentOk(1);
    assert Refuses(c, 1) && !c.Room() && |c.prompt| == 1;
    hide TinyRefusal, AllLeft, Shape, IsStep;
    ss, acts := EveryRunCompletes(c, [Init(c)], []);
    RunShape(c, ss, acts, |acts|);
    LeftIsExit(c, ss[|acts|]);
    RefusedRoundFails(c, ss, acts, 1);
  }
}
