/**
  What the session protocol answers: one request at the server, and whole runs of requests.
  The one case in which it goes wrong, an exact hit that is sent again in full, is told from what
  goes into the request alone.
*/
module SessionRuns {
  import opened Engine
  import opened Generation
  import opened Session

  // ----- which requests are sent again in full -----

  /** The first attempt is neither answered nor the end of the request: the connection is
      rejected, or the rank cannot place the resume point, or the context is full. */
  predicate FirstFails(g: Gen, p: Plan, rank: RankSt, e: Env)
    requires p.i < |p.ss| && RankFine(g.m, rank) && EnvFine(g.m, e)
  {
    match e.fate
    case Rejected => true
    case Served =>
      var r := if e.restart then Restart(rank, e.junk) else rank;
      !Place(g.m, r, p.ss[p.i].key, p.resume).1 || p.resume + |p.toks| > g.m.maxSeq
    case _ => false
  }

  /** A full resend of `n` tokens is answered: it fits, and one of its attempts is served after
      at most `left` rejections. */
  predicate ResendAnswered(m: Model, n: nat, envs: seq<Env>, left: nat) {
    n <= m.maxSeq && envs != [] &&
    match envs[0].fate
    case Served => true
    case Rejected => left > 0 && ResendAnswered(m, n, envs[1..], left - 1)
    case _ => false
  }

  /** The one case in which the protocol goes wrong: a request that hits a session exactly, whose
      first attempt fails, and whose resend is answered.  Then the single replayed token is sent
      behind the whole session. */
  predicate Doubled(g: Gen, ss: seq<Sess>, rank: RankSt, req: Req, envs: seq<Env>)
    requires req.full != [] && RankFine(g.m, rank) && EnvsFine(g.m, envs)
  {
    var p := MakePlan(ss, req, g.eos);
    && p.replay && envs != [] && FirstFails(g, p, rank, envs[0])
    && ResendAnswered(g.m, |p.ss[p.i].toks| + |p.toks|, envs[1..], 5)
  }

  /** One attempt that starts from position 0. */
  lemma {:induction false} FullStrike(g: Gen, r: RankSt, key: Key, toks: seq<Token>, seed: Rng, e: Env)
    requires RankFine(g.m, r) && toks != [] && EnvFine(g.m, e)
    ensures
      var (s, reply, over) := Strike(g, r, key, 0, toks, seed, e);
      && (over <==> !e.fate.Served? && !e.fate.Rejected?)
      && (!over ==> !reply.Refused? && (reply.Answer? <==> e.fate.Served? && |toks| <= g.m.maxSeq))
  {
    RestartFine(g.m, r, e);
    PlaceAtZero(g.m, if e.restart then Restart(r, e.junk) else r, key);
    hide Place, Local, RankFine;
  }

  lemma {:induction false} FirstStrike(g: Gen, p: Plan, r: RankSt, seed: Rng, e: Env)
    requires p.i < |p.ss| && RankFine(g.m, r) && p.toks != [] && EnvFine(g.m, e)
    ensures
      var (s, reply, over) := Strike(g, r, p.ss[p.i].key, p.resume, p.toks, seed, e);
      && (!over && !reply.Answer? <==> FirstFails(g, p, r, e)) && (over <==> !e.fate.Served? && !e.fate.Rejected?)
      && (e.fate.Rejected? ==> !reply.Answer?)
  {
    RestartFine(g.m, r, e);
    hide Switch, Local, RankFine;
  }

  lemma {:induction false} RestartFine(m: Model, r: RankSt, e: Env)
    requires RankFine(m, r) && EnvFine(m, e)
    ensures RankFine(m, Restart(r, e.junk))
  {
  }

  /** The reaction to a failed resend: once more, at most five times. */
  lemma {:induction false} ResendReacts(p: Plan, l: Loop, req: Req)
    requires p.i < |l.ss| && l.sent
    ensures React(p, l, req, false) == if l.retry < 5 then Retry(l.(retry := l.retry + 1)) else Stop
  {
  }

  lemma {:induction false} ResendOutcome(g: Gen, p: Plan, l: Loop, req: Req, envs: seq<Env>)
    requires p.i < |l.ss| && l.toks != [] && req.full != [] && RankFine(g.m, l.rank)
    requires EnvsFine(g.m, envs) && l.sent && l.retry <= 5
    ensures
      var o := Attempts(g, p, l, req, envs).2;
      && (o.Replied? <==> ResendAnswered(g.m, |Payload(p, l)|, envs, 5 - l.retry))
      && (o.Replied? ==> o.resent)
    decreases |envs|
  {
    hide Strike, React, Attempts, RankFine;
    if envs == [] {
      AttemptsEnd(g, p, l, req);
    } else {
      AttemptsStep(g, p, l, req, envs);
      FullStrike(g, l.rank, l.ss[p.i].key, Payload(p, l), req.seed, envs[0]);
      var (r1, reply, over) := Strike(g, l.rank, l.ss[p.i].key, Resume(l), Payload(p, l), req.seed, envs[0]);
      ResendReacts(p, l.(rank := r1), req);
      if !over && !reply.Answer? && l.retry < 5 {
        ResendOutcome(g, p, l.(rank := r1, retry := l.retry + 1), req, envs[1..]);
      }
    }
  }

  /** A first attempt that fails is answered by a full resend. */
  lemma {:induction false} FirstReacts(p: Plan, l: Loop, req: Req, refused: bool)
    requires p.i < |l.ss| && !l.sent
    ensures
      var a := React(p, l, req, refused);
      a.Retry? && a.l == l.(sent := true, rank := a.l.rank)
  {
  }

  /** Whether a request is answered, whether its answer came from a full resend, and whether a request is doubled, told from the
      rank's state and the fates of the attempts. */
  lemma {:induction false} ResentExactly(g: Gen, ss: seq<Sess>, rank: RankSt, req: Req, envs: seq<Env>)
    requires req.full != [] && RankFine(g.m, rank) && EnvsFine(g.m, envs)
    ensures
      var o, p := Forward(g, ss, rank, req, envs).2, MakePlan(ss, req, g.eos);
      && (o.Replied? <==> envs != [] && if FirstFails(g, p, rank, envs[0]) then
                                          ResendAnswered(g.m, |p.ss[p.i].toks| + |p.toks|, envs[1..], 5)
                                        else envs[0].fate.Served?)
      && (o.Replied? ==> (o.resent <==> FirstFails(g, p, rank, envs[0])))
      && (Doubled(g, ss, rank, req, envs) <==> p.replay && o.Replied? && o.resent)
  {
    hide Strike, React, Attempts, RankFine, MakePlan, FirstFails;
    var p := MakePlan(ss, req, g.eos);
    var l := Loop(p.ss, rank, p.toks, p.resume, false, false, 0);
    if envs == [] {
      AttemptsEnd(g, p, l, req);
    } else {
      AttemptsStep(g, p, l, req, envs);
      FirstStrike(g, p, rank, req.seed, envs[0]);
      var (r1, reply, over) := Strike(g, l.rank, l.ss[p.i].key, Resume(l), Payload(p, l), req.seed, envs[0]);
      if !over && !reply.Answer? {
        FirstReacts(p, l.(rank := r1), req, reply.Refused?);
        ResendOutcome(g, p, React(p, l.(rank := r1), req, reply.Refused?).l, req, envs[1..]);
      }
    }
  }

  /** After `k` rejections the next attempt is served. */
  ghost predicate ServedAfter(envs: seq<Env>, k: nat) {
    k < |envs| && envs[k].fate == Served && forall j :: 0 <= j < k ==> envs[j].fate == Rejected
  }

  lemma {:induction false} RejectionsBorne(m: Model, n: nat, envs: seq<Env>, k: nat, left: nat)
    requires ServedAfter(envs, k) && n <= m.maxSeq
    ensures ResendAnswered(m, n, envs, left) <==> k <= left
  {
    if k > 0 && left > 0 {
      RejectionsBorne(m, n, envs[1..], k - 1, left - 1);
    }
  }

  /** A request that is rejected again and again is tried seven times: it is answered if and only if at most six
      rejections come first. */
  lemma {:induction false} TriesSevenTimes(g: Gen, ss: seq<Sess>, rank: RankSt, req: Req, envs: seq<Env>, k: nat)
    requires req.full != [] && RankFine(g.m, rank) && EnvsFine(g.m, envs) && k > 0 && ServedAfter(envs, k)
    requires
      var p := MakePlan(ss, req, g.eos);
      |p.ss[p.i].toks| + |p.toks| <= g.m.maxSeq
    ensures Forward(g, ss, rank, req, envs).2.Replied? <==> k <= 6
  {
    hide MakePlan, Forward, RankFine, Doubled;
    ResentExactly(g, ss, rank, req, envs);
    var p := MakePlan(ss, req, g.eos);
    RejectionsBorne(g.m, |p.ss[p.i].toks| + |p.toks|, envs[1..], k - 1, 5);
  }

  /** An exact hit whose first attempt fails, rejected or refused by the rank, and whose resend is
      served is always answered from its prompt with the last token twice. */
  lemma {:induction false} FailedHitDoubles(g: Gen, ss: seq<Sess>, rank: RankSt, req: Req, e: Env, e': Env)
    requires req.full != [] && RankFine(g.m, rank) && EnvFine(g.m, e) && EnvFine(g.m, e')
    requires
      var p := MakePlan(ss, req, g.eos);
      && p.replay && FirstFails(g, p, rank, e) && e'.fate == Served && |p.ss[p.i].toks| + |p.toks| <= g.m.maxSeq
    ensures EnvsFine(g.m, [e, e']) && Doubled(g, ss, rank, req, [e, e'])
    ensures
      var o := Forward(g, ss, rank, req, [e, e']).2;
      o.Replied? && o.resent
  {
    hide MakePlan, FirstFails, Forward, RankFine;
    assert [e, e'][1..] == [e'];
    ResentExactly(g, ss, rank, req, [e, e']);
  }

  // ----- one request -----

  datatype Job = Job(req: Req, envs: seq<Env>)

  ghost predicate JobFine(g: Gen, ss: seq<Sess>, j: Job) {
    && j.req.full != [] && EnvsFine(g.m, j.envs)
    && (j.req.key == "" ==> j.req.newKey != "" && !Has(ss, j.req.newKey))
  }

  /** One request: the answer, if any, is the from-scratch answer of a context, the rows hold
      that context, and the context is the rendered prompt exactly unless the request is
      doubled. */
  lemma {:induction false} RequestAnswer(g: Gen, ss: seq<Sess>, rank: RankSt, k: Know, j: Job) returns (k': Know)
    requires Inv(g.m, ss, rank, k) && JobFine(g, ss, j)
    ensures
      var (ss', rank', o) := Forward(g, ss, rank, j.req, j.envs);
      var p, twice := MakePlan(ss, j.req, g.eos), Doubled(g, ss, rank, j.req, j.envs);
      && (!twice ==> Inv(g.m, ss', rank', k')) && (twice ==> o.Replied?)
      && (o.Replied? ==>
            var ctx := Context(p, j.req, o.resent);
            && |ctx| <= g.m.maxSeq && o.out == Scratch(g, ctx, j.req.seed)
            && Holds(g.m, rank'.mem, ctx + o.out) && Answered(p, j.req, o, ss', rank', g.eos)
            && ctx == (if twice then j.req.full + [j.req.full[|j.req.full| - 1]] else j.req.full))
  {
    KnowsOf(g.m, ss, rank, k);
    hide Holds, Scratch, Attempts, Inv, RankFine, Doubled;
    PlanKnows(ss, rank, k, g.m, j.req, g.eos);
    ResentExactly(g, ss, rank, j.req, j.envs);
    var p := MakePlan(ss, j.req, g.eos);
    k' := AttemptsKnow(g, p, Loop(p.ss, rank, p.toks, p.resume, false, false, 0), j.req, j.envs, k);
  }

  // ----- whole runs -----

  /** The outcome of each request of a run, and the rank after it. */
  function Results(g: Gen, ss: seq<Sess>, rank: RankSt, jobs: seq<Job>): (rs: seq<(Outcome, RankSt)>)
    requires RankFine(g.m, rank)
    requires forall j :: 0 <= j < |jobs| ==> jobs[j].req.full != [] && EnvsFine(g.m, jobs[j].envs)
    ensures |rs| == |jobs| && forall n :: 0 <= n < |rs| ==> RankFine(g.m, rs[n].1)
    decreases |jobs|
  {
    if jobs == [] then []
    else
      var (ss', rank', o) := Forward(g, ss, rank, jobs[0].req, jobs[0].envs);
      [(o, rank')] + Results(g, ss', rank', jobs[1..])
  }

  /** Generated keys are new, and no request is doubled. */
  ghost predicate RunFine(g: Gen, ss: seq<Sess>, rank: RankSt, jobs: seq<Job>)
    requires RankFine(g.m, rank)
    decreases |jobs|
  {
    jobs == [] ||
    (&& JobFine(g, ss, jobs[0]) && !Doubled(g, ss, rank, jobs[0].req, jobs[0].envs)
     && var (ss', rank', o) := Forward(g, ss, rank, jobs[0].req, jobs[0].envs);
        RunFine(g, ss', rank', jobs[1..]))
  }

  lemma {:induction false} RunFineJobs(g: Gen, ss: seq<Sess>, rank: RankSt, jobs: seq<Job>)
    requires RankFine(g.m, rank) && RunFine(g, ss, rank, jobs)
    ensures forall j :: 0 <= j < |jobs| ==> jobs[j].req.full != [] && EnvsFine(g.m, jobs[j].envs)
    decreases |jobs|
  {
    hide Doubled, Forward;
    if jobs != [] {
      var (ss', rank', o) := Forward(g, ss, rank, jobs[0].req, jobs[0].envs);
      RunFineJobs(g, ss', rank', jobs[1..]);
    }
  }

  /** The answer is that of a fresh prefill of the whole prompt, and the rank's rows are those a
      fresh prefill of prompt and answer writes. */
  ghost predicate FromScratch(g: Gen, req: Req, o: Outcome, r: RankSt)
    requires RankFine(g.m, r)
  {
    o.Replied? ==>
      && g.m.Valid() && req.full != [] && |req.full| <= g.m.maxSeq && o.out == Scratch(g, req.full, req.seed)
      && |req.full + o.out| <= r.pos && Holds(g.m, r.mem, req.full + o.out)
  }

  lemma {:induction false} AnswersFromScratch(g: Gen, ss: seq<Sess>, rank: RankSt, k: Know, jobs: seq<Job>, n: nat)
    requires Inv(g.m, ss, rank, k) && RunFine(g, ss, rank, jobs) && n < |jobs|
    requires forall j :: 0 <= j < |jobs| ==> jobs[j].req.full != [] && EnvsFine(g.m, jobs[j].envs)
    ensures var (o, r) := Results(g, ss, rank, jobs)[n]; FromScratch(g, jobs[n].req, o, r)
    decreases |jobs|
  {
    assert RankFine(g.m, rank);
    hide Holds, Scratch, Forward, Inv, Doubled;
    var k' := RequestAnswer(g, ss, rank, k, jobs[0]);
    var (ss', rank', o) := Forward(g, ss, rank, jobs[0].req, jobs[0].envs);
    if n > 0 {
      AnswersFromScratch(g, ss', rank', k', jobs[1..], n - 1);
    }
  }

  /** In every run of session requests from an empty table and an empty disk, mixing prefix
      truncation, session switches, restarts, crashes, refused resumes and full resends, every
      answer is the one a fresh prefill of the whole rendered prompt gives, and the rows it was
      decoded from are the ones that prefill writes. */
  lemma {:induction false} SessionsAnswerFromScratch(g: Gen, mem: Mem, jobs: seq<Job>, n: nat)
    requires g.m.Valid() && g.m.Fits(mem) && RunFine(g, [], RankSt(mem, "", 0, map[]), jobs) && n < |jobs|
    ensures forall j :: 0 <= j < |jobs| ==> jobs[j].req.full != [] && EnvsFine(g.m, jobs[j].envs)
    ensures
      var (o, r) := Results(g, [], RankSt(mem, "", 0, map[]), jobs)[n];
      FromScratch(g, jobs[n].req, o, r)
  {
    hide RunFine;
    var rank := RankSt(mem, "", 0, map[]);
    RunFineJobs(g, [], rank, jobs);
    HoldsNone(g.m, mem);
    AnswersFromScratch(g, [], rank, Know([], map[]), jobs, n);
  }

  // ----- after a doubled request -----

  /** Shifting a list by one repeated token shows up to position r exactly unless what follows
      only repeats that token. */
  lemma {:induction false} ShiftShows(full: seq<Token>, last: Token, out: seq<Token>, r: nat)
    requires r <= |full| + |out|
    ensures (full + [last] + out)[..r] == (full + out)[..r]
            <==> forall i :: 0 <= i < r - |full| ==> out[i] == last
  {
    var a, b := full + [last] + out, full + out;
    if r <= |full| {
      assert a[..r] == full[..r] && b[..r] == full[..r];
    } else {
      ShiftShows(full, last, out, r - 1);
      var i := r - 1 - |full|;
      assert a[..r] == a[..r - 1] + [a[r - 1]] && b[..r] == b[..r - 1] + [b[r - 1]];
      assert b[r - 1] == out[i] && a[r - 1] == if i == 0 then last else out[i - 1];
    }
  }

  /** What Pick keeps of a list that ends in eos. */
  lemma {:induction false} PickedList(ss: seq<Sess>, req: Req, eos: Token, i: nat, toks: seq<Token>)
    requires Table(ss) && i < |ss| && ss[i].toks == toks + [eos] && req.full != []
    requires Pick(ss, req, eos).0[Pick(ss, req, eos).1].key == ss[i].key
    requires req.key == "" ==> !Has(ss, req.newKey)
    ensures
      var p := Pick(ss, req, eos);
      var v := p.0[p.1].toks;
      |v| <= |toks| && v == toks[..|v|] && v <= req.full
  {
    var p := Pick(ss, req, eos);
    if p.1 < |ss| {
      assert p.1 == i;
      assert (toks + [eos])[..|toks|] == toks;
    }
  }

  /** The answer `o` to a request planned as `p` was decoded from a list that has the last token of
      `full` twice: the context is the request's prompt if and only if the resume point does not
      go beyond `full` or what was kept behind it only repeats that token. */
  ghost predicate ShiftedAnswer(g: Gen, full: seq<Token>, out: seq<Token>, req: Req, p: Plan, r: RankSt, o: Outcome) {
    && full != [] && p.resume <= |full| + |out| && p.toks != [] && o.Replied? && RankFine(g.m, r)
    && var last := full[|full| - 1];
       var ctx := (full + [last] + out)[..p.resume] + p.toks;
       && |ctx| <= g.m.maxSeq && o.out == Scratch(g, ctx, req.seed) && Holds(g.m, r.mem, ctx + o.out)
       && (ctx == req.full <==> forall i :: 0 <= i < p.resume - |full| ==> out[i] == last)
  }

  /** The next request on a session whose last request was doubled, when its first attempt is
      served: it is decoded from the list the rank really holds, one token longer than the
      server's. */
  lemma {:induction false} AfterDoubled(g: Gen, ss: seq<Sess>, rank: RankSt, k: Know, j: Job,
                                        ss': seq<Sess>, rank': RankSt, o: Outcome, next: Job)
    requires Inv(g.m, ss, rank, k) && RankFine(g.m, rank) && JobFine(g, ss, j) && Doubled(g, ss, rank, j.req, j.envs)
    requires (ss', rank', o) == Forward(g, ss, rank, j.req, j.envs)
    requires JobFine(g, ss', next) && |next.req.full| <= g.m.maxSeq
    requires var p := MakePlan(ss', next.req, g.eos); p.ss[p.i].key == rank'.key
    requires next.envs != [] && !next.envs[0].restart && next.envs[0].fate == Served
    ensures o.Replied?
    ensures
      var r := Forward(g, ss', rank', next.req, next.envs);
      ShiftedAnswer(g, j.req.full, o.out, next.req, MakePlan(ss', next.req, g.eos), r.1, r.2)
  {
    hide Holds, Scratch, Forward, Inv, RankFine, Doubled, MakePlan;
    var k' := RequestAnswer(g, ss, rank, k, j);
    var full := j.req.full;
    var last := full[|full| - 1];
    var held := full + [last] + o.out;
    DoubledTable(g, ss, rank, k, j);
    var p := MakePlan(ss', next.req, g.eos);
    NextPlan(g, ss', next, full + o.out, MakePlan(ss, j.req, g.eos).i);
    ShiftShows(full, last, o.out, p.resume);
    ServedAtOnce(g, ss', rank', next, held);
    SameTail(held[..p.resume], (full + o.out)[..p.resume], p.toks);
  }

  lemma {:induction false} SameTail(a: seq<Token>, b: seq<Token>, c: seq<Token>)
    requires |a| == |b|
    ensures a + c == b + c <==> a == b
  {
    assert (a + c)[..|a|] == a && (b + c)[..|b|] == b;
  }

  /** The server's table after an answered request: the list is prompt, answer and eos. */
  lemma {:induction false} DoubledTable(g: Gen, ss: seq<Sess>, rank: RankSt, k: Know, j: Job)
    requires Inv(g.m, ss, rank, k) && RankFine(g.m, rank) && JobFine(g, ss, j)
    ensures
      var (ss', rank', o) := Forward(g, ss, rank, j.req, j.envs);
      o.Replied? ==>
        var i := MakePlan(ss, j.req, g.eos).i;
        && Table(ss') && i < |ss'| && ss'[i] == Sess(rank'.key, j.req.full + o.out + [g.eos])
        && rank'.key == ss'[i].key
  {
    hide Holds, Scratch, Forward, Inv, RankFine, Doubled, MakePlan;
    var k' := RequestAnswer(g, ss, rank, k, j);
    PlanKnows(ss, rank, k, g.m, j.req, g.eos);
    var p := MakePlan(ss, j.req, g.eos);
    TableOf(g.m, p.ss, rank, k);
    var (ss', rank', o) := Forward(g, ss, rank, j.req, j.envs);
    if o.Replied? {
      SameKeys(p.ss, ss');
    }
  }

  lemma {:induction false} TableOf(m: Model, ss: seq<Sess>, r: RankSt, k: Know)
    requires Inv(m, ss, r, k)
    ensures Table(ss)
  {
  }

  lemma {:induction false} NextPlan(g: Gen, ss: seq<Sess>, j: Job, toks: seq<Token>, i: nat)
    requires Table(ss) && i < |ss| && ss[i].toks == toks + [g.eos] && JobFine(g, ss, j)
    requires var p := MakePlan(ss, j.req, g.eos); p.ss[p.i].key == ss[i].key
    ensures
      var p := MakePlan(ss, j.req, g.eos);
      p.resume <= |toks| && toks[..p.resume] + p.toks == j.req.full
  {
    hide Pick;
    PickedList(ss, j.req, g.eos, i, toks);
    var p := MakePlan(ss, j.req, g.eos);
    var v := p.ss[p.i].toks;
    PrefixParts(v, j.req.full);
    assert v[..p.resume] == toks[..p.resume];
  }

  /** A request the rank can continue is answered by its first attempt, from the rows it holds. */
  lemma {:induction false} ServedAtOnce(g: Gen, ss: seq<Sess>, rank: RankSt, j: Job, held: seq<Token>)
    requires RankFine(g.m, rank) && JobFine(g, ss, j) && Holds(g.m, rank.mem, held) && |held| <= rank.pos
    requires
      var p := MakePlan(ss, j.req, g.eos);
      && p.ss[p.i].key == rank.key && p.resume <= |held| && p.resume + |p.toks| <= g.m.maxSeq
    requires j.envs != [] && !j.envs[0].restart && j.envs[0].fate == Served
    ensures
      var p, r := MakePlan(ss, j.req, g.eos), Forward(g, ss, rank, j.req, j.envs);
      var ctx := held[..p.resume] + p.toks;
      && r.2.Replied? && r.2.out == Scratch(g, ctx, j.req.seed) && Holds(g.m, r.1.mem, ctx + r.2.out)
  {
    hide Holds, Attempts, MakePlan, Local, Fed;
    var p := MakePlan(ss, j.req, g.eos);
    var l := Loop(p.ss, rank, p.toks, p.resume, false, false, 0);
    AttemptsStep(g, p, l, j.req, j.envs);
    HoldsPrefix(g.m, rank.mem, held, p.resume);
    ContinuationIsFromScratch(g, rank.mem, held[..p.resume], p.toks, j.req.seed);
    LocalHolds(g, rank.mem, held[..p.resume], p.toks, j.req.seed);
    FedStarts(g, rank.mem, held[..p.resume], p.toks, j.req.seed);
  }

  /** The rows hold what was fed, so also prompt and answer. */
  lemma {:induction false} FedStarts(g: Gen, mem: Mem, held: seq<Token>, delta: seq<Token>, seed: Rng)
    requires g.m.Valid() && g.m.Fits(mem) && Holds(g.m, mem, held) && delta != [] && |held| + |delta| <= g.m.maxSeq
    ensures
      var r := Local(g, mem, |held|, delta, seed);
      Holds(g.m, r.mem, held + delta + r.out)
  {
    hide Holds, Local;
    LocalHolds(g, mem, held, delta, seed);
    var r := Local(g, mem, |held|, delta, seed);
    var ts := held + delta + r.out;
    assert Fed(g, held + delta, r)[..|ts|] == ts;
    HoldsPrefix(g.m, r.mem, Fed(g, held + delta, r), |ts|);
  }

  // ----- concrete doubled requests -----

  /** A model without layers and room for three positions. */
  function TinyGen(): (g: Gen) {
    Gen(Model(0, 3, _ => NoKv, (l, t, p, x) => [], (l, t, p, rows, x) => []), 0, 1, (r, x) => (r, 0))
  }

  lemma {:induction false} TinyPlan(toks: seq<Token>)
    requires toks != [] && toks[|toks| - 1] != 0
    ensures MakePlan([Sess("a", toks)], Req("a", toks, "", 0), 0)
            == Plan([Sess("a", toks)], 0, |toks| - 1, [toks[|toks| - 1]], true)
  {
    CommonSelf(toks);
    assert IndexOf([Sess("a", toks)], "a") == 0;
    assert toks[..|toks|] == toks;
  }

  lemma {:induction false} CommonSelf(toks: seq<Token>)
    ensures Common(toks, toks) == |toks|
  {
    if toks != [] { CommonSelf(toks[1..]); }
  }

  /** The session holds [1], the client asks for [1] again, the rank first rejects the
      connection; the rows then start with [1, 1]. */
  lemma {:induction false} DoubledHappens() returns (g: Gen, ss: seq<Sess>, rank: RankSt, req: Req, envs: seq<Env>)
    ensures req.full == [1] && RankFine(g.m, rank) && EnvsFine(g.m, envs)
    ensures Doubled(g, ss, rank, req, envs) && Forward(g, ss, rank, req, envs).2.Replied?
    ensures Context(MakePlan(ss, req, g.eos), req, true) == [1, 1]
  {
    g, ss, rank, req := TinyGen(), [Sess("a", [1])], RankSt([], "", 0, map[]), Req("a", [1], "", 0);
    var e, e' := Env(false, [], Rejected), Env(false, [], Served);
    envs := [e, e'];
    TinyPlan([1]);
    hide MakePlan, Forward;
    FailedHitDoubles(g, ss, rank, req, e, e');
    assert [1] + [1] == [1, 1];
  }

  /** The session holds [1, 2] and the rank has restarted without its file: it refuses the exact
      hit at position 1, and the resend puts [1, 2, 2] into the rows. */
  lemma {:induction false} RefusedDoubles() returns (g: Gen, ss: seq<Sess>, rank: RankSt, req: Req, envs: seq<Env>)
    ensures req.full == [1, 2] && Inv(g.m, ss, rank, Know([], map[])) && EnvsFine(g.m, envs)
    ensures envs != [] && envs[0].fate == Served
    ensures Doubled(g, ss, rank, req, envs) && Forward(g, ss, rank, req, envs).2.Replied?
    ensures Context(MakePlan(ss, req, g.eos), req, true) == [1, 2, 2]
  {
    g, ss, rank, req := TinyGen(), [Sess("a", [1, 2])], RankSt([], "", 0, map[]), Req("a", [1, 2], "", 0);
    var e := Env(false, [], Served);
    envs := [e, e];
    TinyPlan([1, 2]);
    HoldsNone(g.m, []);
    hide MakePlan, Forward, Holds;
    FailedHitDoubles(g, ss, rank, req, e, e);
    assert [1, 2] + [2] == [1, 2, 2];
  }

  /** A model that always answers 5, once. */
  function FiveGen(): (g: Gen) {
    Gen(Model(0, 4, _ => NoKv, (l, t, p, x) => [], (l, t, p, rows, x) => []), 0, 1, (r, x) => (r, 5))
  }

  lemma {:induction false} FiveAnswers(toks: seq<Token>)
    requires 0 < |toks| < 4
    ensures Scratch(FiveGen(), toks, 0) == [5]
  {
    var g := FiveGen();
    var r := Feed(g, Run(Fresh(g.m), [], 0, 0, []), toks);
    assert g.sample(r.rng, r.logits) == (0, 5);
    var d := Decode(g, r, 0);
    assert d.out == [5];
    hide Feed, Decode;
  }

  lemma {:induction false} NextLonger()
    ensures MakePlan([Sess("a", [1, 5, 0])], Req("a", [1, 5, 7], "", 0), 0)
            == Plan([Sess("a", [1, 5])], 0, 2, [7], false)
  {
    var a, b: seq<Token> := [1, 5], [1, 5, 7];
    assert Common(a[2..], b[2..]) == 0;
    assert a[1..] == [5] && b[1..] == [5, 7];
    assert Common(a[1..], b[1..]) == 1 + Common(a[1..][1..], b[1..][1..]);
    assert Common(a, b) == 2;
    assert [1, 5, 0][..2] == a;
    assert Lcp([1, 5, 0], b, 0) == 2;
    assert IndexOf([Sess("a", [1, 5, 0])], "a") == 0;
    assert b[2..] == [7];
  }

  function FiveTable(): (ss: seq<Sess>) {
    [Sess("a", [1])]
  }

  function FiveRank(): (r: RankSt) {
    RankSt([], "", 0, map[])
  }

  function FiveJob(): (j: Job) {
    Job(Req("a", [1], "", 0), [Env(false, [], Rejected), Env(false, [], Served)])
  }

  function FiveNext(): (j: Job) {
    Job(Req("a", [1, 5, 7], "", 0), [Env(false, [], Served)])
  }

  lemma {:induction false} FiveInv()
    ensures Inv(FiveGen().m, FiveTable(), FiveRank(), Know([], map[])) && RankFine(FiveGen().m, FiveRank())
    ensures JobFine(FiveGen(), FiveTable(), FiveJob())
  {
    HoldsNone(FiveGen().m, []);
    hide Holds;
  }

  lemma {:induction false} FiveFails()
    ensures
      var e := Env(false, [], Rejected);
      RankFine(FiveGen().m, FiveRank()) && EnvFine(FiveGen().m, e)
      && FirstFails(FiveGen(), Plan(FiveTable(), 0, 0, [1], true), FiveRank(), e)
  {
  }

  lemma {:induction false} FiveStart()
    ensures Inv(FiveGen().m, FiveTable(), FiveRank(), Know([], map[])) && RankFine(FiveGen().m, FiveRank())
    ensures JobFine(FiveGen(), FiveTable(), FiveJob())
    ensures Doubled(FiveGen(), FiveTable(), FiveRank(), FiveJob().req, FiveJob().envs)
    ensures MakePlan(FiveTable(), FiveJob().req, 0) == Plan(FiveTable(), 0, 0, [1], true)
  {
    FiveInv();
    FiveFails();
    TinyPlan([1]);
    hide MakePlan, Forward, Holds, Inv, RankFine, FirstFails, JobFine;
    FailedHitDoubles(FiveGen(), FiveTable(), FiveRank(), FiveJob().req, FiveJob().envs[0], FiveJob().envs[1]);
  }

  lemma {:induction false} FiveFacts()
    ensures FiveGen().eos == 0 && FiveGen().m.Valid() && FiveJob().req.full == [1] && FiveJob().req.seed == 0
    ensures FiveTable() == [Sess("a", [1])] && EnvsFine(FiveGen().m, FiveJob().envs)
  {
  }

  /** The doubled request for [1] is answered 5; the server then lists [1, 5, eos]. */
  lemma {:induction false} FiveDoubled()
    ensures RankFine(FiveGen().m, FiveRank()) && EnvsFine(FiveGen().m, FiveJob().envs)
    ensures
      var (ss, rank, o) := Forward(FiveGen(), FiveTable(), FiveRank(), FiveJob().req, FiveJob().envs);
      o.Replied? && o.out == [5] && ss == [Sess("a", [1, 5, 0])] && rank.key == "a"
  {
    hide *;
    FiveFacts();
    FiveStart();
    FiveAnswers([1, 1]);
    DoubledAnswer(FiveGen(), FiveTable(), FiveRank(), Know([], map[]), FiveJob());
    assert [1] + [1] == [1, 1] && [1] + [5] + [0] == [1, 5, 0];
  }

  /** What a doubled request leaves. */
  lemma {:induction false} DoubledAnswer(g: Gen, ss: seq<Sess>, rank: RankSt, k: Know, j: Job)
    requires Inv(g.m, ss, rank, k) && RankFine(g.m, rank) && JobFine(g, ss, j) && Doubled(g, ss, rank, j.req, j.envs)
    ensures
      var (ss', rank', o) := Forward(g, ss, rank, j.req, j.envs);
      var p, ctx := MakePlan(ss, j.req, g.eos), j.req.full + [j.req.full[|j.req.full| - 1]];
      && o.Replied? && |ctx| <= g.m.maxSeq && o.out == Scratch(g, ctx, j.req.seed) && rank'.key == p.ss[p.i].key
      && ss' == p.ss[p.i := Sess(rank'.key, j.req.full + o.out + [g.eos])]
  {
    hide MakePlan, Forward, Holds, Scratch, Inv, Doubled, RankFine;
    var k' := RequestAnswer(g, ss, rank, k, j);
  }

  /** The wrong rows stay: the conversation goes on with [1, 5, 7], the server sends [7] behind two
      positions, and the rank answers [1, 1, 7]. */
  lemma {:induction false} WrongAfterDoubled()
    ensures RankFine(FiveGen().m, FiveRank()) && EnvsFine(FiveGen().m, FiveJob().envs)
    ensures
      var g := FiveGen();
      var (ss, rank, o) := Forward(g, FiveTable(), FiveRank(), FiveJob().req, FiveJob().envs);
      && JobFine(g, ss, FiveNext())
      && (var (ss', rank', o') := Forward(g, ss, rank, FiveNext().req, FiveNext().envs);
          o'.Replied? && g.m.Fits(rank'.mem) && Holds(g.m, rank'.mem, [1, 1, 7] + o'.out))
  {
    FiveStart();
    FiveDoubled();
    NextLonger();
    hide MakePlan, Forward, Holds, Scratch, Inv, Doubled;
    var g := FiveGen();
    var (ss, rank, o) := Forward(g, FiveTable(), FiveRank(), FiveJob().req, FiveJob().envs);
    AfterDoubled(g, FiveTable(), FiveRank(), Know([], map[]), FiveJob(), ss, rank, o, FiveNext());
    assert ([1] + [1] + [5])[..2] + [7] == [1, 1, 7];
  }
}
