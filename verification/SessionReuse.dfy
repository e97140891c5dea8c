/**
  What the session protocol is for: rows that were computed once are used again.  A rank places a
  resume point exactly when it holds the rows, in memory or in the session's file; the server resumes
  at the longest prefix; and as long as prompts fit and no connection is rejected, every request is
  answered by its first attempt, over any session switches, restarts, crashes and lost answers.
*/
module SessionReuse {
  import opened Engine
  import opened Generation
  import opened Session
  import opened SessionRuns

  // ----- placing -----

  /** The rank holds the first `resume` rows of the session: in memory when it is loaded, else in
      its file. */
  predicate HasRows(r: RankSt, key: Key, resume: nat) {
    if key == r.key then resume <= r.pos
    else resume == 0 || (key in r.disk && resume <= r.disk[key].pos)
  }

  /** A rank places a resume point exactly when it holds the rows. */
  lemma {:induction false} PlaceExactly(m: Model, r: RankSt, key: Key, resume: nat)
    requires RankFine(m, r)
    ensures Place(m, r, key, resume).1 <==> HasRows(r, key, resume)
  {
    hide Load;
  }

  /** A session whose file has the rows is restored from it: the rank stands at the resume point, its
      rows below are the file's, the file is kept, and the session that leaves is saved whole. */
  lemma {:induction false} RestoreWorks(m: Model, r: RankSt, key: Key, resume: nat)
    requires RankFine(m, r) && key != r.key && key in r.disk && 0 < resume <= r.disk[key].pos
    ensures
      var (s, ok) := Place(m, r, key, resume);
      && ok && s.key == key && s.pos == resume
      && (forall l, p :: 0 <= l < m.layers && 0 <= p < resume ==> s.mem[l][p] == r.disk[key].rows[l][p])
      && key in s.disk && s.disk[key] == r.disk[key]
      && (r.key != "" ==> r.key in s.disk && s.disk[r.key] == Saved(r.pos, r.mem))
      && (forall k :: k in r.disk && k != r.key ==> k in s.disk && s.disk[k] == r.disk[k])
  {
    LoadedRows(m, r.mem, r.disk[key]);
    hide Load;
  }

  lemma {:induction false} LoadedRows(m: Model, mem: Mem, s: Saved)
    requires m.Fits(mem) && m.Fits(s.rows) && s.pos <= m.maxSeq
    ensures forall l, p :: 0 <= l < m.layers && 0 <= p < m.maxSeq ==>
      Load(m, mem, s)[l][p] == if p < s.pos then s.rows[l][p] else mem[l][p]
  {
  }

  /** A loaded session keeps its memory, cut at the resume point. */
  lemma {:induction false} StayWorks(m: Model, r: RankSt, resume: nat)
    requires RankFine(m, r) && resume <= r.pos
    ensures Place(m, r, r.key, resume) == (r.(pos := resume), true)
  {
  }

  /** A refusal forgets the session: nothing in memory, no file. */
  lemma {:induction false} RefusalForgets(m: Model, r: RankSt, key: Key, resume: nat)
    requires RankFine(m, r) && !HasRows(r, key, resume)
    ensures
      var (s, ok) := Place(m, r, key, resume);
      !ok && s.key == key && s.pos == 0 && key !in s.disk
  {
    hide Load;
  }

  /** Served on a rank that holds the rows, a request that fits is answered, and never refused. */
  lemma {:induction false} HeldIsAnswered(g: Gen, r: RankSt, key: Key, resume: nat, delta: seq<Token>, seed: Rng)
    requires RankFine(g.m, r) && delta != [] && HasRows(r, key, resume)
    ensures
      var reply := Serve(g, r, key, resume, delta, seed).1;
      reply != Refused && (reply.Answer? <==> resume + |delta| <= g.m.maxSeq)
  {
    PlaceExactly(g.m, r, key, resume);
    hide Switch, Local;
  }

  // ----- the longest prefix -----

  /** `n` tokens are common to the list, without its trailing eos, and the request. */
  predicate Shares(toks: seq<Token>, req: seq<Token>, eos: Token, n: nat) {
    n <= |Bare(toks, eos)| && n <= |req| && Bare(toks, eos)[..n] == req[..n]
  }

  /** A request with a known key resumes behind all that its session shares with it. */
  lemma {:induction false} KeyedResumesLongest(ss: seq<Sess>, req: Req, eos: Token, i: nat, n: nat)
    requires req.full != [] && req.key != "" && i < |ss| && ss[i].key == req.key
    requires (forall j :: 0 <= j < i ==> ss[j].key != req.key) && Shares(ss[i].toks, req.full, eos, n)
    ensures
      var p := MakePlan(ss, req, eos);
      && p.i == i && p.ss[i].key == req.key && n <= |p.ss[i].toks|
      && p.resume == |p.ss[i].toks| - if p.replay then 1 else 0
  {
    LcpIsLongest(ss[i].toks, req.full, eos, n);
    hide Lcp, Best;
  }

  /** A request without a key resumes behind all that any session shares with it. */
  lemma {:induction false} KeylessResumesLongest(ss: seq<Sess>, req: Req, eos: Token, j: nat, n: nat)
    requires req.full != [] && req.key == "" && j < |ss| && Shares(ss[j].toks, req.full, eos, n)
    ensures
      var p := MakePlan(ss, req, eos);
      n <= |p.ss[p.i].toks| && p.resume == |p.ss[p.i].toks| - if p.replay then 1 else 0
  {
    LcpIsLongest(ss[j].toks, req.full, eos, n);
    hide Lcp;
  }

  // ----- stocked ranks -----

  /** The rank holds the rows of every list: in the file, and in memory for the loaded session. */
  ghost predicate Stocked(ss: seq<Sess>, r: RankSt, eos: Token) {
    forall i :: 0 <= i < |ss| ==> StockedAt(ss[i], r, eos)
  }

  predicate StockedAt(v: Sess, r: RankSt, eos: Token) {
    KeptAt(v.key, |Bare(v.toks, eos)|, r)
  }

  predicate KeptAt(key: Key, n: nat, r: RankSt) {
    (n > 0 ==> key in r.disk && n <= r.disk[key].pos) && (key == r.key ==> n <= r.pos)
  }

  lemma {:induction false} KeptHasRows(key: Key, n: nat, r: RankSt, m: nat)
    requires KeptAt(key, n, r) && m <= n
    ensures HasRows(r, key, m) && KeptAt(key, m, r)
  {
  }

  /** What Pick does to the table: one list shrinks to a prefix of its bare form, or an empty one is
      added. */
  lemma {:induction false} PickShrinks(ss: seq<Sess>, req: Req, eos: Token)
    ensures
      var (ss', i) := Pick(ss, req, eos);
      && |ss| <= |ss'| && (forall j :: 0 <= j < |ss| && j != i ==> ss'[j] == ss[j])
      && (if i < |ss| then |ss'| == |ss| && ss'[i].key == ss[i].key && |ss'[i].toks| <= |Bare(ss[i].toks, eos)|
          else |ss'| == |ss| + 1 && i == |ss| && ss'[i].toks == [])
  {
    forall j | 0 <= j < |ss|
      ensures Lcp(ss[j].toks, req.full, eos) <= |Bare(ss[j].toks, eos)|
    {
      LcpIsLongest(ss[j].toks, req.full, eos, 0);
    }
    hide Lcp;
  }

  /** The plan keeps the rank stocked, and it holds the rows of the kept list. */
  lemma {:induction false} PlanStocked(ss: seq<Sess>, r: RankSt, req: Req, eos: Token)
    requires Stocked(ss, r, eos) && req.full != [] && (r.key == "" || Has(ss, r.key))
    requires Table(ss) && (req.key == "" ==> req.newKey != "" && !Has(ss, req.newKey))
    ensures
      var p := MakePlan(ss, req, eos);
      && Stocked(p.ss, r, eos) && KeptAt(p.ss[p.i].key, |p.ss[p.i].toks|, r)
      && p.resume <= |p.ss[p.i].toks| && p.resume + |p.toks| == |req.full| >= |p.ss[p.i].toks|
      && |p.ss[p.i].toks| + (if p.replay then 0 else |p.toks|) == |req.full|
  {
    PickShrinks(ss, req, eos);
    PickedIsPrefix(ss, req, eos);
    var p := MakePlan(ss, req, eos);
    NewKeyIsNew(ss, req, eos, r);
    hide Pick, Bare;
    if p.i < |ss| {
      assert StockedAt(ss[p.i], r, eos);
      KeptHasRows(ss[p.i].key, |Bare(ss[p.i].toks, eos)|, r, |p.ss[p.i].toks|);
    }
    forall j | 0 <= j < |p.ss|
      ensures StockedAt(p.ss[j], r, eos)
    {
      if j == p.i {
        KeptHasRows(p.ss[j].key, |p.ss[j].toks|, r, |Bare(p.ss[j].toks, eos)|);
      } else {
        assert StockedAt(ss[j], r, eos);
      }
    }
  }

  lemma {:induction false} PickedIsPrefix(ss: seq<Sess>, req: Req, eos: Token)
    ensures
      var (ss', i) := Pick(ss, req, eos);
      ss'[i].toks <= req.full
  {
    hide Common;
  }

  /** A session that is added has no rows yet, nor is it loaded. */
  lemma {:induction false} NewKeyIsNew(ss: seq<Sess>, req: Req, eos: Token, r: RankSt)
    requires (r.key == "" || Has(ss, r.key)) && (req.key == "" ==> req.newKey != "" && !Has(ss, req.newKey))
    ensures
      var (ss', i) := Pick(ss, req, eos);
      i == |ss| ==> KeptAt(ss'[i].key, 0, r)
  {
    hide Lcp, Best;
  }

  /** What a served request does to the rank: its session's rows are in memory and in the file, up to
      behind the answer, and every other session keeps its rows. */
  lemma {:induction false} ServeStocks(g: Gen, r: RankSt, key: Key, resume: nat, delta: seq<Token>, seed: Rng)
    requires RankFine(g.m, r) && delta != [] && HasRows(r, key, resume) && resume + |delta| <= g.m.maxSeq
    ensures
      var (s, reply) := Serve(g, r, key, resume, delta, seed);
      && reply.Answer? && s.key == key && KeptAt(key, resume + |delta| + |reply.out|, s)
      && (forall k, n: nat :: k != key && k != "" && KeptAt(k, n, r) ==> KeptAt(k, n, s))
  {
    PlaceExactly(g.m, r, key, resume);
    PlaceKeeps(g.m, r, key, resume);
    LocalGoesBehind(g, Place(g.m, r, key, resume).0.mem, resume, delta, seed);
    hide Place, Local;
  }

  lemma {:induction false} LocalGoesBehind(g: Gen, mem: Mem, start: nat, delta: seq<Token>, seed: Rng)
    requires g.m.Valid() && g.m.Fits(mem) && delta != [] && start + |delta| <= g.m.maxSeq
    ensures
      var l := Local(g, mem, start, delta, seed);
      start + |delta| + |l.out| <= l.pos
  {
    hide Full, Logits;
  }

  /** Placing a session loses no rows of any session. */
  lemma {:induction false} PlaceKeeps(m: Model, r: RankSt, key: Key, resume: nat)
    requires RankFine(m, r) && HasRows(r, key, resume)
    ensures
      var s := Place(m, r, key, resume).0;
      && s.key == key
      && (forall k, n: nat :: k != key && k != "" && KeptAt(k, n, r) ==> KeptAt(k, n, s))
      && (key in r.disk ==> key in s.disk && s.disk[key].pos == r.disk[key].pos)
  {
    hide Load;
  }

  // ----- one request -----

  /** The first attempt of a request: rejected before it is looked at. */
  predicate RejectedFirst(envs: seq<Env>) {
    envs != [] && envs[0].fate == Rejected
  }

  /** What one attempt that is not rejected leaves of a stocked rank. */
  lemma {:induction false} StrikeStocks(g: Gen, r: RankSt, key: Key, resume: nat, toks: seq<Token>, seed: Rng, e: Env, v: nat)
    requires RankFine(g.m, r) && EnvFine(g.m, e) && toks != [] && key != "" && e.fate != Rejected
    requires KeptAt(key, v, r) && resume <= v <= resume + |toks| <= g.m.maxSeq
    ensures
      var (s, reply, over) := Strike(g, r, key, resume, toks, seed, e);
      && (over <==> e.fate != Served) && (!over ==> reply.Answer?)
      && (forall k, n: nat :: k != key && k != "" && KeptAt(k, n, r) ==> KeptAt(k, n, s))
      && KeptAt(key, if reply.Answer? then resume + |toks| + |reply.out| else v, s)
      && (s.key == r.key || s.key == key || s.key == "")
  {
    var r0 := if e.restart then Restart(r, e.junk) else r;
    RestartKeeps(g.m, r, e);
    KeptHasRows(key, v, r0, resume);
    ServeStocks(g, r0, key, resume, toks, seed);
    PlaceKeeps(g.m, r0, key, resume);
    var served := Serve(g, r0, key, resume, toks, seed);
    KeptLess(key, resume + |toks| + |served.1.out|, served.0, v);
    match e.fate
    case Crashed(junk) =>
      CrashKeeps(g.m, r0, Place(g.m, r0, key, resume).0, key, junk, v);
      hide Place, KeptAt, Serve;
    case _ =>
      hide Place, KeptAt, Serve;
  }

  lemma {:induction false} KeptLess(key: Key, n: nat, r: RankSt, m: nat)
    requires KeptAt(key, n, r) && m <= n
    ensures KeptAt(key, m, r)
  {
  }

  lemma {:induction false} RestartKeeps(m: Model, r: RankSt, e: Env)
    requires RankFine(m, r) && EnvFine(m, e)
    ensures RankFine(m, Restart(r, e.junk))
    ensures forall k, n: nat :: k != "" && KeptAt(k, n, r) ==> KeptAt(k, n, Restart(r, e.junk))
  {
  }

  lemma {:induction false} CrashKeeps(m: Model, r: RankSt, s: RankSt, key: Key, junk: Mem, v: nat)
    requires KeptAt(key, v, r) && key != ""
    requires key in r.disk ==> key in s.disk && s.disk[key].pos == r.disk[key].pos
    requires forall k, n: nat :: k != key && k != "" && KeptAt(k, n, r) ==> KeptAt(k, n, s)
    ensures KeptAt(key, v, Restart(s, junk))
    ensures forall k, n: nat :: k != key && k != "" && KeptAt(k, n, r) ==> KeptAt(k, n, Restart(s, junk))
  {
    forall k, n: nat | k != key && k != "" && KeptAt(k, n, r)
      ensures KeptAt(k, n, Restart(s, junk))
    {
      assert KeptAt(k, n, s);
    }
  }

  /** The table and the rank fit together. */
  ghost predicate Ready(g: Gen, ss: seq<Sess>, r: RankSt) {
    Table(ss) && RankFine(g.m, r) && Stocked(ss, r, g.eos) && (r.key == "" || Has(ss, r.key))
  }

  /** A request whose prompt fits and whose connection is not rejected: served, it is answered by its
      first attempt and nothing is sent again; whatever happens, the rank stays stocked. */
  lemma {:induction false} FirstAttemptAnswers(g: Gen, ss: seq<Sess>, rank: RankSt, j: Job)
    requires Ready(g, ss, rank) && JobFine(g, ss, j) && |j.req.full| <= g.m.maxSeq && !RejectedFirst(j.envs)
    ensures RankFine(g.m, rank) && EnvsFine(g.m, j.envs) && !Doubled(g, ss, rank, j.req, j.envs)
    ensures
      var (ss', rank', o) := Forward(g, ss, rank, j.req, j.envs);
      && (o.Replied? <==> j.envs != [] && j.envs[0].fate == Served) && (o.Replied? ==> !o.resent)
      && Ready(g, ss', rank')
  {
    hide Attempts, MakePlan, Strike, Stocked, Table, Has, RankFine, EnvFine, FirstFails;
    PlanStocked(ss, rank, j.req, g.eos);
    PlanTable(ss, j.req, g.eos);
    var p := MakePlan(ss, j.req, g.eos);
    var l := Loop(p.ss, rank, p.toks, p.resume, false, false, 0);
    RankHas(ss, p.ss, rank);
    if j.envs == [] {
      AttemptsEnd(g, p, l, j.req);
    } else {
      AttemptsStep(g, p, l, j.req, j.envs);
      FirstStrike(g, p, rank, j.req.seed, j.envs[0]);
      TableKeys(p.ss, p.i);
      StrikeStocks(g, rank, p.ss[p.i].key, p.resume, p.toks, j.req.seed, j.envs[0], |p.ss[p.i].toks|);
      AfterStrike(g, p, l, j.req, j.envs[0]);
    }
  }

  lemma {:induction false} TableKeys(ss: seq<Sess>, i: nat)
    requires Table(ss) && i < |ss|
    ensures ss[i].key != ""
  {
  }

  lemma {:induction false} RankHas(ss: seq<Sess>, ss': seq<Sess>, r: RankSt)
    requires (r.key == "" || Has(ss, r.key)) && forall key :: Has(ss, key) ==> Has(ss', key)
    ensures r.key == "" || Has(ss', r.key)
  {
  }

  lemma {:induction false} PlanTable(ss: seq<Sess>, req: Req, eos: Token)
    requires Table(ss) && req.full != [] && (req.key == "" ==> req.newKey != "" && !Has(ss, req.newKey))
    ensures
      var p := MakePlan(ss, req, eos);
      Table(p.ss) && forall key :: Has(ss, key) ==> Has(p.ss, key)
  {
    var (ss', i) := Pick(ss, req, eos);
    PickShrinks(ss, req, eos);
    if i < |ss| {
      SameKeys(ss, ss');
    } else {
      forall key | Has(ss, key)
        ensures Has(ss', key)
      {
        var j :| 0 <= j < |ss| && ss[j].key == key;
        assert ss'[j].key == key;
      }
      AddedKey(ss, req, eos);
    }
    hide Lcp, Best;
  }

  lemma {:induction false} AddedKey(ss: seq<Sess>, req: Req, eos: Token)
    requires Table(ss) && (req.key == "" ==> req.newKey != "" && !Has(ss, req.newKey))
    requires Pick(ss, req, eos).1 == |ss|
    ensures Table(Pick(ss, req, eos).0)
  {
    hide Lcp, Best;
  }

  /** The table after the first attempt, committed or not. */
  lemma {:induction false} AfterStrike(g: Gen, p: Plan, l: Loop, req: Req, e: Env)
    requires p.i < |p.ss| && l.ss == p.ss && l.toks == p.toks != [] && !l.sent && Table(p.ss)
    requires RankFine(g.m, l.rank) && EnvFine(g.m, e) && Stocked(p.ss, l.rank, g.eos)
    requires l.rank.key == "" || Has(p.ss, l.rank.key)
    requires p.resume + |p.toks| == |req.full| >= |p.ss[p.i].toks|
    requires |p.ss[p.i].toks| + (if p.replay then 0 else |p.toks|) == |req.full|
    requires
      var (s, reply, over) := Strike(g, l.rank, p.ss[p.i].key, p.resume, p.toks, req.seed, e);
      && (forall k, n: nat :: k != p.ss[p.i].key && k != "" && KeptAt(k, n, l.rank) ==> KeptAt(k, n, s))
      && KeptAt(p.ss[p.i].key, if reply.Answer? then p.resume + |p.toks| + |reply.out| else |p.ss[p.i].toks|, s)
      && (s.key == l.rank.key || s.key == p.ss[p.i].key || s.key == "")
    ensures
      var (s, reply, over) := Strike(g, l.rank, p.ss[p.i].key, p.resume, p.toks, req.seed, e);
      && Ready(g, p.ss, s)
      && (reply.Answer? ==> Ready(g, Commit(p, l.(rank := s), reply.out, g.eos), s))
  {
    hide Strike;
    var (s, reply, over) := Strike(g, l.rank, p.ss[p.i].key, p.resume, p.toks, req.seed, e);
    LoadedIsListed(p.ss, p.i, l.rank, s);
    OthersStocked(p.ss, p.i, l.rank, s, g.eos);
    var n := if reply.Answer? then p.resume + |p.toks| + |reply.out| else |p.ss[p.i].toks|;
    KeptLess(p.ss[p.i].key, n, s, |Bare(p.ss[p.i].toks, g.eos)|);
    hide KeptAt, RankFine;
    forall j | 0 <= j < |p.ss|
      ensures StockedAt(p.ss[j], s, g.eos)
    {
    }
    if reply.Answer? {
      var ss' := Commit(p, l.(rank := s), reply.out, g.eos);
      SameKeys(p.ss, ss');
      BareOfCommit(p.ss[p.i].toks + (if p.replay then [] else p.toks) + reply.out, g.eos);
      forall j | 0 <= j < |ss'|
        ensures StockedAt(ss'[j], s, g.eos)
      {
      }
    }
  }

  lemma {:induction false} BareOfCommit(toks: seq<Token>, eos: Token)
    ensures Bare(toks + [eos], eos) == toks
  {
  }

  lemma {:induction false} LoadedIsListed(ss: seq<Sess>, i: nat, r: RankSt, s: RankSt)
    requires i < |ss| && (r.key == "" || Has(ss, r.key)) && (s.key == r.key || s.key == ss[i].key || s.key == "")
    ensures s.key == "" || Has(ss, s.key)
  {
  }

  lemma {:induction false} OthersStocked(ss: seq<Sess>, i: nat, r: RankSt, s: RankSt, eos: Token)
    requires Table(ss) && i < |ss| && Stocked(ss, r, eos)
    requires forall k, n: nat :: k != ss[i].key && k != "" && KeptAt(k, n, r) ==> KeptAt(k, n, s)
    ensures forall j :: 0 <= j < |ss| && j != i ==> StockedAt(ss[j], s, eos)
  {
    hide KeptAt;
    forall j | 0 <= j < |ss| && j != i
      ensures StockedAt(ss[j], s, eos)
    {
      assert StockedAt(ss[j], r, eos);
      assert ss[j].key != ss[i].key;
    }
  }

  // ----- whole runs -----

  /** Every prompt fits, and no connection is rejected; restarts, crashes, lost answers and unreachable
      ranks are all allowed. */
  ghost predicate SteadyRun(g: Gen, ss: seq<Sess>, rank: RankSt, jobs: seq<Job>)
    requires RankFine(g.m, rank)
    decreases |jobs|
  {
    jobs == [] ||
    (&& JobFine(g, ss, jobs[0]) && |jobs[0].req.full| <= g.m.maxSeq && !RejectedFirst(jobs[0].envs)
     && var (ss', rank', o) := Forward(g, ss, rank, jobs[0].req, jobs[0].envs);
        SteadyRun(g, ss', rank', jobs[1..]))
  }

  /** A steady run has no doubled request. */
  lemma {:induction false} SteadyIsFine(g: Gen, ss: seq<Sess>, rank: RankSt, jobs: seq<Job>)
    requires RankFine(g.m, rank) && Ready(g, ss, rank) && SteadyRun(g, ss, rank, jobs)
    ensures RunFine(g, ss, rank, jobs)
    decreases |jobs|
  {
    hide Forward, Ready, Doubled, RankFine;
    if jobs != [] {
      FirstAttemptAnswers(g, ss, rank, jobs[0]);
      var (ss', rank', o) := Forward(g, ss, rank, jobs[0].req, jobs[0].envs);
      SteadyIsFine(g, ss', rank', jobs[1..]);
    }
  }

  /** A request was answered by its first attempt, exactly when that one was served. */
  predicate AnsweredAtOnce(j: Job, o: Outcome) {
    && (o.Replied? <==> j.envs != [] && j.envs[0].fate == Served)
    && (o.Replied? ==> !o.resent)
  }

  lemma {:induction false} SteadyAnswers(g: Gen, ss: seq<Sess>, rank: RankSt, jobs: seq<Job>, n: nat)
    requires RankFine(g.m, rank) && Ready(g, ss, rank) && SteadyRun(g, ss, rank, jobs) && n < |jobs|
    requires forall j :: 0 <= j < |jobs| ==> jobs[j].req.full != [] && EnvsFine(g.m, jobs[j].envs)
    ensures AnsweredAtOnce(jobs[n], Results(g, ss, rank, jobs)[n].0)
    decreases |jobs|
  {
    hide Forward, Ready, Doubled, RankFine;
    FirstAttemptAnswers(g, ss, rank, jobs[0]);
    if n > 0 {
      var (ss', rank', o) := Forward(g, ss, rank, jobs[0].req, jobs[0].envs);
      SteadyAnswers(g, ss', rank', jobs[1..], n - 1);
    }
  }

  /** In every run from an empty table and an empty disk whose prompts fit and in which no connection is
      rejected, across session switches, restarts, crashes and lost answers: no attempt is refused,
      nothing is sent again, every served request is answered at once, and from scratch. */
  lemma {:induction false} NothingSentAgain(g: Gen, mem: Mem, jobs: seq<Job>, n: nat)
    requires g.m.Valid() && g.m.Fits(mem) && SteadyRun(g, [], RankSt(mem, "", 0, map[]), jobs) && n < |jobs|
    ensures forall j :: 0 <= j < |jobs| ==> jobs[j].req.full != [] && EnvsFine(g.m, jobs[j].envs)
    ensures
      var (o, r) := Results(g, [], RankSt(mem, "", 0, map[]), jobs)[n];
      AnsweredAtOnce(jobs[n], o) && FromScratch(g, jobs[n].req, o, r)
  {
    hide SteadyRun, RunFine, Results;
    var rank := RankSt(mem, "", 0, map[]);
    assert Ready(g, [], rank);
    SteadyIsFine(g, [], rank, jobs);
    SessionsAnswerFromScratch(g, mem, jobs, n);
    SteadyAnswers(g, [], rank, jobs, n);
  }

  // ----- why prompts have to fit -----

  /** On a stocked rank the first attempt of a served request fails exactly when the prompt does not fit. */
  lemma {:induction false} FailsIffTooLong(g: Gen, ss: seq<Sess>, rank: RankSt, j: Job)
    requires Ready(g, ss, rank) && JobFine(g, ss, j) && j.envs != [] && j.envs[0].fate == Served
    ensures
      var p := MakePlan(ss, j.req, g.eos);
      RankFine(g.m, rank) && EnvFine(g.m, j.envs[0])
      && (FirstFails(g, p, rank, j.envs[0]) <==> |j.req.full| > g.m.maxSeq)
  {
    hide MakePlan, Stocked, Table, Has, RankFine, Place;
    PlanStocked(ss, rank, j.req, g.eos);
    PlanTable(ss, j.req, g.eos);
    var p := MakePlan(ss, j.req, g.eos);
    var e := j.envs[0];
    assert EnvFine(g.m, e);
    TableKeys(p.ss, p.i);
    RestartKeeps(g.m, rank, e);
    var r := if e.restart then Restart(rank, e.junk) else rank;
    KeptHasRows(p.ss[p.i].key, |p.ss[p.i].toks|, r, p.resume);
    PlaceExactly(g.m, r, p.ss[p.i].key, p.resume);
  }

  /** A prompt that does not fit and is tried twice empties the loaded session: the rank stands at 0,
      and the next request that resumes there is refused, although nothing was lost or rejected. */
  lemma {:induction false} LongPromptEmpties(g: Gen, r: RankSt, key: Key, toks: seq<Token>, seed: Rng, resume: nat)
    requires RankFine(g.m, r) && |toks| > g.m.maxSeq && resume > 0
    ensures
      var (s, reply) := Serve(g, r, key, 0, toks, seed);
      && reply == Failed && s.key == key && s.pos == 0
      && !HasRows(s, key, resume) && !Place(g.m, s, key, resume).1
  {
    PlaceAtZero(g.m, r, key);
    PlaceKeeps(g.m, r, key, 0);
    PlaceExactly(g.m, Place(g.m, r, key, 0).0, key, resume);
    hide Place, Local;
  }

  /** An exact hit on a session that was emptied so is doubled, with every attempt served. */
  lemma {:induction false} EmptiedHitDoubles(g: Gen, ss: seq<Sess>, r: RankSt, req: Req, junk: Mem)
    requires req.full != [] && RankFine(g.m, r) && g.m.Fits(junk)
    requires
      var p := MakePlan(ss, req, g.eos);
      p.replay && p.resume > 0 && p.ss[p.i].key == r.key && r.pos == 0 && |p.ss[p.i].toks| + |p.toks| <= g.m.maxSeq
    ensures
      var e := Env(false, junk, Served);
      EnvsFine(g.m, [e, e]) && Doubled(g, ss, r, req, [e, e])
  {
    var p, e := MakePlan(ss, req, g.eos), Env(false, junk, Served);
    hide MakePlan, Place, RankFine;
    PlaceExactly(g.m, r, r.key, p.resume);
    FailedHitDoubles(g, ss, r, req, e, e);
  }
}
