/**
  The session protocol as the code runs it: the rank's session fields and the server's table
  and retry loop updated in place, tied to the functions of module Session.
*/
module SessionServer {
  import opened Engine
  import opened Generation
  import opened Session

  /** `sess_lcp`. */
  method SessLcp(toks: seq<Token>, req: seq<Token>, eos: Token) returns (i: nat)
    ensures i == Lcp(toks, req, eos)
  {
    var vn := |toks|;
    if vn > 0 && toks[vn - 1] == eos {
      vn := vn - 1;
    }
    var m := if vn < |req| then vn else |req|;
    i := 0;
    while i < m && toks[i] == req[i]
      invariant 0 <= i <= m
      invariant toks[..i] == req[..i]
    {
      i := i + 1;
    }
    CommonIs(toks[..vn], req, i);
    assert vn == |toks| ==> toks[..vn] == toks;
  }

  lemma {:induction false} CommonIs(a: seq<Token>, b: seq<Token>, n: nat)
    requires n <= |a| && n <= |b| && a[..n] == b[..n]
    requires n == |a| || n == |b| || a[n] != b[n]
    ensures Common(a, b) == n
  {
    PrefixAgree(a, b, n);
    PrefixAgree(a, b, Common(a, b));
  }

  lemma {:induction false} PrefixAgree(a: seq<Token>, b: seq<Token>, n: nat)
    requires n <= |a| && n <= |b| && a[..n] == b[..n]
    ensures forall j :: 0 <= j < n ==> a[j] == b[j]
  {
    forall j | 0 <= j < n
      ensures a[j] == b[j]
    {
      assert a[..n][j] == b[..n][j];
    }
  }

  /** `sess_find_prefix`. */
  method SessFindPrefix(ss: seq<Sess>, req: seq<Token>, eos: Token) returns (best: nat, bestP: nat)
    ensures (best, bestP) == Best(ss, req, eos, |ss|)
  {
    best, bestP := |ss|, 0;
    for i := 0 to |ss|
      invariant (best, bestP) == Best(ss, req, eos, i)
    {
      var p := SessLcp(ss[i].toks, req, eos);
      if p > bestP {
        best, bestP := i, p;
      }
    }
  }

  /** `sess_get`. */
  method SessGet(ss: seq<Sess>, key: Key) returns (i: nat)
    ensures i == IndexOf(ss, key)
  {
    i := 0;
    while i < |ss| && ss[i].key != key
      invariant 0 <= i <= |ss|
      invariant forall j :: 0 <= j < i ==> ss[j].key != key
    {
      i := i + 1;
    }
  }

  /** A rank process: `engine.kv`, `cache_key`, `cache_pos` and the cache directory. */
  class RankProc {
    var mem: Mem
    var cacheKey: Key
    var cachePos: nat
    var disk: map<Key, Saved>

    constructor (mem: Mem, disk: map<Key, Saved>)
      ensures State() == RankSt(mem, "", 0, disk)
    {
      this.mem, cacheKey, cachePos, this.disk := mem, "", 0, disk;
    }

    function State(): (r: RankSt)
      reads this
    {
      RankSt(mem, cacheKey, cachePos, disk)
    }

    /** The part of `handle_infer_cache` before the prefill. */
    method PlaceAt(m: Model, key: Key, resume: nat) returns (ok: bool)
      requires RankFine(m, State())
      modifies this
      ensures (State(), ok) == old(Place(m, State(), key, resume))
    {
      if key != cacheKey {
        if cacheKey != "" {
          disk := disk[cacheKey := Saved(cachePos, mem)];
        }
        cacheKey := key;
        cachePos := 0;
        if resume != 0 {
          var loaded := 0;
          if key in disk {
            mem := Load(m, mem, disk[key]);
            loaded := disk[key].pos;
          }
          if key in disk && loaded >= resume {
            cachePos := resume;
          } else {
            disk := disk - {key};
            return false;
          }
        }
      }
      if resume != cachePos {
        if resume == 0 {
          cachePos := 0;
        } else if resume < cachePos {
          cachePos := resume;
        } else {
          disk := disk - {key};
          cachePos := 0;
          return false;
        }
      }
      return true;
    }

    /** `handle_infer_cache`. */
    method HandleInferCache(g: Gen, key: Key, resume: nat, delta: seq<Token>, seed: Rng, cap: nat, batchMin: nat)
      returns (reply: Reply)
      requires RankFine(g.m, State()) && delta != [] && cap > 0
      modifies this
      ensures (State(), reply) == old(Serve(g, State(), key, resume, delta, seed))
    {
      var ok := PlaceAt(g.m, key, resume);
      if !ok {
        return Refused;
      }
      if cachePos + |delta| > g.m.maxSeq {
        return Failed;
      }
      hide Local, Place;
      var out;
      mem, cachePos, out := RunLocal(g, mem, cachePos, delta, seed, cap, batchMin);
      cacheKey := key;
      disk := disk[key := Saved(cachePos, mem)];
      return Answer(out);
    }
  }

  lemma {:induction false} ForwardIs(g: Gen, ss: seq<Sess>, rank: RankSt, req: Req, envs: seq<Env>)
    requires req.full != [] && RankFine(g.m, rank) && EnvsFine(g.m, envs)
    ensures
      var p := MakePlan(ss, req, g.eos);
      Forward(g, ss, rank, req, envs)
        == Attempts(g, p, Loop(p.ss, rank, p.toks, p.resume, false, false, 0), req, envs)
  {
    hide MakePlan, Attempts, RankFine;
  }

  lemma {:induction false} PlanIs(ss: seq<Sess>, req: Req, eos: Token)
    requires req.full != []
    ensures
      var (ss', i) := Pick(ss, req, eos);
      var p := MakePlan(ss, req, eos);
      var n := |ss'[i].toks|;
      && p.ss == ss' && p.i == i && (p.replay <==> n >= |req.full|)
      && p.resume == (if n >= |req.full| then |req.full| - 1 else n) && p.toks == req.full[p.resume..]
  {
    assert req.full[|req.full| - 1..] == [req.full[|req.full| - 1]];
  }

  /** The server's session table; `infer_lock` is held for the whole request. */
  class Server {
    var sessions: seq<Sess>

    constructor ()
      ensures sessions == []
    {
      sessions := [];
    }

    /** Find or create the session and truncate it to the common prefix. */
    method PickSession(req: Req, eos: Token) returns (i: nat)
      modifies this
      ensures (sessions, i) == old(Pick(sessions, req, eos))
    {
      if req.key != "" {
        i := SessGet(sessions, req.key);
        if i < |sessions| {
          var lcp := SessLcp(sessions[i].toks, req.full, eos);
          sessions := sessions[i := Sess(req.key, sessions[i].toks[..lcp])];
        } else {
          sessions := sessions + [Sess(req.key, [])];
        }
      } else {
        var lcp;
        i, lcp := SessFindPrefix(sessions, req.full, eos);
        if i < |sessions| {
          sessions := sessions[i := Sess(sessions[i].key, sessions[i].toks[..lcp])];
        } else {
          sessions := sessions + [Sess(req.newKey, [])];
        }
      }
    }

    /** One connection to the rank. */
    method Attempt(rank: RankProc, g: Gen, key: Key, resume: nat, toks: seq<Token>, seed: Rng, e: Env, cap: nat, batchMin: nat)
      returns (reply: Reply, over: bool)
      requires RankFine(g.m, rank.State()) && toks != [] && EnvFine(g.m, e) && cap > 0
      modifies rank
      ensures (rank.State(), reply, over) == old(Strike(g, rank.State(), key, resume, toks, seed, e))
    {
      hide Serve, Place;
      if e.restart {
        rank.mem, rank.cacheKey, rank.cachePos := e.junk, "", 0;
      }
      match e.fate {
        case Unreachable => return Failed, true;
        case Crashed(junk) =>
          var _ := rank.PlaceAt(g.m, key, resume);
          rank.mem, rank.cacheKey, rank.cachePos := junk, "", 0;
          return Failed, true;
        case AnswerLost =>
          var _ := rank.HandleInferCache(g, key, resume, toks, seed, cap, batchMin);
          return Failed, true;
        case Rejected => return Failed, false;
        case Served =>
          reply := rank.HandleInferCache(g, key, resume, toks, seed, cap, batchMin);
          return reply, false;
      }
    }

    /** What the retry loop does about an error: resend in full, rebuild, retry, or give up. */
    method OnError(rank: RankProc, ghost m: Model, req: Req, ghost p: Plan, i: nat, refused: bool, sent0: bool,
                   rebuilt0: bool, retry0: nat, toks0: seq<Token>, resume0: nat)
      returns (stop: bool, sent: bool, rebuilt: bool, retry: nat, toks: seq<Token>, resume: nat)
      requires p.i == i < |sessions| && toks0 != [] && req.full != [] && RankFine(m, rank.State())
      modifies `sessions, rank
      ensures |sessions| == |old(sessions)| && sessions[i].key == old(sessions[i].key)
      ensures toks != [] && RankFine(m, rank.State())
      ensures old(React(p, Loop(sessions, rank.State(), toks0, resume0, sent0, rebuilt0, retry0), req, refused))
           == if stop then Stop else Retry(Loop(sessions, rank.State(), toks, resume, sent, rebuilt, retry))
      ensures stop ==> sessions == old(sessions) && rank.State() == old(rank.State())
    {
      stop, sent, rebuilt, retry, toks, resume := false, sent0, rebuilt0, retry0, toks0, resume0;
      var key := sessions[i].key;
      if refused && !sent {
        rank.disk := rank.disk - {key};
        sent := true;
      } else if refused && !rebuilt {
        rank.disk := rank.disk - {key};
        sessions := sessions[i := Sess(key, [])];
        toks, rebuilt, resume := req.full, true, 0;
      } else if !sent {
        sent := true;
      } else if retry < 5 {
        retry := retry + 1;
      } else {
        stop := true;
      }
    }

    /** `forward_infer_sess`: the fates of the attempts come from outside. */
    method ForwardInferSess(rank: RankProc, g: Gen, req: Req, envs: seq<Env>, cap: nat, batchMin: nat)
      returns (o: Outcome)
      requires req.full != [] && RankFine(g.m, rank.State()) && EnvsFine(g.m, envs) && cap > 0
      modifies this, rank
      ensures (sessions, rank.State(), o) == old(Forward(g, sessions, rank.State(), req, envs))
    {
      hide MakePlan, Strike, Forward, RankFine, EnvFine, EnvsFine, Serve, Place, React, Attempts;
      ghost var whole := Forward(g, sessions, rank.State(), req, envs);
      ghost var p := MakePlan(sessions, req, g.eos);
      ForwardIs(g, sessions, rank.State(), req, envs);
      PlanIs(sessions, req, g.eos);
      var i := PickSession(req, g.eos);
      var key := sessions[i].key;
      var resume: nat := |sessions[i].toks|;
      var replay := resume >= |req.full|;
      if replay {
        resume := |req.full| - 1;
      }
      var toks := req.full[resume..];
      var sent, rebuilt, retry := false, false, 0;
      var n := 0;
      while n < |envs|
        invariant 0 <= n <= |envs|
        invariant p.i == i < |sessions| && sessions[i].key == key && p.replay == replay
        invariant toks != [] && RankFine(g.m, rank.State()) && EnvsFine(g.m, envs[n..])
        invariant whole == Attempts(g, p, Loop(sessions, rank.State(), toks, resume, sent, rebuilt, retry), req, envs[n..])
      {
        var e := envs[n];
        assert envs[n..][0] == e && envs[n..][1..] == envs[n + 1..];
        AttemptsStep(g, p, Loop(sessions, rank.State(), toks, resume, sent, rebuilt, retry), req, envs[n..]);
        var st := if sent then sessions[i].toks + toks else toks;
        var sr := if sent then 0 else resume;
        var reply, over := Attempt(rank, g, key, sr, st, req.seed, e, cap, batchMin);
        if over {
          return NoAnswer;
        }
        if reply.Answer? {
          sessions := sessions[i := Sess(key, sessions[i].toks + (if replay then [] else toks) + reply.out + [g.eos])];
          return Replied(reply.out, sent, rebuilt);
        }
        var stop;
        stop, sent, rebuilt, retry, toks, resume :=
          OnError(rank, g.m, req, p, i, reply.Refused?, sent, rebuilt, retry, toks, resume);
        if stop {
          return NoAnswer;
        }
        n := n + 1;
      }
      assert envs[n..] == [];
      AttemptsEnd(g, p, Loop(sessions, rank.State(), toks, resume, sent, rebuilt, retry), req);
      return NoAnswer;
    }
  }
}
