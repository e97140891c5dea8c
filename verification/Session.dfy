/**
  The session protocol (serve/server.c `forward_infer_sess`, serve/rank.c
  `handle_infer_cache`, inference/core/cache.c): the server keeps token lists and sends only
  what lies beyond the longest common prefix; the rank keeps the K/V rows of one session,
  truncates them, saves and restores them by key, and refuses a continuation it cannot make.
*/
module Session {
  import opened Engine
  import opened Generation

  type Key = string

  // ----- the rank -----

  /** A saved K/V file: the rows `[0, pos)` of `rows`. */
  datatype Saved = Saved(pos: nat, rows: Mem)

  /** `key == ""` means that no session is loaded. */
  datatype RankSt = RankSt(mem: Mem, key: Key, pos: nat, disk: map<Key, Saved>)

  /** `Refused` stands for the errors the server answers by rebuilding the session,
      `Failed` for all others. */
  datatype Reply = Refused | Failed | Answer(out: seq<Token>)

  ghost predicate RankFine(m: Model, r: RankSt) {
    && m.Valid() && m.Fits(r.mem) && r.pos <= m.maxSeq
    && forall k :: k in r.disk ==> m.Fits(r.disk[k].rows) && r.disk[k].pos <= m.maxSeq
  }

  /** `sess_kv_load`: the saved rows replace the first `s.pos` rows of every layer. */
  function Load(m: Model, mem: Mem, s: Saved): (r: Mem)
    requires m.Fits(mem) && m.Fits(s.rows) && s.pos <= m.maxSeq
    ensures m.Fits(r)
  {
    seq(m.layers, l requires 0 <= l < m.layers => s.rows[l][..s.pos] + mem[l][s.pos..])
  }

  /** Switching sessions: save the old one, then restore the new one from disk when the
      request resumes.  `false` when the file is missing or too short; it is then deleted. */
  function Switch(m: Model, r: RankSt, key: Key, resume: nat): (p: (RankSt, bool))
    requires RankFine(m, r)
    ensures RankFine(m, p.0)
  {
    if key == r.key then (r, true)
    else
      var disk := if r.key == "" then r.disk else r.disk[r.key := Saved(r.pos, r.mem)];
      var s := RankSt(r.mem, key, 0, disk);
      if resume == 0 then (s, true)
      else
        var mem := if key in disk then Load(m, r.mem, disk[key]) else r.mem;
        if key in disk && disk[key].pos >= resume then (s.(mem := mem, pos := resume), true)
        else (s.(mem := mem, disk := disk - {key}), false)
  }

  /** Position the rank at `resume`: truncate, restart from 0, or refuse. */
  function Rewind(m: Model, r: RankSt, resume: nat): (p: (RankSt, bool))
    requires RankFine(m, r)
    ensures RankFine(m, p.0)
  {
    if resume <= r.pos then (r.(pos := resume), true)
    else (r.(pos := 0, disk := r.disk - {r.key}), false)
  }

  /** The request has been placed: the rank stands at `resume`, ready to prefill. */
  function Place(m: Model, r: RankSt, key: Key, resume: nat): (p: (RankSt, bool))
    requires RankFine(m, r)
    ensures RankFine(m, p.0)
    ensures p.1 ==> p.0.pos == resume
  {
    var (s, ok) := Switch(m, r, key, resume);
    if ok then Rewind(m, s, resume) else (s, false)
  }

  /** `handle_infer_cache` on one rank. */
  function Serve(g: Gen, r: RankSt, key: Key, resume: nat, delta: seq<Token>, seed: Rng): (p: (RankSt, Reply))
    requires RankFine(g.m, r) && delta != []
    ensures RankFine(g.m, p.0)
  {
    var (s, ok) := Place(g.m, r, key, resume);
    if !ok then (s, Refused)
    else if s.pos + |delta| > g.m.maxSeq then (s, Failed)
    else
      var l := Local(g, s.mem, s.pos, delta, seed);
      (RankSt(l.mem, key, l.pos, s.disk[key := Saved(l.pos, l.mem)]), Answer(l.out))
  }

  // ----- the server's session table -----

  datatype Sess = Sess(key: Key, toks: seq<Token>)

  /** `sess_get`: the index of the session, or the table length. */
  function IndexOf(ss: seq<Sess>, key: Key): (i: nat)
    ensures i <= |ss| && (i < |ss| ==> ss[i].key == key)
    ensures forall j :: 0 <= j < i ==> ss[j].key != key
  {
    if ss == [] || ss[0].key == key then 0 else 1 + IndexOf(ss[1..], key)
  }

  function Common(a: seq<Token>, b: seq<Token>): (n: nat)
    ensures n <= |a| && n <= |b| && a[..n] == b[..n]
    ensures n < |a| && n < |b| ==> a[n] != b[n]
  {
    if a == [] || b == [] || a[0] != b[0] then 0 else
      var n := 1 + Common(a[1..], b[1..]);
      assert a[..n] == [a[0]] + a[1..][..n - 1];
      assert b[..n] == [b[0]] + b[1..][..n - 1];
      n
  }

  /** `sess_lcp`: the common prefix with the request, ignoring a trailing eos. */
  function Lcp(toks: seq<Token>, req: seq<Token>, eos: Token): (n: nat)
    ensures n <= |toks| && n <= |req| && toks[..n] == req[..n]
  {
    var v := if toks != [] && toks[|toks| - 1] == eos then toks[..|toks| - 1] else toks;
    var n := Common(v, req);
    assert toks[..n] == v[..n];
    n
  }

  /** A list without its trailing eos. */
  function Bare(toks: seq<Token>, eos: Token): (v: seq<Token>)
    ensures |v| <= |toks|
  {
    if toks != [] && toks[|toks| - 1] == eos then toks[..|toks| - 1] else toks
  }

  /** No longer prefix of the request is also one of the list without its trailing eos. */
  lemma {:induction false} LcpIsLongest(toks: seq<Token>, req: seq<Token>, eos: Token, n: nat)
    requires n <= |Bare(toks, eos)| && n <= |req| && Bare(toks, eos)[..n] == req[..n]
    ensures n <= Lcp(toks, req, eos) <= |Bare(toks, eos)|
  {
    var v := Bare(toks, eos);
    assert forall i :: 0 <= i < n ==> v[i] == v[..n][i] && req[i] == req[..n][i];
  }

  /** `sess_find_prefix`: the first session with the longest non-empty common prefix, or the
      table length. */
  function Best(ss: seq<Sess>, req: seq<Token>, eos: Token, n: nat): (p: (nat, nat))
    requires n <= |ss|
    ensures p.0 < n || (p.0 == |ss| && p.1 == 0)
    ensures p.0 < n ==> p.1 == Lcp(ss[p.0].toks, req, eos) > 0
    ensures forall j :: 0 <= j < n ==> Lcp(ss[j].toks, req, eos) <= p.1
  {
    if n == 0 then (|ss|, 0)
    else
      var p := Best(ss, req, eos, n - 1);
      var l := Lcp(ss[n - 1].toks, req, eos);
      if l > p.1 then (n - 1, l) else p
  }

  // ----- one request at the server -----

  /** `key == ""` when the client sent none; `newKey` is the generated one. */
  datatype Req = Req(key: Key, full: seq<Token>, newKey: Key, seed: Rng)

  /** What the server sends first: `toks` beyond `resume`; `replay` marks the exact hit whose
      last token is sent again. */
  datatype Plan = Plan(ss: seq<Sess>, i: nat, resume: nat, toks: seq<Token>, replay: bool)

  /** Pick the session and truncate it to the common prefix. */
  function Pick(ss: seq<Sess>, req: Req, eos: Token): (p: (seq<Sess>, nat))
    ensures p.1 < |p.0|
  {
    if req.key != "" then
      var i := IndexOf(ss, req.key);
      if i < |ss| then (ss[i := Sess(req.key, ss[i].toks[..Lcp(ss[i].toks, req.full, eos)])], i)
      else (ss + [Sess(req.key, [])], i)
    else
      var (i, l) := Best(ss, req.full, eos, |ss|);
      if i < |ss| then (ss[i := Sess(ss[i].key, ss[i].toks[..l])], i)
      else (ss + [Sess(req.newKey, [])], |ss|)
  }

  function MakePlan(ss: seq<Sess>, req: Req, eos: Token): (p: Plan)
    requires req.full != []
    ensures p.i < |p.ss| && p.toks != []
  {
    var (ss', i) := Pick(ss, req, eos);
    var n := |ss'[i].toks|;
    if n < |req.full| then Plan(ss', i, n, req.full[n..], false)
    else Plan(ss', i, n - 1, [req.full[n - 1]], true)
  }

  /** What the network and the rank's host do to one attempt: the rank may have restarted with
      arbitrary memory; then the request is served, or rejected before it is looked at, or
      the rank dies after switching sessions, or the answer is lost. */
  datatype Fate = Served | Rejected | Crashed(junk: Mem) | AnswerLost | Unreachable
  datatype Env = Env(restart: bool, junk: Mem, fate: Fate)

  /** The retry loop's variables. */
  datatype Loop = Loop(ss: seq<Sess>, rank: RankSt, toks: seq<Token>, resume: nat, sent: bool, rebuilt: bool, retry: nat)

  datatype Outcome = NoAnswer | Replied(out: seq<Token>, resent: bool, rebuilt: bool)

  ghost predicate EnvFine(m: Model, e: Env) {
    m.Fits(e.junk) && (e.fate.Crashed? ==> m.Fits(e.fate.junk))
  }

  ghost predicate EnvsFine(m: Model, envs: seq<Env>) {
    forall j :: 0 <= j < |envs| ==> EnvFine(m, envs[j])
  }

  function Restart(r: RankSt, junk: Mem): (r': RankSt) {
    RankSt(junk, "", 0, r.disk)
  }

  function Unlink(r: RankSt, key: Key): (r': RankSt) {
    r.(disk := r.disk - {key})
  }

  /** The tokens and the resume point of the next attempt. */
  function Payload(p: Plan, l: Loop): (toks: seq<Token>)
    requires p.i < |l.ss|
  {
    if l.sent then l.ss[p.i].toks + l.toks else l.toks
  }

  function Resume(l: Loop): (n: nat) {
    if l.sent then 0 else l.resume
  }

  /** Append the request, the answer and eos to the session; a replayed token is already there. */
  function Commit(p: Plan, l: Loop, out: seq<Token>, eos: Token): (ss: seq<Sess>)
    requires p.i < |l.ss|
  {
    var v := l.ss[p.i];
    l.ss[p.i := Sess(v.key, v.toks + (if p.replay then [] else l.toks) + out + [eos])]
  }

  /** The server's reaction to an error; `None` ends the request. */
  datatype Reaction = Stop | Retry(l: Loop)

  function React(p: Plan, l: Loop, req: Req, refused: bool): (a: Reaction)
    requires p.i < |l.ss|
  {
    var key := l.ss[p.i].key;
    if refused && !l.sent then Retry(l.(rank := Unlink(l.rank, key), sent := true))
    else if refused && !l.rebuilt then
      Retry(l.(rank := Unlink(l.rank, key), ss := l.ss[p.i := Sess(key, [])], toks := req.full,
               rebuilt := true, resume := 0))
    else if !l.sent then Retry(l.(sent := true))
    else if l.retry < 5 then Retry(l.(retry := l.retry + 1))
    else Stop
  }

  /** What one attempt does to the rank, what it answers, and whether the request is over
      without an answer. */
  function Strike(g: Gen, r: RankSt, key: Key, resume: nat, toks: seq<Token>, seed: Rng, e: Env)
    : (p: (RankSt, Reply, bool))
    requires RankFine(g.m, r) && toks != [] && EnvFine(g.m, e)
    ensures RankFine(g.m, p.0)
  {
    var r0 := if e.restart then Restart(r, e.junk) else r;
    match e.fate
    case Unreachable => (r0, Failed, true)
    case Crashed(junk) => (Restart(Place(g.m, r0, key, resume).0, junk), Failed, true)
    case AnswerLost => (Serve(g, r0, key, resume, toks, seed).0, Failed, true)
    case Rejected => (r0, Failed, false)
    case Served => var (s, reply) := Serve(g, r0, key, resume, toks, seed); (s, reply, false)
  }

  /** The retry loop over the fates of its attempts. */
  function Attempts(g: Gen, p: Plan, l: Loop, req: Req, envs: seq<Env>): (r: (seq<Sess>, RankSt, Outcome))
    requires p.i < |l.ss| && l.toks != [] && req.full != [] && RankFine(g.m, l.rank)
    requires EnvsFine(g.m, envs)
    ensures RankFine(g.m, r.1)
    decreases |envs|
  {
    if envs == [] then (l.ss, l.rank, NoAnswer)
    else
      var (r1, reply, over) := Strike(g, l.rank, l.ss[p.i].key, Resume(l), Payload(p, l), req.seed, envs[0]);
      var l1 := l.(rank := r1);
      if over then (l.ss, r1, NoAnswer)
      else if reply.Answer? then (Commit(p, l1, reply.out, g.eos), r1, Replied(reply.out, l.sent, l.rebuilt))
      else Continue(g, p, React(p, l1, req, reply.Refused?), l1, req, envs)
  }

  function Continue(g: Gen, p: Plan, a: Reaction, l: Loop, req: Req, envs: seq<Env>): (r: (seq<Sess>, RankSt, Outcome))
    requires envs != [] && p.i < |l.ss| && req.full != [] && RankFine(g.m, l.rank)
    requires a.Retry? ==> p.i < |a.l.ss| && a.l.toks != [] && RankFine(g.m, a.l.rank)
    requires EnvsFine(g.m, envs)
    ensures RankFine(g.m, r.1)
    decreases |envs|, 0
  {
    match a
    case Stop => (l.ss, l.rank, NoAnswer)
    case Retry(l') => Attempts(g, p, l', req, envs[1..])
  }

  /** `forward_infer_sess`. */
  function Forward(g: Gen, ss: seq<Sess>, rank: RankSt, req: Req, envs: seq<Env>): (r: (seq<Sess>, RankSt, Outcome))
    requires req.full != [] && RankFine(g.m, rank) && EnvsFine(g.m, envs)
    ensures RankFine(g.m, r.1)
  {
    var p := MakePlan(ss, req, g.eos);
    Attempts(g, p, Loop(p.ss, rank, p.toks, p.resume, false, false, 0), req, envs)
  }

  /** One turn of the retry loop. */
  lemma {:induction false} AttemptsStep(g: Gen, p: Plan, l: Loop, req: Req, envs: seq<Env>)
    requires p.i < |l.ss| && l.toks != [] && req.full != [] && RankFine(g.m, l.rank)
    requires EnvsFine(g.m, envs) && envs != []
    ensures EnvFine(g.m, envs[0]) && EnvsFine(g.m, envs[1..])
    ensures
      var (r1, reply, over) := Strike(g, l.rank, l.ss[p.i].key, Resume(l), Payload(p, l), req.seed, envs[0]);
      var l1 := l.(rank := r1);
      var a := React(p, l1, req, reply.Refused?);
      && (over ==> Attempts(g, p, l, req, envs) == (l.ss, r1, NoAnswer))
      && (!over && reply.Answer? ==>
            Attempts(g, p, l, req, envs) == (Commit(p, l1, reply.out, g.eos), r1, Replied(reply.out, l.sent, l.rebuilt)))
      && (!over && !reply.Answer? ==>
            if a.Stop? then Attempts(g, p, l, req, envs) == (l.ss, r1, NoAnswer)
            else p.i < |a.l.ss| && a.l.toks != [] && RankFine(g.m, a.l.rank)
                 && Attempts(g, p, l, req, envs) == Attempts(g, p, a.l, req, envs[1..]))
  {
    hide Strike, EnvFine, Commit;
  }

  lemma {:induction false} AttemptsEnd(g: Gen, p: Plan, l: Loop, req: Req)
    requires p.i < |l.ss| && l.toks != [] && req.full != [] && RankFine(g.m, l.rank)
    ensures EnvsFine(g.m, []) && Attempts(g, p, l, req, []) == (l.ss, l.rank, NoAnswer)
  {
  }

  // ----- what the rows are known to hold -----

  /** The tokens whose rows the rank holds in memory and in each file. */
  datatype Know = Know(held: seq<Token>, saved: map<Key, seq<Token>>)

  ghost predicate Knows(m: Model, r: RankSt, k: Know) {
    && RankFine(m, r)
    && |k.held| == r.pos && Holds(m, r.mem, k.held)
    && k.saved.Keys == r.disk.Keys
    && (forall key :: key in r.disk ==> |k.saved[key]| == r.disk[key].pos && Holds(m, r.disk[key].rows, k.saved[key]))
  }

  /** One list never contradicts the other where both have a token. */
  predicate Compat(a: seq<Token>, b: seq<Token>) {
    forall i :: 0 <= i < |a| && i < |b| ==> a[i] == b[i]
  }

  ghost predicate Has(ss: seq<Sess>, key: Key) {
    exists i :: 0 <= i < |ss| && ss[i].key == key
  }

  ghost predicate Table(ss: seq<Sess>) {
    && (forall i :: 0 <= i < |ss| ==> ss[i].key != "")
    && (forall i, j :: 0 <= i < j < |ss| ==> ss[i].key != ss[j].key)
  }

  /** Memory and files agree with the server's token lists. */
  ghost predicate Agrees(ss: seq<Sess>, r: RankSt, k: Know) {
    && (r.key == "" ==> r.pos == 0) && (r.key != "" ==> Has(ss, r.key))
    && (forall key :: key in r.disk ==> Has(ss, key))
    && (forall i :: 0 <= i < |ss| ==>
          && (ss[i].key == r.key ==> Compat(k.held, ss[i].toks))
          && (ss[i].key in k.saved ==> Compat(k.saved[ss[i].key], ss[i].toks)))
  }

  ghost predicate Inv(m: Model, ss: seq<Sess>, r: RankSt, k: Know) {
    Table(ss) && Knows(m, r, k) && Agrees(ss, r, k)
  }

  lemma {:induction false} HoldsNone(m: Model, mem: Mem)
    requires m.Valid() && m.Fits(mem)
    ensures Holds(m, mem, [])
  {
  }

  lemma {:induction false} LoadHolds(m: Model, mem: Mem, s: Saved, toks: seq<Token>, n: nat)
    requires m.Valid() && m.Fits(mem) && m.Fits(s.rows) && s.pos == |toks| && Holds(m, s.rows, toks) && n <= |toks|
    ensures Holds(m, Load(m, mem, s), toks[..n])
  {
    hide Full;
    HoldsCopy(m, s.rows, Load(m, mem, s), toks);
    HoldsPrefix(m, Load(m, mem, s), toks, n);
  }

  /** Saving the session that leaves: its rows are known to the file. */
  lemma {:induction false} SaveKnows(m: Model, ss: seq<Sess>, r: RankSt, k: Know, i: nat)
    requires Inv(m, ss, r, k) && i < |ss| && ss[i].key != r.key
    ensures
      var disk := if r.key == "" then r.disk else r.disk[r.key := Saved(r.pos, r.mem)];
      var saved := if r.key == "" then k.saved else k.saved[r.key := k.held];
      Inv(m, ss, RankSt(r.mem, ss[i].key, 0, disk), Know([], saved))
  {
    hide Holds;
    HoldsNone(m, r.mem);
  }

  /** At position 0 the memory does not matter. */
  lemma {:induction false} AnyMemory(m: Model, ss: seq<Sess>, r: RankSt, k: Know, mem: Mem)
    requires Inv(m, ss, r, k) && r.pos == 0 && m.Fits(mem)
    ensures Inv(m, ss, r.(mem := mem), k)
  {
    hide Holds;
    HoldsNone(m, mem);
    assert k.held == [];
  }

  /** Restoring a file: the rank holds the first `resume` of its tokens. */
  lemma {:induction false} LoadKnows(m: Model, ss: seq<Sess>, r: RankSt, k: Know, resume: nat)
    requires Inv(m, ss, r, k) && r.key in r.disk && resume <= r.disk[r.key].pos
    ensures
      var s := r.(mem := Load(m, r.mem, r.disk[r.key]), pos := resume);
      Inv(m, ss, s, k.(held := k.saved[r.key][..resume]))
  {
    hide Holds, Load;
    LoadHolds(m, r.mem, r.disk[r.key], k.saved[r.key], resume);
  }

  lemma {:induction false} SwitchKnows(m: Model, ss: seq<Sess>, r: RankSt, k: Know, i: nat, resume: nat) returns (k': Know)
    requires Inv(m, ss, r, k) && i < |ss|
    ensures
      var s := Switch(m, r, ss[i].key, resume);
      && Inv(m, ss, s.0, k') && s.0.key == ss[i].key
  {
    k' := k;
    if ss[i].key != r.key {
      SaveKnows(m, ss, r, k, i);
      var key := ss[i].key;
      var disk := if r.key == "" then r.disk else r.disk[r.key := Saved(r.pos, r.mem)];
      k' := Know([], if r.key == "" then k.saved else k.saved[r.key := k.held]);
      var s := RankSt(r.mem, key, 0, disk);
      assert RankFine(m, s) && k'.saved.Keys == disk.Keys;
      hide Inv, RankFine, Load;
      if resume != 0 {
        k' := RestoreKnows(m, ss, s, k', resume);
      }
    }
  }

  /** The restoring half of a switch. */
  lemma {:induction false} RestoreKnows(m: Model, ss: seq<Sess>, s: RankSt, k: Know, resume: nat) returns (k': Know)
    requires Inv(m, ss, s, k) && s.pos == 0 && resume != 0
    ensures
      var mem := if s.key in s.disk then Load(m, s.mem, s.disk[s.key]) else s.mem;
      if s.key in s.disk && s.disk[s.key].pos >= resume then Inv(m, ss, s.(mem := mem, pos := resume), k')
      else Inv(m, ss, s.(mem := mem, disk := s.disk - {s.key}), k')
  {
    assert RankFine(m, s) && k.saved.Keys == s.disk.Keys;
    hide Inv, Load;
    var mem := if s.key in s.disk then Load(m, s.mem, s.disk[s.key]) else s.mem;
    if s.key in s.disk && s.disk[s.key].pos >= resume {
      LoadKnows(m, ss, s, k, resume);
      k' := k.(held := k.saved[s.key][..resume]);
    } else {
      AnyMemory(m, ss, s, k, mem);
      k' := UnlinkKnows(m, ss, s.(mem := mem), k, s.key);
    }
  }

  lemma {:induction false} PlaceKnows(m: Model, ss: seq<Sess>, r: RankSt, k: Know, i: nat, resume: nat) returns (k': Know)
    requires Inv(m, ss, r, k) && i < |ss|
    ensures
      var s := Place(m, r, ss[i].key, resume);
      && Inv(m, ss, s.0, k') && s.0.key == ss[i].key
      && (s.1 ==> |k'.held| == resume && Compat(k'.held, ss[i].toks))
  {
    hide Holds, Switch;
    k' := SwitchKnows(m, ss, r, k, i, resume);
    var (s, ok) := Switch(m, r, ss[i].key, resume);
    if ok {
      if resume <= s.pos {
        HoldsPrefix(m, s.mem, k'.held, resume);
        k' := k'.(held := k'.held[..resume]);
      } else {
        HoldsNone(m, s.mem);
        k' := Know([], k'.saved - {s.key});
      }
    }
  }

  /** The answer to a prompt from an empty cache. */
  function Scratch(g: Gen, toks: seq<Token>, seed: Rng): (out: seq<Token>)
    requires g.m.Valid() && toks != [] && |toks| <= g.m.maxSeq
  {
    Local(g, Fresh(g.m), 0, toks, seed).out
  }

  /** A served request whose resume point lies within the server's list decodes from exactly
      list prefix + delta: the answer is the from-scratch answer of that context. */
  lemma {:induction false} ServeKnows(g: Gen, ss: seq<Sess>, r: RankSt, k: Know, i: nat, resume: nat,
                                      delta: seq<Token>, seed: Rng) returns (k': Know)
    requires Inv(g.m, ss, r, k) && i < |ss| && resume <= |ss[i].toks| && delta != []
    requires ss[i].toks <= ss[i].toks[..resume] + delta
    ensures
      var (s, reply) := Serve(g, r, ss[i].key, resume, delta, seed);
      var ctx := ss[i].toks[..resume] + delta;
      && Inv(g.m, ss, s, k')
      && (resume == 0 ==> reply != Refused)
      && (reply.Answer? ==>
            && |ctx| <= g.m.maxSeq && reply.out == Scratch(g, ctx, seed)
            && s.key == ss[i].key && ctx + reply.out <= k'.held <= ctx + reply.out + [g.eos]
            && (s.key in k'.saved && k'.saved[s.key] == k'.held))
  {
    assert RankFine(g.m, r);
    hide Holds, Place, Local, Inv, Fed, Scratch, RankFine;
    k' := PlaceKnows(g.m, ss, r, k, i, resume);
    var (s, ok) := Place(g.m, r, ss[i].key, resume);
    PlaceAtZero(g.m, r, ss[i].key);
    if ok && s.pos + |delta| <= g.m.maxSeq {
      k' := DecodeKnows(g, ss, s, k', i, resume, delta, seed);
    }
  }

  lemma {:induction false} CompatIsPrefix(a: seq<Token>, b: seq<Token>, n: nat)
    requires Compat(a, b) && |a| == n <= |b|
    ensures a == b[..n]
  {
  }

  lemma {:induction false} KnowsOf(m: Model, ss: seq<Sess>, s: RankSt, k: Know)
    requires Inv(m, ss, s, k)
    ensures RankFine(m, s) && m.Valid() && m.Fits(s.mem) && Holds(m, s.mem, k.held) && |k.held| == s.pos
  {
    hide Holds;
  }

  /** Decoding from a placed rank, and saving what it wrote. */
  lemma {:induction false} DecodeKnows(g: Gen, ss: seq<Sess>, s: RankSt, k: Know, i: nat, resume: nat,
                                       delta: seq<Token>, seed: Rng) returns (k': Know)
    requires Inv(g.m, ss, s, k) && RankFine(g.m, s) && i < |ss| && resume <= |ss[i].toks| && delta != []
    requires s.key == ss[i].key && s.pos == resume && |k.held| == resume && Compat(k.held, ss[i].toks)
    requires resume + |delta| <= g.m.maxSeq && ss[i].toks <= ss[i].toks[..resume] + delta
    ensures
      var ctx := ss[i].toks[..resume] + delta;
      var l := Local(g, s.mem, s.pos, delta, seed);
      && g.m.Fits(l.mem) && |ctx| <= g.m.maxSeq && l.out == Scratch(g, ctx, seed)
      && Inv(g.m, ss, RankSt(l.mem, s.key, l.pos, s.disk[s.key := Saved(l.pos, l.mem)]), k')
      && ctx + l.out <= k'.held <= ctx + l.out + [g.eos]
      && (s.key in k'.saved && k'.saved[s.key] == k'.held)
  {
    hide Holds, Local, Inv, RankFine;
    KnowsOf(g.m, ss, s, k);
    CompatIsPrefix(k.held, ss[i].toks, resume);
    var ctx := ss[i].toks[..resume] + delta;
    var l := Local(g, s.mem, s.pos, delta, seed);
    ContinuationIsFromScratch(g, s.mem, k.held, delta, seed);
    LocalHolds(g, s.mem, k.held, delta, seed);
    var fed := Fed(g, ctx, l);
    StoreKnows(g.m, ss, s, k, i, l.mem, fed);
    k' := Know(fed, k.saved[s.key := fed]);
  }

  /** New rows that extend the session's list, in memory and on disk. */
  lemma {:induction false} StoreKnows(m: Model, ss: seq<Sess>, s: RankSt, k: Know, i: nat, mem: Mem, toks: seq<Token>)
    requires Inv(m, ss, s, k) && i < |ss| && s.key == ss[i].key && m.Fits(mem) && ss[i].toks <= toks
    requires |toks| <= m.maxSeq && Holds(m, mem, toks)
    ensures Inv(m, ss, RankSt(mem, s.key, |toks|, s.disk[s.key := Saved(|toks|, mem)]), Know(toks, k.saved[s.key := toks]))
  {
    hide Holds;
    assert Compat(toks, ss[i].toks);
    assert Has(ss, s.key);
  }

  lemma {:induction false} PlaceAtZero(m: Model, r: RankSt, key: Key)
    requires RankFine(m, r)
    ensures Place(m, r, key, 0).1
  {
  }

  // ----- a whole request -----

  /** What the plan says about the request: the session is a prefix of it, and what is sent
      completes it; an exact hit sends the last token again. */
  lemma {:induction false} PlanKnows(ss: seq<Sess>, r: RankSt, k: Know, m: Model, req: Req, eos: Token)
    requires Inv(m, ss, r, k) && req.full != [] && (req.key == "" ==> req.newKey != "" && !Has(ss, req.newKey))
    ensures
      var p := MakePlan(ss, req, eos);
      var v := p.ss[p.i].toks;
      && Inv(m, p.ss, r, k) && v <= req.full && p.resume <= |v|
      && v[..p.resume] + p.toks == req.full
      && (p.replay <==> v == req.full) && (p.replay ==> p.toks == [req.full[|req.full| - 1]])
      && (!p.replay ==> v + p.toks == req.full)
  {
    hide Inv, Pick;
    PickKnows(ss, r, k, m, req, eos);
    var p := MakePlan(ss, req, eos);
    var v := p.ss[p.i].toks;
    PrefixParts(v, req.full);
  }

  lemma {:induction false} PrefixParts(v: seq<Token>, full: seq<Token>)
    requires v <= full && full != []
    ensures v == full[..|v|] && v + full[|v|..] == full && full[..|full| - 1] + [full[|full| - 1]] == full
    ensures |v| == |full| ==> v == full
  {
  }

  lemma {:induction false} PickKnows(ss: seq<Sess>, r: RankSt, k: Know, m: Model, req: Req, eos: Token)
    requires Inv(m, ss, r, k) && (req.key == "" ==> req.newKey != "" && !Has(ss, req.newKey))
    ensures
      var p := Pick(ss, req, eos);
      Inv(m, p.0, r, k) && p.0[p.1].toks <= req.full
  {
    var p := Pick(ss, req, eos);
    if |p.0| == |ss| {
      KeepKeys(ss, p.0, r, k, m);
    } else {
      MoreKeys(ss, p.0[|ss|], r, k, m);
    }
  }

  /** Replacing lists by lists the rank still agrees with. */
  lemma {:induction false} KeepKeys(ss: seq<Sess>, ss': seq<Sess>, r: RankSt, k: Know, m: Model)
    requires Inv(m, ss, r, k) && |ss'| == |ss|
    requires forall i :: 0 <= i < |ss| ==> ss'[i].key == ss[i].key && ss'[i].toks <= ss[i].toks
    ensures Inv(m, ss', r, k)
  {
    hide Holds;
    SameKeys(ss, ss');
  }

  lemma {:induction false} SameKeys(ss: seq<Sess>, ss': seq<Sess>)
    requires |ss'| == |ss| && forall i :: 0 <= i < |ss| ==> ss'[i].key == ss[i].key
    ensures forall key :: Has(ss, key) ==> Has(ss', key)
    ensures Table(ss) ==> Table(ss')
  {
    forall key | Has(ss, key)
      ensures Has(ss', key)
    {
      var i :| 0 <= i < |ss| && ss[i].key == key;
      assert ss'[i].key == key;
    }
  }

  lemma {:induction false} MoreKeys(ss: seq<Sess>, v: Sess, r: RankSt, k: Know, m: Model)
    requires Inv(m, ss, r, k) && v.key != "" && !Has(ss, v.key) && v.toks == []
    ensures Inv(m, ss + [v], r, k)
  {
    hide Holds;
    var ss' := ss + [v];
    forall key | Has(ss, key)
      ensures Has(ss', key)
    {
      var i :| 0 <= i < |ss| && ss[i].key == key;
      assert ss'[i].key == key;
    }
  }

  /** The context the rank decodes from. */
  function Context(p: Plan, req: Req, resent: bool): (toks: seq<Token>) {
    if p.replay && resent then req.full + p.toks else req.full
  }

  ghost predicate PlanFine(p: Plan, req: Req) {
    && p.i < |p.ss| && p.toks != [] && req.full != []
    && p.ss[p.i].toks <= req.full && p.resume <= |p.ss[p.i].toks|
    && p.ss[p.i].toks[..p.resume] + p.toks == req.full
    && (p.replay ==> p.ss[p.i].toks == req.full)
    && (!p.replay ==> p.ss[p.i].toks + p.toks == req.full)
  }

  /** Until the answer arrives the server keeps its plan; the session is never rebuilt,
      because a full resend is never refused. */
  ghost predicate LoopInv(g: Gen, p: Plan, l: Loop, req: Req, k: Know) {
    && PlanFine(p, req) && Inv(g.m, p.ss, l.rank, k)
    && l.ss == p.ss && l.toks == p.toks && l.resume == p.resume && !l.rebuilt
  }

  lemma {:induction false} RestartKnows(m: Model, ss: seq<Sess>, r: RankSt, k: Know, junk: Mem) returns (k': Know)
    requires Inv(m, ss, r, k) && m.Fits(junk)
    ensures Inv(m, ss, Restart(r, junk), k')
  {
    hide Holds;
    HoldsNone(m, junk);
    k' := k.(held := []);
  }

  lemma {:induction false} UnlinkKnows(m: Model, ss: seq<Sess>, r: RankSt, k: Know, key: Key) returns (k': Know)
    requires Inv(m, ss, r, k)
    ensures Inv(m, ss, Unlink(r, key), k')
  {
    hide Holds;
    k' := k.(saved := k.saved - {key});
  }

  /** One attempt that reaches the rank. */
  lemma {:induction false} AttemptKnows(g: Gen, p: Plan, l: Loop, req: Req, k: Know) returns (k': Know)
    requires LoopInv(g, p, l, req, k)
    ensures
      var (s, reply) := Serve(g, l.rank, l.ss[p.i].key, Resume(l), Payload(p, l), req.seed);
      var ctx := Context(p, req, l.sent);
      && Inv(g.m, p.ss, s, k') && (l.sent ==> reply != Refused)
      && (reply.Answer? ==>
            && |ctx| <= g.m.maxSeq && reply.out == Scratch(g, ctx, req.seed)
            && s.key == l.ss[p.i].key && ctx + reply.out <= k'.held <= ctx + reply.out + [g.eos]
            && (s.key in k'.saved && k'.saved[s.key] == k'.held))
  {
    hide Inv, Serve, Scratch;
    var v := p.ss[p.i].toks;
    assert v[..0] + (v + p.toks) == v + p.toks;
    k' := ServeKnows(g, p.ss, l.rank, k, p.i, Resume(l), Payload(p, l), req.seed);
  }

  /** Committing the answer keeps server and rank in agreement, unless an exact hit was sent
      again in full: then the rank holds the replayed token twice. */
  lemma {:induction false} CommitKnows(g: Gen, p: Plan, l: Loop, req: Req, k: Know, s: RankSt, out: seq<Token>)
    requires LoopInv(g, p, l, req, k) && !(p.replay && l.sent)
    requires s == l.rank && s.key == p.ss[p.i].key
    requires req.full + out <= k.held <= req.full + out + [g.eos]
    requires s.key in k.saved && k.saved[s.key] == k.held
    ensures Inv(g.m, Commit(p, l, out, g.eos), s, k)
  {
    hide Inv;
    var ss' := Commit(p, l, out, g.eos);
    assert ss'[p.i].toks == req.full + out + [g.eos];
    ListGrows(g.m, p.ss, ss', p.i, s, k);
  }

  /** The session's own list may become any list the rank's rows begin. */
  lemma {:induction false} ListGrows(m: Model, ss: seq<Sess>, ss': seq<Sess>, i: nat, s: RankSt, k: Know)
    requires Inv(m, ss, s, k) && i < |ss| && s.key == ss[i].key && s.key in k.saved && k.saved[s.key] == k.held
    requires |ss'| == |ss| && ss' == ss[i := ss'[i]] && ss'[i].key == ss[i].key && k.held <= ss'[i].toks
    ensures Inv(m, ss', s, k)
  {
    hide Holds;
    SameKeys(ss, ss');
  }

  lemma {:induction false} ContinueKnows(g: Gen, p: Plan, l: Loop, req: Req, refused: bool, k: Know) returns (k': Know)
    requires LoopInv(g, p, l, req, k) && (refused ==> !l.sent)
    ensures var a := React(p, l, req, refused); a.Retry? ==> LoopInv(g, p, a.l, req, k')
  {
    hide Inv;
    k' := k;
    if refused {
      k' := UnlinkKnows(g.m, p.ss, l.rank, k, l.ss[p.i].key);
    }
  }

  /** Where an answer leaves the rank and the server's list: the rank stands behind context and
      answer, the list is the prompt, the answer and eos. */
  predicate Answered(p: Plan, req: Req, o: Outcome, ss: seq<Sess>, s: RankSt, eos: Token)
    requires o.Replied?
  {
    && p.i < |p.ss| && s.key == p.ss[p.i].key && |Context(p, req, o.resent) + o.out| <= s.pos
    && ss == p.ss[p.i := Sess(s.key, req.full + o.out + [eos])]
  }

  /** A request against a table and a rank that agree: whatever restarts, rejections, refusals
      and resends its attempts meet, an answer is the from-scratch answer of its context, the
      rows then hold that context, and server and rank agree afterwards (unless an exact hit
      was resent). */
  lemma {:induction false} AttemptsKnow(g: Gen, p: Plan, l: Loop, req: Req, envs: seq<Env>, k: Know) returns (k': Know)
    requires LoopInv(g, p, l, req, k) && EnvsFine(g.m, envs)
    ensures
      var (ss, s, o) := Attempts(g, p, l, req, envs);
      && (o.NoAnswer? ==> Inv(g.m, ss, s, k'))
      && (o.Replied? ==>
            var ctx := Context(p, req, o.resent);
            && !o.rebuilt && |ctx| <= g.m.maxSeq && o.out == Scratch(g, ctx, req.seed)
            && Holds(g.m, s.mem, ctx + o.out) && Answered(p, req, o, ss, s, g.eos)
            && (!(p.replay && o.resent) ==> Inv(g.m, ss, s, k')))
    decreases |envs|
  {
    hide Scratch, Serve, Place, Holds, React, Strike;
    k' := k;
    if envs != [] {
      k' := StrikeKnows(g, p, l, req, envs[0], k);
      var (r1, reply, over) := Strike(g, l.rank, l.ss[p.i].key, Resume(l), Payload(p, l), req.seed, envs[0]);
      var l1 := l.(rank := r1);
      if over {
      } else if reply.Answer? {
        HeldContext(g.m, r1, k', Context(p, req, l.sent) + reply.out);
        CommitIs(g, p, l1, req, reply.out);
        if !(p.replay && l.sent) {
          CommitKnows(g, p, l1, req, k', r1, reply.out);
        }
      } else {
        k' := ContinueThen(g, p, l1, req, reply.Refused?, envs, k');
      }
    }
  }

  lemma {:induction false} StrikeKnows(g: Gen, p: Plan, l: Loop, req: Req, e: Env, k: Know) returns (k': Know)
    requires LoopInv(g, p, l, req, k) && EnvFine(g.m, e)
    ensures
      var (s, reply, over) := Strike(g, l.rank, l.ss[p.i].key, Resume(l), Payload(p, l), req.seed, e);
      var ctx := Context(p, req, l.sent);
      && Inv(g.m, p.ss, s, k') && (l.sent ==> reply != Refused) && (over ==> !reply.Answer?)
      && (reply.Answer? ==>
            && |ctx| <= g.m.maxSeq && reply.out == Scratch(g, ctx, req.seed)
            && s.key == l.ss[p.i].key && ctx + reply.out <= k'.held <= ctx + reply.out + [g.eos]
            && (s.key in k'.saved && k'.saved[s.key] == k'.held))
  {
    hide Scratch, Serve, Place, Holds;
    var r0 := if e.restart then Restart(l.rank, e.junk) else l.rank;
    k' := k;
    if e.restart { k' := RestartKnows(g.m, p.ss, l.rank, k, e.junk); }
    match e.fate
    case Crashed(junk) =>
      k' := PlaceKnows(g.m, p.ss, r0, k', p.i, Resume(l));
      k' := RestartKnows(g.m, p.ss, Place(g.m, r0, l.ss[p.i].key, Resume(l)).0, k', junk);
    case AnswerLost => k' := AttemptKnows(g, p, l.(rank := r0), req, k');
    case Served => k' := AttemptKnows(g, p, l.(rank := r0), req, k');
    case _ =>
  }

  lemma {:induction false} CommitIs(g: Gen, p: Plan, l: Loop, req: Req, out: seq<Token>)
    requires PlanFine(p, req) && l.ss == p.ss && l.toks == p.toks
    ensures Commit(p, l, out, g.eos) == p.ss[p.i := Sess(p.ss[p.i].key, req.full + out + [g.eos])]
  {
    assert req.full + [] == req.full;
  }

  lemma {:induction false} HeldContext(m: Model, r: RankSt, k: Know, toks: seq<Token>)
    requires Knows(m, r, k) && toks <= k.held
    ensures Holds(m, r.mem, toks) && |toks| <= r.pos
  {
    hide Holds;
    assert k.held[..|toks|] == toks;
    HoldsPrefix(m, r.mem, k.held, |toks|);
  }

  lemma {:induction false} ContinueThen(g: Gen, p: Plan, l: Loop, req: Req, refused: bool, envs: seq<Env>, k: Know)
    returns (k': Know)
    requires LoopInv(g, p, l, req, k) && EnvsFine(g.m, envs) && envs != [] && (refused ==> !l.sent)
    ensures
      var a := React(p, l, req, refused);
      && (a.Retry? ==> a.l.ss == p.ss && a.l.toks == p.toks && RankFine(g.m, a.l.rank))
      && (var (ss, s, o) := Continue(g, p, a, l, req, envs);
          && (o.NoAnswer? ==> Inv(g.m, ss, s, k'))
          && (o.Replied? ==>
                var ctx := Context(p, req, o.resent);
                && !o.rebuilt && |ctx| <= g.m.maxSeq && o.out == Scratch(g, ctx, req.seed)
                && Holds(g.m, s.mem, ctx + o.out) && Answered(p, req, o, ss, s, g.eos)
                && (!(p.replay && o.resent) ==> Inv(g.m, ss, s, k'))))
    decreases |envs|, 0
  {
    hide Scratch, Serve, Place, Holds;
    k' := ContinueKnows(g, p, l, req, refused, k);
    var a := React(p, l, req, refused);
    if a.Retry? {
      k' := AttemptsKnow(g, p, a.l, req, envs[1..], k');
    } else {
      k' := k;
    }
  }
}
