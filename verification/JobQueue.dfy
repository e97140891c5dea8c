/**
  The job queue and drain of a rank (serve/rank.c): one IO thread, N worker threads, a ring
  of eight jobs, and a DRAIN that is answered only when the rank has run dry.  Each atomic
  step is one critical section under `q_mu` or one action outside it.
*/
module JobQueue {
  const RANK_JOB_CAP := 8

  /** A client connection; every accepted connection is a new one. */
  type Conn = nat

  datatype Option<T> = None | Some(value: T)

  /** The fields `q_mu` guards; `queue` is the content of the ring, oldest first. */
  datatype Shared = Shared(
    queue: seq<Conn>, inFlight: nat, draining: bool, quit: bool, drainFd: Option<Conn>, ioStop: bool)

  // ----- the critical sections -----

  predicate Rejects(q: Shared) {
    q.draining || |q.queue| >= RANK_JOB_CAP
  }

  function Enqueue(q: Shared, c: Conn): (q': Shared) {
    q.(queue := q.queue + [c])
  }

  function Dequeue(q: Shared): (q': Shared)
    requires q.queue != []
  {
    q.(queue := q.queue[1..], inFlight := q.inFlight + 1)
  }

  function Complete(q: Shared): (q': Shared)
    requires q.inFlight > 0
  {
    q.(inFlight := q.inFlight - 1)
  }

  function AcceptDrain(q: Shared, c: Conn): (q': Shared) {
    q.(draining := true, quit := true, drainFd := Some(c))
  }

  /** `rank_try_finish_drain` up to the unlock: the DRAIN connection to answer, if any. */
  function TakeDrain(q: Shared): (p: (Shared, Option<Conn>)) {
    if !q.draining || |q.queue| > 0 || q.inFlight > 0 then (q, None)
    else (q.(drainFd := None), q.drainFd)
  }

  function Stop(q: Shared): (q': Shared) {
    q.(quit := true, ioStop := true)
  }

  // ----- threads -----

  datatype IoPc =
    | LoopCond | TopTry | StopCheck | Accept | DrainTry
    | Receiving(c: Conn) | Answering(d: Conn, back: IoPc) | IoDone

  datatype WorkPc = Idle | Busy(c: Conn) | Handled | Trying | Finishing(d: Conn) | Exited

  /** `accepted`, `started` and `handled` list the jobs in the order of those events, `completed` counts the
      reported completions, `closed` lists the connections in the order of their closing, `oks` the answered DRAINs. */
  datatype State = State(
    q: Shared, io: IoPc, ws: seq<WorkPc>, next: Conn,
    accepted: seq<Conn>, started: seq<Conn>, handled: seq<Conn>, completed: nat, closed: seq<Conn>, oks: seq<Conn>)

  /** What the IO thread meets: no connection, a DRAIN, an INFER, any other request, and
      whether an INFER's payload arrives. */
  datatype Event = Timeout | NewDrain | NewInfer | NewOther | Payload(ok: bool)

  datatype Action = Io(ev: Event) | Work(i: nat)

  function Init(n: nat): (s: State) {
    State(Shared([], 0, false, false, None, false), LoopCond, seq(n, _ => Idle), 0, [], [], [], 0, [], [])
  }

  function Close(s: State, c: Conn): (s': State) {
    s.(closed := s.closed + [c])
  }

  /** The part of `rank_try_finish_drain` after the unlock. */
  function AnswerDrain(s: State, d: Conn): (s': State) {
    Close(s, d).(oks := s.oks + [d], q := Stop(s.q))
  }

  predicate IoEnabled(s: State, ev: Event) {
    match s.io
    case Accept => !ev.Payload?
    case Receiving(_) => ev.Payload?
    case IoDone => false
    case _ => ev.Timeout?
  }

  function IoTry(s: State, back: IoPc): (s': State) {
    var (q, d) := TakeDrain(s.q);
    s.(q := q, io := if d.Some? then Answering(d.value, back) else back)
  }

  function IoNext(s: State, ev: Event): (s': State)
    requires IoEnabled(s, ev)
  {
    match s.io
    case LoopCond => s.(io := if s.q.ioStop then IoDone else TopTry)
    case TopTry => IoTry(s, StopCheck)
    case StopCheck => s.(io := if s.q.ioStop then IoDone else Accept)
    case DrainTry => IoTry(s, LoopCond)
    case Answering(d, back) => AnswerDrain(s, d).(io := back)
    case Accept =>
      var c, t := s.next, s.(next := s.next + 1);
      (match ev
       case Timeout => s.(io := LoopCond)
       case NewDrain =>
         if s.q.drainFd.Some? then Close(t, c).(io := LoopCond)
         else t.(q := AcceptDrain(s.q, c), io := DrainTry)
       case NewInfer =>
         if Rejects(s.q) then Close(t, c).(io := LoopCond) else t.(io := Receiving(c))
       case _ => Close(t, c).(io := LoopCond))
    case Receiving(c) =>
      if !ev.ok || Rejects(s.q) then Close(s, c).(io := LoopCond)
      else s.(q := Enqueue(s.q, c), accepted := s.accepted + [c], io := LoopCond)
  }

  predicate WorkEnabled(s: State, i: nat) {
    i < |s.ws|
    && match s.ws[i]
       case Idle => s.q.queue != [] || s.q.quit
       case Handled => s.q.inFlight > 0
       case Exited => false
       case _ => true
  }

  function SetWork(s: State, i: nat, w: WorkPc): (s': State)
    requires i < |s.ws|
  {
    s.(ws := s.ws[i := w])
  }

  function WorkNext(s: State, i: nat): (s': State)
    requires WorkEnabled(s, i)
  {
    match s.ws[i]
    case Idle =>
      if s.q.queue == [] then SetWork(s, i, Exited)
      else
        var c := s.q.queue[0];
        SetWork(s, i, Busy(c)).(q := Dequeue(s.q), started := s.started + [c])
    case Busy(c) => SetWork(Close(s, c), i, Handled).(handled := s.handled + [c])
    case Handled => SetWork(s, i, Trying).(q := Complete(s.q), completed := s.completed + 1)
    case Trying =>
      var (q, d) := TakeDrain(s.q);
      SetWork(s, i, if d.Some? then Finishing(d.value) else Idle).(q := q)
    case Finishing(d) => SetWork(AnswerDrain(s, d), i, Idle)
  }

  predicate Enabled(s: State, a: Action) {
    match a
    case Io(ev) => IoEnabled(s, ev)
    case Work(i) => WorkEnabled(s, i)
  }

  function Next(s: State, a: Action): (s': State)
    requires Enabled(s, a)
  {
    match a
    case Io(ev) => IoNext(s, ev)
    case Work(i) => WorkNext(s, i)
  }

  ghost predicate IsRun(n: nat, ss: seq<State>, acts: seq<Action>) {
    && |ss| == |acts| + 1 && ss[0] == Init(n)
    && forall k :: 0 <= k < |acts| ==> IsStep(ss[k], acts[k], ss[k + 1])
  }

  predicate IsStep(s: State, a: Action, s': State) {
    Enabled(s, a) && s' == Next(s, a)
  }

  // ----- who owns a connection -----

  function One(b: bool): (n: nat) {
    if b then 1 else 0
  }

  function CountIn(q: seq<Conn>, c: Conn): (n: nat) {
    if q == [] then 0 else CountIn(q[..|q| - 1], c) + One(q[|q| - 1] == c)
  }

  lemma {:induction false} CountHead(q: seq<Conn>, c: Conn)
    requires q != []
    ensures CountIn(q, c) == One(q[0] == c) + CountIn(q[1..], c)
  {
    if |q| > 1 {
      var n := |q| - 1;
      CountHead(q[..n], c);
      assert q[..n][1..] == q[1..][..n - 1];
    }
  }

  lemma {:induction false} CountAppend(q: seq<Conn>, x: Conn, c: Conn)
    ensures CountIn(q + [x], c) == CountIn(q, c) + One(x == c)
  {
    assert (q + [x])[..|q|] == q;
  }

  predicate Owns(w: WorkPc, c: Conn) {
    w == Busy(c) || w == Finishing(c)
  }

  /** Workers whose state satisfies one of the properties below. */
  datatype Kind = Owning(c: Conn) | Serving(c: Conn) | Running | Reporting

  predicate Is(w: WorkPc, k: Kind) {
    match k
    case Owning(c) => Owns(w, c)
    case Serving(c) => w == Busy(c)
    case Running => w.Busy? || w.Handled?
    case Reporting => w.Handled?
  }

  function Workers(ws: seq<WorkPc>, k: Kind): (n: nat)
    ensures n == 0 ==> forall i :: 0 <= i < |ws| ==> !Is(ws[i], k)
  {
    if ws == [] then 0 else Workers(ws[..|ws| - 1], k) + One(Is(ws[|ws| - 1], k))
  }

  lemma {:induction false} WorkersUpdate(ws: seq<WorkPc>, i: nat, w: WorkPc, k: Kind)
    requires i < |ws|
    ensures Workers(ws[i := w], k) + One(Is(ws[i], k)) == Workers(ws, k) + One(Is(w, k))
  {
    var n := |ws| - 1;
    if i < n {
      assert ws[i := w][..n] == ws[..n][i := w];
      WorkersUpdate(ws[..n], i, w, k);
    } else {
      assert ws[i := w][..n] == ws[..n];
    }
  }

  predicate IoOwns(io: IoPc, c: Conn) {
    match io
    case Receiving(x) => x == c
    case Answering(d, _) => d == c
    case _ => false
  }

  /** In how many places a connection is: queued, held by a thread, waiting as the DRAIN to
      answer, or closed. */
  function Places(s: State, c: Conn): (n: nat) {
    CountIn(s.q.queue, c) + Workers(s.ws, Owning(c)) + One(IoOwns(s.io, c)) + One(s.q.drainFd == Some(c))
    + CountIn(s.closed, c)
  }

  // ----- the invariant -----

  /** Every connection opened is in exactly one place. */
  ghost predicate Owned(s: State) {
    forall c: Conn :: Places(s, c) == One(c < s.next)
  }

  /** The queue holds exactly the accepted jobs not yet started, in order; the jobs in flight
      are those of the running workers; a started job is being served or has been. */
  ghost predicate Fifo(s: State) {
    && s.accepted == s.started + s.q.queue && |s.q.queue| <= RANK_JOB_CAP
    && s.q.inFlight == Workers(s.ws, Running)
    && |s.started| == s.q.inFlight + s.completed && |s.handled| == s.completed + Workers(s.ws, Reporting)
    && (forall c: Conn :: CountIn(s.started, c) == Workers(s.ws, Serving(c)) + CountIn(s.handled, c))
    && (forall c: Conn :: CountIn(s.handled, c) <= CountIn(s.closed, c))
  }

  ghost predicate Dry(q: Shared) {
    q.draining && q.queue == [] && q.inFlight == 0
  }

  /** Somebody has taken a DRAIN connection to answer it. */
  ghost predicate Taken(s: State) {
    s.oks != [] || s.q.ioStop || s.io.Answering? || exists i :: 0 <= i < |s.ws| && s.ws[i].Finishing?
  }

  ghost predicate DrainInv(s: State) {
    && (s.q.quit <==> s.q.draining)
    && (Taken(s) ==> Dry(s.q))
    && (s.q.drainFd.Some? ==> s.q.draining)
    && (Taken(s) && s.q.drainFd.Some? ==> s.io.DrainTry?)
    && (s.io.DrainTry? ==> s.q.drainFd.Some? || Taken(s))
    && (s.io.Answering? ==> s.io.back.StopCheck? || s.io.back.LoopCond?)
    && (s.io.IoDone? ==> s.q.ioStop)
    && (s.q.ioStop <==> s.oks != [])
    && (s.q.draining ==> s.q.drainFd.Some? || Taken(s))
    && (forall i :: 0 <= i < |s.ws| && s.ws[i].Exited? ==> s.q.draining && s.q.queue == [])
  }

  ghost predicate Inv(s: State) {
    Owned(s) && Fifo(s) && DrainInv(s)
  }

  lemma {:induction false} NoWork(n: nat, k: Kind)
    ensures Workers(seq(n, _ => Idle), k) == 0
  {
    var ws := seq(n, _ => Idle);
    if n > 0 {
      NoWork(n - 1, k);
      assert ws[..n - 1] == seq(n - 1, _ => Idle);
    }
  }

  lemma {:induction false} InitInv(n: nat)
    ensures Inv(Init(n))
  {
    forall k
      ensures Workers(Init(n).ws, k) == 0
    {
      NoWork(n, k);
    }
  }

  // ----- IO steps -----

  lemma {:induction false} IoOwned(s: State, ev: Event)
    requires Owned(s) && DrainInv(s) && IoEnabled(s, ev)
    ensures Owned(IoNext(s, ev))
  {
    hide IoNext, Places, DrainInv;
    if s.io.Answering? { BackIsLoop(s); }
    forall c: Conn
      ensures Places(IoNext(s, ev), c) == One(c < IoNext(s, ev).next)
    {
      assert Places(s, c) == One(c < s.next);
      IoPlaces(s, ev, c);
    }
  }

  lemma {:induction false} BackIsLoop(s: State)
    requires DrainInv(s) && s.io.Answering?
    ensures s.io.back.StopCheck? || s.io.back.LoopCond?
  {
  }

  lemma {:induction false} IoPlaces(s: State, ev: Event, c: Conn)
    requires Places(s, c) == One(c < s.next) && IoEnabled(s, ev)
    requires s.io.Answering? ==> s.io.back.StopCheck? || s.io.back.LoopCond?
    ensures Places(IoNext(s, ev), c) == One(c < IoNext(s, ev).next)
  {
    hide CountIn, Workers;
    var s' := IoNext(s, ev);
    if s'.closed != s.closed { CountAppend(s.closed, s'.closed[|s.closed|], c); }
    if s'.q.queue != s.q.queue { CountAppend(s.q.queue, s'.q.queue[|s.q.queue|], c); }
  }

  lemma {:induction false} IoFifo(s: State, ev: Event)
    requires Fifo(s) && IoEnabled(s, ev)
    ensures Fifo(IoNext(s, ev))
  {
    hide CountIn, Workers;
    var s' := IoNext(s, ev);
    forall c: Conn
      ensures CountIn(s'.handled, c) <= CountIn(s'.closed, c)
    {
      if s'.closed != s.closed { CountAppend(s.closed, s'.closed[|s.closed|], c); }
    }
  }

  lemma {:induction false} IoDrain(s: State, ev: Event)
    requires DrainInv(s) && IoEnabled(s, ev)
    ensures DrainInv(IoNext(s, ev))
  {
    var s' := IoNext(s, ev);
    assert s'.ws == s.ws;
    assert Taken(s) ==> (exists i :: 0 <= i < |s'.ws| && s'.ws[i].Finishing?) || s.oks != [] || s.q.ioStop || s.io.Answering?;
  }

  // ----- worker steps -----

  lemma {:induction false} WorkOwned(s: State, i: nat)
    requires Owned(s) && WorkEnabled(s, i)
    ensures Owned(WorkNext(s, i))
  {
    hide WorkNext, Places;
    forall c: Conn
      ensures Places(WorkNext(s, i), c) == One(c < WorkNext(s, i).next)
    {
      assert Places(s, c) == One(c < s.next);
      WorkPlaces(s, i, c);
    }
  }

  /** What a worker's step does to the places a connection can be in. */
  lemma {:induction false} WorkFields(s: State, i: nat)
    requires WorkEnabled(s, i)
    ensures
      var s', w := WorkNext(s, i), s.ws[i];
      && |s'.ws| == |s.ws| && s'.ws == s.ws[i := s'.ws[i]] && s'.io == s.io && s'.next == s.next
      && match w
         case Idle =>
           && s'.closed == s.closed && s'.q.drainFd == s.q.drainFd
           && (if s.q.queue == [] then s'.q.queue == [] && s'.ws[i] == Exited
               else s'.q.queue == s.q.queue[1..] && s'.ws[i] == Busy(s.q.queue[0]))
         case Trying =>
           && s'.closed == s.closed && s'.q.queue == s.q.queue
           && (if s'.ws[i] == Idle then s'.q.drainFd == s.q.drainFd
               else s.q.drainFd.Some? && s'.q.drainFd == None && s'.ws[i] == Finishing(s.q.drainFd.value))
         case Busy(x) => s'.q == s.q && s'.closed == s.closed + [x] && s'.ws[i] == Handled
         case Handled =>
           && s'.q.queue == s.q.queue && s'.q.drainFd == s.q.drainFd && s'.closed == s.closed && s'.ws[i] == Trying
         case Finishing(x) =>
           && s'.q.queue == s.q.queue && s'.q.drainFd == s.q.drainFd
           && s'.closed == s.closed + [x] && s'.ws[i] == Idle
         case Exited => false
  {
  }

  lemma {:induction false} WorkPlaces(s: State, i: nat, c: Conn)
    requires Places(s, c) == One(c < s.next) && WorkEnabled(s, i)
    ensures Places(WorkNext(s, i), c) == One(c < WorkNext(s, i).next)
  {
    hide CountIn, Workers, WorkNext;
    var s', w := WorkNext(s, i), s.ws[i];
    WorkFields(s, i);
    hide WorkEnabled;
    WorkersUpdate(s.ws, i, s'.ws[i], Owning(c));
    if w.Idle? && s.q.queue != [] {
      CountHead(s.q.queue, c);
    } else if w.Busy? {
      CountAppend(s.closed, w.c, c);
    } else if w.Finishing? {
      CountAppend(s.closed, w.d, c);
    }
  }

  lemma {:induction false} WorkFifo(s: State, i: nat)
    requires Fifo(s) && WorkEnabled(s, i)
    ensures Fifo(WorkNext(s, i))
  {
    hide CountIn, Workers;
    var s' := WorkNext(s, i);
    WorkersUpdate(s.ws, i, s'.ws[i], Running);
    WorkersUpdate(s.ws, i, s'.ws[i], Reporting);
    forall c: Conn
      ensures CountIn(s'.started, c) == Workers(s'.ws, Serving(c)) + CountIn(s'.handled, c)
    {
      WorkersUpdate(s.ws, i, s'.ws[i], Serving(c));
      if s'.started != s.started { CountAppend(s.started, s'.started[|s.started|], c); }
      if s'.handled != s.handled { CountAppend(s.handled, s'.handled[|s.handled|], c); }
    }
    forall c: Conn
      ensures CountIn(s'.handled, c) <= CountIn(s'.closed, c)
    {
      if s'.handled != s.handled { CountAppend(s.handled, s'.handled[|s.handled|], c); }
      if s'.closed != s.closed { CountAppend(s.closed, s'.closed[|s.closed|], c); }
    }
  }

  lemma {:induction false} WorkDrain(s: State, i: nat)
    requires DrainInv(s) && Fifo(s) && WorkEnabled(s, i)
    ensures DrainInv(WorkNext(s, i))
  {
    var s' := WorkNext(s, i);
    if s.ws[i].Finishing? {
      assert Taken(s) && s'.oks != [];
    } else if s'.ws[i].Finishing? {
      assert Taken(s');
    } else {
      assert forall j :: 0 <= j < |s.ws| ==> (s.ws[j].Finishing? <==> s'.ws[j].Finishing?);
    }
  }

  lemma {:induction false} StepInv(s: State, a: Action)
    requires Inv(s) && Enabled(s, a)
    ensures Inv(Next(s, a))
  {
    hide IoNext, WorkNext, IoEnabled, WorkEnabled, Owned, Fifo, DrainInv;
    match a
    case Io(ev) =>
      IoOwned(s, ev);
      IoFifo(s, ev);
      IoDrain(s, ev);
    case Work(i) =>
      WorkOwned(s, i);
      WorkFifo(s, i);
      WorkDrain(s, i);
  }

  lemma {:induction false} RunInv(n: nat, ss: seq<State>, acts: seq<Action>, k: nat)
    requires IsRun(n, ss, acts) && k < |ss|
    ensures Inv(ss[k])
  {
    if k == 0 {
      InitInv(n);
    } else {
      hide IoNext, WorkNext, IoEnabled, WorkEnabled, Inv;
      RunInv(n, ss, acts, k - 1);
      assert IsStep(ss[k - 1], acts[k - 1], ss[k]);
      StepInv(ss[k - 1], acts[k - 1]);
    }
  }

  // ----- whole runs -----

  lemma {:induction false} CountConcat(a: seq<Conn>, b: seq<Conn>, c: Conn)
    ensures CountIn(a + b, c) == CountIn(a, c) + CountIn(b, c)
  {
    if b == [] {
      assert a + b == a;
    } else {
      var n := |b| - 1;
      CountConcat(a, b[..n], c);
      assert a + b == (a + b[..n]) + [b[n]];
      CountAppend(a + b[..n], b[n], c);
    }
  }

  lemma {:induction false} ServingOwns(ws: seq<WorkPc>, c: Conn)
    ensures Workers(ws, Serving(c)) <= Workers(ws, Owning(c))
  {
    if ws != [] { ServingOwns(ws[..|ws| - 1], c); }
  }

  /** In every state of every interleaving: accepted jobs are queued, in flight or completed;
      jobs start in the order they were accepted; no connection is accepted, handled or
      closed twice, or closed while it is still held anywhere. */
  lemma {:induction false} QueueSafety(n: nat, ss: seq<State>, acts: seq<Action>, k: nat, c: Conn)
    requires IsRun(n, ss, acts) && k < |ss|
    ensures
      var s := ss[k];
      && |s.accepted| == |s.q.queue| + s.q.inFlight + s.completed && |s.q.queue| <= RANK_JOB_CAP
      && s.started <= s.accepted && s.q.inFlight == Workers(s.ws, Running)
      && CountIn(s.accepted, c) <= 1 && CountIn(s.handled, c) <= CountIn(s.closed, c) <= 1
      && Places(s, c) == One(c < s.next)
  {
    hide CountIn, Workers;
    RunInv(n, ss, acts, k);
    var s := ss[k];
    assert Places(s, c) == One(c < s.next);
    CountConcat(s.started, s.q.queue, c);
    ServingOwns(s.ws, c);
  }

  lemma {:induction false} TakenStays(s: State, a: Action)
    requires Inv(s) && Enabled(s, a) && Taken(s)
    ensures Taken(Next(s, a)) && Next(s, a).started == s.started && Next(s, a).accepted == s.accepted
  {
    var s' := Next(s, a);
    if i: nat :| i < |s.ws| && s.ws[i].Finishing? {
      assert s'.ws[i] == s.ws[i] || s'.oks != [];
    }
  }

  lemma {:induction false} TakenIsDry(s: State)
    requires Inv(s) && Taken(s)
    ensures Dry(s.q)
  {
    hide Owned, Fifo, Taken;
  }

  /** Once somebody has taken a DRAIN to answer it, and so from the answer on, the queue is
      empty, nothing is in flight and no job is accepted or started any more. */
  lemma {:induction false} DrainSafety(n: nat, ss: seq<State>, acts: seq<Action>, k: nat, j: nat)
    requires IsRun(n, ss, acts) && k <= j < |ss| && Taken(ss[k])
    ensures Dry(ss[j].q) && ss[j].started == ss[k].started && ss[j].accepted == ss[k].accepted && Taken(ss[j])
  {
    hide Next, Enabled, Inv, Taken, Dry;
    RunInv(n, ss, acts, j);
    if k < j {
      assert IsStep(ss[j - 1], acts[j - 1], ss[j]);
      RunInv(n, ss, acts, j - 1);
      DrainSafety(n, ss, acts, k, j - 1);
      TakenStays(ss[j - 1], acts[j - 1]);
    }
    TakenIsDry(ss[j]);
  }

  /** When all threads have ended every connection ever opened has been closed exactly once. */
  lemma {:induction false} AllClosedAtExit(n: nat, ss: seq<State>, acts: seq<Action>, c: Conn)
    requires IsRun(n, ss, acts)
    requires var s := ss[|acts|]; s.io.IoDone? && forall i :: 0 <= i < |s.ws| ==> s.ws[i].Exited?
    ensures CountIn(ss[|acts|].closed, c) == One(c < ss[|acts|].next)
  {
    var s := ss[|acts|];
    RunInv(n, ss, acts, |acts|);
    AllExited(s.ws, c);
    assert Places(s, c) == One(c < s.next);
  }

  lemma {:induction false} AllExited(ws: seq<WorkPc>, c: Conn)
    requires forall i :: 0 <= i < |ws| ==> ws[i].Exited?
    ensures Workers(ws, Owning(c)) == 0
  {
    if ws != [] { AllExited(ws[..|ws| - 1], c); }
  }

  // ----- draining gets done -----

  /** Work left: queued jobs count twice, since each still has to start and to complete. */
  function Load(q: Shared): (n: nat) {
    2 * |q.queue| + q.inFlight
  }

  /** While the rank drains the load never grows, and each start and each completion lowers it. */
  lemma {:induction false} DrainDecreases(s: State, a: Action)
    requires Inv(s) && Enabled(s, a) && s.q.draining
    ensures
      var s' := Next(s, a);
      && s'.q.draining && Load(s'.q) <= Load(s.q)
      && (s'.started != s.started || s'.completed != s.completed ==> Load(s'.q) < Load(s.q))
  {
    hide Fifo, Owned;
    if a.Work? && s.ws[a.i].Idle? && s.q.queue != [] {
      assert |s.started + [s.q.queue[0]]| == |s.started| + 1;
    }
  }

  function PcCost(w: WorkPc): (n: nat) {
    match w
    case Busy(_) => 5
    case Handled => 4
    case Trying => 3
    case Finishing(_) => 2
    case Idle => 1
    case Exited => 0
  }

  function WorkCost(ws: seq<WorkPc>): (n: nat) {
    if ws == [] then 0 else WorkCost(ws[..|ws| - 1]) + PcCost(ws[|ws| - 1])
  }

  lemma {:induction false} WorkCostUpdate(ws: seq<WorkPc>, i: nat, w: WorkPc)
    requires i < |ws|
    ensures WorkCost(ws[i := w]) + PcCost(ws[i]) == WorkCost(ws) + PcCost(w)
  {
    var n := |ws| - 1;
    if i < n {
      assert ws[i := w][..n] == ws[..n][i := w];
      WorkCostUpdate(ws[..n], i, w);
    } else {
      assert ws[i := w][..n] == ws[..n];
    }
  }

  /** Worker steps a draining rank can still take. */
  function StepsLeft(s: State): (n: nat) {
    5 * |s.q.queue| + WorkCost(s.ws)
  }

  /** A draining rank's workers take finitely many steps: each uses one up, and the IO thread
      adds none. */
  lemma {:induction false} DrainStepsBounded(s: State, a: Action)
    requires Inv(s) && Enabled(s, a) && s.q.draining
    ensures
      var s' := Next(s, a);
      if a.Work? then StepsLeft(s') < StepsLeft(s) else StepsLeft(s') == StepsLeft(s)
  {
    match a
    case Io(ev) =>
      hide Owned, Fifo, WorkCost;
    case Work(i) =>
      hide Inv, WorkNext, WorkCost;
      WorkPays(s, i);
      WorkCostUpdate(s.ws, i, WorkNext(s, i).ws[i]);
  }

  /** A worker's step lowers what it and the queue still cost. */
  lemma {:induction false} WorkPays(s: State, i: nat)
    requires WorkEnabled(s, i) && s.q.draining
    ensures
      var s' := WorkNext(s, i);
      && |s'.ws| == |s.ws| && s'.ws == s.ws[i := s'.ws[i]]
      && 5 * |s'.q.queue| + PcCost(s'.ws[i]) < 5 * |s.q.queue| + PcCost(s.ws[i])
  {
  }

  lemma {:induction false} SomeWorker(ws: seq<WorkPc>, k: Kind) returns (i: nat)
    requires Workers(ws, k) > 0
    ensures i < |ws| && Is(ws[i], k)
  {
    var n := |ws| - 1;
    if Is(ws[n], k) { i := n; } else { i := SomeWorker(ws[..n], k); }
  }

  /** While jobs are left in a draining rank with workers, some worker can step. */
  lemma {:induction false} DrainProgress(n: nat, ss: seq<State>, acts: seq<Action>, k: nat) returns (i: nat)
    requires IsRun(n, ss, acts) && k < |ss| && n > 0 && ss[k].q.draining && Load(ss[k].q) > 0
    ensures WorkEnabled(ss[k], i)
  {
    var s := ss[k];
    RunInv(n, ss, acts, k);
    SameWorkers(n, ss, acts, k);
    if s.q.inFlight > 0 {
      i := SomeWorker(s.ws, Running);
    } else {
      i := 0;
    }
  }

  lemma {:induction false} SameWorkers(n: nat, ss: seq<State>, acts: seq<Action>, k: nat)
    requires IsRun(n, ss, acts) && k < |ss|
    ensures |ss[k].ws| == n
  {
    if k > 0 {
      SameWorkers(n, ss, acts, k - 1);
      assert IsStep(ss[k - 1], acts[k - 1], ss[k]);
    }
  }

  // ----- which jobs are taken -----

  predicate HasRoom(q: Shared) {
    !q.draining && |q.queue| < 8
  }

  /** An INFER at the door: while the rank does not drain and fewer than eight jobs wait its payload is read,
      otherwise it is closed. */
  lemma {:induction false} InferAtDoor(n: nat, ss: seq<State>, acts: seq<Action>, k: nat)
    requires IsRun(n, ss, acts) && k < |acts| && ss[k].io.Accept? && acts[k] == Io(NewInfer)
    ensures
      var s, s' := ss[k], ss[k + 1];
      && s'.next == s.next + 1 && s'.q == s.q && s'.accepted == s.accepted
      && (if !s.q.draining && |s.q.queue| < 8 then s'.io == Receiving(s.next) && s'.closed == s.closed
          else s'.io == LoopCond && s'.closed == s.closed + [s.next])
  {
    assert IsStep(ss[k], acts[k], ss[k + 1]);
  }

  /** When its payload is to be had the same is asked again: the job is queued behind all others, or its connection
      closed. */
  lemma {:induction false} PayloadDecides(n: nat, ss: seq<State>, acts: seq<Action>, k: nat)
    requires IsRun(n, ss, acts) && k < |acts| && ss[k].io.Receiving? && acts[k].Io?
    ensures
      var s, s', c := ss[k], ss[k + 1], ss[k].io.c;
      && s'.io == LoopCond && acts[k].ev.Payload?
      && (if acts[k].ev.ok && !s.q.draining && |s.q.queue| < 8 then
            s'.accepted == s.accepted + [c] && s'.q == s.q.(queue := s.q.queue + [c]) && s'.closed == s.closed
          else s'.accepted == s.accepted && s'.q == s.q && s'.closed == s.closed + [c])
  {
    assert IsStep(ss[k], acts[k], ss[k + 1]);
  }

  /** In step `k` the payload of `c` arrives and there is room. */
  predicate Arrives(s: State, a: Action, c: Conn) {
    s.io == Receiving(c) && a == Io(Payload(true)) && HasRoom(s.q)
  }

  /** A whole run accepts exactly the connections whose payload arrived while there was room. */
  lemma {:induction false} AcceptedExactly(n: nat, ss: seq<State>, acts: seq<Action>, k: nat, c: Conn)
    requires IsRun(n, ss, acts) && k <= |acts|
    ensures c in ss[k].accepted <==> exists j :: 0 <= j < k && Arrives(ss[j], acts[j], c)
  {
    if k > 0 {
      AcceptedExactly(n, ss, acts, k - 1, c);
      assert IsStep(ss[k - 1], acts[k - 1], ss[k]);
      if Arrives(ss[k - 1], acts[k - 1], c) {
        assert ss[k].accepted == ss[k - 1].accepted + [c];
      } else {
        assert c in ss[k].accepted <==> c in ss[k - 1].accepted;
      }
    }
  }

  lemma {:induction false} RunFurther(n: nat, ss: seq<State>, acts: seq<Action>, a: Action)
    returns (ss': seq<State>, acts': seq<Action>)
    requires IsRun(n, ss, acts) && Enabled(ss[|acts|], a)
    ensures IsRun(n, ss', acts') && ss' == ss + [Next(ss[|acts|], a)] && acts' == acts + [a]
  {
    hide Next, Enabled;
    ss', acts' := ss + [Next(ss[|acts|], a)], acts + [a];
    forall k | 0 <= k < |acts'|
      ensures IsStep(ss'[k], acts'[k], ss'[k + 1])
    {
      if k < |acts| { assert IsStep(ss[k], acts[k], ss[k + 1]); }
    }
  }

  /** The connections 0, ..., m - 1. */
  function FirstConns(m: nat): (q: seq<Conn>)
    ensures |q| == m
  {
    if m == 0 then [] else FirstConns(m - 1) + [m - 1]
  }

  /** Whatever the number of workers, up to eight jobs can wait at once; the next INFER is then closed unread. */
  lemma {:induction false} EightCanWait(n: nat, m: nat) returns (ss: seq<State>, acts: seq<Action>)
    requires m <= 8
    ensures IsRun(n, ss, acts)
    ensures
      var s := ss[|acts|];
      && s.q == Shared(FirstConns(m), 0, false, false, None, false) && s.io == LoopCond
      && s.next == m && s.accepted == FirstConns(m) && s.closed == []
  {
    if m == 0 {
      ss, acts := [Init(n)], [];
    } else {
      ss, acts := EightCanWait(n, m - 1);
      ss, acts := RunFurther(n, ss, acts, Io(Timeout));
      ss, acts := RunFurther(n, ss, acts, Io(Timeout));
      ss, acts := RunFurther(n, ss, acts, Io(Timeout));
      ss, acts := RunFurther(n, ss, acts, Io(NewInfer));
      ss, acts := RunFurther(n, ss, acts, Io(Payload(true)));
    }
  }

  // ----- the DRAIN gets its answer -----

  /** A DRAIN at the door: the first one is kept and from then on the rank drains; while one waits another is closed. */
  lemma {:induction false} DrainAtDoor(n: nat, ss: seq<State>, acts: seq<Action>, k: nat)
    requires IsRun(n, ss, acts) && k < |acts| && ss[k].io.Accept? && acts[k] == Io(NewDrain)
    ensures
      var s, s' := ss[k], ss[k + 1];
      if s.q.drainFd == None then
        && s'.q.draining && s'.q.quit && s'.q.drainFd == Some(s.next) && s'.closed == s.closed
        && s'.q.queue == s.q.queue && s'.q.inFlight == s.q.inFlight
      else s'.q == s.q && s'.closed == s.closed + [s.next]
  {
    assert IsStep(ss[k], acts[k], ss[k + 1]);
  }

  /** A worker that has run the rank dry answers the waiting DRAIN in its next two steps and stops the IO thread. */
  lemma {:induction false} LastWorkerAnswers(n: nat, ss: seq<State>, acts: seq<Action>, i: nat)
    returns (ss': seq<State>, acts': seq<Action>)
    requires IsRun(n, ss, acts) && i < |ss[|acts|].ws| && ss[|acts|].ws[i].Trying?
    requires var q := ss[|acts|].q; q.draining && q.queue == [] && q.inFlight == 0 && q.drainFd.Some?
    ensures IsRun(n, ss', acts') && acts' == acts + [Work(i), Work(i)]
    ensures
      var s, s' := ss[|acts|], ss'[|acts'|];
      && s'.oks == s.oks + [s.q.drainFd.value] && s'.closed == s.closed + [s.q.drainFd.value]
      && s'.q.ioStop && s'.q.drainFd == None
  {
    ss', acts' := RunFurther(n, ss, acts, Work(i));
    ss', acts' := RunFurther(n, ss', acts', Work(i));
  }

  /** What an IO thread that takes no job in leaves alone. */
  predicate Quiet(s: State, s': State) {
    s'.ws == s.ws && s'.accepted == s.accepted && (s.q.draining ==> s'.q.draining)
  }

  /** If no worker does, the IO thread answers it on its next round and ends. */
  lemma {:induction false} IoAnswers(n: nat, ss: seq<State>, acts: seq<Action>)
    returns (ss': seq<State>, acts': seq<Action>)
    requires IsRun(n, ss, acts) && ss[|acts|].io.LoopCond?
    requires var q := ss[|acts|].q; q.draining && q.queue == [] && q.inFlight == 0 && q.drainFd.Some?
    ensures IsRun(n, ss', acts') && ss <= ss' && acts' == acts + [Io(Timeout), Io(Timeout), Io(Timeout), Io(Timeout)]
    ensures
      var s, s' := ss[|acts|], ss'[|acts'|];
      && s'.io.IoDone? && s'.oks == s.oks + [s.q.drainFd.value] && s'.closed == s.closed + [s.q.drainFd.value]
      && Quiet(s, s')
  {
    RunInv(n, ss, acts, |acts|);
    assert !ss[|acts|].q.ioStop;
    hide Inv;
    ss', acts' := RunFurther(n, ss, acts, Io(Timeout));
    ss', acts' := RunFurther(n, ss', acts', Io(Timeout));
    ss', acts' := RunFurther(n, ss', acts', Io(Timeout));
    ss', acts' := RunFurther(n, ss', acts', Io(Timeout));
  }

  /** How far the IO thread is from the head of its loop. */
  function LoopRank(io: IoPc): (n: nat) {
    match io
    case Accept => 1
    case Receiving(_) => 1
    case StopCheck => 2
    case DrainTry => 2
    case Answering(_, back) => if back.StopCheck? then 3 else 1
    case TopTry => 4
    case _ => 0
  }

  function QuietEvent(io: IoPc): (ev: Event) {
    if io.Receiving? then Payload(false) else Timeout
  }

  /** With nobody at the door the IO thread comes back to the head of its loop. */
  lemma {:induction false} IoToLoop(n: nat, ss: seq<State>, acts: seq<Action>)
    returns (ss': seq<State>, acts': seq<Action>)
    requires IsRun(n, ss, acts)
    ensures IsRun(n, ss', acts') && ss <= ss' && acts <= acts' && Quiet(ss[|acts|], ss'[|acts'|])
    ensures var io := ss'[|acts'|].io; io.LoopCond? || io.IoDone?
    decreases LoopRank(ss[|acts|].io)
  {
    hide Inv, IoNext, WorkNext, IoEnabled, WorkEnabled, LoopRank;
    var s := ss[|acts|];
    ss', acts' := ss, acts;
    if !s.io.LoopCond? && !s.io.IoDone? {
      RunInv(n, ss, acts, |acts|);
      QuietStep(s);
      ss', acts' := RunFurther(n, ss, acts, Io(QuietEvent(s.io)));
      ss', acts' := IoToLoop(n, ss', acts');
    }
  }

  lemma {:induction false} QuietStep(s: State)
    requires Inv(s) && !s.io.LoopCond? && !s.io.IoDone?
    ensures
      var ev := QuietEvent(s.io);
      && IoEnabled(s, ev) && LoopRank(IoNext(s, ev).io) < LoopRank(s.io) && Quiet(s, IoNext(s, ev))
  {
    hide Owned, Fifo, Taken;
  }

  /** A rank that does not drain yet is told to. */
  lemma {:induction false} StartDrain(n: nat, ss: seq<State>, acts: seq<Action>)
    returns (ss': seq<State>, acts': seq<Action>)
    requires IsRun(n, ss, acts) && ss[|acts|].io.LoopCond? && !ss[|acts|].q.draining
    ensures IsRun(n, ss', acts') && ss <= ss' && acts <= acts' && Quiet(ss[|acts|], ss'[|acts'|])
    ensures ss'[|acts'|].q.draining
  {
    RunInv(n, ss, acts, |acts|);
    assert !ss[|acts|].q.ioStop && ss[|acts|].q.drainFd.None?;
    hide Inv;
    ss', acts' := RunFurther(n, ss, acts, Io(Timeout));
    ss', acts' := RunFurther(n, ss', acts', Io(Timeout));
    ss', acts' := RunFurther(n, ss', acts', Io(Timeout));
    ss', acts' := RunFurther(n, ss', acts', Io(NewDrain));
  }

  ghost predicate AllLeft(ws: seq<WorkPc>) {
    forall i :: 0 <= i < |ws| ==> ws[i].Exited?
  }

  /** A draining rank's workers do all that is left and leave. */
  lemma {:induction false} WorkOff(n: nat, ss: seq<State>, acts: seq<Action>)
    returns (ss': seq<State>, acts': seq<Action>)
    requires IsRun(n, ss, acts) && ss[|acts|].q.draining
    ensures IsRun(n, ss', acts') && ss <= ss' && acts <= acts' && ss'[|acts'|].q.draining
    ensures AllLeft(ss'[|acts'|].ws) && ss'[|acts'|].accepted == ss[|acts|].accepted
    decreases StepsLeft(ss[|acts|])
  {
    hide Inv, IoNext, WorkNext, IoEnabled, WorkEnabled, StepsLeft, AllLeft;
    var s := ss[|acts|];
    ss', acts' := ss, acts;
    RunInv(n, ss, acts, |acts|);
    if i: nat :| WorkEnabled(s, i) {
      DrainStepsBounded(s, Work(i));
      WorkAccepts(s, i);
      ss', acts' := RunFurther(n, ss, acts, Work(i));
      ss', acts' := WorkOff(n, ss', acts');
    } else {
      StuckIsOver(s);
    }
  }

  lemma {:induction false} WorkAccepts(s: State, i: nat)
    requires WorkEnabled(s, i) && s.q.draining
    ensures WorkNext(s, i).accepted == s.accepted && WorkNext(s, i).q.draining
  {
  }

  lemma {:induction false} StuckIsOver(s: State)
    requires Inv(s) && s.q.draining && forall i: nat :: !WorkEnabled(s, i)
    ensures AllLeft(s.ws)
  {
    hide Owned, Taken;
    forall i | 0 <= i < |s.ws|
      ensures s.ws[i].Exited?
    {
      assert !WorkEnabled(s, i);
      assert s.ws[i].Handled? ==> Is(s.ws[i], Running);
    }
  }

  lemma {:induction false} LeftIsDry(s: State)
    requires Inv(s) && s.ws != [] && AllLeft(s.ws)
    ensures s.q.draining && s.q.queue == [] && s.q.inFlight == 0
    ensures s.accepted == s.started && |s.handled| == |s.accepted|
    ensures s.io.LoopCond? && !s.q.ioStop ==> s.q.drainFd.Some?
  {
    hide Owned;
    assert s.ws[0].Exited?;
    NoneIs(s.ws, Running);
    NoneIs(s.ws, Reporting);
  }

  lemma {:induction false} NoneIs(ws: seq<WorkPc>, k: Kind)
    requires AllLeft(ws) && !k.Owning?
    ensures Workers(ws, k) == 0
  {
    if ws != [] { NoneIs(ws[..|ws| - 1], k); }
  }

  /** From every state of every run a rank with workers can be shut down: the run goes on, without another job, to
      one in which a DRAIN has been answered, every job accepted so far has been handled, all threads have ended
      and every connection has been closed exactly once. */
  lemma {:induction false} EveryRunEnds(n: nat, ss: seq<State>, acts: seq<Action>, c: Conn)
    returns (ss': seq<State>, acts': seq<Action>)
    requires IsRun(n, ss, acts) && n > 0
    ensures IsRun(n, ss', acts') && ss <= ss' && acts <= acts'
    ensures
      var s, s' := ss[|acts|], ss'[|acts'|];
      && s'.io.IoDone? && (forall i :: 0 <= i < |s'.ws| ==> s'.ws[i].Exited?) && s'.oks != []
      && s'.accepted == s.accepted == s'.started && |s'.handled| == |s.accepted|
      && CountIn(s'.closed, c) == One(c < s'.next)
  {
    hide Inv, IoNext, WorkNext, IoEnabled, WorkEnabled, StepsLeft;
    ss', acts' := IoToLoop(n, ss, acts);
    if !ss'[|acts'|].q.draining {
      RunInv(n, ss', acts', |acts'|);
      DoneDrains(ss'[|acts'|]);
      ss', acts' := StartDrain(n, ss', acts');
    }
    ss', acts' := WorkOff(n, ss', acts');
    ss', acts' := IoToLoop(n, ss', acts');
    ss', acts' := LastAnswer(n, ss', acts');
    RunInv(n, ss', acts', |acts'|);
    SameWorkers(n, ss', acts', |acts'|);
    LeftIsDry(ss'[|acts'|]);
    DoneDrains(ss'[|acts'|]);
    AllClosedAtExit(n, ss', acts', c);
  }

  lemma {:induction false} DoneDrains(s: State)
    requires Inv(s)
    ensures s.io.IoDone? ==> s.q.draining && s.oks != []
  {
  }

  lemma {:induction false} LastAnswer(n: nat, ss: seq<State>, acts: seq<Action>)
    returns (ss': seq<State>, acts': seq<Action>)
    requires IsRun(n, ss, acts) && n > 0 && AllLeft(ss[|acts|].ws)
    requires ss[|acts|].io.LoopCond? || ss[|acts|].io.IoDone?
    ensures IsRun(n, ss', acts') && ss <= ss' && acts <= acts' && Quiet(ss[|acts|], ss'[|acts'|])
    ensures ss'[|acts'|].io.IoDone?
  {
    hide Inv, WorkNext, WorkEnabled, AllLeft;
    ss', acts' := ss, acts;
    if ss[|acts|].io.LoopCond? {
      RunInv(n, ss, acts, |acts|);
      SameWorkers(n, ss, acts, |acts|);
      LeftIsDry(ss[|acts|]);
      if ss[|acts|].q.ioStop {
        ss', acts' := RunFurther(n, ss, acts, Io(Timeout));
      } else {
        ss', acts' := IoAnswers(n, ss, acts);
      }
    }
  }

  // ----- the ring in the rank's fields -----

  /** The slot `j` places behind `head`. */
  function Slot(head: nat, j: nat): (p: nat)
    ensures p < RANK_JOB_CAP
  {
    (head + j) % RANK_JOB_CAP
  }

  lemma {:induction false} SlotIs(head: nat, j: nat)
    ensures Slot(head, j) == (head + j) % RANK_JOB_CAP && (head < RANK_JOB_CAP ==> Slot(head, 0) == head)
  {
  }

  lemma {:induction false} NextSlot(head: nat, j: nat)
    ensures Slot(Slot(head, 1), j) == Slot(head, j + 1)
  {
  }

  lemma {:induction false} SlotsDiffer(head: nat, i: nat, j: nat)
    requires i < j < i + RANK_JOB_CAP
    ensures Slot(head, i) != Slot(head, j)
  {
  }

  /** The `n` entries of a ring from `head` on, oldest first. */
  function Ring(ring: seq<Conn>, head: nat, n: nat): (q: seq<Conn>)
    requires |ring| == RANK_JOB_CAP
    ensures |q| == n
  {
    if n == 0 then [] else Ring(ring, head, n - 1) + [ring[Slot(head, n - 1)]]
  }

  /** Writing a slot the entries do not use. */
  lemma {:induction false} RingKept(ring: seq<Conn>, head: nat, n: nat, p: nat, c: Conn)
    requires |ring| == RANK_JOB_CAP && p < RANK_JOB_CAP
    requires forall j :: 0 <= j < n ==> Slot(head, j) != p
    ensures Ring(ring[p := c], head, n) == Ring(ring, head, n)
  {
    hide Slot;
    if n > 0 {
      RingKept(ring, head, n - 1, p, c);
    }
  }

  lemma {:induction false} RingPush(ring: seq<Conn>, head: nat, n: nat, c: Conn)
    requires |ring| == RANK_JOB_CAP && n < RANK_JOB_CAP
    ensures Ring(ring[Slot(head, n) := c], head, n + 1) == Ring(ring, head, n) + [c]
  {
    hide Slot;
    forall j | 0 <= j < n
      ensures Slot(head, j) != Slot(head, n)
    {
      SlotsDiffer(head, j, n);
    }
    RingKept(ring, head, n, Slot(head, n), c);
  }

  lemma {:induction false} RingPushAt(ring: seq<Conn>, head: nat, n: nat, tail: nat, c: Conn)
    requires |ring| == RANK_JOB_CAP && n < RANK_JOB_CAP && tail == (head + n) % RANK_JOB_CAP
    ensures tail < RANK_JOB_CAP && (tail + 1) % RANK_JOB_CAP == (head + (n + 1)) % RANK_JOB_CAP
    ensures Ring(ring[tail := c], head, n + 1) == Ring(ring, head, n) + [c]
  {
    SlotIs(head, n);
    hide Ring;
    RingPush(ring, head, n, c);
  }

  /** From the next slot on, the ring holds the same entries without the first. */
  lemma {:induction false} RingRest(ring: seq<Conn>, head: nat, n: nat)
    requires |ring| == RANK_JOB_CAP && n > 0
    ensures Ring(ring, head, n)[0] == ring[Slot(head, 0)]
    ensures Ring(ring, Slot(head, 1), n - 1) == Ring(ring, head, n)[1..]
  {
    hide Slot;
    if n > 1 {
      RingRest(ring, head, n - 1);
      NextSlot(head, n - 2);
    }
  }

  lemma {:induction false} RingTake(ring: seq<Conn>, head: nat, n: nat)
    requires |ring| == RANK_JOB_CAP && 0 < n <= RANK_JOB_CAP
    ensures Ring(ring, head, n)[0] == ring[Slot(head, 0)]
    ensures Ring(ring[Slot(head, 0) := 0], Slot(head, 1), n - 1) == Ring(ring, head, n)[1..]
  {
    hide Slot;
    RingRest(ring, head, n);
    forall j | 0 <= j < n - 1
      ensures Slot(Slot(head, 1), j) != Slot(head, 0)
    {
      NextSlot(head, j);
      SlotsDiffer(head, 0, j + 1);
    }
    RingKept(ring, Slot(head, 1), n - 1, Slot(head, 0), 0);
  }

  lemma {:induction false} NextHead(head: nat, n: nat)
    requires head < RANK_JOB_CAP && n > 0
    ensures
      var next := (head + 1) % RANK_JOB_CAP;
      next == Slot(head, 1) < RANK_JOB_CAP && (next + (n - 1)) % RANK_JOB_CAP == (head + n) % RANK_JOB_CAP
  {
    if head + 1 == RANK_JOB_CAP {
      assert head + n == (n - 1) + RANK_JOB_CAP;
    }
  }

  lemma {:induction false} RingTakeAt(ring: seq<Conn>, head: nat, n: nat)
    requires |ring| == RANK_JOB_CAP && head < RANK_JOB_CAP && 0 < n <= RANK_JOB_CAP
    ensures
      var next := (head + 1) % RANK_JOB_CAP;
      && next < RANK_JOB_CAP && (next + (n - 1)) % RANK_JOB_CAP == (head + n) % RANK_JOB_CAP
      && Ring(ring, head, n)[0] == ring[head] && Ring(ring[head := 0], next, n - 1) == Ring(ring, head, n)[1..]
  {
    SlotIs(head, 0);
    hide Ring, Slot;
    NextHead(head, n);
    RingTake(ring, head, n);
  }

  /** `jobs`, `q_head`, `q_tail`, `q_len` and the fields beside them; each method is one
      critical section. */
  class RankQueue {
    var jobs: array<Conn>
    var head: nat
    var tail: nat
    var len: nat
    var inFlight: nat
    var draining: bool
    var quit: bool
    var drainFd: Option<Conn>
    var ioStop: bool

    ghost predicate Valid()
      reads this
    {
      && jobs.Length == RANK_JOB_CAP && head < RANK_JOB_CAP && len <= RANK_JOB_CAP
      && tail == (head + len) % RANK_JOB_CAP
    }

    /** The ring's content, oldest first. */
    ghost function Queue(): (q: seq<Conn>)
      requires Valid()
      reads this, jobs
      ensures |q| == len
    {
      Ring(jobs[..], head, len)
    }

    ghost function View(): (q: Shared)
      requires Valid()
      reads this, jobs
    {
      Shared(Queue(), inFlight, draining, quit, drainFd, ioStop)
    }

    constructor ()
      ensures Valid() && fresh(jobs) && View() == Init(0).q
    {
      jobs := new Conn[RANK_JOB_CAP](_ => 0);
      head, tail, len, inFlight := 0, 0, 0, 0;
      draining, quit, drainFd, ioStop := false, false, None, false;
    }

    method TryEnqueue(c: Conn) returns (ok: bool)
      requires Valid()
      modifies this, jobs
      ensures Valid() && jobs == old(jobs)
      ensures ok <==> !old(draining) && old(len) < 8
      ensures Queue() == if ok then old(Queue()) + [c] else old(Queue())
      ensures View() == if Rejects(old(View())) then old(View()) else Enqueue(old(View()), c)
    {
      if draining || len >= RANK_JOB_CAP {
        return false;
      }
      hide Ring, Slot;
      RingPushAt(jobs[..], head, len, tail, c);
      ghost var ring := jobs[..];
      jobs[tail] := c;
      assert jobs[..] == ring[tail := c];
      tail := (tail + 1) % RANK_JOB_CAP;
      len := len + 1;
      return true;
    }

    method Take() returns (c: Conn)
      requires Valid() && len > 0
      modifies this, jobs
      ensures Valid() && jobs == old(jobs)
      ensures c == old(Queue())[0] && View() == Dequeue(old(View()))
    {
      hide Ring, Slot;
      ghost var ring := jobs[..];
      RingTakeAt(ring, head, len);
      c := jobs[head];
      jobs[head] := 0;
      assert jobs[..] == ring[head := 0];
      head := (head + 1) % RANK_JOB_CAP;
      len := len - 1;
      inFlight := inFlight + 1;
    }

    method Report()
      requires Valid() && inFlight > 0
      modifies this
      ensures Valid() && jobs == old(jobs) && View() == Complete(old(View()))
    {
      inFlight := inFlight - 1;
    }

    method Drain(c: Conn) returns (ok: bool)
      requires Valid()
      modifies this
      ensures Valid() && jobs == old(jobs) && ok == old(drainFd).None?
      ensures View() == if ok then AcceptDrain(old(View()), c) else old(View())
    {
      if drainFd.Some? {
        return false;
      }
      draining, quit, drainFd := true, true, Some(c);
      return true;
    }

    method TryFinishDrain() returns (d: Option<Conn>)
      requires Valid()
      modifies this
      ensures Valid() && jobs == old(jobs) && (View(), d) == TakeDrain(old(View()))
    {
      if !draining || len > 0 || inFlight > 0 || drainFd.None? {
        return None;
      }
      d := drainFd;
      drainFd := None;
    }
  }
}
