/**
  The sliding-window limiter of the HTTP entry (serve/router_http.c): a ring of 60 one-second
  slots, scanned and bumped, against the log of everything recorded.
*/
module RateLimit {
  const WIN := 60

  datatype Slot = Slot(sec: int, req: int, tok: int)

  /** Something recorded at second `sec`: requests and tokens. */
  datatype Event = Event(sec: int, req: nat, tok: nat)

  const EMPTY := Slot(0, 0, 0)

  predicate InWindow(e: Event, now: int) {
    now - WIN < e.sec <= now
  }

  function Requests(log: seq<Event>, now: int): (n: nat) {
    if log == [] then 0
    else Requests(log[..|log| - 1], now) + if InWindow(log[|log| - 1], now) then log[|log| - 1].req else 0
  }

  function Tokens(log: seq<Event>, now: int): (n: nat) {
    if log == [] then 0
    else Tokens(log[..|log| - 1], now) + if InWindow(log[|log| - 1], now) then log[|log| - 1].tok else 0
  }

  /** What the log holds for one second. */
  function At(log: seq<Event>, sec: int): (s: Slot)
    ensures s.sec == sec && s.req >= 0 && s.tok >= 0
  {
    if log == [] then Slot(sec, 0, 0)
    else
      var (s, e) := (At(log[..|log| - 1], sec), log[|log| - 1]);
      if e.sec == sec then Slot(sec, s.req + e.req, s.tok + e.tok) else s
  }

  /** The log's clock is positive and never goes back. */
  predicate Ticking(log: seq<Event>, last: int) {
    && last >= 0
    && (forall i :: 0 <= i < |log| ==> 0 < log[i].sec <= last)
    && (forall i, j :: 0 <= i < j < |log| ==> log[i].sec <= log[j].sec)
  }

  /** Slot `i` holds the latest recorded second that falls on it, or was purged when that second
      left the window. */
  predicate SlotOk(s: Slot, i: nat, log: seq<Event>, last: int) {
    if s.sec == 0 then
      && s == EMPTY
      && (forall k :: 0 <= k < |log| && log[k].sec % WIN == i ==> log[k].sec <= last - WIN)
    else
      && 0 < s.sec <= last && s.sec % WIN == i && s == At(log, s.sec)
      && (forall k :: 0 <= k < |log| && log[k].sec % WIN == i ==> log[k].sec <= s.sec)
      && (exists k :: 0 <= k < |log| && log[k].sec == s.sec)
  }

  // ----- the ring's sum is the window's sum -----

  /** The part of the window that falls on slot `i`. */
  function Bucket(log: seq<Event>, now: int, i: int): (s: Slot)
    ensures s.sec == i && s.req >= 0 && s.tok >= 0
  {
    if log == [] then Slot(i, 0, 0)
    else
      var (s, e) := (Bucket(log[..|log| - 1], now, i), log[|log| - 1]);
      if InWindow(e, now) && e.sec % WIN == i then Slot(i, s.req + e.req, s.tok + e.tok) else s
  }

  /** The first `n` buckets together. */
  function Buckets(log: seq<Event>, now: int, n: nat): (s: Slot)
    ensures s.sec == 0
  {
    if n == 0 then EMPTY
    else
      var (s, b) := (Buckets(log, now, n - 1), Bucket(log, now, n - 1));
      Slot(0, s.req + b.req, s.tok + b.tok)
  }

  lemma {:induction false} BucketsOfNothing(now: int, n: nat)
    ensures Buckets([], now, n) == EMPTY
  {
    if n > 0 {
      BucketsOfNothing(now, n - 1);
    }
  }

  /** One more event adds to one bucket. */
  lemma {:induction false} BucketsExtend(log: seq<Event>, now: int, n: nat)
    requires log != []
    ensures
      var (e, s) := (log[|log| - 1], Buckets(log[..|log| - 1], now, n));
      Buckets(log, now, n) == if InWindow(e, now) && e.sec % WIN < n then Slot(0, s.req + e.req, s.tok + e.tok) else s
  {
    if n > 0 {
      BucketsExtend(log, now, n - 1);
    }
  }

  lemma {:induction false} BucketsAreWindow(log: seq<Event>, now: int)
    ensures Buckets(log, now, WIN) == Slot(0, Requests(log, now), Tokens(log, now))
  {
    if log == [] {
      BucketsOfNothing(now, WIN);
    } else {
      BucketsAreWindow(log[..|log| - 1], now);
      BucketsExtend(log, now, WIN);
    }
  }

  lemma {:induction false} EmptyBucket(log: seq<Event>, now: int, i: int)
    requires forall k :: 0 <= k < |log| && log[k].sec % WIN == i ==> !InWindow(log[k], now)
    ensures Bucket(log, now, i) == Slot(i, 0, 0)
  {
    if log != [] {
      EmptyBucket(log[..|log| - 1], now, i);
    }
  }

  /** In a window of 60 seconds only one falls on a slot. */
  lemma {:induction false} FullBucket(log: seq<Event>, now: int, sec: int)
    requires now - WIN < sec <= now
    ensures Bucket(log, now, sec % WIN) == At(log, sec).(sec := sec % WIN)
  {
    if log != [] {
      FullBucket(log[..|log| - 1], now, sec);
      var e := log[|log| - 1];
      if InWindow(e, now) && e.sec % WIN == sec % WIN {
        assert e.sec == sec;
      }
    }
  }

  /** What a scan at `now` counts of a slot is the slot's share of the window. */
  lemma {:induction false} SlotIsBucket(s: Slot, i: nat, log: seq<Event>, last: int, now: int)
    requires SlotOk(s, i, log, last) && last <= now && i < WIN
    ensures
      var b := Bucket(log, now, i);
      if s.sec != 0 && now - s.sec < WIN then b.req == s.req && b.tok == s.tok else b.req == 0 && b.tok == 0
  {
    if s.sec != 0 && now - s.sec < WIN {
      FullBucket(log, now, s.sec);
    } else {
      EmptyBucket(log, now, i);
    }
  }

  lemma {:induction false} Later(s: Slot, i: nat, log: seq<Event>, last: int, now: int)
    requires SlotOk(s, i, log, last) && last <= now
    ensures SlotOk(s, i, log, now)
  {
  }

  lemma {:induction false} Purged(s: Slot, i: nat, log: seq<Event>, last: int, now: int)
    requires SlotOk(s, i, log, last) && last <= now && now - s.sec >= WIN
    ensures SlotOk(EMPTY, i, log, now)
  {
  }

  lemma {:induction false} NothingAt(log: seq<Event>, sec: int)
    requires forall k :: 0 <= k < |log| ==> log[k].sec != sec
    ensures At(log, sec) == Slot(sec, 0, 0)
  {
    if log != [] {
      NothingAt(log[..|log| - 1], sec);
    }
  }

  /** A slot reset to a new second starts from nothing. */
  lemma {:induction false} ResetIsNew(s: Slot, log: seq<Event>, last: int, now: int)
    requires SlotOk(s, now % WIN, log, last) && Ticking(log, last) && last <= now && s.sec != now && now > 0
    ensures At(log, now) == Slot(now, 0, 0)
  {
    forall k | 0 <= k < |log|
      ensures log[k].sec != now
    {
      assert log[k].sec % WIN == now % WIN ==> log[k].sec < now;
    }
    NothingAt(log, now);
  }

  lemma {:induction false} AtExtends(log: seq<Event>, e: Event, sec: int)
    ensures
      var s := At(log, sec);
      At(log + [e], sec) == if e.sec == sec then Slot(sec, s.req + e.req, s.tok + e.tok) else s
  {
    assert (log + [e])[..|log|] == log;
  }

  lemma {:induction false} BumpedSlot(s: Slot, log: seq<Event>, last: int, e: Event)
    requires SlotOk(s, e.sec % WIN, log, last) && Ticking(log, last) && last <= e.sec && e.sec > 0
    ensures
      var t := if s.sec != e.sec then Slot(e.sec, 0, 0) else s;
      SlotOk(Slot(e.sec, t.req + e.req, t.tok + e.tok), e.sec % WIN, log + [e], e.sec)
  {
    if s.sec != e.sec {
      ResetIsNew(s, log, last, e.sec);
    }
    AtExtends(log, e, e.sec);
    assert (log + [e])[|log|] == e;
  }

  lemma {:induction false} OtherSlot(s: Slot, i: nat, log: seq<Event>, last: int, e: Event)
    requires SlotOk(s, i, log, last) && last <= e.sec && e.sec % WIN != i && i < WIN
    ensures SlotOk(s, i, log + [e], e.sec)
  {
    AtExtends(log, e, s.sec);
    if s.sec != 0 {
      var k :| 0 <= k < |log| && log[k].sec == s.sec;
      assert (log + [e])[k].sec == s.sec;
    }
  }

  lemma {:induction false} LogExtends(log: seq<Event>, e: Event, last: int)
    requires Ticking(log, last) && last <= e.sec && e.sec > 0
    ensures Ticking(log + [e], e.sec)
  {
  }

  // ----- admission -----

  /** In no 60-second window are more than `rpm` requests recorded. */
  ghost predicate Limited(log: seq<Event>, rpm: int) {
    rpm > 0 ==> forall t: int :: Requests(log, t) <= rpm
  }

  lemma {:induction false} RequestsExtend(log: seq<Event>, e: Event, now: int)
    ensures Requests(log + [e], now) == Requests(log, now) + if InWindow(e, now) then e.req else 0
  {
    assert (log + [e])[..|log|] == log;
  }

  /** What a later window still sees of the past, the window ending at the last event saw too. */
  lemma {:induction false} LaterWindow(log: seq<Event>, last: int, t: int)
    requires (forall i :: 0 <= i < |log| ==> log[i].sec <= last) && last <= t
    ensures Requests(log, t) <= Requests(log, last)
  {
    if log != [] {
      LaterWindow(log[..|log| - 1], last, t);
    }
  }

  lemma {:induction false} StaysLimited(log: seq<Event>, last: int, rpm: int, e: Event)
    requires Limited(log, rpm) && Ticking(log, last) && last <= e.sec
    requires rpm > 0 ==> Requests(log, e.sec) + e.req <= rpm || e.req == 0
    ensures Limited(log + [e], rpm)
  {
    if rpm > 0 {
      forall t: int
        ensures Requests(log + [e], t) <= rpm
      {
        RequestsExtend(log, e, t);
        if InWindow(e, t) {
          LaterWindow(log, e.sec, t);
        }
      }
    }
  }

  /** The age of the oldest second recorded in the window, -1 when there is none. */
  predicate OldestAge(log: seq<Event>, now: int, age: int) {
    && (forall k :: 0 <= k < |log| && InWindow(log[k], now) ==> now - log[k].sec <= age)
    && (age == -1 || exists k :: 0 <= k < |log| && InWindow(log[k], now) && now - log[k].sec == age)
  }

  /** Event `k` is the oldest one in the window: the first to leave it. */
  predicate Oldest(log: seq<Event>, now: int, k: int) {
    && 0 <= k < |log| && InWindow(log[k], now)
    && forall j :: 0 <= j < |log| && InWindow(log[j], now) ==> log[k].sec <= log[j].sec
  }

  /** A window that counts something holds an event. */
  lemma {:induction false} WindowHolds(log: seq<Event>, now: int)
    ensures Requests(log, now) > 0 || Tokens(log, now) > 0 ==> exists k :: 0 <= k < |log| && InWindow(log[k], now)
  {
    if log != [] && !InWindow(log[|log| - 1], now) {
      WindowHolds(log[..|log| - 1], now);
      if Requests(log, now) > 0 || Tokens(log, now) > 0 {
        var k :| 0 <= k < |log| - 1 && InWindow(log[..|log| - 1][k], now);
        assert InWindow(log[k], now);
      }
    }
  }

  lemma {:induction false} OldestIs(log: seq<Event>, now: int, age: int)
    requires OldestAge(log, now, age) && exists k :: 0 <= k < |log| && InWindow(log[k], now)
    ensures 0 <= age < WIN && exists k :: Oldest(log, now, k) && age == now - log[k].sec
  {
    var i :| 0 <= i < |log| && InWindow(log[i], now);
    var k :| 0 <= k < |log| && InWindow(log[k], now) && now - log[k].sec == age;
    assert Oldest(log, now, k);
  }

  class Limiter {
    const ring: array<Slot>
    const rpm: int
    const tpm: int
    ghost var log: seq<Event>
    ghost var last: int

    ghost predicate Valid()
      reads this, ring
    {
      && ring.Length == WIN && Ticking(log, last)
      && forall i :: 0 <= i < WIN ==> SlotOk(ring[i], i, log, last)
    }

    constructor (rpmLimit: int, tpmLimit: int)
      ensures Valid() && fresh(ring) && log == [] && rpm == rpmLimit && tpm == tpmLimit && Limited(log, rpm)
    {
      rpm, tpm := rpmLimit, tpmLimit;
      ring := new Slot[WIN](_ => EMPTY);
      log, last := [], 0;
    }

    /** `rl_scan`: exactly what the last 60 seconds recorded. */
    method Scan(now: int) returns (reqs: int, tok: int, age: int)
      requires Valid() && now > 0 && now >= last
      modifies this`last, ring
      ensures Valid() && log == old(log) && last == now
      ensures reqs == Requests(log, now) && tok == Tokens(log, now)
      ensures -1 <= age < WIN && OldestAge(log, now, age)
    {
      hide SlotOk, Requests, Tokens, Bucket;
      reqs, tok, age := 0, 0, -1;
      for i := 0 to WIN
        invariant ring.Length == WIN && log == old(log) && last == old(last)
        invariant forall k :: 0 <= k < i ==> SlotOk(ring[k], k, log, now)
        invariant forall k :: i <= k < WIN ==> SlotOk(ring[k], k, log, last)
        invariant Slot(0, reqs, tok) == Buckets(log, now, i)
        invariant -1 <= age < WIN && AgeTo(log, now, age, i)
      {
        var s := ring[i];
        SlotIsBucket(s, i, log, last, now);
        SlotAge(s, i, log, last, now, age);
        Later(s, i, log, last, now);
        if s.sec == 0 {
          continue;
        }
        var a := now - s.sec;
        SecondOf(s, i, log, last);
        if a >= WIN {
          Purged(s, i, log, last, now);
          ring[i] := EMPTY;
          continue;
        }
        reqs := reqs + s.req;
        tok := tok + s.tok;
        if age < 0 || a > age {
          age := a;
        }
      }
      BucketsAreWindow(log, now);
      AllSlots(log, now, age);
      last := now;
      TimePasses(log, old(last), now);
    }

    /** `rl_bump_req` (one request) and `rl_bump_tokens`: the current second's slot, reset when
        it still holds an older one. */
    method Bump(now: int, req: nat, tok: nat)
      requires Valid() && now > 0 && now >= last
      modifies this`log, this`last, ring
      ensures Valid() && log == old(log) + [Event(now, req, tok)] && last == now
    {
      hide SlotOk;
      var e := Event(now, req, tok);
      var idx := now % WIN;
      BumpedSlot(ring[idx], log, last, e);
      LogExtends(log, e, last);
      forall i | 0 <= i < WIN && i != idx
        ensures SlotOk(ring[i], i, log + [e], now)
      {
        OtherSlot(ring[i], i, log, last, e);
      }
      if ring[idx].sec != now {
        ring[idx] := Slot(now, 0, 0);
      }
      var s := ring[idx];
      ring[idx] := Slot(s.sec, s.req + req, s.tok + tok);
      log, last := log + [e], now;
    }

    /** `http_reject_if_rate_limited`, not interleaved with another call: admits exactly while the
        last 60 seconds stay under both limits. */
    method Admit(now: int) returns (ok: bool, retry: int)
      requires Valid() && now > 0 && now >= last
      modifies this`log, this`last, ring
      ensures Valid()
      ensures ok <==> (rpm <= 0 || old(Requests(log, now)) < rpm) && (tpm <= 0 || old(Tokens(log, now)) < tpm)
      ensures log == if ok && (rpm > 0 || tpm > 0) then old(log) + [Event(now, 1, 0)] else old(log)
      ensures old(Limited(log, rpm)) ==> Limited(log, rpm)
      ensures !ok ==> 1 <= retry <= WIN && exists k :: Oldest(log, now, k) && retry == WIN - (now - log[k].sec)
    {
      hide Requests, Tokens, SlotOk, Limited;
      retry := 0;
      if rpm <= 0 && tpm <= 0 {
        return true, 0;
      }
      var reqs, tok, age := Scan(now);
      var over := (rpm > 0 && reqs >= rpm) || (tpm > 0 && tok >= tpm);
      if !over {
        if Limited(log, rpm) {
          StaysLimited(log, last, rpm, Event(now, 1, 0));
        }
        Bump(now, 1, 0);
        return true, 0;
      }
      WindowHolds(log, now);
      OldestIs(log, now, age);
      ok, retry := false, if 0 <= age < WIN then WIN - age else 1;
    }

    /** `rl_bump_tokens`. */
    method BumpTokens(now: int, n: int)
      requires Valid() && now > 0 && now >= last
      modifies this`log, this`last, ring
      ensures Valid() && log == if n <= 0 then old(log) else old(log) + [Event(now, 0, n)]
      ensures old(Limited(log, rpm)) ==> Limited(log, rpm)
    {
      hide Limited;
      if n > 0 {
        if Limited(log, rpm) {
          StaysLimited(log, last, rpm, Event(now, 0, n));
        }
        Bump(now, 0, n);
      }
    }
  }

  lemma {:induction false} TimePasses(log: seq<Event>, last: int, now: int)
    requires Ticking(log, last) && last <= now
    ensures Ticking(log, now)
  {
  }

  /** The events on the first `n` slots have been seen. */
  predicate AgeTo(log: seq<Event>, now: int, age: int, n: nat) {
    && (forall k :: 0 <= k < |log| && InWindow(log[k], now) && log[k].sec % WIN < n ==> now - log[k].sec <= age)
    && (age == -1 || exists k :: 0 <= k < |log| && InWindow(log[k], now) && now - log[k].sec == age)
  }

  lemma {:induction false} SameSecond(a: int, b: int)
    requires a <= b < a + WIN && a % WIN == b % WIN
    ensures a == b
  {
  }

  /** An event of the window that falls on slot `i` is of the second the slot holds. */
  lemma {:induction false} SlotSees(s: Slot, i: nat, log: seq<Event>, last: int, now: int, k: nat)
    requires SlotOk(s, i, log, last) && last <= now && k < |log| && InWindow(log[k], now) && log[k].sec % WIN == i
    ensures s.sec != 0 && log[k].sec == s.sec
  {
    if s.sec != 0 {
      SameSecond(log[k].sec, s.sec);
    }
  }

  /** And the other way round. */
  lemma {:induction false} SlotHolds(s: Slot, i: nat, log: seq<Event>, last: int) returns (k: nat)
    requires SlotOk(s, i, log, last) && s.sec != 0
    ensures k < |log| && log[k].sec == s.sec <= last && s.sec % WIN == i
  {
    k :| 0 <= k < |log| && log[k].sec == s.sec;
  }

  lemma {:induction false} SlotAge(s: Slot, i: nat, log: seq<Event>, last: int, now: int, age: int)
    requires SlotOk(s, i, log, last) && last <= now && i < WIN && AgeTo(log, now, age, i) && -1 <= age
    ensures
      var a := now - s.sec;
      AgeTo(log, now, if s.sec != 0 && a < WIN && (age < 0 || a > age) then a else age, i + 1)
  {
    hide SlotOk;
    forall k | 0 <= k < |log| && InWindow(log[k], now) && log[k].sec % WIN == i
      ensures s.sec != 0 && log[k].sec == s.sec
    {
      SlotSees(s, i, log, last, now, k);
    }
    if s.sec != 0 && now - s.sec < WIN {
      var k := SlotHolds(s, i, log, last);
      assert InWindow(log[k], now);
    }
  }

  lemma {:induction false} SecondOf(s: Slot, i: nat, log: seq<Event>, last: int)
    requires SlotOk(s, i, log, last) && s.sec != 0
    ensures 0 < s.sec <= last
  {
  }

  lemma {:induction false} AllSlots(log: seq<Event>, now: int, age: int)
    requires AgeTo(log, now, age, WIN)
    ensures OldestAge(log, now, age)
  {
  }
}
