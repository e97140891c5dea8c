/**
  Streaming generated bytes as server-sent events (serve/router_http.c): every event carries
  whole UTF-8 characters only, an unfinished tail waits for the next payload.  Bytes are
  characters with codes below 256.
*/
module Sse {
  import Json

  const BUF := 512

  /** The length a lead byte announces (RFC 3629 section 3); 0 for a byte that cannot lead. */
  function Need(c: char): (n: nat)
    ensures n <= 4
  {
    var b := c as int % 256;
    if b < 0x80 then 1
    else if b / 32 == 6 then 2
    else if b / 16 == 14 then 3
    else if b / 8 == 30 then 4
    else 0
  }

  /** Where the scan for complete characters stops, from position `i` on. */
  function Complete(s: string, i: nat): (n: nat)
    requires i <= |s|
    ensures i <= n <= |s|
    decreases |s| - i
  {
    if i == |s| then i
    else
      var k := Need(s[i]);
      if k == 0 then Complete(s, i + 1)
      else if i + k > |s| then i
      else Complete(s, i + k)
  }

  /** `utf8_complete_len`. */
  method Utf8CompleteLen(buf: string) returns (i: nat)
    ensures i == Complete(buf, 0)
  {
    i := 0;
    while i < |buf|
      invariant i <= |buf| && Complete(buf, i) == Complete(buf, 0)
      decreases |buf| - i
    {
      var need := Need(buf[i]);
      if need == 0 {
        i := i + 1;
        continue;
      }
      if i + need > |buf| {
        break;
      }
      i := i + need;
    }
  }

  /** At most three bytes are held back. */
  lemma {:induction false} TailIsShort(s: string, i: nat)
    requires i <= |s|
    ensures |s| - Complete(s, i) <= 3
    decreases |s| - i
  {
    if i < |s| {
      var k := Need(s[i]);
      if k == 0 {
        TailIsShort(s, i + 1);
      } else if i + k <= |s| {
        TailIsShort(s, i + k);
      }
    }
  }

  /** More bytes do not change where the scan has been: it resumes where it stopped. */
  lemma {:induction false} Resumes(s: string, p: string, i: nat)
    requires i <= |s|
    ensures Complete(s + p, i) == Complete(s + p, Complete(s, i))
    decreases |s| - i
  {
    hide Need;
    if i < |s| {
      assert (s + p)[i] == s[i];
      var k := Need(s[i]);
      if k == 0 {
        Resumes(s, p, i + 1);
      } else if i + k <= |s| {
        Resumes(s, p, i + k);
      }
    }
  }

  lemma {:induction false} Shifted(a: string, b: string, i: nat)
    requires i <= |b|
    ensures Complete(a + b, |a| + i) == |a| + Complete(b, i)
    decreases |b| - i
  {
    hide Need;
    if i < |b| {
      assert (a + b)[|a| + i] == b[i];
      var k := Need(b[i]);
      if k == 0 {
        Shifted(a, b, i + 1);
      } else if i + k <= |b| {
        Shifted(a, b, i + k);
      }
    }
  }

  /** A complete prefix is complete on its own. */
  lemma {:induction false} PrefixComplete(s: string, i: nat)
    requires i <= |s|
    ensures Complete(s[..Complete(s, i)], i) == Complete(s, i)
    decreases |s| - i
  {
    var n := Complete(s, i);
    if i < n {
      assert s[..n][i] == s[i];
      var k := Need(s[i]);
      PrefixComplete(s, if k == 0 then i + 1 else i + k);
    }
  }

  // ----- UTF-8 -----

  /** A Unicode scalar value. */
  predicate ScalarValue(n: nat) {
    n < 0xD800 || 0xE000 <= n <= 0x10FFFF
  }

  /** The bytes of one character (RFC 3629 section 3). */
  function EncodeOne(n: nat): (x: string)
    requires ScalarValue(n)
    ensures 1 <= |x| <= 4
  {
    if n < 0x80 then [n as char]
    else if n < 0x800 then [(0xC0 + n / 0x40) as char, (0x80 + n % 0x40) as char]
    else if n < 0x10000 then
      [(0xE0 + n / 0x1000) as char, (0x80 + n / 0x40 % 0x40) as char, (0x80 + n % 0x40) as char]
    else
      [(0xF0 + n / 0x40000) as char, (0x80 + n / 0x1000 % 0x40) as char, (0x80 + n / 0x40 % 0x40) as char,
       (0x80 + n % 0x40) as char]
  }

  predicate IsText(cs: seq<nat>) {
    forall i :: 0 <= i < |cs| ==> ScalarValue(cs[i])
  }

  function Encode(cs: seq<nat>): (x: string)
    requires IsText(cs)
  {
    if cs == [] then "" else EncodeOne(cs[0]) + Encode(cs[1..])
  }

  lemma {:induction false} LeadTells(n: nat)
    requires ScalarValue(n)
    ensures Need(EncodeOne(n)[0]) == |EncodeOne(n)|
  {
    if n < 0x80 {
      LeadByte(n);
    } else if n < 0x800 {
      LeadByte(0xC0 + n / 0x40);
    } else if n < 0x10000 {
      LeadByte(0xE0 + n / 0x1000);
    } else {
      LeadByte(0xF0 + n / 0x40000);
    }
    hide Need;
  }

  lemma {:induction false} LeadByte(b: nat)
    requires b < 256
    ensures Need(b as char) == if b < 0x80 then 1 else if 0xC0 <= b < 0xE0 then 2 else if 0xE0 <= b < 0xF0 then 3
                               else if 0xF0 <= b < 0xF8 then 4 else 0
  {
  }

  /** The scan of a text that breaks off inside a character stops right in front of it. */
  lemma {:induction false} StopsAtCharacter(cs: seq<nat>, n: nat, t: string)
    requires IsText(cs) && ScalarValue(n) && t < EncodeOne(n)
    ensures Complete(Encode(cs) + t, 0) == |Encode(cs)|
  {
    hide EncodeOne, Need;
    if cs == [] {
      assert Encode(cs) + t == t;
      LeadTells(n);
      if t != "" { assert t[0] == EncodeOne(n)[0]; }
    } else {
      var x, rest := EncodeOne(cs[0]), Encode(cs[1..]) + t;
      LeadTells(cs[0]);
      StopsAtCharacter(cs[1..], n, t);
      assert Encode(cs) + t == x + rest;
      Shifted(x, rest, 0);
    }
  }

  lemma {:induction false} EncodeAppend(a: seq<nat>, b: seq<nat>)
    requires IsText(a) && IsText(b)
    ensures Encode(a + b) == Encode(a) + Encode(b)
  {
    hide EncodeOne;
    if a == [] {
      assert a + b == b;
    } else {
      assert (a + b)[1..] == a[1..] + b;
      EncodeAppend(a[1..], b);
    }
  }

  /** Any beginning of a text is some whole characters and the beginning of one more. */
  lemma {:induction false} Beginning(cs: seq<nat>, m: nat) returns (i: nat, t: string)
    requires IsText(cs) && m <= |Encode(cs)|
    ensures i <= |cs| && Encode(cs)[..m] == Encode(cs[..i]) + t
    ensures if i == |cs| then t == "" else t < EncodeOne(cs[i])
  {
    hide EncodeOne;
    if cs == [] {
      i, t := 0, "";
    } else {
      var x := EncodeOne(cs[0]);
      if m < |x| {
        i, t := 0, x[..m];
        assert Encode(cs)[..m] == x[..m];
      } else {
        i, t := Beginning(cs[1..], m - |x|);
        i := i + 1;
        assert Encode(cs)[..m] == x + Encode(cs[1..])[..m - |x|];
        assert cs[..i][1..] == cs[1..][..i - 1] && cs[..i][0] == cs[0];
        assert Encode(cs[..i]) == x + Encode(cs[1..][..i - 1]);
        assert x + (Encode(cs[1..][..i - 1]) + t) == Encode(cs[..i]) + t;
      }
    }
  }

  /** The complete part of any beginning of a text are its whole characters. */
  lemma {:induction false} CompleteIsWhole(cs: seq<nat>, m: nat) returns (i: nat)
    requires IsText(cs) && m <= |Encode(cs)|
    ensures i <= |cs| && |Encode(cs[..i])| <= m
    ensures Complete(Encode(cs)[..m], 0) == |Encode(cs[..i])| && Encode(cs)[..|Encode(cs[..i])|] == Encode(cs[..i])
  {
    hide EncodeOne, Encode, Complete;
    var t;
    i, t := Beginning(cs, m);
    StopsAtCharacter(cs[..i], if i < |cs| then cs[i] else 0, t);
    assert Encode(cs)[..m][..|Encode(cs[..i])|] == Encode(cs[..i]);
  }

  /** The bytes are those of whole characters. */
  ghost predicate WholeText(x: string) {
    exists ds: seq<nat> :: IsText(ds) && x == Encode(ds)
  }

  /** The bytes begin some text. */
  ghost predicate BeginsText(s: string) {
    exists cs: seq<nat> :: IsText(cs) && s <= Encode(cs)
  }

  /** Between two states of a stream that begins a text, whole characters are emitted. */
  lemma {:induction false} EmitsWhole(cs: seq<nat>, emitted: string, stream: string, x: string, more: string)
    requires IsText(cs) && stream + more <= Encode(cs)
    requires emitted == stream[..Complete(stream, 0)]
    requires emitted + x == (stream + more)[..Complete(stream + more, 0)]
    ensures WholeText(x)
  {
    hide EncodeOne, Encode, Complete;
    var s, m, n := Encode(cs), |stream|, |stream + more|;
    assert stream == s[..m] && stream + more == s[..n];
    var i := CompleteIsWhole(cs, m);
    var j := CompleteIsWhole(cs, n);
    var a, b := Encode(cs[..i]), Encode(cs[..j]);
    assert emitted == a && emitted + x == b;
    if i <= j {
      var ds := cs[i..j];
      assert cs[..j] == cs[..i] + ds;
      EncodeAppend(cs[..i], ds);
      assert x == b[|a|..] == Encode(ds);
    } else {
      var ds := cs[j..i];
      assert cs[..i] == cs[..j] + ds;
      EncodeAppend(cs[..j], ds);
      assert |x| == 0;
      NoCharacters();
      assert x == Encode([]);
    }
  }

  lemma {:induction false} NoCharacters()
    ensures IsText([]) && Encode([]) == ""
  {
  }

  // ----- the stream -----

  /** What one payload emits and leaves pending. */
  function Chunk(pending: string, payload: string): (r: (string, string)) {
    var buf := if |payload| < BUF - |pending| then pending + payload else "";
    var n := Complete(buf, 0);
    (buf[..n], buf[n..])
  }

  function Join(ps: seq<string>): (s: string) {
    if ps == [] then "" else Join(ps[..|ps| - 1]) + ps[|ps| - 1]
  }

  /** A run over the payloads: everything emitted, and what is pending. */
  function Run(ps: seq<string>): (r: (string, string)) {
    if ps == [] then ("", "")
    else
      var (e, p) := Run(ps[..|ps| - 1]);
      var (x, q) := Chunk(p, ps[|ps| - 1]);
      (e + x, q)
  }

  /** The state after a stream: its complete part is out, the rest is pending. */
  predicate Settled(emitted: string, pending: string, stream: string) {
    var n := Complete(stream, 0);
    emitted == stream[..n] && pending == stream[n..] && |pending| <= 3
  }

  /** One payload keeps the state the stream's. */
  lemma {:induction false} ChunkSettles(emitted: string, pending: string, stream: string, payload: string)
    requires Settled(emitted, pending, stream) && |payload| < BUF - |pending|
    ensures
      var (x, q) := Chunk(pending, payload);
      Settled(emitted + x, q, stream + payload)
  {
    hide Complete;
    var buf, whole := pending + payload, stream + payload;
    assert stream == emitted + pending;
    assert whole == emitted + buf;
    Resumes(stream, payload, 0);
    Shifted(emitted, buf, 0);
    TailIsShort(whole, 0);
    Cut(emitted, buf, Complete(buf, 0));
  }

  lemma {:induction false} Cut(a: string, b: string, m: nat)
    requires m <= |b|
    ensures (a + b)[..|a| + m] == a + b[..m] && (a + b)[|a| + m..] == b[m..]
  {
  }

  lemma {:induction false} SettledShort(emitted: string, pending: string, stream: string)
    requires Settled(emitted, pending, stream)
    ensures |pending| <= 3
  {
  }

  lemma {:induction false} NothingSettled()
    ensures Settled("", "", "")
  {
  }

  /** For every cut of a stream into payloads under 509 bytes, what is emitted is the stream's
      complete part, what is pending the rest, at most three bytes: both depend on the stream only. */
  lemma {:induction false} CutsDoNotMatter(ps: seq<string>)
    requires forall i :: 0 <= i < |ps| ==> |ps[i]| < 509
    ensures Settled(Run(ps).0, Run(ps).1, Join(ps))
  {
    if ps == [] {
      NothingSettled();
    } else {
      var front := ps[..|ps| - 1];
      CutsDoNotMatter(front);
      ChunkSettles(Run(front).0, Run(front).1, Join(front), ps[|ps| - 1]);
    }
  }

  // ----- the callback -----

  /** What a client reads from the events: their contents unescaped, one after another. */
  function Received(sent: seq<string>): (s: string) {
    if sent == [] then "" else Received(sent[..|sent| - 1]) + Json.Unescape(sent[|sent| - 1])
  }

  lemma {:induction false} ReceivedMore(sent: seq<string>, e: string)
    ensures Received(sent + [e]) == Received(sent) + Json.Unescape(e)
  {
    assert (sent + [e])[..|sent|] == sent;
  }

  /** The escaping loop. */
  method Escaped(buf: string) returns (e: string)
    ensures e == Json.Escape(buf)
  {
    hide Json.EscapeChar;
    var escaped := new char[2 * |buf| + 1];
    var o := 0;
    for i := 0 to |buf|
      invariant o <= 2 * i && escaped[..o] + Json.Escape(buf[i..]) == Json.Escape(buf)
    {
      ghost var done := escaped[..o];
      assert buf[i..][1..] == buf[i + 1..];
      var x := Json.EscapeChar(buf[i]);
      EscapeWidth(buf[i]);
      escaped[o] := x[0];
      if |x| == 2 {
        escaped[o + 1] := x[1];
      }
      o := o + |x|;
      assert escaped[..o] == done + x;
      assert (done + x) + Json.Escape(buf[i + 1..]) == done + (x + Json.Escape(buf[i + 1..]));
    }
    assert buf[|buf|..] == "";
    e := escaped[..o];
  }

  lemma {:induction false} EscapeWidth(c: char)
    ensures 1 <= |Json.EscapeChar(c)| <= 2
  {
  }

  class SseCtx {
    const pending: array<char>
    var pendingLen: nat
    var tokens: nat
    var sent: seq<string>
    ghost var stream: string

    ghost predicate Valid()
      reads this, pending
    {
      pending.Length == 8 && pendingLen <= 3 && Settled(Received(sent), pending[..pendingLen], stream)
    }

    constructor ()
      ensures Valid() && sent == [] && stream == "" && tokens == 0 && fresh(pending)
    {
      pending := new char[8];
      pendingLen, tokens, sent, stream := 0, 0, [], "";
      new;
      NothingSettled();
    }

    /** What is not yet complete moves to the front of the buffer. */
    method Keep(rest: string)
      requires |rest| <= pending.Length
      modifies pending, this`pendingLen
      ensures pendingLen == |rest| && pending[..|rest|] == rest
    {
      pendingLen := |rest|;
      for i := 0 to |rest|
        invariant pending[..i] == rest[..i] && pendingLen == |rest|
      {
        pending[i] := rest[i];
      }
    }

    /** `sse_on_token`: after it a client has received exactly the complete part of the stream.
        A payload that does not fit the buffer is dropped with what was pending. */
    method OnToken(utf8: string)
      requires Valid()
      modifies this, pending
      ensures Valid() && tokens == old(tokens) + 1
      ensures stream == if |utf8| < BUF - old(pendingLen) then old(stream) + utf8 else old(Received(sent))
      ensures old(sent) <= sent && |sent| <= |old(sent)| + 1
      ensures |sent| > |old(sent)| && BeginsText(old(stream) + utf8) ==> WholeText(Json.Unescape(sent[|sent| - 1]))
    {
      SettledShort(Received(sent), pending[..pendingLen], stream);
      hide *;
      tokens := tokens + 1;
      var buf := if |utf8| < BUF - pendingLen then pending[..pendingLen] + utf8 else "";
      var complete := Utf8CompleteLen(buf);
      TokenSent(sent, pending[..pendingLen], stream, utf8, buf);
      stream := if |utf8| < BUF - pendingLen then stream + utf8 else Received(sent);
      Keep(buf[complete..]);
      if complete > 0 {
        var e := Escaped(buf[..complete]);
        sent := sent + [e];
      }
    }
  }

  /** What a client has received, and what is pending, settle the stream with the payload, or without payload and
      pending bytes when they do not fit. */
  lemma {:induction false} TokenSent(sent: seq<string>, pending: string, stream: string, payload: string, buf: string)
    requires Settled(Received(sent), pending, stream)
    requires buf == if |payload| < BUF - |pending| then pending + payload else ""
    ensures
      var n := Complete(buf, 0);
      var e := Json.Escape(buf[..n]);
      && |buf[n..]| <= 3
      && Settled(Received(if n > 0 then sent + [e] else sent), buf[n..],
                 if |payload| < BUF - |pending| then stream + payload else Received(sent))
      && (BeginsText(stream + payload) ==> WholeText(Json.Unescape(e)))
  {
    hide Complete, Json.Escape, Json.Unescape, Settled, Received, WholeText, BeginsText;
    var n := Complete(buf, 0);
    TokenSettles(Received(sent), pending, stream, payload, buf);
    TokenWhole(Received(sent), pending, stream, payload, buf);
    Json.UnescapeUndoesEscape(buf[..n]);
    ReceivedMore(sent, Json.Escape(buf[..n]));
    assert n == 0 ==> Received(sent) + buf[..n] == Received(sent);
  }

  /** The buffer a payload makes, split at its complete part, settles the stream with the payload, or
      without payload and pending bytes when they do not fit. */
  lemma {:induction false} TokenSettles(emitted: string, pending: string, stream: string, payload: string, buf: string)
    requires Settled(emitted, pending, stream)
    requires buf == if |payload| < BUF - |pending| then pending + payload else ""
    ensures
      var n := Complete(buf, 0);
      && n <= |buf| && |buf[n..]| <= 3
      && Settled(emitted + buf[..n], buf[n..], if |payload| < BUF - |pending| then stream + payload else emitted)
  {
    hide Complete;
    if |payload| < BUF - |pending| {
      ChunkSettles(emitted, pending, stream, payload);
    } else {
      DropSettles(emitted, pending, stream);
      assert emitted + "" == emitted;
    }
  }

  /** While the payloads come out of a text, an event carries whole characters. */
  lemma {:induction false} TokenWhole(emitted: string, pending: string, stream: string, payload: string, buf: string)
    requires Settled(emitted, pending, stream)
    requires buf == if |payload| < BUF - |pending| then pending + payload else ""
    ensures BeginsText(stream + payload) ==> WholeText(buf[..Complete(buf, 0)])
  {
    TokenSettles(emitted, pending, stream, payload, buf);
    hide Complete, Encode, EncodeOne;
    if BeginsText(stream + payload) {
      var cs :| IsText(cs) && stream + payload <= Encode(cs);
      if |payload| < BUF - |pending| {
        EmitsWhole(cs, emitted, stream, buf[..Complete(buf, 0)], payload);
      } else {
        NoCharacters();
        assert buf[..Complete(buf, 0)] == Encode([]);
      }
    }
  }

  lemma {:induction false} DropSettles(emitted: string, pending: string, stream: string)
    requires Settled(emitted, pending, stream)
    ensures Complete("", 0) == 0 && Settled(emitted, "", emitted)
  {
    PrefixComplete(stream, 0);
  }
}
