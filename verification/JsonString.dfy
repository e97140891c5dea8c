/**
  What JSON itself makes of the strings that the HTTP layer writes and reads: section 7 of RFC 8259, against
  the escaping of `sse_on_token` (serve/router_http.c) and `json_str_unescape` (serve/json.h).
*/
module JsonString {
  import Json

  datatype Option<T> = None | Some(value: T)

  predicate IsHex(c: char) {
    '0' <= c <= '9' || 'a' <= c <= 'f' || 'A' <= c <= 'F'
  }

  function Hex(c: char): (n: nat)
    requires IsHex(c)
  {
    if c <= '9' then c as int - '0' as int
    else if c <= 'F' then c as int - 'A' as int + 10
    else c as int - 'a' as int + 10
  }

  /** What a backslash and `c` stand for, `u` aside. */
  function TwoCharEscape(c: char): (u: Option<nat>) {
    match c
    case '"' => Some(0x22)
    case '\\' => Some(0x5C)
    case '/' => Some(0x2F)
    case 'b' => Some(0x08)
    case 'f' => Some(0x0C)
    case 'n' => Some(0x0A)
    case 'r' => Some(0x0D)
    case 't' => Some(0x09)
    case _ => None
  }

  /** The code unit a string's content begins with and the number of characters that write it. */
  function First(e: string): (r: Option<(nat, nat)>)
    requires e != ""
    ensures r.Some? ==> 0 < r.value.1 <= |e|
  {
    if e[0] < ' ' || e[0] == '"' then None
    else if e[0] != '\\' then Some((e[0] as int, 1))
    else if |e| >= 6 && e[1] == 'u' && forall i :: 2 <= i < 6 ==> IsHex(e[i]) then
      Some((((Hex(e[2]) * 16 + Hex(e[3])) * 16 + Hex(e[4])) * 16 + Hex(e[5]), 6))
    else if |e| >= 2 && TwoCharEscape(e[1]).Some? then Some((TwoCharEscape(e[1]).value, 2))
    else None
  }

  /** The code units of a string, from its content between the quotes; none when JSON does not allow that content. */
  function Units(e: string): (u: Option<seq<nat>>) {
    if e == "" then Some([])
    else
      var f := First(e);
      if f.None? then None
      else
        var rest := Units(e[f.value.1..]);
        if rest.None? then None else Some([f.value.0] + rest.value)
  }

  function Codes(x: string): (u: seq<nat>)
    ensures |u| == |x|
  {
    if x == "" then [] else [x[0] as int] + Codes(x[1..])
  }

  // ----- writing -----

  /** Of the control characters only line feed, carriage return and tab occur. */
  predicate Writable(x: string) {
    forall i :: 0 <= i < |x| ==> x[i] >= ' ' || x[i] in "\n\r\t"
  }

  lemma {:induction false} EscapedFirst(c: char, e: string)
    ensures
      var x := Json.EscapeChar(c);
      && First(x + e) == (if c >= ' ' || c in "\n\r\t" then Some((c as int, |x|)) else None)
      && (x + e)[|x|..] == e && x != ""
  {
    var y := Json.EscapeChar(c) + e;
    assert |Json.EscapeChar(c)| == 1 ==> y[0] == c && y[1..] == e;
    assert |Json.EscapeChar(c)| == 2 ==> y[0] == '\\' && y[2..] == e;
  }

  /** An escaped text is a JSON string if and only if it has no other control characters, and it then stands for the
      text; either way it is one line, as an event needs. */
  lemma {:induction false} EscapeIsJson(x: string)
    ensures Units(Json.Escape(x)) == if Writable(x) then Some(Codes(x)) else None
    ensures '\n' !in Json.Escape(x) && '\r' !in Json.Escape(x)
  {
    if x != "" {
      EscapeIsJson(x[1..]);
      EscapedFirst(x[0], Json.Escape(x[1..]));
      assert Writable(x) <==> (x[0] >= ' ' || x[0] in "\n\r\t") && Writable(x[1..]) by {
        assert forall i :: 0 < i < |x| ==> x[i] == x[1..][i - 1];
      }
    }
  }

  // ----- reading -----

  /** A valid content uses none of the escapes for a backspace, a form feed or a code unit in hexadecimal. */
  predicate Simple(e: string) {
    e == "" || (First(e).Some? && (e[0] == '\\' && |e| >= 2 ==> e[1] !in "bfu") && Simple(e[First(e).value.1..]))
  }

  lemma {:induction false} NoEscape(e: string)
    requires |e| >= 4 && forall i :: 0 <= i < 4 ==> IsHex(e[i])
    ensures Json.Unescape(e) == e[..4] + Json.Unescape(e[4..])
  {
    assert e[1..][1..] == e[2..] && e[2..][1..] == e[3..] && e[3..][1..] == e[4..];
    assert Json.Unescape(e[2..]) == [e[2]] + ([e[3]] + Json.Unescape(e[4..]));
  }

  /** What `json_str_unescape` makes of the first code unit. */
  lemma {:induction false} UnescapedFirst(e: string)
    requires e != "" && First(e).Some?
    ensures
      var (u, n) := First(e).value;
      var rest := Json.Unescape(e[n..]);
      if e[0] == '\\' && e[1] == 'u' then |Json.Unescape(e)| == 5 + |rest|
      else
        && Json.Unescape(e) == [if e[0] == '\\' then Json.Named(e[1]) else e[0]] + rest
        && ((if e[0] == '\\' then Json.Named(e[1]) else e[0]) as int == u <==> e[0] != '\\' || e[1] !in "bf")
  {
    if e[0] == '\\' && e[1] == 'u' {
      NoEscape(e[2..]);
      assert e[2..][4..] == e[6..];
    }
  }

  lemma {:induction false} NotShorter(e: string)
    requires Units(e).Some?
    ensures |Json.Unescape(e)| >= |Units(e).value|
  {
    if e != "" {
      UnescapedFirst(e);
      NotShorter(e[First(e).value.1..]);
    }
  }

  /** A valid string is read as what it stands for if and only if it is simple. */
  lemma {:induction false} UnescapeExactly(e: string)
    requires Units(e).Some?
    ensures Codes(Json.Unescape(e)) == Units(e).value <==> Simple(e)
  {
    if e != "" {
      var (u, n) := First(e).value;
      var rest, x := e[n..], Json.Unescape(e);
      UnescapedFirst(e);
      UnescapeExactly(rest);
      NotShorter(rest);
      if !(e[0] == '\\' && e[1] == 'u') {
        assert x[1..] == Json.Unescape(rest);
        assert Units(e).value[1..] == Units(rest).value && Codes(x)[1..] == Codes(x[1..]);
      }
    }
  }
}
