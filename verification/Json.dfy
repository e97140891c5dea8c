/**
  The JSON text queries of the HTTP layer (serve/json.h) and the string escaping that feeds
  them (serve/router_http.c): values are found by scanning the text, without building a
  tree.  A text is a C string: reading at or beyond its end gives NUL.
*/
module Json {
  const NUL: char := '\0'

  function At(s: string, p: nat): (c: char) {
    if p < |s| then s[p] else NUL
  }

  datatype Type = TNull | TBool | TNum | TStr | TArr | TObj

  /** A value's type and where its text lies (for a string, its content without quotes). */
  datatype Val = Val(typ: Type, start: nat, len: nat)

  datatype Option<T> = None | Some(value: T)

  // ----- scanning -----

  predicate IsWs(c: char) {
    c == ' ' || c == '\t' || c == '\n' || c == '\r'
  }

  function SkipWs(s: string, p: nat): (q: nat)
    ensures p <= q
    decreases |s| - p
  {
    if p < |s| && IsWs(s[p]) then SkipWs(s, p + 1) else p
  }

  /** To the closing quote of a string, from inside it: a backslash takes its successor along. */
  function SkipBody(s: string, p: nat): (q: nat)
    ensures p <= q
    decreases |s| - p
  {
    if At(s, p) == NUL || At(s, p) == '"' then p
    else if At(s, p) == '\\' then SkipBody(s, p + 2)
    else SkipBody(s, p + 1)
  }

  function PastQuote(s: string, q: nat): (r: nat) {
    if At(s, q) == '"' then q + 1 else q
  }

  predicate EndsScalar(c: char) {
    c == NUL || c == ',' || c == '}' || c == ']' || c == ' ' || c == '\t' || c == '\n'
  }

  function ScalarEnd(s: string, p: nat): (q: nat)
    ensures p <= q
    decreases |s| - p
  {
    if EndsScalar(At(s, p)) then p else ScalarEnd(s, p + 1)
  }

  /** The bracket-counting scan of an object or array. */
  function Scan(s: string, p: nat, depth: int): (q: nat)
    ensures p <= q
    decreases |s| - p
  {
    var c := At(s, p);
    if c == NUL then p
    else if c == '{' || c == '[' then Scan(s, p + 1, depth + 1)
    else if c == '}' || c == ']' then (if depth == 1 then p + 1 else Scan(s, p + 1, depth - 1))
    else if c == '"' then Scan(s, PastQuote(s, SkipBody(s, p + 1)), depth)
    else Scan(s, p + 1, depth)
  }

  /** `json_parse`: the value at `p` and the position after it. */
  function Parse(s: string, p0: nat): (r: (Val, nat))
    ensures p0 <= r.1
  {
    var p := SkipWs(s, p0);
    var c := At(s, p);
    if c == '{' || c == '[' then
      var q := Scan(s, p, 0);
      (Val(if c == '{' then TObj else TArr, p, q - p), q)
    else if c == '"' then
      var q := SkipBody(s, p + 1);
      (Val(TStr, p + 1, q - (p + 1)), PastQuote(s, q))
    else
      var q := ScalarEnd(s, p);
      (Val(if c == 't' || c == 'f' then TBool else if c == 'n' then TNull else TNum, p, q - p), q)
  }

  predicate KeyIs(s: string, ks: nat, ke: nat, key: string)
    requires ks <= ke
  {
    ke <= |s| && s[ks..ke] == key
  }

  /** The member loop of `json_find_in_obj`, at a member's opening quote. */
  function Member(s: string, p: nat, key: string): (v: Option<Val>)
    decreases |s| - p
  {
    if At(s, p) != '"' then None
    else
      var ke := SkipBody(s, p + 1);
      var q := SkipWs(s, PastQuote(s, ke));
      if At(s, q) != ':' then None
      else
        var (v, r) := Parse(s, SkipWs(s, q + 1));
        if KeyIs(s, p + 1, ke, key) then Some(v)
        else
          var t := SkipWs(s, r);
          if At(s, t) == ',' then Member(s, SkipWs(s, t + 1), key) else None
  }

  function FindInObj(s: string, obj: nat, key: string): (v: Option<Val>) {
    var p := SkipWs(s, obj + 1);
    if At(s, p) == '}' then None else Member(s, p, key)
  }

  predicate IsDigit(c: char) {
    '0' <= c <= '9'
  }

  predicate StartsValue(c: char) {
    c == '"' || c == '{' || c == '[' || c == 't' || c == 'f' || c == 'n' || IsDigit(c) || c == '-'
  }

  /** The array loop of `json_find`: skip `n` elements, then read one. */
  function Nth(s: string, p0: nat, n: nat): (v: Option<Val>)
    decreases n
  {
    var p := SkipWs(s, p0);
    if At(s, p) == ']' then None
    else if n == 0 then Some(Parse(s, p).0)
    else if !StartsValue(At(s, p)) then None
    else
      var q := SkipWs(s, Parse(s, p).1);
      if At(s, q) == ',' then Nth(s, SkipWs(s, q + 1), n - 1)
      else if At(s, q) == ']' then None
      else Nth(s, q, n - 1)
  }

  function Atoi(d: string): (n: nat) {
    if d == [] || !IsDigit(d[0]) then 0 else AtoiFrom(d, 0)
  }

  function AtoiFrom(d: string, acc: nat): (n: nat)
    decreases |d|
  {
    if d == [] || !IsDigit(d[0]) then acc else AtoiFrom(d[1..], 10 * acc + (d[0] as int - '0' as int))
  }

  /** The position of the next dot, or the length. */
  function Dot(path: string): (n: nat)
    ensures n <= |path| && (n < |path| ==> path[n] == '.')
    ensures forall j :: 0 <= j < n ==> path[j] != '.'
  {
    if path == [] || path[0] == '.' then 0 else 1 + Dot(path[1..])
  }

  const SEG_MAX := 128

  function Step(s: string, cur: nat, seg: string): (v: Option<Val>) {
    if seg != [] && IsDigit(seg[0]) then
      if At(s, cur) != '[' then None else Nth(s, SkipWs(s, cur + 1), Atoi(seg))
    else FindInObj(s, cur, seg)
  }

  /** `json_find`. */
  function Find(s: string, cur: nat, path: string): (v: Option<Val>)
    decreases |path|
  {
    if path == [] then None
    else
      var n := Dot(path);
      if n >= SEG_MAX then None
      else
        var rest := if n < |path| then path[n + 1..] else [];
        match Step(s, cur, path[..n])
        case None => None
        case Some(v) => if rest == [] then Some(v) else Find(s, v.start, rest)
  }

  // ----- trees and their text -----

  datatype Tree =
    | Null | Bool(b: bool) | Num(text: string) | Str(raw: string)
    | Arr(elems: Elems) | Obj(members: Members)

  /** The elements of an array with the white space around them; `gap` fills an empty array. */
  datatype Elems = ENil(gap: string) | ECons(pre: string, v: Tree, post: string, rest: Elems)

  /** The members of an object with the white space around key, colon and value.  Keys and strings
      are kept as they are written between the quotes. */
  datatype Members =
    | MNil(gap: string)
    | MCons(pre: string, key: string, mid: string, sp: string, v: Tree, post: string, rest: Members)

  /** The content of a JSON string (RFC 8259 section 7): no bare quote, no backslash without a
      successor, no NUL. */
  predicate RawOk(raw: string) {
    raw == [] ||
    if raw[0] == '\\' then |raw| >= 2 && raw[1] != NUL && RawOk(raw[2..])
    else raw[0] != '"' && raw[0] != NUL && RawOk(raw[1..])
  }

  predicate NumChar(c: char) {
    IsDigit(c) || c == '-' || c == '+' || c == '.' || c == 'e' || c == 'E'
  }

  /** What a number's text looks like to the scanner (RFC 8259 section 6 allows no more). */
  predicate NumOk(text: string) {
    text != [] && (IsDigit(text[0]) || text[0] == '-') && forall j :: 0 <= j < |text| ==> NumChar(text[j])
  }

  predicate TreeOk(t: Tree) {
    match t
    case Num(text) => NumOk(text)
    case Str(raw) => RawOk(raw)
    case Arr(es) => ElemsOk(es)
    case Obj(ms) => MembersOk(ms)
    case _ => true
  }

  /** White space between tokens (RFC 8259 section 2). */
  predicate WsOk(w: string) {
    forall j :: 0 <= j < |w| ==> w[j] == ' ' || w[j] == '\t' || w[j] == '\n' || w[j] == '\r'
  }

  predicate Scalar(t: Tree) {
    t.Null? || t.Bool? || t.Num?
  }

  /** White space behind a value: no carriage return right behind a scalar. */
  predicate PostOk(t: Tree, w: string) {
    WsOk(w) && (Scalar(t) && w != [] ==> w[0] != '\r')
  }

  predicate ElemsOk(es: Elems) {
    match es
    case ENil(gap) => WsOk(gap)
    case ECons(pre, v, post, rest) => WsOk(pre) && TreeOk(v) && PostOk(v, post) && ElemsOk(rest)
  }

  predicate MembersOk(ms: Members) {
    match ms
    case MNil(gap) => WsOk(gap)
    case MCons(pre, key, mid, sp, v, post, rest) =>
      WsOk(pre) && RawOk(key) && WsOk(mid) && WsOk(sp) && TreeOk(v) && PostOk(v, post) && MembersOk(rest)
  }

  function Quoted(raw: string): (x: string) {
    ['"'] + (raw + ['"'])
  }

  function Print(t: Tree): (x: string) {
    match t
    case Null => "null"
    case Bool(b) => if b then "true" else "false"
    case Num(text) => text
    case Str(raw) => Quoted(raw)
    case Arr(es) => "[" + (PrintElems(es) + "]")
    case Obj(ms) => "{" + (PrintMembers(ms) + "}")
  }

  function PrintElems(es: Elems): (x: string) {
    match es
    case ENil(gap) => gap
    case ECons(pre, v, post, rest) =>
      pre + (Print(v) + (post + (if rest.ENil? then "" else "," + PrintElems(rest))))
  }

  function PrintMembers(ms: Members): (x: string) {
    match ms
    case MNil(gap) => gap
    case MCons(pre, key, mid, sp, v, post, rest) =>
      pre + (Quoted(key) + (mid + (":" + (sp + (Print(v) + (post
      + (if rest.MNil? then "" else "," + PrintMembers(rest))))))))
  }

  function TypeOf(t: Tree): (typ: Type) {
    match t
    case Null => TNull
    case Bool(_) => TBool
    case Num(_) => TNum
    case Str(_) => TStr
    case Arr(_) => TArr
    case Obj(_) => TObj
  }

  /** The text a `JsonVal` points at. */
  function Content(t: Tree): (x: string) {
    if t.Str? then t.raw else Print(t)
  }

  /** `x` stands in the text at `p`. */
  predicate TextAt(s: string, p: nat, x: string) {
    p + |x| <= |s| && s[p..p + |x|] == x
  }

  lemma {:induction false} TextSplit(s: string, p: nat, a: string, b: string)
    requires TextAt(s, p, a + b)
    ensures TextAt(s, p, a) && TextAt(s, p + |a|, b)
  {
    assert s[p..p + |a|] == (a + b)[..|a|];
    assert s[p + |a|..p + |a| + |b|] == (a + b)[|a|..];
  }

  lemma {:induction false} TextChar(s: string, p: nat, x: string, j: nat)
    requires TextAt(s, p, x) && j < |x|
    ensures At(s, p + j) == x[j]
  {
    assert s[p..p + |x|][j] == s[p + j];
  }

  lemma {:induction false} BracketText(s: string, p: nat, open: string, x: string, close: string)
    requires TextAt(s, p, open + (x + close)) && |open| == |close| == 1
    ensures At(s, p) == open[0] && TextAt(s, p + 1, x) && At(s, p + 1 + |x|) == close[0]
  {
    TextSplit(s, p, open, x + close);
    TextSplit(s, p + 1, x, close);
    TextChar(s, p, open, 0);
    TextChar(s, p + 1 + |x|, close, 0);
  }

  // ----- the scanner steps over whole values -----

  lemma {:induction false} BodyEnds(s: string, p: nat, raw: string)
    requires RawOk(raw) && TextAt(s, p, raw + ['"'])
    ensures SkipBody(s, p) == p + |raw| && At(s, p + |raw|) == '"'
    decreases |raw|
  {
    var x := raw + ['"'];
    TextChar(s, p, x, 0);
    if raw != [] {
      var k := if raw[0] == '\\' then 2 else 1;
      assert x == raw[..k] + (raw[k..] + ['"']);
      TextSplit(s, p, raw[..k], raw[k..] + ['"']);
      BodyEnds(s, p + k, raw[k..]);
    }
  }

  predicate Plain(c: char) {
    c != NUL && c != '{' && c != '[' && c != '}' && c != ']' && c != '"'
  }

  lemma {:induction false} ScanPlain(s: string, p: nat, x: string, depth: int)
    requires TextAt(s, p, x) && forall j :: 0 <= j < |x| ==> Plain(x[j])
    ensures Scan(s, p, depth) == Scan(s, p + |x|, depth)
    decreases |x|
  {
    if x != [] {
      TextChar(s, p, x, 0);
      assert x == [x[0]] + x[1..];
      TextSplit(s, p, [x[0]], x[1..]);
      ScanPlain(s, p + 1, x[1..], depth);
    }
  }

  lemma {:induction false} ScanQuoted(s: string, p: nat, raw: string, depth: int)
    requires RawOk(raw) && TextAt(s, p, Quoted(raw))
    ensures Scan(s, p, depth) == Scan(s, p + |raw| + 2, depth)
  {
    TextSplit(s, p, ['"'], raw + ['"']);
    TextChar(s, p, Quoted(raw), 0);
    BodyEnds(s, p + 1, raw);
  }

  /** Where the parts of an array, an object, an element and a member stand. */
  lemma {:induction false} ArrText(s: string, p: nat, es: Elems)
    requires TextAt(s, p, Print(Arr(es)))
    ensures
      var x := PrintElems(es);
      && At(s, p) == '[' && TextAt(s, p + 1, x) && At(s, p + 1 + |x|) == ']' && |Print(Arr(es))| == |x| + 2
  {
    BracketText(s, p, "[", PrintElems(es), "]");
  }

  lemma {:induction false} ObjText(s: string, p: nat, ms: Members)
    requires TextAt(s, p, Print(Obj(ms)))
    ensures
      var x := PrintMembers(ms);
      && At(s, p) == '{' && TextAt(s, p + 1, x) && At(s, p + 1 + |x|) == '}' && |Print(Obj(ms))| == |x| + 2
  {
    BracketText(s, p, "{", PrintMembers(ms), "}");
  }

  lemma {:induction false} ElemShape(es: Elems)
    requires es.ECons?
    ensures PrintElems(es)
            == es.pre + (Print(es.v) + (es.post + (if es.rest.ENil? then "" else "," + PrintElems(es.rest))))
  {
    hide Print;
  }

  /** What follows the last white space: nothing, or a comma and the rest. */
  lemma {:induction false} TailText(s: string, p: nat, w: string, last: bool, rest: string)
    requires TextAt(s, p, w + (if last then "" else "," + rest))
    ensures TextAt(s, p, w)
    ensures !last ==> At(s, p + |w|) == ',' && TextAt(s, p + |w|, ",") && TextAt(s, p + |w| + 1, rest)
    ensures |w + (if last then "" else "," + rest)| == |w| + (if last then 0 else 1 + |rest|)
  {
    hide *;
    if last {
      assert w + "" == w;
    } else {
      TextSplit(s, p, w, "," + rest);
      TextSplit(s, p + |w|, ",", rest);
      TextChar(s, p + |w|, ",", 0);
    }
  }

  /** Where the value of an element ends, and where its white space does. */
  function ElemEnd(p: nat, es: Elems): (q: nat)
    requires es.ECons?
  {
    p + |es.pre| + |Print(es.v)|
  }

  lemma {:induction false} ElemText(s: string, p: nat, es: Elems)
    requires es.ECons? && TextAt(s, p, PrintElems(es))
    ensures
      var (a, q) := (p + |es.pre|, ElemEnd(p, es));
      var r := q + |es.post|;
      && TextAt(s, p, es.pre) && TextAt(s, a, Print(es.v)) && TextAt(s, q, es.post)
      && (if es.rest.ENil? then p + |PrintElems(es)| == r
          else At(s, r) == ',' && TextAt(s, r, ",") && TextAt(s, r + 1, PrintElems(es.rest))
               && p + |PrintElems(es)| == r + 1 + |PrintElems(es.rest)|)
  {
    hide *;
    ElemEndIs(p, es);
    ElemShape(es);
    ValueText(s, p, es.pre, Print(es.v), es.post, es.rest.ENil?, PrintElems(es.rest));
  }

  lemma {:induction false} ElemEndIs(p: nat, es: Elems)
    requires es.ECons?
    ensures ElemEnd(p, es) == p + |es.pre| + |Print(es.v)|
  {
  }

  lemma {:induction false} MemberShape(ms: Members)
    requires ms.MCons?
    ensures
      var tail := ms.post + (if ms.rest.MNil? then "" else "," + PrintMembers(ms.rest));
      PrintMembers(ms) == ms.pre + (Quoted(ms.key) + (ms.mid + (":" + (ms.sp + (Print(ms.v) + tail)))))
    ensures |Quoted(ms.key)| == |ms.key| + 2
  {
    hide Print;
  }

  /** Where a member's key, colon, value and value end stand. */
  datatype Spot = Spot(key: nat, colon: nat, v: nat, q: nat)

  function Spots(p: nat, ms: Members): (a: Spot)
    requires ms.MCons?
  {
    var k := p + |ms.pre|;
    var c := k + |ms.key| + 2 + |ms.mid|;
    var v := c + 1 + |ms.sp|;
    Spot(k, c, v, v + |Print(ms.v)|)
  }

  lemma {:induction false} MemberText(s: string, p: nat, ms: Members)
    requires ms.MCons? && TextAt(s, p, PrintMembers(ms))
    ensures
      var a := Spots(p, ms);
      var r := a.q + |ms.post|;
      && TextAt(s, p, ms.pre) && TextAt(s, a.key, Quoted(ms.key)) && TextAt(s, a.key + |ms.key| + 2, ms.mid)
      && TextAt(s, a.colon, ":") && At(s, a.colon) == ':' && TextAt(s, a.colon + 1, ms.sp)
      && TextAt(s, a.v, Print(ms.v)) && TextAt(s, a.q, ms.post)
      && (if ms.rest.MNil? then p + |PrintMembers(ms)| == r
          else At(s, r) == ',' && TextAt(s, r, ",") && TextAt(s, r + 1, PrintMembers(ms.rest))
               && p + |PrintMembers(ms)| == r + 1 + |PrintMembers(ms.rest)|)
  {
    hide *;
    SpotsAre(p, ms);
    MemberShape(ms);
    var k, rest := Quoted(ms.key), PrintMembers(ms.rest);
    var tail := ms.post + (if ms.rest.MNil? then "" else "," + rest);
    var value := ms.sp + (Print(ms.v) + tail);
    TextSplit(s, p, ms.pre, k + (ms.mid + (":" + value)));
    KeyText(s, p + |ms.pre|, k, ms.mid, value);
    ValueText(s, p + |ms.pre| + |k| + |ms.mid| + 1, ms.sp, Print(ms.v), ms.post, ms.rest.MNil?, rest);
  }

  /** The key and the colon of a member. */
  lemma {:induction false} KeyText(s: string, p: nat, k: string, mid: string, value: string)
    requires TextAt(s, p, k + (mid + (":" + value)))
    ensures TextAt(s, p, k) && TextAt(s, p + |k|, mid) && TextAt(s, p + |k| + |mid|, ":") && At(s, p + |k| + |mid|) == ':'
    ensures TextAt(s, p + |k| + |mid| + 1, value)
    ensures |k + (mid + (":" + value))| == |k| + |mid| + 1 + |value|
  {
    hide *;
    TextSplit(s, p, k, mid + (":" + value));
    TextSplit(s, p + |k|, mid, ":" + value);
    TextSplit(s, p + |k| + |mid|, ":", value);
    TextChar(s, p + |k| + |mid|, ":", 0);
  }

  /** A value between its white space, and what follows. */
  lemma {:induction false} ValueText(s: string, p: nat, pre: string, v: string, post: string, last: bool, rest: string)
    requires TextAt(s, p, pre + (v + (post + (if last then "" else "," + rest))))
    ensures TextAt(s, p, pre) && TextAt(s, p + |pre|, v) && TextAt(s, p + |pre| + |v|, post)
    ensures
      var r := p + |pre| + |v| + |post|;
      !last ==> At(s, r) == ',' && TextAt(s, r, ",") && TextAt(s, r + 1, rest)
    ensures |pre + (v + (post + (if last then "" else "," + rest)))|
            == |pre| + |v| + |post| + (if last then 0 else 1 + |rest|)
  {
    hide *;
    var tail := post + (if last then "" else "," + rest);
    TextSplit(s, p, pre, v + tail);
    TextSplit(s, p + |pre|, v, tail);
    TailText(s, p + |pre| + |v|, post, last, rest);
  }

  lemma {:induction false} SpotsAre(p: nat, ms: Members)
    requires ms.MCons?
    ensures
      var a := Spots(p, ms);
      && a.key == p + |ms.pre| && a.colon == a.key + |ms.key| + 2 + |ms.mid| && a.v == a.colon + 1 + |ms.sp|
      && a.q == a.v + |Print(ms.v)|
  {
  }

  // ----- white space -----

  /** Skipping white space steps over it. */
  lemma {:induction false} SkipWsOver(s: string, p: nat, w: string)
    requires TextAt(s, p, w) && WsOk(w)
    ensures SkipWs(s, p) == SkipWs(s, p + |w|)
    decreases |w|
  {
    if w != [] {
      TextChar(s, p, w, 0);
      assert w == [w[0]] + w[1..];
      TextSplit(s, p, [w[0]], w[1..]);
      SkipWsOver(s, p + 1, w[1..]);
    }
  }

  /** White space in front of something that is none. */
  lemma {:induction false} SkipWsTo(s: string, p: nat, w: string)
    requires TextAt(s, p, w) && WsOk(w) && !IsWs(At(s, p + |w|))
    ensures SkipWs(s, p) == p + |w|
  {
    SkipWsOver(s, p, w);
    NoWs(s, p + |w|);
  }

  lemma {:induction false} NoWs(s: string, p: nat)
    requires !IsWs(At(s, p))
    ensures SkipWs(s, p) == p
  {
  }

  lemma {:induction false} SkipWsStops(s: string, p: nat)
    ensures !IsWs(At(s, SkipWs(s, p))) && SkipWs(s, SkipWs(s, p)) == SkipWs(s, p)
    decreases |s| - p
  {
    if p < |s| && IsWs(s[p]) { SkipWsStops(s, p + 1); }
  }

  lemma {:induction false} ScanWs(s: string, p: nat, w: string, depth: int)
    requires TextAt(s, p, w) && WsOk(w)
    ensures Scan(s, p, depth) == Scan(s, p + |w|, depth)
  {
    ScanPlain(s, p, w, depth);
  }

  lemma {:induction false} ScanBracket(s: string, p: nat, depth: int)
    ensures At(s, p) == '[' || At(s, p) == '{' ==> Scan(s, p, depth) == Scan(s, p + 1, depth + 1)
    ensures At(s, p) == ']' || At(s, p) == '}' ==>
      Scan(s, p, depth) == if depth == 1 then p + 1 else Scan(s, p + 1, depth - 1)
  {
  }

  lemma {:induction false} ScanComma(s: string, p: nat, x: string, depth: int)
    requires TextAt(s, p, x) && (x == "," || x == ":")
    ensures Scan(s, p, depth) == Scan(s, p + 1, depth)
  {
    ScanPlain(s, p, x, depth);
  }

  lemma {:induction false} ScanKey(s: string, p: nat, key: string, mid: string, depth: int)
    requires RawOk(key) && TextAt(s, p, Quoted(key)) && WsOk(mid) && TextAt(s, p + |key| + 2, mid)
    requires TextAt(s, p + |key| + 2 + |mid|, ":")
    ensures Scan(s, p, depth) == Scan(s, p + |key| + 2 + |mid| + 1, depth)
  {
    hide *;
    ScanQuoted(s, p, key, depth);
    ScanWs(s, p + |key| + 2, mid, depth);
    ScanComma(s, p + |key| + 2 + |mid|, ":", depth);
  }

  /** Inside brackets the scan steps over a printed value with the depth unchanged. */
  lemma {:induction false} ScanValue(s: string, p: nat, t: Tree, depth: int)
    requires TreeOk(t) && TextAt(s, p, Print(t)) && depth >= 1
    ensures Scan(s, p, depth) == Scan(s, p + |Print(t)|, depth)
    decreases t, 1
  {
    hide TextAt, SkipBody, Scan, PrintElems, PrintMembers;
    match t
    case Null => ScanPlain(s, p, "null", depth);
    case Bool(b) => ScanPlain(s, p, Print(t), depth);
    case Num(text) => ScanPlain(s, p, text, depth);
    case Str(raw) => ScanQuoted(s, p, raw, depth);
    case Arr(es) =>
      ArrText(s, p, es);
      ScanBracket(s, p, depth);
      ScanElems(s, p + 1, es, depth + 1);
      ScanBracket(s, p + 1 + |PrintElems(es)|, depth + 1);
    case Obj(ms) =>
      ObjText(s, p, ms);
      ScanBracket(s, p, depth);
      ScanMembers(s, p + 1, ms, depth + 1);
      ScanBracket(s, p + 1 + |PrintMembers(ms)|, depth + 1);
  }

  lemma {:induction false} ScanElems(s: string, p: nat, es: Elems, depth: int)
    requires ElemsOk(es) && TextAt(s, p, PrintElems(es)) && depth >= 1
    ensures Scan(s, p, depth) == Scan(s, p + |PrintElems(es)|, depth)
    decreases es, 0
  {
    hide *;
    ElemsParts(es);
    if es.ENil? {
      ScanWs(s, p, es.gap, depth);
    } else {
      ElemText(s, p, es);
      ElemEndIs(p, es);
      ScanSpaced(s, p, es.pre, es.v, es.post, depth);
      if !es.rest.ENil? {
        var r := ElemEnd(p, es) + |es.post|;
        ScanComma(s, r, ",", depth);
        ScanElems(s, r + 1, es.rest, depth);
      }
    }
  }

  /** A value with the white space around it. */
  lemma {:induction false} ScanSpaced(s: string, p: nat, pre: string, t: Tree, post: string, depth: int)
    requires WsOk(pre) && TreeOk(t) && WsOk(post) && depth >= 1
    requires TextAt(s, p, pre) && TextAt(s, p + |pre|, Print(t)) && TextAt(s, p + |pre| + |Print(t)|, post)
    ensures Scan(s, p, depth) == Scan(s, p + |pre| + |Print(t)| + |post|, depth)
    decreases t, 2
  {
    hide *;
    ScanWs(s, p, pre, depth);
    ScanValue(s, p + |pre|, t, depth);
    ScanWs(s, p + |pre| + |Print(t)|, post, depth);
  }

  lemma {:induction false} ElemsParts(es: Elems)
    requires ElemsOk(es)
    ensures es.ENil? ==> WsOk(es.gap) && PrintElems(es) == es.gap
    ensures es.ECons? ==> WsOk(es.pre) && TreeOk(es.v) && PostOk(es.v, es.post) && WsOk(es.post) && ElemsOk(es.rest)
  {
  }

  lemma {:induction false} ScanMembers(s: string, p: nat, ms: Members, depth: int)
    requires MembersOk(ms) && TextAt(s, p, PrintMembers(ms)) && depth >= 1
    ensures Scan(s, p, depth) == Scan(s, p + |PrintMembers(ms)|, depth)
    decreases ms, 0
  {
    hide *;
    MembersParts(ms);
    if ms.MNil? {
      ScanWs(s, p, ms.gap, depth);
    } else {
      MemberText(s, p, ms);
      SpotsAre(p, ms);
      var a := Spots(p, ms);
      ScanWs(s, p, ms.pre, depth);
      ScanKey(s, a.key, ms.key, ms.mid, depth);
      ScanSpaced(s, a.colon + 1, ms.sp, ms.v, ms.post, depth);
      if !ms.rest.MNil? {
        ScanComma(s, a.q + |ms.post|, ",", depth);
        ScanMembers(s, a.q + |ms.post| + 1, ms.rest, depth);
      }
    }
  }

  lemma {:induction false} MembersParts(ms: Members)
    requires MembersOk(ms)
    ensures ms.MNil? ==> WsOk(ms.gap) && PrintMembers(ms) == ms.gap
    ensures ms.MCons? ==>
      && WsOk(ms.pre) && RawOk(ms.key) && WsOk(ms.mid) && WsOk(ms.sp) && TreeOk(ms.v) && PostOk(ms.v, ms.post)
      && WsOk(ms.post) && MembersOk(ms.rest)
  {
  }

  // ----- parsing a printed value -----

  /** The value is followed, behind white space, by the end of the text or by a delimiter. */
  predicate Delimited(s: string, q: nat) {
    var c := At(s, SkipWs(s, q));
    c == NUL || c == ',' || c == '}' || c == ']'
  }

  /** The text of `t` stands at `p`; a scalar is not directly followed by a carriage return. */
  predicate Sits(s: string, p: nat, t: Tree) {
    var q := p + |Print(t)|;
    TreeOk(t) && TextAt(s, p, Print(t)) && Delimited(s, q) && (Scalar(t) ==> At(s, q) != '\r')
  }

  /** A value found in the text is the tree: its type and exactly its text. */
  predicate Denotes(s: string, v: Val, t: Tree) {
    v.typ == TypeOf(t) && v.start + v.len <= |s| && s[v.start..v.start + v.len] == Content(t)
  }

  lemma {:induction false} ScalarEnds(s: string, p: nat, x: string)
    requires TextAt(s, p, x) && EndsScalar(At(s, p + |x|)) && forall j :: 0 <= j < |x| ==> !EndsScalar(x[j])
    ensures ScalarEnd(s, p) == p + |x|
    decreases |x|
  {
    if x != [] {
      TextChar(s, p, x, 0);
      assert x == [x[0]] + x[1..];
      TextSplit(s, p, [x[0]], x[1..]);
      ScalarEnds(s, p + 1, x[1..]);
    }
  }

  lemma {:induction false} FirstChar(s: string, p: nat, t: Tree)
    requires TreeOk(t) && TextAt(s, p, Print(t))
    ensures Print(t) != [] && StartsValue(At(s, p)) && !IsWs(At(s, p)) && SkipWs(s, p) == p
    ensures At(s, p) == '[' <==> t.Arr?
    ensures At(s, p) == '{' <==> t.Obj?
    ensures At(s, p) == '"' <==> t.Str?
    ensures At(s, p) == 'n' <==> t.Null?
    ensures At(s, p) == 't' || At(s, p) == 'f' <==> t.Bool?
  {
    assert Print(t) != [];
    TextChar(s, p, Print(t), 0);
  }

  lemma {:induction false} SliceOf(s: string, p: nat, x: string)
    requires TextAt(s, p, x)
    ensures p + |x| <= |s| && s[p..p + |x|] == x
  {
  }

  lemma {:induction false} ParseBracket(s: string, p: nat)
    requires At(s, p) == '[' || At(s, p) == '{'
    ensures
      var q := Scan(s, p + 1, 1);
      Parse(s, p) == (Val(if At(s, p) == '{' then TObj else TArr, p, q - p), q)
  {
    ScanBracket(s, p, 0);
  }

  lemma {:induction false} ParseQuoted(s: string, p: nat, raw: string)
    requires RawOk(raw) && TextAt(s, p, Quoted(raw))
    ensures Parse(s, p) == (Val(TStr, p + 1, |raw|), p + |raw| + 2) && TextAt(s, p + 1, raw)
  {
    TextSplit(s, p, ['"'], raw + ['"']);
    TextSplit(s, p + 1, raw, ['"']);
    TextChar(s, p, ['"'], 0);
    BodyEnds(s, p + 1, raw);
  }

  lemma {:induction false} ParseScalar(s: string, p: nat, t: Tree)
    requires Sits(s, p, t) && Scalar(t)
    ensures Parse(s, p) == (Val(TypeOf(t), p, |Print(t)|), p + |Print(t)|)
  {
    FirstChar(s, p, t);
    DelimitedEnds(s, p + |Print(t)|);
    ScalarEnds(s, p, Print(t));
    hide ScalarEnd, SkipWs, Scan, SkipBody;
  }

  lemma {:induction false} DelimitedEnds(s: string, q: nat)
    requires Delimited(s, q)
    ensures EndsScalar(At(s, q)) || At(s, q) == '\r'
  {
  }

  /** The one restriction on white space is exact: with a value's end behind the white space, a
      scalar's text is read to its end if and only if no carriage return follows it directly. */
  lemma {:induction false} ScalarStops(s: string, p: nat, t: Tree)
    requires TreeOk(t) && Scalar(t) && TextAt(s, p, Print(t)) && Delimited(s, p + |Print(t)|)
    ensures Parse(s, p).1 == p + |Print(t)| <==> At(s, p + |Print(t)|) != '\r'
  {
    var x := Print(t);
    var q := p + |x|;
    if At(s, q) != '\r' {
      ParseScalar(s, p, t);
    } else {
      FirstChar(s, p, t);
      ScalarPasses(s, p, x);
      hide Scan, SkipBody, Print;
    }
  }

  lemma {:induction false} ScalarPasses(s: string, p: nat, x: string)
    requires TextAt(s, p, x) && At(s, p + |x|) == '\r' && forall j :: 0 <= j < |x| ==> !EndsScalar(x[j])
    ensures ScalarEnd(s, p) > p + |x|
    decreases |x|
  {
    if x != [] {
      TextChar(s, p, x, 0);
      assert x == [x[0]] + x[1..];
      TextSplit(s, p, [x[0]], x[1..]);
      ScalarPasses(s, p + 1, x[1..]);
    }
  }

  lemma {:induction false} ParseArr(s: string, p: nat, es: Elems)
    requires ElemsOk(es) && TextAt(s, p, Print(Arr(es)))
    ensures Parse(s, p) == (Val(TArr, p, |Print(Arr(es))|), p + |Print(Arr(es))|)
  {
    hide TextAt, Scan, Parse, PrintElems, Print, ElemsOk;
    ArrText(s, p, es);
    ParseBracket(s, p);
    ScanElems(s, p + 1, es, 1);
    ScanBracket(s, p + 1 + |PrintElems(es)|, 1);
  }

  lemma {:induction false} ParseObj(s: string, p: nat, ms: Members)
    requires MembersOk(ms) && TextAt(s, p, Print(Obj(ms)))
    ensures Parse(s, p) == (Val(TObj, p, |Print(Obj(ms))|), p + |Print(Obj(ms))|)
  {
    hide TextAt, Scan, Parse, PrintMembers, Print, MembersOk;
    ObjText(s, p, ms);
    ParseBracket(s, p);
    ScanMembers(s, p + 1, ms, 1);
    ScanBracket(s, p + 1 + |PrintMembers(ms)|, 1);
  }

  /** `json_parse` on a printed value stops exactly at its end and reports its type and text. */
  lemma {:induction false} ParseStopsAtEnd(s: string, p: nat, t: Tree)
    requires Sits(s, p, t)
    ensures Parse(s, p).1 == p + |Print(t)| && Denotes(s, Parse(s, p).0, t)
    ensures Parse(s, p).0.start == if t.Str? then p + 1 else p
  {
    SliceOf(s, p, Print(t));
    if t.Str? {
      ParseQuoted(s, p, t.raw);
      SliceOf(s, p + 1, t.raw);
    } else if t.Arr? {
      ParseArr(s, p, t.elems);
    } else if t.Obj? {
      ParseObj(s, p, t.members);
    } else {
      ParseScalar(s, p, t);
    }
    hide Parse, Print, TextAt;
  }

  // ----- path queries -----

  datatype Seg = Key(name: string) | Index(n: nat)

  function Digits(n: nat): (d: string) {
    var c := (n % 10 + '0' as int) as char;
    if n < 10 then [c] else Digits(n / 10) + [c]
  }

  function SegText(seg: Seg): (x: string) {
    match seg
    case Key(name) => name
    case Index(n) => Digits(n)
  }

  const INT_MAX := 0x7fff_ffff

  /** A name is not empty, does not start with a digit, holds no dot and no NUL; an index is a C int. */
  predicate SegOk(seg: Seg) {
    match seg
    case Key(name) =>
      && 0 < |name| < SEG_MAX && !IsDigit(name[0])
      && (forall j :: 0 <= j < |name| ==> name[j] != '.' && name[j] != NUL)
    case Index(n) => n <= INT_MAX
  }

  predicate PathOk(segs: seq<Seg>) {
    segs != [] && forall j :: 0 <= j < |segs| ==> SegOk(segs[j])
  }

  function PathText(segs: seq<Seg>): (x: string) {
    if segs == [] then ""
    else if |segs| == 1 then SegText(segs[0])
    else SegText(segs[0]) + ("." + PathText(segs[1..]))
  }

  function LookupKey(ms: Members, key: string): (t: Option<Tree>) {
    if ms.MNil? then None else if ms.key == key then Some(ms.v) else LookupKey(ms.rest, key)
  }

  function LookupIndex(es: Elems, n: nat): (t: Option<Tree>) {
    if es.ENil? then None else if n == 0 then Some(es.v) else LookupIndex(es.rest, n - 1)
  }

  function Child(t: Tree, seg: Seg): (u: Option<Tree>) {
    match seg
    case Key(name) => if t.Obj? then LookupKey(t.members, name) else None
    case Index(n) => if t.Arr? then LookupIndex(t.elems, n) else None
  }

  /** What a path means on the tree. */
  function Lookup(t: Tree, segs: seq<Seg>): (u: Option<Tree>)
    requires segs != []
    decreases |segs|
  {
    match Child(t, segs[0])
    case None => None
    case Some(u) => if |segs| == 1 then Some(u) else Lookup(u, segs[1..])
  }

  /** A string in which a key is looked for behind it: a first character, then only white space. */
  predicate KeyTrap(raw: string) {
    raw != [] && SkipWs(raw, 1) == |raw|
  }

  /** The same for a string that is the whole text. */
  predicate RootTrap(raw: string) {
    SkipWs(raw, 0) == |raw|
  }

  /** A string that an index takes for an array: it starts with a bracket that is not closed at once. */
  predicate IndexTrap(raw: string) {
    raw != [] && raw[0] == '[' && At(raw, SkipWs(raw, 1)) != ']'
  }

  predicate Trapped(raw: string, seg: Seg, root: bool) {
    match seg
    case Key(_) => if root then RootTrap(raw) else KeyTrap(raw)
    case Index(_) => !root && IndexTrap(raw)
  }

  /** No segment is applied to a string that is a trap for it. */
  predicate TrapFree(t: Tree, segs: seq<Seg>, root: bool)
    requires segs != []
    decreases |segs|
  {
    && (t.Str? ==> !Trapped(t.raw, segs[0], root))
    && (|segs| > 1 && Child(t, segs[0]).Some? ==> TrapFree(Child(t, segs[0]).value, segs[1..], false))
  }

  /** The value `v` is exactly the tree `t` standing in the text. */
  predicate Points(s: string, v: Val, t: Tree) {
    && Denotes(s, v, t)
    && (if t.Str? then v.start > 0 && Sits(s, v.start - 1, t) else Sits(s, v.start, t))
  }

  predicate Agrees(s: string, v: Option<Val>, t: Option<Tree>) {
    if t.None? then v.None? else v.Some? && Points(s, v.value, t.value)
  }

  lemma {:induction false} ParsePoints(s: string, p: nat, t: Tree)
    requires Sits(s, p, t)
    ensures Parse(s, p).1 == p + |Print(t)| && Points(s, Parse(s, p).0, t)
    ensures SkipWs(s, p) == p && StartsValue(At(s, p)) && At(s, p) != ']'
  {
    ParseStopsAtEnd(s, p, t);
    FirstChar(s, p, t);
  }

  /** One element read or skipped. */
  /** An element stands as a value between its white space. */
  lemma {:induction false} ElemSits(s: string, p: nat, es: Elems)
    requires es.ECons? && ElemsOk(es) && TextAt(s, p, PrintElems(es)) && At(s, p + |PrintElems(es)|) == ']'
    ensures
      var (a, q) := (p + |es.pre|, ElemEnd(p, es));
      var r := q + |es.post|;
      && Sits(s, a, es.v) && q == a + |Print(es.v)| && SkipWs(s, p) == a && SkipWs(s, q) == r
      && At(s, r) == (if es.rest.ENil? then ']' else ',')
  {
    hide *;
    ElemsParts(es);
    ElemEndIs(p, es);
    ElemText(s, p, es);
    ValueSits(s, p, es.pre, es.v, es.post);
  }

  /** A value between white space, in front of a delimiter. */
  lemma {:induction false} ValueSits(s: string, p: nat, pre: string, t: Tree, post: string)
    requires WsOk(pre) && TreeOk(t) && PostOk(t, post)
    requires TextAt(s, p, pre) && TextAt(s, p + |pre|, Print(t)) && TextAt(s, p + |pre| + |Print(t)|, post)
    requires var c := At(s, p + |pre| + |Print(t)| + |post|); c == ',' || c == ']' || c == '}'
    ensures
      var q := p + |pre| + |Print(t)|;
      Sits(s, p + |pre|, t) && SkipWs(s, p) == p + |pre| && SkipWs(s, q) == q + |post|
  {
    hide Print, TreeOk, SkipWs;
    var q := p + |pre| + |Print(t)|;
    FirstChar(s, p + |pre|, t);
    SkipWsTo(s, p, pre);
    SkipWsTo(s, q, post);
    if post != [] { TextChar(s, q, post, 0); }
    hide TextAt;
  }

  /** One turn of the element loop: the value at `a`, and what follows its white space at `r`. */
  lemma {:induction false} NthStep(s: string, p: nat, n: nat)
    requires StartsValue(At(s, SkipWs(s, p)))
    ensures
      var (v, q) := Parse(s, SkipWs(s, p));
      var r := SkipWs(s, q);
      && (n == 0 ==> Nth(s, p, n) == Some(v))
      && (n > 0 && At(s, r) == ',' ==> Nth(s, p, n) == Nth(s, SkipWs(s, r + 1), n - 1))
      && (n > 0 && At(s, r) == ']' ==> Nth(s, p, n) == None)
  {
    hide SkipWs, Parse;
  }

  /** One element read or skipped. */
  lemma {:induction false} NthTurn(s: string, p: nat, es: Elems, n: nat)
    requires es.ECons? && ElemsOk(es) && TextAt(s, p, PrintElems(es)) && At(s, p + |PrintElems(es)|) == ']'
    ensures
      var (a, r) := (p + |es.pre|, ElemEnd(p, es) + |es.post|);
      && Sits(s, a, es.v)
      && Nth(s, p, n) == (if n == 0 then Some(Parse(s, a).0) else if es.rest.ENil? then None else Nth(s, r + 1, n - 1))
      && (!es.rest.ENil? ==> TextAt(s, r + 1, PrintElems(es.rest))
                             && p + |PrintElems(es)| == r + 1 + |PrintElems(es.rest)|)
  {
    hide *;
    ElemText(s, p, es);
    ElemSits(s, p, es);
    ParsePoints(s, p + |es.pre|, es.v);
    NthStep(s, p, n);
    if n > 0 {
      NthWs(s, ElemEnd(p, es) + |es.post| + 1, n - 1);
    }
  }

  lemma {:induction false} NthWs(s: string, p: nat, n: nat)
    ensures Nth(s, SkipWs(s, p), n) == Nth(s, p, n)
  {
    SkipWsStops(s, p);
    hide SkipWs, Parse, StartsValue;
  }

  lemma {:induction false} NthFinds(s: string, p: nat, es: Elems, n: nat)
    requires ElemsOk(es) && TextAt(s, p, PrintElems(es)) && At(s, p + |PrintElems(es)|) == ']'
    ensures Agrees(s, Nth(s, p, n), LookupIndex(es, n))
    decreases es
  {
    hide Nth, Parse, Print, Points, Sits, RawOk, TreeOk, TextAt, At, SkipWs, PrintElems, ElemsOk, ElemEnd, StartsValue;
    ElemsParts(es);
    if es.ENil? {
      NthOfNone(s, p, es.gap, n);
    } else {
      NthTurn(s, p, es, n);
      ParsePoints(s, p + |es.pre|, es.v);
      if n > 0 && !es.rest.ENil? {
        NthFinds(s, ElemEnd(p, es) + |es.post| + 1, es.rest, n - 1);
      }
    }
  }

  lemma {:induction false} NthOfNone(s: string, p: nat, gap: string, n: nat)
    requires WsOk(gap) && TextAt(s, p, gap) && At(s, p + |gap|) == ']'
    ensures Nth(s, p, n) == None
  {
    SkipWsTo(s, p, gap);
    hide SkipWs;
  }

  /** What the member loop reads of its first member. */
  lemma {:induction false} KeyRead(s: string, p: nat, key: string)
    requires RawOk(key) && TextAt(s, p, Quoted(key))
    ensures At(s, p) == '"' && SkipBody(s, p + 1) == p + 1 + |key| && PastQuote(s, p + 1 + |key|) == p + |key| + 2
    ensures p + 1 + |key| <= |s| && s[p + 1..p + 1 + |key|] == key
  {
    ParseQuoted(s, p, key);
    TextSplit(s, p, ['"'], key + ['"']);
    TextChar(s, p, Quoted(key), 0);
    BodyEnds(s, p + 1, key);
  }

  /** One turn of the member loop over a printed member. */
  lemma {:induction false} MemberSits(s: string, p: nat, ms: Members)
    requires ms.MCons? && MembersOk(ms) && TextAt(s, p, PrintMembers(ms)) && At(s, p + |PrintMembers(ms)|) == '}'
    ensures
      var a := Spots(p, ms);
      var r := a.q + |ms.post|;
      && Sits(s, a.v, ms.v) && a.q == a.v + |Print(ms.v)| && SkipWs(s, p) == a.key && At(s, a.key) == '"'
      && SkipWs(s, a.key + |ms.key| + 2) == a.colon && SkipWs(s, a.colon + 1) == a.v && SkipWs(s, a.q) == r
      && At(s, r) == (if ms.rest.MNil? then '}' else ',')
  {
    hide *;
    MembersParts(ms);
    SpotsAre(p, ms);
    MemberText(s, p, ms);
    var a := Spots(p, ms);
    KeyRead(s, a.key, ms.key);
    PlainTokens();
    SkipWsTo(s, p, ms.pre);
    SkipWsTo(s, a.key + |ms.key| + 2, ms.mid);
    ValueSits(s, a.colon + 1, ms.sp, ms.v, ms.post);
  }

  lemma {:induction false} PlainTokens()
    ensures !IsWs('"') && !IsWs(':')
  {
  }

  /** One turn of the member loop. */
  lemma {:induction false} MemberStep(s: string, p: nat, key: string)
    requires At(s, p) == '"' && At(s, SkipWs(s, PastQuote(s, SkipBody(s, p + 1)))) == ':'
    ensures
      var ke := SkipBody(s, p + 1);
      var (v, r) := Parse(s, SkipWs(s, SkipWs(s, PastQuote(s, ke)) + 1));
      var t := SkipWs(s, r);
      Member(s, p, key) == if KeyIs(s, p + 1, ke, key) then Some(v)
                           else if At(s, t) == ',' then Member(s, SkipWs(s, t + 1), key) else None
  {
    hide SkipWs, Parse, SkipBody, PastQuote, KeyIs;
  }

  lemma {:induction false} KeyIsThat(s: string, ks: nat, ke: nat, key: string, x: string)
    requires ks <= ke <= |s| && s[ks..ke] == x
    ensures KeyIs(s, ks, ke, key) <==> x == key
  {
  }

  lemma {:induction false} MemberTurn(s: string, p: nat, ms: Members, key: string)
    requires ms.MCons? && MembersOk(ms) && TextAt(s, p, PrintMembers(ms)) && At(s, p + |PrintMembers(ms)|) == '}'
    ensures
      var a := Spots(p, ms);
      var r := a.q + |ms.post|;
      && Sits(s, a.v, ms.v)
      && Member(s, a.key, key) == (if ms.key == key then Some(Parse(s, a.v).0)
                                   else if ms.rest.MNil? then None else Member(s, SkipWs(s, r + 1), key))
      && (!ms.rest.MNil? ==> TextAt(s, r + 1, PrintMembers(ms.rest))
                             && p + |PrintMembers(ms)| == r + 1 + |PrintMembers(ms.rest)|)
  {
    hide *;
    MembersParts(ms);
    MemberText(s, p, ms);
    MemberSits(s, p, ms);
    var k := Spots(p, ms).key;
    KeyRead(s, k, ms.key);
    KeyIsThat(s, k + 1, k + 1 + |ms.key|, key, ms.key);
    ParsePoints(s, Spots(p, ms).v, ms.v);
    MemberStep(s, k, key);
  }

  lemma {:induction false} MemberFinds(s: string, p: nat, ms: Members, key: string)
    requires ms.MCons? && MembersOk(ms) && TextAt(s, p, PrintMembers(ms)) && At(s, p + |PrintMembers(ms)|) == '}'
    ensures At(s, SkipWs(s, p)) == '"' && Agrees(s, Member(s, SkipWs(s, p), key), LookupKey(ms, key))
    decreases ms
  {
    hide Member, Parse, Print, PrintMembers, Points, Sits, TextAt, RawOk, TreeOk, MembersOk, SkipWs, Spots, Quoted, At,
      StartsValue;
    MembersParts(ms);
    MemberTurn(s, p, ms, key);
    MemberSits(s, p, ms);
    ParsePoints(s, Spots(p, ms).v, ms.v);
    if !ms.rest.MNil? {
      MemberFinds(s, Spots(p, ms).q + |ms.post| + 1, ms.rest, key);
    }
  }

  lemma {:induction false} ObjFinds(s: string, p: nat, ms: Members, key: string)
    requires Sits(s, p, Obj(ms))
    ensures Agrees(s, FindInObj(s, p, key), LookupKey(ms, key))
  {
    assert MembersOk(ms);
    MembersParts(ms);
    hide Member, Points, Print, SkipWs, MembersOk, PrintMembers;
    ObjText(s, p, ms);
    if ms.MNil? {
      SkipWsTo(s, p + 1, ms.gap);
    } else {
      hide TextAt;
      MemberFinds(s, p + 1, ms, key);
    }
  }

  lemma {:induction false} ArrFinds(s: string, p: nat, es: Elems, n: nat)
    requires Sits(s, p, Arr(es))
    ensures Agrees(s, Nth(s, SkipWs(s, p + 1), n), LookupIndex(es, n))
  {
    assert ElemsOk(es);
    hide Nth, Points, Print, SkipWs, ElemsOk, PrintElems;
    ArrText(s, p, es);
    NthFinds(s, p + 1, es, n);
    NthWs(s, p + 1, n);
  }

  lemma {:induction false} ScalarHasNoMember(s: string, p: nat, t: Tree, key: string)
    requires Sits(s, p, t) && Scalar(t)
    ensures FindInObj(s, p, key) == None
  {
    var x := Print(t);
    FirstChar(s, p, t);
    if |x| > 1 {
      TextChar(s, p, x, 1);
      NoWs(s, p + 1);
    }
    hide SkipWs, SkipBody, Parse, Member;
    MemberNeedsQuote(s, SkipWs(s, p + 1), key);
  }

  lemma {:induction false} NotAMember(s: string, p: nat, t: Tree, key: string)
    requires Sits(s, p, t)
    ensures Member(s, p, key) == None && SkipWs(s, p) == p && At(s, p) != '}'
  {
    hide SkipBody, RawOk, NumOk, PrintElems, PrintMembers;
    FirstChar(s, p, t);
    if t.Str? {
      KeyRead(s, p, t.raw);
      hide SkipWs, TextAt, Parse;
      NoColon(s, p, key, p + 1 + |t.raw|);
    } else {
      MemberNeedsQuote(s, p, key);
    }
  }

  lemma {:induction false} NoColon(s: string, p: nat, key: string, ke: nat)
    requires At(s, p) == '"' && SkipBody(s, p + 1) == ke && At(s, SkipWs(s, PastQuote(s, ke))) != ':'
    ensures Member(s, p, key) == None
  {
    hide SkipBody, SkipWs, PastQuote, Parse;
  }

  lemma {:induction false} ArrayHasNoMember(s: string, p: nat, es: Elems, key: string)
    requires Sits(s, p, Arr(es))
    ensures FindInObj(s, p, key) == None
  {
    hide *;
    ArrSits(s, p, es);
    ArrText(s, p, es);
    ElemsParts(es);
    BracketIsNoWs();
    var q := p + 1 + if es.ENil? then |es.gap| else |es.pre|;
    if es.ENil? {
      SkipWsTo(s, p + 1, es.gap);
      MemberNeedsQuote(s, q, key);
    } else {
      ElemSits(s, p + 1, es);
      NotAMember(s, q, es.v, key);
    }
    NoMemberAt(s, p, q, key);
  }

  lemma {:induction false} ArrSits(s: string, p: nat, es: Elems)
    requires Sits(s, p, Arr(es))
    ensures ElemsOk(es) && TextAt(s, p, Print(Arr(es)))
  {
    hide Print, TextAt, Delimited;
  }

  lemma {:induction false} BracketIsNoWs()
    ensures !IsWs(']')
  {
  }

  lemma {:induction false} NoMemberAt(s: string, p: nat, q: nat, key: string)
    requires SkipWs(s, p + 1) == q && Member(s, q, key) == None
    ensures FindInObj(s, p, key) == None
  {
    hide Member;
  }

  lemma {:induction false} MemberNeedsQuote(s: string, p: nat, key: string)
    requires At(s, p) != '"'
    ensures Member(s, p, key) == None
  {
  }

  lemma {:induction false} DigitsAre(n: nat)
    ensures Digits(n) != [] && forall j :: 0 <= j < |Digits(n)| ==> IsDigit(Digits(n)[j])
  {
    if n >= 10 {
      DigitsAre(n / 10);
    }
  }

  function Ten(k: nat): (n: nat) {
    if k == 0 then 1 else 10 * Ten(k - 1)
  }

  lemma {:induction false} DigitsShort(n: nat, k: nat)
    requires k >= 1 && n < Ten(k)
    ensures |Digits(n)| <= k
  {
    if n >= 10 {
      assert n / 10 < Ten(k - 1);
      DigitsShort(n / 10, k - 1);
    }
  }

  lemma {:induction false} AtoiExtends(d: string, c: char, acc: nat)
    requires IsDigit(c) && forall j :: 0 <= j < |d| ==> IsDigit(d[j])
    ensures AtoiFrom(d + [c], acc) == 10 * AtoiFrom(d, acc) + (c as int - '0' as int)
    decreases |d|
  {
    if d == [] {
      assert (d + [c])[1..] == [];
    } else {
      assert (d + [c])[1..] == d[1..] + [c];
      AtoiExtends(d[1..], c, 10 * acc + (d[0] as int - '0' as int));
    }
  }

  /** `atoi` of an index written in decimal is the index. */
  lemma {:induction false} AtoiOfDigits(n: nat)
    ensures AtoiFrom(Digits(n), 0) == n
  {
    var c := (n % 10 + '0' as int) as char;
    if n < 10 {
      assert [c][1..] == [];
    } else {
      AtoiOfDigits(n / 10);
      DigitsAre(n / 10);
      AtoiExtends(Digits(n / 10), c, 0);
    }
  }

  lemma {:induction false} SegTextOk(seg: Seg)
    requires SegOk(seg)
    ensures
      var x := SegText(seg);
      && 0 < |x| < SEG_MAX && (forall j :: 0 <= j < |x| ==> x[j] != '.')
      && (IsDigit(x[0]) <==> seg.Index?) && (seg.Index? ==> Atoi(x) == seg.n)
  {
    if seg.Index? {
      DigitsAre(seg.n);
      AtoiOfDigits(seg.n);
      assert Ten(10) == 10_000_000_000;
      DigitsShort(seg.n, 10);
    }
  }

  lemma {:induction false} StepFinds(s: string, p: nat, t: Tree, seg: Seg)
    requires Sits(s, p, t) && SegOk(seg) && !t.Str?
    ensures Agrees(s, Step(s, p, SegText(seg)), Child(t, seg))
  {
    SegTextOk(seg);
    FirstChar(s, p, t);
    hide Sits, FindInObj, Nth, SkipWs, Digits, Points;
    if seg.Index? {
      if t.Arr? {
        ArrFinds(s, p, t.elems, seg.n);
      }
    } else if t.Obj? {
      ObjFinds(s, p, t.members, seg.name);
    } else if t.Arr? {
      ArrayHasNoMember(s, p, t.elems, seg.name);
    } else {
      ScalarHasNoMember(s, p, t, seg.name);
    }
  }

  lemma {:induction false} DotFinds(x: string, y: string)
    requires forall j :: 0 <= j < |x| ==> x[j] != '.'
    requires y == [] || y[0] == '.'
    ensures Dot(x + y) == |x| && (x + y)[..|x|] == x
  {
    assert forall j :: 0 <= j < |x| ==> (x + y)[j] == x[j];
    assert y != [] ==> (x + y)[|x|] == y[0];
  }

  /** What one turn of the path loop takes from a path. */
  lemma {:induction false} PathSplit(segs: seq<Seg>)
    requires PathOk(segs)
    ensures
      var (x, path) := (SegText(segs[0]), PathText(segs));
      && |x| <= |path| && path != [] && Dot(path) == |x| < SEG_MAX && path[..|x|] == x
      && (|segs| == 1 ==> |x| == |path|)
      && (|segs| > 1 ==> |x| < |path| && path[|x| + 1..] == PathText(segs[1..]))
  {
    var x := SegText(segs[0]);
    SegTextOk(segs[0]);
    hide SegText, SegOk, Dot, IsDigit, Atoi;
    if |segs| == 1 {
      DotFinds(x, "");
      assert x + "" == x;
    } else {
      var rest := PathText(segs[1..]);
      DotFinds(x, "." + rest);
      assert (x + ("." + rest))[|x| + 1..] == rest;
    }
  }

  lemma {:induction false} PathNotEmpty(segs: seq<Seg>)
    requires PathOk(segs)
    ensures PathText(segs) != []
  {
    PathSplit(segs);
  }

  lemma {:induction false} PathRest(segs: seq<Seg>)
    requires PathOk(segs) && |segs| > 1
    ensures PathOk(segs[1..])
  {
  }

  /** One turn of the path loop. */
  lemma {:induction false} PathStep(s: string, p: nat, segs: seq<Seg>)
    requires PathOk(segs)
    ensures
      Find(s, p, PathText(segs))
      == match Step(s, p, SegText(segs[0]))
         case None => None
         case Some(v) => if |segs| == 1 then Some(v) else Find(s, v.start, PathText(segs[1..]))
  {
    hide Step, SegText, PathText;
    PathSplit(segs);
    if |segs| > 1 {
      PathRest(segs);
      PathNotEmpty(segs[1..]);
    }
  }

  // ----- segments applied to strings -----

  lemma {:induction false} StrText(s: string, p: nat, raw: string)
    requires Sits(s, p, Str(raw))
    ensures RawOk(raw) && TextAt(s, p + 1, raw + ['"']) && At(s, p) == '"' && At(s, p + 1 + |raw|) == '"'
    ensures Delimited(s, p + 2 + |raw|)
  {
    TextSplit(s, p, ['"'], raw + ['"']);
    TextChar(s, p, ['"'], 0);
    TextChar(s, p + 1, raw + ['"'], |raw|);
  }

  /** White space inside a string ends in it or at its closing quote. */
  lemma {:induction false} SkipWsInside(s: string, p: nat, raw: string, j: nat)
    requires TextAt(s, p, raw + ['"']) && j <= |raw|
    ensures j <= SkipWs(raw, j) <= |raw| && SkipWs(s, p + j) == p + SkipWs(raw, j)
    ensures SkipWs(raw, j) < |raw| ==> At(s, p + SkipWs(raw, j)) == raw[SkipWs(raw, j)] && !IsWs(raw[SkipWs(raw, j)])
    decreases |raw| - j
  {
    TextChar(s, p, raw + ['"'], j);
    if j < |raw| && IsWs(raw[j]) {
      SkipWsInside(s, p, raw, j + 1);
    }
  }

  /** Behind leading white space a string's content never goes on with a bare quote. */
  lemma {:induction false} NoBareQuote(raw: string)
    requires RawOk(raw) && SkipWs(raw, 0) < |raw|
    ensures raw[SkipWs(raw, 0)] != '"'
  {
    if IsWs(raw[0]) {
      SkipWsShift(raw, 1, 0);
      NoBareQuote(raw[1..]);
    }
  }

  lemma {:induction false} SkipWsShift(raw: string, k: nat, j: nat)
    requires k + j <= |raw|
    ensures SkipWs(raw, k + j) == k + SkipWs(raw[k..], j)
    decreases |raw| - j
  {
    if k + j < |raw| && IsWs(raw[k + j]) {
      SkipWsShift(raw, k, j + 1);
    }
  }

  /** Past its first character, too, unless that is a backslash in front of the quote. */
  lemma {:induction false} QuoteIsEscaped(raw: string)
    requires RawOk(raw) && raw != [] && SkipWs(raw, 1) < |raw| && raw[SkipWs(raw, 1)] == '"'
    ensures |raw| >= 2 && raw[0] == '\\' && raw[1] == '"'
  {
    if raw[0] != '\\' {
      SkipWsShift(raw, 1, 0);
      NoBareQuote(raw[1..]);
    } else if IsWs(raw[1]) {
      SkipWsShift(raw, 2, 0);
      NoBareQuote(raw[2..]);
    }
  }

  /** Looked for in a string that is no trap, a key is not found. */
  lemma {:induction false} NoKeyInside(s: string, p: nat, raw: string, key: string)
    requires Sits(s, p, Str(raw)) && !KeyTrap(raw)
    ensures FindInObj(s, p + 1, key) == None
  {
    hide Member, SkipBody, SkipWs, Print, TextAt, Delimited, RawOk;
    StrText(s, p, raw);
    if raw == [] {
      AfterQuote(s, p, raw);
      MemberNeedsQuote(s, SkipWs(s, p + 2), key);
    } else {
      SkipWsInside(s, p + 1, raw, 1);
      var j := SkipWs(raw, 1);
      if raw[j] == '"' {
        QuoteIsEscaped(raw);
        EscapedQuote(s, p, raw, key);
      } else {
        MemberNeedsQuote(s, p + 1 + j, key);
      }
    }
  }

  /** Behind a value and its white space stands no quote or colon. */
  lemma {:induction false} AfterQuote(s: string, p: nat, raw: string)
    requires Delimited(s, p + 2 + |raw|)
    ensures
      var c := At(s, SkipWs(s, p + 2 + |raw|));
      c != ':' && c != '"'
  {
  }

  /** A string that starts with an escaped quote: read as a key it ends at the closing quote, and
      no colon follows. */
  lemma {:induction false} EscapedQuote(s: string, p: nat, raw: string, key: string)
    requires Sits(s, p, Str(raw)) && |raw| >= 2 && raw[0] == '\\' && raw[1] == '"'
    ensures Member(s, p + 2, key) == None && SkipWs(s, p + 2) == p + 2
  {
    hide *;
    EscapedText(s, p, raw);
    BodyEnds(s, p + 3, raw[2..]);
    AfterQuote(s, p, raw);
    NoColon(s, p + 2, key, p + 1 + |raw|);
    QuoteIsNoWs();
    NoWs(s, p + 2);
  }

  lemma {:induction false} QuoteIsNoWs()
    ensures !IsWs('"')
  {
  }

  lemma {:induction false} EscapedText(s: string, p: nat, raw: string)
    requires Sits(s, p, Str(raw)) && |raw| >= 2 && raw[0] == '\\' && raw[1] == '"'
    ensures RawOk(raw[2..]) && At(s, p + 2) == '"' && TextAt(s, p + 3, raw[2..] + ['"'])
    ensures PastQuote(s, p + 1 + |raw|) == p + 2 + |raw| && Delimited(s, p + 2 + |raw|)
  {
    StrText(s, p, raw);
    assert RawOk(raw[2..]);
    hide *;
    assert raw + ['"'] == raw[..2] + (raw[2..] + ['"']);
    TextSplit(s, p + 1, raw[..2], raw[2..] + ['"']);
    TextChar(s, p + 1, raw[..2], 1);
  }

  lemma {:induction false} NoKeyAtRoot(s: string, p: nat, raw: string, key: string)
    requires Sits(s, p, Str(raw)) && !RootTrap(raw)
    ensures FindInObj(s, p, key) == None
  {
    hide Member, SkipBody, SkipWs, Print, TextAt, Delimited, RawOk;
    StrText(s, p, raw);
    SkipWsInside(s, p + 1, raw, 0);
    NoBareQuote(raw);
    MemberNeedsQuote(s, p + 1 + SkipWs(raw, 0), key);
  }

  /** Applied to a string that is no trap for it, a segment finds nothing. */
  lemma {:induction false} StringStep(s: string, p: nat, raw: string, seg: Seg, root: bool)
    requires Sits(s, p, Str(raw)) && SegOk(seg) && !Trapped(raw, seg, root)
    ensures Step(s, if root then p else p + 1, SegText(seg)) == None
  {
    SegTextOk(seg);
    hide Print, TextAt, FindInObj, Digits, Delimited, RawOk, Nth, RootTrap, KeyTrap;
    if seg.Key? {
      if root { NoKeyAtRoot(s, p, raw, seg.name); } else { NoKeyInside(s, p, raw, seg.name); }
    } else {
      StrText(s, p, raw);
      if !root {
        NotAnArray(s, p, raw, seg.n);
      }
    }
  }

  lemma {:induction false} NotAnArray(s: string, p: nat, raw: string, n: nat)
    requires Sits(s, p, Str(raw)) && !IndexTrap(raw)
    ensures At(s, p + 1) == '[' ==> Nth(s, SkipWs(s, p + 2), n) == None
  {
    hide *;
    StrText(s, p, raw);
    TextChar(s, p + 1, raw + ['"'], 0);
    if raw != [] && raw[0] == '[' {
      var k := NotATrap(raw);
      SkipWsInside(s, p + 1, raw, 1);
      BracketIsNoWs();
      NoWs(s, p + 1 + k);
      NthStops(s, p + 1 + k, n);
    }
  }

  lemma {:induction false} NotATrap(raw: string) returns (k: nat)
    requires !IndexTrap(raw) && raw != [] && raw[0] == '['
    ensures k == SkipWs(raw, 1) < |raw| && raw[k] == ']'
  {
    k := SkipWs(raw, 1);
    hide SkipWs;
  }

  lemma {:induction false} NthStops(s: string, p: nat, n: nat)
    requires SkipWs(s, p) == p && At(s, p) == ']'
    ensures Nth(s, p, n) == None
  {
    hide SkipWs, Parse;
  }

  /** One segment, on any value. */
  lemma {:induction false} AnyStep(s: string, v: Val, t: Tree, seg: Seg)
    requires Points(s, v, t) && SegOk(seg) && (t.Str? ==> !Trapped(t.raw, seg, false))
    ensures Agrees(s, Step(s, v.start, SegText(seg)), Child(t, seg))
  {
    hide Sits, Denotes, Step, SegText, Trapped, SegOk;
    if t.Str? {
      StringStep(s, v.start - 1, t.raw, seg, false);
    } else {
      StepFinds(s, v.start, t, seg);
    }
  }

  /** From a value inside the text. */
  lemma {:induction false} FindFrom(s: string, v: Val, t: Tree, segs: seq<Seg>)
    requires PathOk(segs) && Points(s, v, t) && TrapFree(t, segs, false)
    ensures Agrees(s, Find(s, v.start, PathText(segs)), Lookup(t, segs))
    decreases |segs|
  {
    hide Points, Step, Child, SegText, PathText, Trapped, Find;
    PathStep(s, v.start, segs);
    AnyStep(s, v, t, segs[0]);
    var c := Child(t, segs[0]);
    if c.Some? && |segs| > 1 {
      PathRest(segs);
      FindFrom(s, Step(s, v.start, SegText(segs[0])).value, c.value, segs[1..]);
    }
  }

  /** `json_find` over a printed tree returns what the path means on the tree, found or not,
      for every path that applies no segment to a string that is a trap for it. */
  lemma {:induction false} FindIsLookup(s: string, p: nat, t: Tree, segs: seq<Seg>)
    requires PathOk(segs) && Sits(s, p, t) && TrapFree(t, segs, true)
    ensures Agrees(s, Find(s, p, PathText(segs)), Lookup(t, segs))
  {
    hide Sits, Points, Step, Child, SegText, PathText, Trapped, Find;
    PathStep(s, p, segs);
    if t.Str? {
      StringStep(s, p, t.raw, segs[0], true);
      NoChild(t, segs[0]);
    } else {
      StepFinds(s, p, t, segs[0]);
      var c := Child(t, segs[0]);
      if c.Some? && |segs| > 1 {
        PathRest(segs);
        FindFrom(s, Step(s, p, SegText(segs[0])).value, c.value, segs[1..]);
      }
    }
  }

  lemma {:induction false} NoChild(t: Tree, seg: Seg)
    requires t.Str?
    ensures Child(t, seg) == None
  {
  }

  // ----- every trap springs in some text -----

  /** `["raw",":5"]` */
  function KeySpring(raw: string): (t: Tree) {
    Arr(ECons("", Str(raw), "", ECons("", Str(":5"), "", ENil(""))))
  }

  lemma {:induction false} KeySpringText(raw: string)
    requires RawOk(raw)
    ensures
      var x := Print(KeySpring(raw));
      && Sits(x, 0, KeySpring(raw)) && Sits(x, 1, Str(raw)) && x == "[\"" + raw + "\",\":5\"]"
  {
    hide *;
    var x := Print(KeySpring(raw));
    SpringPrints(raw);
    SpringOk(raw);
    StrPrints(raw);
    SpringParts(x, raw);
    SitsBracketed(x, 0, KeySpring(raw));
    SitsBracketed(x, 1, Str(raw));
  }

  /** Where the tree and its first string stand, and what follows them. */
  lemma {:induction false} SpringParts(x: string, raw: string)
    requires x == "[\"" + raw + "\",\":5\"]"
    ensures TextAt(x, 0, x) && TextAt(x, 1, Quoted(raw))
    ensures At(x, |x|) == NUL && At(x, 1 + |Quoted(raw)|) == ',' && !Scalar(KeySpring(raw))
  {
    var q := Quoted(raw);
    assert x == "[" + (q + ",\":5\"]");
    assert x[1..1 + |q|] == q;
  }

  /** A value that is no scalar, in front of a comma or the end of the text. */
  lemma {:induction false} SitsBracketed(s: string, p: nat, t: Tree)
    requires TreeOk(t) && TextAt(s, p, Print(t)) && (t.Str? || !Scalar(t))
    requires At(s, p + |Print(t)|) == NUL || At(s, p + |Print(t)|) == ','
    ensures Sits(s, p, t)
  {
    hide Print, TreeOk, TextAt;
  }

  lemma {:induction false} StrPrints(raw: string)
    ensures Print(Str(raw)) == Quoted(raw) && (RawOk(raw) ==> TreeOk(Str(raw)))
  {
    hide Quoted;
  }

  lemma {:induction false} SpringOk(raw: string)
    requires RawOk(raw)
    ensures TreeOk(KeySpring(raw))
  {
    assert RawOk(":5");
    hide RawOk;
    var last := ECons("", Str(":5"), "", ENil(""));
    assert ElemsOk(last);
    assert ElemsOk(ECons("", Str(raw), "", last));
  }

  lemma {:induction false} SpringPrints(raw: string)
    ensures Print(KeySpring(raw)) == "[\"" + raw + "\",\":5\"]"
  {
    var last := ECons("", Str(":5"), "", ENil(""));
    assert PrintElems(last) == "\":5\"";
    assert PrintElems(ECons("", Str(raw), "", last)) == Quoted(raw) + ("," + "\":5\"");
  }

  /** The member loop reads what stands between the two strings as a key, and `5` as its value. */
  lemma {:induction false} KeySprings(raw: string)
    requires RawOk(raw) && KeyTrap(raw)
    ensures Step(Print(KeySpring(raw)), 2, ",") == Some(Val(TNum, |raw| + 6, 2))
  {
    hide Print, RawOk, KeyTrap, KeySpring, Sits, Member, Step, FindInObj;
    var s := Print(KeySpring(raw));
    KeySpringText(raw);
    SpringEnd(s, raw);
    KeyIsNotIndex(s, 2);
    TrapReads(s, 1, raw, ",");
    SpringTail(s, 2 + |raw|);
  }

  /** In a trap the member loop starts at the string's closing quote. */
  lemma {:induction false} TrapReads(s: string, p: nat, raw: string, key: string)
    requires Sits(s, p, Str(raw)) && KeyTrap(raw)
    ensures FindInObj(s, p + 1, key) == Member(s, p + 1 + |raw|, key)
  {
    hide Print, RawOk, TextAt, Member, SkipWs;
    StrText(s, p, raw);
    SkipWsInside(s, p + 1, raw, 1);
  }

  lemma {:induction false} KeyIsNotIndex(s: string, cur: nat)
    ensures Step(s, cur, ",") == FindInObj(s, cur, ",")
  {
    hide FindInObj, Nth;
  }

  lemma {:induction false} SpringEnd(s: string, raw: string)
    requires s == "[\"" + raw + "\",\":5\"]"
    ensures |s| == 2 + |raw| + 7 && s[2 + |raw|..] == "\",\":5\"]"
  {
  }

  lemma {:induction false} SpringTail(s: string, q: nat)
    requires |s| == q + 7 && s[q..] == "\",\":5\"]"
    ensures Member(s, q, ",") == Some(Val(TNum, q + 4, 2))
  {
    assert forall j :: 0 <= j < 7 ==> At(s, q + j) == s[q..][j];
    SpringFive(s, q + 4);
    assert SkipBody(s, q + 2) == q + 2;
    assert SkipBody(s, q + 1) == q + 2;
    assert s[q + 1] == At(s, q + 1) == ',';
    var k := s[q + 1..q + 2];
    assert |k| == 1 && k[0] == ',';
    assert k == ",";
    assert SkipWs(s, q + 3) == q + 3 && SkipWs(s, q + 4) == q + 4;
    hide Parse, SkipBody, SkipWs;
  }

  lemma {:induction false} SpringFive(s: string, p: nat)
    requires At(s, p) == '5' && At(s, p + 1) == '"' && At(s, p + 2) == ']'
    ensures Parse(s, p).0 == Val(TNum, p, 2)
  {
    NoWs(s, p);
    assert ScalarEnd(s, p + 2) == p + 2;
    assert ScalarEnd(s, p + 1) == p + 2;
    assert ScalarEnd(s, p) == p + 2;
    hide Scan, SkipBody;
  }

  /** In any text an index takes its first element out of such a string. */
  lemma {:induction false} IndexSprings(s: string, p: nat, raw: string)
    requires Sits(s, p, Str(raw)) && IndexTrap(raw)
    ensures Step(s, p + 1, "0").Some?
  {
    hide Print, TextAt, Delimited, RawOk, Parse;
    StrText(s, p, raw);
    SkipWsInside(s, p + 1, raw, 1);
    TextChar(s, p + 1, raw + ['"'], 0);
    NoWs(s, p + 1 + SkipWs(raw, 1));
  }

  /** A segment finds nothing inside a string. */
  ghost predicate Nothing(raw: string, seg: Seg) {
    forall s, p: nat :: Sits(s, p, Str(raw)) ==> Step(s, p + 1, SegText(seg)) == None
  }

  /** In every text every key is not found in a string, exactly when the string is no trap for keys;
      the same for indices. */
  lemma {:induction false} TrapsAreExact(raw: string)
    requires RawOk(raw)
    ensures (forall key: string :: SegOk(Key(key)) ==> Nothing(raw, Key(key))) <==> !KeyTrap(raw)
    ensures (forall n: nat :: SegOk(Index(n)) ==> Nothing(raw, Index(n))) <==> !IndexTrap(raw)
  {
    hide Sits, Step, KeyTrap, IndexTrap, Print, SegText;
    forall key: string | SegOk(Key(key)) && !KeyTrap(raw)
      ensures Nothing(raw, Key(key))
    {
      forall s, p: nat | Sits(s, p, Str(raw))
        ensures Step(s, p + 1, SegText(Key(key))) == None
      {
        StringStep(s, p, raw, Key(key), false);
      }
    }
    forall n: nat | SegOk(Index(n)) && !IndexTrap(raw)
      ensures Nothing(raw, Index(n))
    {
      forall s, p: nat | Sits(s, p, Str(raw))
        ensures Step(s, p + 1, SegText(Index(n))) == None
      {
        StringStep(s, p, raw, Index(n), false);
      }
    }
    TrapsSpring(raw);
  }

  /** The same for a string asked at its opening quote. */
  ghost predicate NothingAtRoot(raw: string, seg: Seg) {
    forall s, p: nat :: Sits(s, p, Str(raw)) ==> Step(s, p, SegText(seg)) == None
  }

  lemma {:induction false} RootTrapsAreExact(raw: string)
    requires RawOk(raw)
    ensures (forall key: string :: SegOk(Key(key)) ==> NothingAtRoot(raw, Key(key))) <==> !RootTrap(raw)
    ensures forall n: nat :: SegOk(Index(n)) ==> NothingAtRoot(raw, Index(n))
  {
    hide Sits, Step, RootTrap, Print, SegText, SegOk;
    forall key: string | SegOk(Key(key)) && !RootTrap(raw)
      ensures NothingAtRoot(raw, Key(key))
    {
      forall s, p: nat | Sits(s, p, Str(raw))
        ensures Step(s, p, SegText(Key(key))) == None
      {
        StringStep(s, p, raw, Key(key), true);
      }
    }
    forall n: nat | SegOk(Index(n))
      ensures NothingAtRoot(raw, Index(n))
    {
      forall s, p: nat | Sits(s, p, Str(raw))
        ensures Step(s, p, SegText(Index(n))) == None
      {
        StringStep(s, p, raw, Index(n), true);
      }
    }
    TwoTraps();
    if RootTrap(raw) {
      KeySpringText(raw);
      RootSprings(raw);
      assert !NothingAtRoot(raw, Key(","));
    }
  }

  lemma {:induction false} RootSprings(raw: string)
    requires RawOk(raw) && RootTrap(raw)
    ensures Step(Print(KeySpring(raw)), 1, ",") == Some(Val(TNum, |raw| + 6, 2))
  {
    hide Print, RawOk, KeySpring, Sits, Member, Step, TextAt, SkipWs;
    var s := Print(KeySpring(raw));
    KeySpringText(raw);
    SpringEnd(s, raw);
    KeyIsNotIndex(s, 1);
    StrText(s, 1, raw);
    SkipWsInside(s, 2, raw, 0);
    SpringTail(s, 2 + |raw|);
  }

  lemma {:induction false} TrapsSpring(raw: string)
    requires RawOk(raw)
    ensures SegOk(Key(",")) && (KeyTrap(raw) ==> !Nothing(raw, Key(",")))
    ensures SegOk(Index(0)) && (IndexTrap(raw) ==> !Nothing(raw, Index(0)))
  {
    hide Sits, Step, KeyTrap, IndexTrap, Print;
    KeySpringText(raw);
    if KeyTrap(raw) { KeySprings(raw); }
    if IndexTrap(raw) { IndexSprings(Print(KeySpring(raw)), 1, raw); }
  }

  /** A path that finds in the printed tree what the tree does not have. */
  predicate Misleads(t: Tree, segs: seq<Seg>)
    requires segs != []
  {
    && Sits(Print(t), 0, t) && PathOk(segs) && !TrapFree(t, segs, true)
    && Lookup(t, segs) == None && Find(Print(t), 0, PathText(segs)).Some?
  }

  lemma {:induction false} SpringFirst(raw: string)
    requires RawOk(raw)
    ensures Step(Print(KeySpring(raw)), 0, "0") == Some(Val(TStr, 2, |raw|))
  {
    hide *;
    KeySpringText(raw);
    var s := Print(KeySpring(raw));
    SpringQuoted(s, raw);
    ParseQuoted(s, 1, raw);
    FirstElement(s);
  }

  lemma {:induction false} SpringQuoted(s: string, raw: string)
    requires RawOk(raw) && Sits(s, 1, Str(raw)) && s == "[\"" + raw + "\",\":5\"]"
    ensures TextAt(s, 1, Quoted(raw)) && At(s, 0) == '[' && At(s, 1) == '"'
  {
    hide RawOk, TextAt;
    StrPrints(raw);
  }

  /** Index 0 of an array reads the value behind the bracket. */
  lemma {:induction false} FirstElement(s: string)
    requires At(s, 0) == '[' && At(s, 1) == '"'
    ensures Step(s, 0, "0") == Some(Parse(s, 1).0)
  {
    NoWs(s, 1);
    hide Parse;
  }

  /** The path loop goes from the array to its first string, and on from there. */
  lemma {:induction false} SpringPath(raw: string, seg: Seg)
    requires RawOk(raw) && SegOk(seg) && Step(Print(KeySpring(raw)), 2, SegText(seg)).Some? && Trapped(raw, seg, false)
    ensures Misleads(KeySpring(raw), [Index(0), seg])
  {
    KeySpringText(raw);
    SpringFirst(raw);
    SpringTree(raw, seg);
    var t, segs := KeySpring(raw), [Index(0), seg];
    var s := Print(t);
    assert segs[1..] == [seg] && SegText(Index(0)) == "0";
    hide Step, PathText, SegText, RawOk, Print, Sits, Trapped, KeySpring, SegOk, PathOk, TrapFree, Lookup, Find;
    PathStep(s, 0, segs);
    PathStep(s, 2, segs[1..]);
  }

  lemma {:induction false} SpringTree(raw: string, seg: Seg)
    requires SegOk(seg)
    ensures
      var t, segs := KeySpring(raw), [Index(0), seg];
      && PathOk(segs) && PathOk(segs[1..]) && Lookup(t, segs) == None && (TrapFree(t, segs, true) <==> !Trapped(raw, seg, false))
  {
    hide SegOk, Trapped;
    SpringIndexOk();
    var t, segs := KeySpring(raw), [Index(0), seg];
    assert segs[1..] == [seg] && Child(t, segs[0]) == Some(Str(raw));
  }

  lemma {:induction false} SpringIndexOk()
    ensures SegOk(Index(0))
  {
  }

  lemma {:induction false} TwoTraps()
    ensures RawOk("x") && KeyTrap("x") && RawOk("[7") && IndexTrap("[7")
    ensures SegOk(Key(",")) && SegOk(Index(0)) && SegText(Key(",")) == "," && SegText(Index(0)) == "0"
    ensures Trapped("x", Key(","), false) && Trapped("[7", Index(0), false)
  {
  }

  /** Two strings the tree has no values in and the query finds some: `["x",":5"]` asked for `0.,`,
      where the key is looked for behind the string, and `["[7",":5"]` asked for `0.0`, where the
      index is looked for inside it. */
  lemma {:induction false} StringStepMisleads()
    ensures Misleads(KeySpring("x"), [Index(0), Key(",")])
    ensures Misleads(KeySpring("[7"), [Index(0), Index(0)])
  {
    hide *;
    TwoTraps();
    KeySprings("x");
    SpringPath("x", Key(","));
    KeySpringText("[7");
    IndexSprings(Print(KeySpring("[7")), 1, "[7");
    SpringPath("[7", Index(0));
  }

  // ----- escaping -----

  function EscapeChar(c: char): (e: string) {
    if c == '"' then "\\\""
    else if c == '\\' then "\\\\"
    else if c == '\n' then "\\n"
    else if c == '\r' then "\\r"
    else if c == '\t' then "\\t"
    else [c]
  }

  function Escape(x: string): (e: string) {
    if x == [] then "" else EscapeChar(x[0]) + Escape(x[1..])
  }

  function Named(c: char): (r: char) {
    if c == 'n' then '\n' else if c == 't' then '\t' else if c == 'r' then '\r' else c
  }

  function Unescape(e: string): (x: string) {
    if e == [] then ""
    else if e[0] == '\\' && |e| > 1 then [Named(e[1])] + Unescape(e[2..])
    else [e[0]] + Unescape(e[1..])
  }

  lemma {:induction false} UnescapeOne(c: char, e: string)
    ensures Unescape(EscapeChar(c) + e) == [c] + Unescape(e)
    ensures c != NUL && RawOk(e) ==> RawOk(EscapeChar(c) + e)
  {
    var x := EscapeChar(c) + e;
    assert |EscapeChar(c)| == 1 ==> x[0] == c && x[1..] == e;
    assert |EscapeChar(c)| == 2 ==> x[0] == '\\' && x[2..] == e;
  }

  lemma {:induction false} UnescapeUndoesEscape(x: string)
    ensures Unescape(Escape(x)) == x
    ensures NUL !in x ==> RawOk(Escape(x))
  {
    if x != [] {
      UnescapeUndoesEscape(x[1..]);
      UnescapeOne(x[0], Escape(x[1..]));
    }
  }

  /** A NUL-free string escaped, put between quotes in any text, parsed there and unescaped is
      the string. */
  lemma {:induction false} StringRoundTrip(s: string, p: nat, x: string)
    requires NUL !in x && TextAt(s, p, Quoted(Escape(x)))
    ensures
      var (v, q) := Parse(s, p);
      && v.typ == TStr && q == p + |Escape(x)| + 2
      && v.start + v.len <= |s| && Unescape(s[v.start..v.start + v.len]) == x
  {
    UnescapeUndoesEscape(x);
    ParseQuoted(s, p, Escape(x));
    SliceOf(s, p + 1, Escape(x));
  }

  // ----- the loops of the source -----

  method JsonSkipWs(s: string, p0: nat) returns (p: nat)
    ensures p == SkipWs(s, p0)
  {
    p := p0;
    while At(s, p) == ' ' || At(s, p) == '\t' || At(s, p) == '\n' || At(s, p) == '\r'
      invariant SkipWs(s, p) == SkipWs(s, p0)
      decreases |s| - p
    {
      p := p + 1;
    }
  }

  method StringEnd(s: string, p0: nat) returns (q: nat)
    ensures q == SkipBody(s, p0)
  {
    q := p0;
    while At(s, q) != NUL && At(s, q) != '"'
      invariant SkipBody(s, q) == SkipBody(s, p0)
      decreases |s| - q
    {
      if At(s, q) == '\\' {
        q := q + 1;
      }
      q := q + 1;
    }
  }

  method BracketEnd(s: string, p0: nat) returns (p: nat)
    ensures p == Scan(s, p0, 0)
  {
    p := p0;
    var depth := 0;
    while At(s, p) != NUL
      invariant Scan(s, p, depth) == Scan(s, p0, 0)
      decreases |s| - p
    {
      if At(s, p) == '{' || At(s, p) == '[' {
        depth := depth + 1;
      } else if At(s, p) == '}' || At(s, p) == ']' {
        depth := depth - 1;
        if depth == 0 {
          return p + 1;
        }
      } else if At(s, p) == '"' {
        p := StringEnd(s, p + 1);
        if At(s, p) == '"' {
          p := p + 1;
        }
        continue;
      }
      p := p + 1;
    }
  }

  method JsonParse(s: string, p0: nat) returns (v: Val, q: nat)
    ensures (v, q) == Parse(s, p0)
  {
    var p := JsonSkipWs(s, p0);
    if At(s, p) == '{' {
      q := BracketEnd(s, p);
      v := Val(TObj, p, q - p);
    } else if At(s, p) == '[' {
      q := BracketEnd(s, p);
      v := Val(TArr, p, q - p);
    } else if At(s, p) == '"' {
      q := StringEnd(s, p + 1);
      v := Val(TStr, p + 1, q - (p + 1));
      if At(s, q) == '"' {
        q := q + 1;
      }
    } else {
      q := p;
      while !EndsScalar(At(s, q))
        invariant p <= q && ScalarEnd(s, q) == ScalarEnd(s, p)
        decreases |s| - q
      {
        q := q + 1;
      }
      var typ := if At(s, p) == 't' || At(s, p) == 'f' then TBool else if At(s, p) == 'n' then TNull else TNum;
      v := Val(typ, p, q - p);
    }
  }

  method JsonFindInObj(s: string, obj: nat, key: string) returns (found: Option<Val>)
    ensures found == FindInObj(s, obj, key)
  {
    hide Parse, SkipBody, SkipWs, KeyIs;
    var p := JsonSkipWs(s, obj + 1);
    if At(s, p) == '}' {
      return None;
    }
    while true
      invariant Member(s, p, key) == FindInObj(s, obj, key)
      decreases |s| - p
    {
      if At(s, p) != '"' {
        return None;
      }
      var ke := StringEnd(s, p + 1);
      var q := ke;
      if At(s, q) == '"' {
        q := q + 1;
      }
      q := JsonSkipWs(s, q);
      if At(s, q) != ':' {
        return None;
      }
      q := JsonSkipWs(s, q + 1);
      var v, r := JsonParse(s, q);
      if KeyIs(s, p + 1, ke, key) {
        return Some(v);
      }
      r := JsonSkipWs(s, r);
      if At(s, r) != ',' {
        return None;
      }
      p := JsonSkipWs(s, r + 1);
    }
  }

  method ArrayElement(s: string, cur: nat, idx: nat) returns (found: Option<Val>)
    ensures found == Nth(s, SkipWs(s, cur + 1), idx)
  {
    hide Parse;
    var p := JsonSkipWs(s, cur + 1);
    var i := 0;
    while i < idx
      invariant i <= idx
      invariant Nth(s, p, idx - i) == Nth(s, SkipWs(s, cur + 1), idx)
    {
      p := JsonSkipWs(s, p);
      if At(s, p) == ']' || !StartsValue(At(s, p)) {
        return None;
      }
      var v, q := JsonParse(s, p);
      q := JsonSkipWs(s, q);
      if At(s, q) == ',' {
        q := JsonSkipWs(s, q + 1);
      } else if At(s, q) == ']' {
        return None;
      }
      p := q;
      i := i + 1;
    }
    p := JsonSkipWs(s, p);
    if At(s, p) == ']' {
      return None;
    }
    var v, _ := JsonParse(s, p);
    return Some(v);
  }

  method JsonFind(s: string, obj: nat, path0: string) returns (found: Option<Val>)
    ensures found == Find(s, obj, path0)
  {
    hide FindInObj, Nth, SkipWs;
    var cur, path := obj, path0;
    while path != []
      invariant Find(s, cur, path) == Find(s, obj, path0)
      decreases |path|
    {
      var n := Dot(path);
      if n >= SEG_MAX {
        return None;
      }
      var seg := path[..n];
      path := if n < |path| then path[n + 1..] else [];
      var v;
      if seg != [] && IsDigit(seg[0]) {
        if At(s, cur) != '[' {
          return None;
        }
        v := ArrayElement(s, cur, Atoi(seg));
      } else {
        v := JsonFindInObj(s, cur, seg);
      }
      if v == None || path == [] {
        return v;
      }
      cur := v.value.start;
    }
    return None;
  }

  method JsonStrUnescape(e: string, out: array<char>) returns (o: nat)
    requires out.Length > |e|
    modifies out
    ensures o < out.Length && out[..o] == Unescape(e) && out[o] == NUL
    ensures forall k :: o < k < out.Length ==> out[k] == old(out[k])
  {
    hide *;
    var i := 0;
    o := 0;
    assert e[0..] == e && out[..0] == "";
    while i < |e|
      invariant o <= i <= |e|
      invariant out[..o] + Unescape(e[i..]) == Unescape(e)
      invariant forall k :: o <= k < out.Length ==> out[k] == old(out[k])
    {
      ghost var done, rest := out[..o], Unescape(e[i..]);
      UnescapeStep(e, i);
      if e[i] == '\\' && i + 1 < |e| {
        out[o] := if e[i + 1] == 'n' then '\n' else if e[i + 1] == 't' then '\t' else if e[i + 1] == 'r' then '\r'
                  else if e[i + 1] == '"' then '"' else if e[i + 1] == '\\' then '\\' else e[i + 1];
        i := i + 1;
      } else {
        out[o] := e[i];
      }
      i, o := i + 1, o + 1;
      assert rest == [out[o - 1]] + Unescape(e[i..]);
      Append(done, out[..o], Unescape(e[i..]));
    }
    UnescapeRest(e);
    assert out[..o] + "" == out[..o];
    out[o] := NUL;
  }

  /** One turn of the unescaping loop. */
  lemma {:induction false} UnescapeStep(e: string, i: nat)
    requires i < |e|
    ensures
      var pair := e[i] == '\\' && i + 1 < |e|;
      var c := if !pair then e[i]
               else if e[i + 1] == 'n' then '\n' else if e[i + 1] == 't' then '\t' else if e[i + 1] == 'r' then '\r'
               else if e[i + 1] == '"' then '"' else if e[i + 1] == '\\' then '\\' else e[i + 1];
      Unescape(e[i..]) == [c] + Unescape(e[i + (if pair then 2 else 1)..])
  {
    var rest := e[i..];
    assert rest[1..] == e[i + 1..];
    if |rest| > 1 {
      assert rest[2..] == e[i + 2..];
    }
  }

  lemma {:induction false} UnescapeRest(e: string)
    ensures Unescape(e[|e|..]) == ""
  {
  }

  lemma {:induction false} Append(a: string, b: string, c: string)
    requires |b| == |a| + 1 && b[..|a|] == a
    ensures a + ([b[|a|]] + c) == b + c
  {
    assert b == a + [b[|a|]];
  }
}
