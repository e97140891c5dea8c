/**
  Computing the output head in page-aligned chunks of rows, releasing each chunk's pages once
  its rows are used (inference/core/engine.c).
*/
module HeadChunk {
  const PAGE := 4096

  function Gcd(a: nat, b: nat): (g: nat)
    decreases b
  {
    if b == 0 then a else Gcd(b, a % b)
  }

  ghost predicate Divides(d: int, n: int) {
    exists k: int :: n == d * k
  }

  lemma {:induction false} DividesSum(d: int, a: int, b: int, q: int)
    requires Divides(d, a) && Divides(d, b)
    ensures Divides(d, b * q + a)
  {
    var x: int :| a == d * x;
    var y: int :| b == d * y;
    assert b * q + a == d * (y * q + x) by {
      assert b * q == d * (y * q) by {
        assert d * y * q == d * (y * q);
      }
    }
  }

  /** The greatest common divisor divides both, and is a combination of both. */
  lemma {:induction false} GcdFacts(a: nat, b: nat) returns (x: int, y: int)
    requires a > 0 || b > 0
    ensures Gcd(a, b) > 0 && Divides(Gcd(a, b), a) && Divides(Gcd(a, b), b)
    ensures Gcd(a, b) == a * x + b * y
    decreases b
  {
    if b == 0 {
      assert a == a * 1 && 0 == a * 0;
      x, y := 1, 0;
    } else {
      var g, q := Gcd(b, a % b), a / b;
      var u, v := GcdFacts(b, a % b);
      assert a == b * q + a % b;
      DividesSum(g, a % b, b, q);
      x, y := v, u - q * v;
      Combine(a, b, q, u, v);
    }
  }

  lemma {:induction false} Combine(a: nat, b: nat, q: int, u: int, v: int)
    requires b > 0 && a == b * q + a % b
    ensures b * u + a % b * v == a * v + b * (u - q * v)
  {
    assert a * v == b * q * v + a % b * v;
    assert b * (u - q * v) == b * u - b * (q * v);
    assert b * q * v == b * (q * v);
  }

  /** The row counts whose bytes are whole pages are the multiples of 4096 / gcd(4096, rbytes). */
  lemma {:induction false} WholePages(d: nat, rbytes: nat, per: nat)
    requires rbytes > 0 && Gcd(PAGE, rbytes) > 0 && per == PAGE / Gcd(PAGE, rbytes)
    ensures per > 0 && (Divides(PAGE, d * rbytes) <==> Divides(per, d))
  {
    var g := Gcd(PAGE, rbytes);
    var x, y := GcdFacts(PAGE, rbytes);
    var p: int :| PAGE == g * p;
    var r: int :| rbytes == g * r;
    Quotient(g, p, per);
    if Divides(PAGE, d * rbytes) {
      var k: int :| d * rbytes == PAGE * k;
      Cancel(d, rbytes, g, p, x, y, k);
      assert d == per * (d * x + k * y);
    }
    if Divides(per, d) {
      var k: int :| d == per * k;
      Multiply(d, rbytes, g, p, r, k);
      assert d * rbytes == PAGE * (k * r);
    }
  }

  lemma {:induction false} Quotient(g: nat, p: int, per: nat)
    requires g > 0 && PAGE == g * p && per == PAGE / g
    ensures per == p > 0
  {
    assert p > 0;
    assert g * p / g == p;
  }

  lemma {:induction false} Cancel(d: nat, rbytes: nat, g: nat, p: int, x: int, y: int, k: int)
    requires g > 0 && PAGE == g * p && g == PAGE * x + rbytes * y && d * rbytes == PAGE * k
    ensures d == p * (d * x + k * y)
  {
    assert d * g == d * (PAGE * x) + d * (rbytes * y);
    assert d * (rbytes * y) == d * rbytes * y;
    assert d * rbytes * y == PAGE * k * y;
    assert d * g == PAGE * (d * x + k * y);
    assert d * g == g * p * (d * x + k * y);
    var m := d * x + k * y;
    assert g * p * m == g * (p * m);
    assert g * d == g * (p * m);
  }

  lemma {:induction false} Multiply(d: nat, rbytes: nat, g: nat, p: int, r: int, k: int)
    requires PAGE == g * p && rbytes == g * r && d == p * k
    ensures d * rbytes == PAGE * (k * r)
  {
    assert d * rbytes == p * k * (g * r);
    assert p * k * (g * r) == g * p * (k * r);
  }

  lemma {:induction false} PageMultiple(n: nat)
    ensures Divides(PAGE, n) <==> n % PAGE == 0
  {
    assert n == PAGE * (n / PAGE) + n % PAGE;
    if Divides(PAGE, n) {
      var k: int :| n == PAGE * k;
    } else {
      assert n != PAGE * (n / PAGE);
    }
  }

  /** A positive number of rows, at most `maxRows`, that fill whole pages. */
  predicate Chunkable(d: nat, rbytes: nat, maxRows: nat) {
    0 < d <= maxRows && d * rbytes % PAGE == 0
  }

  /** The largest multiple of `per` up to `max`. */
  lemma {:induction false} LargestMultiple(max: nat, per: nat, d: nat)
    requires per > 0 && d <= max && Divides(per, d)
    ensures d <= max / per * per <= max && Divides(per, max / per * per)
  {
    var q := max / per;
    var k: int :| d == per * k;
    assert max == per * q + max % per;
    assert q * per == per * q;
    if k > q {
      Larger(per, q + 1, k);
      assert false;
    }
    Larger(per, k, q);
  }

  lemma {:induction false} Larger(n: nat, a: int, b: int)
    requires a <= b
    ensures n * a <= n * b && n * (a + 1) == n * a + n
  {
  }

  /** Euclid's loop. */
  method GcdOf(a: nat, b: nat) returns (g: nat)
    requires b > 0
    ensures g == Gcd(a, b)
  {
    var r: nat := b;
    g := a;
    while r != 0
      invariant Gcd(g, r) == Gcd(a, b)
      decreases r
    {
      g, r := r, g % r;
    }
  }

  /** `head_chunk_rows`: the largest chunk, or 0 when there is none. */
  method HeadChunkRows(rbytes: nat, maxRows: nat) returns (c: nat)
    ensures rbytes == 0 ==> c == 0
    ensures rbytes > 0 && c > 0 ==> Chunkable(c, rbytes, maxRows)
    ensures rbytes > 0 ==> forall d: nat :: Chunkable(d, rbytes, maxRows) ==> d <= c
  {
    hide Chunkable, Divides, Gcd;
    if rbytes == 0 {
      return 0;
    }
    var g := GcdOf(PAGE, rbytes);
    GcdPositive(PAGE, rbytes);
    var per := PAGE / g;
    WholePages(0, rbytes, per);
    var q := maxRows / per;
    c := q * per;
    ChunkIsLargest(rbytes, maxRows, per, c);
    if c < per {
      SmallMultiple(per, q);
      c := 0;
    }
  }

  lemma {:induction false} GcdPositive(a: nat, b: nat)
    requires a > 0
    ensures Gcd(a, b) > 0
  {
    var x, y := GcdFacts(a, b);
  }

  lemma {:induction false} SmallMultiple(per: nat, q: nat)
    requires per > 0 && q * per < per
    ensures q * per == 0
  {
    if q > 0 {
      Larger(per, 1, q);
      assert false;
    }
  }

  lemma {:induction false} ChunkIsLargest(rbytes: nat, maxRows: nat, per: nat, c: nat)
    requires rbytes > 0 && Gcd(PAGE, rbytes) > 0 && per == PAGE / Gcd(PAGE, rbytes) && per > 0 && c == maxRows / per * per
    ensures c > 0 ==> Chunkable(c, rbytes, maxRows)
    ensures forall d: nat :: Chunkable(d, rbytes, maxRows) ==> d <= c
  {
    assert 0 == per * 0;
    LargestMultiple(maxRows, per, 0);
    WholePages(c, rbytes, per);
    PageMultiple(c * rbytes);
    forall d: nat | Chunkable(d, rbytes, maxRows)
      ensures d <= c
    {
      PageMultiple(d * rbytes);
      WholePages(d, rbytes, per);
      LargestMultiple(maxRows, per, d);
    }
  }

  // ----- the head -----

  datatype Range = Range(start: nat, len: nat)

  /** The output buffer, how often each logit was written, and the pages released, as ranges
      relative to the start of the tensor. */
  class Head {
    const logits: array<real>
    ghost var writes: seq<nat>
    var released: seq<Range>

    ghost predicate Valid()
      reads this, logits
    {
      |writes| == logits.Length
    }

    constructor (vocab: nat)
      ensures Valid() && logits.Length == vocab && fresh(logits) && released == []
      ensures forall i :: 0 <= i < vocab ==> writes[i] == 0
    {
      logits := new real[vocab];
      writes, released := seq(vocab, _ => 0), [];
    }

    /** `matmul_rows`: the logits of `n` rows from `rows` on. */
    method MatmulRows(rows: nat, n: nat, dot: nat -> real)
      requires Valid() && rows + n <= logits.Length
      modifies this`writes, logits
      ensures Valid()
      ensures forall i :: 0 <= i < logits.Length ==>
        && logits[i] == (if rows <= i < rows + n then dot(i) else old(logits[i]))
        && writes[i] == (if rows <= i < rows + n then old(writes[i]) + 1 else old(writes[i]))
    {
      for k := 0 to n
        invariant Valid()
        invariant forall i :: 0 <= i < logits.Length ==>
          && logits[i] == (if rows <= i < rows + k then dot(i) else old(logits[i]))
          && writes[i] == (if rows <= i < rows + k then old(writes[i]) + 1 else old(writes[i]))
      {
        logits[rows + k] := dot(rows + k);
        writes := writes[rows + k := writes[rows + k] + 1];
      }
    }

    /** `lm_head_chunked`: every logit is computed and written once, and only whole pages holding
        rows already used are released, in order and without overlap. */
    method LmHeadChunked(rbytes: nat, maxRows: nat, dot: nat -> real)
      requires Valid() && released == []
      modifies this, logits
      ensures Valid()
      ensures forall i :: 0 <= i < logits.Length ==> logits[i] == dot(i) && writes[i] == old(writes[i]) + 1
      ensures AllReleasedOk(released, logits.Length * rbytes)
    {
      hide ReleasedOk, Chunkable;
      var vocab := logits.Length;
      var chunk := HeadChunkRows(rbytes, maxRows);
      if chunk == 0 {
        MatmulRows(0, vocab, dot);
        return;
      }
      var rows := 0;
      while rows + chunk <= vocab
        invariant Valid() && rows <= vocab && rows * rbytes % PAGE == 0
        invariant forall i :: 0 <= i < rows ==> logits[i] == dot(i) && writes[i] == old(writes[i]) + 1
        invariant forall i :: rows <= i < vocab ==> writes[i] == old(writes[i])
        invariant AllReleasedOk(released, rows * rbytes) && ReleasedEnd(released) == rows * rbytes
      {
        MatmulRows(rows, chunk, dot);
        ChunkPages(chunk, rbytes, maxRows);
        NextRows(rows, chunk, rbytes);
        OneMoreRelease(released, rows * rbytes, chunk * rbytes);
        Release(rows, chunk, rbytes);
        rows := rows + chunk;
      }
      if rows < vocab {
        MatmulRows(rows, vocab - rows, dot);
      }
      RowBytesBelow(rows, vocab, rbytes);
      ReleasedBelow(released, rows * rbytes, vocab * rbytes);
    }

    /** `ws_release_aligned` for the rows `rows` to `rows + n`: they must have been used. */
    method Release(rows: nat, n: nat, rbytes: nat)
      requires Valid() && rows + n <= logits.Length && forall i :: rows <= i < rows + n ==> writes[i] > 0
      modifies this`released
      ensures released == old(released) + [Range(rows * rbytes, n * rbytes)]
    {
      released := released + [Range(rows * rbytes, n * rbytes)];
    }
  }

  /** Release `k` is whole pages, follows the one before, and ends at or before `used`. */
  predicate ReleasedOk(released: seq<Range>, k: nat, used: nat)
    requires k < |released|
  {
    && released[k].start % PAGE == 0 && released[k].len % PAGE == 0
    && released[k].start + released[k].len <= used
    && released[k].start == if k == 0 then 0 else released[k - 1].start + released[k - 1].len
  }

  predicate AllReleasedOk(released: seq<Range>, used: nat) {
    forall k :: 0 <= k < |released| ==> ReleasedOk(released, k, used)
  }

  function ReleasedEnd(released: seq<Range>): (e: nat) {
    if released == [] then 0 else released[|released| - 1].start + released[|released| - 1].len
  }

  lemma {:induction false} OneMoreRelease(released: seq<Range>, used: nat, n: nat)
    requires AllReleasedOk(released, used) && ReleasedEnd(released) == used && used % PAGE == 0 && n % PAGE == 0
    ensures
      var r := released + [Range(used, n)];
      AllReleasedOk(r, used + n) && ReleasedEnd(r) == used + n
  {
    var r, end := released + [Range(used, n)], used + n;
    forall k | 0 <= k < |r|
      ensures ReleasedOk(r, k, end)
    {
      if k < |released| {
        assert ReleasedOk(released, k, used);
      }
    }
  }

  lemma {:induction false} ReleasedBelow(released: seq<Range>, m: nat, n: nat)
    requires AllReleasedOk(released, m) && m <= n
    ensures AllReleasedOk(released, n)
  {
    forall k | 0 <= k < |released|
      ensures ReleasedOk(released, k, n)
    {
      assert ReleasedOk(released, k, m);
    }
  }

  lemma {:induction false} ChunkPages(d: nat, rbytes: nat, maxRows: nat)
    requires Chunkable(d, rbytes, maxRows)
    ensures d * rbytes % PAGE == 0
  {
  }

  lemma {:induction false} NextRows(rows: nat, chunk: nat, rbytes: nat)
    requires rows * rbytes % PAGE == 0 && chunk * rbytes % PAGE == 0
    ensures (rows + chunk) * rbytes == rows * rbytes + chunk * rbytes
    ensures (rows + chunk) * rbytes % PAGE == 0
  {
    PagesAdd(rows * rbytes, chunk * rbytes);
  }

  lemma {:induction false} PagesAdd(a: nat, b: nat)
    requires a % PAGE == 0 && b % PAGE == 0
    ensures (a + b) % PAGE == 0
  {
    var i, j := a / PAGE, b / PAGE;
    assert a + b == PAGE * (i + j);
  }

  lemma {:induction false} RowBytesBelow(rows: nat, vocab: nat, rbytes: nat)
    requires rows <= vocab
    ensures rows * rbytes <= vocab * rbytes
  {
  }
}
