/** Little-endian fields and files as byte sequences. */
module ByteFile {
  type byte = x: int | 0 <= x < 256

  function Enc(n: nat, k: nat): (b: seq<byte>)
    ensures |b| == k
  {
    if k == 0 then [] else [n % 256] + Enc(n / 256, k - 1)
  }

  function Dec(b: seq<byte>): (n: nat) {
    if b == [] then 0 else b[0] + 256 * Dec(b[1..])
  }

  function Pow256(k: nat): (p: nat)
    ensures p > 0
  {
    if k == 0 then 1 else 256 * Pow256(k - 1)
  }

  /** A field wide enough for its value reads back. */
  lemma {:induction false} FieldRoundTrip(n: nat, k: nat)
    requires n < Pow256(k)
    ensures Dec(Enc(n, k)) == n
  {
    if k > 0 {
      assert n / 256 < Pow256(k - 1);
      FieldRoundTrip(n / 256, k - 1);
      assert Enc(n, k)[1..] == Enc(n / 256, k - 1);
    }
  }

  lemma {:induction false} Widths()
    ensures Pow256(4) == 0x1_0000_0000 && Pow256(8) == 0x1_0000_0000_0000_0000
  {
    assert Pow256(2) == 65536;
    assert Pow256(4) == 0x1_0000_0000;
    assert Pow256(6) == 0x1_0000_0000_0000;
  }

  function Zeros(n: nat): (z: seq<byte>)
    ensures |z| == n && forall i :: 0 <= i < n ==> z[i] == 0
  {
    if n == 0 then [] else [0] + Zeros(n - 1)
  }

  /** Seeking to `off` and writing `d`: a gap behind the end reads as zeros. */
  function WriteAt(f: seq<byte>, off: nat, d: seq<byte>): (g: seq<byte>) {
    if |d| == 0 then f
    else
      var p := if |f| < off then f + Zeros(off - |f|) else f;
      p[..off] + d + (if off + |d| < |f| then f[off + |d|..] else [])
  }

  /** Writing at or behind the end keeps what is there and puts the data where it belongs. */
  lemma {:induction false} WriteBehind(f: seq<byte>, off: nat, d: seq<byte>)
    requires off >= |f| && d != []
    ensures
      var g := WriteAt(f, off, d);
      |g| == off + |d| && g[..|f|] == f && g[off..off + |d|] == d
  {
  }
}
