/** Bytes and the little-endian encoding of 64-bit offsets. */
module Bytes {
  type byte = x: int | 0 <= x < 256

  const U64: nat := 0x1_0000_0000_0000_0000

  function Pow256(k: nat): (r: nat)
    ensures r > 0
  {
    if k == 0 then 1 else 256 * Pow256(k - 1)
  }

  /** `k` bytes, least significant first. */
  function ToLittleEndian(n: nat, k: nat): (r: seq<byte>)
    ensures |r| == k
    decreases k
  {
    if k == 0 then [] else [n % 256] + ToLittleEndian(n / 256, k - 1)
  }

  function FromLittleEndian(s: seq<byte>): nat
    decreases |s|
  {
    if s == [] then 0 else s[0] + 256 * FromLittleEndian(s[1..])
  }

  lemma {:induction false} LittleEndianRoundTrip(n: nat, k: nat)
    requires n < Pow256(k)
    ensures FromLittleEndian(ToLittleEndian(n, k)) == n
    decreases k
  {
    if k > 0 {
      LittleEndianRoundTrip(n / 256, k - 1);
      assert ToLittleEndian(n, k)[1..] == ToLittleEndian(n / 256, k - 1);
    }
  }

  lemma EightBytes()
    ensures Pow256(8) == U64
  {
    assert Pow256(4) == 0x1_0000_0000;
    assert Pow256(5) == 256 * Pow256(4);
    assert Pow256(6) == 256 * Pow256(5);
    assert Pow256(7) == 256 * Pow256(6);
    assert Pow256(8) == 256 * Pow256(7);
  }

  lemma OffsetRoundTrip(n: nat)
    requires n < U64
    ensures FromLittleEndian(ToLittleEndian(n, 8)) == n
  {
    EightBytes();
    LittleEndianRoundTrip(n, 8);
  }

  function Worth(a: int, b: int, c: int, d: int): int { a + 0x100 * b + 0x1_0000 * c + 0x100_0000 * d }

  /** The number eight bytes stand for, the first one worth least. */
  lemma LittleEndianValue(s: seq<byte>)
    requires |s| == 8
    ensures FromLittleEndian(s)
            == Worth(s[0], s[1], s[2], s[3]) + 0x1_0000_0000 * Worth(s[4], s[5], s[6], s[7])
  {
    var a, b, c, d := s[1..], s[2..], s[3..], s[4..];
    var e, f, g, h := s[5..], s[6..], s[7..], s[8..];
    assert a[1..] == b && b[1..] == c && c[1..] == d && d[1..] == e && e[1..] == f && f[1..] == g && g[1..] == h && h == [];
    assert FromLittleEndian(g) == s[7] && FromLittleEndian(f) == s[6] + 256 * FromLittleEndian(g);
    assert FromLittleEndian(e) == s[5] + 256 * FromLittleEndian(f) && FromLittleEndian(d) == s[4] + 256 * FromLittleEndian(e);
    assert FromLittleEndian(c) == s[3] + 256 * FromLittleEndian(d) && FromLittleEndian(b) == s[2] + 256 * FromLittleEndian(c);
    assert FromLittleEndian(a) == s[1] + 256 * FromLittleEndian(b);
  }
}
