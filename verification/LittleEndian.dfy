/** Bytes and the little-endian integers every frame is made of. */
module LittleEndian {

  newtype byte = x: int | 0 <= x < 256

  const U32_LIMIT: nat := 0x1_0000_0000
  const U64_LIMIT: nat := 0x1_0000_0000_0000_0000

  /** A frame starts with a u32 body length and a u8 type. */
  const HEADER_BYTES: nat := 5

  /** The low `n` bytes of `v`, lowest first: what `(v >> 8 i) & 0xFF` writes for each i below n. */
  function Little(v: nat, n: nat): (bytes: seq<byte>)
    ensures |bytes| == n
  {
    if n == 0 then [] else [(v % 256) as byte] + Little(v / 256, n - 1)
  }

  function Value(bytes: seq<byte>): nat {
    if bytes == [] then 0 else bytes[0] as nat + 256 * Value(bytes[1..])
  }

  function Pow256(n: nat): (p: nat)
    ensures p > 0
  {
    if n == 0 then 1 else 256 * Pow256(n - 1)
  }

  /** Reading back what was written gives the value, cut to the width it was written in. */
  lemma {:induction false} ValueOfLittle(v: nat, n: nat)
    ensures Value(Little(v, n)) == v % Pow256(n)
  {
    if n > 0 {
      ValueOfLittle(v / 256, n - 1);
      assert Little(v, n)[1..] == Little(v / 256, n - 1);
      ModStep(v, Pow256(n - 1));
    }
  }

  lemma ModStep(v: nat, p: nat)
    requires p > 0
    ensures v % 256 + 256 * ((v / 256) % p) == v % (256 * p)
  {
    var q, r := v / 256 / p, v / 256 % p;
    assert v / 256 == q * p + r;
    var low := v % 256 + 256 * r;
    assert v == q * (256 * p) + low;
    assert low < 256 * p;
    DivModUnique(v, 256 * p, q, low);
  }

  lemma DivModUnique(v: nat, d: nat, q: nat, r: nat)
    requires d > 0 && v == q * d + r && r < d
    ensures v % d == r
  {
    var k := q - v / d;
    assert k * d == q * d - v / d * d;
    if k != 0 { NoSmallMultiple(k, d); }
  }

  lemma NoSmallMultiple(k: int, d: int)
    requires k != 0 && d > 0
    ensures k * d >= d || k * d <= -d
  {
    if k > 0 { assert (k - 1) * d >= 0; } else { assert (-k - 1) * d >= 0; }
  }

  lemma {:induction false} ValueBound(bytes: seq<byte>)
    ensures Value(bytes) < Pow256(|bytes|)
  {
    if bytes != [] { ValueBound(bytes[1..]); }
  }

  lemma {:induction false} ValueAppend(bytes: seq<byte>, b: byte)
    ensures Value(bytes + [b]) == Value(bytes) + Pow256(|bytes|) * b as nat
  {
    if bytes == [] {
      assert [b][1..] == [];
    } else {
      assert (bytes + [b])[1..] == bytes[1..] + [b];
      ValueAppend(bytes[1..], b);
      Assoc(Pow256(|bytes| - 1), b as nat);
    }
  }

  /** Writing what was read gives the bytes back. */
  lemma {:induction false} LittleOfValue(bytes: seq<byte>)
    ensures Little(Value(bytes), |bytes|) == bytes
  {
    if bytes != [] {
      LittleOfValue(bytes[1..]);
      LowByte(bytes[0] as nat, Value(bytes[1..]));
      assert bytes == [bytes[0]] + bytes[1..];
    }
  }

  lemma LowByte(b: nat, rest: nat)
    requires b < 256
    ensures (b + 256 * rest) % 256 == b && (b + 256 * rest) / 256 == rest
  {
  }

  /** Reading an integer, a byte at a time. */
  method ReadValue(bytes: seq<byte>) returns (v: nat)
    ensures v == Value(bytes)
  {
    v := 0;
    var scale := 1;
    for i := 0 to |bytes|
      invariant v == Value(bytes[..i]) && scale == Pow256(i)
    {
      ValueAppend(bytes[..i], bytes[i]);
      assert bytes[..i + 1] == bytes[..i] + [bytes[i]];
      v := v + scale * bytes[i] as nat;
      scale := scale * 256;
    }
    assert bytes[..|bytes|] == bytes;
  }

  lemma Assoc(p: nat, b: nat)
    ensures 256 * (p * b) == (256 * p) * b
  {
  }

  lemma Widths()
    ensures Pow256(1) == 0x100 && Pow256(2) == 0x1_0000 && Pow256(4) == 0x1_0000_0000
    ensures Pow256(8) == 0x1_0000_0000_0000_0000
  {
    assert Pow256(2) == 256 * Pow256(1) && Pow256(3) == 256 * Pow256(2) && Pow256(4) == 256 * Pow256(3);
    assert Pow256(5) == 256 * Pow256(4) && Pow256(6) == 256 * Pow256(5) && Pow256(7) == 256 * Pow256(6);
  }

  lemma SmallMod(v: nat, p: nat)
    requires v < p
    ensures v % p == v
  {
  }

  lemma Regroup(a: seq<byte>, b: seq<byte>, c: seq<byte>)
    ensures (a + b) + c == a + (b + c)
  {
  }
}
