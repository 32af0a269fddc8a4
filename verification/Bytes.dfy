/** Octet strings and the big-endian integer fields used by the Q1 record. */
module Octets {
  type byte = x: int | 0 <= x < 256
  type Bytes = seq<byte>
  type Digest = d: Bytes | |d| == 32 witness seq(32, _ => 0)

  function Pow256(k: nat): (r: nat)
    ensures r >= 1
  {
    if k == 0 then 1 else 256 * Pow256(k - 1)
  }

  /** The value of a big-endian field; the empty field is zero. */
  function Value(b: Bytes): (r: nat)
    ensures r < Pow256(|b|)
    decreases |b|
  {
    if |b| == 0 then 0 else 256 * Value(b[..|b| - 1]) + b[|b| - 1]
  }

  /** The k-byte big-endian field holding n. */
  function Field(n: nat, k: nat): (r: Bytes)
    requires n < Pow256(k)
    ensures |r| == k
    decreases k
  {
    if k == 0 then [] else Field(n / 256, k - 1) + [n % 256]
  }

  lemma {:induction false} ValueOfField(n: nat, k: nat)
    requires n < Pow256(k)
    ensures Value(Field(n, k)) == n
    decreases k
  {
    if k > 0 {
      var f := Field(n, k);
      assert f[..k - 1] == Field(n / 256, k - 1);
      ValueOfField(n / 256, k - 1);
    }
  }

  lemma {:induction false} FieldOfValue(b: Bytes)
    ensures Field(Value(b), |b|) == b
    decreases |b|
  {
    if |b| > 0 {
      FieldOfValue(b[..|b| - 1]);
      assert Value(b) / 256 == Value(b[..|b| - 1]);
      assert Value(b) % 256 == b[|b| - 1];
    }
  }

  /** A field holds n exactly when its bytes are the encoding of n. */
  lemma FieldIff(b: Bytes, n: nat)
    requires n < Pow256(|b|)
    ensures Value(b) == n <==> b == Field(n, |b|)
  {
    ValueOfField(n, |b|);
    FieldOfValue(b);
  }

  lemma Widths()
    ensures Pow256(2) == 0x1_0000
    ensures Pow256(4) == 0x1_0000_0000
    ensures Pow256(8) == 0x1_0000_0000_0000_0000
  {
    assert Pow256(1) == 256;
    assert Pow256(2) == 0x1_0000;
    assert Pow256(3) == 0x100_0000;
    assert Pow256(4) == 0x1_0000_0000;
    assert Pow256(5) == 0x100_0000_0000;
    assert Pow256(6) == 0x1_0000_0000_0000;
    assert Pow256(7) == 0x100_0000_0000_0000;
  }

  function U16(n: nat): (r: Bytes)
    requires n < 0x1_0000
    ensures |r| == 2 && Value(r) == n
  {
    Widths();
    ValueOfField(n, 2);
    Field(n, 2)
  }

  function U32(n: nat): (r: Bytes)
    requires n < 0x1_0000_0000
    ensures |r| == 4 && Value(r) == n
  {
    Widths();
    ValueOfField(n, 4);
    Field(n, 4)
  }

  function U64(n: nat): (r: Bytes)
    requires n < 0x1_0000_0000_0000_0000
    ensures |r| == 8 && Value(r) == n
  {
    Widths();
    ValueOfField(n, 8);
    Field(n, 8)
  }

  /** The value of the k-byte field at an offset that lies inside raw. */
  function At(raw: Bytes, offset: nat, k: nat): (r: nat)
    requires offset + k <= |raw|
    ensures r < Pow256(k)
  {
    Value(raw[offset..offset + k])
  }

  lemma At16(raw: Bytes, offset: nat, n: nat)
    requires offset + 2 <= |raw| && n < 0x1_0000
    ensures At(raw, offset, 2) == n <==> raw[offset..offset + 2] == U16(n)
    ensures At(raw, offset, 2) < 0x1_0000
  {
    Widths();
    FieldIff(raw[offset..offset + 2], n);
  }

  lemma At32(raw: Bytes, offset: nat, n: nat)
    requires offset + 4 <= |raw| && n < 0x1_0000_0000
    ensures At(raw, offset, 4) == n <==> raw[offset..offset + 4] == U32(n)
    ensures At(raw, offset, 4) < 0x1_0000_0000
  {
    Widths();
    FieldIff(raw[offset..offset + 4], n);
  }

  lemma At64(raw: Bytes, offset: nat, n: nat)
    requires offset + 8 <= |raw| && n < 0x1_0000_0000_0000_0000
    ensures At(raw, offset, 8) == n <==> raw[offset..offset + 8] == U64(n)
  {
    Widths();
    FieldIff(raw[offset..offset + 8], n);
  }

  /** Appending one part: the first c bytes are x + y exactly when both parts are in place. */
  lemma Joined(raw: Bytes, b: nat, c: nat, x: Bytes, y: Bytes)
    requires b <= c <= |raw| && |x| == b && |y| == c - b
    ensures raw[..c] == x + y <==> raw[..b] == x && raw[b..c] == y
  {
    if raw[..c] == x + y {
      assert raw[..b] == raw[..c][..b];
      assert raw[b..c] == raw[..c][b..];
    }
    if raw[..b] == x && raw[b..c] == y {
      assert raw[..c] == raw[..b] + raw[b..c];
    }
  }
}
