/** Big-endian byte strings: int.from_bytes and int.to_bytes. */
module Bytes {
  import opened NumberTheory

  type Byte = b: int | 0 <= b < 256

  /** int.from_bytes(bs, "big") */
  function FromBytes(bs: seq<Byte>): nat {
    if |bs| == 0 then 0 else 256 * FromBytes(bs[..|bs| - 1]) + bs[|bs| - 1]
  }

  /** The minimal big-endian form; zero is the empty string. */
  function ToBytes(n: nat): seq<Byte> {
    if n == 0 then [] else ToBytes(n / 256) + [n % 256]
  }

  /** n.to_bytes(w, "big") */
  function FixedBytes(n: nat, w: nat): (bs: seq<Byte>)
    ensures |bs| == w
  {
    if w == 0 then [] else FixedBytes(n / 256, w - 1) + [n % 256]
  }

  lemma {:induction false} FromToBytes(n: nat)
    ensures FromBytes(ToBytes(n)) == n
  {
    if n == 0 {
    } else {
      FromToBytes(n / 256);
      assert ToBytes(n)[..|ToBytes(n)| - 1] == ToBytes(n / 256);
    }
  }

  lemma {:induction false} FromFixedBytes(n: nat, w: nat)
    requires n < Pow(256, w)
    ensures FromBytes(FixedBytes(n, w)) == n
  {
    if w == 0 {
    } else {
      PowShrinks(n, w);
      hide Pow, FromBytes;
      FromFixedBytes(n / 256, w - 1);
      FromSnoc(FixedBytes(n / 256, w - 1), n % 256);
    }
  }

  lemma PowShrinks(n: nat, w: nat)
    requires w > 0 && n < Pow(256, w)
    ensures n / 256 < Pow(256, w - 1)
  {}

  lemma FromSnoc(bs: seq<Byte>, b: Byte)
    ensures FromBytes(bs + [b]) == 256 * FromBytes(bs) + b
  {
    assert (bs + [b])[..|bs|] == bs;
  }

  lemma {:induction false} ToBytesLength(n: nat, w: nat)
    requires n < Pow(256, w)
    ensures |ToBytes(n)| <= w
  {
    if n == 0 {
    } else {
      ToBytesLength(n / 256, w - 1);
    }
  }

  lemma {:induction false} ToBytesGrows(m: nat, n: nat)
    requires m <= n
    ensures |ToBytes(m)| <= |ToBytes(n)|
  {
    if m != 0 { ToBytesGrows(m / 256, n / 256); }
  }

  lemma {:induction false} FromBytesBound(bs: seq<Byte>)
    ensures FromBytes(bs) < Pow(256, |bs|)
  {
    if bs != [] { FromBytesBound(bs[..|bs| - 1]); }
  }

  /** The first byte weighs most: a text in front counts 256 times for every byte behind it. */
  lemma {:induction false} BigEndian(a: seq<Byte>, b: seq<Byte>)
    ensures FromBytes(a + b) == FromBytes(a) * Pow(256, |b|) + FromBytes(b)
    ensures |b| == 1 ==> FromBytes(b) == b[0]
  {
    if b == [] {
      assert a + b == a;
    } else {
      var n := |b| - 1;
      BigEndian(a, b[..n]);
      assert a + b == (a + b[..n]) + [b[n]] && b == b[..n] + [b[n]];
      FromSnoc(a + b[..n], b[n]);
      FromSnoc(b[..n], b[n]);
      hide FromBytes;
      assert Pow(256, n + 1) == 256 * Pow(256, n);
      ScaledSum(FromBytes(a), Pow(256, n), FromBytes(b[..n]), b[n]);
    }
  }

  lemma ScaledSum(x: int, p: int, y: int, b: int)
    ensures 256 * (x * p + y) + b == x * (256 * p) + (256 * y + b)
  {}

  /** The minimal form has no leading zero byte. */
  lemma {:induction false} NoLeadingZero(n: nat)
    ensures ToBytes(n) != [] ==> ToBytes(n)[0] != 0
  {
    if n != 0 { NoLeadingZero(n / 256); }
  }

  lemma Pow256At8()
    ensures Pow(256, 8) == 0x1_0000_0000_0000_0000
  {
    PowAdd(256, 4, 4);
    PowAdd(256, 2, 2);
    assert Pow(256, 2) == 256 * Pow(256, 1);
  }

  lemma Pow256At32()
    ensures Pow(256, 32) == 0x1_0000_0000_0000_0000_0000_0000_0000_0000_0000_0000_0000_0000_0000_0000_0000_0000
  {
    Pow256At8();
    PowAdd(256, 8, 8);
    PowAdd(256, 16, 16);
  }
}
