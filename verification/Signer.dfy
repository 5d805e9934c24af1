/** The tenant's settlement wallet: Secp256k1Signer and recover_address. */
module Signer {
  import opened Basics
  import opened NumberTheory
  import opened Bytes
  import opened Secp256k1
  import opened Subgroup
  import opened Ecdsa

  type Digest = bs: seq<Byte> | |bs| == 32 witness FixedBytes(0, 32)

  type Scalar = k: int | 1 <= k < N witness 1

  /** keccak256, as any function from byte strings to 32-byte digests. */
  type Keccak = seq<Byte> -> Digest

  /** The RFC 6979 nonce of a private key and digest, as any function into 1..N-1. */
  type NonceSource = (int, seq<Byte>) -> Scalar

  /** _pubkey_bytes without its 0x04 prefix. */
  function PointBytes(pt: Point): seq<Byte>
    requires pt.Affine? && pt.x >= 0 && pt.y >= 0
  {
    FixedBytes(pt.x, 32) + FixedBytes(pt.y, 32)
  }

  /** _address_from_point: the last 20 bytes of the hashed point. */
  function AddressOf(keccak: Keccak, pt: Point): seq<Byte>
    requires pt.Affine? && pt.x >= 0 && pt.y >= 0
  {
    keccak(PointBytes(pt))[12..]
  }

  /** r(32) || s(32) || v, with v = 27 + rec_id. */
  function EthSignature(sig: Signature): seq<Byte>
    requires 0 <= sig.recId <= 1
  {
    FixedBytes(sig.r, 32) + FixedBytes(sig.s, 32) + [27 + sig.recId]
  }

  datatype AddressOutcome = AddressRaised | NoAddress | Address(a: seq<Byte>)

  function AddressOfRecovered(keccak: Keccak, out: RecoverOutcome): AddressOutcome {
    match out
    case RecoverRaised => AddressRaised
    case Recovered(Infinity) => NoAddress
    case Recovered(Affine(x, y)) => if x < 0 || y < 0 then AddressRaised else Address(AddressOf(keccak, Affine(x, y)))
  }

  /** recover_address on a 65-byte Ethereum-style signature. */
  function RecoverAddress(keccak: Keccak, digest: seq<Byte>, signature: seq<Byte>): AddressOutcome {
    if |signature| != 65 then NoAddress
    else
      var r, s := FromBytes(signature[0..32]), FromBytes(signature[32..64]);
      AddressOfRecovered(keccak, Recover(FromBytes(digest), r, s, signature[64] as int - 27))
  }

  lemma OrderFits()
    ensures N <= Pow(256, 32)
  {
    hide Pow, FromWords;
    Pow256At32();
    OrderDigits();
  }

  /** The nonce R has an abscissa below N, the case recovery is written for. */
  predicate NonceAbscissaBelowN(k: nat) {
    EcMulSpec(k, G).Affine? ==> EcMulSpec(k, G).x < N
  }

  lemma SignatureFits(sig: Signature)
    requires sig.r < N && sig.s < N && 0 <= sig.recId <= 1
    ensures var e := EthSignature(sig);
      |e| == 65 && FromBytes(e[0..32]) == sig.r && FromBytes(e[32..64]) == sig.s && e[64] == 27 + sig.recId
  {
    OrderFits();
    FromFixedBytes(sig.r, 32);
    FromFixedBytes(sig.s, 32);
    var e := EthSignature(sig);
    assert e[0..32] == FixedBytes(sig.r, 32) && e[32..64] == FixedBytes(sig.s, 32);
  }

  lemma ModulusFits()
    ensures P <= Pow(256, 32)
  {
    hide Pow, FromWords;
    Pow256At32();
    ModulusDigits();
  }

  /** An address is the last 20 bytes of the hash of 64 bytes, the abscissa and the ordinate. */
  lemma AddressIsHashTail(keccak: Keccak, pt: Point) returns (b: seq<Byte>)
    requires OnCurve(pt) && pt.Affine?
    ensures |b| == 64 && FromBytes(b[..32]) == pt.x && FromBytes(b[32..]) == pt.y
    ensures |AddressOf(keccak, pt)| == 20 && keccak(b)[..12] + AddressOf(keccak, pt) == keccak(b)
  {
    hide FromWords, SatisfiesEquation;
    ModulusFits();
    FromFixedBytes(pt.x, 32);
    FromFixedBytes(pt.y, 32);
    b := PointBytes(pt);
    assert b[..32] == FixedBytes(pt.x, 32) && b[32..] == FixedBytes(pt.y, 32);
  }

  /** A wallet's public point is a finite curve point. */
  lemma PublicPoint(d: int)
    requires CurveFacts() && 1 <= d < N
    ensures EcMulSpec(d, G).Affine? && OnCurve(EcMulSpec(d, G))
  {
    SmallMod(d, N);
    GeneratorOnCurve();
    EcMulIsTimes(d, G);
    ScalarFinite(d);
    TimesOnCurve(d, G, B, P);
  }

  /** recover_address on sign_eth's 65 bytes is the wallet's own address. */
  lemma RecoverAddressInvertsSignEth(keccak: Keccak, d: int, digest: seq<Byte>, k: nat)
    requires CurveFacts() && 1 <= d < N && 1 <= k < N && NonceAbscissaBelowN(k)
    requires SignAttempt(d, FromBytes(digest), k).Signed?
    ensures EcMulSpec(d, G).Affine? && OnCurve(EcMulSpec(d, G))
    ensures SignAttempt(d, FromBytes(digest), k).sig.recId in {0, 1}
    ensures RecoverAddress(keccak, digest, EthSignature(SignAttempt(d, FromBytes(digest), k).sig))
         == Address(AddressOf(keccak, EcMulSpec(d, G)))
  {
    hide SignAttempt, EcMulSpec, AddMod, DoubleAndAdd, TimesMod, Recover, AssociativeMod, IsPrime, FixedBytes, FromBytes;
    var z, Q := FromBytes(digest), EcMulSpec(d, G);
    var sig := SignAttempt(d, z, k).sig;
    assert OnCurve(Q) && Q.Affine? by { PublicPoint(d); }
    assert Recover(z, sig.r, sig.s, sig.recId) == Recovered(Q) by { RecoverInvertsSign(d, z, k); }
    RecoverAddressOf(keccak, digest, sig);
  }

  lemma RecoverAddressOf(keccak: Keccak, digest: seq<Byte>, sig: Signature)
    requires sig.r < N && sig.s < N && 0 <= sig.recId <= 1
    ensures RecoverAddress(keccak, digest, EthSignature(sig))
         == AddressOfRecovered(keccak, Recover(FromBytes(digest), sig.r, sig.s, sig.recId))
  {
    hide FromBytes, Recover, FixedBytes, AddressOfRecovered;
    SignatureFits(sig);
  }

  class Secp256k1Signer {
    const priv: int
    const pub: Point
    const nonceOf: NonceSource

    constructor (priv: int, nonceOf: NonceSource)
      requires 1 <= priv < N
      ensures this.priv == priv && this.nonceOf == nonceOf && pub == EcMulSpec(priv, G)
    {
      this.priv := priv;
      this.nonceOf := nonceOf;
      var q := EcMul(priv, G);
      this.pub := q;
    }

    /** Secp256k1Signer(priv_int); None is the ValueError of a key outside 1..N-1. */
    static method Create(priv: int, nonceOf: NonceSource) returns (signer: Option<Secp256k1Signer>)
      ensures signer.Some? <==> 1 <= priv < N
      ensures signer.Some? ==> fresh(signer.value) && signer.value.priv == priv && signer.value.nonceOf == nonceOf
      ensures signer.Some? ==> signer.value.pub == EcMulSpec(priv, G)
    {
      if !(1 <= priv < N) {
        return None;
      }
      var made := new Secp256k1Signer(priv, nonceOf);
      return Some(made);
    }

    /** sign, cut off after a number of passes. The nonce is a function of the key and the
        digest, so every pass computes the same: it returns on the first pass or never. */
    method Sign(digest: seq<Byte>, passes: nat) returns (out: SignOutcome)
      requires 1 <= priv < N
      ensures out == if passes == 0 then Retry
                     else SignAttempt(priv, FromBytes(digest), nonceOf(priv, digest))
    {
      hide EcMulSpec, InverseMod, IsPrime, AssociativeMod, OnCurveMod, TimesMod;
      var z := FromBytes(digest);
      out := Retry;
      var i := 0;
      while i < passes && out == Retry
        invariant 0 <= i <= passes
        invariant out == if i == 0 then Retry else SignAttempt(priv, z, nonceOf(priv, digest))
      {
        var k := nonceOf(priv, digest);
        var R := EcMul(k, G);
        if R.Infinity? {
          out := Raised;
        } else {
          var r := Reduce(R.x, N);
          if r != 0 {
            var kInv := InverseMod(k, N);
            if kInv.None? {
              out := Raised;
            } else {
              var s := Reduce(kInv.value * (z + r * priv), N);
              if s != 0 {
                var recId := R.y % 2;
                if s > N / 2 {
                  s := N - s;
                  recId := 1 - recId;
                }
                out := Signed(Signature(r, s, recId));
              }
            }
          }
        }
        i := i + 1;
      }
    }
  }
}
