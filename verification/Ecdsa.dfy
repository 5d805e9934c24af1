/** ECDSA over secp256k1 as src/live/signing.py writes it: signing with low-s
    normalization, and public-key recovery (SEC 1 v2.0 sections 4.1.3 and 4.1.6). */
module Ecdsa {
  import opened NumberTheory
  import opened Secp256k1
  import opened Subgroup

  datatype Signature = Signature(r: nat, s: nat, recId: int)

  datatype SignOutcome = Raised | Retry | Signed(sig: Signature)

  /** The nonce k makes a pass raise: k*G is None where a pair is expected, or k has no inverse. */
  predicate PassRaises(k: nat) {
    var R := EcMulSpec(k, G);
    R.Infinity? || (R.x % N != 0 && InverseMod(k, N).None?)
  }

  /** One pass of the signing loop: it can raise, go round again, or return; it returns a low s
      (EIP-2), an r in range and a recovery id that is a bit. */
  function SignAttempt(d: int, z: nat, k: nat): (out: SignOutcome)
    ensures out == Raised <==> PassRaises(k)
    ensures out.Signed? ==> 1 <= out.sig.s <= N / 2 && 1 <= out.sig.r < N && 0 <= out.sig.recId <= 1
    ensures out.Signed? ==> EcMulSpec(k, G).Affine? && out.sig.r == EcMulSpec(k, G).x % N
  {
    var R := EcMulSpec(k, G);
    if R.Infinity? then Raised
    else
      var r := R.x % N;
      if r == 0 then Retry
      else
        match InverseMod(k, N)
        case None => Raised
        case Some(kInv) =>
          var s := (kInv * (z + r * d)) % N;
          var recId := R.y % 2;
          if s == 0 then Retry
          else if s > N / 2 then Signed(Signature(r, N - s, 1 - recId))
          else Signed(Signature(r, s, recId))
  }

  /** What secp256k1_recover does: raise, or return a point (None is Infinity). */
  datatype RecoverOutcome = RecoverRaised | Recovered(q: Point)

  /** The candidate R: abscissa x, the square root with the parity of recId. */
  function LiftMod(x: int, recId: int, m: int): Point
    requires m >= 2
  {
    var beta := (x * x * x + 7) % m;
    var y := Pow(beta, (m + 1) / 4) % m;
    Affine(x, if y % 2 != recId % 2 then (m - y) % m else y)
  }

  function LiftX(x: int, recId: int): Point {
    LiftMod(x, recId, P)
  }

  function Recover(z: int, r: nat, s: nat, recId: int): RecoverOutcome {
    if r >= P then Recovered(Infinity)
    else
      match InverseMod(r, N)
      case None => RecoverRaised
      case Some(rInv) =>
        Recovered(EcMulSpec(rInv, EcAdd(EcMulSpec(s, LiftX(r, recId)), EcMulSpec(Reduce(-z, N), G))))
  }

  // ----- what signing returns -----

  /** Under the curve's facts, signing with a nonce in range never raises. */
  lemma SignNeverRaises(k: nat)
    requires CurveFacts() && 1 <= k < N
    ensures !PassRaises(k)
  {
    SmallMod(k, N);
    GeneratorOnCurve();
    EcMulIsTimes(k, G);
    ScalarFinite(k);
    InverseModPrime(k, N);
  }

  lemma ZeroScalar(k: int, kInv: int, e: int, s: int, m: int)
    requires m > 1 && (k * kInv) % m == 1 && s == (kInv * e) % m
    ensures s == 0 <==> e % m == 0
  {
    NonceCancels(k, kInv, e, s, m);
    SmallMod(0, m);
    if e % m == 0 {
      CongScale(e, 0, kInv, m);
      assert kInv * e == e * kInv;
    }
  }

  /** A pass returns a signature exactly when neither the abscissa of the nonce point nor z + r*d
      vanishes modulo N, and goes round again otherwise. */
  lemma SignsExactly(d: int, z: nat, k: nat)
    requires CurveFacts() && 1 <= k < N
    ensures EcMulSpec(k, G).Affine?
    ensures var r := EcMulSpec(k, G).x % N;
      && (SignAttempt(d, z, k).Signed? <==> r != 0 && (z + r * d) % N != 0)
      && (SignAttempt(d, z, k).Retry? <==> r == 0 || (z + r * d) % N == 0)
  {
    SignNeverRaises(k);
    hide EcMulSpec, IsPrime, InverseMod, AssociativeMod;
    SmallMod(k, N);
    InverseModPrime(k, N);
    var r := EcMulSpec(k, G).x % N;
    var kInv := InverseMod(k, N).value;
    ZeroScalar(k, kInv, z + r * d, (kInv * (z + r * d)) % N, N);
  }

  /** The scalar k' with R' = k'*G that recovery reconstructs solves s'*k' = z + r*d. */
  lemma SignatureEquation(d: int, z: nat, k: nat)
    requires IsPrime(N) && 1 <= k < N && SignAttempt(d, z, k).Signed?
    ensures var sig, R := SignAttempt(d, z, k).sig, EcMulSpec(k, G);
      (sig.recId == R.y % 2 ==> (sig.s * k) % N == (z + sig.r * d) % N)
      && (sig.recId != R.y % 2 ==> (sig.s * (N - k)) % N == (z + sig.r * d) % N)
  {
    hide EcMulSpec, IsPrime, InverseMod;
    var R := EcMulSpec(k, G);
    var r := R.x % N;
    var kInv := InverseMod(k, N).value;
    var e := z + r * d;
    var s := (kInv * e) % N;
    SmallMod(k, N);
    InverseModPrime(k, N);
    NonceCancels(k, kInv, e, s, N);
    FlippedProduct(s, k, N);
  }

  lemma Turn(x: int, y: int, z: int)
    ensures (y * z) * x == (x * y) * z
  {}

  lemma NonceCancels(k: int, kInv: int, e: int, s: int, m: int)
    requires m > 1 && (k * kInv) % m == 1 && s == (kInv * e) % m
    ensures (s * k) % m == e % m
  {
    ModMod(kInv * e, m);
    CongScale(s, kInv * e, k, m);
    Turn(k, kInv, e);
    SmallMod(1, m);
    CongScale(k * kInv, 1, e, m);
  }

  lemma FlippedProduct(s: int, k: int, m: int)
    requires m > 0
    ensures ((m - s) * (m - k)) % m == (s * k) % m
  {
    assert (m - s) * (m - k) == s * k + (m - s - k) * m;
    AddMultiple(s * k, m - s - k, m);
  }

  /** Recovery raises exactly for an abscissa below P that N divides: 0, and N itself. From P on
      it answers that there is no point. */
  lemma RecoverRaisesExactly(z: int, r: nat, s: nat, recId: int)
    requires IsPrime(N)
    ensures Recover(z, r, s, recId) == RecoverRaised <==> r < P && r % N == 0
    ensures r >= P ==> Recover(z, r, s, recId) == Recovered(Infinity)
  {
    hide EcMulSpec, EcAdd, LiftX, IsPrime, InverseMod, FromWords;
    InverseModPrime(r, N);
  }

  // ----- recovery inverts signing -----

  /** Lifting the abscissa of a curve point gives that point or its negation, by parity, for P
      and every other prime that is 3 modulo 4. */
  lemma LiftRecoversPoint(R: Point, recId: int, m: int)
    requires IsPrime(m) && m % 4 == 3 && OnCurveMod(R, B, m) && R.Affine?
    ensures LiftMod(R.x, recId, m) == if recId % 2 == R.y % 2 then R else NegateMod(R, m)
  {
    RootOfSquare(R.x, R.y, m);
    LiftPicks(R.x, R.y, recId, m);
  }

  lemma LiftPicks(x: int, y: int, recId: int, m: int)
    requires m % 4 == 3 && 0 <= y < m
    requires var root := Pow((x * x * x + 7) % m, (m + 1) / 4) % m; root == y || root == (m - y) % m
    ensures LiftMod(x, recId, m) == Affine(x, if recId % 2 == y % 2 then y else (m - y) % m)
  {
    hide Pow;
    ParityPicks(Pow((x * x * x + 7) % m, (m + 1) / 4) % m, y, recId, m);
  }

  /** The candidate ordinate is the point's own or its negative. */
  lemma RootOfSquare(x: int, y: int, m: int)
    requires IsPrime(m) && m % 4 == 3 && 0 <= y < m && SatisfiesEquation(x, y, B, m)
    ensures var root := Pow((x * x * x + 7) % m, (m + 1) / 4) % m; root == y || root == (m - y) % m
  {
    hide Pow;
    var beta := (x * x * x + 7) % m;
    ModMod(y * y, m);
    PowCong(beta, y * y, (m + 1) / 4, m);
    SquareRoot(y, m);
    SmallMod(y, m);
    AddMultiple(-y, 1, m);
  }

  /** Modulo an odd number, a residue and its negative differ in parity unless they are zero. */
  lemma ParityPicks(root: int, y: int, bit: int, m: int)
    requires m % 2 == 1 && 0 <= y < m && (root == y || root == (m - y) % m)
    ensures (if root % 2 != bit % 2 then (m - root) % m else root) == if bit % 2 == y % 2 then y else (m - y) % m
  {
    NegateTwice(y, m);
  }

  lemma NegateTwice(y: int, m: int)
    requires 0 <= y < m
    ensures (m - y) % m == if y == 0 then 0 else m - y
    ensures (m - (m - y) % m) % m == y
  {
    if y == 0 { SmallMod(0, m); AddMultiple(0, 1, m); } else { SmallMod(m - y, m); SmallMod(y, m); }
  }

  /** Lifting r gives back the nonce point or its negative, as a multiple of G. */
  lemma LiftedNonce(k: nat, r: int, recId: int)
    requires CurveFacts() && 1 <= k < N && 0 <= recId <= 1
    requires EcMulSpec(k, G).Affine? && EcMulSpec(k, G).x < N && r == EcMulSpec(k, G).x % N
    ensures r < P && LiftX(r, recId) == Times(if recId == EcMulSpec(k, G).y % 2 then k else N - k, G)
  {
    hide FromWords, AddMod, EcMulSpec, DoubleAndAdd, TimesMod, SatisfiesEquation, AssociativeMod, IsPrime, LiftMod;
    var R := EcMulSpec(k, G);
    GeneratorOnCurve();
    EcMulIsTimes(k, G);
    TimesOnCurve(k, G, B, P);
    SmallMod(R.x, N);
    Moduli();
    LiftRecoversPoint(R, recId, P);
    NegateScalar(k);
  }

  /** secp256k1_recover on the output of sign returns the signer's public point, whether or
      not low-s flipped s and the parity bit. */
  lemma RecoverInvertsSign(d: int, z: nat, k: nat)
    requires CurveFacts() && 1 <= d < N && 1 <= k < N
    requires EcMulSpec(k, G).Affine? && EcMulSpec(k, G).x < N
    requires SignAttempt(d, z, k).Signed?
    ensures var sig := SignAttempt(d, z, k).sig;
      Recover(z, sig.r, sig.s, sig.recId) == Recovered(EcMulSpec(d, G))
  {
    hide FromWords, EcMulSpec, TimesMod, Associative, IsPrime, InverseMod, LiftMod, SignAttempt, Recover, PassRaises;
    var sig, R := SignAttempt(d, z, k).sig, EcMulSpec(k, G);
    var k' := if sig.recId == R.y % 2 then k else N - k;
    LiftedNonce(k, sig.r, sig.recId);
    SignatureEquation(d, z, k);
    SmallMod(sig.r, N);
    InverseModPrime(sig.r, N);
    RecoverScalar(d, z, k', sig.r, sig.s, sig.recId);
  }

  lemma RecoverScalar(d: nat, z: int, k: nat, r: nat, s: nat, recId: int)
    requires CurveFacts() && r < P && InverseMod(r, N).Some? && (r * InverseMod(r, N).value) % N == 1
    requires LiftX(r, recId) == Times(k, G) && (s * k) % N == (z + r * d) % N
    ensures Recover(z, r, s, recId) == Recovered(EcMulSpec(d, G))
  {
    hide FromWords, AddMod, EcMulSpec, DoubleAndAdd, TimesMod, OnCurveMod, AssociativeMod, IsPrime, InverseMod, LiftMod;
    var rInv := InverseMod(r, N).value;
    var w := Reduce(-z, N);
    GeneratorOnCurve();
    TimesOnCurve(k, G, B, P);
    EcMulIsTimes(s, Times(k, G));
    TimesTimes(s, k, G);
    EcMulIsTimes(w, G);
    TimesAdd(s * k, w, G, B, P);
    TimesOnCurve(s * k + w, G, B, P);
    EcMulIsTimes(rInv, Times(s * k + w, G));
    TimesTimes(rInv, s * k + w, G);
    RecoveredScalar(d, z, s * k, r, rInv, N);
    ScalarCong(rInv * (s * k + w), d);
    EcMulIsTimes(d, G);
  }

  lemma RecoveredScalar(d: int, z: int, sk: int, r: int, rInv: int, m: int)
    requires m > 1 && sk % m == (z + r * d) % m && (r * rInv) % m == 1
    ensures (rInv * (sk + (-z) % m)) % m == d % m
  {
    ModMod(-z, m);
    CongAdd(sk, z + r * d, (-z) % m, -z, m);
    CongMul(rInv, rInv, sk + (-z) % m, r * d, m);
    SmallMod(1, m);
    CongMul(r * rInv, 1, d, d, m);
    assert rInv * (r * d) == (r * rInv) * d;
  }
}
