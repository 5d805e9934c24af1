/** When secp256k1_recover of src/live/signing.py returns the signer. It tries the abscissa x = r
    and never r + N, and it does not check that the point it lifts is on the curve. */
module Recovery {
  import opened NumberTheory
  import opened Secp256k1
  import opened MixedCurves
  import opened Subgroup
  import opened CurveOrder
  import opened Ecdsa

  /** Taking w*G off again, where w stands for -z. */
  lemma CancelDigest(X: Point, w: nat, z: nat, m: nat)
    requires CurveFacts() && OnCurve(X) && (w + z) % N == 0 && EcAdd(X, Times(w, G)) == Times(m, G)
    ensures X == Times(m + z, G)
  {
    hide FromWords, AddMod, TimesMod, OnCurveMod, AssociativeMod, IsPrime;
    GeneratorOnCurve();
    TimesOnCurve(w, G, B, P);
    TimesOnCurve(z, G, B, P);
    Associate(X, Times(w, G), Times(z, G), B, P);
    TimesAdd(w, z, G, B, P);
    TimesAdd(m, z, G, B, P);
    ScalarCong(w + z, 0);
    AddInfinity(X, P);
    TimesZero();
  }

  lemma NegatedDigest(z: int)
    ensures (Reduce(-z, N) + z) % N == 0
  {
    ModMod(-z, N);
    CongAdd(Reduce(-z, N), -z, z, z, N);
  }

  /** Recovery from a curve point L gives d*G only if L is the point R' that was signed with. */
  lemma RecoverPinsPoint(d: nat, z: nat, k: nat, r: nat, s: nat, recId: int)
    requires CurveFacts() && r < P && 0 < r < N && 0 < s < N && OnCurve(LiftX(r, recId))
    requires (s * k) % N == (z + r * d) % N
    requires Recover(z, r, s, recId) == Recovered(EcMulSpec(d, G))
    ensures LiftX(r, recId) == Times(k, G)
  {
    hide FromWords, AddMod, EcMulSpec, DoubleAndAdd, TimesMod, OnCurveMod, AssociativeMod, IsPrime, InverseMod, LiftMod;
    var digest: int := z;
    var L, w := LiftX(r, recId), Reduce(-digest, N);
    NegatedDigest(digest);
    GeneratorOnCurve();
    SmallMod(r, N);
    SmallMod(s, N);
    InverseModPrime(r, N);
    InverseModPrime(s, N);
    var rInv, sInv := InverseMod(r, N).value, InverseMod(s, N).value;
    EcMulIsTimes(s, L);
    EcMulIsTimes(w, G);
    EcMulIsTimes(d, G);
    TimesOnCurve(s, L, B, P);
    TimesOnCurve(w, G, B, P);
    var A := EcAdd(Times(s, L), Times(w, G));
    AddOnCurve(Times(s, L), Times(w, G), B, P);
    EcMulIsTimes(rInv, A);
    UndoTimes(r, rInv, A);
    TimesTimes(r, d, G);
    CancelDigest(Times(s, L), w, z, r * d);
    ScalarCong(r * d + z, s * k);
    TimesTimes(s, k, G);
    TimesOnCurve(k, G, B, P);
    assert (sInv * s) % N == 1 by { assert sInv * s == s * sInv; }
    UndoTimes(sInv, s, L);
    UndoTimes(sInv, s, Times(k, G));
  }

  // ----- a lifted point off the curve -----

  /** What recovery multiplies in the end when it returns d*G: it is r*d*G, on the curve. */
  lemma LastFactor(S: Point, d: nat, r: nat)
    requires CurveFacts() && 0 < r < N && 0 < d < N && InRange(S, P)
    requires InverseMod(r, N).Some? && (r * InverseMod(r, N).value) % N == 1
    requires EcMulSpec(InverseMod(r, N).value, S) == EcMulSpec(d, G)
    ensures OnCurve(S) && S == Times(r * d, G)
  {
    hide FromWords, AddMod, EcMulSpec, DoubleAndAdd, TimesMod, AssociativeMod, IsPrime, InverseMod, OnCurveMod;
    var rInv := InverseMod(r, N).value;
    GeneratorOnCurve();
    SmallMod(d, N);
    EcMulIsTimes(d, G);
    ScalarFinite(d);
    TimesOnCurve(d, G, B, P);
    assert OnCurve(S) by {
      if S.Affine? {
        OnItsCurve(S, P);
        EcMulOnCurve(rInv, S, CurveOf(S));
        FinitePointsPin(Times(d, G), S, CurveOf(S));
      } else {
        Nowhere();
      }
    }
    EcMulIsTimes(rInv, S);
    UndoTimes(r, rInv, S);
    TimesTimes(r, d, G);
  }

  lemma Nowhere()
    ensures OnCurve(Infinity)
  {}

  lemma FinitePointsPin(Q: Point, S: Point, b: int)
    requires Q.Affine? && OnCurveMod(Q, b, P) && OnCurve(Q) && OnCurveMod(S, b, P)
    ensures OnCurve(S)
  {
    OneCurve(Q.x, Q.y, b, B, P);
    SameCurve(S, b, B, P);
  }

  /** The chord of recovery runs back into the digest's own point: s*L - z*G = z*G. */
  predicate Coincides(z: int, r: int, s: nat, recId: int) {
    var V := EcMulSpec(Reduce(-z, N), G);
    EcAdd(EcMulSpec(s, LiftX(r, recId)), V) == Negate(V)
  }

  /** With a lifted point off the curve, d*G comes out only by that coincidence, and only for a
      digest that is r*d modulo N. */
  lemma OffCurveMisses(d: nat, z: nat, r: nat, s: nat, recId: int)
    requires CurveFacts() && 0 < r < N && r < P && 0 < d < N && !OnCurve(LiftX(r, recId))
    requires (z + r * d) % N != 0
    requires Recover(z, r, s, recId) == Recovered(EcMulSpec(d, G))
    ensures z % N == (r * d) % N && Coincides(z, r, s, recId)
  {
    hide FromWords, AddMod, EcMulSpec, DoubleAndAdd, TimesMod, AssociativeMod, IsPrime, InverseMod, OnCurveMod, LiftMod;
    var digest: int := z;
    var L, w := LiftX(r, recId), Reduce(-digest, N);
    var A, V := EcMulSpec(s, L), EcMulSpec(w, G);
    var S := EcAdd(A, V);
    SmallMod(r, N);
    InverseModPrime(r, N);
    LiftInRange(r, recId);
    OnItsCurve(L, P);
    EcMulOnCurve(s, L, CurveOf(L));
    GeneratorOnCurve();
    EcMulIsTimes(w, G);
    TimesOnCurve(w, G, B, P);
    CurveInRange(A, CurveOf(L), P);
    CurveInRange(V, B, P);
    SumInRange(A, V, P);
    LastFactor(S, d, r);
    NegatedDigest(digest);
    OffCurveSum(A, V, L);
    if A.Infinity? {
      Nowhere();
      CancelDigest(Infinity, w, z, r * d);
      if (r * d + z) % N != 0 { ScalarFinite(r * d + z); }
      assert false;
    }
    NegateOnCurve(V, B, P);
    AddCommutes(V, S, B, P);
    TimesZero();
    CancelDigest(S, w, z, 0);
    ScalarPinned(z, r * d);
  }

  lemma CurveInRange(pt: Point, b: int, m: int)
    requires m >= 2 && OnCurveMod(pt, b, m)
    ensures InRange(pt, m)
  {}

  lemma LiftInRange(r: nat, recId: int)
    requires r < P
    ensures LiftX(r, recId).Affine? && InRange(LiftX(r, recId), P)
  {
    hide Pow;
  }

  /** The sum that is on the curve although the point A of another curve went into it. */
  lemma OffCurveSum(A: Point, V: Point, L: Point)
    requires CurveFacts() && L.Affine? && InRange(L, P) && !OnCurve(L)
    requires OnCurveMod(A, CurveOf(L), P) && InRange(A, P) && OnCurve(V) && OnCurve(EcAdd(A, V))
    ensures A.Infinity? || EcAdd(A, V) == Negate(V)
  {
    hide FromWords, AddMod, AssociativeMod, IsPrime, OnCurveMod;
    if A.Affine? {
      if OnCurve(A) {
        OnItsCurve(L, P);
        FinitePointsPin(A, L, CurveOf(L));
        assert false;
      }
      if V.Infinity? {
        AddInfinity(A, P);
        assert false;
      }
      SumAcross(A, V, B, P);
      if EcAdd(A, V).Affine? { NoOrderTwo(EcAdd(A, V)); }
    }
  }

  /** The coincidence does return the signer. */
  lemma CoincidenceHits(d: nat, z: nat, r: nat, s: nat, recId: int)
    requires CurveFacts() && 0 < r < N && r < P && z % N == (r * d) % N && Coincides(z, r, s, recId)
    ensures Recover(z, r, s, recId) == Recovered(EcMulSpec(d, G))
  {
    hide FromWords, AddMod, EcMulSpec, DoubleAndAdd, TimesMod, AssociativeMod, IsPrime, InverseMod, OnCurveMod, LiftMod, NegateMod;
    var digest: int := z;
    var w := Reduce(-digest, N);
    SmallMod(r, N);
    InverseModPrime(r, N);
    var rInv := InverseMod(r, N).value;
    GeneratorOnCurve();
    EcMulIsTimes(w, G);
    NegateScalar(w);
    TimesOnCurve(N - w, G, B, P);
    EcMulIsTimes(rInv, Times(N - w, G));
    TimesTimes(rInv, N - w, G);
    NegatedScalar(z, r, d, rInv);
    ScalarCong(rInv * (N - w), d);
    EcMulIsTimes(d, G);
  }

  lemma NegatedScalar(z: int, r: int, d: int, rInv: int)
    requires z % N == (r * d) % N && (r * rInv) % N == 1
    ensures (rInv * (N - Reduce(-z, N))) % N == d % N
  {
    NegatedDigest(z);
    var w := Reduce(-z, N);
    AddMultiple(-w, 1, N);
    CongSub(w + z, 0, w, w, N);
    assert -w == 0 - w && z == (w + z) - w;
    CongMul(rInv, rInv, N - w, r * d, N);
    SmallMod(1, N);
    CongMul(r * rInv, 1, d, d, N);
    assert rInv * (r * d) == (r * rInv) * d;
  }

  lemma NonzeroNumerator(kInv: int, e: int)
    requires (kInv * e) % N != 0
    ensures e % N != 0
  {
    if e % N == 0 { ZeroProduct(kInv, e, N); }
  }

  lemma SignedNumerator(d: int, z: nat, k: nat)
    requires SignAttempt(d, z, k).Signed?
    ensures (z + SignAttempt(d, z, k).sig.r * d) % N != 0
  {
    hide EcMulSpec, InverseMod;
    var r := EcMulSpec(k, G).x % N;
    NonzeroNumerator(InverseMod(k, N).value, z + r * d);
  }

  /** A lifted point on the curve, with the nonce point's abscissa at N or above: a miss. */
  lemma OnCurveMisses(d: int, z: nat, k: nat)
    requires CurveFacts() && 1 <= d < N && 1 <= k < N && SignAttempt(d, z, k).Signed?
    requires EcMulSpec(k, G).x >= N && OnCurve(LiftX(SignAttempt(d, z, k).sig.r, SignAttempt(d, z, k).sig.recId))
    ensures var sig := SignAttempt(d, z, k).sig;
      Recover(z, sig.r, sig.s, sig.recId) != Recovered(EcMulSpec(d, G))
  {
    hide FromWords, EcMulSpec, TimesMod, Associative, IsPrime, SignAttempt, PassRaises, Recover, OnCurveMod, LiftMod, NegateMod;
    var sig, R := SignAttempt(d, z, k).sig, EcMulSpec(k, G);
    if Recover(z, sig.r, sig.s, sig.recId) == Recovered(EcMulSpec(d, G)) {
      var k' := if sig.recId == R.y % 2 then k else N - k;
      Moduli();
      SignatureEquation(d, z, k);
      GeneratorOnCurve();
      EcMulIsTimes(k, G);
      NegateScalar(k);
      RecoverPinsPoint(d, z, k', sig.r, sig.s, sig.recId);
      LiftAbscissa(sig.r, sig.recId);
      NegateAbscissa(R);
    }
  }

  /** Recovery of a signature returns the signer exactly when the nonce point's abscissa is below
      N, or when the lifted point is off the curve, the digest is r*d and the sum coincides. */
  lemma RecoverExact(d: int, z: nat, k: nat)
    requires CurveFacts() && 1 <= d < N && 1 <= k < N && SignAttempt(d, z, k).Signed?
    ensures EcMulSpec(k, G).Affine?
    ensures var sig := SignAttempt(d, z, k).sig;
      Recover(z, sig.r, sig.s, sig.recId) == Recovered(EcMulSpec(d, G))
      <==> (EcMulSpec(k, G).x < N
        || (!OnCurve(LiftX(sig.r, sig.recId)) && z % N == (sig.r * d) % N && Coincides(z, sig.r, sig.s, sig.recId)))
  {
    hide FromWords, EcMulSpec, TimesMod, Associative, IsPrime, SignAttempt, PassRaises, Recover, OnCurveMod, LiftMod, Coincides;
    var sig, R := SignAttempt(d, z, k).sig, EcMulSpec(k, G);
    Moduli();
    if R.x < N {
      RecoverInvertsSign(d, z, k);
    } else if OnCurve(LiftX(sig.r, sig.recId)) {
      OnCurveMisses(d, z, k);
    } else {
      if Recover(z, sig.r, sig.s, sig.recId) == Recovered(EcMulSpec(d, G)) {
        SignedNumerator(d, z, k);
        OffCurveMisses(d, z, sig.r, sig.s, sig.recId);
      }
      if z % N == (sig.r * d) % N && Coincides(z, sig.r, sig.s, sig.recId) {
        CoincidenceHits(d, z, sig.r, sig.s, sig.recId);
      }
    }
  }

  lemma LiftAbscissa(r: int, recId: int)
    ensures LiftX(r, recId).Affine? && LiftX(r, recId).x == r
  {
    hide Pow;
  }

  lemma NegateAbscissa(pt: Point)
    requires pt.Affine?
    ensures Negate(pt).Affine? && Negate(pt).x == pt.x
  {}
}
