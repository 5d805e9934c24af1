/** What _ec_add does with points of two different curves y^2 = x^3 + b and y^2 = x^3 + c. The
    recovery of src/live/signing.py adds such points when its lifted point is not on secp256k1. */
module MixedCurves {
  import opened NumberTheory
  import opened Secp256k1

  predicate InRange(pt: Point, m: int) {
    pt.Affine? ==> 0 <= pt.x < m && 0 <= pt.y < m
  }

  /** The one curve of the family that a finite point lies on. */
  function CurveOf(pt: Point): int
    requires pt.Affine?
  {
    pt.y * pt.y - pt.x * pt.x * pt.x
  }

  lemma OnItsCurve(pt: Point, m: int)
    requires m >= 2 && pt.Affine? && InRange(pt, m)
    ensures OnCurveMod(pt, CurveOf(pt), m)
  {}

  lemma OneCurve(x: int, y: int, b: int, c: int, m: int)
    requires m > 0 && SatisfiesEquation(x, y, b, m) && SatisfiesEquation(x, y, c, m)
    ensures b % m == c % m
  {
    var cube := x * x * x;
    CongSub(cube + b, cube + c, cube, cube, m);
  }

  /** Every sum has coordinates in range. */
  lemma SumInRange(p1: Point, p2: Point, m: int)
    requires m >= 2 && InRange(p1, m) && InRange(p2, m)
    ensures InRange(AddMod(p1, p2, m), m)
  {
    hide Inv;
  }

  /** Double-and-add never leaves the curve it starts on, whichever curve that is. */
  lemma {:induction false} LoopOnCurve(k: nat, result: Point, addend: Point, b: int)
    requires IsPrime(P) && OnCurveMod(result, b, P) && OnCurveMod(addend, b, P)
    ensures OnCurveMod(DoubleAndAdd(k, result, addend), b, P)
    decreases k
  {
    hide AddMod, OnCurveMod, IsPrime;
    if k != 0 {
      AddOnCurve(result, addend, b, P);
      AddOnCurve(addend, addend, b, P);
      LoopOnCurve(k / 2, if k % 2 == 1 then EcAdd(result, addend) else result, EcAdd(addend, addend), b);
    }
  }

  lemma EcMulOnCurve(k: nat, pt: Point, b: int)
    requires IsPrime(P) && OnCurveMod(pt, b, P)
    ensures OnCurveMod(EcMulSpec(k, pt), b, P)
  {
    LoopOnCurve(k, Infinity, pt, b);
  }

  // ----- one point of each curve -----

  /** The line of slope lam through V meets the curve c again at T; its third abscissa is x. */
  lemma ThirdOnCurve(V: Point, T: Point, lam: int, x: int, y: int, c: int, m: int)
    requires IsPrime(m) && V.Affine? && T.Affine? && SatisfiesEquation(V.x, V.y, c, m) && SatisfiesEquation(T.x, T.y, c, m)
    requires (T.x - V.x) % m != 0 && (lam * (T.x - V.x)) % m == (T.y - V.y) % m
    requires (x + T.x + V.x - lam * lam) % m == 0 && (lam * (x - V.x)) % m == (y - V.y) % m
    ensures SatisfiesEquation(x, y, c, m)
  {
    ChordRoot(V.x, V.y, T.x, T.y, lam, c, m);
    BaseRoot(V.x, V.y, lam, c, m);
    ThirdRoot(V.x, V.y, T.x, x, lam, c, m);
    var w := lam * (x - V.x) + V.y;
    CongAdd(lam * (x - V.x), y - V.y, V.y, V.y, m);
    CongMul(w, y, w, y, m);
    CongDiff(x * x * x + c, w * w, m);
  }

  /** The reflection of the sum lies on the line through both points. */
  lemma SumOnLine(A: Point, V: Point, lam: int, m: int)
    requires m >= 2 && A.Affine? && V.Affine? && (lam * (V.x - A.x)) % m == (V.y - A.y) % m
    ensures var S := ThirdPoint(A, V, lam, m);
      && (A.x + S.x + V.x - lam * lam) % m == 0
      && S.y == (lam * (V.x - S.x) - V.y) % m
      && (lam * (A.x - V.x)) % m == (A.y - V.y) % m
  {
    var S := ThirdPoint(A, V, lam, m);
    ModMod(lam * lam - A.x - V.x, m);
    CongDiff(S.x, lam * lam - A.x - V.x, m);
    OrdinateSymmetric(lam, A.x, A.y, V.x, V.y, S.x, m);
    CongSub(0, 0, lam * (V.x - A.x), V.y - A.y, m);
    assert 0 - lam * (V.x - A.x) == lam * (A.x - V.x);
  }

  /** A sum of a point off the curve c and a point V on it lies on c only as the negative of V. */
  lemma ChordAcross(A: Point, V: Point, c: int, m: int)
    requires IsPrime(m) && A.Affine? && V.Affine? && InRange(A, m) && OnCurveMod(V, c, m) && A.x != V.x
    requires !OnCurveMod(A, c, m) && OnCurveMod(AddMod(A, V, m), c, m)
    ensures AddMod(A, V, m) == NegateMod(V, m)
  {
    var lam := ChordSlope(A, V, m);
    var S := ThirdPoint(A, V, lam, m);
    hide AddMod, IsPrime;
    SumOnLine(A, V, lam, m);
    if S.x == V.x {
      AddMultiple(-V.y, 1, m);
    } else {
      var t := lam * (S.x - V.x) + V.y;
      assert S.y == (-t) % m by { assert lam * (V.x - S.x) - V.y == -t; }
      ReflectedOnCurve(S.x, S.y, t, c, m);
      DistinctResidues(V.x, S.x, m);
      ThirdOnCurve(V, Affine(S.x, t), lam, A.x, A.y, c, m);
      assert false;
    }
  }

  lemma ReflectedOnCurve(x: int, y: int, t: int, c: int, m: int)
    requires m > 0 && y == (-t) % m && SatisfiesEquation(x, y, c, m)
    ensures SatisfiesEquation(x, t, c, m)
  {
    ModMod(-t, m);
    CongMul(y, -t, y, -t, m);
    assert (-t) * (-t) == t * t;
  }

  /** With equal abscissas the tangent at A is taken: the sum stays on the curve of A, or A has
      ordinate zero and so has the sum. */
  lemma TangentAcross(A: Point, V: Point, b: int, m: int)
    requires IsPrime(m) && m > 3 && A.Affine? && V.Affine? && OnCurveMod(A, b, m) && InRange(V, m) && A.x == V.x
    requires (A.y + V.y) % m != 0
    ensures AddMod(A, V, m).Affine?
    ensures OnCurveMod(AddMod(A, V, m), b, m) || AddMod(A, V, m).y == 0
  {
    var lam := 3 * A.x * A.x * Inv(2 * A.y, m) % m;
    assert AddMod(A, V, m) == ThirdPoint(A, V, lam, m);
    var S := ThirdPoint(A, V, lam, m);
    if (2 * A.y) % m != 0 {
      SlopeSolves(3 * A.x * A.x, 2 * A.y, m);
      hide AddMod, IsPrime, Inv;
      TangentRoot(A.x, A.y, lam, m);
      LineMeetsCurve(A.x, A.y, V.x, lam, S.x, S.y, b, m);
    } else {
      Euclid(2, A.y, m);
      SmallMod(2, m);
      SmallMod(A.y, m);
      hide AddMod, IsPrime;
      NoInverse(2 * A.y, m);
      assert lam == 0 by { FlatSlope(3 * A.x * A.x, Inv(2 * A.y, m), m); }
      FlatOrdinate(lam, A.x - S.x, A.y, m);
    }
  }

  lemma FlatSlope(n: int, i: int, m: int)
    requires m > 0 && i == 0
    ensures n * i % m == 0
  {
    SmallMod(0, m);
  }

  lemma FlatOrdinate(lam: int, dx: int, y: int, m: int)
    requires m > 0 && lam == 0 && y == 0
    ensures (lam * dx - y) % m == 0
  {
    SmallMod(0, m);
  }

  /** pow(0, m - 2, m) is 0. */
  lemma NoInverse(a: int, m: int)
    requires m > 3 && a % m == 0
    ensures Inv(a, m) == 0
  {
    PowCong(a, 0, m - 2, m);
    SmallMod(0, m);
    assert Pow(0, m - 2) == 0 * Pow(0, m - 3);
  }

  /** The sum of A, off the curve c, and V, on it, lies on c in two ways only. */
  lemma SumAcross(A: Point, V: Point, c: int, m: int)
    requires IsPrime(m) && m > 3 && A.Affine? && V.Affine? && InRange(A, m) && OnCurveMod(V, c, m)
    requires !OnCurveMod(A, c, m) && OnCurveMod(AddMod(A, V, m), c, m)
    ensures AddMod(A, V, m) == NegateMod(V, m) || (AddMod(A, V, m).Affine? && AddMod(A, V, m).y == 0)
  {
    if A.x != V.x {
      ChordAcross(A, V, c, m);
    } else if (A.y + V.y) % m == 0 {
      CongSub(A.y + V.y, 0, V.y, V.y, m);
      SmallMod(A.y, m);
      AddMultiple(-V.y, 1, m);
      NegateOnCurve(V, c, m);
      assert false;
    } else {
      hide AddMod, IsPrime;
      OnItsCurve(A, m);
      TangentAcross(A, V, CurveOf(A), m);
      var S := AddMod(A, V, m);
      if OnCurveMod(S, CurveOf(A), m) {
        OneCurve(S.x, S.y, CurveOf(A), c, m);
        SameCurve(A, CurveOf(A), c, m);
        assert false;
      }
    }
  }

  lemma SameCurve(pt: Point, b: int, c: int, m: int)
    requires m >= 2 && OnCurveMod(pt, b, m) && b % m == c % m
    ensures OnCurveMod(pt, c, m)
  {
    if pt.Affine? {
      CongAdd(b, c, pt.x * pt.x * pt.x, pt.x * pt.x * pt.x, m);
    }
  }
}
