/** Every point of secp256k1 is killed by N, whether or not it is a multiple of G. Counting shows
    it: three cosets of the multiples of G would hold more points than there are abscissas for. */
module CurveOrder {
  import opened NumberTheory
  import opened Secp256k1
  import opened Subgroup

  /** A multiple of G. */
  ghost predicate InGroup(pt: Point) {
    exists k: nat :: pt == Times(k, G)
  }

  /** C is A plus a multiple of G. */
  ghost predicate SameCoset(A: Point, C: Point) {
    exists k: nat :: C == EcAdd(A, Times(k, G))
  }

  // ----- counting points -----

  /** Two numbers for every abscissa, told apart by the parity of the ordinate, and one for infinity. */
  function PointCode(pt: Point, m: int): int {
    match pt
    case Infinity => 2 * m + 1
    case Affine(x, y) => 2 * x + y % 2 + 1
  }

  lemma CodeRange(pt: Point, b: int, m: int)
    requires m >= 2 && OnCurveMod(pt, b, m)
    ensures 1 <= PointCode(pt, m) <= 2 * m + 1
  {}

  lemma CodePins(p: Point, q: Point, b: int, m: int)
    requires IsPrime(m) && m % 2 == 1 && OnCurveMod(p, b, m) && OnCurveMod(q, b, m)
    requires PointCode(p, m) == PointCode(q, m)
    ensures p == q
  {
    if p.Affine? && q.Affine? {
      SameAbscissa(p, q, b, m);
      if (p.y + q.y) % m == 0 { ZeroOrModulus(p.y + q.y, m); }
    }
  }

  lemma ZeroOrModulus(s: int, m: int)
    requires m > 0 && 0 <= s < 2 * m && s % m == 0
    ensures s == 0 || s == m
  {
    if 0 < s < m { SmallMod(s, m); }
    if s > m {
      SmallMod(s - m, m);
      AddMultiple(s - m, 1, m);
    }
  }

  ghost function Image(f: nat -> int, n: nat): set<int> {
    if n == 0 then {} else Image(f, n - 1) + {f(n - 1)}
  }

  lemma {:induction false} Preimage(f: nat -> int, n: nat, x: int) returns (i: nat)
    requires x in Image(f, n)
    ensures i < n && f(i) == x
  {
    if f(n - 1) == x {
      i := n - 1;
    } else {
      i := Preimage(f, n - 1, x);
    }
  }

  ghost predicate Ranges(f: nat -> int, n: nat, m: nat) {
    forall i: nat :: i < n ==> 1 <= f(i) <= m
  }

  ghost predicate Differs(f: nat -> int, n: nat) {
    forall i, j :: 0 <= i < j < n ==> f(i) != f(j)
  }

  lemma NewImage(f: nat -> int, n: nat, m: nat)
    requires n > 0 && Ranges(f, n, m) && Differs(f, n)
    ensures Ranges(f, n - 1, m) && Differs(f, n - 1) && 1 <= f(n - 1) <= m && f(n - 1) !in Image(f, n - 1)
  {
    hide Image;
    if f(n - 1) in Image(f, n - 1) {
      var i := Preimage(f, n - 1, f(n - 1));
    }
  }

  lemma {:induction false} ImageSize(f: nat -> int, n: nat, m: nat)
    requires Ranges(f, n, m) && Differs(f, n)
    ensures |Image(f, n)| == n && Image(f, n) <= UpTo(m)
  {
    hide Ranges, Differs, UpTo;
    if n > 0 {
      NewImage(f, n, m);
      ImageSize(f, n - 1, m);
    }
  }

  /** n different numbers from 1 to m: n is at most m. */
  lemma Pigeonhole(f: nat -> int, n: nat, m: nat)
    requires Ranges(f, n, m) && Differs(f, n)
    ensures n <= m
  {
    hide Image, UpTo, Ranges, Differs;
    ImageSize(f, n, m);
    assert UpTo(m) == Image(f, n) + (UpTo(m) - Image(f, n));
  }

  // ----- the group law, in the form it is used -----

  lemma CancelLeft(X: Point, Y: Point, Z: Point)
    requires CurveFacts() && OnCurve(X) && OnCurve(Y) && OnCurve(Z) && EcAdd(X, Y) == EcAdd(X, Z)
    ensures Y == Z
  {
    hide FromWords, AddMod, OnCurveMod, AssociativeMod, IsPrime, NegateMod;
    NegateOnCurve(X, B, P);
    AddCommutes(X, Negate(X), B, P);
    Associate(Negate(X), X, Y, B, P);
    Associate(Negate(X), X, Z, B, P);
    AddInfinity(Y, P);
    AddInfinity(Z, P);
  }

  /** (X + Y) + (X + Y) is (X + X) + (Y + Y). */
  lemma DoubleSum(X: Point, Y: Point)
    requires CurveFacts() && OnCurve(X) && OnCurve(Y)
    ensures EcAdd(EcAdd(X, Y), EcAdd(X, Y)) == EcAdd(EcAdd(X, X), EcAdd(Y, Y))
  {
    hide FromWords, AddMod, OnCurveMod, AssociativeMod, IsPrime;
    AddOnCurve(X, Y, B, P);
    AddOnCurve(Y, Y, B, P);
    Associate(X, Y, EcAdd(X, Y), B, P);
    Associate(Y, X, Y, B, P);
    AddCommutes(X, Y, B, P);
    Associate(X, Y, Y, B, P);
    Associate(X, X, EcAdd(Y, Y), B, P);
  }

  /** Two cosets that meet are one: from X + j*G == Y + k*G, Y is X plus a multiple of G. */
  lemma CosetsMeet(X: Point, j: nat, Y: Point, k: nat)
    requires CurveFacts() && OnCurve(X) && OnCurve(Y) && EcAdd(X, Times(j, G)) == EcAdd(Y, Times(k, G))
    ensures SameCoset(X, Y)
  {
    hide FromWords, AddMod, TimesMod, OnCurveMod, AssociativeMod, IsPrime;
    var c := k * (N - 1);
    GeneratorOnCurve();
    TimesOnCurve(j, G, B, P);
    TimesOnCurve(k, G, B, P);
    TimesOnCurve(c, G, B, P);
    Associate(X, Times(j, G), Times(c, G), B, P);
    Associate(Y, Times(k, G), Times(c, G), B, P);
    TimesAdd(j, c, G, B, P);
    TimesAdd(k, c, G, B, P);
    assert k + c == k * N;
    MultiplesOfOrder(k);
    AddInfinity(Y, P);
    assert Y == EcAdd(X, Times(j + c, G));
  }

  lemma FromInfinity(pt: Point)
    requires SameCoset(Infinity, pt)
    ensures InGroup(pt)
  {
    hide AddMod, TimesMod, FromWords;
    var k: nat :| pt == EcAdd(Infinity, Times(k, G));
    AddInfinity(Times(k, G), P);
  }

  // ----- three cosets do not fit -----

  /** The i-th point of the three cosets of infinity, A and C, N points of each. */
  function CosetPoint(A: Point, C: Point, i: nat): Point {
    if i < N then EcAdd(Infinity, Times(i, G))
    else if i < 2 * N then EcAdd(A, Times(i - N, G))
    else EcAdd(C, Times(i - 2 * N, G))
  }

  lemma CosetPointOnCurve(A: Point, C: Point, i: nat)
    requires CurveFacts() && OnCurve(A) && OnCurve(C)
    ensures OnCurve(CosetPoint(A, C, i))
  {
    hide FromWords, AddMod, TimesMod, AssociativeMod, IsPrime;
    GeneratorOnCurve();
    var k: nat := if i < N then i else if i < 2 * N then i - N else i - 2 * N;
    TimesOnCurve(k, G, B, P);
    var X := if i < N then Infinity else if i < 2 * N then A else C;
    AddOnCurve(X, Times(k, G), B, P);
  }

  lemma SameCosetPoint(X: Point, j: nat, k: nat)
    requires CurveFacts() && OnCurve(X) && j < N && k < N && EcAdd(X, Times(j, G)) == EcAdd(X, Times(k, G))
    ensures j == k
  {
    hide FromWords, AddMod, TimesMod, OnCurveMod, AssociativeMod, IsPrime;
    GeneratorOnCurve();
    TimesOnCurve(j, G, B, P);
    TimesOnCurve(k, G, B, P);
    CancelLeft(X, Times(j, G), Times(k, G));
    ScalarPinned(j, k);
    SmallMod(j, N);
    SmallMod(k, N);
  }

  lemma CosetPointsDiffer(A: Point, C: Point, i: nat, j: nat)
    requires CurveFacts() && OnCurve(A) && OnCurve(C) && i < j < 3 * N
    requires !InGroup(A) && !InGroup(C) && !SameCoset(A, C)
    ensures CosetPoint(A, C, i) != CosetPoint(A, C, j)
  {
    hide FromWords, AddMod, TimesMod, OnCurveMod, AssociativeMod, IsPrime, InGroup, SameCoset;
    InfinityOnCurve();
    if CosetPoint(A, C, i) == CosetPoint(A, C, j) {
      var k: nat := if i < N then i else if i < 2 * N then i - N else i - 2 * N;
      var l: nat := if j < N then j else if j < 2 * N then j - N else j - 2 * N;
      var X := if i < N then Infinity else if i < 2 * N then A else C;
      var Y := if j < N then Infinity else if j < 2 * N then A else C;
      if (i < N) == (j < N) && (i < 2 * N) == (j < 2 * N) {
        SameCosetPoint(X, k, l);
      } else {
        CosetsMeet(X, k, Y, l);
        if i < N { FromInfinity(Y); }
      }
    }
  }

  lemma InfinityOnCurve()
    ensures OnCurve(Infinity)
  {}

  lemma CosetCode(A: Point, C: Point, i: nat)
    requires CurveFacts() && OnCurve(A) && OnCurve(C)
    ensures 1 <= PointCode(CosetPoint(A, C, i), P) <= 2 * P + 1
  {
    hide CurveFacts, OnCurveMod, CosetPoint, PointCode;
    CosetPointOnCurve(A, C, i);
    CodeRange(CosetPoint(A, C, i), B, P);
  }

  lemma OddModulus()
    ensures P % 2 == 1
  {
    hide FromWords;
    Moduli();
  }

  lemma CosetCodesDiffer(A: Point, C: Point, i: nat, j: nat)
    requires CurveFacts() && OnCurve(A) && OnCurve(C) && i < j < 3 * N
    requires !InGroup(A) && !InGroup(C) && !SameCoset(A, C)
    ensures PointCode(CosetPoint(A, C, i), P) != PointCode(CosetPoint(A, C, j), P)
  {
    hide OnCurveMod, AssociativeMod, IsPrime, CosetPoint, PointCode, InGroup, SameCoset, FromWords;
    CosetPointOnCurve(A, C, i);
    CosetPointOnCurve(A, C, j);
    CosetPointsDiffer(A, C, i, j);
    OddModulus();
    if PointCode(CosetPoint(A, C, i), P) == PointCode(CosetPoint(A, C, j), P) {
      CodePins(CosetPoint(A, C, i), CosetPoint(A, C, j), B, P);
    }
  }

  /** Of two points of the curve, one is a multiple of G, or they differ by one. */
  lemma ThreeCosets(A: Point, C: Point)
    requires CurveFacts() && OnCurve(A) && OnCurve(C)
    ensures InGroup(A) || InGroup(C) || SameCoset(A, C)
  {
    hide CurveFacts, FromWords, OnCurveMod, InGroup, SameCoset, CosetPoint, PointCode;
    if !InGroup(A) && !InGroup(C) && !SameCoset(A, C) {
      var f := (i: nat) => PointCode(CosetPoint(A, C, i), P);
      forall i: nat | i < 3 * N ensures 1 <= f(i) <= 2 * P + 1 {
        CosetCode(A, C, i);
      }
      forall i, j | 0 <= i < j < 3 * N ensures f(i) != f(j) {
        CosetCodesDiffer(A, C, i, j);
      }
      Pigeonhole(f, 3 * N, 2 * P + 1);
      Moduli();
    }
  }

  // ----- no point is its own negative -----

  lemma TorsionInGroup(pt: Point)
    requires CurveFacts() && InGroup(pt) && EcAdd(pt, pt) == Infinity
    ensures pt == Infinity
  {
    hide FromWords, AddMod, TimesMod, OnCurveMod, AssociativeMod, IsPrime;
    var k: nat :| pt == Times(k, G);
    GeneratorOnCurve();
    TimesAdd(k, k, G, B, P);
    if (2 * k) % N != 0 { ScalarFinite(2 * k); }
    Moduli();
    SmallMod(2, N);
    Euclid(2, k, N);
    ScalarCong(k, 0);
    TimesZero();
  }

  /** A cube root of one modulo P, other than one. */
  lemma CubeRootOfOne() returns (w: int, q: int)
    ensures 1 < w < P && w * w + w + 1 == q * P
  {
    hide FromWords;
    w := 0x7AE96A2B657C07106E64479EAC3434E99CF0497512F58995C1396C28719501EE;
    q := 0x3B034E03CBC0E9E67ADF9B678B2EA8201DD5EA436049FDC542A0960DD5579C3D;
    ModulusDigits();
  }

  lemma CubedTwin(w: int, q: int, x: int, m: int)
    requires m > 0 && w * w + w + 1 == q * m
    ensures ((w * x % m) * (w * x % m) * (w * x % m)) % m == (x * x * x) % m
  {
    var u, t, cube := w * x % m, (w - 1) * q, x * x * x;
    ModMod(w * x, m);
    Cubed(u, w * x, m);
    CubeOfOne(w, q, m);
    CubeOfProduct(w, x, t * m);
    AddMultiple(cube, t * cube, m);
    Shuffle(t, m, cube);
  }

  lemma Shuffle(x: int, y: int, z: int)
    ensures (x * y) * z == (x * z) * y
  {}

  lemma Cubed(u: int, v: int, m: int)
    requires m > 0 && u % m == v % m
    ensures (u * u * u) % m == (v * v * v) % m
  {
    CongMul(u, v, u, v, m);
    CongMul(u * u, v * v, u, v, m);
  }

  lemma CubeOfOne(w: int, q: int, m: int)
    requires w * w + w + 1 == q * m
    ensures w * w * w == 1 + (w - 1) * q * m
  {
    assert w * w * w - 1 == (w - 1) * (w * w + w + 1);
    assert (w - 1) * (q * m) == (w - 1) * q * m;
  }

  lemma CubeOfProduct(w: int, x: int, t: int)
    requires w * w * w == 1 + t
    ensures (w * x) * (w * x) * (w * x) == x * x * x + t * (x * x * x)
  {
    assert (w * x) * (w * x) * (w * x) == (w * w * w) * (x * x * x);
  }

  /** The point with the abscissa w*x: on the curve when (x, 0) is, and another one. */
  lemma Twin(x: int, w: int, q: int)
    requires CurveFacts() && OnCurve(Affine(x, 0)) && 1 < w < P && w * w + w + 1 == q * P
    ensures OnCurve(Affine(w * x % P, 0)) && w * x % P != x
  {
    hide FromWords, IsPrime, AssociativeMod;
    CubedTwin(w, q, x, P);
    var u, cube := w * x % P, x * x * x;
    CongAdd(u * u * u, cube, B, B, P);
    SmallMod(0, P);
    if u == x {
      CongDiff(w * x, x, P);
      ModMod(w * x, P);
      assert w * x - x == (w - 1) * x;
      Euclid(w - 1, x, P);
      SmallMod(w - 1, P);
      SmallMod(x, P);
      Moduli();
      SmallMod(7, P);
    }
  }

  /** With one point of ordinate zero there would be three, and four points for every N. */
  lemma NoOrderTwo(pt: Point)
    requires CurveFacts() && OnCurve(pt) && pt.Affine?
    ensures pt.y != 0
  {
    if pt.y == 0 {
      var w, q := CubeRootOfOne();
      Twin(pt.x, w, q);
      var twin := Affine(w * pt.x % P, 0);
      TwinsDiffer(pt, twin);
    }
  }

  lemma SelfInverse(pt: Point)
    requires pt.Affine? && pt.y == 0
    ensures EcAdd(pt, pt) == Infinity && Negate(pt) == pt
  {
    SmallMod(0, P);
    AddMultiple(0, 1, P);
  }

  lemma TwinsDiffer(p: Point, q: Point)
    requires CurveFacts() && OnCurve(p) && OnCurve(q) && p.Affine? && q.Affine? && p.y == 0 && q.y == 0
    ensures p == q
  {
    hide FromWords, AddMod, TimesMod, OnCurveMod, AssociativeMod, IsPrime, InGroup, NegateMod;
    SelfInverse(p);
    SelfInverse(q);
    ThreeCosets(p, q);
    if InGroup(p) {
      TorsionInGroup(p);
    } else if InGroup(q) {
      TorsionInGroup(q);
    } else {
      var k: nat :| q == EcAdd(p, Times(k, G));
      GeneratorOnCurve();
      TimesOnCurve(k, G, B, P);
      Associate(p, p, Times(k, G), B, P);
      AddInfinity(Times(k, G), P);
      var s := EcAdd(p, q);
      DoubleSum(p, q);
      AddInfinity(Infinity, P);
      IsMultiple(s, k);
      TorsionInGroup(s);
      InverseIsNegate(p, q, B, P);
    }
  }

  // ----- every point -----

  /** Twice a point is a multiple of G, whether or not the point is. */
  lemma DoubleInGroup(pt: Point)
    requires CurveFacts() && OnCurve(pt)
    ensures InGroup(pt) || InGroup(EcAdd(pt, pt))
  {
    hide FromWords, AddMod, TimesMod, OnCurveMod, AssociativeMod, IsPrime, InGroup;
    AddOnCurve(pt, pt, B, P);
    ThreeCosets(pt, EcAdd(pt, pt));
    if SameCoset(pt, EcAdd(pt, pt)) {
      var k: nat :| EcAdd(pt, pt) == EcAdd(pt, Times(k, G));
      GeneratorOnCurve();
      TimesOnCurve(k, G, B, P);
      CancelLeft(pt, pt, Times(k, G));
      assert InGroup(pt) by { IsMultiple(pt, k); }
    }
  }

  lemma IsMultiple(pt: Point, k: nat)
    requires pt == Times(k, G)
    ensures InGroup(pt)
  {}

  lemma NoHalfTurn(pt: Point)
    requires CurveFacts() && OnCurve(pt) && EcAdd(pt, pt) == Infinity
    ensures pt == Infinity
  {
    hide FromWords, AddMod, OnCurveMod, AssociativeMod, IsPrime, NegateMod;
    InverseIsNegate(pt, pt, B, P);
    if pt.Affine? {
      NoOrderTwo(pt);
      OddModulus();
      Reduced(pt);
      OddOrdinate(pt, P);
    }
  }

  lemma Reduced(pt: Point)
    requires pt.Affine? && OnCurve(pt)
    ensures 0 <= pt.x < P && 0 <= pt.y < P
  {
    hide FromWords;
  }

  lemma OddOrdinate(pt: Point, m: int)
    requires m % 2 == 1 && m >= 2 && pt.Affine? && 0 <= pt.y < m && pt == NegateMod(pt, m)
    ensures pt.y == 0
  {
    if pt.y != 0 { SmallMod(m - pt.y, m); }
  }

  lemma HalfScalar(j: nat, h: nat, n: nat)
    requires n == 2 * h + 1
    ensures j + 2 * (j * (h + 1) * (n - 1)) == (j * n) * n
  {
    assert 2 * (j * (h + 1) * (n - 1)) == j * (n + 1) * (n - 1);
    assert j * (n + 1) * (n - 1) == j * n * n - j;
  }

  /** Every point of the curve is a multiple of G. */
  lemma EveryPointIsMultiple(pt: Point)
    requires CurveFacts() && OnCurve(pt)
    ensures InGroup(pt)
  {
    hide FromWords, AddMod, TimesMod, OnCurveMod, AssociativeMod, IsPrime;
    DoubleInGroup(pt);
    if !InGroup(pt) {
      var j: nat :| EcAdd(pt, pt) == Times(j, G);
      Moduli();
      DivMod(N, 2);
      var h := N / 2;
      var s := j * (h + 1) * (N - 1);
      GeneratorOnCurve();
      InfinityOnCurve();
      TimesOnCurve(s, G, B, P);
      TimesOnCurve(2 * s, G, B, P);
      var t := EcAdd(pt, Times(s, G));
      AddOnCurve(pt, Times(s, G), B, P);
      DoubleSum(pt, Times(s, G));
      TimesAdd(s, s, G, B, P);
      assert s + s == 2 * s;
      TimesAdd(j, 2 * s, G, B, P);
      HalfScalar(j, h, N);
      MultiplesOfOrder(j * N);
      NoHalfTurn(t);
      TimesZero();
      AddInfinity(Infinity, P);
      CosetsMeet(Infinity, 0, pt, s);
      FromInfinity(pt);
    }
  }

  /** N times any point of the curve is infinity. */
  lemma EveryPointHasOrder(pt: Point)
    requires CurveFacts() && OnCurve(pt)
    ensures Times(N, pt) == Infinity
  {
    hide FromWords, AddMod, TimesMod, OnCurveMod, AssociativeMod, IsPrime;
    EveryPointIsMultiple(pt);
    var k: nat :| pt == Times(k, G);
    GeneratorOnCurve();
    TimesTimes(N, k, G);
    assert N * k == k * N;
    MultiplesOfOrder(k);
  }

  /** Scalars of any point count only modulo N. */
  lemma ScalarReduceAt(a: nat, pt: Point)
    requires CurveFacts() && OnCurve(pt)
    ensures Times(a, pt) == Times(a % N, pt)
  {
    hide FromWords, AddMod, OnCurveMod, AssociativeMod, IsPrime;
    DivMod(a, N);
    TimesAdd((a / N) * N, a % N, pt, B, P);
    EveryPointHasOrder(pt);
    TimesTimes(a / N, N, pt);
    InfinityTimes(a / N);
    AddInfinity(Times(a % N, pt), P);
  }

  /** Multiplying by a and then by its inverse modulo N gives the point back. */
  lemma UndoTimes(b: nat, a: nat, pt: Point)
    requires CurveFacts() && OnCurve(pt) && (b * a) % N == 1
    ensures Times(b, Times(a, pt)) == pt
  {
    hide FromWords, AddMod, OnCurveMod, AssociativeMod, IsPrime;
    TimesTimes(b, a, pt);
    ScalarReduceAt(b * a, pt);
    TimesOne(pt, P);
  }
}
