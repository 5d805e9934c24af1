/** The hand-written secp256k1 arithmetic of src/live/signing.py: affine point addition
    and double-and-add multiplication, over y^2 = x^3 + 7 modulo P. */
module Secp256k1 {
  import opened NumberTheory

  type Modulus = m: int | m >= 2 witness 2

  /** The number with these digits to the base 2^32, the highest first. */
  function FromWords(ws: seq<nat>): (n: nat)
    ensures ws != [] ==> n >= ws[|ws| - 1]
  {
    if ws == [] then 0 else FromWords(ws[..|ws| - 1]) * 0x1_0000_0000 + ws[|ws| - 1]
  }

  // The constants of the curve are kept as words: a proof sees their digits only where it calls
  // one of the lemmas on digits.
  const P: Modulus := FromWords([0xFFFFFFFF, 0xFFFFFFFF, 0xFFFFFFFF, 0xFFFFFFFF, 0xFFFFFFFF, 0xFFFFFFFF, 0xFFFFFFFE, 0xFFFFFC2F])
  const N: Modulus := FromWords([0xFFFFFFFF, 0xFFFFFFFF, 0xFFFFFFFF, 0xFFFFFFFE, 0xBAAEDCE6, 0xAF48A03B, 0xBFD25E8C, 0xD0364141])
  const B: int := 7
  const GX: int := FromWords([0x79BE667E, 0xF9DCBBAC, 0x55A06295, 0xCE870B07, 0x029BFCDB, 0x2DCE28D9, 0x59F2815B, 0x16F81798])
  const GY: int := FromWords([0x483ADA77, 0x26A3C465, 0x5DA4FBFC, 0x0E1108A8, 0xFD17B448, 0xA6855419, 0x9C47D08F, 0xFB10D4B8])
  const G: Point := Affine(GX, GY)

  lemma NextWord(ws: seq<nat>, i: nat)
    requires i < |ws|
    ensures FromWords(ws[..i + 1]) == FromWords(ws[..i]) * 0x1_0000_0000 + ws[i]
  {
    assert ws[..i + 1][..i] == ws[..i];
  }

  lemma FourWords(ws: seq<nat>, i: nat)
    requires i + 4 <= |ws|
    ensures FromWords(ws[..i + 4]) == (((FromWords(ws[..i]) * 0x1_0000_0000 + ws[i]) * 0x1_0000_0000 + ws[i + 1]) * 0x1_0000_0000
                                       + ws[i + 2]) * 0x1_0000_0000 + ws[i + 3]
  {
    hide FromWords;
    NextWord(ws, i);
    NextWord(ws, i + 1);
    NextWord(ws, i + 2);
    NextWord(ws, i + 3);
  }

  lemma EightWords(ws: seq<nat>)
    requires |ws| == 8
    ensures FromWords(ws) == ((((((ws[0] * 0x1_0000_0000 + ws[1]) * 0x1_0000_0000 + ws[2]) * 0x1_0000_0000 + ws[3]) * 0x1_0000_0000
                             + ws[4]) * 0x1_0000_0000 + ws[5]) * 0x1_0000_0000 + ws[6]) * 0x1_0000_0000 + ws[7]
  {
    NoWords();
    hide FromWords;
    assert ws[..0] == [] && ws[..8] == ws;
    FourWords(ws, 0);
    FourWords(ws, 4);
  }

  lemma NoWords()
    ensures FromWords([]) == 0
  {}

  lemma ModulusDigits()
    ensures P == 0xFFFFFFFFFFFFFFFFFFFFFFFFFFFFFFFFFFFFFFFFFFFFFFFFFFFFFFFEFFFFFC2F
  {
    EightWords([0xFFFFFFFF, 0xFFFFFFFF, 0xFFFFFFFF, 0xFFFFFFFF, 0xFFFFFFFF, 0xFFFFFFFF, 0xFFFFFFFE, 0xFFFFFC2F]);
  }

  lemma OrderDigits()
    ensures N == 0xFFFFFFFFFFFFFFFFFFFFFFFFFFFFFFFEBAAEDCE6AF48A03BBFD25E8CD0364141
  {
    EightWords([0xFFFFFFFF, 0xFFFFFFFF, 0xFFFFFFFF, 0xFFFFFFFE, 0xBAAEDCE6, 0xAF48A03B, 0xBFD25E8C, 0xD0364141]);
  }

  lemma GeneratorDigits()
    ensures GX == 0x79BE667EF9DCBBAC55A06295CE870B07029BFCDB2DCE28D959F2815B16F81798
    ensures GY == 0x483ADA7726A3C4655DA4FBFC0E1108A8FD17B448A68554199C47D08FFB10D4B8
  {
    EightWords([0x79BE667E, 0xF9DCBBAC, 0x55A06295, 0xCE870B07, 0x029BFCDB, 0x2DCE28D9, 0x59F2815B, 0x16F81798]);
    EightWords([0x483ADA77, 0x26A3C465, 0x5DA4FBFC, 0x0E1108A8, 0xFD17B448, 0xA6855419, 0x9C47D08F, 0xFB10D4B8]);
  }

  /** The sizes and residues that proofs use. */
  lemma Moduli()
    ensures P % 4 == 3 && P > 7 && 2 < N < P && N % 2 == 1 && 3 * N > 2 * P + 1
  {
    ModulusDigits();
    OrderDigits();
  }

  /** Infinity is Python's None. Coordinates are plain integers, as in the source. */
  datatype Point = Infinity | Affine(x: int, y: int)

  function Inv(a: int, m: int): int
    requires m >= 2
  {
    Pow(a, m - 2) % m
  }

  /** Point addition over the integers modulo m. */
  function AddMod(p1: Point, p2: Point, m: int): Point
    requires m >= 2
  {
    if p1.Infinity? then p2
    else if p2.Infinity? then p1
    else if p1.x == p2.x && (p1.y + p2.y) % m == 0 then Infinity
    else
      var lam := if p1.x == p2.x
                 then 3 * p1.x * p1.x * Inv(2 * p1.y, m) % m
                 else (p2.y - p1.y) * Inv((p2.x - p1.x) % m, m) % m;
      ThirdPoint(p1, p2, lam, m)
  }

  /** The reflected third intersection of the line of slope lam through p1 and p2. */
  function ThirdPoint(p1: Point, p2: Point, lam: int, m: int): Point
    requires p1.Affine? && p2.Affine? && m >= 2
  {
    var x3 := (lam * lam - p1.x - p2.x) % m;
    var y3 := (lam * (p1.x - x3) - p1.y) % m;
    Affine(x3, y3)
  }

  predicate OnCurveMod(pt: Point, b: int, m: int)
    requires m >= 2
  {
    pt.Affine? ==>
      0 <= pt.x < m && 0 <= pt.y < m && SatisfiesEquation(pt.x, pt.y, b, m)
  }

  predicate SatisfiesEquation(x: int, y: int, b: int, m: int)
    requires m > 0
  {
    (y * y) % m == (x * x * x + b) % m
  }

  function NegateMod(pt: Point, m: int): Point
    requires m >= 2
  {
    match pt
    case Infinity => Infinity
    case Affine(x, y) => Affine(x, (m - y) % m)
  }

  /** _ec_add: the source fixes the modulus to P. */
  function EcAdd(p1: Point, p2: Point): Point {
    AddMod(p1, p2, P)
  }

  predicate OnCurve(pt: Point) {
    OnCurveMod(pt, B, P)
  }

  function Negate(pt: Point): Point {
    NegateMod(pt, P)
  }

  // ----- the line through two points meets the curve again on the curve -----

  lemma ZeroSum(a: int, b: int, m: int)
    requires m > 0 && a % m == 0 && b % m == 0
    ensures (a + b) % m == 0
  {
    CongAdd(a, 0, b, 0, m);
  }

  lemma ZeroProduct(a: int, b: int, m: int)
    requires m > 0 && b % m == 0
    ensures (a * b) % m == 0
  {
    CongMul(a, a, b, 0, m);
  }

  /** x^3 + b minus the square of the line's ordinate at x. */
  function OnLine(x: int, x1: int, y1: int, lam: int, b: int): int {
    x * x * x + b - (lam * (x - x1) + y1) * (lam * (x - x1) + y1)
  }

  /** OnLine divided by (x - x1). */
  function Quotient(x: int, x1: int, y1: int, lam: int): int {
    x * x + x * x1 + x1 * x1 - lam * lam * (x - x1) - 2 * lam * y1
  }

  lemma OnLineFactors(x: int, x1: int, y1: int, lam: int, b: int)
    ensures OnLine(x, x1, y1, lam, b) == OnLine(x1, x1, y1, lam, b) + (x - x1) * Quotient(x, x1, y1, lam)
  {}

  lemma QuotientFactors(x: int, x1: int, y1: int, x2: int, lam: int)
    ensures Quotient(x, x1, y1, lam) == Quotient(x2, x1, y1, lam) + (x - x2) * (x + x2 + x1 - lam * lam)
  {}

  /** If x1 is a root and x2 a root of the quotient, so is the third abscissa lam^2 - x1 - x2. */
  lemma ThirdRoot(x1: int, y1: int, x2: int, x3: int, lam: int, b: int, m: int)
    requires m > 0
    requires OnLine(x1, x1, y1, lam, b) % m == 0 && Quotient(x2, x1, y1, lam) % m == 0
    requires (x3 + x2 + x1 - lam * lam) % m == 0
    ensures OnLine(x3, x1, y1, lam, b) % m == 0
  {
    OnLineFactors(x3, x1, y1, lam, b);
    QuotientFactors(x3, x1, y1, x2, lam);
    ZeroProduct(x3 - x2, x3 + x2 + x1 - lam * lam, m);
    ZeroSum(Quotient(x2, x1, y1, lam), (x3 - x2) * (x3 + x2 + x1 - lam * lam), m);
    ZeroProduct(x3 - x1, Quotient(x3, x1, y1, lam), m);
    ZeroSum(OnLine(x1, x1, y1, lam, b), (x3 - x1) * Quotient(x3, x1, y1, lam), m);
  }

  lemma BaseRoot(x1: int, y1: int, lam: int, b: int, m: int)
    requires m > 0 && SatisfiesEquation(x1, y1, b, m)
    ensures OnLine(x1, x1, y1, lam, b) % m == 0
  {
    assert OnLine(x1, x1, y1, lam, b) == (x1 * x1 * x1 + b) - y1 * y1;
    CongDiff(x1 * x1 * x1 + b, y1 * y1, m);
  }

  lemma ChordRoot(x1: int, y1: int, x2: int, y2: int, lam: int, b: int, m: int)
    requires IsPrime(m) && SatisfiesEquation(x1, y1, b, m) && SatisfiesEquation(x2, y2, b, m)
    requires (x2 - x1) % m != 0 && (lam * (x2 - x1)) % m == (y2 - y1) % m
    ensures Quotient(x2, x1, y1, lam) % m == 0
  {
    var w := lam * (x2 - x1) + y1;
    CongAdd(lam * (x2 - x1), y2 - y1, y1, y1, m);
    CongMul(w, y2, w, y2, m);
    CongDiff(x2 * x2 * x2 + b, w * w, m);
    BaseRoot(x1, y1, lam, b, m);
    CongSub(OnLine(x2, x1, y1, lam, b), 0, OnLine(x1, x1, y1, lam, b), 0, m);
    OnLineFactors(x2, x1, y1, lam, b);
    Euclid(x2 - x1, Quotient(x2, x1, y1, lam), m);
  }

  lemma TangentRoot(x1: int, y1: int, lam: int, m: int)
    requires m > 0 && (lam * (2 * y1)) % m == (3 * x1 * x1) % m
    ensures Quotient(x1, x1, y1, lam) % m == 0
  {
    CongDiff(3 * x1 * x1, lam * (2 * y1), m);
    assert Quotient(x1, x1, y1, lam) == 3 * x1 * x1 - lam * (2 * y1);
  }

  lemma LineMeetsCurve(x1: int, y1: int, x2: int, lam: int, x3: int, y3: int, b: int, m: int)
    requires m > 0 && SatisfiesEquation(x1, y1, b, m) && Quotient(x2, x1, y1, lam) % m == 0
    requires x3 == (lam * lam - x1 - x2) % m && y3 == (lam * (x1 - x3) - y1) % m
    ensures SatisfiesEquation(x3, y3, b, m)
  {
    ModMod(lam * lam - x1 - x2, m);
    CongDiff(x3, lam * lam - x1 - x2, m);
    BaseRoot(x1, y1, lam, b, m);
    ThirdRoot(x1, y1, x2, x3, lam, b, m);
    var w := lam * (x1 - x3) - y1;
    ModMod(w, m);
    CongMul(y3, w, y3, w, m);
    assert OnLine(x3, x1, y1, lam, b) == (x3 * x3 * x3 + b) - w * w;
    CongDiff(x3 * x3 * x3 + b, w * w, m);
  }

  /** num * _inv(den) % m is the slope: it solves lam * den = num. */
  lemma SlopeSolves(num: int, den: int, m: int)
    requires IsPrime(m) && den % m != 0
    ensures ((num * Inv(den, m) % m) * den) % m == num % m
  {
    FermatInverse(den, m);
    InverseDivides(num, den, Inv(den, m), m);
  }

  lemma InverseDivides(num: int, den: int, i: int, m: int)
    requires m > 1 && (den * i) % m == 1
    ensures ((num * i % m) * den) % m == num % m
  {
    ModMod(num * i, m);
    CongScale(num * i % m, num * i, den, m);
    Rotate(num, i, den);
    SmallMod(1, m);
    CongScale(den * i, 1, num, m);
  }

  lemma Rotate(x: int, y: int, z: int)
    ensures (x * y) * z == (z * y) * x
  {}

  lemma ReducedDenominator(lam: int, d: int, num: int, m: int)
    requires m > 0 && (lam * (d % m)) % m == num % m
    ensures (lam * d) % m == num % m
  {
    ModMod(d, m);
    CongMul(lam, lam, d % m, d, m);
  }

  lemma DistinctResidues(x1: int, x2: int, m: int)
    requires 0 <= x1 < m && 0 <= x2 < m && x1 != x2
    ensures (x2 - x1) % m != 0
  {
    CongDiff(x2, x1, m);
    SmallMod(x1, m);
    SmallMod(x2, m);
  }

  lemma SameSquares(a: int, b: int, m: int)
    requires IsPrime(m) && 0 <= a < m && 0 <= b < m && (a * a) % m == (b * b) % m
    ensures (a + b) % m == 0 || a == b
  {
    CongDiff(a * a, b * b, m);
    assert a * a - b * b == (a + b) * (a - b);
    Euclid(a + b, a - b, m);
    if (a - b) % m == 0 && a != b { DistinctResidues(b, a, m); }
  }

  /** Two points with the same abscissa are equal or opposite. */
  lemma SameAbscissa(p1: Point, p2: Point, b: int, m: int)
    requires IsPrime(m) && OnCurveMod(p1, b, m) && OnCurveMod(p2, b, m) && p1.Affine? && p2.Affine? && p1.x == p2.x
    ensures (p1.y + p2.y) % m == 0 || p1.y == p2.y
  {
    hide IsPrime;
    SameSquares(p1.y, p2.y, m);
  }

  /** The slope EcAdd uses, with the equation it solves in each case. */
  lemma ChordSlope(p1: Point, p2: Point, m: int) returns (lam: int)
    requires IsPrime(m) && p1.Affine? && p2.Affine? && 0 <= p1.x < m && 0 <= p2.x < m && p1.x != p2.x
    ensures 0 <= lam < m && AddMod(p1, p2, m) == ThirdPoint(p1, p2, lam, m)
    ensures (lam * (p2.x - p1.x)) % m == (p2.y - p1.y) % m && (p2.x - p1.x) % m != 0
  {
    var d := p2.x - p1.x;
    DistinctResidues(p1.x, p2.x, m);
    ModMod(d, m);
    SlopeSolves(p2.y - p1.y, d % m, m);
    lam := (p2.y - p1.y) * Inv(d % m, m) % m;
    ReducedDenominator(lam, d, p2.y - p1.y, m);
  }

  lemma SlopeTangent(p1: Point, p2: Point, b: int, m: int) returns (lam: int)
    requires IsPrime(m) && OnCurveMod(p1, b, m) && OnCurveMod(p2, b, m) && p1.Affine? && p2.Affine? && p1.x == p2.x
    requires (p1.y + p2.y) % m != 0
    ensures p1 == p2 && AddMod(p1, p2, m) == ThirdPoint(p1, p2, lam, m)
    ensures (lam * (2 * p1.y)) % m == (3 * p1.x * p1.x) % m
  {
    SameAbscissa(p1, p2, b, m);
    SlopeSolves(3 * p1.x * p1.x, 2 * p1.y, m);
    lam := 3 * p1.x * p1.x * Inv(2 * p1.y, m) % m;
  }

  lemma TangentOnCurve(p1: Point, p2: Point, b: int, m: int)
    requires IsPrime(m) && OnCurveMod(p1, b, m) && OnCurveMod(p2, b, m) && p1.Affine? && p2.Affine? && p1.x == p2.x
    requires (p1.y + p2.y) % m != 0
    ensures OnCurveMod(AddMod(p1, p2, m), b, m)
  {
    hide AddMod, IsPrime;
    var lam := SlopeTangent(p1, p2, b, m);
    TangentRoot(p1.x, p1.y, lam, m);
    var r := ThirdPoint(p1, p2, lam, m);
    LineMeetsCurve(p1.x, p1.y, p2.x, lam, r.x, r.y, b, m);
  }

  lemma ChordOnCurve(p1: Point, p2: Point, b: int, m: int)
    requires IsPrime(m) && OnCurveMod(p1, b, m) && OnCurveMod(p2, b, m) && p1.Affine? && p2.Affine? && p1.x != p2.x
    ensures OnCurveMod(AddMod(p1, p2, m), b, m)
  {
    hide AddMod, IsPrime;
    var lam := ChordSlope(p1, p2, m);
    ChordRoot(p1.x, p1.y, p2.x, p2.y, lam, b, m);
    var r := ThirdPoint(p1, p2, lam, m);
    LineMeetsCurve(p1.x, p1.y, p2.x, lam, r.x, r.y, b, m);
  }

  /** _ec_add keeps points on the curve, for P and every other prime modulus: the chord, tangent,
      inverse and infinity cases. */
  lemma AddOnCurve(p1: Point, p2: Point, b: int, m: int)
    requires IsPrime(m) && OnCurveMod(p1, b, m) && OnCurveMod(p2, b, m)
    ensures OnCurveMod(AddMod(p1, p2, m), b, m)
  {
    if p1.Infinity? || p2.Infinity? {
    } else if p1.x != p2.x {
      hide AddMod, OnCurveMod, IsPrime;
      ChordOnCurve(p1, p2, b, m);
    } else if (p1.y + p2.y) % m != 0 {
      hide AddMod, OnCurveMod, IsPrime;
      TangentOnCurve(p1, p2, b, m);
    }
  }

  lemma SlopeSymmetric(d: int, e: int, lam: int, mu: int, m: int)
    requires IsPrime(m) && d % m != 0 && 0 <= lam < m && 0 <= mu < m
    requires (lam * d) % m == e % m && (mu * (-d)) % m == (-e) % m
    ensures lam == mu
  {
    CongSub(0, 0, mu * (-d), -e, m);
    assert 0 - mu * (-d) == d * mu && lam * d == d * lam;
    Cancel(d, lam, mu, m);
    SmallMod(lam, m);
    SmallMod(mu, m);
  }

  lemma OrdinateSymmetric(lam: int, x1: int, y1: int, x2: int, y2: int, x3: int, m: int)
    requires m > 0 && (lam * (x2 - x1)) % m == (y2 - y1) % m
    ensures (lam * (x1 - x3) - y1) % m == (lam * (x2 - x3) - y2) % m
  {
    CongDiff(lam * (x2 - x1), y2 - y1, m);
    assert (lam * (x2 - x3) - y2) - (lam * (x1 - x3) - y1) == lam * (x2 - x1) - (y2 - y1);
    CongDiff(lam * (x2 - x3) - y2, lam * (x1 - x3) - y1, m);
  }

  lemma ChordCommutes(p1: Point, p2: Point, b: int, m: int)
    requires IsPrime(m) && OnCurveMod(p1, b, m) && OnCurveMod(p2, b, m) && p1.Affine? && p2.Affine? && p1.x != p2.x
    ensures AddMod(p1, p2, m) == AddMod(p2, p1, m)
  {
    hide AddMod, IsPrime;
    var lam := ChordSlope(p1, p2, m);
    var mu := ChordSlope(p2, p1, m);
    assert p1.x - p2.x == -(p2.x - p1.x) && p1.y - p2.y == -(p2.y - p1.y);
    SlopeSymmetric(p2.x - p1.x, p2.y - p1.y, lam, mu, m);
    OrdinateSymmetric(lam, p1.x, p1.y, p2.x, p2.y, ThirdPoint(p1, p2, lam, m).x, m);
  }

  lemma AddCommutes(p1: Point, p2: Point, b: int, m: int)
    requires IsPrime(m) && OnCurveMod(p1, b, m) && OnCurveMod(p2, b, m)
    ensures AddMod(p1, p2, m) == AddMod(p2, p1, m)
  {
    if p1.Affine? && p2.Affine? && p1.x != p2.x {
      hide AddMod, OnCurveMod;
      ChordCommutes(p1, p2, b, m);
    } else if p1.Affine? && p2.Affine? {
      SameAbscissa(p1, p2, b, m);
    }
  }

  lemma NegatedOrdinate(y: int, m: int)
    requires m >= 2 && 0 <= y < m
    ensures (((m - y) % m) * ((m - y) % m)) % m == (y * y) % m && (y + (m - y) % m) % m == 0
  {
    var z := (m - y) % m;
    if y == 0 {
      SmallMod(0, m);
      AddMultiple(0, 1, m);
    } else {
      SmallMod(m - y, m);
      AddMultiple(0, 1, m);
      assert (m - y) * (m - y) == y * y + (m - 2 * y) * m;
      AddMultiple(y * y, m - 2 * y, m);
    }
  }

  lemma NegateOnCurve(pt: Point, b: int, m: int)
    requires m >= 2 && OnCurveMod(pt, b, m)
    ensures OnCurveMod(NegateMod(pt, m), b, m) && AddMod(pt, NegateMod(pt, m), m) == Infinity
  {
    if pt.Affine? {
      NegatedOrdinate(pt.y, m);
    }
  }

  /** The inverse is unique: a sum is the point at infinity only for opposite points. */
  lemma InverseIsNegate(p1: Point, p2: Point, b: int, m: int)
    requires m >= 2 && OnCurveMod(p1, b, m) && OnCurveMod(p2, b, m) && AddMod(p1, p2, m) == Infinity
    ensures p2 == NegateMod(p1, m)
  {
    if p1.Affine? {
      CongSub(p1.y + p2.y, 0, p1.y, p1.y, m);
      SmallMod(p2.y, m);
      AddMultiple(-p1.y, 1, m);
    }
  }

  // ----- k-fold addition and double-and-add -----

  predicate AssociatesAt(p: Point, q: Point, r: Point, m: int)
    requires m >= 2
  {
    AddMod(AddMod(p, q, m), r, m) == AddMod(p, AddMod(q, r, m), m)
  }

  ghost predicate AssociativeMod(b: int, m: int)
    requires m >= 2
  {
    forall p, q, r {:trigger AssociatesAt(p, q, r, m)} :: OnCurveMod(p, b, m) && OnCurveMod(q, b, m) && OnCurveMod(r, b, m) ==>
      AssociatesAt(p, q, r, m)
  }

  /** Associativity of EcAdd on the curve: the one group axiom not derived here. */
  ghost predicate Associative() {
    AssociativeMod(B, P)
  }

  lemma Associate(p: Point, q: Point, r: Point, b: int, m: int)
    requires m >= 2 && AssociativeMod(b, m) && OnCurveMod(p, b, m) && OnCurveMod(q, b, m) && OnCurveMod(r, b, m)
    ensures AddMod(AddMod(p, q, m), r, m) == AddMod(p, AddMod(q, r, m), m)
  {
    assert AssociatesAt(p, q, r, m);
  }

  lemma AddInfinity(p: Point, m: int)
    requires m >= 2
    ensures AddMod(p, Infinity, m) == p && AddMod(Infinity, p, m) == p
  {}

  /** pt + ... + pt, k times. */
  function TimesMod(k: nat, pt: Point, m: int): Point
    requires m >= 2
  {
    if k == 0 then Infinity else AddMod(TimesMod(k - 1, pt, m), pt, m)
  }

  function Times(k: nat, pt: Point): Point {
    TimesMod(k, pt, P)
  }

  lemma TimesOne(pt: Point, m: int)
    requires m >= 2
    ensures TimesMod(1, pt, m) == pt
  {
    assert TimesMod(1, pt, m) == AddMod(TimesMod(0, pt, m), pt, m);
  }

  lemma {:induction false} TimesOnCurve(k: nat, pt: Point, b: int, m: int)
    requires IsPrime(m) && OnCurveMod(pt, b, m)
    ensures OnCurveMod(TimesMod(k, pt, m), b, m)
  {
    if k == 0 {
    } else {
      TimesOnCurve(k - 1, pt, b, m);
      AddOnCurve(TimesMod(k - 1, pt, m), pt, b, m);
    }
  }

  lemma {:induction false} TimesAdd(j: nat, k: nat, pt: Point, b: int, m: int)
    requires IsPrime(m) && AssociativeMod(b, m) && OnCurveMod(pt, b, m)
    ensures TimesMod(j + k, pt, m) == AddMod(TimesMod(j, pt, m), TimesMod(k, pt, m), m)
  {
    assert m > 1;
    hide AddMod, OnCurveMod, AssociativeMod, IsPrime;
    if k == 0 {
      AddInfinity(TimesMod(j, pt, m), m);
    } else {
      TimesAdd(j, k - 1, pt, b, m);
      TimesOnCurve(j, pt, b, m);
      TimesOnCurve(k - 1, pt, b, m);
      Associate(TimesMod(j, pt, m), TimesMod(k - 1, pt, m), pt, b, m);
    }
  }

  lemma {:induction false} TimesTimes(a: nat, b: nat, pt: Point)
    requires IsPrime(P) && Associative() && OnCurve(pt)
    ensures Times(a, Times(b, pt)) == Times(a * b, pt)
  {
    hide AddMod, OnCurveMod, AssociativeMod, IsPrime;
    if a == 0 {
    } else {
      TimesTimes(a - 1, b, pt);
      TimesAdd((a - 1) * b, b, pt, B, P);
      assert (a - 1) * b + b == a * b;
    }
  }

  /** The state of the double-and-add loop, as a function. */
  function DoubleAndAdd(k: nat, result: Point, addend: Point): Point {
    if k == 0 then result
    else DoubleAndAdd(k / 2, if k % 2 == 1 then EcAdd(result, addend) else result, EcAdd(addend, addend))
  }

  function EcMulSpec(k: nat, pt: Point): Point {
    DoubleAndAdd(k, Infinity, pt)
  }

  /** The scalar the loop still stands for with k left and a, b in its registers. */
  function Scalar(k: nat, a: nat, b: nat): nat {
    a + k * b
  }

  lemma HalfSteps(k: nat, a: nat, b: nat)
    ensures Scalar(k / 2, if k % 2 == 1 then a + b else a, b + b) == Scalar(k, a, b)
  {
    assert k == 2 * (k / 2) + k % 2;
    assert k * b == (k / 2) * (b + b) + (k % 2) * b;
  }

  lemma {:induction false} DoubleAndAddTimes(k: nat, a: nat, b: nat, pt: Point)
    requires IsPrime(P) && Associative() && OnCurve(pt)
    ensures DoubleAndAdd(k, Times(a, pt), Times(b, pt)) == Times(Scalar(k, a, b), pt)
    decreases k
  {
    hide AddMod, OnCurveMod, AssociativeMod, IsPrime, TimesMod;
    if k == 0 {
    } else {
      TimesAdd(a, b, pt, B, P);
      TimesAdd(b, b, pt, B, P);
      var a' := if k % 2 == 1 then a + b else a;
      DoubleAndAddTimes(k / 2, a', b + b, pt);
      HalfSteps(k, a, b);
    }
  }

  /** _ec_mul(k, pt) is k-fold addition, for every k >= 0. */
  lemma EcMulIsTimes(k: nat, pt: Point)
    requires IsPrime(P) && Associative() && OnCurve(pt)
    ensures EcMulSpec(k, pt) == Times(k, pt)
  {
    hide AddMod, OnCurveMod, AssociativeMod, IsPrime;
    TimesOne(pt, P);
    DoubleAndAddTimes(k, 0, 1, pt);
  }

  /** _ec_mul, as the loop it is; EcMulIsTimes says what it computes. */
  method EcMul(k0: nat, pt: Point) returns (result: Point)
    ensures result == EcMulSpec(k0, pt)
  {
    result := Infinity;
    var addend, k := pt, k0;
    while k != 0
      invariant DoubleAndAdd(k, result, addend) == EcMulSpec(k0, pt)
    {
      if k % 2 == 1 {
        result := EcAdd(result, addend);
      }
      addend := EcAdd(addend, addend);
      k := k / 2;
    }
  }

  lemma GeneratorQuotient() returns (q: int)
    ensures GX * GX * GX + 7 - GY * GY == q * P
    ensures 0 <= GX < P && 0 <= GY < P
  {
    q := 0x1B888E01A06E974017A28A5B4DA436169761C9730B7AEEDF75FC60F6A33CFC7792FE74711F025D590B10E57F1B3A7CE38FFC4C885C515894B45C19C9F413E5E9;
    ModulusDigits();
    GeneratorDigits();
    hide FromWords;
  }

  lemma GeneratorOnCurve()
    ensures OnCurve(G)
  {
    hide FromWords;
    var q := GeneratorQuotient();
    MultipleOf(q, P);
    CongDiff(GX * GX * GX + 7, GY * GY, P);
  }

  lemma {:induction false} InfinityTimes(c: nat)
    ensures Times(c, Infinity) == Infinity
  {
    if c != 0 { InfinityTimes(c - 1); }
  }
}
