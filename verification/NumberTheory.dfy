/** Elementary number theory behind the modular arithmetic of src/live/signing.py:
    congruences, Euclid's lemma, Fermat's little theorem, and the square-root and
    inverse formulas the signing code relies on. */
module NumberTheory {
  import opened Basics


  /** Mathematical power; Python's pow(b, e, m) is Pow(b, e) % m. */
  function Pow(b: int, e: nat): int {
    if e == 0 then 1 else b * Pow(b, e - 1)
  }

  /** a % m, whose result lies in 0..m-1 also for negative a. */
  function Reduce(a: int, m: int): (r: nat)
    requires m > 0
    ensures r < m
  {
    a % m
  }

  predicate Divides(d: int, n: int)
    requires d != 0
  {
    n % d == 0
  }

  ghost predicate IsPrime(p: int) {
    p > 1 && forall d :: 1 < d < p ==> !Divides(d, p)
  }

  // ----- congruences -----

  lemma DivModUnique(a: int, q: int, r: int, m: int)
    requires 0 <= r < m && a == q * m + r
    ensures a / m == q && a % m == r
  {
    var d := q - a / m;
    assert d * m == a % m - r;
    if d >= 1 {
      MulMonotone(1, d, m);
    } else if d <= -1 {
      MulMonotone(d, -1, m);
    }
  }

  lemma DivMod(a: int, m: int)
    requires m > 0
    ensures a == (a / m) * m + a % m
  {}

  lemma MulMonotone(x: int, y: int, m: int)
    requires x <= y && m >= 0
    ensures x * m <= y * m
  {
    assert (y - x) * m >= 0;
  }

  lemma AddMultiple(a: int, k: int, m: int)
    requires m > 0
    ensures (a + k * m) % m == a % m
  {
    DivModUnique(a + k * m, a / m + k, a % m, m);
  }

  lemma MultipleOf(k: int, m: int)
    requires m > 0
    ensures (k * m) % m == 0
  {
    AddMultiple(0, k, m);
  }

  /** The quotient that witnesses a congruence. */
  lemma CongWitness(a: int, b: int, m: int) returns (k: int)
    requires m > 0 && a % m == b % m
    ensures a == b + k * m
  {
    k := a / m - b / m;
    assert k * m == (a / m) * m - (b / m) * m;
  }

  lemma CongAdd(a: int, a': int, b: int, b': int, m: int)
    requires m > 0 && a % m == a' % m && b % m == b' % m
    ensures (a + b) % m == (a' + b') % m
  {
    var j := CongWitness(a, a', m);
    var k := CongWitness(b, b', m);
    assert a + b == a' + b' + (j + k) * m;
    AddMultiple(a' + b', j + k, m);
  }

  lemma CongSub(a: int, a': int, b: int, b': int, m: int)
    requires m > 0 && a % m == a' % m && b % m == b' % m
    ensures (a - b) % m == (a' - b') % m
  {
    var j := CongWitness(a, a', m);
    var k := CongWitness(b, b', m);
    assert a - b == a' - b' + (j - k) * m;
    AddMultiple(a' - b', j - k, m);
  }

  lemma ShiftScaled(x: int, j: int, m: int, b: int)
    ensures (x + j * m) * b == x * b + (j * b) * m
  {}

  lemma CongScale(a: int, a': int, b: int, m: int)
    requires m > 0 && a % m == a' % m
    ensures (a * b) % m == (a' * b) % m
  {
    var j := CongWitness(a, a', m);
    ShiftScaled(a', j, m, b);
    AddMultiple(a' * b, j * b, m);
  }

  lemma CongMul(a: int, a': int, b: int, b': int, m: int)
    requires m > 0 && a % m == a' % m && b % m == b' % m
    ensures (a * b) % m == (a' * b') % m
  {
    CongScale(a, a', b, m);
    CongScale(b, b', a', m);
    assert a' * b == b * a' && a' * b' == b' * a';
  }

  lemma ModMod(a: int, m: int)
    requires m > 0
    ensures (a % m) % m == a % m
  {
    DivModUnique(a % m, 0, a % m, m);
  }

  /** a and b are congruent exactly when m divides their difference. */
  lemma CongDiff(a: int, b: int, m: int)
    requires m > 0
    ensures a % m == b % m <==> (a - b) % m == 0
  {
    if a % m == b % m {
      var k := CongWitness(a, b, m);
      MultipleOf(k, m);
    }
    if (a - b) % m == 0 {
      var k := CongWitness(a - b, 0, m);
      AddMultiple(b, k, m);
    }
  }

  lemma SmallMod(a: int, m: int)
    requires 0 <= a < m
    ensures a % m == a
  {
    DivModUnique(a, 0, a, m);
  }

  // ----- powers -----

  lemma Regroup(x: int, y: int, z: int)
    ensures x * (y * z) == (x * y) * z
  {}

  lemma {:induction false} PowAdd(b: int, m: nat, n: nat)
    ensures Pow(b, m + n) == Pow(b, m) * Pow(b, n)
  {
    if m == 0 {
    } else {
      PowAdd(b, m - 1, n);
      assert Pow(b, m + n) == b * Pow(b, m - 1 + n) && Pow(b, m) == b * Pow(b, m - 1);
      Regroup(b, Pow(b, m - 1), Pow(b, n));
    }
  }

  lemma {:induction false} PowSquare(b: int, n: nat)
    ensures Pow(b * b, n) == Pow(b, 2 * n)
  {
    if n == 0 {
    } else {
      PowSquare(b, n - 1);
      assert Pow(b, 2 * n) == b * (b * Pow(b, 2 * n - 2));
      Regroup(b, b, Pow(b, 2 * n - 2));
      assert 2 * (n - 1) == 2 * n - 2;
    }
  }

  lemma {:induction false} PowCong(a: int, b: int, e: nat, m: int)
    requires m > 0 && a % m == b % m
    ensures Pow(a, e) % m == Pow(b, e) % m
  {
    if e == 0 {
    } else {
      PowCong(a, b, e - 1, m);
      CongMul(a, b, Pow(a, e - 1), Pow(b, e - 1), m);
    }
  }

  // ----- Euclid's lemma, by descent on a -----

  lemma Descend(a: int, b: int, p: int, q: int, r: int, k: int)
    requires p == q * a + r && a * b == k * p
    ensures r * b == (b - q * k) * p
  {
    calc {
      r * b;
      (p - q * a) * b;
      p * b - q * (a * b);
      p * b - q * (k * p);
      (b - q * k) * p;
    }
  }

  lemma {:induction false} EuclidSmall(a: int, b: int, p: int)
    requires IsPrime(p) && 0 < a < p && (a * b) % p == 0
    ensures b % p == 0
    decreases a
  {
    if a == 1 {
    } else {
      var q, r := p / a, p % a;
      assert r != 0 by { assert !Divides(a, p); }
      var k := CongWitness(a * b, 0, p);
      Descend(a, b, p, q, r, k);
      MultipleOf(b - q * k, p);
      EuclidSmall(r, b, p);
    }
  }

  lemma Euclid(a: int, b: int, p: int)
    requires IsPrime(p) && (a * b) % p == 0
    ensures a % p == 0 || b % p == 0
  {
    if a % p != 0 {
      ModMod(a, p);
      CongMul(a, a % p, b, b, p);
      EuclidSmall(a % p, b, p);
    }
  }

  /** Cancellation of a factor that is invertible modulo p. */
  lemma Cancel(a: int, x: int, y: int, p: int)
    requires IsPrime(p) && a % p != 0 && (a * x) % p == (a * y) % p
    ensures x % p == y % p
  {
    CongDiff(a * x, a * y, p);
    assert a * x - a * y == a * (x - y);
    Euclid(a, x - y, p);
    CongDiff(x, y, p);
  }

  // ----- Fermat's little theorem, by the product of the nonzero residues -----

  ghost function Pick<T>(s: set<T>): (x: T)
    requires s != {}
    ensures x in s
  {
    var x :| x in s; x
  }

  ghost function Prod(s: set<int>): int {
    if s == {} then 1 else var x := Pick(s); x * Prod(s - {x})
  }

  lemma {:induction false} ProdRemove(s: set<int>, y: int)
    requires y in s
    ensures Prod(s) == y * Prod(s - {y})
    decreases |s|
  {
    var x := Pick(s);
    if x != y {
      ProdRemove(s - {x}, y);
      ProdRemove(s - {y}, x);
      assert s - {x} - {y} == s - {y} - {x};
      Swap(x, y, Prod(s - {x} - {y}));
    }
  }

  lemma Swap(x: int, y: int, t: int)
    ensures x * (y * t) == y * (x * t)
  {}

  lemma ProdInsert(s: set<int>, y: int)
    requires y !in s
    ensures Prod(s + {y}) == y * Prod(s)
  {
    ProdRemove(s + {y}, y);
    assert s + {y} - {y} == s;
  }

  /** {1, ..., k} */
  ghost function UpTo(k: nat): (s: set<int>)
    ensures forall i :: i in s <==> 1 <= i <= k
    ensures |s| == k
  {
    if k == 0 then {} else UpTo(k - 1) + {k}
  }

  /** {a*1 mod p, ..., a*k mod p} */
  ghost function Residues(a: int, k: nat, p: int): (s: set<int>)
    requires p > 0
    ensures forall y :: y in s ==> exists i :: 1 <= i <= k && y == Residue(a, i, p)
  {
    if k == 0 then {} else Residues(a, k - 1, p) + {Residue(a, k, p)}
  }

  ghost function Residue(a: int, i: int, p: int): int
    requires p > 0
  {
    (a * i) % p
  }

  ghost function Factorial(k: nat): int {
    if k == 0 then 1 else k * Factorial(k - 1)
  }

  lemma {:induction false} ProdUpTo(k: nat)
    ensures Prod(UpTo(k)) == Factorial(k)
  {
    if k == 0 {
    } else {
      ProdUpTo(k - 1);
      ProdInsert(UpTo(k - 1), k);
    }
  }

  lemma FreshResidue(a: int, k: nat, p: int)
    requires IsPrime(p) && a % p != 0 && 1 <= k < p
    ensures Residue(a, k, p) !in Residues(a, k - 1, p)
    ensures 1 <= Residue(a, k, p) < p
  {
    if Residue(a, k, p) in Residues(a, k - 1, p) {
      var i :| 1 <= i <= k - 1 && Residue(a, k, p) == Residue(a, i, p);
      Cancel(a, k, i, p);
      SmallMod(k, p);
      SmallMod(i, p);
    }
    if Residue(a, k, p) == 0 {
      Euclid(a, k, p);
      SmallMod(k, p);
    }
  }

  lemma FourFactors(a: int, k: int, x: int, f: int)
    ensures (a * k) * (x * f) == (a * x) * (k * f)
  {
    Swap(k, x, f);
    assert (a * k) * (x * f) == a * (k * (x * f)) && (a * x) * (k * f) == a * (x * (k * f));
  }

  lemma ProductStep(a: int, k: int, pr: int, x: int, f: int, p: int)
    requires p > 0 && pr % p == (x * f) % p
    ensures (Residue(a, k, p) * pr) % p == ((a * x) * (k * f)) % p
  {
    ModMod(a * k, p);
    CongMul(Residue(a, k, p), a * k, pr, x * f, p);
    FourFactors(a, k, x, f);
  }

  lemma InsertInto(s: set<int>, y: int, t: set<int>)
    requires y !in s && y in t && s <= t
    ensures |s + {y}| == |s| + 1 && s + {y} <= t
  {}

  lemma {:induction false} ResiduesDistinct(a: int, k: nat, p: int)
    requires IsPrime(p) && a % p != 0 && k < p
    ensures |Residues(a, k, p)| == k && Residues(a, k, p) <= UpTo(p - 1)
  {
    if k == 0 {
    } else {
      ResiduesDistinct(a, k - 1, p);
      FreshResidue(a, k, p);
      hide IsPrime, Residue, UpTo;
      InsertInto(Residues(a, k - 1, p), Residue(a, k, p), UpTo(p - 1));
    }
  }

  lemma {:induction false} ResiduesProduct(a: int, k: nat, p: int)
    requires IsPrime(p) && a % p != 0 && k < p
    ensures Prod(Residues(a, k, p)) % p == (Pow(a, k) * Factorial(k)) % p
  {
    if k == 0 {
    } else {
      var s := Residues(a, k - 1, p);
      assert Prod(s) % p == (Pow(a, k - 1) * Factorial(k - 1)) % p by { ResiduesProduct(a, k - 1, p); }
      assert Prod(Residues(a, k, p)) == Residue(a, k, p) * Prod(s) by {
        FreshResidue(a, k, p);
        ProdInsert(s, Residue(a, k, p));
      }
      ProductStep(a, k, Prod(s), Pow(a, k - 1), Factorial(k - 1), p);
    }
  }

  lemma {:induction false} FactorialCoprime(k: nat, p: int)
    requires IsPrime(p) && k < p
    ensures Factorial(k) % p != 0
  {
    if k == 0 {
      SmallMod(1, p);
    } else {
      FactorialCoprime(k - 1, p);
      SmallMod(k, p);
      if Factorial(k) % p == 0 { Euclid(k, Factorial(k - 1), p); }
    }
  }

  lemma SubsetOfEqualSize(s: set<int>, t: set<int>)
    requires s <= t && |s| == |t|
    ensures s == t
  {
    assert t == s + (t - s);
    assert |t| == |s| + |t - s|;

  }

  lemma Fermat(a: int, p: int)
    requires IsPrime(p) && a % p != 0
    ensures Pow(a, p - 1) % p == 1
  {
    var x, f := Pow(a, p - 1), Factorial(p - 1);
    assert (x * f) % p == f % p by {
      ResiduesProduct(a, p - 1, p);
      ResiduesDistinct(a, p - 1, p);
      SubsetOfEqualSize(Residues(a, p - 1, p), UpTo(p - 1));
      ProdUpTo(p - 1);
    }
    FactorialCoprime(p - 1, p);
    CancelOne(f, x, p);
  }

  lemma CancelOne(f: int, x: int, p: int)
    requires IsPrime(p) && f % p != 0 && (x * f) % p == f % p
    ensures x % p == 1
  {
    assert x * f == f * x && f == f * 1;
    Cancel(f, x, 1, p);
    SmallMod(1, p);
  }

  /** _inv(a, m) = pow(a, m - 2, m) inverts a modulo a prime. */
  lemma FermatInverse(a: int, p: int)
    requires IsPrime(p) && a % p != 0
    ensures (a * (Pow(a, p - 2) % p)) % p == 1
  {
    Fermat(a, p);
    ModMod(Pow(a, p - 2), p);
    CongMul(a, a, Pow(a, p - 2) % p, Pow(a, p - 2), p);
  }

  /** A square root of 1 modulo a prime is 1 or -1. */
  lemma RootOfOne(h: int, p: int)
    requires IsPrime(p) && (h * h) % p == 1
    ensures h % p == 1 % p || h % p == (-1) % p
  {
    SmallMod(1, p);
    CongDiff(h * h, 1, p);
    assert h * h - 1 == (h - 1) * (h + 1);
    Euclid(h - 1, h + 1, p);
    CongDiff(h, 1, p);
    CongDiff(h, -1, p);
  }

  /** For p = 3 mod 4, raising y*y to (p + 1) / 4 gives y or -y. */
  lemma SquareRoot(y: int, p: int)
    requires IsPrime(p) && p % 4 == 3
    ensures Pow(y * y, (p + 1) / 4) % p == y % p || Pow(y * y, (p + 1) / 4) % p == (-y) % p
  {
    assert p > 1;
    hide IsPrime;
    var q := (p + 1) / 4;
    PowSquare(y, q);
    var h := Pow(y, 2 * q - 1);
    assert Pow(y * y, q) == y * h;
    if y % p == 0 {
      SmallMod(0, p);
      CongScale(y, 0, h, p);
    } else {
      Fermat(y, p);
      PowAdd(y, 2 * q - 1, 2 * q - 1);
      assert h * h == Pow(y, p - 1);
      hide Pow;
      RootOfOne(h, p);
      ScaledRoot(y, h, p);
    }
  }

  lemma ScaledRoot(y: int, h: int, p: int)
    requires p > 0 && (h % p == 1 % p || h % p == (-1) % p)
    ensures (y * h) % p == y % p || (y * h) % p == (-y) % p
  {
    assert y * h == h * y;
    if h % p == 1 % p {
      CongScale(h, 1, y, p);
    } else {
      CongScale(h, -1, y, p);
      assert -1 * y == -y;
    }
  }

  // ----- pow(a, -1, m) -----

  predicate IsInverse(a: int, x: int, m: int)
    requires m > 1
  {
    0 <= x < m && (a * x) % m == 1
  }

  lemma Reorder(a: int, x: int, y: int)
    ensures (a * x) * y == (a * y) * x
  {}

  lemma InverseUnique(a: int, x: int, y: int, m: int)
    requires m > 1 && IsInverse(a, x, m) && IsInverse(a, y, m)
    ensures x == y
  {
    // x = x * (a * y) = (a * x) * y = y
    SmallMod(1, m);
    CongMul(a * x, 1, y, y, m);
    CongMul(a * y, 1, x, x, m);
    Reorder(a, x, y);
    SmallMod(x, m);
    SmallMod(y, m);
  }

  lemma AtMostOneInverse(a: int, m: int)
    requires m > 1
    ensures forall x, y :: IsInverse(a, x, m) && IsInverse(a, y, m) ==> x == y
  {
    forall x, y | IsInverse(a, x, m) && IsInverse(a, y, m) ensures x == y {
      InverseUnique(a, x, y, m);
    }
  }

  /** Python's pow(a, -1, m): the inverse of a modulo m, or ValueError when there is none. */
  function InverseMod(a: int, m: int): (r: Option<int>)
    requires m > 1
    ensures r.Some? ==> 0 <= r.value < m && (a * r.value) % m == 1
    ensures r.None? ==> forall x :: 0 <= x < m ==> !IsInverse(a, x, m)
  {
    if exists x :: 0 <= x < m && IsInverse(a, x, m) then
      AtMostOneInverse(a, m);
      var x :| 0 <= x < m && IsInverse(a, x, m);
      Some(x)
    else None
  }

  /** Modulo a prime, pow(a, -1, m) raises exactly on multiples of m. */
  lemma InverseModPrime(a: int, p: int)
    requires IsPrime(p)
    ensures InverseMod(a, p).Some? <==> a % p != 0
    ensures a % p != 0 ==> IsInverse(a, InverseMod(a, p).value, p)
  {
    if a % p != 0 {
      FermatInverse(a, p);
      var x := Pow(a, p - 2) % p;
      assert 0 <= x < p && IsInverse(a, x, p);
    } else {
      forall x | 0 <= x < p ensures !IsInverse(a, x, p) {
        CongMul(a, 0, x, x, p);
      }
    }
  }
}
