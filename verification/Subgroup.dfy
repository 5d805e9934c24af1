/** The subgroup of G: its scalars count modulo N. */
module Subgroup {
  import opened NumberTheory
  import opened Secp256k1
  import opened GeneratorOrder

  /** The facts about secp256k1 that are assumed: both moduli are prime, and addition is
      associative on the curve. */
  ghost predicate CurveFacts() {
    IsPrime(P) && IsPrime(N) && Associative()
  }

  lemma MultiplesOfOrder(c: nat)
    requires CurveFacts()
    ensures Times(c * N, G) == Infinity
  {
    hide FromWords, AddMod, OnCurveMod, AssociativeMod, IsPrime;
    GeneratorOnCurve();
    OrderOfG();
    TimesTimes(c, N, G);
    InfinityTimes(c);
  }

  /** Scalars count only modulo N. */
  lemma ScalarCong(a: nat, b: nat)
    requires CurveFacts() && a % N == b % N
    ensures Times(a, G) == Times(b, G)
  {
    ScalarReduce(a);
    ScalarReduce(b);
  }

  lemma ScalarReduce(a: nat)
    requires CurveFacts()
    ensures Times(a, G) == Times(a % N, G)
  {
    hide FromWords, AddMod, OnCurveMod, AssociativeMod, IsPrime;
    GeneratorOnCurve();
    DivMod(a, N);
    TimesAdd((a / N) * N, a % N, G, B, P);
    MultiplesOfOrder(a / N);
    AddInfinity(Times(a % N, G), P);
  }

  /** k*G is a finite point for every k in 1..N-1. */
  lemma ScalarFinite(k: nat)
    requires CurveFacts() && k % N != 0
    ensures Times(k, G).Affine?
  {
    hide FromWords, AddMod, OnCurveMod, AssociativeMod, IsPrime, Pow;
    if Times(k, G).Infinity? {
      FermatInverse(k, N);
      var j := Pow(k, N - 2) % N;
      GeneratorOnCurve();
      TimesTimes(j, k, G);
      InfinityTimes(j);
      assert j * k == k * j;
      ScalarCong(j * k, 1);
      TimesOne(G, P);
    }
  }

  lemma NegateScalar(k: nat)
    requires CurveFacts() && k <= N
    ensures Negate(Times(k, G)) == Times(N - k, G)
  {
    hide AddMod, TimesMod, NegateMod, OnCurveMod, AssociativeMod, IsPrime;
    GeneratorOnCurve();
    TimesOnCurve(k, G, B, P);
    TimesOnCurve(N - k, G, B, P);
    TimesAdd(k, N - k, G, B, P);
    OrderOfG();
    InverseIsNegate(Times(k, G), Times(N - k, G), B, P);
  }

  lemma TimesZero()
    ensures Times(0, G) == Infinity
  {}

  /** Equal multiples of G have scalars that are equal modulo N. */
  lemma ScalarPinned(a: nat, b: nat)
    requires CurveFacts() && Times(a, G) == Times(b, G)
    ensures a % N == b % N
  {
    hide FromWords, AddMod, TimesMod, OnCurveMod, AssociativeMod, IsPrime;
    var c := N - b % N;
    GeneratorOnCurve();
    TimesAdd(a, c, G, B, P);
    TimesAdd(b, c, G, B, P);
    assert (b + c) % N == 0 by {
      assert b + c == (b / N + 1) * N;
      MultipleOf(b / N + 1, N);
    }
    ScalarCong(b + c, 0);
    TimesZero();
    if (a + c) % N != 0 { ScalarFinite(a + c); }
    CongSub(a + c, b + c, c, c, N);
  }
}
