/** Hashing and Ed25519 as parameters: any functions, with the laws that are used stated
    where they are used. */
module Crypto {

  /** A private key handle. */
  type Key = nat

  /** sha is sha256 in hex; verify(pem, m, s) is false when the PEM does not load, the
      signature is not hex, or it does not verify. Messages are canonical strings. */
  datatype Scheme = Scheme(
    sha: string -> string,
    publicPem: Key -> string,
    sign: (Key, string) -> string,
    verify: (string, string, string) -> bool)

  /** What a key signs, its public half verifies. */
  ghost predicate Lawful(c: Scheme) {
    forall k, m :: c.verify(c.publicPem(k), m, c.sign(k, m))
  }

  /** The text loads as a public key: something verifies under it. */
  ghost predicate Loads(c: Scheme, pem: string) {
    exists m, s :: c.verify(pem, m, s)
  }

  /** A signature verifies under at most one public key, and a key has the same signatures under
      every spelling of its text that loads. */
  ghost predicate OneKeyEach(c: Scheme) {
    && (forall p, q, m, s :: c.verify(p, m, s) && c.verify(q, m, s) ==> Squeeze(p) == Squeeze(q))
    && (forall p, q, m, s :: Squeeze(p) == Squeeze(q) && Loads(c, q) && c.verify(p, m, s) ==> c.verify(q, m, s))
  }

  /** The two texts do not collide. */
  predicate ToldApart(h: string -> string, m: string, n: string) {
    h(m) == h(n) ==> m == n
  }

  lemma SameText(h: string -> string, m: string, n: string)
    requires ToldApart(h, m, n) && h(m) == h(n)
    ensures m == n
  {}

  ghost predicate Injective<A(!new)>(enc: A -> string) {
    forall a, b :: enc(a) == enc(b) ==> a == b
  }

  lemma SameInput<A(!new)>(enc: A -> string, a: A, b: A)
    requires Injective(enc) && enc(a) == enc(b)
    ensures a == b
  {}

  /** _b64ish: the text without white space. */
  function Squeeze(s: string): string {
    if s == [] then []
    else (if s[0] in {' ', '\t', '\n', '\r'} then [] else [s[0]]) + Squeeze(s[1..])
  }

  /** _pem_fingerprint */
  function Fingerprint(c: Scheme, pem: string): string {
    c.sha(Squeeze(pem))
  }

  predicate IsBlank(x: char) {
    x == ' ' || x == '\t' || x == '\n' || x == '\r'
  }

  predicate NoBlanks(s: string) {
    forall i :: 0 <= i < |s| ==> !IsBlank(s[i])
  }

  function Kept(x: char): string {
    if IsBlank(x) then [] else [x]
  }

  lemma SqueezeCons(x: char, s: string)
    ensures Squeeze([x] + s) == Kept(x) + Squeeze(s)
  {
    assert ([x] + s)[0] == x && ([x] + s)[1..] == s;
  }

  lemma {:induction false} SqueezeJoins(s: string, t: string)
    ensures Squeeze(s + t) == Squeeze(s) + Squeeze(t)
  {
    hide Squeeze, Kept;
    if s == [] {
      assert s + t == t && Squeeze(s) == [] by { SqueezeNothing(); }
    } else {
      var x, rest := s[0], s[1..];
      SqueezeJoins(rest, t);
      assert s == [x] + rest && s + t == [x] + (rest + t);
      SqueezeCons(x, rest);
      SqueezeCons(x, rest + t);
    }
  }

  lemma SqueezeNothing()
    ensures Squeeze([]) == []
  {}

  /** Squeezing leaves no blank. */
  lemma {:induction false} SqueezeClean(s: string)
    ensures NoBlanks(Squeeze(s)) && (NoBlanks(s) ==> Squeeze(s) == s)
  {
    if s != [] {
      hide Squeeze;
      var x, rest := s[0], s[1..];
      SqueezeClean(rest);
      assert s == [x] + rest;
      SqueezeCons(x, rest);
    } else {
      SqueezeNothing();
    }
  }

  /** Squeezing drops exactly the blanks and keeps everything else in order. */
  lemma SqueezeExactly(before: string, x: char, after: string)
    ensures Squeeze(before + [x] + after) == Squeeze(before) + (if IsBlank(x) then [] else [x]) + Squeeze(after)
  {
    hide Squeeze;
    SqueezeJoins(before + [x], after);
    SqueezeJoins(before, [x]);
    SqueezeCons(x, []);
    SqueezeNothing();
    assert [x] + [] == [x] && Kept(x) + [] == Kept(x);
  }
}
