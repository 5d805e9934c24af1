/** The signed hash-chain ledger: the tenant's side (src/service/tenant.py) and the
    key-free mirror (src/mirror/__init__.py). */
module Ledger {
  import opened Crypto
  import opened Operator

  /** Values of a ledger record; Other is any further JSON value, by its text. */
  datatype Json = Str(s: string) | Int(i: int) | Strs(ss: seq<string>) | Other(text: string)

  type Record = map<string, Json>

  /** sha256 digests as raw bytes, hex(), and whether bytes.fromhex accepts a text. */
  datatype Digests = Digests(digest: string -> string, hex: string -> string, isHex: string -> bool)

  const UNSIGNED: set<string> := {"sig", "id", "seq"}

  function Filled(x: char, n: nat): (s: string)
    ensures |s| == n
  {
    if n == 0 then [] else Filled(x, n - 1) + [x]
  }

  /** Thirty-two zero bytes. */
  const GENESIS: string := Filled('\0', 32)

  ghost predicate DigestLaws(d: Digests, c: Scheme) {
    && (forall m :: |d.digest(m)| == 32)
    && (forall p, m, s :: !d.isHex(s) ==> !c.verify(p, m, s))
  }

  /** _entry_body: the canonical text of the signed fields. */
  function EntryBody(enc: Record -> string, r: Record): string {
    enc(r - UNSIGNED)
  }

  function Decimal(n: nat): string {
    if n < 10 then [('0' as int + n) as char] else Decimal(n / 10) + Decimal(n % 10)
  }

  /** f"{seq:010d}" */
  function EntryId(n: nat): string {
    var s := Decimal(n);
    if |s| < 10 then Filled('0', 10 - |s|) + s else s
  }

  /** make_ledger_entry */
  function MakeEntry(d: Digests, c: Scheme, enc: Record -> string, number: nat, prev: string, body: Record, sk: Key): Record {
    var raw := (body - UNSIGNED)["seq" := Int(number)]["prev" := Str(d.hex(prev))]["id" := Str(EntryId(number))];
    raw["sig" := Str(c.sign(sk, EntryBody(enc, raw)))]
  }

  function NextHead(d: Digests, enc: Record -> string, prev: string, r: Record): string {
    d.digest(prev + EntryBody(enc, r))
  }

  function HeadAfter(d: Digests, enc: Record -> string, prev: string, rs: seq<Record>): string {
    if rs == [] then prev else NextHead(d, enc, HeadAfter(d, enc, prev, rs[..|rs| - 1]), rs[|rs| - 1])
  }

  predicate SignatureOk(c: Scheme, enc: Record -> string, pem: string, r: Record) {
    "sig" in r && r["sig"].Str? && c.verify(pem, EntryBody(enc, r), r["sig"].s)
  }

  /** The signature field holds text that is not hex. */
  predicate MalformedSignature(d: Digests, r: Record) {
    "sig" in r && r["sig"].Str? && !d.isHex(r["sig"].s)
  }

  predicate LinkOk(d: Digests, prev: string, r: Record) {
    "prev" in r && r["prev"] == Str(d.hex(prev))
  }

  /** The record at i is signed by the tenant's key and linked to the head before it. */
  ghost predicate EntryOk(d: Digests, c: Scheme, enc: Record -> string, pem: string, rs: seq<Record>, i: nat)
    requires i < |rs|
  {
    SignatureOk(c, enc, pem, rs[i]) && LinkOk(d, HeadAfter(d, enc, GENESIS, rs[..i]), rs[i])
  }

  ghost predicate Accepted(d: Digests, c: Scheme, enc: Record -> string, pem: string, rs: seq<Record>) {
    forall i :: 0 <= i < |rs| ==> EntryOk(d, c, enc, pem, rs, i)
  }

  lemma HeadSnoc(d: Digests, enc: Record -> string, rs: seq<Record>, i: nat)
    requires i < |rs|
    ensures HeadAfter(d, enc, GENESIS, rs[..i + 1]) == NextHead(d, enc, HeadAfter(d, enc, GENESIS, rs[..i]), rs[i])
  {
    assert rs[..i + 1][..i] == rs[..i];
  }

  lemma HeadOfNone(d: Digests, enc: Record -> string)
    ensures HeadAfter(d, enc, GENESIS, []) == GENESIS
  {}

  lemma EntryHere(d: Digests, c: Scheme, enc: Record -> string, pem: string, rs: seq<Record>, i: nat)
    requires i < |rs|
    ensures EntryOk(d, c, enc, pem, rs, i)
      <==> SignatureOk(c, enc, pem, rs[i]) && LinkOk(d, HeadAfter(d, enc, GENESIS, rs[..i]), rs[i])
  {}

  lemma MadeEntryOk(d: Digests, c: Scheme, enc: Record -> string, number: nat, prev: string, body: Record, sk: Key)
    requires Lawful(c)
    ensures SignatureOk(c, enc, c.publicPem(sk), MakeEntry(d, c, enc, number, prev, body, sk))
    ensures LinkOk(d, prev, MakeEntry(d, c, enc, number, prev, body, sk))
    ensures forall k :: k in body && k !in UNSIGNED && k != "prev" ==>
      k in MakeEntry(d, c, enc, number, prev, body, sk) && MakeEntry(d, c, enc, number, prev, body, sk)[k] == body[k]
  {
    var raw := (body - UNSIGNED)["seq" := Int(number)]["prev" := Str(d.hex(prev))]["id" := Str(EntryId(number))];
    var full := raw["sig" := Str(c.sign(sk, EntryBody(enc, raw)))];
    assert full - UNSIGNED == raw - UNSIGNED;
  }

  /** append_ledger extends an accepted ledger to an accepted ledger. */
  lemma AppendAccepted(d: Digests, c: Scheme, enc: Record -> string, rs: seq<Record>, body: Record, sk: Key)
    requires Lawful(c) && Accepted(d, c, enc, c.publicPem(sk), rs)
    ensures var r := MakeEntry(d, c, enc, |rs| + 1, HeadAfter(d, enc, GENESIS, rs), body, sk);
      Accepted(d, c, enc, c.publicPem(sk), rs + [r])
      && HeadAfter(d, enc, GENESIS, rs + [r]) == NextHead(d, enc, HeadAfter(d, enc, GENESIS, rs), r)
  {
    var r := MakeEntry(d, c, enc, |rs| + 1, HeadAfter(d, enc, GENESIS, rs), body, sk);
    MadeEntryOk(d, c, enc, |rs| + 1, HeadAfter(d, enc, GENESIS, rs), body, sk);
    hide MakeEntry, HeadAfter, SignatureOk, LinkOk;
    var grown := rs + [r];
    assert grown[..|rs|] == rs && grown[..|rs| + 1] == grown;
    HeadSnoc(d, enc, grown, |rs|);
    forall i | 0 <= i < |grown| ensures EntryOk(d, c, enc, c.publicPem(sk), grown, i) {
      if i < |rs| {
        assert grown[..i] == rs[..i] && grown[i] == rs[i];
        assert EntryOk(d, c, enc, c.publicPem(sk), rs, i);
      }
    }
  }

  /** A ledger grown by appending these bodies one after the other. */
  function AppendAll(d: Digests, c: Scheme, enc: Record -> string, sk: Key, rs: seq<Record>, bodies: seq<Record>): seq<Record> {
    if bodies == [] then rs
    else
      var grown := AppendAll(d, c, enc, sk, rs, bodies[..|bodies| - 1]);
      grown + [MakeEntry(d, c, enc, |grown| + 1, HeadAfter(d, enc, GENESIS, grown), bodies[|bodies| - 1], sk)]
  }

  /** One customer: a signing key, a ledger, the live switch (a settlement key is present), the
      trusted destinations, the operator keys and the nonces of the signed records already used. */
  class Tenant {
    const d: Digests
    const c: Scheme
    const enc: Record -> string
    const sk: Key
    const operatorKeys: OperatorKeyRing
    var live: bool
    var settlementAllowlist: set<string>
    var usedCommandNonces: set<int>
    var records: seq<Record>
    var head: string

    ghost predicate Valid()
      reads `records, `head
    {
      Accepted(d, c, enc, c.publicPem(sk), records) && head == HeadAfter(d, enc, GENESIS, records)
    }

    constructor (d: Digests, c: Scheme, enc: Record -> string, sk: Key, operatorKeys: OperatorKeyRing)
      ensures Valid() && records == [] && !live && settlementAllowlist == {} && usedCommandNonces == {}
      ensures this.d == d && this.c == c && this.enc == enc && this.sk == sk && this.operatorKeys == operatorKeys
    {
      this.d, this.c, this.enc, this.sk, this.operatorKeys := d, c, enc, sk, operatorKeys;
      live, settlementAllowlist, usedCommandNonces := false, {}, {};
      records, head := [], GENESIS;
    }

    /** append_ledger */
    method AppendLedger(body: Record) returns (r: Record)
      requires Valid() && Lawful(c)
      modifies `records, `head
      ensures Valid()
      ensures r == MakeEntry(d, c, enc, |old(records)| + 1, old(head), body, sk)
      ensures records == old(records) + [r]
    {
      AppendAccepted(d, c, enc, records, body, sk);
      r := MakeEntry(d, c, enc, |records| + 1, head, body, sk);
      records := records + [r];
      head := NextHead(d, enc, head, r);
    }

    /** verify_locally: accepts exactly the signed, linked ledgers. */
    method VerifyLocally() returns (ok: bool)
      ensures ok <==> Accepted(d, c, enc, c.publicPem(sk), records)
    {
      hide SignatureOk, LinkOk, NextHead, HeadAfter, EntryOk;
      var prev, i := GENESIS, 0;
      assert records[..0] == [] && HeadAfter(d, enc, GENESIS, []) == GENESIS by { HeadOfNone(d, enc); }
      while i < |records|
        invariant 0 <= i <= |records| && prev == HeadAfter(d, enc, GENESIS, records[..i])
        invariant forall j :: 0 <= j < i ==> EntryOk(d, c, enc, c.publicPem(sk), records, j)
      {
        var r := records[i];
        EntryHere(d, c, enc, c.publicPem(sk), records, i);
        if !SignatureOk(c, enc, c.publicPem(sk), r) || !LinkOk(d, prev, r) {
          return false;
        }
        HeadSnoc(d, enc, records, i);
        prev := NextHead(d, enc, prev, r);
        i := i + 1;
      }
      return true;
    }
  }

  datatype MirrorVerdict = MirrorOk | MirrorRefused | MirrorRaised

  /** The key-free replica. */
  class AuditMirror {
    const d: Digests
    const c: Scheme
    const enc: Record -> string
    const pem: string
    var records: seq<Record>

    constructor (d: Digests, c: Scheme, enc: Record -> string, pem: string)
      ensures records == [] && this.d == d && this.c == c && this.enc == enc && this.pem == pem
    {
      this.d, this.c, this.enc, this.pem := d, c, enc, pem;
      records := [];
    }

    method Ingest(r: Record)
      modifies this
      ensures records == old(records) + [r]
    {
      records := records + [r];
    }

    /** The record at i is the first that is not in order, and its signature is not hex. */
    ghost predicate RaisesAt(i: int)
      reads this
    {
      0 <= i < |records| && MalformedSignature(d, records[i]) && forall j :: 0 <= j < i ==> EntryOk(d, c, enc, pem, records, j)
    }

    /** verify_chain: it accepts what verify_locally accepts, but a signature text that is not
        hex raises here instead of being refused, exactly when the walk gets that far. */
    method VerifyChain() returns (v: MirrorVerdict)
      requires DigestLaws(d, c)
      ensures v == MirrorOk <==> Accepted(d, c, enc, pem, records)
      ensures v == MirrorRaised <==> exists i :: RaisesAt(i)
    {
      hide EntryOk, LinkOk, NextHead, HeadAfter, SignatureOk, MalformedSignature, DigestLaws, RaisesAt;
      var prev, i := GENESIS, 0;
      NoHead();
      while i < |records|
        invariant 0 <= i <= |records| && prev == HeadAfter(d, enc, GENESIS, records[..i])
        invariant forall j :: 0 <= j < i ==> EntryOk(d, c, enc, pem, records, j)
      {
        var r := records[i];
        Decides(i);
        if MalformedSignature(d, r) {
          RaisesHere(i);
          return MirrorRaised;
        }
        if !SignatureOk(c, enc, pem, r) || !LinkOk(d, prev, r) {
          NotRaised(i);
          return MirrorRefused;
        }
        HeadSnoc(d, enc, records, i);
        prev := NextHead(d, enc, prev, r);
        i := i + 1;
      }
      NoneRaised();
      return MirrorOk;
    }

    /** One signature of an accepted ledger spoilt by a text that is not hex: the tenant's check
        refuses the ledger, and this one raises. */
    lemma SpoiltSignatureRaises(rs: seq<Record>, i: nat, text: string)
      requires DigestLaws(d, c) && Accepted(d, c, enc, pem, rs) && i < |rs| && !d.isHex(text)
      requires records == rs[i := rs[i]["sig" := Str(text)]]
      ensures RaisesAt(i) && !Accepted(d, c, enc, pem, records)
    {
      hide SignatureOk, LinkOk, HeadAfter, DigestLaws;
      Decides(i);
      forall j | 0 <= j < i ensures EntryOk(d, c, enc, pem, records, j) {
        assert records[..j] == rs[..j] && records[j] == rs[j];
        assert EntryOk(d, c, enc, pem, rs, j);
      }
    }

    lemma NoHead()
      ensures HeadAfter(d, enc, GENESIS, records[..0]) == GENESIS
    {}

    lemma Decides(i: nat)
      requires DigestLaws(d, c) && i < |records|
      ensures EntryOk(d, c, enc, pem, records, i)
         <==> SignatureOk(c, enc, pem, records[i]) && LinkOk(d, HeadAfter(d, enc, GENESIS, records[..i]), records[i])
      ensures MalformedSignature(d, records[i]) ==> !EntryOk(d, c, enc, pem, records, i)
    {}

    lemma RaisesHere(i: nat)
      requires i < |records| && MalformedSignature(d, records[i])
      requires forall j :: 0 <= j < i ==> EntryOk(d, c, enc, pem, records, j)
      ensures RaisesAt(i)
    {}

    lemma NoneRaised()
      requires DigestLaws(d, c) && forall i :: 0 <= i < |records| ==> EntryOk(d, c, enc, pem, records, i)
      ensures forall k :: !RaisesAt(k)
    {
      hide EntryOk, MalformedSignature, DigestLaws;
      forall k ensures !RaisesAt(k) {
        if 0 <= k < |records| { Decides(k); }
      }
    }

    lemma NotRaised(i: nat)
      requires i < |records| && !EntryOk(d, c, enc, pem, records, i) && !MalformedSignature(d, records[i])
      requires DigestLaws(d, c) && forall j :: 0 <= j < i ==> EntryOk(d, c, enc, pem, records, j)
      ensures forall k :: !RaisesAt(k)
    {
      hide EntryOk, MalformedSignature, DigestLaws;
      forall k ensures !RaisesAt(k) {
        if 0 <= k < i { Decides(k); }
      }
    }
  }

  // ----- tamper evidence -----

  lemma HeadLength(d: Digests, c: Scheme, enc: Record -> string, g0: string, rs: seq<Record>)
    requires DigestLaws(d, c) && |g0| == 32
    ensures |HeadAfter(d, enc, g0, rs)| == 32
  {
  }

  lemma SplitHead(p: string, q: string, a: string, b: string)
    requires |p| == |q| && p + a == q + b
    ensures p == q && a == b
  {
    assert p == (p + a)[..|p|] && q == (q + b)[..|q|];
    assert a == (p + a)[|p|..] && b == (q + b)[|q|..];
  }

  /** The text whose digest is the head past the record at i. */
  function HashedText(d: Digests, enc: Record -> string, g0: string, rs: seq<Record>, i: nat): string
    requires i < |rs|
  {
    HeadAfter(d, enc, g0, rs[..i]) + EntryBody(enc, rs[i])
  }

  /** No two of the texts that these two ledgers hash have one digest. */
  ghost predicate NoCollision(d: Digests, enc: Record -> string, g0: string, a: seq<Record>, b: seq<Record>) {
    forall i, j :: 0 <= i < |a| && 0 <= j < |b| ==> ToldApart(d.digest, HashedText(d, enc, g0, a, i), HashedText(d, enc, g0, b, j))
  }

  lemma HashedPrefix(d: Digests, enc: Record -> string, g0: string, rs: seq<Record>, n: nat, i: nat)
    requires i < n <= |rs|
    ensures HashedText(d, enc, g0, rs[..n], i) == HashedText(d, enc, g0, rs, i)
  {
    assert rs[..n][..i] == rs[..i];
  }

  lemma NoCollisionBefore(d: Digests, enc: Record -> string, g0: string, a: seq<Record>, b: seq<Record>)
    requires a != [] && b != [] && NoCollision(d, enc, g0, a, b)
    ensures NoCollision(d, enc, g0, a[..|a| - 1], b[..|b| - 1])
  {
    hide HashedText, ToldApart;
    var n, m := |a| - 1, |b| - 1;
    forall i, j | 0 <= i < n && 0 <= j < m
      ensures ToldApart(d.digest, HashedText(d, enc, g0, a[..n], i), HashedText(d, enc, g0, b[..m], j))
    {
      HashedPrefix(d, enc, g0, a, n, i);
      HashedPrefix(d, enc, g0, b, m, j);
      assert ToldApart(d.digest, HashedText(d, enc, g0, a, i), HashedText(d, enc, g0, b, j));
    }
  }

  lemma HeadOfLast(d: Digests, enc: Record -> string, g0: string, rs: seq<Record>)
    requires rs != []
    ensures HeadAfter(d, enc, g0, rs) == d.digest(HashedText(d, enc, g0, rs, |rs| - 1))
  {}

  function SignedFields(r: Record): Record {
    r - UNSIGNED
  }

  lemma SplitTexts(d: Digests, c: Scheme, enc: Record -> string, g0: string, a: seq<Record>, i: nat, b: seq<Record>, j: nat)
    requires i < |a| && j < |b| && |g0| == 32 && DigestLaws(d, c)
    requires HashedText(d, enc, g0, a, i) == HashedText(d, enc, g0, b, j)
    ensures HeadAfter(d, enc, g0, a[..i]) == HeadAfter(d, enc, g0, b[..j]) && EntryBody(enc, a[i]) == EntryBody(enc, b[j])
  {
    hide HeadAfter, DigestLaws, EntryBody;
    HeadLength(d, c, enc, g0, a[..i]);
    HeadLength(d, c, enc, g0, b[..j]);
    SplitHead(HeadAfter(d, enc, g0, a[..i]), HeadAfter(d, enc, g0, b[..j]), EntryBody(enc, a[i]), EntryBody(enc, b[j]));
  }

  lemma SameSigned(enc: Record -> string, x: Record, y: Record)
    requires Injective(enc) && EntryBody(enc, x) == EntryBody(enc, y)
    ensures SignedFields(x) == SignedFields(y)
  {
    SameInput(enc, x - UNSIGNED, y - UNSIGNED);
  }

  lemma SameRecordAt(d: Digests, c: Scheme, enc: Record -> string, g0: string, a: seq<Record>, i: nat, b: seq<Record>, j: nat)
    requires i < |a| && j < |b| && |g0| == 32 && DigestLaws(d, c) && Injective(enc)
    requires ToldApart(d.digest, HashedText(d, enc, g0, a, i), HashedText(d, enc, g0, b, j))
    requires d.digest(HashedText(d, enc, g0, a, i)) == d.digest(HashedText(d, enc, g0, b, j))
    ensures HeadAfter(d, enc, g0, a[..i]) == HeadAfter(d, enc, g0, b[..j]) && SignedFields(a[i]) == SignedFields(b[j])
  {
    hide HeadAfter, HashedText, DigestLaws, Injective, EntryBody, SignedFields, ToldApart;
    SameText(d.digest, HashedText(d, enc, g0, a, i), HashedText(d, enc, g0, b, j));
    SplitTexts(d, c, enc, g0, a, i, b, j);
    SameSigned(enc, a[i], b[j]);
  }

  /** Record by record, the same signed fields. */
  ghost predicate Agree(a: seq<Record>, b: seq<Record>) {
    |a| == |b| && forall i :: 0 <= i < |a| ==> SignedFields(a[i]) == SignedFields(b[i])
  }

  lemma AgreeSnoc(a: seq<Record>, x: Record, b: seq<Record>, y: Record)
    requires Agree(a, b) && SignedFields(x) == SignedFields(y)
    ensures Agree(a + [x], b + [y])
  {
    hide SignedFields;
  }

  /** The shorter of two ledgers of one head is the tail of the longer, field by field, and what
      the longer holds before that tail has led back to the genesis head. */
  lemma {:induction false} HeadDeterminesTail(d: Digests, c: Scheme, enc: Record -> string, g0: string, a: seq<Record>, b: seq<Record>)
    requires |a| <= |b| && |g0| == 32 && DigestLaws(d, c) && Injective(enc) && NoCollision(d, enc, g0, a, b)
    requires HeadAfter(d, enc, g0, a) == HeadAfter(d, enc, g0, b)
    ensures HeadAfter(d, enc, g0, b[..|b| - |a|]) == g0 && Agree(a, b[|b| - |a|..])
    decreases |a|
  {
    hide DigestLaws, Injective, Agree, NoCollision, HeadAfter, HashedText, ToldApart, SignedFields;
    if a == [] {
      NothingHashed(d, enc, g0);
      assert b[..|b|] == b && b[|b|..] == [];
      EmptyAgree();
    } else {
      var n, m, k := |a| - 1, |b| - 1, |b| - |a|;
      LastToldApart(d, enc, g0, a, b);
      HeadOfLast(d, enc, g0, a);
      HeadOfLast(d, enc, g0, b);
      SameRecordAt(d, c, enc, g0, a, n, b, m);
      NoCollisionBefore(d, enc, g0, a, b);
      HeadDeterminesTail(d, c, enc, g0, a[..n], b[..m]);
      AgreeSnoc(a[..n], a[n], b[..m][k..], b[m]);
      LastOf(a, 0);
      LastOf(b, k);
    }
  }

  lemma NothingHashed(d: Digests, enc: Record -> string, g0: string)
    ensures HeadAfter(d, enc, g0, []) == g0
  {}

  lemma LastOf(rs: seq<Record>, k: nat)
    requires k < |rs|
    ensures var n := |rs| - 1; rs[k..] == rs[..n][k..] + [rs[n]] && rs[..n][..k] == rs[..k] && rs[..n][0..] == rs[..n] && rs[0..] == rs
  {}

  lemma LastToldApart(d: Digests, enc: Record -> string, g0: string, a: seq<Record>, b: seq<Record>)
    requires a != [] && b != [] && NoCollision(d, enc, g0, a, b)
    ensures ToldApart(d.digest, HashedText(d, enc, g0, a, |a| - 1), HashedText(d, enc, g0, b, |b| - 1))
  {}

  lemma NoCollisionEither(d: Digests, enc: Record -> string, g0: string, a: seq<Record>, b: seq<Record>)
    requires NoCollision(d, enc, g0, a, b)
    ensures NoCollision(d, enc, g0, b, a)
  {
    hide HashedText;
    forall i, j | 0 <= i < |b| && 0 <= j < |a| ensures ToldApart(d.digest, HashedText(d, enc, g0, b, i), HashedText(d, enc, g0, a, j)) {
      assert ToldApart(d.digest, HashedText(d, enc, g0, a, j), HashedText(d, enc, g0, b, i));
    }
  }

  /** Some record of the ledger leads the head back to g0. */
  ghost predicate ReturnsTo(d: Digests, enc: Record -> string, g0: string, rs: seq<Record>) {
    exists i :: 0 < i <= |rs| && HeadAfter(d, enc, g0, rs[..i]) == g0
  }

  /** The head pins every signed field of every record, as long as no two texts that the two
      ledgers hash collide: ledgers of one head agree throughout, or the longer one has come
      back to its genesis head on the way. */
  lemma HeadDeterminesLedger(d: Digests, c: Scheme, enc: Record -> string, g0: string, a: seq<Record>, b: seq<Record>)
    requires |g0| == 32 && DigestLaws(d, c) && Injective(enc) && NoCollision(d, enc, g0, a, b)
    requires HeadAfter(d, enc, g0, a) == HeadAfter(d, enc, g0, b)
    ensures |a| == |b| ==> Agree(a, b)
    ensures |a| < |b| ==> ReturnsTo(d, enc, g0, b)
    ensures |b| < |a| ==> ReturnsTo(d, enc, g0, a)
  {
    hide DigestLaws, Injective, Agree, NoCollision, HeadAfter;
    if |a| <= |b| {
      HeadDeterminesTail(d, c, enc, g0, a, b);
      if |a| == |b| { assert b[|b| - |a|..] == b; }
    } else {
      NoCollisionEither(d, enc, g0, a, b);
      HeadDeterminesTail(d, c, enc, g0, b, a);
    }
  }

  lemma EmptyAgree()
    ensures Agree([], [])
  {}

  // ----- the wire format -----

  /** The number that a text of digits writes. */
  function ReadDecimal(s: string): int {
    if s == [] then 0 else 10 * ReadDecimal(s[..|s| - 1]) + (s[|s| - 1] as int - '0' as int)
  }

  predicate AllDigits(s: string) {
    forall i :: 0 <= i < |s| ==> '0' <= s[i] <= '9'
  }

  lemma ReadSnoc(s: string, x: char)
    ensures ReadDecimal(s + [x]) == 10 * ReadDecimal(s) + (x as int - '0' as int)
  {
    assert (s + [x])[..|s|] == s;
  }

  lemma {:induction false} DecimalReads(n: nat)
    ensures ReadDecimal(Decimal(n)) == n && AllDigits(Decimal(n)) && |Decimal(n)| >= 1
    ensures n >= 10 ==> Decimal(n)[0] != '0'
  {
    if n < 10 {
      ReadSnoc([], ('0' as int + n) as char);
      assert [] + Decimal(n) == Decimal(n);
    } else {
      DecimalReads(n / 10);
      DecimalReads(n % 10);
      ReadSnoc(Decimal(n / 10), ('0' as int + n % 10) as char);
      if n / 10 < 10 { assert Decimal(n / 10)[0] != '0'; }
    }
  }

  lemma OneMore(k: nat)
    ensures Filled('0', k) == (if k == 0 then [] else Filled('0', k - 1) + ['0']) && ReadDecimal([]) == 0
  {}

  lemma {:induction false} FilledReads(k: nat, s: string)
    ensures ReadDecimal(Filled('0', k) + s) == ReadDecimal(s) && AllDigits(Filled('0', k))
    decreases k + |s|
  {
    hide ReadDecimal, Filled;
    if s == [] {
      assert Filled('0', k) + s == Filled('0', k);
      OneMore(k);
      if k > 0 {
        FilledReads(k - 1, []);
        assert Filled('0', k - 1) + [] == Filled('0', k - 1);
        ReadSnoc(Filled('0', k - 1), '0');
      }
    } else {
      var n := |s| - 1;
      FilledReads(k, s[..n]);
      assert s == s[..n] + [s[n]] && Filled('0', k) + s == (Filled('0', k) + s[..n]) + [s[n]];
      ReadSnoc(s[..n], s[n]);
      ReadSnoc(Filled('0', k) + s[..n], s[n]);
    }
  }

  /** An entry's id is its number in digits, at least ten of them, filled up with zeros. */
  lemma EntryIdReads(n: nat)
    ensures ReadDecimal(EntryId(n)) == n && AllDigits(EntryId(n)) && |EntryId(n)| >= 10
    ensures |EntryId(n)| > 10 ==> EntryId(n)[0] != '0'
  {
    DecimalReads(n);
    if |Decimal(n)| < 10 { FilledReads(10 - |Decimal(n)|, Decimal(n)); }
  }

  /** The genesis head is 32 zero bytes, and every record hashes the head before it and its own
      fields, all but the signature, the id and the number, into the next. */
  lemma HeadIsChain(d: Digests, enc: Record -> string, rs: seq<Record>)
    ensures |GENESIS| == 32 && (forall i :: 0 <= i < 32 ==> GENESIS[i] == '\0') && HeadAfter(d, enc, GENESIS, []) == GENESIS
    ensures rs != [] ==>
      HeadAfter(d, enc, GENESIS, rs)
      == d.digest(HeadAfter(d, enc, GENESIS, rs[..|rs| - 1]) + enc(rs[|rs| - 1] - {"sig", "id", "seq"}))
  {
    FilledIs('\0', 32);
  }

  lemma {:induction false} FilledIs(x: char, n: nat)
    ensures |Filled(x, n)| == n && forall i :: 0 <= i < n ==> Filled(x, n)[i] == x
  {
    if n > 0 { FilledIs(x, n - 1); }
  }

  /** A made entry: its number, its id, the head before it in hex, the body's other fields, and
      the signature over all of them but itself, the id and the number. */
  lemma MadeEntryIs(d: Digests, c: Scheme, enc: Record -> string, number: nat, prev: string, body: Record, sk: Key)
    ensures var r := MakeEntry(d, c, enc, number, prev, body, sk);
      && r.Keys == body.Keys + {"sig", "id", "seq", "prev"}
      && r["seq"] == Int(number) && r["id"] == Str(EntryId(number)) && r["prev"] == Str(d.hex(prev))
      && (forall k :: k in body && k !in {"sig", "id", "seq", "prev"} ==> r[k] == body[k])
      && r["sig"] == Str(c.sign(sk, enc(r - {"sig", "id", "seq"})))
  {
    var raw := (body - UNSIGNED)["seq" := Int(number)]["prev" := Str(d.hex(prev))]["id" := Str(EntryId(number))];
    var full := raw["sig" := Str(c.sign(sk, EntryBody(enc, raw)))];
    assert full - UNSIGNED == raw - UNSIGNED;
  }

  /** An accepted ledger: every record carries a signature of the tenant's key over its fields,
      all but the signature, the id and the number, and the hex of the head before it. */
  lemma AcceptedExactly(d: Digests, c: Scheme, enc: Record -> string, pem: string, rs: seq<Record>)
    ensures Accepted(d, c, enc, pem, rs)
       <==> forall i :: 0 <= i < |rs| ==>
              SignedAt(c, enc, pem, rs[i]) && LinkedAt(rs[i], d.hex(HeadAfter(d, enc, GENESIS, rs[..i])))
  {
    hide HeadAfter;
    forall i | 0 <= i < |rs|
      ensures EntryOk(d, c, enc, pem, rs, i)
         <==> SignedAt(c, enc, pem, rs[i]) && LinkedAt(rs[i], d.hex(HeadAfter(d, enc, GENESIS, rs[..i])))
    {}
  }

  predicate SignedAt(c: Scheme, enc: Record -> string, pem: string, r: Record) {
    "sig" in r && r["sig"].Str? && c.verify(pem, enc(r - {"sig", "id", "seq"}), r["sig"].s)
  }

  predicate LinkedAt(r: Record, head: string) {
    "prev" in r && r["prev"] == Str(head)
  }

  lemma HexPins(d: Digests, x: string, y: string)
    requires Injective(d.hex) && d.hex(x) == d.hex(y)
    ensures x == y
  {
    SameInput(d.hex, x, y);
  }

  /** Two accepted ledgers of one length whose last records have the same signed fields agree
      throughout: the last record alone pins the history. */
  lemma LastRecordPins(d: Digests, c: Scheme, enc: Record -> string, pem: string, pem': string, a: seq<Record>, b: seq<Record>)
    requires DigestLaws(d, c) && Injective(enc) && Injective(d.hex) && NoCollision(d, enc, GENESIS, a, b)
    requires Accepted(d, c, enc, pem, a) && Accepted(d, c, enc, pem', b) && |a| == |b| > 0
    requires a[|a| - 1] - {"sig", "id", "seq"} == b[|b| - 1] - {"sig", "id", "seq"}
    ensures Agree(a, b)
  {
    hide DigestLaws, Injective, NoCollision, Agree, HeadAfter, Accepted, SignedFields, EntryOk, Filled;
    var n := |a| - 1;
    SameHeadBefore(d, c, enc, pem, pem', a, b);
    NoCollisionBefore(d, enc, GENESIS, a, b);
    HeadDeterminesLedger(d, c, enc, GENESIS, a[..n], b[..n]);
    AgreeSnoc(a[..n], a[n], b[..n], b[n]);
    assert a == a[..n] + [a[n]] && b == b[..n] + [b[n]];
  }

  lemma SameHeadBefore(d: Digests, c: Scheme, enc: Record -> string, pem: string, pem': string, a: seq<Record>, b: seq<Record>)
    requires Injective(d.hex) && Accepted(d, c, enc, pem, a) && Accepted(d, c, enc, pem', b) && |a| == |b| > 0
    requires a[|a| - 1] - {"sig", "id", "seq"} == b[|b| - 1] - {"sig", "id", "seq"}
    ensures HeadAfter(d, enc, GENESIS, a[..|a| - 1]) == HeadAfter(d, enc, GENESIS, b[..|b| - 1])
    ensures SignedFields(a[|a| - 1]) == SignedFields(b[|b| - 1])
  {
    hide Injective, HeadAfter, SignatureOk, SignedFields;
    var n := |a| - 1;
    assert EntryOk(d, c, enc, pem, a, n) && EntryOk(d, c, enc, pem', b, n);
    hide Accepted;
    SameField(a[n], b[n], "prev");
    HexPins(d, HeadAfter(d, enc, GENESIS, a[..n]), HeadAfter(d, enc, GENESIS, b[..n]));
  }

  lemma SameField(x: Record, y: Record, k: string)
    requires x - {"sig", "id", "seq"} == y - {"sig", "id", "seq"} && k !in {"sig", "id", "seq"} && k in x && k in y
    ensures x[k] == y[k] && SignedFields(x) == SignedFields(y)
  {
    assert (x - {"sig", "id", "seq"})[k] == x[k] && (y - {"sig", "id", "seq"})[k] == y[k];
  }

  /** Record by record, these carry these bodies. */
  predicate CarriesEach(rs: seq<Record>, bodies: seq<Record>) {
    |rs| == |bodies| && forall i :: 0 <= i < |rs| ==> Carries(rs[i], bodies[i])
  }

  lemma CarriesSnoc(rs: seq<Record>, r: Record, bodies: seq<Record>, body: Record)
    requires CarriesEach(rs, bodies) && Carries(r, body)
    ensures CarriesEach(rs + [r], bodies + [body])
  {
    hide Carries;
  }

  /** Appending bodies adds one record for each, in order, with its fields. */
  lemma {:induction false} AppendedCarry(d: Digests, c: Scheme, enc: Record -> string, sk: Key, rs: seq<Record>, bodies: seq<Record>)
      returns (added: seq<Record>)
    ensures AppendAll(d, c, enc, sk, rs, bodies) == rs + added && CarriesEach(added, bodies)
  {
    hide HeadAfter, MakeEntry, Carries, CarriesEach, AppendAll, Filled;
    if bodies == [] {
      added := [];
      NothingAppended(d, c, enc, sk, rs);
    } else {
      var n := |bodies| - 1;
      var before := AppendedCarry(d, c, enc, sk, rs, bodies[..n]);
      var grown := AppendAll(d, c, enc, sk, rs, bodies[..n]);
      var last := MakeEntry(d, c, enc, |grown| + 1, HeadAfter(d, enc, GENESIS, grown), bodies[n], sk);
      AppendLast(d, c, enc, sk, rs, bodies);
      MadeCarries(d, c, enc, |grown| + 1, HeadAfter(d, enc, GENESIS, grown), bodies[n], sk);
      added := before + [last];
      CarriesSnoc(before, last, bodies[..n], bodies[n]);
      assert bodies[..n] + [bodies[n]] == bodies;
    }
  }

  lemma NothingAppended(d: Digests, c: Scheme, enc: Record -> string, sk: Key, rs: seq<Record>)
    ensures AppendAll(d, c, enc, sk, rs, []) == rs + [] && CarriesEach([], [])
  {}

  lemma AppendLast(d: Digests, c: Scheme, enc: Record -> string, sk: Key, rs: seq<Record>, bodies: seq<Record>)
    requires bodies != []
    ensures var grown := AppendAll(d, c, enc, sk, rs, bodies[..|bodies| - 1]);
      AppendAll(d, c, enc, sk, rs, bodies)
      == grown + [MakeEntry(d, c, enc, |grown| + 1, HeadAfter(d, enc, GENESIS, grown), bodies[|bodies| - 1], sk)]
  {
    hide HeadAfter, MakeEntry;
  }

  /** The record has every field of the body, under its own name. */
  predicate Carries(r: Record, body: Record) {
    forall k :: k in body && k !in {"sig", "id", "seq", "prev"} ==> k in r && r[k] == body[k]
  }

  lemma MadeCarries(d: Digests, c: Scheme, enc: Record -> string, number: nat, prev: string, body: Record, sk: Key)
    ensures Carries(MakeEntry(d, c, enc, number, prev, body, sk), body)
  {
    hide MakeEntry;
    MadeEntryIs(d, c, enc, number, prev, body, sk);
    var r := MakeEntry(d, c, enc, number, prev, body, sk);
    forall k | k in body && k !in {"sig", "id", "seq", "prev"} ensures k in r && r[k] == body[k] {
      assert k in r.Keys;
    }
  }
}
