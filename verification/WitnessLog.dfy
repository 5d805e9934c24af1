/** The evidence-serving witness log of src/query/witness.py. */
module WitnessLog {
  import opened Basics
  import opened Crypto
  import opened TrustLog

  /** The signed fields of a witness entry. */
  datatype WitnessBody = WitnessBody(
    index: int, authorityId: string, queryHash: string, recordHash: string, agentId: string,
    capabilities: seq<string>, issuedAt: int, keySeq: int, keyFingerprint: string, prevHash: string)

  datatype WitnessEntry = WitnessEntry(body: WitnessBody, sig: string)

  datatype Log = Log(authorityId: string, entries: seq<WitnessEntry>)

  type WitnessEncoding = WitnessBody -> string

  function WitnessSigningInput(c: Scheme, enc: WitnessEncoding, b: WitnessBody): string {
    c.sha(b.prevHash + "|" + enc(b))
  }

  function WitnessLink(c: Scheme, enc: WitnessEncoding, entries: seq<WitnessEntry>): string {
    if entries == [] then "" else c.sha(enc(entries[|entries| - 1].body))
  }

  function AppendEntry(c: Scheme, enc: WitnessEncoding, log: Log, queryHash: string, recordHash: string,
                       agentId: string, capabilities: seq<string>, sk: Key, authorityId: string,
                       issuedAt: int, keySeq: int, keyFingerprint: string): Log {
    var b := WitnessBody(|log.entries|, authorityId, queryHash, recordHash, agentId, capabilities, issuedAt,
                         keySeq, keyFingerprint, WitnessLink(c, enc, log.entries));
    Log(authorityId, log.entries + [WitnessEntry(b, c.sign(sk, WitnessSigningInput(c, enc, b)))])
  }

  /** The key an entry names in the trust log; an empty fingerprint is not checked. */
  function BoundKey(c: Scheme, trust: AuthorityLog, b: WitnessBody): Option<string> {
    TrustedKeyForSeq(c, trust, b.keySeq, if b.keyFingerprint == "" then None else Some(b.keyFingerprint))
  }

  ghost predicate InPlace(c: Scheme, enc: WitnessEncoding, entries: seq<WitnessEntry>, i: nat)
    requires i < |entries|
  {
    entries[i].body.index == i && entries[i].body.prevHash == WitnessLink(c, enc, entries[..i])
  }

  ghost predicate SignedBy(c: Scheme, enc: WitnessEncoding, e: WitnessEntry, pem: Option<string>) {
    pem.Some? && c.verify(pem.value, WitnessSigningInput(c, enc, e.body), e.sig)
  }

  /** Accepted under one pinned key. */
  ghost predicate AcceptedBy(c: Scheme, enc: WitnessEncoding, log: Log, pem: string) {
    && log.entries != [] && log.authorityId != ""
    && forall i :: 0 <= i < |log.entries| ==>
      InPlace(c, enc, log.entries, i) && SignedBy(c, enc, log.entries[i], Some(pem))
  }

  /** Accepted entry by entry under the trust-log key that each entry names. */
  ghost predicate AnchoredEntries(c: Scheme, enc: WitnessEncoding, entries: seq<WitnessEntry>, trust: AuthorityLog) {
    forall i :: 0 <= i < |entries| ==>
      InPlace(c, enc, entries, i) && SignedBy(c, enc, entries[i], BoundKey(c, trust, entries[i].body))
  }

  ghost predicate Anchored(c: Scheme, enc: WitnessEncoding, log: Log, trust: AuthorityLog) {
    log.entries != [] && log.authorityId != "" && AnchoredEntries(c, enc, log.entries, trust)
  }

  lemma LinkIsPredecessor(c: Scheme, enc: WitnessEncoding, entries: seq<WitnessEntry>, i: nat)
    requires i <= |entries|
    ensures WitnessLink(c, enc, entries[..i]) == if i == 0 then "" else c.sha(enc(entries[i - 1].body))
  {}

  lemma PlaceOf(c: Scheme, enc: WitnessEncoding, entries: seq<WitnessEntry>, i: nat)
    requires i < |entries|
    ensures InPlace(c, enc, entries, i)
      <==> entries[i].body.index == i && entries[i].body.prevHash == WitnessLink(c, enc, entries[..i])
  {}

  /** verify_witness_log: the single-key loop accepts exactly what AcceptedBy says. */
  method VerifyWitnessLog(c: Scheme, enc: WitnessEncoding, log: Log, pem: string) returns (ok: bool)
    ensures ok <==> AcceptedBy(c, enc, log, pem)
  {
    hide InPlace, WitnessLink, WitnessSigningInput;
    if log.entries == [] || log.authorityId == "" {
      return false;
    }
    var expectedPrev, i := "", 0;
    LinkIsPredecessor(c, enc, log.entries, 0);
    while i < |log.entries|
      invariant 0 <= i <= |log.entries|
      invariant expectedPrev == WitnessLink(c, enc, log.entries[..i])
      invariant forall j :: 0 <= j < i ==>
        InPlace(c, enc, log.entries, j) && SignedBy(c, enc, log.entries[j], Some(pem))
    {
      var e := log.entries[i];
      PlaceOf(c, enc, log.entries, i);
      if e.body.index != i || e.body.prevHash != expectedPrev {
        assert !InPlace(c, enc, log.entries, i);
        return false;
      }
      if !c.verify(pem, WitnessSigningInput(c, enc, e.body), e.sig) {
        assert !SignedBy(c, enc, e, Some(pem));
        return false;
      }
      LinkIsPredecessor(c, enc, log.entries, i + 1);
      expectedPrev := c.sha(enc(e.body));
      i := i + 1;
    }
    return true;
  }

  /** verify_witness_log_anchored: the rotation-aware loop. */
  method VerifyWitnessLogAnchored(c: Scheme, enc: WitnessEncoding, log: Log, trust: AuthorityLog) returns (ok: bool)
    ensures ok <==> Anchored(c, enc, log, trust)
  {
    hide InPlace, WitnessLink, WitnessSigningInput, BoundKey;
    if log.entries == [] || log.authorityId == "" {
      return false;
    }
    var expectedPrev, i := "", 0;
    LinkIsPredecessor(c, enc, log.entries, 0);
    while i < |log.entries|
      invariant 0 <= i <= |log.entries|
      invariant expectedPrev == WitnessLink(c, enc, log.entries[..i])
      invariant forall j :: 0 <= j < i ==>
        InPlace(c, enc, log.entries, j) && SignedBy(c, enc, log.entries[j], BoundKey(c, trust, log.entries[j].body))
    {
      var e := log.entries[i];
      PlaceOf(c, enc, log.entries, i);
      if e.body.index != i || e.body.prevHash != expectedPrev {
        assert !InPlace(c, enc, log.entries, i);
        return false;
      }
      var pem := BoundKey(c, trust, e.body);
      if pem.None? || !c.verify(pem.value, WitnessSigningInput(c, enc, e.body), e.sig) {
        assert !SignedBy(c, enc, e, pem);
        return false;
      }
      LinkIsPredecessor(c, enc, log.entries, i + 1);
      expectedPrev := c.sha(enc(e.body));
      i := i + 1;
    }
    return true;
  }

  // ----- growth -----

  lemma InPlacePrefix(c: Scheme, enc: WitnessEncoding, entries: seq<WitnessEntry>, n: nat, i: nat)
    requires i < n <= |entries|
    ensures InPlace(c, enc, entries[..n], i) <==> InPlace(c, enc, entries, i)
  {
    assert entries[..n][..i] == entries[..i];
  }

  /** Serving one more query under the key that the entry names keeps the log anchored. */
  lemma AppendAnchored(c: Scheme, enc: WitnessEncoding, log: Log, trust: AuthorityLog, queryHash: string,
                       recordHash: string, agentId: string, capabilities: seq<string>, sk: Key, authorityId: string,
                       issuedAt: int, keySeq: int, keyFingerprint: string)
    requires Lawful(c) && AnchoredEntries(c, enc, log.entries, trust)
    requires TrustedKeyForSeq(c, trust, keySeq, Some(keyFingerprint)) == Some(c.publicPem(sk))
    ensures AnchoredEntries(c, enc, AppendEntry(c, enc, log, queryHash, recordHash, agentId, capabilities, sk,
                                                authorityId, issuedAt, keySeq, keyFingerprint).entries, trust)
  {
    var grown := AppendEntry(c, enc, log, queryHash, recordHash, agentId, capabilities, sk,
                             authorityId, issuedAt, keySeq, keyFingerprint).entries;
    var n := |log.entries|;
    assert grown[..n] == log.entries;
    forall i | 0 <= i < |grown|
      ensures InPlace(c, enc, grown, i) && SignedBy(c, enc, grown[i], BoundKey(c, trust, grown[i].body))
    {
      if i < n {
        InPlacePrefix(c, enc, grown, n, i);
        assert grown[i] == log.entries[i];
      }
    }
  }

  /** A rotation keeps every earlier entry verifiable under the key it was served with. */
  lemma RotationKeepsAnchored(c: Scheme, enc: WitnessEncoding, entries: seq<WitnessEntry>, trust: AuthorityLog, grown: AuthorityLog)
    requires AnchoredEntries(c, enc, entries, trust) && trust.entries <= grown.entries
    ensures AnchoredEntries(c, enc, entries, grown)
  {
    forall i | 0 <= i < |entries|
      ensures InPlace(c, enc, entries, i) && SignedBy(c, enc, entries[i], BoundKey(c, grown, entries[i].body))
    {
      assert BoundKey(c, trust, entries[i].body) == BoundKey(c, grown, entries[i].body);
    }
  }

  // ----- tamper evidence -----

  ghost predicate ChainInPlace(c: Scheme, enc: WitnessEncoding, entries: seq<WitnessEntry>) {
    forall i :: 0 <= i < |entries| ==> InPlace(c, enc, entries, i)
  }

  /** No two canonical texts of the two logs collide. */
  ghost predicate NoWitnessCollision(c: Scheme, enc: WitnessEncoding, a: seq<WitnessEntry>, b: seq<WitnessEntry>) {
    forall i, j :: 0 <= i < |a| && 0 <= j < |b| ==> ToldApart(c.sha, enc(a[i].body), enc(b[j].body))
  }

  lemma {:induction false} WitnessAgreeBackwards(c: Scheme, enc: WitnessEncoding, a: seq<WitnessEntry>, b: seq<WitnessEntry>, n: nat, i: nat)
    requires NoWitnessCollision(c, enc, a, b) && Injective(enc) && ChainInPlace(c, enc, a) && ChainInPlace(c, enc, b)
    requires i <= n < |a| && n < |b| && enc(a[n].body) == enc(b[n].body)
    ensures a[i].body == b[i].body
    decreases n
  {
    if i < n {
      assert InPlace(c, enc, a, n) && InPlace(c, enc, b, n);
      LinkIsPredecessor(c, enc, a, n);
      LinkIsPredecessor(c, enc, b, n);
      assert ToldApart(c.sha, enc(a[n - 1].body), enc(b[n - 1].body));
      WitnessAgreeBackwards(c, enc, a, b, n - 1, i);
    }
  }

  /** Two chains that end in the same canonical text served the same queries, to the same
      agents, with the same evidence, under the same keys. Both verifiers accept only chains. */
  lemma TipDeterminesServings(c: Scheme, enc: WitnessEncoding, a: Log, b: Log)
    requires NoWitnessCollision(c, enc, a.entries, b.entries) && Injective(enc) && ChainInPlace(c, enc, a.entries) && ChainInPlace(c, enc, b.entries)
    requires a.entries != [] && b.entries != []
    requires enc(a.entries[|a.entries| - 1].body) == enc(b.entries[|b.entries| - 1].body)
    ensures |a.entries| == |b.entries|
    ensures forall i :: 0 <= i < |a.entries| ==> a.entries[i].body == b.entries[i].body
  {
    var n, m := |a.entries| - 1, |b.entries| - 1;
    assert InPlace(c, enc, a.entries, n) && InPlace(c, enc, b.entries, m);
    forall i | 0 <= i < |a.entries| ensures a.entries[i].body == b.entries[i].body {
      WitnessAgreeBackwards(c, enc, a.entries, b.entries, n, i);
    }
  }

  // ----- the format, field by field -----

  /** A served entry names its place, what was asked and answered, for whom and under which key,
      and the hash of the entry before it, and is signed over that hash and its own text. */
  lemma AppendReads(c: Scheme, enc: WitnessEncoding, log: Log, queryHash: string, recordHash: string,
                    agentId: string, capabilities: seq<string>, sk: Key, authorityId: string,
                    issuedAt: int, keySeq: int, keyFingerprint: string)
    ensures var n := |log.entries|;
      var link := if n == 0 then "" else c.sha(enc(log.entries[n - 1].body));
      var b := WitnessBody(n, authorityId, queryHash, recordHash, agentId, capabilities, issuedAt, keySeq, keyFingerprint, link);
      AppendEntry(c, enc, log, queryHash, recordHash, agentId, capabilities, sk, authorityId, issuedAt, keySeq, keyFingerprint)
      == Log(authorityId, log.entries + [WitnessEntry(b, c.sign(sk, c.sha(link + "|" + enc(b))))])
  {}

  /** Entry i is in place, names the hash of the entry before it, and this key signed it. */
  predicate ServedAt(c: Scheme, enc: WitnessEncoding, entries: seq<WitnessEntry>, i: nat, pem: string)
    requires i < |entries|
  {
    var b := entries[i].body;
    b.index == i && b.prevHash == (if i == 0 then "" else c.sha(enc(entries[i - 1].body)))
    && c.verify(pem, c.sha(b.prevHash + "|" + enc(b)), entries[i].sig)
  }

  /** The entry names an entry of the trust log that is there, is no revoke, and has the
      fingerprint named, if any is. */
  predicate NamesKey(c: Scheme, trust: AuthorityLog, b: WitnessBody) {
    && 0 <= b.keySeq < |trust.entries| && trust.entries[b.keySeq].body.action != "revoke"
    && (b.keyFingerprint == "" || b.keyFingerprint == c.sha(Squeeze(trust.entries[b.keySeq].body.pem)))
  }

  lemma ServedExactly(c: Scheme, enc: WitnessEncoding, entries: seq<WitnessEntry>, i: nat, pem: string)
    requires i < |entries|
    ensures ServedAt(c, enc, entries, i, pem) <==> InPlace(c, enc, entries, i) && SignedBy(c, enc, entries[i], Some(pem))
  {
    LinkIsPredecessor(c, enc, entries, i);
  }

  /** Acceptance under one key, in full. */
  lemma AcceptedByExactly(c: Scheme, enc: WitnessEncoding, log: Log, pem: string)
    ensures AcceptedBy(c, enc, log, pem)
       <==> (log.entries != [] && log.authorityId != ""
             && forall i :: 0 <= i < |log.entries| ==> ServedAt(c, enc, log.entries, i, pem))
  {
    hide ServedAt, InPlace, SignedBy;
    forall i | 0 <= i < |log.entries|
      ensures ServedAt(c, enc, log.entries, i, pem) <==> InPlace(c, enc, log.entries, i) && SignedBy(c, enc, log.entries[i], Some(pem))
    {
      ServedExactly(c, enc, log.entries, i, pem);
    }
  }

  lemma BoundExactly(c: Scheme, trust: AuthorityLog, b: WitnessBody)
    ensures BoundKey(c, trust, b).Some? <==> NamesKey(c, trust, b)
    ensures NamesKey(c, trust, b) ==> BoundKey(c, trust, b) == Some(trust.entries[b.keySeq].body.pem)
  {
    hide Squeeze;
  }

  /** Acceptance under the trust log, in full. */
  lemma AnchoredExactly(c: Scheme, enc: WitnessEncoding, log: Log, trust: AuthorityLog)
    ensures Anchored(c, enc, log, trust)
       <==> (log.entries != [] && log.authorityId != ""
             && forall i :: 0 <= i < |log.entries| ==>
                  NamesKey(c, trust, log.entries[i].body)
                  && ServedAt(c, enc, log.entries, i, trust.entries[log.entries[i].body.keySeq].body.pem))
  {
    forall i | 0 <= i < |log.entries|
      ensures (NamesKey(c, trust, log.entries[i].body)
               && ServedAt(c, enc, log.entries, i, trust.entries[log.entries[i].body.keySeq].body.pem))
         <==> InPlace(c, enc, log.entries, i) && SignedBy(c, enc, log.entries[i], BoundKey(c, trust, log.entries[i].body))
    {
      hide InPlace, ServedAt, BoundKey;
      var b := log.entries[i].body;
      BoundExactly(c, trust, b);
      if NamesKey(c, trust, b) { ServedExactly(c, enc, log.entries, i, trust.entries[b.keySeq].body.pem); }
    }
    hide InPlace, ServedAt, BoundKey, SignedBy;
  }
}
