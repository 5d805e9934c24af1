/** The evidence-authority trust log of src/query/authority.py. */
module TrustLog {
  import opened Basics
  import opened Crypto

  /** The signed fields of an entry. */
  datatype TrustBody = TrustBody(index: int, action: string, signerId: string, pem: string,
                                 issuedAt: int, prevHash: string)

  datatype TrustEntry = TrustEntry(body: TrustBody, sig: string)

  datatype AuthorityLog = AuthorityLog(anchorFingerprint: string, entries: seq<TrustEntry>)

  /** canonical_bytes: the JSON text of the signed fields. */
  type TrustEncoding = TrustBody -> string

  function SigningInput(c: Scheme, enc: TrustEncoding, b: TrustBody): string {
    c.sha(b.prevHash + "|" + enc(b))
  }

  function LinkHash(c: Scheme, enc: TrustEncoding, b: TrustBody): string {
    c.sha(enc(b))
  }

  function SignEntry(c: Scheme, enc: TrustEncoding, b: TrustBody, sk: Key): TrustEntry {
    TrustEntry(b, c.sign(sk, SigningInput(c, enc, b)))
  }

  function BuildBootstrapLog(c: Scheme, enc: TrustEncoding, sk: Key, signerId: string, now: int): AuthorityLog {
    var pem := c.publicPem(sk);
    AuthorityLog(Fingerprint(c, pem), [SignEntry(c, enc, TrustBody(0, "bootstrap", signerId, pem, now, ""), sk)])
  }

  /** The prev_hash of the next entry. */
  function NextLink(c: Scheme, enc: TrustEncoding, entries: seq<TrustEntry>): string {
    if entries == [] then "" else LinkHash(c, enc, entries[|entries| - 1].body)
  }

  function Append(c: Scheme, enc: TrustEncoding, log: AuthorityLog, action: string, pem: string, prevSk: Key,
                  signerId: string, now: int): AuthorityLog {
    var b := TrustBody(|log.entries|, action, signerId, pem, now, NextLink(c, enc, log.entries));
    log.(entries := log.entries + [SignEntry(c, enc, b, prevSk)])
  }

  function AppendRotate(c: Scheme, enc: TrustEncoding, log: AuthorityLog, newSk: Key, prevSk: Key,
                        signerId: string, now: int): AuthorityLog {
    Append(c, enc, log, "rotate", c.publicPem(newSk), prevSk, signerId, now)
  }

  function AppendRevoke(c: Scheme, enc: TrustEncoding, log: AuthorityLog, prevSk: Key,
                        signerId: string, now: int): AuthorityLog {
    Append(c, enc, log, "revoke", c.publicPem(prevSk), prevSk, signerId, now)
  }

  /** current_pem: nothing is in force once the log ends in a revoke. */
  function CurrentPem(log: AuthorityLog): Option<string> {
    if log.entries == [] then None
    else
      var last := log.entries[|log.entries| - 1].body;
      if last.action == "bootstrap" || last.action == "rotate" then Some(last.pem) else None
  }

  /** The key that authorizes the next entry: the one of the last entry that is not a revoke. */
  function LastTrusted(entries: seq<TrustEntry>): Option<string> {
    if entries == [] then None
    else if entries[|entries| - 1].body.action != "revoke" then Some(entries[|entries| - 1].body.pem)
    else LastTrusted(entries[..|entries| - 1])
  }

  function SignerOf(entries: seq<TrustEntry>, i: nat): Option<string>
    requires i < |entries|
  {
    if i == 0 then Some(entries[0].body.pem) else LastTrusted(entries[..i])
  }

  ghost predicate EntryAccepted(c: Scheme, enc: TrustEncoding, entries: seq<TrustEntry>, i: nat)
    requires i < |entries|
  {
    var b := entries[i].body;
    && (if i == 0 then b.action == "bootstrap" && b.prevHash == ""
        else b.action in {"rotate", "revoke"} && b.prevHash == LinkHash(c, enc, entries[i - 1].body))
    && b.index == i
    && SignerOf(entries, i).Some?
    && c.verify(SignerOf(entries, i).value, SigningInput(c, enc, b), entries[i].sig)
  }

  /** Every entry is in place, chained to its predecessor and signed by the key it needs. */
  ghost predicate ChainAccepted(c: Scheme, enc: TrustEncoding, entries: seq<TrustEntry>) {
    forall i :: 0 <= i < |entries| ==> EntryAccepted(c, enc, entries, i)
  }

  ghost predicate Accepted(c: Scheme, enc: TrustEncoding, log: AuthorityLog, anchorPem: string) {
    && log.entries != []
    && log.anchorFingerprint == Fingerprint(c, anchorPem)
    && ChainAccepted(c, enc, log.entries)
  }

  lemma EntryAcceptedPrefix(c: Scheme, enc: TrustEncoding, entries: seq<TrustEntry>, n: nat, i: nat)
    requires i < n <= |entries|
    ensures EntryAccepted(c, enc, entries[..n], i) <==> EntryAccepted(c, enc, entries, i)
  {
    assert entries[..n][..i] == entries[..i];
  }

  /** verify_trust_log, as the loop it is: it accepts exactly the logs described above. */
  method VerifyTrustLog(c: Scheme, enc: TrustEncoding, log: AuthorityLog, anchorPem: string) returns (ok: bool)
    ensures ok <==> Accepted(c, enc, log, anchorPem)
  {
    hide Fingerprint, LastTrusted;
    if log.entries == [] || log.anchorFingerprint != Fingerprint(c, anchorPem) {
      return false;
    }
    var expectedPrev, seen, i := "", [], 0;
    while i < |log.entries|
      invariant 0 <= i <= |log.entries|
      invariant seen == log.entries[..i]
      invariant i > 0 ==> expectedPrev == LinkHash(c, enc, log.entries[i - 1].body)
      invariant forall j :: 0 <= j < i ==> EntryAccepted(c, enc, log.entries, j)
    {
      var e := log.entries[i];
      ghost var here := EntryAccepted(c, enc, log.entries, i);
      if i == 0 {
        if e.body.action != "bootstrap" || e.body.prevHash != "" {
          assert !here;
          return false;
        }
      } else if e.body.action !in {"rotate", "revoke"} || e.body.prevHash != expectedPrev {
        assert !here;
        return false;
      }
      var signer := if i == 0 then Some(log.entries[0].body.pem) else LastTrusted(seen);
      if e.body.index != i || signer.None? {
        assert !here;
        return false;
      }
      if !c.verify(signer.value, SigningInput(c, enc, e.body), e.sig) {
        assert !here;
        return false;
      }
      seen, expectedPrev := seen + [e], LinkHash(c, enc, e.body);
      i := i + 1;
    }
    return true;
  }

  // ----- growing a log keeps it accepted -----

  lemma BootstrapAccepted(c: Scheme, enc: TrustEncoding, sk: Key, signerId: string, now: int)
    requires Lawful(c)
    ensures Accepted(c, enc, BuildBootstrapLog(c, enc, sk, signerId, now), c.publicPem(sk))
  {
  }

  /** Appending an entry signed by the key in force keeps a log accepted. */
  lemma AppendAccepted(c: Scheme, enc: TrustEncoding, log: AuthorityLog, anchorPem: string, action: string,
                       pem: string, prevSk: Key, signerId: string, now: int)
    requires Lawful(c) && Accepted(c, enc, log, anchorPem) && action in {"rotate", "revoke"}
    requires LastTrusted(log.entries) == Some(c.publicPem(prevSk))
    ensures Accepted(c, enc, Append(c, enc, log, action, pem, prevSk, signerId, now), anchorPem)
  {
    hide LastTrusted, Fingerprint;
    var grown := Append(c, enc, log, action, pem, prevSk, signerId, now).entries;
    var n := |log.entries|;
    assert grown[..n] == log.entries;
    forall i | 0 <= i < |grown| ensures EntryAccepted(c, enc, grown, i) {
      if i < n {
        EntryAcceptedPrefix(c, enc, grown, n, i);
      }
    }
  }

  /** Appending by any other key is refused, unless that key's signature happens to verify. */
  lemma ForeignAppendRefused(c: Scheme, enc: TrustEncoding, log: AuthorityLog, anchorPem: string, action: string,
                             pem: string, otherSk: Key, signerId: string, now: int, inForce: string)
    requires Accepted(c, enc, log, anchorPem) && LastTrusted(log.entries) == Some(inForce)
    requires forall m :: !c.verify(inForce, m, c.sign(otherSk, m))
    ensures !Accepted(c, enc, Append(c, enc, log, action, pem, otherSk, signerId, now), anchorPem)
  {
    hide LastTrusted, Fingerprint;
    var grown := Append(c, enc, log, action, pem, otherSk, signerId, now).entries;
    assert grown[..|log.entries|] == log.entries;
    assert !EntryAccepted(c, enc, grown, |log.entries|);
  }

  /** A revoke retires the key for callers of current_pem, yet the same key still authorizes
      the next entry of the log. */
  lemma RevokedKeyStillAuthorizes(c: Scheme, enc: TrustEncoding, log: AuthorityLog, anchorPem: string,
                                  sk: Key, newSk: Key, signerId: string, t: int, t': int)
    requires Lawful(c) && Accepted(c, enc, log, anchorPem) && LastTrusted(log.entries) == Some(c.publicPem(sk))
    ensures var revoked := AppendRevoke(c, enc, log, sk, signerId, t);
      CurrentPem(revoked) == None
      && Accepted(c, enc, AppendRotate(c, enc, revoked, newSk, sk, signerId, t'), anchorPem)
  {
    AppendAccepted(c, enc, log, anchorPem, "revoke", c.publicPem(sk), sk, signerId, t);
    var revoked := AppendRevoke(c, enc, log, sk, signerId, t);
    assert revoked.entries[..|log.entries|] == log.entries;
    AppendAccepted(c, enc, revoked, anchorPem, "rotate", c.publicPem(newSk), sk, signerId, t');
  }

  function Grown(log: AuthorityLog, e: TrustEntry): AuthorityLog {
    log.(entries := log.entries + [e])
  }

  /** The entry is signed by the key that callers of current_pem are told is in force. */
  ghost predicate SignedByCurrent(c: Scheme, enc: TrustEncoding, log: AuthorityLog, e: TrustEntry) {
    CurrentPem(log).Some? && c.verify(CurrentPem(log).value, SigningInput(c, enc, e.body), e.sig)
  }

  /** Exactly when the key in force and the key that authorizes are the same: every entry with
      which an accepted log stays accepted is signed by the key in force if and only if the log
      does not end in a revoke. */
  lemma CurrentAuthorizesExactly(c: Scheme, enc: TrustEncoding, log: AuthorityLog, anchorPem: string, sk: Key)
    requires Lawful(c) && Accepted(c, enc, log, anchorPem) && LastTrusted(log.entries) == Some(c.publicPem(sk))
    ensures (forall e :: Accepted(c, enc, Grown(log, e), anchorPem) ==> SignedByCurrent(c, enc, log, e))
       <==> log.entries[|log.entries| - 1].body.action != "revoke"
  {
    var n := |log.entries|;
    if log.entries[n - 1].body.action == "revoke" {
      var grown := Append(c, enc, log, "rotate", "", sk, "", 0);
      AppendAccepted(c, enc, log, anchorPem, "rotate", "", sk, "", 0);
      assert grown == Grown(log, grown.entries[n]);
      assert !SignedByCurrent(c, enc, log, grown.entries[n]);
    } else {
      forall e | Accepted(c, enc, Grown(log, e), anchorPem) ensures SignedByCurrent(c, enc, log, e) {
        assert Grown(log, e).entries[..n] == log.entries;
        assert EntryAccepted(c, enc, Grown(log, e).entries, n);
        assert EntryAccepted(c, enc, log.entries, n - 1);
      }
    }
  }

  lemma {:induction false} LastTrustedIsIntroduced(entries: seq<TrustEntry>) returns (j: nat)
    requires entries != [] && entries[0].body.action == "bootstrap"
    ensures j < |entries| && LastTrusted(entries) == Some(entries[j].body.pem) && entries[j].body.action != "revoke"
    ensures forall k :: j < k < |entries| ==> entries[k].body.action == "revoke"
  {
    var n := |entries| - 1;
    if entries[n].body.action != "revoke" {
      j := n;
    } else {
      j := LastTrustedIsIntroduced(entries[..n]);
    }
  }

  /** In an accepted log every later entry is signed by the newest key introduced before it. */
  lemma AuthorityStep(c: Scheme, enc: TrustEncoding, entries: seq<TrustEntry>, i: nat) returns (j: nat)
    requires ChainAccepted(c, enc, entries) && 0 < i < |entries|
    ensures j < i && Authorizes(c, enc, entries, j, i)
  {
    assert EntryAccepted(c, enc, entries, 0);
    j := LastTrustedIsIntroduced(entries[..i]);
    assert EntryAccepted(c, enc, entries, i) && EntryAccepted(c, enc, entries, j);
    assert forall k :: j < k < i ==> entries[..i][k] == entries[k];
  }

  /** Entry j introduces a key, which signs entry i, and only revokes lie between them. */
  ghost predicate Authorizes(c: Scheme, enc: TrustEncoding, entries: seq<TrustEntry>, j: nat, i: nat)
    requires j < i < |entries|
  {
    && entries[j].body.action in {"bootstrap", "rotate"}
    && c.verify(entries[j].body.pem, SigningInput(c, enc, entries[i].body), entries[i].sig)
    && forall k :: j < k < i ==> entries[k].body.action == "revoke"
  }

  /** Entry after entry, from entry 0 to entry i, each authorizes the next. */
  ghost predicate IsAuthorityPath(c: Scheme, enc: TrustEncoding, entries: seq<TrustEntry>, path: seq<nat>, i: nat) {
    && path != [] && path[0] == 0 && path[|path| - 1] == i
    && forall k :: 0 < k < |path| ==>
      path[k - 1] < path[k] < |entries| && Authorizes(c, enc, entries, path[k - 1], path[k])
  }

  lemma {:induction false} PathToRoot(c: Scheme, enc: TrustEncoding, entries: seq<TrustEntry>, i: nat) returns (path: seq<nat>)
    requires ChainAccepted(c, enc, entries) && i < |entries|
    ensures IsAuthorityPath(c, enc, entries, path, i)
    decreases i
  {
    hide Authorizes, ChainAccepted;
    if i == 0 {
      path := [0];
    } else {
      var j := AuthorityStep(c, enc, entries, i);
      var before := PathToRoot(c, enc, entries, j);
      path := before + [i];
    }
  }

  /** The anchor signed this entry's text. */
  ghost predicate SignedByAnchor(c: Scheme, enc: TrustEncoding, e: TrustEntry, anchorPem: string) {
    c.verify(anchorPem, SigningInput(c, enc, e.body), e.sig)
  }

  /** What the pin would promise, and when it does: the anchor's key signed the root of an
      accepted log exactly when entry 0 carries the anchor's key, in whatever spelling. */
  lemma RootExactly(c: Scheme, enc: TrustEncoding, log: AuthorityLog, anchorPem: string)
    requires OneKeyEach(c) && Accepted(c, enc, log, anchorPem)
    ensures SignedByAnchor(c, enc, log.entries[0], anchorPem)
       <==> Loads(c, anchorPem) && Squeeze(log.entries[0].body.pem) == Squeeze(anchorPem)
  {
    hide Squeeze;
    assert EntryAccepted(c, enc, log.entries, 0);
  }

  /** The line of authority of every entry of an accepted log goes back to entry 0; it starts
      at the pinned anchor exactly when the anchor's key signed entry 0. */
  lemma AuthorityGoesBackToRoot(c: Scheme, enc: TrustEncoding, log: AuthorityLog, anchorPem: string, i: nat) returns (path: seq<nat>)
    requires Accepted(c, enc, log, anchorPem) && i < |log.entries|
    ensures IsAuthorityPath(c, enc, log.entries, path, i)
    ensures OneKeyEach(c) && Loads(c, anchorPem) ==>
      (Squeeze(log.entries[path[0]].body.pem) == Squeeze(anchorPem) <==> SignedByAnchor(c, enc, log.entries[0], anchorPem))
  {
    hide Squeeze, OneKeyEach, Authorizes;
    if OneKeyEach(c) { RootExactly(c, enc, log, anchorPem); }
    path := PathToRoot(c, enc, log.entries, i);
  }

  /** The pin is compared with the declared fingerprint only: a log bootstrapped by any key
      passes under the pinned anchor once it declares the anchor's fingerprint, and unless that
      key is the anchor's, the anchor signed nothing in it. */
  lemma DeclaredAnchorIsNotTheRoot(c: Scheme, enc: TrustEncoding, sk: Key, anchorPem: string, signerId: string, now: int)
    requires Lawful(c)
    ensures var log := BuildBootstrapLog(c, enc, sk, signerId, now).(anchorFingerprint := Fingerprint(c, anchorPem));
      && Accepted(c, enc, log, anchorPem)
      && (OneKeyEach(c) && Squeeze(c.publicPem(sk)) != Squeeze(anchorPem) ==> !SignedByAnchor(c, enc, log.entries[0], anchorPem))
  {
    hide Squeeze;
    var log := BuildBootstrapLog(c, enc, sk, signerId, now).(anchorFingerprint := Fingerprint(c, anchorPem));
    if OneKeyEach(c) { RootExactly(c, enc, log, anchorPem); }
  }

  // ----- tamper evidence -----

  /** No two canonical texts of the two logs collide. */
  ghost predicate NoCollision(c: Scheme, enc: TrustEncoding, a: seq<TrustEntry>, b: seq<TrustEntry>) {
    forall i, j :: 0 <= i < |a| && 0 <= j < |b| ==> ToldApart(c.sha, enc(a[i].body), enc(b[j].body))
  }

  lemma AgreeBefore(c: Scheme, enc: TrustEncoding, a: seq<TrustEntry>, b: seq<TrustEntry>, n: nat)
    requires NoCollision(c, enc, a, b) && Injective(enc) && 0 < n < |a| && n < |b|
    requires EntryAccepted(c, enc, a, n) && EntryAccepted(c, enc, b, n) && enc(a[n].body) == enc(b[n].body)
    ensures enc(a[n - 1].body) == enc(b[n - 1].body)
  {
    hide SignerOf, SigningInput;
    SameInput(enc, a[n].body, b[n].body);
    SameText(c.sha, enc(a[n - 1].body), enc(b[n - 1].body));
  }

  /** Accepted entries whose canonical text agrees at some position agree at every earlier one. */
  lemma {:induction false} AgreeBackwards(c: Scheme, enc: TrustEncoding, a: seq<TrustEntry>, b: seq<TrustEntry>, n: nat, i: nat)
    requires NoCollision(c, enc, a, b) && Injective(enc) && ChainAccepted(c, enc, a) && ChainAccepted(c, enc, b)
    requires i <= n < |a| && n < |b| && enc(a[n].body) == enc(b[n].body)
    ensures a[i].body == b[i].body
    decreases n
  {
    hide EntryAccepted, NoCollision, Injective;
    if i < n {
      AgreeBefore(c, enc, a, b, n);
      AgreeBackwards(c, enc, a, b, n - 1, i);
    } else {
      SameInput(enc, a[n].body, b[n].body);
    }
  }

  /** The last entry's canonical text pins the whole history: two accepted logs that end in
      the same text have the same length and the same signed fields throughout. */
  lemma TipDeterminesLog(c: Scheme, enc: TrustEncoding, a: AuthorityLog, b: AuthorityLog, anchorA: string, anchorB: string)
    requires NoCollision(c, enc, a.entries, b.entries) && Injective(enc)
    requires Accepted(c, enc, a, anchorA) && Accepted(c, enc, b, anchorB)
    requires enc(a.entries[|a.entries| - 1].body) == enc(b.entries[|b.entries| - 1].body)
    ensures |a.entries| == |b.entries|
    ensures forall i :: 0 <= i < |a.entries| ==> a.entries[i].body == b.entries[i].body
  {
    var n, m := |a.entries| - 1, |b.entries| - 1;
    assert EntryAccepted(c, enc, a.entries, n) && EntryAccepted(c, enc, b.entries, m);
    forall i | 0 <= i < |a.entries| ensures a.entries[i].body == b.entries[i].body {
      AgreeBackwards(c, enc, a.entries, b.entries, n, i);
    }
  }

  /** trusted_key_for_seq */
  function TrustedKeyForSeq(c: Scheme, log: AuthorityLog, index: int, fingerprint: Option<string>): Option<string> {
    if index < 0 || index >= |log.entries| then None
    else
      var b := log.entries[index].body;
      if b.action == "revoke" then None
      else if fingerprint.Some? && Fingerprint(c, b.pem) != fingerprint.value then None
      else Some(b.pem)
  }

  /** A revoke retired this key: it was the one in force before the revoke. */
  ghost predicate Retired(entries: seq<TrustEntry>, pem: string) {
    exists i :: 0 <= i < |entries| && RetiredAt(entries, i, pem)
  }

  predicate RetiredAt(entries: seq<TrustEntry>, i: nat, pem: string)
    requires i < |entries|
  {
    entries[i].body.action == "revoke" && LastTrusted(entries[..i]) == Some(pem)
  }

  /** A revoke does not reach the lookup of keys by entry: the retired key still resolves. */
  lemma RetiredKeyStillResolves(c: Scheme, enc: TrustEncoding, log: AuthorityLog, anchorPem: string, sk: Key,
                                signerId: string, now: int) returns (j: nat)
    requires Accepted(c, enc, log, anchorPem) && LastTrusted(log.entries) == Some(c.publicPem(sk))
    ensures var revoked, pem := AppendRevoke(c, enc, log, sk, signerId, now), c.publicPem(sk);
      Retired(revoked.entries, pem) && TrustedKeyForSeq(c, revoked, j, Some(Fingerprint(c, pem))) == Some(pem)
  {
    hide Fingerprint;
    assert EntryAccepted(c, enc, log.entries, 0);
    j := LastTrustedIsIntroduced(log.entries);
    var revoked, n := AppendRevoke(c, enc, log, sk, signerId, now), |log.entries|;
    assert revoked.entries[..n] == log.entries;
    assert RetiredAt(revoked.entries, n, c.publicPem(sk));
  }

  /** Exactly when the lookup only yields keys that no revoke retired: when the log has no revoke. */
  lemma TrustedKeysHoldExactly(c: Scheme, enc: TrustEncoding, log: AuthorityLog, anchorPem: string)
    requires Accepted(c, enc, log, anchorPem)
    ensures (forall index, fingerprint, pem :: TrustedKeyForSeq(c, log, index, fingerprint) == Some(pem) ==> !Retired(log.entries, pem))
       <==> forall i :: 0 <= i < |log.entries| ==> log.entries[i].body.action != "revoke"
  {
    hide Fingerprint;
    if i :| 0 <= i < |log.entries| && log.entries[i].body.action == "revoke" {
      assert EntryAccepted(c, enc, log.entries, 0);
      var j := LastTrustedIsIntroduced(log.entries[..i]);
      var pem := log.entries[j].body.pem;
      assert RetiredAt(log.entries, i, pem);
      assert TrustedKeyForSeq(c, log, j, None) == Some(pem);
    }
  }

  // ----- the format, field by field -----

  /** A bootstrapped log: one entry, in which the key signs itself in. */
  lemma BootstrapReads(c: Scheme, enc: TrustEncoding, sk: Key, signerId: string, now: int)
    ensures var log, b := BuildBootstrapLog(c, enc, sk, signerId, now), TrustBody(0, "bootstrap", signerId, c.publicPem(sk), now, "");
      log.anchorFingerprint == c.sha(Squeeze(c.publicPem(sk)))
      && log.entries == [TrustEntry(b, c.sign(sk, c.sha("|" + enc(b))))]
  {
    hide Squeeze;
    assert "" + "|" == "|";
  }

  /** An appended entry names its place and the hash of the entry before it, and is signed over
      that hash and its own text by the key it was appended with. */
  lemma AppendReads(c: Scheme, enc: TrustEncoding, log: AuthorityLog, action: string, pem: string, prevSk: Key,
                    signerId: string, now: int)
    ensures var n := |log.entries|;
      var link := if n == 0 then "" else c.sha(enc(log.entries[n - 1].body));
      var b := TrustBody(n, action, signerId, pem, now, link);
      Append(c, enc, log, action, pem, prevSk, signerId, now)
      == AuthorityLog(log.anchorFingerprint, log.entries + [TrustEntry(b, c.sign(prevSk, c.sha(link + "|" + enc(b))))])
  {}

  /** A rotation signs the new key in with the old one; a revoke names the key that signs it. */
  lemma RotateAndRevokeRead(c: Scheme, enc: TrustEncoding, log: AuthorityLog, newSk: Key, prevSk: Key, signerId: string, now: int)
    ensures AppendRotate(c, enc, log, newSk, prevSk, signerId, now)
         == Append(c, enc, log, "rotate", c.publicPem(newSk), prevSk, signerId, now)
    ensures AppendRevoke(c, enc, log, prevSk, signerId, now)
         == Append(c, enc, log, "revoke", c.publicPem(prevSk), prevSk, signerId, now)
  {}

  predicate Signed(c: Scheme, enc: TrustEncoding, e: TrustEntry, pem: string) {
    c.verify(pem, c.sha(e.body.prevHash + "|" + enc(e.body)), e.sig)
  }

  /** Entry j is the last before entry i that is not a revoke, and its key signed entry i. */
  predicate SignsIn(c: Scheme, enc: TrustEncoding, entries: seq<TrustEntry>, j: nat, i: nat) {
    && j < i < |entries| && entries[j].body.action != "revoke"
    && (forall k :: j < k < i ==> entries[k].body.action == "revoke")
    && Signed(c, enc, entries[i], entries[j].body.pem)
  }

  ghost predicate Continues(c: Scheme, enc: TrustEncoding, entries: seq<TrustEntry>, i: nat)
    requires 0 < i < |entries|
  {
    && (entries[i].body.action == "rotate" || entries[i].body.action == "revoke")
    && entries[i].body.index == i && entries[i].body.prevHash == c.sha(enc(entries[i - 1].body))
    && exists j: nat :: SignsIn(c, enc, entries, j, i)
  }

  predicate Begins(c: Scheme, enc: TrustEncoding, e: TrustEntry) {
    e.body.action == "bootstrap" && e.body.index == 0 && e.body.prevHash == "" && Signed(c, enc, e, e.body.pem)
  }

  lemma {:induction false} LastTrustedExactly(entries: seq<TrustEntry>, pem: string)
    ensures LastTrusted(entries) == Some(pem)
       <==> exists j: nat :: LastKept(entries, j) && entries[j].body.pem == pem
  {
    if entries != [] {
      var n := |entries| - 1;
      LastTrustedExactly(entries[..n], pem);
      if entries[n].body.action != "revoke" {
        assert LastKept(entries, n);
        assert forall j: nat :: LastKept(entries, j) ==> j == n;
      } else {
        assert forall j: nat :: LastKept(entries, j) <==> LastKept(entries[..n], j);
        if LastTrusted(entries) == Some(pem) {
          var j: nat :| LastKept(entries[..n], j) && entries[..n][j].body.pem == pem;
          assert LastKept(entries, j);
        }
      }
    }
  }

  predicate LastKept(entries: seq<TrustEntry>, j: nat) {
    j < |entries| && entries[j].body.action != "revoke" && forall k :: j < k < |entries| ==> entries[k].body.action == "revoke"
  }

  lemma ContinuesExactly(c: Scheme, enc: TrustEncoding, entries: seq<TrustEntry>, i: nat)
    requires 0 < i < |entries|
    ensures EntryAccepted(c, enc, entries, i) <==> Continues(c, enc, entries, i)
  {
    hide LastTrusted;
    var before := entries[..i];
    if EntryAccepted(c, enc, entries, i) {
      LastTrustedExactly(before, SignerOf(entries, i).value);
      var j: nat :| LastKept(before, j) && before[j].body.pem == SignerOf(entries, i).value;
      assert forall k :: j < k < i ==> before[k] == entries[k];
      assert SignsIn(c, enc, entries, j, i);
    }
    if Continues(c, enc, entries, i) {
      var j: nat :| SignsIn(c, enc, entries, j, i);
      assert LastKept(before, j) && before[j] == entries[j];
      LastTrustedExactly(before, entries[j].body.pem);
    }
  }

  /** Acceptance in full: the declared fingerprint is the anchor's; entry 0 bootstraps itself; and
      every later entry is in place, names the hash of the entry before it, and is signed by the
      key of the last entry before it that is not a revoke. */
  lemma AcceptedExactly(c: Scheme, enc: TrustEncoding, log: AuthorityLog, anchorPem: string)
    ensures Accepted(c, enc, log, anchorPem)
       <==> (log.entries != [] && log.anchorFingerprint == c.sha(Squeeze(anchorPem)) && Begins(c, enc, log.entries[0])
             && forall i :: 0 < i < |log.entries| ==> Continues(c, enc, log.entries, i))
  {
    hide Squeeze, LastTrusted;
    forall i | 0 < i < |log.entries| ensures EntryAccepted(c, enc, log.entries, i) <==> Continues(c, enc, log.entries, i) {
      ContinuesExactly(c, enc, log.entries, i);
    }
    if log.entries != [] { assert EntryAccepted(c, enc, log.entries, 0) <==> Begins(c, enc, log.entries[0]); }
    hide EntryAccepted, Continues, Begins;
  }

  /** The lookup of a key by entry: the entry is there, is no revoke, and has the fingerprint asked for. */
  lemma TrustedKeyExactly(c: Scheme, log: AuthorityLog, index: int, fingerprint: Option<string>, pem: string)
    ensures TrustedKeyForSeq(c, log, index, fingerprint) == Some(pem)
       <==> 0 <= index < |log.entries| && log.entries[index].body.pem == pem && log.entries[index].body.action != "revoke"
            && (fingerprint.Some? ==> fingerprint.value == c.sha(Squeeze(pem)))
  {
    hide Squeeze;
  }
}
