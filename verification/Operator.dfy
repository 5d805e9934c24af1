/** Operator authority of src/security/operator.py and the signed downgrade of
    src/hygiene/downgrade.py. */
module Operator {
  import opened Basics
  import opened Crypto

  // ----- signed approvals -----

  datatype ApprovalBody = ApprovalBody(actionHash: string, operatorId: string, decision: string,
                                       approvedActionHash: string, timestamp: int, nonce: int)

  datatype ApprovalRecord = ApprovalRecord(body: ApprovalBody, sig: string)

  predicate ApprovalVerifies(c: Scheme, enc: ApprovalBody -> string, a: ApprovalRecord, pem: string) {
    a.sig != "" && c.verify(pem, enc(a.body), a.sig)
  }

  /** binds_to: an approval of exactly this action hash. */
  predicate BindsTo(a: ApprovalRecord, actionHash: string) {
    a.body.decision == "approve" && a.body.approvedActionHash == actionHash && a.body.actionHash == actionHash
  }

  // ----- the key ring -----

  datatype KeyEntry = KeyEntry(pem: string, expiresAt: Option<int>, revoked: bool)

  predicate IsActive(e: KeyEntry, now: int) {
    !e.revoked && !(e.expiresAt.Some? && now >= e.expiresAt.value)
  }

  /** active_pems */
  function ActivePems(es: seq<KeyEntry>, now: int): seq<string> {
    if es == [] then []
    else ActivePems(es[..|es| - 1], now) + if IsActive(es[|es| - 1], now) then [es[|es| - 1].pem] else []
  }

  /** Position of the first entry with this PEM; |es| when there is none. */
  function Find(es: seq<KeyEntry>, pem: string): (i: nat)
    ensures i <= |es|
    ensures i < |es| ==> es[i].pem == pem
    ensures forall j :: 0 <= j < i ==> es[j].pem != pem
  {
    if es == [] then 0 else if es[0].pem == pem then 0 else 1 + Find(es[1..], pem)
  }

  lemma {:induction false} ActiveIff(es: seq<KeyEntry>, now: int, pem: string)
    ensures pem in ActivePems(es, now) <==> exists i :: 0 <= i < |es| && es[i].pem == pem && IsActive(es[i], now)
  {
    if es != [] {
      var n := |es| - 1;
      ActiveIff(es[..n], now, pem);
      assert forall i :: 0 <= i < n ==> es[..n][i] == es[i];
      if i :| 0 <= i < |es| && es[i].pem == pem && IsActive(es[i], now) {
        if i < n { assert es[..n][i].pem == pem; }
      }
    }
  }

  /** revoke reads its argument as a PEM when it looks like one, and as a key id otherwise; a
      key id is a function of the PEM. */
  predicate LooksLikePem(target: string) {
    "-----" <= target || '\n' in target
  }

  predicate Names(keyIdOf: string -> string, target: string, e: KeyEntry) {
    if LooksLikePem(target) then e.pem == target else keyIdOf(e.pem) == target
  }

  /** Position of the first entry the target names; |es| when there is none. */
  function FindTarget(keyIdOf: string -> string, es: seq<KeyEntry>, target: string): (i: nat)
    ensures i <= |es|
    ensures i < |es| ==> Names(keyIdOf, target, es[i])
    ensures forall j :: 0 <= j < i ==> !Names(keyIdOf, target, es[j])
  {
    if es == [] || Names(keyIdOf, target, es[0]) then 0 else 1 + FindTarget(keyIdOf, es[1..], target)
  }

  class OperatorKeyRing {
    const keyIdOf: string -> string
    var entries: seq<KeyEntry>

    constructor (keyIdOf: string -> string)
      ensures entries == [] && this.keyIdOf == keyIdOf
    {
      this.keyIdOf := keyIdOf;
      entries := [];
    }

    method Add(pem: string, expiresAt: Option<int>)
      modifies this
      ensures entries == old(entries) + [KeyEntry(pem, expiresAt, false)]
    {
      entries := entries + [KeyEntry(pem, expiresAt, false)];
    }

    /** revoke, by key id or by PEM: the first entry named is switched off, and only that one. */
    method Revoke(target: string) returns (found: bool)
      modifies this
      ensures found == (FindTarget(keyIdOf, old(entries), target) < |old(entries)|)
      ensures entries == RevokedAt(old(entries), FindTarget(keyIdOf, old(entries), target))
    {
      var i := 0;
      while i < |entries| && !Names(keyIdOf, target, entries[i])
        invariant 0 <= i <= |entries| && entries == old(entries)
        invariant forall j :: 0 <= j < i ==> !Names(keyIdOf, target, entries[j])
      {
        i := i + 1;
      }
      assert i == FindTarget(keyIdOf, entries, target);
      found := i < |entries|;
      if found {
        entries := entries[i := entries[i].(revoked := true)];
      }
    }

    /** rotate: adds the new key, then lets the old one lapse after a window, or revokes it. */
    method Rotate(newPem: string, oldPem: Option<string>, expiresAt: Option<int>, expireOldIn: int, now: int)
      modifies this
      ensures entries == RotatedTo(old(entries), newPem, oldPem, expiresAt, expireOldIn, now)
    {
      Add(newPem, expiresAt);
      if oldPem.Some? {
        var i := Find(entries, oldPem.value);
        if i < |entries| {
          if expireOldIn > 0 && entries[i].expiresAt.None? {
            entries := entries[i := entries[i].(expiresAt := Some(now + expireOldIn))];
          } else {
            entries := entries[i := entries[i].(revoked := true)];
          }
        }
      }
    }
  }

  function RevokedAt(es: seq<KeyEntry>, i: nat): seq<KeyEntry> {
    if i < |es| then es[i := es[i].(revoked := true)] else es
  }

  function RotatedTo(es: seq<KeyEntry>, newPem: string, oldPem: Option<string>, expiresAt: Option<int>,
                     expireOldIn: int, now: int): seq<KeyEntry> {
    var added := es + [KeyEntry(newPem, expiresAt, false)];
    if oldPem.None? then added
    else
      var i := Find(added, oldPem.value);
      if i == |added| then added
      else if expireOldIn > 0 && added[i].expiresAt.None? then added[i := added[i].(expiresAt := Some(now + expireOldIn))]
      else RevokedAt(added, i)
  }

  /** The text is a PEM: it begins with five dashes or has more than one line. */
  ghost predicate IsPemText(target: string) {
    (|target| >= 5 && forall k :: 0 <= k < 5 ==> target[k] == '-') || exists k :: 0 <= k < |target| && target[k] == '\n'
  }

  /** What revoke switches off: the first entry whose PEM is the text, if it is a PEM, and else the
      first whose key id it is; nothing if there is none. */
  lemma RevokeFinds(keyIdOf: string -> string, es: seq<KeyEntry>, target: string)
    ensures var i := FindTarget(keyIdOf, es, target);
      && (i < |es| ==> target == if IsPemText(target) then es[i].pem else keyIdOf(es[i].pem))
      && (forall j :: 0 <= j < i ==> target != if IsPemText(target) then es[j].pem else keyIdOf(es[j].pem))
      && |RevokedAt(es, i)| == |es|
      && forall j :: 0 <= j < |es| ==> RevokedAt(es, i)[j] == if j == i then KeyEntry(es[i].pem, es[i].expiresAt, true) else es[j]
  {
    assert LooksLikePem(target) <==> IsPemText(target) by {
      assert |target| >= 5 ==> ("-----" <= target <==> forall k :: 0 <= k < 5 ==> target[k] == "-----"[k]);
    }
    hide LooksLikePem, IsPemText;
  }

  /** Revoking takes a key out of force exactly when no later active entry repeats its PEM;
      every other key is untouched. */
  lemma RevokeTakesEffect(keyIdOf: string -> string, es: seq<KeyEntry>, target: string, now: int)
    ensures var i := FindTarget(keyIdOf, es, target);
      var after := RevokedAt(es, i);
      && (i < |es| ==>
        (es[i].pem !in ActivePems(after, now) <==> forall j :: i < j < |es| ==> es[j].pem != es[i].pem || !IsActive(es[j], now)))
      && forall other :: (i == |es| || other != es[i].pem) ==> (other in ActivePems(after, now) <==> other in ActivePems(es, now))
  {
    var i := FindTarget(keyIdOf, es, target);
    var after := RevokedAt(es, i);
    assert forall j :: 0 <= j < |es| && j != i ==> after[j] == es[j];
    if i < |es| {
      ActiveIff(after, now, es[i].pem);
      assert forall j :: 0 <= j < i ==> es[j].pem != es[i].pem;
    }
    forall other | i == |es| || other != es[i].pem ensures other in ActivePems(after, now) <==> other in ActivePems(es, now) {
      ActiveIff(after, now, other);
      ActiveIff(es, now, other);
    }
  }

  /** A key that was added twice is still in force after it has been revoked. */
  lemma RevokedDuplicateStaysActive(keyIdOf: string -> string, pem: string, now: int)
    requires LooksLikePem(pem)
    ensures var es := [KeyEntry(pem, None, false), KeyEntry(pem, None, false)];
      pem in ActivePems(RevokedAt(es, FindTarget(keyIdOf, es, pem)), now)
  {
    var es := [KeyEntry(pem, None, false), KeyEntry(pem, None, false)];
    RevokeTakesEffect(keyIdOf, es, pem, now);
    assert Names(keyIdOf, pem, es[0]) && IsActive(es[1], now);
  }

  /** Rotation with a window: the new key is in force, and the old one, present once and
      without an expiry, stays in force until the window has passed and not after. */
  lemma RotateKeepsBothForWindow(es: seq<KeyEntry>, newPem: string, oldPem: string, window: int, now: int, later: int)
    requires newPem != oldPem && window > 0
    requires Find(es, oldPem) < |es| && es[Find(es, oldPem)] == KeyEntry(oldPem, None, false)
    requires forall j :: Find(es, oldPem) < j < |es| ==> es[j].pem != oldPem
    ensures var after := RotatedTo(es, newPem, Some(oldPem), None, window, now);
      newPem in ActivePems(after, later) && (oldPem in ActivePems(after, later) <==> later < now + window)
  {
    var added, after := es + [KeyEntry(newPem, None, false)], RotatedTo(es, newPem, Some(oldPem), None, window, now);
    var i := Find(es, oldPem);
    assert added[i].pem == oldPem && Find(added, oldPem) == i;
    ActiveIff(after, later, newPem);
    ActiveIff(after, later, oldPem);
    assert after[|es|] == KeyEntry(newPem, None, false) && after[i] == KeyEntry(oldPem, Some(now + window), false);
    assert forall j :: 0 <= j < |es| && j != i ==> after[j] == es[j];
  }

  lemma RotatedEntries(es: seq<KeyEntry>, newPem: string, oldPem: string, expiresAt: Option<int>, window: int, now: int) returns (old_: KeyEntry)
    requires newPem != oldPem && Find(es, oldPem) < |es|
    ensures var i := Find(es, oldPem);
      RotatedTo(es, newPem, Some(oldPem), expiresAt, window, now) == es[i := old_] + [KeyEntry(newPem, expiresAt, false)]
      && old_.pem == oldPem
      && forall later :: IsActive(old_, later) <==>
           !es[i].revoked && es[i].expiresAt.None? && window > 0 && later < now + window
  {
    var added, i := es + [KeyEntry(newPem, expiresAt, false)], Find(es, oldPem);
    assert added[i].pem == oldPem && Find(added, oldPem) == i;
    old_ := RotatedTo(es, newPem, Some(oldPem), expiresAt, window, now)[i];
  }

  lemma ActiveSplit(es: seq<KeyEntry>, i: nat, e: KeyEntry, last: KeyEntry, later: int, pem: string)
    requires i < |es| && e.pem == es[i].pem && forall j :: i != j && 0 <= j < |es| ==> es[j].pem != e.pem
    requires last.pem != e.pem
    ensures pem in ActivePems(es[i := e] + [last], later)
       <==> if pem == e.pem then IsActive(e, later) else pem in ActivePems(es, later) || (pem == last.pem && IsActive(last, later))
  {
    hide IsActive;
    var after := es[i := e] + [last];
    assert after[..|after| - 1] == es[i := e];
    ActiveIff(es[i := e], later, pem);
    ActiveIff(es, later, pem);
    if pem == e.pem {
      assert es[i := e][i] == e;
    } else {
      assert forall j :: 0 <= j < |es| && j != i ==> es[i := e][j] == es[j];
    }
  }

  /** Rotation in full: the new key is in force until its own expiry; the old one, present once, is
      revoked at once, or, when a window is given and it had no expiry yet, lapses after the window;
      no other key is touched. */
  lemma RotateExactly(es: seq<KeyEntry>, newPem: string, oldPem: string, expiresAt: Option<int>, window: int, now: int, later: int)
    requires newPem != oldPem && Find(es, oldPem) < |es|
    requires forall j :: Find(es, oldPem) < j < |es| ==> es[j].pem != oldPem
    ensures var after, was := RotatedTo(es, newPem, Some(oldPem), expiresAt, window, now), es[Find(es, oldPem)];
      && (oldPem in ActivePems(after, later) <==> !was.revoked && was.expiresAt.None? && window > 0 && later < now + window)
      && forall other :: other != oldPem ==>
           (other in ActivePems(after, later)
            <==> other in ActivePems(es, later) || (other == newPem && (expiresAt.None? || later < expiresAt.value)))
  {
    hide RotatedTo, ActivePems;
    var i, last := Find(es, oldPem), KeyEntry(newPem, expiresAt, false);
    var lapsed := RotatedEntries(es, newPem, oldPem, expiresAt, window, now);
    ActiveSplit(es, i, lapsed, last, later, oldPem);
    forall other | other != oldPem
      ensures other in ActivePems(es[i := lapsed] + [last], later)
         <==> other in ActivePems(es, later) || (other == newPem && (expiresAt.None? || later < expiresAt.value))
    {
      ActiveSplit(es, i, lapsed, last, later, other);
    }
  }

  /** Without an old key to retire, rotation only adds. */
  lemma RotateOnlyAdds(es: seq<KeyEntry>, newPem: string, oldPem: Option<string>, expiresAt: Option<int>, window: int, now: int)
    requires oldPem.Some? ==> oldPem.value != newPem && Find(es, oldPem.value) == |es|
    ensures RotatedTo(es, newPem, oldPem, expiresAt, window, now) == es + [KeyEntry(newPem, expiresAt, false)]
  {
    var added := es + [KeyEntry(newPem, expiresAt, false)];
    if oldPem.Some? {
      assert forall j :: 0 <= j < |added| ==> added[j].pem != oldPem.value;
    }
  }

  // ----- signed downgrades -----

  datatype DowngradeBody = DowngradeBody(actionHash: string, violationIds: seq<string>, operatorId: string,
                                         reason: string, timestamp: int, nonce: int, secondOperatorId: string)

  datatype DowngradeRecord = DowngradeRecord(body: DowngradeBody, sig: string, secondSig: string,
                                             pubkeyPem: string, secondPubkeyPem: string)

  type DowngradeEncoding = DowngradeBody -> string

  const SECOND_OPERATOR_CODES: set<string> := {"destination_off_allowlist", "destination_untrusted"}

  predicate RequiresSecond(d: DowngradeRecord) {
    exists c :: c in d.body.violationIds && c in SECOND_OPERATOR_CODES
  }

  /** `primary_pem or self.pubkey_pem`: an empty allowlist entry stands for the record's own key. */
  function PrimaryKey(d: DowngradeRecord, pem: string): string {
    if pem != "" then pem else d.pubkeyPem
  }

  /** verify with a primary key only. */
  predicate PrimaryVerifies(c: Scheme, enc: DowngradeEncoding, d: DowngradeRecord, pem: string) {
    d.sig != "" && PrimaryKey(d, pem) != "" && c.verify(PrimaryKey(d, pem), enc(d.body), d.sig)
  }

  /** What verify adds when a second key is supplied. */
  predicate SecondVerifies(c: Scheme, enc: DowngradeEncoding, d: DowngradeRecord, pem: string) {
    d.secondSig != "" && c.verify(pem, enc(d.body), d.secondSig)
  }

  /** Under a listed key the signature must verify; under an empty entry, under the key that the
      record names, if it names one. */
  lemma PrimaryExactly(c: Scheme, enc: DowngradeEncoding, d: DowngradeRecord, pem: string)
    ensures PrimaryVerifies(c, enc, d, pem)
       <==> d.sig != "" && ((pem != "" && c.verify(pem, enc(d.body), d.sig))
                            || (pem == "" && d.pubkeyPem != "" && c.verify(d.pubkeyPem, enc(d.body), d.sig)))
  {}

  /** The first allowlisted key under which the primary signature verifies. */
  function FirstPrimary(c: Scheme, enc: DowngradeEncoding, d: DowngradeRecord, allow: seq<string>): (i: nat)
    ensures i <= |allow|
    ensures i < |allow| ==> PrimaryVerifies(c, enc, d, allow[i])
    ensures forall j :: 0 <= j < i ==> !PrimaryVerifies(c, enc, d, allow[j])
  {
    if allow == [] || PrimaryVerifies(c, enc, d, allow[0]) then 0 else 1 + FirstPrimary(c, enc, d, allow[1..])
  }

  /** validate_downgrade */
  predicate DowngradeAccepted(c: Scheme, enc: DowngradeEncoding, d: DowngradeRecord, actionHash: string,
                              codes: seq<string>, allow: seq<string>, usedNonces: set<int>) {
    && d.body.actionHash == actionHash
    && SetOf(d.body.violationIds) <= SetOf(codes)
    && codes != []
    && d.body.nonce !in usedNonces
    && var i := FirstPrimary(c, enc, d, allow);
      i < |allow| && (RequiresSecond(d) ==> exists s :: s in allow && s != allow[i] && SecondVerifies(c, enc, d, s))
  }

  /** An accepted downgrade is bound to the action, fresh, releases only actual violations, and
      is signed: by an allowlisted key and, for a destination code, by two different ones,
      provided the allowlist holds no empty entry. */
  lemma AcceptedDowngradeIsSigned(c: Scheme, enc: DowngradeEncoding, d: DowngradeRecord, actionHash: string,
                                  codes: seq<string>, allow: seq<string>, usedNonces: set<int>)
    requires "" !in allow
    ensures DowngradeAccepted(c, enc, d, actionHash, codes, allow, usedNonces) ==>
      d.body.actionHash == actionHash && d.body.nonce !in usedNonces && SetOf(d.body.violationIds) <= SetOf(codes)
      && exists p :: p in allow && c.verify(p, enc(d.body), d.sig)
           && (RequiresSecond(d) ==> exists s :: s in allow && s != p && c.verify(s, enc(d.body), d.secondSig))
  {
    if DowngradeAccepted(c, enc, d, actionHash, codes, allow, usedNonces) {
      var p := allow[FirstPrimary(c, enc, d, allow)];
      assert p in allow && PrimaryVerifies(c, enc, d, p) && PrimaryKey(d, p) == p;
    }
  }

  /** The same when every violation is released. */
  lemma FullReleaseIsSigned(c: Scheme, enc: DowngradeEncoding, d: DowngradeRecord, actionHash: string,
                            codes: seq<string>, allow: seq<string>, usedNonces: set<int>)
    requires "" !in allow && DowngradeAccepted(c, enc, d, actionHash, codes, allow, usedNonces)
    requires SetOf(d.body.violationIds) == SetOf(codes)
    ensures d.body.actionHash == actionHash && d.body.nonce !in usedNonces
    ensures exists p :: (p in allow && c.verify(p, enc(d.body), d.sig)
      && ((exists code :: code in codes && code in SECOND_OPERATOR_CODES) ==>
        exists s :: s in allow && s != p && c.verify(s, enc(d.body), d.secondSig)))
  {
    AcceptedDowngradeIsSigned(c, enc, d, actionHash, codes, allow, usedNonces);
    hide DowngradeAccepted;
    forall code | code in codes ensures code in d.body.violationIds {
      assert code in SetOf(codes);
    }
  }

  /** Without a destination code the two-way reading holds: accepted exactly when bound, fresh,
      within the violations, and signed under some allowlisted key. */
  lemma SingleOperatorExact(c: Scheme, enc: DowngradeEncoding, d: DowngradeRecord, actionHash: string,
                            codes: seq<string>, allow: seq<string>, usedNonces: set<int>)
    requires "" !in allow && !RequiresSecond(d)
    ensures DowngradeAccepted(c, enc, d, actionHash, codes, allow, usedNonces) <==>
      d.body.actionHash == actionHash && d.body.nonce !in usedNonces && SetOf(d.body.violationIds) <= SetOf(codes)
      && codes != [] && d.sig != "" && exists p :: p in allow && c.verify(p, enc(d.body), d.sig)
  {
    if exists p :: p in allow && d.sig != "" && c.verify(p, enc(d.body), d.sig) {
      var p :| p in allow && d.sig != "" && c.verify(p, enc(d.body), d.sig);
      var k :| 0 <= k < |allow| && allow[k] == p;
      assert PrimaryVerifies(c, enc, d, allow[k]);
    }
  }

  /** Two different listed texts: the first verifies the signature, the second the other one. */
  ghost predicate SignedByTwo(c: Scheme, enc: DowngradeEncoding, d: DowngradeRecord, allow: seq<string>) {
    d.sig != "" && d.secondSig != ""
    && exists p, s :: p in allow && s in allow && p != s && c.verify(p, enc(d.body), d.sig) && c.verify(s, enc(d.body), d.secondSig)
  }

  /** With a destination code: accepted exactly when bound, fresh, within the violations, and signed
      under two different listed keys, as long as no signature verifies under two listed texts. */
  lemma TwoOperatorExact(c: Scheme, enc: DowngradeEncoding, d: DowngradeRecord, actionHash: string,
                         codes: seq<string>, allow: seq<string>, usedNonces: set<int>)
    requires "" !in allow && RequiresSecond(d)
    requires forall p, q, m, s :: p in allow && q in allow && c.verify(p, m, s) && c.verify(q, m, s) ==> p == q
    ensures DowngradeAccepted(c, enc, d, actionHash, codes, allow, usedNonces) <==>
      d.body.actionHash == actionHash && d.body.nonce !in usedNonces && SetOf(d.body.violationIds) <= SetOf(codes)
      && codes != [] && SignedByTwo(c, enc, d, allow)
  {
    var i := FirstPrimary(c, enc, d, allow);
    if DowngradeAccepted(c, enc, d, actionHash, codes, allow, usedNonces) {
      var s :| s in allow && s != allow[i] && SecondVerifies(c, enc, d, s);
      assert allow[i] in allow && PrimaryVerifies(c, enc, d, allow[i]) && PrimaryKey(d, allow[i]) == allow[i];
    }
    if SignedByTwo(c, enc, d, allow) {
      var p, s :| p in allow && s in allow && p != s && c.verify(p, enc(d.body), d.sig) && c.verify(s, enc(d.body), d.secondSig);
      var k :| 0 <= k < |allow| && allow[k] == p;
      assert PrimaryVerifies(c, enc, d, allow[k]);
      assert PrimaryVerifies(c, enc, d, allow[i]) && allow[i] in allow && allow[i] == p;
      assert SecondVerifies(c, enc, d, s);
    }
  }

  /** An empty allowlist entry accepts a record signed by whatever key the record itself names,
      wherever it stands in the list. */
  lemma EmptyEntryTrustsTheRecord(c: Scheme, enc: DowngradeEncoding, sk: Key, body: DowngradeBody, codes: seq<string>,
                                  allow: seq<string>, usedNonces: set<int>)
    requires Lawful(c) && c.publicPem(sk) != "" && c.sign(sk, enc(body)) != "" && "" in allow
    requires SetOf(body.violationIds) <= SetOf(codes) && codes != [] && body.nonce !in usedNonces
    requires forall x :: x in body.violationIds ==> x !in SECOND_OPERATOR_CODES
    ensures DowngradeAccepted(c, enc, SelfSigned(c, enc, sk, body), body.actionHash, codes, allow, usedNonces)
  {
    var d := SelfSigned(c, enc, sk, body);
    var k :| 0 <= k < |allow| && allow[k] == "";
    assert PrimaryVerifies(c, enc, d, allow[k]);
  }

  /** A record that names the key it is signed with. */
  function SelfSigned(c: Scheme, enc: DowngradeEncoding, sk: Key, body: DowngradeBody): DowngradeRecord {
    DowngradeRecord(body, c.sign(sk, enc(body)), "", c.publicPem(sk), "")
  }

  ghost predicate SignedByListed(c: Scheme, enc: DowngradeEncoding, d: DowngradeRecord, allow: seq<string>) {
    exists p :: p in allow && c.verify(p, enc(d.body), d.sig)
  }

  /** Exactly when the allowlist can be relied on: every accepted record is signed under a
      listed key if and only if no entry of the list is empty, given some key outside it. */
  lemma AllowlistHoldsExactly(c: Scheme, enc: DowngradeEncoding, outsider: Key, actionHash: string, codes: seq<string>,
                              allow: seq<string>, usedNonces: set<int>, nonce: int)
    requires Lawful(c) && c.publicPem(outsider) != "" && (forall m :: c.sign(outsider, m) != "")
    requires forall p, m :: p in allow ==> !c.verify(p, m, c.sign(outsider, m))
    requires codes != [] && nonce !in usedNonces
    ensures (forall d :: DowngradeAccepted(c, enc, d, actionHash, codes, allow, usedNonces) ==> SignedByListed(c, enc, d, allow))
       <==> "" !in allow
  {
    if "" in allow {
      var d := SelfSigned(c, enc, outsider, DowngradeBody(actionHash, [], "operator", "", 0, nonce, ""));
      EmptyEntryTrustsTheRecord(c, enc, outsider, d.body, codes, allow, usedNonces);
      hide DowngradeAccepted;
      assert !SignedByListed(c, enc, d, allow);
    } else {
      forall d | DowngradeAccepted(c, enc, d, actionHash, codes, allow, usedNonces) ensures SignedByListed(c, enc, d, allow) {
        AcceptedDowngradeIsSigned(c, enc, d, actionHash, codes, allow, usedNonces);
      }
    }
  }

  /** A record with a destination code and no second signature is never accepted. */
  lemma DestinationNeedsSecond(c: Scheme, enc: DowngradeEncoding, d: DowngradeRecord, actionHash: string,
                               codes: seq<string>, allow: seq<string>, usedNonces: set<int>)
    requires RequiresSecond(d) && (d.secondSig == "" || |SetOf(allow)| <= 1)
    ensures !DowngradeAccepted(c, enc, d, actionHash, codes, allow, usedNonces)
  {
    var i := FirstPrimary(c, enc, d, allow);
    if i < |allow| && d.secondSig != "" {
      forall s | s in allow ensures s == allow[i] {
        assert s in SetOf(allow) && allow[i] in SetOf(allow);
        AtMostOne(SetOf(allow), s, allow[i]);
      }
    }
  }

  lemma AtMostOne(s: set<string>, x: string, y: string)
    requires x in s && y in s && |s| <= 1
    ensures x == y
  {
    assert |s - {x}| == |s| - 1;
    assert y !in s - {x};
  }
}
