/** The two replay registries of src/security/replay.py: the in-memory one keeps two
    dictionaries, the durable one a table with two uniqueness constraints. */
module Replay {
  datatype Status = REGISTERED | SIGNED | SUBMITTED | SETTLED | BLOCKED | EXPIRED | CANCELLED

  datatype ActionRecord = ActionRecord(actionId: string, tenantId: string, actionHash: string, nonce: int,
                                       status: Status, registeredAt: int)

  /** The arguments of register. */
  datatype Registration = Registration(tenantId: string, actionId: string, actionHash: string, nonce: int,
                                       now: int, expiry: int)

  predicate Expired(r: Registration) {
    r.expiry != 0 && r.now != 0 && r.expiry < r.now
  }

  predicate WellFormed(r: Registration) {
    r.tenantId != "" && r.nonce >= 0
  }

  function RecordOf(r: Registration, status: Status): ActionRecord {
    ActionRecord(r.actionId, r.tenantId, r.actionHash, r.nonce, status, r.now)
  }

  // ----- the in-memory registry -----

  datatype Memory = Memory(byNonce: map<(string, int), string>, byHash: map<(string, string), ActionRecord>)

  function SetStatus(rows: map<(string, string), ActionRecord>, key: (string, string), s: Status): map<(string, string), ActionRecord> {
    if key in rows then rows[key := rows[key].(status := s)] else rows
  }

  /** register; false is ReplayError. */
  function MemRegister(m: Memory, r: Registration): (Memory, bool) {
    var key, slot := (r.tenantId, r.actionHash), (r.tenantId, r.nonce);
    if !WellFormed(r) then (m, false)
    else if Expired(r) then (m.(byHash := SetStatus(m.byHash, key, EXPIRED)), false)
    else if key in m.byHash then (m, false)
    else if slot in m.byNonce && m.byNonce[slot] != r.actionHash then (m, false)
    else (Memory(m.byNonce[slot := r.actionHash], m.byHash[key := RecordOf(r, REGISTERED)]), true)
  }

  // ----- the durable registry -----

  /** The table, by its primary key. */
  type Table = map<(string, string), ActionRecord>

  predicate NonceTaken(t: Table, tenantId: string, nonce: int) {
    exists k :: k in t && k.0 == tenantId && t[k].nonce == nonce
  }

  function DurRegister(t: Table, r: Registration): (Table, bool) {
    var key := (r.tenantId, r.actionHash);
    var free := key !in t && !NonceTaken(t, r.tenantId, r.nonce);
    if !WellFormed(r) then (t, false)
    else if Expired(r) then (if free then t[key := RecordOf(r, EXPIRED)] else t, false)
    else if !free then (t, false)
    else (t[key := RecordOf(r, REGISTERED)], true)
  }

  // ----- the registries as classes -----

  class ActionRegistry {
    var byNonce: map<(string, int), string>
    var byHash: map<(string, string), ActionRecord>

    function View(): Memory
      reads this
    {
      Memory(byNonce, byHash)
    }

    constructor ()
      ensures View() == Memory(map[], map[])
    {
      byNonce, byHash := map[], map[];
    }

    method Register(r: Registration) returns (ok: bool)
      modifies this
      ensures (View(), ok) == MemRegister(old(View()), r)
    {
      var key, slot := (r.tenantId, r.actionHash), (r.tenantId, r.nonce);
      if r.tenantId == "" || r.nonce < 0 {
        return false;
      }
      if Expired(r) {
        RecordStatus(r.tenantId, r.actionHash, EXPIRED);
        return false;
      }
      if key in byHash {
        return false;
      }
      if slot in byNonce && byNonce[slot] != r.actionHash {
        return false;
      }
      byHash := byHash[key := RecordOf(r, REGISTERED)];
      byNonce := byNonce[slot := r.actionHash];
      return true;
    }

    /** _record_status */
    method RecordStatus(tenantId: string, actionHash: string, s: Status)
      modifies this`byHash
      ensures byHash == SetStatus(old(byHash), (tenantId, actionHash), s)
    {
      if (tenantId, actionHash) in byHash {
        byHash := byHash[(tenantId, actionHash) := byHash[(tenantId, actionHash)].(status := s)];
      }
    }

    /** advance; false is the ReplayError of an unknown hash. */
    method Advance(tenantId: string, actionHash: string, s: Status) returns (ok: bool)
      modifies this`byHash
      ensures ok == ((tenantId, actionHash) in old(byHash))
      ensures byHash == SetStatus(old(byHash), (tenantId, actionHash), s)
    {
      ok := (tenantId, actionHash) in byHash;
      RecordStatus(tenantId, actionHash, s);
    }
  }

  class DurableActionRegistry {
    var rows: Table

    constructor ()
      ensures rows == map[]
    {
      rows := map[];
    }

    method Register(r: Registration) returns (ok: bool)
      modifies this
      ensures (rows, ok) == DurRegister(old(rows), r)
    {
      var key := (r.tenantId, r.actionHash);
      if r.tenantId == "" || r.nonce < 0 {
        return false;
      }
      if Expired(r) {
        if key !in rows && !NonceTaken(rows, r.tenantId, r.nonce) {
          rows := rows[key := RecordOf(r, EXPIRED)];
        }
        return false;
      }
      if key in rows {
        return false;
      }
      if NonceTaken(rows, r.tenantId, r.nonce) {
        return false;
      }
      rows := rows[key := RecordOf(r, REGISTERED)];
      return true;
    }

    method Advance(tenantId: string, actionHash: string, s: Status) returns (ok: bool)
      modifies this
      ensures ok == ((tenantId, actionHash) in old(rows))
      ensures rows == SetStatus(old(rows), (tenantId, actionHash), s)
    {
      ok := (tenantId, actionHash) in rows;
      if ok {
        rows := rows[(tenantId, actionHash) := rows[(tenantId, actionHash)].(status := s)];
      }
    }
  }

  // ----- runs -----

  datatype Call = Register(r: Registration) | Advance(tenantId: string, actionHash: string, s: Status)

  function MemStep(m: Memory, c: Call): (Memory, bool) {
    match c
    case Register(r) => MemRegister(m, r)
    case Advance(t, h, s) => (m.(byHash := SetStatus(m.byHash, (t, h), s)), (t, h) in m.byHash)
  }

  function DurStep(t: Table, c: Call): (Table, bool) {
    match c
    case Register(r) => DurRegister(t, r)
    case Advance(tenantId, h, s) => (SetStatus(t, (tenantId, h), s), (tenantId, h) in t)
  }

  function MemAfter(cs: seq<Call>): Memory {
    if cs == [] then Memory(map[], map[]) else MemStep(MemAfter(cs[..|cs| - 1]), cs[|cs| - 1]).0
  }

  function DurAfter(cs: seq<Call>): Table {
    if cs == [] then map[] else DurStep(DurAfter(cs[..|cs| - 1]), cs[|cs| - 1]).0
  }

  /** The registrations a run of the in-memory registry accepts, in order. */
  function MemAccepted(cs: seq<Call>): seq<Registration> {
    if cs == [] then []
    else
      var before, c := cs[..|cs| - 1], cs[|cs| - 1];
      MemAccepted(before) + if c.Register? && MemRegister(MemAfter(before), c.r).1 then [c.r] else []
  }

  function DurAccepted(cs: seq<Call>): seq<Registration> {
    if cs == [] then []
    else
      var before, c := cs[..|cs| - 1], cs[|cs| - 1];
      DurAccepted(before) + if c.Register? && DurRegister(DurAfter(before), c.r).1 then [c.r] else []
  }

  /** No two registrations of a tenant share a hash or a nonce. */
  ghost predicate PairwiseDistinct(rs: seq<Registration>) {
    forall i, j :: 0 <= i < j < |rs| && rs[i].tenantId == rs[j].tenantId ==>
      rs[i].actionHash != rs[j].actionHash && rs[i].nonce != rs[j].nonce
  }

  ghost predicate Executable(rs: seq<Registration>) {
    forall i :: 0 <= i < |rs| ==> WellFormed(rs[i]) && !Expired(rs[i])
  }

  predicate MemHoldsOne(m: Memory, r: Registration) {
    && (r.tenantId, r.actionHash) in m.byHash
    && (r.tenantId, r.nonce) in m.byNonce && m.byNonce[(r.tenantId, r.nonce)] == r.actionHash
  }

  predicate DurHoldsOne(t: Table, r: Registration) {
    (r.tenantId, r.actionHash) in t && t[(r.tenantId, r.actionHash)].nonce == r.nonce
  }

  /** Every accepted registration holds its hash and its nonce. */
  ghost predicate MemHolds(m: Memory, rs: seq<Registration>) {
    && (forall i :: 0 <= i < |rs| ==> MemHoldsOne(m, rs[i]))
    && (forall slot :: slot in m.byNonce ==> (slot.0, m.byNonce[slot]) in m.byHash)
  }

  ghost predicate DurHolds(t: Table, rs: seq<Registration>) {
    forall i :: 0 <= i < |rs| ==> DurHoldsOne(t, rs[i])
  }

  /** In every run the accepted registrations of a tenant have distinct hashes and nonces. */
  lemma {:induction false} MemNoReplay(cs: seq<Call>)
    ensures PairwiseDistinct(MemAccepted(cs)) && Executable(MemAccepted(cs))
    ensures MemHolds(MemAfter(cs), MemAccepted(cs))
  {
    if cs != [] {
      MemNoReplay(cs[..|cs| - 1]);
    }
  }

  /** The same for the durable registry. */
  lemma {:induction false} DurNoReplay(cs: seq<Call>)
    ensures PairwiseDistinct(DurAccepted(cs)) && Executable(DurAccepted(cs))
    ensures DurHolds(DurAfter(cs), DurAccepted(cs))
  {
    if cs != [] {
      DurNoReplay(cs[..|cs| - 1]);
    }
  }

  // ----- refinement -----

  /** The two registries know the same hashes, under the same nonces. */
  ghost predicate SameIndex(m: Memory, t: Table) {
    && m.byHash.Keys == t.Keys
    && (forall slot :: slot in m.byNonce ==> SlotHeld(m, t, slot))
    && (forall k :: k in t ==> RowIndexed(m, t, k))
  }

  predicate SlotHeld(m: Memory, t: Table, slot: (string, int))
    requires slot in m.byNonce
  {
    (slot.0, m.byNonce[slot]) in t && t[(slot.0, m.byNonce[slot])].nonce == slot.1
  }

  predicate RowIndexed(m: Memory, t: Table, k: (string, string))
    requires k in t
  {
    (k.0, t[k].nonce) in m.byNonce && m.byNonce[(k.0, t[k].nonce)] == k.1
  }

  /** The guard of the branch that differs: a well-formed registration that has expired while
      its hash and its nonce are both free takes a row of the table, and only of the table. */
  predicate Burns(t: Table, c: Call) {
    && c.Register? && WellFormed(c.r) && Expired(c.r)
    && (c.r.tenantId, c.r.actionHash) !in t && !NonceTaken(t, c.r.tenantId, c.r.nonce)
  }

  lemma SlotIsNonce(m: Memory, t: Table, tenantId: string, nonce: int)
    requires SameIndex(m, t)
    ensures (tenantId, nonce) in m.byNonce <==> NonceTaken(t, tenantId, nonce)
  {
    if (tenantId, nonce) in m.byNonce {
      assert SlotHeld(m, t, (tenantId, nonce));
    }
    if NonceTaken(t, tenantId, nonce) {
      var k :| k in t && k.0 == tenantId && t[k].nonce == nonce;
      assert RowIndexed(m, t, k);
    }
  }

  lemma StatusKeepsIndex(m: Memory, t: Table, key: (string, string), s: Status)
    requires SameIndex(m, t)
    ensures SameIndex(m.(byHash := SetStatus(m.byHash, key, s)), t) && SameIndex(m, SetStatus(t, key, s))
    ensures SameIndex(m.(byHash := SetStatus(m.byHash, key, s)), SetStatus(t, key, s))
  {
    var t' := SetStatus(t, key, s);
    assert forall k :: k in t ==> t'[k].nonce == t[k].nonce;
    forall slot | slot in m.byNonce ensures SlotHeld(m, t', slot) { assert SlotHeld(m, t, slot); }
    forall k | k in t' ensures RowIndexed(m, t', k) { assert RowIndexed(m, t, k); }
  }

  lemma RegisterKeepsIndex(m: Memory, t: Table, r: Registration)
    requires SameIndex(m, t) && (r.tenantId, r.actionHash) !in t && (r.tenantId, r.nonce) !in m.byNonce
    ensures var key := (r.tenantId, r.actionHash);
      SameIndex(Memory(m.byNonce[(r.tenantId, r.nonce) := r.actionHash], m.byHash[key := RecordOf(r, REGISTERED)]),
                t[key := RecordOf(r, REGISTERED)])
  {
    var key, slot := (r.tenantId, r.actionHash), (r.tenantId, r.nonce);
    var m' := Memory(m.byNonce[slot := r.actionHash], m.byHash[key := RecordOf(r, REGISTERED)]);
    var t' := t[key := RecordOf(r, REGISTERED)];
    forall x | x in m'.byNonce ensures SlotHeld(m', t', x) {
      if x != slot { assert SlotHeld(m, t, x); }
    }
    forall k | k in t' ensures RowIndexed(m', t', k) {
      if k != key { assert RowIndexed(m, t, k); }
    }
  }

  /** In the same position the two registries give every call the same verdict, and they stay
      in the same position exactly when the call does not burn a row. */
  lemma StepParts(m: Memory, t: Table, c: Call)
    requires SameIndex(m, t)
    ensures MemStep(m, c).1 == DurStep(t, c).1
    ensures SameIndex(MemStep(m, c).0, DurStep(t, c).0) <==> !Burns(t, c)
  {
    match c
    case Advance(tenantId, h, s) => StatusKeepsIndex(m, t, (tenantId, h), s);
    case Register(r) =>
      var key := (r.tenantId, r.actionHash);
      SlotIsNonce(m, t, r.tenantId, r.nonce);
      StatusKeepsIndex(m, t, key, EXPIRED);
      if (r.tenantId, r.nonce) in m.byNonce { assert SlotHeld(m, t, (r.tenantId, r.nonce)); }
      if key !in t && (r.tenantId, r.nonce) !in m.byNonce { RegisterKeepsIndex(m, t, r); }
      if Burns(t, c) { BurnParts(m, t, r); }
  }

  lemma BurnParts(m: Memory, t: Table, r: Registration)
    requires SameIndex(m, t) && Burns(t, Register(r))
    ensures !SameIndex(MemRegister(m, r).0, DurRegister(t, r).0)
  {
    assert (r.tenantId, r.actionHash) in DurRegister(t, r).0.Keys;
  }

  /** A burnt row shows: the same registration without its expiry is then accepted in memory
      and refused durably. */
  lemma BurnIsSeen(m: Memory, t: Table, c: Call)
    requires SameIndex(m, t) && Burns(t, c)
    ensures var again := Register(c.r.(expiry := 0));
      MemStep(MemStep(m, c).0, again).1 && !DurStep(DurStep(t, c).0, again).1
  {
    SlotIsNonce(m, t, c.r.tenantId, c.r.nonce);
  }

  /** The registries are in the same position after every call of the run. */
  ghost predicate InStep(cs: seq<Call>) {
    SameIndex(MemAfter(cs), DurAfter(cs)) && (cs != [] ==> InStep(cs[..|cs| - 1]))
  }

  ghost predicate NeverBurns(cs: seq<Call>) {
    cs != [] ==> NeverBurns(cs[..|cs| - 1]) && !Burns(DurAfter(cs[..|cs| - 1]), cs[|cs| - 1])
  }

  /** Over a whole run the registries stay in step exactly when no call burns a row, and then
      they accept the same registrations. */
  lemma {:induction false} AgreeExactly(cs: seq<Call>)
    ensures InStep(cs) <==> NeverBurns(cs)
    ensures NeverBurns(cs) ==> MemAccepted(cs) == DurAccepted(cs)
  {
    hide SameIndex, Burns, MemStep, DurStep, MemRegister, DurRegister;
    if cs == [] {
      assert SameIndex(Memory(map[], map[]), map[]) by { EmptyIndex(); }
    } else {
      var before, c := cs[..|cs| - 1], cs[|cs| - 1];
      AgreeExactly(before);
      if InStep(before) {
        StepParts(MemAfter(before), DurAfter(before), c);
        VerdictOfRegister(MemAfter(before), DurAfter(before), c);
      }
    }
  }

  lemma VerdictOfRegister(m: Memory, t: Table, c: Call)
    ensures c.Register? ==> MemStep(m, c).1 == MemRegister(m, c.r).1 && DurStep(t, c).1 == DurRegister(t, c.r).1
  {}

  lemma EmptyIndex()
    ensures SameIndex(Memory(map[], map[]), map[])
  {}

  /** Every row stands under its own tenant and hash. */
  ghost predicate Keyed(t: Table) {
    forall k :: k in t ==> t[k].tenantId == k.0 && t[k].actionHash == k.1
  }

  /** Beyond the index, the two registries hold the very same records. */
  ghost predicate SameContents(m: Memory, t: Table) {
    SameIndex(m, t) && m.byHash == t && Keyed(t)
  }

  ghost predicate NothingExpired(cs: seq<Call>) {
    forall i :: 0 <= i < |cs| && cs[i].Register? ==> !Expired(cs[i].r)
  }

  lemma StepKeyed(t: Table, c: Call)
    requires Keyed(t)
    ensures Keyed(DurStep(t, c).0)
  {}

  lemma StepSameRows(m: Memory, t: Table, c: Call)
    requires m.byHash == t && (c.Register? ==> !Expired(c.r)) && MemStep(m, c).1 == DurStep(t, c).1
    ensures MemStep(m, c).0.byHash == DurStep(t, c).0
  {}

  lemma StepAgrees(m: Memory, t: Table, c: Call)
    requires SameContents(m, t) && (c.Register? ==> !Expired(c.r))
    ensures MemStep(m, c).1 == DurStep(t, c).1
    ensures SameContents(MemStep(m, c).0, DurStep(t, c).0)
  {
    hide SameIndex, MemStep, DurStep, Keyed;
    StepParts(m, t, c);
    StepSameRows(m, t, c);
    StepKeyed(t, c);
  }

  /** When nothing has expired the registries agree call by call, records included. */
  lemma {:induction false} AgreeWhenNothingExpires(cs: seq<Call>)
    requires NothingExpired(cs)
    ensures SameContents(MemAfter(cs), DurAfter(cs)) && MemAccepted(cs) == DurAccepted(cs)
    ensures cs != [] ==> MemStep(MemAfter(cs[..|cs| - 1]), cs[|cs| - 1]).1 == DurStep(DurAfter(cs[..|cs| - 1]), cs[|cs| - 1]).1
  {
    hide SameContents, MemStep, DurStep, MemRegister, DurRegister;
    if cs == [] {
      assert SameContents(Memory(map[], map[]), map[]) by { EmptyContents(); }
    } else {
      var before, c := cs[..|cs| - 1], cs[|cs| - 1];
      AgreeWhenNothingExpires(before);
      StepAgrees(MemAfter(before), DurAfter(before), c);
      VerdictOfRegister(MemAfter(before), DurAfter(before), c);
    }
  }

  lemma EmptyContents()
    ensures SameContents(Memory(map[], map[]), map[])
  {}

  function AsCalls(rs: seq<Registration>): seq<Call> {
    if rs == [] then [] else AsCalls(rs[..|rs| - 1]) + [Register(rs[|rs| - 1])]
  }

  /** The registry knows no hash and no nonce that is not in rs. */
  ghost predicate OnlyFrom(m: Memory, rs: seq<Registration>) {
    && (forall k :: k in m.byHash ==> exists i :: 0 <= i < |rs| && k == (rs[i].tenantId, rs[i].actionHash))
    && (forall k :: k in m.byNonce ==> exists i :: 0 <= i < |rs| && k == (rs[i].tenantId, rs[i].nonce))
  }

  lemma AcceptsNext(m: Memory, rs: seq<Registration>, r: Registration)
    requires OnlyFrom(m, rs) && PairwiseDistinct(rs + [r]) && WellFormed(r) && !Expired(r)
    ensures MemRegister(m, r).1 && OnlyFrom(MemRegister(m, r).0, rs + [r])
  {
    var grown, n := rs + [r], |rs|;
    assert grown[n] == r;
    assert forall i :: 0 <= i < n ==> grown[i] == rs[i];
  }

  /** A list with distinct hashes and nonces is accepted entirely by an empty in-memory registry. */
  lemma {:induction false} DistinctAllAccepted(rs: seq<Registration>)
    requires PairwiseDistinct(rs) && Executable(rs)
    ensures MemAccepted(AsCalls(rs)) == rs && OnlyFrom(MemAfter(AsCalls(rs)), rs)
  {
    hide MemRegister, OnlyFrom;
    if rs == [] {
      assert OnlyFrom(Memory(map[], map[]), []) by { KnowsNothing(); }
    } else {
      var n := |rs| - 1;
      assert rs == rs[..n] + [rs[n]];
      DistinctAllAccepted(rs[..n]);
      AcceptsNext(MemAfter(AsCalls(rs[..n])), rs[..n], rs[n]);
      AsCallsLength(rs[..n]);
      assert AsCalls(rs)[..n] == AsCalls(rs[..n]);
    }
  }

  lemma KnowsNothing()
    ensures OnlyFrom(Memory(map[], map[]), [])
  {}

  lemma {:induction false} AsCallsLength(rs: seq<Registration>)
    ensures |AsCalls(rs)| == |rs|
  {
    if rs != [] { AsCallsLength(rs[..|rs| - 1]); }
  }

  /** Whatever the durable registry accepts in a run, with expiries and all, the in-memory one
      accepts when replayed from empty. */
  lemma DurableRefinesMemory(cs: seq<Call>)
    ensures MemAccepted(AsCalls(DurAccepted(cs))) == DurAccepted(cs)
  {
    DurNoReplay(cs);
    DistinctAllAccepted(DurAccepted(cs));
  }

  /** Not the other way round: an expired action burns its nonce in the durable registry only,
      so a later action reusing the nonce is accepted in memory and refused durably. */
  lemma ExpiryBurnsOnlyDurably(t: string, h1: string, h2: string, nonce: nat)
    requires t != "" && h1 != h2
    ensures var cs := [Register(Registration(t, "a", h1, nonce, 2, 1)), Register(Registration(t, "b", h2, nonce, 2, 0))];
      MemAccepted(cs) == [cs[1].r] && DurAccepted(cs) == []
  {
    var c1, c2 := Register(Registration(t, "a", h1, nonce, 2, 1)), Register(Registration(t, "b", h2, nonce, 2, 0));
    var cs := [c1, c2];
    assert cs[..1] == [c1] && [c1][..0] == [];
    assert MemAfter([c1]) == MemStep(MemAfter([]), c1).0;
    assert DurAfter([c1]) == DurStep(DurAfter([]), c1).0;
    assert !DurRegister(DurAfter([]), c1.r).1;
    assert DurAccepted([c1]) == DurAccepted([]) + [];
    assert MemAccepted([c1]) == [] && DurAccepted([c1]) == [];
    assert NonceTaken(DurAfter([c1]), t, nonce) by { assert (t, h1) in DurAfter([c1]); }
  }

  /** Nor does the durable registry accept less: the action that the burnt nonce keeps out leaves
      its own hash free, and a later action with that hash is accepted durably and refused in memory. */
  lemma BurntNonceFreesTheHash(t: string, h1: string, h2: string, nonce: nat)
    requires t != "" && h1 != h2
    ensures var cs := [Register(Registration(t, "a", h1, nonce, 2, 1)), Register(Registration(t, "b", h2, nonce, 2, 0)),
                       Register(Registration(t, "c", h2, nonce + 1, 2, 0))];
      MemAccepted(cs) == [cs[1].r] && DurAccepted(cs) == [cs[2].r]
  {
    var c1, c2 := Register(Registration(t, "a", h1, nonce, 2, 1)), Register(Registration(t, "b", h2, nonce, 2, 0));
    var c3 := Register(Registration(t, "c", h2, nonce + 1, 2, 0));
    var cs := [c1, c2, c3];
    assert cs[..2] == [c1, c2] && [c1, c2][..1] == [c1] && [c1][..0] == [];
    ExpiryBurnsOnlyDurably(t, h1, h2, nonce);
    var m, d := MemAfter([c1, c2]), DurAfter([c1, c2]);
    TwoCalls(c1, c2);
    assert (t, h2) in m.byHash;
    assert d == map[(t, h1) := RecordOf(c1.r, EXPIRED)];
    assert !NonceTaken(d, t, nonce + 1);
  }

  lemma TwoCalls(c1: Call, c2: Call)
    ensures MemAfter([c1, c2]) == MemStep(MemStep(Memory(map[], map[]), c1).0, c2).0
    ensures DurAfter([c1, c2]) == DurStep(DurStep(map[], c1).0, c2).0
  {
    assert [c1, c2][..1] == [c1] && [c1][..0] == [];
    assert MemAfter([]) == Memory(map[], map[]) && DurAfter([]) == map[];
    assert MemAfter([c1]) == MemStep(MemAfter([]), c1).0 && DurAfter([c1]) == DurStep(DurAfter([]), c1).0;
  }

  // ----- one registration -----

  /** In memory a registration is accepted exactly when it names a tenant, has a nonce that is not
      negative, is not past its expiry, if both times are given, and its hash is new and its nonce
      new or used for that hash; it is then on record as registered, under its hash and nonce. */
  lemma MemRegisterExactly(m: Memory, r: Registration)
    ensures MemRegister(m, r).1
       <==> (r.tenantId != "" && 0 <= r.nonce && (r.expiry == 0 || r.now == 0 || r.now <= r.expiry)
             && (r.tenantId, r.actionHash) !in m.byHash
             && ((r.tenantId, r.nonce) in m.byNonce ==> m.byNonce[(r.tenantId, r.nonce)] == r.actionHash))
    ensures MemRegister(m, r).1 ==>
      && MemRegister(m, r).0.byHash
         == m.byHash[(r.tenantId, r.actionHash) := ActionRecord(r.actionId, r.tenantId, r.actionHash, r.nonce, REGISTERED, r.now)]
      && MemRegister(m, r).0.byNonce == m.byNonce[(r.tenantId, r.nonce) := r.actionHash]
    ensures !MemRegister(m, r).1 ==>
      && MemRegister(m, r).0.byNonce == m.byNonce && MemRegister(m, r).0.byHash.Keys == m.byHash.Keys
      && forall k :: k in m.byHash && k != (r.tenantId, r.actionHash) ==> MemRegister(m, r).0.byHash[k] == m.byHash[k]
  {}

  /** The same for the durable registry, whose nonces are all different: its table takes the row,
      as expired if the registration is refused for its expiry alone. */
  lemma DurRegisterExactly(t: Table, r: Registration)
    ensures var free := (r.tenantId, r.actionHash) !in t && forall k :: k in t && k.0 == r.tenantId ==> t[k].nonce != r.nonce;
      var fits := r.tenantId != "" && 0 <= r.nonce && free;
      var late := r.expiry != 0 && r.now != 0 && r.expiry < r.now;
      && (DurRegister(t, r).1 <==> fits && !late)
      && DurRegister(t, r).0
         == if !fits then t
            else t[(r.tenantId, r.actionHash)
                   := ActionRecord(r.actionId, r.tenantId, r.actionHash, r.nonce, if late then EXPIRED else REGISTERED, r.now)]
  {}
}
