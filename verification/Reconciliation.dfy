/** EvidenceRecord.verify and reconcile_with of src/query/executor.py: what agreement between
    two evidence records of one query means. */
module Reconciliation {
  import opened Basics
  import opened Sorting
  import opened Algebra
  import opened Graph
  import opened Semantics
  import opened Evidence

  type IdHash = (seq<string>, seq<string>) -> string

  /** included_ids, excluded_ids */
  function IdSet(entries: seq<Entry>): set<string> {
    set id | id in IdsOf(entries)
  }

  /** The hash tells the sorted ids of these two records apart. */
  predicate IdsToldApart(hash: IdHash, a: EvidenceRecord, b: EvidenceRecord) {
    DeterministicHash(hash, a) == DeterministicHash(hash, b) ==>
      SortStrings(IdsOf(a.included)) == SortStrings(IdsOf(b.included)) && SortStrings(IdsOf(a.excluded)) == SortStrings(IdsOf(b.excluded))
  }

  /** verify: no divergence from the expectations that are given. */
  predicate VerifyOk(hash: IdHash, r: EvidenceRecord, expectHash: Option<string>, expectIncluded: Option<set<string>>,
                     expectExcluded: Option<set<string>>) {
    && (expectHash.Some? ==> expectHash.value == DeterministicHash(hash, r))
    && (expectIncluded.Some? ==>
      expectIncluded.value - IdSet(r.included) == {} && IdSet(r.included) - expectIncluded.value == {})
    && (expectExcluded.Some? ==>
      expectExcluded.value - IdSet(r.excluded) == {} && IdSet(r.excluded) - expectExcluded.value == {})
  }

  /** reconcile_with(...).consistent: it compares the included ids only. */
  predicate Consistent(a: EvidenceRecord, b: EvidenceRecord) {
    IdSet(a.included) - IdSet(b.included) == {} && IdSet(b.included) - IdSet(a.included) == {}
  }

  /** verify accepts exactly when the hash expected is the record's own and the ids expected are
      those of its entries, as far as any are expected. */
  lemma VerifyExactly(hash: IdHash, r: EvidenceRecord, expectHash: Option<string>, expectIncluded: Option<set<string>>,
                      expectExcluded: Option<set<string>>)
    ensures VerifyOk(hash, r, expectHash, expectIncluded, expectExcluded)
       <==> ((expectHash.None? || expectHash.value == DeterministicHash(hash, r))
             && (expectIncluded.None? || forall id :: id in expectIncluded.value <==> HasEntry(r.included, id))
             && (expectExcluded.None? || forall id :: id in expectExcluded.value <==> HasEntry(r.excluded, id)))
  {
    IdSetExactly(r.included);
    IdSetExactly(r.excluded);
    hide DeterministicHash, IdSet, HasEntry;
    if expectIncluded.Some? { SameIds(expectIncluded.value, IdSet(r.included)); }
    if expectExcluded.Some? { SameIds(expectExcluded.value, IdSet(r.excluded)); }
  }

  predicate HasEntry(entries: seq<Entry>, id: string) {
    exists i :: 0 <= i < |entries| && entries[i].id == id
  }

  lemma SameIds(expected: set<string>, ids: set<string>)
    ensures (expected - ids == {} && ids - expected == {}) <==> forall id :: id in expected <==> id in ids
  {}

  lemma {:induction false} IdSetExactly(entries: seq<Entry>)
    ensures forall id :: id in IdSet(entries) <==> HasEntry(entries, id)
  {
    if entries != [] {
      var n := |entries| - 1;
      IdSetExactly(entries[..n]);
      assert entries == entries[..n] + [entries[n]];
      forall id ensures HasEntry(entries, id) <==> HasEntry(entries[..n], id) || id == entries[n].id {
        if HasEntry(entries[..n], id) { var i :| 0 <= i < n && entries[..n][i].id == id; assert entries[i].id == id; }
        if i :| 0 <= i < |entries| && entries[i].id == id { if i < n { assert entries[..n][i].id == id; } }
        if id == entries[n].id { assert HasEntry(entries, id); }
      }
      assert forall id :: id in IdSet(entries) <==> id in IdSet(entries[..n]) || id == entries[n].id;
    }
  }

  /** Two runs are consistent exactly when they include the same ids. */
  lemma ConsistentExactly(a: EvidenceRecord, b: EvidenceRecord)
    ensures Consistent(a, b) <==> forall id :: HasEntry(a.included, id) <==> HasEntry(b.included, id)
  {
    IdSetExactly(a.included);
    IdSetExactly(b.included);
    SameIds(IdSet(a.included), IdSet(b.included));
    hide IdSet, HasEntry;
  }

  lemma SameContentsOnce(a: seq<string>, b: seq<string>)
    requires NoDuplicates(a) && NoDuplicates(b) && forall id :: id in a <==> id in b
    ensures multiset(a) == multiset(b)
  {
    forall id ensures multiset(a)[id] == multiset(b)[id] {
      CountOfDistinct(a, id);
      CountOfDistinct(b, id);
    }
  }

  lemma OnceSnoc(s: seq<string>, x: string)
    requires NoDuplicates(s) && x !in s
    ensures NoDuplicates(s + [x])
  {}

  lemma OncePrefix(s: seq<string>)
    requires s != [] && NoDuplicates(s)
    ensures NoDuplicates(s[..|s| - 1]) && s[|s| - 1] !in s[..|s| - 1]
  {}

  lemma {:induction false} IdsOnce(g: Snapshot, op: Op, ids: seq<string>, wanted: bool)
    requires Coherent(g) && Arity(op) && NoDuplicates(ids) && forall x :: x in ids ==> x in g.ents
    ensures NoDuplicates(IdsOf(EntriesFor(g, op, ids, wanted)))
    ensures forall id :: id in IdsOf(EntriesFor(g, op, ids, wanted)) ==> id in ids
  {
    hide Semantics.Eval, Arity, NoDuplicates, IdsOf;
    if ids == [] {
      NoIds();
      assert NoDuplicates([]) by { NothingTwice(); }
    } else {
      var n := |ids| - 1;
      OncePrefix(ids);
      IdsOnce(g, op, ids[..n], wanted);
      var before := EntriesFor(g, op, ids[..n], wanted);
      var entry := EntryOf(g.ents[ids[n]], Semantics.Eval(g, op, g.ents[ids[n]]));
      EntryIdsSnoc(before, entry);
      assert before + [] == before;
      assert entry.id == ids[n];
      if Semantics.Eval(g, op, g.ents[ids[n]]).matched == wanted {
        OnceSnoc(IdsOf(before), ids[n]);
      }
    }
  }

  lemma NothingTwice()
    ensures NoDuplicates([])
  {}

  lemma SortedIdsPin(a: seq<string>, b: seq<string>)
    requires SortStrings(a) == SortStrings(b)
    ensures forall id :: id in a <==> id in b
  {
    SortPermutes(StringLeq, a);
    SortPermutes(StringLeq, b);
    forall id ensures id in a <==> id in b {
      CountIsMembership(a, id);
      CountIsMembership(b, id);
    }
  }

  lemma SameSetsSameHash(hash: IdHash, g: Snapshot, h: Snapshot, op: Op)
    requires Coherent(g) && Coherent(h) && Arity(op)
    requires forall id :: id in IdsOf(RecordOf(g, op).included) <==> id in IdsOf(RecordOf(h, op).included)
    requires forall id :: id in IdsOf(RecordOf(g, op).excluded) <==> id in IdsOf(RecordOf(h, op).excluded)
    ensures DeterministicHash(hash, RecordOf(g, op)) == DeterministicHash(hash, RecordOf(h, op))
  {
    IdsOnce(g, op, g.order, true);
    IdsOnce(g, op, g.order, false);
    IdsOnce(h, op, h.order, true);
    IdsOnce(h, op, h.order, false);
    hide Semantics.Eval, Arity, IdsOf, EntriesFor, NoDuplicates, Coherent;
    var a, b := RecordOf(g, op), RecordOf(h, op);
    SameContentsOnce(IdsOf(a.included), IdsOf(b.included));
    SameContentsOnce(IdsOf(a.excluded), IdsOf(b.excluded));
    StringOrder();
    SortForgetsOrder(StringLeq, IdsOf(a.included), IdsOf(b.included));
    SortForgetsOrder(StringLeq, IdsOf(a.excluded), IdsOf(b.excluded));
  }

  lemma PartitionSets(g: Snapshot, op: Op)
    requires Coherent(g) && Arity(op)
    ensures IdSet(RecordOf(g, op).included) + IdSet(RecordOf(g, op).excluded) == g.ents.Keys
    ensures IdSet(RecordOf(g, op).included) !! IdSet(RecordOf(g, op).excluded)
  {
    Partition(g, op);
    PartitionKeys(g, op);
  }

  lemma PartitionKeys(g: Snapshot, op: Op)
    requires Coherent(g) && Arity(op)
    requires forall id :: id in IdsOf(RecordOf(g, op).included) <==> Matches(g, op, id)
    requires forall id :: id in IdsOf(RecordOf(g, op).excluded) <==> id in g.ents && !Matches(g, op, id)
    ensures IdSet(RecordOf(g, op).included) + IdSet(RecordOf(g, op).excluded) == g.ents.Keys
    ensures IdSet(RecordOf(g, op).included) !! IdSet(RecordOf(g, op).excluded)
  {
    assert forall id :: Matches(g, op, id) ==> id in g.ents;
    hide Semantics.Eval, Arity, IdsOf, RecordOf, Coherent, Matches;
    var inc, exc := IdSet(RecordOf(g, op).included), IdSet(RecordOf(g, op).excluded);
    forall id ensures id in inc + exc <==> id in g.ents.Keys {}
  }

  /** The content hash pins both id sets, and nothing else. */
  lemma HashPinsSets(hash: IdHash, g: Snapshot, h: Snapshot, op: Op)
    requires Coherent(g) && Coherent(h) && Arity(op) && IdsToldApart(hash, RecordOf(g, op), RecordOf(h, op))
    ensures var a, b := RecordOf(g, op), RecordOf(h, op);
      DeterministicHash(hash, a) == DeterministicHash(hash, b)
      <==> IdSet(a.included) == IdSet(b.included) && IdSet(a.excluded) == IdSet(b.excluded)
  {
    var a, b := RecordOf(g, op), RecordOf(h, op);
    if DeterministicHash(hash, a) == DeterministicHash(hash, b) {
      SortedIdsPin(IdsOf(a.included), IdsOf(b.included));
      SortedIdsPin(IdsOf(a.excluded), IdsOf(b.excluded));
    }
    if IdSet(a.included) == IdSet(b.included) && IdSet(a.excluded) == IdSet(b.excluded) {
      SetPins(a.included, b.included);
      SetPins(a.excluded, b.excluded);
      SameSetsSameHash(hash, g, h, op);
    }
    hide Semantics.Eval, Arity, IdsOf, RecordOf, Coherent, SortStrings;
  }

  lemma SetPins(a: seq<Entry>, b: seq<Entry>)
    requires IdSet(a) == IdSet(b)
    ensures forall id :: id in IdsOf(a) <==> id in IdsOf(b)
  {
    forall id ensures id in IdsOf(a) <==> id in IdsOf(b) {
      assert id in IdSet(a) <==> id in IdSet(b);
    }
  }

  lemma NoDifference(s: set<string>, t: set<string>)
    ensures s - t == {} && t - s == {} <==> s == t
  {
    assert s == (s - t) + s * t && t == (t - s) + s * t;
  }

  /** Two runs of a query have the same content hash exactly when they reconcile as consistent
      and their graphs hold the same entities: reconciliation alone does not notice an entity
      that only one graph holds and its run excludes. */
  lemma HashIsConsistencyAndDomain(hash: IdHash, g: Snapshot, h: Snapshot, op: Op)
    requires Coherent(g) && Coherent(h) && Arity(op) && IdsToldApart(hash, RecordOf(g, op), RecordOf(h, op))
    ensures DeterministicHash(hash, RecordOf(g, op)) == DeterministicHash(hash, RecordOf(h, op))
        <==> Consistent(RecordOf(g, op), RecordOf(h, op)) && g.ents.Keys == h.ents.Keys
  {
    HashPinsSets(hash, g, h, op);
    PartitionSets(g, op);
    PartitionSets(h, op);
    hide Arity, IdSet, RecordOf, Coherent, DeterministicHash, IdsToldApart;
    var a, b := RecordOf(g, op), RecordOf(h, op);
    NoDifference(IdSet(a.included), IdSet(b.included));
    assert IdSet(a.excluded) == g.ents.Keys - IdSet(a.included);
    assert IdSet(b.excluded) == h.ents.Keys - IdSet(b.included);
  }

  lemma NothingIncluded(g: Snapshot, op: Op)
    requires Coherent(g) && Arity(op) && forall id :: !Matches(g, op, id)
    ensures IdSet(RecordOf(g, op).included) == {}
  {
    Partition(g, op);
    hide Semantics.Eval, Arity, IdsOf, RecordOf, Coherent, Matches;
  }

  lemma NotOfType(g: Snapshot, op: Op)
    requires op.kind == TYPE && forall id :: id in g.ents ==> op.arg != Some(g.ents[id].etype)
    ensures forall id :: !Matches(g, op, id)
  {}

  /** One such entity: a graph and the empty graph reconcile as consistent for a query that its
      only entity fails, and their hashes differ. */
  lemma ExcludedEntityUnnoticed(hash: IdHash, e: Entity, op: Op)
    requires op.kind == TYPE && op.arg != Some(e.etype)
    ensures Coherent(EMPTY) && Coherent(Added(EMPTY, e))
    ensures Consistent(RecordOf(EMPTY, op), RecordOf(Added(EMPTY, e), op))
    ensures IdsToldApart(hash, RecordOf(EMPTY, op), RecordOf(Added(EMPTY, e), op)) ==>
      DeterministicHash(hash, RecordOf(EMPTY, op)) != DeterministicHash(hash, RecordOf(Added(EMPTY, e), op))
  {
    hide Semantics.Eval, RecordOf, IdsOf, Matches, DeterministicHash, IdsToldApart, IdSet;
    var g := Added(EMPTY, e);
    AddedCoherent(EMPTY, e);
    assert e.id in g.ents.Keys && e.id !in EMPTY.ents.Keys;
    NotOfType(EMPTY, op);
    NotOfType(g, op);
    hide Coherent, Added;
    NothingIncluded(EMPTY, op);
    NothingIncluded(g, op);
    if IdsToldApart(hash, RecordOf(EMPTY, op), RecordOf(g, op)) {
      HashIsConsistencyAndDomain(hash, EMPTY, g, op);
    }
  }

  /** A record verifies against every expectation drawn from an earlier run exactly when its
      content hash is the earlier one. */
  lemma VerifyAgainstPrior(hash: IdHash, g: Snapshot, h: Snapshot, op: Op)
    requires Coherent(g) && Coherent(h) && Arity(op) && IdsToldApart(hash, RecordOf(g, op), RecordOf(h, op))
    ensures var prior, now := RecordOf(g, op), RecordOf(h, op);
      && (VerifyOk(hash, now, None, Some(IdSet(prior.included)), Some(IdSet(prior.excluded)))
          <==> DeterministicHash(hash, prior) == DeterministicHash(hash, now))
      && (VerifyOk(hash, now, Some(DeterministicHash(hash, prior)), Some(IdSet(prior.included)), Some(IdSet(prior.excluded)))
          <==> DeterministicHash(hash, prior) == DeterministicHash(hash, now))
  {
    HashPinsSets(hash, g, h, op);
    hide Arity, IdSet, RecordOf, Coherent, DeterministicHash, IdsToldApart;
    var prior, now := RecordOf(g, op), RecordOf(h, op);
    NoDifference(IdSet(prior.included), IdSet(now.included));
    NoDifference(IdSet(prior.excluded), IdSet(now.excluded));
  }
}
