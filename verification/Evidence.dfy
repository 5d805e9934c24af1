/** Evidence records: the partition a query makes of a graph's entities, the content hash,
    and their independence from the order in which the graph was built. */
module Evidence {
  import opened Sorting
  import opened Algebra
  import opened Graph
  import opened Semantics

  datatype Entry = Entry(id: string, reasons: seq<Reason>, predicates: seq<string>, source: string)

  datatype EvidenceRecord = EvidenceRecord(included: seq<Entry>, excluded: seq<Entry>, plan: seq<PlanStep>)

  function Distinct(s: seq<string>): seq<string> {
    if s == [] then [] else if s[0] in s[1..] then Distinct(s[1..]) else [s[0]] + Distinct(s[1..])
  }

  /** predicates is sorted(set(...)) */
  function EntryOf(e: Entity, r: Result): Entry {
    Entry(e.id, if r.matched && r.reasons == [] then [RootSatisfied] else r.reasons,
          SortStrings(Distinct(r.predicates)), e.source)
  }

  /** The entries of the ids whose verdict is wanted, in order. */
  ghost function EntriesFor(g: Snapshot, op: Op, ids: seq<string>, wanted: bool): seq<Entry>
    requires Arity(op) && forall id :: id in ids ==> id in g.ents
  {
    if ids == [] then []
    else
      var e := g.ents[ids[|ids| - 1]];
      var r := Eval(g, op, e);
      EntriesFor(g, op, ids[..|ids| - 1], wanted) + (if r.matched == wanted then [EntryOf(e, r)] else [])
  }

  function Repeated(plan: seq<PlanStep>, n: nat): seq<PlanStep> {
    if n == 0 then [] else Repeated(plan, n - 1) + plan
  }

  ghost function RecordOf(g: Snapshot, op: Op): EvidenceRecord
    requires Coherent(g) && Arity(op)
  {
    EvidenceRecord(EntriesFor(g, op, g.order, true), EntriesFor(g, op, g.order, false),
                   Repeated(Plan(op, 0), |g.order|))
  }

  function IdsOf(entries: seq<Entry>): seq<string> {
    if entries == [] then [] else IdsOf(entries[..|entries| - 1]) + [entries[|entries| - 1].id]
  }

  /** deterministic_hash: the hash of the sorted included and excluded ids. */
  function DeterministicHash(hash: (seq<string>, seq<string>) -> string, r: EvidenceRecord): string {
    hash(SortStrings(IdsOf(r.included)), SortStrings(IdsOf(r.excluded)))
  }

  ghost predicate Matches(g: Snapshot, op: Op, id: string)
    requires Arity(op)
  {
    id in g.ents && Eval(g, op, g.ents[id]).matched
  }

  ghost predicate NoDuplicates(s: seq<string>) {
    forall i, j :: 0 <= i < j < |s| ==> s[i] != s[j]
  }

  // ----- partition -----

  lemma EntryIdsSnoc(entries: seq<Entry>, e: Entry)
    ensures IdsOf(entries + [e]) == IdsOf(entries) + [e.id]
  {
    assert (entries + [e])[..|entries|] == entries;
  }

  lemma {:induction false} EntriesCount(g: Snapshot, op: Op, ids: seq<string>, wanted: bool, id: string)
    requires Coherent(g) && Arity(op) && forall x :: x in ids ==> x in g.ents
    ensures multiset(IdsOf(EntriesFor(g, op, ids, wanted)))[id]
         == if Matches(g, op, id) == wanted then multiset(ids)[id] else 0
  {
    hide Semantics.Eval, Arity, IdsOf, EntriesFor, Matches, Coherent;
    if ids == [] {
      NoIds();
      NoEntriesYet(g, op, wanted);
    } else {
      var n := |ids| - 1;
      EntriesCount(g, op, ids[..n], wanted, id);
      assert ids == ids[..n] + [ids[n]];
      var e := g.ents[ids[n]];
      var before, entry := EntriesFor(g, op, ids[..n], wanted), EntryOf(e, Semantics.Eval(g, op, e));
      EntryIdsSnoc(before, entry);
      LastEntry(g, op, ids, wanted);
      CountSnoc(ids[..n], ids[n], id);
      CountSnoc(IdsOf(before), ids[n], id);
      assert before + [] == before;
    }
  }

  lemma NoEntriesYet(g: Snapshot, op: Op, wanted: bool)
    requires Arity(op)
    ensures EntriesFor(g, op, [], wanted) == []
  {}

  lemma LastEntry(g: Snapshot, op: Op, ids: seq<string>, wanted: bool)
    requires Coherent(g) && Arity(op) && ids != [] && forall x :: x in ids ==> x in g.ents
    ensures var n := |ids| - 1; var entry := EntryOf(g.ents[ids[n]], Semantics.Eval(g, op, g.ents[ids[n]]));
      && EntriesFor(g, op, ids, wanted)
         == EntriesFor(g, op, ids[..n], wanted) + (if Matches(g, op, ids[n]) == wanted then [entry] else [])
      && entry.id == ids[n]
  {
    hide Semantics.Eval, Arity;
  }

  lemma CountSnoc(s: seq<string>, x: string, id: string)
    ensures multiset(s + [x])[id] == multiset(s)[id] + if x == id then 1 else 0
  {}

  lemma NoIds()
    ensures IdsOf([]) == []
  {}

  lemma CountIsMembership(s: seq<string>, id: string)
    ensures id in s <==> multiset(s)[id] > 0
  {}

  lemma IdIsSorted(g: Snapshot, op: Op, id: string)
    requires Coherent(g) && Arity(op)
    ensures var included, excluded := IdsOf(EntriesFor(g, op, g.order, true)), IdsOf(EntriesFor(g, op, g.order, false));
      && multiset(included)[id] + multiset(excluded)[id] == multiset(g.order)[id]
      && (id in included <==> Matches(g, op, id))
      && (id in excluded <==> id in g.ents && !Matches(g, op, id))
  {
    hide Semantics.Eval, Arity, IdsOf, EntriesFor;
    var included, excluded := IdsOf(EntriesFor(g, op, g.order, true)), IdsOf(EntriesFor(g, op, g.order, false));
    EntriesCount(g, op, g.order, true, id);
    EntriesCount(g, op, g.order, false, id);
    CountIsMembership(included, id);
    CountIsMembership(excluded, id);
    CountIsMembership(g.order, id);
  }

  /** Every entity is included or excluded, exactly once, by whether the query matches it. */
  lemma Partition(g: Snapshot, op: Op)
    requires Coherent(g) && Arity(op)
    ensures var r := RecordOf(g, op);
      && multiset(IdsOf(r.included)) + multiset(IdsOf(r.excluded)) == multiset(g.order)
      && (forall id :: id in IdsOf(r.included) <==> Matches(g, op, id))
      && (forall id :: id in IdsOf(r.excluded) <==> id in g.ents && !Matches(g, op, id))
  {
    hide Semantics.Eval, Arity, IdsOf, EntriesFor, Plan, Repeated, Matches;
    var included, excluded := IdsOf(EntriesFor(g, op, g.order, true)), IdsOf(EntriesFor(g, op, g.order, false));
    forall id
      ensures multiset(included)[id] + multiset(excluded)[id] == multiset(g.order)[id]
      ensures id in included <==> Matches(g, op, id)
      ensures id in excluded <==> id in g.ents && !Matches(g, op, id)
    {
      IdIsSorted(g, op, id);
    }
    SumOfCounts(included, excluded, g.order);
  }

  lemma SumOfCounts(a: seq<string>, b: seq<string>, c: seq<string>)
    requires forall id :: multiset(a)[id] + multiset(b)[id] == multiset(c)[id]
    ensures multiset(a) + multiset(b) == multiset(c)
  {}

  // ----- order independence -----

  lemma {:induction false} CountOfDistinct(s: seq<string>, x: string)
    requires NoDuplicates(s)
    ensures multiset(s)[x] == if x in s then 1 else 0
  {
    if s == [] {
    } else {
      assert s == [s[0]] + s[1..];
      assert NoDuplicates(s[1..]);
      CountOfDistinct(s[1..], x);
      if x in s[1..] {
        var i :| 0 <= i < |s| - 1 && s[1..][i] == x;
        assert s[i + 1] == x;
      }
    }
  }

  lemma SameCount(g: Snapshot, h: Snapshot, op: Op, wanted: bool, id: string)
    requires Coherent(g) && Coherent(h) && SameGraph(g, h) && Arity(op)
    ensures multiset(IdsOf(EntriesFor(g, op, g.order, wanted)))[id] == multiset(IdsOf(EntriesFor(h, op, h.order, wanted)))[id]
  {
    hide Semantics.Eval, Arity, EntriesFor, IdsOf;
    EntriesCount(g, op, g.order, wanted, id);
    EntriesCount(h, op, h.order, wanted, id);
    CountOfDistinct(g.order, id);
    CountOfDistinct(h.order, id);
    if id in g.ents { EvalSameGraph(g, h, op, g.ents[id]); }
  }

  lemma SameIds(g: Snapshot, h: Snapshot, op: Op, wanted: bool)
    requires Coherent(g) && Coherent(h) && SameGraph(g, h) && Arity(op)
    ensures multiset(IdsOf(EntriesFor(g, op, g.order, wanted))) == multiset(IdsOf(EntriesFor(h, op, h.order, wanted)))
  {
    OrderInside(g);
    OrderInside(h);
    hide Arity, EntriesFor, IdsOf, Coherent, SameGraph;
    var a, b := IdsOf(EntriesFor(g, op, g.order, wanted)), IdsOf(EntriesFor(h, op, h.order, wanted));
    forall id ensures multiset(a)[id] == multiset(b)[id] {
      SameCount(g, h, op, wanted, id);
    }
    CountsDecide(a, b);
  }

  lemma CountsDecide(a: seq<string>, b: seq<string>)
    requires forall id :: multiset(a)[id] == multiset(b)[id]
    ensures multiset(a) == multiset(b)
  {}

  lemma OrderInside(g: Snapshot)
    requires Coherent(g)
    ensures forall id :: id in g.order ==> id in g.ents
  {}

  /** Graphs with the same entities and edges give every query the same content hash. */
  lemma HashForgetsOrder(hash: (seq<string>, seq<string>) -> string, g: Snapshot, h: Snapshot, op: Op)
    requires Coherent(g) && Coherent(h) && SameGraph(g, h) && Arity(op)
    ensures DeterministicHash(hash, RecordOf(g, op)) == DeterministicHash(hash, RecordOf(h, op))
  {
    SameIds(g, h, op, true);
    SameIds(g, h, op, false);
    StringOrder();
    SortForgetsOrder(StringLeq, IdsOf(RecordOf(g, op).included), IdsOf(RecordOf(h, op).included));
    SortForgetsOrder(StringLeq, IdsOf(RecordOf(g, op).excluded), IdsOf(RecordOf(h, op).excluded));
  }

  /** A query and its dictionary round trip yield the same record on every graph. */
  lemma RoundTripRecord(g: Snapshot, op: Op)
    requires Coherent(g) && Arity(op)
    ensures Arity(FromDict(ToDict(op))) && RecordOf(g, FromDict(ToDict(op))) == RecordOf(g, op)
  {
    DictRoundTrip(op);
    ResetArity(op);
    ResetPlan(op, 0);
    RoundTripEntries(g, op, g.order, true);
    RoundTripEntries(g, op, g.order, false);
  }

  lemma {:induction false} RoundTripEntries(g: Snapshot, op: Op, ids: seq<string>, wanted: bool)
    requires Arity(op) && Arity(DepthsReset(op)) && forall id :: id in ids ==> id in g.ents
    ensures EntriesFor(g, DepthsReset(op), ids, wanted) == EntriesFor(g, op, ids, wanted)
  {
    if ids == [] {
    } else {
      RoundTripEntries(g, op, ids[..|ids| - 1], wanted);
      ResetEval(g, op, g.ents[ids[|ids| - 1]]);
    }
  }

  lemma SameMatches(g: Snapshot, h: Snapshot, op: Op)
    requires SameGraph(g, h) && Arity(op)
    ensures forall id :: (id in g.ents <==> id in h.ents) && (Matches(g, op, id) <==> Matches(h, op, id))
  {
    forall id ensures Matches(g, op, id) <==> Matches(h, op, id) {
      if id in g.ents { EvalSameGraph(g, h, op, g.ents[id]); }
    }
  }
}
