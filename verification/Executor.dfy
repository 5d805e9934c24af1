/** QueryExecutor of src/query/executor.py: the frontier search, the leaf predicates and
    the recursive evaluator, proved against Semantics. */
module Executor {
  import opened Basics
  import opened Algebra
  import opened Graph
  import opened Semantics
  import opened Search
  import opened Evidence

  /** Entities as the graph holds them. */
  ghost predicate Known(g: Snapshot, es: seq<Entity>) {
    forall i :: 0 <= i < |es| ==> es[i].id in g.ents && g.ents[es[i].id] == es[i]
  }

  ghost predicate NoneHold(g: Snapshot, inner: Op, s: set<string>)
    requires LeafArity(inner)
  {
    forall id :: id in s ==> !HoldsAt(g, inner, id)
  }

  /** Midway through a level: base with the ids taken so far, the new ones of them next. */
  ghost predicate Expanding(g: Snapshot, inner: Op, base: set<string>, taken: set<string>, seen: set<string>, nxt: seq<Entity>)
    requires LeafArity(inner)
  {
    seen == base + taken && NoneHold(g, inner, seen) && Known(g, nxt) && Ids(nxt) == seen - base
  }

  lemma SkipOld(g: Snapshot, inner: Op, base: set<string>, taken: set<string>, seen: set<string>, nxt: seq<Entity>, id: string)
    requires LeafArity(inner) && Expanding(g, inner, base, taken, seen, nxt) && id in seen
    ensures Expanding(g, inner, base, taken + {id}, seen, nxt)
  {
    hide Known, Ids, NoneHold;
  }

  lemma TakeNew(g: Snapshot, inner: Op, base: set<string>, taken: set<string>, seen: set<string>, nxt: seq<Entity>, nb: Entity)
    requires LeafArity(inner) && Expanding(g, inner, base, taken, seen, nxt)
    requires Known(g, [nb]) && nb.id !in seen && !HoldsAt(g, inner, nb.id)
    ensures Expanding(g, inner, base, taken + {nb.id}, seen + {nb.id}, nxt + [nb])
  {
    hide Known, Ids, HoldsAt;
    IdsSnoc(nxt, nb);
    KnownSnoc(g, nxt, nb);
  }

  lemma Expanded(g: Snapshot, inner: Op, base: set<string>, taken: set<string>, seen: set<string>, nxt: seq<Entity>)
    requires LeafArity(inner) && Expanding(g, inner, base, taken, seen, nxt)
    ensures seen == base + taken && NoneHold(g, inner, seen) && Known(g, nxt) && Ids(nxt) == seen - base
  {}

  lemma NeighborsKnown(g: Snapshot, ids: seq<string>, es: seq<Entity>)
    requires Coherent(g) && AreEntities(g.ents, ids, es)
    ensures |es| == |ids| && Known(g, es) && forall i :: 0 <= i < |es| ==> es[i].id == ids[i]
  {}

  lemma FoundWithin(g: Snapshot, inner: Op, start: string, level: nat, depth: int, kind: Option<string>, b: string)
    requires LeafArity(inner) && b in Within(g, start, kind, level) && level <= AtLeastZero(depth) && HoldsAt(g, inner, b)
    ensures Reaches(g, inner, start, depth, kind)
  {
    WithinGrows(g, start, kind, level, AtLeastZero(depth));
    ReachesIffWithin(g, inner, start, depth, kind);
  }

  lemma FoundNext(g: Snapshot, inner: Op, start: string, level: nat, depth: int, kind: Option<string>, a: string, b: string)
    requires LeafArity(inner) && a in Within(g, start, kind, level) && level + 1 <= AtLeastZero(depth)
    requires b in NeighborIds(g, a, kind) && HoldsAt(g, inner, b)
    ensures Reaches(g, inner, start, depth, kind)
  {
    assert b in Successors(g, Within(g, start, kind, level), kind);
    FoundWithin(g, inner, start, level + 1, depth, kind, b);
  }

  /** Once every frontier entity is expanded, seen is the next level set. */
  lemma NextLevel(g: Snapshot, start: string, kind: Option<string>, level: nat, frontier: set<string>, seen: set<string>)
    requires frontier <= Within(g, start, kind, level)
    requires Successors(g, Within(g, start, kind, level) - frontier, kind) <= Within(g, start, kind, level)
    requires seen == Within(g, start, kind, level) + Successors(g, frontier, kind)
    ensures seen == Within(g, start, kind, level + 1)
    ensures Successors(g, seen - (seen - Within(g, start, kind, level)), kind) <= seen
  {
    var base := Within(g, start, kind, level);
    SuccessorsUnion(g, base - frontier, frontier, kind);
    assert base - frontier + frontier == base;
    assert seen - (seen - base) == base;
  }

  lemma ExpandOne(g: Snapshot, frontier: seq<Entity>, i: nat, kind: Option<string>)
    requires i < |frontier|
    ensures Successors(g, Ids(frontier[..i + 1]), kind)
         == Successors(g, Ids(frontier[..i]), kind) + SetOf(NeighborIds(g, frontier[i].id, kind))
  {
    assert Ids(frontier[..i + 1]) == Ids(frontier[..i]) + {frontier[i].id} by {
      assert forall j :: 0 <= j < i ==> frontier[..i + 1][j] == frontier[..i][j];
      assert frontier[..i + 1][i] == frontier[i];
    }
    SuccessorsUnion(g, Ids(frontier[..i]), {frontier[i].id}, kind);
    SuccessorsOne(g, frontier[i].id, kind);
  }

  lemma IdsSnoc(es: seq<Entity>, e: Entity)
    ensures Ids(es + [e]) == Ids(es) + {e.id}
  {
    assert (es + [e])[|es|] == e;
    assert forall j :: 0 <= j < |es| ==> (es + [e])[j] == es[j];
  }

  lemma SetOfSnoc(s: seq<string>, j: nat)
    requires j < |s|
    ensures SetOf(s[..j + 1]) == SetOf(s[..j]) + {s[j]}
  {
    assert s[..j + 1] == s[..j] + [s[j]];
  }

  class QueryExecutor {
    const g: KnowledgeGraph

    constructor (g: KnowledgeGraph)
      ensures this.g == g
    {
      this.g := g;
    }

    /** _bfs: level by level with seen and frontier, along edges of one kind or of any. */
    method FrontierSearch(start: Entity, inner: Op, maxDepth: int, kind: Option<string>) returns (found: bool)
      requires Coherent(g.View()) && LeafArity(inner) && Known(g.View(), [start])
      ensures found == Reaches(g.View(), inner, start.id, maxDepth, kind)
      decreases inner, 1
    {
      hide HoldsAt, Reaches, Coherent, Within, Successors, Known, Ids, NeighborIds, LeafResult, StepOf, AreEntities,
           Expanding;
      ghost var s := g.View();
      var r, _ := Leaf(inner, start, 0, []);
      LeafDecides(s, inner, start);
      StartLevel(s, start, kind);
      if r.matched {
        FoundWithin(s, inner, start.id, 0, maxDepth, kind, start.id);
        return true;
      }
      var seen, frontier, level := {start.id}, [start], 0;
      while level < maxDepth
        invariant 0 <= level <= AtLeastZero(maxDepth)
        invariant seen == Within(s, start.id, kind, level) && NoneHold(s, inner, seen)
        invariant Known(s, frontier) && Ids(frontier) <= seen
        invariant Successors(s, seen - Ids(frontier), kind) <= seen
      {
        ghost var base := seen;
        var nxt := [];
        var i := 0;
        NoneYet(s, inner, base, frontier, kind);
        while i < |frontier|
          invariant 0 <= i <= |frontier|
          invariant Expanding(s, inner, base, Successors(s, Ids(frontier[..i]), kind), seen, nxt)
        {
          var nbs := g.Neighbors(frontier[i].id, kind);
          ghost var ids := NeighborIds(s, frontier[i].id, kind);
          NeighborsKnown(s, ids, nbs);
          FrontierMember(s, frontier, i);
          ghost var taken := Successors(s, Ids(frontier[..i]), kind);
          var j := 0;
          assert taken + SetOf(ids[..0]) == taken;
          while j < |nbs|
            invariant 0 <= j <= |nbs|
            invariant Expanding(s, inner, base, taken + SetOf(ids[..j]), seen, nxt)
          {
            var nb := nbs[j];
            SetOfSnoc(ids, j);
            KnownMember(s, nbs, j);
            if nb.id !in seen {
              var here, _ := Leaf(inner, nb, 0, []);
              LeafDecides(s, inner, nb);
              if here.matched {
                FoundNext(s, inner, start.id, level, maxDepth, kind, frontier[i].id, nb.id);
                return true;
              }
              TakeNew(s, inner, base, taken + SetOf(ids[..j]), seen, nxt, nb);
              seen := seen + {nb.id};
              nxt := nxt + [nb];
            } else {
              SkipOld(s, inner, base, taken + SetOf(ids[..j]), seen, nxt, nb.id);
            }
            assert taken + SetOf(ids[..j]) + {nb.id} == taken + SetOf(ids[..j + 1]);
            j := j + 1;
          }
          assert ids[..j] == ids;
          ExpandOne(s, frontier, i, kind);
          i := i + 1;
        }
        assert frontier[..i] == frontier;
        Expanded(s, inner, base, Successors(s, Ids(frontier), kind), seen, nxt);
        NextLevel(s, start.id, kind, level, Ids(frontier), seen);
        frontier, level := nxt, level + 1;
      }
      ReachesIffWithin(s, inner, start.id, maxDepth, kind);
      return false;
    }

    /** _shortest: the same search for PATH, along edges of any kind. */
    method Shortest(start: Entity, target: Op, maxLen: int) returns (found: bool)
      requires Coherent(g.View()) && LeafArity(target) && Known(g.View(), [start])
      ensures found == PathTo(g.View(), target, start.id, AtLeastZero(maxLen))
      decreases target, 1
    {
      hide HoldsAt, Reaches, PathTo, Coherent, Within, Successors, Known, Ids, NeighborIds, LeafResult, StepOf, AreEntities,
           Expanding;
      ghost var s := g.View();
      var r, _ := Leaf(target, start, 0, []);
      LeafDecides(s, target, start);
      StartLevel(s, start, None);
      PathIffReaches(s, target, start.id, AtLeastZero(maxLen));
      if r.matched {
        FoundWithin(s, target, start.id, 0, AtLeastZero(maxLen), None, start.id);
        return true;
      }
      var seen, frontier, level := {start.id}, [start], 0;
      while level < maxLen
        invariant 0 <= level <= AtLeastZero(maxLen)
        invariant seen == Within(s, start.id, None, level) && NoneHold(s, target, seen)
        invariant Known(s, frontier) && Ids(frontier) <= seen
        invariant Successors(s, seen - Ids(frontier), None) <= seen
      {
        ghost var base := seen;
        var nxt, i := [], 0;
        NoneYet(s, target, base, frontier, None);
        while i < |frontier|
          invariant 0 <= i <= |frontier|
          invariant Expanding(s, target, base, Successors(s, Ids(frontier[..i]), None), seen, nxt)
        {
          var nbs := g.Neighbors(frontier[i].id, None);
          ghost var ids := NeighborIds(s, frontier[i].id, None);
          NeighborsKnown(s, ids, nbs);
          FrontierMember(s, frontier, i);
          ghost var taken := Successors(s, Ids(frontier[..i]), None);
          var j := 0;
          assert taken + SetOf(ids[..0]) == taken;
          while j < |nbs|
            invariant 0 <= j <= |nbs|
            invariant Expanding(s, target, base, taken + SetOf(ids[..j]), seen, nxt)
          {
            var nb := nbs[j];
            SetOfSnoc(ids, j);
            KnownMember(s, nbs, j);
            if nb.id !in seen {
              var here, _ := Leaf(target, nb, 0, []);
              LeafDecides(s, target, nb);
              if here.matched {
                FoundNext(s, target, start.id, level, AtLeastZero(maxLen), None, frontier[i].id, nb.id);
                return true;
              }
              TakeNew(s, target, base, taken + SetOf(ids[..j]), seen, nxt, nb);
              seen := seen + {nb.id};
              nxt := nxt + [nb];
            } else {
              SkipOld(s, target, base, taken + SetOf(ids[..j]), seen, nxt, nb.id);
            }
            assert taken + SetOf(ids[..j]) + {nb.id} == taken + SetOf(ids[..j + 1]);
            j := j + 1;
          }
          assert ids[..j] == ids;
          ExpandOne(s, frontier, i, None);
          i := i + 1;
        }
        assert frontier[..i] == frontier;
        Expanded(s, target, base, Successors(s, Ids(frontier), None), seen, nxt);
        NextLevel(s, start.id, None, level, Ids(frontier), seen);
        frontier, level := nxt, level + 1;
      }
      ReachesIffWithin(s, target, start.id, AtLeastZero(maxLen), None);
      return false;
    }

    /** _leaf: one predicate at one entity, and its plan line. */
    method Leaf(op: Op, e: Entity, depth: nat, plan: seq<PlanStep>) returns (res: Result, planOut: seq<PlanStep>)
      requires Coherent(g.View()) && LeafArity(op) && Known(g.View(), [e])
      ensures res == LeafResult(g.View(), op, e)
      ensures planOut == plan + [StepOf(op, depth)]
      decreases op, 0
    {
      planOut := plan + [StepOf(op, depth)];
      if op.kind == PATH {
        var found := Shortest(e, op.children[0], op.depth);
        res := GraphResult(op, found);
      } else if IsGraphKind(op.kind) {
        var found := FrontierSearch(e, op.children[0], op.depth, EdgeKindOf(op.kind));
        res := GraphResult(op, found);
      } else {
        res := LocalResult(op, e);
      }
    }

    /** The loop over the operands of AND and OR: none is skipped, the reasons of the
        failing ones and all predicates are collected. */
    method EvalOperands(ops: seq<Op>, e: Entity, depth: nat, plan: seq<PlanStep>)
      returns (allOk: bool, anyOk: bool, failed: seq<Reason>, predicates: seq<string>, planOut: seq<PlanStep>)
      requires Coherent(g.View()) && Known(g.View(), [e]) && forall c :: c in ops ==> Arity(c)
      ensures var rs := EvalAll(g.View(), ops, e);
        allOk == AllMatched(rs) && anyOk == AnyMatched(rs) && failed == FailReasons(rs) && predicates == AllPredicates(rs)
      ensures planOut == plan + PlanAll(ops, depth)
      decreases ops
    {
      hide Coherent, Known, AllMatched, AnyMatched, FailReasons, AllPredicates, EvalAll, PlanAll, Plan, LeafArity, Semantics.Eval;
      allOk, anyOk, failed, predicates, planOut := true, false, [], [], plan;
      ghost var s := g.View();
      ghost var rs: seq<Result> := [];
      NothingYet(s, ops, e, depth);
      var i := 0;
      while i < |ops|
        invariant 0 <= i <= |ops|
        invariant rs == EvalAll(s, ops[..i], e)
        invariant allOk == AllMatched(rs) && anyOk == AnyMatched(rs)
        invariant failed == FailReasons(rs) && predicates == AllPredicates(rs)
        invariant planOut == plan + PlanAll(ops[..i], depth)
      {
        var sub, p := Eval(ops[i], e, depth, planOut);
        EvalAllSnoc(s, ops, i, e);
        PlanAllSnoc(ops, i, depth);
        GatherSnoc(rs, sub);
        rs := rs + [sub];
        planOut := p;
        if sub.matched {
          anyOk := true;
        } else {
          allOk := false;
          failed := failed + sub.reasons;
        }
        predicates := predicates + sub.predicates;
        i := i + 1;
      }
      assert ops[..i] == ops;
    }

    /** _eval: the result of an operator at an entity, and the plan lines it appends. */
    method Eval(op: Op, e: Entity, depth: nat, plan: seq<PlanStep>) returns (res: Result, planOut: seq<PlanStep>)
      requires Coherent(g.View()) && Arity(op) && Known(g.View(), [e])
      ensures res == Semantics.Eval(g.View(), op, e)
      ensures planOut == plan + Plan(op, depth)
      decreases op, 2
    {
      hide Coherent, Known, LeafResult, HoldsAt, EvalAll, AllMatched, AnyMatched, FailReasons, AllPredicates, PlanAll, Plan,
           Semantics.Eval, Arity, LeafArity, StepOf;
      planOut := plan + [StepOf(op, depth)];
      if op.kind == AND {
        OperandsRow(g.View(), op, e, depth);
        var allOk, _, failed, predicates, p := EvalOperands(op.children, e, depth + 1, planOut);
        planOut := p;
        res := Result(allOk, if allOk then failed + [AllConjuncts] else failed, predicates);
      } else if op.kind == OR {
        OperandsRow(g.View(), op, e, depth);
        var _, anyOk, failed, predicates, p := EvalOperands(op.children, e, depth + 1, planOut);
        planOut := p;
        res := Result(anyOk, if anyOk then [SomeDisjunct] else [NoDisjunct(failed)], predicates);
      } else if op.kind == NOT {
        NegationRow(g.View(), op, e, depth);
        var sub, p := Eval(op.children[0], e, depth + 1, planOut);
        planOut := p;
        res := Result(!sub.matched, if sub.matched then [NegationFails] else [NegationHolds], sub.predicates);
      } else {
        LeafRow(g.View(), op, e, depth);
        res, planOut := Leaf(op, e, depth, plan);
      }
    }

    /** execute: evaluates the query at every entity, in the graph's insertion order. */
    method Execute(op: Op) returns (record: EvidenceRecord)
      requires Coherent(g.View()) && Arity(op)
      ensures record == RecordOf(g.View(), op)
    {
      hide Semantics.Eval, Plan, Arity, EntryOf, EntriesFor, Repeated, Known, Coherent;
      ghost var s := g.View();
      var included, excluded, plan := [], [], [];
      var i := 0;
      OrderKnown(s);
      NoEntries(s, op);
      while i < |g.order|
        invariant 0 <= i <= |g.order|
        invariant included == EntriesFor(s, op, s.order[..i], true)
        invariant excluded == EntriesFor(s, op, s.order[..i], false)
        invariant plan == Repeated(Plan(op, 0), i)
      {
        var e := g.ents[g.order[i]];
        EntriesSnoc(s, op, i, true);
        EntriesSnoc(s, op, i, false);
        RepeatedSnoc(Plan(op, 0), i);
        var r, p := Eval(op, e, 0, plan);
        plan := p;
        if r.matched {
          included := included + [EntryOf(e, r)];
        } else {
          excluded := excluded + [EntryOf(e, r)];
        }
        i := i + 1;
      }
      assert s.order[..i] == s.order;
      record := EvidenceRecord(included, excluded, plan);
    }
  }

  /** A leaf holds at an entity of the graph exactly when its result says so. */
  lemma LeafDecides(g: Snapshot, op: Op, e: Entity)
    requires Coherent(g) && LeafArity(op) && Known(g, [e])
    ensures LeafResult(g, op, e).matched <==> HoldsAt(g, op, e.id)
  {
    assert [e][0] == e;
  }

  lemma NothingYet(g: Snapshot, ops: seq<Op>, e: Entity, depth: nat)
    ensures EvalAll(g, ops[..0], e) == [] && PlanAll(ops[..0], depth) == []
    ensures AllMatched([]) && !AnyMatched([]) && FailReasons([]) == [] && AllPredicates([]) == []
  {}

  lemma StartLevel(g: Snapshot, start: Entity, kind: Option<string>)
    ensures Within(g, start.id, kind, 0) == {start.id}
    ensures Ids([start]) == {start.id}
    ensures Successors(g, {start.id} - Ids([start]), kind) == {}
  {
    assert [start][0] == start;
    assert {start.id} - Ids([start]) == {};
    SuccessorsNone(g, kind);
  }

  lemma NoneYet(g: Snapshot, inner: Op, base: set<string>, frontier: seq<Entity>, kind: Option<string>)
    requires LeafArity(inner) && NoneHold(g, inner, base)
    ensures Expanding(g, inner, base, Successors(g, Ids(frontier[..0]), kind), base, [])
  {
    assert Ids(frontier[..0]) == {};
    SuccessorsNone(g, kind);
  }

  lemma FrontierMember(g: Snapshot, frontier: seq<Entity>, i: nat)
    requires i < |frontier|
    ensures frontier[i].id in Ids(frontier)
  {}

  lemma KnownMember(g: Snapshot, es: seq<Entity>, i: nat)
    requires i < |es| && Known(g, es)
    ensures Known(g, [es[i]])
  {}

  lemma KnownSnoc(g: Snapshot, es: seq<Entity>, e: Entity)
    requires Known(g, es) && Known(g, [e])
    ensures Known(g, es + [e])
  {
    assert [e][0] == e;
  }

  lemma OrderKnown(g: Snapshot)
    requires Coherent(g)
    ensures forall id :: id in g.order ==> id in g.ents && Known(g, [g.ents[id]])
  {
    forall id | id in g.order ensures id in g.ents && Known(g, [g.ents[id]]) {}
  }

  lemma NoEntries(g: Snapshot, op: Op)
    requires Arity(op) && forall id :: id in g.order ==> id in g.ents
    ensures EntriesFor(g, op, g.order[..0], true) == [] && EntriesFor(g, op, g.order[..0], false) == []
    ensures Repeated(Plan(op, 0), 0) == []
  {}

  lemma RepeatedSnoc(plan: seq<PlanStep>, n: nat)
    ensures Repeated(plan, n + 1) == Repeated(plan, n) + plan
  {}

  lemma EntriesSnoc(g: Snapshot, op: Op, i: nat, wanted: bool)
    requires Arity(op) && i < |g.order| && forall id :: id in g.order ==> id in g.ents
    ensures var e := g.ents[g.order[i]]; var r := Semantics.Eval(g, op, e);
      EntriesFor(g, op, g.order[..i + 1], wanted)
      == EntriesFor(g, op, g.order[..i], wanted) + if r.matched == wanted then [EntryOf(e, r)] else []
  {
    hide Semantics.Eval, EntryOf;
    assert g.order[..i + 1][..i] == g.order[..i];
  }

  lemma OperandsRow(g: Snapshot, op: Op, e: Entity, depth: nat)
    requires Arity(op) && op.kind in {AND, OR}
    ensures (forall c :: c in op.children ==> Arity(c)) && Plan(op, depth) == [StepOf(op, depth)] + PlanAll(op.children, depth + 1)
    ensures Semantics.Eval(g, op, e)
         == if op.kind == AND then Conjunction(EvalAll(g, op.children, e)) else Disjunction(EvalAll(g, op.children, e))
  {
    hide StepOf, PlanAll, EvalAll, Conjunction, Disjunction, LeafArity;
  }

  lemma NegationRow(g: Snapshot, op: Op, e: Entity, depth: nat)
    requires Arity(op) && op.kind == NOT
    ensures op.children != [] && Arity(op.children[0]) && Plan(op, depth) == [StepOf(op, depth)] + Plan(op.children[0], depth + 1)
    ensures Semantics.Eval(g, op, e) == Negation(Semantics.Eval(g, op.children[0], e))
  {
    hide StepOf, PlanAll, EvalAll, Negation, LeafArity;
  }

  lemma LeafRow(g: Snapshot, op: Op, e: Entity, depth: nat)
    requires Arity(op) && op.kind !in {AND, OR, NOT}
    ensures LeafArity(op) && Plan(op, depth) == [StepOf(op, depth)] && Semantics.Eval(g, op, e) == LeafResult(g, op, e)
  {
    hide StepOf, LeafResult, LeafArity;
  }

  lemma EvalAllSnoc(g: Snapshot, ops: seq<Op>, i: nat, e: Entity)
    requires i < |ops| && forall c :: c in ops ==> Arity(c)
    ensures EvalAll(g, ops[..i + 1], e) == EvalAll(g, ops[..i], e) + [Semantics.Eval(g, ops[i], e)]
  {
    assert ops[..i + 1][..i] == ops[..i];
  }

  lemma PlanAllSnoc(ops: seq<Op>, i: nat, depth: nat)
    requires i < |ops|
    ensures PlanAll(ops[..i + 1], depth) == PlanAll(ops[..i], depth) + Plan(ops[i], depth)
  {
    assert ops[..i + 1][..i] == ops[..i];
  }

  lemma GatherSnoc(rs: seq<Result>, r: Result)
    ensures AllMatched(rs + [r]) == (AllMatched(rs) && r.matched)
    ensures AnyMatched(rs + [r]) == (AnyMatched(rs) || r.matched)
    ensures FailReasons(rs + [r]) == FailReasons(rs) + (if r.matched then [] else r.reasons)
    ensures AllPredicates(rs + [r]) == AllPredicates(rs) + r.predicates
  {
    var t := rs + [r];
    assert t[..|t| - 1] == rs && t[|rs|] == r;
    assert forall i :: 0 <= i < |rs| ==> t[i] == rs[i];
  }
}
