/** What the verdicts of src/query/executor.py mean: the Boolean laws of the operators, the leaf
    predicates in terms of an entity's fields, the edges each graph operator follows, and the
    reasons, predicates and plan lines that go with them. */
module Verdicts {
  import opened Basics
  import opened Algebra
  import opened Graph
  import opened Semantics
  import opened Evidence
  import opened Sorting

  // ----- the Boolean operators -----

  lemma {:induction false} EvalAllAt(g: Snapshot, ops: seq<Op>, e: Entity, i: nat)
    requires (forall c :: c in ops ==> Arity(c)) && i < |ops|
    ensures EvalAll(g, ops, e)[i] == Eval(g, ops[i], e)
  {
    hide Eval, Arity;
    var n := |ops| - 1;
    if i < n { EvalAllAt(g, ops[..n], e, i); }
  }

  /** AND matches exactly what every operand matches. */
  lemma AndMatches(g: Snapshot, op: Op, id: string)
    requires op.kind == AND && Arity(op)
    ensures Matches(g, op, id) <==> id in g.ents && forall i :: 0 <= i < |op.children| ==> Matches(g, op.children[i], id)
  {
    if id in g.ents {
      var e := g.ents[id];
      var rs := EvalAll(g, op.children, e);
      assert Eval(g, op, e).matched <==> forall i :: 0 <= i < |rs| ==> rs[i].matched;
      hide Eval, EvalAll, Arity;
      forall i | 0 <= i < |op.children| ensures rs[i].matched <==> Matches(g, op.children[i], id) {
        EvalAllAt(g, op.children, e, i);
      }
    }
  }

  /** OR matches exactly what some operand matches. */
  lemma OrMatches(g: Snapshot, op: Op, id: string)
    requires op.kind == OR && Arity(op)
    ensures Matches(g, op, id) <==> id in g.ents && exists i :: 0 <= i < |op.children| && Matches(g, op.children[i], id)
  {
    if id in g.ents {
      var e := g.ents[id];
      var rs := EvalAll(g, op.children, e);
      assert Eval(g, op, e).matched <==> exists i :: 0 <= i < |rs| && rs[i].matched;
      hide Eval, EvalAll, Arity;
      forall i | 0 <= i < |op.children| ensures rs[i].matched <==> Matches(g, op.children[i], id) {
        EvalAllAt(g, op.children, e, i);
      }
    }
  }

  /** NOT matches exactly the entities of the graph that its operand does not match. */
  lemma NotMatches(g: Snapshot, op: Op, id: string)
    requires op.kind == NOT && Arity(op)
    ensures op.children != [] && (Matches(g, op, id) <==> id in g.ents && !Matches(g, op.children[0], id))
  {}

  // ----- one entity's fields -----

  lemma TypeMatches(g: Snapshot, op: Op, id: string)
    requires op.kind == TYPE
    ensures Matches(g, op, id) <==> id in g.ents && op.arg == Some(g.ents[id].etype)
  {}

  lemma SourceMatches(g: Snapshot, op: Op, id: string)
    requires op.kind == SOURCE
    ensures Matches(g, op, id) <==> id in g.ents && op.arg == Some(g.ents[id].source)
  {}

  /** MATCH: the lower-cased argument, if there is one, occurs in the entity's text. */
  lemma TextMatches(g: Snapshot, op: Op, id: string)
    requires op.kind == MATCH
    ensures Matches(g, op, id)
       <==> id in g.ents && op.arg.Some? && op.arg.value != "" && OccursIn(g.ents[id].text, Lower(op.arg.value))
  {
    hide OccursIn, Contains, Lower;
    if id in g.ents && op.arg.Some? { ContainsExactly(g.ents[id].text, Lower(op.arg.value)); }
  }

  ghost predicate OccursIn(text: string, sub: string) {
    exists before, after :: SplitBy(text, before, sub, after)
  }

  predicate SplitBy(text: string, before: string, sub: string, after: string) {
    text == before + sub + after
  }

  lemma ContainsExactly(text: string, sub: string)
    ensures Contains(text, sub) <==> OccursIn(text, sub)
  {
    if i :| 0 <= i <= |text| && OccursAt(text, sub, i) {
      assert text == text[..i] + sub + text[i + |sub|..];
      assert SplitBy(text, text[..i], sub, text[i + |sub|..]);
    }
    if before, after :| SplitBy(text, before, sub, after) {
      assert text[|before|..|before| + |sub|] == sub;
      assert OccursAt(text, sub, |before|);
    }
  }

  /** SCORE: at least the threshold, which is zero when it is not given. */
  lemma ScoreMatches(g: Snapshot, op: Op, id: string)
    requires op.kind == SCORE
    ensures Matches(g, op, id)
       <==> (id in g.ents && (op.threshold.Some? ==> op.threshold.value <= g.ents[id].score)
             && (op.threshold.None? ==> 0.0 <= g.ents[id].score))
  {}

  /** TIME: within the bounds that are given, both included. */
  lemma TimeMatches(g: Snapshot, op: Op, id: string)
    requires op.kind == TIME
    ensures Matches(g, op, id)
       <==> (id in g.ents && (op.lo.Some? ==> op.lo.value <= g.ents[id].timestamp)
             && (op.hi.Some? ==> g.ents[id].timestamp <= op.hi.value))
  {}

  lemma NearMatches(g: Snapshot, op: Op, id: string)
    requires op.kind == NEAR
    ensures Matches(g, op, id) <==> id in g.ents && op.arg.Some? && op.arg.value != "" && Lower(op.arg.value) in g.ents[id].neighborTerms
  {}

  // ----- graph operators -----

  /** The entities a walk may end at: the operand is a leaf and matches there. */
  ghost predicate LeafMatches(g: Snapshot, inner: Op, id: string)
    requires LeafArity(inner)
  {
    inner.kind !in {AND, OR, NOT} && Matches(g, inner, id)
  }

  lemma LeafMatchesHolds(g: Snapshot, inner: Op, id: string)
    requires LeafArity(inner)
    ensures HoldsAt(g, inner, id) <==> LeafMatches(g, inner, id)
  {
    if inner.kind in {AND, OR, NOT} { assert !HoldsAt(g, inner, id); }
  }

  /** A walk from id of at most depth edges, all of the kind if one is given, to such an entity. */
  ghost predicate WalkTo(g: Snapshot, inner: Op, id: string, depth: int, kind: Option<string>, w: seq<string>)
    requires LeafArity(inner)
  {
    && |w| > 0 && w[0] == id && |w| <= 1 + AtLeastZero(depth)
    && (forall i :: 0 <= i < |w| - 1 ==> HasEdge(g, w[i], w[i + 1], kind))
    && LeafMatches(g, inner, w[|w| - 1])
  }

  lemma ReachesWalk(g: Snapshot, inner: Op, id: string, depth: int, kind: Option<string>)
    requires LeafArity(inner)
    ensures Reaches(g, inner, id, depth, kind) <==> exists w :: WalkTo(g, inner, id, depth, kind, w)
  {
    hide HoldsAt, LeafMatches, HasEdge;
    forall w ensures ReachesBy(g, inner, id, depth, kind, w) <==> WalkTo(g, inner, id, depth, kind, w) {
      if |w| > 0 { LeafMatchesHolds(g, inner, w[|w| - 1]); }
    }
  }

  lemma LeafEval(g: Snapshot, op: Op, e: Entity)
    requires op.kind !in {AND, OR, NOT} && LeafArity(op)
    ensures Eval(g, op, e) == LeafResult(g, op, e)
  {
    hide LeafResult, LeafArity;
  }

  /** Each graph operator matches exactly the entities with such a walk: CONNECTED_TO and PATH
      along any edges, DERIVED_FROM along derived_from edges, SAME_AS along same_as edges. */
  lemma GraphMatches(g: Snapshot, op: Op, id: string)
    requires op.kind in {CONNECTED_TO, PATH, DERIVED_FROM, SAME_AS} && LeafArity(op) && Coherent(g)
    ensures op.children != []
    ensures op.kind in {CONNECTED_TO, PATH} ==>
      (Matches(g, op, id) <==> id in g.ents && exists w :: WalkTo(g, op.children[0], id, op.depth, None, w))
    ensures op.kind == DERIVED_FROM ==>
      (Matches(g, op, id) <==> id in g.ents && exists w :: WalkTo(g, op.children[0], id, op.depth, Some("derived_from"), w))
    ensures op.kind == SAME_AS ==>
      (Matches(g, op, id) <==> id in g.ents && exists w :: WalkTo(g, op.children[0], id, op.depth, Some("same_as"), w))
  {
    if id in g.ents {
      var e := g.ents[id];
      assert e.id == id;
      hide Reaches, PathTo, HoldsAt, WalkTo, Coherent, LeafResult, LeafArity;
      LeafEval(g, op, e);
      GraphLeaf(g, op, e);
      ReachesWalk(g, op.children[0], id, op.depth, EdgeKindOf(op.kind));
    }
  }

  // ----- reasons and predicates -----

  ghost predicate FailsWith(rs: seq<Result>, x: Reason) {
    exists i :: 0 <= i < |rs| && !rs[i].matched && x in rs[i].reasons
  }

  ghost predicate Lists(rs: seq<Result>, p: string) {
    exists i :: 0 <= i < |rs| && p in rs[i].predicates
  }

  lemma FailsWithLast(rs: seq<Result>, r: Result, x: Reason)
    ensures FailsWith(rs + [r], x) <==> FailsWith(rs, x) || (!r.matched && x in r.reasons)
  {
    var all := rs + [r];
    assert all[|rs|] == r;
    if i :| 0 <= i < |rs| && !rs[i].matched && x in rs[i].reasons { assert all[i] == rs[i]; }
  }

  lemma ListsLast(rs: seq<Result>, r: Result, p: string)
    ensures Lists(rs + [r], p) <==> Lists(rs, p) || p in r.predicates
  {
    var all := rs + [r];
    assert all[|rs|] == r;
    if i :| 0 <= i < |rs| && p in rs[i].predicates { assert all[i] == rs[i]; }
  }

  lemma {:induction false} Gathered(rs: seq<Result>, x: Reason, p: string)
    ensures x in FailReasons(rs) <==> FailsWith(rs, x)
    ensures p in AllPredicates(rs) <==> Lists(rs, p)
  {
    if rs != [] {
      var n := |rs| - 1;
      Gathered(rs[..n], x, p);
      FailsWithLast(rs[..n], rs[n], x);
      ListsLast(rs[..n], rs[n], p);
      assert rs == rs[..n] + [rs[n]];
      hide FailsWith, Lists;
    }
  }

  /** AND gives the reasons of the operands that fail, or that all are satisfied; OR says that
      one is satisfied, or repeats all their reasons; both list every operand's predicates. */
  lemma OperandReports(g: Snapshot, op: Op, e: Entity)
    requires op.kind in {AND, OR} && Arity(op)
    ensures var r, rs := Eval(g, op, e), EvalAll(g, op.children, e);
      && (forall p :: p in r.predicates <==> Lists(rs, p))
      && (op.kind == AND ==> forall x :: x in r.reasons <==> (r.matched && x == AllConjuncts) || FailsWith(rs, x))
      && (op.kind == OR && r.matched ==> r.reasons == [SomeDisjunct])
      && (op.kind == OR && !r.matched ==>
            |r.reasons| == 1 && r.reasons[0].NoDisjunct? && forall x :: x in r.reasons[0].failed <==> FailsWith(rs, x))
  {
    var rs := EvalAll(g, op.children, e);
    forall x ensures x in FailReasons(rs) <==> FailsWith(rs, x) { Gathered(rs, x, ""); }
    forall p ensures p in AllPredicates(rs) <==> Lists(rs, p) { Gathered(rs, AllConjuncts, p); }
    hide EvalAll, Arity, FailReasons, AllPredicates, FailsWith, Lists;
  }

  lemma NotReports(g: Snapshot, op: Op, e: Entity)
    requires op.kind == NOT && Arity(op)
    ensures var r, sub := Eval(g, op, e), Eval(g, op.children[0], e);
      r.predicates == sub.predicates && r.reasons == [if sub.matched then NegationFails else NegationHolds]
  {}

  /** A leaf lists its own name, and says why it holds or does not, with the values compared. */
  lemma LeafReports(g: Snapshot, op: Op, e: Entity)
    requires op.kind in {TYPE, SOURCE, MATCH, SCORE, TIME, NEAR, CONNECTED_TO, DERIVED_FROM, SAME_AS, PATH} && LeafArity(op)
    ensures var r := Eval(g, op, e);
      && r.predicates == [match op.kind
                          case TYPE => "TYPE" case SOURCE => "SOURCE" case MATCH => "MATCH" case SCORE => "SCORE"
                          case TIME => "TIME" case NEAR => "NEAR" case CONNECTED_TO => "CONNECTED_TO"
                          case DERIVED_FROM => "DERIVED_FROM" case SAME_AS => "SAME_AS" case _ => "PATH"]
      && |r.reasons| == 1
      && (op.kind == TYPE ==> r.reasons[0] == if r.matched then TypeIs(op.arg) else TypeDiffers(e.etype, op.arg))
      && (op.kind == SOURCE ==> r.reasons[0] == if r.matched then SourceIs(op.arg) else SourceDiffers(e.source, op.arg))
      && (op.kind == MATCH ==> r.reasons[0] == if r.matched then TextContains(op.arg) else TextLacks(op.arg))
      && (op.kind == SCORE ==> r.reasons[0] == if r.matched then ScoreAtLeast(op.threshold) else ScoreBelow(e.score, op.threshold))
      && (op.kind == NEAR ==> r.reasons[0] == if r.matched then IsNear(op.arg) else NotNear(op.arg))
      && (op.kind == TIME && r.matched ==> r.reasons[0] == WithinTimeRange)
      && (op.kind == TIME && !r.matched ==>
            r.reasons[0] == if op.lo.Some? && e.timestamp < op.lo.value then TooEarly(e.timestamp, op.lo.value)
                            else if op.hi.Some? then TooLate(e.timestamp, op.hi.value) else WithinTimeRange)
      && (op.kind in {CONNECTED_TO, DERIVED_FROM, SAME_AS, PATH} ==>
            r.reasons[0] == if r.matched then MatchWithin(op.kind, op.depth) else NoMatchWithin(op.kind, op.depth))
  {
    hide Reaches, PathTo, Contains, Lower, LeafArity;
  }

  // ----- the order of reasons and lines -----

  lemma {:induction false} EvalAllJoins(g: Snapshot, a: seq<Op>, b: seq<Op>, e: Entity)
    requires forall c :: c in a + b ==> Arity(c)
    ensures EvalAll(g, a + b, e) == EvalAll(g, a, e) + EvalAll(g, b, e)
  {
    hide Eval, Arity;
    if b == [] {
      assert a + b == a;
    } else {
      var n := |b| - 1;
      assert (a + b)[..|a + b| - 1] == a + b[..n] && (a + b)[|a + b| - 1] == b[n];
      assert forall c :: c in a + b[..n] ==> c in a + b;
      EvalAllJoins(g, a, b[..n], e);
    }
  }

  lemma {:induction false} FailReasonsJoin(a: seq<Result>, b: seq<Result>)
    ensures FailReasons(a + b) == FailReasons(a) + FailReasons(b)
  {
    if b == [] {
      assert a + b == a;
    } else {
      var n := |b| - 1;
      assert (a + b)[..|a + b| - 1] == a + b[..n] && (a + b)[|a + b| - 1] == b[n];
      FailReasonsJoin(a, b[..n]);
    }
  }

  lemma {:induction false} PlanAllJoins(a: seq<Op>, b: seq<Op>, depth: nat)
    ensures PlanAll(a + b, depth) == PlanAll(a, depth) + PlanAll(b, depth)
  {
    hide Plan;
    if b == [] {
      assert a + b == a;
    } else {
      var n := |b| - 1;
      assert (a + b)[..|a + b| - 1] == a + b[..n] && (a + b)[|a + b| - 1] == b[n];
      PlanAllJoins(a, b[..n], depth);
    }
  }

  lemma AndReasons(g: Snapshot, op: Op, e: Entity)
    requires op.kind == AND && Arity(op)
    ensures var r, rs := Eval(g, op, e), EvalAll(g, op.children, e);
      r.matched == AllMatched(rs) && (!r.matched ==> r.reasons == FailReasons(rs))
  {
    hide EvalAll, FailReasons, AllPredicates, AllMatched;
  }

  lemma OrReasons(g: Snapshot, op: Op, e: Entity)
    requires op.kind == OR && Arity(op)
    ensures var r, rs := Eval(g, op, e), EvalAll(g, op.children, e);
      r.matched == AnyMatched(rs) && (!r.matched ==> r.reasons == [NoDisjunct(FailReasons(rs))])
  {
    hide EvalAll, FailReasons, AllPredicates, AnyMatched;
  }

  lemma MatchedJoin(a: seq<Result>, b: seq<Result>)
    ensures AllMatched(a + b) <==> AllMatched(a) && AllMatched(b)
    ensures AnyMatched(a + b) <==> AnyMatched(a) || AnyMatched(b)
  {
    var all := a + b;
    assert forall i :: 0 <= i < |a| ==> all[i] == a[i];
    assert forall i :: 0 <= i < |b| ==> all[|a| + i] == b[i];
    if i :| 0 <= i < |all| && all[i].matched { assert if i < |a| then a[i].matched else b[i - |a|].matched; }
    if i :| 0 <= i < |all| && !all[i].matched { assert if i < |a| then !a[i].matched else !b[i - |a|].matched; }
  }

  /** Reasons come in the order of the operands: an AND of two lists of operands that both fail
      gives those of the first and then those of the second. */
  lemma AndInOrder(g: Snapshot, op: Op, first: seq<Op>, second: seq<Op>, e: Entity)
    requires op.kind == AND && op.children == first + second && forall c :: c in first + second ==> Arity(c)
    requires Arity(op) && Arity(op.(children := first)) && Arity(op.(children := second))
    ensures var r, a, b := Eval(g, op, e), Eval(g, op.(children := first), e), Eval(g, op.(children := second), e);
      !a.matched && !b.matched ==> !r.matched && r.reasons == a.reasons + b.reasons
  {
    hide Eval, EvalAll, FailReasons, AllMatched, AnyMatched, Arity;
    EvalAllJoins(g, first, second, e);
    FailReasonsJoin(EvalAll(g, first, e), EvalAll(g, second, e));
    MatchedJoin(EvalAll(g, first, e), EvalAll(g, second, e));
    AndReasons(g, op, e);
    AndReasons(g, op.(children := first), e);
    AndReasons(g, op.(children := second), e);
  }

  /** And so does a failing OR. */
  lemma OrInOrder(g: Snapshot, op: Op, first: seq<Op>, second: seq<Op>, e: Entity)
    requires op.kind == OR && op.children == first + second && forall c :: c in first + second ==> Arity(c)
    requires Arity(op) && Arity(op.(children := first)) && Arity(op.(children := second))
    ensures var r, a, b := Eval(g, op, e), Eval(g, op.(children := first), e), Eval(g, op.(children := second), e);
      !r.matched ==>
        exists s, t :: a.reasons == [NoDisjunct(s)] && b.reasons == [NoDisjunct(t)] && r.reasons == [NoDisjunct(s + t)]
  {
    hide Eval, EvalAll, FailReasons, AllMatched, AnyMatched, Arity;
    EvalAllJoins(g, first, second, e);
    FailReasonsJoin(EvalAll(g, first, e), EvalAll(g, second, e));
    MatchedJoin(EvalAll(g, first, e), EvalAll(g, second, e));
    OrReasons(g, op, e);
    OrReasons(g, op.(children := first), e);
    OrReasons(g, op.(children := second), e);
  }

  /** So do the lines of a plan: below the line of an AND or OR those of the first operands and
      then those of the others, each operand's own plan one level deeper. */
  lemma PlanInOrder(op: Op, first: seq<Op>, second: seq<Op>, depth: nat)
    requires op.kind in {AND, OR} && op.children == first + second
    ensures Plan(op, depth)[1..] == Plan(op.(children := first), depth)[1..] + Plan(op.(children := second), depth)[1..]
    ensures forall c :: second == [c] ==> Plan(op.(children := second), depth)[1..] == Plan(c, depth + 1)
  {
    PlanAllJoins(first, second, depth + 1);
    forall c | second == [c] ensures PlanAll(second, depth + 1) == Plan(c, depth + 1) {
      assert PlanAll([], depth + 1) == [];
      assert second[..0] == [];
    }
    hide PlanAll;
  }

  // ----- the plan -----

  /** The operators that evaluating op visits: through the operands of AND and OR and the first
      of NOT, and no further. */
  ghost predicate Visits(op: Op, path: seq<nat>, node: Op)
    decreases |path|
  {
    if path == [] then node == op
    else
      && path[0] < |op.children| && (op.kind in {AND, OR} || (op.kind == NOT && path[0] == 0))
      && Visits(op.children[path[0]], path[1..], node)
  }

  /** The plan line of a node that many levels down. */
  function LineAt(node: Op, depth: nat): PlanStep {
    PlanStep(node.kind, if node.kind in {AND, OR, NOT} then None else Some(node.arg), depth)
  }

  lemma {:induction false} PlanVisits(op: Op, depth: nat, path: seq<nat>, node: Op)
    requires Visits(op, path, node)
    ensures LineAt(node, depth + |path|) in Plan(op, depth)
    decreases |path|
  {
    if path != [] {
      var i := path[0];
      PlanVisits(op.children[i], depth + 1, path[1..], node);
      if op.kind != NOT { PlanAllHas(op.children, depth + 1, i, LineAt(node, depth + |path|)); }
    }
  }

  lemma {:induction false} PlanAllHas(ops: seq<Op>, depth: nat, i: nat, line: PlanStep)
    requires i < |ops| && line in Plan(ops[i], depth)
    ensures line in PlanAll(ops, depth)
  {
    hide Plan;
    if i < |ops| - 1 { PlanAllHas(ops[..|ops| - 1], depth, i, line); }
  }

  lemma {:induction false} PlanLine(op: Op, depth: nat, line: PlanStep) returns (path: seq<nat>, node: Op)
    requires line in Plan(op, depth)
    ensures Visits(op, path, node) && line == LineAt(node, depth + |path|)
    decreases op, 1
  {
    if line == StepOf(op, depth) {
      path, node := [], op;
    } else if op.kind == NOT {
      var below;
      below, node := PlanLine(op.children[0], depth + 1, line);
      path := [0] + below;
      assert path[1..] == below;
    } else {
      var i, below;
      i, below, node := PlanAllLine(op.children, depth + 1, line);
      path := [i] + below;
      assert path[1..] == below;
    }
  }

  lemma {:induction false} PlanAllLine(ops: seq<Op>, depth: nat, line: PlanStep) returns (i: nat, path: seq<nat>, node: Op)
    requires line in PlanAll(ops, depth)
    ensures i < |ops| && Visits(ops[i], path, node) && line == LineAt(node, depth + |path|)
    decreases ops, 0
  {
    var n := |ops| - 1;
    if line in Plan(ops[n], depth) {
      i := n;
      path, node := PlanLine(ops[n], depth, line);
    } else {
      i, path, node := PlanAllLine(ops[..n], depth, line);
    }
  }

  /** The plan of an evaluation has a line exactly for every operator it visits, at its nesting
      depth, the root first. */
  lemma PlanExactly(op: Op, depth: nat, line: PlanStep)
    ensures line in Plan(op, depth) <==> exists path, node :: LineOf(op, depth, line, path, node)
    ensures Plan(op, depth)[0] == LineAt(op, depth)
  {
    if line in Plan(op, depth) {
      var path, node := PlanLine(op, depth, line);
      assert LineOf(op, depth, line, path, node);
    }
    if path, node :| LineOf(op, depth, line, path, node) {
      PlanVisits(op, depth, path, node);
    }
  }

  ghost predicate LineOf(op: Op, depth: nat, line: PlanStep, path: seq<nat>, node: Op) {
    Visits(op, path, node) && line == LineAt(node, depth + |path|)
  }

  // ----- evidence records -----

  /** What an entry of a record says about its entity. */
  ghost predicate Describes(g: Snapshot, op: Op, entry: Entry, matched: bool)
    requires Arity(op)
  {
    && entry.id in g.ents && entry.source == g.ents[entry.id].source
    && var r := Eval(g, op, g.ents[entry.id]);
      && r.matched == matched
      && entry.reasons == (if matched && r.reasons == [] then [RootSatisfied] else r.reasons)
      && Sorted(StringLeq, entry.predicates)
      && (forall p :: p in entry.predicates <==> p in r.predicates)
      && (forall i, j :: 0 <= i < j < |entry.predicates| ==> entry.predicates[i] != entry.predicates[j])
  }

  lemma {:induction false} DistinctOnce(s: seq<string>)
    ensures (forall p :: p in Distinct(s) <==> p in s) && (forall p :: multiset(Distinct(s))[p] <= 1)
  {
    if s != [] {
      DistinctOnce(s[1..]);
      if s[0] !in s[1..] {
        assert multiset(Distinct(s)) == multiset{s[0]} + multiset(Distinct(s[1..]));
      }
    }
  }

  lemma OnceMeansDifferent(s: seq<string>)
    requires forall p :: multiset(s)[p] <= 1
    ensures forall i, j :: 0 <= i < j < |s| ==> s[i] != s[j]
  {
    forall i, j | 0 <= i < j < |s| ensures s[i] != s[j] {
      TwiceCounted(s, i, j);
    }
  }

  lemma TwiceCounted(s: seq<string>, i: nat, j: nat)
    requires i < j < |s|
    ensures s[i] == s[j] ==> multiset(s)[s[i]] >= 2
  {
    var a, b := s[..j], s[j..];
    assert s == a + b && multiset(s) == multiset(a) + multiset(b);
    assert a[i] == s[i] && b[0] == s[j];
    assert s[i] in multiset(a) && s[j] in multiset(b);
  }

  lemma ListedOnce(ps: seq<string>)
    ensures var listed := SortStrings(Distinct(ps));
      && Sorted(StringLeq, listed) && (forall p :: p in listed <==> p in ps)
      && forall i, j :: 0 <= i < j < |listed| ==> listed[i] != listed[j]
  {
    hide StringLeq, Sorted, Sort;
    var once := Distinct(ps);
    StringOrder();
    SortSorts(StringLeq, once);
    SortPermutes(StringLeq, once);
    DistinctOnce(ps);
    OnceMeansDifferent(SortStrings(once));
    forall p ensures p in SortStrings(once) <==> p in ps {
      CountIsMembership(SortStrings(once), p);
      CountIsMembership(once, p);
    }
  }

  lemma EntryDescribes(g: Snapshot, op: Op, id: string)
    requires Arity(op) && Coherent(g) && id in g.ents
    ensures var e := g.ents[id]; var r := Eval(g, op, e); Describes(g, op, EntryOf(e, r), r.matched)
  {
    assert g.ents[id].id == id;
    hide Eval, Arity, Coherent, StringLeq, Sorted, SortStrings, Distinct;
    ListedOnce(Eval(g, op, g.ents[id]).predicates);
  }

  lemma {:induction false} EntriesDescribe(g: Snapshot, op: Op, ids: seq<string>, wanted: bool)
    requires Arity(op) && Coherent(g) && forall id :: id in ids ==> id in g.ents
    ensures forall entry :: entry in EntriesFor(g, op, ids, wanted) ==> Describes(g, op, entry, wanted)
  {
    if ids != [] {
      var n := |ids| - 1;
      EntriesDescribe(g, op, ids[..n], wanted);
      EntryDescribes(g, op, ids[n]);
      hide Describes, EntryOf, Eval, Arity, Coherent;
    }
  }

  /** Every entry of a record names its entity's source, gives its result's reasons and lists its
      predicates sorted and once each; included entries matched and excluded ones did not. */
  lemma RecordDescribes(g: Snapshot, op: Op)
    requires Arity(op) && Coherent(g)
    ensures forall entry :: entry in RecordOf(g, op).included ==> Describes(g, op, entry, true)
    ensures forall entry :: entry in RecordOf(g, op).excluded ==> Describes(g, op, entry, false)
  {
    EntriesDescribe(g, op, g.order, true);
    EntriesDescribe(g, op, g.order, false);
    hide Describes;
  }

  /** x stands somewhere before y. */
  ghost predicate Precedes(ids: seq<string>, x: string, y: string) {
    exists p, q :: 0 <= p < q < |ids| && ids[p] == x && ids[q] == y
  }

  ghost predicate FollowOrder(entries: seq<Entry>, ids: seq<string>) {
    && (forall i :: 0 <= i < |entries| ==> entries[i].id in ids)
    && (forall i, j :: 0 <= i < j < |entries| ==> Precedes(ids, entries[i].id, entries[j].id))
  }

  lemma PrecedesSnoc(ids: seq<string>, id: string, x: string, y: string)
    ensures Precedes(ids, x, y) ==> Precedes(ids + [id], x, y)
    ensures x in ids ==> Precedes(ids + [id], x, id)
  {
    var all := ids + [id];
    assert all[|ids|] == id && forall p :: 0 <= p < |ids| ==> all[p] == ids[p];
    if p, q :| 0 <= p < q < |ids| && ids[p] == x && ids[q] == y { assert all[p] == x && all[q] == y; }
    if p :| 0 <= p < |ids| && ids[p] == x { assert all[p] == x; }
  }

  lemma FollowSnoc(entries: seq<Entry>, ids: seq<string>, id: string, entry: Entry)
    requires FollowOrder(entries, ids) && entry.id == id
    ensures FollowOrder(entries, ids + [id]) && FollowOrder(entries + [entry], ids + [id])
  {
    hide Precedes;
    forall i, j | 0 <= i < j < |entries| ensures Precedes(ids + [id], entries[i].id, entries[j].id) {
      PrecedesSnoc(ids, id, entries[i].id, entries[j].id);
    }
    forall i | 0 <= i < |entries| ensures Precedes(ids + [id], entries[i].id, entry.id) {
      PrecedesSnoc(ids, id, entries[i].id, entry.id);
    }
  }

  lemma {:induction false} EntriesFollow(g: Snapshot, op: Op, ids: seq<string>, wanted: bool)
    requires Arity(op) && Coherent(g) && forall id :: id in ids ==> id in g.ents
    ensures FollowOrder(EntriesFor(g, op, ids, wanted), ids)
  {
    hide FollowOrder, Eval, Arity;
    if ids == [] {
      assert FollowOrder([], []) by { NothingFollows(); }
    } else {
      var n := |ids| - 1;
      var e := g.ents[ids[n]];
      EntriesFollow(g, op, ids[..n], wanted);
      FollowSnoc(EntriesFor(g, op, ids[..n], wanted), ids[..n], ids[n], EntryOf(e, Eval(g, op, e)));
      assert ids[..n] + [ids[n]] == ids;
      assert EntriesFor(g, op, ids[..n], wanted) + [] == EntriesFor(g, op, ids[..n], wanted);
    }
  }

  lemma NothingFollows()
    ensures FollowOrder([], [])
  {}

  lemma {:induction false} RepeatedAt(plan: seq<PlanStep>, n: nat, i: nat, k: nat)
    requires i < n && k < |plan|
    ensures |Repeated(plan, n)| == n * |plan| && 0 <= i * |plan| + k < n * |plan| && Repeated(plan, n)[i * |plan| + k] == plan[k]
  {
    RepeatedLength(plan, n);
    RepeatedLength(plan, n - 1);
    if i < n - 1 {
      RepeatedAt(plan, n - 1, i, k);
    }
  }

  lemma {:induction false} RepeatedLength(plan: seq<PlanStep>, n: nat)
    ensures |Repeated(plan, n)| == n * |plan|
  {
    if n > 0 { RepeatedLength(plan, n - 1); }
  }

  /** The steps are n copies of the plan, one after the other. */
  ghost predicate Copies(steps: seq<PlanStep>, plan: seq<PlanStep>, n: nat) {
    && |steps| == n * |plan|
    && forall i, k :: 0 <= i < n && 0 <= k < |plan| ==> CopyAt(steps, plan, i, k)
  }

  /** Step k of copy i. */
  predicate CopyAt(steps: seq<PlanStep>, plan: seq<PlanStep>, i: nat, k: nat)
    requires k < |plan|
  {
    i * |plan| + k < |steps| && steps[i * |plan| + k] == plan[k]
  }

  lemma RepeatedCopies(plan: seq<PlanStep>, n: nat)
    ensures Copies(Repeated(plan, n), plan, n)
  {
    RepeatedLength(plan, n);
    forall i, k | 0 <= i < n && 0 <= k < |plan| ensures CopyAt(Repeated(plan, n), plan, i, k) {
      RepeatedAt(plan, n, i, k);
    }
  }

  /** The entries of a record stand in the graph's order, and its plan is that of the query, once
      for every entity. */
  lemma RecordInOrder(g: Snapshot, op: Op)
    requires Arity(op) && Coherent(g)
    ensures FollowOrder(RecordOf(g, op).included, g.order) && FollowOrder(RecordOf(g, op).excluded, g.order)
    ensures Copies(RecordOf(g, op).plan, Plan(op, 0), |g.order|)
  {
    hide FollowOrder, EntriesFor, Plan, Copies;
    EntriesFollow(g, op, g.order, true);
    EntriesFollow(g, op, g.order, false);
    RepeatedCopies(Plan(op, 0), |g.order|);
  }

  /** A list of ids, sorted: the ids of these entries, each as often as it stands there. */
  ghost predicate SortedIds(sorted: seq<string>, entries: seq<Entry>) {
    && Sorted(StringLeq, sorted) && |sorted| == |entries|
    && exists ids :: multiset(ids) == multiset(sorted) && InOrder(ids, entries)
  }

  predicate InOrder(ids: seq<string>, entries: seq<Entry>) {
    |ids| == |entries| && forall i :: 0 <= i < |ids| ==> ids[i] == entries[i].id
  }

  lemma {:induction false} IdsInOrder(entries: seq<Entry>)
    ensures InOrder(IdsOf(entries), entries)
  {
    if entries != [] { IdsInOrder(entries[..|entries| - 1]); }
  }

  lemma SortedIdsOf(entries: seq<Entry>)
    ensures SortedIds(SortStrings(IdsOf(entries)), entries)
  {
    hide StringLeq, Sorted, Sort;
    var ids := IdsOf(entries);
    StringOrder();
    SortSorts(StringLeq, ids);
    SortPermutes(StringLeq, ids);
    IdsInOrder(entries);
    hide InOrder, IdsOf;
    assert |multiset(SortStrings(ids))| == |multiset(ids)|;
    LengthOf(entries, ids);
  }

  lemma LengthOf(entries: seq<Entry>, ids: seq<string>)
    requires InOrder(ids, entries)
    ensures |ids| == |entries|
  {}

  /** deterministic_hash is the hash of the included ids and the excluded ids, each sorted. */
  lemma HashOfSortedIds(hash: (seq<string>, seq<string>) -> string, r: EvidenceRecord) returns (included: seq<string>, excluded: seq<string>)
    ensures DeterministicHash(hash, r) == hash(included, excluded)
    ensures SortedIds(included, r.included) && SortedIds(excluded, r.excluded)
  {
    hide SortedIds, SortStrings, IdsOf;
    included, excluded := SortStrings(IdsOf(r.included)), SortStrings(IdsOf(r.excluded));
    SortedIdsOf(r.included);
    SortedIdsOf(r.excluded);
  }
}
