/** What a query means on a graph: the results, reasons and plan that the executor of
    src/query/executor.py must produce. Graph predicates are stated as walks. */
module Semantics {
  import opened Basics
  import opened Algebra
  import opened Graph

  // ----- strings -----

  /** Python's `sub in s`. */
  predicate Contains(s: string, sub: string) {
    exists i :: 0 <= i <= |s| && OccursAt(s, sub, i)
  }

  predicate OccursAt(s: string, sub: string, i: nat) {
    i + |sub| <= |s| && s[i..i + |sub|] == sub
  }

  predicate GivenArg(op: Op) {
    op.arg.Some? && op.arg.value != ""
  }

  // ----- results -----

  /** A reason string, kept as its template and the values it prints. */
  datatype Reason =
    | AllConjuncts | SomeDisjunct | NoDisjunct(failed: seq<Reason>) | NegationFails | NegationHolds
    | TypeDiffers(actual: string, arg: Option<string>) | TypeIs(arg: Option<string>)
    | SourceDiffers(actual: string, arg: Option<string>) | SourceIs(arg: Option<string>)
    | TextLacks(arg: Option<string>) | TextContains(arg: Option<string>)
    | ScoreBelow(score: real, threshold: Option<real>) | ScoreAtLeast(threshold: Option<real>)
    | TooEarly(timestamp: real, bound: real) | TooLate(timestamp: real, bound: real) | WithinTimeRange
    | NoMatchWithin(kind: OpKind, depth: int) | MatchWithin(kind: OpKind, depth: int)
    | NotNear(arg: Option<string>) | IsNear(arg: Option<string>)
    | UnknownOperator(kind: OpKind) | RootSatisfied

  datatype Result = Result(matched: bool, reasons: seq<Reason>, predicates: seq<string>)

  function Holding(reason: Reason, predicate_: string): Result {
    Result(true, [reason], [predicate_])
  }

  function Failing(reason: Reason, predicate_: string): Result {
    Result(false, [reason], [predicate_])
  }

  function Verdict(ok: bool, yes: Reason, no: Reason, tag: string): Result {
    if ok then Holding(yes, tag) else Failing(no, tag)
  }

  /** OpKind.value */
  function KindName(k: OpKind): string {
    match k
    case AND => "AND" case OR => "OR" case NOT => "NOT" case TYPE => "TYPE"
    case SOURCE => "SOURCE" case MATCH => "MATCH" case CONNECTED_TO => "CONNECTED_TO"
    case DERIVED_FROM => "DERIVED_FROM" case SAME_AS => "SAME_AS" case NEAR => "NEAR"
    case SCORE => "SCORE" case TIME => "TIME" case PATH => "PATH"
  }

  predicate IsGraphKind(k: OpKind) {
    k in {CONNECTED_TO, DERIVED_FROM, SAME_AS, PATH}
  }

  /** The edge kind a graph operator follows; None follows every edge. */
  function EdgeKindOf(k: OpKind): Option<string> {
    if k == DERIVED_FROM then Some("derived_from")
    else if k == SAME_AS then Some("same_as")
    else None
  }

  // ----- arity: what the evaluator indexes must be there -----

  predicate LeafArity(op: Op) {
    IsGraphKind(op.kind) ==> |op.children| >= 1 && LeafArity(op.children[0])
  }

  predicate Arity(op: Op) {
    match op.kind
    case AND => forall c :: c in op.children ==> Arity(c)
    case OR => forall c :: c in op.children ==> Arity(c)
    case NOT => |op.children| >= 1 && Arity(op.children[0])
    case _ => LeafArity(op)
  }

  // ----- walks -----

  ghost predicate IsWalk(g: Snapshot, w: seq<string>, kind: Option<string>) {
    |w| > 0 && forall i :: 0 <= i < |w| - 1 ==> HasEdge(g, w[i], w[i + 1], kind)
  }

  /** A walk of at most depth edges leads from start to an entity where inner holds. */
  ghost predicate Reaches(g: Snapshot, inner: Op, start: string, depth: int, kind: Option<string>)
    requires LeafArity(inner)
    decreases inner, 3
  {
    exists w :: ReachesBy(g, inner, start, depth, kind, w)
  }

  ghost predicate ReachesBy(g: Snapshot, inner: Op, start: string, depth: int, kind: Option<string>, w: seq<string>)
    requires LeafArity(inner)
    decreases inner, 2
  {
    && IsWalk(g, w, kind) && w[0] == start && |w| - 1 <= AtLeastZero(depth)
    && HoldsAt(g, inner, w[|w| - 1])
  }

  /** Hop by hop: inner holds here, or a neighbor has a path with one hop less. */
  ghost predicate PathTo(g: Snapshot, inner: Op, start: string, hops: nat)
    requires LeafArity(inner)
    decreases inner, 2, hops
  {
    HoldsAt(g, inner, start)
    || (hops > 0 && exists next :: HasEdge(g, start, next, None) && PathTo(g, inner, next, hops - 1))
  }

  /** The leaf predicate inner holds at the entity id. */
  ghost predicate HoldsAt(g: Snapshot, inner: Op, id: string)
    requires LeafArity(inner)
    decreases inner, 1
  {
    id in g.ents && LeafResult(g, inner, g.ents[id]).matched
  }

  /** _leaf. Boolean operators are unknown here, also as the operand of a graph operator. */
  ghost function LeafResult(g: Snapshot, op: Op, e: Entity): Result
    requires LeafArity(op)
    decreases op, 0
  {
    if op.kind == PATH then
      GraphResult(op, PathTo(g, op.children[0], e.id, AtLeastZero(op.depth)))
    else if IsGraphKind(op.kind) then
      GraphResult(op, Reaches(g, op.children[0], e.id, op.depth, EdgeKindOf(op.kind)))
    else LocalResult(op, e)
  }

  function GraphResult(op: Op, found: bool): Result {
    Verdict(found, MatchWithin(op.kind, op.depth), NoMatchWithin(op.kind, op.depth), KindName(op.kind))
  }

  /** The predicates that look at one entity only. */
  function LocalResult(op: Op, e: Entity): Result {
    match op.kind
    case TYPE => Verdict(Some(e.etype) == op.arg, TypeIs(op.arg), TypeDiffers(e.etype, op.arg), "TYPE")
    case SOURCE => Verdict(Some(e.source) == op.arg, SourceIs(op.arg), SourceDiffers(e.source, op.arg), "SOURCE")
    case MATCH => Verdict(GivenArg(op) && Contains(e.text, Lower(op.arg.value)), TextContains(op.arg), TextLacks(op.arg), "MATCH")
    case SCORE => Verdict(e.score >= (if op.threshold.Some? then op.threshold.value else 0.0),
                          ScoreAtLeast(op.threshold), ScoreBelow(e.score, op.threshold), "SCORE")
    case TIME => if op.lo.Some? && e.timestamp < op.lo.value then Failing(TooEarly(e.timestamp, op.lo.value), "TIME")
                 else if op.hi.Some? && e.timestamp > op.hi.value then Failing(TooLate(e.timestamp, op.hi.value), "TIME")
                 else Holding(WithinTimeRange, "TIME")
    case NEAR => Verdict(GivenArg(op) && Lower(op.arg.value) in e.neighborTerms, IsNear(op.arg), NotNear(op.arg), "NEAR")
    case _ => Failing(UnknownOperator(op.kind), "UNKNOWN")
  }

  // ----- boolean operators -----

  predicate AllMatched(rs: seq<Result>) {
    forall i :: 0 <= i < |rs| ==> rs[i].matched
  }

  predicate AnyMatched(rs: seq<Result>) {
    exists i :: 0 <= i < |rs| && rs[i].matched
  }

  /** The reasons of the operands that failed, in order. */
  function FailReasons(rs: seq<Result>): seq<Reason> {
    if rs == [] then []
    else FailReasons(rs[..|rs| - 1]) + (if rs[|rs| - 1].matched then [] else rs[|rs| - 1].reasons)
  }

  function AllPredicates(rs: seq<Result>): seq<string> {
    if rs == [] then [] else AllPredicates(rs[..|rs| - 1]) + rs[|rs| - 1].predicates
  }

  function Conjunction(rs: seq<Result>): Result {
    Result(AllMatched(rs), FailReasons(rs) + (if AllMatched(rs) then [AllConjuncts] else []), AllPredicates(rs))
  }

  function Disjunction(rs: seq<Result>): Result {
    Result(AnyMatched(rs), if AnyMatched(rs) then [SomeDisjunct] else [NoDisjunct(FailReasons(rs))], AllPredicates(rs))
  }

  function Negation(r: Result): Result {
    Result(!r.matched, if r.matched then [NegationFails] else [NegationHolds], r.predicates)
  }

  /** _eval: the result of op at entity e. */
  ghost function Eval(g: Snapshot, op: Op, e: Entity): Result
    requires Arity(op)
    decreases op, 1
  {
    match op.kind
    case AND => Conjunction(EvalAll(g, op.children, e))
    case OR => Disjunction(EvalAll(g, op.children, e))
    case NOT => Negation(Eval(g, op.children[0], e))
    case _ => LeafResult(g, op, e)
  }

  ghost function EvalAll(g: Snapshot, ops: seq<Op>, e: Entity): (rs: seq<Result>)
    requires forall c :: c in ops ==> Arity(c)
    ensures |rs| == |ops|
    decreases ops, 0
  {
    if ops == [] then [] else EvalAll(g, ops[..|ops| - 1], e) + [Eval(g, ops[|ops| - 1], e)]
  }

  // ----- the plan -----

  /** A plan line: the operator, its argument when printed, and the nesting depth. */
  datatype PlanStep = PlanStep(kind: OpKind, arg: Option<Option<string>>, depth: nat)

  function StepOf(op: Op, depth: nat): PlanStep {
    PlanStep(op.kind, if op.kind in {AND, OR, NOT} then None else Some(op.arg), depth)
  }

  /** The lines one evaluation appends: no operand is ever skipped. */
  function Plan(op: Op, depth: nat): seq<PlanStep>
    decreases op, 1
  {
    [StepOf(op, depth)] +
    match op.kind
    case AND => PlanAll(op.children, depth + 1)
    case OR => PlanAll(op.children, depth + 1)
    case NOT => if op.children == [] then [] else Plan(op.children[0], depth + 1)
    case _ => []
  }

  function PlanAll(ops: seq<Op>, depth: nat): seq<PlanStep>
    decreases ops, 0
  {
    if ops == [] then [] else PlanAll(ops[..|ops| - 1], depth) + Plan(ops[|ops| - 1], depth)
  }

  // ----- laws -----

  lemma StepThenWalk(g: Snapshot, inner: Op, start: string, next: string, hops: nat)
    requires LeafArity(inner) && hops > 0 && HasEdge(g, start, next, None) && Reaches(g, inner, next, hops - 1, None)
    ensures Reaches(g, inner, start, hops, None)
  {
    var w :| ReachesBy(g, inner, next, hops - 1, None, w);
    hide HasEdge, HoldsAt;
    var longer := [start] + w;
    forall i | 0 <= i < |longer| - 1 ensures HasEdge(g, longer[i], longer[i + 1], None) {
      if i > 0 { assert HasEdge(g, w[i - 1], w[i - 1 + 1], None); }
    }
    assert ReachesBy(g, inner, start, hops, None, longer);
  }

  lemma WalkAfterStep(g: Snapshot, inner: Op, start: string, hops: nat, w: seq<string>)
    requires LeafArity(inner) && ReachesBy(g, inner, start, hops, None, w) && |w| > 1
    ensures hops > 0 && HasEdge(g, start, w[1], None) && Reaches(g, inner, w[1], hops - 1, None)
  {
    hide HasEdge, HoldsAt;
    var rest := w[1..];
    assert HasEdge(g, w[0], w[0 + 1], None);
    forall i | 0 <= i < |rest| - 1 ensures HasEdge(g, rest[i], rest[i + 1], None) {
      assert HasEdge(g, w[i + 1], w[i + 1 + 1], None);
    }
    assert ReachesBy(g, inner, w[1], hops - 1, None, rest);
  }

  /** The hop-by-hop reading of a path and the walk reading agree. */
  lemma {:induction false} PathIffReaches(g: Snapshot, inner: Op, start: string, hops: nat)
    requires LeafArity(inner)
    ensures PathTo(g, inner, start, hops) <==> Reaches(g, inner, start, hops, None)
    decreases hops
  {
    hide HasEdge, HoldsAt;
    if HoldsAt(g, inner, start) {
      assert ReachesBy(g, inner, start, hops, None, [start]);
    }
    if next :| hops > 0 && HasEdge(g, start, next, None) && PathTo(g, inner, next, hops - 1) {
      PathIffReaches(g, inner, next, hops - 1);
      StepThenWalk(g, inner, start, next, hops);
    }
    if Reaches(g, inner, start, hops, None) {
      var w := ReachingWalk(g, inner, start, hops, None);
      if |w| > 1 {
        WalkAfterStep(g, inner, start, hops, w);
        PathIffReaches(g, inner, w[1], hops - 1);
      }
    }
  }

  /** Every graph operator, PATH included, in terms of walks. */
  lemma GraphLeaf(g: Snapshot, op: Op, e: Entity)
    requires LeafArity(op) && IsGraphKind(op.kind)
    ensures LeafResult(g, op, e) == GraphResult(op, Reaches(g, op.children[0], e.id, op.depth, EdgeKindOf(op.kind)))
  {
    if op.kind == PATH {
      PathIffReaches(g, op.children[0], e.id, AtLeastZero(op.depth));
      DepthCutOff(g, op.children[0], e.id, op.depth, None);
    }
  }

  lemma DepthCutOff(g: Snapshot, inner: Op, start: string, depth: int, kind: Option<string>)
    requires LeafArity(inner)
    ensures Reaches(g, inner, start, AtLeastZero(depth), kind) <==> Reaches(g, inner, start, depth, kind)
  {
    hide HoldsAt, IsWalk;
    forall w ensures ReachesBy(g, inner, start, AtLeastZero(depth), kind, w) <==> ReachesBy(g, inner, start, depth, kind, w) {}
  }

  /** PATH at depth d finds exactly what CONNECTED_TO at depth d finds. */
  lemma PathIsConnected(g: Snapshot, path: Op, conn: Op, e: Entity)
    requires path.kind == PATH && conn.kind == CONNECTED_TO
    requires path.children == conn.children && path.depth == conn.depth && LeafArity(path)
    ensures LeafArity(conn) && LeafResult(g, path, e).matched == LeafResult(g, conn, e).matched
  {
    GraphLeaf(g, path, e);
  }

  /** A boolean operand under a graph operator never holds, at any depth. */
  lemma BooleanOperandNeverFound(g: Snapshot, op: Op, e: Entity)
    requires IsGraphKind(op.kind) && |op.children| >= 1 && op.children[0].kind in {AND, OR, NOT}
    ensures LeafArity(op) && !LeafResult(g, op, e).matched
  {
    var inner := op.children[0];
    GraphLeaf(g, op, e);
    forall id ensures !HoldsAt(g, inner, id) {
      if id in g.ents { assert LeafResult(g, inner, g.ents[id]) == LocalResult(inner, g.ents[id]); }
    }
    hide HoldsAt, LeafResult;
    forall w ensures !ReachesBy(g, inner, e.id, op.depth, EdgeKindOf(op.kind), w) {
      assert |w| > 0 ==> !HoldsAt(g, inner, w[|w| - 1]);
    }
    assert !Reaches(g, inner, e.id, op.depth, EdgeKindOf(op.kind));
  }

  lemma ReachingWalk(g: Snapshot, inner: Op, start: string, depth: int, kind: Option<string>) returns (w: seq<string>)
    requires LeafArity(inner) && Reaches(g, inner, start, depth, kind)
    ensures ReachesBy(g, inner, start, depth, kind, w)
  {
    w :| ReachesBy(g, inner, start, depth, kind, w);
  }

  /** Searching deeper never loses a match. */
  lemma ReachesMonotone(g: Snapshot, inner: Op, start: string, d: int, d': int, kind: Option<string>)
    requires LeafArity(inner) && d <= d' && Reaches(g, inner, start, d, kind)
    ensures Reaches(g, inner, start, d', kind)
  {
    var w :| ReachesBy(g, inner, start, d, kind, w);
    assert ReachesBy(g, inner, start, d', kind, w);
  }

  /** Reaching depends on the edges and on where the operand holds, nothing else. */
  lemma ReachesTransfer(g: Snapshot, h: Snapshot, p: Op, q: Op, start: string, depth: int, kind: Option<string>)
    requires LeafArity(p) && LeafArity(q)
    requires forall w :: IsWalk(g, w, kind) <==> IsWalk(h, w, kind)
    requires forall id :: HoldsAt(g, p, id) <==> HoldsAt(h, q, id)
    ensures Reaches(g, p, start, depth, kind) <==> Reaches(h, q, start, depth, kind)
  {
    forall w ensures ReachesBy(g, p, start, depth, kind, w) <==> ReachesBy(h, q, start, depth, kind, w) {
      assert IsWalk(g, w, kind) <==> IsWalk(h, w, kind);
    }
  }

  /** Two graphs with the same entities and the same edges. */
  ghost predicate SameGraph(g: Snapshot, h: Snapshot) {
    && g.ents == h.ents
    && forall a, b, k :: HasEdge(g, a, b, k) <==> HasEdge(h, a, b, k)
  }

  lemma {:induction false} LeafSameGraph(g: Snapshot, h: Snapshot, op: Op, e: Entity)
    requires SameGraph(g, h) && LeafArity(op)
    ensures LeafResult(g, op, e) == LeafResult(h, op, e)
    decreases op
  {
    if IsGraphKind(op.kind) {
      var inner, kind := op.children[0], EdgeKindOf(op.kind);
      forall id ensures HoldsAt(g, inner, id) <==> HoldsAt(h, inner, id) {
        if id in g.ents { LeafSameGraph(g, h, inner, g.ents[id]); }
      }
      forall w ensures IsWalk(g, w, kind) <==> IsWalk(h, w, kind) {}
      ReachesTransfer(g, h, inner, inner, e.id, op.depth, kind);
      GraphLeaf(g, op, e);
      GraphLeaf(h, op, e);
    }
  }

  /** Evaluation depends on the entities and edges only, not on how they are stored. */
  lemma {:induction false} EvalSameGraph(g: Snapshot, h: Snapshot, op: Op, e: Entity)
    requires SameGraph(g, h) && Arity(op)
    ensures Eval(g, op, e) == Eval(h, op, e)
    decreases op, 1
  {
    match op.kind
    case AND => EvalAllSameGraph(g, h, op.children, e);
    case OR => EvalAllSameGraph(g, h, op.children, e);
    case NOT => EvalSameGraph(g, h, op.children[0], e);
    case _ => LeafSameGraph(g, h, op, e);
  }

  lemma {:induction false} EvalAllSameGraph(g: Snapshot, h: Snapshot, ops: seq<Op>, e: Entity)
    requires SameGraph(g, h) && forall c :: c in ops ==> Arity(c)
    ensures EvalAll(g, ops, e) == EvalAll(h, ops, e)
    decreases ops, 0
  {
    if ops == [] {
    } else {
      EvalAllSameGraph(g, h, ops[..|ops| - 1], e);
      EvalSameGraph(g, h, ops[|ops| - 1], e);
    }
  }

  // ----- the dictionary round trip keeps the meaning -----

  lemma {:induction false} ResetLeaf(g: Snapshot, op: Op, e: Entity)
    requires LeafArity(op)
    ensures LeafArity(DepthsReset(op)) && LeafResult(g, DepthsReset(op), e) == LeafResult(g, op, e)
    decreases op
  {
    if IsGraphKind(op.kind) {
      var inner := op.children[0];
      ResetAt(op.children, 0);
      ResetLeaf(g, inner, e);
      forall id ensures HoldsAt(g, DepthsReset(inner), id) <==> HoldsAt(g, inner, id) {
        if id in g.ents { ResetLeaf(g, inner, g.ents[id]); }
      }
      ReachesTransfer(g, g, inner, DepthsReset(inner), e.id, op.depth, EdgeKindOf(op.kind));
      GraphLeaf(g, op, e);
      GraphLeaf(g, DepthsReset(op), e);
    }
  }

  lemma {:induction false} ResetArity(op: Op)
    requires Arity(op)
    ensures Arity(DepthsReset(op))
    decreases op
  {
    forall i | 0 <= i < |op.children| ensures DepthsResetAll(op.children)[i] == DepthsReset(op.children[i]) {
      ResetAt(op.children, i);
    }
    if op.kind in {AND, OR, NOT} {
      forall i | 0 <= i < |op.children| && Arity(op.children[i]) ensures Arity(DepthsReset(op.children[i])) {
        ResetArity(op.children[i]);
      }
    } else {
      ResetLeaf(EMPTY, op, Entity("", "", "", "", 0.0, 0.0, {}));
    }
  }

  lemma {:induction false} ResetEval(g: Snapshot, op: Op, e: Entity)
    requires Arity(op)
    ensures Arity(DepthsReset(op)) && Eval(g, DepthsReset(op), e) == Eval(g, op, e)
    decreases op, 1
  {
    ResetArity(op);
    match op.kind
    case AND => ResetEvalAll(g, op.children, e);
    case OR => ResetEvalAll(g, op.children, e);
    case NOT => ResetAt(op.children, 0); ResetEval(g, op.children[0], e);
    case _ => ResetLeaf(g, op, e);
  }

  lemma ResetPrefix(ops: seq<Op>, n: nat)
    requires n <= |ops|
    ensures DepthsResetAll(ops)[..n] == DepthsResetAll(ops[..n])
  {
    forall i | 0 <= i < n ensures DepthsResetAll(ops)[i] == DepthsResetAll(ops[..n])[i] {
      ResetAt(ops, i);
      ResetAt(ops[..n], i);
    }
  }

  lemma SplitLast<T>(s: seq<T>)
    requires s != []
    ensures s == s[..|s| - 1] + [s[|s| - 1]]
  {}

  lemma ResetLast(ops: seq<Op>)
    requires ops != []
    ensures DepthsResetAll(ops) == DepthsResetAll(ops[..|ops| - 1]) + [DepthsReset(ops[|ops| - 1])]
  {
    hide DepthsReset, DepthsResetAll;
    SplitLast(DepthsResetAll(ops));
    ResetPrefix(ops, |ops| - 1);
    ResetAt(ops, |ops| - 1);
  }

  lemma EvalAllLast(g: Snapshot, before: seq<Op>, last: Op, e: Entity)
    requires (forall c :: c in before ==> Arity(c)) && Arity(last)
    ensures forall c :: c in before + [last] ==> Arity(c)
    ensures EvalAll(g, before + [last], e) == EvalAll(g, before, e) + [Eval(g, last, e)]
  {
    hide Eval, Arity;
    assert (before + [last])[..|before|] == before;
  }

  lemma {:induction false} ResetEvalAll(g: Snapshot, ops: seq<Op>, e: Entity)
    requires forall c :: c in ops ==> Arity(c)
    ensures forall c :: c in DepthsResetAll(ops) ==> Arity(c)
    ensures EvalAll(g, DepthsResetAll(ops), e) == EvalAll(g, ops, e)
    decreases ops, 0
  {
    if ops == [] {
    } else {
      var n := |ops| - 1;
      hide Eval, EvalAll, Arity, DepthsReset, DepthsResetAll;
      ResetLast(ops);
      ResetEvalAll(g, ops[..n], e);
      ResetEval(g, ops[n], e);
      EvalAllLast(g, ops[..n], ops[n], e);
      EvalAllLast(g, DepthsResetAll(ops[..n]), DepthsReset(ops[n]), e);
      assert ops == ops[..n] + [ops[n]];
    }
  }

  lemma {:induction false} ResetPlan(op: Op, depth: nat)
    ensures Plan(DepthsReset(op), depth) == Plan(op, depth)
    decreases op, 1
  {
    match op.kind
    case AND => ResetPlanAll(op.children, depth + 1);
    case OR => ResetPlanAll(op.children, depth + 1);
    case NOT =>
      if op.children != [] {
        ResetAt(op.children, 0);
        ResetPlan(op.children[0], depth + 1);
      }
    case _ =>
  }

  lemma {:induction false} ResetPlanAll(ops: seq<Op>, depth: nat)
    ensures PlanAll(DepthsResetAll(ops), depth) == PlanAll(ops, depth)
    decreases ops, 0
  {
    if ops == [] {
    } else {
      var n := |ops| - 1;
      ResetPrefix(ops, n);
      ResetAt(ops, n);
      ResetPlanAll(ops[..n], depth);
      ResetPlan(ops[n], depth);
    }
  }
}
