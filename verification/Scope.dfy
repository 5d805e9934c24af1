/** Signed query scopes of src/query/scope.py: the capability walk, the size limit and the
    credential gate. */
module Scope {
  import opened Basics
  import opened Algebra
  import opened Semantics

  /** A scope as signed: every field its signature covers, and the signature. */
  datatype QueryScope = QueryScope(
    graphName: string, agentId: string, capabilities: seq<string>, maxResults: Option<int>,
    notBefore: int, notAfter: int, nonce: int, operatorId: string, pubkeyPem: string, bodyHash: string, sig: string)

  /** The names of all operators occurring anywhere in the tree. */
  function KindsIn(op: Op): set<string> {
    {KindName(op.kind)} + KindsInAll(op.children)
  }

  function KindsInAll(ops: seq<Op>): set<string> {
    if ops == [] then {} else KindsInAll(ops[..|ops| - 1]) + KindsIn(ops[|ops| - 1])
  }

  function NodeCount(op: Op): nat {
    1 + NodeCountAll(op.children)
  }

  function NodeCountAll(ops: seq<Op>): nat {
    if ops == [] then 0 else NodeCountAll(ops[..|ops| - 1]) + NodeCount(ops[|ops| - 1])
  }

  lemma KindsSnoc(ops: seq<Op>, op: Op)
    ensures KindsInAll(ops + [op]) == KindsInAll(ops) + KindsIn(op)
    ensures NodeCountAll(ops + [op]) == NodeCountAll(ops) + NodeCount(op)
  {
    assert (ops + [op])[..|ops|] == ops;
  }

  lemma {:induction false} KindsConcat(a: seq<Op>, b: seq<Op>)
    ensures KindsInAll(a + b) == KindsInAll(a) + KindsInAll(b)
    ensures NodeCountAll(a + b) == NodeCountAll(a) + NodeCountAll(b)
    decreases b
  {
    if b == [] {
      assert a + b == a;
    } else {
      var n := |b| - 1;
      KindsConcat(a, b[..n]);
      assert a + b == (a + b[..n]) + [b[n]];
      KindsSnoc(a + b[..n], b[n]);
    }
  }

  /** _disallowed_kinds: a stack walk that finds every kind of the tree outside the allowed set. */
  method DisallowedKinds(op: Op, allowed: set<string>) returns (found: set<string>)
    ensures found == KindsIn(op) - allowed
  {
    found := {};
    var stack := [op];
    KindsSnoc([], op);
    assert [] + [op] == [op];
    while stack != []
      invariant found + (KindsInAll(stack) - allowed) == KindsIn(op) - allowed
      decreases NodeCountAll(stack)
    {
      var rest, node := stack[..|stack| - 1], stack[|stack| - 1];
      assert NodeCountAll(stack) == NodeCountAll(rest) + NodeCount(node);
      if KindName(node.kind) !in allowed {
        found := found + {KindName(node.kind)};
      }
      KindsConcat(rest, node.children);
      stack := rest + node.children;
    }
  }

  /** enforce_constraints accepts: only listed kinds under a non-empty capability list, and
      no more results than the limit. */
  predicate Allows(scope: QueryScope, op: Op, included: nat, excluded: nat) {
    && (scope.capabilities != [] ==> KindsIn(op) <= (set c | c in scope.capabilities))
    && (scope.maxResults.Some? ==> included + excluded <= scope.maxResults.value)
  }

  method EnforceConstraints(op: Op, scope: QueryScope, included: nat, excluded: nat) returns (ok: bool)
    ensures ok == Allows(scope, op, included, excluded)
  {
    if scope.capabilities != [] {
      var allowed := set c | c in scope.capabilities;
      var bad := DisallowedKinds(op, allowed);
      if bad != {} {
        assert exists k :: k in bad by { NonEmptyHasElement(bad); }
        return false;
      }
      assert KindsIn(op) <= allowed by { NothingOutside(KindsIn(op), allowed); }
    }
    if scope.maxResults.Some? && included + excluded > scope.maxResults.value {
      return false;
    }
    return true;
  }

  lemma NonEmptyHasElement<T>(s: set<T>)
    requires s != {}
    ensures exists x :: x in s
  {}

  lemma NothingOutside<T>(s: set<T>, t: set<T>)
    requires s - t == {}
    ensures s <= t
  {
    forall x | x in s ensures x in t {
      assert x !in s - t;
    }
  }

  // ----- what the walk finds -----

  /** node stands in the tree of op, down this path of operands. */
  predicate NodeAt(op: Op, path: seq<nat>, node: Op)
    decreases |path|
  {
    if path == [] then node == op
    else path[0] < |op.children| && NodeAt(op.children[path[0]], path[1..], node)
  }

  lemma {:induction false} NodeIsFound(op: Op, path: seq<nat>, node: Op)
    requires NodeAt(op, path, node)
    ensures KindName(node.kind) in KindsIn(op)
    decreases |path|
  {
    if path != [] {
      NodeIsFound(op.children[path[0]], path[1..], node);
      OperandIsFound(op.children, path[0], KindName(node.kind));
    }
  }

  lemma {:induction false} OperandIsFound(ops: seq<Op>, i: nat, name: string)
    requires i < |ops| && name in KindsIn(ops[i])
    ensures name in KindsInAll(ops)
  {
    hide KindsIn;
    if i < |ops| - 1 { OperandIsFound(ops[..|ops| - 1], i, name); }
  }

  lemma {:induction false} FoundIsNode(op: Op, name: string) returns (path: seq<nat>, node: Op)
    requires name in KindsIn(op)
    ensures NodeAt(op, path, node) && KindName(node.kind) == name
    decreases op, 1
  {
    if name == KindName(op.kind) {
      path, node := [], op;
    } else {
      var i, below;
      i, below, node := FoundIsOperand(op.children, name);
      path := [i] + below;
      assert path[1..] == below;
    }
  }

  lemma {:induction false} FoundIsOperand(ops: seq<Op>, name: string) returns (i: nat, path: seq<nat>, node: Op)
    requires name in KindsInAll(ops)
    ensures i < |ops| && NodeAt(ops[i], path, node) && KindName(node.kind) == name
    decreases ops, 0
  {
    var n := |ops| - 1;
    if name in KindsIn(ops[n]) {
      i := n;
      path, node := FoundIsNode(ops[n], name);
    } else {
      i, path, node := FoundIsOperand(ops[..n], name);
    }
  }

  /** The node at this path of the tree has this name. */
  predicate Named(op: Op, name: string, path: seq<nat>, node: Op) {
    NodeAt(op, path, node) && KindName(node.kind) == name
  }

  /** A name is among a query's kinds exactly when some node of its tree has it. */
  lemma KindsExactly(op: Op, name: string)
    ensures name in KindsIn(op) <==> exists path, node :: Named(op, name, path, node)
  {
    if name in KindsIn(op) {
      var path, node := FoundIsNode(op, name);
      assert Named(op, name, path, node);
    }
    if path, node :| Named(op, name, path, node) {
      NodeIsFound(op, path, node);
    }
  }

  /** A scope allows a query exactly when it lists no capability or lists the name of every node,
      and its limit, if it has one, is not exceeded. */
  lemma AllowsExactly(scope: QueryScope, op: Op, included: nat, excluded: nat)
    ensures Allows(scope, op, included, excluded)
       <==> ((scope.capabilities == [] || forall name, path, node :: Named(op, name, path, node) ==> name in scope.capabilities)
             && (scope.maxResults.None? || included + excluded <= scope.maxResults.value))
  {
    forall name ensures name in KindsIn(op) <==> exists path, node :: Named(op, name, path, node) {
      KindsExactly(op, name);
    }
    hide KindsIn, Named;
    var listed := set k | k in scope.capabilities;
    if KindsIn(op) <= listed {
      forall name, path, node | Named(op, name, path, node) ensures name in scope.capabilities {
        assert name in KindsIn(op);
      }
    } else {
      var name :| name in KindsIn(op) && name !in listed;
      var path, node :| Named(op, name, path, node);
    }
  }

  /** The names that capabilities are written with. */
  lemma NamesAsWritten(names: map<OpKind, string>)
    requires names == map[AND := "AND", OR := "OR", NOT := "NOT", TYPE := "TYPE", SOURCE := "SOURCE", MATCH := "MATCH",
                          CONNECTED_TO := "CONNECTED_TO", DERIVED_FROM := "DERIVED_FROM", SAME_AS := "SAME_AS",
                          NEAR := "NEAR", SCORE := "SCORE", TIME := "TIME", PATH := "PATH"]
    ensures forall k :: k in names && names[k] == KindName(k)
  {
    forall k: OpKind ensures k in names && names[k] == KindName(k) {
      match k
      case AND => case OR => case NOT => case TYPE => case SOURCE => case MATCH => case CONNECTED_TO =>
      case DERIVED_FROM => case SAME_AS => case NEAR => case SCORE => case TIME => case PATH =>
    }
  }
}
