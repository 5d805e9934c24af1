/** The query algebra of src/query/algebra.py and its dictionary form. */
module Algebra {
  import opened Basics

  datatype OpKind =
    | AND | OR | NOT | TYPE | SOURCE | MATCH | CONNECTED_TO | DERIVED_FROM | SAME_AS
    | NEAR | SCORE | TIME | PATH

  datatype Op = Op(kind: OpKind, arg: Option<string>, threshold: Option<real>,
                   lo: Option<real>, hi: Option<real>, depth: int, children: seq<Op>)

  /** A to_dict() dictionary. An absent key is None; "children" is absent when it would be empty. */
  datatype OpDict = OpDict(kind: OpKind, arg: Option<string>, threshold: Option<real>,
                           lo: Option<real>, hi: Option<real>, depth: Option<int>, children: seq<OpDict>)

  /** The operators whose depth is written to the dictionary. */
  predicate CarriesDepth(k: OpKind) {
    k in {CONNECTED_TO, DERIVED_FROM, SAME_AS, NEAR, PATH}
  }

  function ToDict(op: Op): OpDict {
    OpDict(op.kind, op.arg, op.threshold, op.lo, op.hi,
           if CarriesDepth(op.kind) then Some(op.depth) else None,
           ToDicts(op.children))
  }

  function ToDicts(ops: seq<Op>): seq<OpDict> {
    if ops == [] then [] else [ToDict(ops[0])] + ToDicts(ops[1..])
  }

  function FromDict(d: OpDict): Op {
    Op(d.kind, d.arg, d.threshold, d.lo, d.hi,
       if d.depth.Some? then d.depth.value else 1,
       FromDicts(d.children))
  }

  function FromDicts(ds: seq<OpDict>): seq<Op> {
    if ds == [] then [] else [FromDict(ds[0])] + FromDicts(ds[1..])
  }

  /** op with the depth of every operator that does not carry one reset to 1. */
  function DepthsReset(op: Op): Op {
    op.(depth := if CarriesDepth(op.kind) then op.depth else 1, children := DepthsResetAll(op.children))
  }

  function DepthsResetAll(ops: seq<Op>): (r: seq<Op>)
    ensures |r| == |ops|
  {
    if ops == [] then [] else [DepthsReset(ops[0])] + DepthsResetAll(ops[1..])
  }

  lemma {:induction false} ResetAt(ops: seq<Op>, i: nat)
    requires i < |ops|
    ensures DepthsResetAll(ops)[i] == DepthsReset(ops[i])
  {
    if i != 0 { ResetAt(ops[1..], i - 1); }
  }

  /** Every operator that does not carry a depth has the default depth. */
  predicate DefaultDepths(op: Op) {
    && (!CarriesDepth(op.kind) ==> op.depth == 1)
    && forall c :: c in op.children ==> DefaultDepths(c)
  }

  lemma {:induction false} DictRoundTrip(op: Op)
    ensures FromDict(ToDict(op)) == DepthsReset(op)
    decreases op, 1
  {
    DictsRoundTrip(op.children);
  }

  lemma {:induction false} DictsRoundTrip(ops: seq<Op>)
    ensures FromDicts(ToDicts(ops)) == DepthsResetAll(ops) && |ToDicts(ops)| == |ops|
    decreases ops, 0
  {
    if ops == [] {
    } else {
      DictRoundTrip(ops[0]);
      DictsRoundTrip(ops[1..]);
    }
  }

  /** The round trip is the identity exactly when the depths it drops are the default. */
  lemma {:induction false} DictRoundTripExact(op: Op)
    ensures FromDict(ToDict(op)) == op <==> DefaultDepths(op)
    decreases op
  {
    DictRoundTrip(op);
    forall i | 0 <= i < |op.children|
      ensures DepthsReset(op.children[i]) == op.children[i] <==> DefaultDepths(op.children[i])
      ensures DepthsResetAll(op.children)[i] == DepthsReset(op.children[i])
    {
      ResetAt(op.children, i);
      DictRoundTripExact(op.children[i]);
      DictRoundTrip(op.children[i]);
    }
    if DepthsResetAll(op.children) == op.children {
      forall c | c in op.children ensures DefaultDepths(c) {
        var i :| 0 <= i < |op.children| && op.children[i] == c;
      }
    }
    if DefaultDepths(op) {
      assert DepthsResetAll(op.children) == op.children;
    }
  }

  /** At every node the round trip keeps all but the depth, and keeps the depth of the graph
      operators and NEAR; elsewhere it is 1. */
  lemma NodeRoundTrip(op: Op)
    ensures var back := FromDict(ToDict(op));
      && back.kind == op.kind && back.arg == op.arg && back.threshold == op.threshold && back.lo == op.lo && back.hi == op.hi
      && back.depth == (if op.kind in {CONNECTED_TO, DERIVED_FROM, SAME_AS, NEAR, PATH} then op.depth else 1)
      && |back.children| == |op.children|
      && forall i :: 0 <= i < |op.children| ==> back.children[i] == FromDict(ToDict(op.children[i]))
  {
    DictRoundTrip(op);
    forall i | 0 <= i < |op.children| ensures DepthsResetAll(op.children)[i] == FromDict(ToDict(op.children[i])) {
      ResetAt(op.children, i);
      DictRoundTrip(op.children[i]);
    }
  }
}
