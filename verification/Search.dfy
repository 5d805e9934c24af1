/** Bounded reachability: the level sets that the frontier search computes, and their
    agreement with walks. */
module Search {
  import opened Basics
  import opened Algebra
  import opened Graph
  import opened Semantics

  /** Ids one edge away from some id in s. */
  ghost function Successors(g: Snapshot, s: set<string>, kind: Option<string>): set<string> {
    set a, b | a in s && b in NeighborIds(g, a, kind) :: b
  }

  /** Ids at most n edges away from start. */
  ghost function Within(g: Snapshot, start: string, kind: Option<string>, n: nat): set<string> {
    if n == 0 then {start}
    else Within(g, start, kind, n - 1) + Successors(g, Within(g, start, kind, n - 1), kind)
  }

  lemma SuccessorEdge(g: Snapshot, s: set<string>, kind: Option<string>, b: string)
    ensures b in Successors(g, s, kind) <==> exists a :: a in s && HasEdge(g, a, b, kind)
  {
    forall a ensures b in NeighborIds(g, a, kind) <==> HasEdge(g, a, b, kind) {
      NeighborIdsAreEdges(g, a, b, kind);
    }
  }

  /** A walk of n edges stays within n. */
  lemma {:induction false} WalkStaysWithin(g: Snapshot, w: seq<string>, kind: Option<string>)
    requires IsWalk(g, w, kind)
    ensures w[|w| - 1] in Within(g, w[0], kind, |w| - 1)
  {
    if |w| == 1 {
    } else {
      var v := w[..|w| - 1];
      forall i | 0 <= i < |v| - 1 ensures HasEdge(g, v[i], v[i + 1], kind) {
        assert HasEdge(g, w[i], w[i + 1], kind);
      }
      WalkStaysWithin(g, v, kind);
      SuccessorEdge(g, Within(g, w[0], kind, |v| - 1), kind, w[|w| - 1]);
      assert HasEdge(g, w[|w| - 2], w[|w| - 2 + 1], kind);
    }
  }

  lemma {:induction false} WithinGrows(g: Snapshot, start: string, kind: Option<string>, m: nat, n: nat)
    requires m <= n
    ensures Within(g, start, kind, m) <= Within(g, start, kind, n)
    decreases n - m
  {
    if m < n { WithinGrows(g, start, kind, m + 1, n); }
  }

  lemma WalkSnoc(g: Snapshot, v: seq<string>, b: string, kind: Option<string>)
    requires IsWalk(g, v, kind) && HasEdge(g, v[|v| - 1], b, kind)
    ensures IsWalk(g, v + [b], kind)
  {
    hide HasEdge;
    var w := v + [b];
    forall i | 0 <= i < |w| - 1 ensures HasEdge(g, w[i], w[i + 1], kind) {
      if i < |v| - 1 { assert HasEdge(g, v[i], v[i + 1], kind); }
    }
  }

  lemma NoEdges(g: Snapshot, start: string, kind: Option<string>)
    ensures IsWalk(g, [start], kind) && Within(g, start, kind, 0) == {start}
  {}

  lemma LastStep(g: Snapshot, start: string, kind: Option<string>, n: nat, b: string) returns (a: string)
    requires n > 0 && b in Within(g, start, kind, n) && b !in Within(g, start, kind, n - 1)
    ensures a in Within(g, start, kind, n - 1) && HasEdge(g, a, b, kind)
  {
    var before := Within(g, start, kind, n - 1);
    assert b in Successors(g, before, kind);
    SuccessorEdge(g, before, kind, b);
    hide HasEdge, Successors, Within;
    a :| a in before && HasEdge(g, a, b, kind);
  }

  /** Everything within n is the end of a walk of at most n edges. */
  lemma {:induction false} WithinHasWalk(g: Snapshot, start: string, kind: Option<string>, n: nat, b: string)
    returns (w: seq<string>)
    requires b in Within(g, start, kind, n)
    ensures w != [] && IsWalk(g, w, kind) && w[0] == start && w[|w| - 1] == b && |w| - 1 <= n
  {
    hide IsWalk, Within, HasEdge;
    if n == 0 {
      NoEdges(g, start, kind);
      w := [start];
    } else if b in Within(g, start, kind, n - 1) {
      w := WithinHasWalk(g, start, kind, n - 1, b);
    } else {
      var a := LastStep(g, start, kind, n, b);
      var v := WithinHasWalk(g, start, kind, n - 1, a);
      w := v + [b];
      assert v != [];
      WalkSnoc(g, v, b, kind);
    }
  }

  /** The declarative search and the level sets agree. */
  lemma ReachesIffWithin(g: Snapshot, inner: Op, start: string, depth: int, kind: Option<string>)
    requires LeafArity(inner)
    ensures Reaches(g, inner, start, depth, kind)
      <==> exists b :: b in Within(g, start, kind, AtLeastZero(depth)) && HoldsAt(g, inner, b)
  {
    var n := AtLeastZero(depth);
    if Reaches(g, inner, start, depth, kind) {
      var w := ReachingWalk(g, inner, start, depth, kind);
      WalkStaysWithin(g, w, kind);
      WithinGrows(g, start, kind, |w| - 1, n);
    }
    if b :| b in Within(g, start, kind, n) && HoldsAt(g, inner, b) {
      var w := WithinHasWalk(g, start, kind, n, b);
      assert ReachesBy(g, inner, start, depth, kind, w);
    }
  }

  function Ids(es: seq<Entity>): set<string> {
    set i | 0 <= i < |es| :: es[i].id
  }

  lemma SuccessorsUnion(g: Snapshot, s: set<string>, t: set<string>, kind: Option<string>)
    ensures Successors(g, s + t, kind) == Successors(g, s, kind) + Successors(g, t, kind)
  {}

  lemma SuccessorsOne(g: Snapshot, a: string, kind: Option<string>)
    ensures Successors(g, {a}, kind) == SetOf(NeighborIds(g, a, kind))
  {}

  lemma SuccessorsNone(g: Snapshot, kind: Option<string>)
    ensures Successors(g, {}, kind) == {}
  {}
}
