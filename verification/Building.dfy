/** Building a knowledge graph command by command: which entities and edges a sequence of add
    and link calls leaves, and when two sequences leave the same graph. */
module Building {
  import opened Basics
  import opened Algebra
  import opened Graph
  import opened Semantics
  import opened Evidence

  datatype Command = Add(e: Entity) | Link(src: string, dst: string, kind: string)

  function Apply(g: Snapshot, c: Command): Snapshot {
    match c
    case Add(e) => Added(g, e)
    case Link(src, dst, kind) => Linked(g, src, dst, kind)
  }

  function Build(cs: seq<Command>): Snapshot {
    if cs == [] then EMPTY else Apply(Build(cs[..|cs| - 1]), cs[|cs| - 1])
  }

  lemma {:induction false} BuildCoherent(cs: seq<Command>)
    ensures Coherent(Build(cs))
  {
    if cs == [] {
    } else {
      var g := Build(cs[..|cs| - 1]);
      BuildCoherent(cs[..|cs| - 1]);
      match cs[|cs| - 1]
      case Add(e) => AddedCoherent(g, e);
      case Link(src, dst, kind) => LinkedCoherent(g, src, dst, kind);
    }
  }

  /** The entity was added, and no later add of its id replaced it. */
  ghost predicate Latest(cs: seq<Command>, e: Entity) {
    exists i :: 0 <= i < |cs| && cs[i] == Add(e) && forall j :: i < j < |cs| && cs[j].Add? ==> cs[j].e.id != e.id
  }

  ghost predicate AddedBefore(cs: seq<Command>, i: nat, id: string) {
    exists j :: 0 <= j < i && j < |cs| && cs[j].Add? && cs[j].e.id == id
  }

  /** The command at i is a link between a and b, in either direction, of the wanted kind, and
      both endpoints were added before it. */
  ghost predicate TakesEffect(cs: seq<Command>, i: nat, a: string, b: string, kind: Option<string>)
    requires i < |cs|
  {
    && cs[i].Link? && ((cs[i].src == a && cs[i].dst == b) || (cs[i].src == b && cs[i].dst == a))
    && (kind.None? || cs[i].kind == kind.value)
    && AddedBefore(cs, i, a) && AddedBefore(cs, i, b)
  }

  ghost predicate Effective(cs: seq<Command>, a: string, b: string, kind: Option<string>) {
    exists i :: 0 <= i < |cs| && TakesEffect(cs, i, a, b, kind)
  }

  lemma LatestSnoc(cs: seq<Command>, c: Command, e: Entity)
    ensures Latest(cs + [c], e) <==> c == Add(e) || (Latest(cs, e) && !(c.Add? && c.e.id == e.id))
  {
    var n, grown := |cs|, cs + [c];
    assert grown[n] == c && forall i :: 0 <= i < n ==> grown[i] == cs[i];
    if Latest(cs, e) && !(c.Add? && c.e.id == e.id) {
      var i :| 0 <= i < n && cs[i] == Add(e) && forall j :: i < j < n && cs[j].Add? ==> cs[j].e.id != e.id;
      assert grown[i] == Add(e);
    }
  }

  /** The entities of a built graph are exactly the latest added ones. */
  lemma {:induction false} BuildEntities(cs: seq<Command>, e: Entity)
    ensures e.id in Build(cs).ents && Build(cs).ents[e.id] == e <==> Latest(cs, e)
  {
    hide Latest;
    if cs == [] {
      NothingLatest(e);
    } else {
      var n := |cs| - 1;
      assert cs == cs[..n] + [cs[n]];
      BuildEntities(cs[..n], e);
      LatestSnoc(cs[..n], cs[n], e);
    }
  }

  lemma NothingLatest(e: Entity)
    ensures !Latest([], e)
  {}

  lemma {:induction false} BuildKeys(cs: seq<Command>, id: string)
    ensures id in Build(cs).ents <==> AddedBefore(cs, |cs|, id)
  {
    if cs == [] {
    } else {
      var n := |cs| - 1;
      var before := cs[..n];
      BuildKeys(before, id);
      if AddedBefore(before, n, id) {
        var j :| 0 <= j < n && before[j].Add? && before[j].e.id == id;
        assert cs[j] == before[j];
      }
      if AddedBefore(cs, |cs|, id) && !(cs[n].Add? && cs[n].e.id == id) {
        var j :| 0 <= j < n && cs[j].Add? && cs[j].e.id == id;
        assert before[j] == cs[j];
      }
    }
  }

  lemma AddedPrefix(cs: seq<Command>, n: nat, i: nat, id: string)
    requires i <= n <= |cs|
    ensures AddedBefore(cs[..n], i, id) <==> AddedBefore(cs, i, id)
  {
    if AddedBefore(cs, i, id) {
      var j :| 0 <= j < i && j < |cs| && cs[j].Add? && cs[j].e.id == id;
      assert cs[..n][j] == cs[j];
    }
    if AddedBefore(cs[..n], i, id) {
      var j :| 0 <= j < i && j < n && cs[..n][j].Add? && cs[..n][j].e.id == id;
      assert cs[..n][j] == cs[j];
    }
  }

  lemma EffectiveLast(cs: seq<Command>, a: string, b: string, kind: Option<string>)
    requires cs != []
    ensures Effective(cs, a, b, kind) <==> Effective(cs[..|cs| - 1], a, b, kind) || TakesEffect(cs, |cs| - 1, a, b, kind)
  {
    var n := |cs| - 1;
    forall i | 0 <= i < n ensures TakesEffect(cs[..n], i, a, b, kind) <==> TakesEffect(cs, i, a, b, kind) {
      AddedPrefix(cs, n, i, a);
      AddedPrefix(cs, n, i, b);
    }
  }

  lemma PushedEdge(g: Snapshot, at: string, e: Edge, a: string, b: string, kind: Option<string>)
    ensures HasEdge(g.(adj := Pushed(g.adj, at, e)), a, b, kind)
      <==> HasEdge(g, a, b, kind) || (a == at && b == e.dst && Wanted(e, kind))
  {
    var h := g.(adj := Pushed(g.adj, at, e));
    if at in g.adj {
      var n := |g.adj[at]|;
      assert h.adj[at] == g.adj[at] + [e] && h.adj[at][n] == e;
      forall i | 0 <= i < n ensures h.adj[at][i] == g.adj[at][i] {}
      if a == at && HasEdge(g, a, b, kind) {
        var i :| 0 <= i < n && g.adj[a][i].dst == b && Wanted(g.adj[a][i], kind);
        assert h.adj[a][i] == g.adj[a][i];
      }
    } else {
      assert h.adj[at] == [e] && h.adj[at][0] == e;
    }
  }

  lemma AddedEdge(g: Snapshot, e: Entity, a: string, b: string, kind: Option<string>)
    ensures HasEdge(Added(g, e), a, b, kind) <==> HasEdge(g, a, b, kind)
  {}

  lemma LinkedEdge(g: Snapshot, src: string, dst: string, k: string, a: string, b: string, kind: Option<string>)
    ensures HasEdge(Linked(g, src, dst, k), a, b, kind)
       <==> HasEdge(g, a, b, kind)
            || (src in g.ents && dst in g.ents && (kind.None? || k == kind.value)
                && ((a == src && b == dst) || (a == dst && b == src)))
  {
    if src in g.ents && dst in g.ents {
      hide HasEdge;
      var g1 := g.(adj := Pushed(g.adj, src, Edge(src, dst, k)));
      PushedEdge(g, src, Edge(src, dst, k), a, b, kind);
      PushedEdge(g1, dst, Edge(dst, src, k), a, b, kind);
      assert Linked(g, src, dst, k) == g1.(adj := Pushed(g1.adj, dst, Edge(dst, src, k)));
    }
  }

  /** The edges of a built graph are exactly the links that took effect, in both directions. */
  lemma {:induction false} BuildEdges(cs: seq<Command>, a: string, b: string, kind: Option<string>)
    ensures HasEdge(Build(cs), a, b, kind) <==> Effective(cs, a, b, kind)
  {
    hide HasEdge, Linked, Added, AddedBefore, Effective;
    if cs == [] {
      NothingBuilt(a, b, kind);
    } else {
      var n := |cs| - 1;
      var before, c := cs[..n], cs[n];
      BuildEdges(before, a, b, kind);
      EffectiveLast(cs, a, b, kind);
      match c
      case Add(e) => AddedEdge(Build(before), e, a, b, kind);
      case Link(src, dst, k) =>
        LinkedEdge(Build(before), src, dst, k, a, b, kind);
        BuildKeys(before, src);
        BuildKeys(before, dst);
        AddedPrefix(cs, n, n, src);
        AddedPrefix(cs, n, n, dst);
    }
  }

  lemma NothingBuilt(a: string, b: string, kind: Option<string>)
    ensures !HasEdge(EMPTY, a, b, kind) && !Effective([], a, b, kind)
  {}

  // ----- two sequences of commands -----

  ghost predicate SameAdds(cs: seq<Command>, ds: seq<Command>) {
    forall e :: Latest(cs, e) <==> Latest(ds, e)
  }

  ghost predicate SameLinks(cs: seq<Command>, ds: seq<Command>) {
    forall a, b, k :: Effective(cs, a, b, k) <==> Effective(ds, a, b, k)
  }

  ghost predicate Holds(g: Snapshot, e: Entity) {
    e.id in g.ents && g.ents[e.id] == e
  }

  lemma HoldsDecides(g: Snapshot, h: Snapshot)
    requires Coherent(g) && Coherent(h)
    ensures g.ents == h.ents <==> forall e :: Holds(g, e) <==> Holds(h, e)
  {
    if forall e :: Holds(g, e) <==> Holds(h, e) {
      forall id
        ensures id in g.ents <==> id in h.ents
        ensures id in g.ents ==> g.ents[id] == h.ents[id]
      {
        if id in g.ents { assert Holds(g, g.ents[id]); }
        if id in h.ents { assert Holds(h, h.ents[id]); }
      }
    }
  }

  lemma SameEntities(cs: seq<Command>, ds: seq<Command>)
    ensures Build(cs).ents == Build(ds).ents <==> SameAdds(cs, ds)
  {
    BuildCoherent(cs);
    BuildCoherent(ds);
    forall e ensures Holds(Build(cs), e) <==> Latest(cs, e) { BuildEntities(cs, e); }
    forall e ensures Holds(Build(ds), e) <==> Latest(ds, e) { BuildEntities(ds, e); }
    hide Build, Latest, Holds, Coherent;
    HoldsDecides(Build(cs), Build(ds));
    if forall e :: Holds(Build(cs), e) <==> Holds(Build(ds), e) {
      forall e ensures Latest(cs, e) <==> Latest(ds, e) {
        assert Holds(Build(cs), e) <==> Holds(Build(ds), e);
      }
    }
    if SameAdds(cs, ds) {
      forall e ensures Holds(Build(cs), e) <==> Holds(Build(ds), e) {
        assert Latest(cs, e) <==> Latest(ds, e);
      }
    }
  }

  /** Two sequences of commands build the same graph exactly when they leave the same latest
      entities and the same links took effect. */
  lemma SameGraphExactly(cs: seq<Command>, ds: seq<Command>)
    ensures SameGraph(Build(cs), Build(ds)) <==> SameAdds(cs, ds) && SameLinks(cs, ds)
  {
    SameEntities(cs, ds);
    forall a, b, k
      ensures HasEdge(Build(cs), a, b, k) <==> Effective(cs, a, b, k)
      ensures HasEdge(Build(ds), a, b, k) <==> Effective(ds, a, b, k)
    {
      BuildEdges(cs, a, b, k);
      BuildEdges(ds, a, b, k);
    }
    hide Build, SameAdds, Effective, HasEdge;
    if SameGraph(Build(cs), Build(ds)) {
      forall a, b, k ensures Effective(cs, a, b, k) <==> Effective(ds, a, b, k) {
        assert HasEdge(Build(cs), a, b, k) <==> HasEdge(Build(ds), a, b, k);
      }
    }
    if SameAdds(cs, ds) && SameLinks(cs, ds) {
      forall a, b, k ensures HasEdge(Build(cs), a, b, k) <==> HasEdge(Build(ds), a, b, k) {
        assert Effective(cs, a, b, k) <==> Effective(ds, a, b, k);
      }
    }
  }

  /** No id is added twice. */
  ghost predicate AddedOnce(cs: seq<Command>) {
    forall i, j :: 0 <= i < j < |cs| && cs[i].Add? && cs[j].Add? ==> cs[i].e.id != cs[j].e.id
  }

  lemma LatestOfOnce(cs: seq<Command>, e: Entity)
    requires AddedOnce(cs)
    ensures Latest(cs, e) <==> Add(e) in cs
  {
    if Add(e) in cs {
      var i :| 0 <= i < |cs| && cs[i] == Add(e);
    }
  }

  /** For the same commands in two orders, with each id added once, only the links that came
      too early can make a difference. */
  lemma SameCommandsSameGraph(cs: seq<Command>, ds: seq<Command>)
    requires AddedOnce(cs) && AddedOnce(ds) && forall c :: c in cs <==> c in ds
    ensures SameGraph(Build(cs), Build(ds)) <==> SameLinks(cs, ds)
  {
    SameGraphExactly(cs, ds);
    forall e ensures Latest(cs, e) <==> Latest(ds, e) {
      LatestOfOnce(cs, e);
      LatestOfOnce(ds, e);
    }
  }

  /** Every link comes after both its endpoints were added. */
  ghost predicate EndpointsFirst(cs: seq<Command>) {
    forall i :: 0 <= i < |cs| && cs[i].Link? ==> AddedBefore(cs, i, cs[i].src) && AddedBefore(cs, i, cs[i].dst)
  }

  /** When every link finds its endpoints, no order of the same commands makes a difference. */
  lemma EndpointsFirstSuffices(cs: seq<Command>, ds: seq<Command>)
    requires EndpointsFirst(cs) && EndpointsFirst(ds) && forall c :: c in cs <==> c in ds
    ensures SameLinks(cs, ds)
  {
    hide AddedBefore;
    forall a, b, k ensures Effective(cs, a, b, k) <==> Effective(ds, a, b, k) {
      EffectiveElsewhere(cs, ds, a, b, k);
      EffectiveElsewhere(ds, cs, a, b, k);
    }
  }

  lemma EffectiveElsewhere(cs: seq<Command>, ds: seq<Command>, a: string, b: string, kind: Option<string>)
    requires EndpointsFirst(ds) && forall c :: c in cs ==> c in ds
    ensures Effective(cs, a, b, kind) ==> Effective(ds, a, b, kind)
  {
    if Effective(cs, a, b, kind) {
      var i :| 0 <= i < |cs| && TakesEffect(cs, i, a, b, kind);
      assert cs[i] in ds;
      var j :| 0 <= j < |ds| && ds[j] == cs[i];
      assert TakesEffect(ds, j, a, b, kind);
    }
  }

  /** Insertion order is irrelevant to the evidence: whenever the same entities are the latest
      and the same links took effect, the same ids come in, the same ids stay out, and the hash
      is the same, for every query. */
  lemma InsertionOrderIrrelevant(hash: (seq<string>, seq<string>) -> string, cs: seq<Command>, ds: seq<Command>, op: Op)
    requires SameAdds(cs, ds) && SameLinks(cs, ds) && Arity(op)
    ensures Coherent(Build(cs)) && Coherent(Build(ds))
    ensures DeterministicHash(hash, RecordOf(Build(cs), op)) == DeterministicHash(hash, RecordOf(Build(ds), op))
    ensures forall id :: id in IdsOf(RecordOf(Build(cs), op).included) <==> id in IdsOf(RecordOf(Build(ds), op).included)
    ensures forall id :: id in IdsOf(RecordOf(Build(cs), op).excluded) <==> id in IdsOf(RecordOf(Build(ds), op).excluded)
  {
    hide Coherent, SameGraph, SameAdds, SameLinks, Arity, RecordOf, Build, DeterministicHash, IdsOf, Matches;
    BuildCoherent(cs);
    BuildCoherent(ds);
    SameGraphExactly(cs, ds);
    HashForgetsOrder(hash, Build(cs), Build(ds), op);
    SameMatches(Build(cs), Build(ds), op);
    Partition(Build(cs), op);
    Partition(Build(ds), op);
  }

  /** A link recorded before one of its endpoints is lost: the order of commands matters then. */
  lemma EarlyLinkIsLost(a: Entity, b: Entity, kind: string)
    requires a.id != b.id
    ensures !HasEdge(Build([Add(a), Link(a.id, b.id, kind), Add(b)]), a.id, b.id, None)
    ensures HasEdge(Build([Add(a), Add(b), Link(a.id, b.id, kind)]), a.id, b.id, None)
  {
    var c1, c2, c3 := Add(a), Link(a.id, b.id, kind), Add(b);
    assert [c1, c2, c3][..2] == [c1, c2] && [c1, c2][..1] == [c1] && [c1][..0] == [];
    assert [c1, c3, c2][..2] == [c1, c3] && [c1, c3][..1] == [c1];
    assert Build([c1]) == Apply(Build([]), c1);
    assert Build([c1, c2]) == Apply(Build([c1]), c2);
    assert Build([c1, c3]) == Apply(Build([c1]), c3);
    assert Build([c1, c3, c2]).adj[a.id][0] == Edge(a.id, b.id, kind);
  }
}
