/** The in-memory knowledge graph of src/query/executor.py. */
module Graph {
  import opened Basics

  /** An entity after __post_init__: text and neighbor terms are already lower case. */
  datatype Entity = Entity(id: string, etype: string, source: string, text: string,
                           score: real, timestamp: real, neighborTerms: set<string>)

  datatype Edge = Edge(src: string, dst: string, kind: string)

  /** The graph's dictionaries: _ents with its insertion order, and _adj. */
  datatype Snapshot = Snapshot(order: seq<string>, ents: map<string, Entity>, adj: map<string, seq<Edge>>)

  const EMPTY := Snapshot([], map[], map[])

  predicate Wanted(e: Edge, kind: Option<string>) {
    kind.None? || e.kind == kind.value
  }

  /** Dictionary and adjacency invariants: keys are ids, edges start where they are stored
      and end at known entities, and order lists every id once. */
  ghost predicate Coherent(g: Snapshot) {
    && (forall id :: id in g.ents ==> g.ents[id].id == id && id in g.adj)
    && (forall id, i :: id in g.adj && 0 <= i < |g.adj[id]| ==> g.adj[id][i].dst in g.ents)
    && (forall id :: id in g.order <==> id in g.ents)
    && (forall i, j :: 0 <= i < j < |g.order| ==> g.order[i] != g.order[j])
  }

  function Added(g: Snapshot, e: Entity): Snapshot {
    Snapshot(if e.id in g.ents then g.order else g.order + [e.id],
             g.ents[e.id := e],
             if e.id in g.adj then g.adj else g.adj[e.id := []])
  }

  function Pushed(adj: map<string, seq<Edge>>, at: string, e: Edge): map<string, seq<Edge>> {
    adj[at := (if at in adj then adj[at] else []) + [e]]
  }

  function Linked(g: Snapshot, src: string, dst: string, kind: string): Snapshot {
    if src in g.ents && dst in g.ents then
      g.(adj := Pushed(Pushed(g.adj, src, Edge(src, dst, kind)), dst, Edge(dst, src, kind)))
    else g
  }

  /** neighbors(eid, kind), as ids. */
  function NeighborIds(g: Snapshot, id: string, kind: Option<string>): seq<string> {
    if id in g.adj then WantedTargets(g.adj[id], kind) else []
  }

  function WantedTargets(edges: seq<Edge>, kind: Option<string>): seq<string> {
    if edges == [] then []
    else (if Wanted(edges[0], kind) then [edges[0].dst] else []) + WantedTargets(edges[1..], kind)
  }

  lemma EdgesEndInside(g: Snapshot, id: string)
    requires Coherent(g) && id in g.adj
    ensures forall i :: 0 <= i < |g.adj[id]| ==> g.adj[id][i].dst in g.ents
  {}

  lemma NoTargets(edges: seq<Edge>, kind: Option<string>)
    ensures edges[0..] == edges && WantedTargets(edges[|edges|..], kind) == []
  {}

  lemma NextTarget(ids: seq<string>, edges: seq<Edge>, i: nat, kind: Option<string>)
    requires i < |edges|
    ensures ids + WantedTargets(edges[i..], kind)
         == (if Wanted(edges[i], kind) then ids + [edges[i].dst] else ids) + WantedTargets(edges[i + 1..], kind)
  {
    assert edges[i..][1..] == edges[i + 1..];
  }

  ghost predicate AreEntities(ents: map<string, Entity>, ids: seq<string>, out: seq<Entity>) {
    && |out| == |ids|
    && forall i :: 0 <= i < |ids| ==> ids[i] in ents && out[i] == ents[ids[i]]
  }

  /** There is an edge from a to b of the wanted kind. */
  ghost predicate HasEdge(g: Snapshot, a: string, b: string, kind: Option<string>) {
    a in g.adj && exists i :: 0 <= i < |g.adj[a]| && g.adj[a][i].dst == b && Wanted(g.adj[a][i], kind)
  }

  lemma {:induction false} WantedTargetsContains(edges: seq<Edge>, kind: Option<string>, b: string)
    ensures b in WantedTargets(edges, kind) <==> exists i :: 0 <= i < |edges| && edges[i].dst == b && Wanted(edges[i], kind)
  {
    if edges == [] {
    } else {
      WantedTargetsContains(edges[1..], kind, b);
      assert forall i :: 0 <= i < |edges| - 1 ==> edges[1..][i] == edges[i + 1];
      if i :| 0 <= i < |edges| && edges[i].dst == b && Wanted(edges[i], kind) {
        if i > 0 { assert edges[1..][i - 1] == edges[i]; }
      }
    }
  }

  lemma NeighborIdsAreEdges(g: Snapshot, a: string, b: string, kind: Option<string>)
    ensures b in NeighborIds(g, a, kind) <==> HasEdge(g, a, b, kind)
  {
    if a in g.adj { WantedTargetsContains(g.adj[a], kind, b); }
  }

  lemma AddedCoherent(g: Snapshot, e: Entity)
    requires Coherent(g)
    ensures Coherent(Added(g, e))
  {
  }

  lemma LinkedCoherent(g: Snapshot, src: string, dst: string, kind: string)
    requires Coherent(g)
    ensures Coherent(Linked(g, src, dst, kind))
  {
  }

  class KnowledgeGraph {
    var order: seq<string>
    var ents: map<string, Entity>
    var adj: map<string, seq<Edge>>

    function View(): Snapshot
      reads this
    {
      Snapshot(order, ents, adj)
    }

    constructor ()
      ensures View() == EMPTY && Coherent(View())
    {
      order, ents, adj := [], map[], map[];
    }

    /** add: replaces an entity of the same id in place, otherwise appends it. */
    method Add(e: Entity)
      requires Coherent(View())
      modifies this
      ensures View() == Added(old(View()), e) && Coherent(View())
    {
      AddedCoherent(View(), e);
      if e.id !in ents {
        order := order + [e.id];
      }
      ents := ents[e.id := e];
      if e.id !in adj {
        adj := adj[e.id := []];
      }
    }

    /** link: stores both directions, and ignores a link to an unknown entity. */
    method Link(src: string, dst: string, kind: string)
      requires Coherent(View())
      modifies this
      ensures View() == Linked(old(View()), src, dst, kind) && Coherent(View())
    {
      LinkedCoherent(View(), src, dst, kind);
      if src in ents && dst in ents {
        adj := Pushed(adj, src, Edge(src, dst, kind));
        adj := Pushed(adj, dst, Edge(dst, src, kind));
      }
    }

    /** neighbors(eid, kind), in adjacency order. */
    method Neighbors(id: string, kind: Option<string>) returns (out: seq<Entity>)
      requires Coherent(View())
      ensures AreEntities(View().ents, NeighborIds(View(), id, kind), out)
    {
      hide Coherent, WantedTargets;
      out := [];
      if id in adj {
        var edges, es := adj[id], ents;
        EdgesEndInside(View(), id);
        NoTargets(edges, kind);
        ghost var ids := [];
        var i := 0;
        while i < |edges|
          invariant 0 <= i <= |edges|
          invariant ids + WantedTargets(edges[i..], kind) == WantedTargets(edges, kind)
          invariant AreEntities(es, ids, out)
        {
          NextTarget(ids, edges, i, kind);
          assert edges[i].dst in es;
          if Wanted(edges[i], kind) {
            out := out + [es[edges[i].dst]];
            ids := ids + [edges[i].dst];
          }
          i := i + 1;
        }
      }
    }
  }
}
