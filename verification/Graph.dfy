/** The transaction graph (pkg/partition/graph.go): a symmetric multigraph as adjacency lists. */
module Graphs {
  import opened Types

  type Vertex = Address

  type Edges = map<Vertex, seq<Vertex>>

  function Adj(edges: Edges, v: Vertex): seq<Vertex>
  {
    if v in edges then edges[v] else []
  }

  /** How often the list of `x` names `y`. */
  function Times(edges: Edges, x: Vertex, y: Vertex): nat
  {
    multiset(Adj(edges, x))[y]
  }

  /** Every edge is listed at both ends equally often. */
  ghost predicate Symmetric(edges: Edges)
  {
    forall u, v :: Times(edges, u, v) == Times(edges, v, u)
  }

  /** So a vertex that is listed has a list. */
  lemma ListedHasList(edges: Edges, u: Vertex, v: Vertex)
    requires Symmetric(edges) && u in edges && v in edges[u]
    ensures v in edges
  {
    assert Times(edges, u, v) > 0 && Times(edges, v, u) > 0;
  }

  ghost predicate NoSelfLoops(edges: Edges)
  {
    forall v :: v in edges ==> v !in edges[v]
  }

  function Listed(edges: Edges, u: Vertex, v: Vertex): Edges
  {
    edges[u := Adj(edges, u) + [v]]
  }

  /** Adding an edge keeps the lists symmetric, a self-loop included, which is listed twice. */
  lemma AddEdgeSymmetric(edges: Edges, u: Vertex, v: Vertex)
    requires Symmetric(edges)
    ensures Symmetric(Listed(Listed(edges, u, v), v, u))
  {
    var after := Listed(Listed(edges, u, v), v, u);
    forall x, y
      ensures Times(after, x, y) == Times(after, y, x)
    {
      CountListed(edges, u, v, x, y);
      CountListed(edges, u, v, y, x);
    }
  }

  lemma AddEdgeKeepsLoopFree(edges: Edges, u: Vertex, v: Vertex)
    requires u != v && NoSelfLoops(edges)
    ensures NoSelfLoops(Listed(Listed(edges, u, v), v, u))
  {
    var after := Listed(Listed(edges, u, v), v, u);
    forall x | x in after
      ensures x !in after[x]
    {
      CountListed(edges, u, v, x, x);
      assert x in Adj(edges, x) ==> x in edges;
    }
  }

  lemma CountListed(edges: Edges, u: Vertex, v: Vertex, x: Vertex, y: Vertex)
    ensures Times(Listed(Listed(edges, u, v), v, u), x, y)
      == Times(edges, x, y) + (if x == u && y == v then 1 else 0) + (if x == v && y == u then 1 else 0)
  {
  }

  class Graph {
    var vertexSet: set<Vertex>
    var edgeSet: Edges

    constructor ()
      ensures vertexSet == {} && edgeSet == map[]
    {
      vertexSet := {};
      edgeSet := map[];
    }

    /** The lists are symmetric and belong to vertices. */
    ghost predicate Valid()
      reads this
    {
      Symmetric(edgeSet) && edgeSet.Keys <= vertexSet
    }

    method AddVertex(v: Vertex)
      modifies this
      ensures vertexSet == old(vertexSet) + {v} && edgeSet == old(edgeSet)
    {
      vertexSet := vertexSet + {v};
    }

    method AddEdge(u: Vertex, v: Vertex)
      requires Valid()
      modifies this
      ensures Valid() && vertexSet == old(vertexSet) + {u, v}
      ensures edgeSet == Listed(Listed(old(edgeSet), u, v), v, u)
    {
      AddVertex(u);
      AddVertex(v);
      AddEdgeSymmetric(edgeSet, u, v);
      edgeSet := edgeSet[u := (if u in edgeSet then edgeSet[u] else []) + [v]];
      edgeSet := edgeSet[v := (if v in edgeSet then edgeSet[v] else []) + [u]];
    }
  }
}
