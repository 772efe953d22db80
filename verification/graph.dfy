/** The context graph, seen only through the one capability the factory uses:
    recording that a key depends on another. Edges accumulate and are never
    removed. */
module ContextGraphs {

  /** (dependent, dependency): the first key is resolved after the second. */
  type Edge = (string, string)

  datatype ContextGraph = ContextGraph(edges: set<Edge>)

  const Empty := ContextGraph({})

  /** Records that `dependent` depends on `dependency`. */
  function Accept(g: ContextGraph, dependent: string, dependency: string): (r: ContextGraph)
    ensures (dependent, dependency) in r.edges
    ensures forall e :: e in g.edges ==> e in r.edges
    ensures forall e :: e in r.edges && e != (dependent, dependency) ==> e in g.edges
  {
    ContextGraph(g.edges + {(dependent, dependency)})
  }
}
