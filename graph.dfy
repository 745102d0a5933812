/**
 * LangGraph's `StateGraph` builder as far as this workflow uses it: named nodes,
 * plain edges and one table of conditional edges per source node. A builder is
 * filled by successive `add_node`, `add_edge` and `add_conditional_edges` calls;
 * compilation, which checks that every edge names a node, is not modelled beyond
 * that check (`Complete`).
 */
module Graphs {
  import opened Wrappers
  import opened States

  /** What a builder holds once its calls have been made. */
  datatype Shape = Shape(nodes: set<string>, edges: set<(string, string)>,
                         branches: map<string, map<Option<string>, string>>)

  /** Every edge and every branch target names a node, START or END. */
  ghost predicate Complete(g: Shape) {
    && Start !in g.nodes && End !in g.nodes
    && (forall e | e in g.edges :: (e.0 == Start || e.0 in g.nodes) && (e.1 == End || e.1 in g.nodes))
    && g.branches.Keys <= g.nodes
    && (forall src, key | src in g.branches && key in g.branches[src] ::
          g.branches[src][key] == End || g.branches[src][key] in g.nodes)
  }

  /** The nodes one step can lead to from `node`: its edges' and its branches' targets. */
  function Successors(g: Shape, node: string): (r: set<string>)
    ensures forall t :: t in r <==>
      (node, t) in g.edges || (node in g.branches && t in g.branches[node].Values)
  {
    (set e | e in g.edges && e.0 == node :: e.1) +
    (if node in g.branches then g.branches[node].Values else {})
  }

  class StateGraph {
    var nodes: set<string>
    var edges: set<(string, string)>
    var branches: map<string, map<Option<string>, string>>

    function Current(): Shape
      reads this
    {
      Shape(nodes, edges, branches)
    }

    /** `StateGraph(SystemState)`: an empty builder. */
    constructor ()
      ensures Current() == Shape({}, {}, map[])
    {
      nodes := {};
      edges := {};
      branches := map[];
    }

    /** `add_node(name, action)`; LangGraph refuses a duplicate or reserved name. */
    method AddNode(name: string)
      requires name !in nodes && name != Start && name != End
      modifies this
      ensures nodes == old(nodes) + {name}
      ensures edges == old(edges) && branches == old(branches)
    {
      nodes := nodes + {name};
    }

    /** `add_edge(from, to)`; LangGraph refuses an edge out of END or into START. */
    method AddEdge(from: string, to: string)
      requires from != End && to != Start
      modifies this
      ensures edges == old(edges) + {(from, to)}
      ensures nodes == old(nodes) && branches == old(branches)
    {
      edges := edges + {(from, to)};
    }

    /** `add_conditional_edges(source, path, path_map)`: the path map becomes the branch table. */
    method AddConditionalEdges(source: string, pathMap: map<Option<string>, string>)
      requires source != End && source !in branches
      modifies this
      ensures branches == old(branches)[source := pathMap]
      ensures nodes == old(nodes) && edges == old(edges)
    {
      branches := branches[source := pathMap];
    }
  }

  /** The shape of a graph with one node run once between START and END. */
  function SingleNode(name: string): Shape {
    Shape({name}, {(Start, name), (name, End)}, map[])
  }

  /**
   * A single-node graph's only way is START, the node, END: START leads only to the
   * node, the node only to END, and no other name leads anywhere.
   */
  lemma SingleNodeIsOnePass(name: string, other: string)
    requires name != Start && name != End
    requires other != Start && other != name
    ensures Complete(SingleNode(name))
    ensures Successors(SingleNode(name), Start) == {name}
    ensures Successors(SingleNode(name), name) == {End}
    ensures Successors(SingleNode(name), other) == {}
  {
    var g := SingleNode(name);
    assert (Start, name) in g.edges;
    assert (name, End) in g.edges;
  }

  /**
   * The builder calls of the agents' subgraph modules: add the node, then the edges
   * from START to it and from it to END.
   */
  method BuildSingleNodeGraph(name: string) returns (g: StateGraph)
    requires name != Start && name != End
    ensures fresh(g)
    ensures g.Current() == SingleNode(name)
  {
    g := new StateGraph();
    g.AddNode(name);
    g.AddEdge(Start, name);
    g.AddEdge(name, End);
  }
}
