/** The builder feeding the renderer: the graph `transformToGraphData`
    returns is laid out, and every node and link passes the renderer's
    position guards. */
module Pipeline {
  import opened GraphTypes
  import opened AnalysisContent
  import opened BuilderProperties
  import opened RelationshipGraph

  /** Whatever the chains and the viewport, every node and every link of the
      built graph passes the renderer's guards: no node lacks a position and
      no edge is dropped for a missing endpoint. */
  lemma BuiltGraphFullyDrawn(chains: seq<InfluenceChain>, width: real, height: real, isMobile: bool)
    ensures var g := Build(chains);
            var positions := Layout(g.nodes, width, height, isMobile);
            && DrawnNodes(positions, g.nodes) == g.nodes
            && DrawnEdges(positions, g.edges) == g.edges
  {
    var g := Build(chains);
    var positions := Layout(g.nodes, width, height, isMobile);
    BuildWellFormed(chains);
    LayoutKeys(g.nodes, width, height, isMobile);
    LayoutDrawsAllNodes(g.nodes, width, height, isMobile);
    DrawnEdgesAll(positions, g.edges);
  }

  /** Every node of the built graph is placed by its type and by its rank
      among the nodes of that type. */
  lemma BuiltNodePosition(chains: seq<InfluenceChain>, width: real, height: real, isMobile: bool, j: nat)
    requires j < |Build(chains).nodes|
    ensures var nodes := Build(chains).nodes;
            var positions := Layout(nodes, width, height, isMobile);
            && nodes[j].id in positions
            && positions[nodes[j].id]
               == TierPosition(nodes[j].nodeType, Rank(nodes, j), |OfType(nodes, nodes[j].nodeType)|, width, height, isMobile)
  {
    BuildWellFormed(chains);
    LayoutAt(Build(chains).nodes, width, height, isMobile, j);
  }
}
