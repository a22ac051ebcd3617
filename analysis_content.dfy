/** `transformToGraphData` (components/analysis-content.tsx): turns the ordered
    influence chains of an analysis report into a graph of politician, policy,
    sector and company nodes with deduplicated ids and links.

    `Build` is the value-level specification: it applies the source's
    `addNode` / `addLink` steps (`WithNode`, `WithLink`) chain by chain.
    `GraphBuilder` holds the source's mutable `nodes`, `links` and `nodeMap`,
    and `TransformToGraphData` runs the source's loops over it and is proved
    to produce `Build` of its input. */
module AnalysisContent {
  import opened Text
  import opened GraphTypes

  /** One record of `influence_chains`. */
  datatype InfluenceChain = InfluenceChain(
    politician: string,
    policy: string,
    industryOrSector: string,
    companies: seq<string>,
    impactDescription: string,
    evidence: seq<Evidence>)

  /** The policy text that marks a chain with no direct policy link ... */
  const NoDirectLink: string := "None directly linked"
  /** ... and the label shown instead. */
  const IndirectInfluence: string := "Indirect Influence"

  /** Placeholder market fields of every company node. */
  const PlaceholderStockCode: string := "000000"
  const PlaceholderPrice: string := "0"

  function PolicyLabel(policy: string): string {
    if policy == NoDirectLink then IndirectInfluence else policy
  }

  // ---------------------------------------------------------------------------
  // Node ids: a type prefix followed by the normalised name

  /** The node type an id's prefix announces. */
  function IdType(id: string): Option<NodeType> {
    if "policy-" <= id then Some(Policy)
    else if "pol-" <= id then Some(Input)
    else if "sector-" <= id then Some(Sector)
    else if "comp-" <= id then Some(Enterprise)
    else None
  }

  /** The chain index embedded in a policy id: the digits after "policy-". */
  function PolicyIndex(id: string): nat {
    if |id| < 7 then 0 else DigitsValue(TakeDigits(id[7..]))
  }

  function PoliticianId(name: string): (id: string)
    ensures IdType(id) == Some(Input)
  {
    var id := "pol-" + Normalize(name);
    assert id[..4] == "pol-" && id[3] != "policy-"[3];
    id
  }

  function PolicyId(index: nat, policyLabel: string): (id: string)
    ensures IdType(id) == Some(Policy)
    ensures PolicyIndex(id) == index
  {
    var digits := NatToString(index);
    var id := "policy-" + digits + "-" + Normalize(policyLabel);
    assert id[..7] == "policy-";
    assert id[7..] == digits + ("-" + Normalize(policyLabel));
    TakeDigitsOfDigits(digits, "-" + Normalize(policyLabel));
    DigitsValueOfNatToString(index);
    id
  }

  function SectorId(name: string): (id: string)
    ensures IdType(id) == Some(Sector)
  {
    var id := "sector-" + Normalize(name);
    assert id[..7] == "sector-" && id[0] != 'p';
    id
  }

  function CompanyId(name: string): (id: string)
    ensures IdType(id) == Some(Enterprise)
  {
    var id := "comp-" + Normalize(name);
    assert id[..5] == "comp-" && id[0] != 'p' && id[0] != 's';
    id
  }

  // ---------------------------------------------------------------------------
  // The value-level specification

  /** A node as `addNode` creates it: not yet placed, at (0, 0). */
  function NewNode(id: string, nodeType: NodeType, labelText: string, metadata: Metadata): Node {
    Node(id, nodeType, labelText, metadata, 0.0, 0.0)
  }

  /** `addNode`: appends the node only when no node has its id. */
  function WithNode(g: Graph, n: Node): Graph {
    if n.id in NodeIds(g.nodes) then g else Graph(g.nodes + [n], g.edges)
  }

  /** `addLink`: appends the link only when no link joins the same pair. */
  function WithLink(g: Graph, source: string, target: string): Graph {
    if Link(source, target) in g.edges then g else Graph(g.nodes, g.edges + [Link(source, target)])
  }

  function PolicyNode(chain: InfluenceChain, index: nat): Node {
    var policyLabel := PolicyLabel(chain.policy);
    NewNode(PolicyId(index, policyLabel), Policy, policyLabel,
            PolicyMetadata(chain.impactDescription, chain.evidence))
  }

  function CompanyNode(company: string, evidence: seq<Evidence>): Node {
    NewNode(CompanyId(company), Enterprise, company,
            EnterpriseMetadata(PlaceholderStockCode, PlaceholderPrice, evidence))
  }

  /** g2 grows g: nodes and links are only ever appended. */
  predicate Extends(g: Graph, g2: Graph) {
    g.nodes <= g2.nodes && g.edges <= g2.edges
  }

  /** Steps 1-3 of a chain: politician node, policy node and its link, sector
      node and its link. */
  function AddChainHead(g: Graph, chain: InfluenceChain, index: nat): (r: Graph)
    ensures Extends(g, r)
  {
    var politicianId := PoliticianId(chain.politician);
    var g1 := WithNode(g, NewNode(politicianId, Input, chain.politician, NoMetadata));
    var policyId := PolicyId(index, PolicyLabel(chain.policy));
    var g2 := WithLink(WithNode(g1, PolicyNode(chain, index)), politicianId, policyId);
    var sectorId := SectorId(chain.industryOrSector);
    WithLink(WithNode(g2, NewNode(sectorId, Sector, chain.industryOrSector, NoMetadata)), policyId, sectorId)
  }

  /** Step 4 of a chain: each company node and its link from the sector, in
      list order. */
  function AddCompanies(g: Graph, sectorId: string, companies: seq<string>, evidence: seq<Evidence>): (r: Graph)
    ensures Extends(g, r)
    decreases |companies|
  {
    if companies == [] then g
    else
      var last := companies[|companies| - 1];
      var g1 := AddCompanies(g, sectorId, companies[..|companies| - 1], evidence);
      WithLink(WithNode(g1, CompanyNode(last, evidence)), sectorId, CompanyId(last))
  }

  /** Everything one chain (at position index) adds. */
  function AddChain(g: Graph, chain: InfluenceChain, index: nat): (r: Graph)
    ensures Extends(g, r)
  {
    AddCompanies(AddChainHead(g, chain, index), SectorId(chain.industryOrSector), chain.companies, chain.evidence)
  }

  /** The graph built from the chains, processed in order. */
  function Build(chains: seq<InfluenceChain>): Graph
    decreases |chains|
  {
    if chains == [] then EmptyGraph
    else AddChain(Build(chains[..|chains| - 1]), chains[|chains| - 1], |chains| - 1)
  }

  /** The graph of the first i + 1 chains is chain i added to the graph of
      the first i. */
  lemma BuildStep(chains: seq<InfluenceChain>, i: nat)
    requires i < |chains|
    ensures Build(chains[..i + 1]) == AddChain(Build(chains[..i]), chains[i], i)
  {
    var upto := chains[..i + 1];
    assert upto[..i] == chains[..i] && upto[i] == chains[i];
  }

  // ---------------------------------------------------------------------------
  // The builder's mutable state

  /** The local `nodes` and `links` arrays and the `nodeMap` of
      `transformToGraphData`, with its two helpers. */
  class GraphBuilder {
    var nodes: seq<Node>
    var links: seq<Link>
    var nodeMap: map<string, Node>

    /** nodeMap indexes exactly the nodes pushed so far. */
    ghost predicate Valid()
      reads this
    {
      && nodeMap.Keys == NodeIds(nodes)
      && forall id :: id in nodeMap ==> nodeMap[id] in nodes && nodeMap[id].id == id
    }

    function Current(): Graph
      reads this
    {
      Graph(nodes, links)
    }

    constructor ()
      ensures Valid() && Current() == EmptyGraph
    {
      nodes, links, nodeMap := [], [], map[];
    }

    /** `addNode`: the node is created and recorded only when its id is new;
        the node with that id is returned either way. */
    method AddNode(id: string, nodeType: NodeType, labelText: string, metadata: Metadata) returns (node: Node)
      requires Valid()
      modifies this
      ensures Valid()
      ensures Current() == WithNode(old(Current()), NewNode(id, nodeType, labelText, metadata))
      ensures node in nodes && node.id == id
    {
      if id !in nodeMap {
        var n := NewNode(id, nodeType, labelText, metadata);
        NodeIdsAppend(nodes, n);
        nodeMap := nodeMap[id := n];
        nodes := nodes + [n];
      }
      node := nodeMap[id];
    }

    /** `addLink`: a linear scan for a link with the same endpoints, then a
        push when there is none. */
    method AddLink(source: string, target: string)
      requires Valid()
      modifies this
      ensures Valid()
      ensures Current() == WithLink(old(Current()), source, target)
    {
      var linkExists := false;
      var k := 0;
      while k < |links| && !linkExists
        invariant 0 <= k <= |links|
        invariant linkExists ==> Link(source, target) in links
        invariant !linkExists ==> forall j :: 0 <= j < k ==> links[j] != Link(source, target)
      {
        linkExists := links[k].source == source && links[k].target == target;
        k := k + 1;
      }
      if !linkExists {
        links := links + [Link(source, target)];
      }
    }
  }

  /** The `forEach` over one chain's companies: each company node and its
      link from the sector. */
  method AddCompaniesTo(builder: GraphBuilder, sectorId: string, companies: seq<string>, evidence: seq<Evidence>)
    requires builder.Valid()
    modifies builder
    ensures builder.Valid()
    ensures builder.Current() == AddCompanies(old(builder.Current()), sectorId, companies, evidence)
  {
    ghost var start := builder.Current();
    var j := 0;
    while j < |companies|
      invariant 0 <= j <= |companies|
      invariant builder.Valid()
      invariant builder.Current() == AddCompanies(start, sectorId, companies[..j], evidence)
    {
      var company := companies[j];
      var companyId := CompanyId(company);
      var enterprise := builder.AddNode(companyId, Enterprise, company,
                                        EnterpriseMetadata(PlaceholderStockCode, PlaceholderPrice, evidence));
      builder.AddLink(sectorId, companyId);
      assert companies[..j + 1][..j] == companies[..j];
      j := j + 1;
    }
    assert companies[..j] == companies;
  }

  /** The callback of the `forEach` over the chains: one chain, at position
      index, added to the builder. */
  method AddChainTo(builder: GraphBuilder, chain: InfluenceChain, index: nat)
    requires builder.Valid()
    modifies builder
    ensures builder.Valid()
    ensures builder.Current() == AddChain(old(builder.Current()), chain, index)
  {
    ghost var g0 := builder.Current();
    var politicianId := PoliticianId(chain.politician);
    var politician := builder.AddNode(politicianId, Input, chain.politician, NoMetadata);
    ghost var g1 := builder.Current();
    assert g1 == WithNode(g0, NewNode(politicianId, Input, chain.politician, NoMetadata));

    var policyLabel := PolicyLabel(chain.policy);
    var policyId := PolicyId(index, policyLabel);
    var policy := builder.AddNode(policyId, Policy, policyLabel,
                                  PolicyMetadata(chain.impactDescription, chain.evidence));
    assert builder.Current() == WithNode(g1, PolicyNode(chain, index));
    builder.AddLink(politicianId, policyId);
    ghost var g2 := builder.Current();
    assert g2 == WithLink(WithNode(g1, PolicyNode(chain, index)), politicianId, policyId);

    var sectorId := SectorId(chain.industryOrSector);
    var sector := builder.AddNode(sectorId, Sector, chain.industryOrSector, NoMetadata);
    builder.AddLink(policyId, sectorId);
    assert builder.Current() == AddChainHead(g0, chain, index);

    AddCompaniesTo(builder, sectorId, chain.companies, chain.evidence);
  }

  /** `transformToGraphData`: a fresh builder, then every chain in order. */
  method TransformToGraphData(influenceChains: seq<InfluenceChain>) returns (g: Graph)
    ensures g == Build(influenceChains)
    ensures influenceChains == [] ==> g.nodes == [] && g.edges == []
  {
    var builder := new GraphBuilder();
    var index := 0;
    while index < |influenceChains|
      invariant 0 <= index <= |influenceChains|
      invariant builder.Valid()
      invariant builder.Current() == Build(influenceChains[..index])
    {
      BuildStep(influenceChains, index);
      AddChainTo(builder, influenceChains[index], index);
      index := index + 1;
    }
    assert influenceChains[..index] == influenceChains;
    g := builder.Current();
  }
}
