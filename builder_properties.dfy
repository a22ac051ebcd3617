/** What `transformToGraphData` guarantees of the graph it returns, proved of
    its specification `Build`: unique node ids, unique links, links only
    between nodes already present and only between adjacent tiers, the id
    sets and counts each chain contributes, and append-only growth. */
module BuilderProperties {
  import opened Text
  import opened GraphTypes
  import opened AnalysisContent

  /** A link joins tier t to tier t + 1, read off the ids' prefixes. */
  predicate Adjacent(l: Link) {
    match (IdType(l.source), IdType(l.target))
    case (Some(s), Some(t)) => Tier(t) == Tier(s) + 1
    case _ => false
  }

  predicate NodesTypedById(nodes: seq<Node>) {
    forall k :: 0 <= k < |nodes| ==> IdType(nodes[k].id) == Some(nodes[k].nodeType)
  }

  predicate LinksClosed(g: Graph) {
    forall k :: 0 <= k < |g.edges| ==> g.edges[k].source in NodeIds(g.nodes) && g.edges[k].target in NodeIds(g.nodes)
  }

  predicate LinksAdjacent(links: seq<Link>) {
    forall k :: 0 <= k < |links| ==> Adjacent(links[k])
  }

  predicate Unplaced(nodes: seq<Node>) {
    forall k :: 0 <= k < |nodes| ==> nodes[k].x == 0.0 && nodes[k].y == 0.0
  }

  /** The invariant every graph the builder produces satisfies. */
  predicate WellFormed(g: Graph) {
    && UniqueIds(g.nodes)
    && UniqueLinks(g.edges)
    && LinksClosed(g)
    && LinksAdjacent(g.edges)
    && NodesTypedById(g.nodes)
    && Unplaced(g.nodes)
  }

  // ---------------------------------------------------------------------------
  // The ids and links each chain is expected to contribute

  function PoliticianIds(chains: seq<InfluenceChain>): set<string>
    decreases |chains|
  {
    if chains == [] then {}
    else PoliticianIds(chains[..|chains| - 1]) + {PoliticianId(chains[|chains| - 1].politician)}
  }

  function PolicyIdOf(chains: seq<InfluenceChain>, i: nat): string
    requires i < |chains|
  {
    PolicyId(i, PolicyLabel(chains[i].policy))
  }

  function PolicyIds(chains: seq<InfluenceChain>): set<string>
    decreases |chains|
  {
    if chains == [] then {}
    else PolicyIds(chains[..|chains| - 1]) + {PolicyIdOf(chains, |chains| - 1)}
  }

  function SectorIds(chains: seq<InfluenceChain>): set<string>
    decreases |chains|
  {
    if chains == [] then {}
    else SectorIds(chains[..|chains| - 1]) + {SectorId(chains[|chains| - 1].industryOrSector)}
  }

  function CompanyIdsOf(companies: seq<string>): set<string>
    decreases |companies|
  {
    if companies == [] then {}
    else CompanyIdsOf(companies[..|companies| - 1]) + {CompanyId(companies[|companies| - 1])}
  }

  function CompanyIds(chains: seq<InfluenceChain>): set<string>
    decreases |chains|
  {
    if chains == [] then {}
    else CompanyIds(chains[..|chains| - 1]) + CompanyIdsOf(chains[|chains| - 1].companies)
  }

  function InputPolicyLinks(chains: seq<InfluenceChain>): set<Link>
    decreases |chains|
  {
    if chains == [] then {}
    else
      var i := |chains| - 1;
      InputPolicyLinks(chains[..i]) + {Link(PoliticianId(chains[i].politician), PolicyIdOf(chains, i))}
  }

  function PolicySectorLinks(chains: seq<InfluenceChain>): set<Link>
    decreases |chains|
  {
    if chains == [] then {}
    else
      var i := |chains| - 1;
      PolicySectorLinks(chains[..i]) + {Link(PolicyIdOf(chains, i), SectorId(chains[i].industryOrSector))}
  }

  function CompanyLinksOf(sectorId: string, companies: seq<string>): set<Link>
    decreases |companies|
  {
    if companies == [] then {}
    else CompanyLinksOf(sectorId, companies[..|companies| - 1]) + {Link(sectorId, CompanyId(companies[|companies| - 1]))}
  }

  function SectorCompanyLinks(chains: seq<InfluenceChain>): set<Link>
    decreases |chains|
  {
    if chains == [] then {}
    else
      var i := |chains| - 1;
      SectorCompanyLinks(chains[..i]) + CompanyLinksOf(SectorId(chains[i].industryOrSector), chains[i].companies)
  }

  // ---------------------------------------------------------------------------
  // One step at a time

  lemma WithNodeEffect(g: Graph, n: Node)
    ensures NodeIds(WithNode(g, n).nodes) == NodeIds(g.nodes) + {n.id}
    ensures WithNode(g, n).edges == g.edges
    ensures n.id in NodeIds(g.nodes) ==> WithNode(g, n) == g
    ensures n.id !in NodeIds(g.nodes) ==> WithNode(g, n).nodes == g.nodes + [n]
  {
    NodeIdsAppend(g.nodes, n);
  }

  lemma WithLinkEffect(g: Graph, source: string, target: string)
    ensures LinkSet(WithLink(g, source, target).edges) == LinkSet(g.edges) + {Link(source, target)}
    ensures WithLink(g, source, target).nodes == g.nodes
  {
    LinkSetAppend(g.edges, Link(source, target));
  }

  /** `addNode` keeps the invariant, whether or not the id is new. */
  lemma WithNodeWellFormed(g: Graph, n: Node)
    requires WellFormed(g)
    requires IdType(n.id) == Some(n.nodeType) && n.x == 0.0 && n.y == 0.0
    ensures WellFormed(WithNode(g, n))
  {
    WithNodeEffect(g, n);
    var r := WithNode(g, n);
    if n.id !in NodeIds(g.nodes) {
      forall i, j | 0 <= i < j < |r.nodes| ensures r.nodes[i].id != r.nodes[j].id {
        if j == |g.nodes| {
          assert r.nodes[i] == g.nodes[i];
        }
      }
    }
  }

  /** `addLink` keeps the invariant when both endpoints are present and in
      adjacent tiers. */
  lemma WithLinkWellFormed(g: Graph, source: string, target: string)
    requires WellFormed(g)
    requires source in NodeIds(g.nodes) && target in NodeIds(g.nodes)
    requires Adjacent(Link(source, target))
    ensures WellFormed(WithLink(g, source, target))
  {
  }

  /** The company steps keep the invariant. */
  lemma {:induction false} AddCompaniesWellFormed(g: Graph, sectorId: string, companies: seq<string>, evidence: seq<Evidence>)
    requires WellFormed(g)
    requires sectorId in NodeIds(g.nodes) && IdType(sectorId) == Some(Sector)
    ensures WellFormed(AddCompanies(g, sectorId, companies, evidence))
    decreases |companies|
  {
    if companies != [] {
      var front, last := companies[..|companies| - 1], companies[|companies| - 1];
      var g1 := AddCompanies(g, sectorId, front, evidence);
      AddCompaniesWellFormed(g, sectorId, front, evidence);
      NodeIdsPrefix(g.nodes, g1.nodes);
      var n := CompanyNode(last, evidence);
      WithNodeWellFormed(g1, n);
      WithNodeEffect(g1, n);
      WithLinkWellFormed(WithNode(g1, n), sectorId, n.id);
    }
  }

  /** The company steps add exactly the companies' ids and links. */
  lemma {:induction false} AddCompaniesSets(g: Graph, sectorId: string, companies: seq<string>, evidence: seq<Evidence>)
    ensures NodeIds(AddCompanies(g, sectorId, companies, evidence).nodes) == NodeIds(g.nodes) + CompanyIdsOf(companies)
    ensures LinkSet(AddCompanies(g, sectorId, companies, evidence).edges) == LinkSet(g.edges) + CompanyLinksOf(sectorId, companies)
    decreases |companies|
  {
    if companies != [] {
      var front, last := companies[..|companies| - 1], companies[|companies| - 1];
      var g1 := AddCompanies(g, sectorId, front, evidence);
      AddCompaniesSets(g, sectorId, front, evidence);
      var n := CompanyNode(last, evidence);
      WithNodeEffect(g1, n);
      WithLinkEffect(WithNode(g1, n), sectorId, n.id);
    }
  }

  /** The politician, policy and sector steps keep the invariant and leave
      the sector's node in the graph. */
  lemma AddChainHeadWellFormed(g: Graph, chain: InfluenceChain, index: nat)
    requires WellFormed(g)
    ensures WellFormed(AddChainHead(g, chain, index))
    ensures SectorId(chain.industryOrSector) in NodeIds(AddChainHead(g, chain, index).nodes)
  {
    var politicianId, policyId, sectorId :=
      PoliticianId(chain.politician), PolicyId(index, PolicyLabel(chain.policy)), SectorId(chain.industryOrSector);
    var n1, n2, n3 :=
      NewNode(politicianId, Input, chain.politician, NoMetadata), PolicyNode(chain, index),
      NewNode(sectorId, Sector, chain.industryOrSector, NoMetadata);
    var g1 := WithNode(g, n1);
    WithNodeWellFormed(g, n1);
    WithNodeEffect(g, n1);
    var g2 := WithNode(g1, n2);
    WithNodeWellFormed(g1, n2);
    WithNodeEffect(g1, n2);
    var g3 := WithLink(g2, politicianId, policyId);
    WithLinkWellFormed(g2, politicianId, policyId);
    WithLinkEffect(g2, politicianId, policyId);
    var g4 := WithNode(g3, n3);
    WithNodeWellFormed(g3, n3);
    WithNodeEffect(g3, n3);
    WithLinkWellFormed(g4, policyId, sectorId);
    WithLinkEffect(g4, policyId, sectorId);
  }

  /** The politician, policy and sector steps add exactly those three ids and
      the two links through the policy. */
  lemma AddChainHeadSets(g: Graph, chain: InfluenceChain, index: nat)
    ensures NodeIds(AddChainHead(g, chain, index).nodes)
         == NodeIds(g.nodes) + {PoliticianId(chain.politician), PolicyId(index, PolicyLabel(chain.policy)),
                                SectorId(chain.industryOrSector)}
    ensures LinkSet(AddChainHead(g, chain, index).edges)
         == LinkSet(g.edges) + {Link(PoliticianId(chain.politician), PolicyId(index, PolicyLabel(chain.policy))),
                                Link(PolicyId(index, PolicyLabel(chain.policy)), SectorId(chain.industryOrSector))}
  {
    var politicianId, policyId, sectorId :=
      PoliticianId(chain.politician), PolicyId(index, PolicyLabel(chain.policy)), SectorId(chain.industryOrSector);
    var n1, n2, n3 :=
      NewNode(politicianId, Input, chain.politician, NoMetadata), PolicyNode(chain, index),
      NewNode(sectorId, Sector, chain.industryOrSector, NoMetadata);
    var g1 := WithNode(g, n1);
    WithNodeEffect(g, n1);
    var g2 := WithNode(g1, n2);
    WithNodeEffect(g1, n2);
    var g3 := WithLink(g2, politicianId, policyId);
    WithLinkEffect(g2, politicianId, policyId);
    var g4 := WithNode(g3, n3);
    WithNodeEffect(g3, n3);
    WithLinkEffect(g4, policyId, sectorId);
  }

  /** Adding a chain keeps the invariant. */
  lemma AddChainWellFormed(g: Graph, chain: InfluenceChain, index: nat)
    requires WellFormed(g)
    ensures WellFormed(AddChain(g, chain, index))
  {
    var head := AddChainHead(g, chain, index);
    AddChainHeadWellFormed(g, chain, index);
    AddCompaniesWellFormed(head, SectorId(chain.industryOrSector), chain.companies, chain.evidence);
  }

  /** Adding a chain adds exactly the ids and the links it names. */
  lemma AddChainSets(g: Graph, chain: InfluenceChain, index: nat)
    ensures NodeIds(AddChain(g, chain, index).nodes)
         == NodeIds(g.nodes) + {PoliticianId(chain.politician), PolicyId(index, PolicyLabel(chain.policy)),
                                SectorId(chain.industryOrSector)} + CompanyIdsOf(chain.companies)
    ensures LinkSet(AddChain(g, chain, index).edges)
         == LinkSet(g.edges) + {Link(PoliticianId(chain.politician), PolicyId(index, PolicyLabel(chain.policy))),
                                Link(PolicyId(index, PolicyLabel(chain.policy)), SectorId(chain.industryOrSector))}
            + CompanyLinksOf(SectorId(chain.industryOrSector), chain.companies)
  {
    var head := AddChainHead(g, chain, index);
    AddChainHeadSets(g, chain, index);
    AddCompaniesSets(head, SectorId(chain.industryOrSector), chain.companies, chain.evidence);
  }

  // ---------------------------------------------------------------------------
  // Set algebra, kept apart from the id functions so that it stays cheap

  lemma RegroupNodes<T>(n0: set<T>, P: set<T>, Q: set<T>, S: set<T>, C: set<T>, p: T, q: T, s: T, CI: set<T>)
    requires n0 == P + Q + S + C
    ensures n0 + {p, q, s} + CI == (P + {p}) + (Q + {q}) + (S + {s}) + (C + CI)
  {
  }

  lemma RegroupLinks<T>(l0: set<T>, A: set<T>, B: set<T>, D: set<T>, a: T, b: T, DI: set<T>)
    requires l0 == A + B + D
    ensures l0 + {a, b} + DI == (A + {a}) + (B + {b}) + (D + DI)
  {
  }

  // ---------------------------------------------------------------------------
  // The whole build

  /** Node ids are unique, links are unique, every link joins two nodes of the
      graph in adjacent tiers (input -> policy -> sector -> enterprise), each
      node's type is the one its id announces, and every node is still at
      (0, 0). */
  lemma {:induction false} BuildWellFormed(chains: seq<InfluenceChain>)
    ensures WellFormed(Build(chains))
    decreases |chains|
  {
    if chains != [] {
      var i := |chains| - 1;
      BuildWellFormed(chains[..i]);
      AddChainWellFormed(Build(chains[..i]), chains[i], i);
    }
  }

  /** The node ids are exactly those the chains name. */
  lemma {:induction false} BuildNodeIds(chains: seq<InfluenceChain>)
    ensures NodeIds(Build(chains).nodes)
         == PoliticianIds(chains) + PolicyIds(chains) + SectorIds(chains) + CompanyIds(chains)
    decreases |chains|
  {
    if chains != [] {
      var i := |chains| - 1;
      var front, chain := chains[..i], chains[i];
      BuildNodeIds(front);
      AddChainSets(Build(front), chain, i);
      RegroupNodes(NodeIds(Build(front).nodes), PoliticianIds(front), PolicyIds(front), SectorIds(front), CompanyIds(front),
                   PoliticianId(chain.politician), PolicyIdOf(chains, i), SectorId(chain.industryOrSector),
                   CompanyIdsOf(chain.companies));
    }
  }

  /** The links are exactly those the chains name. */
  lemma {:induction false} BuildLinkSet(chains: seq<InfluenceChain>)
    ensures LinkSet(Build(chains).edges)
         == InputPolicyLinks(chains) + PolicySectorLinks(chains) + SectorCompanyLinks(chains)
    decreases |chains|
  {
    if chains != [] {
      var i := |chains| - 1;
      var front, chain := chains[..i], chains[i];
      BuildLinkSet(front);
      AddChainSets(Build(front), chain, i);
      RegroupLinks(LinkSet(Build(front).edges), InputPolicyLinks(front), PolicySectorLinks(front), SectorCompanyLinks(front),
                   Link(PoliticianId(chain.politician), PolicyIdOf(chains, i)),
                   Link(PolicyIdOf(chains, i), SectorId(chain.industryOrSector)),
                   CompanyLinksOf(SectorId(chain.industryOrSector), chain.companies));
    }
  }

  /** Nodes and links are only ever appended: the graph built from a prefix
      of the chains is a prefix of the graph built from all of them. */
  lemma {:induction false} BuildExtends(chains: seq<InfluenceChain>, i: nat)
    requires i <= |chains|
    ensures Extends(Build(chains[..i]), Build(chains))
    decreases |chains|
  {
    if i < |chains| {
      var front := chains[..|chains| - 1];
      assert chains[..i] == front[..i];
      BuildExtends(front, i);
    } else {
      assert chains[..i] == chains;
    }
  }

  // ---------------------------------------------------------------------------
  // The expected id sets are typed by their prefixes

  lemma {:induction false} PoliticianIdsTyped(chains: seq<InfluenceChain>)
    ensures forall id :: id in PoliticianIds(chains) ==> IdType(id) == Some(Input)
    decreases |chains|
  {
    if chains != [] {
      PoliticianIdsTyped(chains[..|chains| - 1]);
    }
  }

  /** Every policy id names its type and a chain index below |chains|. */
  lemma {:induction false} PolicyIdsTyped(chains: seq<InfluenceChain>)
    ensures forall id :: id in PolicyIds(chains) ==> IdType(id) == Some(Policy) && PolicyIndex(id) < |chains|
    decreases |chains|
  {
    if chains != [] {
      PolicyIdsTyped(chains[..|chains| - 1]);
    }
  }

  lemma {:induction false} SectorIdsTyped(chains: seq<InfluenceChain>)
    ensures forall id :: id in SectorIds(chains) ==> IdType(id) == Some(Sector)
    decreases |chains|
  {
    if chains != [] {
      SectorIdsTyped(chains[..|chains| - 1]);
    }
  }

  lemma {:induction false} CompanyIdsOfTyped(companies: seq<string>)
    ensures forall id :: id in CompanyIdsOf(companies) ==> IdType(id) == Some(Enterprise)
    decreases |companies|
  {
    if companies != [] {
      CompanyIdsOfTyped(companies[..|companies| - 1]);
    }
  }

  lemma {:induction false} CompanyIdsTyped(chains: seq<InfluenceChain>)
    ensures forall id :: id in CompanyIds(chains) ==> IdType(id) == Some(Enterprise)
    decreases |chains|
  {
    if chains != [] {
      CompanyIdsTyped(chains[..|chains| - 1]);
      CompanyIdsOfTyped(chains[|chains| - 1].companies);
    }
  }

  lemma {:induction false} InputPolicyLinksTyped(chains: seq<InfluenceChain>)
    ensures forall l :: l in InputPolicyLinks(chains) ==> l.target in PolicyIds(chains) && IdType(l.target) == Some(Policy)
    decreases |chains|
  {
    if chains != [] {
      InputPolicyLinksTyped(chains[..|chains| - 1]);
    }
  }

  lemma {:induction false} PolicySectorLinksTyped(chains: seq<InfluenceChain>)
    ensures forall l :: l in PolicySectorLinks(chains) ==> l.source in PolicyIds(chains) && IdType(l.target) == Some(Sector)
    decreases |chains|
  {
    if chains != [] {
      PolicySectorLinksTyped(chains[..|chains| - 1]);
    }
  }

  lemma {:induction false} CompanyLinksOfTyped(sectorId: string, companies: seq<string>)
    ensures forall l :: l in CompanyLinksOf(sectorId, companies) ==> IdType(l.target) == Some(Enterprise)
    decreases |companies|
  {
    if companies != [] {
      CompanyLinksOfTyped(sectorId, companies[..|companies| - 1]);
    }
  }

  lemma {:induction false} SectorCompanyLinksTyped(chains: seq<InfluenceChain>)
    ensures forall l :: l in SectorCompanyLinks(chains) ==> IdType(l.target) == Some(Enterprise)
    decreases |chains|
  {
    if chains != [] {
      var i := |chains| - 1;
      SectorCompanyLinksTyped(chains[..i]);
      CompanyLinksOfTyped(SectorId(chains[i].industryOrSector), chains[i].companies);
    }
  }

  // ---------------------------------------------------------------------------
  // Policy ids embed the chain index

  lemma AddFreshCount<T>(A: set<T>, x: T)
    requires x !in A
    ensures |A + {x}| == |A| + 1
  {
  }

  /** Each chain has its own policy id, even when two chains name the same
      policy. */
  lemma {:induction false} PolicyIdsCount(chains: seq<InfluenceChain>)
    ensures |PolicyIds(chains)| == |chains|
    decreases |chains|
  {
    if chains != [] {
      var i := |chains| - 1;
      var front, policyId := chains[..i], PolicyIdOf(chains, i);
      PolicyIdsCount(front);
      PolicyIdsTyped(front);
      assert PolicyIndex(policyId) == i;
      AddFreshCount(PolicyIds(front), policyId);
    }
  }

  /** Each chain has its own politician -> policy link, even when two chains
      name the same politician and the same policy. */
  lemma {:induction false} InputPolicyLinksCount(chains: seq<InfluenceChain>)
    ensures |InputPolicyLinks(chains)| == |chains|
    decreases |chains|
  {
    if chains != [] {
      var i := |chains| - 1;
      var front, policyId := chains[..i], PolicyIdOf(chains, i);
      var link := Link(PoliticianId(chains[i].politician), policyId);
      InputPolicyLinksCount(front);
      PolicyIdsTyped(front);
      InputPolicyLinksTyped(front);
      assert PolicyIndex(policyId) == i;
      AddFreshCount(InputPolicyLinks(front), link);
    }
  }

  /** Each chain has its own policy -> sector link. */
  lemma {:induction false} PolicySectorLinksCount(chains: seq<InfluenceChain>)
    ensures |PolicySectorLinks(chains)| == |chains|
    decreases |chains|
  {
    if chains != [] {
      var i := |chains| - 1;
      var front, policyId := chains[..i], PolicyIdOf(chains, i);
      var link := Link(policyId, SectorId(chains[i].industryOrSector));
      PolicySectorLinksCount(front);
      PolicyIdsTyped(front);
      PolicySectorLinksTyped(front);
      assert PolicyIndex(policyId) == i;
      AddFreshCount(PolicySectorLinks(front), link);
    }
  }

  // ---------------------------------------------------------------------------
  // Counts

  /** Selecting the ids of one type from four sets typed by prefix gives back
      the set of that type. */
  lemma SelectType(P: set<string>, Q: set<string>, S: set<string>, C: set<string>)
    requires forall id :: id in P ==> IdType(id) == Some(Input)
    requires forall id :: id in Q ==> IdType(id) == Some(Policy)
    requires forall id :: id in S ==> IdType(id) == Some(Sector)
    requires forall id :: id in C ==> IdType(id) == Some(Enterprise)
    ensures (set id | id in P + Q + S + C && IdType(id) == Some(Input)) == P
    ensures (set id | id in P + Q + S + C && IdType(id) == Some(Policy)) == Q
    ensures (set id | id in P + Q + S + C && IdType(id) == Some(Sector)) == S
    ensures (set id | id in P + Q + S + C && IdType(id) == Some(Enterprise)) == C
  {
  }

  /** In a well-formed node list, the nodes of one type are as many as the
      ids whose prefix announces that type. */
  lemma TypeCount(nodes: seq<Node>, t: NodeType)
    requires UniqueIds(nodes) && NodesTypedById(nodes)
    ensures |OfType(nodes, t)| == |set id | id in NodeIds(nodes) && IdType(id) == Some(t)|
  {
    OfTypeIds(nodes, t);
    OfTypeUnique(nodes, t);
    NodeIdsCount(OfType(nodes, t));
    assert NodeIds(OfType(nodes, t)) == set id | id in NodeIds(nodes) && IdType(id) == Some(t);
  }

  lemma DisjointUnionCount<T>(A: set<T>, B: set<T>, D: set<T>)
    requires A * B == {} && A * D == {} && B * D == {}
    ensures |A + B + D| == |A| + |B| + |D|
  {
    assert (A + B) * D == {};
  }

  /** The node counts of the graph built from the chains: one politician node
      per distinct normalised politician name, one policy node per chain, one
      sector node per distinct normalised sector name and one company node per
      distinct normalised company name. */
  lemma BuildNodeCounts(chains: seq<InfluenceChain>)
    ensures |OfType(Build(chains).nodes, Input)| == |PoliticianIds(chains)|
    ensures |OfType(Build(chains).nodes, Policy)| == |chains|
    ensures |OfType(Build(chains).nodes, Sector)| == |SectorIds(chains)|
    ensures |OfType(Build(chains).nodes, Enterprise)| == |CompanyIds(chains)|
    ensures |Build(chains).nodes| == |PoliticianIds(chains)| + |chains| + |SectorIds(chains)| + |CompanyIds(chains)|
  {
    var nodes := Build(chains).nodes;
    BuildWellFormed(chains);
    BuildNodeIds(chains);
    PoliticianIdsTyped(chains);
    PolicyIdsTyped(chains);
    SectorIdsTyped(chains);
    CompanyIdsTyped(chains);
    PolicyIdsCount(chains);
    SelectType(PoliticianIds(chains), PolicyIds(chains), SectorIds(chains), CompanyIds(chains));
    TypeCount(nodes, Input);
    TypeCount(nodes, Policy);
    TypeCount(nodes, Sector);
    TypeCount(nodes, Enterprise);
    OfTypePartition(nodes);
  }

  /** Two links per chain (politician -> policy and policy -> sector) plus one
      per distinct (sector, company) pair. */
  lemma BuildLinkCount(chains: seq<InfluenceChain>)
    ensures |Build(chains).edges| == 2 * |chains| + |SectorCompanyLinks(chains)|
  {
    var A, B, D := InputPolicyLinks(chains), PolicySectorLinks(chains), SectorCompanyLinks(chains);
    BuildWellFormed(chains);
    BuildLinkSet(chains);
    InputPolicyLinksCount(chains);
    PolicySectorLinksCount(chains);
    InputPolicyLinksTyped(chains);
    PolicySectorLinksTyped(chains);
    SectorCompanyLinksTyped(chains);
    assert A * B == {} && A * D == {} && B * D == {};
    DisjointUnionCount(A, B, D);
    LinkSetCount(Build(chains).edges);
  }

  // ---------------------------------------------------------------------------
  // Each chain is represented

  /** The policy id of chain i is new when chain i is processed. */
  lemma PolicyIdFresh(chains: seq<InfluenceChain>, i: nat)
    requires i < |chains|
    ensures PolicyIdOf(chains, i) !in NodeIds(Build(chains[..i]).nodes)
  {
    var front := chains[..i];
    BuildNodeIds(front);
    PoliticianIdsTyped(front);
    PolicyIdsTyped(front);
    SectorIdsTyped(front);
    CompanyIdsTyped(front);
    assert PolicyIndex(PolicyIdOf(chains, i)) == i;
  }

  /** The policy node of a chain whose policy id is new is appended. */
  lemma AddChainPolicyNode(g: Graph, chain: InfluenceChain, index: nat)
    requires PolicyId(index, PolicyLabel(chain.policy)) !in NodeIds(g.nodes)
    ensures PolicyNode(chain, index) in AddChain(g, chain, index).nodes
  {
    var n1 := NewNode(PoliticianId(chain.politician), Input, chain.politician, NoMetadata);
    var g1 := WithNode(g, n1);
    WithNodeEffect(g, n1);
    var n2 := PolicyNode(chain, index);
    WithNodeEffect(g1, n2);
    var g2 := WithNode(g1, n2);
    assert n2 in g2.nodes;
    var sectorId := SectorId(chain.industryOrSector);
    var g3 := WithLink(g2, PoliticianId(chain.politician), n2.id);
    var g4 := WithNode(g3, NewNode(sectorId, Sector, chain.industryOrSector, NoMetadata));
    assert g2.nodes <= g4.nodes;
  }

  /** What one chain adds: its politician's and its sector's nodes, the links
      through its policy node, and its companies' nodes and links. */
  lemma AddChainContains(g: Graph, chain: InfluenceChain, index: nat)
    ensures PoliticianId(chain.politician) in NodeIds(AddChain(g, chain, index).nodes)
    ensures SectorId(chain.industryOrSector) in NodeIds(AddChain(g, chain, index).nodes)
    ensures Link(PoliticianId(chain.politician), PolicyId(index, PolicyLabel(chain.policy))) in AddChain(g, chain, index).edges
    ensures Link(PolicyId(index, PolicyLabel(chain.policy)), SectorId(chain.industryOrSector)) in AddChain(g, chain, index).edges
    ensures CompanyIdsOf(chain.companies) <= NodeIds(AddChain(g, chain, index).nodes)
    ensures CompanyLinksOf(SectorId(chain.industryOrSector), chain.companies) <= LinkSet(AddChain(g, chain, index).edges)
  {
    AddChainSets(g, chain, index);
  }

  /** A node of the graph built from a prefix of the chains is a node of the
      graph built from all of them. */
  lemma BuildKeepsNode(chains: seq<InfluenceChain>, j: nat, n: Node)
    requires j <= |chains| && n in Build(chains[..j]).nodes
    ensures n in Build(chains).nodes
  {
    BuildExtends(chains, j);
    InPrefix(n, Build(chains[..j]).nodes, Build(chains).nodes);
  }

  lemma PolicyNodeAdded(chains: seq<InfluenceChain>, i: nat)
    requires i < |chains|
    ensures PolicyNode(chains[i], i) in Build(chains[..i + 1]).nodes
  {
    PolicyIdFresh(chains, i);
    AddChainPolicyNode(Build(chains[..i]), chains[i], i);
    BuildStep(chains, i);
  }

  /** Chain i has its own policy node, with its first-seen content, its label
      after the sentinel substitution, at (0, 0). */
  lemma ChainPolicyNode(chains: seq<InfluenceChain>, i: nat)
    requires i < |chains|
    ensures PolicyNode(chains[i], i) in Build(chains).nodes
  {
    var n, j := PolicyNode(chains[i], i), i + 1;
    PolicyNodeAdded(chains, i);
    BuildKeepsNode(chains, j, n);
  }

  lemma InPrefix<T>(x: T, a: seq<T>, b: seq<T>)
    requires x in a && a <= b
    ensures x in b
  {
    var k :| 0 <= k < |a| && a[k] == x;
    assert b[k] == x;
  }

  /** Chain i's politician and sector have nodes, joined through chain i's
      policy node by links. */
  lemma ChainLinks(chains: seq<InfluenceChain>, i: nat)
    requires i < |chains|
    ensures PoliticianId(chains[i].politician) in NodeIds(Build(chains).nodes)
    ensures SectorId(chains[i].industryOrSector) in NodeIds(Build(chains).nodes)
    ensures Link(PoliticianId(chains[i].politician), PolicyIdOf(chains, i)) in Build(chains).edges
    ensures Link(PolicyIdOf(chains, i), SectorId(chains[i].industryOrSector)) in Build(chains).edges
  {
    var j, front, chain := i + 1, chains[..i], chains[i];
    var g, upto, all := Build(front), Build(chains[..j]), Build(chains);
    AddChainContains(g, chain, i);
    BuildStep(chains, i);
    BuildExtends(chains, j);
    NodeIdsPrefix(upto.nodes, all.nodes);
    LinkSetPrefix(upto.edges, all.edges);
  }

  /** Each of chain i's companies has a node and a link from chain i's sector
      node. */
  lemma ChainCompanies(chains: seq<InfluenceChain>, i: nat)
    requires i < |chains|
    ensures CompanyIdsOf(chains[i].companies) <= NodeIds(Build(chains).nodes)
    ensures CompanyLinksOf(SectorId(chains[i].industryOrSector), chains[i].companies) <= LinkSet(Build(chains).edges)
  {
    var j, front, chain := i + 1, chains[..i], chains[i];
    var g, upto, all := Build(front), Build(chains[..j]), Build(chains);
    AddChainContains(g, chain, i);
    BuildStep(chains, i);
    BuildExtends(chains, j);
    NodeIdsPrefix(upto.nodes, all.nodes);
    LinkSetPrefix(upto.edges, all.edges);
  }

  /** Each single company of a chain has its node in the built graph, linked
      from that chain's sector node. */
  lemma ChainCompany(chains: seq<InfluenceChain>, i: nat, k: nat)
    requires i < |chains| && k < |chains[i].companies|
    ensures CompanyId(chains[i].companies[k]) in NodeIds(Build(chains).nodes)
    ensures Link(SectorId(chains[i].industryOrSector), CompanyId(chains[i].companies[k])) in LinkSet(Build(chains).edges)
  {
    ChainCompanies(chains, i);
    CompanyIdsOfHas(SectorId(chains[i].industryOrSector), chains[i].companies, k);
  }

  lemma LinkSetPrefix(a: seq<Link>, b: seq<Link>)
    requires a <= b
    ensures LinkSet(a) <= LinkSet(b)
  {
    assert forall l :: l in a ==> l in b;
  }

  lemma {:induction false} CompanyIdsOfHas(sectorId: string, companies: seq<string>, k: nat)
    requires k < |companies|
    ensures CompanyId(companies[k]) in CompanyIdsOf(companies)
    ensures Link(sectorId, CompanyId(companies[k])) in CompanyLinksOf(sectorId, companies)
    decreases |companies|
  {
    if k < |companies| - 1 {
      CompanyIdsOfHas(sectorId, companies[..|companies| - 1], k);
    }
  }

  lemma NodeIdsPrefix(a: seq<Node>, b: seq<Node>)
    requires a <= b
    ensures NodeIds(a) <= NodeIds(b)
  {
    forall id | id in NodeIds(a) ensures id in NodeIds(b) {
      var k :| 0 <= k < |a| && a[k].id == id;
      assert b[k] == a[k];
    }
  }

  /** A chain whose policy is exactly "None directly linked" gets a policy
      node labelled "Indirect Influence", with the id built from that label. */
  lemma SentinelPolicy(chains: seq<InfluenceChain>, i: nat)
    requires i < |chains| && chains[i].policy == NoDirectLink
    ensures exists k :: 0 <= k < |Build(chains).nodes|
              && Build(chains).nodes[k].id == PolicyId(i, "Indirect Influence")
              && Build(chains).nodes[k].labelText == "Indirect Influence"
              && Build(chains).nodes[k].nodeType == Policy
  {
    ChainPolicyNode(chains, i);
  }
}
