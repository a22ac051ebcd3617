/** The graph the builder produces and the renderer consumes: typed nodes,
    directed links and the per-type metadata the builder attaches. */
module GraphTypes {

  datatype Option<T> = None | Some(value: T)

  /** The four node types, in tier order. */
  datatype NodeType = Input | Policy | Sector | Enterprise

  /** Tier of a node type: input 0, policy 1, sector 2, enterprise 3. */
  function Tier(t: NodeType): nat {
    match t
    case Input => 0
    case Policy => 1
    case Sector => 2
    case Enterprise => 3
  }

  datatype Evidence = Evidence(sourceTitle: string, url: string)

  /** Metadata by node type: politician and sector nodes carry none, policy
      nodes a description and the chain's evidence, company nodes the
      placeholder market fields and the chain's evidence. */
  datatype Metadata =
    | NoMetadata
    | PolicyMetadata(description: string, evidence: seq<Evidence>)
    | EnterpriseMetadata(stockCode: string, currentPrice: string, evidence: seq<Evidence>)

  datatype Node = Node(id: string, nodeType: NodeType, labelText: string, metadata: Metadata, x: real, y: real)

  datatype Link = Link(source: string, target: string)

  datatype Graph = Graph(nodes: seq<Node>, edges: seq<Link>)

  const EmptyGraph := Graph([], [])

  /** The set of ids carried by a node list. */
  function NodeIds(nodes: seq<Node>): set<string> {
    set k | 0 <= k < |nodes| :: nodes[k].id
  }

  /** The set of links in a link list. */
  function LinkSet(links: seq<Link>): set<Link> {
    set l | l in links
  }

  /** `nodes.filter((n) => n.type === t)`. */
  function OfType(nodes: seq<Node>, t: NodeType): (r: seq<Node>)
    ensures |r| <= |nodes|
    ensures forall k :: 0 <= k < |r| ==> r[k].nodeType == t && r[k] in nodes
  {
    if nodes == [] then []
    else
      var rest := OfType(nodes[..|nodes| - 1], t);
      if nodes[|nodes| - 1].nodeType == t then rest + [nodes[|nodes| - 1]] else rest
  }

  predicate UniqueIds(nodes: seq<Node>) {
    forall i, j :: 0 <= i < j < |nodes| ==> nodes[i].id != nodes[j].id
  }

  predicate UniqueLinks(links: seq<Link>) {
    forall i, j :: 0 <= i < j < |links| ==> links[i] != links[j]
  }

  // ---------------------------------------------------------------------------
  // Counting lemmas

  lemma NodeIdsAppend(nodes: seq<Node>, n: Node)
    ensures NodeIds(nodes + [n]) == NodeIds(nodes) + {n.id}
  {
    var s := nodes + [n];
    assert forall k :: 0 <= k < |nodes| ==> s[k] == nodes[k];
    assert s[|nodes|] == n;
  }

  lemma LinkSetAppend(links: seq<Link>, l: Link)
    ensures LinkSet(links + [l]) == LinkSet(links) + {l}
  {
    var s := links + [l];
    assert forall x :: x in s <==> x in links || x == l;
  }

  lemma {:induction false} NodeIdsCount(nodes: seq<Node>)
    requires UniqueIds(nodes)
    ensures |NodeIds(nodes)| == |nodes|
  {
    if nodes != [] {
      var front := nodes[..|nodes| - 1];
      NodeIdsCount(front);
      assert nodes == front + [nodes[|nodes| - 1]];
      NodeIdsAppend(front, nodes[|nodes| - 1]);
      assert nodes[|nodes| - 1].id !in NodeIds(front);
    }
  }

  lemma {:induction false} LinkSetCount(links: seq<Link>)
    requires UniqueLinks(links)
    ensures |LinkSet(links)| == |links|
  {
    if links != [] {
      var front := links[..|links| - 1];
      LinkSetCount(front);
      assert links == front + [links[|links| - 1]];
      LinkSetAppend(front, links[|links| - 1]);
      assert links[|links| - 1] !in LinkSet(front);
    }
  }

  /** Filtering keeps exactly the ids of the nodes of the given type. */
  lemma {:induction false} OfTypeIds(nodes: seq<Node>, t: NodeType)
    ensures NodeIds(OfType(nodes, t)) == set k | 0 <= k < |nodes| && nodes[k].nodeType == t :: nodes[k].id
  {
    if nodes != [] {
      var front, last := nodes[..|nodes| - 1], nodes[|nodes| - 1];
      OfTypeIds(front, t);
      if last.nodeType == t {
        NodeIdsAppend(OfType(front, t), last);
      }
      assert (set k | 0 <= k < |nodes| && nodes[k].nodeType == t :: nodes[k].id)
          == (set k | 0 <= k < |front| && front[k].nodeType == t :: front[k].id)
             + (if last.nodeType == t then {last.id} else {});
    }
  }

  /** Filtering a list with unique ids gives a list with unique ids. */
  lemma {:induction false} OfTypeUnique(nodes: seq<Node>, t: NodeType)
    requires UniqueIds(nodes)
    ensures UniqueIds(OfType(nodes, t))
  {
    if nodes != [] {
      var front, last := nodes[..|nodes| - 1], nodes[|nodes| - 1];
      OfTypeUnique(front, t);
      var rest := OfType(front, t);
      if last.nodeType == t {
        forall k | 0 <= k < |rest| ensures rest[k].id != last.id {
          var j :| 0 <= j < |front| && front[j] == rest[k];
          assert nodes[j] == rest[k];
        }
        var r := rest + [last];
        forall a, b | 0 <= a < b < |r| ensures r[a].id != r[b].id {
          if b < |rest| {
            assert r[a] == rest[a] && r[b] == rest[b];
          } else {
            assert r[a] == rest[a];
          }
        }
      }
    }
  }

  /** The four type buckets partition a node list. */
  lemma {:induction false} OfTypePartition(nodes: seq<Node>)
    ensures |nodes| == |OfType(nodes, Input)| + |OfType(nodes, Policy)|
                       + |OfType(nodes, Sector)| + |OfType(nodes, Enterprise)|
  {
    if nodes != [] {
      OfTypePartition(nodes[..|nodes| - 1]);
    }
  }
}
