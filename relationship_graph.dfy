/** The renderer (components/relationship-graph.tsx): the layered layout that
    gives every node a position, the viewport rules it depends on, the
    per-type shape and colour tables, label truncation and the guard that
    decides which edges are drawn.

    `Layout` is the value-level specification of the layout effect: four
    buckets, one per node type, each placed in list order into a map that
    starts empty. `ComputePositions` runs the effect's loops and is proved to
    produce `Layout` of its inputs. */
module RelationshipGraph {
  import opened GraphTypes

  /** A position on the drawing surface. */
  datatype Pos = Pos(x: real, y: real)

  // ---------------------------------------------------------------------------
  // Viewport

  /** `window.innerWidth < 768`: the narrow layout. */
  predicate IsMobile(innerWidth: int) {
    innerWidth < 768
  }

  /** The surface height: `Math.max(isMobile ? 800 : 600, window.innerHeight * 0.7)`. */
  function ViewportHeight(isMobile: bool, innerHeight: real): (h: real)
    ensures h >= (if isMobile then 800.0 else 600.0)
    ensures h >= innerHeight * 0.7
    ensures h == (if isMobile then 800.0 else 600.0) || h == innerHeight * 0.7
  {
    var floor := if isMobile then 800.0 else 600.0;
    if floor >= innerHeight * 0.7 then floor else innerHeight * 0.7
  }

  /** Below the 768 breakpoint the surface is at least 800 high, otherwise at
      least 600; either way never less than 70% of the window height. */
  lemma BreakpointHeight(innerWidth: int, innerHeight: real)
    ensures innerWidth < 768 ==> ViewportHeight(IsMobile(innerWidth), innerHeight) >= 800.0
    ensures innerWidth >= 768 ==> ViewportHeight(IsMobile(innerWidth), innerHeight) >= 600.0
    ensures ViewportHeight(IsMobile(innerWidth), innerHeight) >= innerHeight * 0.7
  {
  }

  // ---------------------------------------------------------------------------
  // Positions

  /** The margin kept on both sides of the tiered axis. */
  function Padding(isMobile: bool): real {
    if isMobile then 40.0 else 80.0
  }

  /** The i-th of k nodes spread evenly over [0, extent]:
      `extent / (k + 1) * (i + 1)`. */
  function Spread(extent: real, i: nat, k: nat): real {
    extent / ((k + 1) as real) * ((i + 1) as real)
  }

  /** The centre of tier t on an axis of the given length: the axis minus
      both paddings is cut into four bands, and tier t sits in the middle of
      band t. */
  function Band(extent: real, padding: real, t: NodeType): real {
    padding + (extent - padding * 2.0) / 4.0 * (Tier(t) as real + 0.5)
  }

  /** Where the i-th of the k nodes of type t goes. On mobile the tiers are
      rows: input nodes are centred horizontally and the others spread across
      the width. On desktop the tiers are columns: input nodes are centred
      vertically and the others spread down the height. */
  function TierPosition(t: NodeType, i: nat, k: nat, width: real, height: real, isMobile: bool): Pos {
    var padding := Padding(isMobile);
    if isMobile then
      Pos(if t == Input then width / 2.0 else Spread(width, i, k), Band(height, padding, t))
    else
      Pos(Band(width, padding, t), if t == Input then height / 2.0 else Spread(height, i, k))
  }

  /** One `forEach` of the effect: the nodes of one bucket (k of them in all)
      set in list order, a later node with the same id overwriting an earlier
      one. */
  function PlaceTier(m: map<string, Pos>, bucket: seq<Node>, t: NodeType, k: nat,
                     width: real, height: real, isMobile: bool): (r: map<string, Pos>)
    ensures r.Keys == m.Keys + NodeIds(bucket)
    decreases |bucket|
  {
    if bucket == [] then m
    else
      var n := |bucket| - 1;
      NodeIdsAppend(bucket[..n], bucket[n]);
      assert bucket[..n] + [bucket[n]] == bucket;
      PlaceTier(m, bucket[..n], t, k, width, height, isMobile)[bucket[n].id := TierPosition(t, n, k, width, height, isMobile)]
  }

  /** The positions the layout effect computes, from a fresh map: input,
      policy, sector and enterprise buckets in that order. */
  function Layout(nodes: seq<Node>, width: real, height: real, isMobile: bool): map<string, Pos> {
    var inputNodes := OfType(nodes, Input);
    var policyNodes := OfType(nodes, Policy);
    var sectorNodes := OfType(nodes, Sector);
    var enterpriseNodes := OfType(nodes, Enterprise);
    var m1 := PlaceTier(map[], inputNodes, Input, |inputNodes|, width, height, isMobile);
    var m2 := PlaceTier(m1, policyNodes, Policy, |policyNodes|, width, height, isMobile);
    var m3 := PlaceTier(m2, sectorNodes, Sector, |sectorNodes|, width, height, isMobile);
    PlaceTier(m3, enterpriseNodes, Enterprise, |enterpriseNodes|, width, height, isMobile)
  }

  /** The rank of node j among the nodes of its type: how many nodes of that
      type come before it. */
  function Rank(nodes: seq<Node>, j: nat): nat
    requires j < |nodes|
  {
    |OfType(nodes[..j], nodes[j].nodeType)|
  }

  // ---------------------------------------------------------------------------
  // The effect's loops

  /** Placing one more node of the bucket is one more map update. */
  lemma PlaceTierStep(m: map<string, Pos>, bucket: seq<Node>, t: NodeType, k: nat,
                      width: real, height: real, isMobile: bool, i: nat)
    requires i < |bucket|
    ensures PlaceTier(m, bucket[..i + 1], t, k, width, height, isMobile)
         == PlaceTier(m, bucket[..i], t, k, width, height, isMobile)[bucket[i].id := TierPosition(t, i, k, width, height, isMobile)]
  {
    var upto := bucket[..i + 1];
    assert upto[..i] == bucket[..i] && upto[i] == bucket[i];
  }

  /** One `forEach ... positions.set(...)` loop over a bucket. */
  method PlaceBucket(positions0: map<string, Pos>, bucket: seq<Node>, t: NodeType,
                     width: real, height: real, isMobile: bool) returns (positions: map<string, Pos>)
    ensures positions == PlaceTier(positions0, bucket, t, |bucket|, width, height, isMobile)
  {
    positions := positions0;
    var i := 0;
    while i < |bucket|
      invariant 0 <= i <= |bucket|
      invariant positions == PlaceTier(positions0, bucket[..i], t, |bucket|, width, height, isMobile)
    {
      var node := bucket[i];
      PlaceTierStep(positions0, bucket, t, |bucket|, width, height, isMobile, i);
      positions := positions[node.id := TierPosition(t, i, |bucket|, width, height, isMobile)];
      i := i + 1;
    }
    assert bucket[..i] == bucket;
  }

  /** The layout effect: the four buckets, then each placed in turn into a
      fresh map. */
  method ComputePositions(nodes: seq<Node>, width: real, height: real, isMobile: bool)
    returns (positions: map<string, Pos>)
    ensures positions == Layout(nodes, width, height, isMobile)
  {
    var inputNodes := OfType(nodes, Input);
    var policyNodes := OfType(nodes, Policy);
    var sectorNodes := OfType(nodes, Sector);
    var enterpriseNodes := OfType(nodes, Enterprise);
    positions := map[];
    positions := PlaceBucket(positions, inputNodes, Input, width, height, isMobile);
    positions := PlaceBucket(positions, policyNodes, Policy, width, height, isMobile);
    positions := PlaceBucket(positions, sectorNodes, Sector, width, height, isMobile);
    positions := PlaceBucket(positions, enterpriseNodes, Enterprise, width, height, isMobile);
  }

  // ---------------------------------------------------------------------------
  // Drawing decisions

  datatype Shape = Ellipse | Rect | RoundedRect | Pentagon

  /** `getNodeShape`. */
  function ShapeOf(t: NodeType): Shape {
    match t
    case Input => Ellipse
    case Policy => Rect
    case Sector => RoundedRect
    case Enterprise => Pentagon
  }

  /** `getNodeColor`: one theme colour per type. */
  function ColorOf(t: NodeType): string {
    match t
    case Input => "hsl(var(--color-node-input))"
    case Policy => "hsl(var(--color-node-policy))"
    case Sector => "hsl(var(--color-node-sector))"
    case Enterprise => "hsl(var(--color-node-enterprise))"
  }

  /** `truncateText`: the text itself when it fits, else its first maxLength
      characters followed by an ellipsis. */
  function TruncateText(text: string, maxLength: nat): (r: string)
    ensures |text| <= maxLength ==> r == text
    ensures |text| > maxLength ==> |r| == maxLength + 3 && r[..maxLength] == text[..maxLength]
                                   && r[maxLength..] == "..."
  {
    if |text| <= maxLength then text else text[..maxLength] + "..."
  }

  /** The label drawn inside a node: 8 characters on mobile, 12 on desktop. */
  function LabelText(labelText: string, isMobile: bool): string {
    var maxLength := if isMobile then 8 else 12;
    TruncateText(labelText, maxLength)
  }

  /** The edge guard: an edge is drawn only when both ends have a position. */
  predicate EdgeDrawn(positions: map<string, Pos>, l: Link) {
    l.source in positions && l.target in positions
  }

  /** The edges that survive the guard, in order. */
  function DrawnEdges(positions: map<string, Pos>, edges: seq<Link>): (r: seq<Link>)
    ensures |r| <= |edges|
    ensures forall k :: 0 <= k < |r| ==> r[k] in edges && EdgeDrawn(positions, r[k])
    ensures forall l :: l in edges && EdgeDrawn(positions, l) ==> l in r
  {
    if edges == [] then []
    else
      var rest := DrawnEdges(positions, edges[..|edges| - 1]);
      if EdgeDrawn(positions, edges[|edges| - 1]) then rest + [edges[|edges| - 1]] else rest
  }

  /** The nodes that are drawn: those with a position, in order. */
  function DrawnNodes(positions: map<string, Pos>, nodes: seq<Node>): (r: seq<Node>)
    ensures |r| <= |nodes|
    ensures forall k :: 0 <= k < |r| ==> r[k] in nodes && r[k].id in positions
    ensures forall n :: n in nodes && n.id in positions ==> n in r
  {
    if nodes == [] then []
    else
      var rest := DrawnNodes(positions, nodes[..|nodes| - 1]);
      if nodes[|nodes| - 1].id in positions then rest + [nodes[|nodes| - 1]] else rest
  }

  // ---------------------------------------------------------------------------
  // Every node gets a position, from its type and its rank alone

  lemma {:induction false} PlaceTierAt(m: map<string, Pos>, bucket: seq<Node>, t: NodeType, k: nat,
                                       width: real, height: real, isMobile: bool, i: nat)
    requires UniqueIds(bucket) && i < |bucket|
    ensures PlaceTier(m, bucket, t, k, width, height, isMobile)[bucket[i].id] == TierPosition(t, i, k, width, height, isMobile)
    decreases |bucket|
  {
    var n := |bucket| - 1;
    if i < n {
      var front := bucket[..n];
      assert front[i] == bucket[i];
      PlaceTierAt(m, front, t, k, width, height, isMobile, i);
    }
  }

  lemma {:induction false} PlaceTierOther(m: map<string, Pos>, bucket: seq<Node>, t: NodeType, k: nat,
                                          width: real, height: real, isMobile: bool, id: string)
    requires id in m && id !in NodeIds(bucket)
    ensures PlaceTier(m, bucket, t, k, width, height, isMobile)[id] == m[id]
    decreases |bucket|
  {
    if bucket != [] {
      var n := |bucket| - 1;
      NodeIdsAppend(bucket[..n], bucket[n]);
      assert bucket[..n] + [bucket[n]] == bucket;
      PlaceTierOther(m, bucket[..n], t, k, width, height, isMobile, id);
    }
  }

  /** Node j is the Rank(nodes, j)-th node of its type. */
  lemma {:induction false} RankInBucket(nodes: seq<Node>, j: nat)
    requires j < |nodes|
    ensures Rank(nodes, j) < |OfType(nodes, nodes[j].nodeType)|
    ensures OfType(nodes, nodes[j].nodeType)[Rank(nodes, j)] == nodes[j]
    decreases |nodes|
  {
    var n := |nodes| - 1;
    var front, t := nodes[..n], nodes[j].nodeType;
    if j < n {
      assert front[..j] == nodes[..j] && front[j] == nodes[j];
      RankInBucket(front, j);
    } else {
      assert nodes[..j] == front;
    }
  }

  /** With unique ids, a node's id is not in the bucket of another type. */
  lemma NotInOtherBucket(nodes: seq<Node>, j: nat, t: NodeType)
    requires UniqueIds(nodes) && j < |nodes| && nodes[j].nodeType != t
    ensures nodes[j].id !in NodeIds(OfType(nodes, t))
  {
    OfTypeIds(nodes, t);
  }

  /** The four buckets hold every node. */
  lemma BucketsCoverNodes(nodes: seq<Node>)
    ensures NodeIds(nodes) == NodeIds(OfType(nodes, Input)) + NodeIds(OfType(nodes, Policy))
                            + NodeIds(OfType(nodes, Sector)) + NodeIds(OfType(nodes, Enterprise))
  {
    var i, p, s, e := NodeIds(OfType(nodes, Input)), NodeIds(OfType(nodes, Policy)),
                      NodeIds(OfType(nodes, Sector)), NodeIds(OfType(nodes, Enterprise));
    OfTypeIds(nodes, Input);
    OfTypeIds(nodes, Policy);
    OfTypeIds(nodes, Sector);
    OfTypeIds(nodes, Enterprise);
    forall id | id in NodeIds(nodes) ensures id in i + p + s + e {
      var k :| 0 <= k < |nodes| && nodes[k].id == id;
      match nodes[k].nodeType
      case Input => assert id in i;
      case Policy => assert id in p;
      case Sector => assert id in s;
      case Enterprise => assert id in e;
    }
  }

  /** Completeness: the layout gives a position to exactly the ids of the
      nodes, whatever their number and order. */
  lemma LayoutKeys(nodes: seq<Node>, width: real, height: real, isMobile: bool)
    ensures Layout(nodes, width, height, isMobile).Keys == NodeIds(nodes)
  {
    BucketsCoverNodes(nodes);
  }

  /** The position of node j, in a list with unique ids, depends only on its
      type, on its rank among the nodes of that type and on how many nodes
      have that type. */
  lemma LayoutAt(nodes: seq<Node>, width: real, height: real, isMobile: bool, j: nat)
    requires UniqueIds(nodes) && j < |nodes|
    ensures nodes[j].id in Layout(nodes, width, height, isMobile)
    ensures Layout(nodes, width, height, isMobile)[nodes[j].id]
         == TierPosition(nodes[j].nodeType, Rank(nodes, j), |OfType(nodes, nodes[j].nodeType)|, width, height, isMobile)
  {
    var id, t, r := nodes[j].id, nodes[j].nodeType, Rank(nodes, j);
    var b1, b2, b3, b4 := OfType(nodes, Input), OfType(nodes, Policy), OfType(nodes, Sector), OfType(nodes, Enterprise);
    var m1 := PlaceTier(map[], b1, Input, |b1|, width, height, isMobile);
    var m2 := PlaceTier(m1, b2, Policy, |b2|, width, height, isMobile);
    var m3 := PlaceTier(m2, b3, Sector, |b3|, width, height, isMobile);
    var m4 := PlaceTier(m3, b4, Enterprise, |b4|, width, height, isMobile);
    var p := TierPosition(t, r, |OfType(nodes, t)|, width, height, isMobile);
    LayoutKeys(nodes, width, height, isMobile);
    RankInBucket(nodes, j);
    OfTypeUnique(nodes, t);
    if t == Input {
      PlaceTierAt(map[], b1, Input, |b1|, width, height, isMobile, r);
      NotInOtherBucket(nodes, j, Policy);
      NotInOtherBucket(nodes, j, Sector);
      NotInOtherBucket(nodes, j, Enterprise);
      PlaceTierOther(m1, b2, Policy, |b2|, width, height, isMobile, id);
      PlaceTierOther(m2, b3, Sector, |b3|, width, height, isMobile, id);
      PlaceTierOther(m3, b4, Enterprise, |b4|, width, height, isMobile, id);
    } else if t == Policy {
      PlaceTierAt(m1, b2, Policy, |b2|, width, height, isMobile, r);
      NotInOtherBucket(nodes, j, Sector);
      NotInOtherBucket(nodes, j, Enterprise);
      PlaceTierOther(m2, b3, Sector, |b3|, width, height, isMobile, id);
      PlaceTierOther(m3, b4, Enterprise, |b4|, width, height, isMobile, id);
    } else if t == Sector {
      PlaceTierAt(m2, b3, Sector, |b3|, width, height, isMobile, r);
      NotInOtherBucket(nodes, j, Enterprise);
      PlaceTierOther(m3, b4, Enterprise, |b4|, width, height, isMobile, id);
    } else {
      PlaceTierAt(m3, b4, Enterprise, |b4|, width, height, isMobile, r);
    }
  }

  // ---------------------------------------------------------------------------
  // Geometry of the layout

  /** The i-th of k spread nodes lies strictly inside the axis. */
  lemma SpreadBounds(extent: real, i: nat, k: nat)
    requires extent > 0.0 && i < k
    ensures 0.0 < Spread(extent, i, k) < extent
  {
    var step := extent / ((k + 1) as real);
    assert step > 0.0;
    assert step * ((i + 1) as real) < step * ((k + 1) as real);
  }

  /** Spread nodes keep their list order along the axis. */
  lemma SpreadIncreasing(extent: real, i: nat, j: nat, k: nat)
    requires extent > 0.0 && i < j
    ensures Spread(extent, i, k) < Spread(extent, j, k)
  {
    var step := extent / ((k + 1) as real);
    assert step > 0.0;
    assert step * ((i + 1) as real) < step * ((j + 1) as real);
  }

  /** The spread is symmetric about the middle of the axis; a lone node sits
      in the middle. */
  lemma SpreadSymmetric(extent: real, i: nat, k: nat)
    requires i < k
    ensures Spread(extent, i, k) + Spread(extent, k - 1 - i, k) == extent
    ensures k == 1 ==> Spread(extent, i, k) == extent / 2.0
  {
    var step := extent / ((k + 1) as real);
    assert step * ((k + 1) as real) == extent;
    assert step * ((i + 1) as real) + step * ((k - i) as real) == step * ((k + 1) as real);
  }

  /** Tier bands lie strictly inside the padded axis and in tier order. */
  lemma BandOrder(extent: real, padding: real, a: NodeType, b: NodeType)
    requires extent > padding * 2.0
    ensures padding < Band(extent, padding, a) < extent - padding
    ensures Tier(a) < Tier(b) ==> Band(extent, padding, a) < Band(extent, padding, b)
  {
    var unit := (extent - padding * 2.0) / 4.0;
    assert unit > 0.0;
    assert unit * (Tier(a) as real + 0.5) < unit * 4.0;
    if Tier(a) < Tier(b) {
      assert unit * (Tier(a) as real + 0.5) < unit * (Tier(b) as real + 0.5);
    }
  }

  /** Desktop: the columns go input, policy, sector, enterprise from left to
      right once the width exceeds both paddings (160). */
  lemma DesktopColumnsOrdered(a: NodeType, i: nat, k: nat, b: NodeType, j: nat, l: nat, width: real, height: real)
    requires width > 160.0 && Tier(a) < Tier(b)
    ensures TierPosition(a, i, k, width, height, false).x < TierPosition(b, j, l, width, height, false).x
  {
    BandOrder(width, 80.0, a, b);
  }

  /** Mobile: the rows go input, policy, sector, enterprise from top to
      bottom once the height exceeds both paddings (80). */
  lemma MobileRowsOrdered(a: NodeType, i: nat, k: nat, b: NodeType, j: nat, l: nat, width: real, height: real)
    requires height > 80.0 && Tier(a) < Tier(b)
    ensures TierPosition(a, i, k, width, height, true).y < TierPosition(b, j, l, width, height, true).y
  {
    BandOrder(height, 40.0, a, b);
  }

  /** Every position of a tier's node lies strictly inside the surface when
      the surface is larger than both paddings along the tiered axis. */
  lemma PositionInBounds(t: NodeType, i: nat, k: nat, width: real, height: real, isMobile: bool)
    requires i < k
    requires width > 0.0 && height > 0.0
    requires if isMobile then height > 80.0 else width > 160.0
    ensures 0.0 < TierPosition(t, i, k, width, height, isMobile).x < width
    ensures 0.0 < TierPosition(t, i, k, width, height, isMobile).y < height
  {
    if isMobile {
      BandOrder(height, 40.0, t, t);
      SpreadBounds(width, i, k);
    } else {
      BandOrder(width, 80.0, t, t);
      SpreadBounds(height, i, k);
    }
  }

  /** In a node list with unique ids, the nodes of a tier other than input
      keep their list order along the spread axis. */
  lemma LayoutKeepsOrder(nodes: seq<Node>, width: real, height: real, isMobile: bool, j1: nat, j2: nat)
    requires UniqueIds(nodes) && j1 < j2 < |nodes|
    requires nodes[j1].nodeType == nodes[j2].nodeType != Input
    requires if isMobile then width > 0.0 else height > 0.0
    ensures var positions := Layout(nodes, width, height, isMobile);
            && nodes[j1].id in positions && nodes[j2].id in positions
            && var p1, p2 := positions[nodes[j1].id], positions[nodes[j2].id];
            if isMobile then p1.x < p2.x && p1.y == p2.y else p1.y < p2.y && p1.x == p2.x
  {
    var t := nodes[j1].nodeType;
    LayoutAt(nodes, width, height, isMobile, j1);
    LayoutAt(nodes, width, height, isMobile, j2);
    RankIncreasing(nodes, j1, j2);
    SpreadIncreasing(if isMobile then width else height, Rank(nodes, j1), Rank(nodes, j2), |OfType(nodes, t)|);
  }

  /** All input nodes are placed at one and the same point: the centre of
      the first column on desktop, the centre of the first row on mobile. */
  lemma InputNodesCoincide(nodes: seq<Node>, width: real, height: real, isMobile: bool, j1: nat, j2: nat)
    requires UniqueIds(nodes) && j1 < |nodes| && j2 < |nodes|
    requires nodes[j1].nodeType == nodes[j2].nodeType == Input
    ensures var positions := Layout(nodes, width, height, isMobile);
            && nodes[j1].id in positions && nodes[j2].id in positions
            && positions[nodes[j1].id] == positions[nodes[j2].id]
            && positions[nodes[j1].id] == (if isMobile then Pos(width / 2.0, Band(height, 40.0, Input))
                                           else Pos(Band(width, 80.0, Input), height / 2.0))
  {
    LayoutAt(nodes, width, height, isMobile, j1);
    LayoutAt(nodes, width, height, isMobile, j2);
  }

  /** A later node of the same type has a larger rank. */
  lemma RankIncreasing(nodes: seq<Node>, j1: nat, j2: nat)
    requires j1 < j2 < |nodes| && nodes[j1].nodeType == nodes[j2].nodeType
    ensures Rank(nodes, j1) < Rank(nodes, j2)
  {
    var t := nodes[j1].nodeType;
    OfTypeSplit(nodes[..j2], j1, t);
    assert nodes[..j2][..j1] == nodes[..j1];
  }

  /** The filter of a list counts at least the filter of a prefix, plus the
      element at the cut when it has the type. */
  lemma {:induction false} OfTypeSplit(nodes: seq<Node>, j: nat, t: NodeType)
    requires j < |nodes|
    ensures |OfType(nodes, t)| >= |OfType(nodes[..j], t)| + (if nodes[j].nodeType == t then 1 else 0)
    decreases |nodes|
  {
    var n := |nodes| - 1;
    if j < n {
      var front := nodes[..n];
      assert front[..j] == nodes[..j] && front[j] == nodes[j];
      OfTypeSplit(front, j, t);
    } else {
      assert nodes[..j] == nodes[..n];
    }
  }

  // ---------------------------------------------------------------------------
  // Drawing decisions

  /** Each type has its own shape and its own colour. */
  lemma ShapesAndColorsDistinct(a: NodeType, b: NodeType)
    requires a != b
    ensures ShapeOf(a) != ShapeOf(b)
    ensures ColorOf(a) != ColorOf(b)
  {
    assert ColorOf(Input)[21] == 'i' && ColorOf(Policy)[21] == 'p';
    assert ColorOf(Sector)[21] == 's' && ColorOf(Enterprise)[21] == 'e';
  }

  /** Truncating twice with the same bound is truncating once. */
  lemma TruncateTextIdempotent(text: string, maxLength: nat)
    ensures TruncateText(TruncateText(text, maxLength), maxLength) == TruncateText(text, maxLength)
  {
    if |text| > maxLength {
      var r := TruncateText(text, maxLength);
      assert r[..maxLength] + "..." == r;
    }
  }

  /** A drawn label has at most 11 characters on mobile and 15 on desktop,
      and keeps the label's first 8 or 12 characters. */
  lemma LabelTextBounds(labelText: string, isMobile: bool)
    ensures |LabelText(labelText, isMobile)| <= (if isMobile then 11 else 15)
    ensures var m := if isMobile then 8 else 12;
            |labelText| > m ==> LabelText(labelText, isMobile)[..m] == labelText[..m]
  {
  }

  /** All edges survive the guard exactly when every edge has both ends
      placed. */
  lemma {:induction false} DrawnEdgesAll(positions: map<string, Pos>, edges: seq<Link>)
    ensures DrawnEdges(positions, edges) == edges <==> forall k :: 0 <= k < |edges| ==> EdgeDrawn(positions, edges[k])
    decreases |edges|
  {
    if edges != [] {
      var n := |edges| - 1;
      var front := edges[..n];
      DrawnEdgesAll(positions, front);
      assert edges == front + [edges[n]];
      if EdgeDrawn(positions, edges[n]) {
        forall k | 0 <= k < n ensures edges[k] == front[k] {
        }
      } else {
        assert |DrawnEdges(positions, edges)| < |edges| by {
          assert |DrawnEdges(positions, front)| <= |front|;
        }
      }
    }
  }

  /** All nodes are drawn exactly when every node has a position. */
  lemma {:induction false} DrawnNodesAll(positions: map<string, Pos>, nodes: seq<Node>)
    ensures DrawnNodes(positions, nodes) == nodes <==> forall k :: 0 <= k < |nodes| ==> nodes[k].id in positions
    decreases |nodes|
  {
    if nodes != [] {
      var n := |nodes| - 1;
      var front := nodes[..n];
      DrawnNodesAll(positions, front);
      assert nodes == front + [nodes[n]];
      if nodes[n].id in positions {
        forall k | 0 <= k < n ensures nodes[k] == front[k] {
        }
      } else {
        assert |DrawnNodes(positions, nodes)| < |nodes| by {
          assert |DrawnNodes(positions, front)| <= |front|;
        }
      }
    }
  }

  /** The edge guard is a filter: it runs over the edges in order, keeping
      each edge that passes and dropping each that does not. */
  lemma {:induction false} DrawnEdgesConcat(positions: map<string, Pos>, a: seq<Link>, b: seq<Link>)
    ensures DrawnEdges(positions, a + b) == DrawnEdges(positions, a) + DrawnEdges(positions, b)
    decreases |b|
  {
    if b == [] {
      assert a + b == a;
    } else {
      var n := |b| - 1;
      assert (a + b)[..|a + b| - 1] == a + b[..n];
      assert (a + b)[|a + b| - 1] == b[n];
      DrawnEdgesConcat(positions, a, b[..n]);
    }
  }

  /** A single edge is drawn exactly when it passes the guard. */
  lemma DrawnEdgesSingle(positions: map<string, Pos>, e: Link)
    ensures DrawnEdges(positions, [e]) == if EdgeDrawn(positions, e) then [e] else []
  {
    assert [e][..0] == [];
  }

  /** The node guard is a filter in the same sense. */
  lemma {:induction false} DrawnNodesConcat(positions: map<string, Pos>, a: seq<Node>, b: seq<Node>)
    ensures DrawnNodes(positions, a + b) == DrawnNodes(positions, a) + DrawnNodes(positions, b)
    decreases |b|
  {
    if b == [] {
      assert a + b == a;
    } else {
      var n := |b| - 1;
      assert (a + b)[..|a + b| - 1] == a + b[..n];
      assert (a + b)[|a + b| - 1] == b[n];
      DrawnNodesConcat(positions, a, b[..n]);
    }
  }

  /** A single node is drawn exactly when it has a position. */
  lemma DrawnNodesSingle(positions: map<string, Pos>, n: Node)
    ensures DrawnNodes(positions, [n]) == if n.id in positions then [n] else []
  {
    assert [n][..0] == [];
  }

  /** Every node of the graph passes the node guard under the layout's map. */
  lemma LayoutDrawsAllNodes(nodes: seq<Node>, width: real, height: real, isMobile: bool)
    ensures DrawnNodes(Layout(nodes, width, height, isMobile), nodes) == nodes
  {
    var positions := Layout(nodes, width, height, isMobile);
    LayoutKeys(nodes, width, height, isMobile);
    assert forall k :: 0 <= k < |nodes| ==> nodes[k].id in NodeIds(nodes);
    DrawnNodesAll(positions, nodes);
  }
}
