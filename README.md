# Influence-chain graph: builder and layered layout

This project models the two pieces of logic in the analysis web app that turn a
report into a picture.

1. **The graph builder.** `transformToGraphData` in `components/analysis-content.tsx`:
   - It walks the report's ordered influence chains. Each chain is a politician,
     a policy, an industry or sector, a list of companies and the evidence.
   - It builds a graph of typed nodes (input, policy, sector, enterprise) and
     directed links.
   - Node ids are a type prefix (`pol-`, `policy-<index>-`, `sector-`, `comp-`)
     followed by the name with each whitespace run replaced by `-`, then
     lower-cased.
   - `addNode` creates a node only for an unseen id.
   - `addLink` scans the links and pushes one only for an unseen (source, target)
     pair.
2. **The renderer's layout.** In `components/relationship-graph.tsx`:
   - The layout effect partitions the nodes by type. It places them in four
     columns on desktop, or four rows below the 768-pixel breakpoint.
   - Each node's position comes from its tier and its rank within the tier.
   - Small helpers decide the surface height, each type's shape and colour,
     label truncation, and whether a node or edge is drawn at all.

Modules:

| file | module | contents |
|---|---|---|
| `text.dfy` | `Text` | `\s`, lower-casing, the id normalisation, decimal rendering of the chain index |
| `graph_types.dfy` | `GraphTypes` | nodes, links, metadata, graphs; the `filter` by type |
| `analysis_content.dfy` | `AnalysisContent` | the value-level specification `Build` (`addNode` = `WithNode`, `addLink` = `WithLink`, chain by chain) and the imperative `GraphBuilder` class, whose methods run the source's loops and are proved to produce `Build` |
| `builder_properties.dfy` | `BuilderProperties` | what every built graph satisfies, and the ids, links and counts each chain contributes |
| `relationship_graph.dfy` | `RelationshipGraph` | viewport rules; the value-level layout `Layout` and the loop methods proved equal to it; geometry lemmas; shape, colour, truncation and the draw guards |
| `pipeline.dfy` | `Pipeline` | builder output fed to the renderer: every node and link passes the renderer's position guards |
| `mock_data.dfy` | `MockData` | the report fixture of `lib/mock-data.ts` and the shape of its graph |

The model follows the code where it departs from what one would expect of such
a graph:

- There is one input node per distinct normalised politician name, not exactly
  one per graph. Zero chains give an empty graph.
- Policy ids embed the chain index. Equal policy texts in different chains give
  separate policy nodes: the fixture's two "지역 개발 프로젝트" chains give two.
- Leading and trailing whitespace is not trimmed. It becomes a `-`, so
  `"KEPCO "` and `"KEPCO"` get different ids.
- Links carry no id. Their identity is the (source, target) pair.
- Every input node is placed at the same point. `InputNodesCoincide` proves
  this, so several politicians are drawn on top of each other.

## Model

| member | source | states |
|---|---|---|
| Text.IsSpace | components/analysis-content.tsx:120 | the characters `\s` matches: tab, line feed, vertical tab, form feed, carriage return, space, no-break space, U+1680, U+2000 to U+200A, the line and paragraph separators, U+202F, U+205F, U+3000 and the byte-order mark |
| Text.LowerChar | components/analysis-content.tsx:120 | the lower case of one character, as `toLowerCase` maps it: ASCII capitals and the Latin-1 capitals U+00C0 to U+00DE except U+00D7 move up by 32; every other character is kept |
| Text.LowerStr | components/analysis-content.tsx:120 | `toLowerCase`: each character lower-cased in place, so the length is kept |
| Text.ReplaceSpaceRuns | components/analysis-content.tsx:120 | `replace(/\s+/g, "-")`: the result holds no whitespace, is no longer than the input, and is empty only for an empty input |
| Text.ReplaceSpaceRunsOfLower | components/analysis-content.tsx:120 | replacing whitespace runs commutes with lower-casing |
| Text.ReplaceSpaceRunsRunLength | components/analysis-content.tsx:120 | a whitespace run of any non-zero length between the same two strings gives the same result |
| Text.ReplaceSpaceRunsTrailing | components/analysis-content.tsx:120 | trailing whitespace after a word becomes exactly one final dash |
| Text.Normalize | components/analysis-content.tsx:120-141 | the id suffix every id shares: whitespace runs replaced by `-`, then lower-cased |
| Text.LowerStrIdempotent | components/analysis-content.tsx:120 | lower-casing twice is lower-casing once |
| Text.NormalizeIgnoresCase | components/analysis-content.tsx:120 | names equal up to letter case give the same id suffix |
| Text.NormalizeIgnoresRunLength | components/analysis-content.tsx:120 | names that differ only in the length of a whitespace run give the same id suffix |
| Text.NormalizeKeepsTrailingSpace | components/analysis-content.tsx:120 | trailing whitespace survives as a final `-`, so `"KEPCO "` and `"KEPCO"` differ |
| Text.NormalizeKeepsLeadingSpace | components/analysis-content.tsx:135 | leading whitespace survives as a first `-` |
| Text.NormalizeIdempotent | components/analysis-content.tsx:141 | a normalised name is its own normalisation |
| Text.NormalizeShape | components/analysis-content.tsx:141 | a normalised name holds no whitespace and is empty only for an empty name |
| Text.NormalizeOfPlain | components/analysis-content.tsx:135 | a name with no whitespace and no capitals is its own normalisation |
| Text.NormalizeHead | components/analysis-content.tsx:141 | a name not starting with whitespace keeps its first character, lower-cased |
| Text.NatToString | components/analysis-content.tsx:126 | `${index}` is a non-empty string of decimal digits |
| Text.DigitsValueOfNatToString | components/analysis-content.tsx:126 | the rendered index reads back as the index |
| Text.TakeDigitsOfDigits | components/analysis-content.tsx:126 | the digits of the index end at the `-` that follows them |
| GraphTypes.OfType | components/relationship-graph.tsx:37-40 | `filter` by type keeps only nodes of that type, each from the list, and is no longer than the list |
| GraphTypes.OfTypeIds | components/relationship-graph.tsx:37-40 | the filter keeps exactly the ids of the nodes of that type |
| GraphTypes.OfTypeUnique | components/relationship-graph.tsx:37-40 | filtering a list with unique ids gives unique ids |
| GraphTypes.OfTypePartition | components/relationship-graph.tsx:37-40 | the four type buckets together have as many nodes as the list |
| AnalysisContent.PolicyLabel | components/analysis-content.tsx:125 | the policy text, except that "None directly linked" becomes "Indirect Influence" |
| AnalysisContent.NewNode | components/analysis-content.tsx:94-101 | the node `addNode` builds: the given id, type, label and metadata, at (0, 0) |
| AnalysisContent.WithNode | components/analysis-content.tsx:92-106 | `addNode` on values: the graph unchanged when the id is present, else the node appended |
| AnalysisContent.WithLink | components/analysis-content.tsx:109-115 | `addLink` on values: the graph unchanged when a link joins the same pair, else the link appended |
| AnalysisContent.PolicyNode | components/analysis-content.tsx:125-131 | the node the policy `addNode` creates: the policy id of the chain index and the policy label, type policy, that label, and metadata holding the impact description and the evidence, at (0, 0) |
| AnalysisContent.CompanyNode | components/analysis-content.tsx:141-152 | the node the enterprise `addNode` creates: the company id, type enterprise, the company name, and metadata with stockCode "000000", currentPrice "0" and the chain's evidence, at (0, 0); the random `change` and `isPositive` fields are left out |
| AnalysisContent.PoliticianId | components/analysis-content.tsx:120 | the politician id's prefix reads back as the input type |
| AnalysisContent.PolicyId | components/analysis-content.tsx:126 | the policy id's prefix reads back as the policy type and its digits read back as the chain index |
| AnalysisContent.SectorId | components/analysis-content.tsx:135 | the sector id's prefix reads back as the sector type |
| AnalysisContent.CompanyId | components/analysis-content.tsx:141 | the company id's prefix reads back as the enterprise type |
| AnalysisContent.AddChainHead | components/analysis-content.tsx:119-137 | steps 1-3 of a chain only append nodes and links |
| AnalysisContent.AddCompanies | components/analysis-content.tsx:140-154 | step 4 of a chain only appends nodes and links |
| AnalysisContent.AddChain | components/analysis-content.tsx:118-155 | a chain only appends nodes and links |
| AnalysisContent.Build | components/analysis-content.tsx:118-157 | the graph of a list of chains: the empty graph for no chains, else the last chain added, at its index, to the graph of the others |
| AnalysisContent.BuildStep | components/analysis-content.tsx:118 | `forEach` order: the graph of chains 0..i is chain i added, at index i, to the graph of chains 0..i-1 |
| AnalysisContent.GraphBuilder.constructor | components/analysis-content.tsx:87-89 | empty node list, link list and map, the map indexing the list |
| AnalysisContent.GraphBuilder.AddNode | components/analysis-content.tsx:92-106 | appends a new node at (0, 0) exactly when its id is absent and leaves the node list unchanged otherwise (the first node with an id wins); the map keeps indexing the node list; the returned node has the requested id |
| AnalysisContent.GraphBuilder.AddLink | components/analysis-content.tsx:109-115 | the `some` scan appends the link exactly when no link has the same source and target |
| AnalysisContent.AddCompaniesTo | components/analysis-content.tsx:140-154 | the companies loop leaves the builder holding `AddCompanies` of its old graph |
| AnalysisContent.AddChainTo | components/analysis-content.tsx:119-154 | one chain's callback leaves the builder holding `AddChain` of its old graph |
| AnalysisContent.TransformToGraphData | components/analysis-content.tsx:86-158 | the method returns exactly `Build` of the chains, and empty node and link lists for no chains |
| BuilderProperties.WithNodeEffect | components/analysis-content.tsx:92-106 | `addNode` adds exactly its id, leaves links alone, is a no-op for a present id and an append for an absent one |
| BuilderProperties.WithLinkEffect | components/analysis-content.tsx:109-115 | `addLink` adds exactly its pair to the link set and leaves the nodes alone |
| BuilderProperties.WithNodeWellFormed | components/analysis-content.tsx:92-106 | `addNode` of a node typed by its id at (0, 0) keeps the graph invariant |
| BuilderProperties.WithLinkWellFormed | components/analysis-content.tsx:109-115 | `addLink` between present nodes of adjacent tiers keeps the invariant |
| BuilderProperties.AddCompaniesWellFormed | components/analysis-content.tsx:140-154 | the companies loop keeps the invariant once the sector node exists |
| BuilderProperties.AddCompaniesSets | components/analysis-content.tsx:140-154 | the companies loop adds exactly the companies' ids and the sector-to-company links |
| BuilderProperties.AddChainHeadWellFormed | components/analysis-content.tsx:119-137 | steps 1-3 keep the invariant and leave the sector node present |
| BuilderProperties.AddChainHeadSets | components/analysis-content.tsx:119-137 | steps 1-3 add exactly the politician, policy and sector ids and the two links through the policy |
| BuilderProperties.AddChainWellFormed | components/analysis-content.tsx:118-155 | one chain keeps the invariant |
| BuilderProperties.AddChainSets | components/analysis-content.tsx:118-155 | one chain adds exactly the ids and links it names |
| BuilderProperties.BuildWellFormed | components/analysis-content.tsx:86-158 | every built graph has unique node ids and unique links. Every link joins two present nodes of adjacent tiers (input to policy to sector to enterprise). Every node's type is the one its id prefix announces, and every node is at (0, 0) |
| BuilderProperties.BuildNodeIds | components/analysis-content.tsx:118-155 | the node ids are exactly the politician, policy, sector and company ids the chains name |
| BuilderProperties.BuildLinkSet | components/analysis-content.tsx:118-155 | the links are exactly the input-to-policy, policy-to-sector and sector-to-company links the chains name |
| BuilderProperties.BuildExtends | components/analysis-content.tsx:118-155 | insertion order: the graph of a prefix of the chains is a prefix of the whole graph, for nodes and links |
| BuilderProperties.PolicyIdsCount | components/analysis-content.tsx:126 | the chains name as many policy ids as there are chains |
| BuilderProperties.InputPolicyLinksCount | components/analysis-content.tsx:132 | the chains name one input-to-policy link per chain |
| BuilderProperties.PolicySectorLinksCount | components/analysis-content.tsx:137 | the chains name one policy-to-sector link per chain |
| BuilderProperties.BuildNodeCounts | components/analysis-content.tsx:118-155 | the input, policy, sector and enterprise node counts are the numbers of distinct politician ids, chains, distinct sector ids and distinct company ids, and the node count is their sum |
| BuilderProperties.BuildLinkCount | components/analysis-content.tsx:118-155 | the link count is twice the number of chains plus the number of distinct sector-to-company pairs |
| BuilderProperties.PolicyIdFresh | components/analysis-content.tsx:126-128 | a chain's policy id is never already present when its chain is processed |
| BuilderProperties.AddChainPolicyNode | components/analysis-content.tsx:128-131 | a chain whose policy id is new appends its own policy node |
| BuilderProperties.AddChainContains | components/analysis-content.tsx:118-155 | after a chain, its politician and sector ids, its two policy links, its company ids and its sector-to-company links are all present |
| BuilderProperties.ChainPolicyNode | components/analysis-content.tsx:125-131 | every chain's own policy node, with its label, description and evidence, is in the built graph |
| BuilderProperties.ChainLinks | components/analysis-content.tsx:120-137 | every chain's politician and sector nodes are present, joined through its policy by links |
| BuilderProperties.ChainCompanies | components/analysis-content.tsx:140-154 | every company of every chain has a node and a link from that chain's sector |
| BuilderProperties.ChainCompany | components/analysis-content.tsx:140-153 | each single company of a chain has its node, linked from that chain's sector node |
| BuilderProperties.SentinelPolicy | components/analysis-content.tsx:125-126 | a chain whose policy is exactly "None directly linked" gets a policy node labelled "Indirect Influence" whose id is built from that label |
| RelationshipGraph.IsMobile | components/relationship-graph.tsx:27 | the narrow layout is used exactly when the window is less than 768 wide |
| RelationshipGraph.ViewportHeight | components/relationship-graph.tsx:123 | the height is the larger of the floor (800 mobile, 600 desktop) and 70% of the window height |
| RelationshipGraph.BreakpointHeight | components/relationship-graph.tsx:123 | below a window width of 768 the height is at least 800, otherwise at least 600 |
| RelationshipGraph.Padding | components/relationship-graph.tsx:44 | the margin on the tiered axis: 40 on mobile, 80 on desktop |
| RelationshipGraph.Spread | components/relationship-graph.tsx:55-111 | the i-th of k nodes spread over an extent: `extent / (k + 1) * (i + 1)` |
| RelationshipGraph.Band | components/relationship-graph.tsx:46-104 | the centre of tier t: the padding plus (t + 0.5) quarters of the axis without both paddings |
| RelationshipGraph.TierPosition | components/relationship-graph.tsx:46-111 | the position of the i-th of k nodes of one type: on mobile, row by type with x spread over the width (input nodes at the centre); on desktop, column by type with y spread over the height (input nodes at mid-height) |
| RelationshipGraph.Layout | components/relationship-graph.tsx:34-115 | the layout effect on values: the four type buckets placed in order input, policy, sector, enterprise into a map that starts empty |
| RelationshipGraph.PlaceTier | components/relationship-graph.tsx:49-111 | one tier's `positions.set` loop adds exactly that tier's ids to the map |
| RelationshipGraph.PlaceBucket | components/relationship-graph.tsx:49-111 | the loop over a bucket computes `PlaceTier` of that bucket |
| RelationshipGraph.ComputePositions | components/relationship-graph.tsx:34-115 | the effect computes `Layout` from a fresh empty map, whatever positions existed before |
| RelationshipGraph.BucketsCoverNodes | components/relationship-graph.tsx:37-40 | the four buckets hold every node id |
| RelationshipGraph.LayoutKeys | components/relationship-graph.tsx:34-115 | completeness: the layout places exactly the ids of the nodes |
| RelationshipGraph.LayoutAt | components/relationship-graph.tsx:49-111 | with unique ids, node j sits at the position of its type, its rank among nodes of that type and that type's count |
| RelationshipGraph.RankInBucket | components/relationship-graph.tsx:37-40 | node j is the rank-th element of its type's bucket |
| RelationshipGraph.SpreadBounds | components/relationship-graph.tsx:89-111 | the i-th of k spread nodes lies strictly inside the axis |
| RelationshipGraph.SpreadIncreasing | components/relationship-graph.tsx:89-111 | spread positions strictly increase with the index |
| RelationshipGraph.SpreadSymmetric | components/relationship-graph.tsx:89-111 | spread positions are symmetric about the middle, and a lone node sits at the middle |
| RelationshipGraph.BandOrder | components/relationship-graph.tsx:44-111 | tier centres lie strictly inside the padded axis, in tier order |
| RelationshipGraph.DesktopColumnsOrdered | components/relationship-graph.tsx:80-111 | on desktop with width > 160 the columns go input < policy < sector < enterprise in x |
| RelationshipGraph.MobileRowsOrdered | components/relationship-graph.tsx:46-78 | on mobile with height > 80 the rows go input < policy < sector < enterprise in y |
| RelationshipGraph.PositionInBounds | components/relationship-graph.tsx:44-111 | every tier position lies strictly inside a surface larger than both paddings |
| RelationshipGraph.LayoutKeepsOrder | components/relationship-graph.tsx:56-111 | two non-input nodes of one type keep their list order along the spread axis and share the tier coordinate |
| RelationshipGraph.InputNodesCoincide | components/relationship-graph.tsx:49-54 | every input node is placed at the same point, the centre of the first row or column |
| RelationshipGraph.RankIncreasing | components/relationship-graph.tsx:37-40 | a later node of the same type has a larger rank |
| RelationshipGraph.ShapeOf | components/relationship-graph.tsx:149-162 | `getNodeShape`: ellipse, rect, rounded rect and pentagon for input, policy, sector and enterprise |
| RelationshipGraph.ColorOf | components/relationship-graph.tsx:134-147 | `getNodeColor`: the theme colour variable named after each type |
| RelationshipGraph.ShapesAndColorsDistinct | components/relationship-graph.tsx:134-162 | the shape and colour tables give each type its own shape and its own colour |
| RelationshipGraph.TruncateText | components/relationship-graph.tsx:429-432 | a text that fits is returned unchanged; otherwise the first maxLength characters are followed by "...", for length maxLength + 3 |
| RelationshipGraph.TruncateTextIdempotent | components/relationship-graph.tsx:429-432 | truncating twice with the same bound is truncating once |
| RelationshipGraph.LabelText | components/relationship-graph.tsx:246 | the drawn label: the label truncated to 8 characters on mobile and 12 on desktop |
| RelationshipGraph.LabelTextBounds | components/relationship-graph.tsx:246 | a drawn label has at most 11 characters on mobile and 15 on desktop, and keeps the label's first 8 or 12 characters |
| RelationshipGraph.EdgeDrawn | components/relationship-graph.tsx:177-180 | an edge is drawn exactly when both its source and its target have a position |
| RelationshipGraph.DrawnEdges | components/relationship-graph.tsx:177-180 | an edge is drawn if and only if it is in the list and both its endpoints are placed; the result is no longer than the list |
| RelationshipGraph.DrawnEdgesAll | components/relationship-graph.tsx:177-180 | all edges are drawn if and only if every edge has both endpoints placed |
| RelationshipGraph.DrawnEdgesConcat | components/relationship-graph.tsx:176-180 | the edge guard runs over the list in order: the drawn edges of a concatenation are those of each part, concatenated |
| RelationshipGraph.DrawnEdgesSingle | components/relationship-graph.tsx:180 | a single edge is kept exactly when it passes the guard |
| RelationshipGraph.DrawnNodes | components/relationship-graph.tsx:219-220 | a node is drawn if and only if it is in the list and has a position; the result is no longer than the list |
| RelationshipGraph.DrawnNodesAll | components/relationship-graph.tsx:219-220 | all nodes are drawn if and only if every node has a position |
| RelationshipGraph.DrawnNodesConcat | components/relationship-graph.tsx:218-220 | the node guard runs over the list in order: the drawn nodes of a concatenation are those of each part, concatenated |
| RelationshipGraph.DrawnNodesSingle | components/relationship-graph.tsx:220 | a single node is kept exactly when it has a position |
| RelationshipGraph.LayoutDrawsAllNodes | components/relationship-graph.tsx:219-220 | every node passes the node guard under the layout's map |
| Pipeline.BuiltGraphFullyDrawn | components/relationship-graph.tsx:177-180 | for any chains and viewport, every node and every link of the built graph passes the renderer's guards |
| Pipeline.BuiltNodePosition | components/relationship-graph.tsx:49-111 | every node of the built graph sits at the position of its type and its rank within the type |
| MockData.FixturePoliticianCount | lib/mock-data.ts:41-82 | the fixture's four chains name one politician |
| MockData.FixtureSectorCount | lib/mock-data.ts:43-84 | the fixture's four sector names give four distinct sector ids |
| MockData.FixtureCompanyCount | lib/mock-data.ts:44-85 | the fixture's five companies give five distinct company ids and five sector-to-company links |
| MockData.FixtureGraphShape | lib/mock-data.ts:36-96 | the fixture gives 14 nodes and 13 links. The nodes are 1 input, 4 policy, 4 sector and 5 enterprise |

## Left out

- The report fetch, the loading, error and empty-query states and the query prop (`components/analysis-content.tsx:39-84,160-227`) are I/O and UI. The model starts from the list of chains.
- The company metadata's `change` and `isPositive` come from `Math.random`, so they are omitted. The fixed `stockCode` "000000" and `currentPrice` "0" are kept.
- The `label` argument of `addLink` is left out. It is never passed, so every link's label is undefined.
- React state, effects and the resize listeners are left out. The layout is a function of the nodes, the surface width and height, and the mode. The width comes from the container and is a parameter. The initial 1000×600 state is not modelled.
- SVG drawing, shape geometry, tooltips and number formatting are left out (`components/relationship-graph.tsx:164-427`).
- The `default` branches of `getNodeColor` and `getNodeShape` are unreachable with the four-value node type. They are left out.
- Coordinates are exact reals. IEEE-754 rounding is not modelled.
- RelationshipGraph.TruncateText: lengths and the cut count characters (code points). The source's `length` and `substring` count UTF-16 code units, so a label with characters outside the Basic Multilingual Plane (emoji) is truncated later than in the source, and the source can cut such a character in half, which a string here cannot hold. Korean and Latin labels are one code unit per character and are not affected.
- RelationshipGraph.LabelTextBounds: the 11 and 15 limits and the kept 8 or 12 characters count code points, not UTF-16 code units, for the same reason.
- Text.LowerChar: lower-cases only ASCII and Latin-1 capitals. The full Unicode case mapping of `toLowerCase` is not modelled, so names from other cased scripts are treated as already lower-case. Korean has no case.
- The renderer reads `edge.id`, `edge.data` and `node.data`, which the builder does not produce. Each side is modelled on the fields its own code uses, and the mismatch is left as is. As written, every edge that passes the position guard goes on to read `edge.data.evidence` (`components/relationship-graph.tsx:193`) of a link that has no `data` field (`components/analysis-content.tsx:113`), which would throw a TypeError for any non-empty chain list. The model stops at the guards and does not capture this.
- `app/analysis/page.tsx` is routing and markup only and is not part of this model.
