/**
 * The layer-stack composition graph of the scene description viewer: the
 * arc legend, one record node per layer stack under a dense memoised
 * index, the walk over a layer tree, the node links and how a clicked
 * link is read back, and the viewer that shows the neighbourhood of the
 * selected nodes.
 */
module ViewsDescription {
  import opened Wrappers
  import opened Texts
  import NameSchema
  import ViewsGraph

  // ---------------------------------------------------------------------
  // Legend

  /** The composition arcs `_ARCS_LEGEND` draws. */
  datatype ArcType = Payload | Reference | Variant | Specialize | Inherit

  /** The arcs of `_ARCS_LEGEND`, in its order. */
  const LegendArcs: seq<ArcType> := [Payload, Reference, Variant, Specialize, Inherit]

  /** Two invisible legend nodes per arc. */
  const LegendSize: nat := 10

  /** The `paired12` colour, and font colour, of an arc's edges. */
  function ArcColor(arc: ArcType): nat {
    match arc
    case Payload => 10
    case Reference => 6
    case Variant => 8
    case Specialize => 12
    case Inherit => 4
  }

  // ---------------------------------------------------------------------
  // Layers and layer trees

  /** An `Sdf.Layer` as the graph reads it. */
  datatype SdfLayer = SdfLayer(identifier: string, realPath: string, dirty: bool)

  /** A `Pcp.LayerTree`: the tree's layer, when it has one, and its child trees. */
  datatype LayerTree = LayerTree(layer: Option<SdfLayer>, children: seq<LayerTree>)

  /** `_walk_layer_tree`: the tree's own layer first, then the layers of each child tree in turn. */
  function WalkLayerTree(tree: LayerTree): (r: seq<SdfLayer>)
    ensures tree.layer.Some? ==> |r| > 0 && r[0] == tree.layer.value
    decreases tree
  {
    (if tree.layer.Some? then [tree.layer.value] else []) + WalkForest(tree.children)
  }

  function WalkForest(trees: seq<LayerTree>): seq<SdfLayer>
    decreases trees
  {
    if trees == [] then [] else WalkLayerTree(trees[0]) + WalkForest(trees[1..])
  }

  /** `layer` is the layer of the tree or of one of its subtrees. */
  predicate InTree(tree: LayerTree, layer: SdfLayer)
    decreases tree
  {
    tree.layer == Some(layer) || InForest(tree.children, layer)
  }

  predicate InForest(trees: seq<LayerTree>, layer: SdfLayer)
    decreases trees
  {
    trees != [] && (InTree(trees[0], layer) || InForest(trees[1..], layer))
  }

  /** The walk yields exactly the layers held somewhere in the tree; trees without a layer add none. */
  lemma {:induction false} WalkLayerTreeMembers(tree: LayerTree, layer: SdfLayer)
    ensures layer in WalkLayerTree(tree) <==> InTree(tree, layer)
    decreases tree
  {
    WalkForestMembers(tree.children, layer);
  }

  lemma {:induction false} WalkForestMembers(trees: seq<LayerTree>, layer: SdfLayer)
    ensures layer in WalkForest(trees) <==> InForest(trees, layer)
    decreases trees
  {
    if trees != [] {
      WalkLayerTreeMembers(trees[0], layer);
      WalkForestMembers(trees[1..], layer);
    }
  }

  // ---------------------------------------------------------------------
  // Layer labels

  /** The index of the last `c` in `s`, as `str.rfind`. */
  function LastIndex(s: string, c: char): (r: Option<nat>)
    ensures r.Some? ==> r.value < |s| && s[r.value] == c && forall k :: r.value < k < |s| ==> s[k] != c
    ensures r.None? ==> c !in s
  {
    if s == [] then None
    else if s[|s| - 1] == c then Some(|s| - 1)
    else
      var r := LastIndex(s[..|s| - 1], c);
      assert forall x :: x in s[..|s| - 1] ==> x in s;
      assert s == s[..|s| - 1] + [s[|s| - 1]];
      r
  }

  /** `Path(p).name`: the text after the last `/`. */
  function PathName(p: string): (r: string)
    ensures '/' !in r
  {
    match LastIndex(p, '/')
    case None => p
    case Some(i) => p[i + 1..]
  }

  /** `PurePath.stem` of a name: the name without its last suffix, a dot that neither starts nor ends it. */
  function Stem(name: string): string {
    match LastIndex(name, '.')
    case None => name
    case Some(i) => if 0 < i < |name| - 1 then name[..i] else name
  }

  /** `_layer_label`: the stem of the layer's real path, or its identifier when that stem is empty. */
  function LayerLabel(layer: SdfLayer): string {
    var stem := Stem(PathName(layer.realPath));
    if stem != "" then stem else layer.identifier
  }

  /** A file `dir/stem.ext` is labelled by its stem; a layer without a real path by its identifier. */
  lemma LayerLabelOf(layer: SdfLayer, dir: string, stem: string, ext: string)
    requires stem != "" && ext != "" && '/' !in stem && '/' !in ext && '.' !in ext
    ensures layer.realPath == dir + "/" + stem + "." + ext ==> LayerLabel(layer) == stem
    ensures layer.realPath == "" ==> LayerLabel(layer) == layer.identifier
  {
    if layer.realPath == dir + "/" + stem + "." + ext {
      var name := stem + "." + ext;
      assert layer.realPath == dir + "/" + name;
      PathNameAfter(dir, name);
      StemBefore(stem, ext);
    }
  }

  /** The last `c` is found where no later character is `c`. */
  lemma LastIndexAt(s: string, c: char, i: nat)
    requires i < |s| && s[i] == c && forall k :: i < k < |s| ==> s[k] != c
    ensures LastIndex(s, c) == Some(i)
  {
  }

  lemma PathNameAfter(dir: string, name: string)
    requires '/' !in name
    ensures PathName(dir + "/" + name) == name
  {
    var p := dir + "/" + name;
    assert forall k :: |dir| < k < |p| ==> p[k] == name[k - |dir| - 1];
    LastIndexAt(p, '/', |dir|);
    assert p[|dir| + 1..] == name;
  }

  lemma StemBefore(stem: string, ext: string)
    requires stem != "" && ext != "" && '.' !in ext
    ensures Stem(stem + "." + ext) == stem
  {
    var name := stem + "." + ext;
    assert forall k :: |stem| < k < |name| ==> name[k] == ext[k - |stem| - 1];
    LastIndexAt(name, '.', |stem|);
    assert name[..|stem|] == stem;
  }

  // ---------------------------------------------------------------------
  // Record labels

  /** The labels of the stack's layers other than its root, in stack order. */
  function NonRootLabels(root: SdfLayer, layers: seq<SdfLayer>): (r: seq<string>)
    ensures |r| <= |layers|
  {
    if layers == [] then []
    else
      var last := layers[|layers| - 1];
      NonRootLabels(root, layers[..|layers| - 1]) + (if last == root then [] else [LayerLabel(last)])
  }

  /** The text `_add_node` appends for the layers, `|label` for each layer other than the root. */
  function LabelParts(root: SdfLayer, layers: seq<SdfLayer>): string {
    if layers == [] then ""
    else
      var last := layers[|layers| - 1];
      LabelParts(root, layers[..|layers| - 1]) + (if last == root then "" else "|" + LayerLabel(last))
  }

  /** The record label of a layer stack: its root's label and every other layer's label, in braces. */
  function RecordLabel(root: SdfLayer, layers: seq<SdfLayer>): string {
    "{" + LayerLabel(root) + LabelParts(root, layers) + "}"
  }

  /** `|` before each of the pieces. */
  function Bars(xs: seq<string>): string {
    if xs == [] then "" else Bars(xs[..|xs| - 1]) + "|" + xs[|xs| - 1]
  }

  /** The appended parts are `|` and a label for each layer other than the root. */
  lemma {:induction false} LabelPartsBars(root: SdfLayer, layers: seq<SdfLayer>)
    ensures LabelParts(root, layers) == Bars(NonRootLabels(root, layers))
    decreases |layers|
  {
    if layers != [] {
      var init := layers[..|layers| - 1];
      var last := layers[|layers| - 1];
      LabelPartsBars(root, init);
      if last == root {
        assert NonRootLabels(root, layers) == NonRootLabels(root, init);
      } else {
        var xs := NonRootLabels(root, layers);
        assert xs == NonRootLabels(root, init) + [LayerLabel(last)];
        assert xs[..|xs| - 1] == NonRootLabels(root, init);
      }
    }
  }

  /** A head and `|`-prefixed pieces make the pieces joined by `|`. */
  lemma {:induction false} BarsJoined(h: string, xs: seq<string>)
    ensures h + Bars(xs) == NameSchema.Join("|", [h] + xs)
    decreases |xs|
  {
    if xs == [] {
      assert [h] + xs == [h];
    } else {
      var init := xs[..|xs| - 1];
      BarsJoined(h, init);
      JoinSnoc("|", [h] + init, xs[|xs| - 1]);
      assert [h] + xs == [h] + init + [xs[|xs| - 1]];
    }
  }

  /** One more piece joins on after the separator. */
  lemma {:induction false} JoinSnoc(sep: string, xs: seq<string>, y: string)
    requires |xs| >= 1
    ensures NameSchema.Join(sep, xs + [y]) == NameSchema.Join(sep, xs) + sep + y
    decreases |xs|
  {
    if |xs| > 1 {
      JoinSnoc(sep, xs[1..], y);
      assert (xs + [y])[1..] == xs[1..] + [y];
    }
  }

  /** A label that survives `_graph.py`'s record parsing: not empty, without braces or bars. */
  predicate PlainLabel(s: string) {
    s != "" && '|' !in s && '{' !in s && '}' !in s
  }

  /**
   * The record label parses back, in the graph view's HTML conversion, into
   * the root's label followed by every other layer's label.
   */
  lemma RecordLabelFields(root: SdfLayer, layers: seq<SdfLayer>)
    requires PlainLabel(LayerLabel(root))
    requires forall i :: 0 <= i < |layers| ==> PlainLabel(LayerLabel(layers[i]))
    ensures ViewsGraph.RecordFields(RecordLabel(root, layers)) == [LayerLabel(root)] + NonRootLabels(root, layers)
  {
    NonRootLabelsPlain(root, layers);
    LabelPartsBars(root, layers);
    BarsJoined(LayerLabel(root), NonRootLabels(root, layers));
    BarredFields(LayerLabel(root), NonRootLabels(root, layers), LabelParts(root, layers));
  }

  /** A plain head and the `|`-prefixed plain pieces after it, in braces, split back into the head and the pieces. */
  lemma BarredFields(h: string, rest: seq<string>, parts: string)
    requires PlainLabel(h) && forall i :: 0 <= i < |rest| ==> PlainLabel(rest[i])
    requires h + parts == NameSchema.Join("|", [h] + rest)
    ensures ViewsGraph.RecordFields("{" + h + parts + "}") == [h] + rest
  {
    var xs := [h] + rest;
    PlainCons(h, rest);
    WrappedFields(xs);
    Braced(h, parts, NameSchema.Join("|", xs));
  }

  lemma PlainCons(h: string, rest: seq<string>)
    requires PlainLabel(h) && forall i :: 0 <= i < |rest| ==> PlainLabel(rest[i])
    ensures forall i :: 0 <= i < |[h] + rest| ==> PlainLabel(([h] + rest)[i])
  {
    var xs := [h] + rest;
    assert forall i :: 1 <= i < |xs| ==> xs[i] == rest[i - 1];
  }

  lemma Braced(h: string, parts: string, j: string)
    requires j == h + parts
    ensures "{" + h + parts + "}" == "{" + j + "}"
  {
  }

  /** Plain labels joined by `|` and wrapped in braces split back into the labels. */
  lemma WrappedFields(xs: seq<string>)
    requires |xs| >= 1 && forall i :: 0 <= i < |xs| ==> PlainLabel(xs[i])
    ensures ViewsGraph.RecordFields("{" + NameSchema.Join("|", xs) + "}") == xs
  {
    JoinEnds(xs);
    NoBars(xs);
    SplitJoin(xs, '|');
    FieldsOfWrapped(NameSchema.Join("|", xs), xs);
  }

  /** A body that neither starts nor ends with a brace, wrapped in braces, splits as the body does. */
  lemma FieldsOfWrapped(body: string, xs: seq<string>)
    requires body != [] && body[0] !in {'{', '}'} && body[|body| - 1] !in {'{', '}'}
    requires Split(body, "|") == xs
    ensures ViewsGraph.RecordFields("{" + body + "}") == xs
  {
    StripWrapped('{', body, '}', {'{', '}'});
    ViewsGraph.FieldsOfStripped("{" + body + "}", body, xs);
  }

  /** The first and last characters of plain labels joined by `|` are not braces. */
  lemma JoinEnds(xs: seq<string>)
    requires |xs| >= 1 && forall i :: 0 <= i < |xs| ==> PlainLabel(xs[i])
    ensures var body := NameSchema.Join("|", xs);
      body != [] && body[0] !in {'{', '}'} && body[|body| - 1] !in {'{', '}'}
  {
    var body := NameSchema.Join("|", xs);
    JoinPlain(xs);
    assert body[0] in body;
    assert body[|body| - 1] in body;
  }

  lemma NoBars(xs: seq<string>)
    requires forall i :: 0 <= i < |xs| ==> PlainLabel(xs[i])
    ensures forall i :: 0 <= i < |xs| ==> '|' !in xs[i]
  {
  }

  lemma {:induction false} NonRootLabelsPlain(root: SdfLayer, layers: seq<SdfLayer>)
    requires forall i :: 0 <= i < |layers| ==> PlainLabel(LayerLabel(layers[i]))
    ensures forall i :: 0 <= i < |NonRootLabels(root, layers)| ==> PlainLabel(NonRootLabels(root, layers)[i])
    decreases |layers|
  {
    if layers != [] {
      NonRootLabelsPlain(root, layers[..|layers| - 1]);
    }
  }

  /** Plain labels joined by `|`: not empty, and without braces. */
  lemma {:induction false} JoinPlain(xs: seq<string>)
    requires |xs| >= 1 && forall i :: 0 <= i < |xs| ==> PlainLabel(xs[i])
    ensures |NameSchema.Join("|", xs)| >= |xs[0]| > 0
    ensures forall c :: c in NameSchema.Join("|", xs) ==> c != '{' && c != '}'
    decreases |xs|
  {
    if |xs| > 1 {
      JoinPlain(xs[1..]);
      var rest := NameSchema.Join("|", xs[1..]);
      assert NameSchema.Join("|", xs) == xs[0] + "|" + rest;
    }
  }

  /** `fillcolor`: pale goldenrod when a layer of the stack has unsaved changes, else white. */
  function FillColor(layers: seq<SdfLayer>): string {
    if exists i :: 0 <= i < |layers| && layers[i].dirty then "palegoldenrod" else "white"
  }

  /** The tooltip: each layer's position and real path, or identifier, one per line. */
  function StackLines(layers: seq<SdfLayer>): seq<string> {
    seq(|layers|, i requires 0 <= i < |layers| =>
      Decimal(i) + ": " + (if layers[i].realPath != "" then layers[i].realPath else layers[i].identifier))
  }

  function Tooltip(layers: seq<SdfLayer>): string {
    Replace("Layer Stack:\n" + NameSchema.Join("\n", StackLines(layers)), "\n", "&#10;")
  }

  // ---------------------------------------------------------------------
  // The graph

  /**
   * A node's attributes: an invisible legend node, or a layer stack drawn
   * as a rounded, filled record linking to `href`.
   */
  datatype NodeAttrs =
    | LegendNode
    | StackNode(record: string, fillcolor: string, tooltip: string, href: string,
                layerStack: Option<seq<SdfLayer>>, primPaths: Option<set<string>>)

  /** A legend edge, labelled with its arc's name, or a composition arc between two stacks. */
  datatype EdgeAttrs = LegendEdge(arc: ArcType) | ArcEdge(arc: ArcType)

  /** The graph `_compute_layerstack_graph` returns, with its `indices_by_layers` and `legend_indices`. */
  datatype StackGraph = StackGraph(nodes: map<nat, NodeAttrs>, edges: map<(nat, nat), EdgeAttrs>,
                                   indicesByLayers: map<SdfLayer, set<nat>>, legendIds: seq<nat>)

  /** The link of the node at `index`. */
  function Href(prefix: string, index: nat): string {
    prefix + Decimal(index)
  }

  /** A stack's node as `_add_node` adds it, with the prim paths recorded on it since. */
  function StackNodeOf(root: SdfLayer, layers: seq<SdfLayer>, prefix: string, index: nat, paths: set<string>): NodeAttrs {
    StackNode(RecordLabel(root, layers), FillColor(layers), Tooltip(layers), Href(prefix, index), Some(layers), Some(paths))
  }


  // ---------------------------------------------------------------------
  // Building the graph

  /** A `Pcp.NodeRef` an arc targets: the root layer of its layer stack and the trees of the root's sublayers. */
  datatype PcpNode = PcpNode(rootLayer: SdfLayer, subTrees: seq<LayerTree>)

  /** The stack's `layerTree`, whose own layer is the root layer. */
  function LayerTreeOf(node: PcpNode): LayerTree {
    LayerTree(Some(node.rootLayer), node.subTrees)
  }

  /** A composition arc with specs: its target, the layer that introduces it, and its type. */
  datatype CompositionArc = CompositionArc(target: PcpNode, introducing: Option<SdfLayer>, arcType: ArcType)

  /**
   * What `_compute_layerstack_graph` and its nested functions share: the
   * graph's nodes and edges, the legend ids, `stack_id_by_node_idx`,
   * `stack_index_by_root_layer`, `layer_stacks_by_node_idx`,
   * `stack_indices_by_sublayers`, and the cache of `_compute_composition`
   * keyed by the forwarded prim.
   */
  datatype Builder = Builder(
    nodes: map<nat, NodeAttrs>, edges: map<(nat, nat), EdgeAttrs>, legendIds: seq<nat>,
    stackIdByNode: map<nat, Option<SdfLayer>>, stackIndexByRoot: map<SdfLayer, nat>,
    layerStacksByNode: map<nat, seq<SdfLayer>>, indicesBySublayer: map<SdfLayer, set<nat>>,
    compositions: map<string, set<nat>>)

  /** The legend: nodes 0 to 9 invisible, and one labelled edge from `2k` to `2k + 1` for the `k`-th arc. */
  predicate LegendOk(nodes: map<nat, NodeAttrs>, edges: map<(nat, nat), EdgeAttrs>, legendIds: seq<nat>) {
    && |legendIds| == LegendSize
    && (forall i :: 0 <= i < |legendIds| ==> legendIds[i] == i)
    && (forall i :: 0 <= i < LegendSize ==> i in nodes && nodes[i] == LegendNode)
    && (forall k :: 0 <= k < |LegendArcs| ==> (2 * k, 2 * k + 1) in edges && edges[(2 * k, 2 * k + 1)] == LegendEdge(LegendArcs[k]))
  }

  /**
   * The indices are dense and memoised: `stack_id_by_node_idx` holds the
   * ids `0` to `len - 1`, `None` for the legend ids and a root layer for
   * every later one, and `stack_index_by_root_layer` is its inverse.
   */
  ghost predicate Dense(ids: map<nat, Option<SdfLayer>>, byRoot: map<SdfLayer, nat>) {
    && |ids| >= LegendSize
    && (forall i: nat :: i in ids <==> i < |ids|)
    && (forall i :: i in ids ==> (ids[i].None? <==> i < LegendSize))
    && (forall i :: i in ids && ids[i].Some? ==> ids[i].value in byRoot && byRoot[ids[i].value] == i)
    && (forall r :: r in byRoot ==> byRoot[r] in ids && ids[byRoot[r]] == Some(r))
  }

  /** A new root gets the next id, `len(stack_id_by_node_idx)`. */
  lemma DenseAdd(ids: map<nat, Option<SdfLayer>>, byRoot: map<SdfLayer, nat>, root: SdfLayer)
    requires Dense(ids, byRoot) && root !in byRoot
    ensures |ids| !in ids && |ids| >= LegendSize
    ensures Dense(ids[|ids| := Some(root)], byRoot[root := |ids|])
  {
    var n := |ids|;
    assert n !in ids;
    assert |ids[n := Some(root)]| == n + 1;
  }

  /** The graph's nodes are the ids; the legend ids, and only they, are legend nodes. */
  ghost predicate NodesOk(b: Builder) {
    && (forall i :: i in b.nodes <==> i in b.stackIdByNode)
    && (forall i :: i in b.nodes ==> (b.nodes[i].LegendNode? <==> i < LegendSize))
  }

  /** The stack at index `i`: its root first, and the node `_add_node` made for it. */
  ghost predicate StackAt(nodes: map<nat, NodeAttrs>, stacks: map<nat, seq<SdfLayer>>, ids: map<nat, Option<SdfLayer>>, prefix: string, i: nat) {
    && i in stacks && i in ids && ids[i].Some? && i in nodes
    && |stacks[i]| > 0 && stacks[i][0] == ids[i].value
    && nodes[i].StackNode? && nodes[i].primPaths.Some?
    && nodes[i] == StackNodeOf(stacks[i][0], stacks[i], prefix, i, nodes[i].primPaths.value)
  }

  ghost predicate AllStacksAt(nodes: map<nat, NodeAttrs>, stacks: map<nat, seq<SdfLayer>>, ids: map<nat, Option<SdfLayer>>, prefix: string) {
    forall i {:trigger StackAt(nodes, stacks, ids, prefix, i)} :: i in stacks ==> StackAt(nodes, stacks, ids, prefix, i)
  }

  /** Every id past the legend has its layer stack and its node. */
  ghost predicate StacksOk(b: Builder, prefix: string) {
    && (forall i :: i in b.layerStacksByNode <==> i in b.stackIdByNode && i >= LegendSize)
    && AllStacksAt(b.nodes, b.layerStacksByNode, b.stackIdByNode, prefix)
  }

  /** The layers each stack index holds, and the indices of the stacks each layer is in, agree. */
  ghost predicate Inverse(stacks: map<nat, seq<SdfLayer>>, bySub: map<SdfLayer, set<nat>>) {
    && (forall i, l :: i in stacks && l in stacks[i] ==> l in bySub && i in bySub[l])
    && (forall l, i :: l in bySub && i in bySub[l] ==> i in stacks && l in stacks[i])
  }

  /** `stack_indices_by_sublayers[layer]` read without adding the key. */
  function Get(bySub: map<SdfLayer, set<nat>>, layer: SdfLayer): set<nat> {
    if layer in bySub then bySub[layer] else {}
  }

  /** `stack_indices_by_sublayers[layer].add(index)` for every layer of a stack. */
  function WithIndex(bySub: map<SdfLayer, set<nat>>, layers: seq<SdfLayer>, index: nat): (r: map<SdfLayer, set<nat>>)
    ensures forall l :: l in r <==> l in bySub || l in layers
    ensures forall l :: l in r ==> r[l] == Get(bySub, l) + (if l in layers then {index} else {})
  {
    if layers == [] then bySub
    else
      var init := layers[..|layers| - 1];
      var last := layers[|layers| - 1];
      assert layers == init + [last];
      var w := WithIndex(bySub, init, index);
      w[last := Get(w, last) + {index}]
  }

  /** A new stack's layers each list its index, and nothing else does. */
  lemma InverseAdd(stacks: map<nat, seq<SdfLayer>>, bySub: map<SdfLayer, set<nat>>, layers: seq<SdfLayer>, index: nat)
    requires Inverse(stacks, bySub) && index !in stacks
    ensures Inverse(stacks[index := layers], WithIndex(bySub, layers, index))
  {
    var s := stacks[index := layers];
    var w := WithIndex(bySub, layers, index);
    forall i, l | i in s && l in s[i]
      ensures l in w && i in w[l]
    {
      if i != index {
        assert l in bySub && i in bySub[l];
      }
    }
    forall l, i | l in w && i in w[l]
      ensures i in s && l in s[i]
    {
      if i != index {
        assert l in bySub && i in bySub[l];
      }
    }
  }

  /** Legend edges join legend nodes; every other edge is an arc between two stacks. */
  ghost predicate EdgesOk(edges: map<(nat, nat), EdgeAttrs>, stacks: map<nat, seq<SdfLayer>>) {
    forall e :: e in edges ==>
      (e.0 < LegendSize && e.1 < LegendSize && edges[e].LegendEdge?) ||
      (e.0 in stacks && e.1 in stacks && edges[e].ArcEdge?)
  }

  ghost predicate CachedOk(b: Builder) {
    forall f :: f in b.compositions ==> b.compositions[f] <= b.layerStacksByNode.Keys
  }

  /** The invariant of the graph under construction. */
  ghost predicate Valid(b: Builder, prefix: string) {
    && LegendOk(b.nodes, b.edges, b.legendIds)
    && Dense(b.stackIdByNode, b.stackIndexByRoot)
    && NodesOk(b)
    && StacksOk(b, prefix)
    && Inverse(b.layerStacksByNode, b.indicesBySublayer)
    && EdgesOk(b.edges, b.layerStacksByNode)
    && CachedOk(b)
  }

  /** `dict.fromkeys(ids)` of distinct ids: each id mapped to `None`. */
  function FromKeys(ids: seq<nat>): (r: map<nat, Option<SdfLayer>>)
    requires Distinct(ids)
    ensures |r| == |ids|
    ensures forall i :: i in r <==> i in ids
    ensures forall i :: i in r ==> r[i] == None
  {
    if ids == [] then map[]
    else
      var init := ids[..|ids| - 1];
      var last := ids[|ids| - 1];
      assert ids == init + [last];
      assert forall i, j :: 0 <= i < j < |init| ==> init[i] == ids[i] && init[j] == ids[j];
      FromKeys(init)[last := None]
  }

  /** The legend loop: two invisible nodes and one edge per arc of the legend, in its order. */
  method Legend() returns (nodes: map<nat, NodeAttrs>, edges: map<(nat, nat), EdgeAttrs>, ids: seq<nat>)
    ensures LegendOk(nodes, edges, ids)
    ensures forall i: nat :: i in nodes <==> i < LegendSize
    ensures forall e :: e in edges ==> e.0 < LegendSize && e.1 < LegendSize && edges[e].LegendEdge?
  {
    nodes := map[];
    edges := map[];
    ids := [];
    for k := 0 to |LegendArcs|
      invariant |ids| == 2 * k && forall i :: 0 <= i < |ids| ==> ids[i] == i
      invariant forall i: nat :: i in nodes <==> i < 2 * k
      invariant forall i :: i in nodes ==> nodes[i] == LegendNode
      invariant forall e :: e in edges ==> e.0 < 2 * k && e.1 < 2 * k && edges[e].LegendEdge?
      invariant forall j :: 0 <= j < k ==> (2 * j, 2 * j + 1) in edges && edges[(2 * j, 2 * j + 1)] == LegendEdge(LegendArcs[j])
    {
      var pair := (|ids|, |ids| + 1);
      nodes := nodes[pair.0 := LegendNode][pair.1 := LegendNode];
      edges := edges[pair := LegendEdge(LegendArcs[k])];
      ids := ids + [pair.0, pair.1];
    }
  }

  /** The state before the first prim: the legend, with `stack_id_by_node_idx` holding its ids. */
  function Start(nodes: map<nat, NodeAttrs>, edges: map<(nat, nat), EdgeAttrs>, ids: seq<nat>): Builder
    requires LegendOk(nodes, edges, ids)
  {
    assert Distinct(ids);
    Builder(nodes, edges, ids, FromKeys(ids), map[], map[], map[], map[])
  }

  lemma StartValid(nodes: map<nat, NodeAttrs>, edges: map<(nat, nat), EdgeAttrs>, ids: seq<nat>, prefix: string)
    requires LegendOk(nodes, edges, ids)
    requires forall i: nat :: i in nodes <==> i < LegendSize
    requires forall e :: e in edges ==> e.0 < LegendSize && e.1 < LegendSize && edges[e].LegendEdge?
    ensures Valid(Start(nodes, edges, ids), prefix)
  {
    var b := Start(nodes, edges, ids);
    assert forall i: nat :: i in ids <==> i < LegendSize by {
      forall i: nat
        ensures i in ids <==> i < LegendSize
      {
        if i in ids {
          var k :| 0 <= k < |ids| && ids[k] == i;
        }
        if 0 <= i < LegendSize {
          assert ids[i] == i;
        }
      }
    }
  }

  // ---------------------------------------------------------------------
  // _add_node

  /** A new root's stack: the next index, its layers, its node and its sublayers' indices. */
  function WithStack(b: Builder, node: PcpNode, prefix: string): Builder {
    var index := |b.stackIdByNode|;
    var layers := WalkLayerTree(LayerTreeOf(node));
    b.(stackIndexByRoot := b.stackIndexByRoot[node.rootLayer := index],
       stackIdByNode := b.stackIdByNode[index := Some(node.rootLayer)],
       layerStacksByNode := b.layerStacksByNode[index := layers],
       indicesBySublayer := WithIndex(b.indicesBySublayer, layers, index),
       nodes := b.nodes[index := StackNodeOf(node.rootLayer, layers, prefix, index, {})])
  }

  /** `_add_node`: the state after it and the index it returns. */
  function AddedNode(b: Builder, node: PcpNode, prefix: string): (r: (Builder, nat))
    ensures node.rootLayer in r.0.stackIndexByRoot && r.1 == r.0.stackIndexByRoot[node.rootLayer]
  {
    if node.rootLayer in b.stackIndexByRoot then (b, b.stackIndexByRoot[node.rootLayer])
    else (WithStack(b, node, prefix), |b.stackIdByNode|)
  }

  /**
   * `_add_node` of a pcp node: the index memoised for its root layer, or
   * else the next index, with a record node labelled by the stack's layers.
   */
  method AddNode(b: Builder, node: PcpNode, prefix: string) returns (b': Builder, index: nat)
    ensures (b', index) == AddedNode(b, node, prefix)
  {
    var root := node.rootLayer;
    if root in b.stackIndexByRoot {
      return b, b.stackIndexByRoot[root];
    }
    index := |b.stackIdByNode|;
    var layers := WalkLayerTree(LayerTreeOf(node));
    var record, fillcolor, bySub := StackRecord(root, layers, b.indicesBySublayer, index);
    b' := b.(stackIndexByRoot := b.stackIndexByRoot[root := index],
             stackIdByNode := b.stackIdByNode[index := Some(root)],
             layerStacksByNode := b.layerStacksByNode[index := layers],
             indicesBySublayer := bySub,
             nodes := b.nodes[index := StackNode(record, fillcolor, Tooltip(layers), Href(prefix, index), Some(layers), Some({}))]);
  }

  /** The loop of `_add_node` over the stack's layers: the record label, the fill colour and each layer's index entry. */
  method StackRecord(root: SdfLayer, layers: seq<SdfLayer>, indicesBySublayer: map<SdfLayer, set<nat>>, index: nat)
    returns (record: string, fillcolor: string, bySub: map<SdfLayer, set<nat>>)
    ensures record == RecordLabel(root, layers)
    ensures fillcolor == FillColor(layers)
    ensures bySub == WithIndex(indicesBySublayer, layers, index)
  {
    record := "{" + LayerLabel(root);
    ghost var head := record;
    fillcolor := "white";
    bySub := indicesBySublayer;
    for i := 0 to |layers|
      invariant record == head + LabelParts(root, layers[..i])
      invariant fillcolor == FillColor(layers[..i])
      invariant bySub == WithIndex(indicesBySublayer, layers[..i], index)
    {
      AddNodeStep(root, layers, indicesBySublayer, index, i);
      var layer := layers[i];
      if layer.dirty {
        fillcolor := "palegoldenrod";
      }
      bySub := bySub[layer := Get(bySub, layer) + {index}];
      if layer == root {
        continue;
      }
      Reassociated(head, LabelParts(root, layers[..i]), "|", LayerLabel(layer));
      record := record + "|" + LayerLabel(layer);
    }
    assert layers[..|layers|] == layers;
    record := record + "}";
  }

  /** One more layer of the loop in `_add_node`: its label part, its colour and its index entry. */
  lemma AddNodeStep(root: SdfLayer, layers: seq<SdfLayer>, bySub: map<SdfLayer, set<nat>>, index: nat, i: nat)
    requires i < |layers|
    ensures layers[i] == root ==> LabelParts(root, layers[..i + 1]) == LabelParts(root, layers[..i])
    ensures layers[i] != root ==> LabelParts(root, layers[..i + 1]) == LabelParts(root, layers[..i]) + ("|" + LayerLabel(layers[i]))
    ensures FillColor(layers[..i + 1]) == if layers[i].dirty then "palegoldenrod" else FillColor(layers[..i])
    ensures var w := WithIndex(bySub, layers[..i], index);
      WithIndex(bySub, layers[..i + 1], index) == w[layers[i] := Get(w, layers[i]) + {index}]
  {
    assert layers[..i + 1][..i] == layers[..i];
    FillColorSnoc(layers[..i + 1]);
  }

  lemma Reassociated(a: string, b: string, c: string, d: string)
    ensures a + b + c + d == a + (b + (c + d))
  {
  }

  lemma FillColorSnoc(layers: seq<SdfLayer>)
    requires layers != []
    ensures FillColor(layers) == if layers[|layers| - 1].dirty then "palegoldenrod" else FillColor(layers[..|layers| - 1])
  {
    if !layers[|layers| - 1].dirty && exists i :: 0 <= i < |layers| && layers[i].dirty {
      var i :| 0 <= i < |layers| && layers[i].dirty;
      assert layers[..|layers| - 1][i] == layers[i];
    }
  }

  /** Adding the same pcp node again returns the same index and changes nothing. */
  lemma AddNodeMemoised(b: Builder, node: PcpNode, prefix: string)
    ensures var (b1, i1) := AddedNode(b, node, prefix);
      AddedNode(b1, node, prefix) == (b1, i1)
  {
  }

  /**
   * What later steps keep: the index of every known root, every node and
   * every layer stack as they were; the nodes they add are fresh stacks
   * without prim paths.
   */
  ghost predicate Extends(b: Builder, b': Builder) {
    && (forall r :: r in b.stackIndexByRoot ==> r in b'.stackIndexByRoot && b'.stackIndexByRoot[r] == b.stackIndexByRoot[r])
    && (forall i :: i in b.nodes ==> i in b'.nodes && b'.nodes[i] == b.nodes[i])
    && (forall i :: i in b.layerStacksByNode ==> i in b'.layerStacksByNode && b'.layerStacksByNode[i] == b.layerStacksByNode[i])
    && (forall i :: i in b'.nodes && i !in b.nodes ==> b'.nodes[i].StackNode? && b'.nodes[i].primPaths == Some({}))
  }

  lemma ExtendsTrans(a: Builder, b: Builder, c: Builder)
    requires Extends(a, b) && Extends(b, c)
    ensures Extends(a, c)
  {
  }

  lemma WithStackLegend(b: Builder, node: PcpNode, prefix: string)
    requires Valid(b, prefix) && node.rootLayer !in b.stackIndexByRoot
    ensures var b' := WithStack(b, node, prefix);
      LegendOk(b'.nodes, b'.edges, b'.legendIds)
  {
    DenseAdd(b.stackIdByNode, b.stackIndexByRoot, node.rootLayer);
    var n := |b.stackIdByNode|;
    var layers := WalkLayerTree(LayerTreeOf(node));
    LegendAdd(b.nodes, b.edges, b.legendIds, n, StackNodeOf(node.rootLayer, layers, prefix, n, {}));
  }

  /** A node past the legend leaves the legend as it was. */
  lemma LegendAdd(nodes: map<nat, NodeAttrs>, edges: map<(nat, nat), EdgeAttrs>, legendIds: seq<nat>, n: nat, node: NodeAttrs)
    requires LegendOk(nodes, edges, legendIds) && n >= LegendSize
    ensures LegendOk(nodes[n := node], edges, legendIds)
  {
  }

  lemma WithStackNodes(b: Builder, node: PcpNode, prefix: string)
    requires Valid(b, prefix) && node.rootLayer !in b.stackIndexByRoot
    ensures NodesOk(WithStack(b, node, prefix))
  {
    DenseAdd(b.stackIdByNode, b.stackIndexByRoot, node.rootLayer);
  }

  lemma WithStackStacks(b: Builder, node: PcpNode, prefix: string)
    requires Valid(b, prefix) && node.rootLayer !in b.stackIndexByRoot
    ensures StacksOk(WithStack(b, node, prefix), prefix)
  {
    DenseAdd(b.stackIdByNode, b.stackIndexByRoot, node.rootLayer);
    var n := |b.stackIdByNode|;
    var layers := WalkLayerTree(LayerTreeOf(node));
    StacksAdd(b.nodes, b.layerStacksByNode, b.stackIdByNode, prefix, n, layers,
              StackNodeOf(node.rootLayer, layers, prefix, n, {}));
  }

  /** A new stack whose root comes first, with its node, leaves the other stacks as they were. */
  lemma StacksAdd(nodes: map<nat, NodeAttrs>, stacks: map<nat, seq<SdfLayer>>, ids: map<nat, Option<SdfLayer>>,
                  prefix: string, n: nat, layers: seq<SdfLayer>, node: NodeAttrs)
    requires AllStacksAt(nodes, stacks, ids, prefix) && n !in stacks
    requires |layers| > 0 && node == StackNodeOf(layers[0], layers, prefix, n, {})
    ensures AllStacksAt(nodes[n := node], stacks[n := layers], ids[n := Some(layers[0])], prefix)
  {
    var nodes', stacks', ids' := nodes[n := node], stacks[n := layers], ids[n := Some(layers[0])];
    forall i | i in stacks'
      ensures StackAt(nodes', stacks', ids', prefix, i)
    {
      if i != n {
        assert StackAt(nodes, stacks, ids, prefix, i);
      }
    }
  }

  lemma WithStackRest(b: Builder, node: PcpNode, prefix: string)
    requires Valid(b, prefix) && node.rootLayer !in b.stackIndexByRoot
    ensures var b' := WithStack(b, node, prefix);
      Inverse(b'.layerStacksByNode, b'.indicesBySublayer) && EdgesOk(b'.edges, b'.layerStacksByNode) && CachedOk(b')
  {
    DenseAdd(b.stackIdByNode, b.stackIndexByRoot, node.rootLayer);
    InverseAdd(b.layerStacksByNode, b.indicesBySublayer, WalkLayerTree(LayerTreeOf(node)), |b.stackIdByNode|);
  }

  lemma WithStackExtends(b: Builder, node: PcpNode, prefix: string)
    requires Valid(b, prefix) && node.rootLayer !in b.stackIndexByRoot
    ensures Extends(b, WithStack(b, node, prefix))
  {
    var n := |b.stackIdByNode|;
    DenseAdd(b.stackIdByNode, b.stackIndexByRoot, node.rootLayer);
    assert n !in b.nodes && n !in b.layerStacksByNode;
    var layers := WalkLayerTree(LayerTreeOf(node));
    ExtendsAdd(b, WithStack(b, node, prefix), node.rootLayer, n, layers, StackNodeOf(node.rootLayer, layers, prefix, n, {}));
  }

  /** Adding one stack, its node and its root's index extends the state. */
  lemma ExtendsAdd(b: Builder, b': Builder, root: SdfLayer, n: nat, layers: seq<SdfLayer>, node: NodeAttrs)
    requires root !in b.stackIndexByRoot && n !in b.nodes && n !in b.layerStacksByNode
    requires node.StackNode? && node.primPaths == Some({})
    requires b'.stackIndexByRoot == b.stackIndexByRoot[root := n]
    requires b'.nodes == b.nodes[n := node] && b'.layerStacksByNode == b.layerStacksByNode[n := layers]
    ensures Extends(b, b')
  {
  }

  /**
   * `_add_node` keeps the invariant, returns the index of a stack whose
   * first layer is the node's root, and forgets nothing.
   */
  lemma AddedNodeValid(b: Builder, node: PcpNode, prefix: string)
    requires Valid(b, prefix)
    ensures var (b', index) := AddedNode(b, node, prefix);
      && Valid(b', prefix) && Extends(b, b')
      && index in b'.layerStacksByNode && |b'.layerStacksByNode[index]| > 0 && b'.layerStacksByNode[index][0] == node.rootLayer
      && b'.edges == b.edges && b'.compositions == b.compositions && b'.legendIds == b.legendIds
  {
    var (b', index) := AddedNode(b, node, prefix);
    if node.rootLayer !in b.stackIndexByRoot {
      WithStackLegend(b, node, prefix);
      WithStackNodes(b, node, prefix);
      WithStackStacks(b, node, prefix);
      WithStackRest(b, node, prefix);
      WithStackExtends(b, node, prefix);
      DenseAdd(b.stackIdByNode, b.stackIndexByRoot, node.rootLayer);
      assert StackAt(b'.nodes, b'.layerStacksByNode, b'.stackIdByNode, prefix, index);
    } else {
      assert b.stackIdByNode[index] == Some(node.rootLayer);
      assert StackAt(b.nodes, b.layerStacksByNode, b.stackIdByNode, prefix, index);
    }
  }

  // ---------------------------------------------------------------------
  // Arc edges

  /** `graph.add_edge(source, target, **edge_attrs)` for every source index: new edges added, existing ones relabelled. */
  function ArcEdgesAdded(edges: map<(nat, nat), EdgeAttrs>, sources: set<nat>, target: nat, arc: ArcType): (r: map<(nat, nat), EdgeAttrs>)
    ensures forall e :: e in r <==> e in edges || (e.1 == target && e.0 in sources)
    ensures forall e :: e in r ==> r[e] == if e.1 == target && e.0 in sources then ArcEdge(arc) else edges[e]
  {
    map e | e in edges.Keys + (set s | s in sources :: (s, target)) ::
      if e.1 == target && e.0 in sources then ArcEdge(arc) else edges[e]
  }

  lemma ArcEdgesStep(edges: map<(nat, nat), EdgeAttrs>, done: set<nat>, s: nat, target: nat, arc: ArcType)
    ensures ArcEdgesAdded(edges, done + {s}, target, arc) == ArcEdgesAdded(edges, done, target, arc)[(s, target) := ArcEdge(arc)]
  {
  }

  /** Moving one source from the ones left to the ones done keeps the two apart and their union whole. */
  lemma SourcesStep(sources: set<nat>, done: set<nat>, rest: set<nat>, s: nat)
    requires done + rest == sources && done !! rest && s in rest
    ensures (done + {s}) + (rest - {s}) == sources && (done + {s}) !! (rest - {s})
    ensures |rest - {s}| < |rest|
  {
  }

  /** The loop over `source_indices`: an edge from each to the target, in whatever order the set yields them. */
  method AddArcEdges(edges: map<(nat, nat), EdgeAttrs>, sources: set<nat>, target: nat, arc: ArcType) returns (r: map<(nat, nat), EdgeAttrs>)
    ensures r == ArcEdgesAdded(edges, sources, target, arc)
  {
    r := edges;
    var rest := sources;
    ghost var done: set<nat> := {};
    while rest != {}
      invariant done + rest == sources && done !! rest
      invariant r == ArcEdgesAdded(edges, done, target, arc)
      decreases |rest|
    {
      var s :| s in rest;
      ArcEdgesStep(edges, done, s, target, arc);
      SourcesStep(sources, done, rest, s);
      r := r[(s, target) := ArcEdge(arc)];
      rest := rest - {s};
      done := done + {s};
    }
  }

  /** The edge `e` was drawn for the arc `a`: from a stack holding its introducing layer to the stack of its target. */
  ghost predicate EdgeFor(b: Builder, e: (nat, nat), a: CompositionArc) {
    && a.introducing.Some? && e in b.edges && e.0 in b.layerStacksByNode && e.1 in b.layerStacksByNode
    && a.introducing.value in b.layerStacksByNode[e.0]
    && |b.layerStacksByNode[e.1]| > 0 && b.layerStacksByNode[e.1][0] == a.target.rootLayer
    && b.edges[e] == ArcEdge(a.arcType)
  }

  /** Every arc edge was drawn for one of the arcs in `seen`. */
  ghost predicate EdgesFrom(b: Builder, seen: set<CompositionArc>) {
    forall e :: e in b.edges && b.edges[e].ArcEdge? ==> exists a :: a in seen && EdgeFor(b, e, a)
  }

  lemma EdgesFromKept(b: Builder, b': Builder, seen: set<CompositionArc>, seen': set<CompositionArc>)
    requires EdgesFrom(b, seen) && Extends(b, b') && b'.edges == b.edges && seen <= seen'
    ensures EdgesFrom(b', seen')
  {
    forall e | e in b'.edges && b'.edges[e].ArcEdge?
      ensures exists a :: a in seen' && EdgeFor(b', e, a)
    {
      var a :| a in seen && EdgeFor(b, e, a);
      assert EdgeFor(b', e, a);
    }
  }

  /** One arc of `_compute_composition`: its target's node, then the edges from its introducing layer's stacks. */
  function ArcStep(b: Builder, arc: CompositionArc, prefix: string): (Builder, nat) {
    var (b1, index) := AddedNode(b, arc.target, prefix);
    match arc.introducing
    case None => (b1, index)
    case Some(intro) =>
      var sources := Get(b1.indicesBySublayer, intro);
      (b1.(indicesBySublayer := b1.indicesBySublayer[intro := sources],
           edges := ArcEdgesAdded(b1.edges, sources, index, arc.arcType)), index)
  }

  /** Reading `stack_indices_by_sublayers[intro]` adds an empty entry and keeps the two maps inverse. */
  lemma InverseTouch(stacks: map<nat, seq<SdfLayer>>, bySub: map<SdfLayer, set<nat>>, intro: SdfLayer)
    requires Inverse(stacks, bySub)
    ensures Inverse(stacks, bySub[intro := Get(bySub, intro)])
  {
  }

  lemma ArcEdgesOk(b: Builder, intro: SdfLayer, index: nat, arc: ArcType, prefix: string)
    requires Valid(b, prefix) && index in b.layerStacksByNode
    ensures var sources := Get(b.indicesBySublayer, intro);
      EdgesOk(ArcEdgesAdded(b.edges, sources, index, arc), b.layerStacksByNode)
  {
  }

  lemma ArcEdgesFrom(b: Builder, arc: CompositionArc, index: nat, seen: set<CompositionArc>)
    requires Inverse(b.layerStacksByNode, b.indicesBySublayer) && EdgesFrom(b, seen)
    requires arc.introducing.Some? && index in b.layerStacksByNode
    requires |b.layerStacksByNode[index]| > 0 && b.layerStacksByNode[index][0] == arc.target.rootLayer
    ensures var intro := arc.introducing.value;
      var sources := Get(b.indicesBySublayer, intro);
      EdgesFrom(b.(indicesBySublayer := b.indicesBySublayer[intro := sources],
                   edges := ArcEdgesAdded(b.edges, sources, index, arc.arcType)), seen + {arc})
  {
    var intro := arc.introducing.value;
    var sources := Get(b.indicesBySublayer, intro);
    var b' := b.(indicesBySublayer := b.indicesBySublayer[intro := sources],
                 edges := ArcEdgesAdded(b.edges, sources, index, arc.arcType));
    forall e | e in b'.edges && b'.edges[e].ArcEdge?
      ensures exists a :: a in seen + {arc} && EdgeFor(b', e, a)
    {
      if e.1 == index && e.0 in sources {
        assert EdgeFor(b', e, arc);
      } else {
        var a :| a in seen && EdgeFor(b, e, a);
        assert EdgeFor(b', e, a);
      }
    }
  }

  /** One arc keeps the invariant, and its index is its target's. */
  lemma ArcStepValid(b: Builder, arc: CompositionArc, prefix: string, seen: set<CompositionArc>)
    requires Valid(b, prefix) && EdgesFrom(b, seen)
    ensures var (b', index) := ArcStep(b, arc, prefix);
      && Valid(b', prefix) && Extends(b, b') && EdgesFrom(b', seen + {arc})
      && b'.compositions == b.compositions && b'.legendIds == b.legendIds
      && arc.target.rootLayer in b'.stackIndexByRoot && index == b'.stackIndexByRoot[arc.target.rootLayer]
  {
    var (b1, index) := AddedNode(b, arc.target, prefix);
    AddedNodeValid(b, arc.target, prefix);
    EdgesFromKept(b, b1, seen, seen + {arc});
    if arc.introducing.Some? {
      var intro := arc.introducing.value;
      ArcTouchValid(b1, intro, index, arc.arcType, prefix);
      ArcEdgesFrom(b1, arc, index, seen);
      var b2 := ArcStep(b, arc, prefix).0;
      ExtendsTrans(b, b1, b2);
    }
  }

  lemma ArcTouchValid(b: Builder, intro: SdfLayer, index: nat, arc: ArcType, prefix: string)
    requires Valid(b, prefix) && index in b.layerStacksByNode
    ensures var sources := Get(b.indicesBySublayer, intro);
      var b' := b.(indicesBySublayer := b.indicesBySublayer[intro := sources],
                   edges := ArcEdgesAdded(b.edges, sources, index, arc));
      Valid(b', prefix) && Extends(b, b')
  {
    InverseTouch(b.layerStacksByNode, b.indicesBySublayer, intro);
    ArcEdgesOk(b, intro, index, arc, prefix);
  }

  // ---------------------------------------------------------------------
  // _compute_composition

  /** The arcs of one prim in turn: the state after them and the indices of their targets. */
  function ArcsStep(b: Builder, arcs: seq<CompositionArc>, prefix: string): (Builder, set<nat>)
    decreases |arcs|
  {
    if arcs == [] then (b, {})
    else
      var (b1, affected) := ArcsStep(b, arcs[..|arcs| - 1], prefix);
      var (b2, index) := ArcStep(b1, arcs[|arcs| - 1], prefix);
      (b2, affected + {index})
  }

  /** Every arc's target root has an index. */
  ghost predicate AllRoots(byRoot: map<SdfLayer, nat>, arcs: seq<CompositionArc>) {
    forall a :: a in arcs ==> a.target.rootLayer in byRoot
  }

  /** The indices of the stacks the arcs target. */
  ghost function TargetIndices(byRoot: map<SdfLayer, nat>, arcs: seq<CompositionArc>): set<nat> {
    set a | a in arcs && a.target.rootLayer in byRoot :: byRoot[a.target.rootLayer]
  }

  lemma TargetIndicesKept(byRoot: map<SdfLayer, nat>, byRoot': map<SdfLayer, nat>, arcs: seq<CompositionArc>)
    requires AllRoots(byRoot, arcs)
    requires forall r :: r in byRoot ==> r in byRoot' && byRoot'[r] == byRoot[r]
    ensures AllRoots(byRoot', arcs) && TargetIndices(byRoot', arcs) == TargetIndices(byRoot, arcs)
  {
  }

  lemma TargetIndicesSnoc(byRoot: map<SdfLayer, nat>, arcs: seq<CompositionArc>, arc: CompositionArc)
    requires AllRoots(byRoot, arcs) && arc.target.rootLayer in byRoot
    ensures AllRoots(byRoot, arcs + [arc])
    ensures TargetIndices(byRoot, arcs + [arc]) == TargetIndices(byRoot, arcs) + {byRoot[arc.target.rootLayer]}
  {
  }

  /**
   * The arcs of a prim keep the invariant; afterwards every target has an
   * index, the affected indices are the targets' indices and every new
   * arc edge was drawn for one of the arcs.
   */
  lemma {:induction false} ArcsStepValid(b: Builder, arcs: seq<CompositionArc>, prefix: string, seen: set<CompositionArc>)
    requires Valid(b, prefix) && EdgesFrom(b, seen)
    ensures var (b', affected) := ArcsStep(b, arcs, prefix);
      && Valid(b', prefix) && Extends(b, b') && EdgesFrom(b', seen + set a | a in arcs)
      && b'.compositions == b.compositions && b'.legendIds == b.legendIds
      && AllRoots(b'.stackIndexByRoot, arcs) && affected == TargetIndices(b'.stackIndexByRoot, arcs)
    decreases |arcs|
  {
    if arcs == [] {
      assert seen + (set a | a in arcs) == seen;
    } else {
      var init := arcs[..|arcs| - 1];
      var last := arcs[|arcs| - 1];
      assert arcs == init + [last];
      var (b1, affected) := ArcsStep(b, init, prefix);
      ArcsStepValid(b, init, prefix, seen);
      var seen1 := seen + set a | a in init;
      ArcStepValid(b1, last, prefix, seen1);
      var (b2, index) := ArcStep(b1, last, prefix);
      ExtendsTrans(b, b1, b2);
      TargetIndicesKept(b1.stackIndexByRoot, b2.stackIndexByRoot, init);
      TargetIndicesSnoc(b2.stackIndexByRoot, init, last);
      SeenSnoc(seen, init, last);
    }
  }

  lemma SeenSnoc(seen: set<CompositionArc>, init: seq<CompositionArc>, last: CompositionArc)
    ensures seen + (set a | a in init) + {last} == seen + set a | a in init + [last]
  {
  }

  /** `_compute_composition`, cached by the forwarded prim. */
  function Composed(b: Builder, forwarded: string, arcs: seq<CompositionArc>, prefix: string): (Builder, set<nat>) {
    if forwarded in b.compositions then (b, b.compositions[forwarded])
    else
      var (b1, affected) := ArcsStep(b, arcs, prefix);
      (b1.(compositions := b1.compositions[forwarded := affected]), affected)
  }

  /**
   * `_compute_composition` of a forwarded prim: the cached indices when it
   * was computed before, else a node for each arc's target and an edge from
   * each stack holding the arc's introducing layer.
   */
  method ComputeComposition(b: Builder, forwarded: string, arcs: seq<CompositionArc>, prefix: string) returns (b': Builder, affected: set<nat>)
    ensures (b', affected) == Composed(b, forwarded, arcs, prefix)
  {
    if forwarded in b.compositions {
      return b, b.compositions[forwarded];
    }
    b', affected := b, {};
    for k := 0 to |arcs|
      invariant (b', affected) == ArcsStep(b, arcs[..k], prefix)
    {
      assert arcs[..k + 1][..k] == arcs[..k];
      var arc := arcs[k];
      var index;
      b', index := AddNode(b', arc.target, prefix);
      affected := affected + {index};
      var target := b'.stackIndexByRoot[arc.target.rootLayer];
      if arc.introducing.Some? {
        var intro := arc.introducing.value;
        var sources := Get(b'.indicesBySublayer, intro);
        var edges := AddArcEdges(b'.edges, sources, target, arc.arcType);
        b' := b'.(indicesBySublayer := b'.indicesBySublayer[intro := sources], edges := edges);
      }
    }
    assert arcs[..|arcs|] == arcs;
    b' := b'.(compositions := b'.compositions[forwarded := affected]);
  }

  // ---------------------------------------------------------------------
  // Prim paths

  /** `graph.nodes[each]["prim_paths"].add(prim_path)`. */
  function AddPath(n: NodeAttrs, path: string): (r: NodeAttrs)
    ensures n.StackNode? && n.primPaths.Some? ==> r == n.(primPaths := Some(n.primPaths.value + {path}))
    ensures !(n.StackNode? && n.primPaths.Some?) ==> r == n
  {
    if n.StackNode? && n.primPaths.Some? then n.(primPaths := Some(n.primPaths.value + {path})) else n
  }

  /** The prim's path recorded on every affected node. */
  function WithPath(nodes: map<nat, NodeAttrs>, affected: set<nat>, path: string): (r: map<nat, NodeAttrs>)
    ensures r.Keys == nodes.Keys
    ensures forall i :: i in r ==> r[i] == if i in affected then AddPath(nodes[i], path) else nodes[i]
  {
    map i | i in nodes :: if i in affected then AddPath(nodes[i], path) else nodes[i]
  }

  lemma WithPathStep(nodes: map<nat, NodeAttrs>, done: set<nat>, i: nat, path: string)
    requires i !in done
    ensures WithPath(nodes, done + {i}, path) ==
      if i in nodes then WithPath(nodes, done, path)[i := AddPath(nodes[i], path)] else WithPath(nodes, done, path)
  {
  }

  /** The loop over the affected indices of one prim. */
  method RecordPath(nodes: map<nat, NodeAttrs>, affected: set<nat>, path: string) returns (r: map<nat, NodeAttrs>)
    ensures r == WithPath(nodes, affected, path)
  {
    r := nodes;
    var rest := affected;
    ghost var done: set<nat> := {};
    while rest != {}
      invariant done + rest == affected && done !! rest
      invariant r == WithPath(nodes, done, path)
      decreases |rest|
    {
      var i :| i in rest;
      WithPathStep(nodes, done, i, path);
      if i in r {
        r := r[i := AddPath(r[i], path)];
      }
      rest := rest - {i};
      done := done + {i};
    }
  }

  lemma WithPathValid(b: Builder, affected: set<nat>, path: string, prefix: string)
    requires Valid(b, prefix)
    ensures Valid(b.(nodes := WithPath(b.nodes, affected, path)), prefix)
  {
    WithPathLegend(b.nodes, b.edges, b.legendIds, affected, path);
    WithPathStacks(b.nodes, b.layerStacksByNode, b.stackIdByNode, prefix, affected, path);
  }

  lemma WithPathLegend(nodes: map<nat, NodeAttrs>, edges: map<(nat, nat), EdgeAttrs>, legendIds: seq<nat>, affected: set<nat>, path: string)
    requires LegendOk(nodes, edges, legendIds)
    ensures LegendOk(WithPath(nodes, affected, path), edges, legendIds)
    ensures forall i :: i in nodes ==> (WithPath(nodes, affected, path)[i].LegendNode? <==> nodes[i].LegendNode?)
  {
  }

  lemma WithPathStacks(nodes: map<nat, NodeAttrs>, stacks: map<nat, seq<SdfLayer>>, ids: map<nat, Option<SdfLayer>>, prefix: string, affected: set<nat>, path: string)
    requires AllStacksAt(nodes, stacks, ids, prefix)
    ensures AllStacksAt(WithPath(nodes, affected, path), stacks, ids, prefix)
  {
    forall i | i in stacks
      ensures StackAt(WithPath(nodes, affected, path), stacks, ids, prefix, i)
    {
      assert StackAt(nodes, stacks, ids, prefix, i);
      StackAtPath(nodes, stacks, ids, prefix, i, affected, path);
    }
  }

  lemma StackAtPath(nodes: map<nat, NodeAttrs>, stacks: map<nat, seq<SdfLayer>>, ids: map<nat, Option<SdfLayer>>, prefix: string, i: nat, affected: set<nat>, path: string)
    requires StackAt(nodes, stacks, ids, prefix, i)
    ensures StackAt(WithPath(nodes, affected, path), stacks, ids, prefix, i)
  {
  }

  // ---------------------------------------------------------------------
  // The prims

  /** A prim of the selection: its path, and the path of the prim its composition is read from after forwarding. */
  datatype Prim = Prim(path: string, forwarded: string)

  /** Every prim's forwarded prim has its composition arcs. */
  ghost predicate ArcsKnown(prims: seq<Prim>, arcsOf: map<string, seq<CompositionArc>>) {
    forall k :: 0 <= k < |prims| ==> prims[k].forwarded in arcsOf
  }

  /** The arcs of the prims' forwarded prims. */
  ghost function SeenArcs(prims: seq<Prim>, arcsOf: map<string, seq<CompositionArc>>): set<CompositionArc> {
    set j, a | 0 <= j < |prims| && prims[j].forwarded in arcsOf && a in arcsOf[prims[j].forwarded] :: a
  }

  lemma SeenArcsSnoc(done: seq<Prim>, p: Prim, arcsOf: map<string, seq<CompositionArc>>)
    requires p.forwarded in arcsOf
    ensures SeenArcs(done + [p], arcsOf) == SeenArcs(done, arcsOf) + set a | a in arcsOf[p.forwarded]
  {
    var d := done + [p];
    assert forall j :: 0 <= j < |done| ==> d[j] == done[j];
    assert d[|done|] == p;
  }

  /** The paths of the prims whose composition affected the index `i`. */
  ghost function PathsOn(prims: seq<Prim>, compositions: map<string, set<nat>>, i: nat): set<string> {
    set j | 0 <= j < |prims| && prims[j].forwarded in compositions && i in compositions[prims[j].forwarded] :: prims[j].path
  }

  lemma PathsOnSnoc(done: seq<Prim>, p: Prim, compositions: map<string, set<nat>>, i: nat)
    requires p.forwarded in compositions
    ensures PathsOn(done + [p], compositions, i) ==
      PathsOn(done, compositions, i) + (if i in compositions[p.forwarded] then {p.path} else {})
  {
    var d := done + [p];
    assert forall j :: 0 <= j < |done| ==> d[j] == done[j];
    assert d[|done|] == p;
  }

  lemma PathsOnKept(done: seq<Prim>, compositions: map<string, set<nat>>, compositions': map<string, set<nat>>, i: nat)
    requires forall j :: 0 <= j < |done| ==> done[j].forwarded in compositions
    requires forall f :: f in compositions ==> f in compositions' && compositions'[f] == compositions[f]
    ensures PathsOn(done, compositions', i) == PathsOn(done, compositions, i)
  {
  }

  lemma PathsOnNone(done: seq<Prim>, compositions: map<string, set<nat>>, i: nat)
    requires forall j :: 0 <= j < |done| ==> done[j].forwarded in compositions && i !in compositions[done[j].forwarded]
    ensures PathsOn(done, compositions, i) == {}
  {
  }

  /** Every cached composition holds the indices of its arcs' targets. */
  ghost predicate CacheOk(b: Builder, arcsOf: map<string, seq<CompositionArc>>) {
    forall f :: f in b.compositions ==>
      f in arcsOf && AllRoots(b.stackIndexByRoot, arcsOf[f]) && b.compositions[f] == TargetIndices(b.stackIndexByRoot, arcsOf[f])
  }

  /**
   * The state after the prims `done`: the graph invariant, every prim's
   * composition cached, every stack's prim paths those of the prims whose
   * composition affected it, and every arc edge drawn for one of their arcs.
   */
  ghost predicate Inv(b: Builder, done: seq<Prim>, arcsOf: map<string, seq<CompositionArc>>, prefix: string) {
    && Valid(b, prefix) && ArcsKnown(done, arcsOf) && CacheOk(b, arcsOf)
    && (forall j :: 0 <= j < |done| ==> done[j].forwarded in b.compositions)
    && (forall i :: i in b.nodes && b.nodes[i].StackNode? ==> b.nodes[i].primPaths == Some(PathsOn(done, b.compositions, i)))
    && EdgesFrom(b, SeenArcs(done, arcsOf))
  }

  /** The targets of arcs are stacks. */
  lemma TargetsAreStacks(b: Builder, arcs: seq<CompositionArc>, prefix: string)
    requires Valid(b, prefix) && AllRoots(b.stackIndexByRoot, arcs)
    ensures TargetIndices(b.stackIndexByRoot, arcs) <= b.layerStacksByNode.Keys
  {
    forall i | i in TargetIndices(b.stackIndexByRoot, arcs)
      ensures i in b.layerStacksByNode
    {
      var a :| a in arcs && a.target.rootLayer in b.stackIndexByRoot && b.stackIndexByRoot[a.target.rootLayer] == i;
      assert b.stackIdByNode[i] == Some(a.target.rootLayer);
    }
  }

  lemma CacheKept(b: Builder, b': Builder, arcsOf: map<string, seq<CompositionArc>>)
    requires CacheOk(b, arcsOf) && Extends(b, b')
    requires forall f :: f in b'.compositions <==> f in b.compositions
    requires forall f :: f in b.compositions ==> b'.compositions[f] == b.compositions[f]
    ensures CacheOk(b', arcsOf)
  {
    forall f | f in b'.compositions
      ensures AllRoots(b'.stackIndexByRoot, arcsOf[f]) && b'.compositions[f] == TargetIndices(b'.stackIndexByRoot, arcsOf[f])
    {
      TargetIndicesKept(b.stackIndexByRoot, b'.stackIndexByRoot, arcsOf[f]);
    }
  }

  /**
   * A composition computed afresh keeps the invariant and the cache: the new
   * entry holds the indices of its arcs' targets, the old ones are unchanged.
   */
  lemma ComposedFresh(b: Builder, f: string, arcsOf: map<string, seq<CompositionArc>>, prefix: string, seen: set<CompositionArc>)
    requires Valid(b, prefix) && EdgesFrom(b, seen) && CacheOk(b, arcsOf) && f in arcsOf && f !in b.compositions
    ensures var (b1, affected) := Composed(b, f, arcsOf[f], prefix);
      && Valid(b1, prefix) && Extends(b, b1) && EdgesFrom(b1, seen + set a | a in arcsOf[f])
      && CacheOk(b1, arcsOf) && b1.compositions == b.compositions[f := affected]
  {
    var arcs := arcsOf[f];
    ArcsStepValid(b, arcs, prefix, seen);
    var (b2, affected) := ArcsStep(b, arcs, prefix);
    var b1 := b2.(compositions := b2.compositions[f := affected]);
    TargetsAreStacks(b2, arcs, prefix);
    CachedValid(b2, f, affected, prefix);
    CacheKept(b, b2, arcsOf);
    CacheAdd(b2, f, arcsOf);
    var seen' := seen + set a | a in arcs;
    EdgesFromKept(b2, b1, seen', seen');
  }

  /** A cached composition whose indices are stacks keeps the invariant. */
  lemma CachedValid(b: Builder, f: string, affected: set<nat>, prefix: string)
    requires Valid(b, prefix) && affected <= b.layerStacksByNode.Keys
    ensures Valid(b.(compositions := b.compositions[f := affected]), prefix)
  {
  }

  lemma CacheAdd(b: Builder, f: string, arcsOf: map<string, seq<CompositionArc>>)
    requires CacheOk(b, arcsOf) && f in arcsOf && AllRoots(b.stackIndexByRoot, arcsOf[f])
    ensures CacheOk(b.(compositions := b.compositions[f := TargetIndices(b.stackIndexByRoot, arcsOf[f])]), arcsOf)
  {
  }

  /** `_compute_composition`, cached or not, keeps the invariant and leaves the prim's composition cached. */
  lemma ComposedValid(b: Builder, f: string, arcsOf: map<string, seq<CompositionArc>>, prefix: string, seen: set<CompositionArc>)
    requires Valid(b, prefix) && EdgesFrom(b, seen) && CacheOk(b, arcsOf) && f in arcsOf
    ensures var (b1, affected) := Composed(b, f, arcsOf[f], prefix);
      && Valid(b1, prefix) && Extends(b, b1) && EdgesFrom(b1, seen + set a | a in arcsOf[f])
      && CacheOk(b1, arcsOf) && f in b1.compositions && b1.compositions[f] == affected
      && (forall g :: g in b.compositions ==> g in b1.compositions && b1.compositions[g] == b.compositions[g])
  {
    if f in b.compositions {
      var seen' := seen + set a | a in arcsOf[f];
      EdgesFromKept(b, b, seen, seen');
    } else {
      ComposedFresh(b, f, arcsOf, prefix, seen);
    }
  }

  /** One prim of the loop: its composition, then its path on every affected node. */
  function PrimStep(b: Builder, p: Prim, arcs: seq<CompositionArc>, prefix: string): Builder {
    var (b1, affected) := Composed(b, p.forwarded, arcs, prefix);
    b1.(nodes := WithPath(b1.nodes, affected, p.path))
  }

  /** The prim paths after one more prim. */
  lemma PathsStep(b: Builder, b1: Builder, affected: set<nat>, done: seq<Prim>, p: Prim, arcsOf: map<string, seq<CompositionArc>>, prefix: string)
    requires Inv(b, done, arcsOf, prefix) && Valid(b1, prefix) && Extends(b, b1)
    requires p.forwarded in b1.compositions && b1.compositions[p.forwarded] == affected
    requires forall g :: g in b.compositions ==> g in b1.compositions && b1.compositions[g] == b.compositions[g]
    ensures var nodes := WithPath(b1.nodes, affected, p.path);
      forall i :: i in nodes && nodes[i].StackNode? ==> nodes[i].primPaths == Some(PathsOn(done + [p], b1.compositions, i))
  {
    var nodes := WithPath(b1.nodes, affected, p.path);
    forall i | i in nodes && nodes[i].StackNode?
      ensures nodes[i].primPaths == Some(PathsOn(done + [p], b1.compositions, i))
    {
      PathsStepAt(b, b1, affected, done, p, arcsOf, prefix, i);
    }
  }

  lemma PathsStepAt(b: Builder, b1: Builder, affected: set<nat>, done: seq<Prim>, p: Prim, arcsOf: map<string, seq<CompositionArc>>, prefix: string, i: nat)
    requires Inv(b, done, arcsOf, prefix) && Extends(b, b1)
    requires p.forwarded in b1.compositions && b1.compositions[p.forwarded] == affected
    requires forall g :: g in b.compositions ==> g in b1.compositions && b1.compositions[g] == b.compositions[g]
    requires i in b1.nodes && WithPath(b1.nodes, affected, p.path)[i].StackNode?
    ensures WithPath(b1.nodes, affected, p.path)[i].primPaths == Some(PathsOn(done + [p], b1.compositions, i))
  {
    var before := PathsOn(done, b1.compositions, i);
    assert b1.nodes[i].StackNode?;
    StackPathsKept(b, b1, done, arcsOf, prefix, i);
    PathsOnSnoc(done, p, b1.compositions, i);
    WithPathAt(b1.nodes, affected, p.path, i, before);
    if i !in affected {
      assert before + {} == before;
    }
  }

  /** Adding a prim path to the affected nodes extends the paths of an affected stack node and keeps the others. */
  lemma WithPathAt(nodes: map<nat, NodeAttrs>, affected: set<nat>, path: string, i: nat, before: set<string>)
    requires i in nodes && nodes[i].StackNode? && nodes[i].primPaths == Some(before)
    ensures WithPath(nodes, affected, path)[i].primPaths == Some(if i in affected then before + {path} else before)
  {
  }

  /** A stack node of the extended builder still lists the paths of the prims done so far. */
  lemma StackPathsKept(b: Builder, b1: Builder, done: seq<Prim>, arcsOf: map<string, seq<CompositionArc>>, prefix: string, i: nat)
    requires Inv(b, done, arcsOf, prefix) && Extends(b, b1)
    requires forall g :: g in b.compositions ==> g in b1.compositions && b1.compositions[g] == b.compositions[g]
    requires i in b1.nodes && b1.nodes[i].StackNode?
    ensures b1.nodes[i].primPaths == Some(PathsOn(done, b1.compositions, i))
  {
    var before := PathsOn(done, b1.compositions, i);
    PathsOnKept(done, b.compositions, b1.compositions, i);
    if i in b.nodes {
      assert b1.nodes[i] == b.nodes[i];
      assert b1.nodes[i].primPaths == Some(before);
    } else {
      forall j | 0 <= j < |done|
        ensures i !in b.compositions[done[j].forwarded]
      {
        assert b.compositions[done[j].forwarded] <= b.layerStacksByNode.Keys;
      }
      PathsOnNone(done, b.compositions, i);
      assert b1.nodes[i].primPaths == Some(before);
    }
  }

  /** Each prim keeps the invariant of the loop. */
  lemma PrimStepInv(b: Builder, done: seq<Prim>, p: Prim, arcsOf: map<string, seq<CompositionArc>>, prefix: string)
    requires Inv(b, done, arcsOf, prefix) && p.forwarded in arcsOf
    ensures Inv(PrimStep(b, p, arcsOf[p.forwarded], prefix), done + [p], arcsOf, prefix)
  {
    var (b1, affected) := Composed(b, p.forwarded, arcsOf[p.forwarded], prefix);
    ComposedValid(b, p.forwarded, arcsOf, prefix, SeenArcs(done, arcsOf));
    var b2 := b1.(nodes := WithPath(b1.nodes, affected, p.path));
    WithPathValid(b1, affected, p.path, prefix);
    PathsStep(b, b1, affected, done, p, arcsOf, prefix);
    SeenArcsSnoc(done, p, arcsOf);
    EdgesFromNodes(b1, b2, SeenArcs(done + [p], arcsOf));
    DoneSnoc(done, p, arcsOf, b.compositions, b1.compositions);
  }

  lemma DoneSnoc(done: seq<Prim>, p: Prim, arcsOf: map<string, seq<CompositionArc>>, compositions: map<string, set<nat>>, compositions': map<string, set<nat>>)
    requires ArcsKnown(done, arcsOf) && p.forwarded in arcsOf
    requires forall j :: 0 <= j < |done| ==> done[j].forwarded in compositions
    requires forall f :: f in compositions ==> f in compositions'
    requires p.forwarded in compositions'
    ensures ArcsKnown(done + [p], arcsOf)
    ensures forall j :: 0 <= j < |done + [p]| ==> (done + [p])[j].forwarded in compositions'
  {
    var d := done + [p];
    assert forall j :: 0 <= j < |done| ==> d[j] == done[j];
  }

  /** Arc edges do not depend on the prim paths. */
  lemma EdgesFromNodes(b: Builder, b': Builder, seen: set<CompositionArc>)
    requires EdgesFrom(b, seen) && b'.edges == b.edges && b'.layerStacksByNode == b.layerStacksByNode
    ensures EdgesFrom(b', seen)
  {
    forall e | e in b'.edges && b'.edges[e].ArcEdge?
      ensures exists a :: a in seen && EdgeFor(b', e, a)
    {
      var a :| a in seen && EdgeFor(b, e, a);
      assert EdgeFor(b', e, a);
    }
  }

  lemma StartInv(nodes: map<nat, NodeAttrs>, edges: map<(nat, nat), EdgeAttrs>, ids: seq<nat>, arcsOf: map<string, seq<CompositionArc>>, prefix: string)
    requires LegendOk(nodes, edges, ids)
    requires forall i: nat :: i in nodes <==> i < LegendSize
    requires forall e :: e in edges ==> e.0 < LegendSize && e.1 < LegendSize && edges[e].LegendEdge?
    ensures Inv(Start(nodes, edges, ids), [], arcsOf, prefix)
  {
    StartValid(nodes, edges, ids, prefix);
  }

  // ---------------------------------------------------------------------
  // The finished graph

  /** The node at `i` is a layer stack with its layers and prim paths. */
  ghost predicate IsStack(g: StackGraph, i: nat) {
    && i in g.nodes && g.nodes[i].StackNode? && g.nodes[i].layerStack.Some? && |g.nodes[i].layerStack.value| > 0
    && g.nodes[i].primPaths.Some?
  }

  /** The root layer of the stack at `i`. */
  ghost function RootOf(g: StackGraph, i: nat): SdfLayer
    requires IsStack(g, i)
  {
    g.nodes[i].layerStack.value[0]
  }

  /**
   * The nodes are the indices `0` to `len - 1`; the legend's are invisible;
   * every other is the record `_add_node` draws for its layer stack, linking
   * to its own index; no two stacks share a root layer.
   */
  ghost predicate NodesShown(g: StackGraph, prefix: string) {
    && (forall i: nat :: i in g.nodes <==> i < |g.nodes|)
    && (forall i :: i in g.nodes ==> (g.nodes[i].LegendNode? <==> i < LegendSize))
    && (forall i :: i in g.nodes && i >= LegendSize ==>
          IsStack(g, i) && g.nodes[i] == StackNodeOf(RootOf(g, i), g.nodes[i].layerStack.value, prefix, i, g.nodes[i].primPaths.value))
    && (forall i, j :: IsStack(g, i) && IsStack(g, j) && RootOf(g, i) == RootOf(g, j) ==> i == j)
  }

  /** `indices_by_layers` lists, for each layer, exactly the stacks holding it. */
  ghost predicate LayersIndexed(g: StackGraph) {
    forall l, i :: (l in g.indicesByLayers && i in g.indicesByLayers[l]) <==> (IsStack(g, i) && l in g.nodes[i].layerStack.value)
  }

  /** Every edge joins two legend nodes or two stacks. */
  ghost predicate EdgesShown(g: StackGraph) {
    forall e :: e in g.edges ==>
      (e.0 < LegendSize && e.1 < LegendSize && g.edges[e].LegendEdge?) ||
      (IsStack(g, e.0) && IsStack(g, e.1) && g.edges[e].ArcEdge?)
  }

  /** The paths of the prims one of whose arcs targets the stack rooted at `root`. */
  ghost function PathsTargeting(prims: seq<Prim>, arcsOf: map<string, seq<CompositionArc>>, root: SdfLayer): set<string> {
    set j | 0 <= j < |prims| && prims[j].forwarded in arcsOf && Targets(arcsOf[prims[j].forwarded], root) :: prims[j].path
  }

  ghost predicate Targets(arcs: seq<CompositionArc>, root: SdfLayer) {
    exists a :: a in arcs && a.target.rootLayer == root
  }

  /** Each stack lists the paths of exactly the prims with an arc to it. */
  ghost predicate PathsShown(g: StackGraph, prims: seq<Prim>, arcsOf: map<string, seq<CompositionArc>>) {
    forall i :: IsStack(g, i) ==> g.nodes[i].primPaths.value == PathsTargeting(prims, arcsOf, RootOf(g, i))
  }

  /** The edge `e` draws the arc `a`: from a stack holding its introducing layer to the stack of its target, in its colour. */
  ghost predicate EdgeDrawn(g: StackGraph, e: (nat, nat), a: CompositionArc) {
    && a.introducing.Some? && e in g.edges && IsStack(g, e.0) && IsStack(g, e.1)
    && a.introducing.value in g.nodes[e.0].layerStack.value && RootOf(g, e.1) == a.target.rootLayer
    && g.edges[e] == ArcEdge(a.arcType)
  }

  /** Every arc edge draws an arc of one of the prims. */
  ghost predicate ArcsShown(g: StackGraph, prims: seq<Prim>, arcsOf: map<string, seq<CompositionArc>>) {
    forall e :: e in g.edges && g.edges[e].ArcEdge? ==> exists a :: a in SeenArcs(prims, arcsOf) && EdgeDrawn(g, e, a)
  }

  function GraphOf(b: Builder): StackGraph {
    StackGraph(b.nodes, b.edges, b.indicesBySublayer, b.legendIds)
  }

  /** A stack of the builder is a stack of the graph, with the same layers. */
  lemma StackShown(b: Builder, prefix: string, i: nat)
    requires Valid(b, prefix) && i in b.layerStacksByNode
    ensures IsStack(GraphOf(b), i) && b.nodes[i].layerStack == Some(b.layerStacksByNode[i])
    ensures RootOf(GraphOf(b), i) == b.stackIdByNode[i].value
    ensures b.nodes[i] == StackNodeOf(RootOf(GraphOf(b), i), b.layerStacksByNode[i], prefix, i, b.nodes[i].primPaths.value)
  {
    assert StackAt(b.nodes, b.layerStacksByNode, b.stackIdByNode, prefix, i);
  }

  /** A stack of the graph is a stack of the builder. */
  lemma ShownStack(b: Builder, prefix: string, i: nat)
    requires Valid(b, prefix) && i in b.nodes && b.nodes[i].StackNode?
    ensures i in b.layerStacksByNode
  {
  }

  lemma GraphNodes(b: Builder, prefix: string)
    requires Valid(b, prefix)
    ensures NodesShown(GraphOf(b), prefix)
  {
    GraphDense(b, prefix);
    GraphRecords(b, prefix);
    GraphRoots(b, prefix);
  }

  lemma GraphDense(b: Builder, prefix: string)
    requires Valid(b, prefix)
    ensures forall i: nat :: i in b.nodes <==> i < |b.nodes|
  {
    assert b.nodes.Keys == b.stackIdByNode.Keys;
  }

  lemma GraphRecords(b: Builder, prefix: string)
    requires Valid(b, prefix)
    ensures var g := GraphOf(b);
      forall i :: i in g.nodes && i >= LegendSize ==>
        IsStack(g, i) && g.nodes[i] == StackNodeOf(RootOf(g, i), g.nodes[i].layerStack.value, prefix, i, g.nodes[i].primPaths.value)
  {
    forall i | i in b.nodes && i >= LegendSize
      ensures IsStack(GraphOf(b), i)
      ensures b.nodes[i] == StackNodeOf(RootOf(GraphOf(b), i), b.nodes[i].layerStack.value, prefix, i, b.nodes[i].primPaths.value)
    {
      assert i in b.layerStacksByNode;
      StackShown(b, prefix, i);
    }
  }

  lemma GraphRoots(b: Builder, prefix: string)
    requires Valid(b, prefix)
    ensures var g := GraphOf(b);
      forall i, j :: IsStack(g, i) && IsStack(g, j) && RootOf(g, i) == RootOf(g, j) ==> i == j
  {
    var g := GraphOf(b);
    forall i, j | IsStack(g, i) && IsStack(g, j) && RootOf(g, i) == RootOf(g, j)
      ensures i == j
    {
      ShownStack(b, prefix, i);
      ShownStack(b, prefix, j);
      StackShown(b, prefix, i);
      StackShown(b, prefix, j);
    }
  }

  lemma GraphLayers(b: Builder, prefix: string)
    requires Valid(b, prefix)
    ensures LayersIndexed(GraphOf(b))
  {
    var g := GraphOf(b);
    forall l, i
      ensures (l in g.indicesByLayers && i in g.indicesByLayers[l]) <==> (IsStack(g, i) && l in g.nodes[i].layerStack.value)
    {
      if l in b.indicesBySublayer && i in b.indicesBySublayer[l] {
        IndexedStack(b, prefix, l, i);
      }
      if IsStack(g, i) {
        StackIndexed(b, prefix, l, i);
      }
    }
  }

  lemma IndexedStack(b: Builder, prefix: string, l: SdfLayer, i: nat)
    requires Valid(b, prefix) && l in b.indicesBySublayer && i in b.indicesBySublayer[l]
    ensures IsStack(GraphOf(b), i) && l in b.nodes[i].layerStack.value
  {
    StackShown(b, prefix, i);
  }

  lemma StackIndexed(b: Builder, prefix: string, l: SdfLayer, i: nat)
    requires Valid(b, prefix) && IsStack(GraphOf(b), i)
    ensures l in b.nodes[i].layerStack.value ==> l in b.indicesBySublayer && i in b.indicesBySublayer[l]
  {
    ShownStack(b, prefix, i);
    StackShown(b, prefix, i);
    var layers := b.layerStacksByNode[i];
    assert b.nodes[i].layerStack.value == layers;
    if l in layers {
      assert Inverse(b.layerStacksByNode, b.indicesBySublayer);
    }
  }

  /** What the finished graph shows. */
  lemma GraphFacts(b: Builder, prims: seq<Prim>, arcsOf: map<string, seq<CompositionArc>>, prefix: string)
    requires Inv(b, prims, arcsOf, prefix)
    ensures var g := GraphOf(b);
      && LegendOk(g.nodes, g.edges, g.legendIds) && NodesShown(g, prefix) && LayersIndexed(g)
      && EdgesShown(g) && PathsShown(g, prims, arcsOf) && ArcsShown(g, prims, arcsOf)
  {
    GraphNodes(b, prefix);
    GraphLayers(b, prefix);
    GraphEdges(b, prefix);
    GraphPaths(b, prims, arcsOf, prefix);
    GraphArcs(b, prims, arcsOf, prefix);
  }

  lemma GraphEdges(b: Builder, prefix: string)
    requires Valid(b, prefix)
    ensures EdgesShown(GraphOf(b))
  {
    forall e | e in b.edges && b.edges[e].ArcEdge?
      ensures IsStack(GraphOf(b), e.0) && IsStack(GraphOf(b), e.1)
    {
      StackShown(b, prefix, e.0);
      StackShown(b, prefix, e.1);
    }
  }

  /** A stack is affected by a prim's arcs exactly when one of them targets its root. */
  lemma TargetIndex(b: Builder, arcs: seq<CompositionArc>, prefix: string, i: nat)
    requires Valid(b, prefix) && AllRoots(b.stackIndexByRoot, arcs) && i in b.layerStacksByNode
    ensures i in TargetIndices(b.stackIndexByRoot, arcs) <==> Targets(arcs, b.stackIdByNode[i].value)
  {
    var root := b.stackIdByNode[i].value;
    if Targets(arcs, root) {
      var a :| a in arcs && a.target.rootLayer == root;
      assert b.stackIndexByRoot[root] == i;
    }
  }

  lemma GraphPaths(b: Builder, prims: seq<Prim>, arcsOf: map<string, seq<CompositionArc>>, prefix: string)
    requires Inv(b, prims, arcsOf, prefix)
    ensures PathsShown(GraphOf(b), prims, arcsOf)
  {
    var g := GraphOf(b);
    forall i | IsStack(g, i)
      ensures g.nodes[i].primPaths.value == PathsTargeting(prims, arcsOf, RootOf(g, i))
    {
      ShownStack(b, prefix, i);
      StackShown(b, prefix, i);
      forall j | 0 <= j < |prims|
        ensures i in b.compositions[prims[j].forwarded] <==> Targets(arcsOf[prims[j].forwarded], RootOf(g, i))
      {
        TargetIndex(b, arcsOf[prims[j].forwarded], prefix, i);
      }
    }
  }

  lemma GraphArcs(b: Builder, prims: seq<Prim>, arcsOf: map<string, seq<CompositionArc>>, prefix: string)
    requires Valid(b, prefix) && EdgesFrom(b, SeenArcs(prims, arcsOf))
    ensures ArcsShown(GraphOf(b), prims, arcsOf)
  {
    var g := GraphOf(b);
    forall e | e in g.edges && g.edges[e].ArcEdge?
      ensures exists a :: a in SeenArcs(prims, arcsOf) && EdgeDrawn(g, e, a)
    {
      var a :| a in SeenArcs(prims, arcsOf) && EdgeFor(b, e, a);
      StackShown(b, prefix, e.0);
      StackShown(b, prefix, e.1);
      assert EdgeDrawn(g, e, a);
    }
  }

  lemma PrimsTake(prims: seq<Prim>, k: nat)
    requires k < |prims|
    ensures prims[..k + 1] == prims[..k] + [prims[k]]
  {
  }

  /**
   * `_compute_layerstack_graph`: the legend, then the composition of every
   * prim's forwarded prim and the prim's path on every stack its arcs
   * target. `arcsOf` holds, for each forwarded prim, its composition arcs
   * with specs, strongest first.
   */
  method ComputeLayerStackGraph(prims: seq<Prim>, arcsOf: map<string, seq<CompositionArc>>, prefix: string) returns (g: StackGraph)
    requires ArcsKnown(prims, arcsOf)
    ensures LegendOk(g.nodes, g.edges, g.legendIds)
    ensures NodesShown(g, prefix)
    ensures LayersIndexed(g)
    ensures EdgesShown(g)
    ensures PathsShown(g, prims, arcsOf)
    ensures ArcsShown(g, prims, arcsOf)
  {
    var nodes, edges, ids := Legend();
    StartInv(nodes, edges, ids, arcsOf, prefix);
    var b := Start(nodes, edges, ids);
    for k := 0 to |prims|
      invariant Inv(b, prims[..k], arcsOf, prefix)
    {
      var p := prims[k];
      PrimsTake(prims, k);
      PrimStepInv(b, prims[..k], p, arcsOf, prefix);
      var affected;
      b, affected := ComputeComposition(b, p.forwarded, arcsOf[p.forwarded], prefix);
      var withPath := RecordPath(b.nodes, affected, p.path);
      b := b.(nodes := withPath);
    }
    assert prims[..|prims|] == prims;
    GraphFacts(b, prims, arcsOf, prefix);
    g := StackGraph(b.nodes, b.edges, b.indicesBySublayer, b.legendIds);
  }
}
