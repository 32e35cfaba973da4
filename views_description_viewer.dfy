/**
 * The viewer of the layer-stack composition graph: how the link of a
 * clicked node is read back to its index, the neighbourhood of the
 * selected nodes it draws (memoised until the graph changes), and which
 * stacks and prim paths a selection of layers picks.
 */
module ViewsDescriptionViewer {
  import opened Wrappers
  import opened Texts
  import opened Chars
  import NameSchema
  import ViewsGraph
  import opened ViewsDescription

  /** `_GraphViewer.url_id_prefix`. */
  const UrlIdPrefix: string := "_node_id_"

  /** Why the viewer could not draw. */
  datatype ViewError =
    | NoGraph                          // `self.graph` is still `None`
    | NodeNotInGraph(node: int)        // networkx has no successors for it
    | NotADigit(suffix: string)        // the `ValueError` of `_graph_url_changed`

  // ---------------------------------------------------------------------
  // Reading a clicked link

  /** The last piece of `s.split(sep)`. */
  function LastPiece(s: string, sep: string): string
    requires sep != []
  {
    var pieces := Split(s, sep);
    pieces[|pieces| - 1]
  }

  /**
   * `_graph_url_changed`: the index a link names, `None` when its last
   * path segment does not start with the prefix, or the error raised
   * when what follows the prefix is not a run of digits.
   */
  function NodeOfUrl(url: string): (r: Result<Option<nat>, ViewError>)
    ensures r == Ok(None) <==> !StartsWith(LastPiece(url, "/"), UrlIdPrefix)
    ensures r.Err? <==> StartsWith(LastPiece(url, "/"), UrlIdPrefix) && !DigitRun(LastPiece(LastPiece(url, "/"), UrlIdPrefix))
  {
    var stem := LastPiece(url, "/");
    if !StartsWith(stem, UrlIdPrefix) then Ok(None)
    else
      var index := LastPiece(stem, UrlIdPrefix);
      if DigitRun(index) then Ok(Some(DecimalValue(index)))
      else Err(NotADigit(index))
  }

  /** The last piece of `a + sep + b`, when `b` holds no separator character, is `b`. */
  lemma {:induction false} SplitLast(a: string, c: char, b: string)
    requires c !in b
    ensures |Split(a + [c] + b, [c])| >= 2 && LastPiece(a + [c] + b, [c]) == b
    decreases |a|
  {
    var s := a + [c] + b;
    if a == [] {
      assert StartsWith(s, [c]) && s[1..] == b;
      SplitWithout(b, c);
    } else {
      assert s[1..] == a[1..] + [c] + b;
      SplitLast(a[1..], c, b);
      if a[0] == c {
        assert StartsWith(s, [c]);
      } else {
        assert !StartsWith(s, [c]);
      }
    }
  }

  /** The prefix does not occur in a run of digits, which has no `_`. */
  lemma PrefixNotInDigits(d: string)
    requires DigitRun(d)
    ensures !Occurs(d, UrlIdPrefix)
  {
    forall i | 0 <= i <= |d|
      ensures !StartsWith(d[i..], UrlIdPrefix)
    {
      if i < |d| {
        assert d[i..][0] == d[i];
      }
    }
  }

  /**
   * Reading back the link `_compute_layerstack_graph` puts on the node at
   * `index`, behind any location, gives `index`: clicking a drawn node
   * views that node.
   */
  lemma NodeOfHref(base: string, index: nat)
    ensures NodeOfUrl(base + "/" + Href(UrlIdPrefix, index)) == Ok(Some(index))
  {
    var d := Decimal(index);
    var stem := Href(UrlIdPrefix, index);
    assert '/' !in stem by {
      assert forall i :: 0 <= i < |UrlIdPrefix| ==> stem[i] == UrlIdPrefix[i];
      assert forall i :: 0 <= i < |d| ==> stem[|UrlIdPrefix| + i] == d[i];
    }
    SplitLast(base, '/', stem);
    assert base + "/" + stem == base + ['/'] + stem;
    assert StartsWith(stem, UrlIdPrefix) && stem[|UrlIdPrefix|..] == d;
    PrefixNotInDigits(d);
    SplitNoOccurrence(d, UrlIdPrefix);
    DecimalRoundTrip(index);
  }

  // ---------------------------------------------------------------------
  // The neighbourhood drawn

  /** A graph as `write_dot` receives it. */
  datatype Subgraph = Subgraph(nodes: map<nat, NodeAttrs>, edges: map<(nat, nat), EdgeAttrs>)

  /** A node without its `prim_paths` and `layer_stack`. */
  function Stripped(n: NodeAttrs): NodeAttrs
  {
    match n
    case LegendNode => LegendNode
    case StackNode(_, _, _, _, _, _) => n.(layerStack := None, primPaths := None)
  }

  /** Sticky and selected nodes and the successors and predecessors of the selected ones. */
  function Interest(g: StackGraph, sticky: seq<nat>, selected: seq<nat>): set<nat> {
    (set n | n in sticky) + (set n | n in selected) +
    (set e | e in g.edges && e.0 in selected :: e.1) +
    (set e | e in g.edges && e.1 in selected :: e.0)
  }

  /** The first selected index the graph does not hold. */
  function FirstMissing(selected: seq<nat>, nodes: set<nat>): (r: Option<nat>)
    ensures r.None? <==> forall i :: 0 <= i < |selected| ==> selected[i] in nodes
    ensures r.Some? ==> r.value in selected && r.value !in nodes
  {
    if selected == [] then None
    else if selected[0] !in nodes then Some(selected[0])
    else FirstMissing(selected[1..], nodes)
  }

  /** `_subgraph_dot_path` before writing: the graph induced on the nodes of interest, stripped, or the error networkx raises. */
  function SubgraphOf(g: StackGraph, sticky: seq<nat>, selected: seq<nat>): Result<Subgraph, ViewError> {
    match FirstMissing(selected, g.nodes.Keys)
    case Some(n) => Err(NodeNotInGraph(n))
    case None =>
      Ok(Induced(g, Interest(g, sticky, selected)))
  }

  /** `graph.subgraph(nodes).copy()` with the composition attributes popped. */
  function Induced(g: StackGraph, interest: set<nat>): Subgraph {
    Subgraph(map n | n in g.nodes && n in interest :: Stripped(g.nodes[n]),
             map e | e in g.edges && e.0 in interest && e.1 in interest :: g.edges[e])
  }

  /**
   * What the drawn neighbourhood holds: an error exactly when a selected
   * index is not a node; otherwise every selected node, every edge
   * touching one and both its ends, the sticky nodes the graph has, and
   * nothing else, each node without its composition attributes.
   */
  lemma SubgraphShows(g: StackGraph, sticky: seq<nat>, selected: seq<nat>)
    ensures var r := SubgraphOf(g, sticky, selected);
      && (r.Err? <==> exists i :: 0 <= i < |selected| && selected[i] !in g.nodes)
      && (r.Err? ==> r.error.NodeNotInGraph? && r.error.node in selected && r.error.node !in g.nodes)
      && (r.Ok? ==>
            && (forall n :: n in selected ==> n in r.value.nodes)
            && (forall n :: n in sticky && n in g.nodes ==> n in r.value.nodes)
            && (forall e :: e in g.edges && (e.0 in selected || e.1 in selected) && e.0 in g.nodes && e.1 in g.nodes ==>
                  e in r.value.edges && r.value.edges[e] == g.edges[e])
            && (forall n :: n in r.value.nodes ==>
                  && n in g.nodes && r.value.nodes[n] == Stripped(g.nodes[n])
                  && (r.value.nodes[n].StackNode? ==> r.value.nodes[n].layerStack.None? && r.value.nodes[n].primPaths.None?)
                  && (n in sticky || n in selected || exists e :: e in g.edges && ((e.0 in selected && e.1 == n) || (e.1 in selected && e.0 == n))))
            && (forall e :: e in r.value.edges ==> e in g.edges && e.0 in Interest(g, sticky, selected) && e.1 in Interest(g, sticky, selected)))
  {
    var r := SubgraphOf(g, sticky, selected);
    if r.Ok? {
      var interest := Interest(g, sticky, selected);
      forall e | e in g.edges && (e.0 in selected || e.1 in selected) && e.0 in g.nodes && e.1 in g.nodes
        ensures e.0 in interest && e.1 in interest
      {
      }
    }
  }

  /** The memo of `_subgraph_dot_path`: each selection's neighbourhood with the sticky nodes it was computed with. */
  ghost predicate MemoOk(graph: Option<StackGraph>, cache: map<seq<nat>, Subgraph>, stickyOf: map<seq<nat>, seq<nat>>) {
    && (graph.None? ==> cache == map[])
    && cache.Keys == stickyOf.Keys
    && (forall k {:trigger MemoAt(graph, cache, stickyOf, k)} :: k in cache ==> MemoAt(graph, cache, stickyOf, k))
  }

  /** The memoised neighbourhood of the selection `k` is the one it had with its sticky nodes. */
  ghost predicate MemoAt(graph: Option<StackGraph>, cache: map<seq<nat>, Subgraph>, stickyOf: map<seq<nat>, seq<nat>>, k: seq<nat>) {
    k in cache && k in stickyOf && graph.Some? && SubgraphOf(graph.value, stickyOf[k], k) == Ok(cache[k])
  }

  /** Every memoised selection was computed with the sticky nodes `sticky`. */
  ghost predicate Fresh(stickyOf: map<seq<nat>, seq<nat>>, sticky: seq<nat>) {
    forall k :: k in stickyOf ==> stickyOf[k] == sticky
  }

  lemma MemoAdd(graph: Option<StackGraph>, cache: map<seq<nat>, Subgraph>, stickyOf: map<seq<nat>, seq<nat>>, sticky: seq<nat>, k: seq<nat>, v: Subgraph)
    requires MemoOk(graph, cache, stickyOf) && graph.Some? && SubgraphOf(graph.value, sticky, k) == Ok(v)
    ensures MemoOk(graph, cache[k := v], stickyOf[k := sticky])
    ensures Fresh(stickyOf, sticky) ==> Fresh(stickyOf[k := sticky], sticky)
  {
    var cache', stickyOf' := cache[k := v], stickyOf[k := sticky];
    forall j | j in cache'
      ensures MemoAt(graph, cache', stickyOf', j)
    {
      if j != k {
        assert MemoAt(graph, cache, stickyOf, j);
      }
    }
  }

  /**
   * `_GraphViewer`: the graph shown, the sticky nodes, the memo of
   * `_subgraph_dot_path` by selection, and the last neighbourhood handed
   * to the dot viewer.
   */
  class GraphViewer {
    var graph: Option<StackGraph>
    var sticky: seq<nat>
    var cache: map<seq<nat>, Subgraph>
    var shown: Option<Subgraph>
    /** The sticky nodes each memoised neighbourhood was computed with. */
    ghost var stickyOf: map<seq<nat>, seq<nat>>

    /** Every memoised neighbourhood is the one its selection had with the sticky nodes of its time. */
    ghost predicate Valid()
      reads this
    {
      MemoOk(graph, cache, stickyOf)
    }

    /** No memoised neighbourhood is stale: the sticky nodes have not changed since. */
    ghost predicate Current()
      reads this
    {
      Fresh(stickyOf, sticky)
    }

    constructor ()
      ensures Valid() && Current()
      ensures graph.None? && sticky == [] && cache == map[] && shown.None?
    {
      graph := None;
      sticky := [];
      cache := map[];
      shown := None;
      stickyOf := map[];
    }

    /** The `graph` setter: clears the memo and the sticky nodes. */
    method SetGraph(g: StackGraph)
      modifies this
      ensures Valid() && Current()
      ensures graph == Some(g) && sticky == [] && cache == map[] && shown == old(shown)
    {
      cache := map[];
      stickyOf := map[];
      sticky := [];
      graph := Some(g);
    }

    /** `sticky_nodes.extend(nodes)`, as `setStage` does with the legend. */
    method Pin(nodes: seq<nat>)
      requires Valid()
      modifies this
      ensures Valid()
      ensures sticky == old(sticky) + nodes && graph == old(graph) && cache == old(cache) && shown == old(shown)
      ensures old(cache) == map[] ==> Current()
    {
      sticky := sticky + nodes;
    }

    /**
     * `view(node_indices)`: the memoised neighbourhood of the selection,
     * or a new one, memoised, unless networkx raises; the dot viewer gets
     * it. While nothing is stale, what it shows is the neighbourhood of
     * the selection with the current sticky nodes.
     */
    method View(selected: seq<nat>) returns (r: Result<Subgraph, ViewError>)
      requires Valid()
      modifies this`cache, this`stickyOf, this`shown
      ensures Valid() && (old(Current()) ==> Current())
      ensures graph.None? ==> r == Err(NoGraph)
      ensures selected in old(cache) ==> r == Ok(old(cache)[selected])
      ensures graph.Some? && selected !in old(cache) ==> r == SubgraphOf(graph.value, sticky, selected)
      ensures old(Current()) && graph.Some? ==> r == SubgraphOf(graph.value, sticky, selected)
      ensures r.Ok? ==> shown == Some(r.value) && selected in cache && cache[selected] == r.value
      ensures r.Err? ==> shown == old(shown) && cache == old(cache)
      ensures forall k :: k in old(cache) ==> k in cache && cache[k] == old(cache)[k]
    {
      if graph.None? {
        return Err(NoGraph);
      }
      if selected in cache {
        assert MemoAt(graph, cache, stickyOf, selected);
        r := Ok(cache[selected]);
        shown := Some(r.value);
      } else {
        r := Memoise(selected);
      }
    }

    /** A selection not memoised yet: its neighbourhood, memoised and shown unless networkx raises. */
    method Memoise(selected: seq<nat>) returns (r: Result<Subgraph, ViewError>)
      requires Valid() && graph.Some? && selected !in cache
      modifies this`cache, this`stickyOf, this`shown
      ensures Valid() && (old(Current()) ==> Current())
      ensures r == SubgraphOf(graph.value, sticky, selected)
      ensures r.Ok? ==> shown == Some(r.value) && cache == old(cache)[selected := r.value]
      ensures r.Err? ==> shown == old(shown) && cache == old(cache)
    {
      r := SubgraphOf(graph.value, sticky, selected);
      if r.Ok? {
        MemoAdd(graph, cache, stickyOf, sticky, selected, r.value);
        cache, stickyOf, shown := cache[selected := r.value], stickyOf[selected := sticky], Some(r.value);
      }
    }

    /**
     * `_graph_url_changed`: a link with the node prefix views that one
     * node; another link changes nothing; a prefix followed by anything
     * but digits raises.
     */
    method UrlChanged(url: string) returns (r: Result<Option<Subgraph>, ViewError>)
      requires Valid()
      modifies this`cache, this`stickyOf, this`shown
      ensures Valid() && (old(Current()) ==> Current())
      ensures NodeOfUrl(url) == Ok(None) ==> r == Ok(None) && unchanged(this)
      ensures NodeOfUrl(url).Err? ==> r == Err(NodeOfUrl(url).error) && unchanged(this)
      ensures NodeOfUrl(url).Ok? && NodeOfUrl(url).value.Some? && old(Current()) && graph.Some? ==>
        var v := SubgraphOf(graph.value, sticky, [NodeOfUrl(url).value.value]);
        (v.Ok? ==> r == Ok(Some(v.value)) && shown == Some(v.value)) && (v.Err? ==> r == Err(v.error))
    {
      match NodeOfUrl(url)
      case Err(e) =>
        r := Err(e);
      case Ok(None) =>
        r := Ok(None);
      case Ok(Some(index)) =>
        var v := View([index]);
        r := if v.Ok? then Ok(Some(v.value)) else Err(v.error);
    }
  }

  /** Clicking the drawn node at `index` in a graph that has it shows its neighbourhood. */
  lemma ClickShowsNode(g: StackGraph, sticky: seq<nat>, base: string, index: nat)
    requires index in g.nodes
    ensures NodeOfUrl(base + "/" + Href(UrlIdPrefix, index)) == Ok(Some(index))
    ensures SubgraphOf(g, sticky, [index]).Ok? && index in SubgraphOf(g, sticky, [index]).value.nodes
  {
    NodeOfHref(base, index);
    SubgraphShows(g, sticky, [index]);
  }

  // ---------------------------------------------------------------------
  // Selecting layers

  /** The stacks holding one of the selected layers: the union of their `indices_by_layers`. */
  function SelectedIndices(g: StackGraph, layers: set<SdfLayer>): (r: set<nat>)
    ensures forall i :: i in r <==> exists l :: l in layers && l in g.indicesByLayers && i in g.indicesByLayers[l]
  {
    set l, i | l in layers && l in g.indicesByLayers && i in g.indicesByLayers[l] :: i
  }

  /** The prim paths recorded on the selected stacks. */
  function SelectedPaths(g: StackGraph, indices: set<nat>): (r: set<string>)
    requires forall i :: i in indices ==> i in g.nodes && g.nodes[i].StackNode? && g.nodes[i].primPaths.Some?
    ensures forall p :: p in r <==> exists i :: i in indices && p in g.nodes[i].primPaths.value
  {
    set i, p | i in indices && p in g.nodes[i].primPaths.value :: p
  }

  /**
   * `_selectionChanged` on a graph `_compute_layerstack_graph` built:
   * the selected stacks are those holding a selected layer, and the
   * prims listed are exactly those with an arc to one of them.
   */
  lemma SelectionOfGraph(g: StackGraph, prims: seq<Prim>, arcsOf: map<string, seq<CompositionArc>>, layers: set<SdfLayer>)
    requires LayersIndexed(g) && PathsShown(g, prims, arcsOf)
    ensures var indices := SelectedIndices(g, layers);
      && (forall i :: i in indices <==> IsStack(g, i) && exists l :: l in layers && l in g.nodes[i].layerStack.value)
      && (forall i :: i in indices ==> IsStack(g, i))
    ensures var indices := SelectedIndices(g, layers);
      (forall i :: i in indices ==> IsStack(g, i)) &&
      forall p :: p in SelectedPaths(g, indices) <==> exists i :: i in indices && p in PathsTargeting(prims, arcsOf, RootOf(g, i))
  {
    var indices := SelectedIndices(g, layers);
    forall i | i in indices
      ensures IsStack(g, i)
    {
      var l :| l in layers && l in g.indicesByLayers && i in g.indicesByLayers[l];
    }
  }
}
