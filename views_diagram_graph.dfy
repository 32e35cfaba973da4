/**
 * `_AssetStructureGraph` as the object it is: the layer-to-node mapping,
 * the node data, the prepared levels of detail and the edges are fields
 * its methods update in place, each method proved to leave the graph in
 * the state the functions of `ViewsDiagrams` give.
 */
module AssetGraph {
  import opened Wrappers
  import opened DiagramItems
  import opened ViewsDiagrams

  class AssetStructureGraph {
    var layerIds: map<nat, NodeId>
    var data: map<NodeId, NodeData>
    var lods: map<NodeId, Lods>
    var edges: seq<Edge>
    /** The resolver context the graph was created with. */
    const resolve: Resolver

    /** The graph as a value. */
    function State(): Diagram
      reads this
    {
      Diagram(layerIds, data, lods, edges)
    }

    /** A graph with no nodes and no edges. */
    constructor(resolve: Resolver)
      ensures State() == Empty && this.resolve == resolve
    {
      layerIds := map[];
      data := map[];
      lods := map[];
      edges := [];
      this.resolve := resolve;
    }

    /**
     * `_add_node_from_layer(layer)`: a layer already loaded gives its node;
     * a new layer is given the next id, then its traversal is collected.
     */
    method AddNodeFromLayer(layer: Layer) returns (id: NodeId)
      requires Valid(State())
      modifies this
      ensures (State(), id) == AddNode(old(State()), layer)
      ensures Valid(State())
    {
      AddNodeValid(State(), layer);
      if layer.key in layerIds {
        id := layerIds[layer.key];
        return;
      }
      id := |layerIds|;
      layerIds := layerIds[layer.key := id];
      var collected := CollectLayer(layer);
      data := data[id := NodeData(layer, collected)];
    }

    /**
     * The ports of interest of `node`: the headport of every edge into it,
     * parsed back into a row's port.
     */
    method PortsOfInterest(node: NodeId) returns (interest: set<nat>)
      ensures interest == IncomingPorts(edges, node)
    {
      interest := {};
      var i := 0;
      while i < |edges|
        invariant 0 <= i <= |edges|
        invariant interest == IncomingPorts(edges[..i], node)
      {
        var e := edges[i];
        assert edges[..i + 1][..i] == edges[..i];
        assert edges[..i + 1][i] == e;
        if e.tgt == node {
          HeadPortRoundTrip(e.tgtPort);
          var key := ParseHeadport(HeadPort(e.tgtPort));
          interest := interest + {key.value.n};
        }
        i := i + 1;
      }
      assert edges[..i] == edges;
    }

    /**
     * `_prepare_for_display(node_id)`: `RuntimeError` for a node not in the
     * graph; otherwise the node's three levels of detail are set from its
     * rows and the edges into it.
     */
    method PrepareForDisplay(node: NodeId) returns (err: Option<DiagramError>)
      modifies this
      ensures layerIds == old(layerIds) && data == old(data) && edges == old(edges)
      ensures node !in old(data) ==> err == Some(NodeNotInGraph(node)) && lods == old(lods)
      ensures node in old(data) ==> err == None && lods == old(lods)[node := NodeLods(old(data)[node], old(edges), node)]
    {
      if node !in data {
        return Some(NodeNotInGraph(node));
      }
      var items := data[node].collected.items;
      var interest := PortsOfInterest(node);
      var mid := MidItems(items, DependencyPorts(data[node].collected.dependencies), interest);
      var low := LowItems(items);
      LevelsOf(items, DependencyPorts(data[node].collected.dependencies), interest);
      lods := lods[node := LodsOf(items, mid, low)];
      err := None;
    }

    /**
     * `_prepare_for_display` of the nodes `lo .. hi - 1`, one after the
     * other.
     */
    method PrepareNodes(lo: nat, hi: nat)
      requires lo <= hi && forall n: nat :: lo <= n < hi ==> n in data
      modifies this
      ensures State() == PrepareRange(old(State()), lo, hi)
    {
      ghost var d := State();
      var n := lo;
      while n < hi
        invariant lo <= n <= hi
        invariant layerIds == d.layerIds && data == d.data && edges == d.edges
        invariant lods == PreparedLods(d, lo, n)
      {
        var err := PrepareForDisplay(n);
        n := n + 1;
      }
    }

    /**
     * `_expand_dependencies(keys, recursive)`: the dependencies of the
     * given nodes are followed, the edges found go into the graph at the
     * end, then the new nodes are prepared for display.
     */
    method ExpandDependencies(keys: seq<NodeId>, recursive: bool) returns (res: Result<set<NodeId>, DiagramError>)
      requires Valid(State()) && forall k :: k in keys ==> k in data
      modifies this
      ensures (State(), res) == Expand(old(State()), keys, resolve, recursive)
      decreases Unloaded(State(), resolve), 3
    {
      var d0 := State();
      var steps := FollowDependencies(WorkOf(d0, keys), recursive);
      if steps.Err? {
        return Err(steps.error);
      }
      var (found, added) := steps.value;
      var d1 := State();
      edges := edges + found;
      EdgesAdded(d0, d1, found);
      assert d0.layerIds.Keys <= layerIds.Keys;
      SubsetCard(d0.layerIds.Keys, layerIds.Keys);
      PrepareNodes(|d0.layerIds|, |layerIds|);
      res := Ok(added);
    }

    /**
     * `_handle_upstream_dependency` for each dependency in turn, the edges
     * found kept for the end.
     */
    method FollowDependencies(work: seq<Work>, recursive: bool) returns (res: Result<(seq<Edge>, set<NodeId>), DiagramError>)
      requires Valid(State()) && WorkIn(work, data.Keys)
      modifies this
      ensures (State(), res) == Steps(old(State()), work, [], {}, resolve, recursive)
      decreases Unloaded(State(), resolve), 2
    {
      ghost var d0 := State();
      var found: seq<Edge> := [];
      var added: set<NodeId> := {};
      FollowingStart(d0, work, resolve, recursive);
      var i := 0;
      while i < |work|
        invariant Following(d0, State(), work, i, found, added, resolve, recursive)
      {
        ghost var d := State();
        UnloadedGrows(d0, d, resolve);
        var h := HandleUpstreamDependency(work[i], recursive);
        if h.Err? {
          FollowingFails(d0, d, State(), work, i, found, added, h.error, resolve, recursive);
          return Err(h.error);
        }
        FollowingNext(d0, d, State(), work, i, found, added, h.value, resolve, recursive);
        found, added := Found(found, added, h.value).0, Found(found, added, h.value).1;
        i := i + 1;
      }
      FollowingDone(d0, State(), work, found, added, resolve, recursive);
      res := Ok((found, added));
    }

    /**
     * `_handle_upstream_dependency`: a dependency whose layer is found
     * loads the layer's node and gives the edge from the dependency's row
     * to its spec's row.
     */
    method HandleUpstreamDependency(w: Work, recursive: bool) returns (res: Result<Option<(Edge, set<NodeId>)>, DiagramError>)
      requires Valid(State()) && w.key in data
      modifies this
      ensures (State(), res) == Handle(old(State()), w, resolve, recursive)
      decreases Unloaded(State(), resolve), 1
    {
      var key := (w.anchor, w.dep.assetPath);
      if key !in resolve {
        return Ok(None);
      }
      var node, inner := LoadDependency(key, recursive);
      if inner.Err? {
        return Err(inner.error);
      }
      var spec := SpecKey(w.dep, resolve[key]);
      var ports := data[node].collected.ports;
      if spec !in ports {
        return Err(MissingPort(node, spec));
      }
      res := Ok(Some((Edge(w.key, node, w.port, ports[spec], w.dep.arc), {node} + inner.value)));
    }

    /**
     * The node of a dependency's layer, loaded when the graph does not
     * have it; with `recursive`, a node that was not in the graph is
     * expanded in turn.
     */
    method LoadDependency(key: (nat, string), recursive: bool) returns (node: NodeId, inner: Result<set<NodeId>, DiagramError>)
      requires Valid(State()) && key in resolve
      modifies this
      ensures (State(), node, inner) == Load(old(State()), key, resolve, recursive)
      decreases Unloaded(State(), resolve), 0
    {
      var d := State();
      var layer := resolve[key];
      var isNew := layer.key !in layerIds;
      node := AddNodeFromLayer(layer);
      AddNodeValid(d, layer);
      AddNodeGrows(d, layer);
      inner := Ok({});
      if recursive && isNew {
        UnloadedDrops(d, key, resolve);
        inner := ExpandDependencies([node], true);
      }
    }
  }
}
