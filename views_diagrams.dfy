/**
 * `_AssetStructureGraph`: a multigraph with one node per loaded layer,
 * node ids handed out densely in loading order, dependency edges whose
 * ports are named after the rows they join, and each node's rows filtered
 * into three levels of detail.
 */
module ViewsDiagrams {
  import opened Wrappers
  import opened Texts
  import opened DiagramItems

  type NodeId = nat

  /**
   * `RuntimeError` for a node not in the graph, `ValueError` for a
   * `C0R` headport without a number, `KeyError` for a dependency whose
   * spec path has no port in its layer, and `RecursionError`.
   */
  datatype DiagramError =
    | NodeNotInGraph(node: NodeId)
    | InvalidHeadport
    | MissingPort(node: NodeId, specPath: string)
    | RecursionLimit

  /** A dependency edge from the row `srcPort` of `src` to the row `tgtPort` of `tgt`. */
  datatype Edge = Edge(src: NodeId, tgt: NodeId, srcPort: nat, tgtPort: nat, arc: Arc)

  /** What a node keeps of its layer: the layer and what its traversal collected. */
  datatype NodeData = NodeData(layer: Layer, collected: Collected)

  /** The rows each level of detail shows, top to bottom, and their ports. */
  datatype Lods = Lods(high: seq<TableItem>, mid: seq<TableItem>, low: seq<TableItem>,
                       highPorts: seq<nat>, midPorts: seq<nat>, lowPorts: seq<nat>)

  /** The graph: node ids by layer, node data, prepared levels of detail and edges. */
  datatype Diagram = Diagram(layerIds: map<nat, NodeId>, data: map<NodeId, NodeData>,
                             lods: map<NodeId, Lods>, edges: seq<Edge>)

  const Empty := Diagram(map[], map[], map[], [])

  /**
   * Node ids are exactly `0 .. |layerIds| - 1`, one per loaded layer and
   * back, only nodes are prepared and edges join nodes.
   */
  ghost predicate Valid(d: Diagram) {
    DenseIds(d) && LayerNodes(d) && d.lods.Keys <= d.data.Keys && EdgesJoinNodes(d.edges, d.data.Keys)
  }

  /** The nodes are `0 .. |layerIds| - 1`. */
  ghost predicate DenseIds(d: Diagram) {
    forall n: nat :: n in d.data <==> n < |d.layerIds|
  }

  /** Each loaded layer has its node, and each node its layer. */
  ghost predicate LayerNodes(d: Diagram) {
    (forall k :: k in d.layerIds ==> d.layerIds[k] in d.data && d.data[d.layerIds[k]].layer.key == k) &&
    (forall n :: n in d.data ==> d.data[n].layer.key in d.layerIds && d.layerIds[d.data[n].layer.key] == n)
  }

  /**
   * Every node holds what its layer's traversal collects: kept apart from
   * `Valid`, as `AddNodeCollected` and `ExpandCollected` show the graph
   * keeps it.
   */
  ghost predicate NodesCollected(d: Diagram) {
    forall n :: n in d.data ==> d.data[n].collected == Collect(d.data[n].layer)
  }

  /** Every edge joins two nodes. */
  ghost predicate EdgesJoinNodes(edges: seq<Edge>, nodes: set<NodeId>) {
    forall i :: 0 <= i < |edges| ==> edges[i].src in nodes && edges[i].tgt in nodes
  }

  lemma EmptyValid()
    ensures Valid(Empty)
  {
    assert |Empty.layerIds| == 0;
  }

  // ---------------------------------------------------------------------
  // _add_node_from_layer

  /**
   * `_add_node_from_layer(layer)`: a layer seen before gives its node back
   * and changes nothing; a new layer gets the next id and the rows its
   * traversal collects.
   */
  function AddNode(d: Diagram, layer: Layer): (r: (Diagram, NodeId))
    ensures r.0.lods == d.lods && r.0.edges == d.edges
    ensures layer.key in d.layerIds ==> r == (d, d.layerIds[layer.key])
    ensures layer.key !in d.layerIds ==> r.1 == |d.layerIds| && r.0.layerIds == d.layerIds[layer.key := r.1]
    ensures layer.key !in d.layerIds ==> r.0.data == d.data[r.1 := NodeData(layer, Collect(layer))]
  {
    if layer.key in d.layerIds then (d, d.layerIds[layer.key])
    else
      var id := |d.layerIds|;
      (d.(layerIds := d.layerIds[layer.key := id], data := d.data[id := NodeData(layer, Collect(layer))]), id)
  }

  /**
   * Adding a layer keeps the graph valid and its nodes as they were; the
   * node returned is the layer's, and a new layer's node is new.
   */
  lemma AddNodeValid(d: Diagram, layer: Layer)
    requires Valid(d)
    ensures Valid(AddNode(d, layer).0)
    ensures AddNode(d, layer).1 in AddNode(d, layer).0.data
    ensures AddNode(d, layer).0.data[AddNode(d, layer).1].layer.key == layer.key
    ensures layer.key in d.layerIds <==> AddNode(d, layer).1 in d.data
    ensures layer.key !in d.layerIds ==> AddNode(d, layer).0.data.Keys == d.data.Keys + {AddNode(d, layer).1}
  {
    if layer.key !in d.layerIds {
      NewNodeDense(d, layer);
      NewNodeLayers(d, layer);
      var d1 := AddNode(d, layer).0;
      assert EdgesJoinNodes(d1.edges, d1.data.Keys);
    }
  }

  lemma NewNodeDense(d: Diagram, layer: Layer)
    requires DenseIds(d) && layer.key !in d.layerIds
    ensures DenseIds(AddNode(d, layer).0) && |d.layerIds| !in d.data
  {
    assert |AddNode(d, layer).0.layerIds| == |d.layerIds| + 1;
  }

  lemma NewNodeLayers(d: Diagram, layer: Layer)
    requires DenseIds(d) && LayerNodes(d) && layer.key !in d.layerIds
    ensures LayerNodes(AddNode(d, layer).0)
  {
    var d1 := AddNode(d, layer).0;
    var id := |d.layerIds|;
    assert id !in d.data;
    forall k | k in d1.layerIds
      ensures d1.layerIds[k] in d1.data && d1.data[d1.layerIds[k]].layer.key == k
    {
      if k != layer.key {
        assert d1.layerIds[k] == d.layerIds[k];
      }
    }
    forall n | n in d1.data
      ensures d1.data[n].layer.key in d1.layerIds && d1.layerIds[d1.data[n].layer.key] == n
    {
      if n != id {
        assert d1.data[n] == d.data[n];
      }
    }
  }

  /** Adding a layer keeps every node holding what its layer's traversal collects. */
  lemma AddNodeCollected(d: Diagram, layer: Layer)
    requires NodesCollected(d)
    ensures NodesCollected(AddNode(d, layer).0)
  {
    var d1 := AddNode(d, layer).0;
    forall n | n in d1.data
      ensures d1.data[n].collected == Collect(d1.data[n].layer)
    {
      if n != |d.layerIds| {
        assert d1.data[n] == d.data[n];
      }
    }
  }

  /** Adding a layer again gives the same node and leaves the graph as it was. */
  lemma AddNodeIdempotent(d: Diagram, layer: Layer)
    requires Valid(d)
    ensures AddNode(AddNode(d, layer).0, layer) == AddNode(d, layer)
  {
    AddNodeValid(d, layer);
  }

  /** Two layers get the same node exactly when they are the same layer. */
  lemma AddNodeDistinct(d: Diagram, a: Layer, b: Layer)
    requires Valid(d)
    ensures var (d1, na) := AddNode(d, a);
      (AddNode(d1, b).1 == na <==> a.key == b.key)
  {
    var (d1, na) := AddNode(d, a);
    var (d2, nb) := AddNode(d1, b);
    AddNodeValid(d, a);
    AddNodeValid(d1, b);
    assert d2.data[nb].layer.key == b.key && d1.data[na].layer.key == a.key;
    assert d2.data[na] == d1.data[na];
  }

  // ---------------------------------------------------------------------
  // Port names

  /** The edge's `tailport`: `C1R` and the source row's port. */
  function TailPort(port: nat): string {
    "C1R" + Decimal(port)
  }

  /** The edge's `headport`: `C0R` and the target row's port. */
  function HeadPort(port: nat): string {
    "C0R" + Decimal(port)
  }

  /** A headport as `_prepare_for_display` reads it: a row's port, or any other key kept as it is. */
  datatype PortKey = IntPort(n: nat) | OtherPort(text: string)

  /** `int(headport.removeprefix("C0R"))` for a headport that starts with `C0R`. */
  function ParseHeadport(headport: string): (r: Result<PortKey, DiagramError>)
    ensures r == Ok(OtherPort(headport)) <==> !StartsWith(headport, "C0R")
    ensures r.Err? <==> StartsWith(headport, "C0R") && !DigitRun(headport[3..])
    ensures r.Ok? && r.value.IntPort? ==> headport == "C0R" + headport[3..] && r.value.n == DecimalValue(headport[3..])
  {
    if !StartsWith(headport, "C0R") then Ok(OtherPort(headport))
    else
      var digits := RemovePrefix(headport, "C0R");
      if DigitRun(digits) then Ok(IntPort(DecimalValue(digits))) else Err(InvalidHeadport)
  }

  /** The headport of an edge reads back as the target row's port. */
  lemma HeadPortRoundTrip(port: nat)
    ensures ParseHeadport(HeadPort(port)) == Ok(IntPort(port))
  {
    var h := HeadPort(port);
    assert h[..3] == "C0R";
    assert h[3..] == Decimal(port);
    DecimalRoundTrip(port);
  }

  /** Rows with different ports get different headports. */
  lemma HeadPortInjective(a: nat, b: nat)
    requires HeadPort(a) == HeadPort(b)
    ensures a == b
  {
    HeadPortRoundTrip(a);
    HeadPortRoundTrip(b);
  }

  // ---------------------------------------------------------------------
  // _prepare_for_display

  /**
   * The ports of interest of `node`: the headport of every edge into it,
   * read back as a row's port, which by `HeadPortRoundTrip` is the port the
   * edge was drawn to.
   */
  function IncomingPorts(edges: seq<Edge>, node: NodeId): (r: set<nat>)
    decreases |edges|
  {
    if edges == [] then {}
    else
      var e := edges[|edges| - 1];
      IncomingPorts(edges[..|edges| - 1], node) + (if e.tgt == node then {e.tgtPort} else {})
  }

  /** The ports of interest are exactly the ports the edges into the node are drawn to. */
  lemma {:induction false} IncomingPortsMembers(edges: seq<Edge>, node: NodeId, p: nat)
    ensures p in IncomingPorts(edges, node) <==> exists i :: 0 <= i < |edges| && edges[i].tgt == node && edges[i].tgtPort == p
    decreases |edges|
  {
    if edges != [] {
      var init := edges[..|edges| - 1];
      IncomingPortsMembers(init, node, p);
      if exists i :: 0 <= i < |edges| && edges[i].tgt == node && edges[i].tgtPort == p {
        var i :| 0 <= i < |edges| && edges[i].tgt == node && edges[i].tgtPort == p;
        if i < |init| {
          assert init[i] == edges[i];
        }
      }
    }
  }

  /** The ports that have upstream dependencies. */
  function DependencyPorts(dependencies: seq<(nat, seq<Dependency>)>): (r: set<nat>)
    decreases |dependencies|
  {
    if dependencies == [] then {}
    else DependencyPorts(dependencies[..|dependencies| - 1]) + {dependencies[|dependencies| - 1].0}
  }

  /** The ports with dependencies are exactly the ports the dependency list names. */
  lemma {:induction false} DependencyPortsMembers(dependencies: seq<(nat, seq<Dependency>)>, p: nat)
    ensures p in DependencyPorts(dependencies) <==> exists j :: 0 <= j < |dependencies| && dependencies[j].0 == p
    decreases |dependencies|
  {
    if dependencies != [] {
      var init := dependencies[..|dependencies| - 1];
      DependencyPortsMembers(init, p);
      if exists j :: 0 <= j < |dependencies| && dependencies[j].0 == p {
        var j :| 0 <= j < |dependencies| && dependencies[j].0 == p;
        if j < |init| {
          assert init[j] == dependencies[j];
        }
      }
    }
  }

  /** A row the MID level shows: a LOW or MID row with dependencies, a spanning row, or a row an edge points at. */
  predicate MidKept(item: TableItem, dependencyPorts: set<nat>, interest: set<nat>) {
    ((item.lod == Low || item.lod == Mid) && item.port in dependencyPorts) || item.value == TotalSpan || item.port in interest
  }

  /** The rows the MID level shows, in order. */
  function MidItems(items: seq<TableItem>, dependencyPorts: set<nat>, interest: set<nat>): (r: seq<TableItem>)
    ensures |r| <= |items|
  {
    if items == [] then []
    else
      var rest := MidItems(items[..|items| - 1], dependencyPorts, interest);
      if MidKept(items[|items| - 1], dependencyPorts, interest) then rest + [items[|items| - 1]] else rest
  }

  /** The MID level keeps exactly the rows `MidKept` picks. */
  lemma {:induction false} MidItemsMembers(items: seq<TableItem>, dependencyPorts: set<nat>, interest: set<nat>, x: TableItem)
    ensures x in MidItems(items, dependencyPorts, interest) <==> x in items && MidKept(x, dependencyPorts, interest)
    decreases |items|
  {
    if items != [] {
      MidItemsMembers(items[..|items| - 1], dependencyPorts, interest, x);
      assert items == items[..|items| - 1] + [items[|items| - 1]];
    }
  }

  /** The rows the LOW level shows, in order. */
  function LowItems(items: seq<TableItem>): (r: seq<TableItem>)
    ensures |r| <= |items|
  {
    if items == [] then []
    else
      var rest := LowItems(items[..|items| - 1]);
      if items[|items| - 1].lod == Low then rest + [items[|items| - 1]] else rest
  }

  /** The LOW level keeps exactly the LOW rows. */
  lemma {:induction false} LowItemsMembers(items: seq<TableItem>, x: TableItem)
    ensures x in LowItems(items) <==> x in items && x.lod == Low
    decreases |items|
  {
    if items != [] {
      LowItemsMembers(items[..|items| - 1], x);
      assert items == items[..|items| - 1] + [items[|items| - 1]];
    }
  }

  /** `list(reversed(s))`. */
  function Reversed<T>(s: seq<T>): (r: seq<T>)
    ensures |r| == |s|
  {
    if s == [] then [] else [s[|s| - 1]] + Reversed(s[..|s| - 1])
  }

  /** The reversed sequence holds the elements from the last to the first. */
  lemma {:induction false} ReversedIndex<T>(s: seq<T>)
    ensures forall i :: 0 <= i < |s| ==> Reversed(s)[i] == s[|s| - 1 - i]
  {
    if s != [] {
      ReversedIndex(s[..|s| - 1]);
    }
  }

  /** The three levels of a node: the rows and ports of each, last collected first. */
  function LodsOf(items: seq<TableItem>, mid: seq<TableItem>, low: seq<TableItem>): Lods {
    Lods(Reversed(items), Reversed(mid), Reversed(low),
         Reversed(Ports(items)), Reversed(Ports(mid)), Reversed(Ports(low)))
  }

  /** Reversing the ports of the rows gives the ports of the reversed rows. */
  lemma ReversedPorts(items: seq<TableItem>)
    ensures Reversed(Ports(items)) == Ports(Reversed(items))
  {
    ReversedIndex(items);
    ReversedIndex(Ports(items));
  }

  /** Each level's ports are its rows' ports, in the order the rows are shown. */
  lemma LodsOfPorts(items: seq<TableItem>, mid: seq<TableItem>, low: seq<TableItem>)
    ensures var r := LodsOf(items, mid, low);
      r.highPorts == Ports(r.high) && r.midPorts == Ports(r.mid) && r.lowPorts == Ports(r.low)
  {
    ReversedPorts(items);
    ReversedPorts(mid);
    ReversedPorts(low);
  }

  /**
   * The three levels in one pass over the rows, last collected first: the
   * graph stores these, and `LevelsOf` shows they are the reversed rows,
   * MID rows and LOW rows.
   */
  function Levels(items: seq<TableItem>, dependencyPorts: set<nat>, interest: set<nat>): (r: Lods)
    decreases |items|
  {
    if items == [] then Lods([], [], [], [], [], [])
    else
      var x := items[|items| - 1];
      var r := Levels(items[..|items| - 1], dependencyPorts, interest);
      var mid := MidKept(x, dependencyPorts, interest);
      var low := x.lod == Low;
      Lods([x] + r.high, if mid then [x] + r.mid else r.mid, if low then [x] + r.low else r.low,
           [x.port] + r.highPorts, if mid then [x.port] + r.midPorts else r.midPorts,
           if low then [x.port] + r.lowPorts else r.lowPorts)
  }

  /** Appending a row appends its port. */
  lemma PortsAppend(items: seq<TableItem>, x: TableItem)
    ensures Ports(items + [x]) == Ports(items) + [x.port]
  {
    assert forall i :: 0 <= i < |items| ==> (items + [x])[i] == items[i];
  }

  /** Reversing a sequence with one more element puts that element first. */
  lemma ReversedAppend<T>(s: seq<T>, x: T)
    ensures Reversed(s + [x]) == [x] + Reversed(s)
  {
    assert (s + [x])[..|s|] == s;
  }

  /** The one pass gives the levels `_prepare_for_display` builds by filtering and reversing. */
  lemma {:induction false} LevelsOf(items: seq<TableItem>, dependencyPorts: set<nat>, interest: set<nat>)
    ensures Levels(items, dependencyPorts, interest) == LodsOf(items, MidItems(items, dependencyPorts, interest), LowItems(items))
    decreases |items|
  {
    if items != [] {
      var init := items[..|items| - 1];
      var x := items[|items| - 1];
      var mid := MidItems(init, dependencyPorts, interest);
      var low := LowItems(init);
      LevelsOf(init, dependencyPorts, interest);
      assert items == init + [x];
      ReversedAppend(init, x);
      PortsAppend(init, x);
      ReversedAppend(Ports(init), x.port);
      if MidKept(x, dependencyPorts, interest) {
        ReversedAppend(mid, x);
        PortsAppend(mid, x);
        ReversedAppend(Ports(mid), x.port);
      }
      if x.lod == Low {
        ReversedAppend(low, x);
        PortsAppend(low, x);
        ReversedAppend(Ports(low), x.port);
      }
    }
  }

  /** The levels of detail of a node, given the edges into it. */
  function NodeLods(data: NodeData, edges: seq<Edge>, node: NodeId): Lods {
    Levels(data.collected.items, DependencyPorts(data.collected.dependencies), IncomingPorts(edges, node))
  }

  /**
   * `_prepare_for_display(node_id)`: `RuntimeError` for a node not in the
   * graph; otherwise the node's three levels are set and nothing else
   * changes.
   */
  function Prepare(d: Diagram, node: NodeId): (r: Result<Diagram, DiagramError>)
    ensures r.Err? <==> node !in d.data
    ensures r.Err? ==> r.error == NodeNotInGraph(node)
    ensures r.Ok? ==> r.value.layerIds == d.layerIds && r.value.data == d.data && r.value.edges == d.edges
    ensures r.Ok? ==> r.value.lods.Keys == d.lods.Keys + {node}
    ensures r.Ok? ==> forall n :: n in d.lods && n != node ==> r.value.lods[n] == d.lods[n]
  {
    if node !in d.data then Err(NodeNotInGraph(node))
    else Ok(d.(lods := d.lods[node := NodeLods(d.data[node], d.edges, node)]))
  }

  /** Preparing a node of a valid graph leaves it valid. */
  lemma PrepareValid(d: Diagram, node: NodeId)
    requires Valid(d) && node in d.data
    ensures Valid(Prepare(d, node).value)
  {
  }

  /**
   * What a prepared node shows: every row at the HIGH level, its LOW rows
   * at the LOW level, and at the MID level the rows with dependencies, the
   * spanning rows and the rows an edge points at; each level's ports are
   * its rows' ports, last collected first.
   */
  lemma PrepareShows(d: Diagram, node: NodeId)
    requires node in d.data
    ensures var lods := Prepare(d, node).value.lods[node];
      var items := d.data[node].collected.items;
      && lods.high == Reversed(items)
      && (forall x :: x in lods.low <==> x in items && x.lod == Low)
      && (forall x :: x in lods.mid <==>
            (x in items &&
             (((x.lod == Low || x.lod == Mid) &&
               exists j :: 0 <= j < |d.data[node].collected.dependencies| && d.data[node].collected.dependencies[j].0 == x.port)
              || x.value == TotalSpan
              || exists i :: 0 <= i < |d.edges| && d.edges[i].tgt == node && d.edges[i].tgtPort == x.port)))
      && lods.highPorts == Ports(lods.high) && lods.midPorts == Ports(lods.mid) && lods.lowPorts == Ports(lods.low)
  {
    var lods := Prepare(d, node).value.lods[node];
    var items := d.data[node].collected.items;
    var mid := MidItems(items, DependencyPorts(d.data[node].collected.dependencies), IncomingPorts(d.edges, node));
    LevelsOf(items, DependencyPorts(d.data[node].collected.dependencies), IncomingPorts(d.edges, node));
    LodsOfPorts(items, mid, LowItems(items));
    forall x
      ensures x in lods.mid <==>
        (x in items &&
         (((x.lod == Low || x.lod == Mid) &&
           exists j :: 0 <= j < |d.data[node].collected.dependencies| && d.data[node].collected.dependencies[j].0 == x.port)
          || x.value == TotalSpan
          || exists i :: 0 <= i < |d.edges| && d.edges[i].tgt == node && d.edges[i].tgtPort == x.port))
    {
      ReversedMembers(mid, x);
      MidItemsMembers(items, DependencyPorts(d.data[node].collected.dependencies), IncomingPorts(d.edges, node), x);
      DependencyPortsMembers(d.data[node].collected.dependencies, x.port);
      IncomingPortsMembers(d.edges, node, x.port);
    }
    forall x
      ensures x in lods.low <==> x in items && x.lod == Low
    {
      ReversedMembers(LowItems(items), x);
      LowItemsMembers(items, x);
    }
  }

  lemma ReversedMembers<T>(s: seq<T>, x: T)
    ensures x in Reversed(s) <==> x in s
  {
    ReversedIndex(s);
    var r := Reversed(s);
    if x in r {
      var i :| 0 <= i < |r| && r[i] == x;
      assert s[|s| - 1 - i] == x;
    }
    if x in s {
      var i :| 0 <= i < |s| && s[i] == x;
      assert r[|s| - 1 - i] == x;
    }
  }

  /** In a node holding what its layer collects, every LOW row is also shown at the MID level: LOW rows span the table. */
  lemma LowWithinMid(d: Diagram, node: NodeId)
    requires NodesCollected(d) && node in d.data
    ensures forall x :: x in Prepare(d, node).value.lods[node].low ==> x in Prepare(d, node).value.lods[node].mid
  {
    var data := d.data[node];
    CollectNumbered(data.layer);
    PrepareShows(d, node);
    var lods := Prepare(d, node).value.lods[node];
    forall x | x in lods.low
      ensures x in lods.mid
    {
      var i :| 0 <= i < |data.collected.items| && data.collected.items[i] == x;
    }
  }

  // ---------------------------------------------------------------------
  // _expand_dependencies

  /**
   * `_find_layer(asset_path, anchor)` by the anchor's layer and the asset
   * path; a missing entry is a layer that cannot be found or opened.
   */
  type Resolver = map<(nat, string), Layer>

  /** One upstream dependency to follow: from row `port` of node `key`, whose layer is `anchor`. */
  datatype Work = Work(key: NodeId, anchor: nat, port: nat, dep: Dependency)

  /** The dependencies of one port. */
  function PortWork(key: NodeId, anchor: nat, port: nat, deps: seq<Dependency>): (r: seq<Work>)
    ensures forall w :: w in r ==> w.key == key
  {
    seq(|deps|, i requires 0 <= i < |deps| => Work(key, anchor, port, deps[i]))
  }

  /** The dependencies of one node, port by port. */
  function NodeWork(key: NodeId, anchor: nat, dependencies: seq<(nat, seq<Dependency>)>): (r: seq<Work>)
    ensures forall w :: w in r ==> w.key == key
  {
    if dependencies == [] then []
    else PortWork(key, anchor, dependencies[0].0, dependencies[0].1) + NodeWork(key, anchor, dependencies[1..])
  }

  /** The dependencies of the given nodes, node by node. */
  function WorkOf(d: Diagram, keys: seq<NodeId>): (r: seq<Work>)
    requires forall k :: k in keys ==> k in d.data
    ensures forall w :: w in r ==> w.key in keys
  {
    if keys == [] then []
    else NodeWork(keys[0], d.data[keys[0]].layer.key, d.data[keys[0]].collected.dependencies) + WorkOf(d, keys[1..])
  }

  /** `spec_path or dependency_layer.defaultPrim`: the spec the edge points at. */
  function SpecKey(dep: Dependency, layer: Layer): string {
    if dep.specPath == [] then layer.defaultPrim else dep.specPath
  }

  /**
   * `r` grows `d`: every layer keeps its node, every node its data and its
   * levels of detail, and the edges are kept in front.
   */
  ghost predicate Grows(d: Diagram, r: Diagram) {
    (forall k :: k in d.layerIds ==> k in r.layerIds && r.layerIds[k] == d.layerIds[k]) &&
    (forall n :: n in d.data ==> n in r.data && r.data[n] == d.data[n]) &&
    (forall n :: n in d.data ==> (n in r.lods <==> n in d.lods)) &&
    (forall n :: n in d.lods ==> n in r.lods && r.lods[n] == d.lods[n]) &&
    |d.edges| <= |r.edges| && r.edges[..|d.edges|] == d.edges
  }

  lemma GrowsRefl(d: Diagram)
    ensures Grows(d, d)
  {
  }

  lemma GrowsTrans(a: Diagram, b: Diagram, c: Diagram)
    requires Grows(a, b) && Grows(b, c)
    ensures Grows(a, c)
  {
    assert c.edges[..|a.edges|] == c.edges[..|b.edges|][..|a.edges|];
  }

  lemma AddNodeGrows(d: Diagram, layer: Layer)
    requires Valid(d)
    ensures Grows(d, AddNode(d, layer).0)
  {
    assert AddNode(d, layer).0.edges[..|d.edges|] == d.edges;
  }

  /**
   * The levels of detail after `_prepare_for_display` of the nodes
   * `lo .. hi - 1` one after the other: exactly those nodes get theirs,
   * each as preparing it alone sets them, and every other node keeps what
   * it had.
   */
  function PreparedLods(d: Diagram, lo: nat, hi: nat): (r: map<NodeId, Lods>)
    requires forall n: nat :: lo <= n < hi ==> n in d.data
    decreases hi
  {
    if hi <= lo then d.lods
    else PreparedLods(d, lo, hi - 1)[hi - 1 := NodeLods(d.data[hi - 1], d.edges, hi - 1)]
  }

  /**
   * Exactly the nodes of the range are added, each with the levels of
   * detail preparing it alone gives it, and every other node keeps its own.
   */
  lemma {:induction false} PreparedLodsKeys(d: Diagram, lo: nat, hi: nat)
    requires forall n: nat :: lo <= n < hi ==> n in d.data
    ensures forall n :: n in PreparedLods(d, lo, hi) <==> n in d.lods || lo <= n < hi
    ensures forall n :: n in d.lods && !(lo <= n < hi) ==> PreparedLods(d, lo, hi)[n] == d.lods[n]
    ensures forall n: nat :: lo <= n < hi ==> PreparedLods(d, lo, hi)[n] == NodeLods(d.data[n], d.edges, n)
    decreases hi
  {
    if lo < hi {
      PreparedLodsKeys(d, lo, hi - 1);
    }
  }

  /**
   * `_prepare_for_display` of the nodes `lo .. hi - 1`: the nodes an
   * expansion added, which have the ids from the node count before it.
   */
  function PrepareRange(d: Diagram, lo: nat, hi: nat): (r: Diagram)
    requires forall n: nat :: lo <= n < hi ==> n in d.data
    ensures r.layerIds == d.layerIds && r.data == d.data && r.edges == d.edges
  {
    d.(lods := PreparedLods(d, lo, hi))
  }

  /** Preparing one more node is preparing it after the others, as `Prepare` does. */
  lemma PrepareRangeNext(d: Diagram, lo: nat, hi: nat)
    requires lo <= hi && forall n: nat :: lo <= n <= hi ==> n in d.data
    ensures PrepareRange(d, lo, hi + 1) == Prepare(PrepareRange(d, lo, hi), hi).value
  {
  }

  /** Preparing the nodes an expansion added leaves the graph grown from before it. */
  lemma ExpansionPrepared(d: Diagram, d2: Diagram)
    requires Valid(d) && Valid(d2) && Grows(d, d2)
    ensures Valid(PrepareRange(d2, |d.layerIds|, |d2.layerIds|))
    ensures Grows(d, PrepareRange(d2, |d.layerIds|, |d2.layerIds|))
  {
    assert d.layerIds.Keys <= d2.layerIds.Keys;
    SubsetCard(d.layerIds.Keys, d2.layerIds.Keys);
    PreparedLodsKeys(d2, |d.layerIds|, |d2.layerIds|);
  }

  /** The layers the resolver can give. */
  function Resolvable(resolve: Resolver): set<nat> {
    set layer | layer in resolve.Values :: layer.key
  }

  /** How many layers the resolver can give that the graph has not loaded yet. */
  function Unloaded(d: Diagram, resolve: Resolver): nat {
    |Resolvable(resolve) - d.layerIds.Keys|
  }

  lemma SubsetCard<T>(a: set<T>, b: set<T>)
    requires a <= b
    ensures |a| <= |b|
    decreases |a|
  {
    if a != {} {
      var x :| x in a;
      SubsetCard(a - {x}, b - {x});
      assert a == (a - {x}) + {x};
      assert b == (b - {x}) + {x};
    }
  }

  /** A graph that grew has no more layers left to load. */
  lemma UnloadedGrows(d: Diagram, r: Diagram, resolve: Resolver)
    requires Grows(d, r)
    ensures Unloaded(r, resolve) <= Unloaded(d, resolve)
  {
    SubsetCard(Resolvable(resolve) - r.layerIds.Keys, Resolvable(resolve) - d.layerIds.Keys);
  }

  /** Loading a layer the resolver gave, which the graph had not loaded, leaves one fewer. */
  lemma UnloadedDrops(d: Diagram, key: (nat, string), resolve: Resolver)
    requires key in resolve && resolve[key].key !in d.layerIds
    ensures Unloaded(AddNode(d, resolve[key]).0, resolve) < Unloaded(d, resolve)
  {
    var layer := resolve[key];
    assert layer in resolve.Values;
    var before := Resolvable(resolve) - d.layerIds.Keys;
    var after := Resolvable(resolve) - AddNode(d, layer).0.layerIds.Keys;
    assert after == before - {layer.key};
    assert before == after + {layer.key};
  }

  /** Every dependency to follow starts at one of `nodes`. */
  predicate WorkIn(work: seq<Work>, nodes: set<NodeId>) {
    forall w :: w in work ==> w.key in nodes
  }

  /** Edges that joined the nodes of a graph join the nodes of a graph grown from it. */
  lemma EdgesJoinGrown(edges: seq<Edge>, d: Diagram, r: Diagram, e: Edge)
    requires EdgesJoinNodes(edges, d.data.Keys) && Grows(d, r) && e.src in r.data && e.tgt in r.data
    ensures EdgesJoinNodes(edges + [e], r.data.Keys)
  {
  }

  /** The edges are added to a valid graph at the end of an expansion. */
  lemma EdgesAdded(d: Diagram, d1: Diagram, edges: seq<Edge>)
    requires Valid(d) && Valid(d1) && Grows(d, d1) && EdgesJoinNodes(edges, d1.data.Keys)
    ensures Valid(d1.(edges := d1.edges + edges)) && Grows(d, d1.(edges := d1.edges + edges))
  {
    var d2 := d1.(edges := d1.edges + edges);
    assert d2.edges[..|d1.edges|] == d1.edges;
    GrowsTrans(d, d1, d2);
  }

  /**
   * `_expand_dependencies(keys, recursive)`: every dependency of the given
   * nodes whose layer is found adds the layer's node and an edge from the
   * dependency's row to the row of its spec; with `recursive`, a node that
   * was not in the graph is expanded in turn. The edges are added at the
   * end, then the nodes that are new are prepared for display; the result
   * is the set of nodes the dependencies led to.
   */
  function Expand(d: Diagram, keys: seq<NodeId>, resolve: Resolver, recursive: bool): (r: (Diagram, Result<set<NodeId>, DiagramError>))
    requires Valid(d) && forall k :: k in keys ==> k in d.data
    ensures Valid(r.0) && Grows(d, r.0)
    ensures r.1.Ok? ==> r.1.value <= r.0.data.Keys
    ensures r.1.Err? ==> r.1.error.MissingPort?
    decreases Unloaded(d, resolve), 3
  {
    var (d1, res) := Steps(d, WorkOf(d, keys), [], {}, resolve, recursive);
    match res
    case Err(e) => (d1, Err(e))
    case Ok((edges, added)) =>
      EdgesAdded(d, d1, edges);
      var d2 := d1.(edges := d1.edges + edges);
      ExpansionPrepared(d, d2);
      (PrepareRange(d2, |d.layerIds|, |d2.layerIds|), Ok(added))
  }

  /**
   * `_handle_upstream_dependency` for one dependency: a layer the resolver
   * cannot find is skipped; otherwise its node is loaded, and the edge from
   * the dependency's row to the row of its spec comes back with the nodes
   * the dependency led to. A spec the loaded layer has no row for is the
   * `KeyError` of the port lookup.
   */
  function Handle(d: Diagram, w: Work, resolve: Resolver, recursive: bool)
    : (r: (Diagram, Result<Option<(Edge, set<NodeId>)>, DiagramError>))
    requires Valid(d) && w.key in d.data
    ensures Valid(r.0) && Grows(d, r.0)
    ensures r.1.Ok? && r.1.value.None? ==> r.0 == d && (w.anchor, w.dep.assetPath) !in resolve
    ensures r.1.Ok? && r.1.value.Some? ==>
      var (e, nodes) := r.1.value.value;
      e.src == w.key && e.srcPort == w.port && e.arc == w.dep.arc && e.tgt in nodes && nodes <= r.0.data.Keys
    ensures r.1.Err? ==> r.1.error.MissingPort?
    decreases Unloaded(d, resolve), 1
  {
    var key := (w.anchor, w.dep.assetPath);
    if key !in resolve then (d, Ok(None))
    else
      var (d2, node, inner) := Load(d, key, resolve, recursive);
      match inner
      case Err(e) => (d2, Err(e))
      case Ok(more) =>
        var spec := SpecKey(w.dep, resolve[key]);
        var ports := d2.data[node].collected.ports;
        if spec !in ports then (d2, Err(MissingPort(node, spec)))
        else (d2, Ok(Some((Edge(w.key, node, w.port, ports[spec], w.dep.arc), {node} + more))))
  }

  /**
   * `_handle_upstream_dependency` for each dependency in turn, collecting
   * the edges to add and the nodes the dependencies led to.
   */
  function Steps(d: Diagram, work: seq<Work>, edges: seq<Edge>, added: set<NodeId>, resolve: Resolver, recursive: bool)
    : (r: (Diagram, Result<(seq<Edge>, set<NodeId>), DiagramError>))
    requires Valid(d) && EdgesJoinNodes(edges, d.data.Keys) && added <= d.data.Keys && WorkIn(work, d.data.Keys)
    ensures Valid(r.0) && Grows(d, r.0)
    ensures r.1.Ok? ==> EdgesJoinNodes(r.1.value.0, r.0.data.Keys) && r.1.value.1 <= r.0.data.Keys
    ensures r.1.Err? ==> r.1.error.MissingPort?
    decreases Unloaded(d, resolve), 2, |work|
  {
    if work == [] then (d, Ok((edges, added)))
    else
      var s := Handle(d, work[0], resolve, recursive);
      if s.1.Err? then (s.0, Err(s.1.error))
      else
        StepFound(d, s.0, work, edges, added, s.1.value);
        UnloadedGrows(d, s.0, resolve);
        var f := Found(edges, added, s.1.value);
        var r := Steps(s.0, work[1..], f.0, f.1, resolve, recursive);
        GrowsTrans(d, s.0, r.0);
        r
  }

  /**
   * Following the dependencies `work` from `d0` got as far as `i`: the
   * graph `d` grew from `d0`, and the edges and nodes found so far and the
   * rest of the work join its nodes.
   */
  ghost predicate Progress(d0: Diagram, d: Diagram, work: seq<Work>, i: nat, found: seq<Edge>, added: set<NodeId>) {
    && i <= |work| && Valid(d0) && WorkIn(work, d0.data.Keys) && Valid(d) && Grows(d0, d)
    && EdgesJoinNodes(found, d.data.Keys) && added <= d.data.Keys && WorkIn(work[i..], d.data.Keys)
  }

  /** Progress so far, and the rest of the work from `d` ends where all of it from `d0` does. */
  ghost predicate Following(d0: Diagram, d: Diagram, work: seq<Work>, i: nat, found: seq<Edge>, added: set<NodeId>,
                            resolve: Resolver, recursive: bool) {
    && Progress(d0, d, work, i, found, added)
    && Steps(d0, work, [], {}, resolve, recursive) == Steps(d, work[i..], found, added, resolve, recursive)
  }

  /** A first dependency handled without error leaves the rest of the work to follow from the grown graph. */
  lemma StepsNext(d: Diagram, d2: Diagram, work: seq<Work>, found: seq<Edge>, added: set<NodeId>,
                  h: Option<(Edge, set<NodeId>)>, resolve: Resolver, recursive: bool)
    requires Valid(d) && EdgesJoinNodes(found, d.data.Keys) && added <= d.data.Keys && WorkIn(work, d.data.Keys) && work != []
    requires Handle(d, work[0], resolve, recursive) == (d2, Ok(h))
    requires Valid(d2) && EdgesJoinNodes(Found(found, added, h).0, d2.data.Keys) && Found(found, added, h).1 <= d2.data.Keys
    requires WorkIn(work[1..], d2.data.Keys)
    ensures Steps(d, work, found, added, resolve, recursive) == Steps(d2, work[1..], Found(found, added, h).0, Found(found, added, h).1, resolve, recursive)
  {
  }

  /** A first dependency that fails ends the work with its error. */
  lemma StepsStop(d: Diagram, d2: Diagram, work: seq<Work>, found: seq<Edge>, added: set<NodeId>,
                  e: DiagramError, resolve: Resolver, recursive: bool)
    requires Valid(d) && EdgesJoinNodes(found, d.data.Keys) && added <= d.data.Keys && WorkIn(work, d.data.Keys) && work != []
    requires Handle(d, work[0], resolve, recursive) == (d2, Err(e))
    ensures Steps(d, work, found, added, resolve, recursive) == (d2, Err(e))
  {
  }

  /** Nothing is followed yet. */
  lemma FollowingStart(d0: Diagram, work: seq<Work>, resolve: Resolver, recursive: bool)
    requires Valid(d0) && WorkIn(work, d0.data.Keys)
    ensures Following(d0, d0, work, 0, [], {}, resolve, recursive)
  {
    GrowsRefl(d0);
    assert work[0..] == work;
  }

  /** A graph grown further by one more dependency, found `h`, keeps the progress. */
  lemma ProgressNext(d0: Diagram, d: Diagram, d2: Diagram, work: seq<Work>, i: nat, found: seq<Edge>, added: set<NodeId>,
                     h: Option<(Edge, set<NodeId>)>)
    requires Progress(d0, d, work, i, found, added) && i < |work|
    requires Valid(d2) && Grows(d, d2)
    requires h.Some? ==> h.value.0.src == work[i].key && h.value.0.tgt in h.value.1 && h.value.1 <= d2.data.Keys
    ensures Progress(d0, d2, work, i + 1, Found(found, added, h).0, Found(found, added, h).1)
  {
    GrowsTrans(d0, d, d2);
    assert work[i..][0] == work[i] && work[i..][1..] == work[i + 1..];
    StepFound(d, d2, work[i..], found, added, h);
  }

  /** Following one more dependency that fails: the error is where all the work ends. */
  lemma FollowingFails(d0: Diagram, d: Diagram, d2: Diagram, work: seq<Work>, i: nat, found: seq<Edge>, added: set<NodeId>,
                       e: DiagramError, resolve: Resolver, recursive: bool)
    requires Following(d0, d, work, i, found, added, resolve, recursive) && i < |work|
    requires Handle(d, work[i], resolve, recursive) == (d2, Err(e))
    ensures Steps(d0, work, [], {}, resolve, recursive) == (d2, Err(e))
  {
    assert work[i..][0] == work[i];
    StepsStop(d, d2, work[i..], found, added, e, resolve, recursive);
  }

  /**
   * Following one more dependency that succeeds: the edge and nodes found
   * join the rest.
   */
  lemma FollowingNext(d0: Diagram, d: Diagram, d2: Diagram, work: seq<Work>, i: nat, found: seq<Edge>, added: set<NodeId>,
                      h: Option<(Edge, set<NodeId>)>, resolve: Resolver, recursive: bool)
    requires Following(d0, d, work, i, found, added, resolve, recursive) && i < |work|
    requires Handle(d, work[i], resolve, recursive) == (d2, Ok(h))
    ensures Following(d0, d2, work, i + 1, Found(found, added, h).0, Found(found, added, h).1, resolve, recursive)
  {
    assert work[i..][0] == work[i] && work[i..][1..] == work[i + 1..];
    ProgressNext(d0, d, d2, work, i, found, added, h);
    StepsNext(d, d2, work[i..], found, added, h, resolve, recursive);
  }

  /** All of the work followed: it ends with the edges and nodes found. */
  lemma FollowingDone(d0: Diagram, d: Diagram, work: seq<Work>, found: seq<Edge>, added: set<NodeId>,
                      resolve: Resolver, recursive: bool)
    requires Following(d0, d, work, |work|, found, added, resolve, recursive)
    ensures Steps(d0, work, [], {}, resolve, recursive) == (d, Ok((found, added)))
  {
    assert work[|work|..] == [];
  }

  /** The edges and nodes collected so far, with what one dependency found. */
  function Found(edges: seq<Edge>, added: set<NodeId>, found: Option<(Edge, set<NodeId>)>): (r: (seq<Edge>, set<NodeId>))
    ensures found.None? ==> r == (edges, added)
  {
    match found
    case None => (edges, added)
    case Some((e, nodes)) => (edges + [e], added + nodes)
  }

  /** What one dependency found joins the nodes of the grown graph, and so does the rest of the work. */
  lemma StepFound(d: Diagram, d2: Diagram, work: seq<Work>, edges: seq<Edge>, added: set<NodeId>, found: Option<(Edge, set<NodeId>)>)
    requires work != [] && EdgesJoinNodes(edges, d.data.Keys) && added <= d.data.Keys && WorkIn(work, d.data.Keys)
    requires Grows(d, d2)
    requires found.Some? ==> found.value.0.src == work[0].key && found.value.0.tgt in found.value.1 && found.value.1 <= d2.data.Keys
    ensures EdgesJoinNodes(Found(edges, added, found).0, d2.data.Keys) && Found(edges, added, found).1 <= d2.data.Keys
    ensures WorkIn(work[1..], d2.data.Keys)
  {
    forall w1 | w1 in work[1..]
      ensures w1.key in d2.data
    {
      assert w1 in work;
    }
    if found.Some? {
      EdgesJoinGrown(edges, d, d2, found.value.0);
    }
  }

  /**
   * The node of a dependency's layer, which the graph loads when it has not
   * yet; with `recursive`, a node that was not in the graph is expanded.
   */
  function Load(d: Diagram, key: (nat, string), resolve: Resolver, recursive: bool)
    : (r: (Diagram, NodeId, Result<set<NodeId>, DiagramError>))
    requires Valid(d) && key in resolve
    ensures Valid(r.0) && Grows(d, r.0) && r.1 in r.0.data
    ensures r.2.Ok? ==> r.2.value <= r.0.data.Keys
    ensures r.2.Err? ==> r.2.error.MissingPort?
    decreases Unloaded(d, resolve), 0, 0
  {
    AddNodeValid(d, resolve[key]);
    AddNodeGrows(d, resolve[key]);
    var (d1, node) := AddNode(d, resolve[key]);
    if recursive && node !in d.data then
      UnloadedDrops(d, key, resolve);
      var (d2, inner) := Expand(d1, [node], resolve, true);
      GrowsTrans(d, d1, d2);
      (d2, node, inner)
    else (d1, node, Ok({}))
  }

  /**
   * An expansion that succeeds prepares exactly the nodes it added: a node
   * has its levels of detail afterwards when it had them before or is new.
   */
  lemma ExpandPreparesNew(d: Diagram, keys: seq<NodeId>, resolve: Resolver, recursive: bool)
    requires Valid(d) && forall k :: k in keys ==> k in d.data
    ensures var r := Expand(d, keys, resolve, recursive);
      r.1.Ok? ==> forall n :: n in r.0.data ==> (n in r.0.lods <==> n in d.lods || n !in d.data)
  {
    var (d1, res) := Steps(d, WorkOf(d, keys), [], {}, resolve, recursive);
    if res.Ok? {
      var d2 := d1.(edges := d1.edges + res.value.0);
      EdgesAdded(d, d1, res.value.0);
      assert d.layerIds.Keys <= d2.layerIds.Keys;
      SubsetCard(d.layerIds.Keys, d2.layerIds.Keys);
      PreparedLodsKeys(d2, |d.layerIds|, |d2.layerIds|);
      var r := PrepareRange(d2, |d.layerIds|, |d2.layerIds|);
      forall n | n in r.data
        ensures n in r.lods <==> n in d.lods || n !in d.data
      {
        assert n in d.data <==> n < |d.layerIds|;
      }
    }
  }

  /** An expansion keeps every node holding what its layer's traversal collects. */
  lemma ExpandCollected(d: Diagram, keys: seq<NodeId>, resolve: Resolver, recursive: bool)
    requires Valid(d) && NodesCollected(d) && forall k :: k in keys ==> k in d.data
    ensures NodesCollected(Expand(d, keys, resolve, recursive).0)
    decreases Unloaded(d, resolve), 3
  {
    StepsCollected(d, WorkOf(d, keys), [], {}, resolve, recursive);
  }

  lemma StepsCollected(d: Diagram, work: seq<Work>, edges: seq<Edge>, added: set<NodeId>, resolve: Resolver, recursive: bool)
    requires Valid(d) && NodesCollected(d) && EdgesJoinNodes(edges, d.data.Keys) && added <= d.data.Keys && WorkIn(work, d.data.Keys)
    ensures NodesCollected(Steps(d, work, edges, added, resolve, recursive).0)
    decreases Unloaded(d, resolve), 2, |work|
  {
    if work != [] {
      HandleCollected(d, work[0], resolve, recursive);
      var (d2, h) := Handle(d, work[0], resolve, recursive);
      if h.Err? {
        StepsStop(d, d2, work, edges, added, h.error, resolve, recursive);
      } else {
        StepFound(d, d2, work, edges, added, h.value);
        UnloadedGrows(d, d2, resolve);
        StepsNext(d, d2, work, edges, added, h.value, resolve, recursive);
        StepsCollected(d2, work[1..], Found(edges, added, h.value).0, Found(edges, added, h.value).1, resolve, recursive);
      }
    }
  }

  lemma HandleCollected(d: Diagram, w: Work, resolve: Resolver, recursive: bool)
    requires Valid(d) && NodesCollected(d) && w.key in d.data
    ensures NodesCollected(Handle(d, w, resolve, recursive).0)
    decreases Unloaded(d, resolve), 1
  {
    var key := (w.anchor, w.dep.assetPath);
    if key in resolve {
      HandleLoads(d, w, resolve, recursive);
      LoadCollected(d, key, resolve, recursive);
    }
  }

  /** A dependency whose layer is found leaves the graph as loading its node does. */
  lemma HandleLoads(d: Diagram, w: Work, resolve: Resolver, recursive: bool)
    requires Valid(d) && w.key in d.data && (w.anchor, w.dep.assetPath) in resolve
    ensures Handle(d, w, resolve, recursive).0 == Load(d, (w.anchor, w.dep.assetPath), resolve, recursive).0
  {
  }

  lemma LoadCollected(d: Diagram, key: (nat, string), resolve: Resolver, recursive: bool)
    requires Valid(d) && NodesCollected(d) && key in resolve
    ensures NodesCollected(Load(d, key, resolve, recursive).0)
    decreases Unloaded(d, resolve), 0, 0
  {
    AddNodeValid(d, resolve[key]);
    AddNodeCollected(d, resolve[key]);
    var (d1, node) := AddNode(d, resolve[key]);
    if recursive && node !in d.data {
      UnloadedDrops(d, key, resolve);
      ExpandCollected(d1, [node], resolve, true);
    }
  }

  // ---------------------------------------------------------------------
  // The recursion as written

  /**
   * `_expand_dependencies(keys, recursive=True)` as written: a dependency's
   * node is expanded again even when it was in the graph already. `fuel`
   * is how many more nested calls Python's recursion limit allows.
   */
  function ExpandAsWritten(fuel: nat, d: Diagram, keys: seq<NodeId>, resolve: Resolver, recursive: bool)
    : (r: (Diagram, Result<set<NodeId>, DiagramError>))
    requires Valid(d) && forall k :: k in keys ==> k in d.data
    ensures Valid(r.0) && Grows(d, r.0)
    decreases fuel, 3
  {
    var (d1, res) := StepsAsWritten(fuel, d, WorkOf(d, keys), [], {}, resolve, recursive);
    match res
    case Err(e) => (d1, Err(e))
    case Ok((edges, added)) =>
      EdgesAdded(d, d1, edges);
      var d2 := d1.(edges := d1.edges + edges);
      ExpansionPrepared(d, d2);
      (PrepareRange(d2, |d.layerIds|, |d2.layerIds|), Ok(added))
  }

  function HandleAsWritten(fuel: nat, d: Diagram, w: Work, resolve: Resolver, recursive: bool)
    : (r: (Diagram, Result<Option<(Edge, set<NodeId>)>, DiagramError>))
    requires Valid(d) && w.key in d.data
    ensures Valid(r.0) && Grows(d, r.0)
    ensures r.1.Ok? && r.1.value.Some? ==>
      var (e, nodes) := r.1.value.value;
      e.src == w.key && e.tgt in nodes && nodes <= r.0.data.Keys
    decreases fuel, 1
  {
    var key := (w.anchor, w.dep.assetPath);
    if key !in resolve then (d, Ok(None))
    else
      var (d2, node, inner) := LoadAsWritten(fuel, d, key, resolve, recursive);
      match inner
      case Err(e) => (d2, Err(e))
      case Ok(more) =>
        var spec := SpecKey(w.dep, resolve[key]);
        var ports := d2.data[node].collected.ports;
        if spec !in ports then (d2, Err(MissingPort(node, spec)))
        else (d2, Ok(Some((Edge(w.key, node, w.port, ports[spec], w.dep.arc), {node} + more))))
  }

  function StepsAsWritten(fuel: nat, d: Diagram, work: seq<Work>, edges: seq<Edge>, added: set<NodeId>, resolve: Resolver, recursive: bool)
    : (r: (Diagram, Result<(seq<Edge>, set<NodeId>), DiagramError>))
    requires Valid(d) && EdgesJoinNodes(edges, d.data.Keys) && added <= d.data.Keys && WorkIn(work, d.data.Keys)
    ensures Valid(r.0) && Grows(d, r.0)
    ensures r.1.Ok? ==> EdgesJoinNodes(r.1.value.0, r.0.data.Keys) && r.1.value.1 <= r.0.data.Keys
    decreases fuel, 2, |work|
  {
    if work == [] then (d, Ok((edges, added)))
    else
      var (d2, h) := HandleAsWritten(fuel, d, work[0], resolve, recursive);
      if h.Err? then (d2, Err(h.error))
      else
        StepFound(d, d2, work, edges, added, h.value);
        var (edges2, added2) := Found(edges, added, h.value);
        var r := StepsAsWritten(fuel, d2, work[1..], edges2, added2, resolve, recursive);
        GrowsTrans(d, d2, r.0);
        r
  }

  function LoadAsWritten(fuel: nat, d: Diagram, key: (nat, string), resolve: Resolver, recursive: bool)
    : (r: (Diagram, NodeId, Result<set<NodeId>, DiagramError>))
    requires Valid(d) && key in resolve
    ensures Valid(r.0) && Grows(d, r.0) && r.1 in r.0.data
    ensures r.2.Ok? ==> r.2.value <= r.0.data.Keys
    decreases fuel, 0, 0
  {
    AddNodeValid(d, resolve[key]);
    AddNodeGrows(d, resolve[key]);
    var (d1, node) := AddNode(d, resolve[key]);
    if !recursive then (d1, node, Ok({}))
    else if fuel == 0 then (d1, node, Err(RecursionLimit))
    else
      var (d2, inner) := ExpandAsWritten(fuel - 1, d1, [node], resolve, true);
      GrowsTrans(d, d1, d2);
      (d2, node, inner)
  }

  /** A layer whose one sublayer is itself. */
  function SelfLayer(): Layer {
    Layer(0, "self.usda", "", [RootPath(0, [("subLayers", SubLayers(["self.usda"]))])])
  }

  /** A resolver that finds the layer itself from its sublayer path. */
  function SelfResolver(): Resolver {
    map[(0, "self.usda") := SelfLayer()]
  }

  /** The rows of that layer: see `SelfCollected`. */
  function SelfRows(): Collected {
    Collected(4,
      [TableItem(Mid, 0, 0, "", TotalSpan), TableItem(Mid, 0, 1, "subLayers", Text("@...@")),
       TableItem(Mid, 0, 2, "", TotalSpan), TableItem(Low, 0, 3, "self.usda", TotalSpan)],
      [(1, [Dependency("self.usda", "/", Sublayer)])], map["/" := 3])
  }

  /** The graph with that layer loaded as node 0. */
  function SelfGraph(): Diagram {
    Diagram(map[0 := 0], map[0 := NodeData(SelfLayer(), SelfRows())], map[], [])
  }

  /**
   * The layer's rows: the two separators around the `subLayers` row,
   * which has the dependency, then the layer's own row, which is the port
   * of its pseudo-root.
   */
  lemma SelfCollected()
    ensures Collect(SelfLayer()) == SelfRows()
  {
    var layer := SelfLayer();
    var info := [("subLayers", SubLayers(["self.usda"]))];
    assert ShowsMetadata(info) by {
      assert !RootSkippedKey(info[0].0);
    }
    assert info[..0] == [];
    assert layer.visits[..0] == [];
    var s := Separator(Start);
    assert s == Collected(1, [TableItem(Mid, 0, 0, "", TotalSpan)], [], map[]);
    var deps := seq(1, i requires 0 <= i < 1 => Dependency(["self.usda"][i], "/", Sublayer));
    assert deps == [Dependency("self.usda", "/", Sublayer)];
    var m := RootInfoSteps(s, 0, "", info);
    assert m == RootInfoStep(s, 0, "", "subLayers", SubLayers(["self.usda"]));
    assert m == Collected(2, [TableItem(Mid, 0, 0, "", TotalSpan), TableItem(Mid, 0, 1, "subLayers", Text("@...@"))],
                          [(1, [Dependency("self.usda", "/", Sublayer)])], map[]);
    assert Collect(layer) == VisitStep(Start, layer, layer.visits[0]);
    assert Collect(layer) == RootVisit(Start, layer, 0, info);
  }

  lemma SelfGraphValid()
    ensures Valid(SelfGraph()) && NodesCollected(SelfGraph()) && AddNode(Empty, SelfLayer()).0 == SelfGraph()
  {
    SelfCollected();
    var d := SelfGraph();
    assert |d.layerIds| == 1;
    assert DenseIds(d);
  }

  /** The work of expanding the layer: its one sublayer, from row 1. */
  lemma SelfWork()
    ensures 0 in SelfGraph().data && WorkOf(SelfGraph(), [0]) == [Work(0, 0, 1, Dependency("self.usda", "/", Sublayer))]
  {
    SelfGraphValid();
    SelfCollected();
    var deps := [(1, [Dependency("self.usda", "/", Sublayer)])];
    assert NodeWork(0, 0, deps) == PortWork(0, 0, 1, [Dependency("self.usda", "/", Sublayer)]) + NodeWork(0, 0, deps[1..]);
  }

  /** The one dependency of `node`, `w`, leads back to the node's own layer. */
  ghost predicate Reloads(d: Diagram, node: NodeId, resolve: Resolver, w: Work) {
    Valid(d) && node in d.data && WorkOf(d, [node]) == [w] &&
    (w.anchor, w.dep.assetPath) in resolve && AddNode(d, resolve[(w.anchor, w.dep.assetPath)]) == (d, node)
  }

  /**
   * As written, recursively expanding a node whose dependency leads back
   * to its own layer expands it again and again, whatever the recursion
   * limit, and fails with `RecursionError`, leaving the graph as it was.
   */
  lemma SelfDependentAsWritten(fuel: nat, d: Diagram, node: NodeId, resolve: Resolver, w: Work)
    requires Reloads(d, node, resolve, w)
    ensures ExpandAsWritten(fuel, d, [node], resolve, true) == (d, Err(RecursionLimit))
  {
    var k := 0;
    ExpandAgainFails(0, d, node, resolve, w);
    while k < fuel
      invariant k <= fuel && ExpandAsWritten(k, d, [node], resolve, true) == (d, Err(RecursionLimit))
    {
      k := k + 1;
      ExpandAgainFails(k, d, node, resolve, w);
    }
  }

  /**
   * Expanding a node whose one dependency loads the node again fails
   * when there is no fuel left or when expanding it with one less fails.
   */
  lemma ExpandAgainFails(fuel: nat, d: Diagram, node: NodeId, resolve: Resolver, w: Work)
    requires Reloads(d, node, resolve, w)
    requires fuel > 0 ==> ExpandAsWritten(fuel - 1, d, [node], resolve, true) == (d, Err(RecursionLimit))
    ensures ExpandAsWritten(fuel, d, [node], resolve, true) == (d, Err(RecursionLimit))
  {
    var key := (w.anchor, w.dep.assetPath);
    if fuel == 0 {
      LoadNoFuel(d, node, resolve, key);
    } else {
      LoadAgainFails(fuel, d, node, resolve, key);
    }
    assert StepsAsWritten(fuel, d, [w], [], {}, resolve, true) == (d, Err(RecursionLimit));
  }

  /** A node loaded again past the recursion limit fails with `RecursionError`. */
  lemma LoadNoFuel(d: Diagram, node: NodeId, resolve: Resolver, key: (nat, string))
    requires Valid(d) && key in resolve && node in d.data && AddNode(d, resolve[key]) == (d, node)
    ensures LoadAsWritten(0, d, key, resolve, true) == (d, node, Err(RecursionLimit))
  {
  }

  /** Loading a layer the graph has is its node, with the graph unchanged. */
  lemma ReloadedNode(d: Diagram, node: NodeId, layer: Layer)
    requires Valid(d) && node in d.data && layer.key == d.data[node].layer.key
    ensures AddNode(d, layer) == (d, node)
  {
  }

  /** A node loaded again, with fuel left, is expanded again. */
  lemma LoadAgain(fuel: nat, d: Diagram, node: NodeId, resolve: Resolver, key: (nat, string))
    requires fuel > 0 && Valid(d) && key in resolve && node in d.data && AddNode(d, resolve[key]) == (d, node)
    ensures LoadAsWritten(fuel, d, key, resolve, true) == (ExpandAsWritten(fuel - 1, d, [node], resolve, true).0, node, ExpandAsWritten(fuel - 1, d, [node], resolve, true).1)
  {
  }

  /** A node loaded again fails when expanding it again fails. */
  lemma LoadAgainFails(fuel: nat, d: Diagram, node: NodeId, resolve: Resolver, key: (nat, string))
    requires fuel > 0 && Valid(d) && key in resolve && node in d.data && AddNode(d, resolve[key]) == (d, node)
    requires ExpandAsWritten(fuel - 1, d, [node], resolve, true) == (d, Err(RecursionLimit))
    ensures LoadAsWritten(fuel, d, key, resolve, true) == (d, node, Err(RecursionLimit))
  {
    LoadAgain(fuel, d, node, resolve, key);
  }

  /** The self-dependent layer, loaded, fails that way. */
  lemma SelfDependencyAsWritten(fuel: nat)
    ensures Valid(SelfGraph()) && 0 in SelfGraph().data
    ensures ExpandAsWritten(fuel, SelfGraph(), [0], SelfResolver(), true) == (SelfGraph(), Err(RecursionLimit))
  {
    SelfGraphValid();
    SelfWork();
    SelfAddNode();
    SelfDependentAsWritten(fuel, SelfGraph(), 0, SelfResolver(), Work(0, 0, 1, Dependency("self.usda", "/", Sublayer)));
  }

  /** The layer the resolver finds is the one loaded as node 0. */
  lemma SelfAddNode()
    ensures SelfResolver()[(0, "self.usda")] == SelfLayer() && AddNode(SelfGraph(), SelfLayer()) == (SelfGraph(), 0)
  {
  }

  /** The layer's one dependency: its sublayer, from row 1 of node 0. */
  function SelfDependency(): Work {
    Work(0, 0, 1, Dependency("self.usda", "/", Sublayer))
  }

  /** Loading the layer again finds node 0 and does not expand it. */
  lemma SelfLoad()
    ensures Valid(SelfGraph())
    ensures Load(SelfGraph(), (0, "self.usda"), SelfResolver(), true) == (SelfGraph(), 0, Ok({}))
  {
    SelfGraphValid();
    SelfAddNode();
  }

  /** The dependency is the edge from the `subLayers` row to the layer's own row. */
  lemma SelfHandle()
    ensures Valid(SelfGraph()) && SelfDependency().key in SelfGraph().data
    ensures Handle(SelfGraph(), SelfDependency(), SelfResolver(), true) == (SelfGraph(), Ok(Some((Edge(0, 0, 1, 3, Sublayer), {0}))))
  {
    SelfLoad();
  }

  /** Following the work of node 0 finds that one edge. */
  lemma SelfSteps()
    ensures Valid(SelfGraph()) && WorkIn([SelfDependency()], SelfGraph().data.Keys)
    ensures Steps(SelfGraph(), [SelfDependency()], [], {}, SelfResolver(), true) == (SelfGraph(), Ok(([Edge(0, 0, 1, 3, Sublayer)], {0})))
  {
    SelfHandle();
    var g := SelfGraph();
    var e := Edge(0, 0, 1, 3, Sublayer);
    var none: seq<Edge>, noNodes: set<NodeId> := [], {};
    assert none + [e] == [e] && noNodes + {0} == {0};
    assert [SelfDependency()][1..] == [];
    assert EdgesJoinNodes([e], g.data.Keys);
    StepsNext(g, g, [SelfDependency()], none, noNodes, Some((e, {0})), SelfResolver(), true);
  }

  /**
   * With the recursion limited to new nodes, the same expansion ends with
   * one edge from the `subLayers` row to the layer's own row.
   */
  lemma SelfDependencyExpanded()
    ensures Valid(SelfGraph()) && 0 in SelfGraph().data
    ensures var r := Expand(SelfGraph(), [0], SelfResolver(), true);
      r.1 == Ok({0}) && r.0.edges == [Edge(0, 0, 1, 3, Sublayer)]
  {
    SelfWork();
    SelfSteps();
  }
}
