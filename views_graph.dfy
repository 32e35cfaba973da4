/**
 * The networkx graph widget of `grill.views._graph`: the conversion of
 * graphviz labels into the HTML its text items display, the side markers
 * of a node's plugs, and the neighbourhood of the selected nodes that
 * `GraphView.view` loads into the scene.
 */
module ViewsGraph {
  import opened Wrappers
  import opened Texts
  import NameSchema

  // ---------------------------------------------------------------------
  // Graphviz labels

  /** The attributes graphviz needs for rounded tables and the text items do not. */
  const RoundedTable := "table border=\"1\" cellspacing=\"2\" style=\"ROUNDED\""

  /** One `<tr>` of a converted record. */
  datatype Row = Row(port: string, text: string, bgcolor: string)

  /** Even rows are white, odd rows light blue. */
  function Shade(index: nat): (r: string)
    ensures r == "white" <==> index % 2 == 0
  {
    if index % 2 == 0 then "white" else "#f0f6ff"
  }

  function RowHtml(row: Row): string {
    "<tr><td port='" + row.port + "' bgcolor='" + row.bgcolor + "'>" + row.text + "</td></tr>"
  }

  function RowsHtml(rows: seq<Row>): string {
    if rows == [] then "" else RowsHtml(rows[..|rows| - 1]) + RowHtml(rows[|rows| - 1])
  }

  /**
   * `port, text = field.strip("<>").split(">", 1)`, or `None` for the
   * `ValueError` raised by a field that names no port.
   */
  function ParseField(field: string): (r: Option<(string, string)>)
    ensures r.None? <==> '>' !in Strip(field, {'<', '>'})
    ensures r.Some? ==> Strip(field, {'<', '>'}) == r.value.0 + ">" + r.value.1 && '>' !in r.value.0
  {
    SplitOnce(Strip(field, {'<', '>'}), '>')
  }

  /** The rows of a record's parsed fields, or `None` when a field names no port. */
  function Rows(cells: seq<Option<(string, string)>>): (r: Option<seq<Row>>)
    ensures r.Some? <==> forall i :: 0 <= i < |cells| ==> cells[i].Some?
    ensures r.Some? ==> |r.value| == |cells|
    ensures r.Some? ==> forall i :: 0 <= i < |cells| ==>
      cells[i] == Some((r.value[i].port, r.value[i].text)) && r.value[i].bgcolor == Shade(i)
  {
    if cells == [] then Some([])
    else
      var last := |cells| - 1;
      match Rows(cells[..last])
      case None => None
      case Some(rows) =>
        match cells[last]
        case None => None
        case Some(cell) => Some(rows + [Row(cell.0, cell.1, Shade(last))])
  }

  function Parsed(fields: seq<string>): (r: seq<Option<(string, string)>>)
    ensures |r| == |fields| && forall i :: 0 <= i < |fields| ==> r[i] == ParseField(fields[i])
  {
    seq(|fields|, i requires 0 <= i < |fields| => ParseField(fields[i]))
  }

  /** The fields of a record label: the text inside the braces, split at `|`. */
  function RecordFields(source: string): seq<string> {
    Split(Strip(source, {'{', '}'}), "|")
  }

  /** The table of a record's fields, or `None` when a field names no port. */
  function RecordHtml(fields: seq<string>): Option<string> {
    match Rows(Parsed(fields))
    case None => None
    case Some(rows) => Some("<table>" + RowsHtml(rows) + "</table>")
  }

  /**
   * `_convert_graphviz_to_html_label`: a record becomes a table with a row
   * per field, an HTML label loses one pair of angle brackets and its
   * rounded-table attributes, and any other label is kept.
   */
  function HtmlLabel(source: string): Option<string> {
    if StartsWith(source, "{") then RecordHtml(RecordFields(source))
    else if StartsWith(source, "<") then
      Some(Replace(RemoveSuffix(RemovePrefix(source, "<"), ">"), RoundedTable, "table"))
    else Some(source)
  }

  /** One more field: its row is appended, or the record fails. */
  lemma RowsStep(cells: seq<Option<(string, string)>>, index: nat, rows: seq<Row>)
    requires index < |cells| && Rows(cells[..index]) == Some(rows)
    ensures cells[index].None? ==> Rows(cells).None?
    ensures cells[index].Some? ==>
      var row := Row(cells[index].value.0, cells[index].value.1, Shade(index));
      Rows(cells[..index + 1]) == Some(rows + [row]) && RowsHtml(rows + [row]) == RowsHtml(rows) + RowHtml(row)
  {
    assert cells[..index + 1][..index] == cells[..index];
    if cells[index].Some? {
      var row := Row(cells[index].value.0, cells[index].value.1, Shade(index));
      assert (rows + [row])[..|rows|] == rows;
    }
  }

  lemma HtmlStep(html: string, rows: seq<Row>, row: Row)
    requires html == "<table>" + RowsHtml(rows)
    ensures html + RowHtml(row) == "<table>" + RowsHtml(rows + [row])
  {
    assert (rows + [row])[..|rows|] == rows;
  }

  /**
   * The table of a record, accumulated one row at a time; the first field
   * that names no port ends the conversion.
   */
  method ConvertRecord(fields: seq<string>) returns (r: Option<string>)
    ensures r == RecordHtml(fields)
  {
    var cells := Parsed(fields);
    var html := "<table>";
    ghost var rows: seq<Row> := [];
    var index := 0;
    while index < |fields|
      invariant index <= |fields|
      invariant Rows(cells[..index]) == Some(rows)
      invariant html == "<table>" + RowsHtml(rows)
    {
      var parts := cells[index];
      RowsStep(cells, index, rows);
      if parts.None? {
        return None;
      }
      var row := Row(parts.value.0, parts.value.1, Shade(index));
      HtmlStep(html, rows, row);
      html := html + RowHtml(row);
      rows := rows + [row];
      index := index + 1;
    }
    assert cells[..index] == cells;
    r := Some(html + "</table>");
  }

  /** The label conversion. */
  method ConvertLabel(source: string) returns (r: Option<string>)
    ensures r == HtmlLabel(source)
  {
    if StartsWith(source, "{") {
      r := ConvertRecord(RecordFields(source));
    } else if StartsWith(source, "<") {
      r := Some(Replace(RemoveSuffix(RemovePrefix(source, "<"), ">"), RoundedTable, "table"));
    } else {
      r := Some(source);
    }
  }

  /** A field of a record, `<port>text`, that the conversion reads back. */
  predicate CellOk(cell: (string, string)) {
    cell.0 != [] && cell.0[0] != '<' && '>' !in cell.0 && '|' !in cell.0 &&
    cell.1 != [] && cell.1[|cell.1| - 1] !in {'<', '>', '{', '}'} && '|' !in cell.1
  }

  function CellField(cell: (string, string)): string {
    ['<'] + cell.0 + ['>'] + cell.1
  }

  function CellFields(cells: seq<(string, string)>): seq<string> {
    seq(|cells|, i requires 0 <= i < |cells| => CellField(cells[i]))
  }

  /** The record label graphviz reads: `{<p0>t0|<p1>t1|...}`. */
  function RecordLabel(cells: seq<(string, string)>): string {
    ['{'] + NameSchema.Join("|", CellFields(cells)) + ['}']
  }

  /** The rows a table of these cells shows, in order and in alternating colours. */
  function TableRows(cells: seq<(string, string)>): seq<Row> {
    seq(|cells|, i requires 0 <= i < |cells| => Row(cells[i].0, cells[i].1, Shade(i)))
  }

  lemma CellRoundTrip(cell: (string, string))
    requires CellOk(cell)
    ensures ParseField(CellField(cell)) == Some(cell)
  {
    var x := cell.0 + ['>'] + cell.1;
    assert CellField(cell) == ['<'] + x;
    StripLeading('<', x, {'<', '>'});
    SplitOnceAt(cell.0, '>', cell.1);
  }

  /** The braces and bars of a record label give its fields back. */
  lemma RecordFieldsRoundTrip(cells: seq<(string, string)>)
    requires |cells| >= 1
    requires forall i :: 0 <= i < |cells| ==> CellOk(cells[i])
    ensures RecordFields(RecordLabel(cells)) == CellFields(cells)
  {
    var fields := CellFields(cells);
    assert forall i :: 0 <= i < |cells| ==> '|' !in fields[i] && fields[i][0] == '<';
    SplitJoin(fields, '|');
    var lastCell := cells[|cells| - 1];
    assert fields[|cells| - 1] == ['<'] + lastCell.0 + ['>'] + lastCell.1;
    assert fields[|cells| - 1][|fields[|cells| - 1]| - 1] == lastCell.1[|lastCell.1| - 1];
    JoinBounds(fields, "|");
    StripWrapped('{', NameSchema.Join("|", fields), '}', {'{', '}'});
    FieldsOfStripped(RecordLabel(cells), NameSchema.Join("|", fields), fields);
  }

  /** A label whose stripped text splits into some fields has those fields. */
  lemma FieldsOfStripped(w: string, body: string, xs: seq<string>)
    requires Strip(w, {'{', '}'}) == body && Split(body, "|") == xs
    ensures RecordFields(w) == xs
  {
  }

  /** Well-formed cells all parse, each into its own port and text. */
  lemma ParsedCells(cells: seq<(string, string)>)
    requires forall i :: 0 <= i < |cells| ==> CellOk(cells[i])
    ensures Rows(Parsed(CellFields(cells))) == Some(TableRows(cells))
  {
    var parsed := Parsed(CellFields(cells));
    forall i | 0 <= i < |cells|
      ensures parsed[i] == Some(cells[i])
    {
      CellRoundTrip(cells[i]);
    }
    var rows := Rows(parsed);
    assert rows.Some?;
    forall i | 0 <= i < |cells|
      ensures rows.value[i] == TableRows(cells)[i]
    {
      var rv := rows.value[i];
      assert parsed[i] == Some((rv.port, rv.text));
      assert rv == Row(rv.port, rv.text, rv.bgcolor);
    }
    assert rows.value == TableRows(cells);
  }

  /**
   * A record label built from well-formed cells converts into a table
   * whose rows carry those ports and texts in order, in alternating
   * colours.
   */
  lemma RecordLabelRoundTrip(cells: seq<(string, string)>)
    requires |cells| >= 1
    requires forall i :: 0 <= i < |cells| ==> CellOk(cells[i])
    ensures HtmlLabel(RecordLabel(cells)) == Some("<table>" + RowsHtml(TableRows(cells)) + "</table>")
  {
    var source := RecordLabel(cells);
    assert source[..1] == ['{'];
    assert HtmlLabel(source) == RecordHtml(RecordFields(source));
    RecordFieldsRoundTrip(cells);
    ParsedCells(cells);
  }

  /** The joined pieces begin with the first piece's first character and end with the last one's last. */
  lemma {:induction false} JoinBounds(xs: seq<string>, sep: string)
    requires |xs| >= 1 && forall i :: 0 <= i < |xs| ==> xs[i] != []
    ensures NameSchema.Join(sep, xs) != []
    ensures NameSchema.Join(sep, xs)[0] == xs[0][0]
    ensures NameSchema.Join(sep, xs)[|NameSchema.Join(sep, xs)| - 1] == xs[|xs| - 1][|xs[|xs| - 1]| - 1]
    decreases |xs|
  {
    if |xs| > 1 {
      JoinBounds(xs[1..], sep);
    }
  }

  /** A record with no fields names no port: `{}` raises. */
  lemma EmptyRecordRaises()
    ensures HtmlLabel("{}") == None
  {
    var braces := ['{', '}'];
    assert braces[1..] == ['}'] && braces[1..][1..] == [];
    assert LStrip(braces, {'{', '}'}) == [];
    assert Strip(braces, {'{', '}'}) == [];
    assert Split([], "|") == [""];
    assert RecordFields(braces) == [""];
    assert ParseField("") == None;
    assert "{}" == braces;
  }

  /** An HTML label loses exactly its outer pair of angle brackets. */
  lemma HtmlLabelUnwrapped(body: string)
    requires !Occurs(body, RoundedTable)
    ensures HtmlLabel("<" + body + ">") == Some(body)
  {
    var source := "<" + body + ">";
    assert source[..1] == "<";
    assert RemovePrefix(source, "<") == body + ">";
    assert (body + ">")[|body|..] == ">";
  }

  /** A label that is neither a record nor HTML is displayed as it is. */
  lemma PlainLabelKept(source: string)
    requires source == [] || source[0] !in {'{', '<'}
    ensures HtmlLabel(source) == Some(source)
  {
    if source != [] {
      assert source[..1] == [source[0]];
    }
  }

  // ---------------------------------------------------------------------
  // Plug markers of a node

  /** An edge item, identified. */
  type EdgeId = nat

  /**
   * One active plug of a node: the edges drawn to each of its two sides
   * (`False`/0 and `True`/1) and whether each side's marker is visible.
   */
  datatype PlugState = PlugState(edges0: set<EdgeId>, edges1: set<EdgeId>, shown0: bool, shown1: bool)
  {
    function Edges(side: bool): set<EdgeId> {
      if side then edges1 else edges0
    }

    function Shown(side: bool): bool {
      if side then shown1 else shown0
    }
  }

  /** The state of the plug after `edge` was drawn to `side` of it. */
  function PlugActivated(p: PlugState, edge: EdgeId, side: bool): (r: PlugState)
    ensures edge in r.Edges(side) && edge !in r.Edges(!side)
    ensures r.Edges(side) == p.Edges(side) + {edge}
    ensures r.Edges(!side) == p.Edges(!side) - {edge}
    ensures r.Shown(side)
    ensures r.Shown(!side) <==> p.Shown(!side) && r.Edges(!side) != {}
  {
    var mine := p.Edges(side) + {edge};
    var other := p.Edges(!side) - {edge};
    var otherShown := p.Shown(!side) && other != {};
    if side then PlugState(other, mine, otherShown, true)
    else PlugState(mine, other, true, otherShown)
  }

  /** `_activatePlug` on the plug states of a node; the centre (`None`) has no marker. */
  function Activated(plugs: map<nat, PlugState>, edge: EdgeId, plug: Option<nat>, side: bool): (r: map<nat, PlugState>)
    requires plug.Some? ==> plug.value in plugs
    ensures r.Keys == plugs.Keys
    ensures forall q :: q in plugs && plug != Some(q) ==> r[q] == plugs[q]
  {
    if plug.None? then plugs else plugs[plug.value := PlugActivated(plugs[plug.value], edge, side)]
  }

  /** No edge is drawn to both sides of a plug. */
  predicate Exclusive(plugs: map<nat, PlugState>) {
    forall q :: q in plugs ==> plugs[q].edges0 * plugs[q].edges1 == {}
  }

  /** A side with edges drawn to it shows its marker. */
  predicate MarkersShown(plugs: map<nat, PlugState>) {
    forall q, side :: q in plugs && plugs[q].Edges(side) != {} ==> plugs[q].Shown(side)
  }

  lemma ActivatedExclusive(plugs: map<nat, PlugState>, edge: EdgeId, plug: Option<nat>, side: bool)
    requires plug.Some? ==> plug.value in plugs
    requires Exclusive(plugs)
    ensures Exclusive(Activated(plugs, edge, plug, side))
  {
  }

  lemma ActivatedMarkersShown(plugs: map<nat, PlugState>, edge: EdgeId, plug: Option<nat>, side: bool)
    requires plug.Some? ==> plug.value in plugs
    requires MarkersShown(plugs)
    ensures MarkersShown(Activated(plugs, edge, plug, side))
  {
    var r := Activated(plugs, edge, plug, side);
    forall q, s | q in r && r[q].Edges(s) != {}
      ensures r[q].Shown(s)
    {
      if plug == Some(q) && s != side {
        assert r[q].Edges(s) <= plugs[q].Edges(s);
      }
    }
  }

  /** Drawing the same edge to the same side twice changes nothing the second time. */
  lemma ActivatedIdempotent(plugs: map<nat, PlugState>, edge: EdgeId, plug: Option<nat>, side: bool)
    requires plug.Some? ==> plug.value in plugs
    ensures Activated(Activated(plugs, edge, plug, side), edge, plug, side) == Activated(plugs, edge, plug, side)
  {
    if plug.Some? {
      var p := plugs[plug.value];
      var once := PlugActivated(p, edge, side);
      var twice := PlugActivated(once, edge, side);
      assert twice.Edges(side) == once.Edges(side) && twice.Edges(!side) == once.Edges(!side);
      assert twice == once;
    }
  }

  /** The drawing of a node, with a marker pair per active plug. */
  class PlugNode {
    var plugs: map<nat, PlugState>

    /**
     * A node whose `active_plugs` name plugs of `ports` (port name to
     * plug index); every marker starts without edges and visible.
     */
    constructor (ports: map<string, nat>, activePlugs: set<string>)
      requires activePlugs <= ports.Keys
      ensures plugs.Keys == set p | p in activePlugs :: ports[p]
      ensures forall q :: q in plugs ==> plugs[q] == PlugState({}, {}, true, true)
      ensures Exclusive(plugs) && MarkersShown(plugs)
    {
      plugs := map p | p in activePlugs :: ports[p] := PlugState({}, {}, true, true);
    }

    method ActivatePlug(edge: EdgeId, plug: Option<nat>, side: bool)
      requires plug.Some? ==> plug.value in plugs
      modifies this
      ensures plugs == Activated(old(plugs), edge, plug, side)
    {
      if plug.None? {
        return;
      }
      var state := plugs[plug.value];
      var mine := state.Edges(side) + {edge};
      var inactive := state.Edges(!side) - {edge};
      var otherShown := state.Shown(!side);
      if inactive == {} {
        otherShown := false;
      }
      if side {
        plugs := plugs[plug.value := PlugState(inactive, mine, otherShown, true)];
      } else {
        plugs := plugs[plug.value := PlugState(mine, inactive, true, otherShown)];
      }
    }
  }

  // ---------------------------------------------------------------------
  // GraphView

  type Node = int
  type Edge = (Node, Node)

  /** A directed graph: its nodes and its edges. */
  datatype Graph = Graph(nodes: set<Node>, edges: set<Edge>)

  predicate WellFormed(g: Graph) {
    forall e :: e in g.edges ==> e.0 in g.nodes && e.1 in g.nodes
  }

  function Successors(g: Graph, n: Node): set<Node> {
    set e | e in g.edges && e.0 == n :: e.1
  }

  function Predecessors(g: Graph, n: Node): set<Node> {
    set e | e in g.edges && e.1 == n :: e.0
  }

  /** Sticky, selected and adjacent nodes. */
  function OfInterest(g: Graph, sticky: seq<Node>, selected: seq<Node>): set<Node> {
    (set n | n in sticky) + (set n | n in selected) +
    (set e | e in g.edges && e.0 in selected :: e.1) +
    (set e | e in g.edges && e.1 in selected :: e.0)
  }

  /** `graph.subgraph(nodes)`: the nodes of the graph among them and the edges between those. */
  function Induced(g: Graph, nodes: set<Node>): (r: Graph)
    ensures WellFormed(r)
  {
    Graph(g.nodes * nodes, set e | e in g.edges && e.0 in nodes && e.1 in nodes && e.0 in g.nodes && e.1 in g.nodes)
  }

  /**
   * The edge filter `filter_edges` installs over a user predicate (the set
   * of edges it accepts): an edge passes when the predicate accepts it or
   * when one of its ends is sticky.
   */
  predicate EdgeKept(accepted: set<Edge>, sticky: seq<Node>, e: Edge) {
    e in accepted || e.0 in sticky || e.1 in sticky
  }

  /** `nx.subgraph_view` with the node and edge filters that are set. */
  function Filtered(g: Graph, filterNodes: Option<set<Node>>, filterEdges: Option<set<Edge>>, sticky: seq<Node>): (r: Graph)
    requires WellFormed(g)
    ensures WellFormed(r) && r.nodes <= g.nodes && r.edges <= g.edges
  {
    var nodes := if filterNodes.Some? then g.nodes * filterNodes.value else g.nodes;
    Graph(nodes, set e | e in g.edges && e.0 in nodes && e.1 in nodes &&
                         (filterEdges.None? || EdgeKept(filterEdges.value, sticky, e)))
  }

  /** The first selected node the graph does not hold, whose neighbours networkx cannot list. */
  function FirstMissing(selected: seq<Node>, nodes: set<Node>): (r: Option<Node>)
    ensures r.None? <==> forall i :: 0 <= i < |selected| ==> selected[i] in nodes
    ensures r.Some? ==> r.value in selected && r.value !in nodes
  {
    if selected == [] then None
    else if selected[0] !in nodes then Some(selected[0])
    else FirstMissing(selected[1..], nodes)
  }

  datatype GraphError = NodeNotInGraph(node: Node) | SenderNotFound(sender: Node)

  /** The graph `view(node_indices)` builds, or the error networkx raises. */
  function ViewOf(g: Graph, sticky: seq<Node>, selected: seq<Node>,
                  filterNodes: Option<set<Node>>, filterEdges: Option<set<Edge>>): (r: Result<Graph, GraphError>)
    requires WellFormed(g)
    ensures r.Err? <==> exists i :: 0 <= i < |selected| && selected[i] !in g.nodes
    ensures r.Err? ==> r.error.NodeNotInGraph? && r.error.node in selected && r.error.node !in g.nodes
    ensures r.Ok? ==> WellFormed(r.value) && r.value.nodes <= g.nodes && r.value.edges <= g.edges
  {
    match FirstMissing(selected, g.nodes)
    case Some(n) => Err(NodeNotInGraph(n))
    case None => Ok(Filtered(Induced(g, OfInterest(g, sticky, selected)), filterNodes, filterEdges, sticky))
  }

  /** A node that passes the node filter. */
  predicate NodeKept(filterNodes: Option<set<Node>>, n: Node) {
    filterNodes.None? || n in filterNodes.value
  }

  /**
   * The nodes of the view are exactly the graph's nodes that pass the node
   * filter and are sticky, selected or adjacent to a selected node.
   */
  lemma ViewNodes(g: Graph, sticky: seq<Node>, selected: seq<Node>,
                  filterNodes: Option<set<Node>>, filterEdges: Option<set<Edge>>, n: Node)
    requires WellFormed(g)
    requires ViewOf(g, sticky, selected, filterNodes, filterEdges).Ok?
    ensures n in ViewOf(g, sticky, selected, filterNodes, filterEdges).value.nodes <==>
      n in g.nodes && NodeKept(filterNodes, n) &&
      (n in sticky || n in selected || (exists m :: m in selected && (m, n) in g.edges) ||
       (exists m :: m in selected && (n, m) in g.edges))
  {
    var ns := OfInterest(g, sticky, selected);
    if exists m :: m in selected && (m, n) in g.edges {
      var m :| m in selected && (m, n) in g.edges;
      assert (m, n).1 in ns;
    }
    if exists m :: m in selected && (n, m) in g.edges {
      var m :| m in selected && (n, m) in g.edges;
      assert (n, m).0 in ns;
    }
  }

  /**
   * An edge of the graph between two shown nodes is shown exactly when the
   * edge filter keeps it: always when one of its ends is sticky.
   */
  lemma ViewEdges(g: Graph, sticky: seq<Node>, selected: seq<Node>,
                  filterNodes: Option<set<Node>>, filterEdges: Option<set<Edge>>, e: Edge)
    requires WellFormed(g)
    requires ViewOf(g, sticky, selected, filterNodes, filterEdges).Ok?
    ensures var v := ViewOf(g, sticky, selected, filterNodes, filterEdges).value;
      e in v.edges <==>
        e in g.edges && e.0 in v.nodes && e.1 in v.nodes &&
        (filterEdges.None? || e in filterEdges.value || e.0 in sticky || e.1 in sticky)
  {
  }

  /** The scene of a graph view and what it was asked to show. */
  class GraphView {
    var graph: Graph
    /** Set only through the constructor: the source never assigns another. */
    var filterNodes: Option<set<Node>>
    /** The user predicate the `filter_edges` wrapper was built over, as the set of edges it accepts. */
    var filterEdges: Option<set<Edge>>
    var sticky: seq<Node>
    var viewing: set<Node>
    /** The graph last loaded: its nodes are the keys of `_nodes_map`. */
    var scene: Graph

    constructor (graph: Graph)
      requires WellFormed(graph)
      ensures this.graph == graph && filterNodes.None? && filterEdges.None?
      ensures sticky == [] && viewing == {} && scene == Graph({}, {})
    {
      this.graph := graph;
      filterNodes := None;
      filterEdges := None;
      sticky := [];
      viewing := {};
      scene := Graph({}, {});
    }

    predicate Valid()
      reads this
    {
      WellFormed(graph) && WellFormed(scene)
    }

    /** `_load_graph`: an empty graph leaves the scene as it was. */
    method LoadGraph(g: Graph)
      requires WellFormed(g)
      modifies this
      ensures scene == (if g.nodes == {} then old(scene) else g)
      ensures graph == old(graph) && filterNodes == old(filterNodes) && filterEdges == old(filterEdges)
      ensures sticky == old(sticky) && viewing == old(viewing)
    {
      if g.nodes == {} {
        return;
      }
      scene := g;
    }

    /** The `graph` setter. */
    method SetGraph(g: Graph)
      requires WellFormed(g)
      modifies this
      ensures graph == g && scene == (if g.nodes == {} then old(scene) else g)
      ensures filterNodes == old(filterNodes) && filterEdges == old(filterEdges)
      ensures sticky == old(sticky) && viewing == old(viewing)
    {
      graph := g;
      LoadGraph(g);
    }

    /** The `filter_edges` setter: a predicate installs its wrapper, `None` removes the filter. */
    method SetFilterEdges(accepted: Option<set<Edge>>)
      modifies this
      ensures filterEdges == accepted
      ensures graph == old(graph) && scene == old(scene) && filterNodes == old(filterNodes)
      ensures sticky == old(sticky) && viewing == old(viewing)
    {
      filterEdges := accepted;
    }

    /** `view(node_indices)`: remembers the selection, then loads its neighbourhood. */
    method View(selected: seq<Node>) returns (r: Result<(), GraphError>)
      requires Valid()
      modifies this
      ensures Valid()
      ensures viewing == set n | n in selected
      ensures var v := ViewOf(old(graph), old(sticky), selected, old(filterNodes), old(filterEdges));
        r.Ok? == v.Ok? && (v.Err? ==> r == Err(v.error)) &&
        scene == (if v.Err? || v.value.nodes == {} then old(scene) else v.value)
      ensures graph == old(graph) && filterNodes == old(filterNodes) && filterEdges == old(filterEdges)
      ensures sticky == old(sticky)
    {
      viewing := set n | n in selected;
      var v := ViewOf(graph, sticky, selected, filterNodes, filterEdges);
      if v.Err? {
        return Err(v.error);
      }
      LoadGraph(v.value);
      r := Ok(());
    }

    /**
     * `_graph_url_changed`: a node item whose link was activated views its
     * node; a sender the scene does not hold raises `LookupError`.
     */
    method GraphUrlChanged(sender: Node) returns (r: Result<(), GraphError>)
      requires Valid()
      modifies this
      ensures Valid()
      ensures sender !in old(scene.nodes) ==> r == Err(SenderNotFound(sender)) && viewing == old(viewing) && scene == old(scene)
      ensures sender in old(scene.nodes) ==> viewing == {sender}
      ensures graph == old(graph) && sticky == old(sticky)
    {
      if sender !in scene.nodes {
        return Err(SenderNotFound(sender));
      }
      r := View([sender]);
    }
  }
}
