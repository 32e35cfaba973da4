/**
 * The rows of an asset-structure node: `_add_node_from_layer`'s
 * `item_collector`, called for every path of a layer, turns prim and
 * layer metadata into table rows with ports numbered by one shared
 * counter, and records the upstream dependencies found on the way.
 */
module DiagramItems {
  import opened Wrappers
  import opened Texts
  import NameSchema

  /** `_NodeLOD`: the levels of detail a node can be drawn at. */
  datatype Lod = Low | Mid | High

  /** A row's value: a text, or the span marker (`_TOTAL_SPAN`) of separators and the layer row. */
  datatype Cell = Text(text: string) | TotalSpan

  /** `_TableItem(lod, padding, port_index, key, value, attrs)`, without its colours. */
  datatype TableItem = TableItem(lod: Lod, padding: nat, port: nat, key: string, value: Cell)

  /** The arc that makes one layer depend on another; it chooses the edge colour. */
  datatype Arc = Sublayer | Reference | Payload

  /** An upstream dependency: `(asset_path, prim_path, colour)`. */
  datatype Dependency = Dependency(assetPath: string, specPath: string, arc: Arc)

  /**
   * A prim's metadata value, by the type the collector tests: a string,
   * a reference or payload list (its added or explicit `(asset path,
   * prim path)` items), a token, string or path list (its items and the
   * separator they are displayed with), a Python list (by its length),
   * or anything else, already rendered as the text the row shows.
   */
  datatype InfoValue =
    | Str(s: string)
    | Arcs(arc: Arc, arcs: seq<(string, string)>)
    | ListOp(items: seq<string>, separator: string)
    | Entries(count: nat)
    | Other(text: string)

  /**
   * The layer metadata on the pseudo-root: the sublayer paths, a list (by
   * its length), a value, or one whose lookup raises `TypeError`.
   */
  datatype RootInfo = SubLayers(paths: seq<string>) | Listed(count: nat) | RootValue(text: string) | Unreadable

  /**
   * One path `layer.Traverse` visits, as the collector distinguishes
   * them; `prefixes` is `len(path.GetPrefixes())`.
   */
  datatype Visit =
    | TargetPath
    | PropertyPath(prefixes: nat)
    | PrimPath(path: string, prefixes: nat, name: string, info: seq<(string, InfoValue)>)
    | RootPath(prefixes: nat, rootInfo: seq<(string, RootInfo)>)

  /** A layer: its identity, display name, default prim and the paths its traversal visits, in order. */
  datatype Layer = Layer(key: nat, displayName: string, defaultPrim: string, visits: seq<Visit>)

  /**
   * What the collector has gathered: the next counter value, the rows,
   * the dependencies by port in insertion order and the port of each spec
   * path.
   */
  datatype Collected = Collected(counter: nat, items: seq<TableItem>,
                                 dependencies: seq<(nat, seq<Dependency>)>, ports: map<string, nat>)

  const Start := Collected(0, [], [], map[])

  /** Metadata no row is made for. */
  predicate SkippedKey(key: string) {
    key == "comment" || key == "documentation"
  }

  /** Layer metadata no row is made for. */
  predicate RootSkippedKey(key: string) {
    key == "subLayerOffsets" || SkippedKey(key)
  }

  /** The row of a port that has upstream dependencies. */
  function DependencyCell(): Cell {
    Text("@...@")
  }

  /** `f"[{len(info_value)} entries]"`. */
  function EntriesText(count: nat): string {
    "[" + Decimal(count) + " entries]"
  }

  /** The text `str(value)` gives for a `typeName`. */
  function DisplayText(value: InfoValue): string {
    match value
    case Str(s) => s
    case Arcs(_, _) => ""
    case ListOp(items, separator) => NameSchema.Join(separator, items)
    case Entries(count) => EntriesText(count)
    case Other(text) => text
  }

  /** A row that takes the next port. */
  function NewItem(c: Collected, lod: Lod, padding: nat, key: string, value: Cell): Collected {
    c.(counter := c.counter + 1, items := c.items + [TableItem(lod, padding, c.counter, key, value)])
  }

  /** `_add_separator`. */
  function Separator(c: Collected): Collected {
    NewItem(c, Mid, 0, "", TotalSpan)
  }

  /** `upstream_dependencies.setdefault(port, []).append(...)` for each of `deps`. */
  function WithDependencies(c: Collected, port: nat, deps: seq<Dependency>): Collected {
    if deps == [] then c else c.(dependencies := c.dependencies + [(port, deps)])
  }

  /** The arcs with an asset path; an arc inside the layer adds no dependency. */
  function ArcDependencies(arcs: seq<(string, string)>, arc: Arc): (r: seq<Dependency>)
    ensures forall j :: 0 <= j < |r| ==> r[j].assetPath != [] && r[j].arc == arc
    ensures |r| <= |arcs|
  {
    if arcs == [] then []
    else
      var rest := ArcDependencies(arcs[..|arcs| - 1], arc);
      var (assetPath, primPath) := arcs[|arcs| - 1];
      if assetPath == [] then rest else rest + [Dependency(assetPath, primPath, arc)]
  }

  /** One metadata entry of a prim; the pair carries the collected rows and the `typeName` seen so far. */
  function InfoStep(c: Collected, typeName: string, padding: nat, key: string, value: InfoValue): (Collected, string) {
    if SkippedKey(key) then (c, typeName)
    else if key == "typeName" then (c, DisplayText(value))
    else if key == "specifier" then (c, typeName)
    else
      match value
      case Str(s) => (NewItem(c, High, padding, key, Text(s)), typeName)
      case Arcs(arc, arcs) =>
        (WithDependencies(NewItem(c, Mid, padding, key, DependencyCell()), c.counter, ArcDependencies(arcs, arc)), typeName)
      case ListOp(items, separator) =>
        if items == [] then (c, typeName)
        else (NewItem(c, High, padding, key, Text(NameSchema.Join(separator, items))), typeName)
      case Entries(count) => (NewItem(c, High, padding, key, Text(EntriesText(count))), typeName)
      case Other(text) => (NewItem(c, High, padding, key, Text(text)), typeName)
  }

  function InfoSteps(c: Collected, typeName: string, padding: nat, info: seq<(string, InfoValue)>): (Collected, string) {
    if info == [] then (c, typeName)
    else
      var (c1, t1) := InfoSteps(c, typeName, padding, info[..|info| - 1]);
      InfoStep(c1, t1, padding, info[|info| - 1].0, info[|info| - 1].1)
  }

  /** A prim: its port first, then a row per metadata entry, then its own row with its type name. */
  function PrimVisit(c: Collected, path: string, prefixes: nat, name: string, info: seq<(string, InfoValue)>): Collected {
    var index := c.counter;
    var (c2, typeName) := InfoSteps(c.(counter := index + 1, ports := c.ports[path := index]), " - ", prefixes, info);
    c2.(items := c2.items + [TableItem(Mid, prefixes, index, name, Text(typeName))])
  }

  /** One metadata entry of the layer. */
  function RootInfoStep(c: Collected, prefixes: nat, defaultPrim: string, key: string, value: RootInfo): Collected {
    if RootSkippedKey(key) then c
    else
      match value
      case SubLayers(paths) =>
        WithDependencies(NewItem(c, Mid, 0, key, DependencyCell()), c.counter,
                         seq(|paths|, i requires 0 <= i < |paths| => Dependency(paths[i], "/", Sublayer)))
      case Listed(count) => NewItem(c, High, prefixes, key, Text(EntriesText(count)))
      case RootValue(text) =>
        var c1 := NewItem(c, High, 0, key, Text(text));
        if key == "defaultPrim" then c1.(ports := c1.ports[defaultPrim := c.counter]) else c1
      case Unreadable => c
  }

  function RootInfoSteps(c: Collected, prefixes: nat, defaultPrim: string, info: seq<(string, RootInfo)>): Collected {
    if info == [] then c
    else RootInfoStep(RootInfoSteps(c, prefixes, defaultPrim, info[..|info| - 1]), prefixes, defaultPrim,
                      info[|info| - 1].0, info[|info| - 1].1)
  }

  /** Some layer metadata is shown. */
  predicate ShowsMetadata(info: seq<(string, RootInfo)>) {
    exists i :: 0 <= i < |info| && !RootSkippedKey(info[i].0)
  }

  /**
   * The pseudo-root: the layer metadata between two separators when
   * there is any to show, then the layer's own row, spanning the table.
   */
  function RootVisit(c: Collected, layer: Layer, prefixes: nat, info: seq<(string, RootInfo)>): Collected {
    var c1 := if ShowsMetadata(info) then Separator(RootInfoSteps(Separator(c), prefixes, layer.defaultPrim, info)) else c;
    var c2 := NewItem(c1, Low, 0, layer.displayName, TotalSpan);
    c2.(ports := c2.ports["/" := c1.counter])
  }

  /** `item_collector(path)`: target paths and property paths add no row. */
  function VisitStep(c: Collected, layer: Layer, visit: Visit): Collected {
    match visit
    case TargetPath => c
    case PropertyPath(_) => c
    case PrimPath(path, prefixes, name, info) => PrimVisit(c, path, prefixes, name, info)
    case RootPath(prefixes, info) => RootVisit(c, layer, prefixes, info)
  }

  function VisitSteps(c: Collected, layer: Layer, visits: seq<Visit>): Collected {
    if visits == [] then c else VisitStep(VisitSteps(c, layer, visits[..|visits| - 1]), layer, visits[|visits| - 1])
  }

  /** Everything the traversal of a layer collects. */
  function Collect(layer: Layer): Collected {
    VisitSteps(Start, layer, layer.visits)
  }

  // ---------------------------------------------------------------------
  // What the collection keeps true

  /** Some MID row has this port. */
  predicate MidPort(items: seq<TableItem>, port: nat) {
    exists i :: 0 <= i < |items| && items[i].port == port && items[i].lod == Mid
  }

  /** The ports of rows, in order. */
  function Ports(items: seq<TableItem>): (r: seq<nat>)
    ensures |r| == |items| && forall i :: 0 <= i < |items| ==> r[i] == items[i].port
  {
    seq(|items|, i requires 0 <= i < |items| => items[i].port)
  }

  /**
   * Every row has its own port below the counter, every spec path's port
   * is below it too, every port with dependencies is a MID row, LOW rows
   * span the table, and only sublayers can depend on an empty asset path.
   */
  predicate Numbered(c: Collected) {
    (forall i :: 0 <= i < |c.items| ==> c.items[i].port < c.counter) &&
    Distinct(Ports(c.items)) &&
    (forall p :: p in c.ports ==> c.ports[p] < c.counter) &&
    (forall j :: 0 <= j < |c.dependencies| ==> MidPort(c.items, c.dependencies[j].0)) &&
    (forall i :: 0 <= i < |c.items| ==> c.items[i].lod == Low ==> c.items[i].value == TotalSpan) &&
    (forall j, k :: 0 <= j < |c.dependencies| && 0 <= k < |c.dependencies[j].1| ==>
       c.dependencies[j].1[k].arc != Sublayer ==> c.dependencies[j].1[k].assetPath != [])
  }

  /** `c2` extends `c`: the same rows and dependencies first, the counter no lower. */
  predicate Extends(c: Collected, c2: Collected) {
    c.counter <= c2.counter && |c.items| <= |c2.items| && c2.items[..|c.items|] == c.items &&
    |c.dependencies| <= |c2.dependencies| && c2.dependencies[..|c.dependencies|] == c.dependencies &&
    (forall i :: |c.items| <= i < |c2.items| ==> c.counter <= c2.items[i].port < c2.counter)
  }

  lemma DistinctAppend(ports: seq<nat>, p: nat)
    requires Distinct(ports) && p !in ports
    ensures Distinct(ports + [p])
  {
  }

  lemma NewItemNumbered(c: Collected, lod: Lod, padding: nat, key: string, value: Cell)
    requires Numbered(c)
    requires lod == Low ==> value == TotalSpan
    ensures Numbered(NewItem(c, lod, padding, key, value)) && Extends(c, NewItem(c, lod, padding, key, value))
    ensures NewItem(c, lod, padding, key, value).counter == c.counter + 1
  {
    var c2 := NewItem(c, lod, padding, key, value);
    assert Ports(c2.items) == Ports(c.items) + [c.counter];
    DistinctAppend(Ports(c.items), c.counter);
    forall j | 0 <= j < |c2.dependencies|
      ensures MidPort(c2.items, c2.dependencies[j].0)
    {
      var i :| 0 <= i < |c.items| && c.items[i].port == c.dependencies[j].0 && c.items[i].lod == Mid;
      assert c2.items[i] == c.items[i];
    }
  }

  lemma DependenciesNumbered(c: Collected, deps: seq<Dependency>)
    requires Numbered(c) && |c.items| > 0
    requires c.items[|c.items| - 1].lod == Mid
    requires forall k :: 0 <= k < |deps| ==> deps[k].arc != Sublayer ==> deps[k].assetPath != []
    ensures Numbered(WithDependencies(c, c.items[|c.items| - 1].port, deps))
    ensures Extends(c, WithDependencies(c, c.items[|c.items| - 1].port, deps))
  {
    var port := c.items[|c.items| - 1].port;
    assert MidPort(c.items, port);
  }

  lemma ExtendsTrans(c: Collected, c2: Collected, c3: Collected)
    requires Extends(c, c2) && Extends(c2, c3)
    ensures Extends(c, c3)
  {
    assert c3.items[..|c.items|] == c3.items[..|c2.items|][..|c.items|];
    assert c3.dependencies[..|c.dependencies|] == c3.dependencies[..|c2.dependencies|][..|c.dependencies|];
  }

  lemma InfoStepNumbered(c: Collected, typeName: string, padding: nat, key: string, value: InfoValue)
    requires Numbered(c)
    ensures Numbered(InfoStep(c, typeName, padding, key, value).0)
    ensures Extends(c, InfoStep(c, typeName, padding, key, value).0)
  {
    if SkippedKey(key) || key == "typeName" || key == "specifier" {
    } else {
      match value
      case Str(s) => NewItemNumbered(c, High, padding, key, Text(s));
      case Arcs(arc, arcs) =>
        var c1 := NewItem(c, Mid, padding, key, DependencyCell());
        NewItemNumbered(c, Mid, padding, key, DependencyCell());
        DependenciesNumbered(c1, ArcDependencies(arcs, arc));
        ExtendsTrans(c, c1, WithDependencies(c1, c.counter, ArcDependencies(arcs, arc)));
      case ListOp(items, separator) =>
        if items != [] {
          NewItemNumbered(c, High, padding, key, Text(NameSchema.Join(separator, items)));
        }
      case Entries(count) => NewItemNumbered(c, High, padding, key, Text(EntriesText(count)));
      case Other(text) => NewItemNumbered(c, High, padding, key, Text(text));
    }
  }

  lemma {:induction false} InfoStepsNumbered(c: Collected, typeName: string, padding: nat, info: seq<(string, InfoValue)>)
    requires Numbered(c)
    ensures Numbered(InfoSteps(c, typeName, padding, info).0)
    ensures Extends(c, InfoSteps(c, typeName, padding, info).0)
  {
    if info != [] {
      var (c1, t1) := InfoSteps(c, typeName, padding, info[..|info| - 1]);
      InfoStepsNumbered(c, typeName, padding, info[..|info| - 1]);
      InfoStepNumbered(c1, t1, padding, info[|info| - 1].0, info[|info| - 1].1);
      ExtendsTrans(c, c1, InfoStep(c1, t1, padding, info[|info| - 1].0, info[|info| - 1].1).0);
    }
  }

  /** The prim's own row takes the port reserved before its metadata rows, which none of them reuses. */
  lemma PrimVisitNumbered(c: Collected, path: string, prefixes: nat, name: string, info: seq<(string, InfoValue)>)
    requires Numbered(c)
    ensures Numbered(PrimVisit(c, path, prefixes, name, info))
    ensures Extends(c, PrimVisit(c, path, prefixes, name, info))
  {
    var index := c.counter;
    var c1 := c.(counter := index + 1, ports := c.ports[path := index]);
    assert Numbered(c1);
    var (c2, typeName) := InfoSteps(c1, " - ", prefixes, info);
    InfoStepsNumbered(c1, " - ", prefixes, info);
    var c3 := c2.(items := c2.items + [TableItem(Mid, prefixes, index, name, Text(typeName))]);
    assert index !in Ports(c2.items) by {
      forall i | 0 <= i < |c2.items|
        ensures c2.items[i].port != index
      {
        if i < |c.items| {
          assert c2.items[i] == c.items[i];
        }
      }
    }
    assert Ports(c3.items) == Ports(c2.items) + [index];
    DistinctAppend(Ports(c2.items), index);
    forall j | 0 <= j < |c3.dependencies|
      ensures MidPort(c3.items, c3.dependencies[j].0)
    {
      var i :| 0 <= i < |c2.items| && c2.items[i].port == c2.dependencies[j].0 && c2.items[i].lod == Mid;
      assert c3.items[i] == c2.items[i];
    }
    assert c3.items[..|c.items|] == c2.items[..|c.items|];
  }

  lemma RootInfoStepNumbered(c: Collected, prefixes: nat, defaultPrim: string, key: string, value: RootInfo)
    requires Numbered(c)
    ensures Numbered(RootInfoStep(c, prefixes, defaultPrim, key, value))
    ensures Extends(c, RootInfoStep(c, prefixes, defaultPrim, key, value))
  {
    if !RootSkippedKey(key) {
      match value
      case SubLayers(paths) =>
        var deps := seq(|paths|, i requires 0 <= i < |paths| => Dependency(paths[i], "/", Sublayer));
        SubLayersStepNumbered(c, key, deps);
      case Listed(count) => NewItemNumbered(c, High, prefixes, key, Text(EntriesText(count)));
      case RootValue(text) => NewItemNumbered(c, High, 0, key, Text(text));
      case Unreadable =>
    }
  }

  /** The `subLayers` row, then its sublayers as dependencies on that row's port. */
  lemma SubLayersStepNumbered(c: Collected, key: string, deps: seq<Dependency>)
    requires Numbered(c)
    requires forall k :: 0 <= k < |deps| ==> deps[k].arc == Sublayer
    ensures Numbered(WithDependencies(NewItem(c, Mid, 0, key, DependencyCell()), c.counter, deps))
    ensures Extends(c, WithDependencies(NewItem(c, Mid, 0, key, DependencyCell()), c.counter, deps))
  {
    var c1 := NewItem(c, Mid, 0, key, DependencyCell());
    NewItemNumbered(c, Mid, 0, key, DependencyCell());
    DependenciesNumbered(c1, deps);
    ExtendsTrans(c, c1, WithDependencies(c1, c.counter, deps));
  }

  lemma {:induction false} RootInfoStepsNumbered(c: Collected, prefixes: nat, defaultPrim: string, info: seq<(string, RootInfo)>)
    requires Numbered(c)
    ensures Numbered(RootInfoSteps(c, prefixes, defaultPrim, info))
    ensures Extends(c, RootInfoSteps(c, prefixes, defaultPrim, info))
  {
    if info != [] {
      var c1 := RootInfoSteps(c, prefixes, defaultPrim, info[..|info| - 1]);
      RootInfoStepsNumbered(c, prefixes, defaultPrim, info[..|info| - 1]);
      RootInfoStepNumbered(c1, prefixes, defaultPrim, info[|info| - 1].0, info[|info| - 1].1);
      ExtendsTrans(c, c1, RootInfoSteps(c, prefixes, defaultPrim, info));
    }
  }

  lemma RootVisitNumbered(c: Collected, layer: Layer, prefixes: nat, info: seq<(string, RootInfo)>)
    requires Numbered(c)
    ensures Numbered(RootVisit(c, layer, prefixes, info))
    ensures Extends(c, RootVisit(c, layer, prefixes, info))
  {
    var c1 := c;
    if ShowsMetadata(info) {
      var s := Separator(c);
      NewItemNumbered(c, Mid, 0, "", TotalSpan);
      var r := RootInfoSteps(s, prefixes, layer.defaultPrim, info);
      RootInfoStepsNumbered(s, prefixes, layer.defaultPrim, info);
      ExtendsTrans(c, s, r);
      NewItemNumbered(r, Mid, 0, "", TotalSpan);
      ExtendsTrans(c, r, Separator(r));
      c1 := Separator(r);
    }
    NewItemNumbered(c1, Low, 0, layer.displayName, TotalSpan);
    ExtendsTrans(c, c1, NewItem(c1, Low, 0, layer.displayName, TotalSpan));
  }

  lemma VisitStepNumbered(c: Collected, layer: Layer, visit: Visit)
    requires Numbered(c)
    ensures Numbered(VisitStep(c, layer, visit)) && Extends(c, VisitStep(c, layer, visit))
  {
    match visit
    case TargetPath =>
    case PropertyPath(_) =>
    case PrimPath(path, prefixes, name, info) => PrimVisitNumbered(c, path, prefixes, name, info);
    case RootPath(prefixes, info) => RootVisitNumbered(c, layer, prefixes, info);
  }

  lemma {:induction false} VisitStepsNumbered(c: Collected, layer: Layer, visits: seq<Visit>)
    requires Numbered(c)
    ensures Numbered(VisitSteps(c, layer, visits)) && Extends(c, VisitSteps(c, layer, visits))
  {
    if visits != [] {
      var c1 := VisitSteps(c, layer, visits[..|visits| - 1]);
      VisitStepsNumbered(c, layer, visits[..|visits| - 1]);
      VisitStepNumbered(c1, layer, visits[|visits| - 1]);
      ExtendsTrans(c, c1, VisitSteps(c, layer, visits));
    }
  }

  /**
   * Every row of a layer has its own port, every port with dependencies
   * is a MID row, LOW rows span the table, and references and payloads
   * inside the layer (without an asset path) add no dependency.
   */
  lemma CollectNumbered(layer: Layer)
    ensures Numbered(Collect(layer))
  {
    assert Ports([]) == [];
    VisitStepsNumbered(Start, layer, layer.visits);
  }

  /** Comments and documentation make no row. */
  lemma SkippedKeysIgnored(c: Collected, typeName: string, padding: nat, value: InfoValue)
    ensures InfoStep(c, typeName, padding, "comment", value) == (c, typeName)
    ensures InfoStep(c, typeName, padding, "documentation", value) == (c, typeName)
  {
  }

  /** A reference or payload list whose arcs all stay inside the layer records no dependency. */
  lemma InternalArcsIgnored(c: Collected, typeName: string, padding: nat, key: string, arc: Arc, arcs: seq<(string, string)>)
    requires !SkippedKey(key) && key != "typeName" && key != "specifier"
    requires forall k :: 0 <= k < |arcs| ==> arcs[k].0 == []
    ensures InfoStep(c, typeName, padding, key, Arcs(arc, arcs)).0.dependencies == c.dependencies
  {
    assert ArcDependencies(arcs, arc) == [] by {
      var r := ArcDependencies(arcs, arc);
      if r != [] {
        ArcDependenciesFrom(arcs, arc, 0);
      }
    }
  }

  /** Each dependency an arc list yields is one of its arcs. */
  lemma {:induction false} ArcDependenciesFrom(arcs: seq<(string, string)>, arc: Arc, j: nat)
    requires j < |ArcDependencies(arcs, arc)|
    ensures exists k :: 0 <= k < |arcs| && arcs[k].0 == ArcDependencies(arcs, arc)[j].assetPath
  {
    var rest := ArcDependencies(arcs[..|arcs| - 1], arc);
    if j < |rest| {
      ArcDependenciesFrom(arcs[..|arcs| - 1], arc, j);
      var k :| 0 <= k < |arcs| - 1 && arcs[..|arcs| - 1][k].0 == rest[j].assetPath;
      assert arcs[k] == arcs[..|arcs| - 1][k];
    } else {
      assert arcs[|arcs| - 1].0 == ArcDependencies(arcs, arc)[j].assetPath;
    }
  }

  // ---------------------------------------------------------------------
  // The collector, one path at a time

  /** The metadata rows of a prim, one entry at a time. */
  method CollectInfo(c: Collected, padding: nat, info: seq<(string, InfoValue)>) returns (r: Collected, typeName: string)
    ensures (r, typeName) == InfoSteps(c, " - ", padding, info)
  {
    r, typeName := c, " - ";
    var i := 0;
    while i < |info|
      invariant i <= |info|
      invariant (r, typeName) == InfoSteps(c, " - ", padding, info[..i])
    {
      assert info[..i + 1][..i] == info[..i];
      var (key, value) := info[i];
      r, typeName := InfoStep(r, typeName, padding, key, value).0, InfoStep(r, typeName, padding, key, value).1;
      i := i + 1;
    }
    assert info[..i] == info;
  }

  /** The layer metadata rows, one entry at a time. */
  method CollectRootInfo(c: Collected, prefixes: nat, defaultPrim: string, info: seq<(string, RootInfo)>) returns (r: Collected)
    ensures r == RootInfoSteps(c, prefixes, defaultPrim, info)
  {
    r := c;
    var i := 0;
    while i < |info|
      invariant i <= |info|
      invariant r == RootInfoSteps(c, prefixes, defaultPrim, info[..i])
    {
      assert info[..i + 1][..i] == info[..i];
      r := RootInfoStep(r, prefixes, defaultPrim, info[i].0, info[i].1);
      i := i + 1;
    }
    assert info[..i] == info;
  }

  /** `item_collector(path)`. */
  method ItemCollector(c: Collected, layer: Layer, visit: Visit) returns (r: Collected)
    ensures r == VisitStep(c, layer, visit)
  {
    match visit
    case TargetPath => r := c;
    case PropertyPath(_) => r := c;
    case PrimPath(path, prefixes, name, info) =>
      var index := c.counter;
      var c2, typeName := CollectInfo(c.(counter := index + 1, ports := c.ports[path := index]), prefixes, info);
      r := c2.(items := c2.items + [TableItem(Mid, prefixes, index, name, Text(typeName))]);
    case RootPath(prefixes, info) =>
      r := c;
      if ShowsMetadata(info) {
        r := CollectRootInfo(Separator(r), prefixes, layer.defaultPrim, info);
        r := Separator(r);
      }
      var index := r.counter;
      r := NewItem(r, Low, 0, layer.displayName, TotalSpan);
      r := r.(ports := r.ports["/" := index]);
  }

  /** `layer.Traverse(layer.pseudoRoot.path, item_collector)` over the paths in traversal order. */
  method CollectLayer(layer: Layer) returns (r: Collected)
    ensures r == Collect(layer)
    ensures Numbered(r)
  {
    r := Start;
    var i := 0;
    while i < |layer.visits|
      invariant i <= |layer.visits|
      invariant r == VisitSteps(Start, layer, layer.visits[..i])
    {
      assert layer.visits[..i + 1][..i] == layer.visits[..i];
      r := ItemCollector(r, layer, layer.visits[i]);
      i := i + 1;
    }
    assert layer.visits[..i] == layer.visits;
    CollectNumbered(layer);
  }
}
