/**
 * The stage the authoring functions of `grill/cook/__init__.py` (and of its
 * predecessor `grill/write/__init__.py`) read and edit, reduced to what
 * they touch: the composed prims by path, each with its specifier,
 * references, payloads, the `grill` dictionary of identification fields
 * and taxa, and its model kind; the layer stack, strongest first, each
 * layer known by its identifier, the identifier fields its file name
 * parses to and its edit permission; and the asset stages of the
 * repository that `fetch_stage` opens or creates.
 *
 * Composition itself (how a reference or a sublayer contributes prims)
 * is not modelled: an edit is recorded on the composed prim it targets.
 */
module UsdStage {
  import opened Wrappers
  import opened Chars
  import opened UsdPaths
  import opened UsdAsset

  // ---------------------------------------------------------------------
  // Prims

  datatype Specifier = Def | Over | Class

  /** A reference: to a prim of the same stage, or to the default prim of an asset layer. */
  datatype Ref = InternalRef(path: SdfPath) | AssetRef(identifier: string, primPath: SdfPath)

  /**
   * The value stored under `grill:fields`: nothing, a mapping of field
   * names to values, or some other value, truthy or not.
   */
  datatype FieldsInfo = NoFields | FieldMap(fields: map<string, string>) | NotMapping(truthy: bool)

  datatype Prim = Prim(
    specifier: Specifier,
    references: seq<Ref>,
    payloads: seq<string>,
    fields: FieldsInfo,
    taxa: map<string, int>,
    kind: string)

  /** A prim spec just authored at a path that had none. */
  function NewPrim(specifier: Specifier): Prim {
    Prim(specifier, [], [], NoFields, map[], "")
  }

  /** The kinds of the model hierarchy: a prim with one of them is a model. */
  const ModelKinds: set<string> := {"model", "group", "assembly", "component"}

  /** `SdfPath.IsValidIdentifier(name)`: a letter or `_`, then letters, digits and `_`. */
  predicate IsPrimName(name: string) {
    && |name| > 0
    && (IsLetter(name[0]) || name[0] == '_')
    && forall i :: 0 <= i < |name| ==> IsWordChar(name[i])
  }

  /** `path.AppendChild(name)`. */
  function Child(path: SdfPath, name: string): (r: SdfPath)
    requires path.Abs?
    ensures r.Abs? && StrictlyBelow(r, path) && |r.elems| == |path.elems| + 1
  {
    Abs(path.elems + [name])
  }

  /** `prim.GetName()`: the last element of its path. */
  function NameOf(path: SdfPath): string {
    if path.Abs? && path.elems != [] then path.elems[|path.elems| - 1] else ""
  }

  /** `path.GetParentPath()`: the pseudo-root is its own parent here. */
  function Parent(path: SdfPath): (r: SdfPath)
    requires path.Abs?
    ensures r.Abs? && (path.elems != [] ==> |r.elems| == |path.elems| - 1)
  {
    if path.elems == [] then path else Abs(path.elems[..|path.elems| - 1])
  }

  /** The prim paths strictly above `path`, the pseudo-root excluded. */
  function Ancestors(path: SdfPath): set<SdfPath>
    requires path.Abs?
  {
    set i | 1 <= i < |path.elems| :: Abs(path.elems[..i])
  }

  lemma AncestorsExclude(path: SdfPath)
    requires path.Abs?
    ensures path !in Ancestors(path)
  {
  }

  /**
   * `stage.DefinePrim(path)` and `stage.CreateClassPrim(path)`: the prim
   * gets the specifier, keeping everything else it had; missing ancestors
   * are defined on the way.
   */
  function DefinePrimAt(prims: map<SdfPath, Prim>, path: SdfPath, specifier: Specifier): (r: map<SdfPath, Prim>)
    requires path.Abs?
    ensures path in r && r[path].specifier == specifier
    ensures path in prims ==> r[path] == prims[path].(specifier := specifier)
    ensures path !in prims ==> r[path] == NewPrim(specifier)
    ensures forall p :: p in prims && p != path ==> p in r && r[p] == prims[p]
    ensures forall p :: p in r ==> p in prims || p == path || p in Ancestors(path)
    ensures forall p :: p in Ancestors(path) ==> p in r
    ensures path in prims && (forall a :: a in Ancestors(path) ==> a in prims) ==> r == prims[path := prims[path].(specifier := specifier)]
  {
    AncestorsExclude(path);
    var added := map a | a in Ancestors(path) && a !in prims :: NewPrim(Def);
    assert (forall a :: a in Ancestors(path) ==> a in prims) ==> prims + added == prims;
    (prims + added)[path := if path in prims then prims[path].(specifier := specifier) else NewPrim(specifier)]
  }

  /** `stage.OverridePrim(path)`: an existing prim is left as it is; a missing one, and its missing ancestors, become `over`s. */
  function OverridePrimAt(prims: map<SdfPath, Prim>, path: SdfPath): (r: map<SdfPath, Prim>)
    requires path.Abs?
    ensures path in r
    ensures path !in prims ==> r[path] == NewPrim(Over)
    ensures forall p :: p in prims ==> p in r && r[p] == prims[p]
    ensures forall p :: p in r ==> p in prims || p == path || p in Ancestors(path)
  {
    AncestorsExclude(path);
    var added := map a | a in Ancestors(path) && a !in prims :: NewPrim(Over);
    if path in prims then prims + added else (prims + added)[path := NewPrim(Over)]
  }

  /** The kinds whose prims may hold models below them. */
  const GroupKinds: set<string> := {"group", "assembly"}

  /** A path whose every prim down from the pseudo-root is a group. */
  predicate IsGroup(prims: map<SdfPath, Prim>, path: SdfPath)
    requires path.Abs?
    decreases |path.elems|
  {
    path.elems == [] || (path in prims && prims[path].kind in GroupKinds && IsGroup(prims, Parent(path)))
  }

  /** `prim.IsModel()`: a model kind, under a contiguous hierarchy of groups. */
  predicate IsModel(prims: map<SdfPath, Prim>, path: SdfPath)
    requires path.Abs?
  {
    path in prims && prims[path].kind in ModelKinds && IsGroup(prims, Parent(path))
  }

  /** `Child` is undone by `NameOf`, and different names give different children. */
  lemma ChildName(path: SdfPath, a: string, b: string)
    requires path.Abs?
    ensures NameOf(Child(path, a)) == a
    ensures Child(path, a) == Child(path, b) ==> a == b
  {
    if Child(path, a) == Child(path, b) {
      assert Child(path, a).elems[|path.elems|] == a;
    }
  }

  /**
   * `AddInternalReference(path)` and `AddReference(...)`: the reference
   * joins the end of the list unless the list already holds it.
   */
  function AddRef(refs: seq<Ref>, r: Ref): seq<Ref> {
    if r in refs then refs else refs + [r]
  }

  /** The references of the prims given, added in order. */
  function AddInternalRefs(refs: seq<Ref>, paths: seq<SdfPath>): seq<Ref>
    decreases |paths|
  {
    if paths == [] then refs else AddInternalRefs(AddRef(refs, InternalRef(paths[0])), paths[1..])
  }

  /**
   * Adding references keeps the existing ones in front, lists every one
   * given, adds nothing else and never repeats one.
   */
  lemma {:induction false} AddInternalRefsFacts(refs: seq<Ref>, paths: seq<SdfPath>)
    ensures var r := AddInternalRefs(refs, paths);
      && |refs| <= |r| && r[..|refs|] == refs
      && (forall p :: p in paths ==> InternalRef(p) in r)
      && (forall x :: x in r ==> x in refs || (x.InternalRef? && x.path in paths))
      && (Distinct(refs) ==> Distinct(r))
    decreases |paths|
  {
    if paths != [] {
      var next := AddRef(refs, InternalRef(paths[0]));
      AddInternalRefsFacts(next, paths[1..]);
      var r := AddInternalRefs(refs, paths);
      assert r[..|next|][..|refs|] == r[..|refs|];
      assert next[..|refs|] == refs;
      forall p | p in paths
        ensures InternalRef(p) in r
      {
        if p != paths[0] {
          assert p in paths[1..];
        } else {
          assert InternalRef(p) in next;
          assert next == r[..|next|];
        }
      }
    }
  }

  /** Adding the same references again changes nothing. */
  lemma {:induction false} AddInternalRefsIdempotent(refs: seq<Ref>, paths: seq<SdfPath>, more: seq<SdfPath>)
    requires forall p :: p in more ==> InternalRef(p) in refs
    ensures AddInternalRefs(refs, more) == refs
    decreases |more|
  {
    if more != [] {
      assert more[0] in more;
      AddInternalRefsIdempotent(refs, paths, more[1..]);
    }
  }

  // ---------------------------------------------------------------------
  // Layers

  /** What the name of a layer's file parses to: nothing for an anonymous layer, a pipeline identifier, or a foreign name. */
  datatype LayerKind = Anonymous | Pipeline(fields: Fields) | Foreign

  datatype Layer = Layer(identifier: string, kind: LayerKind, permissionToEdit: bool)

  /** `UsdAsset(Path(layer.identifier).name)`: the identifier of an anonymous layer is not a pipeline name either. */
  function IdentifierValues(layer: Layer): Option<Fields> {
    if layer.kind.Pipeline? then Some(layer.kind.fields) else None
  }

  /**
   * `UsdAsset(Path(layer.realPath).name).values`: an anonymous layer's
   * real path is empty, which gives a name without values; a foreign
   * name raises `ValueError`.
   */
  function RealPathValues(layer: Layer): Option<Fields> {
    match layer.kind
    case Anonymous => Some(map[])
    case Pipeline(f) => Some(f)
    case Foreign => None
  }

  /** An identifier token: a member of the `CGAsset` enumeration, or a plain string key. */
  datatype Token = Member(name: string) | Key(name: string)

  /** A mapping's items, in insertion order. */
  type Items = seq<(Token, string)>

  /** The `(name, value)` pairs `_find_layer_matching` looks for. */
  function TokenPairs(tokens: Items): set<(string, string)> {
    set i | 0 <= i < |tokens| :: (tokens[i].0.name, tokens[i].1)
  }

  /** `not tokens.difference(values.items())`. */
  predicate Matches(pairs: set<(string, string)>, values: Fields) {
    forall p :: p in pairs ==> p.0 in values && values[p.0] == p.1
  }

  /** A layer whose real-path name holds every pair. */
  predicate LayerMatches(pairs: set<(string, string)>, layer: Layer) {
    RealPathValues(layer).Some? && Matches(pairs, RealPathValues(layer).value)
  }

  datatype LayerFailure = ForeignLayerName(identifier: string) | NothingMatches

  /**
   * `_find_layer_matching` as written: a layer whose real path is not a
   * pipeline name raises `ValueError` when it is parsed, before any later
   * layer is looked at.
   */
  function FindLayerMatchingAsWritten(pairs: set<(string, string)>, layers: seq<Layer>): (r: Result<nat, LayerFailure>)
    ensures r.Ok? ==> r.value < |layers| && LayerMatches(pairs, layers[r.value])
    decreases |layers|
  {
    if layers == [] then Err(NothingMatches)
    else if RealPathValues(layers[0]).None? then Err(ForeignLayerName(layers[0].identifier))
    else if Matches(pairs, RealPathValues(layers[0]).value) then Ok(0)
    else
      var r := FindLayerMatchingAsWritten(pairs, layers[1..]);
      if r.Ok? then Ok(r.value + 1) else r
  }

  /** `_find_layer_matching` as intended: the first matching layer, other layers skipped, `ValueError` when none matches. */
  function FindLayerMatching(pairs: set<(string, string)>, layers: seq<Layer>): (r: Option<nat>)
    ensures r.Some? ==> r.value < |layers| && LayerMatches(pairs, layers[r.value])
    ensures r.Some? ==> forall j :: 0 <= j < r.value ==> !LayerMatches(pairs, layers[j])
    ensures r.None? <==> forall j :: 0 <= j < |layers| ==> !LayerMatches(pairs, layers[j])
    decreases |layers|
  {
    if layers == [] then None
    else if LayerMatches(pairs, layers[0]) then Some(0)
    else
      var r := FindLayerMatching(pairs, layers[1..]);
      assert forall j :: 0 < j < |layers| ==> layers[j] == layers[1..][j - 1];
      if r.Some? then Some(r.value + 1) else None
  }

  /** A matching layer put where no layer matched is the one found. */
  lemma FindInserted(pairs: set<(string, string)>, layers: seq<Layer>, at: nat, l: Layer)
    requires FindLayerMatching(pairs, layers).None? && at <= |layers| && LayerMatches(pairs, l)
    ensures FindLayerMatching(pairs, layers[..at] + [l] + layers[at..]) == Some(at)
  {
    var t := layers[..at] + [l] + layers[at..];
    assert t[at] == l;
    forall j | 0 <= j < at
      ensures !LayerMatches(pairs, t[j])
    {
      assert t[j] == layers[j];
    }
  }

  /** Without foreign layer names both agree. */
  lemma {:induction false} FindLayerAgrees(pairs: set<(string, string)>, layers: seq<Layer>)
    requires forall j :: 0 <= j < |layers| ==> !layers[j].kind.Foreign?
    ensures FindLayerMatchingAsWritten(pairs, layers).Ok? <==> FindLayerMatching(pairs, layers).Some?
    ensures FindLayerMatching(pairs, layers).Some? ==> FindLayerMatchingAsWritten(pairs, layers).value == FindLayerMatching(pairs, layers).value
    decreases |layers|
  {
    if layers != [] {
      FindLayerAgrees(pairs, layers[1..]);
    }
  }

  /** The layers a taxonomy layer sits among in the example below. */
  const ShotLayer: Layer := Layer("shot.usda", Foreign, true)

  /**
   * A stage whose stack holds a non-pipeline layer before its taxonomy
   * layer: the search as written fails on the foreign name, the intended
   * one finds the taxonomy layer.
   */
  lemma ForeignLayerHidesMatch()
    ensures var taxonomy := Layer("taxonomy.usda", Pipeline(map["cluster" := "Taxonomy"]), true);
      var pairs := {("cluster", "Taxonomy")};
      && FindLayerMatchingAsWritten(pairs, [ShotLayer, taxonomy]) == Err(ForeignLayerName("shot.usda"))
      && FindLayerMatching(pairs, [ShotLayer, taxonomy]) == Some(1)
  {
    var taxonomy := Layer("taxonomy.usda", Pipeline(map["cluster" := "Taxonomy"]), true);
    var pairs := {("cluster", "Taxonomy")};
    assert [ShotLayer, taxonomy][1..] == [taxonomy];
    assert LayerMatches(pairs, taxonomy);
  }

  /** The search loop of `_find_layer_matching`, skipping the layers that do not match. */
  method FindLayer(pairs: set<(string, string)>, layers: seq<Layer>) returns (r: Option<nat>)
    ensures r == FindLayerMatching(pairs, layers)
  {
    var i := 0;
    while i < |layers|
      invariant 0 <= i <= |layers|
      invariant forall j :: 0 <= j < i ==> !LayerMatches(pairs, layers[j])
    {
      var values := RealPathValues(layers[i]);
      if values.Some? && Matches(pairs, values.value) {
        FindLayerFirst(pairs, layers, i);
        return Some(i);
      }
      i := i + 1;
    }
    return None;
  }

  /** The first matching layer is what `FindLayerMatching` names. */
  lemma FindLayerFirst(pairs: set<(string, string)>, layers: seq<Layer>, i: nat)
    requires i < |layers| && LayerMatches(pairs, layers[i])
    requires forall j :: 0 <= j < i ==> !LayerMatches(pairs, layers[j])
    ensures FindLayerMatching(pairs, layers) == Some(i)
  {
  }

  /** `_root_asset`: the first layer of the stack, the root layer first, whose identifier is a pipeline name. */
  function RootAsset(layers: seq<Layer>): (r: Option<nat>)
    ensures r.Some? ==> r.value < |layers| && IdentifierValues(layers[r.value]).Some?
    ensures r.Some? ==> forall j :: 0 <= j < r.value ==> IdentifierValues(layers[j]).None?
    ensures r.None? <==> forall j :: 0 <= j < |layers| ==> IdentifierValues(layers[j]).None?
    decreases |layers|
  {
    if layers == [] then None
    else if IdentifierValues(layers[0]).Some? then Some(0)
    else
      var r := RootAsset(layers[1..]);
      assert forall j :: 0 < j < |layers| ==> layers[j] == layers[1..][j - 1];
      if r.Some? then Some(r.value + 1) else None
  }

  // ---------------------------------------------------------------------
  // _layer_stack of a prim

  /** The elements of `s`, each at its first position only. */
  function Dedup<T(==)>(s: seq<T>): seq<T>
    decreases |s|
  {
    if s == [] then [] else
      var rest := Dedup(s[..|s| - 1]);
      if s[|s| - 1] in rest then rest else rest + [s[|s| - 1]]
  }

  /** Deduplication keeps every element once, in the order of first appearance. */
  lemma {:induction false} DedupFacts<T>(s: seq<T>)
    ensures Distinct(Dedup(s))
    ensures forall x :: x in Dedup(s) <==> x in s
    ensures Subseq(Dedup(s), s)
    decreases |s|
  {
    if s != [] {
      var init := s[..|s| - 1];
      DedupFacts(init);
      assert s == init + [s[|s| - 1]];
      forall x | x in s
        ensures x in Dedup(s)
      {
        if x != s[|s| - 1] {
          assert x in init;
        }
      }
      SubseqAppend(Dedup(init), init, s[|s| - 1]);
    }
  }

  /** Appending an element to the longer sequence keeps a subsequence, with or without it. */
  lemma {:induction false} SubseqAppend<T>(xs: seq<T>, ys: seq<T>, y: T)
    requires Subseq(xs, ys)
    ensures Subseq(xs, ys + [y]) && Subseq(xs + [y], ys + [y])
    decreases |ys|
  {
    if ys == [] {
      assert [y][1..] == [];
      assert xs == [];
      assert (xs + [y])[1..] == [];
    } else {
      assert (ys + [y])[1..] == ys[1..] + [y];
      if Subseq(xs, ys[1..]) {
        SubseqAppend(xs, ys[1..], y);
      } else {
        SubseqAppend(xs[1..], ys[1..], y);
        assert (xs + [y])[1..] == xs[1..] + [y];
      }
    }
  }

  /** A sequence without repetitions is its own deduplication. */
  lemma {:induction false} DedupDistinct<T>(s: seq<T>)
    requires Distinct(s)
    ensures Dedup(s) == s
    decreases |s|
  {
    if s != [] {
      var init := s[..|s| - 1];
      assert Distinct(init);
      DedupDistinct(init);
      assert s[|s| - 1] !in init;
      assert s == init + [s[|s| - 1]];
    }
  }

  /** `_layer_stack(prim)`: the layers of the prim's spec stack, each yielded once, remembered in `seen`. */
  method PrimLayerStack(specLayers: seq<string>) returns (r: seq<string>)
    ensures r == Dedup(specLayers)
  {
    r := [];
    var seen: set<string> := {};
    for i := 0 to |specLayers|
      invariant r == Dedup(specLayers[..i])
      invariant seen == set x | x in r
    {
      var layer := specLayers[i];
      assert specLayers[..i + 1][..i] == specLayers[..i];
      if layer in seen {
        continue;
      }
      seen := seen + {layer};
      r := r + [layer];
    }
    assert specLayers[..|specLayers|] == specLayers;
  }

  // ---------------------------------------------------------------------
  // The stage

  /**
   * The origin prim of an asset stage of the repository, as `create_many`
   * leaves it: its model asset name and identifier (empty when not set),
   * display label,
   * inherits and references, and its root layer's sublayers.
   */
  datatype Unit = Unit(
    assetName: string,
    assetIdentifier: string,
    displayLabel: Option<string>,
    inherits: seq<SdfPath>,
    references: seq<Ref>,
    sublayers: seq<string>)

  /** A stage's contents as a value. */
  datatype StageState = StageState(prims: map<SdfPath, Prim>, layers: seq<Layer>, repository: map<string, Unit>)

  class Stage {
    var prims: map<SdfPath, Prim>
    var layers: seq<Layer>
    /** The asset stages `fetch_stage` has created, by identifier. */
    var repository: map<string, Unit>

    constructor (prims: map<SdfPath, Prim>, layers: seq<Layer>)
      ensures this.prims == prims && this.layers == layers && repository == map[]
    {
      this.prims := prims;
      this.layers := layers;
      repository := map[];
    }

    function State(): StageState
      reads this
    {
      StageState(prims, layers, repository)
    }

    /** `layer.SetPermissionToEdit(allowed)` on the `i`-th layer of the stack. */
    method SetPermissionToEdit(i: nat, allowed: bool)
      requires i < |layers|
      modifies this
      ensures layers == old(layers)[i := old(layers)[i].(permissionToEdit := allowed)]
      ensures prims == old(prims) && repository == old(repository)
    {
      layers := layers[i := layers[i].(permissionToEdit := allowed)];
    }

    /** A sublayer entering the flattened stack at position `at`. */
    method InsertLayer(at: nat, layer: Layer)
      requires at <= |layers|
      modifies this
      ensures layers == old(layers)[..at] + [layer] + old(layers)[at..]
      ensures prims == old(prims) && repository == old(repository)
    {
      layers := layers[..at] + [layer] + layers[at..];
    }

    /** `DefinePrim` (`Def`) and `CreateClassPrim` (`Class`). */
    method DefinePrim(path: SdfPath, specifier: Specifier)
      requires path.Abs?
      modifies this
      ensures prims == DefinePrimAt(old(prims), path, specifier)
      ensures layers == old(layers) && repository == old(repository)
    {
      prims := DefinePrimAt(prims, path, specifier);
    }

    /** `OverridePrim`. */
    method OverridePrim(path: SdfPath)
      requires path.Abs?
      modifies this
      ensures prims == OverridePrimAt(old(prims), path)
      ensures layers == old(layers) && repository == old(repository)
    {
      prims := OverridePrimAt(prims, path);
    }

    /** An edit of the metadata or arcs of an existing prim. */
    method EditPrim(path: SdfPath, prim: Prim)
      requires path in prims
      modifies this
      ensures prims == old(prims)[path := prim]
      ensures layers == old(layers) && repository == old(repository)
    {
      prims := prims[path := prim];
    }

    /** The asset stage `fetch_stage` opens or creates, left with its origin prim as authored. */
    method SaveUnit(identifier: string, unit: Unit)
      modifies this
      ensures repository == old(repository)[identifier := unit]
      ensures prims == old(prims) && layers == old(layers)
    {
      repository := repository[identifier := unit];
    }
  }
}
