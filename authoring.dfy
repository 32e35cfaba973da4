/**
 * What `grill/cook/__init__.py` and `grill/write/__init__.py` share when
 * they author taxa and units: the reserved names and identification
 * fields, the validation of `define_taxon`'s arguments, the metadata a
 * taxon prim carries, and the creation of unit members in the catalogue
 * of a taxon (`create_many`'s inner `_create`).
 *
 * Both modules keep a `grill` dictionary on their prims (asset info in
 * `grill.cook`, custom data in `grill.write`) with the identification
 * `fields` and the `taxa` a prim belongs to; the model keeps both in the
 * prim's `fields` and `taxa`.
 */
module Authoring {
  import opened Wrappers
  import opened UsdPaths
  import opened UsdAsset
  import opened UsdStage

  /** `_TAXONOMY_NAME`: the root prim holding the taxa. */
  const TaxonomyName: string := "Taxonomy"
  /** `_TAXONOMY_UNIQUE_ID`: the field naming a taxon. */
  const TaxonomyKey: string := "cluster"
  /** `_UNIT_UNIQUE_ID`: the field naming a unit. */
  const UnitKey: string := "item"

  /** `_TAXONOMY_FIELDS`. */
  const TaxonomyFields: Fields := map[TaxonomyKey := TaxonomyName]

  /** `/Taxonomy`. */
  const TaxonomyRoot: SdfPath := Abs([TaxonomyName])
  /** `_UNIT_ORIGIN_PATH`. */
  const OriginPath: SdfPath := Abs(["Origin"])

  /** The errors the authoring functions raise. */
  datatype AuthoringError =
    | ReservedName               // ValueError: the taxon is named `Taxonomy`
    | ReservedIdFields           // ValueError: the taxonomy or unit field among the id fields
    | InvalidIdFieldKeys(keys: set<string>)  // ValueError: id fields that are no identifier field
    | NoGrillData                // ValueError: no `grill` data on the prim
    | MissingFields              // ValueError: missing or empty `fields`
    | FieldsNotMapping           // TypeError: `fields` is not a mapping
    | NoPipelineLayer            // ValueError: no layer of the stack has a pipeline name
    | NoLayerMatching            // ValueError: no layer of the stack matches the tokens
    | EmptyTokens                // ValueError: `_context` without tokens
    | InvalidIdentifier(values: Fields)  // ValueError: the values form no valid `UsdAsset`
    | InvalidPrimName(name: string)      // the name is not a valid prim name

  // ---------------------------------------------------------------------
  // define_taxon's validation

  /** The reserved identification fields, by `CGAsset` member or by name. */
  predicate Reserved(t: Token) {
    t.name == TaxonomyKey || t.name == UnitKey
  }

  /** Item `i` is the last one naming its field. */
  predicate LastOfName(items: Items, i: nat)
    requires i < |items|
  {
    forall j :: i < j < |items| ==> items[j].0.name != items[i].0.name
  }

  /** The field names of the items. */
  function Names(items: Items): set<string> {
    set i | 0 <= i < |items| :: items[i].0.name
  }

  /**
   * `{(token.name if member else token): value for token, value in items}`:
   * one entry per field name of the items.
   */
  function NormalisedFields(items: Items): (r: Fields)
    ensures r.Keys == Names(items)
    decreases |items|
  {
    if items == [] then map[] else
      var n := |items| - 1;
      assert Names(items) == Names(items[..n]) + {items[n].0.name} by {
        assert forall i :: 0 <= i < n ==> items[..n][i] == items[i];
      }
      NormalisedFields(items[..n])[items[n].0.name := items[n].1]
  }

  /** The last item naming a field gives its value. */
  lemma {:induction false} NormalisedLast(items: Items, i: nat)
    requires i < |items| && LastOfName(items, i)
    ensures NormalisedFields(items)[items[i].0.name] == items[i].1
    decreases |items|
  {
    var n := |items| - 1;
    if i < n {
      assert items[..n][i] == items[i];
      assert LastOfName(items[..n], i);
      NormalisedLast(items[..n], i);
    }
  }

  /** Whether every id field is one of the identifier's fields. */
  predicate KnownFields(items: Items) {
    forall i :: 0 <= i < |items| ==> items[i].0.name in AssetFields
  }

  /** The names of the items that are not identifier fields. */
  function UnknownFields(items: Items): (r: set<string>)
    ensures r == {} <==> KnownFields(items)
  {
    var r := set k | k in Names(items) && k !in AssetFields;
    assert r == {} ==> KnownFields(items) by {
      if r == {} {
        forall i | 0 <= i < |items|
          ensures items[i].0.name in AssetFields
        {
          var k := items[i].0.name;
          assert k in Names(items);
          assert k !in r;
        }
      }
    }
    r
  }

  /**
   * The checks of `define_taxon`, in their order: the reserved name, the
   * reserved id fields, the unknown id fields; on success, the fields the
   * taxon carries: one per id field and its own name as taxonomy field.
   */
  function ValidateTaxon(name: string, idFields: Items): (r: Result<Fields, AuthoringError>)
    ensures r == Err(ReservedName) <==> name == TaxonomyName
    ensures r == Err(ReservedIdFields) <==>
      name != TaxonomyName && exists i :: 0 <= i < |idFields| && Reserved(idFields[i].0)
    ensures r.Err? && r.error.InvalidIdFieldKeys? ==> r.error.keys == UnknownFields(idFields) != {}
    ensures r.Ok? <==> name != TaxonomyName && (forall i :: 0 <= i < |idFields| ==> !Reserved(idFields[i].0)) && KnownFields(idFields)
    ensures r.Ok? ==> r.value.Keys == Names(idFields) + {TaxonomyKey} && r.value[TaxonomyKey] == name
  {
    if name == TaxonomyName then Err(ReservedName)
    else if exists i :: 0 <= i < |idFields| && Reserved(idFields[i].0) then Err(ReservedIdFields)
    else
      var invalid := UnknownFields(idFields);
      if invalid != {} then Err(InvalidIdFieldKeys(invalid))
      else Ok(NormalisedFields(idFields)[TaxonomyKey := name])
  }

  /** A valid taxon carries, for every id field, the value of the last item naming it. */
  lemma TaxonFieldValues(name: string, idFields: Items, i: nat)
    requires ValidateTaxon(name, idFields).Ok? && i < |idFields| && LastOfName(idFields, i)
    ensures ValidateTaxon(name, idFields).value[idFields[i].0.name] == idFields[i].1
  {
    assert !Reserved(idFields[i].0);
    NormalisedLast(idFields, i);
  }

  // ---------------------------------------------------------------------
  // The taxon prim

  /**
   * The edits `define_taxon` makes on the prim it defines: the references
   * to the given taxa join its references, and its `grill` data becomes
   * the fields and the membership of its own taxon only.
   */
  function TaxonPrim(prim: Prim, references: seq<SdfPath>, fields: Fields, name: string): Prim {
    prim.(references := AddInternalRefs(prim.references, references),
          fields := FieldMap(fields),
          taxa := map[name := 0])
  }

  /**
   * A taxon prim keeps the prim's references in front, then references
   * each given taxon once, and carries exactly the given fields and the
   * membership of its own taxon.
   */
  lemma TaxonPrimFacts(prim: Prim, references: seq<SdfPath>, fields: Fields, name: string)
    ensures var t := TaxonPrim(prim, references, fields, name);
      && t.specifier == prim.specifier && t.kind == prim.kind && t.payloads == prim.payloads
      && |prim.references| <= |t.references| && t.references[..|prim.references|] == prim.references
      && (forall p :: p in references ==> InternalRef(p) in t.references)
      && (forall x :: x in t.references ==> x in prim.references || (x.InternalRef? && x.path in references))
      && (Distinct(prim.references) ==> Distinct(t.references))
      && t.fields == FieldMap(fields) && t.taxa == map[name := 0]
  {
    AddInternalRefsFacts(prim.references, references);
  }

  /** Making a taxon prim of a taxon prim, with the same arguments, changes nothing. */
  lemma TaxonPrimIdempotent(prim: Prim, references: seq<SdfPath>, fields: Fields, name: string)
    ensures TaxonPrim(TaxonPrim(prim, references, fields, name), references, fields, name) == TaxonPrim(prim, references, fields, name)
  {
    var t := TaxonPrim(prim, references, fields, name);
    TaxonPrimFacts(prim, references, fields, name);
    AddInternalRefsIdempotent(t.references, references, references);
  }

  // ---------------------------------------------------------------------
  // Edit contexts

  /** `_TAXONOMY_FIELDS` as the tokens `_context` is given. */
  const TaxonomyTokens: Items := [(Key(TaxonomyKey), TaxonomyName)]
  /** The pairs a taxonomy layer's name holds. */
  const TaxonomyPairs: set<(string, string)> := {(TaxonomyKey, TaxonomyName)}

  lemma TaxonomyTokenPairs()
    ensures TokenPairs(TaxonomyTokens) == TaxonomyPairs
  {
    assert TaxonomyTokens[0] == (Key(TaxonomyKey), TaxonomyName);
  }

  /**
   * `_context(stage, tokens)` of `grill.cook`: the position, in the layer
   * stack, of the layer its edits go to; `grill.write`'s has no check for
   * empty tokens.
   */
  function Context(tokens: Items, layers: seq<Layer>): (r: Result<nat, AuthoringError>)
    ensures r == Err(EmptyTokens) <==> tokens == []
    ensures tokens != [] ==> (r.Ok? <==> exists j :: 0 <= j < |layers| && LayerMatches(TokenPairs(tokens), layers[j]))
    ensures r.Ok? ==> r.value < |layers| && LayerMatches(TokenPairs(tokens), layers[r.value])
    ensures r.Ok? ==> forall j :: 0 <= j < r.value ==> !LayerMatches(TokenPairs(tokens), layers[j])
  {
    if tokens == [] then Err(EmptyTokens)
    else match FindLayerMatching(TokenPairs(tokens), layers)
      case None => Err(NoLayerMatching)
      case Some(i) => Ok(i)
  }

  /** Where `grill.cook` and `grill.write` differ in defining taxa: the specifier of `/Taxonomy` and of the taxa. */
  datatype Style = Style(taxonomyRoot: Specifier, taxon: Specifier)

  /** `grill.cook`: a class `/Taxonomy`, defined taxa. */
  const CookStyle: Style := Style(Class, Def)
  /** `grill.write`: a defined `/Taxonomy`, class taxa. */
  const WriteStyle: Style := Style(Def, Class)

  /** Where a new sublayer of the first pipeline layer lands in the flattened stack: at the end of the root layer's sublayers, or right after a sublayer. */
  function SublayerSlot(layers: seq<Layer>, root: nat): (at: nat)
    requires root < |layers|
    ensures root < at <= |layers|
  {
    if root == 0 then |layers| else root + 1
  }

  /**
   * `taxonomy_context(stage)`: the taxonomy layer of the stack; when
   * there is none, one named after the first pipeline layer, with the
   * taxonomy as cluster, is sublayered to it, bringing a `/Taxonomy` prim.
   */
  function TaxonomyContext(s: StageState, root: Specifier): (o: (StageState, Result<nat, AuthoringError>))
    ensures o.1.Ok? ==> o.1.value < |o.0.layers| && LayerMatches(TaxonomyPairs, o.0.layers[o.1.value])
    ensures o.1.Err? ==> o.0 == s
    ensures o.0.repository == s.repository
    ensures forall p :: p in s.prims ==> p in o.0.prims && o.0.prims[p] == s.prims[p]
    ensures forall p :: p in o.0.prims ==> p in s.prims || p == TaxonomyRoot
    ensures FindLayerMatching(TaxonomyPairs, s.layers).Some? ==> o == (s, Ok(FindLayerMatching(TaxonomyPairs, s.layers).value))
    ensures o.1 == Err(NoPipelineLayer) <==> FindLayerMatching(TaxonomyPairs, s.layers).None? && RootAsset(s.layers).None?
  {
    TaxonomyTokenPairs();
    match Context(TaxonomyTokens, s.layers)
    case Ok(i) => (s, Ok(i))
    case Err(_) =>
      match RootAsset(s.layers)
      case None => (s, Err(NoPipelineLayer))
      case Some(ri) =>
        match Get(IdentifierValues(s.layers[ri]).value, TaxonomyFields)
        case Err(e) => (s, Err(InvalidIdentifier(e.values)))
        case Ok(tf) =>
          var at := SublayerSlot(s.layers, ri);
          var layers := s.layers[..at] + [Layer(AssetText(tf), Pipeline(tf), true)] + s.layers[at..];
          assert Ancestors(TaxonomyRoot) == {};
          assert LayerMatches(TaxonomyPairs, layers[at]) by {
            assert TaxonomyKey in TaxonomyFields && TaxonomyKey in AssetKeys;
          }
          var prims := if TaxonomyRoot in s.prims then s.prims else DefinePrimAt(s.prims, TaxonomyRoot, root);
          (s.(prims := prims, layers := layers), Context(TaxonomyTokens, layers))
  }

  /**
   * Without a taxonomy layer, a first pipeline layer whose name takes the
   * taxonomy as cluster gets one: the context is found, right where the
   * new layer was put unless an earlier layer matches.
   */
  lemma TaxonomyContextAdds(s: StageState, root: Specifier)
    requires FindLayerMatching(TaxonomyPairs, s.layers).None? && RootAsset(s.layers).Some?
    requires Get(IdentifierValues(s.layers[RootAsset(s.layers).value]).value, TaxonomyFields).Ok?
    ensures var o := TaxonomyContext(s, root);
      && o.1.Ok?
      && |o.0.layers| == |s.layers| + 1
      && o.1.value == SublayerSlot(s.layers, RootAsset(s.layers).value)
      && TaxonomyRoot in o.0.prims
  {
    TaxonomyTokenPairs();
    var ri := RootAsset(s.layers).value;
    var tf := Get(IdentifierValues(s.layers[ri]).value, TaxonomyFields).value;
    var at := SublayerSlot(s.layers, ri);
    var layers := s.layers[..at] + [Layer(AssetText(tf), Pipeline(tf), true)] + s.layers[at..];
    assert TaxonomyKey in TaxonomyFields && TaxonomyKey in AssetKeys;
    FindInserted(TaxonomyPairs, s.layers, at, Layer(AssetText(tf), Pipeline(tf), true));
  }

  /** Once found or made, the taxonomy context is found again, with nothing changed. */
  lemma TaxonomyContextAgain(s: StageState, root: Specifier)
    requires TaxonomyContext(s, root).1.Ok?
    ensures var o := TaxonomyContext(s, root);
      TaxonomyContext(o.0, root) == (o.0, Ok(FindLayerMatching(TaxonomyPairs, o.0.layers).value))
  {
    var o := TaxonomyContext(s, root);
    assert LayerMatches(TaxonomyPairs, o.0.layers[o.1.value]);
  }

  /** The search of `taxonomy_context`, made on the stage. */
  method EnterTaxonomyContext(stage: Stage, root: Specifier) returns (r: Result<nat, AuthoringError>)
    modifies stage
    ensures (stage.State(), r) == TaxonomyContext(old(stage.State()), root)
  {
    TaxonomyTokenPairs();
    var found := FindLayer(TaxonomyPairs, stage.layers);
    if found.Some? {
      return Ok(found.value);
    }
    var ri := RootAsset(stage.layers);
    if ri.None? {
      return Err(NoPipelineLayer);
    }
    var taxonomy := Get(IdentifierValues(stage.layers[ri.value]).value, TaxonomyFields);
    if taxonomy.Err? {
      return Err(InvalidIdentifier(taxonomy.error.values));
    }
    var at := SublayerSlot(stage.layers, ri.value);
    stage.InsertLayer(at, Layer(AssetText(taxonomy.value), Pipeline(taxonomy.value), true));
    if TaxonomyRoot !in stage.prims {
      stage.DefinePrim(TaxonomyRoot, root);
    }
    var again := FindLayer(TaxonomyPairs, stage.layers);
    r := if again.Some? then Ok(again.value) else Err(NoLayerMatching);
  }

  // ---------------------------------------------------------------------
  // define_taxon

  /** The prims after defining a taxon prim at `path` and making it the taxon `name`. */
  function AuthoredTaxon(prims: map<SdfPath, Prim>, path: SdfPath, specifier: Specifier, references: seq<SdfPath>, fields: Fields, name: string): (r: map<SdfPath, Prim>)
    requires path.Abs?
    ensures path in r
  {
    var defined := DefinePrimAt(prims, path, specifier);
    defined[path := TaxonPrim(defined[path], references, fields, name)]
  }

  /**
   * `define_taxon(stage, name, references, id_fields)`: after validation,
   * in the taxonomy context, the prim `/Taxonomy/<name>` is defined, given
   * the references and carries the taxon's fields and membership.
   */
  function DefineTaxonSpec(s: StageState, style: Style, name: string, references: seq<SdfPath>, idFields: Items): (o: (StageState, Result<SdfPath, AuthoringError>))
    ensures ValidateTaxon(name, idFields).Err? ==> o == (s, Err(ValidateTaxon(name, idFields).error))
    ensures o.1.Ok? ==> IsPrimName(name) && o.1.value == Child(TaxonomyRoot, name) && o.1.value in o.0.prims
  {
    match ValidateTaxon(name, idFields)
    case Err(e) => (s, Err(e))
    case Ok(fields) =>
      var ctx := TaxonomyContext(s, style.taxonomyRoot);
      if ctx.1.Err? then (ctx.0, Err(ctx.1.error))
      else if !IsPrimName(name) then (ctx.0, Err(InvalidPrimName(name)))
      else
        var path := Child(TaxonomyRoot, name);
        (ctx.0.(prims := AuthoredTaxon(ctx.0.prims, path, style.taxon, references, fields, name)), Ok(path))
  }

  /**
   * A defined taxon carries the validated fields, its own name as taxonomy
   * field and the membership of its own taxon only; it references every
   * given taxon; and the stage holds a taxonomy layer.
   */
  lemma DefineTaxonFacts(s: StageState, style: Style, name: string, references: seq<SdfPath>, idFields: Items)
    requires DefineTaxonSpec(s, style, name, references, idFields).1.Ok?
    ensures var o := DefineTaxonSpec(s, style, name, references, idFields);
      var t := o.0.prims[o.1.value];
      && t.specifier == style.taxon
      && t.fields == FieldMap(ValidateTaxon(name, idFields).value)
      && t.fields.fields[TaxonomyKey] == name
      && t.taxa == map[name := 0]
      && (forall p :: p in references ==> InternalRef(p) in t.references)
      && FindLayerMatching(TaxonomyPairs, o.0.layers).Some?
  {
    var o := DefineTaxonSpec(s, style, name, references, idFields);
    var ctx := TaxonomyContext(s, style.taxonomyRoot);
    var prims := DefinePrimAt(ctx.0.prims, o.1.value, style.taxon);
    TaxonPrimFacts(prims[o.1.value], references, ValidateTaxon(name, idFields).value, name);
    assert LayerMatches(TaxonomyPairs, o.0.layers[ctx.1.value]);
  }

  /** Defining the same taxon again returns the same prim and leaves the stage as it is. */
  lemma DefineTaxonAgain(s: StageState, style: Style, name: string, references: seq<SdfPath>, idFields: Items)
    requires DefineTaxonSpec(s, style, name, references, idFields).1.Ok?
    ensures var o := DefineTaxonSpec(s, style, name, references, idFields);
      DefineTaxonSpec(o.0, style, name, references, idFields) == o
  {
    var o := DefineTaxonSpec(s, style, name, references, idFields);
    var fields := ValidateTaxon(name, idFields).value;
    var ctx := TaxonomyContext(s, style.taxonomyRoot);
    var path := o.1.value;
    var prims := DefinePrimAt(ctx.0.prims, path, style.taxon);
    assert LayerMatches(TaxonomyPairs, o.0.layers[ctx.1.value]);
    var again := TaxonomyContext(o.0, style.taxonomyRoot);
    assert again.0 == o.0 && again.1.Ok?;
    assert forall a :: a in Ancestors(path) ==> a in o.0.prims;
    assert o.0.prims[path].specifier == style.taxon;
    assert DefinePrimAt(o.0.prims, path, style.taxon) == o.0.prims;
    TaxonPrimIdempotent(prims[path], references, fields, name);
  }

  /** The edits of `define_taxon` on its prim: defined, then the references added one by one, then the `grill` data set. */
  method AuthorTaxon(stage: Stage, path: SdfPath, specifier: Specifier, references: seq<SdfPath>, fields: Fields, name: string)
    requires path.Abs?
    modifies stage
    ensures stage.prims == AuthoredTaxon(old(stage.prims), path, specifier, references, fields, name)
    ensures stage.layers == old(stage.layers) && stage.repository == old(stage.repository)
  {
    stage.DefinePrim(path, specifier);
    ghost var defined := stage.prims;
    var prim := stage.prims[path];
    for i := 0 to |references|
      invariant stage.prims == defined[path := prim] && prim == defined[path].(references := prim.references)
      invariant AddInternalRefs(prim.references, references[i..]) == AddInternalRefs(defined[path].references, references)
      invariant stage.layers == old(stage.layers) && stage.repository == old(stage.repository)
    {
      assert references[i..][1..] == references[i + 1..];
      prim := prim.(references := AddRef(prim.references, InternalRef(references[i])));
      stage.EditPrim(path, prim);
    }
    stage.EditPrim(path, prim.(fields := FieldMap(fields), taxa := map[name := 0]));
  }

  /** `define_taxon`, made on the stage. */
  method DefineTaxon(stage: Stage, style: Style, name: string, references: seq<SdfPath>, idFields: Items)
    returns (r: Result<SdfPath, AuthoringError>)
    modifies stage
    ensures (stage.State(), r) == DefineTaxonSpec(old(stage.State()), style, name, references, idFields)
  {
    var valid := ValidateTaxon(name, idFields);
    if valid.Err? {
      return Err(valid.error);
    }
    var ctx := EnterTaxonomyContext(stage, style.taxonomyRoot);
    if ctx.Err? {
      return Err(ctx.error);
    }
    if !IsPrimName(name) {
      return Err(InvalidPrimName(name));
    }
    var path := Child(TaxonomyRoot, name);
    AuthorTaxon(stage, path, style.taxon, references, valid.value, name);
    return Ok(path);
  }

  // ---------------------------------------------------------------------
  // Taxa membership

  /** A taxon given by name or by prim. */
  datatype TaxonArg = ByName(name: string) | ByPrim(path: SdfPath)

  /** `i if isinstance(i, str) else i.GetName()`. */
  function ArgName(t: TaxonArg): string {
    match t
    case ByName(n) => n
    case ByPrim(p) => NameOf(p)
  }

  /** The names of the requested taxa. */
  function TaxaNames(taxon: TaxonArg, more: seq<TaxonArg>): (r: set<string>)
    ensures ArgName(taxon) in r && forall i :: 0 <= i < |more| ==> ArgName(more[i]) in r
    ensures forall n :: n in r ==> n == ArgName(taxon) || exists i :: 0 <= i < |more| && ArgName(more[i]) == n
  {
    {ArgName(taxon)} + set i | 0 <= i < |more| :: ArgName(more[i])
  }

  /** The prim belongs to one of the named taxa: they meet the taxa of its `grill` data. */
  predicate InTaxa(prim: Prim, names: set<string>) {
    prim.taxa.Keys * names != {}
  }

  // ---------------------------------------------------------------------
  // Units

  /** What a new unit is given: the `grill.cook` and the `grill.write` way. */
  datatype Recipe =
    | CookUnit(taxonPath: SdfPath, catalogueId: string, taxonomyId: string)
    | WriteUnit(taxonPath: SdfPath, taxonomyId: string)

  /** `zip(names, itertools.chain(labels, itertools.repeat("")))`: the label of the `i`-th name. */
  function LabelAt(labels: seq<string>, i: nat): string {
    if i < |labels| then labels[i] else ""
  }

  /** The label attribute is only set for a non-empty label. */
  function DisplayLabel(text: string): Option<string> {
    if text == "" then None else Some(text)
  }

  /**
   * The origin prim of a new unit's asset stage.  `grill.cook` names the
   * model after the unit, records its identifier, makes it inherit the
   * taxon and sublayers the catalogue and taxonomy layers; `grill.write`
   * makes it reference the taxon in the taxonomy layer.
   */
  function UnitOrigin(recipe: Recipe, name: string, assetId: string, text: string): Unit {
    match recipe
    case CookUnit(taxon, catalogueId, taxonomyId) =>
      Unit(name, assetId, DisplayLabel(text), [taxon], [], [catalogueId, taxonomyId])
    case WriteUnit(taxon, taxonomyId) =>
      Unit("", "", DisplayLabel(text), [], [AssetRef(taxonomyId, taxon)], [])
  }

  /** The catalogue entry of a new unit: an `over` that references (`grill.cook`) or payloads (`grill.write`) the unit's asset. */
  function CatalogueEntry(recipe: Recipe, assetId: string): Prim {
    match recipe
    case CookUnit(_, _, _) => NewPrim(Over).(references := [AssetRef(assetId, EmptyPath)])
    case WriteUnit(_, _) => NewPrim(Over).(payloads := [assetId])
  }

  /**
   * `_create(name, label)` under the scope of a taxon: an existing prim
   * at the unit's path is returned as it is; otherwise the unit's asset,
   * named by the taxon's identifier with the unit as item, is created in
   * the repository and an entry for it is added to the stage.
   */
  function CreateUnit(s: StageState, scope: SdfPath, newAsset: Fields, recipe: Recipe, name: string, text: string): (o: (StageState, Result<SdfPath, AuthoringError>))
    requires scope.Abs?
    ensures o.1.Ok? ==> IsPrimName(name) && o.1.value == Child(scope, name) && o.1.value in o.0.prims
    ensures AssetOk(newAsset) && IsPrimName(name) ==> o.1.Ok?
    ensures o.1.Err? ==> o.0 == s
    ensures IsPrimName(name) && Child(scope, name) in s.prims ==> o == (s, Ok(Child(scope, name)))
    ensures o.0.layers == s.layers
    ensures forall p :: p in s.prims ==> p in o.0.prims && o.0.prims[p] == s.prims[p]
  {
    if !IsPrimName(name) then (s, Err(InvalidPrimName(name)))
    else
      var path := Child(scope, name);
      if path in s.prims then (s, Ok(path))
      else
        assert AssetOk(newAsset) ==> Get(newAsset, map[UnitKey := name]).Ok? by {
          if AssetOk(newAsset) {
            UnitAssetOk(newAsset, name);
          }
        }
        match Get(newAsset, map[UnitKey := name])
        case Err(e) => (s, Err(InvalidIdentifier(e.values)))
        case Ok(f) =>
          var id := AssetText(f);
          var prims := OverridePrimAt(s.prims, path)[path := CatalogueEntry(recipe, id)];
          (s.(repository := s.repository[id := UnitOrigin(recipe, name, id, text)], prims := prims), Ok(path))
  }

  /** `[_create(name, label) for name, label in zip(names, labels)]`, stopping at the first error. */
  function CreateUnits(s: StageState, scope: SdfPath, newAsset: Fields, recipe: Recipe, names: seq<string>, labels: seq<string>): (o: (StageState, Result<seq<SdfPath>, AuthoringError>))
    requires scope.Abs?
    decreases |names|
  {
    if names == [] then (s, Ok([]))
    else
      var n := |names| - 1;
      var before := CreateUnits(s, scope, newAsset, recipe, names[..n], labels);
      if before.1.Err? then (before.0, Err(before.1.error))
      else
        var last := CreateUnit(before.0, scope, newAsset, recipe, names[n], LabelAt(labels, n));
        if last.1.Err? then (last.0, Err(last.1.error)) else (last.0, Ok(before.1.value + [last.1.value]))
  }

  /** A prim name is a `\w+` value, so it never spoils a valid identifier as its item. */
  lemma UnitAssetOk(newAsset: Fields, name: string)
    requires AssetOk(newAsset) && IsPrimName(name)
    ensures Get(newAsset, map[UnitKey := name]).Ok?
  {
    assert AssetFields[6] == UnitKey;
    GetFieldsOk(newAsset, map[UnitKey := name]);
  }

  /** Creating units never changes a prim that was there, nor the layer stack. */
  lemma {:induction false} CreateUnitsKeep(s: StageState, scope: SdfPath, newAsset: Fields, recipe: Recipe, names: seq<string>, labels: seq<string>)
    requires scope.Abs?
    ensures var o := CreateUnits(s, scope, newAsset, recipe, names, labels);
      && o.0.layers == s.layers
      && (forall p :: p in s.prims ==> p in o.0.prims && o.0.prims[p] == s.prims[p])
    decreases |names|
  {
    if names != [] {
      CreateUnitsKeep(s, scope, newAsset, recipe, names[..|names| - 1], labels);
    }
  }

  /** Every name is a valid prim name. */
  predicate AllPrimNames(names: seq<string>) {
    forall i :: 0 <= i < |names| ==> IsPrimName(names[i])
  }

  /** A name that is not a valid prim name makes the creation fail. */
  lemma {:induction false} CreateUnitsFail(s: StageState, scope: SdfPath, newAsset: Fields, recipe: Recipe, names: seq<string>, labels: seq<string>)
    requires scope.Abs?
    ensures CreateUnits(s, scope, newAsset, recipe, names, labels).1.Ok? ==> AllPrimNames(names)
    decreases |names|
  {
    if names != [] {
      var n := |names| - 1;
      CreateUnitsFail(s, scope, newAsset, recipe, names[..n], labels);
      assert forall i :: 0 <= i < n ==> names[..n][i] == names[i];
    }
  }

  /** With a valid identifier for the taxon, valid prim names are always created. */
  lemma {:induction false} CreateUnitsOk(s: StageState, scope: SdfPath, newAsset: Fields, recipe: Recipe, names: seq<string>, labels: seq<string>)
    requires scope.Abs? && AssetOk(newAsset) && AllPrimNames(names)
    ensures CreateUnits(s, scope, newAsset, recipe, names, labels).1.Ok?
    decreases |names|
  {
    if names != [] {
      var n := |names| - 1;
      assert AllPrimNames(names[..n]) by {
        assert forall i :: 0 <= i < n ==> names[..n][i] == names[i];
      }
      CreateUnitsOk(s, scope, newAsset, recipe, names[..n], labels);
      var before := CreateUnits(s, scope, newAsset, recipe, names[..n], labels);
      assert IsPrimName(names[n]);
      var last := CreateUnit(before.0, scope, newAsset, recipe, names[n], LabelAt(labels, n));
      assert last.1.Ok?;
    }
  }

  /** The paths of the named units under the scope. */
  function UnitPaths(scope: SdfPath, names: seq<string>): (r: seq<SdfPath>)
    requires scope.Abs?
    ensures |r| == |names| && forall i :: 0 <= i < |names| ==> r[i] == Child(scope, names[i])
  {
    seq(|names|, i requires 0 <= i < |names| => Child(scope, names[i]))
  }

  lemma UnitPathsSnoc(scope: SdfPath, names: seq<string>)
    requires scope.Abs? && names != []
    ensures UnitPaths(scope, names) == UnitPaths(scope, names[..|names| - 1]) + [Child(scope, names[|names| - 1])]
  {
    var n := |names| - 1;
    assert forall i :: 0 <= i < n ==> names[..n][i] == names[i];
  }

  /** Creating units returns the units' paths under the scope, one per name, in order. */
  lemma {:induction false} CreateUnitsPaths(s: StageState, scope: SdfPath, newAsset: Fields, recipe: Recipe, names: seq<string>, labels: seq<string>)
    requires scope.Abs?
    ensures var o := CreateUnits(s, scope, newAsset, recipe, names, labels);
      o.1.Ok? ==> o.1.value == UnitPaths(scope, names)
    decreases |names|
  {
    if names != [] {
      CreateUnitsPaths(s, scope, newAsset, recipe, names[..|names| - 1], labels);
      UnitPathsSnoc(scope, names);
    }
  }

  /** After creating units, every unit's path is a prim of the stage. */
  lemma {:induction false} CreateUnitsPresent(s: StageState, scope: SdfPath, newAsset: Fields, recipe: Recipe, names: seq<string>, labels: seq<string>)
    requires scope.Abs?
    requires CreateUnits(s, scope, newAsset, recipe, names, labels).1.Ok?
    ensures forall p :: p in UnitPaths(scope, names) ==> p in CreateUnits(s, scope, newAsset, recipe, names, labels).0.prims
    decreases |names|
  {
    if names != [] {
      var n := |names| - 1;
      CreateUnitsPresent(s, scope, newAsset, recipe, names[..n], labels);
      UnitPathsSnoc(scope, names);
    }
  }

  /** Once a name fails, creating the names after it changes nothing more. */
  lemma {:induction false} CreateUnitsStop(s: StageState, scope: SdfPath, newAsset: Fields, recipe: Recipe, names: seq<string>, labels: seq<string>, k: nat)
    requires scope.Abs? && k <= |names|
    requires CreateUnits(s, scope, newAsset, recipe, names[..k], labels).1.Err?
    ensures CreateUnits(s, scope, newAsset, recipe, names, labels) == CreateUnits(s, scope, newAsset, recipe, names[..k], labels)
    decreases |names|
  {
    if k < |names| {
      var n := |names| - 1;
      assert names[..n][..k] == names[..k];
      CreateUnitsStop(s, scope, newAsset, recipe, names[..n], labels, k);
    } else {
      assert names[..k] == names;
    }
  }

  /** When every unit is already there, creating them again returns their paths and changes nothing. */
  lemma {:induction false} CreateUnitsAgain(s: StageState, scope: SdfPath, newAsset: Fields, recipe: Recipe, names: seq<string>, labels: seq<string>)
    requires scope.Abs?
    requires forall i :: 0 <= i < |names| ==> IsPrimName(names[i]) && Child(scope, names[i]) in s.prims
    ensures CreateUnits(s, scope, newAsset, recipe, names, labels) == (s, Ok(UnitPaths(scope, names)))
    decreases |names|
  {
    if names != [] {
      var n := |names| - 1;
      assert forall i :: 0 <= i < n ==> names[..n][i] == names[i];
      CreateUnitsAgain(s, scope, newAsset, recipe, names[..n], labels);
      UnitPathsSnoc(scope, names);
    }
  }

  /** A new unit's asset carries the label given for it, when there is one. */
  lemma NewUnitLabel(s: StageState, scope: SdfPath, newAsset: Fields, recipe: Recipe, name: string, text: string)
    requires scope.Abs? && AssetOk(newAsset) && IsPrimName(name) && Child(scope, name) !in s.prims
    ensures var o := CreateUnit(s, scope, newAsset, recipe, name, text);
      var id := AssetText(Get(newAsset, map[UnitKey := name]).value);
      && o.1.Ok?
      && id in o.0.repository
      && o.0.repository[id].displayLabel == (if text == "" then None else Some(text))
      && (recipe.CookUnit? ==> o.0.repository[id].assetName == name && o.0.repository[id].inherits == [recipe.taxonPath])
  {
    UnitAssetOk(newAsset, name);
  }

  /** `layer.SetPermissionToEdit(allowed)` on the `i`-th layer of the stack. */
  function WithPermission(layers: seq<Layer>, i: nat, allowed: bool): (r: seq<Layer>)
    requires i < |layers|
    ensures |r| == |layers| && r[i].permissionToEdit == allowed
    ensures r[i].identifier == layers[i].identifier && r[i].kind == layers[i].kind
    ensures forall j :: 0 <= j < |layers| && j != i ==> r[j] == layers[j]
  {
    layers[i := layers[i].(permissionToEdit := allowed)]
  }

  /** Opening a layer for edits and then setting back the permission it had leaves the stack as it was. */
  lemma PermissionRestored(layers: seq<Layer>, i: nat, allowed: bool)
    requires i < |layers|
    ensures WithPermission(WithPermission(layers, i, allowed), i, layers[i].permissionToEdit) == layers
  {
    var r := WithPermission(WithPermission(layers, i, allowed), i, layers[i].permissionToEdit);
    assert r[i] == layers[i];
  }

  /**
   * The scope collecting the units of a taxon: defined when there is no
   * prim at its path, and given the `assembly` kind when it is not a model.
   */
  function UnitScope(prims: map<SdfPath, Prim>, scope: SdfPath): (r: map<SdfPath, Prim>)
    requires scope.Abs?
    ensures scope in r && r[scope].kind in ModelKinds
    ensures scope in prims ==> r[scope] == prims[scope] || r[scope] == prims[scope].(kind := "assembly")
    ensures forall p :: p in prims && p != scope ==> p in r && r[p] == prims[p]
    ensures forall p :: p in r ==> p in prims || p == scope || p in Ancestors(scope)
  {
    var defined := if scope in prims then prims else DefinePrimAt(prims, scope, Def);
    if IsModel(defined, scope) then defined else defined[scope := defined[scope].(kind := "assembly")]
  }

  /** Once made, the unit scope is left as it is. */
  lemma UnitScopeAgain(prims: map<SdfPath, Prim>, scope: SdfPath)
    requires scope.Abs?
    ensures UnitScope(UnitScope(prims, scope), scope) == UnitScope(prims, scope)
  {
    var defined := if scope in prims then prims else DefinePrimAt(prims, scope, Def);
    var r := UnitScope(prims, scope);
    if !IsModel(r, scope) {
      assert r[scope].kind == "assembly";
      assert r[scope := r[scope].(kind := "assembly")] == r;
    }
  }

  /** The scope step of `create_many`, made on the stage. */
  method MakeUnitScope(stage: Stage, scope: SdfPath)
    requires scope.Abs?
    modifies stage
    ensures stage.prims == UnitScope(old(stage.prims), scope)
    ensures stage.layers == old(stage.layers) && stage.repository == old(stage.repository)
  {
    if scope !in stage.prims {
      stage.DefinePrim(scope, Def);
    }
    if !IsModel(stage.prims, scope) {
      stage.EditPrim(scope, stage.prims[scope].(kind := "assembly"));
    }
  }

  /** The units loop of `create_many`. */
  method CreateUnitsLoop(stage: Stage, scope: SdfPath, newAsset: Fields, recipe: Recipe, names: seq<string>, labels: seq<string>)
    returns (r: Result<seq<SdfPath>, AuthoringError>)
    requires scope.Abs?
    modifies stage
    ensures (stage.State(), r) == CreateUnits(old(stage.State()), scope, newAsset, recipe, names, labels)
  {
    ghost var s0 := stage.State();
    var paths: seq<SdfPath> := [];
    for i := 0 to |names|
      invariant (stage.State(), Ok(paths)) == CreateUnits(s0, scope, newAsset, recipe, names[..i], labels)
    {
      var name := names[i];
      var text := if i < |labels| then labels[i] else "";
      assert names[..i + 1][..i] == names[..i] && names[..i + 1][i] == name;
      assert text == LabelAt(labels, i);
      if !IsPrimName(name) {
        r := Err(InvalidPrimName(name));
        CreateUnitsStop(s0, scope, newAsset, recipe, names, labels, i + 1);
        return;
      }
      var path := Child(scope, name);
      if path !in stage.prims {
        var asset := Get(newAsset, map[UnitKey := name]);
        if asset.Err? {
          r := Err(InvalidIdentifier(asset.error.values));
          CreateUnitsStop(s0, scope, newAsset, recipe, names, labels, i + 1);
          return;
        }
        var id := AssetText(asset.value);
        stage.SaveUnit(id, UnitOrigin(recipe, name, id, text));
        stage.OverridePrim(path);
        stage.EditPrim(path, CatalogueEntry(recipe, id));
      }
      paths := paths + [path];
    }
    assert names[..|names|] == names;
    return Ok(paths);
  }
}
