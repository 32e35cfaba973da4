/**
 * What is `grill/cook/__init__.py`'s own: the catalogue of units, the id
 * fields and taxon name read back from a prim's asset info, `itaxa`, and
 * `create_many` / `create`.  `define_taxon`, `taxonomy_context` and the
 * units loop they share with `grill/write/__init__.py` are in `Authoring`;
 * `grill.cook` defines its taxa with `CookStyle`.
 */
module Cook {
  import opened Wrappers
  import opened UsdPaths
  import opened UsdAsset
  import opened UsdStage
  import opened Authoring

  /** `_CATALOGUE_NAME`: the root prim holding the units. */
  const CatalogueName: string := "Catalogue"
  /** `_CATALOGUE_ID`: the field naming the catalogue. */
  const CatalogueKey: string := "kingdom"
  /** `_CATALOGUE_FIELDS`. */
  const CatalogueFields: Fields := map[CatalogueKey := CatalogueName]
  /** The pairs a catalogue layer's name holds. */
  const CataloguePairs: set<(string, string)> := {(CatalogueKey, CatalogueName)}
  /** `/Catalogue`. */
  const CatalogueRoot: SdfPath := Abs([CatalogueName])

  // ---------------------------------------------------------------------
  // Reading a prim's asset info

  /**
   * `_get_id_fields(prim)`: the mapping under `grill:fields`; `ValueError`
   * when it is missing or empty (any falsy value), `TypeError` when it is
   * a truthy value that is not a mapping.
   */
  function GetIdFields(prim: Prim): (r: Result<Fields, AuthoringError>)
    ensures r.Ok? <==> prim.fields.FieldMap? && prim.fields.fields != map[]
    ensures r.Ok? ==> r.value == prim.fields.fields
    ensures r == Err(FieldsNotMapping) <==> prim.fields == NotMapping(true)
    ensures r.Err? ==> r.error == MissingFields || r.error == FieldsNotMapping
  {
    match prim.fields
    case NoFields => Err(MissingFields)
    case FieldMap(f) => if f == map[] then Err(MissingFields) else Ok(f)
    case NotMapping(truthy) => if truthy then Err(FieldsNotMapping) else Err(MissingFields)
  }

  /** `taxon_name(prim)`: the taxonomy field under `grill:fields`, or `""` without one. */
  function TaxonName(prim: Prim): (r: string)
    ensures r != "" ==> GetIdFields(prim).Ok? && TaxonomyKey in GetIdFields(prim).value && GetIdFields(prim).value[TaxonomyKey] == r
    ensures prim.fields.FieldMap? && TaxonomyKey in prim.fields.fields ==> r == prim.fields.fields[TaxonomyKey]
    ensures !(prim.fields.FieldMap? && TaxonomyKey in prim.fields.fields) ==> r == ""
  {
    if prim.fields.FieldMap? && TaxonomyKey in prim.fields.fields then prim.fields.fields[TaxonomyKey] else ""
  }

  /**
   * A taxon defined by `define_taxon` reads back: its id fields are the
   * validated fields, its taxon name is its own name, and it is a member
   * of its own taxon.
   */
  lemma DefinedTaxonReadsBack(s: StageState, name: string, references: seq<SdfPath>, idFields: Items)
    requires DefineTaxonSpec(s, CookStyle, name, references, idFields).1.Ok?
    ensures var o := DefineTaxonSpec(s, CookStyle, name, references, idFields);
      var taxon := o.0.prims[o.1.value];
      && GetIdFields(taxon) == Ok(ValidateTaxon(name, idFields).value)
      && TaxonName(taxon) == name
      && InTaxa(taxon, {name})
  {
    DefineTaxonFacts(s, CookStyle, name, references, idFields);
    var o := DefineTaxonSpec(s, CookStyle, name, references, idFields);
    var taxon := o.0.prims[o.1.value];
    assert name in taxon.taxa.Keys * {name};
  }

  // ---------------------------------------------------------------------
  // itaxa

  /** The prims of `range`, in order, that belong to one of the named taxa. */
  function Members(prims: map<SdfPath, Prim>, range: seq<SdfPath>, names: set<string>): (r: seq<SdfPath>)
    requires forall p :: p in range ==> p in prims
    ensures Subseq(r, range)
    ensures forall p :: p in r <==> p in range && InTaxa(prims[p], names)
    decreases |range|
  {
    if range == [] then []
    else
      var rest := Members(prims, range[1..], names);
      assert forall p :: p in range <==> p == range[0] || p in range[1..];
      if InTaxa(prims[range[0]], names) then
        assert ([range[0]] + rest)[1..] == rest;
        [range[0]] + rest
      else rest
  }

  /** `itaxa(prims, taxon, *taxa)`: the given prims that belong to any of the taxa. */
  function ITaxa(prims: map<SdfPath, Prim>, range: seq<SdfPath>, taxon: TaxonArg, more: seq<TaxonArg>): (r: seq<SdfPath>)
    requires forall p :: p in range ==> p in prims
    ensures Subseq(r, range)
    ensures forall p :: p in r <==> p in range && InTaxa(prims[p], TaxaNames(taxon, more))
  {
    Members(prims, range, TaxaNames(taxon, more))
  }

  // ---------------------------------------------------------------------
  // create_many

  /**
   * What `create_many` settles before it edits: the identifier of the new
   * units, the taxonomy layer's identifier, the layer stack (with the
   * catalogue layer brought in when missing) and the catalogue's position.
   */
  datatype Plan = Plan(newAsset: Fields, taxonomyId: string, layers: seq<Layer>, catalogue: nat)

  /**
   * The first lookups of `create_many`: the taxon's id fields, the first
   * pipeline layer, and the identifier of the new units (the pipeline
   * layer's name with the taxon's fields).
   */
  function UnitsAsset(s: StageState, taxonPath: SdfPath): (r: Result<(nat, Fields), AuthoringError>)
    requires taxonPath in s.prims
    ensures GetIdFields(s.prims[taxonPath]).Err? ==> r == Err(GetIdFields(s.prims[taxonPath]).error)
    ensures GetIdFields(s.prims[taxonPath]).Ok? && RootAsset(s.layers).None? ==> r == Err(NoPipelineLayer)
    ensures r.Ok? ==> RootAsset(s.layers) == Some(r.value.0)
    ensures r.Ok? ==> GetIdFields(s.prims[taxonPath]).Ok? && Get(IdentifierValues(s.layers[r.value.0]).value, GetIdFields(s.prims[taxonPath]).value).Ok?
    ensures r.Ok? ==> r.value.1 == Get(IdentifierValues(s.layers[r.value.0]).value, GetIdFields(s.prims[taxonPath]).value).value
  {
    match GetIdFields(s.prims[taxonPath])
    case Err(e) => Err(e)
    case Ok(taxonFields) =>
      match RootAsset(s.layers)
      case None => Err(NoPipelineLayer)
      case Some(ri) =>
        match Get(IdentifierValues(s.layers[ri]).value, taxonFields)
        case Err(e) => Err(InvalidIdentifier(e.values))
        case Ok(newAsset) => Ok((ri, newAsset))
  }

  /**
   * The catalogue layer: the first layer matching the catalogue fields;
   * without one, the catalogue asset named after the pipeline layer at
   * `root` is inserted as its first sublayer.
   */
  function CatalogueLayer(layers: seq<Layer>, root: nat): (r: Result<(seq<Layer>, nat), AuthoringError>)
    requires root < |layers| && IdentifierValues(layers[root]).Some?
    ensures r.Ok? ==> r.value.1 < |r.value.0| && LayerMatches(CataloguePairs, r.value.0[r.value.1])
    ensures FindLayerMatching(CataloguePairs, layers).Some? ==> r == Ok((layers, FindLayerMatching(CataloguePairs, layers).value))
    ensures r.Ok? && FindLayerMatching(CataloguePairs, layers).None? ==>
      r.value.1 == root + 1 && r.value.0 == layers[..root + 1] + [r.value.0[root + 1]] + layers[root + 1..]
  {
    match FindLayerMatching(CataloguePairs, layers)
    case Some(c) => Ok((layers, c))
    case None =>
      match Get(IdentifierValues(layers[root]).value, CatalogueFields)
      case Err(e) => Err(InvalidIdentifier(e.values))
      case Ok(cf) =>
        var added := layers[..root + 1] + [Layer(AssetText(cf), Pipeline(cf), true)] + layers[root + 1..];
        assert CatalogueKey in AssetKeys;
        assert LayerMatches(CataloguePairs, added[root + 1]);
        Ok((added, root + 1))
  }

  /**
   * The lookups of `create_many`, in their order: the units' identifier,
   * the taxonomy layer, and the catalogue layer.
   */
  function Prepare(s: StageState, taxonPath: SdfPath): (r: Result<Plan, AuthoringError>)
    requires taxonPath in s.prims
    ensures UnitsAsset(s, taxonPath).Err? ==> r == Err(UnitsAsset(s, taxonPath).error)
    ensures UnitsAsset(s, taxonPath).Ok? && FindLayerMatching(TaxonomyPairs, s.layers).None? ==> r == Err(NoLayerMatching)
    ensures r.Ok? ==> UnitsAsset(s, taxonPath).Ok? && r.value.newAsset == UnitsAsset(s, taxonPath).value.1
    ensures r.Ok? ==> FindLayerMatching(TaxonomyPairs, s.layers).Some?
    ensures r.Ok? ==> r.value.taxonomyId == s.layers[FindLayerMatching(TaxonomyPairs, s.layers).value].identifier
    ensures r.Ok? ==> CatalogueLayer(s.layers, UnitsAsset(s, taxonPath).value.0) == Ok((r.value.layers, r.value.catalogue))
    ensures r.Ok? ==> r.value.catalogue < |r.value.layers|
  {
    match UnitsAsset(s, taxonPath)
    case Err(e) => Err(e)
    case Ok((ri, newAsset)) =>
      match FindLayerMatching(TaxonomyPairs, s.layers)
      case None => Err(NoLayerMatching)
      case Some(t) =>
        match CatalogueLayer(s.layers, ri)
        case Err(e) => Err(e)
        case Ok((layers, c)) => Ok(Plan(newAsset, s.layers[t].identifier, layers, c))
  }

  /** `_CATALOGUE_ROOT_PATH.AppendChild(taxon.GetName())`: where the units of a taxon go. */
  function CatalogueScope(taxonPath: SdfPath): (r: SdfPath)
    ensures r.Abs? && StrictlyBelow(r, CatalogueRoot)
  {
    Child(CatalogueRoot, NameOf(taxonPath))
  }

  /**
   * The edits of `create_many` under the plan: the catalogue layer is
   * opened for edits, the scope is made, then the units are created.
   */
  function MakeUnits(s: StageState, taxonPath: SdfPath, plan: Plan, names: seq<string>, labels: seq<string>): (o: (StageState, Result<seq<SdfPath>, AuthoringError>))
    requires plan.catalogue < |plan.layers|
    ensures o.0.layers == WithPermission(plan.layers, plan.catalogue, true)
  {
    var scope := CatalogueScope(taxonPath);
    var recipe := CookUnit(taxonPath, plan.layers[plan.catalogue].identifier, plan.taxonomyId);
    var open := s.(layers := WithPermission(plan.layers, plan.catalogue, true), prims := UnitScope(s.prims, scope));
    var made := CreateUnits(open, scope, plan.newAsset, recipe, names, labels);
    assert made.0.layers == open.layers by {
      CreateUnitsKeep(open, scope, plan.newAsset, recipe, names, labels);
    }
    made
  }

  /**
   * `create_many(taxon, names, labels)` as written: the catalogue layer's
   * permission is set back only after every unit was created, so a unit
   * that fails leaves the layer open for edits.
   */
  function CreateManyAsWritten(s: StageState, taxonPath: SdfPath, names: seq<string>, labels: seq<string>): (o: (StageState, Result<seq<SdfPath>, AuthoringError>))
    requires taxonPath in s.prims
    ensures Prepare(s, taxonPath).Err? ==> o == (s, Err(Prepare(s, taxonPath).error))
  {
    match Prepare(s, taxonPath)
    case Err(e) => (s, Err(e))
    case Ok(plan) =>
      var made := MakeUnits(s, taxonPath, plan, names, labels);
      if made.1.Err? then made
      else (made.0.(layers := WithPermission(made.0.layers, plan.catalogue, plan.layers[plan.catalogue].permissionToEdit)), made.1)
  }

  /**
   * `create_many(taxon, names, labels)`: the catalogue layer's permission
   * is set back whether or not every unit was created.
   */
  function CreateManySpec(s: StageState, taxonPath: SdfPath, names: seq<string>, labels: seq<string>): (o: (StageState, Result<seq<SdfPath>, AuthoringError>))
    requires taxonPath in s.prims
    ensures Prepare(s, taxonPath).Err? ==> o == (s, Err(Prepare(s, taxonPath).error))
    ensures Prepare(s, taxonPath).Ok? ==> o.0.layers == Prepare(s, taxonPath).value.layers
  {
    match Prepare(s, taxonPath)
    case Err(e) => (s, Err(e))
    case Ok(plan) =>
      var made := MakeUnits(s, taxonPath, plan, names, labels);
      PermissionRestored(plan.layers, plan.catalogue, true);
      (made.0.(layers := WithPermission(made.0.layers, plan.catalogue, plan.layers[plan.catalogue].permissionToEdit)), made.1)
  }

  /**
   * `create_many` returns one prim per name, in order, under the taxon's
   * scope of the catalogue, and it succeeds exactly when every name is a
   * valid prim name.
   */
  lemma CreateManyPaths(s: StageState, taxonPath: SdfPath, names: seq<string>, labels: seq<string>)
    requires taxonPath in s.prims && Prepare(s, taxonPath).Ok?
    ensures var o := CreateManySpec(s, taxonPath, names, labels);
      && (o.1.Ok? <==> AllPrimNames(names))
      && (o.1.Ok? ==> o.1.value == UnitPaths(CatalogueScope(taxonPath), names) && |o.1.value| == |names|)
  {
    var plan := Prepare(s, taxonPath).value;
    var scope := CatalogueScope(taxonPath);
    var recipe := CookUnit(taxonPath, plan.layers[plan.catalogue].identifier, plan.taxonomyId);
    var open := s.(layers := WithPermission(plan.layers, plan.catalogue, true), prims := UnitScope(s.prims, scope));
    CreateUnitsFail(open, scope, plan.newAsset, recipe, names, labels);
    CreateUnitsPaths(open, scope, plan.newAsset, recipe, names, labels);
    if AllPrimNames(names) {
      CreateUnitsOk(open, scope, plan.newAsset, recipe, names, labels);
    }
  }

  /**
   * Every prim that was there is kept as it was, the scope aside, which at
   * most becomes an `assembly`; every returned unit is a prim of the stage.
   */
  lemma CreateManyKeeps(s: StageState, taxonPath: SdfPath, names: seq<string>, labels: seq<string>)
    requires taxonPath in s.prims
    ensures var o := CreateManySpec(s, taxonPath, names, labels);
      && (forall p :: p in s.prims && p != CatalogueScope(taxonPath) ==> p in o.0.prims && o.0.prims[p] == s.prims[p])
      && (o.1.Ok? ==> forall p :: p in o.1.value ==> p in o.0.prims)
  {
    if Prepare(s, taxonPath).Ok? {
      var plan := Prepare(s, taxonPath).value;
      var scope := CatalogueScope(taxonPath);
      var recipe := CookUnit(taxonPath, plan.layers[plan.catalogue].identifier, plan.taxonomyId);
      var open := s.(layers := WithPermission(plan.layers, plan.catalogue, true), prims := UnitScope(s.prims, scope));
      CreateUnitsKeep(open, scope, plan.newAsset, recipe, names, labels);
      if CreateUnits(open, scope, plan.newAsset, recipe, names, labels).1.Ok? {
        CreateUnitsPaths(open, scope, plan.newAsset, recipe, names, labels);
        CreateUnitsPresent(open, scope, plan.newAsset, recipe, names, labels);
      }
    }
  }

  /**
   * As written, a name that is not a valid prim name leaves a catalogue
   * layer that had no permission to edit open for edits; with the
   * permission set back on every path, it is closed again.
   */
  lemma PermissionLeftOpen(s: StageState, taxonPath: SdfPath, names: seq<string>, labels: seq<string>)
    requires taxonPath in s.prims && Prepare(s, taxonPath).Ok? && !AllPrimNames(names)
    requires !Prepare(s, taxonPath).value.layers[Prepare(s, taxonPath).value.catalogue].permissionToEdit
    ensures var c := Prepare(s, taxonPath).value.catalogue;
      && CreateManyAsWritten(s, taxonPath, names, labels).1.Err?
      && CreateManyAsWritten(s, taxonPath, names, labels).0.layers[c].permissionToEdit
      && !CreateManySpec(s, taxonPath, names, labels).0.layers[c].permissionToEdit
  {
    CreateManyPaths(s, taxonPath, names, labels);
  }

  /** `create(taxon, name, text)`: `create_many(taxon, [name], [text])[0]`. */
  function CreateSpec(s: StageState, taxonPath: SdfPath, name: string, text: string): (o: (StageState, Result<SdfPath, AuthoringError>))
    requires taxonPath in s.prims
    ensures Prepare(s, taxonPath).Ok? ==> (o.1.Ok? <==> IsPrimName(name))
    ensures o.1.Ok? ==> o.1.value == Child(CatalogueScope(taxonPath), name)
  {
    var many := CreateManySpec(s, taxonPath, [name], [text]);
    assert Prepare(s, taxonPath).Ok? ==> (many.1.Ok? <==> AllPrimNames([name])) by {
      if Prepare(s, taxonPath).Ok? {
        CreateManyPaths(s, taxonPath, [name], [text]);
      }
    }
    assert many.1.Ok? ==> many.1.value == UnitPaths(CatalogueScope(taxonPath), [name]) by {
      if Prepare(s, taxonPath).Ok? {
        CreateManyPaths(s, taxonPath, [name], [text]);
      }
    }
    (many.0, if many.1.Ok? then Ok(many.1.value[0]) else Err(many.1.error))
  }

  /** The catalogue lookup of `create_many`, bringing the catalogue layer in when missing. */
  method OpenCatalogue(stage: Stage, root: nat) returns (r: Result<nat, AuthoringError>)
    requires root < |stage.layers| && IdentifierValues(stage.layers[root]).Some?
    modifies stage
    ensures CatalogueLayer(old(stage.layers), root).Err? ==> r == Err(CatalogueLayer(old(stage.layers), root).error) && stage.layers == old(stage.layers)
    ensures CatalogueLayer(old(stage.layers), root).Ok? ==> r.Ok? && CatalogueLayer(old(stage.layers), root).value == (stage.layers, r.value)
    ensures stage.prims == old(stage.prims) && stage.repository == old(stage.repository)
  {
    var found := FindLayer(CataloguePairs, stage.layers);
    if found.Some? {
      return Ok(found.value);
    }
    var cf := Get(IdentifierValues(stage.layers[root]).value, CatalogueFields);
    if cf.Err? {
      return Err(InvalidIdentifier(cf.error.values));
    }
    stage.InsertLayer(root + 1, Layer(AssetText(cf.value), Pipeline(cf.value), true));
    return Ok(root + 1);
  }

  /** `create_many`, made on the stage. */
  method CreateMany(stage: Stage, taxonPath: SdfPath, names: seq<string>, labels: seq<string>)
    returns (r: Result<seq<SdfPath>, AuthoringError>)
    requires taxonPath in stage.prims
    modifies stage
    ensures (stage.State(), r) == CreateManySpec(old(stage.State()), taxonPath, names, labels)
  {
    ghost var s0 := stage.State();
    var units := UnitsAsset(stage.State(), taxonPath);
    if units.Err? {
      return Err(units.error);
    }
    var taxonomy := FindLayer(TaxonomyPairs, stage.layers);
    if taxonomy.None? {
      return Err(NoLayerMatching);
    }
    var taxonomyId := stage.layers[taxonomy.value].identifier;
    var newAsset := units.value.1;
    var catalogue := OpenCatalogue(stage, units.value.0);
    if catalogue.Err? {
      return Err(catalogue.error);
    }
    ghost var plan := Prepare(s0, taxonPath).value;
    assert plan == Plan(newAsset, taxonomyId, stage.layers, catalogue.value);
    var c := catalogue.value;
    var saved := stage.layers[c].permissionToEdit;
    stage.SetPermissionToEdit(c, true);
    var scope := CatalogueScope(taxonPath);
    MakeUnitScope(stage, scope);
    var recipe := CookUnit(taxonPath, stage.layers[c].identifier, taxonomyId);
    ghost var open := stage.State();
    r := CreateUnitsLoop(stage, scope, newAsset, recipe, names, labels);
    CreateUnitsKeep(open, scope, newAsset, recipe, names, labels);
    stage.SetPermissionToEdit(c, saved);
  }

  /** `create`, made on the stage. */
  method Create(stage: Stage, taxonPath: SdfPath, name: string, text: string)
    returns (r: Result<SdfPath, AuthoringError>)
    requires taxonPath in stage.prims
    modifies stage
    ensures (stage.State(), r) == CreateSpec(old(stage.State()), taxonPath, name, text)
  {
    ghost var s0 := stage.State();
    var many := CreateMany(stage, taxonPath, [name], [text]);
    if many.Ok? {
      CreateManyPaths(s0, taxonPath, [name], [text]);
    }
    r := if many.Ok? then Ok(many.value[0]) else Err(many.error);
  }
}
