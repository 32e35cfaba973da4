/**
 * What is `grill/write/__init__.py`'s own: the id fields read back from a
 * prim's custom data, `_iter_taxa`, and `create_many` / `create`, which
 * keep the units' entries in the first pipeline layer under a scope named
 * after the taxon and give each unit's asset a reference to its taxon.
 * `define_taxon` and `taxonomy_context` are in `Authoring`; `grill.write`
 * defines its taxa with `WriteStyle`.
 */
module Write {
  import opened Wrappers
  import opened UsdPaths
  import opened UsdAsset
  import opened UsdStage
  import opened Authoring

  // ---------------------------------------------------------------------
  // Reading a prim's custom data

  /** The prim has no `grill` custom data at all. */
  predicate WithoutGrillData(prim: Prim) {
    prim.fields.NoFields? && prim.taxa == map[]
  }

  /**
   * `_get_id_fields(prim)`: `ValueError` without `grill` data, then as in
   * `grill.cook`: `ValueError` for missing or empty fields, `TypeError`
   * for a truthy value that is not a mapping.
   */
  function GetIdFields(prim: Prim): (r: Result<Fields, AuthoringError>)
    ensures r == Err(NoGrillData) <==> WithoutGrillData(prim)
    ensures r.Ok? <==> prim.fields.FieldMap? && prim.fields.fields != map[]
    ensures r.Ok? ==> r.value == prim.fields.fields
    ensures r == Err(FieldsNotMapping) <==> prim.fields == NotMapping(true)
  {
    if WithoutGrillData(prim) then Err(NoGrillData)
    else match prim.fields
      case NoFields => Err(MissingFields)
      case FieldMap(f) => if f == map[] then Err(MissingFields) else Ok(f)
      case NotMapping(truthy) => if truthy then Err(FieldsNotMapping) else Err(MissingFields)
  }

  /** A taxon defined by `define_taxon` gives back its validated fields as id fields. */
  lemma DefinedTaxonReadsBack(s: StageState, name: string, references: seq<SdfPath>, idFields: Items)
    requires DefineTaxonSpec(s, WriteStyle, name, references, idFields).1.Ok?
    ensures var o := DefineTaxonSpec(s, WriteStyle, name, references, idFields);
      var taxon := o.0.prims[o.1.value];
      && GetIdFields(taxon) == Ok(ValidateTaxon(name, idFields).value)
      && taxon.specifier == Class
      && InTaxa(taxon, {name})
  {
    DefineTaxonFacts(s, WriteStyle, name, references, idFields);
    var o := DefineTaxonSpec(s, WriteStyle, name, references, idFields);
    var taxon := o.0.prims[o.1.value];
    assert name in taxon.taxa.Keys * {name};
  }

  // ---------------------------------------------------------------------
  // _iter_taxa

  /** `path.HasPrefix(_TAXONOMY_ROOT_PATH)`: the prim is part of the taxonomy hierarchy. */
  predicate InTaxonomy(p: SdfPath) {
    HasPrefix(p, TaxonomyRoot)
  }

  /**
   * What `_iter_taxa` yields from a prim range: a prim of the taxonomy
   * hierarchy is not yielded and its subtree is pruned; any other prim is
   * yielded when it belongs to one of the named taxa.
   */
  function TaxaMembers(prims: map<SdfPath, Prim>, range: seq<SdfPath>, names: set<string>): (r: seq<SdfPath>)
    requires forall p :: p in range ==> p in prims
    ensures Subseq(r, range)
    ensures forall p :: p in r ==> p in range && !InTaxonomy(p) && InTaxa(prims[p], names)
    decreases |range|
  {
    if range == [] then []
    else if InTaxonomy(range[0]) then
      var rest := SkipBelow(range[0], range[1..]);
      SkipBelowSuffix(range[0], range[1..]);
      var r := TaxaMembers(prims, rest, names);
      SubseqSuffix(r, range[1..], |range[1..]| - |rest|);
      r
    else
      var r := TaxaMembers(prims, range[1..], names);
      if InTaxa(prims[range[0]], names) then
        assert ([range[0]] + r)[1..] == r;
        [range[0]] + r
      else r
  }

  /** A prefix of a prefix is a prefix. */
  lemma HasPrefixTrans(a: SdfPath, b: SdfPath, c: SdfPath)
    requires HasPrefix(a, b) && HasPrefix(b, c)
    ensures HasPrefix(a, c)
  {
    assert a.elems[..|c.elems|] == a.elems[..|b.elems|][..|c.elems|];
  }

  /** What the skip leaves out of the rest lies below the pruned prim. */
  lemma {:induction false} SkipBelowDropped(p: SdfPath, rest: seq<SdfPath>)
    ensures forall x :: x in rest ==> x in SkipBelow(p, rest) || StrictlyBelow(x, p)
    decreases |rest|
  {
    if rest != [] && StrictlyBelow(rest[0], p) {
      SkipBelowDropped(p, rest[1..]);
      assert forall x :: x in rest ==> x == rest[0] || x in rest[1..];
    }
  }

  /** Every prim of the range outside the taxonomy hierarchy that belongs to one of the taxa is yielded. */
  lemma {:induction false} TaxaMembersComplete(prims: map<SdfPath, Prim>, range: seq<SdfPath>, names: set<string>)
    requires forall p :: p in range ==> p in prims
    ensures forall p :: p in range && !InTaxonomy(p) && InTaxa(prims[p], names) ==> p in TaxaMembers(prims, range, names)
    decreases |range|
  {
    if range != [] {
      var r := TaxaMembers(prims, range, names);
      if InTaxonomy(range[0]) {
        var rest := SkipBelow(range[0], range[1..]);
        SkipBelowSuffix(range[0], range[1..]);
        TaxaMembersComplete(prims, rest, names);
        SkipBelowDropped(range[0], range[1..]);
        forall p | p in range && !InTaxonomy(p) && InTaxa(prims[p], names)
          ensures p in r
        {
          assert p in range[1..];
          if StrictlyBelow(p, range[0]) {
            HasPrefixTrans(p, range[0], TaxonomyRoot);
          }
        }
      } else {
        TaxaMembersComplete(prims, range[1..], names);
        assert forall p :: p in range ==> p == range[0] || p in range[1..];
      }
    }
  }

  /**
   * `_iter_taxa(stage, taxon1, *taxonN)`: the generator walking the stage's
   * prim range, pruning it in place below the taxonomy hierarchy.
   */
  method IterTaxa(prims: map<SdfPath, Prim>, range: seq<SdfPath>, taxon: TaxonArg, more: seq<TaxonArg>)
    returns (yielded: seq<SdfPath>)
    requires forall p :: p in range ==> p in prims
    ensures yielded == TaxaMembers(prims, range, TaxaNames(taxon, more))
  {
    var names := TaxaNames(taxon, more);
    yielded := [];
    var i := 0;
    while i < |range|
      invariant 0 <= i <= |range|
      invariant yielded + TaxaMembers(prims, range[i..], names) == TaxaMembers(prims, range, names)
    {
      var prim := range[i];
      assert range[i..][1..] == range[i + 1..];
      if InTaxonomy(prim) {
        i := SkipSubtree(range, i + 1, prim);
      } else {
        if InTaxa(prims[prim], names) {
          assert TaxaMembers(prims, range[i..], names) == [prim] + TaxaMembers(prims, range[i + 1..], names);
          assert (yielded + [prim]) + TaxaMembers(prims, range[i + 1..], names) == yielded + ([prim] + TaxaMembers(prims, range[i + 1..], names));
          yielded := yielded + [prim];
        }
        i := i + 1;
      }
    }
    assert range[|range|..] == [];
  }

  // ---------------------------------------------------------------------
  // create_many

  /**
   * The first lookups of `create_many`: the taxon's id fields, the first
   * pipeline layer, and the identifier of the new units.
   */
  function UnitsAsset(s: StageState, taxonPath: SdfPath): (r: Result<(nat, Fields), AuthoringError>)
    requires taxonPath in s.prims
    ensures GetIdFields(s.prims[taxonPath]).Err? ==> r == Err(GetIdFields(s.prims[taxonPath]).error)
    ensures GetIdFields(s.prims[taxonPath]).Ok? && RootAsset(s.layers).None? ==> r == Err(NoPipelineLayer)
    ensures r.Ok? ==> RootAsset(s.layers) == Some(r.value.0)
    ensures r.Ok? ==> GetIdFields(s.prims[taxonPath]).Ok? && Get(IdentifierValues(s.layers[r.value.0]).value, GetIdFields(s.prims[taxonPath]).value).Ok?
    ensures r.Ok? ==> r.value.1 == Get(IdentifierValues(s.layers[r.value.0]).value, GetIdFields(s.prims[taxonPath]).value).value
  {
    match GetIdFields(s.prims[taxonPath])
    case Err(e) => Err(e)
    case Ok(taxonFields) =>
      match RootAsset(s.layers)
      case None => Err(NoPipelineLayer)
      case Some(ri) =>
        match Get(IdentifierValues(s.layers[ri]).value, taxonFields)
        case Err(e) => Err(InvalidIdentifier(e.values))
        case Ok(newAsset) => Ok((ri, newAsset))
  }

  /** `stage.GetPseudoRoot().GetPath().AppendPath(taxon.GetName())`: the scope of the taxon's units. */
  function TaxonScope(taxonPath: SdfPath): (r: SdfPath)
    ensures r.Abs? && |r.elems| == 1 && r.elems[0] == NameOf(taxonPath)
  {
    Child(AbsoluteRoot, NameOf(taxonPath))
  }

  /**
   * The edits of `create_many` once the pipeline layer was opened for
   * edits: the scope is made, then the units are created.
   */
  function MakeUnits(s: StageState, taxonPath: SdfPath, newAsset: Fields, taxonomyId: string, names: seq<string>, labels: seq<string>): (o: (StageState, Result<seq<SdfPath>, AuthoringError>))
    ensures o.0.layers == s.layers
  {
    var scope := TaxonScope(taxonPath);
    var recipe := WriteUnit(taxonPath, taxonomyId);
    var open := s.(prims := UnitScope(s.prims, scope));
    var made := CreateUnits(open, scope, newAsset, recipe, names, labels);
    assert made.0.layers == open.layers by {
      CreateUnitsKeep(open, scope, newAsset, recipe, names, labels);
    }
    made
  }

  /**
   * `create_many(taxon, names, labels)` as written: the pipeline layer is
   * opened for edits before the taxonomy layer is looked up, and its
   * permission is set back only after every unit was created, so a
   * missing taxonomy layer or a unit that fails leaves it open.
   */
  function CreateManyAsWritten(s: StageState, taxonPath: SdfPath, names: seq<string>, labels: seq<string>): (o: (StageState, Result<seq<SdfPath>, AuthoringError>))
    requires taxonPath in s.prims
    ensures UnitsAsset(s, taxonPath).Err? ==> o == (s, Err(UnitsAsset(s, taxonPath).error))
  {
    match UnitsAsset(s, taxonPath)
    case Err(e) => (s, Err(e))
    case Ok(u) =>
      var (ri, newAsset) := u;
      var unlocked := s.(layers := WithPermission(s.layers, ri, true));
      match FindLayerMatching(TaxonomyPairs, s.layers)
      case None => (unlocked, Err(NoLayerMatching))
      case Some(t) =>
        var made := MakeUnits(unlocked, taxonPath, newAsset, s.layers[t].identifier, names, labels);
        if made.1.Err? then made
        else (made.0.(layers := WithPermission(made.0.layers, ri, s.layers[ri].permissionToEdit)), made.1)
  }

  /**
   * `create_many(taxon, names, labels)`: the pipeline layer's permission
   * is set back on every path, so the layer stack is left as it was.
   */
  function CreateManySpec(s: StageState, taxonPath: SdfPath, names: seq<string>, labels: seq<string>): (o: (StageState, Result<seq<SdfPath>, AuthoringError>))
    requires taxonPath in s.prims
    ensures UnitsAsset(s, taxonPath).Err? ==> o == (s, Err(UnitsAsset(s, taxonPath).error))
    ensures UnitsAsset(s, taxonPath).Ok? && FindLayerMatching(TaxonomyPairs, s.layers).None? ==> o == (s, Err(NoLayerMatching))
    ensures o.0.layers == s.layers
  {
    match UnitsAsset(s, taxonPath)
    case Err(e) => (s, Err(e))
    case Ok((ri, newAsset)) =>
      match FindLayerMatching(TaxonomyPairs, s.layers)
      case None => (s, Err(NoLayerMatching))
      case Some(t) =>
        var unlocked := s.(layers := WithPermission(s.layers, ri, true));
        var made := MakeUnits(unlocked, taxonPath, newAsset, s.layers[t].identifier, names, labels);
        PermissionRestored(s.layers, ri, true);
        (made.0.(layers := WithPermission(made.0.layers, ri, s.layers[ri].permissionToEdit)), made.1)
  }

  /** The taxonomy layer's identifier the units' assets reference. */
  function TaxonomyId(s: StageState): string
    requires FindLayerMatching(TaxonomyPairs, s.layers).Some?
  {
    s.layers[FindLayerMatching(TaxonomyPairs, s.layers).value].identifier
  }

  /**
   * `create_many` returns one prim per name, in order, under the taxon's
   * scope, and it succeeds exactly when every name is a valid prim name.
   */
  lemma CreateManyPaths(s: StageState, taxonPath: SdfPath, names: seq<string>, labels: seq<string>)
    requires taxonPath in s.prims && UnitsAsset(s, taxonPath).Ok? && FindLayerMatching(TaxonomyPairs, s.layers).Some?
    ensures var o := CreateManySpec(s, taxonPath, names, labels);
      && (o.1.Ok? <==> AllPrimNames(names))
      && (o.1.Ok? ==> o.1.value == UnitPaths(TaxonScope(taxonPath), names) && |o.1.value| == |names|)
  {
    var (ri, newAsset) := UnitsAsset(s, taxonPath).value;
    var scope := TaxonScope(taxonPath);
    var recipe := WriteUnit(taxonPath, TaxonomyId(s));
    var unlocked := s.(layers := WithPermission(s.layers, ri, true));
    var open := unlocked.(prims := UnitScope(s.prims, scope));
    CreateUnitsFail(open, scope, newAsset, recipe, names, labels);
    CreateUnitsPaths(open, scope, newAsset, recipe, names, labels);
    if AllPrimNames(names) {
      CreateUnitsOk(open, scope, newAsset, recipe, names, labels);
    }
  }

  /**
   * Every prim that was there is kept as it was, the scope aside, which at
   * most becomes an `assembly`; every returned unit is a prim of the stage,
   * and a new unit's asset references the taxon in the taxonomy layer.
   */
  lemma CreateManyKeeps(s: StageState, taxonPath: SdfPath, names: seq<string>, labels: seq<string>)
    requires taxonPath in s.prims
    ensures var o := CreateManySpec(s, taxonPath, names, labels);
      && (forall p :: p in s.prims && p != TaxonScope(taxonPath) ==> p in o.0.prims && o.0.prims[p] == s.prims[p])
      && (o.1.Ok? ==> forall p :: p in o.1.value ==> p in o.0.prims)
  {
    if UnitsAsset(s, taxonPath).Ok? && FindLayerMatching(TaxonomyPairs, s.layers).Some? {
      var (ri, newAsset) := UnitsAsset(s, taxonPath).value;
      var scope := TaxonScope(taxonPath);
      var recipe := WriteUnit(taxonPath, TaxonomyId(s));
      var unlocked := s.(layers := WithPermission(s.layers, ri, true));
      var open := unlocked.(prims := UnitScope(s.prims, scope));
      CreateUnitsKeep(open, scope, newAsset, recipe, names, labels);
      if CreateUnits(open, scope, newAsset, recipe, names, labels).1.Ok? {
        CreateUnitsPaths(open, scope, newAsset, recipe, names, labels);
        CreateUnitsPresent(open, scope, newAsset, recipe, names, labels);
      }
    }
  }

  /**
   * As written, a stage without a taxonomy layer, or a name that is not a
   * valid prim name, leaves a pipeline layer that had no permission to
   * edit open for edits; with the permission set back on every path, the
   * layer stack is left as it was.
   */
  lemma PermissionLeftOpen(s: StageState, taxonPath: SdfPath, names: seq<string>, labels: seq<string>)
    requires taxonPath in s.prims && UnitsAsset(s, taxonPath).Ok?
    requires !s.layers[UnitsAsset(s, taxonPath).value.0].permissionToEdit
    requires FindLayerMatching(TaxonomyPairs, s.layers).None? || !AllPrimNames(names)
    ensures var ri := UnitsAsset(s, taxonPath).value.0;
      && CreateManyAsWritten(s, taxonPath, names, labels).1.Err?
      && CreateManyAsWritten(s, taxonPath, names, labels).0.layers[ri].permissionToEdit
      && !CreateManySpec(s, taxonPath, names, labels).0.layers[ri].permissionToEdit
  {
    if FindLayerMatching(TaxonomyPairs, s.layers).Some? {
      CreateManyPaths(s, taxonPath, names, labels);
    }
  }

  /** `create(taxon, name, label)`: `create_many(taxon, [name], [label])[0]`. */
  function CreateSpec(s: StageState, taxonPath: SdfPath, name: string, text: string): (o: (StageState, Result<SdfPath, AuthoringError>))
    requires taxonPath in s.prims
    ensures UnitsAsset(s, taxonPath).Ok? && FindLayerMatching(TaxonomyPairs, s.layers).Some? ==> (o.1.Ok? <==> IsPrimName(name))
    ensures o.1.Ok? ==> o.1.value == Child(TaxonScope(taxonPath), name)
  {
    var many := CreateManySpec(s, taxonPath, [name], [text]);
    assert UnitsAsset(s, taxonPath).Ok? && FindLayerMatching(TaxonomyPairs, s.layers).Some? ==> (many.1.Ok? <==> AllPrimNames([name])) by {
      if UnitsAsset(s, taxonPath).Ok? && FindLayerMatching(TaxonomyPairs, s.layers).Some? {
        CreateManyPaths(s, taxonPath, [name], [text]);
      }
    }
    assert many.1.Ok? ==> many.1.value == UnitPaths(TaxonScope(taxonPath), [name]) by {
      if UnitsAsset(s, taxonPath).Ok? && FindLayerMatching(TaxonomyPairs, s.layers).Some? {
        CreateManyPaths(s, taxonPath, [name], [text]);
      }
    }
    (many.0, if many.1.Ok? then Ok(many.1.value[0]) else Err(many.1.error))
  }

  /** `create_many`, made on the stage. */
  method CreateMany(stage: Stage, taxonPath: SdfPath, names: seq<string>, labels: seq<string>)
    returns (r: Result<seq<SdfPath>, AuthoringError>)
    requires taxonPath in stage.prims
    modifies stage
    ensures (stage.State(), r) == CreateManySpec(old(stage.State()), taxonPath, names, labels)
  {
    ghost var s0 := stage.State();
    var units := UnitsAsset(stage.State(), taxonPath);
    if units.Err? {
      return Err(units.error);
    }
    var ri := units.value.0;
    var newAsset := units.value.1;
    var saved := stage.layers[ri].permissionToEdit;
    var taxonomy := FindLayer(TaxonomyPairs, stage.layers);
    if taxonomy.None? {
      return Err(NoLayerMatching);
    }
    stage.SetPermissionToEdit(ri, true);
    var taxonomyId := stage.layers[taxonomy.value].identifier;
    var scope := TaxonScope(taxonPath);
    MakeUnitScope(stage, scope);
    var recipe := WriteUnit(taxonPath, taxonomyId);
    ghost var open := stage.State();
    r := CreateUnitsLoop(stage, scope, newAsset, recipe, names, labels);
    CreateUnitsKeep(open, scope, newAsset, recipe, names, labels);
    stage.SetPermissionToEdit(ri, saved);
    PermissionRestored(s0.layers, ri, true);
  }

  /** `create`, made on the stage. */
  method Create(stage: Stage, taxonPath: SdfPath, name: string, text: string)
    returns (r: Result<SdfPath, AuthoringError>)
    requires taxonPath in stage.prims
    modifies stage
    ensures (stage.State(), r) == CreateSpec(old(stage.State()), taxonPath, name, text)
  {
    ghost var s0 := stage.State();
    var many := CreateMany(stage, taxonPath, [name], [text]);
    if many.Ok? {
      CreateManyPaths(s0, taxonPath, [name], [text]);
    }
    r := if many.Ok? then Ok(many.value[0]) else Err(many.error);
  }
}
