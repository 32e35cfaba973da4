/**
 * The dialogs that create assets and taxa (`grill.views.create`): which
 * rows of their sheet become creation requests, the reference selector
 * whose cell holds one taxon name per line, and the taxonomy graph the
 * editor draws from the existing taxa and the taxa each one extends.
 */
module ViewsCreate {
  import opened Wrappers
  import opened Texts
  import NameSchema
  import PySorted
  import ViewsDescription
  import ViewsDescriptionViewer

  /** Why a dialog could not go on. */
  datatype CreateError =
    | RepositoryNotSet       // no repository, and the directory dialog was cancelled
    | KeyError(key: string)  // a dictionary lookup or `pop` of a missing key

  // ---------------------------------------------------------------------
  // The repository both `_create`s need

  /**
   * The repository `_create` works against: the one already set or,
   * when none is, the directory picked in the dialog (empty when it was
   * cancelled, which stops the creation).
   */
  function Repository(current: Option<string>, chosen: string): (r: Result<string, CreateError>)
    ensures r.Ok? <==> current.Some? || chosen != ""
    ensures r.Err? ==> r.error == RepositoryNotSet
    ensures current.Some? ==> r == Ok(current.value)
    ensures current.None? && r.Ok? ==> r.value == chosen
  {
    if current.Some? then Ok(current.value)
    else if chosen == "" then Err(RepositoryNotSet)
    else Ok(chosen)
  }

  // ---------------------------------------------------------------------
  // Rows of a creation sheet

  /** The rows whose name cell is filled, each turned into its request, in row order; the others are skipped. */
  function Requests<R(!new), Q(==,!new)>(rows: seq<R>, name: R -> string, request: R -> Q): (r: seq<Q>)
    ensures |r| <= |rows|
    ensures forall q :: q in r <==> exists row :: row in rows && name(row) != "" && q == request(row)
    decreases |rows|
  {
    if rows == [] then []
    else
      var init := rows[..|rows| - 1];
      var last := rows[|rows| - 1];
      assert rows == init + [last];
      assert forall row :: row in rows <==> row in init || row == last;
      Requests(init, name, request) + (if name(last) != "" then [request(last)] else [])
  }

  /** The loop of `_create` over the sheet's rows. */
  method CollectRequests<R(!new), Q(==,!new)>(rows: seq<R>, name: R -> string, request: R -> Q) returns (requests: seq<Q>)
    ensures requests == Requests(rows, name, request)
  {
    requests := [];
    for row := 0 to |rows|
      invariant requests == Requests(rows[..row], name, request)
    {
      assert rows[..row + 1][..row] == rows[..row];
      if name(rows[row]) != "" {
        requests := requests + [request(rows[row])];
      }
    }
    assert rows[..|rows|] == rows;
  }

  /** A row of the asset sheet: taxon, name, label and description. */
  datatype AssetRow = AssetRow(taxon: string, name: string, labelText: string, description: string)

  /** `write.create(taxon, asset_name, label)` as `CreateAssets._create` asks for it. */
  datatype AssetRequest = AssetRequest(taxon: string, name: string, labelText: string)

  function AssetName(row: AssetRow): string {
    row.name
  }

  function AssetRequestOf(row: AssetRow): AssetRequest {
    AssetRequest(row.taxon, row.name, row.labelText)
  }

  /** `CreateAssets._create`: the repository to create on, and an asset for every row with a name. */
  method CreateAssets(current: Option<string>, chosen: string, rows: seq<AssetRow>)
    returns (r: Result<(string, seq<AssetRequest>), CreateError>)
    ensures r.Err? <==> current.None? && chosen == ""
    ensures r.Ok? ==> r.value.0 == Repository(current, chosen).value
    ensures r.Ok? ==> forall q :: q in r.value.1 <==>
      exists row :: row in rows && row.name != "" && q == AssetRequest(row.taxon, row.name, row.labelText)
  {
    var repository := Repository(current, chosen);
    if repository.Err? {
      return Err(repository.error);
    }
    var requests := CollectRequests(rows, AssetName, AssetRequestOf);
    return Ok((repository.value, requests));
  }

  /** A child of the taxonomy root: its name and whether it is abstract. */
  datatype Child = Child(name: string, isAbstract: bool)

  /** The names of the abstract children, in order. */
  function AbstractNames(children: seq<Child>): (r: seq<string>)
    ensures forall n :: n in r <==> exists c :: c in children && c.isAbstract && n == c.name
    decreases |children|
  {
    if children == [] then []
    else
      assert forall c :: c in children <==> c == children[0] || c in children[1..];
      (if children[0].isAbstract then [children[0].name] else []) + AbstractNames(children[1..])
  }

  /** `CreateAssets.setStage`: the taxon names to choose from, none when the stage has no taxonomy root. */
  function TaxonOptions(root: Option<seq<Child>>): (r: seq<string>)
    ensures root.None? ==> r == []
    ensures root.Some? ==> forall n :: n in r <==> exists c :: c in root.value && c.isAbstract && n == c.name
  {
    if root.None? then [] else AbstractNames(root.value)
  }

  /** `sorted(self._taxon_options)`: the taxon editor's choices. */
  function TaxonChoices(options: seq<string>): seq<string> {
    PySorted.Sorted(options, (s: string) => s, false)
  }

  /** The taxon editor offers every option once, in ascending order. */
  lemma TaxonChoicesSorted(options: seq<string>)
    ensures multiset(TaxonChoices(options)) == multiset(options)
    ensures forall i, j :: 0 <= i < j < |TaxonChoices(options)| ==>
      !PySorted.TextLess(TaxonChoices(options)[j], TaxonChoices(options)[i])
  {
    PySorted.SortedOrdered(options, (s: string) => s, false);
  }

  // ---------------------------------------------------------------------
  // The reference selector

  /** `_reference_selector`: a taxon is checked when the cell is not empty and names it on a line of its own. */
  predicate Checked(cell: string, taxon: string) {
    cell != "" && taxon in Split(cell, "\n")
  }

  /** The selector's items: each option with whether it starts checked. */
  function ReferenceChecks(options: seq<string>, cell: string): (r: seq<(string, bool)>)
    ensures forall x, b :: (x, b) in r <==> x in options && b == Checked(cell, x)
    decreases |options|
  {
    if options == [] then []
    else
      assert forall x :: x in options <==> x == options[0] || x in options[1..];
      [(options[0], Checked(cell, options[0]))] + ReferenceChecks(options[1..], cell)
  }

  /** `ReferenceSelection._value`: the text of the checked items, in order. */
  function CheckedValue(items: seq<(string, bool)>): (r: seq<string>)
    ensures forall x :: x in r <==> (x, true) in items
    decreases |items|
  {
    if items == [] then []
    else
      assert forall e :: e in items <==> e == items[0] || e in items[1..];
      (if items[0].1 then [items[0].0] else []) + CheckedValue(items[1..])
  }

  /** `_reference_setter`: the checked names, one per line. */
  function ReferenceCell(names: seq<string>): string {
    NameSchema.Join("\n", names)
  }

  /**
   * Opening the selector on a cell the setter wrote checks exactly the
   * options the setter was given, so its value reads them back.
   */
  lemma SelectorRoundTrip(options: seq<string>, names: seq<string>)
    requires forall i :: 0 <= i < |names| ==> '\n' !in names[i]
    requires forall i :: 0 <= i < |options| ==> options[i] != ""
    ensures forall o :: o in CheckedValue(ReferenceChecks(options, ReferenceCell(names))) <==> o in options && o in names
  {
    var cell := ReferenceCell(names);
    if names != [] {
      SplitJoin(names, '\n');
      assert Split(cell, "\n") == names;
    }
    assert forall o :: o in options ==> (Checked(cell, o) <==> o in names);
  }

  /** `TaxonomyEditor._create`: the names on the references cell's lines, empty lines dropped. */
  function ReferencesOf(cell: string): (r: seq<string>)
    ensures forall x :: x in r <==> x in Split(cell, "\n") && x != ""
  {
    NonEmpty(Split(cell, "\n"))
  }

  function NonEmpty(xs: seq<string>): (r: seq<string>)
    ensures forall x :: x in r <==> x in xs && x != ""
    decreases |xs|
  {
    if xs == [] then []
    else
      assert forall x :: x in xs <==> x == xs[0] || x in xs[1..];
      (if xs[0] != "" then [xs[0]] else []) + NonEmpty(xs[1..])
  }

  lemma {:induction false} NonEmptyKeeps(xs: seq<string>)
    requires forall i :: 0 <= i < |xs| ==> xs[i] != ""
    ensures NonEmpty(xs) == xs
    decreases |xs|
  {
    if xs != [] {
      NonEmptyKeeps(xs[1..]);
    }
  }

  /** The references a taxon row is created with are the names the reference setter wrote, in order. */
  lemma {:induction false} ReferencesRoundTrip(names: seq<string>)
    requires forall i :: 0 <= i < |names| ==> names[i] != "" && '\n' !in names[i]
    ensures ReferencesOf(ReferenceCell(names)) == names
  {
    if names == [] {
      assert Split("", "\n") == [""];
    } else {
      SplitJoin(names, '\n');
      NonEmptyKeeps(names);
    }
  }

  /** A row of the taxon sheet: new name, references and id fields. */
  datatype TaxonRow = TaxonRow(name: string, references: string, idFields: string)

  /** `write.define_taxon(stage, taxon_name, references=...)` as `TaxonomyEditor._create` asks for it. */
  datatype TaxonRequest = TaxonRequest(name: string, references: seq<string>)

  function TaxonName(row: TaxonRow): string {
    row.name
  }

  function TaxonRequestOf(row: TaxonRow): TaxonRequest {
    TaxonRequest(row.name, ReferencesOf(row.references))
  }

  /** `TaxonomyEditor._create`: the repository to create on, and a taxon for every row with a name. */
  method CreateTaxa(current: Option<string>, chosen: string, rows: seq<TaxonRow>)
    returns (r: Result<(string, seq<TaxonRequest>), CreateError>)
    ensures r.Err? <==> current.None? && chosen == ""
    ensures r.Ok? ==> r.value.0 == Repository(current, chosen).value
    ensures r.Ok? ==> forall q :: q in r.value.1 <==>
      exists row :: row in rows && row.name != "" && q == TaxonRequest(row.name, ReferencesOf(row.references))
  {
    var repository := Repository(current, chosen);
    if repository.Err? {
      return Err(repository.error);
    }
    var requests := CollectRequests(rows, TaxonName, TaxonRequestOf);
    return Ok((repository.value, requests));
  }

  // ---------------------------------------------------------------------
  // The taxonomy graph

  /** An existing taxon: its name and the keys of its taxa asset info, in dictionary order. */
  datatype Taxon = Taxon(name: string, taxa: seq<string>)

  /** A node of the taxonomy graph: its label and its link. */
  datatype TaxonNode = TaxonNode(caption: string, href: string)

  type Edge = (nat, nat)

  /** `_ids_by_taxa` after the first loop: each name to the index it was last seen at. */
  function IdsByTaxa(existing: seq<Taxon>): (r: map<string, nat>)
    ensures existing != [] ==> existing[|existing| - 1].name in r
    decreases |existing|
  {
    if existing == [] then map[]
    else IdsByTaxa(existing[..|existing| - 1])[existing[|existing| - 1].name := |existing| - 1]
  }

  /** Every taxon's name has an id, and the id of a name is the last index holding it. */
  lemma {:induction false} IdsByTaxaLast(existing: seq<Taxon>)
    ensures forall i :: 0 <= i < |existing| ==> existing[i].name in IdsByTaxa(existing)
    ensures forall name :: name in IdsByTaxa(existing) ==>
      IdsByTaxa(existing)[name] < |existing| && existing[IdsByTaxa(existing)[name]].name == name
    ensures forall name, j :: name in IdsByTaxa(existing) && IdsByTaxa(existing)[name] < j < |existing| ==>
      existing[j].name != name
    decreases |existing|
  {
    if existing != [] {
      var n := |existing| - 1;
      var init := existing[..n];
      var ids := IdsByTaxa(init);
      var r := IdsByTaxa(existing);
      IdsByTaxaLast(init);
      forall i | 0 <= i < |existing|
        ensures existing[i].name in r
      {
        if i < n {
          assert init[i] == existing[i];
        }
      }
      forall name | name in r
        ensures r[name] < |existing| && existing[r[name]].name == name
      {
        if name != existing[n].name {
          assert init[ids[name]] == existing[ids[name]];
        }
      }
      forall name, j | name in r && r[name] < j < |existing|
        ensures existing[j].name != name
      {
        if name != existing[n].name && j < n {
          assert init[j] == existing[j];
        }
      }
    }
  }

  /** The nodes of the first loop: one per taxon, labelled with its name and linked by its index. */
  function NodesOf(existing: seq<Taxon>): (r: map<nat, TaxonNode>)
    ensures forall i: nat :: i in r <==> i < |existing|
    ensures forall i :: i in r ==> r[i] == TaxonNode(existing[i].name, ViewsDescription.Href(ViewsDescriptionViewer.UrlIdPrefix, i))
    decreases |existing|
  {
    if existing == [] then map[]
    else
      var init := existing[..|existing| - 1];
      assert forall i :: 0 <= i < |init| ==> init[i] == existing[i];
      NodesOf(init)[|init| := TaxonNode(existing[|init|].name, ViewsDescription.Href(ViewsDescriptionViewer.UrlIdPrefix, |init|))]
  }

  /** The keys left once `taxa.pop(taxon_name)` took the taxon's own name out. */
  function Refs(t: Taxon): (r: seq<string>)
    ensures forall x :: x in r <==> x in t.taxa && x != t.name
  {
    Without(t.taxa, t.name)
  }

  function Without(keys: seq<string>, key: string): (r: seq<string>)
    ensures forall x :: x in r <==> x in keys && x != key
    decreases |keys|
  {
    if keys == [] then []
    else
      assert forall x :: x in keys <==> x == keys[0] || x in keys[1..];
      (if keys[0] != key then [keys[0]] else []) + Without(keys[1..], key)
  }

  /**
   * The inner loop: an edge from each reference's node to `target`, in
   * order, stopping at the first reference without a node.
   */
  function LinkRefs(ids: map<string, nat>, refs: seq<string>, target: nat, edges: set<Edge>): (r: (set<Edge>, Option<string>))
    ensures r.1.None? <==> forall i :: 0 <= i < |refs| ==> refs[i] in ids
    ensures r.1.Some? ==> r.1.value in refs && r.1.value !in ids
    ensures r.1.None? ==> forall e :: e in r.0 <==> e in edges || exists ref :: ref in refs && ref in ids && e == (ids[ref], target)
    decreases |refs|
  {
    if refs == [] then (edges, None)
    else if refs[0] !in ids then (edges, Some(refs[0]))
    else
      assert forall x :: x in refs <==> x == refs[0] || x in refs[1..];
      LinkRefs(ids, refs[1..], target, edges + {(ids[refs[0]], target)})
  }

  /**
   * The second loop of `TaxonomyEditor.setStage`: the edges added, and
   * the `KeyError` that stopped it, raised by `pop` for a taxon whose
   * taxa do not hold its own name or by a reference to a taxon that does
   * not exist.
   */
  function Link(ids: map<string, nat>, existing: seq<Taxon>, edges: set<Edge>): (r: (set<Edge>, Option<CreateError>))
    requires forall i :: 0 <= i < |existing| ==> existing[i].name in ids
    ensures r.1.None? <==> forall i :: 0 <= i < |existing| ==>
      existing[i].name in existing[i].taxa && forall ref :: ref in existing[i].taxa ==> ref in ids
    ensures r.1.None? ==> forall e :: e in r.0 <==> (e in edges ||
      exists i, ref :: 0 <= i < |existing| && ref in existing[i].taxa && ref != existing[i].name && e == (ids[ref], ids[existing[i].name]))
    decreases |existing|
  {
    if existing == [] then (edges, None)
    else
      var t := existing[0];
      if t.name !in t.taxa then (edges, Some(KeyError(t.name)))
      else
        var (linked, missing) := LinkRefs(ids, Refs(t), ids[t.name], edges);
        if missing.Some? then (linked, Some(KeyError(missing.value)))
        else
          assert forall i :: 0 <= i < |existing| - 1 ==> existing[1..][i] == existing[i + 1];
          LinkStep(ids, existing, edges, linked);
          Link(ids, existing[1..], linked)
  }

  /** Unfolds one taxon of `Link`: the facts about the rest carry over to the whole. */
  lemma LinkStep(ids: map<string, nat>, existing: seq<Taxon>, edges: set<Edge>, linked: set<Edge>)
    requires |existing| > 0
    requires forall i :: 0 <= i < |existing| ==> existing[i].name in ids
    requires existing[0].name in existing[0].taxa
    requires LinkRefs(ids, Refs(existing[0]), ids[existing[0].name], edges) == (linked, None)
    ensures forall ref :: ref in existing[0].taxa ==> ref in ids
    ensures forall e :: e in linked <==> (e in edges ||
      exists ref :: ref in existing[0].taxa && ref != existing[0].name && e == (ids[ref], ids[existing[0].name]))
  {
    var t := existing[0];
    forall ref | ref in t.taxa
      ensures ref in ids
    {
      if ref != t.name {
        var refs := Refs(t);
        assert ref in refs;
        var i :| 0 <= i < |refs| && refs[i] == ref;
      }
    }
  }

  /** Every node's link, read back by the viewer, views that node. */
  lemma ClickTaxonNode(existing: seq<Taxon>, base: string, i: nat)
    requires i < |existing|
    ensures i in NodesOf(existing)
    ensures ViewsDescriptionViewer.NodeOfUrl(base + "/" + NodesOf(existing)[i].href) == Ok(Some(i))
  {
    ViewsDescriptionViewer.NodeOfHref(base, i);
  }

  /** The id of a taxon's name is a node labelled with that name. */
  lemma IdsLabelled(existing: seq<Taxon>, name: string)
    requires name in IdsByTaxa(existing)
    ensures IdsByTaxa(existing)[name] in NodesOf(existing)
    ensures NodesOf(existing)[IdsByTaxa(existing)[name]].caption == name
  {
    IdsByTaxaLast(existing);
  }

  /** `_existingSelectionChanged`: the node of each selected taxon, or the `KeyError` of the first missing one. */
  function NodeIds(ids: map<string, nat>, names: seq<string>): (r: Result<seq<nat>, CreateError>)
    ensures r.Ok? <==> forall i :: 0 <= i < |names| ==> names[i] in ids
    ensures r.Ok? ==> |r.value| == |names| && forall i :: 0 <= i < |names| ==> r.value[i] == ids[names[i]]
    ensures r.Err? ==> r.error.KeyError? && r.error.key in names && r.error.key !in ids
    decreases |names|
  {
    if names == [] then Ok([])
    else if names[0] !in ids then Err(KeyError(names[0]))
    else
      var rest := NodeIds(ids, names[1..]);
      if rest.Err? then rest else Ok([ids[names[0]]] + rest.value)
  }

  /** Selecting existing taxa always finds their nodes, each labelled with the selected name. */
  lemma SelectedTaxaFound(existing: seq<Taxon>, selected: seq<nat>, names: seq<string>)
    requires |names| == |selected|
    requires forall k :: 0 <= k < |selected| ==> selected[k] < |existing| && existing[selected[k]].name == names[k]
    ensures NodeIds(IdsByTaxa(existing), names).Ok?
    ensures forall k :: 0 <= k < |names| ==>
      var node := NodeIds(IdsByTaxa(existing), names).value[k];
      node in NodesOf(existing) && NodesOf(existing)[node].caption == names[k]
  {
    var ids := IdsByTaxa(existing);
    IdsByTaxaLast(existing);
    assert forall k :: 0 <= k < |names| ==> names[k] in ids;
    var r := NodeIds(ids, names);
    forall k | 0 <= k < |names|
      ensures r.value[k] in NodesOf(existing) && NodesOf(existing)[r.value[k]].caption == names[k]
    {
      assert r.value[k] == ids[names[k]];
    }
  }

  /** The taxonomy editor's graph, as `setStage` leaves it. */
  class TaxonomyEditor {
    var nodes: map<nat, TaxonNode>
    var edges: set<Edge>
    var idsByTaxa: map<string, nat>

    constructor()
      ensures nodes == map[] && edges == {} && idsByTaxa == map[]
    {
      nodes := map[];
      edges := {};
      idsByTaxa := map[];
    }

    /**
     * `TaxonomyEditor.setStage` over the existing taxa: a fresh graph
     * with one node per taxon, then an edge from each taxon it extends,
     * stopped by the first `KeyError`.
     */
    method SetStage(existing: seq<Taxon>) returns (error: Option<CreateError>)
      modifies this
      ensures idsByTaxa == IdsByTaxa(existing)
      ensures nodes == NodesOf(existing)
      ensures forall i :: 0 <= i < |existing| ==> existing[i].name in idsByTaxa
      ensures (edges, error) == Link(idsByTaxa, existing, {})
    {
      AddNodes(existing);
      IdsByTaxaLast(existing);
      edges := {};
      error := LinkAll(existing);
    }

    /** The first loop of `setStage`: a node and an id per taxon. */
    method AddNodes(existing: seq<Taxon>)
      modifies this`nodes, this`idsByTaxa
      ensures idsByTaxa == IdsByTaxa(existing)
      ensures nodes == NodesOf(existing)
    {
      nodes := map[];
      idsByTaxa := map[];
      for index := 0 to |existing|
        invariant nodes == NodesOf(existing[..index])
        invariant idsByTaxa == IdsByTaxa(existing[..index])
      {
        assert existing[..index + 1][..index] == existing[..index];
        nodes := nodes[index := TaxonNode(existing[index].name, ViewsDescription.Href(ViewsDescriptionViewer.UrlIdPrefix, index))];
        idsByTaxa := idsByTaxa[existing[index].name := index];
      }
      assert existing[..|existing|] == existing;
    }

    /** The second loop of `setStage`: the edges of each taxon in turn, up to the first `KeyError`. */
    method LinkAll(existing: seq<Taxon>) returns (error: Option<CreateError>)
      requires forall i :: 0 <= i < |existing| ==> existing[i].name in idsByTaxa
      modifies this`edges
      ensures (edges, error) == Link(idsByTaxa, existing, old(edges))
    {
      error := None;
      var k := 0;
      while k < |existing|
        invariant k <= |existing|
        invariant forall i :: 0 <= i < |existing[k..]| ==> existing[k..][i].name in idsByTaxa
        invariant Link(idsByTaxa, existing, old(edges)) == Link(idsByTaxa, existing[k..], edges)
        decreases |existing| - k
      {
        var t := existing[k];
        if t.name !in t.taxa {
          return Some(KeyError(t.name));
        }
        var missing := LinkTaxon(Refs(t), idsByTaxa[t.name]);
        if missing.Some? {
          return Some(KeyError(missing.value));
        }
        assert existing[k..][1..] == existing[k + 1..];
        k := k + 1;
      }
    }

    /** The inner loop of `setStage` for one taxon. */
    method LinkTaxon(refs: seq<string>, target: nat) returns (missing: Option<string>)
      modifies this`edges
      ensures (edges, missing) == LinkRefs(idsByTaxa, refs, target, old(edges))
    {
      missing := None;
      var k := 0;
      while k < |refs|
        invariant k <= |refs|
        invariant LinkRefs(idsByTaxa, refs, target, old(edges)) == LinkRefs(idsByTaxa, refs[k..], target, edges)
        decreases |refs| - k
      {
        if refs[k] !in idsByTaxa {
          return Some(refs[k]);
        }
        assert refs[k..][1..] == refs[k + 1..];
        edges := edges + {(idsByTaxa[refs[k]], target)};
        k := k + 1;
      }
    }
  }
}
