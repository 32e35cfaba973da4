/**
 * The first table model over a USD stage (`grill.views._model`): the
 * loaded, non-abstract prims of a stage, one row each, sortable by a
 * column's text, with only the second column marked editable.
 */
module ViewsModel {
  import opened Wrappers
  import PySorted
  import Sheets = ViewsSheets

  /** `_Column`'s default setter: the object back unchanged, so a column is read-only unless given one. */
  function DefaultSetter(prim: Sheets.PrimState, value: string): (r: Sheets.PrimState)
  {
    prim
  }

  /** Setting a value through the default setter changes nothing any column shows. */
  lemma DefaultSetterReadOnly(column: Sheets.Column, prim: Sheets.PrimState, value: string)
    ensures column.getter(DefaultSetter(prim, value)) == column.getter(prim)
  {
  }

  /** The columns of `StageTable`: their names and whether each has a setter of its own. */
  datatype ColumnSpec = ColumnSpec(name: string, hasSetter: bool)

  const TableColumns := [
    ColumnSpec("Path", false),
    ColumnSpec("Name", false),
    ColumnSpec("Type", true),
    ColumnSpec("Documentation", true),
    ColumnSpec("Instanceable", true),
    ColumnSpec("Visibility", false),
    ColumnSpec("Hidden", true)
  ]

  /** `flags`: only the second column is editable. */
  predicate Editable(column: nat) {
    column == 1
  }

  /** The one editable column is the name column, which keeps the read-only default setter. */
  lemma EditableColumnReadOnly(column: nat)
    requires column < |TableColumns| && Editable(column)
    ensures TableColumns[column].name == "Name" && !TableColumns[column].hasSetter
  {
  }

  /**
   * The prims a traversal of the stage with `PrimIsLoaded & ~PrimIsAbstract`
   * visits, in traversal order. Unloaded and abstract prims have only
   * unloaded and abstract descendants, so pruning at them and filtering
   * them out agree; instance proxies are not traversed.
   */
  function LoadedConcrete(stagePrims: seq<Sheets.PrimState>): (r: seq<Sheets.PrimState>)
    ensures forall p :: p in r <==> p in stagePrims && p.loaded && !p.isAbstract && !p.instanceProxy
    ensures |r| <= |stagePrims|
  {
    if stagePrims == [] then []
    else
      var p := stagePrims[0];
      var rest := LoadedConcrete(stagePrims[1..]);
      assert forall q :: q in stagePrims <==> q == p || q in stagePrims[1..];
      if p.loaded && !p.isAbstract && !p.instanceProxy then [p] + rest else rest
  }

  /** `StageTableModel`: one row per listed prim, one column per spec. */
  class StageTableModel {
    const columns: seq<Sheets.Column>
    var stage: Option<seq<Sheets.PrimState>>
    var prims: seq<Sheets.PrimState>

    constructor(columns: seq<Sheets.Column>)
      ensures this.columns == columns && stage == None && prims == []
    {
      this.columns := columns;
      stage := None;
      prims := [];
    }

    /** The `stage` setter. */
    method SetStage(value: seq<Sheets.PrimState>)
      modifies this`stage, this`prims
      ensures stage == Some(value) && prims == LoadedConcrete(value)
    {
      stage := Some(value);
      prims := LoadedConcrete(value);
    }

    function RowCount(): (r: nat)
      reads this
      ensures r == |prims|
    {
      |prims|
    }

    function ColumnCount(): (r: nat)
      ensures r == |columns|
    {
      |columns|
    }

    /** `data(index, role)`: the prim for the raw role, the column's text for display, nothing else. */
    function Data(index: Sheets.Index, role: Sheets.Role): (r: Sheets.CellData)
      reads this
      requires index.Cell? ==> index.row < |prims| && index.column < |columns|
      ensures index.Invalid? ==> r == Sheets.NoData
      ensures index.Cell? && role == Sheets.RawRole ==> r == Sheets.PrimData(prims[index.row])
      ensures index.Cell? && role == Sheets.DisplayRole ==> r == Sheets.TextData(columns[index.column].getter(prims[index.row]))
      ensures role != Sheets.RawRole && role != Sheets.DisplayRole ==> r == Sheets.NoData
    {
      match index
      case Invalid => Sheets.NoData
      case Cell(row, column) =>
        if role == Sheets.RawRole then Sheets.PrimData(prims[row])
        else if role != Sheets.DisplayRole then Sheets.NoData
        else Sheets.TextData(columns[column].getter(prims[row]))
    }

    /** `sort(column, order)`: as `ViewsSheets.StageTableModel.Sort`, ascending largest first. */
    method Sort(column: nat, order: Sheets.SortOrder)
      requires column < |columns|
      modifies this`prims
      ensures prims == PySorted.Sorted(old(prims), columns[column].getter, order == Sheets.Ascending)
      ensures multiset(prims) == multiset(old(prims))
      ensures PySorted.Ordered(prims, columns[column].getter, order == Sheets.Ascending)
    {
      PySorted.SortedOrdered(prims, columns[column].getter, order == Sheets.Ascending);
      prims := PySorted.Sorted(prims, columns[column].getter, order == Sheets.Ascending);
    }
  }

  /** `_ProxyModel.sort`: a proxy of the chain sorts the table model underneath. */
  class ProxyModel {
    const source: StageTableModel

    constructor(source: StageTableModel)
      ensures this.source == source
    {
      this.source := source;
    }

    method Sort(column: nat, order: Sheets.SortOrder)
      requires column < |source.columns|
      modifies source`prims
      ensures multiset(source.prims) == multiset(old(source.prims))
      ensures PySorted.Ordered(source.prims, source.columns[column].getter, order == Sheets.Ascending)
    {
      source.Sort(column, order);
    }
  }
}
