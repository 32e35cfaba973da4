/**
 * The older spreadsheet dialog (`grill.views.spreadsheet`): one item per
 * prim and column in a standard item model, a chain of filtering proxies
 * (one per column) on top of it, column locks that switch the items'
 * editability, a paste that only checks the selection, and the type
 * column's combo box editor.
 */
module ViewsSpreadsheet {
  import opened Wrappers
  import Sheets = ViewsSheets

  // ---------------------------------------------------------------------
  // The proxy chain

  /** What a proxy finds at the source row it is asked about. */
  datatype SourceCell = InvalidCell | CellPrim(prim: Option<Sheets.PrimState>)

  /**
   * `_ProxyModel._extraFilters`: an invalid source index is an error
   * (`ValueError`); a row without a prim yet passes; otherwise the prim must
   * be a model when the model hierarchy filter is on.
   */
  function ExtraFilters(cell: SourceCell, useModelHierarchy: bool): (r: Result<bool, string>)
    ensures r.Err? <==> cell.InvalidCell?
    ensures r == Ok(false) <==> cell.CellPrim? && cell.prim.Some? && useModelHierarchy && !cell.prim.value.model
  {
    match cell
    case InvalidCell => Err("ValueError")
    case CellPrim(prim) =>
      if prim.None? then Ok(true)
      else if useModelHierarchy then Ok(prim.value.model)
      else Ok(true)
  }

  /**
   * `_ProxyModel.filterAcceptsRow`: Qt's own test on the filtered column's
   * text (`matches`) first, the extra filters only for rows it lets through.
   */
  function FilterAcceptsRow(matches: bool, cell: SourceCell, useModelHierarchy: bool): (r: Result<bool, string>)
    ensures !matches ==> r == Ok(false)
    ensures matches ==> r == ExtraFilters(cell, useModelHierarchy)
  {
    if matches then ExtraFilters(cell, useModelHierarchy) else Ok(false)
  }

  /** A row is shown exactly when its text matches and it is not a non-model prim under the model filter. */
  lemma FilterAcceptsRowExactly(matches: bool, cell: SourceCell, useModelHierarchy: bool)
    ensures FilterAcceptsRow(matches, cell, useModelHierarchy) == Ok(true) <==>
              && matches
              && cell.CellPrim?
              && (cell.prim.None? || !useModelHierarchy || cell.prim.value.model)
  {
  }

  /**
   * The item model under a chain of proxies: each proxy keeps, in order,
   * the rows of its source whose underlying model row it accepts.
   */
  datatype Chain = Base(rowCount: nat) | Proxy(accepts: set<nat>, source: Chain)

  /** The positions in `rows` of the rows a proxy keeps, in increasing order. */
  function Kept(rows: seq<nat>, accepts: set<nat>): (r: seq<nat>)
    ensures forall k :: 0 <= k < |r| ==> r[k] < |rows| && rows[r[k]] in accepts
    ensures forall j :: 0 <= j < |rows| && rows[j] in accepts ==> j in r
  {
    if rows == [] then []
    else
      var n := |rows| - 1;
      var init := Kept(rows[..n], accepts);
      assert forall j :: 0 <= j < n ==> rows[..n][j] == rows[j];
      if rows[n] in accepts then init + [n] else init
  }

  /** The underlying model rows a model of the chain shows, top to bottom. */
  function Rows(c: Chain): (r: seq<nat>)
  {
    match c
    case Base(n) => seq(n, i requires 0 <= i < n => i)
    case Proxy(accepts, source) =>
      var rows := Rows(source);
      var kept := Kept(rows, accepts);
      seq(|kept|, k requires 0 <= k < |kept| => rows[kept[k]])
  }

  /** `mapToSource` of one proxy: the row of its source that its row `i` shows. */
  function MapToSource(c: Chain, i: nat): (r: nat)
    requires c.Proxy? && i < |Rows(c)|
    ensures r < |Rows(c.source)| && Rows(c.source)[r] == Rows(c)[i]
  {
    Kept(Rows(c.source), c.accepts)[i]
  }

  /** `_sourceIndex`: follow `mapToSource` down the chain to the item model's row. */
  function SourceRow(c: Chain, i: nat): (r: nat)
    requires i < |Rows(c)|
  {
    match c
    case Base(_) => i
    case Proxy(_, source) => SourceRow(source, MapToSource(c, i))
  }

  /** The source row of a visible row is the item model row the table shows there. */
  lemma {:induction false} SourceRowShown(c: Chain, i: nat)
    requires i < |Rows(c)|
    ensures SourceRow(c, i) == Rows(c)[i]
  {
    match c
    case Base(_) =>
    case Proxy(_, source) =>
      SourceRowShown(source, MapToSource(c, i));
  }

  /** Every proxy of the chain on top of one another: the item model rows each of them accepts. */
  ghost predicate AcceptedByAll(c: Chain, row: nat) {
    match c
    case Base(n) => row < n
    case Proxy(accepts, source) => row in accepts && AcceptedByAll(source, row)
  }

  /** The table shows exactly the rows every proxy of the chain accepts. */
  lemma {:induction false} RowsAccepted(c: Chain, row: nat)
    ensures row in Rows(c) <==> AcceptedByAll(c, row)
  {
    match c
    case Base(n) =>
      if row < n {
        assert Rows(c)[row] == row;
      }
    case Proxy(accepts, source) =>
      RowsAccepted(source, row);
      var rows := Rows(source);
      var kept := Kept(rows, accepts);
      if row in Rows(c) {
        var k :| 0 <= k < |Rows(c)| && Rows(c)[k] == row;
        assert rows[kept[k]] == row;
      }
      if row in rows && row in accepts {
        var j :| 0 <= j < |rows| && rows[j] == row;
        assert j in kept;
        var k :| 0 <= k < |kept| && kept[k] == j;
        assert Rows(c)[k] == row;
      }
  }

  /** `_ProxyModel.headerData`: rows numbered from one by position, anything else left to Qt. */
  function HeaderData(section: nat, orientation: Sheets.Orientation, role: Sheets.Role): (r: Sheets.Header)
    ensures r.SectionNumber? <==> role == Sheets.DisplayRole && orientation == Sheets.Vertical
    ensures r.SectionNumber? ==> r.n == section + 1
    ensures !r.Blank?
  {
    if role == Sheets.DisplayRole && orientation == Sheets.Vertical then Sheets.SectionNumber(section + 1)
    else Sheets.QtHeader
  }

  // ---------------------------------------------------------------------
  // The type column's combo box

  /** `QComboBox.findText`: the first option with the text, `-1` when none. */
  function FindText(options: seq<string>, text: string): (r: int)
    ensures -1 <= r < |options|
    ensures r == -1 <==> text !in options
    ensures r >= 0 ==> options[r] == text && forall k :: 0 <= k < r ==> options[k] != text
  {
    if options == [] then -1
    else if options[0] == text then 0
    else
      var r := FindText(options[1..], text);
      assert forall k :: 1 <= k < |options| ==> options[k] == options[1..][k - 1];
      assert text in options <==> text in options[1..];
      if r == -1 then -1 else r + 1
  }

  /** `currentText` of a combo box at an index; no selection shows empty text. */
  function CurrentText(options: seq<string>, index: int): string {
    if 0 <= index < |options| then options[index] else ""
  }

  /**
   * `ComboBoxItemDelegate.setEditorData` as written: the found index is
   * applied when it is truthy, so index 0 is skipped and `-1` (not found)
   * is applied.
   */
  function SetEditorDataAsWritten(options: seq<string>, text: string, current: int): (r: int)
  {
    var found := FindText(options, text);
    if found != 0 then found else current
  }

  /**
   * A type the options do not hold clears the fresh editor, and committing
   * it untouched writes an empty type name.
   */
  lemma EditorAsWrittenClearsType(options: seq<string>, text: string)
    requires text !in options
    ensures SetEditorDataAsWritten(options, text, 0) == -1
    ensures CurrentText(options, SetEditorDataAsWritten(options, text, 0)) == ""
  {
  }

  /** An editor left on another option does not move to the first option when that is the cell's type. */
  lemma EditorAsWrittenSkipsFirst(options: seq<string>, current: int)
    requires options != [] && current != 0
    ensures SetEditorDataAsWritten(options, options[0], current) == current
  {
  }

  /** The editor as intended: show the cell's type when it is an option, otherwise keep the current one. */
  function SetEditorData(options: seq<string>, text: string, current: int): (r: int)
    ensures text in options ==> 0 <= r < |options| && options[r] == text
    ensures text !in options ==> r == current
  {
    var found := FindText(options, text);
    if found != -1 then found else current
  }

  /** Committing an untouched intended editor keeps the type, when the type is an option. */
  lemma EditorKeepsType(options: seq<string>, text: string, current: int)
    requires text in options
    ensures CurrentText(options, SetEditorData(options, text, current)) == text
  {
  }

  // ---------------------------------------------------------------------
  // The dialog

  /** A standard item: the text it shows, the prim of its row, and whether it can be edited. */
  datatype Item = Item(text: string, prim: Sheets.PrimState, editable: bool)

  /** `_addPrimToRow`'s items for a prim: one per column, showing the column's text, editable. */
  function RowOf(columns: seq<Sheets.Column>, prim: Sheets.PrimState): (r: seq<Item>)
    ensures |r| == |columns|
    ensures forall c :: 0 <= c < |r| ==> r[c] == Item(columns[c].getter(prim), prim, true)
  {
    seq(|columns|, c requires 0 <= c < |columns| => Item(columns[c].getter(prim), prim, true))
  }

  datatype PasteError = NothingToDo | SelectionWithGaps

  /**
   * `Spreadsheet`: the items of the stage's prims, the table's sorting
   * switch and the checkbox that drives it, one lock button per column and
   * the lock-all button.
   */
  class Spreadsheet {
    const columns: seq<Sheets.Column>
    var items: seq<seq<Item>>
    var sortingEnabled: bool
    var sortingChecked: bool
    var lockButtons: seq<bool>
    var lockAllText: string

    ghost predicate Valid()
      reads this
    {
      && |lockButtons| == |columns|
      && (forall r :: 0 <= r < |items| ==> |items[r]| == |columns|)
      && (lockAllText == Sheets.LockKey || lockAllText == Sheets.UnlockKey)
    }

    /** A new dialog shows the given stage, sorted as the checked checkbox says, nothing locked. */
    constructor(columns: seq<Sheets.Column>, stagePrims: seq<Sheets.PrimState>)
      ensures Valid()
      ensures this.columns == columns && |items| == |stagePrims|
      ensures forall i :: 0 <= i < |stagePrims| ==> items[i] == RowOf(columns, stagePrims[i])
      ensures sortingEnabled && sortingChecked
      ensures lockButtons == seq(|columns|, _ => false) && lockAllText == Sheets.LockKey
    {
      this.columns := columns;
      items := [];
      sortingEnabled := false;
      sortingChecked := true;
      lockButtons := seq(|columns|, _ => false);
      lockAllText := Sheets.LockKey;
      new;
      SetStage(stagePrims);
    }

    /** `_addPrimToRow`: the row's items, column by column. */
    method AddPrimToRow(prim: Sheets.PrimState) returns (row: seq<Item>)
      ensures row == RowOf(columns, prim)
    {
      row := [];
      var c := 0;
      while c < |columns|
        invariant 0 <= c <= |columns|
        invariant row == RowOf(columns, prim)[..c]
      {
        row := row + [Item(columns[c].getter(prim), prim, true)];
        c := c + 1;
      }
    }

    /**
     * `setStage`: every prim of the stage on its own row, in traversal
     * order, every item editable again, sorting back as the checkbox says.
     */
    method SetStage(stagePrims: seq<Sheets.PrimState>)
      requires |lockButtons| == |columns|
      requires lockAllText == Sheets.LockKey || lockAllText == Sheets.UnlockKey
      modifies this`items, this`sortingEnabled
      ensures Valid()
      ensures |items| == |stagePrims|
      ensures forall i :: 0 <= i < |stagePrims| ==> items[i] == RowOf(columns, stagePrims[i])
      ensures forall i, c :: 0 <= i < |items| && 0 <= c < |columns| ==> items[i][c].editable
      ensures sortingEnabled == sortingChecked
    {
      items := [];
      sortingEnabled := false;
      var i := 0;
      while i < |stagePrims|
        invariant 0 <= i <= |stagePrims| && |items| == i
        invariant forall k :: 0 <= k < i ==> items[k] == RowOf(columns, stagePrims[k])
      {
        var row := AddPrimToRow(stagePrims[i]);
        items := items + [row];
        i := i + 1;
      }
      sortingEnabled := sortingChecked;
    }

    /** `_setColumnLocked`: every item of the column editable exactly when the column is unlocked. */
    method SetColumnLocked(column: nat, value: bool)
      requires Valid() && column < |columns|
      modifies this`items
      ensures Valid() && |items| == old(|items|)
      ensures forall r :: 0 <= r < |items| ==> items[r][column] == old(items[r][column]).(editable := !value)
      ensures forall r, c :: 0 <= r < |items| && 0 <= c < |columns| && c != column ==> items[r][c] == old(items[r][c])
    {
      var r := 0;
      while r < |items|
        invariant 0 <= r <= |items| == old(|items|)
        invariant forall k :: 0 <= k < |items| ==> |items[k]| == |columns|
        invariant forall k :: 0 <= k < r ==> items[k] == old(items[k])[column := old(items[k][column]).(editable := !value)]
        invariant forall k :: r <= k < |items| ==> items[k] == old(items[k])
      {
        items := items[r := items[r][column := items[r][column].(editable := !value)]];
        r := r + 1;
      }
    }

    /** `_conformLockSwitch`: the lock-all button offers the opposite of what most columns are. */
    method ConformLockSwitch() returns (current: bool)
      requires Valid() && |lockButtons| > 0
      modifies this`lockAllText
      ensures Valid()
      ensures current == Sheets.MostCommon(lockButtons)
      ensures lockAllText == Sheets.LockKeyOf(!current)
    {
      current := Sheets.MostCommon(lockButtons);
      lockAllText := Sheets.LockKeyOf(!current);
    }

    /**
     * `_conformLocked`: every lock button set as the lock-all button says,
     * every item of every column editable exactly when unlocked, and the
     * button then offers the opposite.
     */
    method ConformLocked() returns (value: bool)
      requires Valid()
      modifies this`items, this`lockButtons, this`lockAllText
      ensures Valid() && |items| == old(|items|)
      ensures Some(value) == Sheets.LockState(old(lockAllText))
      ensures forall i :: 0 <= i < |lockButtons| ==> lockButtons[i] == value
      ensures forall r, c :: 0 <= r < |items| && 0 <= c < |columns| ==>
                items[r][c] == old(items[r][c]).(editable := !value)
      ensures lockAllText == Sheets.LockKeyOf(!value)
    {
      value := Sheets.LockState(lockAllText).value;
      var c := 0;
      while c < |columns|
        invariant 0 <= c <= |columns| && Valid() && |items| == old(|items|)
        invariant forall k :: 0 <= k < c ==> lockButtons[k] == value
        invariant forall r, k :: 0 <= r < |items| && 0 <= k < c ==> items[r][k] == old(items[r][k]).(editable := !value)
        invariant forall r, k :: 0 <= r < |items| && c <= k < |columns| ==> items[r][k] == old(items[r][k])
      {
        lockButtons := lockButtons[c := value];
        SetColumnLocked(c, value);
        c := c + 1;
      }
      lockAllText := Sheets.LockKeyOf(!value);
    }

    /**
     * `_pasteClipboard`: the empty clipboard and a selection with gaps are
     * refused; otherwise sorting is switched off and nothing is pasted yet,
     * and sorting stays off.
     */
    method PasteClipboard(data: seq<seq<string>>, selection: seq<Sheets.Selected>) returns (r: Result<(), PasteError>)
      modifies this`sortingEnabled
      ensures data == [] ==> r == Err(NothingToDo)
      ensures data != [] && |selection| != |Sheets.SelectedRows(selection)| * |Sheets.SelectedColumns(selection)| ==>
                r == Err(SelectionWithGaps)
      ensures r.Err? ==> sortingEnabled == old(sortingEnabled)
      ensures r.Ok? ==> !sortingEnabled
      ensures items == old(items)
    {
      if data == [] {
        return Err(NothingToDo);
      }
      if |selection| != |Sheets.SelectedRows(selection)| * |Sheets.SelectedColumns(selection)| {
        return Err(SelectionWithGaps);
      }
      sortingEnabled := false;
      return Ok(());
    }
  }
}
