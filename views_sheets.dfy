/**
 * The spreadsheet editor over a USD stage (`grill.views.sheets`): which
 * prims its table lists, how each cell is coloured and set in type, how
 * columns lock and unlock, how a selection is copied as a grid of text
 * and where a pasted grid of text lands.
 */
module ViewsSheets {
  import opened Wrappers
  import opened Texts
  import PySorted

  // ---------------------------------------------------------------------
  // Prims as the table sees them

  /** The composition arcs a prim can have authored; any of them colours its row. */
  datatype ArcKind = References | Payloads | Inherits | Specializes | VariantSets

  /** The facts about a prim the table reads. */
  datatype PrimState = PrimState(
    path: string,
    isAbstract: bool,     // a class, or under one
    defined: bool,        // it and its ancestors have defining specifiers
    active: bool,
    instance: bool,
    inPrototype: bool,
    instanceProxy: bool,
    arcs: set<ArcKind>,   // arcs and variant sets authored on it
    model: bool,          // part of the model hierarchy
    loaded: bool)

  /** The two traversal buttons: valid model hierarchy only, and whether to go into instances. */
  datatype TraversalOptions = TraversalOptions(modelHierarchy: bool, instanceProxies: bool)

  /**
   * The prims a stage traversal with these options visits. Every ancestor
   * of a model is a model and every descendant of an instance proxy is one,
   * so pruning the traversal at a rejected prim and filtering it agree.
   */
  predicate Traverses(t: TraversalOptions, p: PrimState) {
    (!t.modelHierarchy || p.model) && (t.instanceProxies || !p.instanceProxy)
  }

  // ---------------------------------------------------------------------
  // The prim filter of the editor's buttons

  datatype LogicalOp = And | Or

  /** The specifier and status buttons, and the operator that joins the two tests. */
  datatype FilterOptions = FilterOptions(
    orphaned: bool, classes: bool, defined: bool, active: bool, inactive: bool, op: LogicalOp)

  predicate Specifier(o: FilterOptions, p: PrimState) {
    (o.classes && p.isAbstract) || (o.orphaned && !p.defined) || (o.defined && p.defined && !p.isAbstract)
  }

  predicate Status(o: FilterOptions, p: PrimState) {
    (o.active && p.active) || (o.inactive && !p.active)
  }

  /** `_filter_predicate(...)(prim)`. */
  predicate FilterAccepts(o: FilterOptions, p: PrimState) {
    match o.op
    case And => Specifier(o, p) && Status(o, p)
    case Or => Specifier(o, p) || Status(o, p)
  }

  /** The buttons checked when the editor opens: defined and active, joined by `and`. */
  const EditorFilter := FilterOptions(false, false, true, true, false, And)
  const EditorTraversal := TraversalOptions(true, true)

  /** Opening the editor lists the defined, non-abstract, active prims. */
  lemma EditorFilterAccepts(p: PrimState)
    ensures FilterAccepts(EditorFilter, p) <==> p.defined && !p.isAbstract && p.active
  {
  }

  /** With all three specifier buttons checked every prim passes the specifier test. */
  lemma EverySpecifier(o: FilterOptions, p: PrimState)
    requires o.orphaned && o.classes && o.defined
    ensures Specifier(o, p)
  {
  }

  /** With both status buttons checked every prim passes the status test. */
  lemma EveryStatus(o: FilterOptions, p: PrimState)
    requires o.active && o.inactive
    ensures Status(o, p)
  {
  }

  /** Switching the operator from `and` to `or` only lets more prims through. */
  lemma OrWidens(o: FilterOptions, p: PrimState)
    requires o.op == And && FilterAccepts(o, p)
    ensures FilterAccepts(o.(op := Or), p)
  {
  }

  /** The filter a model applies: none before the editor first sets one. */
  predicate Keeps(filter: Option<FilterOptions>, p: PrimState) {
    filter.None? || FilterAccepts(filter.value, p)
  }

  /** The prims the table lists: those the traversal visits and the filter keeps, in traversal order. */
  function Listed(stagePrims: seq<PrimState>, t: TraversalOptions, filter: Option<FilterOptions>): (r: seq<PrimState>)
    ensures forall p :: p in r <==> p in stagePrims && Traverses(t, p) && Keeps(filter, p)
    ensures |r| <= |stagePrims|
  {
    if stagePrims == [] then []
    else
      var rest := Listed(stagePrims[1..], t, filter);
      assert forall p :: p in stagePrims <==> p == stagePrims[0] || p in stagePrims[1..];
      if Traverses(t, stagePrims[0]) && Keeps(filter, stagePrims[0]) then [stagePrims[0]] + rest else rest
  }

  // ---------------------------------------------------------------------
  // How a cell looks

  /** `_PrimTextColor`; `NoColor` is the `None` the model hands Qt. */
  datatype TextColor = NoColor | InstanceColor | PrototypeColor | InactiveColor | InactiveArcsColor | ArcsColor

  /** The foreground colour of a prim's row, following the stage viewer's conventions. */
  function ForegroundColor(p: PrimState): (r: TextColor)
    ensures r == InstanceColor <==> p.instance
    ensures r == PrototypeColor <==> !p.instance && (p.inPrototype || p.instanceProxy)
    ensures (r == ArcsColor || r == InactiveArcsColor) <==>
              !p.instance && !p.inPrototype && !p.instanceProxy && p.arcs != {}
    ensures r == ArcsColor ==> p.active
    ensures r == InactiveArcsColor ==> !p.active
    ensures r == InactiveColor <==>
              !p.instance && !p.inPrototype && !p.instanceProxy && p.arcs == {} && !p.active
    ensures r == NoColor <==>
              !p.instance && !p.inPrototype && !p.instanceProxy && p.arcs == {} && p.active
  {
    if p.instance then InstanceColor
    else if p.inPrototype || p.instanceProxy then PrototypeColor
    else if p.arcs != {} then (if p.active then ArcsColor else InactiveArcsColor)
    else if !p.active then InactiveColor
    else NoColor
  }

  datatype Weight = ExtraLight | Light | NormalWeight

  /** A font: its weight, whether italic, and its letter spacing as a percentage when set. */
  datatype Font = Font(weight: Weight, italic: bool, spacing: Option<nat>)

  /** `_prim_font(abstract=..., orphaned=...)`: abstract wins over orphaned. */
  function PrimFont(isAbstract: bool, orphaned: bool): (r: Font)
    ensures r.weight == ExtraLight <==> isAbstract
    ensures r.spacing.Some? <==> isAbstract
    ensures r.weight == Light <==> !isAbstract && orphaned
    ensures r.italic <==> !isAbstract && orphaned
    ensures r.weight == NormalWeight <==> !isAbstract && !orphaned
  {
    if isAbstract then Font(ExtraLight, false, Some(120))
    else if orphaned then Font(Light, true, None)
    else Font(NormalWeight, false, None)
  }

  /** The font of a prim's row: abstract prims light and spaced, undefined ones italic. */
  function FontOf(p: PrimState): (r: Font)
    ensures r.weight == ExtraLight <==> p.isAbstract
    ensures r.italic <==> !p.isAbstract && !p.defined
  {
    PrimFont(p.isAbstract, !p.defined)
  }

  // ---------------------------------------------------------------------
  // The table model

  /** A column: its header name and the text it shows for a prim. */
  datatype Column = Column(name: string, getter: PrimState -> string)

  datatype SortOrder = Ascending | Descending
  datatype Role = RawRole | ForegroundRole | FontRole | DisplayRole | OtherRole
  datatype Index = Invalid | Cell(row: nat, column: nat)

  /** What `data` hands Qt. */
  datatype CellData = NoData | PrimData(prim: PrimState) | ColorData(color: TextColor) | FontData(font: Font) | TextData(text: string)

  /** `StageTableModel`: the listed prims of a stage, one row each, one column per spec. */
  class StageTableModel {
    const columns: seq<Column>
    var stage: Option<seq<PrimState>>
    var prims: seq<PrimState>
    var lockedColumns: set<nat>
    var filter: Option<FilterOptions>
    var traversal: TraversalOptions

    constructor(columns: seq<Column>)
      ensures this.columns == columns && stage == None && prims == []
      ensures lockedColumns == {} && filter == None && traversal == TraversalOptions(false, false)
    {
      this.columns := columns;
      stage := None;
      prims := [];
      lockedColumns := {};
      filter := None;
      traversal := TraversalOptions(false, false);
    }

    /** The `stage` setter: list the prims the traversal visits and the filter keeps. */
    method SetStage(value: seq<PrimState>)
      modifies this`stage, this`prims
      ensures stage == Some(value)
      ensures prims == Listed(value, traversal, filter)
    {
      stage := Some(value);
      prims := Listed(value, traversal, filter);
    }

    function RowCount(): (r: nat)
      reads this
      ensures r == |prims|
    {
      |prims|
    }

    function ColumnCount(): (r: nat)
      ensures r == |columns|
    {
      |columns|
    }

    /** `data(index, role)` for an index of this table. */
    function Data(index: Index, role: Role): (r: CellData)
      reads this
      requires index.Cell? ==> index.row < |prims| && index.column < |columns|
      ensures index.Invalid? ==> r == NoData
      ensures index.Cell? && role == RawRole ==> r == PrimData(prims[index.row])
      ensures index.Cell? && role == ForegroundRole ==> r == ColorData(ForegroundColor(prims[index.row]))
      ensures index.Cell? && role == FontRole ==> r == FontData(FontOf(prims[index.row]))
      ensures index.Cell? && role == DisplayRole ==> r == TextData(columns[index.column].getter(prims[index.row]))
      ensures role == OtherRole ==> r == NoData
    {
      match index
      case Invalid => NoData
      case Cell(row, column) =>
        var prim := prims[row];
        match role
        case RawRole => PrimData(prim)
        case ForegroundRole => ColorData(ForegroundColor(prim))
        case FontRole => FontData(FontOf(prim))
        case DisplayRole => TextData(columns[column].getter(prim))
        case OtherRole => NoData
    }

    /**
     * `sort(column, order)`: the prims by the column's text, keeping the
     * order of equal texts. Qt's ascending order asks for `reverse=True`,
     * so an ascending sort shows the largest text first.
     */
    method Sort(column: nat, order: SortOrder)
      requires column < |columns|
      modifies this`prims
      ensures prims == PySorted.Sorted(old(prims), columns[column].getter, order == Ascending)
      ensures multiset(prims) == multiset(old(prims))
      ensures PySorted.Ordered(prims, columns[column].getter, order == Ascending)
    {
      PySorted.SortedOrdered(prims, columns[column].getter, order == Ascending);
      prims := PySorted.Sorted(prims, columns[column].getter, order == Ascending);
    }

    /** `flags(index)` allows edits: the column is unlocked and the prim is no instance proxy. */
    predicate Editable(row: nat, column: nat)
      reads this
      requires row < |prims|
    {
      column !in lockedColumns && !prims[row].instanceProxy
    }

    /** `StageTable._setColumnLocked`: lock or unlock one column for edits. */
    method SetColumnLocked(column: nat, value: bool)
      modifies this`lockedColumns
      ensures lockedColumns == if value then old(lockedColumns) + {column} else old(lockedColumns) - {column}
      ensures forall row :: 0 <= row < |prims| ==> (Editable(row, column) <==> !value && !prims[row].instanceProxy)
      ensures forall row, c :: 0 <= row < |prims| && c != column ==> (Editable(row, c) <==> old(Editable(row, c)))
    {
      if value {
        lockedColumns := lockedColumns + {column};
      } else {
        lockedColumns := lockedColumns - {column};
      }
    }
  }

  /** `_ProxyModel.sort`: a proxy of the chain sorts the table model underneath. */
  class ProxyModel {
    const source: StageTableModel

    constructor(source: StageTableModel)
      ensures this.source == source
    {
      this.source := source;
    }

    method Sort(column: nat, order: SortOrder)
      requires column < |source.columns|
      modifies source`prims
      ensures source.prims == PySorted.Sorted(old(source.prims), source.columns[column].getter, order == Ascending)
    {
      source.Sort(column, order);
    }
  }

  datatype Orientation = Horizontal | Vertical

  /** What a header section shows; `QtHeader` is what Qt's own proxy would. */
  datatype Header = SectionNumber(n: nat) | Blank | QtHeader

  /** `_ProxyModel.headerData`: rows numbered from one by position, column labels left to the custom header. */
  function HeaderData(section: nat, orientation: Orientation, role: Role): (r: Header)
    ensures r.SectionNumber? <==> role == DisplayRole && orientation == Vertical
    ensures r.SectionNumber? ==> r.n == section + 1
    ensures r.Blank? <==> role == DisplayRole && orientation == Horizontal
  {
    if role != DisplayRole then QtHeader
    else match orientation
      case Vertical => SectionNumber(section + 1)
      case Horizontal => Blank
  }

  /** The vertical header numbers the rows shown 1, 2, 3, ... whatever rows of the model they are. */
  lemma VerticalHeaderNumbers(rows: nat)
    ensures forall s :: 0 <= s < rows ==> HeaderData(s, Vertical, DisplayRole) == SectionNumber(s + 1)
  {
  }

  // ---------------------------------------------------------------------
  // The editor's lock buttons

  const LockKey := "\U{1F510} Lock All"
  const UnlockKey := "\U{1F513} Unlock All"

  /** `_lock_key_by_value`: the button offers to lock all for `true`. */
  function LockKeyOf(value: bool): string {
    if value then LockKey else UnlockKey
  }

  /** `_lock_states[text]`: the text must be one of the two keys exactly; `None` is the `KeyError`. */
  function LockState(text: string): (r: Option<bool>)
    ensures r == Some(true) <==> text == LockKey
    ensures r == Some(false) <==> text == UnlockKey
  {
    if text == LockKey then Some(true)
    else if text == UnlockKey then Some(false)
    else None
  }

  /**
   * `text()` of a widget set to `text`. Some hosts' widgets (Maya's) drop
   * the last character of text with an emoji on it; `dropsLast` says
   * whether the widgets do. Every text this module sets carries an emoji.
   */
  function WidgetText(text: string, dropsLast: bool): string {
    if dropsLast && |text| > 0 then text[..|text| - 1] else text
  }

  /** `_emoji_suffix()`: "" where a label keeps its emoji text whole, one space where the last character is dropped. */
  function EmojiSuffix(dropsLast: bool): (r: string)
    ensures r == (if dropsLast then " " else "")
  {
    var probe := "\U{1F50E} Hello";
    if WidgetText(probe, dropsLast) == probe then "" else " "
  }

  /** On either kind of widget, a key set with `_emoji_suffix()` is read back by `text()` as that key, so `_lock_states` knows it. */
  lemma LockValueRoundTrip(value: bool, dropsLast: bool)
    ensures WidgetText(LockKeyOf(value) + EmojiSuffix(dropsLast), dropsLast) == LockKeyOf(value)
    ensures LockState(WidgetText(LockKeyOf(value) + EmojiSuffix(dropsLast), dropsLast)) == Some(value)
  {
    var t := LockKeyOf(value) + EmojiSuffix(dropsLast);
    assert t[..|LockKeyOf(value)|] == LockKeyOf(value);
  }

  /** Without the suffix, widgets that drop the last character would give back a text `_lock_states` does not know. */
  lemma SuffixNeeded(value: bool)
    ensures LockState(WidgetText(LockKeyOf(value), true)) == None
  {
    var k := LockKeyOf(value);
    assert |WidgetText(k, true)| == |k| - 1;
  }

  function Count(states: seq<bool>, value: bool): (r: nat)
    ensures r <= |states|
  {
    if states == [] then 0
    else (if states[0] == value then 1 else 0) + Count(states[1..], value)
  }

  lemma {:induction false} CountBoth(states: seq<bool>)
    ensures Count(states, true) + Count(states, false) == |states|
  {
    if states != [] {
      CountBoth(states[1..]);
    }
  }

  /**
   * `Counter(states).most_common(1)`'s value: the more frequent one, and on
   * a tie the one counted first.
   */
  function MostCommon(states: seq<bool>): (r: bool)
    requires states != []
    ensures Count(states, r) >= Count(states, !r)
    ensures Count(states, r) == Count(states, !r) ==> r == states[0]
  {
    var t := Count(states, true);
    var f := Count(states, false);
    if t > f then true else if f > t then false else states[0]
  }

  /** A strict majority of locked columns is what the editor reads as the current lock state. */
  lemma {:induction false} MostCommonMajority(states: seq<bool>, value: bool)
    requires 2 * Count(states, value) > |states|
    ensures MostCommon(states) == value
  {
    CountBoth(states);
  }

  /**
   * `SpreadsheetEditor`'s lock state: one lock button per column, the
   * lock-all button's text, and the table model whose locked columns the
   * buttons drive.
   */
  class SpreadsheetEditor {
    const model: StageTableModel
    const dropsLast: bool
    var lockButtons: seq<bool>
    var lockAllText: string
    var sortingEnabled: bool

    /** Each lock button agrees with the model's locked columns; the lock-all button shows one of its keys. */
    ghost predicate Valid()
      reads this, model
    {
      && |lockButtons| == |model.columns|
      && (forall i :: 0 <= i < |lockButtons| ==> (lockButtons[i] <==> i in model.lockedColumns))
      && (lockAllText == LockKeyOf(true) + EmojiSuffix(dropsLast) || lockAllText == LockKeyOf(false) + EmojiSuffix(dropsLast))
    }

    constructor(columns: seq<Column>, dropsLast: bool)
      ensures Valid() && fresh(model)
      ensures model.columns == columns && model.prims == [] && model.stage == None
      ensures lockButtons == seq(|columns|, _ => false) && lockAllText == LockKey + EmojiSuffix(dropsLast)
      ensures sortingEnabled
    {
      model := new StageTableModel(columns);
      this.dropsLast := dropsLast;
      lockButtons := seq(|columns|, _ => false);
      lockAllText := LockKey + EmojiSuffix(dropsLast);
      sortingEnabled := true;
    }

    /**
     * `_update_predicates`: the model takes the buttons' filter and
     * traversal, then lists the given stage, or its own again. Before any
     * stage was set there is nothing to traverse and `NoStage` stands for
     * the error the traversal raises.
     */
    method UpdatePredicates(filter: FilterOptions, traversal: TraversalOptions, newStage: Option<seq<PrimState>>)
      returns (r: Result<seq<PrimState>, string>)
      modifies model
      ensures model.filter == Some(filter) && model.traversal == traversal
      ensures model.lockedColumns == old(model.lockedColumns)
      ensures newStage.None? && old(model.stage).None? ==> r.Err? && model.prims == old(model.prims)
      ensures newStage.Some? ==> r == Ok(model.prims) && model.stage == newStage
      ensures newStage.Some? || old(model.stage).Some? ==>
                && r.Ok? && model.stage.Some?
                && forall p :: p in model.prims <==>
                     p in model.stage.value && Traverses(traversal, p) && FilterAccepts(filter, p)
    {
      model.filter := Some(filter);
      model.traversal := traversal;
      var value := if newStage.Some? then newStage else model.stage;
      if value.None? {
        return Err("NoStage");
      }
      model.SetStage(value.value);
      r := Ok(model.prims);
    }

    /** `_conformLockSwitch`: the lock-all button offers the opposite of what most columns are. */
    method ConformLockSwitch() returns (current: bool)
      requires Valid() && |lockButtons| > 0
      modifies this`lockAllText
      ensures Valid()
      ensures current == MostCommon(lockButtons)
      ensures lockAllText == LockKeyOf(!current) + EmojiSuffix(dropsLast)
    {
      current := MostCommon(lockButtons);
      lockAllText := LockKeyOf(!current) + EmojiSuffix(dropsLast);
    }

    /** A column's lock button clicked: it flips, the column follows, the lock-all button follows the majority. */
    method ClickColumnLock(column: nat) returns (current: bool)
      requires Valid() && column < |lockButtons|
      modifies this`lockButtons, this`lockAllText, model`lockedColumns
      ensures Valid()
      ensures lockButtons == old(lockButtons)[column := !old(lockButtons)[column]]
      ensures column in model.lockedColumns <==> !old(lockButtons)[column]
      ensures current == MostCommon(lockButtons)
    {
      var value := !lockButtons[column];
      lockButtons := lockButtons[column := value];
      model.SetColumnLocked(column, value);
      current := ConformLockSwitch();
    }

    /**
     * `_conformLocked`: every column locked or unlocked as the lock-all
     * button says, and the button then offers the opposite. The button's
     * text is read back through the widget, which gives the bare key on
     * either kind of widget (see `LockValueRoundTrip`).
     */
    method ConformLocked() returns (value: bool)
      requires Valid()
      modifies this`lockButtons, this`lockAllText, model`lockedColumns
      ensures Valid()
      ensures Some(value) == LockState(WidgetText(old(lockAllText), dropsLast))
      ensures forall i :: 0 <= i < |lockButtons| ==> lockButtons[i] == value
      ensures forall i :: 0 <= i < |model.columns| ==> (i in model.lockedColumns <==> value)
      ensures forall i :: i >= |model.columns| ==> (i in model.lockedColumns <==> i in old(model.lockedColumns))
      ensures lockAllText == LockKeyOf(!value) + EmojiSuffix(dropsLast)
    {
      LockValueRoundTrip(true, dropsLast);
      LockValueRoundTrip(false, dropsLast);
      value := LockState(WidgetText(lockAllText, dropsLast)).value;
      var i := 0;
      while i < |lockButtons|
        invariant 0 <= i <= |lockButtons| == |model.columns|
        invariant forall k :: 0 <= k < i ==> lockButtons[k] == value && (k in model.lockedColumns <==> value)
        invariant forall k :: i <= k < |lockButtons| ==> (lockButtons[k] <==> k in model.lockedColumns)
        invariant forall k :: k >= |model.columns| ==> (k in model.lockedColumns <==> k in old(model.lockedColumns))
      {
        lockButtons := lockButtons[i := value];
        model.SetColumnLocked(i, value);
        i := i + 1;
      }
      lockAllText := LockKeyOf(!value) + EmojiSuffix(dropsLast);
    }
  }

  // ---------------------------------------------------------------------
  // Copy

  /** A selected cell with the text it shows. */
  datatype Selected = Selected(row: nat, column: nat, text: string)

  function MinOf(xs: seq<nat>): (r: nat)
    requires xs != []
    ensures r in xs && forall x :: x in xs ==> r <= x
  {
    if |xs| == 1 then xs[0]
    else
      var m := MinOf(xs[1..]);
      assert forall x :: x in xs ==> x == xs[0] || x in xs[1..];
      if xs[0] <= m then xs[0] else m
  }

  function MaxOf(xs: seq<nat>): (r: nat)
    requires xs != []
    ensures r in xs && forall x :: x in xs ==> x <= r
  {
    if |xs| == 1 then xs[0]
    else
      var m := MaxOf(xs[1..]);
      assert forall x :: x in xs ==> x == xs[0] || x in xs[1..];
      if xs[0] >= m then xs[0] else m
  }

  function RowsOf(selection: seq<Selected>): (r: seq<nat>)
    ensures |r| == |selection| && forall k :: 0 <= k < |selection| ==> r[k] == selection[k].row
  {
    seq(|selection|, k requires 0 <= k < |selection| => selection[k].row)
  }

  function ColumnsOf(selection: seq<Selected>): (r: seq<nat>)
    ensures |r| == |selection| && forall k :: 0 <= k < |selection| ==> r[k] == selection[k].column
  {
    seq(|selection|, k requires 0 <= k < |selection| => selection[k].column)
  }

  /** The text of the last selected index at a position, if any. */
  function LastText(selection: seq<Selected>, row: nat, column: nat): (r: Option<string>)
    ensures r.Some? <==> exists k :: 0 <= k < |selection| && selection[k].row == row && selection[k].column == column
  {
    if selection == [] then None
    else
      var last := selection[|selection| - 1];
      var init := selection[..|selection| - 1];
      assert forall k :: 0 <= k < |init| ==> init[k] == selection[k];
      if last.row == row && last.column == column then Some(last.text)
      else LastText(init, row, column)
  }

  /** A cell of the copied grid: the selected text there, or empty. */
  function CellText(t: Option<string>): string {
    if t.Some? then t.value else ""
  }

  /**
   * The grid `_copySelection` builds on a rectangle of the table: each cell
   * the text of the last selected index there, empty where nothing is
   * selected.
   */
  ghost function Grid(selection: seq<Selected>, top: nat, left: nat, rowCount: nat, columnCount: nat): (g: seq<seq<string>>)
  {
    seq(rowCount, i requires 0 <= i < rowCount =>
      seq(columnCount, j requires 0 <= j < columnCount => CellText(LastText(selection, top + i, left + j))))
  }

  /** The bounding rectangle of the selection, filled as `Grid`. */
  ghost predicate IsCopyGrid(selection: seq<Selected>, grid: seq<seq<string>>)
    requires selection != []
  {
    var top := MinOf(RowsOf(selection));
    var left := MinOf(ColumnsOf(selection));
    grid == Grid(selection, top, left, MaxOf(RowsOf(selection)) - top + 1, MaxOf(ColumnsOf(selection)) - left + 1)
  }

  /** The cells of `Grid`. */
  lemma GridCell(selection: seq<Selected>, top: nat, left: nat, rowCount: nat, columnCount: nat, i: nat, j: nat)
    requires i < rowCount && j < columnCount
    ensures var g := Grid(selection, top, left, rowCount, columnCount);
            |g| == rowCount && |g[i]| == columnCount && g[i][j] == CellText(LastText(selection, top + i, left + j))
  {
  }

  lemma GridShape(selection: seq<Selected>, top: nat, left: nat, rowCount: nat, columnCount: nat)
    ensures var g := Grid(selection, top, left, rowCount, columnCount);
            |g| == rowCount && forall a :: 0 <= a < rowCount ==> |g[a]| == columnCount
  {
  }

  /** Taking one more selected index into the grid sets its cell to its text. */
  lemma GridStep(selection: seq<Selected>, k: nat, top: nat, left: nat, rowCount: nat, columnCount: nat)
    requires k < |selection|
    requires top <= selection[k].row < top + rowCount && left <= selection[k].column < left + columnCount
    ensures var g := Grid(selection[..k], top, left, rowCount, columnCount);
            var i := selection[k].row - top;
            Grid(selection[..k + 1], top, left, rowCount, columnCount) == g[i := g[i][selection[k].column - left := selection[k].text]]
  {
    var s := selection[..k + 1];
    assert s[..k] == selection[..k] && s[k] == selection[k];
    var g := Grid(selection[..k], top, left, rowCount, columnCount);
    var g' := Grid(s, top, left, rowCount, columnCount);
    var i := selection[k].row - top;
    var h := g[i := g[i][selection[k].column - left := selection[k].text]];
    forall a | 0 <= a < rowCount
      ensures g'[a] == h[a]
    {
      forall b | 0 <= b < columnCount
        ensures g'[a][b] == h[a][b]
      {
        GridCell(s, top, left, rowCount, columnCount, a, b);
        GridCell(selection[..k], top, left, rowCount, columnCount, a, b);
      }
    }
    GridShape(s, top, left, rowCount, columnCount);
    GridShape(selection[..k], top, left, rowCount, columnCount);
  }

  /** Before any selected index is taken, the grid is all empty text. */
  lemma GridEmpty(top: nat, left: nat, rowCount: nat, columnCount: nat)
    ensures Grid([], top, left, rowCount, columnCount) == seq(rowCount, _ => seq(columnCount, _ => ""))
  {
    var g := Grid([], top, left, rowCount, columnCount);
    var e := seq(rowCount, _ => seq(columnCount, _ => ""));
    forall a | 0 <= a < rowCount
      ensures g[a] == e[a]
    {
      forall b | 0 <= b < columnCount
        ensures g[a][b] == e[a][b]
      {
        GridCell([], top, left, rowCount, columnCount, a, b);
      }
    }
    GridShape([], top, left, rowCount, columnCount);
  }

  /**
   * `_copySelection`: `None` when nothing is selected (the clipboard is left
   * alone), otherwise the grid of text it writes tab-separated.
   */
  method CopySelection(selection: seq<Selected>) returns (r: Option<seq<seq<string>>>)
    ensures r.None? <==> selection == []
    ensures r.Some? ==> IsCopyGrid(selection, r.value)
  {
    if selection == [] {
      return None;
    }
    var rows := RowsOf(selection);
    var columns := ColumnsOf(selection);
    var top := MinOf(rows);
    var left := MinOf(columns);
    SelectionInBox(selection);
    var table := FillGrid(selection, top, left, MaxOf(rows) - top + 1, MaxOf(columns) - left + 1);
    return Some(table);
  }

  /** Every selected index lies in the bounding rectangle of the selection. */
  lemma SelectionInBox(selection: seq<Selected>)
    requires selection != []
    ensures var top := MinOf(RowsOf(selection));
            var left := MinOf(ColumnsOf(selection));
            forall k :: 0 <= k < |selection| ==>
              top <= selection[k].row <= MaxOf(RowsOf(selection)) && left <= selection[k].column <= MaxOf(ColumnsOf(selection))
  {
    var rows := RowsOf(selection);
    var columns := ColumnsOf(selection);
    forall k | 0 <= k < |selection|
      ensures MinOf(rows) <= selection[k].row <= MaxOf(rows) && MinOf(columns) <= selection[k].column <= MaxOf(columns)
    {
      assert rows[k] in rows && columns[k] in columns;
    }
  }

  /** The copy loop: each selected index in turn writes its text into the grid at its offset from the corner. */
  method FillGrid(selection: seq<Selected>, top: nat, left: nat, rowCount: nat, columnCount: nat) returns (table: seq<seq<string>>)
    requires forall k :: 0 <= k < |selection| ==>
      top <= selection[k].row < top + rowCount && left <= selection[k].column < left + columnCount
    ensures table == Grid(selection, top, left, rowCount, columnCount)
  {
    table := seq(rowCount, _ => seq(columnCount, _ => ""));
    GridEmpty(top, left, rowCount, columnCount);
    assert selection[..0] == [];
    var k := 0;
    while k < |selection|
      invariant 0 <= k <= |selection|
      invariant table == Grid(selection[..k], top, left, rowCount, columnCount)
    {
      var index := selection[k];
      GridStep(selection, k, top, left, rowCount, columnCount);
      table := table[index.row - top := table[index.row - top][index.column - left := index.text]];
      k := k + 1;
    }
    assert selection[..k] == selection;
  }

  /** No two selected indices share a position, as in a Qt selection. */
  predicate DistinctPositions(selection: seq<Selected>) {
    forall a, b :: 0 <= a < b < |selection| ==>
      selection[a].row != selection[b].row || selection[a].column != selection[b].column
  }

  /** Each selected index's text lands in the copied grid at its offset from the top-left corner. */
  lemma {:induction false} CopyPlacesSelected(selection: seq<Selected>, k: nat)
    requires DistinctPositions(selection) && k < |selection|
    ensures LastText(selection, selection[k].row, selection[k].column) == Some(selection[k].text)
    decreases |selection|
  {
    var n := |selection| - 1;
    if k < n {
      var init := selection[..n];
      assert init[k] == selection[k];
      CopyPlacesSelected(init, k);
    }
  }

  // ---------------------------------------------------------------------
  // Paste

  datatype PasteError =
    | NothingToDo                      // the clipboard is empty
    | SelectionWithGaps                // the selected indices are not every row by every column
    | RowsWithGaps                     // several data rows, but the selected rows are not one run of that length
    | NoItemFromIndex(row: nat)        // the table model has no `itemFromIndex`: AttributeError on this row
    | CellFailed(row: nat, column: nat) // setting this cell raised; the cells before it were set

  /** One cell the paste sets: row and column of the table, and the text. */
  datatype Write = Write(row: nat, column: nat, text: string)

  /** The rows and columns of the selected indices, with Python's defaults when nothing is selected. */
  function TopRow(selection: seq<Selected>, count: nat): nat {
    if selection == [] then count else MinOf(RowsOf(selection))
  }

  function BottomRow(selection: seq<Selected>, count: nat): nat {
    if selection == [] then count else MaxOf(RowsOf(selection))
  }

  function LeftColumn(selection: seq<Selected>): nat {
    if selection == [] then 0 else MinOf(ColumnsOf(selection))
  }

  function SelectedRows(selection: seq<Selected>): set<nat> {
    set k | 0 <= k < |selection| :: selection[k].row
  }

  function SelectedColumns(selection: seq<Selected>): set<nat> {
    set k | 0 <= k < |selection| :: selection[k].column
  }

  /**
   * The rows the paste loop reaches below `limit` with a cell to set: from
   * `top` on, a single data row only on selected rows, and never the row
   * one past the table's end, in increasing order.
   */
  function RowsReached(single: bool, rows: set<nat>, top: nat, count: nat, limit: nat): (r: seq<nat>)
    requires top <= limit
    ensures forall i :: 0 <= i < |r| ==> top <= r[i] < limit
    ensures forall i, j :: 0 <= i < j < |r| ==> r[i] < r[j]
    decreases limit
  {
    if limit == top then []
    else
      var v := limit - 1;
      var earlier := RowsReached(single, rows, top, count, v);
      if (single && v !in rows) || v == count then earlier else earlier + [v]
  }

  /** The condition under which the loop body goes past its `continue` and its end-of-table branch. */
  predicate Reaches(single: bool, rows: set<nat>, top: nat, count: nat, limit: nat, v: nat) {
    top <= v < limit && v != count && (single ==> v in rows)
  }

  lemma {:induction false} RowsReachedIff(single: bool, rows: set<nat>, top: nat, count: nat, limit: nat, v: nat)
    requires top <= limit
    ensures v in RowsReached(single, rows, top, count, limit) <==> Reaches(single, rows, top, count, limit, v)
    decreases limit
  {
    if limit > top {
      RowsReachedIff(single, rows, top, count, limit - 1, v);
    }
  }

  /** The rows reached below a lower limit come first among those reached below a higher one. */
  lemma {:induction false} RowsReachedPrefix(single: bool, rows: set<nat>, top: nat, count: nat, lo: nat, hi: nat)
    requires top <= lo <= hi
    ensures RowsReached(single, rows, top, count, lo) <= RowsReached(single, rows, top, count, hi)
    decreases hi
  {
    if lo < hi {
      RowsReachedPrefix(single, rows, top, count, lo, hi - 1);
    }
  }

  /** `max(...)` bound of the paste loop. */
  function MaxRow(data: seq<seq<string>>, selection: seq<Selected>, count: nat): nat {
    var top := TopRow(selection, count);
    var bottom := BottomRow(selection, count);
    if top + |data| >= bottom + 1 then top + |data| else bottom + 1
  }

  /**
   * `_pasteClipboard` as written: the three checks, then the loop over the
   * rows from the top selected row up to and including `maxrow`. The first
   * row it reaches with a cell to set raises AttributeError, because the
   * table model is a `QAbstractTableModel` without `itemFromIndex`; when it
   * reaches none, the paste ends having set nothing.
   */
  function PasteAsWritten(data: seq<seq<string>>, selection: seq<Selected>, count: nat): (r: Result<(), PasteError>)
  {
    var top := TopRow(selection, count);
    if data == [] then Err(NothingToDo)
    else if |selection| != |SelectedRows(selection)| * |SelectedColumns(selection)| then Err(SelectionWithGaps)
    else if |data| != 1 && |data| != BottomRow(selection, count) + 1 - top then Err(RowsWithGaps)
    else
      var reached := RowsReached(|data| == 1, SelectedRows(selection), top, count, MaxRow(data, selection, count) + 1);
      if reached == [] then Ok(()) else Err(NoItemFromIndex(reached[0]))
  }

  /** A paste that passes the checks raises exactly at the first row it reaches, if any. */
  lemma PasteAsWrittenChecked(data: seq<seq<string>>, selection: seq<Selected>, count: nat)
    requires data != [] && |selection| == |SelectedRows(selection)| * |SelectedColumns(selection)|
    requires |data| == 1 || |data| == BottomRow(selection, count) + 1 - TopRow(selection, count)
    ensures var reached := RowsReached(|data| == 1, SelectedRows(selection), TopRow(selection, count), count, MaxRow(data, selection, count) + 1);
            PasteAsWritten(data, selection, count) == if reached == [] then Ok(()) else Err(NoItemFromIndex(reached[0]))
  {
  }

  /** The paste loop of `_pasteClipboard` reaches row `v` with a cell to set. */
  predicate PasteReaches(data: seq<seq<string>>, selection: seq<Selected>, count: nat, v: nat) {
    Reaches(|data| == 1, SelectedRows(selection), TopRow(selection, count), count, MaxRow(data, selection, count) + 1, v)
  }

  /** An AttributeError names the first row the loop reaches; no row before it is reached. */
  lemma PasteAsWrittenRaisesFirst(data: seq<seq<string>>, selection: seq<Selected>, count: nat)
    requires PasteAsWritten(data, selection, count).Err? && PasteAsWritten(data, selection, count).error.NoItemFromIndex?
    ensures var v := PasteAsWritten(data, selection, count).error.row;
            var top := TopRow(selection, count);
            && data != []
            && PasteReaches(data, selection, count, v)
            && forall u :: top <= u < v ==> !PasteReaches(data, selection, count, u)
  {
    var single := |data| == 1;
    var rows := SelectedRows(selection);
    var top := TopRow(selection, count);
    var limit := MaxRow(data, selection, count) + 1;
    var reached := RowsReached(single, rows, top, count, limit);
    var v := reached[0];
    assert v in reached;
    RowsReachedIff(single, rows, top, count, limit, v);
    forall u | top <= u < v
      ensures !Reaches(single, rows, top, count, limit, u)
    {
      RowsReachedIff(single, rows, top, count, limit, u);
    }
  }

  /** A paste that returns normally reached no row with a cell to set, so it set nothing. */
  lemma PasteAsWrittenNoRaise(data: seq<seq<string>>, selection: seq<Selected>, count: nat)
    requires PasteAsWritten(data, selection, count) == Ok(())
    ensures data != []
    ensures forall u :: !PasteReaches(data, selection, count, u)
  {
    var single := |data| == 1;
    var rows := SelectedRows(selection);
    var top := TopRow(selection, count);
    var limit := MaxRow(data, selection, count) + 1;
    forall u
      ensures !Reaches(single, rows, top, count, limit, u)
    {
      RowsReachedIff(single, rows, top, count, limit, u);
    }
  }

  /**
   * Wherever the intended paste sets a cell, the paste as written raises
   * AttributeError instead, on that row or an earlier one.
   */
  lemma AsWrittenRaisesWhereIntendedWrites(data: seq<seq<string>>, selection: seq<Selected>, count: nat, w: Write)
    requires Paste(data, selection, count).Ok? && w in Paste(data, selection, count).value
    ensures PasteAsWritten(data, selection, count).Err?
    ensures PasteAsWritten(data, selection, count).error.NoItemFromIndex?
    ensures PasteAsWritten(data, selection, count).error.row <= w.row
  {
    var single := |data| == 1;
    var rows := SelectedRows(selection);
    var top := TopRow(selection, count);
    var maxrow := MaxRow(data, selection, count);
    PasteAccepted(data, selection, count);
    VisitRows(data, rows, top, LeftColumn(selection), count, maxrow, w);
    RowsReachedIff(single, rows, top, count, maxrow + 1, w.row);
    var reached := RowsReached(single, rows, top, count, maxrow + 1);
    var i :| 0 <= i < |reached| && reached[i] == w.row;
    PasteAsWrittenChecked(data, selection, count);
  }

  /**
   * Two data rows pasted on the selected rows 0 and 1 of a five-row table
   * raise at row 0, and the loop bound reaches row 2 below the selection:
   * with `itemFromIndex` in place, row 2 would be set too.
   */
  lemma PasteAsWrittenOverruns()
    ensures var selection := [Selected(0, 0, "a"), Selected(1, 0, "b")];
            var data := [["x"], ["y"]];
            && PasteAsWritten(data, selection, 5) == Err(NoItemFromIndex(0))
            && 2 in RowsReached(false, SelectedRows(selection), 0, 5, MaxRow(data, selection, 5) + 1)
  {
    var selection := [Selected(0, 0, "a"), Selected(1, 0, "b")];
    var data := [["x"], ["y"]];
    TwoSelectedRows(selection, 0, 1, 5);
    assert MaxRow(data, selection, 5) == 2;
    PasteAsWrittenChecked(data, selection, 5);
    RowsReachedIff(false, {0, 1}, 0, 5, 3, 0);
    RowsReachedIff(false, {0, 1}, 0, 5, 3, 2);
    RowsReachedPrefix(false, {0, 1}, 0, 5, 1, 3);
    assert RowsReached(false, {0, 1}, 0, 5, 1) == [0];
  }

  /**
   * Three data rows on the selected rows 0 and 2 pass the checks of the
   * paste as written, since only the span of the rows is compared, and the
   * loop reaches row 1 between them; the intended paste refuses them.
   */
  lemma PasteAsWrittenFillsGaps()
    ensures var selection := [Selected(0, 0, "a"), Selected(2, 0, "b")];
            var data := [["x"], ["y"], ["z"]];
            && PasteAsWritten(data, selection, 5) == Err(NoItemFromIndex(0))
            && 1 in RowsReached(false, SelectedRows(selection), 0, 5, MaxRow(data, selection, 5) + 1)
            && Paste(data, selection, 5) == Err(RowsWithGaps)
  {
    var selection := [Selected(0, 0, "a"), Selected(2, 0, "b")];
    var data := [["x"], ["y"], ["z"]];
    TwoSelectedRows(selection, 0, 2, 5);
    assert MaxRow(data, selection, 5) == 3;
    PasteAsWrittenChecked(data, selection, 5);
    RowsReachedIff(false, {0, 2}, 0, 5, 4, 1);
    RowsReachedPrefix(false, {0, 2}, 0, 5, 1, 4);
    assert RowsReached(false, {0, 2}, 0, 5, 1) == [0];
  }

  /** Two cells of the first column on rows `r0 < r1`: their rows, their one column and their bounds. */
  lemma TwoSelectedRows(selection: seq<Selected>, r0: nat, r1: nat, count: nat)
    requires r0 < r1 && selection == [Selected(r0, 0, "a"), Selected(r1, 0, "b")]
    ensures SelectedRows(selection) == {r0, r1} && SelectedColumns(selection) == {0}
    ensures TopRow(selection, count) == r0 && BottomRow(selection, count) == r1 && LeftColumn(selection) == 0
  {
    assert SelectedRows(selection) == {r0, r1} by {
      assert selection[0].row == r0 && selection[1].row == r1;
    }
    assert SelectedColumns(selection) == {0} by {
      assert selection[0].column == 0;
    }
    assert RowsOf(selection) == [r0, r1];
    assert ColumnsOf(selection) == [0, 0];
  }

  /** The cells the intended paste sets on one reached row: every cell of the data row from the left column on. */
  function RowWrites(row: nat, left: nat, rowData: seq<string>): (r: seq<Write>)
    ensures |r| == |rowData|
    ensures forall j :: 0 <= j < |r| ==> r[j] == Write(row, left + j, rowData[j])
  {
    seq(|rowData|, j requires 0 <= j < |rowData| => Write(row, left + j, rowData[j]))
  }

  /** The data row the paste takes for a visited row: the rows of `data` in turn from `top`. */
  function DataRow(data: seq<seq<string>>, top: nat, row: nat): seq<string>
    requires data != [] && top <= row
  {
    data[(row - top) % |data|]
  }

  /**
   * The cells the intended paste loop sets on the rows from `top` up to but
   * not including `limit`, in order: a single data row only on selected
   * rows, nothing on the row one past the table's end.
   */
  function Visit(data: seq<seq<string>>, rows: set<nat>, top: nat, left: nat, count: nat, limit: nat): (r: seq<Write>)
    requires data != [] && top <= limit
    ensures forall w :: w in r ==> (top <= w.row < limit && w.row != count)
    decreases limit
  {
    if limit == top then []
    else
      var v := limit - 1;
      var earlier := Visit(data, rows, top, left, count, v);
      if (|data| == 1 && v !in rows) || v == count then earlier
      else earlier + RowWrites(v, left, DataRow(data, top, v))
  }

  /** The cells set below a lower limit come first among those set below a higher one. */
  lemma {:induction false} VisitPrefix(data: seq<seq<string>>, rows: set<nat>, top: nat, left: nat, count: nat, lo: nat, hi: nat)
    requires data != [] && top <= lo <= hi
    ensures Visit(data, rows, top, left, count, lo) <= Visit(data, rows, top, left, count, hi)
    decreases hi
  {
    if lo < hi {
      VisitPrefix(data, rows, top, left, count, lo, hi - 1);
    }
  }

  /**
   * The paste as intended: several data rows need one run of selected rows
   * of the same length, and only the rows up to the last selected one are
   * visited.
   */
  function Paste(data: seq<seq<string>>, selection: seq<Selected>, count: nat): (r: Result<seq<Write>, PasteError>)
  {
    var top := TopRow(selection, count);
    var bottom := BottomRow(selection, count);
    if data == [] then Err(NothingToDo)
    else if |selection| != |SelectedRows(selection)| * |SelectedColumns(selection)| then Err(SelectionWithGaps)
    else if |data| != 1 && (|data| != bottom + 1 - top || |SelectedRows(selection)| != |data|) then Err(RowsWithGaps)
    else Ok(Visit(data, SelectedRows(selection), top, LeftColumn(selection), count, MaxRow(data, selection, count)))
  }

  /** A set of rows between `lo` and `hi` has at most `hi - lo` of them. */
  lemma {:induction false} BoundedSize(rows: set<nat>, lo: nat, hi: nat)
    requires lo <= hi && forall r :: r in rows ==> lo <= r < hi
    ensures |rows| <= hi - lo
    decreases hi - lo
  {
    if lo == hi {
      assert forall r :: r in rows ==> false;
      assert rows == {};
    } else {
      BoundedSize(rows - {hi - 1}, lo, hi - 1);
    }
  }

  /** Every row of the run from `top` to `bottom` is selected when the run has as many rows as are selected. */
  lemma {:induction false} RunSelected(rows: set<nat>, top: nat, bottom: nat)
    requires top <= bottom && forall r :: r in rows ==> top <= r <= bottom
    requires |rows| == bottom + 1 - top
    ensures forall v :: top <= v <= bottom ==> v in rows
    decreases bottom - top
  {
    if bottom !in rows {
      BoundedSize(rows, top, bottom);
      assert false;
    }
    assert |rows - {bottom}| == |rows| - 1;
    if top < bottom {
      RunSelected(rows - {bottom}, top, bottom - 1);
      forall v | top <= v <= bottom
        ensures v in rows
      {
        if v < bottom {
          assert v in rows - {bottom};
        }
      }
    }
  }

  /** The rows an intended paste visits and the cells it writes on them. */
  lemma {:induction false} VisitRows(data: seq<seq<string>>, rows: set<nat>, top: nat, left: nat, count: nat, limit: nat, w: Write)
    requires data != [] && top <= limit && w in Visit(data, rows, top, left, count, limit)
    ensures top <= w.row < limit && (|data| == 1 ==> w.row in rows)
    ensures left <= w.column < left + |DataRow(data, top, w.row)|
    ensures w.text == DataRow(data, top, w.row)[w.column - left]
    decreases limit
  {
    var v := limit - 1;
    var earlier := Visit(data, rows, top, left, count, v);
    if w in earlier {
      VisitRows(data, rows, top, left, count, v, w);
    } else {
      var rw := RowWrites(v, left, DataRow(data, top, v));
      assert w in rw;
      var j :| 0 <= j < |rw| && rw[j] == w;
    }
  }

  /** What an accepted intended paste checked, and the rows it visits. */
  lemma PasteAccepted(data: seq<seq<string>>, selection: seq<Selected>, count: nat)
    requires Paste(data, selection, count).Ok?
    ensures data != []
    ensures Paste(data, selection, count).value ==
              Visit(data, SelectedRows(selection), TopRow(selection, count), LeftColumn(selection), count, MaxRow(data, selection, count))
    ensures |data| != 1 ==>
              && |data| == BottomRow(selection, count) + 1 - TopRow(selection, count)
              && |SelectedRows(selection)| == |data|
  {
  }

  /**
   * What an accepted intended paste sets: only selected rows of the table,
   * each cell from the left selected column on, the data rows in turn from
   * the top selected row.
   */
  lemma PasteWritesSelection(data: seq<seq<string>>, selection: seq<Selected>, count: nat, w: Write)
    requires forall k :: 0 <= k < |selection| ==> selection[k].row < count
    requires Paste(data, selection, count).Ok? && w in Paste(data, selection, count).value
    ensures w.row in SelectedRows(selection) && w.row < count
    ensures TopRow(selection, count) <= w.row
    ensures var row := DataRow(data, TopRow(selection, count), w.row);
            LeftColumn(selection) <= w.column < LeftColumn(selection) + |row| &&
            w.text == row[w.column - LeftColumn(selection)]
  {
    var rows := SelectedRows(selection);
    var top := TopRow(selection, count);
    PasteAccepted(data, selection, count);
    VisitRows(data, rows, top, LeftColumn(selection), count, MaxRow(data, selection, count), w);
    if |data| != 1 {
      MultiRowSelected(data, selection, count, w.row);
    }
    assert w.row in rows;
    var k :| 0 <= k < |selection| && selection[k].row == w.row;
  }

  /** An accepted paste of several data rows visits only selected rows. */
  lemma MultiRowSelected(data: seq<seq<string>>, selection: seq<Selected>, count: nat, v: nat)
    requires Paste(data, selection, count).Ok? && |data| != 1
    requires TopRow(selection, count) <= v < MaxRow(data, selection, count)
    ensures v in SelectedRows(selection)
  {
    var rows := SelectedRows(selection);
    var top := TopRow(selection, count);
    var bottom := BottomRow(selection, count);
    PasteAccepted(data, selection, count);
    forall r | r in rows
      ensures top <= r <= bottom
    {
      var k :| 0 <= k < |selection| && selection[k].row == r;
      assert RowsOf(selection)[k] == r && r in RowsOf(selection);
    }
    RunSelected(rows, top, bottom);
  }

  // ---------------------------------------------------------------------
  // Setting the cells

  /**
   * The setter of a column: none for Path, Name and Visibility; otherwise a
   * USD call, tried on the text and, when it raises, again on the JSON value
   * of the lower-cased text. `takes` says whether one of the two tries
   * succeeds.
   */
  datatype Setter = ReadOnly | Settable(takes: string -> bool)

  /** The setters of `StageTable`'s columns, in order: Path, Name, Type, Documentation, Instanceable, Visibility, Hidden. */
  function TableSetters(setType: string -> bool, setDocumentation: string -> bool,
                        setInstanceable: string -> bool, setHidden: string -> bool): seq<Setter>
  {
    [ReadOnly, ReadOnly, Settable(setType), Settable(setDocumentation), Settable(setInstanceable), ReadOnly, Settable(setHidden)]
  }

  /**
   * Setting the cell raises: a column past the table's has no item, a
   * column without a setter raises TypeError on both tries, and a setter
   * may refuse the text both times.
   */
  predicate CellFails(setters: seq<Setter>, w: Write) {
    w.column >= |setters| || setters[w.column].ReadOnly? || !setters[w.column].takes(w.text)
  }

  /** How many cells of `plan` are set before the first one that fails. */
  function Settled(setters: seq<Setter>, plan: seq<Write>): (k: nat)
    ensures k <= |plan|
    ensures forall i :: 0 <= i < k ==> !CellFails(setters, plan[i])
    ensures k < |plan| ==> CellFails(setters, plan[k])
  {
    if plan == [] || CellFails(setters, plan[0]) then 0
    else
      var k := Settled(setters, plan[1..]);
      assert forall i :: 1 <= i < k + 1 ==> plan[i] == plan[1..][i - 1];
      1 + k
  }

  /** The count of cells set is the index of the first cell that fails, or all of them. */
  lemma SettledUnique(setters: seq<Setter>, plan: seq<Write>, j: nat)
    requires j <= |plan| && forall i :: 0 <= i < j ==> !CellFails(setters, plan[i])
    requires j < |plan| ==> CellFails(setters, plan[j])
    ensures Settled(setters, plan) == j
  {
  }

  lemma SettledConcat(setters: seq<Setter>, a: seq<Write>, b: seq<Write>)
    ensures Settled(setters, a + b) ==
              if Settled(setters, a) < |a| then Settled(setters, a) else |a| + Settled(setters, b)
  {
    var ab := a + b;
    var ka := Settled(setters, a);
    if ka < |a| {
      assert forall i :: 0 <= i <= ka ==> ab[i] == a[i];
      SettledUnique(setters, ab, ka);
    } else {
      var kb := Settled(setters, b);
      assert forall i :: 0 <= i < |a| ==> ab[i] == a[i];
      assert forall i :: |a| <= i < |a| + |b| ==> ab[i] == b[i - |a|];
      SettledUnique(setters, ab, |a| + kb);
    }
  }

  /** Once a cell of `a` fails, cells after `a` do not matter. */
  lemma SettledPrefix(setters: seq<Setter>, a: seq<Write>, b: seq<Write>)
    requires a <= b && Settled(setters, a) < |a|
    ensures Settled(setters, b) == Settled(setters, a)
  {
    var k := Settled(setters, a);
    assert forall i :: 0 <= i <= k ==> b[i] == a[i];
    SettledUnique(setters, b, k);
  }

  /**
   * The intended paste with the table's setters: the checks of `Paste`,
   * then its cells in order, stopping with an error at the first cell that
   * fails.
   */
  function PasteOutcome(setters: seq<Setter>, data: seq<seq<string>>, selection: seq<Selected>, count: nat): (r: Result<seq<Write>, PasteError>)
    ensures Paste(data, selection, count).Err? ==> r == Err(Paste(data, selection, count).error)
    ensures r.Ok? <==> Paste(data, selection, count).Ok? && forall w :: w in Paste(data, selection, count).value ==> !CellFails(setters, w)
    ensures r.Ok? ==> r.value == Paste(data, selection, count).value
    ensures r.Err? && r.error.CellFailed? ==>
              Paste(data, selection, count).Ok? &&
              var plan := Paste(data, selection, count).value;
              exists i :: 0 <= i < |plan| && CellFails(setters, plan[i]) && plan[i].row == r.error.row && plan[i].column == r.error.column
  {
    var p := Paste(data, selection, count);
    if p.Err? then Err(p.error)
    else
      var k := Settled(setters, p.value);
      if k == |p.value| then Ok(p.value)
      else
        assert CellFails(setters, p.value[k]);
        Err(CellFailed(p.value[k].row, p.value[k].column))
  }

  /**
   * On the table's own columns, an accepted paste with a cell in Path, Name
   * or Visibility, or past Hidden, fails at that cell at the latest.
   */
  lemma ReadOnlyPasteFails(setType: string -> bool, setDocumentation: string -> bool,
                           setInstanceable: string -> bool, setHidden: string -> bool,
                           data: seq<seq<string>>, selection: seq<Selected>, count: nat, i: nat)
    requires Paste(data, selection, count).Ok? && i < |Paste(data, selection, count).value|
    requires var c := Paste(data, selection, count).value[i].column; c == 0 || c == 1 || c == 5 || c >= 7
    ensures var setters := TableSetters(setType, setDocumentation, setInstanceable, setHidden);
            && PasteOutcome(setters, data, selection, count).Err?
            && PasteOutcome(setters, data, selection, count).error.CellFailed?
            && Settled(setters, Paste(data, selection, count).value) <= i
  {
    var setters := TableSetters(setType, setDocumentation, setInstanceable, setHidden);
    var plan := Paste(data, selection, count).value;
    assert CellFails(setters, plan[i]);
    assert plan[i] in plan;
  }

  /** One more row of the intended paste loop. */
  lemma VisitNext(data: seq<seq<string>>, rows: set<nat>, top: nat, left: nat, count: nat, v: nat)
    requires data != [] && top <= v
    ensures Visit(data, rows, top, left, count, v + 1) ==
              if (|data| == 1 && v !in rows) || v == count then Visit(data, rows, top, left, count, v)
              else Visit(data, rows, top, left, count, v) + RowWrites(v, left, DataRow(data, top, v))
  {
  }

  /** The cells of a reached row follow those of the rows before it, within the whole plan. */
  lemma RowInPlan(data: seq<seq<string>>, rows: set<nat>, top: nat, left: nat, count: nat, v: nat, limit: nat)
    requires data != [] && top <= v < limit
    requires !(|data| == 1 && v !in rows) && v != count
    ensures Visit(data, rows, top, left, count, v) + RowWrites(v, left, DataRow(data, top, v))
              <= Visit(data, rows, top, left, count, limit)
  {
    VisitNext(data, rows, top, left, count, v);
    VisitPrefix(data, rows, top, left, count, v + 1, limit);
  }

  /** A row whose cells all take, after rows whose cells all took: the edits so far are all of them. */
  lemma WholeRow(setters: seq<Setter>, done: seq<Write>, rw: seq<Write>, e: seq<Write>, edits: seq<Write>)
    requires Settled(setters, done) == |done| && Settled(setters, rw) == |rw|
    requires edits == e + done + rw[..Settled(setters, rw)]
    ensures Settled(setters, done + rw) == |done + rw|
    ensures edits == e + (done + rw)
  {
    SettledConcat(setters, done, rw);
    assert rw[..|rw|] == rw;
  }

  /** A row with a failing cell, after rows whose cells all took: the whole paste stops in that row. */
  lemma StopInRow(setters: seq<Setter>, done: seq<Write>, rw: seq<Write>, plan: seq<Write>, e: seq<Write>, edits: seq<Write>)
    requires done + rw <= plan
    requires Settled(setters, done) == |done| && Settled(setters, rw) < |rw|
    requires edits == e + done + rw[..Settled(setters, rw)]
    ensures Settled(setters, plan) == |done| + Settled(setters, rw) < |plan|
    ensures edits == e + plan[..Settled(setters, plan)]
  {
    SettledConcat(setters, done, rw);
    SettledPrefix(setters, done + rw, plan);
    TakeAfter(done, rw, plan, Settled(setters, rw), Settled(setters, plan));
    Associate(e, done, rw[..Settled(setters, rw)]);
  }

  lemma Associate(e: seq<Write>, a: seq<Write>, b: seq<Write>)
    ensures e + a + b == e + (a + b)
  {
  }

  lemma TakeAfter(a: seq<Write>, b: seq<Write>, p: seq<Write>, s: nat, k: nat)
    requires a + b <= p && s <= |b| && k == |a| + s
    ensures p[..k] == a + b[..s]
  {
    assert forall i :: 0 <= i < k ==> p[i] == (a + b)[i];
  }

  /**
   * `_pasteClipboard` on the table: sorting off while the cells are set;
   * `edits` keeps every cell set, in order.
   */
  class StageTable {
    var sortingEnabled: bool
    var edits: seq<Write>
    const setters: seq<Setter>

    constructor(setType: string -> bool, setDocumentation: string -> bool,
                setInstanceable: string -> bool, setHidden: string -> bool)
      ensures setters == TableSetters(setType, setDocumentation, setInstanceable, setHidden)
      ensures sortingEnabled && edits == []
    {
      setters := TableSetters(setType, setDocumentation, setInstanceable, setHidden);
      sortingEnabled := true;
      edits := [];
    }

    /**
     * `_pasteClipboard` as written: past the checks sorting is turned off,
     * and the first row the loop reaches raises AttributeError at
     * `itemFromIndex`, leaving sorting off; no cell is ever set.
     */
    method PasteClipboardAsWritten(data: seq<seq<string>>, selection: seq<Selected>, count: nat)
      returns (r: Result<(), PasteError>)
      modifies this`sortingEnabled
      ensures r == PasteAsWritten(data, selection, count)
      ensures sortingEnabled == if r.Err? && r.error.NoItemFromIndex? then false else old(sortingEnabled)
    {
      var rows := SelectedRows(selection);
      var top := TopRow(selection, count);
      if data == [] {
        return Err(NothingToDo);
      }
      if |selection| != |rows| * |SelectedColumns(selection)| {
        return Err(SelectionWithGaps);
      }
      if |data| != 1 && |data| != BottomRow(selection, count) + 1 - top {
        return Err(RowsWithGaps);
      }
      var single := |data| == 1;
      var original := sortingEnabled;
      sortingEnabled := false;
      var maxrow := MaxRow(data, selection, count);
      PasteAsWrittenChecked(data, selection, count);
      var v := top;
      while v <= maxrow
        invariant top <= v <= maxrow + 1
        invariant RowsReached(single, rows, top, count, v) == []
      {
        if !(single && v !in rows) && v != count {
          assert RowsReached(single, rows, top, count, v + 1) == [v];
          RowsReachedPrefix(single, rows, top, count, v + 1, maxrow + 1);
          return Err(NoItemFromIndex(v));
        }
        v := v + 1;
      }
      sortingEnabled := original;
      return Ok(());
    }

    /** The cells of one reached row, set left to right until one fails. */
    method SetRow(row: nat, left: nat, rowData: seq<string>) returns (ok: bool)
      modifies this`edits
      ensures var rw := RowWrites(row, left, rowData);
              ok == (Settled(setters, rw) == |rw|) && edits == old(edits) + rw[..Settled(setters, rw)]
    {
      var rw := RowWrites(row, left, rowData);
      var j := 0;
      while j < |rowData|
        invariant 0 <= j <= |rowData|
        invariant forall i :: 0 <= i < j ==> !CellFails(setters, rw[i])
        invariant edits == old(edits) + rw[..j]
      {
        var w := Write(row, left + j, rowData[j]);
        if CellFails(setters, w) {
          SettledUnique(setters, rw, j);
          return false;
        }
        edits := edits + [w];
        assert rw[..j + 1] == rw[..j] + [w];
        j := j + 1;
      }
      SettledUnique(setters, rw, j);
      assert rw[..j] == rw;
      return true;
    }

    /** The intended paste loop: every row from `top` up to `limit`, in order, until a cell fails. */
    method PasteRows(data: seq<seq<string>>, rows: set<nat>, top: nat, left: nat, count: nat, limit: nat) returns (ok: bool)
      requires data != [] && top <= limit
      modifies this`edits
      ensures var plan := Visit(data, rows, top, left, count, limit);
              ok == (Settled(setters, plan) == |plan|) && edits == old(edits) + plan[..Settled(setters, plan)]
    {
      var v := top;
      ghost var done: seq<Write> := [];
      while v < limit
        invariant top <= v <= limit
        invariant done == Visit(data, rows, top, left, count, v)
        invariant Settled(setters, done) == |done|
        invariant edits == old(edits) + done
      {
        VisitNext(data, rows, top, left, count, v);
        if !(|data| == 1 && v !in rows) && v != count {
          var rw := RowWrites(v, left, DataRow(data, top, v));
          var whole := SetRow(v, left, DataRow(data, top, v));
          if !whole {
            RowInPlan(data, rows, top, left, count, v, limit);
            StopInRow(setters, done, rw, Visit(data, rows, top, left, count, limit), old(edits), edits);
            return false;
          }
          WholeRow(setters, done, rw, old(edits), edits);
          done := done + rw;
        }
        v := v + 1;
      }
      return true;
    }

    /**
     * `_pasteClipboard` with `itemFromIndex` in place: the checks, sorting
     * off, the cells of `Paste` in order; an exception from a cell ends the
     * paste there with sorting still off, otherwise sorting is restored.
     */
    method PasteClipboard(data: seq<seq<string>>, selection: seq<Selected>, count: nat)
      returns (r: Result<seq<Write>, PasteError>)
      modifies this`edits, this`sortingEnabled
      ensures r == PasteOutcome(setters, data, selection, count)
      ensures Paste(data, selection, count).Err? ==> edits == old(edits)
      ensures Paste(data, selection, count).Ok? ==>
                var plan := Paste(data, selection, count).value;
                edits == old(edits) + plan[..Settled(setters, plan)]
      ensures sortingEnabled == if r.Err? && r.error.CellFailed? then false else old(sortingEnabled)
    {
      var rows := SelectedRows(selection);
      var top := TopRow(selection, count);
      var bottom := BottomRow(selection, count);
      if data == [] {
        return Err(NothingToDo);
      }
      if |selection| != |rows| * |SelectedColumns(selection)| {
        return Err(SelectionWithGaps);
      }
      if |data| != 1 && (|data| != bottom + 1 - top || |rows| != |data|) {
        return Err(RowsWithGaps);
      }
      var original := sortingEnabled;
      sortingEnabled := false;
      var plan := Visit(data, rows, top, LeftColumn(selection), count, MaxRow(data, selection, count));
      assert Paste(data, selection, count) == Ok(plan);
      var ok := PasteRows(data, rows, top, LeftColumn(selection), count, MaxRow(data, selection, count));
      var k := Settled(setters, plan);
      if !ok {
        return Err(CellFailed(plan[k].row, plan[k].column));
      }
      sortingEnabled := original;
      r := Ok(plan);
    }
  }
}
