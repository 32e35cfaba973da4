/**
 * The naming engine of `grill/names/model` (snake_case API).
 *
 * A name object holds its text (`name`, "" standing for `None`), its
 * separator and the `groupdict()` of the last successful match (`values`).
 * `get_name` renders a name from keyword overrides, the stored values or
 * `[field]` placeholders; `Environment` and `Film` first recompute their
 * composite field from its parts; `Pipe` appends the pipe and `File` the
 * extension.
 */
module GrillNames {
  import opened Chars
  import opened Wrappers
  import opened NameSchema
  import opened NameParse

  /** The values dictionary of a name, and the keyword arguments of `get_name`. */
  type Values = map<string, Value>

  /**
   * The stored values the object can hold: none, or every group of the
   * pattern (`set_name` stores the whole `groupdict()`).
   */
  predicate StoredOk(s: Schema, stored: Values) {
    stored == map[] || forall k :: k in GroupKeys(s) ==> k in stored
  }

  // ---------------------------------------------------------------------
  // Field rendering

  /** A key `_get_translated_pattern_list` can render without touching an undefined attribute. */
  predicate Resolves(key: string, stored: Values, props: map<string, string>, ov: Values) {
    key in ov || stored == map[] || key in stored || key in props
  }

  /**
   * One entry of `_get_translated_pattern_list`: the override, else the
   * stored value (or the class property, such as Film's `productionenv`)
   * when the name holds values, else the placeholder `[key]`.
   */
  function Choose(key: string, stored: Values, props: map<string, string>, ov: Values): string
    requires Resolves(key, stored, props, ov)
  {
    if key in ov then Str(ov[key])
    else if stored != map[] then (if key in stored then Str(stored[key]) else props[key])
    else "[" + key + "]"
  }

  /** `_get_translated_pattern_list` over `keys`. */
  function Translate(keys: seq<string>, stored: Values, props: map<string, string>, ov: Values): (r: seq<string>)
    requires forall i :: 0 <= i < |keys| ==> Resolves(keys[i], stored, props, ov)
    ensures |r| == |keys|
  {
    seq(|keys|, i requires 0 <= i < |keys| => Choose(keys[i], stored, props, ov))
  }

  /** The loop of `_get_translated_pattern_list`, appending one rendered entry per key. */
  method TranslatedPatternList(keys: seq<string>, stored: Values, props: map<string, string>, ov: Values)
    returns (r: seq<string>)
    requires forall i :: 0 <= i < |keys| ==> Resolves(keys[i], stored, props, ov)
    ensures r == Translate(keys, stored, props, ov)
  {
    r := [];
    var i := 0;
    while i < |keys|
      invariant 0 <= i <= |keys|
      invariant |r| == i
      invariant forall j :: 0 <= j < i ==> r[j] == Choose(keys[j], stored, props, ov)
    {
      var key := keys[i];
      var value: string;
      if key in ov {
        value := Str(ov[key]);
      } else if stored != map[] {
        if key in stored {
          value := Str(stored[key]);
        } else {
          value := props[key];
        }
      } else {
        value := "[" + key + "]";
      }
      r := r + [value];
      i := i + 1;
    }
  }

  /** `_get_pattern_list` with the leading '_' removed: the field keys in order. */
  function FieldNames(fs: seq<Field>): (r: seq<string>)
    ensures |r| == |fs|
    ensures forall i :: 0 <= i < |fs| ==> r[i] == fs[i].key
  {
    seq(|fs|, i requires 0 <= i < |fs| => fs[i].key)
  }

  /** Every field key can be rendered from a name holding values that `StoredOk` allows. */
  lemma FieldNamesResolve(s: Schema, stored: Values, ov: Values)
    requires StoredOk(s, stored)
    ensures forall i :: 0 <= i < |s.fields| ==> Resolves(FieldNames(s.fields)[i], stored, s.props, ov)
  {
    forall i | 0 <= i < |s.fields|
      ensures Resolves(FieldNames(s.fields)[i], stored, s.props, ov)
    {
      FieldKeysHold(s.fields, i);
    }
  }

  // ---------------------------------------------------------------------
  // Composite fields (Environment.get_name, Film.get_name)

  /**
   * The subclass recomputes composite field `f` when overrides are given,
   * `f` itself is not overridden, and every part is stored (the stored
   * value is read as the default even when the part is overridden, so a
   * missing one raises AttributeError and the recomputation is skipped).
   */
  predicate Recomputes(f: Field, stored: Values, ov: Values) {
    && f.parts != []
    && ov != map[]
    && f.key !in ov
    && forall j :: 0 <= j < |f.parts| ==> f.parts[j].key in stored
  }

  /** Each part's override, else its stored value, formatted. */
  function PartTexts(ps: seq<Part>, stored: Values, ov: Values): (r: seq<string>)
    requires forall j :: 0 <= j < |ps| ==> ps[j].key in stored
    ensures |r| == |ps|
  {
    seq(|ps|, j requires 0 <= j < |ps| => Str(if ps[j].key in ov then ov[ps[j].key] else stored[ps[j].key]))
  }

  /** The parts' texts concatenated, as Environment and Film format them. */
  function Composed(ps: seq<Part>, stored: Values, ov: Values): string
    requires forall j :: 0 <= j < |ps| ==> ps[j].key in stored
  {
    Concat(PartTexts(ps, stored, ov))
  }

  function DeriveField(f: Field, stored: Values, ov: Values): Values {
    if Recomputes(f, stored, ov) then ov[f.key := Some(Composed(f.parts, stored, ov))] else ov
  }

  /** Each subclass's `get_name` runs before its parent's, so the last field's recomputation comes first. */
  function Derive(fs: seq<Field>, stored: Values, ov: Values): Values
    decreases |fs|
  {
    if |fs| == 0 then ov
    else Derive(fs[..|fs| - 1], stored, DeriveField(fs[|fs| - 1], stored, ov))
  }

  // ---------------------------------------------------------------------
  // Pipe and File suffixes

  /** `values.get('output') or self.output or '[output]'`. */
  function OutputText(stored: Values, ov: Values): string {
    if "output" in ov && Truthy(ov["output"]) then ov["output"].value
    else if "output" in stored && Truthy(stored["output"]) then stored["output"].value
    else "[output]"
  }

  /**
   * The suffix `Pipe.get_name` appends: the `pipe` override verbatim, else
   * `.version`, else `_output` with `.frame` when a frame is passed, else
   * the stored pipe, or `_[pipe]` for a name with no text.
   */
  function PipeSuffix(name: string, stored: Values, ov: Values): Result<string, NameFailure> {
    if "pipe" in ov then Ok(Str(ov["pipe"]))
    else if "version" in ov then Ok("." + Str(ov["version"]))
    else if "output" in ov || "frame" in ov then
      Ok("_" + OutputText(stored, ov) + (if "frame" in ov then "." + Str(ov["frame"]) else ""))
    else if name == "" then Ok("_[pipe]")
    else if "pipe" in stored then Ok(if Truthy(stored["pipe"]) then stored["pipe"].value else "_[pipe]")
    else Err(AttributeError("pipe"))
  }

  /** `values.get('extension') or self.extension or '[extension]'`. */
  function ExtensionText(stored: Values, ov: Values): string {
    if "extension" in ov && Truthy(ov["extension"]) then ov["extension"].value
    else if "extension" in stored && Truthy(stored["extension"]) then stored["extension"].value
    else "[extension]"
  }

  // ---------------------------------------------------------------------
  // get_name, get_values and the read-only properties

  /** `get_name(**ov)` on an object holding `name` and `stored`. */
  function GetName(s: Schema, sep: string, name: string, stored: Values, ov: Values): Result<string, NameFailure>
    requires StoredOk(s, stored)
  {
    if ov == map[] && name != "" then Ok(name)
    else
      var ov2 := Derive(s.fields, stored, ov);
      FieldNamesResolve(s, stored, ov2);
      var nice := Join(sep, Translate(FieldNames(s.fields), stored, s.props, ov2));
      match s.tail
      case NoTail => Ok(nice)
      case PipeTail =>
        (match PipeSuffix(name, stored, ov2)
         case Err(e) => Err(e)
         case Ok(p) => Ok(nice + p))
      case FileTail =>
        match PipeSuffix(name, stored, ov2)
        case Err(e) => Err(e)
        case Ok(p) => Ok(nice + p + "." + ExtensionText(stored, ov2))
  }

  /** `get_values()`: a Pipe (and every subclass) drops the `pipe` key and `None` values. */
  function GetValues(s: Schema, stored: Values): (r: Values)
    ensures r.Keys <= stored.Keys
    ensures forall k :: k in r ==> r[k] == stored[k]
    ensures s.tail == NoTail ==> r == stored
    ensures s.tail != NoTail ==> forall k :: k in stored ==> (k in r <==> k != "pipe" && stored[k].Some?)
  {
    if s.tail == NoTail then stored
    else map k | k in stored && k != "pipe" && stored[k].Some? :: stored[k]
  }

  /** `nice_name`: the fields alone, from the stored values or placeholders. */
  function NiceName(s: Schema, sep: string, stored: Values): string
    requires StoredOk(s, stored)
  {
    FieldNamesResolve(s, stored, map[]);
    Join(sep, Translate(FieldNames(s.fields), stored, s.props, map[]))
  }

  /** `pipe_name`: the nice name followed by the stored pipe, or `_[pipe]` when none is stored. */
  function PipeName(s: Schema, sep: string, stored: Values): string
    requires StoredOk(s, stored)
  {
    NiceName(s, sep, stored) + (if "pipe" in stored then Str(stored["pipe"]) else "_[pipe]")
  }

  /** `__getattr__`: a stored value, or AttributeError. */
  function Attr(stored: Values, key: string): (r: Result<Value, NameFailure>)
    ensures r.Ok? <==> key in stored
    ensures r.Ok? ==> r.value == stored[key]
    ensures r.Err? ==> r.error == AttributeError(key)
  {
    if key in stored then Ok(stored[key]) else Err(AttributeError(key))
  }

  /** Every directory of `path` renders from the stored values, the class properties or placeholders. */
  predicate DirsResolve(s: Schema, stored: Values) {
    forall i :: 0 <= i < |s.dirs| ==> Resolves(s.dirs[i], stored, s.props, map[])
  }

  /** `get_name()` never fails: without overrides the suffix is the stored text or placeholders. */
  lemma GetNameWithoutOverrides(s: Schema, sep: string, name: string, stored: Values)
    requires StoredOk(s, stored)
    ensures GetName(s, sep, name, stored, map[]).Ok?
    ensures name != "" ==> GetName(s, sep, name, stored, map[]) == Ok(name)
  {
  }

  /** `path`: the directory components followed by `get_name()` (`os.path.join` is left abstract). */
  function Path(s: Schema, sep: string, name: string, stored: Values): (r: seq<string>)
    requires StoredOk(s, stored) && DirsResolve(s, stored)
    ensures |r| == |s.dirs| + 1
    ensures forall i :: 0 <= i < |s.dirs| ==> r[i] == Choose(s.dirs[i], stored, s.props, map[])
    ensures name != "" ==> r[|s.dirs|] == name
  {
    GetNameWithoutOverrides(s, sep, name, stored);
    Translate(s.dirs, stored, s.props, map[]) + [GetName(s, sep, name, stored, map[]).value]
  }
}
