/**
 * The older naming engine of `core/names/model` (camelCase API).
 *
 * It renders names as the grill engine does, with three differences:
 * the values are not stored but matched again from `name` on every
 * access (`_values`), the pattern is compiled once with the separator the
 * class starts with, so the `separator` setter only changes how
 * `getName` joins the fields, and the pipe and file suffixes treat falsy
 * overrides differently (a falsy frame adds nothing, an explicit
 * extension is used as given).
 */
module CoreNames {
  import opened Chars
  import opened Wrappers
  import opened NameSchema
  import opened NameParse
  import opened GrillNames
  import opened GrillRenaming

  // ---------------------------------------------------------------------
  // Values matched from the name

  /**
   * `_values`: the `groupdict()` of `name` matched against the pattern
   * compiled with `sep0`; `None` without a name (TypeError) or without a
   * match (AttributeError).
   */
  function MatchedValues(s: Schema, sep0: string, name: string): Option<Values>
    requires |s.fields| > 0
  {
    if name == "" then None
    else
      match Parse(s, sep0, name)
      case None => None
      case Some(m) => Some(GroupDict(s, m))
  }

  /** What `_getTranslatedPatternList` reads: no values at all renders placeholders. */
  function Held(v: Option<Values>): Values {
    if v.Some? then v.value else map[]
  }

  /**
   * `getValues()`: `None` when there are no values, else every pair the
   * class keeps (a Pipe and its subclasses drop `pipe` and falsy values).
   */
  function CoreGetValues(s: Schema, v: Option<Values>): (r: Option<Values>)
    ensures r.None? <==> v.None? || v.value == map[]
    ensures r.Some? ==> r.value.Keys <= v.value.Keys && forall k :: k in r.value ==> r.value[k] == v.value[k]
    ensures r.Some? && s.tail == NoTail ==> r.value == v.value
    ensures r.Some? && s.tail != NoTail ==>
      forall k :: k in v.value ==> (k in r.value <==> k != "pipe" && Truthy(v.value[k]))
  {
    if v.None? || v.value == map[] then None
    else if s.tail == NoTail then v
    else Some(map k | k in v.value && k != "pipe" && Truthy(v.value[k]) :: v.value[k])
  }

  // ---------------------------------------------------------------------
  // Pipe and File suffixes

  /**
   * The pipe `Pipe.getName` appends: the pipe override verbatim, else
   * `.version`, else `_output` followed by `.frame` only when the frame
   * override is truthy, else the stored pipe, else `_[pipe]`.
   */
  function CorePipeSuffix(name: string, stored: Values, ov: Values): Result<string, NameFailure> {
    if "pipe" in ov then Ok(Str(ov["pipe"]))
    else if "version" in ov then Ok("." + Str(ov["version"]))
    else if "output" in ov || "frame" in ov then
      Ok("_" + OutputText(stored, ov) + (if "frame" in ov && Truthy(ov["frame"]) then "." + ov["frame"].value else ""))
    else if name == "" then Ok("_[pipe]")
    else if "pipe" in stored then Ok(if Truthy(stored["pipe"]) then stored["pipe"].value else "_[pipe]")
    else Err(AttributeError("pipe"))
  }

  /** `values['extension']` as given, else the stored extension, else `[extension]`. */
  function CoreExtensionText(stored: Values, ov: Values): string {
    if "extension" in ov then Str(ov["extension"])
    else if "extension" in stored && Truthy(stored["extension"]) then stored["extension"].value
    else "[extension]"
  }

  /** `getName(**ov)` on an object whose name is `name` and whose values are `stored`. */
  function CoreGetName(s: Schema, sep: string, name: string, stored: Values, ov: Values): Result<string, NameFailure>
    requires StoredOk(s, stored)
  {
    if ov == map[] && name != "" then Ok(name)
    else
      var ov2 := Derive(s.fields, stored, ov);
      FieldNamesResolve(s, stored, ov2);
      var nice := Join(sep, Translate(FieldNames(s.fields), stored, s.props, ov2));
      match s.tail
      case NoTail => Ok(nice)
      case PipeTail =>
        (match CorePipeSuffix(name, stored, ov2)
         case Err(e) => Err(e)
         case Ok(p) => Ok(nice + p))
      case FileTail =>
        match CorePipeSuffix(name, stored, ov2)
        case Err(e) => Err(e)
        case Ok(p) => Ok(nice + p + "." + CoreExtensionText(stored, ov2))
  }

  // ---------------------------------------------------------------------
  // The two engines agree except on falsy frames and extensions

  /** Overrides whose frame and extension, when given, are truthy. */
  predicate SuffixTruthy(ov: Values) {
    && ("frame" in ov ==> Truthy(ov["frame"]))
    && ("extension" in ov ==> Truthy(ov["extension"]))
  }

  /**
   * With a truthy frame and extension (or none given) `getName` renders
   * exactly what the grill engine's `get_name` renders.
   */
  lemma CoreAgrees(s: Schema, sep: string, name: string, stored: Values, ov: Values)
    requires SchemaOk(s) && StoredOk(s, stored) && SuffixTruthy(ov)
    ensures CoreGetName(s, sep, name, stored, ov) == GetName(s, sep, name, stored, ov)
  {
    var ov2 := Derive(s.fields, stored, ov);
    DeriveTailKeys(s, stored, ov);
    if s.tail != NoTail {
      assert "frame" in TailKeys(s.tail);
      assert CorePipeSuffix(name, stored, ov2) == PipeSuffix(name, stored, ov2);
    }
    if s.tail == FileTail {
      assert "extension" in TailKeys(s.tail);
      assert CoreExtensionText(stored, ov2) == ExtensionText(stored, ov2);
    }
  }

  /** Overrides a name's pattern accepts are never falsy. */
  lemma OverridesTruthy(s: Schema, m: Match, ov: Values)
    requires SchemaOk(s) && |m.values| == |s.fields| && OverridesOk(s, m, ov)
    ensures forall k :: k in ov ==> Truthy(ov[k])
    ensures SuffixTruthy(ov)
  {
    forall k | k in ov
      ensures Truthy(ov[k])
    {
      if k in FieldKeys(s.fields) {
        var i, j := LocateFieldKey(s.fields, k);
        if j == -1 {
          FieldOkNonEmpty(s.fields[i], ov[k].value);
        } else {
          assert Sized(ov[s.fields[i].parts[j].key].value, s.fields[i].parts[j].cls, s.fields[i].parts[j].width);
        }
      } else {
        assert k in TailKeys(FileTail);
      }
    }
  }

  /** Every value a match stores is `None` or a non-empty string. */
  lemma GroupDictTruthy(s: Schema, m: Match)
    requires SchemaOk(s) && MatchOk(s, m)
    ensures forall k :: k in GroupDict(s, m) && GroupDict(s, m)[k].Some? ==> Truthy(GroupDict(s, m)[k])
  {
    OwnValuesTruthy(s, m);
    var pipe := "";
    if s.tail != NoTail {
      pipe := PipeText(m.tail.pipe);
      StoredPipe(s, m);
    }
    TruthyBesidesPipe(s, GroupDict(s, m), pipe);
  }

  /** The values `get_values()` reports of a parsed name are all truthy. */
  lemma OwnValuesTruthy(s: Schema, m: Match)
    requires SchemaOk(s) && MatchOk(s, m)
    ensures forall k :: k in GetValues(s, GroupDict(s, m)) ==> Truthy(GetValues(s, GroupDict(s, m))[k])
  {
    OwnValuesRename(s, m);
    OverridesTruthy(s, m, GetValues(s, GroupDict(s, m)));
  }

  /** A parsed pipe is stored under `pipe` as its text, which starts with its '.' or '_'. */
  lemma StoredPipe(s: Schema, m: Match)
    requires SchemaOk(s) && MatchOk(s, m) && s.tail != NoTail
    ensures "pipe" in GroupDict(s, m) && GroupDict(s, m)["pipe"] == Some(PipeText(m.tail.pipe))
    ensures PipeText(m.tail.pipe) != ""
  {
    GroupDictTail(s, m);
    assert "pipe" in TailKeys(s.tail);
    assert PipeText(m.tail.pipe)[0] == '.' || PipeText(m.tail.pipe)[0] == '_';
  }

  /** Values all truthy apart from `pipe`, and a non-empty `pipe`, make every stored value truthy. */
  lemma TruthyBesidesPipe(s: Schema, d: Values, pipe: string)
    requires forall k :: k in GetValues(s, d) ==> Truthy(GetValues(s, d)[k])
    requires s.tail != NoTail ==> "pipe" in d && d["pipe"] == Some(pipe) && pipe != ""
    ensures forall k :: k in d && d[k].Some? ==> Truthy(d[k])
  {
    var own := GetValues(s, d);
    forall k | k in d && d[k].Some?
      ensures Truthy(d[k])
    {
      if s.tail == NoTail || k != "pipe" {
        assert k in own && own[k] == d[k];
      }
    }
  }

  /** For a parsed name `getValues()` reports the same dictionary as the grill engine's `get_values()`. */
  lemma CoreValuesAgree(s: Schema, m: Match)
    requires SchemaOk(s) && MatchOk(s, m)
    ensures CoreGetValues(s, Some(GroupDict(s, m))) == Some(GetValues(s, GroupDict(s, m)))
  {
    var d := GroupDict(s, m);
    GroupDictNotEmpty(s, m);
    GroupDictTruthy(s, m);
    if s.tail != NoTail {
      var r := CoreGetValues(s, Some(d)).value;
      var g := GetValues(s, d);
      assert forall k :: k in r <==> k in g;
      assert r == g;
    }
  }

  /** A falsy frame adds nothing here, where `get_name` of the grill engine still appends the dot. */
  lemma EmptyFrame()
    ensures CorePipeSuffix("", map[], map["frame" := Some("")]) == Ok("_[output]")
    ensures PipeSuffix("", map[], map["frame" := Some("")]) == Ok("_[output].")
  {
    var none: Values := map[];
    var ov: Values := map["frame" := Some("")];
    assert OutputText(none, ov) == "[output]";
    assert "_" + "[output]" + "" == "_[output]";
    assert "_" + "[output]" + ("." + "") == "_[output].";
  }

  /** An explicit falsy extension is rendered as given, where the grill engine falls back to `[extension]`. */
  lemma EmptyExtension()
    ensures CoreExtensionText(map[], map["extension" := Some("")]) == ""
    ensures CoreExtensionText(map[], map["extension" := None]) == "None"
    ensures ExtensionText(map[], map["extension" := Some("")]) == "[extension]"
  {
  }

  // ---------------------------------------------------------------------
  // Renaming and the stale pattern

  /**
   * `setName(getName(**ov))` on a parsed name, with the separator the
   * pattern was compiled with, renders the renamed match and is accepted:
   * the values then matched are those of the renamed match.
   */
  lemma CoreRenameRoundTrip(s: Schema, sep: string, m: Match, ov: Values)
    requires SchemaOk(s) && SepOk(s, sep) && MatchOk(s, m) && OverridesOk(s, m, ov)
    ensures StoredOk(s, GroupDict(s, m))
    ensures CoreGetName(s, sep, Text(sep, m), GroupDict(s, m), ov) == Ok(Text(sep, Renamed(s, m, ov)))
    ensures MatchedValues(s, sep, Text(sep, Renamed(s, m, ov))) == Some(GroupDict(s, Renamed(s, m, ov)))
  {
    RenameRoundTrip(s, sep, m, ov);
    OverridesTruthy(s, m, ov);
    CoreAgrees(s, sep, Text(sep, m), GroupDict(s, m), ov);
    RenamedOk(s, m, ov);
    FieldOkNonEmpty(s.fields[0], Renamed(s, m, ov).values[0]);
    JoinHead(sep, Renamed(s, m, ov).values);
  }

  /** The first separator of a joined list follows its first element. */
  lemma JoinHead(sep: string, xs: seq<string>)
    requires |xs| > 0 && xs[0] != ""
    ensures |Join(sep, xs)| >= |xs[0]| && Join(sep, xs)[..|xs[0]|] == xs[0]
    ensures |xs| > 1 && sep != "" ==> |Join(sep, xs)| > |xs[0]| && Join(sep, xs)[|xs[0]|] == sep[0]
  {
    if |xs| > 1 {
      assert Join(sep, xs) == xs[0] + sep + Join(sep, xs[1..]);
    }
  }

  /**
   * After the separator changes, `getName(**ov)` joins the fields with the
   * new separator, but the pattern still expects the old one: when the new
   * separator starts with a character no field, the old separator, the
   * pipe or the extension allows, `setName` of that text raises NameError.
   */
  lemma CoreStaleSeparator(s: Schema, sep0: string, sep: string, m: Match, ov: Values)
    requires SchemaOk(s) && SepOk(s, sep0) && MatchOk(s, m) && OverridesOk(s, m, ov)
    requires |s.fields| > 1 && sep != "" && !NameChar(sep[0], sep0)
    ensures StoredOk(s, GroupDict(s, m))
    ensures ov != map[] ==> CoreGetName(s, sep, Text(sep0, m), GroupDict(s, m), ov) == Ok(Text(sep, Renamed(s, m, ov)))
    ensures MatchedValues(s, sep0, Text(sep, Renamed(s, m, ov))) == None
  {
    var r := Renamed(s, m, ov);
    FieldOkNonEmpty(s.fields[0], m.values[0]);
    JoinHead(sep0, m.values);
    GroupDictKeys(s, m);
    if ov != map[] {
      RenameRenders(s, sep, Text(sep0, m), m, ov);
      OverridesTruthy(s, m, ov);
      CoreAgrees(s, sep, Text(sep0, m), GroupDict(s, m), ov);
    }
    RenamedOk(s, m, ov);
    FieldOkNonEmpty(s.fields[0], r.values[0]);
    JoinHead(sep, r.values);
    ParseRejectsForeign(s, sep0, Text(sep, r), |r.values[0]|);
  }

  // ---------------------------------------------------------------------
  // The name object

  class CoreName {
    /** The class: its fields, suffix and directories. */
    const shape: Schema
    /** The separator the pattern was compiled with: the class's initial one. */
    const compiled: string
    /** `name`; "" stands for `None`. */
    var name: string
    var separator: string

    ghost predicate Valid()
      reads this
    {
      && SchemaOk(shape)
      && SepOk(shape, compiled)
      && (name != "" ==> Parse(shape, compiled, name).Some?)
    }

    /** `_values`, matched again from the current name. */
    function Values(): Option<Values>
      reads this
      requires Valid()
    {
      MatchedValues(shape, compiled, name)
    }

    /** The values `_getTranslatedPatternList` and the suffixes read. */
    function Stored(): (r: Values)
      reads this
      requires Valid()
      ensures StoredOk(shape, r)
      ensures name == "" <==> r == map[]
    {
      if name == "" then map[]
      else
        var m := Parse(shape, compiled, name).value;
        GroupDictKeys(shape, m);
        GroupDictNotEmpty(shape, m);
        GroupDict(shape, m)
    }

    /** `getName(**ov)`. */
    function GetName(ov: Values): Result<string, NameFailure>
      reads this
      requires Valid()
    {
      CoreGetName(shape, separator, name, Stored(), ov)
    }

    /** `getValues()`. */
    function GetValues(): Option<Values>
      reads this
      requires Valid()
    {
      CoreGetValues(shape, Values())
    }

    /** `path`: the directories rendered from the values, then `getName()`. */
    function Path(): (r: seq<string>)
      reads this
      requires Valid() && DirsResolve(shape, Stored())
      ensures |r| == |shape.dirs| + 1
      ensures forall i :: 0 <= i < |shape.dirs| ==> r[i] == Choose(shape.dirs[i], Stored(), shape.props, map[])
      ensures GetName(map[]).Ok? && r[|shape.dirs|] == GetName(map[]).value
    {
      CoreAgrees(shape, separator, name, Stored(), map[]);
      GetNameWithoutOverrides(shape, separator, name, Stored());
      GrillNames.Path(shape, separator, name, Stored())
    }

    /** A name object created without a name, with the class's separator. */
    constructor (s: Schema, sep: string)
      requires SchemaOk(s) && SepOk(s, sep)
      ensures Valid()
      ensures shape == s && compiled == sep && separator == sep && name == ""
    {
      shape := s;
      compiled := sep;
      separator := sep;
      name := "";
    }

    /** `setName`: a text the compiled pattern rejects raises NameError and changes nothing. */
    method SetName(text: string) returns (err: Option<NameFailure>)
      requires Valid()
      modifies this
      ensures Valid()
      ensures separator == old(separator)
      ensures Parse(shape, compiled, text).None? ==> err == Some(NameError(text)) && name == old(name)
      ensures Parse(shape, compiled, text).Some? ==> err == None && name == text
    {
      if Parse(shape, compiled, text).None? {
        return Some(NameError(text));
      }
      name := text;
      err := None;
    }

    /** The `separator` setter changes the separator and nothing else. */
    method SetSeparator(sep: string)
      requires Valid()
      modifies this
      ensures Valid()
      ensures separator == sep && name == old(name)
      ensures Values() == old(Values())
    {
      separator := sep;
    }

    /** `__init__(name)`: a name given to the constructor is validated at once. */
    static method New(s: Schema, sep: string, text: string) returns (r: Result<CoreName, NameFailure>)
      requires SchemaOk(s) && SepOk(s, sep)
      ensures text == "" ==> r.Ok? && r.value.Valid() && r.value.Values() == None
      ensures text != "" ==> (r.Ok? <==> Parse(s, sep, text).Some?)
      ensures r.Err? ==> r.error == NameError(text)
      ensures r.Ok? ==> fresh(r.value) && r.value.Valid() && r.value.name == text
      ensures r.Ok? ==> r.value.shape == s && r.value.compiled == sep && r.value.separator == sep
    {
      var n := new CoreName(s, sep);
      if text == "" {
        return Ok(n);
      }
      var err := n.SetName(text);
      if err.Some? {
        return Err(err.value);
      }
      return Ok(n);
    }
  }

  /** A parsed name has at least one group, so its values are never empty. */
  lemma GroupDictNotEmpty(s: Schema, m: Match)
    requires SchemaOk(s) && MatchOk(s, m)
    ensures GroupDict(s, m) != map[]
  {
    GroupDictField(s, m, 0);
  }

  /** A name object holds values exactly when it holds a name; `getValues()` is then the grill engine's. */
  lemma ValuesOfName(n: CoreName)
    requires n.Valid()
    ensures n.Values().None? <==> n.name == ""
    ensures n.GetValues().None? <==> n.name == ""
    ensures n.name != "" ==>
      var m := Parse(n.shape, n.compiled, n.name).value;
      n.GetValues() == Some(GetValues(n.shape, GroupDict(n.shape, m)))
  {
    if n.name != "" {
      var m := Parse(n.shape, n.compiled, n.name).value;
      GroupDictNotEmpty(n.shape, m);
      CoreValuesAgree(n.shape, m);
    }
  }
}
