/**
 * What the grill name classes render before and after a name is set:
 * placeholders on a name without values, `nice_name` and `pipe_name` of a
 * parsed name, and the names and paths the class tests spell out.
 */
module GrillClasses {
  import opened Chars
  import opened Wrappers
  import opened NameSchema
  import opened NameParse
  import opened NameClasses
  import opened GrillNames
  import opened GrillRenaming

  // ---------------------------------------------------------------------
  // Names without values

  /** `[key]` for every key. */
  function Placeholders(keys: seq<string>): (r: seq<string>)
    ensures |r| == |keys|
    ensures forall i :: 0 <= i < |keys| ==> r[i] == "[" + keys[i] + "]"
  {
    seq(|keys|, i requires 0 <= i < |keys| => "[" + keys[i] + "]")
  }

  /** The text of a name without values: a placeholder for every field and for the suffix. */
  function PlaceholderText(s: Schema, sep: string): string {
    Join(sep, Placeholders(FieldNames(s.fields))) +
    match s.tail
    case NoTail => ""
    case PipeTail => "_[pipe]"
    case FileTail => "_[pipe].[extension]"
  }

  /** With nothing stored no composite field is recomputed. */
  lemma {:induction false} DeriveNothingStored(fs: seq<Field>, ov: Values)
    ensures Derive(fs, map[], ov) == ov
    decreases |fs|
  {
    if |fs| > 0 {
      var f := fs[|fs| - 1];
      var none: Values := map[];
      if f.parts != [] {
        assert f.parts[0].key !in none;
      }
      assert DeriveField(f, map[], ov) == ov;
      DeriveNothingStored(fs[..|fs| - 1], ov);
    }
  }

  /**
   * A name without values renders placeholders under any overrides that
   * name no field and no suffix group, exactly as with no overrides: on
   * an empty Film `get_name(kind='set') == get_name()`.
   */
  lemma FreshName(s: Schema, sep: string, ov: Values)
    requires forall i :: 0 <= i < |s.fields| ==> s.fields[i].key !in ov
    requires forall k :: k in TailKeys(FileTail) ==> k !in ov
    ensures GetName(s, sep, "", map[], ov) == Ok(PlaceholderText(s, sep))
  {
    var none: Values := map[];
    DeriveNothingStored(s.fields, ov);
    FieldNamesResolve(s, none, ov);
    assert Translate(FieldNames(s.fields), none, s.props, ov) == Placeholders(FieldNames(s.fields));
    FreshTail(ov);
    var nice := Join(sep, Placeholders(FieldNames(s.fields)));
    assert Derive(s.fields, none, ov) == ov;
    match s.tail
    case NoTail =>
      assert GetName(s, sep, "", none, ov) == Ok(nice);
      assert nice + "" == nice;
    case PipeTail =>
      assert GetName(s, sep, "", none, ov) == Ok(nice + "_[pipe]");
    case FileTail =>
      assert GetName(s, sep, "", none, ov) == Ok(nice + "_[pipe]" + "." + "[extension]");
      assert nice + "_[pipe]" + "." + "[extension]" == nice + "_[pipe].[extension]";
  }

  /** Without values or overrides of the pipe and file keys, the suffixes are their placeholders. */
  lemma FreshTail(ov: Values)
    requires forall k :: k in TailKeys(FileTail) ==> k !in ov
    ensures PipeSuffix("", map[], ov) == Ok("_[pipe]")
    ensures ExtensionText(map[], ov) == "[extension]"
  {
    assert "pipe" !in ov && "version" !in ov && "output" !in ov && "frame" !in ov && "extension" !in ov by {
      assert TailKeys(FileTail) == ["pipe", "version", "output", "frame", "extension"];
    }
  }

  /** On a name without values, overridden fields render their overrides. */
  lemma FreshFields(s: Schema, ov: Values, xs: seq<string>)
    requires |xs| == |s.fields|
    requires forall i :: 0 <= i < |s.fields| ==> s.fields[i].key in ov && Str(ov[s.fields[i].key]) == xs[i]
    ensures forall i :: 0 <= i < |s.fields| ==> Resolves(FieldNames(s.fields)[i], map[], s.props, Derive(s.fields, map[], ov))
    ensures Translate(FieldNames(s.fields), map[], s.props, Derive(s.fields, map[], ov)) == xs
  {
    DeriveNothingStored(s.fields, ov);
  }

  /**
   * On a file name without values, overriding every field, the pipe and
   * the extension spells the overrides: fields joined, pipe, dot, extension.
   */
  lemma FreshFile(s: Schema, sep: string, ov: Values, xs: seq<string>, pipe: string, ext: string)
    requires s.tail == FileTail && |xs| == |s.fields|
    requires forall i :: 0 <= i < |s.fields| ==> s.fields[i].key in ov && Str(ov[s.fields[i].key]) == xs[i]
    requires "pipe" in ov && Str(ov["pipe"]) == pipe
    requires "extension" in ov && ov["extension"] == Some(ext) && ext != ""
    ensures GetName(s, sep, "", map[], ov) == Ok(Join(sep, xs) + pipe + "." + ext)
  {
    FreshFields(s, ov, xs);
    DeriveNothingStored(s.fields, ov);
  }

  /** A joined list starts with its first element. */
  lemma JoinStarts(sep: string, xs: seq<string>)
    requires |xs| > 0 && xs[0] != ""
    ensures |Join(sep, xs)| > 0 && Join(sep, xs)[0] == xs[0][0]
  {
  }

  /** `set_name` rejects the placeholder text of a name without values. */
  lemma FreshNameInvalid(s: Schema, sep: string)
    requires SchemaOk(s) && SepOk(s, sep)
    ensures Parse(s, sep, PlaceholderText(s, sep)) == None
  {
    var t := PlaceholderText(s, sep);
    var ph := Placeholders(FieldNames(s.fields));
    JoinStarts(sep, ph);
    assert t[0] == '[';
    if Parse(s, sep, t).Some? {
      var m := Parse(s, sep, t).value;
      ParseIff(s, sep, t, m);
      FieldOkNonEmpty(s.fields[0], m.values[0]);
      FieldOkIsRun(s.fields[0], m.values[0]);
      JoinStarts(sep, m.values);
      assert t[0] == m.values[0][0];
      ClassChars(m.values[0][0], s.fields[0].cls);
      assert false;
    }
  }

  // ---------------------------------------------------------------------
  // nice_name and pipe_name of a parsed name

  /** The fields of a parsed name render as they were matched. */
  lemma TranslateOwnFields(s: Schema, m: Match)
    requires SchemaOk(s) && MatchOk(s, m)
    ensures StoredOk(s, GroupDict(s, m))
    ensures forall i :: 0 <= i < |s.fields| ==> s.fields[i].key in GroupDict(s, m)
    ensures Translate(FieldNames(s.fields), GroupDict(s, m), s.props, map[]) == m.values
  {
    GroupDictKeys(s, m);
    FieldNamesResolve(s, GroupDict(s, m), map[]);
    forall i | 0 <= i < |s.fields|
      ensures s.fields[i].key in GroupDict(s, m)
    {
      GroupDictField(s, m, i);
    }
    forall i | 0 <= i < |s.fields|
      ensures Translate(FieldNames(s.fields), GroupDict(s, m), s.props, map[])[i] == m.values[i]
    {
      GroupDictField(s, m, i);
    }
  }

  /**
   * `nice_name` of a parsed name is its fields joined, without the pipe or
   * the extension; `pipe_name` adds the matched pipe and leaves out only
   * the extension.
   */
  lemma NiceNameOfMatch(s: Schema, sep: string, m: Match)
    requires SchemaOk(s) && MatchOk(s, m)
    ensures StoredOk(s, GroupDict(s, m))
    ensures NiceName(s, sep, GroupDict(s, m)) == Join(sep, m.values)
    ensures s.tail != NoTail ==> PipeName(s, sep, GroupDict(s, m)) == Join(sep, m.values) + PipeText(m.tail.pipe)
    ensures s.tail == FileTail ==> Text(sep, m) == PipeName(s, sep, GroupDict(s, m)) + "." + m.tail.extension
  {
    TranslateOwnFields(s, m);
    if s.tail != NoTail {
      GroupDictTail(s, m);
      assert "pipe" in TailKeys(s.tail);
    }
    if s.tail == FileTail {
      FiledText(sep, m, PipeName(s, sep, GroupDict(s, m)));
    }
  }

  /** A name with an extension is its pipe name, a dot and the extension. */
  lemma FiledText(sep: string, m: Match, pipeName: string)
    requires m.tail.Filed? && pipeName == Join(sep, m.values) + PipeText(m.tail.pipe)
    ensures Text(sep, m) == pipeName + "." + m.tail.extension
  {
  }

  // ---------------------------------------------------------------------
  // path of a parsed name

  /**
   * On a name holding values, `path` is the stored value of every
   * directory key in order (class properties for the keys that are not
   * groups) followed by the name.
   */
  lemma PathOfStored(s: Schema, sep: string, name: string, stored: Values, xs: seq<string>)
    requires StoredOk(s, stored) && DirsResolve(s, stored) && stored != map[] && name != ""
    requires |xs| == |s.dirs|
    requires forall i :: 0 <= i < |s.dirs| ==>
      if s.dirs[i] in stored then Str(stored[s.dirs[i]]) == xs[i] else s.props[s.dirs[i]] == xs[i]
    ensures Path(s, sep, name, stored) == xs + [name]
  {
    var r := Path(s, sep, name, stored);
    forall i | 0 <= i < |s.dirs|
      ensures r[i] == xs[i]
    {
    }
  }
}
