/**
 * The grill name object (`grill/names/model/base.py`): a name, its
 * separator and the values of its last successful match, updated in
 * place by `set_name` and by the `separator` setter.
 */
module GrillObject {
  import opened Chars
  import opened Wrappers
  import opened NameSchema
  import opened NameParse
  import opened GrillNames
  import opened GrillRenaming

  class GrillName {
    /** The class: its fields, suffix and directories. */
    const shape: Schema
    /** `name`; "" stands for `None`. */
    var name: string
    var separator: string
    /** `_values`, filled by `set_name` with `match.groupdict()`. */
    var values: Values
    /** The match the values come from, if any. */
    ghost var matched: Option<Match>

    ghost predicate Valid()
      reads this
    {
      && SchemaOk(shape)
      && SepOk(shape, separator)
      && StoredOk(shape, values)
      && (matched.None? ==> values == map[])
      && (matched.Some? ==> MatchOk(shape, matched.value) && values == GroupDict(shape, matched.value))
      && (matched.Some? ==> name == Text(separator, matched.value))
    }

    /** A name object created without a name. */
    constructor (s: Schema, sep: string)
      requires SchemaOk(s) && SepOk(s, sep)
      ensures Valid()
      ensures shape == s && name == "" && separator == sep && values == map[] && matched == None
    {
      shape := s;
      name := "";
      separator := sep;
      values := map[];
      matched := None;
    }

    /**
     * `set_name`: an invalid name raises NameError and changes nothing; a
     * valid one is stored together with every named group of the match.
     */
    method SetName(text: string) returns (err: Option<NameFailure>)
      requires Valid()
      modifies this
      ensures Valid()
      ensures separator == old(separator)
      ensures Parse(shape, separator, text).None? ==>
        err == Some(NameError(text)) && name == old(name) && values == old(values) && matched == old(matched)
      ensures Parse(shape, separator, text).Some? ==>
        && err == None && name == text && matched == Parse(shape, separator, text)
        && values == GroupDict(shape, Parse(shape, separator, text).value)
    {
      var m := Parse(shape, separator, text);
      if m.None? {
        return Some(NameError(text));
      }
      var groups := GroupDict(shape, m.value);
      ParseIff(shape, separator, text, m.value);
      GroupDictKeys(shape, m.value);
      if matched.Some? {
        GroupDictKeys(shape, matched.value);
      }
      UpdateCovers(values, groups);
      name := text;
      values := values + groups;
      matched := m;
      err := None;
    }

    /**
     * The `separator` setter: the new separator is set, the name is
     * re-rendered from `get_values()` and stored, and, when not empty,
     * validated by `set_name` against the pattern rebuilt with the new
     * separator.  A failing `get_name` leaves the name as it was.
     */
    method SetSeparator(sep: string) returns (err: Option<NameFailure>)
      requires Valid() && SepOk(shape, sep)
      modifies this
      ensures Valid()
      ensures separator == sep
      ensures GetName(shape, sep, old(name), old(values), GetValues(shape, old(values))).Err? ==>
        && err == Some(GetName(shape, sep, old(name), old(values), GetValues(shape, old(values))).error)
        && name == old(name) && values == old(values)
      ensures GetName(shape, sep, old(name), old(values), GetValues(shape, old(values))).Ok? ==>
        var t := GetName(shape, sep, old(name), old(values), GetValues(shape, old(values))).value;
        && (t == "" || Parse(shape, sep, t).None? ==> name == t && values == old(values))
        && (t != "" && Parse(shape, sep, t).None? ==> err == Some(NameError(t)))
        && (t != "" && Parse(shape, sep, t).Some? ==>
              err == None && name == t && values == GroupDict(shape, Parse(shape, sep, t).value))
      ensures old(matched).Some? ==>
        && err == None && name == Text(sep, old(matched).value)
        && matched == old(matched) && values == old(values)
    {
      ValidStored(this);
      if matched.Some? {
        FieldOkNonEmpty(shape.fields[0], matched.value.values[0]);
        SeparatorChange(shape, sep, name, matched.value);
      }
      separator := sep;
      var rendered := GetName(shape, sep, name, values, GetValues(shape, values));
      if rendered.Err? {
        return Some(rendered.error);
      }
      name := rendered.value;
      if name != "" {
        err := SetName(name);
      } else {
        err := None;
      }
    }

    /** `__init__(name, separator)`: a name given to the constructor is validated at once. */
    static method New(s: Schema, sep: string, text: string) returns (r: Result<GrillName, NameFailure>)
      requires SchemaOk(s) && SepOk(s, sep)
      ensures text == "" ==> r.Ok? && r.value.values == map[]
      ensures text != "" ==> (r.Ok? <==> Parse(s, sep, text).Some?)
      ensures r.Err? ==> r.error == NameError(text)
      ensures r.Ok? ==> fresh(r.value) && r.value.Valid() && r.value.name == text
      ensures r.Ok? ==> r.value.shape == s && r.value.separator == sep
      ensures r.Ok? && text != "" ==> r.value.values == GroupDict(s, Parse(s, sep, text).value)
    {
      var n := new GrillName(s, sep);
      if text == "" {
        return Ok(n);
      }
      var err := n.SetName(text);
      if err.Some? {
        return Err(err.value);
      }
      return Ok(n);
    }
  }

  /** `dict.update` with a dictionary holding every key already present replaces the whole content. */
  lemma UpdateCovers(a: Values, b: Values)
    requires a.Keys <= b.Keys
    ensures a + b == b
  {
  }

  /** What a valid object stores is a state `get_name` accepts. */
  lemma ValidStored(n: GrillName)
    requires n.Valid()
    ensures StoredOk(n.shape, n.values)
  {
    if n.matched.Some? {
      GroupDictKeys(n.shape, n.matched.value);
    }
  }
}
