/**
 * The shape of a name, shared by both naming engines (`grill/names/model`
 * and its camelCase predecessor `core/names/model`).
 *
 * A name class is described by a schema: the ordered fields of
 * `_get_pattern_list`, each with its character-class pattern (or the
 * fixed-width parts of a composite pattern such as `project` =
 * `environment` + `code`), the suffix the class appends to the joined
 * fields (nothing, the pipe, or the pipe and an extension) and the
 * directory components of `path`.
 *
 * The regular expression `^<fields joined by separator><suffix>$` is
 * modelled by its language: `Text(sep, m)` for every well-formed match `m`
 * (`MatchOk`), and the match's `groupdict()` is `GroupDict(schema, m)`.
 */
module NameSchema {
  import opened Chars
  import opened Wrappers

  /** A Python value passed to or stored by a name: `None` or a string. */
  type Value = Option<string>

  /** `str(v)`. */
  function Str(v: Value): string {
    if v.Some? then v.value else "None"
  }

  /** Python truthiness of a value. */
  predicate Truthy(v: Value) {
    v.Some? && v.value != ""
  }

  /** The errors raised by the name objects. */
  datatype NameFailure =
    | NameError(invalid: string)
    | AttributeError(attribute: string)
    | KeywordClash(keyword: string)

  /** `(?P<key>cls{width})`, or `cls+` when `width` is 0. */
  datatype Part = Part(key: string, cls: CharClass, width: nat)

  /**
   * A field pattern: a run of `cls` (exactly `width` characters when
   * `width` > 0), or, when `parts` is not empty, the concatenation of the
   * named parts.
   */
  datatype Field = Field(key: string, cls: CharClass, width: nat, parts: seq<Part>)

  /** What follows the joined fields: nothing (Name), the pipe (Pipe) or the pipe and `.extension` (File). */
  datatype Tail = NoTail | PipeTail | FileTail

  /**
   * `dirs` names the directory components of `path` (`_get_path_pattern_list`);
   * `props` holds the class properties some of them resolve to
   * (`productionenv`, `dirname`, `logdir`).
   */
  datatype Schema = Schema(fields: seq<Field>, tail: Tail, dirs: seq<string>, props: map<string, string>)

  /** The matched pipe: `.version`, or `_output` with an optional `.frame`. */
  datatype PipeValue = Version(version: string) | Output(output: string, frame: Option<string>)

  /** The matched suffix. */
  datatype TailValue = Bare | Piped(pipe: PipeValue) | Filed(pipe: PipeValue, extension: string)

  /** One successful match: the text of every field, then the suffix. */
  datatype Match = Match(values: seq<string>, tail: TailValue)

  // ---------------------------------------------------------------------
  // The language of a pattern

  predicate Sized(v: string, cls: CharClass, width: nat) {
    (if width == 0 then |v| > 0 else |v| == width) && AllIn(v, cls)
  }

  predicate PartsOk(ps: seq<Part>, v: string)
    decreases |ps|
  {
    if |ps| == 0 then v == ""
    else if ps[0].width == 0 then |ps| == 1 && Run(v, ps[0].cls)
    else ps[0].width <= |v| && AllIn(v[..ps[0].width], ps[0].cls) && PartsOk(ps[1..], v[ps[0].width..])
  }

  /** `v` matches the field's pattern. */
  predicate FieldOk(f: Field, v: string) {
    if f.parts == [] then Sized(v, f.cls, f.width) else PartsOk(f.parts, v)
  }

  predicate PipeOk(p: PipeValue) {
    match p
    case Version(v) => Run(v, Digit)
    case Output(o, fr) => Run(o, Alnum) && (fr.Some? ==> Run(fr.value, Digit))
  }

  predicate TailOk(t: Tail, tv: TailValue) {
    match t
    case NoTail => tv.Bare?
    case PipeTail => tv.Piped? && PipeOk(tv.pipe)
    case FileTail => tv.Filed? && PipeOk(tv.pipe) && Run(tv.extension, Alnum)
  }

  predicate MatchOk(s: Schema, m: Match) {
    && |m.values| == |s.fields|
    && (forall i :: 0 <= i < |s.fields| ==> FieldOk(s.fields[i], m.values[i]))
    && TailOk(s.tail, m.tail)
  }

  /** `sep.join(xs)`. */
  function Join(sep: string, xs: seq<string>): string
    decreases |xs|
  {
    if |xs| == 0 then ""
    else if |xs| == 1 then xs[0]
    else xs[0] + sep + Join(sep, xs[1..])
  }

  function PipeText(p: PipeValue): string {
    match p
    case Version(v) => "." + v
    case Output(o, fr) => "_" + o + (if fr.Some? then "." + fr.value else "")
  }

  function TailText(tv: TailValue): string {
    match tv
    case Bare => ""
    case Piped(p) => PipeText(p)
    case Filed(p, e) => PipeText(p) + "." + e
  }

  /** The string a match spells with separator `sep`. */
  function Text(sep: string, m: Match): string {
    Join(sep, m.values) + TailText(m.tail)
  }

  // ---------------------------------------------------------------------
  // groupdict()

  /** `"".join(xs)`. */
  function Concat(xs: seq<string>): string
    decreases |xs|
  {
    if |xs| == 0 then "" else xs[0] + Concat(xs[1..])
  }

  /** The pieces of a composite value, cut at the fixed widths of its parts. */
  function Pieces(ps: seq<Part>, v: string): (r: seq<string>)
    ensures |r| == |ps|
    decreases |ps|
  {
    if |ps| == 0 then []
    else if ps[0].width == 0 || |v| < ps[0].width then [v] + Pieces(ps[1..], "")
    else [v[..ps[0].width]] + Pieces(ps[1..], v[ps[0].width..])
  }

  /** `dict(zip(keys, values))`, every value present. */
  function ZipDict(ks: seq<string>, vs: seq<string>): map<string, Value>
    requires |ks| == |vs|
    decreases |ks|
  {
    if |ks| == 0 then map[] else map[ks[0] := Some(vs[0])] + ZipDict(ks[1..], vs[1..])
  }

  function PartKeys(ps: seq<Part>): (r: seq<string>)
    ensures |r| == |ps|
    ensures forall j :: 0 <= j < |ps| ==> r[j] == ps[j].key
    decreases |ps|
  {
    if |ps| == 0 then [] else [ps[0].key] + PartKeys(ps[1..])
  }

  function FieldDict(fs: seq<Field>, vs: seq<string>): map<string, Value>
    requires |fs| == |vs|
    decreases |fs|
  {
    if |fs| == 0 then map[]
    else (map[fs[0].key := Some(vs[0])] + ZipDict(PartKeys(fs[0].parts), Pieces(fs[0].parts, vs[0])))
         + FieldDict(fs[1..], vs[1..])
  }

  const PipeKeys: seq<string> := ["pipe", "version", "output", "frame"]

  function PipeDict(p: PipeValue): map<string, Value> {
    match p
    case Version(v) => map["pipe" := Some(PipeText(p)), "version" := Some(v), "output" := None, "frame" := None]
    case Output(o, fr) => map["pipe" := Some(PipeText(p)), "version" := None, "output" := Some(o), "frame" := fr]
  }

  function TailDict(tv: TailValue): map<string, Value> {
    match tv
    case Bare => map[]
    case Piped(p) => PipeDict(p)
    case Filed(p, e) => PipeDict(p)["extension" := Some(e)]
  }

  /** `match.groupdict()` for a match of the schema's pattern. */
  function GroupDict(s: Schema, m: Match): map<string, Value>
    requires |m.values| == |s.fields|
  {
    FieldDict(s.fields, m.values) + TailDict(m.tail)
  }

  // ---------------------------------------------------------------------
  // Keys and lookups of groupdict()

  lemma {:induction false} ZipDictKeys(ks: seq<string>, vs: seq<string>)
    requires |ks| == |vs|
    ensures ZipDict(ks, vs).Keys == set k | k in ks
    decreases |ks|
  {
    if |ks| > 0 {
      ZipDictKeys(ks[1..], vs[1..]);
      assert forall k :: k in ks <==> k == ks[0] || k in ks[1..];
    }
  }

  lemma {:induction false} ZipDictAt(ks: seq<string>, vs: seq<string>, j: nat)
    requires |ks| == |vs| && j < |ks| && Distinct(ks)
    ensures ks[j] in ZipDict(ks, vs) && ZipDict(ks, vs)[ks[j]] == Some(vs[j])
    decreases |ks|
  {
    ZipDictKeys(ks[1..], vs[1..]);
    if j > 0 {
      assert ks[1..][j - 1] == ks[j];
      ZipDictAt(ks[1..], vs[1..], j - 1);
    } else {
      assert forall i :: 0 <= i < |ks[1..]| ==> ks[1..][i] == ks[i + 1];
      assert ks[0] !in ks[1..];
    }
  }

  lemma SetOfConcat(a: seq<string>, b: seq<string>)
    ensures (set k | k in a + b) == (set k | k in a) + (set k | k in b)
  {
  }

  lemma {:induction false} FieldDictKeys(fs: seq<Field>, vs: seq<string>)
    requires |fs| == |vs|
    ensures FieldDict(fs, vs).Keys == set k | k in FieldKeys(fs)
    decreases |fs|
  {
    if |fs| > 0 {
      var pk := PartKeys(fs[0].parts);
      FieldDictKeys(fs[1..], vs[1..]);
      ZipDictKeys(pk, Pieces(fs[0].parts, vs[0]));
      assert FieldKeys(fs) == ([fs[0].key] + pk) + FieldKeys(fs[1..]);
      SetOfConcat([fs[0].key] + pk, FieldKeys(fs[1..]));
      SetOfConcat([fs[0].key], pk);
      assert (set k | k in [fs[0].key]) == {fs[0].key};
    }
  }

  /** A field's key and its parts' keys are among the schema's keys. */
  lemma {:induction false} FieldKeysHold(fs: seq<Field>, i: nat)
    requires i < |fs|
    ensures fs[i].key in FieldKeys(fs)
    ensures forall j :: 0 <= j < |fs[i].parts| ==> fs[i].parts[j].key in FieldKeys(fs)
    decreases |fs|
  {
    var ks := FieldKeys(fs);
    assert ks == [fs[0].key] + PartKeys(fs[0].parts) + FieldKeys(fs[1..]);
    if i > 0 {
      FieldKeysHold(fs[1..], i - 1);
    } else {
      forall j | 0 <= j < |fs[0].parts|
        ensures fs[0].parts[j].key in ks
      {
        assert PartKeys(fs[0].parts)[j] == fs[0].parts[j].key;
        assert ks[1 + j] == fs[0].parts[j].key;
      }
    }
  }

  /** groupdict() maps a field's key to the field's text... */
  lemma {:induction false} FieldDictAt(fs: seq<Field>, vs: seq<string>, i: nat)
    requires |fs| == |vs| && i < |fs| && Distinct(FieldKeys(fs))
    ensures fs[i].key in FieldDict(fs, vs) && FieldDict(fs, vs)[fs[i].key] == Some(vs[i])
    decreases |fs|
  {
    var head := [fs[0].key] + PartKeys(fs[0].parts);
    assert FieldKeys(fs) == head + FieldKeys(fs[1..]);
    DistinctSplit(head, FieldKeys(fs[1..]));
    DistinctSplit([fs[0].key], PartKeys(fs[0].parts));
    FieldDictKeys(fs[1..], vs[1..]);
    ZipDictKeys(PartKeys(fs[0].parts), Pieces(fs[0].parts, vs[0]));
    if i > 0 {
      FieldDictAt(fs[1..], vs[1..], i - 1);
    } else {
      assert fs[0].key in head;
    }
  }

  /** ...and each of its parts' keys to the matching piece. */
  lemma {:induction false} FieldDictPart(fs: seq<Field>, vs: seq<string>, i: nat, j: nat)
    requires |fs| == |vs| && i < |fs| && j < |fs[i].parts| && Distinct(FieldKeys(fs))
    ensures fs[i].parts[j].key in FieldDict(fs, vs)
    ensures FieldDict(fs, vs)[fs[i].parts[j].key] == Some(Pieces(fs[i].parts, vs[i])[j])
    decreases |fs|
  {
    var head := [fs[0].key] + PartKeys(fs[0].parts);
    assert FieldKeys(fs) == head + FieldKeys(fs[1..]);
    DistinctSplit(head, FieldKeys(fs[1..]));
    DistinctSplit([fs[0].key], PartKeys(fs[0].parts));
    FieldDictKeys(fs[1..], vs[1..]);
    if i > 0 {
      FieldDictPart(fs[1..], vs[1..], i - 1, j);
    } else {
      var pk := PartKeys(fs[0].parts);
      ZipDictAt(pk, Pieces(fs[0].parts, vs[0]), j);
      assert pk[j] in head;
    }
  }

  lemma TailDictKeys(t: Tail, tv: TailValue)
    requires TailOk(t, tv)
    ensures TailDict(tv).Keys == set k | k in TailKeys(t)
  {
  }

  /** The keys of groupdict() are the pattern's groups, whatever the match. */
  lemma GroupDictKeys(s: Schema, m: Match)
    requires MatchOk(s, m)
    ensures GroupDict(s, m).Keys == set k | k in GroupKeys(s)
  {
    FieldDictKeys(s.fields, m.values);
    TailDictKeys(s.tail, m.tail);
  }

  /** groupdict()[key] of field `i` is the field's text, and of its part `j` the piece. */
  lemma GroupDictField(s: Schema, m: Match, i: nat)
    requires |m.values| == |s.fields| && i < |s.fields| && Distinct(GroupKeys(s)) && TailOk(s.tail, m.tail)
    ensures s.fields[i].key in GroupDict(s, m) && GroupDict(s, m)[s.fields[i].key] == Some(m.values[i])
  {
    TailDictKeys(s.tail, m.tail);
    DistinctSplit(FieldKeys(s.fields), TailKeys(s.tail));
    FieldDictAt(s.fields, m.values, i);
    FieldKeysHold(s.fields, i);
    FieldDictKeys(s.fields, m.values);
    assert s.fields[i].key !in TailKeys(s.tail);
  }

  lemma GroupDictPart(s: Schema, m: Match, i: nat, j: nat)
    requires |m.values| == |s.fields| && i < |s.fields| && j < |s.fields[i].parts|
    requires Distinct(GroupKeys(s)) && TailOk(s.tail, m.tail)
    ensures s.fields[i].parts[j].key in GroupDict(s, m)
    ensures GroupDict(s, m)[s.fields[i].parts[j].key] == Some(Pieces(s.fields[i].parts, m.values[i])[j])
  {
    TailDictKeys(s.tail, m.tail);
    DistinctSplit(FieldKeys(s.fields), TailKeys(s.tail));
    FieldDictPart(s.fields, m.values, i, j);
    FieldKeysHold(s.fields, i);
    FieldDictKeys(s.fields, m.values);
    assert s.fields[i].parts[j].key !in TailKeys(s.tail);
  }

  /** groupdict() of the suffix groups. */
  lemma GroupDictTail(s: Schema, m: Match)
    requires |m.values| == |s.fields| && Distinct(GroupKeys(s)) && TailOk(s.tail, m.tail)
    ensures forall k :: k in TailKeys(s.tail) ==> k in GroupDict(s, m) && GroupDict(s, m)[k] == TailDict(m.tail)[k]
  {
    DistinctSplit(FieldKeys(s.fields), TailKeys(s.tail));
    FieldDictKeys(s.fields, m.values);
  }

  // ---------------------------------------------------------------------
  // Composite values and their pieces

  /** Fixed-width parts first and one `+` part last, as `CompositeOk` demands of a composite field. */
  predicate PartsShaped(ps: seq<Part>) {
    && |ps| > 0
    && ps[|ps| - 1].width == 0
    && forall j :: 0 <= j < |ps| - 1 ==> ps[j].width > 0
  }

  /** A composite value is the concatenation of its pieces, and each piece matches its part. */
  lemma {:induction false} PiecesOfParts(ps: seq<Part>, v: string)
    requires PartsShaped(ps) && PartsOk(ps, v)
    ensures Concat(Pieces(ps, v)) == v
    ensures forall j :: 0 <= j < |ps| ==> Sized(Pieces(ps, v)[j], ps[j].cls, ps[j].width)
    decreases |ps|
  {
    if ps[0].width != 0 {
      var w := ps[0].width;
      assert |ps| > 1;
      PiecesOfParts(ps[1..], v[w..]);
      assert Pieces(ps, v) == [v[..w]] + Pieces(ps[1..], v[w..]);
      assert v == v[..w] + v[w..];
    }
  }

  /** Pieces that match their parts concatenate to a composite value that splits back into them. */
  lemma {:induction false} PartsOfPieces(ps: seq<Part>, ws: seq<string>)
    requires PartsShaped(ps) && |ws| == |ps|
    requires forall j :: 0 <= j < |ps| ==> Sized(ws[j], ps[j].cls, ps[j].width)
    ensures PartsOk(ps, Concat(ws)) && Pieces(ps, Concat(ws)) == ws
    decreases |ps|
  {
    var v := Concat(ws);
    if |ps| == 1 {
      assert v == ws[0];
    } else {
      var w := ps[0].width;
      assert |ws[0]| == w;
      PartsOfPieces(ps[1..], ws[1..]);
      assert v == ws[0] + Concat(ws[1..]);
      assert v[..w] == ws[0] && v[w..] == Concat(ws[1..]);
      assert [ws[0]] + ws[1..] == ws;
    }
  }

  // ---------------------------------------------------------------------
  // Well-formed schemas and separators

  function FieldKeys(fs: seq<Field>): seq<string>
    decreases |fs|
  {
    if |fs| == 0 then [] else [fs[0].key] + PartKeys(fs[0].parts) + FieldKeys(fs[1..])
  }

  lemma {:induction false} FieldKeysAppend(a: seq<Field>, b: seq<Field>)
    ensures FieldKeys(a + b) == FieldKeys(a) + FieldKeys(b)
    decreases |a|
  {
    if |a| == 0 {
      assert a + b == b;
    } else {
      assert (a + b)[1..] == a[1..] + b;
      FieldKeysAppend(a[1..], b);
    }
  }

  /** The keys of the fields from `k` on: field `k`'s key and parts, then the keys of the fields after it. */
  lemma FieldKeysFrom(fs: seq<Field>, k: nat, rest: seq<string>)
    requires k < |fs| && FieldKeys(fs[k + 1..]) == rest
    ensures FieldKeys(fs[k..]) == [fs[k].key] + PartKeys(fs[k].parts) + rest
  {
    assert fs[k..][1..] == fs[k + 1..];
  }

  function TailKeys(t: Tail): seq<string> {
    match t
    case NoTail => []
    case PipeTail => PipeKeys
    case FileTail => PipeKeys + ["extension"]
  }

  /** Every named group of the schema's pattern, in pattern order. */
  function GroupKeys(s: Schema): seq<string> {
    FieldKeys(s.fields) + TailKeys(s.tail)
  }

  /** Fixed-width parts first, one `+` part last, all inside the field's class. */
  predicate CompositeOk(f: Field) {
    f.parts != [] ==>
      && f.width == 0
      && f.parts[|f.parts| - 1].width == 0
      && (forall i :: 0 <= i < |f.parts| - 1 ==> f.parts[i].width > 0)
      && (forall i :: 0 <= i < |f.parts| ==> SubClass(f.parts[i].cls, f.cls))
  }

  /**
   * A pattern Python compiles: at least one field, named groups all
   * distinct and none named like a suffix group, composite fields well
   * formed, and no field class containing '.', which starts the pipe and
   * the extension.
   */
  predicate SchemaOk(s: Schema) {
    && |s.fields| > 0
    && Distinct(GroupKeys(s))
    && (forall k :: k in FieldKeys(s.fields) ==> k !in TailKeys(FileTail))
    && (forall i :: 0 <= i < |s.fields| ==> CompositeOk(s.fields[i]))
    && (s.tail != NoTail ==> !In('.', s.fields[|s.fields| - 1].cls))
  }

  /** The characters with a meaning of their own in a Python regular expression. */
  predicate IsMeta(c: char) {
    c in {'.', '^', '$', '*', '+', '?', '{', '}', '[', ']', '\\', '|', '(', ')'}
  }

  /**
   * Separators whose escaped pattern `\` + separator matches exactly the
   * separator, and whose first character cannot continue any field.
   */
  predicate SepOk(s: Schema, sep: string) {
    && |sep| > 0
    && !IsAlnum(sep[0])
    && (forall i :: 1 <= i < |sep| ==> !IsMeta(sep[i]))
    && (forall i :: 0 <= i < |s.fields| ==> !In(sep[0], s.fields[i].cls))
  }
}
