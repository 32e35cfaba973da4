/**
 * Matching a string against a name pattern, as `re.match` does with the
 * compiled `^...$` pattern of `grill/names/model/base.py` and
 * `core/names/model/base.py`.
 *
 * Every field class excludes the first character of the separator and of
 * the suffix, so a field always spans the longest run of its class: the
 * parser takes that run, and it is proved to accept exactly the language
 * `Text(sep, m)` of the well-formed matches (`ParseIff`).  The match is
 * therefore unique, and its `groupdict()` is `GroupDict` of the parse.
 */
module NameParse {
  import opened Chars
  import opened Wrappers
  import opened NameSchema

  /** Splits `s` into the fields `fs`; returns their texts and what follows the last one. */
  function ParseFields(fs: seq<Field>, sep: string, s: string): (r: Option<(seq<string>, string)>)
    requires |fs| > 0
    ensures r.Some? ==> |r.value.0| == |fs|
    ensures r.Some? ==> forall i :: 0 <= i < |fs| ==> FieldOk(fs[i], r.value.0[i])
    ensures r.Some? ==> s == Join(sep, r.value.0) + r.value.1
    decreases |fs|
  {
    var n := RunLength(s, fs[0].cls);
    var v := s[..n];
    if !FieldOk(fs[0], v) then None
    else if |fs| == 1 then
      assert s == v + s[n..];
      Some(([v], s[n..]))
    else if !(|sep| <= |s| - n && s[n..n + |sep|] == sep) then None
    else
      match ParseFields(fs[1..], sep, s[n + |sep|..])
      case None => None
      case Some(r) =>
        FieldsCons(fs, sep, s, n, r.0, r.1);
        Some(([v] + r.0, r.1))
  }

  /** The first field's text in front of the texts of the others parses as all of them. */
  lemma FieldsCons(fs: seq<Field>, sep: string, s: string, n: nat, vs: seq<string>, t: string)
    requires |fs| > 1 && n + |sep| <= |s| && s[n..n + |sep|] == sep && FieldOk(fs[0], s[..n])
    requires |vs| == |fs| - 1 && forall i :: 0 <= i < |fs[1..]| ==> FieldOk(fs[1..][i], vs[i])
    requires s[n + |sep|..] == Join(sep, vs) + t
    ensures |[s[..n]] + vs| == |fs|
    ensures forall i :: 0 <= i < |fs| ==> FieldOk(fs[i], ([s[..n]] + vs)[i])
    ensures s == Join(sep, [s[..n]] + vs) + t
  {
    FieldsConsOk(fs, s[..n], vs);
    FieldsConsText(sep, s, n, vs, t);
  }

  lemma FieldsConsOk(fs: seq<Field>, v: string, vs: seq<string>)
    requires |fs| > 1 && FieldOk(fs[0], v)
    requires |vs| == |fs| - 1 && forall i :: 0 <= i < |fs[1..]| ==> FieldOk(fs[1..][i], vs[i])
    ensures forall i :: 0 <= i < |fs| ==> FieldOk(fs[i], ([v] + vs)[i])
  {
    forall i | 1 <= i < |fs|
      ensures FieldOk(fs[i], ([v] + vs)[i])
    {
      assert fs[i] == fs[1..][i - 1] && ([v] + vs)[i] == vs[i - 1];
    }
  }

  lemma FieldsConsText(sep: string, s: string, n: nat, vs: seq<string>, t: string)
    requires n + |sep| <= |s| && s[n..n + |sep|] == sep && |vs| > 0
    requires s[n + |sep|..] == Join(sep, vs) + t
    ensures s == Join(sep, [s[..n]] + vs) + t
  {
    var v := s[..n];
    SplitAround(s, n, sep, Join(sep, vs) + t);
    assert ([v] + vs)[1..] == vs;
    Regroup(v, sep, Join(sep, vs), t);
  }

  /** A string is what comes before `sep`, `sep` and what comes after. */
  lemma SplitAround(s: string, n: nat, sep: string, rest: string)
    requires n + |sep| <= |s| && s[n..n + |sep|] == sep && s[n + |sep|..] == rest
    ensures s == s[..n] + sep + rest
  {
    assert s == s[..n] + s[n..n + |sep|] + s[n + |sep|..];
  }

  lemma Regroup(v: string, sep: string, j: string, t: string)
    ensures v + sep + (j + t) == v + sep + j + t
  {
  }

  /** Parses a whole pipe: `.version`, `_output` or `_output.frame`. */
  function ParsePipe(t: string): (r: Option<PipeValue>)
    ensures r.Some? ==> PipeOk(r.value) && PipeText(r.value) == t
  {
    if |t| == 0 then None
    else if t[0] == '.' then
      if Run(t[1..], Digit) then Some(Version(t[1..])) else None
    else if t[0] == '_' then
      var n := RunLength(t[1..], Alnum);
      var o := t[1..][..n];
      var rest := t[1 + n..];
      assert t == "_" + o + rest;
      if n == 0 then None
      else if rest == "" then Some(Output(o, None))
      else if rest[0] == '.' && Run(rest[1..], Digit) then
        assert rest == "." + rest[1..];
        Some(Output(o, Some(rest[1..])))
      else None
    else None
  }

  /** Index of the last '.' in `t`. */
  function LastDot(t: string): (r: Option<nat>)
    ensures r.Some? ==> r.value < |t| && t[r.value] == '.'
    ensures r.Some? ==> forall j :: r.value < j < |t| ==> t[j] != '.'
    ensures r.None? ==> forall j :: 0 <= j < |t| ==> t[j] != '.'
    decreases |t|
  {
    if |t| == 0 then None
    else if t[|t| - 1] == '.' then Some(|t| - 1)
    else LastDot(t[..|t| - 1])
  }

  /** Parses what follows the fields; the extension is what follows the last '.'. */
  function ParseTail(tail: Tail, t: string): (r: Option<TailValue>)
    ensures r.Some? ==> TailOk(tail, r.value) && TailText(r.value) == t
  {
    match tail
    case NoTail => if t == "" then Some(Bare) else None
    case PipeTail =>
      (match ParsePipe(t)
       case None => None
       case Some(p) => Some(Piped(p)))
    case FileTail =>
      match LastDot(t)
      case None => None
      case Some(k) =>
        var e := t[k + 1..];
        if !Run(e, Alnum) then None
        else
          match ParsePipe(t[..k])
          case None => None
          case Some(p) =>
            assert t == t[..k] + "." + e;
            Some(Filed(p, e))
  }

  /** `re.match` of the schema's pattern (fields joined by `sep`) on `text`. */
  function Parse(s: Schema, sep: string, text: string): (r: Option<Match>)
    requires |s.fields| > 0
    ensures r.Some? ==> MatchOk(s, r.value) && Text(sep, r.value) == text
  {
    match ParseFields(s.fields, sep, text)
    case None => None
    case Some(fr) =>
      match ParseTail(s.tail, fr.1)
      case None => None
      case Some(tv) => Some(Match(fr.0, tv))
  }

  // ---------------------------------------------------------------------
  // Completeness

  lemma {:induction false} PartsOkAllIn(ps: seq<Part>, v: string, k: CharClass)
    requires PartsOk(ps, v)
    requires forall i :: 0 <= i < |ps| ==> SubClass(ps[i].cls, k)
    ensures AllIn(v, k)
    decreases |ps|
  {
    if |ps| == 0 {
    } else if ps[0].width == 0 {
      assert SubClass(ps[0].cls, k);
    } else {
      var w := ps[0].width;
      PartsOkAllIn(ps[1..], v[w..], k);
      assert SubClass(ps[0].cls, k);
      forall i | 0 <= i < |v|
        ensures In(v[i], k)
      {
        if i < w {
          assert v[i] == v[..w][i];
        } else {
          assert v[i] == v[w..][i - w];
        }
      }
    }
  }

  /** A well-formed field value is a run of the field's class. */
  lemma FieldOkIsRun(f: Field, v: string)
    requires CompositeOk(f)
    requires FieldOk(f, v)
    ensures AllIn(v, f.cls)
  {
    if f.parts != [] {
      PartsOkAllIn(f.parts, v, f.cls);
    }
  }

  lemma {:induction false} ParseFieldsComplete(fs: seq<Field>, sep: string, vs: seq<string>, t: string)
    requires |fs| > 0 && |vs| == |fs|
    requires forall i :: 0 <= i < |fs| ==> FieldOk(fs[i], vs[i]) && CompositeOk(fs[i])
    requires |sep| > 0 && forall i :: 0 <= i < |fs| ==> !In(sep[0], fs[i].cls)
    requires t == "" || !In(t[0], fs[|fs| - 1].cls)
    ensures ParseFields(fs, sep, Join(sep, vs) + t) == Some((vs, t))
    decreases |fs|
  {
    FieldOkIsRun(fs[0], vs[0]);
    if |fs| == 1 {
      LastFieldStep(fs[0], vs[0], sep, t);
      assert [vs[0]] == vs;
    } else {
      var rest := Join(sep, vs[1..]) + t;
      JoinCons(sep, vs, t);
      ParseFieldsComplete(fs[1..], sep, vs[1..], t);
      FieldStep(fs, sep, vs[0], rest);
      HeadTail(vs);
    }
  }

  lemma HeadTail(vs: seq<string>)
    requires |vs| > 0
    ensures [vs[0]] + vs[1..] == vs
  {
  }

  /** A joined list of two or more values, then `t`: the first value, the separator and the rest. */
  lemma JoinCons(sep: string, vs: seq<string>, t: string)
    requires |vs| > 1
    ensures Join(sep, vs) + t == vs[0] + (sep + (Join(sep, vs[1..]) + t))
  {
    Reassociate(vs[0], sep, Join(sep, vs[1..]), t);
  }

  lemma Reassociate(a: string, b: string, c: string, d: string)
    ensures a + b + c + d == a + (b + (c + d))
  {
  }

  lemma LastFieldStep(f: Field, v: string, sep: string, t: string)
    requires FieldOk(f, v) && AllIn(v, f.cls)
    requires t == "" || !In(t[0], f.cls)
    ensures ParseFields([f], sep, v + t) == Some(([v], t))
  {
    var s := v + t;
    RunLengthOfConcat(v, t, f.cls);
    assert s[..|v|] == v;
    assert s[|v|..] == t;
  }

  lemma FieldStep(fs: seq<Field>, sep: string, v: string, rest: string)
    requires |fs| > 1 && |sep| > 0
    requires FieldOk(fs[0], v) && AllIn(v, fs[0].cls) && !In(sep[0], fs[0].cls)
    requires ParseFields(fs[1..], sep, rest).Some?
    ensures ParseFields(fs, sep, v + (sep + rest))
         == Some(([v] + ParseFields(fs[1..], sep, rest).value.0, ParseFields(fs[1..], sep, rest).value.1))
  {
    var s := v + (sep + rest);
    RunLengthOfConcat(v, sep + rest, fs[0].cls);
    Slices(v, sep, rest);
  }

  lemma Slices(a: string, b: string, c: string)
    ensures (a + (b + c))[..|a|] == a
    ensures (a + (b + c))[|a|..|a| + |b|] == b
    ensures (a + (b + c))[|a| + |b|..] == c
  {
  }

  lemma ParsePipeComplete(p: PipeValue)
    requires PipeOk(p)
    ensures ParsePipe(PipeText(p)) == Some(p)
  {
    var t := PipeText(p);
    match p
    case Version(v) =>
      assert t[1..] == v;
    case Output(o, fr) =>
      var after := if fr.Some? then "." + fr.value else "";
      assert t[1..] == o + after;
      RunLengthOfConcat(o, after, Alnum);
      assert t[1..][..|o|] == o;
      assert t[1 + |o|..] == after;
      if fr.Some? {
        assert after[1..] == fr.value;
      }
  }

  lemma ParseTailComplete(tail: Tail, tv: TailValue)
    requires TailOk(tail, tv)
    ensures ParseTail(tail, TailText(tv)) == Some(tv)
  {
    match tail
    case NoTail =>
    case PipeTail =>
      ParsePipeComplete(tv.pipe);
    case FileTail =>
      var t := TailText(tv);
      var pt := PipeText(tv.pipe);
      var e := tv.extension;
      assert t == pt + "." + e;
      assert t[|pt|] == '.';
      forall j | |pt| < j < |t|
        ensures t[j] != '.'
      {
        assert t[j] == e[j - |pt| - 1];
      }
      LastDotIsLast(t, |pt|);
      assert t[|pt| + 1..] == e;
      assert t[..|pt|] == pt;
      ParsePipeComplete(tv.pipe);
  }

  lemma LastDotIsLast(t: string, k: nat)
    requires k < |t| && t[k] == '.'
    requires forall j :: k < j < |t| ==> t[j] != '.'
    ensures LastDot(t) == Some(k)
  {
  }

  /** Every well-formed match is accepted, and parsed back to itself. */
  lemma ParseComplete(s: Schema, sep: string, m: Match)
    requires SchemaOk(s) && SepOk(s, sep)
    requires MatchOk(s, m)
    ensures Parse(s, sep, Text(sep, m)) == Some(m)
  {
    var t := TailText(m.tail);
    var last := s.fields[|s.fields| - 1];
    if t != "" {
      assert t[0] == '.' || t[0] == '_';
      if t[0] == '_' && In(t[0], last.cls) {
        ClassChars(t[0], last.cls);
      }
    }
    ParseFieldsComplete(s.fields, sep, m.values, t);
    ParseTailComplete(s.tail, m.tail);
  }

  /** The regular expression accepts `text` with match `m` exactly when `m` is well formed and spells `text`. */
  lemma ParseIff(s: Schema, sep: string, text: string, m: Match)
    requires SchemaOk(s) && SepOk(s, sep)
    ensures Parse(s, sep, text) == Some(m) <==> MatchOk(s, m) && Text(sep, m) == text
  {
    if MatchOk(s, m) && Text(sep, m) == text {
      ParseComplete(s, sep, m);
    }
  }

  // ---------------------------------------------------------------------
  // Characters a name can hold

  /** A character some piece of a name can spell: a field, the separator, the pipe or the extension. */
  predicate NameChar(c: char, sep: string) {
    IsAlnum(c) || c == '.' || c == '_' || c in sep
  }

  predicate NameChars(t: string, sep: string) {
    forall j :: 0 <= j < |t| ==> NameChar(t[j], sep)
  }

  lemma {:induction false} PartsChars(ps: seq<Part>, v: string)
    requires PartsOk(ps, v)
    ensures forall j :: 0 <= j < |v| ==> IsAlnum(v[j]) || v[j] == '.'
    decreases |ps|
  {
    if |ps| > 0 {
      forall j | 0 <= j < |v|
        ensures IsAlnum(v[j]) || v[j] == '.'
      {
        if ps[0].width == 0 {
          ClassChars(v[j], ps[0].cls);
        } else if j < ps[0].width {
          assert v[..ps[0].width][j] == v[j];
          ClassChars(v[j], ps[0].cls);
        } else {
          PartsChars(ps[1..], v[ps[0].width..]);
          assert v[ps[0].width..][j - ps[0].width] == v[j];
        }
      }
    }
  }

  lemma FieldChars(f: Field, v: string, sep: string)
    requires FieldOk(f, v)
    ensures NameChars(v, sep)
  {
    if f.parts == [] {
      forall j | 0 <= j < |v|
        ensures NameChar(v[j], sep)
      {
        ClassChars(v[j], f.cls);
      }
    } else {
      PartsChars(f.parts, v);
    }
  }

  lemma {:induction false} JoinChars(sep: string, xs: seq<string>)
    requires forall i :: 0 <= i < |xs| ==> NameChars(xs[i], sep)
    ensures NameChars(Join(sep, xs), sep)
    decreases |xs|
  {
    if |xs| > 1 {
      JoinChars(sep, xs[1..]);
      var t := Join(sep, xs);
      var a := xs[0] + sep;
      assert t == a + Join(sep, xs[1..]);
      forall j | 0 <= j < |t|
        ensures NameChar(t[j], sep)
      {
        if j < |xs[0]| {
          assert t[j] == xs[0][j];
        } else if j < |a| {
          assert t[j] == sep[j - |xs[0]|];
        } else {
          assert t[j] == Join(sep, xs[1..])[j - |a|];
        }
      }
    }
  }

  lemma TailChars(t: Tail, tv: TailValue, sep: string)
    requires TailOk(t, tv)
    ensures NameChars(TailText(tv), sep)
  {
    if !tv.Bare? {
      var p := PipeText(tv.pipe);
      assert NameChars(p, sep) by {
        match tv.pipe
        case Version(v) =>
          assert p == "." + v;
        case Output(o, fr) =>
          if fr.Some? {
            assert p == "_" + o + ("." + fr.value);
          } else {
            assert p == "_" + o + "";
          }
      }
      if tv.Filed? {
        assert TailText(tv) == p + "." + tv.extension;
      }
    }
  }

  /** Every character of a well-formed name is one a field, the separator, the pipe or the extension allows. */
  lemma TextChars(s: Schema, sep: string, m: Match)
    requires MatchOk(s, m)
    ensures NameChars(Text(sep, m), sep)
  {
    forall i | 0 <= i < |m.values|
      ensures NameChars(m.values[i], sep)
    {
      FieldChars(s.fields[i], m.values[i], sep);
    }
    JoinChars(sep, m.values);
    TailChars(s.tail, m.tail, sep);
  }

  /**
   * `set_name` rejects a text holding a character that no field, the
   * separator, the pipe or the extension allows.
   */
  lemma ParseRejectsForeign(s: Schema, sep: string, text: string, j: nat)
    requires |s.fields| > 0 && j < |text| && !NameChar(text[j], sep)
    ensures Parse(s, sep, text) == None
  {
    if Parse(s, sep, text).Some? {
      TextChars(s, sep, Parse(s, sep, text).value);
    }
  }

  // ---------------------------------------------------------------------
  // The `$` anchor as Python reads it

  /**
   * `re.match` of `^pattern$` as written: Python's `$` also matches just
   * before a final newline, so a name followed by one newline is accepted
   * with the groups of the name without it.
   */
  function DollarParse(s: Schema, sep: string, text: string): Option<Match>
    requires |s.fields| > 0
  {
    if Parse(s, sep, text).Some? then Parse(s, sep, text)
    else if |text| > 0 && text[|text| - 1] == '\n' then Parse(s, sep, text[..|text| - 1])
    else None
  }

  /**
   * Every well-formed name followed by a newline passes the anchor as
   * written, with the groups of the name, while the full-match reading
   * rejects it.
   */
  lemma DollarNewline(s: Schema, sep: string, m: Match)
    requires SchemaOk(s) && SepOk(s, sep) && MatchOk(s, m) && '\n' !in sep
    ensures Parse(s, sep, Text(sep, m) + "\n") == None
    ensures DollarParse(s, sep, Text(sep, m) + "\n") == Some(m)
  {
    var t := Text(sep, m) + "\n";
    ParseRejectsForeign(s, sep, t, |t| - 1);
    assert t[..|t| - 1] == Text(sep, m);
    ParseComplete(s, sep, m);
  }
}
