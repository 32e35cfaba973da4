/**
 * Renaming through `set_name(get_name(**overrides))` in the grill engine:
 * which match the rendered name parses to, and which stored values it
 * changes.
 */
module GrillRenaming {
  import opened Chars
  import opened Wrappers
  import opened NameSchema
  import opened NameParse
  import opened GrillNames

  // ---------------------------------------------------------------------
  // Recomputing composite fields

  /** Recomputing a composite field only reads the overrides of its parts. */
  lemma ComposedAgree(ps: seq<Part>, stored: Values, ov: Values, ov': Values)
    requires forall j :: 0 <= j < |ps| ==> ps[j].key in stored
    requires forall j :: 0 <= j < |ps| ==> (ps[j].key in ov <==> ps[j].key in ov')
    requires forall j :: 0 <= j < |ps| && ps[j].key in ov ==> ov[ps[j].key] == ov'[ps[j].key]
    ensures Composed(ps, stored, ov) == Composed(ps, stored, ov')
  {
    assert PartTexts(ps, stored, ov) == PartTexts(ps, stored, ov');
  }

  /** The overrides the caller passed survive every recomputation. */
  lemma {:induction false} DeriveKeeps(fs: seq<Field>, stored: Values, ov: Values)
    ensures forall k :: k in ov ==> k in Derive(fs, stored, ov) && Derive(fs, stored, ov)[k] == ov[k]
    decreases |fs|
  {
    if |fs| > 0 {
      DeriveKeeps(fs[..|fs| - 1], stored, DeriveField(fs[|fs| - 1], stored, ov));
    }
  }

  /** Recomputation only adds field keys. */
  lemma {:induction false} DeriveAddsFields(fs: seq<Field>, stored: Values, ov: Values)
    ensures forall k :: k in Derive(fs, stored, ov) && k !in ov ==> k in FieldKeys(fs)
    decreases |fs|
  {
    if |fs| > 0 {
      var n := |fs| - 1;
      assert fs == fs[..n] + [fs[n]];
      FieldKeysAppend(fs[..n], [fs[n]]);
      assert FieldKeys([fs[n]]) == [fs[n].key] + PartKeys(fs[n].parts);
      DeriveAddsFields(fs[..n], stored, DeriveField(fs[n], stored, ov));
    }
  }

  /**
   * The recomputations of the subclasses do not interfere: composite field
   * `i` gets its parts' value exactly when `Recomputes` holds of the
   * overrides the caller passed, and is otherwise absent unless passed.
   */
  lemma {:induction false} DeriveAt(fs: seq<Field>, stored: Values, ov: Values, i: nat)
    requires Distinct(FieldKeys(fs)) && i < |fs|
    ensures Recomputes(fs[i], stored, ov) ==>
      fs[i].key in Derive(fs, stored, ov) && Derive(fs, stored, ov)[fs[i].key] == Some(Composed(fs[i].parts, stored, ov))
    ensures fs[i].key !in ov && !Recomputes(fs[i], stored, ov) ==> fs[i].key !in Derive(fs, stored, ov)
    decreases |fs|
  {
    var n := |fs| - 1;
    var init := fs[..n];
    var last := fs[n];
    var ov1 := DeriveField(last, stored, ov);
    assert fs == init + [last];
    FieldKeysAppend(init, [last]);
    assert FieldKeys([last]) == [last.key] + PartKeys(last.parts);
    DistinctSplit(FieldKeys(init), FieldKeys([last]));
    assert last.key in FieldKeys([last]);
    assert Derive(fs, stored, ov) == Derive(init, stored, ov1);
    if i == n {
      DeriveKeeps(init, stored, ov1);
      DeriveAddsFields(init, stored, ov1);
    } else {
      FieldKeysHold(init, i);
      assert fs[i] == init[i];
      forall j | 0 <= j < |fs[i].parts|
        ensures fs[i].parts[j].key != last.key
      {
      }
      assert fs[i].key in ov1 <==> fs[i].key in ov;
      assert Recomputes(fs[i], stored, ov1) <==> Recomputes(fs[i], stored, ov);
      if Recomputes(fs[i], stored, ov) {
        ComposedAgree(fs[i].parts, stored, ov, ov1);
      }
      DeriveAt(init, stored, ov1, i);
    }
  }

  // ---------------------------------------------------------------------
  // The match a rename produces

  /** The pieces of composite field `f` once its parts' overrides replace the pieces of `v`. */
  function RenamedPieces(f: Field, v: string, ov: Values): seq<string> {
    seq(|f.parts|, j requires 0 <= j < |f.parts| =>
      if f.parts[j].key in ov then Str(ov[f.parts[j].key]) else Pieces(f.parts, v)[j])
  }

  /** A field after the rename: its override, else its parts reassembled, else its old text. */
  function RenamedValue(f: Field, v: string, ov: Values): string {
    if f.key in ov then Str(ov[f.key])
    else if f.parts != [] then Concat(RenamedPieces(f, v, ov))
    else v
  }

  /** The pipe after the rename: a version wins over output and frame; a frame survives only if passed. */
  function RenamedPipe(p: PipeValue, ov: Values): PipeValue {
    if "version" in ov then Version(Str(ov["version"]))
    else if "output" in ov || "frame" in ov then
      Output(if "output" in ov then Str(ov["output"]) else if p.Output? then p.output else "[output]",
             if "frame" in ov then Some(Str(ov["frame"])) else None)
    else p
  }

  function RenamedTail(tv: TailValue, ov: Values): TailValue {
    match tv
    case Bare => Bare
    case Piped(p) => Piped(RenamedPipe(p, ov))
    case Filed(p, e) => Filed(RenamedPipe(p, ov), if "extension" in ov then Str(ov["extension"]) else e)
  }

  /** The match of `get_name(**ov)` on a name holding match `m`. */
  function Renamed(s: Schema, m: Match, ov: Values): (r: Match)
    requires |m.values| == |s.fields|
    ensures |r.values| == |s.fields|
  {
    Match(seq(|s.fields|, i requires 0 <= i < |s.fields| => RenamedValue(s.fields[i], m.values[i], ov)),
          RenamedTail(m.tail, ov))
  }

  /**
   * Overrides naming groups of the pattern with values those groups
   * accept: no `pipe` text, a composite field only with parts that agree
   * with it, no version together with output or frame, and a frame alone
   * only on a name whose pipe has an output.
   */
  predicate OverridesOk(s: Schema, m: Match, ov: Values)
    requires |m.values| == |s.fields|
  {
    && (forall k :: k in ov ==> k in GroupKeys(s) && k != "pipe" && ov[k].Some?)
    && (forall i :: 0 <= i < |s.fields| && s.fields[i].key in ov ==>
          && FieldOk(s.fields[i], ov[s.fields[i].key].value)
          && forall j :: 0 <= j < |s.fields[i].parts| && s.fields[i].parts[j].key in ov ==>
               ov[s.fields[i].parts[j].key].value == Pieces(s.fields[i].parts, ov[s.fields[i].key].value)[j])
    && (forall i, j :: 0 <= i < |s.fields| && 0 <= j < |s.fields[i].parts| && s.fields[i].parts[j].key in ov ==>
          Sized(ov[s.fields[i].parts[j].key].value, s.fields[i].parts[j].cls, s.fields[i].parts[j].width))
    && TailOverridesOk(m.tail, ov)
  }

  /** The suffix part of `OverridesOk`. */
  predicate TailOverridesOk(tv: TailValue, ov: Values) {
    && "pipe" !in ov
    && ("version" in ov ==> ov["version"].Some? && Run(ov["version"].value, Digit) && "output" !in ov && "frame" !in ov)
    && ("output" in ov ==> ov["output"].Some? && Run(ov["output"].value, Alnum))
    && ("frame" in ov ==> ov["frame"].Some? && Run(ov["frame"].value, Digit))
    && ("frame" in ov && "output" !in ov ==> tv != Bare && tv.pipe.Output?)
    && ("extension" in ov ==> ov["extension"].Some? && Run(ov["extension"].value, Alnum))
  }

  lemma ShapedParts(f: Field)
    requires CompositeOk(f) && f.parts != []
    ensures PartsShaped(f.parts)
  {
  }

  /** A renamed field still matches its pattern. */
  lemma RenamedFieldOk(s: Schema, m: Match, ov: Values, i: nat)
    requires SchemaOk(s) && MatchOk(s, m) && OverridesOk(s, m, ov) && i < |s.fields|
    ensures FieldOk(s.fields[i], RenamedValue(s.fields[i], m.values[i], ov))
    ensures s.fields[i].key !in ov && s.fields[i].parts != [] ==>
      Pieces(s.fields[i].parts, RenamedValue(s.fields[i], m.values[i], ov)) == RenamedPieces(s.fields[i], m.values[i], ov)
  {
    var f := s.fields[i];
    var v := m.values[i];
    if f.key !in ov && f.parts != [] {
      ShapedParts(f);
      PiecesOfParts(f.parts, v);
      var ws := RenamedPieces(f, v, ov);
      forall j | 0 <= j < |f.parts|
        ensures Sized(ws[j], f.parts[j].cls, f.parts[j].width)
      {
      }
      PartsOfPieces(f.parts, ws);
    }
  }

  /** A renamed suffix still matches the suffix pattern. */
  lemma RenamedTailOk(s: Schema, m: Match, ov: Values)
    requires MatchOk(s, m) && OverridesOk(s, m, ov)
    ensures TailOk(s.tail, RenamedTail(m.tail, ov))
  {
  }

  /** The rename produces a well-formed match. */
  lemma RenamedOk(s: Schema, m: Match, ov: Values)
    requires SchemaOk(s) && MatchOk(s, m) && OverridesOk(s, m, ov)
    ensures MatchOk(s, Renamed(s, m, ov))
  {
    forall i | 0 <= i < |s.fields|
      ensures FieldOk(s.fields[i], Renamed(s, m, ov).values[i])
    {
      RenamedFieldOk(s, m, ov, i);
    }
    RenamedTailOk(s, m, ov);
  }

  // ---------------------------------------------------------------------
  // Rendering a rename

  /** One field rendered from stored values holding its old text and pieces. */
  lemma ChooseRenamed(f: Field, v: string, stored: Values, props: map<string, string>, ov: Values, d: Values)
    requires f.key in stored && stored[f.key] == Some(v) && ov != map[]
    requires forall j :: 0 <= j < |f.parts| ==> f.parts[j].key in stored && stored[f.parts[j].key] == Some(Pieces(f.parts, v)[j])
    requires f.key in ov ==> f.key in d && d[f.key] == ov[f.key]
    requires Recomputes(f, stored, ov) ==> f.key in d && d[f.key] == Some(Composed(f.parts, stored, ov))
    requires f.key !in ov && !Recomputes(f, stored, ov) ==> f.key !in d
    ensures Choose(f.key, stored, props, d) == RenamedValue(f, v, ov)
  {
    if f.key !in ov && f.parts != [] {
      assert PartTexts(f.parts, stored, ov) == RenamedPieces(f, v, ov);
      assert Recomputes(f, stored, ov);
    }
  }

  /** Field `i` of `get_name(**ov)` on a name holding match `m` is the renamed field. */
  lemma RenderFieldAt(s: Schema, m: Match, ov: Values, i: nat)
    requires SchemaOk(s) && MatchOk(s, m) && ov != map[] && i < |s.fields|
    ensures s.fields[i].key in GroupDict(s, m)
    ensures Choose(s.fields[i].key, GroupDict(s, m), s.props, Derive(s.fields, GroupDict(s, m), ov))
         == RenamedValue(s.fields[i], m.values[i], ov)
  {
    var stored := GroupDict(s, m);
    var f := s.fields[i];
    GroupDictField(s, m, i);
    DistinctSplit(FieldKeys(s.fields), TailKeys(s.tail));
    DeriveAt(s.fields, stored, ov, i);
    DeriveKeeps(s.fields, stored, ov);
    forall j | 0 <= j < |f.parts|
      ensures f.parts[j].key in stored && stored[f.parts[j].key] == Some(Pieces(f.parts, m.values[i])[j])
    {
      GroupDictPart(s, m, i, j);
    }
    ChooseRenamed(f, m.values[i], stored, s.props, ov, Derive(s.fields, stored, ov));
  }

  /** The fields of `get_name(**ov)` are the renamed fields. */
  lemma RenderFields(s: Schema, m: Match, ov: Values)
    requires SchemaOk(s) && MatchOk(s, m) && ov != map[]
    ensures forall i :: 0 <= i < |s.fields| ==> s.fields[i].key in GroupDict(s, m)
    ensures Translate(FieldNames(s.fields), GroupDict(s, m), s.props, Derive(s.fields, GroupDict(s, m), ov))
         == Renamed(s, m, ov).values
  {
    forall i | 0 <= i < |s.fields|
      ensures s.fields[i].key in GroupDict(s, m)
      ensures Choose(s.fields[i].key, GroupDict(s, m), s.props, Derive(s.fields, GroupDict(s, m), ov))
           == RenamedValue(s.fields[i], m.values[i], ov)
    {
      RenderFieldAt(s, m, ov, i);
    }
  }

  /** The suffix keys of the overrides reach `Pipe.get_name` and `File.get_name` untouched. */
  lemma DeriveTailKeys(s: Schema, stored: Values, ov: Values)
    requires SchemaOk(s)
    ensures forall k :: k in TailKeys(s.tail) ==>
      (k in Derive(s.fields, stored, ov) <==> k in ov) && (k in ov ==> Derive(s.fields, stored, ov)[k] == ov[k])
  {
    DistinctSplit(FieldKeys(s.fields), TailKeys(s.tail));
    DeriveKeeps(s.fields, stored, ov);
    DeriveAddsFields(s.fields, stored, ov);
  }

  /** The suffix rendered from stored values holding the old suffix's groups. */
  lemma SuffixRenamed(t: Tail, tv: TailValue, stored: Values, ov: Values, d: Values, name: string)
    requires TailOk(t, tv) && t != NoTail && TailOverridesOk(tv, ov) && name != ""
    requires forall k :: k in TailKeys(t) ==> k in stored && stored[k] == TailDict(tv)[k]
    requires forall k :: k in TailKeys(t) ==> (k in d <==> k in ov) && (k in ov ==> d[k] == ov[k])
    ensures PipeSuffix(name, stored, d) == Ok(PipeText(RenamedTail(tv, ov).pipe))
    ensures t == FileTail ==> ExtensionText(stored, d) == RenamedTail(tv, ov).extension
  {
    SuffixKeys(t);
    PipeRenamed(tv, stored, d, ov, name);
  }

  /** The groups of a suffix pattern. */
  lemma SuffixKeys(t: Tail)
    requires t != NoTail
    ensures "pipe" in TailKeys(t) && "version" in TailKeys(t) && "output" in TailKeys(t) && "frame" in TailKeys(t)
    ensures t == FileTail ==> "extension" in TailKeys(t)
  {
    if t == FileTail {
      assert TailKeys(t)[4] == "extension";
    }
  }

  /** `d` and `ov` agree on key `k`. */
  predicate SameAt(d: Values, ov: Values, k: string) {
    (k in d <==> k in ov) && (k in ov ==> d[k] == ov[k])
  }

  /** The pipe rendered from stored groups holding the old pipe is the renamed pipe. */
  lemma PipeRenamed(tv: TailValue, stored: Values, d: Values, ov: Values, name: string)
    requires tv != Bare && PipeOk(tv.pipe) && TailOverridesOk(tv, ov) && name != ""
    requires "pipe" in stored && stored["pipe"] == Some(PipeText(tv.pipe))
    requires "output" in stored && stored["output"] == PipeDict(tv.pipe)["output"]
    requires SameAt(d, ov, "pipe") && SameAt(d, ov, "version") && SameAt(d, ov, "output") && SameAt(d, ov, "frame")
    ensures PipeSuffix(name, stored, d) == Ok(PipeText(RenamedTail(tv, ov).pipe))
  {
  }

  /** The pipe `get_name(**ov)` appends on a named object is the renamed pipe. */
  lemma RenderPipe(s: Schema, m: Match, ov: Values, name: string)
    requires SchemaOk(s) && MatchOk(s, m) && OverridesOk(s, m, ov) && s.tail != NoTail && name != ""
    ensures PipeSuffix(name, GroupDict(s, m), Derive(s.fields, GroupDict(s, m), ov))
         == Ok(PipeText(RenamedTail(m.tail, ov).pipe))
    ensures s.tail == FileTail ==>
      ExtensionText(GroupDict(s, m), Derive(s.fields, GroupDict(s, m), ov)) == RenamedTail(m.tail, ov).extension
  {
    var stored := GroupDict(s, m);
    DeriveTailKeys(s, stored, ov);
    GroupDictTail(s, m);
    SuffixRenamed(s.tail, m.tail, stored, ov, Derive(s.fields, stored, ov), name);
  }

  /** `get_name` with overrides (or on an unnamed object) is the rendered fields followed by the suffix. */
  lemma GetNameRenders(s: Schema, sep: string, name: string, stored: Values, ov: Values, nice: string, suffix: string)
    requires StoredOk(s, stored) && (ov != map[] || name == "")
    requires forall i :: 0 <= i < |s.fields| ==> s.fields[i].key in stored
    requires nice == Join(sep, Translate(FieldNames(s.fields), stored, s.props, Derive(s.fields, stored, ov)))
    requires s.tail != NoTail ==> PipeSuffix(name, stored, Derive(s.fields, stored, ov)) == Ok(suffix)
    requires s.tail == NoTail ==> suffix == ""
    ensures s.tail != FileTail ==> GetName(s, sep, name, stored, ov) == Ok(nice + suffix)
    ensures s.tail == FileTail ==>
      GetName(s, sep, name, stored, ov) == Ok(nice + suffix + "." + ExtensionText(stored, Derive(s.fields, stored, ov)))
  {
    assert nice + "" == nice;
  }

  /**
   * `get_name(**ov)` on a name holding the text of match `m` renders the
   * renamed match; with no overrides that is the name itself.
   */
  lemma RenameRenders(s: Schema, sep: string, name: string, m: Match, ov: Values)
    requires SchemaOk(s) && MatchOk(s, m) && OverridesOk(s, m, ov)
    requires name != "" && (ov == map[] ==> name == Text(sep, m))
    ensures StoredOk(s, GroupDict(s, m))
    ensures GetName(s, sep, name, GroupDict(s, m), ov) == Ok(Text(sep, Renamed(s, m, ov)))
  {
    GroupDictKeys(s, m);
    FieldOkNonEmpty(s.fields[0], m.values[0]);
    if ov == map[] {
      RenamedNothing(s, m);
    } else {
      RenameRendersWith(s, sep, name, m, ov);
    }
  }

  lemma RenameRendersWith(s: Schema, sep: string, name: string, m: Match, ov: Values)
    requires SchemaOk(s) && MatchOk(s, m) && OverridesOk(s, m, ov) && ov != map[]
    requires StoredOk(s, GroupDict(s, m)) && name != ""
    ensures GetName(s, sep, name, GroupDict(s, m), ov) == Ok(Text(sep, Renamed(s, m, ov)))
  {
    var stored := GroupDict(s, m);
    var r := Renamed(s, m, ov);
    RenderFields(s, m, ov);
    RenamedTailOk(s, m, ov);
    if s.tail == NoTail {
      RenderBare(s, sep, name, r, stored, ov, Join(sep, r.values));
    } else {
      RenderPipe(s, m, ov, name);
      RenderSuffixed(s, sep, name, r, stored, ov, Join(sep, r.values), PipeText(r.tail.pipe));
    }
  }

  /** On a pattern with no suffix, the rendered fields are the whole name. */
  lemma RenderBare(s: Schema, sep: string, name: string, r: Match, stored: Values, ov: Values, nice: string)
    requires StoredOk(s, stored) && ov != map[] && s.tail == NoTail && TailOk(s.tail, r.tail)
    requires forall i :: 0 <= i < |s.fields| ==> s.fields[i].key in stored
    requires nice == Join(sep, Translate(FieldNames(s.fields), stored, s.props, Derive(s.fields, stored, ov)))
    requires nice == Join(sep, r.values)
    ensures GetName(s, sep, name, stored, ov) == Ok(Text(sep, r))
  {
    GetNameRenders(s, sep, name, stored, ov, nice, "");
  }

  /** The rendered fields, then the pipe, then on a file the extension, make the renamed name. */
  lemma RenderSuffixed(s: Schema, sep: string, name: string, r: Match, stored: Values, ov: Values, nice: string, suffix: string)
    requires StoredOk(s, stored) && ov != map[] && s.tail != NoTail && TailOk(s.tail, r.tail)
    requires forall i :: 0 <= i < |s.fields| ==> s.fields[i].key in stored
    requires nice == Join(sep, Translate(FieldNames(s.fields), stored, s.props, Derive(s.fields, stored, ov)))
    requires nice == Join(sep, r.values)
    requires PipeSuffix(name, stored, Derive(s.fields, stored, ov)) == Ok(suffix)
    requires suffix == PipeText(r.tail.pipe)
    requires s.tail == FileTail ==> ExtensionText(stored, Derive(s.fields, stored, ov)) == r.tail.extension
    ensures GetName(s, sep, name, stored, ov) == Ok(Text(sep, r))
  {
    GetNameRenders(s, sep, name, stored, ov, nice, suffix);
    if s.tail == FileTail {
      SuffixedText(nice, suffix, r.tail.extension);
    }
  }

  /** Regrouping the text of a name with an extension. */
  lemma SuffixedText(nice: string, suffix: string, e: string)
    ensures nice + (suffix + "." + e) == nice + suffix + "." + e
  {
  }

  /** Without overrides nothing is renamed. */
  lemma RenamedNothing(s: Schema, m: Match)
    requires SchemaOk(s) && MatchOk(s, m)
    ensures Renamed(s, m, map[]) == m
  {
    forall i | 0 <= i < |s.fields|
      ensures RenamedValue(s.fields[i], m.values[i], map[]) == m.values[i]
    {
      var f := s.fields[i];
      if f.parts != [] {
        ShapedParts(f);
        PiecesOfParts(f.parts, m.values[i]);
        assert RenamedPieces(f, m.values[i], map[]) == Pieces(f.parts, m.values[i]);
      }
    }
  }

  /** Field values are never empty, so neither is the text of a match. */
  lemma FieldOkNonEmpty(f: Field, v: string)
    requires CompositeOk(f) && FieldOk(f, v)
    ensures v != ""
  {
  }

  // ---------------------------------------------------------------------
  // What the rename stores

  /** A key of the fields' groups is a field's key or one of its parts' keys. */
  lemma {:induction false} LocateFieldKey(fs: seq<Field>, k: string) returns (i: nat, j: int)
    requires k in FieldKeys(fs)
    ensures i < |fs| && -1 <= j < |fs[i].parts|
    ensures j == -1 ==> fs[i].key == k
    ensures j >= 0 ==> fs[i].parts[j].key == k
    decreases |fs|
  {
    var pk := PartKeys(fs[0].parts);
    assert FieldKeys(fs) == [fs[0].key] + pk + FieldKeys(fs[1..]);
    if k == fs[0].key {
      return 0, -1;
    } else if k in pk {
      var jj :| 0 <= jj < |pk| && pk[jj] == k;
      return 0, jj;
    } else {
      var i', j' := LocateFieldKey(fs[1..], k);
      return i' + 1, j';
    }
  }

  /** Every override is what the renamed name's `groupdict()` holds under that key. */
  lemma RenameSticks(s: Schema, m: Match, ov: Values)
    requires SchemaOk(s) && MatchOk(s, m) && OverridesOk(s, m, ov)
    ensures forall k :: k in ov ==> k in GroupDict(s, Renamed(s, m, ov)) && GroupDict(s, Renamed(s, m, ov))[k] == ov[k]
  {
    RenamedOk(s, m, ov);
    forall k | k in ov
      ensures k in GroupDict(s, Renamed(s, m, ov)) && GroupDict(s, Renamed(s, m, ov))[k] == ov[k]
    {
      SticksAt(s, m, ov, k);
    }
  }

  /** The renamed name's `groupdict()` holds override `k`. */
  lemma SticksAt(s: Schema, m: Match, ov: Values, k: string)
    requires SchemaOk(s) && MatchOk(s, m) && OverridesOk(s, m, ov) && MatchOk(s, Renamed(s, m, ov)) && k in ov
    ensures k in GroupDict(s, Renamed(s, m, ov)) && GroupDict(s, Renamed(s, m, ov))[k] == ov[k]
  {
    if k in FieldKeys(s.fields) {
      var i, j := LocateFieldKey(s.fields, k);
      if j == -1 {
        GroupDictField(s, Renamed(s, m, ov), i);
      } else {
        SticksPart(s, m, ov, i, j);
      }
    } else {
      assert k in TailKeys(s.tail);
      GroupDictTail(s, Renamed(s, m, ov));
      SticksTail(s.tail, m.tail, ov, k);
    }
  }

  /** The renamed name's `groupdict()` holds the override of part `j` of field `i`. */
  lemma SticksPart(s: Schema, m: Match, ov: Values, i: nat, j: nat)
    requires SchemaOk(s) && MatchOk(s, m) && OverridesOk(s, m, ov) && MatchOk(s, Renamed(s, m, ov))
    requires i < |s.fields| && j < |s.fields[i].parts| && s.fields[i].parts[j].key in ov
    ensures s.fields[i].parts[j].key in GroupDict(s, Renamed(s, m, ov))
    ensures GroupDict(s, Renamed(s, m, ov))[s.fields[i].parts[j].key] == ov[s.fields[i].parts[j].key]
  {
    var r := Renamed(s, m, ov);
    RenamedFieldOk(s, m, ov, i);
    GroupDictPart(s, r, i, j);
    if s.fields[i].key in ov {
      assert r.values[i] == ov[s.fields[i].key].value;
    }
  }

  /** The renamed suffix's groups hold the suffix overrides. */
  lemma SticksTail(t: Tail, tv: TailValue, ov: Values, k: string)
    requires TailOk(t, tv) && TailOverridesOk(tv, ov) && k in ov && k in TailKeys(t) && k != "pipe"
    ensures k in TailDict(RenamedTail(tv, ov)) && TailDict(RenamedTail(tv, ov))[k] == ov[k]
  {
  }

  /**
   * What the overrides do not name keeps its value: untouched fields, the
   * untouched parts of a recomputed composite, the pipe unless a version,
   * output or frame is passed, and the extension.
   */
  lemma RenameKeeps(s: Schema, m: Match, ov: Values)
    requires SchemaOk(s) && MatchOk(s, m) && OverridesOk(s, m, ov)
    ensures forall i :: 0 <= i < |s.fields| ==>
      (s.fields[i].key !in ov && forall j :: 0 <= j < |s.fields[i].parts| ==> s.fields[i].parts[j].key !in ov) ==>
        Renamed(s, m, ov).values[i] == m.values[i]
    ensures forall i, j :: 0 <= i < |s.fields| && 0 <= j < |s.fields[i].parts| ==>
      (s.fields[i].key !in ov && s.fields[i].parts[j].key !in ov) ==>
        Pieces(s.fields[i].parts, Renamed(s, m, ov).values[i])[j] == Pieces(s.fields[i].parts, m.values[i])[j]
  {
    forall i | 0 <= i < |s.fields| && s.fields[i].key !in ov &&
      (forall j :: 0 <= j < |s.fields[i].parts| ==> s.fields[i].parts[j].key !in ov)
      ensures Renamed(s, m, ov).values[i] == m.values[i]
    {
      FieldKept(s.fields[i], m.values[i], ov);
    }
    forall i, j | 0 <= i < |s.fields| && 0 <= j < |s.fields[i].parts| && s.fields[i].key !in ov && s.fields[i].parts[j].key !in ov
      ensures Pieces(s.fields[i].parts, Renamed(s, m, ov).values[i])[j] == Pieces(s.fields[i].parts, m.values[i])[j]
    {
      RenamedFieldOk(s, m, ov, i);
    }
  }

  /** A field none of whose groups is overridden keeps its text. */
  lemma FieldKept(f: Field, v: string, ov: Values)
    requires CompositeOk(f) && FieldOk(f, v) && f.key !in ov
    requires forall j :: 0 <= j < |f.parts| ==> f.parts[j].key !in ov
    ensures RenamedValue(f, v, ov) == v
  {
    if f.parts != [] {
      ShapedParts(f);
      PiecesOfParts(f.parts, v);
      assert RenamedPieces(f, v, ov) == Pieces(f.parts, v);
    }
  }

  /** Without tail overrides the suffix is kept; without `extension` the extension is. */
  lemma RenameKeepsTail(s: Schema, m: Match, ov: Values)
    requires SchemaOk(s) && MatchOk(s, m) && OverridesOk(s, m, ov)
    ensures "version" !in ov && "output" !in ov && "frame" !in ov ==> Renamed(s, m, ov).tail == m.tail || "extension" in ov
    ensures m.tail.Filed? && "extension" !in ov ==> Renamed(s, m, ov).tail.extension == m.tail.extension
  {
  }

  /**
   * `set_name(get_name(**ov))` on a name holding match `m` succeeds: the
   * rendered name parses back to the renamed match, whose groups hold the
   * overrides.
   */
  lemma RenameRoundTrip(s: Schema, sep: string, m: Match, ov: Values)
    requires SchemaOk(s) && SepOk(s, sep) && MatchOk(s, m) && OverridesOk(s, m, ov)
    ensures StoredOk(s, GroupDict(s, m))
    ensures GetName(s, sep, Text(sep, m), GroupDict(s, m), ov) == Ok(Text(sep, Renamed(s, m, ov)))
    ensures Parse(s, sep, Text(sep, Renamed(s, m, ov))) == Some(Renamed(s, m, ov))
  {
    FieldOkNonEmpty(s.fields[0], m.values[0]);
    RenameRenders(s, sep, Text(sep, m), m, ov);
    RenamedOk(s, m, ov);
    ParseComplete(s, sep, Renamed(s, m, ov));
  }

  // ---------------------------------------------------------------------
  // Changing the separator

  /**
   * A name's own `get_values()` is an acceptable set of overrides, and
   * renaming with it changes nothing.
   */
  lemma OwnValuesRename(s: Schema, m: Match)
    requires SchemaOk(s) && MatchOk(s, m)
    ensures OverridesOk(s, m, GetValues(s, GroupDict(s, m)))
    ensures Renamed(s, m, GetValues(s, GroupDict(s, m))) == m
    ensures GetValues(s, GroupDict(s, m)) != map[]
  {
    var ov := GetValues(s, GroupDict(s, m));
    OwnValuesKeys(s, m);
    OwnValuesAt(s, m);
    OwnTailKeys(s, m);
    OwnTailValues(s.tail, m.tail, ov);
    var r := Renamed(s, m, ov);
    assert r.values == m.values;
    assert s.fields[0].key in ov;
  }

  /** The keys of a name's own values: groups with a value, and no `pipe`. */
  lemma OwnValuesKeys(s: Schema, m: Match)
    requires SchemaOk(s) && MatchOk(s, m)
    ensures forall k :: k in GetValues(s, GroupDict(s, m)) ==>
      k in GroupKeys(s) && k != "pipe" && GetValues(s, GroupDict(s, m))[k].Some?
  {
    var d := GroupDict(s, m);
    var ov := GetValues(s, d);
    GroupDictKeys(s, m);
    forall k | k in ov
      ensures k in GroupKeys(s) && k != "pipe" && ov[k].Some?
    {
      if s.tail == NoTail {
        assert k in FieldKeys(s.fields);
        var i, j := LocateFieldKey(s.fields, k);
        if j == -1 {
          GroupDictField(s, m, i);
        } else {
          GroupDictPart(s, m, i, j);
        }
        assert "pipe" in TailKeys(FileTail);
      }
    }
  }

  /** The suffix groups of a name's own values are those of the matched suffix that hold text. */
  lemma OwnTailKeys(s: Schema, m: Match)
    requires SchemaOk(s) && MatchOk(s, m)
    ensures forall k :: k in TailKeys(FileTail) ==>
      && (k in GetValues(s, GroupDict(s, m)) <==> k in TailDict(m.tail) && k != "pipe" && TailDict(m.tail)[k].Some?)
      && (k in GetValues(s, GroupDict(s, m)) ==> GetValues(s, GroupDict(s, m))[k] == TailDict(m.tail)[k])
  {
    var d := GroupDict(s, m);
    var ov := GetValues(s, d);
    GroupDictKeys(s, m);
    GroupDictTail(s, m);
    TailDictKeys(s.tail, m.tail);
    forall k | k in TailKeys(FileTail)
      ensures k in ov <==> k in TailDict(m.tail) && k != "pipe" && TailDict(m.tail)[k].Some?
      ensures k in ov ==> ov[k] == TailDict(m.tail)[k]
    {
      if k !in TailKeys(s.tail) {
        assert k !in FieldKeys(s.fields);
        assert k !in GroupKeys(s);
      } else {
        assert s.tail != NoTail;
      }
    }
  }

  /** Overrides holding exactly the suffix groups of `tv` that hold text leave the suffix as it is. */
  lemma OwnTailValues(t: Tail, tv: TailValue, ov: Values)
    requires TailOk(t, tv)
    requires forall k :: k in TailKeys(FileTail) ==>
      && (k in ov <==> k in TailDict(tv) && k != "pipe" && TailDict(tv)[k].Some?)
      && (k in ov ==> ov[k] == TailDict(tv)[k])
    ensures TailOverridesOk(tv, ov)
    ensures RenamedTail(tv, ov) == tv
  {
    SuffixKeys(FileTail);
    OwnTailKept(tv, ov);
  }

  /** `ov` holds the text of suffix group `k` of `tv`, if any, and nothing else under `k`. */
  predicate OwnTailAt(tv: TailValue, ov: Values, k: string) {
    && (k in ov <==> k in TailDict(tv) && k != "pipe" && TailDict(tv)[k].Some?)
    && (k in ov ==> ov[k] == TailDict(tv)[k])
  }

  /** Overrides that are exactly the suffix's own groups, key by key, are acceptable and keep it. */
  lemma OwnTailKept(tv: TailValue, ov: Values)
    requires tv != Bare ==> PipeOk(tv.pipe)
    requires tv.Filed? ==> Run(tv.extension, Alnum)
    requires OwnTailAt(tv, ov, "pipe") && OwnTailAt(tv, ov, "version") && OwnTailAt(tv, ov, "output")
    requires OwnTailAt(tv, ov, "frame") && OwnTailAt(tv, ov, "extension")
    ensures TailOverridesOk(tv, ov)
    ensures RenamedTail(tv, ov) == tv
  {
  }

  /** A name's own values hold every field and part as `groupdict()` does. */
  lemma OwnValuesAt(s: Schema, m: Match)
    requires SchemaOk(s) && MatchOk(s, m)
    ensures forall i :: 0 <= i < |s.fields| ==>
      s.fields[i].key in GetValues(s, GroupDict(s, m)) && GetValues(s, GroupDict(s, m))[s.fields[i].key] == Some(m.values[i])
    ensures forall i, j :: 0 <= i < |s.fields| && 0 <= j < |s.fields[i].parts| ==>
      && s.fields[i].parts[j].key in GetValues(s, GroupDict(s, m))
      && GetValues(s, GroupDict(s, m))[s.fields[i].parts[j].key] == Some(Pieces(s.fields[i].parts, m.values[i])[j])
      && Sized(Pieces(s.fields[i].parts, m.values[i])[j], s.fields[i].parts[j].cls, s.fields[i].parts[j].width)
  {
    var ov := GetValues(s, GroupDict(s, m));
    DistinctSplit(FieldKeys(s.fields), TailKeys(s.tail));
    forall i | 0 <= i < |s.fields|
      ensures s.fields[i].key in ov && ov[s.fields[i].key] == Some(m.values[i])
    {
      GroupDictField(s, m, i);
      FieldKeysHold(s.fields, i);
    }
    forall i, j | 0 <= i < |s.fields| && 0 <= j < |s.fields[i].parts|
      ensures s.fields[i].parts[j].key in ov
      ensures ov[s.fields[i].parts[j].key] == Some(Pieces(s.fields[i].parts, m.values[i])[j])
      ensures Sized(Pieces(s.fields[i].parts, m.values[i])[j], s.fields[i].parts[j].cls, s.fields[i].parts[j].width)
    {
      GroupDictPart(s, m, i, j);
      FieldKeysHold(s.fields, i);
      ShapedParts(s.fields[i]);
      PiecesOfParts(s.fields[i].parts, m.values[i]);
    }
  }

  /**
   * The separator setter: `get_name(**get_values())` under a new separator
   * renders the stored match with that separator, whatever the old name,
   * and the result parses back to the same match.
   */
  lemma SeparatorChange(s: Schema, sep: string, name: string, m: Match)
    requires SchemaOk(s) && SepOk(s, sep) && MatchOk(s, m) && name != ""
    ensures StoredOk(s, GroupDict(s, m))
    ensures GetName(s, sep, name, GroupDict(s, m), GetValues(s, GroupDict(s, m))) == Ok(Text(sep, m))
    ensures Parse(s, sep, Text(sep, m)) == Some(m)
  {
    OwnValuesRename(s, m);
    RenameRenders(s, sep, name, m, GetValues(s, GroupDict(s, m)));
    ParseComplete(s, sep, m);
  }
}
