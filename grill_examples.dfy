/**
 * The behaviour the grill name tests (`grill/names/test.py`) spell out,
 * stated on the model for the same inputs.  Integer keyword arguments
 * (`version=17`, `frame=101`) appear as their decimal text, which is what
 * `str()` makes of them.
 */
module GrillExamples {
  import opened Chars
  import opened Wrappers
  import opened NameSchema
  import opened NameParse
  import opened NameClasses
  import opened GrillNames
  import opened GrillRenaming
  import opened GrillClasses

  /** '_' is an acceptable separator for every class: no field class holds it. */
  lemma UnderscoreSepOk(s: Schema)
    ensures SepOk(s, "_")
  {
    MarkSepOk(s, '_');
  }

  /** Any single character that is neither alphanumeric nor a dot separates the fields of any schema. */
  lemma MarkSepOk(s: Schema, c: char)
    requires !IsAlnum(c) && c != '.'
    ensures SepOk(s, [c])
  {
    forall i | 0 <= i < |s.fields|
      ensures !In(c, s.fields[i].cls)
    {
      if In(c, s.fields[i].cls) {
        ClassChars(c, s.fields[i].cls);
      }
    }
  }

  // ---------------------------------------------------------------------
  // Pipe and File

  const BasenameData := Match(["basename"], Piped(Output("data", None)))

  lemma BasenameDataOk()
    ensures SchemaOk(PipeShape) && SepOk(PipeShape, "_")
    ensures MatchOk(PipeShape, BasenameData) && Text("_", BasenameData) == "basename_data"
  {
    NameShapesOk();
    UnderscoreSepOk(PipeShape);
    assert Run("data", Alnum);
  }

  /** `set_name('basename_data')` on a Pipe stores base 'basename' and output 'data'. */
  lemma PipeSetName()
    ensures Parse(PipeShape, "_", "basename_data") == Some(BasenameData)
    ensures "base" in GroupDict(PipeShape, BasenameData) && GroupDict(PipeShape, BasenameData)["base"] == Some("basename")
    ensures "output" in GroupDict(PipeShape, BasenameData) && GroupDict(PipeShape, BasenameData)["output"] == Some("data")
  {
    BasenameDataOk();
    ParseComplete(PipeShape, "_", BasenameData);
    BasenameDataDict();
  }

  lemma BasenameDataDict()
    ensures "base" in GroupDict(PipeShape, BasenameData) && GroupDict(PipeShape, BasenameData)["base"] == Some("basename")
    ensures "output" in GroupDict(PipeShape, BasenameData) && GroupDict(PipeShape, BasenameData)["output"] == Some("data")
  {
  }

  /** On that Pipe, `get_name(pipe='_geo')` puts the pipe text verbatim. */
  lemma PipeVerbatim()
    ensures StoredOk(PipeShape, GroupDict(PipeShape, BasenameData))
    ensures GetName(PipeShape, "_", "basename_data", GroupDict(PipeShape, BasenameData), map["pipe" := Some("_geo")])
         == Ok("basename_geo")
  {
    BasenameDataStored();
    PipeVerbatimOf(GroupDict(PipeShape, BasenameData));
  }

  /** On that Pipe, `get_name(version=17)` ends with '.17'. */
  lemma PipeVersion()
    ensures StoredOk(PipeShape, GroupDict(PipeShape, BasenameData))
    ensures GetName(PipeShape, "_", "basename_data", GroupDict(PipeShape, BasenameData), map["version" := Some("17")])
         == Ok("basename.17")
  {
    BasenameDataStored();
    PipeVersionOf(GroupDict(PipeShape, BasenameData));
  }

  /** The parsed `basename_data` stores every group of Pipe, `base` 'basename' among them. */
  lemma BasenameDataStored()
    ensures StoredOk(PipeShape, GroupDict(PipeShape, BasenameData))
    ensures "base" in GroupDict(PipeShape, BasenameData) && GroupDict(PipeShape, BasenameData)["base"] == Some("basename")
  {
    BasenameDataOk();
    GroupDictKeys(PipeShape, BasenameData);
    assert GroupDict(PipeShape, BasenameData)["base"] == Some("basename");
  }

  lemma PipeVerbatimOf(d: Values)
    requires StoredOk(PipeShape, d) && "base" in d && d["base"] == Some("basename")
    ensures GetName(PipeShape, "_", "basename_data", d, map["pipe" := Some("_geo")]) == Ok("basename_geo")
  {
    var ov := map["pipe" := Some("_geo")];
    assert Derive(PipeShape.fields, d, ov) == ov;
    assert Translate(FieldNames(PipeShape.fields), d, PipeShape.props, ov) == ["basename"];
    assert Join("_", ["basename"]) == "basename";
    assert PipeSuffix("basename_data", d, ov) == Ok("_geo");
    assert "basename" + "_geo" == "basename_geo";
    assert GetName(PipeShape, "_", "basename_data", d, ov) == Ok("basename" + "_geo");
  }

  lemma PipeVersionOf(d: Values)
    requires StoredOk(PipeShape, d) && "base" in d && d["base"] == Some("basename")
    ensures GetName(PipeShape, "_", "basename_data", d, map["version" := Some("17")]) == Ok("basename.17")
  {
    var ov := map["version" := Some("17")];
    assert Derive(PipeShape.fields, d, ov) == ov;
    assert Translate(FieldNames(PipeShape.fields), d, PipeShape.props, ov) == ["basename"];
    assert "pipe" !in ov;
    assert Join("_", ["basename"]) == "basename";
    assert PipeSuffix("basename_data", d, ov) == Ok("." + "17");
    assert "basename" + ("." + "17") == "basename.17";
    assert GetName(PipeShape, "_", "basename_data", d, ov) == Ok("basename" + ("." + "17"));
  }

  const CacheFrame := Match(["basename"], Piped(Output("cache", Some("101"))))

  /** `set_name(get_name(output='cache', frame=101))` on that Pipe stores output 'cache' and frame '101'. */
  lemma PipeOutputFrameRoundTrip()
    ensures StoredOk(PipeShape, GroupDict(PipeShape, BasenameData))
    ensures GetName(PipeShape, "_", "basename_data", GroupDict(PipeShape, BasenameData),
                    map["output" := Some("cache"), "frame" := Some("101")]) == Ok("basename_cache.101")
    ensures Parse(PipeShape, "_", "basename_cache.101") == Some(CacheFrame)
    ensures "output" in GroupDict(PipeShape, CacheFrame) && GroupDict(PipeShape, CacheFrame)["output"] == Some("cache")
    ensures "frame" in GroupDict(PipeShape, CacheFrame) && GroupDict(PipeShape, CacheFrame)["frame"] == Some("101")
  {
    var ov := map["output" := Some("cache"), "frame" := Some("101")];
    BasenameDataOk();
    CacheFrameRenamed();
    RenameRoundTrip(PipeShape, "_", BasenameData, ov);
    CacheFrameDict();
  }

  lemma CacheFrameRenamed()
    ensures OverridesOk(PipeShape, BasenameData, map["output" := Some("cache"), "frame" := Some("101")])
    ensures Renamed(PipeShape, BasenameData, map["output" := Some("cache"), "frame" := Some("101")]) == CacheFrame
    ensures Text("_", CacheFrame) == "basename_cache.101"
  {
    CacheFrameOverridesOk();
    CacheFrameText();
  }

  lemma CacheFrameOverridesOk()
    ensures OverridesOk(PipeShape, BasenameData, map["output" := Some("cache"), "frame" := Some("101")])
  {
    var ov := map["output" := Some("cache"), "frame" := Some("101")];
    assert GroupKeys(PipeShape) == ["base", "pipe", "version", "output", "frame"];
    assert Run("cache", Alnum) && Run("101", Digit);
    assert TailOverridesOk(BasenameData.tail, ov);
  }

  lemma CacheFrameText()
    ensures Text("_", CacheFrame) == "basename_cache.101"
  {
  }

  lemma CacheFrameDict()
    ensures "output" in GroupDict(PipeShape, CacheFrame) && GroupDict(PipeShape, CacheFrame)["output"] == Some("cache")
    ensures "frame" in GroupDict(PipeShape, CacheFrame) && GroupDict(PipeShape, CacheFrame)["frame"] == Some("101")
  {
  }

  const BasenameDataExt := Match(["basename"], Filed(Output("data", None), "ext"))

  lemma BasenameDataExtOk()
    ensures SchemaOk(FileShape) && SepOk(FileShape, "_")
    ensures MatchOk(FileShape, BasenameDataExt) && Text("_", BasenameDataExt) == "basename_data.ext"
  {
    NameShapesOk();
    UnderscoreSepOk(FileShape);
    assert Run("data", Alnum) && Run("ext", Alnum);
  }

  /**
   * `set_name('basename_data.ext')` on a File stores extension 'ext';
   * `nice_name` is 'basename' and `pipe_name` 'basename_data'; a File has
   * no directories.
   */
  lemma FileSetName()
    ensures Parse(FileShape, "_", "basename_data.ext") == Some(BasenameDataExt)
    ensures "extension" in GroupDict(FileShape, BasenameDataExt) && GroupDict(FileShape, BasenameDataExt)["extension"] == Some("ext")
    ensures StoredOk(FileShape, GroupDict(FileShape, BasenameDataExt))
    ensures NiceName(FileShape, "_", GroupDict(FileShape, BasenameDataExt)) == "basename"
    ensures PipeName(FileShape, "_", GroupDict(FileShape, BasenameDataExt)) == "basename_data"
    ensures FileShape.dirs == []
  {
    BasenameDataExtOk();
    ParseComplete(FileShape, "_", BasenameDataExt);
    BasenameDataExtNames();
    BasenameDataExtDict();
  }

  lemma BasenameDataExtNames()
    ensures StoredOk(FileShape, GroupDict(FileShape, BasenameDataExt))
    ensures NiceName(FileShape, "_", GroupDict(FileShape, BasenameDataExt)) == "basename"
    ensures PipeName(FileShape, "_", GroupDict(FileShape, BasenameDataExt)) == "basename_data"
  {
    BasenameDataExtOk();
    NiceNameOfMatch(FileShape, "_", BasenameDataExt);
    assert Join("_", ["basename"]) == "basename";
    assert PipeText(BasenameDataExt.tail.pipe) == "_data";
  }

  lemma BasenameDataExtDict()
    ensures "extension" in GroupDict(FileShape, BasenameDataExt) && GroupDict(FileShape, BasenameDataExt)["extension"] == Some("ext")
  {
  }

  const FaceCache := Match(["face"], Filed(Output("cache", Some("101")), "png"))

  /**
   * `set_name(get_name(base='face', output='cache', frame=101,
   * extension='png'))` on that File stores every override.
   */
  lemma FileRoundTrip()
    ensures StoredOk(FileShape, GroupDict(FileShape, BasenameDataExt))
    ensures GetName(FileShape, "_", "basename_data.ext", GroupDict(FileShape, BasenameDataExt), FaceOverrides)
         == Ok("face_cache.101.png")
    ensures Parse(FileShape, "_", "face_cache.101.png") == Some(FaceCache)
  {
    BasenameDataExtOk();
    FaceCacheRenamed();
    RenameRoundTrip(FileShape, "_", BasenameDataExt, FaceOverrides);
  }

  const FaceOverrides: Values :=
    map["base" := Some("face"), "output" := Some("cache"), "frame" := Some("101"), "extension" := Some("png")]

  lemma FaceCacheRenamed()
    ensures OverridesOk(FileShape, BasenameDataExt, FaceOverrides)
    ensures Renamed(FileShape, BasenameDataExt, FaceOverrides) == FaceCache
    ensures Text("_", FaceCache) == "face_cache.101.png"
  {
    FaceOverridesOk();
    var ov := FaceOverrides;
    assert "version" !in ov && "output" in ov && "frame" in ov && "extension" in ov;
    assert RenamedPipe(Output("data", None), ov) == Output("cache", Some("101"));
    assert RenamedTail(BasenameDataExt.tail, ov) == FaceCache.tail;
    assert RenamedValue(FileShape.fields[0], "basename", ov) == "face";
    assert Renamed(FileShape, BasenameDataExt, ov).values == ["face"];
    FaceCacheText();
  }

  lemma FaceCacheText()
    ensures Text("_", FaceCache) == "face_cache.101.png"
  {
  }

  lemma FaceOverridesOk()
    ensures OverridesOk(FileShape, BasenameDataExt, FaceOverrides)
  {
    FaceOverrideKeys();
    FaceOverrideTail();
    assert FieldOk(FileShape.fields[0], "face");
  }

  lemma FaceOverrideKeys()
    ensures forall k :: k in FaceOverrides ==> k in GroupKeys(FileShape) && k != "pipe" && FaceOverrides[k].Some?
  {
    assert GroupKeys(FileShape) == ["base", "pipe", "version", "output", "frame", "extension"];
  }

  lemma FaceOverrideTail()
    ensures TailOverridesOk(BasenameDataExt.tail, FaceOverrides)
  {
    assert Run("cache", Alnum) && Run("101", Digit) && Run("png", Alnum);
  }

  // ---------------------------------------------------------------------
  // Project and Environment

  /** The keyword arguments the Project and Environment tests pass to a new name. */
  const EnvironmentKwargs: Values :=
    map["pipe" := Some("_base"), "project" := Some("flmabc"), "workarea" := Some("first"), "extension" := Some("abc")]

  const FlmabcFirst := Match(["flmabc", "first"], Filed(Output("base", None), "abc"))

  /** `get_name(**kwargs)` on a new Project or Environment spells the overrides. */
  lemma KwargsRender(s: Schema)
    requires s == ProjectShape || s == EnvironmentShape
    ensures GetName(s, "_", "", map[], EnvironmentKwargs) == Ok("flmabc_first_base.abc")
  {
    var none: Values := map[];
    var ov := EnvironmentKwargs;
    DeriveNothingStored(s.fields, ov);
    FieldNamesResolve(s, none, ov);
    assert FieldNames(s.fields) == ["project", "workarea"];
    assert Translate(FieldNames(s.fields), none, s.props, ov) == ["flmabc", "first"];
    assert Join("_", ["flmabc", "first"]) == "flmabc_first";
    assert PipeSuffix("", none, ov) == Ok("_base");
    assert ExtensionText(none, ov) == "abc";
    assert GetName(s, "_", "", none, ov) == Ok("flmabc_first" + "_base" + "." + "abc");
    assert "flmabc_first" + "_base" + "." + "abc" == "flmabc_first_base.abc";
  }

  lemma FlmabcFirstOk(s: Schema)
    requires s == ProjectShape || s == EnvironmentShape
    ensures SchemaOk(s) && SepOk(s, "_") && DirsOk(s)
    ensures MatchOk(s, FlmabcFirst) && Text("_", FlmabcFirst) == "flmabc_first_base.abc"
  {
    UnderscoreSepOk(s);
    FlmabcFirstText();
    if s == EnvironmentShape {
      EnvironmentShapeOk();
      FlmabcFirstEnvironment();
    } else {
      ProjectShapeOk();
      FlmabcFirstProject();
    }
  }

  lemma FlmabcFirstText()
    ensures Text("_", FlmabcFirst) == "flmabc_first_base.abc"
  {
  }

  lemma FlmabcFirstProject()
    ensures MatchOk(ProjectShape, FlmabcFirst)
  {
    assert Run("base", Alnum) && Run("abc", Alnum) && Sized("first", Alnum, 0) && Sized("flmabc", Alnum, 0);
  }

  lemma FlmabcFirstEnvironment()
    ensures MatchOk(EnvironmentShape, FlmabcFirst)
  {
    assert Run("base", Alnum) && Run("abc", Alnum) && Sized("first", Alnum, 0);
    assert AllIn("flm", Lower) && Run("abc", LowerAlnum);
    assert "flmabc"[..3] == "flm" && "flmabc"[3..] == "abc";
    assert PartsOk(EnvironmentProject.parts, "flmabc");
  }

  /**
   * Project: `set_name(get_name(**kwargs))` gives `nice_name`
   * 'flmabc_first' and the path flmabc / first / flmabc_first_base.abc.
   */
  lemma ProjectNames()
    ensures Parse(ProjectShape, "_", "flmabc_first_base.abc") == Some(FlmabcFirst)
    ensures StoredOk(ProjectShape, GroupDict(ProjectShape, FlmabcFirst))
    ensures NiceName(ProjectShape, "_", GroupDict(ProjectShape, FlmabcFirst)) == "flmabc_first"
    ensures DirsResolve(ProjectShape, GroupDict(ProjectShape, FlmabcFirst))
    ensures Path(ProjectShape, "_", "flmabc_first_base.abc", GroupDict(ProjectShape, FlmabcFirst))
         == ["flmabc", "first", "flmabc_first_base.abc"]
  {
    ProjectParse();
    ProjectNice();
    ProjectPath();
  }

  lemma ProjectParse()
    ensures Parse(ProjectShape, "_", "flmabc_first_base.abc") == Some(FlmabcFirst)
  {
    FlmabcFirstOk(ProjectShape);
    ParseComplete(ProjectShape, "_", FlmabcFirst);
  }

  lemma ProjectNice()
    ensures NiceName(ProjectShape, "_", GroupDict(ProjectShape, FlmabcFirst)) == "flmabc_first"
  {
    FlmabcFirstOk(ProjectShape);
    NiceNameOfMatch(ProjectShape, "_", FlmabcFirst);
    FlmabcFirstJoined();
  }

  lemma FlmabcFirstJoined()
    ensures Join("_", FlmabcFirst.values) == "flmabc_first"
  {
    assert Join("_", ["flmabc", "first"]) == "flmabc_first";
  }

  lemma ProjectPath()
    ensures StoredOk(ProjectShape, GroupDict(ProjectShape, FlmabcFirst))
    ensures DirsResolve(ProjectShape, GroupDict(ProjectShape, FlmabcFirst))
    ensures Path(ProjectShape, "_", "flmabc_first_base.abc", GroupDict(ProjectShape, FlmabcFirst))
         == ["flmabc", "first", "flmabc_first_base.abc"]
  {
    ProjectStored();
    ProjectPathOf(GroupDict(ProjectShape, FlmabcFirst));
  }

  /** The parsed Project stores every group, `project` 'flmabc' and `workarea` 'first'. */
  lemma ProjectStored()
    ensures StoredOk(ProjectShape, GroupDict(ProjectShape, FlmabcFirst))
    ensures DirsResolve(ProjectShape, GroupDict(ProjectShape, FlmabcFirst))
    ensures "project" in GroupDict(ProjectShape, FlmabcFirst) && GroupDict(ProjectShape, FlmabcFirst)["project"] == Some("flmabc")
    ensures "workarea" in GroupDict(ProjectShape, FlmabcFirst) && GroupDict(ProjectShape, FlmabcFirst)["workarea"] == Some("first")
  {
    FlmabcFirstOk(ProjectShape);
    GroupDictKeys(ProjectShape, FlmabcFirst);
    GroupDictField(ProjectShape, FlmabcFirst, 0);
    GroupDictField(ProjectShape, FlmabcFirst, 1);
  }

  /** A Project storing `project` 'flmabc' and `workarea` 'first' lives in `flmabc/first`. */
  lemma ProjectPathOf(d: Values)
    requires StoredOk(ProjectShape, d) && DirsResolve(ProjectShape, d)
    requires "project" in d && d["project"] == Some("flmabc") && "workarea" in d && d["workarea"] == Some("first")
    ensures Path(ProjectShape, "_", "flmabc_first_base.abc", d) == ["flmabc", "first", "flmabc_first_base.abc"]
  {
    var r := Path(ProjectShape, "_", "flmabc_first_base.abc", d);
    assert r[0] == "flmabc" && r[1] == "first";
  }

  /** Environment's project splits into its first three characters and the rest. */
  lemma EnvironmentPieces(v: string)
    requires |v| >= 3
    ensures Pieces(EnvironmentProject.parts, v) == [v[..3], v[3..]]
  {
    var ps := EnvironmentProject.parts;
    assert ps[1..][1..] == [];
    assert Pieces(ps[1..], v[3..]) == [v[3..]] + Pieces(ps[1..][1..], "");
  }

  /** Environment: `set_name(get_name(**kwargs))` stores environment 'flm', the first piece of the project. */
  lemma EnvironmentSetName()
    ensures GetName(EnvironmentShape, "_", "", map[], EnvironmentKwargs) == Ok("flmabc_first_base.abc")
    ensures Parse(EnvironmentShape, "_", "flmabc_first_base.abc") == Some(FlmabcFirst)
    ensures "environment" in GroupDict(EnvironmentShape, FlmabcFirst) && GroupDict(EnvironmentShape, FlmabcFirst)["environment"] == Some("flm")
  {
    KwargsRender(EnvironmentShape);
    EnvironmentParse();
    FlmDict();
  }

  lemma EnvironmentParse()
    ensures Parse(EnvironmentShape, "_", "flmabc_first_base.abc") == Some(FlmabcFirst)
  {
    FlmabcFirstOk(EnvironmentShape);
    ParseComplete(EnvironmentShape, "_", FlmabcFirst);
  }

  lemma FlmDict()
    ensures "environment" in GroupDict(EnvironmentShape, FlmabcFirst) && GroupDict(EnvironmentShape, FlmabcFirst)["environment"] == Some("flm")
  {
    EnvironmentShapeOk();
    FlmabcFirstEnvironment();
    GroupDictPart(EnvironmentShape, FlmabcFirst, 0, 0);
    EnvironmentPieces("flmabc");
    assert "flmabc"[..3] == "flm";
  }

  const GmeabcFirst := Match(["gmeabc", "first"], Filed(Output("base", None), "abc"))

  const GmeOverride: Values := map["environment" := Some("gme")]

  /**
   * Environment: `set_name(get_name(environment='gme'))` recomputes the
   * project, storing environment 'gme' and keeping code 'abc'; the path is
   * abc / gme / first / gmeabc_first_base.abc.
   */
  lemma EnvironmentRename()
    ensures StoredOk(EnvironmentShape, GroupDict(EnvironmentShape, FlmabcFirst))
    ensures GetName(EnvironmentShape, "_", "flmabc_first_base.abc", GroupDict(EnvironmentShape, FlmabcFirst), GmeOverride)
         == Ok("gmeabc_first_base.abc")
    ensures Parse(EnvironmentShape, "_", "gmeabc_first_base.abc") == Some(GmeabcFirst)
    ensures "environment" in GroupDict(EnvironmentShape, GmeabcFirst) && GroupDict(EnvironmentShape, GmeabcFirst)["environment"] == Some("gme")
    ensures "code" in GroupDict(EnvironmentShape, GmeabcFirst) && GroupDict(EnvironmentShape, GmeabcFirst)["code"] == Some("abc")
    ensures StoredOk(EnvironmentShape, GroupDict(EnvironmentShape, GmeabcFirst))
    ensures DirsResolve(EnvironmentShape, GroupDict(EnvironmentShape, GmeabcFirst))
    ensures Path(EnvironmentShape, "_", "gmeabc_first_base.abc", GroupDict(EnvironmentShape, GmeabcFirst))
         == ["abc", "gme", "first", "gmeabc_first_base.abc"]
  {
    GmeRoundTrip();
    GmeabcFirstDict();
    GmeabcFirstPath();
  }

  lemma GmeRoundTrip()
    ensures StoredOk(EnvironmentShape, GroupDict(EnvironmentShape, FlmabcFirst))
    ensures GetName(EnvironmentShape, "_", "flmabc_first_base.abc", GroupDict(EnvironmentShape, FlmabcFirst), GmeOverride)
         == Ok("gmeabc_first_base.abc")
    ensures Parse(EnvironmentShape, "_", "gmeabc_first_base.abc") == Some(GmeabcFirst)
  {
    FlmabcFirstOk(EnvironmentShape);
    GmeRenamed();
    RenameRoundTrip(EnvironmentShape, "_", FlmabcFirst, GmeOverride);
    GmeabcFirstText();
  }

  lemma GmeOverridesOk()
    ensures OverridesOk(EnvironmentShape, FlmabcFirst, GmeOverride)
  {
    EnvironmentShapeOk();
    FlmabcFirstEnvironment();
    assert "environment" in GroupKeys(EnvironmentShape);
    assert Sized("gme", Lower, 3);
  }

  lemma GmeRenamed()
    ensures MatchOk(EnvironmentShape, FlmabcFirst)
    ensures OverridesOk(EnvironmentShape, FlmabcFirst, GmeOverride)
    ensures Renamed(EnvironmentShape, FlmabcFirst, GmeOverride) == GmeabcFirst
  {
    var ov := GmeOverride;
    FlmabcFirstEnvironment();
    GmeOverridesOk();
    EnvironmentPieces("flmabc");
    assert "flmabc"[3..] == "abc";
    assert RenamedPieces(EnvironmentProject, "flmabc", ov) == ["gme", "abc"];
    assert Concat(["gme", "abc"]) == "gmeabc";
    assert RenamedValue(EnvironmentShape.fields[0], "flmabc", ov) == "gmeabc";
    assert RenamedValue(EnvironmentShape.fields[1], "first", ov) == "first";
  }

  lemma GmeabcFirstText()
    ensures Text("_", GmeabcFirst) == "gmeabc_first_base.abc"
  {
  }

  lemma GmeabcFirstOk()
    ensures SchemaOk(EnvironmentShape) && MatchOk(EnvironmentShape, GmeabcFirst)
  {
    EnvironmentShapeOk();
    GmeRenamed();
    RenamedOk(EnvironmentShape, FlmabcFirst, GmeOverride);
  }

  lemma GmeabcFirstDict()
    ensures "environment" in GroupDict(EnvironmentShape, GmeabcFirst) && GroupDict(EnvironmentShape, GmeabcFirst)["environment"] == Some("gme")
    ensures "code" in GroupDict(EnvironmentShape, GmeabcFirst) && GroupDict(EnvironmentShape, GmeabcFirst)["code"] == Some("abc")
    ensures "workarea" in GroupDict(EnvironmentShape, GmeabcFirst) && GroupDict(EnvironmentShape, GmeabcFirst)["workarea"] == Some("first")
  {
    var s := EnvironmentShape;
    var m := GmeabcFirst;
    GmeabcFirstOk();
    GroupDictPart(s, m, 0, 0);
    GroupDictPart(s, m, 0, 1);
    GroupDictField(s, m, 1);
    assert s.fields[0].parts[0].key == "environment" && s.fields[0].parts[1].key == "code";
    assert s.fields[1].key == "workarea";
    EnvironmentPieces("gmeabc");
    assert "gmeabc"[..3] == "gme" && "gmeabc"[3..] == "abc";
  }

  lemma GmeabcFirstPath()
    ensures StoredOk(EnvironmentShape, GroupDict(EnvironmentShape, GmeabcFirst))
    ensures DirsResolve(EnvironmentShape, GroupDict(EnvironmentShape, GmeabcFirst))
    ensures Path(EnvironmentShape, "_", "gmeabc_first_base.abc", GroupDict(EnvironmentShape, GmeabcFirst))
         == ["abc", "gme", "first", "gmeabc_first_base.abc"]
  {
    GmeabcFirstOk();
    StoredOfMatch(EnvironmentShape, GmeabcFirst);
    GmeabcFirstDict();
    EnvironmentPath(GroupDict(EnvironmentShape, GmeabcFirst), "gmeabc_first_base.abc", "abc", "gme", "first");
  }

  /** Stored Environment values give the path code / environment / workarea / name. */
  lemma EnvironmentPath(d: Values, name: string, code: string, env: string, area: string)
    requires StoredOk(EnvironmentShape, d) && name != ""
    requires "code" in d && d["code"] == Some(code) && "environment" in d && d["environment"] == Some(env)
    requires "workarea" in d && d["workarea"] == Some(area)
    ensures DirsResolve(EnvironmentShape, d)
    ensures Path(EnvironmentShape, "_", name, d) == [code, env, area, name]
  {
    EnvironmentDirsFrom(d, code, env, area);
    PathOfStored(EnvironmentShape, "_", name, d, [code, env, area]);
  }

  /** Stored Environment values give the directories code / environment / workarea. */
  lemma EnvironmentDirsFrom(d: Values, code: string, env: string, area: string)
    requires "code" in d && d["code"] == Some(code) && "environment" in d && d["environment"] == Some(env)
    requires "workarea" in d && d["workarea"] == Some(area)
    ensures DirsResolve(EnvironmentShape, d) && |EnvironmentShape.dirs| == 3
    ensures forall i :: 0 <= i < |EnvironmentShape.dirs| ==>
      var k := EnvironmentShape.dirs[i];
      if k in d then Str(d[k]) == [code, env, area][i] else EnvironmentShape.props[k] == [code, env, area][i]
  {
    assert EnvironmentShape.dirs == ["code", "environment", "workarea"];
  }

  /**
   * A new Environment renders placeholders: `get_name(frame=5)`,
   * `pipe_name` and `get_name(extension='ext')`.
   */
  lemma EnvironmentPlaceholders()
    ensures GetName(EnvironmentShape, "_", "", map[], map["frame" := Some("5")])
         == Ok("[project]_[workarea]_[output].5.[extension]")
    ensures PipeName(EnvironmentShape, "_", map[]) == "[project]_[workarea]_[pipe]"
    ensures GetName(EnvironmentShape, "_", "", map[], map["extension" := Some("ext")])
         == Ok("[project]_[workarea]_[pipe].ext")
  {
    FrameFive();
    ExtensionExt();
    PlaceholderFields(map[]);
    assert "[project]_[workarea]" + "_[pipe]" == "[project]_[workarea]_[pipe]";
  }

  lemma FrameFive()
    ensures GetName(EnvironmentShape, "_", "", map[], map["frame" := Some("5")])
         == Ok("[project]_[workarea]_[output].5.[extension]")
  {
    FrameFiveParts();
    assert "[project]_[workarea]" + ("_" + "[output]" + ("." + "5")) + "." + "[extension]"
        == "[project]_[workarea]_[output].5.[extension]";
  }

  lemma FrameFiveParts()
    ensures GetName(EnvironmentShape, "_", "", map[], map["frame" := Some("5")])
         == Ok("[project]_[workarea]" + ("_" + "[output]" + ("." + "5")) + "." + "[extension]")
  {
    var ov := map["frame" := Some("5")];
    DeriveNothingStored(EnvironmentShape.fields, ov);
    PlaceholderFields(ov);
    FrameFiveSuffix();
  }

  lemma FrameFiveSuffix()
    ensures PipeSuffix("", map[], map["frame" := Some("5")]) == Ok("_" + "[output]" + ("." + "5"))
    ensures ExtensionText(map[], map["frame" := Some("5")]) == "[extension]"
  {
    var none: Values := map[];
    var ov := map["frame" := Some("5")];
    assert "pipe" !in ov && "version" !in ov && "output" !in ov && "extension" !in ov;
    assert OutputText(none, ov) == "[output]";
  }

  lemma ExtensionExt()
    ensures GetName(EnvironmentShape, "_", "", map[], map["extension" := Some("ext")])
         == Ok("[project]_[workarea]_[pipe].ext")
  {
    var none: Values := map[];
    var ov := map["extension" := Some("ext")];
    var s := EnvironmentShape;
    DeriveNothingStored(s.fields, ov);
    PlaceholderFields(ov);
    assert PipeSuffix("", none, ov) == Ok("_[pipe]");
    assert ExtensionText(none, ov) == "ext";
    assert GetName(s, "_", "", none, ov) == Ok("[project]_[workarea]" + "_[pipe]" + "." + "ext");
    assert "[project]_[workarea]" + "_[pipe]" + "." + "ext" == "[project]_[workarea]_[pipe].ext";
  }

  /** The fields of a new Environment render as placeholders. */
  lemma PlaceholderFields(ov: Values)
    requires "project" !in ov && "workarea" !in ov
    ensures FieldNames(EnvironmentShape.fields) == ["project", "workarea"]
    ensures Join("_", Translate(FieldNames(EnvironmentShape.fields), map[], EnvironmentShape.props, ov)) == "[project]_[workarea]"
  {
    var none: Values := map[];
    var t := Translate(["project", "workarea"], none, EnvironmentShape.props, ov);
    assert t[0] == "[project]" && t[1] == "[workarea]";
    assert t == ["[project]", "[workarea]"];
    assert Join("_", t) == "[project]" + "_" + "[workarea]";
  }

  // ---------------------------------------------------------------------
  // Film

  /** On a new Film, `get_name(kind='set') == get_name()`: the workarea cannot be recomputed. */
  lemma FilmKindUnresolved()
    ensures GetName(FilmShape, "_", "", map[], map["kind" := Some("set")]) == GetName(FilmShape, "_", "", map[], map[])
  {
    KindNotField();
    KindNotTail();
    FreshName(FilmShape, "_", map["kind" := Some("set")]);
    FreshName(FilmShape, "_", map[]);
  }

  /** `kind` is a part of the Film workarea, not a field of its own. */
  lemma KindNotField()
    ensures forall i :: 0 <= i < |FilmShape.fields| ==> FilmShape.fields[i].key != "kind"
  {
  }

  lemma KindNotTail()
    ensures forall k :: k in TailKeys(FileTail) ==> k !in map["kind" := Some("set")]
  {
  }

  /** The keyword arguments the Film test passes to a new name. */
  const FilmKwargs: Values :=
    map["pipe" := Some("_base"), "project" := Some("flmabc"), "workarea" := Some("achrgeo"), "extension" := Some("abc"),
        "alias" := Some("boy"), "stage" := Some("concept"), "variant" := Some("original"),
        "partition" := Some("master"), "layer" := Some("default")]

  /** flmabc_achrgeo_boy_concept_original_master_default_base.abc */
  const FilmGeo := Match(["flmabc", "achrgeo", "boy", "concept", "original", "master", "default"],
                         Filed(Output("base", None), "abc"))

  /** `get_name(**kwargs)` on a new Film spells the overrides: the text of `FilmGeo`. */
  lemma FilmKwargsRender()
    ensures GetName(FilmShape, "_", "", map[], FilmKwargs) == Ok(Text("_", FilmGeo))
  {
    FilmKwargsFields();
    FreshFile(FilmShape, "_", FilmKwargs, FilmGeo.values, "_base", "abc");
    FilmGeoText();
  }

  lemma FilmGeoText()
    ensures Text("_", FilmGeo) == Join("_", FilmGeo.values) + "_base" + "." + "abc"
  {
    assert TailText(FilmGeo.tail) == "_base" + "." + "abc";
  }

  lemma FilmKwargsFields()
    ensures forall i :: 0 <= i < |FilmShape.fields| ==>
      FilmShape.fields[i].key in FilmKwargs && Str(FilmKwargs[FilmShape.fields[i].key]) == FilmGeo.values[i]
  {
    FilmKeys();
  }

  /** Film's workarea splits into one letter, three characters and the rest. */
  lemma FilmWorkareaPieces(v: string)
    requires |v| >= 4
    ensures Pieces(FilmWorkarea.parts, v) == [v[..1], v[1..4], v[4..]]
  {
    var ps := FilmWorkarea.parts;
    assert ps[1..][1..][1..] == [];
    assert v[1..][..3] == v[1..4] && v[1..][3..] == v[4..];
    assert Pieces(ps[1..][1..], v[4..]) == [v[4..]] + Pieces(ps[1..][1..][1..], "");
  }

  lemma FilmGeoOk()
    ensures SchemaOk(FilmShape) && SepOk(FilmShape, "_") && MatchOk(FilmShape, FilmGeo)
  {
    FilmShapeOk();
    UnderscoreSepOk(FilmShape);
    FilmGeoMatch();
  }

  lemma FilmGeoMatch()
    ensures MatchOk(FilmShape, FilmGeo)
  {
    assert Run("boy", LowerAlnum) && Run("concept", LowerAlnum) && Run("original", LowerAlnum);
    assert Run("master", LowerAlnum) && Run("default", LowerAlnum);
    FilmFieldsOk(FilmGeo.values);
    assert Run("base", Alnum) && Run("abc", Alnum);
  }

  /** Film values whose project and workarea are the ones of the tests and whose plain fields are alphanumeric runs. */
  lemma FilmFieldsOk(vs: seq<string>)
    requires |vs| == 7 && vs[0] == "flmabc" && (vs[1] == "achrgeo" || vs[1] == "achrmodel")
    requires forall i :: 2 <= i < 7 ==> Run(vs[i], LowerAlnum)
    ensures forall i :: 0 <= i < |FilmShape.fields| ==> FieldOk(FilmShape.fields[i], vs[i])
  {
    forall i | 0 <= i < |FilmShape.fields|
      ensures FieldOk(FilmShape.fields[i], vs[i])
    {
      if i == 0 {
        FlmabcOk();
      } else if i == 1 {
        WorkareaOk(vs[1][4..]);
        assert vs[1] == "achr" + vs[1][4..];
      } else {
        var f := FilmShape.fields[i];
        assert f.parts == [] && f.width == 0 && (f.cls == Alnum || f.cls == LowerAlnum);
        assert forall j :: 0 <= j < |vs[i]| ==> In(vs[i][j], LowerAlnum);
      }
    }
  }

  lemma FlmabcOk()
    ensures FieldOk(EnvironmentProject, "flmabc")
  {
    assert AllIn("flm", Lower) && Run("abc", LowerAlnum);
    assert "flmabc"[..3] == "flm" && "flmabc"[3..] == "abc";
  }

  lemma WorkareaOk(area: string)
    requires Run(area, LowerAlnum)
    ensures FieldOk(FilmWorkarea, "achr" + area)
  {
    var v := "achr" + area;
    assert v[..1] == "a" && v[1..][..3] == "chr" && v[1..][3..] == area;
    assert AllIn("a", Lower) && AllIn("chr", LowerAlnum);
  }

  /** Film: `set_name(get_name(**kwargs))` holds the match `FilmGeo`. */
  lemma FilmSetName()
    ensures Parse(FilmShape, "_", Text("_", FilmGeo)) == Some(FilmGeo)
  {
    FilmGeoOk();
    ParseComplete(FilmShape, "_", FilmGeo);
  }

  const AreaModel: Values := map["area" := Some("model")]

  /** flmabc_achrmodel_boy_concept_original_master_default_base.abc */
  const FilmModel := Match(["flmabc", "achrmodel", "boy", "concept", "original", "master", "default"],
                           Filed(Output("base", None), "abc"))

  lemma AreaModelOk()
    ensures OverridesOk(FilmShape, FilmGeo, AreaModel)
  {
    var s := FilmShape;
    var ov := AreaModel;
    AreaModelKey();
    forall i | 0 <= i < |s.fields|
      ensures s.fields[i].key !in ov
    {
    }
    forall i, j | 0 <= i < |s.fields| && 0 <= j < |s.fields[i].parts| && s.fields[i].parts[j].key in ov
      ensures Sized(ov[s.fields[i].parts[j].key].value, s.fields[i].parts[j].cls, s.fields[i].parts[j].width)
    {
      assert i == 1 && j == 2;
      assert Sized("model", LowerAlnum, 0);
    }
    assert TailOverridesOk(FilmGeo.tail, ov);
  }

  lemma AreaModelKey()
    ensures "area" in GroupKeys(FilmShape)
  {
    FilmKeys();
    assert FilmGroups[6] == "area";
  }

  lemma FilmAreaRenamed()
    ensures OverridesOk(FilmShape, FilmGeo, AreaModel)
    ensures Renamed(FilmShape, FilmGeo, AreaModel) == FilmModel
  {
    AreaModelOk();
    FilmRenamedFields();
    var r := Renamed(FilmShape, FilmGeo, AreaModel);
    assert r.values == FilmModel.values;
  }

  lemma FilmRenamedFields()
    ensures forall i :: 0 <= i < 7 ==> RenamedValue(FilmShape.fields[i], FilmGeo.values[i], AreaModel) == FilmModel.values[i]
  {
    var ov := AreaModel;
    forall i | 0 <= i < 7
      ensures RenamedValue(FilmShape.fields[i], FilmGeo.values[i], ov) == FilmModel.values[i]
    {
      if i == 0 {
        FilmRenamedProject();
      } else if i == 1 {
        FilmRenamedWorkarea();
      }
    }
  }

  lemma FilmRenamedProject()
    ensures RenamedValue(EnvironmentProject, "flmabc", AreaModel) == "flmabc"
  {
    var ov := AreaModel;
    EnvironmentPieces("flmabc");
    assert "flmabc"[..3] == "flm" && "flmabc"[3..] == "abc";
    assert RenamedPieces(EnvironmentProject, "flmabc", ov) == ["flm", "abc"];
    assert Concat(["flm", "abc"]) == "flmabc";
  }

  lemma FilmRenamedWorkarea()
    ensures RenamedValue(FilmWorkarea, "achrgeo", AreaModel) == "achrmodel"
  {
    var ov := AreaModel;
    FilmWorkareaPieces("achrgeo");
    assert "achrgeo"[..1] == "a" && "achrgeo"[1..4] == "chr";
    assert RenamedPieces(FilmWorkarea, "achrgeo", ov) == ["a", "chr", "model"];
    assert Concat(["a", "chr", "model"]) == "achrmodel";
  }

  /**
   * Film: `set_name(get_name(area='model'))` recomputes the workarea as
   * 'achrmodel' and leaves every other field and the suffix as they were.
   */
  lemma FilmRename()
    ensures StoredOk(FilmShape, GroupDict(FilmShape, FilmGeo))
    ensures GetName(FilmShape, "_", Text("_", FilmGeo), GroupDict(FilmShape, FilmGeo), AreaModel) == Ok(Text("_", FilmModel))
    ensures Parse(FilmShape, "_", Text("_", FilmModel)) == Some(FilmModel)
  {
    FilmGeoOk();
    FilmAreaRenamed();
    RenameRoundTrip(FilmShape, "_", FilmGeo, AreaModel);
  }

  lemma FilmModelOk()
    ensures SchemaOk(FilmShape) && MatchOk(FilmShape, FilmModel)
  {
    FilmGeoOk();
    FilmAreaRenamed();
    RenamedOk(FilmShape, FilmGeo, AreaModel);
  }

  lemma FilmModelWorkarea()
    ensures "workarea" in GroupDict(FilmShape, FilmModel) && GroupDict(FilmShape, FilmModel)["workarea"] == Some("achrmodel")
  {
    FilmModelOk();
    GroupDictField(FilmShape, FilmModel, 1);
  }

  /** The parts of the renamed Film project and workarea as stored. */
  lemma FilmModelParts()
    ensures "environment" in GroupDict(FilmShape, FilmModel) && GroupDict(FilmShape, FilmModel)["environment"] == Some("flm")
    ensures "code" in GroupDict(FilmShape, FilmModel) && GroupDict(FilmShape, FilmModel)["code"] == Some("abc")
    ensures "kind" in GroupDict(FilmShape, FilmModel) && GroupDict(FilmShape, FilmModel)["kind"] == Some("a")
    ensures "group" in GroupDict(FilmShape, FilmModel) && GroupDict(FilmShape, FilmModel)["group"] == Some("chr")
    ensures "area" in GroupDict(FilmShape, FilmModel) && GroupDict(FilmShape, FilmModel)["area"] == Some("model")
  {
    FilmModelProject();
    FilmModelWorkareaParts();
  }

  /** The Film match has one value per field, a distinct group per key and a well-formed suffix. */
  lemma FilmModelShaped()
    ensures |FilmModel.values| == |FilmShape.fields| && Distinct(GroupKeys(FilmShape)) && TailOk(FilmShape.tail, FilmModel.tail)
  {
    FilmModelOk();
  }

  lemma FilmModelProject()
    ensures "environment" in GroupDict(FilmShape, FilmModel) && GroupDict(FilmShape, FilmModel)["environment"] == Some("flm")
    ensures "code" in GroupDict(FilmShape, FilmModel) && GroupDict(FilmShape, FilmModel)["code"] == Some("abc")
  {
    var s := FilmShape;
    var m := FilmModel;
    FilmModelShaped();
    GroupDictPart(s, m, 0, 0);
    GroupDictPart(s, m, 0, 1);
    EnvironmentPieces("flmabc");
    assert "flmabc"[..3] == "flm" && "flmabc"[3..] == "abc";
  }

  lemma FilmModelWorkareaParts()
    ensures "kind" in GroupDict(FilmShape, FilmModel) && GroupDict(FilmShape, FilmModel)["kind"] == Some("a")
    ensures "group" in GroupDict(FilmShape, FilmModel) && GroupDict(FilmShape, FilmModel)["group"] == Some("chr")
    ensures "area" in GroupDict(FilmShape, FilmModel) && GroupDict(FilmShape, FilmModel)["area"] == Some("model")
  {
    var s := FilmShape;
    var m := FilmModel;
    FilmModelShaped();
    GroupDictPart(s, m, 1, 0);
    GroupDictPart(s, m, 1, 1);
    GroupDictPart(s, m, 1, 2);
    FilmWorkareaPieces("achrmodel");
    assert "achrmodel"[..1] == "a" && "achrmodel"[1..4] == "chr" && "achrmodel"[4..] == "model";
  }

  /** The plain Film fields behind directories as stored. */
  lemma FilmModelFields()
    ensures "alias" in GroupDict(FilmShape, FilmModel) && GroupDict(FilmShape, FilmModel)["alias"] == Some("boy")
    ensures "stage" in GroupDict(FilmShape, FilmModel) && GroupDict(FilmShape, FilmModel)["stage"] == Some("concept")
    ensures "variant" in GroupDict(FilmShape, FilmModel) && GroupDict(FilmShape, FilmModel)["variant"] == Some("original")
  {
    var s := FilmShape;
    var m := FilmModel;
    FilmModelOk();
    GroupDictField(s, m, 2);
    GroupDictField(s, m, 3);
    GroupDictField(s, m, 4);
  }

  /** A parsed Film stores every group; `productionenv` is a property of the class, not a group. */
  lemma FilmModelStored()
    ensures StoredOk(FilmShape, GroupDict(FilmShape, FilmModel))
    ensures "productionenv" !in GroupDict(FilmShape, FilmModel)
  {
    FilmModelOk();
    StoredOfMatch(FilmShape, FilmModel);
    ProductionEnvNotGroup();
  }

  lemma ProductionEnvNotGroup()
    ensures "productionenv" !in GroupKeys(FilmShape)
  {
    FilmKeys();
    assert GroupKeys(FilmShape) == FilmGroups;
  }

  /** The stored values of a parsed name hold every group and nothing else. */
  lemma StoredOfMatch(s: Schema, m: Match)
    requires MatchOk(s, m)
    ensures StoredOk(s, GroupDict(s, m))
    ensures forall k :: k in GroupDict(s, m) ==> k in GroupKeys(s)
  {
    GroupDictKeys(s, m);
  }

  /** abc / flm / pro / a / chr / boy / model / concept / original */
  const FilmPathDirs := ["abc", "flm", "pro", "a", "chr", "boy", "model", "concept", "original"]

  /** Every Film directory resolves, to a stored group or to `productionenv`. */
  lemma FilmDirValues()
    ensures DirsResolve(FilmShape, GroupDict(FilmShape, FilmModel))
    ensures forall i :: 0 <= i < |FilmShape.dirs| ==>
      var k := FilmShape.dirs[i];
      var d := GroupDict(FilmShape, FilmModel);
      if k in d then Str(d[k]) == FilmPathDirs[i] else k in FilmShape.props && FilmShape.props[k] == FilmPathDirs[i]
  {
    FilmModelParts();
    FilmModelFields();
    FilmModelStored();
    FilmDirsFrom(GroupDict(FilmShape, FilmModel));
  }

  /** Stored Film values with these groups give the directories of the Film path. */
  lemma FilmDirsFrom(d: Values)
    requires "code" in d && d["code"] == Some("abc") && "environment" in d && d["environment"] == Some("flm")
    requires "kind" in d && d["kind"] == Some("a") && "group" in d && d["group"] == Some("chr")
    requires "alias" in d && d["alias"] == Some("boy") && "area" in d && d["area"] == Some("model")
    requires "stage" in d && d["stage"] == Some("concept") && "variant" in d && d["variant"] == Some("original")
    requires "productionenv" !in d
    ensures DirsResolve(FilmShape, d)
    ensures forall i :: 0 <= i < |FilmShape.dirs| ==>
      var k := FilmShape.dirs[i];
      if k in d then Str(d[k]) == FilmPathDirs[i] else k in FilmShape.props && FilmShape.props[k] == FilmPathDirs[i]
  {
    var s := FilmShape;
    FilmDirsOrder();
    forall i | 0 <= i < |s.dirs|
      ensures if s.dirs[i] in d then Str(d[s.dirs[i]]) == FilmPathDirs[i]
              else s.dirs[i] in s.props && s.props[s.dirs[i]] == FilmPathDirs[i]
    {
      if i == 2 {
        assert s.dirs[i] == "productionenv";
      }
    }
  }

  /** Film: after the rename, `path` is abc/flm/pro/a/chr/boy/model/concept/original followed by the name. */
  lemma FilmPath()
    ensures StoredOk(FilmShape, GroupDict(FilmShape, FilmModel))
    ensures DirsResolve(FilmShape, GroupDict(FilmShape, FilmModel))
    ensures Path(FilmShape, "_", Text("_", FilmModel), GroupDict(FilmShape, FilmModel)) == FilmPathDirs + [Text("_", FilmModel)]
  {
    FilmModelStored();
    FilmModelFields();
    FilmDirValues();
    FilmTextNotEmpty();
    FilmPathOf(GroupDict(FilmShape, FilmModel), Text("_", FilmModel));
  }

  lemma FilmTextNotEmpty()
    ensures Text("_", FilmModel) != ""
  {
    JoinStarts("_", FilmModel.values);
  }

  /** A Film name whose stored values resolve its directories to those of the example lives under them. */
  lemma FilmPathOf(d: Values, name: string)
    requires StoredOk(FilmShape, d) && DirsResolve(FilmShape, d) && d != map[] && name != ""
    requires forall i :: 0 <= i < |FilmShape.dirs| ==>
      var k := FilmShape.dirs[i];
      if k in d then Str(d[k]) == FilmPathDirs[i] else k in FilmShape.props && FilmShape.props[k] == FilmPathDirs[i]
    ensures Path(FilmShape, "_", name, d) == FilmPathDirs + [name]
  {
    PathOfStored(FilmShape, "_", name, d, FilmPathDirs);
  }

  /**
   * Film: setting the separator to '-' renders the same values with the
   * new separator between the fields; the pipe keeps its own '_', so the
   * name ends in `default_base.abc`.
   */
  lemma FilmSeparatorDash()
    ensures StoredOk(FilmShape, GroupDict(FilmShape, FilmModel))
    ensures GetName(FilmShape, "-", Text("_", FilmModel), GroupDict(FilmShape, FilmModel), GetValues(FilmShape, GroupDict(FilmShape, FilmModel)))
         == Ok(Text("-", FilmModel))
    ensures Parse(FilmShape, "-", Text("-", FilmModel)) == Some(FilmModel)
    ensures Text("-", FilmModel) == Join("-", FilmModel.values) + "_base.abc"
  {
    FilmModelOk();
    MarkSepOk(FilmShape, '-');
    JoinStarts("_", FilmModel.values);
    SeparatorChange(FilmShape, "-", Text("_", FilmModel), FilmModel);
    FilmModelSuffix("-");
  }

  lemma FilmModelSuffix(sep: string)
    ensures Text(sep, FilmModel) == Join(sep, FilmModel.values) + "_base.abc"
  {
    assert TailText(FilmModel.tail) == "_base.abc";
  }
}
