/**
 * The name classes of `grill/names/model`, `core/names/model`,
 * `grill/io/model.py` and `core/io/model.py` as schemas: their fields in
 * `_get_pattern_list` order with each field's pattern, their suffix and
 * their `path` components.  Both engines declare the same patterns.
 */
module NameClasses {
  import opened Chars
  import opened Wrappers
  import opened NameSchema

  /** `[a-zA-Z0-9]+` under `key`. */
  function Alnums(key: string): Field {
    Field(key, Alnum, 0, [])
  }

  /** Name: the single field `base`. */
  const NameShape := Schema([Alnums("base")], NoTail, [], map[])

  /** Pipe: `base` followed by the pipe. */
  const PipeShape := Schema([Alnums("base")], PipeTail, [], map[])

  /** File: `base`, the pipe, then `.extension`; no directories. */
  const FileShape := Schema([Alnums("base")], FileTail, [], map[])

  /** Project: `project` and `workarea` replace `base`. */
  const ProjectShape := Schema([Alnums("project"), Alnums("workarea")], FileTail, ["project", "workarea"], map[])

  /** Environment's `project`: a three-letter environment followed by a code. */
  const EnvironmentProject := Field("project", LowerAlnum, 0, [Part("environment", Lower, 3), Part("code", LowerAlnum, 0)])

  const EnvironmentShape :=
    Schema([EnvironmentProject, Alnums("workarea")], FileTail, ["code", "environment", "workarea"], map[])

  const AudiovisualShape :=
    Schema(EnvironmentShape.fields + [Alnums("alias"), Field("stage", LowerAlnum, 0, [])], FileTail,
           EnvironmentShape.dirs + ["alias", "stage"], map[])

  /** Film's `workarea`: kind (one letter), group (three characters) and area. */
  const FilmWorkarea :=
    Field("workarea", LowerAlnum, 0, [Part("kind", Lower, 1), Part("group", LowerAlnum, 3), Part("area", LowerAlnum, 0)])

  /** The `productionenv` property of a Film. */
  const ProductionEnv := "pro"

  const FilmFields: seq<Field> :=
    [EnvironmentProject, FilmWorkarea, Alnums("alias"), Field("stage", LowerAlnum, 0, []),
     Alnums("variant"), Alnums("partition"), Alnums("layer")]

  const FilmShape :=
    Schema(FilmFields, FileTail, FilmDirs(AudiovisualShape.dirs), map["productionenv" := ProductionEnv])

  /** `xs.index(x)`. */
  function IndexOf(xs: seq<string>, x: string): (i: nat)
    requires x in xs
    ensures i < |xs| && xs[i] == x && x !in xs[..i]
  {
    if xs[0] == x then 0 else 1 + IndexOf(xs[1..], x)
  }

  /** `xs.remove(x)`: drops the first occurrence. */
  function Remove(xs: seq<string>, x: string): (r: seq<string>)
    requires x in xs
    ensures r == xs[..IndexOf(xs, x)] + xs[IndexOf(xs, x) + 1..]
  {
    var i := IndexOf(xs, x);
    xs[..i] + xs[i + 1..]
  }

  /**
   * Film's `_get_path_pattern_list`: `productionenv`, `kind`, `group`,
   * `alias` and `area` take the place of `workarea`, `alias` leaves its
   * old position, and `variant` goes last.
   */
  function FilmDirs(parent: seq<string>): seq<string>
    requires "workarea" in parent && "alias" in parent
    requires IndexOf(parent, "workarea") < IndexOf(parent, "alias")
  {
    var wa := IndexOf(parent, "workarea");
    var rest := Remove(parent, "alias");
    rest[..wa] + ["productionenv", "kind", "group", "alias", "area"] + rest[wa + 1..] + ["variant"]
  }

  /** `_get_path_pattern_list` of a Film: code, environment, pro, kind, group, alias, area, stage, variant. */
  lemma FilmDirsOrder()
    ensures FilmShape.dirs == ["code", "environment", "productionenv", "kind", "group", "alias", "area", "stage", "variant"]
  {
    AudiovisualDirsSpelt();
    FilmDirsOfAudiovisual();
  }

  lemma AudiovisualDirsSpelt()
    ensures AudiovisualShape.dirs == ["code", "environment", "workarea", "alias", "stage"]
  {
  }

  /** `workarea` is expanded in place, `alias` moved into it and `variant` appended. */
  lemma FilmDirsOfAudiovisual()
    ensures FilmDirs(["code", "environment", "workarea", "alias", "stage"])
         == ["code", "environment", "productionenv", "kind", "group", "alias", "area", "stage", "variant"]
  {
    var p := ["code", "environment", "workarea", "alias", "stage"];
    assert IndexOf(p, "workarea") == 2;
    assert IndexOf(p, "alias") == 3;
    assert Remove(p, "alias") == ["code", "environment", "workarea", "stage"];
  }

  /**
   * EasyName: one extra field per configuration entry (key, class, width),
   * after `base`, in configuration order.
   */
  function EasyShape(config: seq<(string, CharClass, nat)>): (s: Schema)
    ensures |s.fields| == 1 + |config|
    ensures s.fields[0] == Alnums("base")
    ensures forall i :: 0 <= i < |config| ==> s.fields[i + 1] == Field(config[i].0, config[i].1, config[i].2, [])
  {
    Schema([Alnums("base")] + seq(|config|, i requires 0 <= i < |config| => Field(config[i].0, config[i].1, config[i].2, [])),
           NoTail, [], map[])
  }

  // ---------------------------------------------------------------------
  // Input/output names

  /** IOFile: a File whose only directory is the user's grill directory. */
  function IOFileShape(userGrill: string): Schema {
    Schema([Alnums("base")], FileTail, ["dirname"], map["dirname" := userGrill])
  }

  const DateField := Field("date", Digit, 0, [])
  const TimeField := Field("time", Digit, 0, [])

  /** DateFile: `date` and `time` digit runs replace `base`. */
  function DateFileShape(userGrill: string): Schema {
    Schema([DateField, TimeField], FileTail, ["dirname"], map["dirname" := userGrill])
  }

  /** LogFile: `loggername` (letters, digits, dots) before date and time; logs go under `log`. */
  function LogFileShape(userGrill: string): Schema {
    Schema([Field("loggername", AlnumDot, 0, []), DateField, TimeField], FileTail,
           ["dirname", "logdir"], map["dirname" := userGrill, "logdir" := "log"])
  }

  // ---------------------------------------------------------------------
  // Every class above has a well-formed pattern

  /** Every directory resolves to a group or to a property of the class. */
  predicate DirsOk(s: Schema) {
    forall i :: 0 <= i < |s.dirs| ==> s.dirs[i] in GroupKeys(s) || s.dirs[i] in s.props
  }

  /**
   * The obligations of `SchemaOk` for a schema whose field groups are the
   * literal `keys`, each discharged on its own.
   */
  lemma SchemaOkOf(s: Schema, keys: seq<string>)
    requires |s.fields| > 0 && FieldKeys(s.fields) == keys
    requires Distinct(keys + TailKeys(s.tail))
    requires forall k :: k in keys ==> k !in TailKeys(FileTail)
    requires forall i :: 0 <= i < |s.fields| ==> CompositeOk(s.fields[i])
    requires s.tail != NoTail ==> !In('.', s.fields[|s.fields| - 1].cls)
    ensures SchemaOk(s)
  {
  }

  lemma NameShapesOk()
    ensures SchemaOk(NameShape) && SchemaOk(PipeShape) && SchemaOk(FileShape)
  {
    assert GroupKeys(NameShape) == ["base"];
    assert GroupKeys(PipeShape) == ["base", "pipe", "version", "output", "frame"];
    assert GroupKeys(FileShape) == ["base", "pipe", "version", "output", "frame", "extension"];
  }

  const ProjectKeys: seq<string> := ["project", "workarea"]

  /** `project` and `workarea` are distinct and not named like a suffix group. */
  lemma ProjectKeysOk()
    ensures FieldKeys(ProjectShape.fields) == ProjectKeys
    ensures Distinct(ProjectKeys + TailKeys(FileTail))
    ensures forall k :: k in ProjectKeys ==> k !in TailKeys(FileTail)
  {
    assert FieldKeys(ProjectShape.fields[1..]) == ["workarea"];
  }

  lemma ProjectShapeOk()
    ensures SchemaOk(ProjectShape) && DirsOk(ProjectShape)
  {
    ProjectKeysOk();
    SchemaOkOf(ProjectShape, ProjectKeys);
    assert GroupKeys(ProjectShape)[..2] == ProjectKeys;
  }

  lemma EnvironmentShapeOk()
    ensures SchemaOk(EnvironmentShape) && DirsOk(EnvironmentShape)
  {
    assert PartKeys(EnvironmentProject.parts) == ["environment", "code"];
    assert FieldKeys(EnvironmentShape.fields[1..]) == ["workarea"];
    assert GroupKeys(EnvironmentShape)
        == ["project", "environment", "code", "workarea", "pipe", "version", "output", "frame", "extension"];
    assert SubClass(Lower, LowerAlnum);
  }

  const AudiovisualKeys: seq<string> := ["project", "environment", "code", "workarea", "alias", "stage"]

  /** The groups of the Audiovisual fields, in pattern order. */
  lemma AudiovisualFieldKeys()
    ensures FieldKeys(AudiovisualShape.fields) == AudiovisualKeys
  {
    var fs := AudiovisualShape.fields;
    FieldKeysSimple(fs[1..]);
    FieldKeysFrom(fs, 0, FieldKeys(fs[1..]));
    assert fs[0..] == fs;
    assert PartKeys(EnvironmentProject.parts) == ["environment", "code"];
  }

  lemma AudiovisualKeysOk()
    ensures Distinct(AudiovisualKeys + TailKeys(FileTail))
    ensures forall k :: k in AudiovisualKeys ==> k !in TailKeys(FileTail)
  {
  }

  /** Every Audiovisual directory is one of its groups. */
  lemma AudiovisualDirs()
    ensures forall i :: 0 <= i < |AudiovisualShape.dirs| ==> AudiovisualShape.dirs[i] in AudiovisualKeys
  {
    assert AudiovisualShape.dirs == ["code", "environment", "workarea", "alias", "stage"];
  }

  lemma AudiovisualShapeOk()
    ensures SchemaOk(AudiovisualShape) && DirsOk(AudiovisualShape)
  {
    var s := AudiovisualShape;
    AudiovisualFieldKeys();
    AudiovisualKeysOk();
    assert SubClass(Lower, LowerAlnum);
    SchemaOkOf(s, AudiovisualKeys);
    AudiovisualDirs();
  }

  const FilmFieldKeys: seq<string> :=
    ["project", "environment", "code", "workarea", "kind", "group", "area", "alias", "stage",
     "variant", "partition", "layer"]

  const FilmGroups: seq<string> :=
    ["project", "environment", "code", "workarea", "kind", "group", "area", "alias", "stage",
     "variant", "partition", "layer", "pipe", "version", "output", "frame", "extension"]

  /** The Film groups: its twelve field groups, then the suffix groups of a file. */
  lemma FilmKeys()
    ensures FieldKeys(FilmFields) == FilmFieldKeys
    ensures FilmFieldKeys + TailKeys(FileTail) == FilmGroups
    ensures FilmGroups[..12] == FilmFieldKeys
  {
    var fs := FilmFields;
    FieldKeysAppend(fs[..2], fs[2..]);
    assert fs[..2] + fs[2..] == fs;
    FilmHeadKeys();
    FilmTailKeys();
    FilmGroupsSplit();
  }

  /** The groups of the composite `project` and `workarea`. */
  lemma FilmHeadKeys()
    ensures FieldKeys(FilmFields[..2]) == ["project", "environment", "code", "workarea", "kind", "group", "area"]
  {
    var fs := FilmFields[..2];
    assert fs[2..] == [];
    FieldKeysFrom(fs, 1, []);
    FieldKeysFrom(fs, 0, FieldKeys(fs[1..]));
    assert fs[0..] == fs;
    assert PartKeys(EnvironmentProject.parts) == ["environment", "code"];
    assert PartKeys(FilmWorkarea.parts) == ["kind", "group", "area"];
  }

  /** The groups of the simple Film fields after `workarea`. */
  lemma FilmTailKeys()
    ensures FieldKeys(FilmFields[2..]) == ["alias", "stage", "variant", "partition", "layer"]
  {
    FieldKeysSimple(FilmFields[2..]);
  }

  lemma FilmGroupsSplit()
    ensures FilmFieldKeys == ["project", "environment", "code", "workarea", "kind", "group", "area"]
      + ["alias", "stage", "variant", "partition", "layer"]
    ensures FilmGroups == FilmFieldKeys + TailKeys(FileTail)
    ensures FilmGroups[..12] == FilmFieldKeys
  {
  }

  lemma FilmGroupsDistinct()
    ensures Distinct(FilmGroups)
  {
  }

  /** No Film field is named like a suffix group. */
  lemma FilmFieldNamesFree()
    ensures forall k :: k in FilmFieldKeys ==> k !in TailKeys(FileTail)
  {
  }

  /** Fixed-width parts first, inside the field's class, in both composite Film fields. */
  lemma FilmComposites()
    ensures forall i :: 0 <= i < |FilmShape.fields| ==> CompositeOk(FilmShape.fields[i])
  {
    assert SubClass(Lower, LowerAlnum);
  }

  /** Every Film directory is one of its groups or its `productionenv` property. */
  lemma FilmDirsOk()
    ensures DirsOk(FilmShape)
  {
    FilmDirsOrder();
    FilmKeys();
    assert GroupKeys(FilmShape) == FilmGroups;
  }

  lemma FilmShapeOk()
    ensures SchemaOk(FilmShape) && DirsOk(FilmShape)
  {
    FilmKeys();
    FilmGroupsDistinct();
    FilmFieldNamesFree();
    FilmComposites();
    SchemaOkOf(FilmShape, FilmFieldKeys);
    FilmDirsOk();
  }

  const DateKeys: seq<string> := ["date", "time"]
  const LogKeys: seq<string> := ["loggername", "date", "time"]

  /** The field groups of the three input/output file classes. */
  lemma IOKeys(userGrill: string)
    ensures FieldKeys(IOFileShape(userGrill).fields) == ["base"]
    ensures FieldKeys(DateFileShape(userGrill).fields) == DateKeys
    ensures FieldKeys(LogFileShape(userGrill).fields) == LogKeys
  {
    assert FieldKeys([TimeField]) == ["time"];
    assert FieldKeys([DateField, TimeField]) == DateKeys;
    assert LogFileShape(userGrill).fields[1..] == [DateField, TimeField];
  }

  lemma IOKeysOk()
    ensures Distinct(["base"] + TailKeys(FileTail)) && Distinct(DateKeys + TailKeys(FileTail))
    ensures Distinct(LogKeys + TailKeys(FileTail))
    ensures forall k :: k in LogKeys ==> k !in TailKeys(FileTail)
    ensures DateKeys + TailKeys(FileTail) == ["date", "time", "pipe", "version", "output", "frame", "extension"]
    ensures LogKeys + TailKeys(FileTail) == ["loggername", "date", "time", "pipe", "version", "output", "frame", "extension"]
  {
  }

  lemma IOShapesOk(userGrill: string)
    ensures SchemaOk(IOFileShape(userGrill)) && DirsOk(IOFileShape(userGrill))
    ensures SchemaOk(DateFileShape(userGrill)) && DirsOk(DateFileShape(userGrill))
    ensures SchemaOk(LogFileShape(userGrill)) && DirsOk(LogFileShape(userGrill))
    ensures GroupKeys(DateFileShape(userGrill)) == ["date", "time", "pipe", "version", "output", "frame", "extension"]
    ensures GroupKeys(LogFileShape(userGrill)) == ["loggername", "date", "time", "pipe", "version", "output", "frame", "extension"]
  {
    IOKeys(userGrill);
    IOKeysOk();
    SchemaOkOf(IOFileShape(userGrill), ["base"]);
    SchemaOkOf(DateFileShape(userGrill), DateKeys);
    SchemaOkOf(LogFileShape(userGrill), LogKeys);
  }

  /** The groups of an EasyName: `base`, then the configured keys. */
  function EasyKeys(config: seq<(string, CharClass, nat)>): (r: seq<string>)
    ensures |r| == |config| + 1 && r[0] == "base"
    ensures forall i :: 0 <= i < |config| ==> r[i + 1] == config[i].0
  {
    ["base"] + seq(|config|, i requires 0 <= i < |config| => config[i].0)
  }

  /**
   * EasyName configurations Python accepts, restricted to keys without '_'
   * and not named like a suffix group.
   */
  predicate EasyConfigOk(config: seq<(string, CharClass, nat)>) {
    && Distinct(EasyKeys(config))
    && (forall i :: 0 <= i < |config| ==> '_' !in config[i].0 && config[i].0 !in TailKeys(FileTail))
  }

  lemma EasyFieldKeys(config: seq<(string, CharClass, nat)>)
    ensures FieldKeys(EasyShape(config).fields) == EasyKeys(config)
  {
    FieldKeysSimple(EasyShape(config).fields);
  }

  lemma EasyKeysFree(config: seq<(string, CharClass, nat)>)
    requires forall i :: 0 <= i < |config| ==> config[i].0 !in TailKeys(FileTail)
    ensures forall k :: k in EasyKeys(config) ==> k !in TailKeys(FileTail)
  {
    var keys := EasyKeys(config);
    forall k | k in keys
      ensures k !in TailKeys(FileTail)
    {
      var i :| 0 <= i < |keys| && keys[i] == k;
      if i == 0 {
        assert "base" !in TailKeys(FileTail);
      } else {
        assert k == config[i - 1].0;
      }
    }
  }

  lemma EasyShapeOk(config: seq<(string, CharClass, nat)>)
    requires EasyConfigOk(config)
    ensures SchemaOk(EasyShape(config))
  {
    var s := EasyShape(config);
    EasyFieldKeys(config);
    EasyKeysFree(config);
    assert EasyKeys(config) + TailKeys(s.tail) == EasyKeys(config);
    SchemaOkOf(s, EasyKeys(config));
  }

  /** The keys of fields without parts are just their names. */
  lemma {:induction false} FieldKeysSimple(fs: seq<Field>)
    requires forall i :: 0 <= i < |fs| ==> fs[i].parts == []
    ensures FieldKeys(fs) == seq(|fs|, i requires 0 <= i < |fs| => fs[i].key)
    decreases |fs|
  {
    if |fs| > 0 {
      FieldKeysSimple(fs[1..]);
    }
  }
}
