/**
 * The input/output names: IOFile, a File kept under the user's grill
 * directory; DateFile, whose fields are the date and the time it was
 * created and whose pipe is `_data` with extension `txt`; and LogFile, a
 * DateFile led by a logger name, kept under `log`, whose constructor
 * finishes with `set_filter('stdout')`.
 *
 * The constructors and `set_filter` work on a name object in place: they
 * render a name with `get_name(**keywords)` and store it with
 * `set_name`.  The clock is not modelled: the date and the time are
 * parameters, and so is the user's grill directory.
 */
module IONames {
  import opened Chars
  import opened Wrappers
  import opened NameSchema
  import opened NameParse
  import opened NameClasses
  import opened GrillNames
  import opened GrillRenaming
  import opened GrillObject
  import opened GrillClasses
  import opened CoreNames
  import opened GrillExamples

  // ---------------------------------------------------------------------
  // The keywords the constructors and set_filter pass to get_name

  /**
   * The keywords DateFile's constructor passes to `get_name`: the caller's
   * keywords together with the date, the time, pipe `_data` and extension
   * `txt`.  A caller's keyword repeating one of those four is a TypeError.
   */
  function DateOverrides(date: string, time: string, kwargs: Values): (r: Result<Values, NameFailure>)
    ensures r.Err? <==> "date" in kwargs || "time" in kwargs || "pipe" in kwargs || "extension" in kwargs
    ensures r.Err? ==> r.error.KeywordClash? && r.error.keyword in kwargs
    ensures r.Ok? ==> r.value.Keys == kwargs.Keys + {"date", "time", "pipe", "extension"}
    ensures r.Ok? ==> forall k :: k in kwargs ==> r.value[k] == kwargs[k]
  {
    if "date" in kwargs then Err(KeywordClash("date"))
    else if "time" in kwargs then Err(KeywordClash("time"))
    else if "pipe" in kwargs then Err(KeywordClash("pipe"))
    else if "extension" in kwargs then Err(KeywordClash("extension"))
    else Ok(kwargs + map["date" := Some(date), "time" := Some(time), "pipe" := Some("_data"), "extension" := Some("txt")])
  }

  /** The keywords of `set_filter(f)`: the pipe `_f`. */
  function FilterOverrides(f: string): Values {
    map["pipe" := Some("_" + f)]
  }

  /** The suffix every DateFile is created with. */
  const DataTail := Filed(Output("data", None), "txt")

  /** The match of a File name after `set_filter(f)`: its fields and extension, with the pipe `_f`. */
  function Filtered(m: Match, f: string): Match
    requires m.tail.Filed?
  {
    Match(m.values, Filed(Output(f, None), m.tail.extension))
  }

  // ---------------------------------------------------------------------
  // set_filter

  /** Overrides naming only suffix groups leave every field of a name as it is. */
  lemma SuffixOnlyKeepsFields(s: Schema, m: Match, ov: Values)
    requires SchemaOk(s) && MatchOk(s, m)
    requires forall k :: k in ov ==> k in TailKeys(s.tail)
    ensures Renamed(s, m, ov).values == m.values
  {
    DistinctSplit(FieldKeys(s.fields), TailKeys(s.tail));
    forall i | 0 <= i < |s.fields|
      ensures RenamedValue(s.fields[i], m.values[i], ov) == m.values[i]
    {
      var f := s.fields[i];
      FieldKeysHold(s.fields, i);
      if f.parts != [] {
        ShapedParts(f);
        PiecesOfParts(f.parts, m.values[i]);
        assert RenamedPieces(f, m.values[i], ov) == Pieces(f.parts, m.values[i]);
      }
    }
  }

  /**
   * `get_name(pipe='_' + f)` on a File name keeps the fields and the
   * extension and replaces the pipe with `_f`, whatever the pipe was.
   */
  lemma FilterRenders(s: Schema, sep: string, m: Match, f: string)
    requires SchemaOk(s) && MatchOk(s, m) && s.tail == FileTail
    ensures StoredOk(s, GroupDict(s, m))
    ensures GetName(s, sep, Text(sep, m), GroupDict(s, m), FilterOverrides(f)) == Ok(Text(sep, Filtered(m, f)))
  {
    GroupDictKeys(s, m);
    FilterFields(s, m, f);
    FilterSuffix(s, sep, m, f);
    var e := m.tail.extension;
    FilterJoin(s, sep, Text(sep, m), GroupDict(s, m), f, m.values, e);
    FilteredText(sep, m, f);
  }

  lemma FilteredText(sep: string, m: Match, f: string)
    requires m.tail.Filed?
    ensures Text(sep, Filtered(m, f)) == Join(sep, m.values) + "_" + f + "." + m.tail.extension
  {
    var e := m.tail.extension;
    assert TailText(Filtered(m, f).tail) == "_" + f + "." + e;
    assert Join(sep, m.values) + ("_" + f + "." + e) == Join(sep, m.values) + "_" + f + "." + e;
  }

  /** `get_name(pipe='_' + f)` is the rendered fields, `_f`, a dot and the extension. */
  lemma FilterJoin(s: Schema, sep: string, name: string, stored: Values, f: string, xs: seq<string>, e: string)
    requires s.tail == FileTail && StoredOk(s, stored)
    requires forall i :: 0 <= i < |s.fields| ==> s.fields[i].key in stored
    requires Translate(FieldNames(s.fields), stored, s.props, Derive(s.fields, stored, FilterOverrides(f))) == xs
    requires PipeSuffix(name, stored, Derive(s.fields, stored, FilterOverrides(f))) == Ok("_" + f)
    requires ExtensionText(stored, Derive(s.fields, stored, FilterOverrides(f))) == e
    ensures GetName(s, sep, name, stored, FilterOverrides(f)) == Ok(Join(sep, xs) + "_" + f + "." + e)
  {
    var ov := FilterOverrides(f);
    assert "pipe" in ov;
    GetNameRenders(s, sep, name, stored, ov, Join(sep, xs), "_" + f);
    assert Join(sep, xs) + ("_" + f) == Join(sep, xs) + "_" + f;
  }

  /** The fields `set_filter` renders are the name's own. */
  lemma FilterFields(s: Schema, m: Match, f: string)
    requires SchemaOk(s) && MatchOk(s, m) && s.tail == FileTail
    ensures forall i :: 0 <= i < |s.fields| ==> s.fields[i].key in GroupDict(s, m)
    ensures Translate(FieldNames(s.fields), GroupDict(s, m), s.props, Derive(s.fields, GroupDict(s, m), FilterOverrides(f)))
         == m.values
  {
    var ov := FilterOverrides(f);
    assert "pipe" in ov && "pipe" in TailKeys(s.tail);
    RenderFields(s, m, ov);
    SuffixOnlyKeepsFields(s, m, ov);
  }

  /** The suffix `set_filter` renders is `_f`, then the name's own extension. */
  lemma FilterSuffix(s: Schema, sep: string, m: Match, f: string)
    requires SchemaOk(s) && MatchOk(s, m) && s.tail == FileTail
    ensures PipeSuffix(Text(sep, m), GroupDict(s, m), Derive(s.fields, GroupDict(s, m), FilterOverrides(f))) == Ok("_" + f)
    ensures ExtensionText(GroupDict(s, m), Derive(s.fields, GroupDict(s, m), FilterOverrides(f))) == m.tail.extension
  {
    var ov := FilterOverrides(f);
    var stored := GroupDict(s, m);
    assert "pipe" in TailKeys(s.tail) && "extension" in TailKeys(s.tail);
    DeriveTailKeys(s, stored, ov);
    GroupDictTail(s, m);
  }

  /** With an alphanumeric filter the filtered match is well formed. */
  lemma FilteredOk(s: Schema, m: Match, f: string)
    requires MatchOk(s, m) && s.tail == FileTail && Run(f, Alnum)
    ensures MatchOk(s, Filtered(m, f))
  {
    assert TailOk(s.tail, m.tail);
  }

  /** With an alphanumeric filter the re-rendered name is valid and parses to the filtered match. */
  lemma FilterParses(s: Schema, sep: string, m: Match, f: string)
    requires SchemaOk(s) && SepOk(s, sep) && MatchOk(s, m) && s.tail == FileTail && Run(f, Alnum)
    ensures Parse(s, sep, Text(sep, Filtered(m, f))) == Some(Filtered(m, f))
    ensures "output" in GroupDict(s, Filtered(m, f)) && GroupDict(s, Filtered(m, f))["output"] == Some(f)
    ensures "pipe" in GroupDict(s, Filtered(m, f)) && GroupDict(s, Filtered(m, f))["pipe"] == Some("_" + f)
  {
    FilteredOk(s, m, f);
    ParseComplete(s, sep, Filtered(m, f));
    FilteredGroups(s, Filtered(m, f), f);
  }

  /** The groups of a match whose pipe is `_f` hold `f` as output and `_f` as pipe. */
  lemma FilteredGroups(s: Schema, m: Match, f: string)
    requires SchemaOk(s) && MatchOk(s, m) && s.tail == FileTail && m.tail.pipe == Output(f, None)
    ensures "output" in GroupDict(s, m) && GroupDict(s, m)["output"] == Some(f)
    ensures "pipe" in GroupDict(s, m) && GroupDict(s, m)["pipe"] == Some("_" + f)
  {
    GroupDictTail(s, m);
    assert "pipe" in TailKeys(s.tail) && "output" in TailKeys(s.tail);
    assert PipeText(m.tail.pipe) == "_" + f;
  }

  /**
   * `set_filter(f)`: the name `get_name(pipe='_' + f)` is set.  On a named
   * File with an alphanumeric filter the output becomes `f` and the fields
   * and the extension stay.
   */
  method SetFilter(n: GrillName, f: string) returns (err: Option<NameFailure>)
    requires n.Valid()
    modifies n
    ensures n.Valid() && n.separator == old(n.separator)
    ensures err.Some? ==> err.value.NameError? && n.name == old(n.name) && n.values == old(n.values)
    ensures old(n.matched).Some? && n.shape.tail == FileTail && Run(f, Alnum) ==>
      && err == None
      && n.matched == Some(Filtered(old(n.matched).value, f))
      && n.name == Text(n.separator, Filtered(old(n.matched).value, f))
      && n.values == GroupDict(n.shape, Filtered(old(n.matched).value, f))
      && "output" in n.values && n.values["output"] == Some(f)
  {
    ValidStored(n);
    var ov := FilterOverrides(f);
    DeriveTailKeys(n.shape, n.values, ov);
    assert n.shape.tail != NoTail ==> "pipe" in TailKeys(n.shape.tail);
    var t := GetName(n.shape, n.separator, n.name, n.values, ov);
    if n.matched.Some? && n.shape.tail == FileTail && Run(f, Alnum) {
      FilterRenders(n.shape, n.separator, n.matched.value, f);
      FilterParses(n.shape, n.separator, n.matched.value, f);
    }
    err := n.SetName(t.value);
  }

  // ---------------------------------------------------------------------
  // DateFile

  /** The text DateFile's constructor sets: `get_name` of an object without a name, with the constructor's keywords. */
  function DateFileText(s: Schema, date: string, time: string, kwargs: Values): Result<string, NameFailure> {
    match DateOverrides(date, time, kwargs)
    case Err(e) => Err(e)
    case Ok(ov) => GetName(s, "_", "", map[], ov)
  }

  /**
   * When the caller's keywords and the date and time give every field,
   * DateFile's text is those fields joined, then `_data.txt`.
   */
  lemma DateFileRenders(s: Schema, date: string, time: string, kwargs: Values, xs: seq<string>)
    requires s.tail == FileTail && |xs| == |s.fields|
    requires DateOverrides(date, time, kwargs).Ok?
    requires forall i :: 0 <= i < |s.fields| ==>
      var ov := DateOverrides(date, time, kwargs).value;
      s.fields[i].key in ov && Str(ov[s.fields[i].key]) == xs[i]
    ensures DateFileText(s, date, time, kwargs) == Ok(Text("_", Match(xs, DataTail)))
  {
    var ov := DateOverrides(date, time, kwargs).value;
    FreshFile(s, "_", ov, xs, "_data", "txt");
    assert Text("_", Match(xs, DataTail)) == Join("_", xs) + "_data" + "." + "txt";
  }

  /**
   * DateFile(*args, **kwargs): an object of class `s` without a name on
   * which the text `get_name(date=…, time=…, pipe='_data',
   * extension='txt', **kwargs)` is set.
   */
  method NewDateFile(s: Schema, date: string, time: string, kwargs: Values) returns (r: Result<GrillName, NameFailure>)
    requires SchemaOk(s) && SepOk(s, "_")
    ensures DateFileText(s, date, time, kwargs).Err? ==> r == Err(DateFileText(s, date, time, kwargs).error)
    ensures DateFileText(s, date, time, kwargs).Ok? ==>
      var t := DateFileText(s, date, time, kwargs).value;
      && (r.Ok? <==> Parse(s, "_", t).Some?)
      && (r.Err? ==> r.error == NameError(t))
      && (r.Ok? ==> r.value.name == t && r.value.matched == Parse(s, "_", t)
                    && r.value.values == GroupDict(s, Parse(s, "_", t).value))
    ensures r.Ok? ==> fresh(r.value) && r.value.Valid() && r.value.shape == s && r.value.separator == "_"
  {
    var n := new GrillName(s, "_");
    var ov := DateOverrides(date, time, kwargs);
    if ov.Err? {
      return Err(ov.error);
    }
    var t := GetName(s, "_", "", map[], ov.value);
    if t.Err? {
      return Err(t.error);
    }
    var err := n.SetName(t.value);
    if err.Some? {
      return Err(err.value);
    }
    return Ok(n);
  }

  // ---------------------------------------------------------------------
  // LogFile

  /** The match of a LogFile created for `loggername` at `date` and `time`, before its filter is set. */
  function LogMatch(loggername: string, date: string, time: string): Match {
    Match([loggername, date, time], DataTail)
  }

  /** The caller's keywords DateFile's constructor receives from LogFile's. */
  function LogKeywords(loggername: string, kwargs: Values): Values {
    kwargs["loggername" := Some(loggername)]
  }

  /** LogFile's fields are the logger name, the date and the time, joined by `_`, then `_data.txt`. */
  lemma LogFileText(userGrill: string, loggername: string, date: string, time: string, kwargs: Values)
    requires DateOverrides(date, time, kwargs).Ok?
    ensures DateFileText(LogFileShape(userGrill), date, time, LogKeywords(loggername, kwargs))
         == Ok(Text("_", LogMatch(loggername, date, time)))
  {
    var s := LogFileShape(userGrill);
    var kw := LogKeywords(loggername, kwargs);
    var xs := [loggername, date, time];
    var ov := DateOverrides(date, time, kw).value;
    assert ov["loggername"] == Some(loggername) && ov["date"] == Some(date) && ov["time"] == Some(time);
    assert forall i :: 0 <= i < |s.fields| ==> s.fields[i].key in ov && Str(ov[s.fields[i].key]) == xs[i];
    DateFileRenders(s, date, time, kw, xs);
  }

  /** A logger name, date and time that match their patterns make a valid LogFile match. */
  lemma LogMatchOk(userGrill: string, loggername: string, date: string, time: string)
    requires Run(loggername, AlnumDot) && Run(date, Digit) && Run(time, Digit)
    ensures MatchOk(LogFileShape(userGrill), LogMatch(loggername, date, time))
  {
    assert Run("data", Alnum) && Run("txt", Alnum);
  }

  /** A logger name holding a character no part of a name allows makes the LogFile text invalid. */
  lemma LogNameForeign(userGrill: string, loggername: string, date: string, time: string)
    requires !NameChars(loggername, "_")
    ensures Parse(LogFileShape(userGrill), "_", Text("_", LogMatch(loggername, date, time))) == None
  {
    var t := Text("_", LogMatch(loggername, date, time));
    var j :| 0 <= j < |loggername| && !NameChar(loggername[j], "_");
    assert t == loggername + ("_" + Join("_", [date, time]) + TailText(DataTail));
    assert t[j] == loggername[j];
    ParseRejectsForeign(LogFileShape(userGrill), "_", t, j);
  }

  /** What LogFile's constructor relies on: the text its DateFile step sets and whether that text is valid. */
  lemma LogFileFacts(userGrill: string, loggername: string, date: string, time: string, kwargs: Values)
    ensures SchemaOk(LogFileShape(userGrill)) && SepOk(LogFileShape(userGrill), "_")
    ensures DateOverrides(date, time, kwargs).Err? ==>
      DateFileText(LogFileShape(userGrill), date, time, LogKeywords(loggername, kwargs)) == Err(DateOverrides(date, time, kwargs).error)
    ensures DateOverrides(date, time, kwargs).Ok? ==>
      DateFileText(LogFileShape(userGrill), date, time, LogKeywords(loggername, kwargs)) == Ok(Text("_", LogMatch(loggername, date, time)))
  {
    IOShapesOk(userGrill);
    UnderscoreSepOk(LogFileShape(userGrill));
    if DateOverrides(date, time, kwargs).Ok? {
      LogFileText(userGrill, loggername, date, time, kwargs);
    }
  }

  /** A LogFile text parses back to its parts exactly when every part holds only characters a name allows. */
  lemma LogFileParse(userGrill: string, loggername: string, date: string, time: string)
    ensures Run(loggername, AlnumDot) && Run(date, Digit) && Run(time, Digit) ==>
      Parse(LogFileShape(userGrill), "_", Text("_", LogMatch(loggername, date, time))) == Some(LogMatch(loggername, date, time))
    ensures !NameChars(loggername, "_") ==>
      Parse(LogFileShape(userGrill), "_", Text("_", LogMatch(loggername, date, time))) == None
  {
    var s := LogFileShape(userGrill);
    IOShapesOk(userGrill);
    UnderscoreSepOk(s);
    if Run(loggername, AlnumDot) && Run(date, Digit) && Run(time, Digit) {
      LogMatchOk(userGrill, loggername, date, time);
      ParseComplete(s, "_", LogMatch(loggername, date, time));
    }
    if !NameChars(loggername, "_") {
      LogNameForeign(userGrill, loggername, date, time);
    }
  }

  /**
   * LogFile(loggername, **kwargs): a DateFile of the LogFile class with
   * the logger name among its keywords, then `set_filter('stdout')`.
   * With a valid logger name, date and time the name is the logger name,
   * the date and the time joined by `_`, then `_stdout.txt`; a logger
   * name with a character no name allows raises NameError.
   */
  method NewLogFile(userGrill: string, loggername: string, date: string, time: string, kwargs: Values)
    returns (r: Result<GrillName, NameFailure>)
    ensures DateOverrides(date, time, kwargs).Err? ==> r == Err(DateOverrides(date, time, kwargs).error)
    ensures DateOverrides(date, time, kwargs).Ok? && Run(loggername, AlnumDot) && Run(date, Digit) && Run(time, Digit) ==>
      && r.Ok?
      && r.value.name == Text("_", Filtered(LogMatch(loggername, date, time), "stdout"))
      && r.value.values == GroupDict(LogFileShape(userGrill), Filtered(LogMatch(loggername, date, time), "stdout"))
      && r.value.matched == Some(Filtered(LogMatch(loggername, date, time), "stdout"))
    ensures DateOverrides(date, time, kwargs).Ok? && !NameChars(loggername, "_") ==>
      r == Err(NameError(Text("_", LogMatch(loggername, date, time))))
    ensures r.Ok? ==> fresh(r.value) && r.value.Valid() && r.value.shape == LogFileShape(userGrill) && r.value.separator == "_"
    ensures r.Ok? ==> "output" in r.value.values && r.value.values["output"] == Some("stdout")
  {
    LogFileFacts(userGrill, loggername, date, time, kwargs);
    LogFileParse(userGrill, loggername, date, time);
    assert Run("stdout", Alnum);
    r := NewFilteredDateFile(LogFileShape(userGrill), date, time, LogKeywords(loggername, kwargs), "stdout");
  }

  /** A DateFile of class `s` followed by `set_filter(f)`, as LogFile's constructor does. */
  method NewFilteredDateFile(s: Schema, date: string, time: string, kwargs: Values, f: string)
    returns (r: Result<GrillName, NameFailure>)
    requires SchemaOk(s) && SepOk(s, "_") && s.tail == FileTail && Run(f, Alnum)
    ensures DateFileText(s, date, time, kwargs).Err? ==> r == Err(DateFileText(s, date, time, kwargs).error)
    ensures DateFileText(s, date, time, kwargs).Ok? ==>
      var t := DateFileText(s, date, time, kwargs).value;
      && (Parse(s, "_", t).None? ==> r == Err(NameError(t)))
      && (Parse(s, "_", t).Some? ==>
            && r.Ok?
            && r.value.name == Text("_", Filtered(Parse(s, "_", t).value, f))
            && r.value.values == GroupDict(s, Filtered(Parse(s, "_", t).value, f))
            && r.value.matched == Some(Filtered(Parse(s, "_", t).value, f)))
    ensures r.Ok? ==> fresh(r.value) && r.value.Valid() && r.value.shape == s && r.value.separator == "_"
    ensures r.Ok? ==> "output" in r.value.values && r.value.values["output"] == Some(f)
  {
    var d := NewDateFile(s, date, time, kwargs);
    if d.Err? {
      return d;
    }
    var n := d.value;
    var err := SetFilter(n, f);
    // The filtered name of a valid File is valid, so set_filter raises nothing here.
    assert err == None;
    return Ok(n);
  }

  // ---------------------------------------------------------------------
  // Paths

  /** The text of a File match is never empty: it holds at least the dot before the extension. */
  lemma FileTextNotEmpty(sep: string, m: Match)
    requires m.tail.Filed?
    ensures Text(sep, m) != ""
  {
    assert TailText(m.tail)[|PipeText(m.tail.pipe)|] == '.';
  }

  /** The directories of class `s` are class properties, not groups, with the values `xs`. */
  predicate PropDirs(s: Schema, xs: seq<string>) {
    && |xs| == |s.dirs|
    && forall i :: 0 <= i < |s.dirs| ==> s.dirs[i] in s.props && s.dirs[i] !in GroupKeys(s) && s.props[s.dirs[i]] == xs[i]
  }

  /** IOFile and DateFile have the user's grill directory as their one directory; LogFile adds `log`. */
  lemma IODirs(userGrill: string)
    ensures PropDirs(IOFileShape(userGrill), [userGrill])
    ensures PropDirs(DateFileShape(userGrill), [userGrill])
    ensures PropDirs(LogFileShape(userGrill), [userGrill, "log"])
  {
    IOShapesOk(userGrill);
    IOGroupKeys(userGrill);
    LogDirs(userGrill);
  }

  lemma IOGroupKeys(userGrill: string)
    ensures GroupKeys(IOFileShape(userGrill)) == ["base", "pipe", "version", "output", "frame", "extension"]
    ensures GroupKeys(DateFileShape(userGrill)) == ["date", "time", "pipe", "version", "output", "frame", "extension"]
  {
    var io := IOFileShape(userGrill);
    assert FieldKeys(io.fields[1..]) == [];
    assert FieldKeys(io.fields) == ["base"];
    var d := DateFileShape(userGrill);
    assert FieldKeys(d.fields[2..]) == [];
    assert FieldKeys(d.fields[1..]) == ["time"];
    assert FieldKeys(d.fields) == ["date", "time"];
  }

  lemma LogDirs(userGrill: string)
    ensures PropDirs(LogFileShape(userGrill), [userGrill, "log"])
  {
    var l := LogFileShape(userGrill);
    assert FieldKeys(l.fields[3..]) == [];
    assert FieldKeys(l.fields[2..]) == ["time"];
    assert FieldKeys(l.fields[1..]) == ["date", "time"];
    assert FieldKeys(l.fields) == ["loggername", "date", "time"];
    assert GroupKeys(l) == ["loggername", "date", "time", "pipe", "version", "output", "frame", "extension"];
  }

  /** The path of a named File whose directories are class properties: those directories, then the name. */
  lemma IOPathOfName(s: Schema, sep: string, m: Match, xs: seq<string>)
    requires SchemaOk(s) && MatchOk(s, m) && s.tail == FileTail && PropDirs(s, xs)
    ensures StoredOk(s, GroupDict(s, m)) && DirsResolve(s, GroupDict(s, m))
    ensures Path(s, sep, Text(sep, m), GroupDict(s, m)) == xs + [Text(sep, m)]
  {
    GroupDictKeys(s, m);
    GroupDictNotEmpty(s, m);
    FileTextNotEmpty(sep, m);
    PathOfStored(s, sep, Text(sep, m), GroupDict(s, m), xs);
  }

  /** A named DateFile lives directly under the user's grill directory. */
  lemma DateFilePath(userGrill: string, sep: string, m: Match)
    requires MatchOk(DateFileShape(userGrill), m)
    ensures StoredOk(DateFileShape(userGrill), GroupDict(DateFileShape(userGrill), m))
    ensures DirsResolve(DateFileShape(userGrill), GroupDict(DateFileShape(userGrill), m))
    ensures Path(DateFileShape(userGrill), sep, Text(sep, m), GroupDict(DateFileShape(userGrill), m)) == [userGrill, Text(sep, m)]
  {
    IOShapesOk(userGrill);
    IODirs(userGrill);
    IOPathOfName(DateFileShape(userGrill), sep, m, [userGrill]);
  }

  /** A named LogFile lives in the `log` directory under the user's grill directory. */
  lemma LogFilePath(userGrill: string, sep: string, m: Match)
    requires MatchOk(LogFileShape(userGrill), m)
    ensures StoredOk(LogFileShape(userGrill), GroupDict(LogFileShape(userGrill), m))
    ensures DirsResolve(LogFileShape(userGrill), GroupDict(LogFileShape(userGrill), m))
    ensures Path(LogFileShape(userGrill), sep, Text(sep, m), GroupDict(LogFileShape(userGrill), m)) == [userGrill, "log", Text(sep, m)]
  {
    IOShapesOk(userGrill);
    IODirs(userGrill);
    IOPathOfName(LogFileShape(userGrill), sep, m, [userGrill, "log"]);
  }
}
