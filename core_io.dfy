/**
 * The camelCase IOFile, DateFile and LogFile of `core/io/model.py`: the
 * same classes as the grill ones, built on the older engine's name
 * objects (`CoreName`), whose values are matched again from the name.
 *
 * Both constructors and `setFilter` pass a `pipe` override, which takes
 * precedence over version, output and frame in both engines, and always
 * a truthy extension, so the older engine renders the same texts as the
 * grill engine (`CorePipedAgrees`).
 */
module CoreIO {
  import opened Chars
  import opened Wrappers
  import opened NameSchema
  import opened NameParse
  import opened NameClasses
  import opened GrillNames
  import opened GrillRenaming
  import opened GrillExamples
  import opened CoreNames
  import opened IONames

  /**
   * With a pipe override and a truthy extension (or none) `getName`
   * renders what the grill engine's `get_name` renders, whatever the frame.
   */
  lemma CorePipedAgrees(s: Schema, sep: string, name: string, stored: Values, ov: Values)
    requires SchemaOk(s) && StoredOk(s, stored)
    requires "pipe" in ov && ("extension" in ov ==> Truthy(ov["extension"]))
    ensures CoreGetName(s, sep, name, stored, ov) == GetName(s, sep, name, stored, ov)
  {
    var ov2 := Derive(s.fields, stored, ov);
    DeriveTailKeys(s, stored, ov);
    if s.tail != NoTail {
      assert "pipe" in TailKeys(s.tail);
      assert CorePipeSuffix(name, stored, ov2) == PipeSuffix(name, stored, ov2);
    }
    if s.tail == FileTail {
      assert "extension" in TailKeys(s.tail);
      assert CoreExtensionText(stored, ov2) == ExtensionText(stored, ov2);
    }
  }

  // ---------------------------------------------------------------------
  // setFilter

  /**
   * `setFilter(f)`: the name `getName(pipe='_' + f)` is set.  On a named
   * File whose separator is still the compiled one, an alphanumeric filter
   * makes the output `f` and keeps the fields and the extension.
   */
  method CoreSetFilter(n: CoreName, f: string) returns (err: Option<NameFailure>)
    requires n.Valid()
    modifies n
    ensures n.Valid() && n.separator == old(n.separator)
    ensures err.Some? ==> err.value.NameError? && n.name == old(n.name)
    ensures old(n.name) != "" && n.shape.tail == FileTail && Run(f, Alnum) && n.separator == n.compiled ==>
      var m := Parse(n.shape, n.compiled, old(n.name)).value;
      && err == None
      && n.name == Text(n.compiled, Filtered(m, f))
      && n.Values() == Some(GroupDict(n.shape, Filtered(m, f)))
      && "output" in n.Values().value && n.Values().value["output"] == Some(f)
  {
    var ov := FilterOverrides(f);
    var stored := n.Stored();
    DeriveTailKeys(n.shape, stored, ov);
    assert n.shape.tail != NoTail ==> "pipe" in TailKeys(n.shape.tail);
    var t := n.GetName(ov);
    if n.name != "" && n.shape.tail == FileTail && Run(f, Alnum) && n.separator == n.compiled {
      var m := Parse(n.shape, n.compiled, n.name).value;
      CorePipedAgrees(n.shape, n.separator, n.name, stored, ov);
      FilterRenders(n.shape, n.separator, m, f);
      FilterParses(n.shape, n.separator, m, f);
    }
    err := n.SetName(t.value);
  }

  // ---------------------------------------------------------------------
  // DateFile

  /** The text DateFile's constructor sets: `getName` of an object without a name, with the constructor's keywords. */
  function CoreDateFileText(s: Schema, date: string, time: string, kwargs: Values): Result<string, NameFailure> {
    match DateOverrides(date, time, kwargs)
    case Err(e) => Err(e)
    case Ok(ov) => CoreGetName(s, "_", "", map[], ov)
  }

  /** DateFile's text is the same in both engines, for every date, time and keyword. */
  lemma CoreDateFileAgrees(s: Schema, date: string, time: string, kwargs: Values)
    requires SchemaOk(s)
    ensures CoreDateFileText(s, date, time, kwargs) == DateFileText(s, date, time, kwargs)
  {
    if DateOverrides(date, time, kwargs).Ok? {
      var ov := DateOverrides(date, time, kwargs).value;
      CorePipedAgrees(s, "_", "", map[], ov);
    }
  }

  /**
   * DateFile(*args, **kwargs): an object of class `s` without a name on
   * which `getName(date=…, time=…, pipe='_data', extension='txt',
   * **kwargs)` is set.
   */
  method CoreNewDateFile(s: Schema, date: string, time: string, kwargs: Values) returns (r: Result<CoreName, NameFailure>)
    requires SchemaOk(s) && SepOk(s, "_")
    ensures CoreDateFileText(s, date, time, kwargs).Err? ==> r == Err(CoreDateFileText(s, date, time, kwargs).error)
    ensures CoreDateFileText(s, date, time, kwargs).Ok? ==>
      var t := CoreDateFileText(s, date, time, kwargs).value;
      && (r.Ok? <==> Parse(s, "_", t).Some?)
      && (r.Err? ==> r.error == NameError(t))
      && (r.Ok? ==> r.value.name == t)
    ensures r.Ok? ==> fresh(r.value) && r.value.Valid() && r.value.shape == s
    ensures r.Ok? ==> r.value.compiled == "_" && r.value.separator == "_"
  {
    var n := new CoreName(s, "_");
    var ov := DateOverrides(date, time, kwargs);
    if ov.Err? {
      return Err(ov.error);
    }
    var t := n.GetName(ov.value);
    if t.Err? {
      return Err(t.error);
    }
    var err := n.SetName(t.value);
    if err.Some? {
      return Err(err.value);
    }
    return Ok(n);
  }

  // ---------------------------------------------------------------------
  // LogFile

  /**
   * LogFile(loggername, **kwargs): a DateFile of the LogFile class with
   * the logger name among its keywords, then `setFilter('stdout')`; the
   * same texts as the grill LogFile.
   */
  method CoreNewLogFile(userGrill: string, loggername: string, date: string, time: string, kwargs: Values)
    returns (r: Result<CoreName, NameFailure>)
    ensures r.Ok? ==> fresh(r.value) && r.value.Valid() && r.value.shape == LogFileShape(userGrill)
    ensures r.Ok? ==> r.value.compiled == "_" && r.value.separator == "_"
    ensures DateOverrides(date, time, kwargs).Err? ==> r == Err(DateOverrides(date, time, kwargs).error)
    ensures DateOverrides(date, time, kwargs).Ok? && Run(loggername, AlnumDot) && Run(date, Digit) && Run(time, Digit) ==>
      && r.Ok?
      && r.value.name == Text("_", Filtered(LogMatch(loggername, date, time), "stdout"))
      && r.value.Values() == Some(GroupDict(LogFileShape(userGrill), Filtered(LogMatch(loggername, date, time), "stdout")))
    ensures DateOverrides(date, time, kwargs).Ok? && !NameChars(loggername, "_") ==>
      r == Err(NameError(Text("_", LogMatch(loggername, date, time))))
    ensures r.Ok? ==> r.value.Values().Some? && "output" in r.value.Values().value && r.value.Values().value["output"] == Some("stdout")
  {
    var s := LogFileShape(userGrill);
    LogFileFacts(userGrill, loggername, date, time, kwargs);
    LogFileParse(userGrill, loggername, date, time);
    IOShapesOk(userGrill);
    CoreDateFileAgrees(s, date, time, LogKeywords(loggername, kwargs));
    assert Run("stdout", Alnum);
    r := CoreNewFilteredDateFile(s, date, time, LogKeywords(loggername, kwargs), "stdout");
  }

  /** A DateFile of class `s` followed by `setFilter(f)`, as LogFile's constructor does. */
  method CoreNewFilteredDateFile(s: Schema, date: string, time: string, kwargs: Values, f: string)
    returns (r: Result<CoreName, NameFailure>)
    requires SchemaOk(s) && SepOk(s, "_") && s.tail == FileTail && Run(f, Alnum)
    ensures r.Ok? ==> fresh(r.value) && r.value.Valid() && r.value.shape == s
    ensures r.Ok? ==> r.value.compiled == "_" && r.value.separator == "_"
    ensures DateFileText(s, date, time, kwargs).Err? ==> r == Err(DateFileText(s, date, time, kwargs).error)
    ensures DateFileText(s, date, time, kwargs).Ok? ==>
      var t := DateFileText(s, date, time, kwargs).value;
      && (Parse(s, "_", t).None? ==> r == Err(NameError(t)))
      && (Parse(s, "_", t).Some? ==>
            && r.Ok?
            && r.value.name == Text("_", Filtered(Parse(s, "_", t).value, f))
            && r.value.Values() == Some(GroupDict(s, Filtered(Parse(s, "_", t).value, f))))
    ensures r.Ok? ==> r.value.Values().Some? && "output" in r.value.Values().value && r.value.Values().value["output"] == Some(f)
  {
    CoreDateFileAgrees(s, date, time, kwargs);
    var d := CoreNewDateFile(s, date, time, kwargs);
    if d.Err? {
      return d;
    }
    var n := d.value;
    var err := CoreSetFilter(n, f);
    // The filtered name of a valid File is valid, so setFilter raises nothing here.
    assert err == None;
    return Ok(n);
  }
}
