/**
 * Grill logging: the level filters and the LogFile configuration of
 * `grill/logger/model.py`, and the logger memoisation of
 * `grill/logger/controller.py` and `core/logger/controller.py`.
 *
 * A logger is created at most once per final name and kept in the
 * module's `_LOGGERS` dictionary (a `LoggerCache` here).  A new logger gets
 * level INFO and two file handlers on the logger's LogFile: one passing
 * the records above INFO, written to the `stderr` file, and one passing
 * the rest, written to the `stdout` file.  The clock that dates the
 * LogFile is a pair of parameters.
 */
module Loggers {
  import opened Chars
  import opened Wrappers
  import opened NameSchema
  import opened NameParse
  import opened NameClasses
  import opened GrillNames
  import opened GrillObject
  import opened CoreNames
  import opened IONames
  import opened CoreIO
  import opened CaseConversion

  // ---------------------------------------------------------------------
  // grill/logger/model.py

  /** `logging.NOTSET` and `logging.INFO`. */
  const NOTSET := 0
  const INFO := 20

  /** `_LOG_FILE_SUFFIX`. */
  const LogFileSuffix := "log"

  /** The two filter classes. */
  datatype LevelFilter = ErrorFilter | OutFilter

  /** `filter(record)`: ErrorFilter passes what is above INFO, OutFilter the rest. */
  function Passes(f: LevelFilter, levelno: int): bool {
    match f
    case ErrorFilter => levelno > INFO
    case OutFilter => levelno <= INFO
  }

  /** A log record; only its level decides where it goes. */
  datatype LogRecord = LogRecord(levelno: int, message: string)

  /** The records a handler with filter `f` writes, in the order they are logged. */
  function Received(f: LevelFilter, rs: seq<LogRecord>): (r: seq<LogRecord>)
    ensures forall i :: 0 <= i < |r| ==> Passes(f, r[i].levelno)
    ensures |r| <= |rs|
  {
    if rs == [] then []
    else (if Passes(f, rs[0].levelno) then [rs[0]] else []) + Received(f, rs[1..])
  }

  /** Every record passes exactly one of the two filters. */
  lemma FiltersPartition(levelno: int)
    ensures Passes(ErrorFilter, levelno) <==> !Passes(OutFilter, levelno)
  {
  }

  /** The two handlers of a logger together write every record exactly once. */
  lemma {:induction false} EachRecordOnce(rs: seq<LogRecord>)
    ensures multiset(Received(ErrorFilter, rs)) + multiset(Received(OutFilter, rs)) == multiset(rs)
    ensures |Received(ErrorFilter, rs)| + |Received(OutFilter, rs)| == |rs|
  {
    if rs != [] {
      EachRecordOnce(rs[1..]);
      assert rs == [rs[0]] + rs[1..];
      FiltersPartition(rs[0].levelno);
    }
  }

  /** `[\w\.]` on ASCII text: letters, digits, `_` and `.`. */
  predicate IsWordDot(c: char) { IsAlnum(c) || c == '_' || c == '.' }

  /** The LogFile configuration: `log_name` matches `[\w\.]+`. */
  predicate LogNameOk(v: string) { |v| > 0 && forall i :: 0 <= i < |v| ==> IsWordDot(v[i]) }

  /** The LogFile configuration: `log_filter` matches `\d+`. */
  predicate LogFilterOk(v: string) { Run(v, Digit) }

  /**
   * `_defaults`: the parent's defaults updated with `log_name` 'grill',
   * `log_filter` INFO (written `20`) and `suffix` 'log'.
   */
  function Defaults(parent: map<string, string>): (r: map<string, string>)
    ensures r.Keys == parent.Keys + {"log_name", "log_filter", "suffix"}
    ensures forall k :: k in parent && k !in {"log_name", "log_filter", "suffix"} ==> r[k] == parent[k]
    ensures r["suffix"] == LogFileSuffix
  {
    parent["log_name" := "grill"]["log_filter" := "20"]["suffix" := LogFileSuffix]
  }

  /** The defaults match the LogFile patterns, whatever the parent's defaults. */
  lemma DefaultsMatch(parent: map<string, string>)
    ensures LogNameOk(Defaults(parent)["log_name"])
    ensures LogFilterOk(Defaults(parent)["log_filter"])
  {
    var d := Defaults(parent);
    assert d["log_name"] == "grill" && d["log_filter"] == "20";
  }

  // ---------------------------------------------------------------------
  // Loggers and their handlers

  /** A file handler: the path it writes to and its filter. */
  datatype Handler = Handler(path: seq<string>, filter: LevelFilter)

  /** A `logging.Logger`: its name, level and handlers. */
  class Logger {
    const name: string
    var level: int
    var handlers: seq<Handler>

    /** `logging.getLogger(name)` for a name seen for the first time. */
    constructor (name: string)
      ensures this.name == name && level == NOTSET && handlers == []
    {
      this.name := name;
      level := NOTSET;
      handlers := [];
    }

    method SetLevel(l: int)
      modifies this
      ensures level == l && handlers == old(handlers)
    {
      level := l;
    }

    method AddHandler(h: Handler)
      modifies this
      ensures handlers == old(handlers) + [h] && level == old(level)
    {
      handlers := handlers + [h];
    }
  }

  /**
   * The final name of a logger: `grill` itself, else `grill.` followed by
   * the camel-cased name, which keeps exactly the alphanumerics of the
   * name.  A final name always matches the LogFile's `loggername`.
   */
  function LoggerName(name: string): (r: string)
    ensures Run(r, AlnumDot)
    ensures name == "grill" ==> r == "grill"
    ensures name != "grill" ==>
      |r| >= 6 && r[..6] == "grill." && LowerStr(r[6..]) == LowerStr(AlnumOnly(name))
  {
    if name == "grill" then name
    else
      CamelCasedChars(name);
      var r := "grill." + CamelCased(name);
      assert r[6..] == CamelCased(name);
      r
  }

  /** The path of the LogFile of `loggername` once its filter is `f`: `<user grill>/log/<name>`. */
  function FilterPath(userGrill: string, loggername: string, date: string, time: string, f: string): seq<string> {
    [userGrill, "log", Text("_", Filtered(LogMatch(loggername, date, time), f))]
  }

  /** The handlers of a new logger: ErrorFilter on the `stderr` file, then OutFilter on the `stdout` file. */
  function Wiring(userGrill: string, loggername: string, date: string, time: string): seq<Handler> {
    [Handler(FilterPath(userGrill, loggername, date, time, "stderr"), ErrorFilter),
     Handler(FilterPath(userGrill, loggername, date, time, "stdout"), OutFilter)]
  }

  /** A logger wired as a new one is: the first handler writes the records above INFO, the second the rest. */
  lemma WiringRoutes(userGrill: string, loggername: string, date: string, time: string, rs: seq<LogRecord>)
    ensures var hs := Wiring(userGrill, loggername, date, time);
      && |hs| == 2
      && hs[0].path != hs[1].path
      && multiset(Received(hs[0].filter, rs)) + multiset(Received(hs[1].filter, rs)) == multiset(rs)
  {
    var m := LogMatch(loggername, date, time);
    var e := Text("_", Filtered(m, "stderr"));
    var o := Text("_", Filtered(m, "stdout"));
    var j := Join("_", m.values);
    assert e == j + "_stderr" + "." + "txt";
    assert o == j + "_stdout" + "." + "txt";
    assert e[|j| + 4] != o[|j| + 4];
    EachRecordOnce(rs);
  }

  // ---------------------------------------------------------------------
  // grill/logger/controller.py

  /** Setting filter `g` after filter `f` is setting `g`. */
  lemma FilteredTwice(m: Match, f: string, g: string)
    requires m.tail.Filed?
    ensures Filtered(Filtered(m, f), g) == Filtered(m, g)
  {
  }

  /** The handlers added on a LogFile whose filter is `stdout` are those of a new logger. */
  lemma WiringOf(userGrill: string, name: string, date: string, time: string, m: Match)
    requires m == Filtered(LogMatch(name, date, time), "stdout")
    ensures [] + [Handler([userGrill, "log"] + [Text("_", Filtered(m, "stderr"))], ErrorFilter),
                  Handler([userGrill, "log"] + [Text("_", Filtered(m, "stdout"))], OutFilter)]
         == Wiring(userGrill, name, date, time)
  {
    FilteredTwice(LogMatch(name, date, time), "stdout", "stderr");
    FilteredTwice(LogMatch(name, date, time), "stdout", "stdout");
    assert [userGrill, "log"] + [Text("_", Filtered(m, "stderr"))] == FilterPath(userGrill, name, date, time, "stderr");
    assert [userGrill, "log"] + [Text("_", Filtered(m, "stdout"))] == FilterPath(userGrill, name, date, time, "stdout");
  }

  /**
   * One `add_handler` step of `_create_logger` on a named File of class
   * `s` whose directories are class properties: `set_filter(f)`, then a
   * handler with `filter` on the file's path.
   */
  method AddFileHandler(logger: Logger, file: GrillName, dirs: seq<string>, f: string, filter: LevelFilter)
    requires file.Valid() && file.shape.tail == FileTail && PropDirs(file.shape, dirs) && file.matched.Some? && Run(f, Alnum)
    modifies logger, file
    ensures file.Valid() && file.separator == old(file.separator)
    ensures file.matched == Some(Filtered(old(file.matched).value, f))
    ensures logger.level == old(logger.level)
    ensures logger.handlers == old(logger.handlers) + [Handler(dirs + [Text(file.separator, Filtered(old(file.matched).value, f))], filter)]
  {
    ghost var m := file.matched.value;
    var _ := SetFilter(file, f);
    IOPathOfName(file.shape, file.separator, Filtered(m, f), dirs);
    logger.AddHandler(Handler(Path(file.shape, file.separator, file.name, file.values), filter));
  }

  /**
   * The two `add_handler` steps of `_create_logger`: filter `stderr`, an
   * ErrorFilter handler on the path, filter `stdout`, an OutFilter
   * handler on the path.
   */
  method AddFileHandlers(logger: Logger, file: GrillName, dirs: seq<string>)
    requires file.Valid() && file.shape.tail == FileTail && PropDirs(file.shape, dirs) && file.matched.Some?
    modifies logger, file
    ensures file.separator == old(file.separator)
    ensures logger.level == old(logger.level)
    ensures logger.handlers == old(logger.handlers) + [
      Handler(dirs + [Text(file.separator, Filtered(old(file.matched).value, "stderr"))], ErrorFilter),
      Handler(dirs + [Text(file.separator, Filtered(old(file.matched).value, "stdout"))], OutFilter)]
  {
    ghost var m := file.matched.value;
    ghost var before := logger.handlers;
    StreamFilters();
    AddFileHandler(logger, file, dirs, "stderr", ErrorFilter);
    FilteredTwice(m, "stderr", "stdout");
    AddFileHandler(logger, file, dirs, "stdout", OutFilter);
    AppendTwo(before, logger.handlers[|before|], logger.handlers[|before| + 1]);
  }

  /** The two filters the handlers are named after are runs of letters. */
  lemma StreamFilters()
    ensures Run("stderr", Alnum) && Run("stdout", Alnum)
  {
  }

  lemma AppendTwo<T>(s: seq<T>, a: T, b: T)
    ensures s + [a] + [b] == s + [a, b]
  {
  }

  /**
   * `_create_logger(name)`: a logger at level INFO, the LogFile of the
   * name, and two handlers: ErrorFilter on the file's path with filter
   * `stderr`, then OutFilter on its path with filter `stdout`.
   */
  method CreateLogger(userGrill: string, name: string, date: string, time: string) returns (r: Result<Logger, NameFailure>)
    ensures r.Ok? ==> fresh(r.value) && r.value.name == name && r.value.level == INFO
    ensures r.Ok? ==> |r.value.handlers| == 2 && r.value.handlers[0].filter == ErrorFilter && r.value.handlers[1].filter == OutFilter
    ensures Run(name, AlnumDot) && Run(date, Digit) && Run(time, Digit) ==>
      r.Ok? && r.value.handlers == Wiring(userGrill, name, date, time)
    ensures !NameChars(name, "_") ==> r == Err(NameError(Text("_", LogMatch(name, date, time))))
  {
    var logger := new Logger(name);
    logger.SetLevel(INFO);
    var lf := NewLogFile(userGrill, name, date, time, map[]);
    if lf.Err? {
      return Err(lf.error);
    }
    IODirs(userGrill);
    assert DateOverrides(date, time, map[]).Ok?;
    ghost var m := lf.value.matched.value;
    AddFileHandlers(logger, lf.value, [userGrill, "log"]);
    if Run(name, AlnumDot) && Run(date, Digit) && Run(time, Digit) {
      WiringOf(userGrill, name, date, time, m);
    }
    return Ok(logger);
  }

  // ---------------------------------------------------------------------
  // core/logger/controller.py

  /** As `AddFileHandler`, on a camelCase File named after the match `m`, whose separator is the compiled one. */
  method CoreAddFileHandler(logger: Logger, file: CoreName, dirs: seq<string>, ghost m: Match, f: string, filter: LevelFilter)
    requires file.Valid() && file.shape.tail == FileTail && PropDirs(file.shape, dirs) && Run(f, Alnum)
    requires file.separator == file.compiled && file.name != "" && Parse(file.shape, file.compiled, file.name) == Some(m)
    modifies logger, file
    ensures file.Valid() && file.separator == file.compiled && file.name != ""
    ensures Parse(file.shape, file.compiled, file.name) == Some(Filtered(m, f))
    ensures logger.level == old(logger.level)
    ensures logger.handlers == old(logger.handlers) + [Handler(dirs + [Text(file.compiled, Filtered(m, f))], filter)]
  {
    var _ := CoreSetFilter(file, f);
    FilterParses(file.shape, file.compiled, m, f);
    FileTextNotEmpty(file.compiled, Filtered(m, f));
    CorePathOfName(file, dirs);
    logger.AddHandler(Handler(file.Path(), filter));
  }

  /** As `AddFileHandlers`, on a camelCase File named after the match `m`, whose separator is the compiled one. */
  method CoreAddFileHandlers(logger: Logger, file: CoreName, dirs: seq<string>, ghost m: Match)
    requires file.Valid() && file.shape.tail == FileTail && PropDirs(file.shape, dirs)
    requires file.separator == file.compiled && file.name != "" && Parse(file.shape, file.compiled, file.name) == Some(m)
    modifies logger, file
    ensures logger.level == old(logger.level)
    ensures logger.handlers == old(logger.handlers) + [
      Handler(dirs + [Text(file.compiled, Filtered(m, "stderr"))], ErrorFilter),
      Handler(dirs + [Text(file.compiled, Filtered(m, "stdout"))], OutFilter)]
  {
    ghost var before := logger.handlers;
    StreamFilters();
    CoreAddFileHandler(logger, file, dirs, m, "stderr", ErrorFilter);
    CoreAddFileHandler(logger, file, dirs, Filtered(m, "stderr"), "stdout", OutFilter);
    FilteredTwice(m, "stderr", "stdout");
    AppendTwo(before, logger.handlers[|before|], logger.handlers[|before| + 1]);
  }

  /** The path of a named camelCase File whose directories are class properties. */
  lemma CorePathOfName(n: CoreName, dirs: seq<string>)
    requires n.Valid() && n.shape.tail == FileTail && PropDirs(n.shape, dirs) && n.name != ""
    ensures DirsResolve(n.shape, n.Stored())
    ensures n.Path() == dirs + [n.name]
  {
    var m := Parse(n.shape, n.compiled, n.name).value;
    IOPathOfName(n.shape, n.compiled, m, dirs);
    GetNameWithoutOverrides(n.shape, n.separator, n.name, n.Stored());
    CoreAgrees(n.shape, n.separator, n.name, n.Stored(), map[]);
  }

  /** The name of a valid LogFile matches back to the filtered log match. */
  lemma LogFileParsed(userGrill: string, name: string, date: string, time: string)
    requires Run(name, AlnumDot) && Run(date, Digit) && Run(time, Digit)
    ensures Parse(LogFileShape(userGrill), "_", Text("_", Filtered(LogMatch(name, date, time), "stdout")))
      == Some(Filtered(LogMatch(name, date, time), "stdout"))
  {
    IOShapesOk(userGrill);
    LogMatchOk(userGrill, name, date, time);
    FilteredOk(LogFileShape(userGrill), LogMatch(name, date, time), "stdout");
    ParseComplete(LogFileShape(userGrill), "_", Filtered(LogMatch(name, date, time), "stdout"));
  }

  /** `_createLogger(name)`: as `_create_logger`, on the camelCase LogFile. */
  method CoreCreateLogger(userGrill: string, name: string, date: string, time: string) returns (r: Result<Logger, NameFailure>)
    ensures r.Ok? ==> fresh(r.value) && r.value.name == name && r.value.level == INFO
    ensures r.Ok? ==> |r.value.handlers| == 2 && r.value.handlers[0].filter == ErrorFilter && r.value.handlers[1].filter == OutFilter
    ensures Run(name, AlnumDot) && Run(date, Digit) && Run(time, Digit) ==>
      r.Ok? && r.value.handlers == Wiring(userGrill, name, date, time)
    ensures !NameChars(name, "_") ==> r == Err(NameError(Text("_", LogMatch(name, date, time))))
  {
    var logger := new Logger(name);
    logger.SetLevel(INFO);
    var lf := CoreNewLogFile(userGrill, name, date, time, map[]);
    if lf.Err? {
      return Err(lf.error);
    }
    IODirs(userGrill);
    var file := lf.value;
    ghost var m := Parse(file.shape, file.compiled, file.name).value;
    CoreAddFileHandlers(logger, file, [userGrill, "log"], m);
    if Run(name, AlnumDot) && Run(date, Digit) && Run(time, Digit) {
      LogFileParsed(userGrill, name, date, time);
      WiringOf(userGrill, name, date, time, m);
    }
    return Ok(logger);
  }

  // ---------------------------------------------------------------------
  // The `_LOGGERS` cache

  /** A module's `_LOGGERS`: the loggers created so far, by final name. */
  class LoggerCache {
    var loggers: map<string, Logger>

    /** Every logger is kept under its own name. */
    ghost predicate Valid()
      reads this, loggers.Values
    {
      forall k :: k in loggers ==> loggers[k].name == k
    }

    constructor ()
      ensures Valid() && loggers == map[]
    {
      loggers := map[];
    }

    /**
     * `get_logger(name)`: the logger of the final name, created and kept
     * on the first call and returned unchanged by every later one.
     */
    method GetLogger(userGrill: string, name: string, date: string, time: string) returns (r: Result<Logger, NameFailure>)
      requires Valid()
      modifies this
      ensures Valid()
      ensures LoggerName(name) in old(loggers) ==> r == Ok(old(loggers)[LoggerName(name)]) && loggers == old(loggers)
      ensures LoggerName(name) !in old(loggers) && r.Ok? ==>
        && fresh(r.value) && loggers == old(loggers)[LoggerName(name) := r.value]
        && r.value.name == LoggerName(name) && r.value.level == INFO
      ensures LoggerName(name) !in old(loggers) && r.Err? ==> loggers == old(loggers)
      ensures LoggerName(name) !in old(loggers) && Run(date, Digit) && Run(time, Digit) ==>
        r.Ok? && r.value.handlers == Wiring(userGrill, LoggerName(name), date, time)
    {
      var key := LoggerName(name);
      if key !in loggers {
        var created := CreateLogger(userGrill, key, date, time);
        if created.Err? {
          return created;
        }
        loggers := loggers[key := created.value];
      }
      return Ok(loggers[key]);
    }

    /** `getLogger(name)`: as `get_logger`, creating loggers with `_createLogger`. */
    method CoreGetLogger(userGrill: string, name: string, date: string, time: string) returns (r: Result<Logger, NameFailure>)
      requires Valid()
      modifies this
      ensures Valid()
      ensures LoggerName(name) in old(loggers) ==> r == Ok(old(loggers)[LoggerName(name)]) && loggers == old(loggers)
      ensures LoggerName(name) !in old(loggers) && r.Ok? ==>
        && fresh(r.value) && loggers == old(loggers)[LoggerName(name) := r.value]
        && r.value.name == LoggerName(name) && r.value.level == INFO
      ensures LoggerName(name) !in old(loggers) && r.Err? ==> loggers == old(loggers)
      ensures LoggerName(name) !in old(loggers) && Run(date, Digit) && Run(time, Digit) ==>
        r.Ok? && r.value.handlers == Wiring(userGrill, LoggerName(name), date, time)
    {
      var key := LoggerName(name);
      if key !in loggers {
        var created := CoreCreateLogger(userGrill, key, date, time);
        if created.Err? {
          return created;
        }
        loggers := loggers[key := created.value];
      }
      return Ok(loggers[key]);
    }
  }
}
