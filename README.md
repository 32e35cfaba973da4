# grill, modelled in Dafny

grill is a Python toolset for a pipeline of USD stages, DCC tools and
named files. This project models its data logic and proves properties of
the model:

- **Names.** There are two naming engines. The snake_case engine is in
  `grill/names`; its camelCase predecessor is in `core/names`. A name
  class is a pattern of named fields joined by a separator, with an
  optional pipe (version or output and frame) and file suffix. The model
  covers:
  - parsing a text against that pattern;
  - rendering a name from its values;
  - renaming through overrides;
  - the name object whose values change in place;
  - every class the two engines define (Name, EasyName, Pipe, File, Project,
    Environment, Audiovisual, Film);
  - the input/output classes IOFile, DateFile and LogFile.
- **Logging.** The level filters and LogFile configuration of
  `grill/logger` and `core/logger`, and the logger cache.
- **Small utilities:**
  - the case conversions of `grill/utils.py`;
  - the traceback test of `grill/exceptions`;
  - the Maya attribute name of `maya/names.py`.
- **USD authoring.** The path helpers of `grill/usd`, and the authoring
  rules of `grill/cook` and its predecessor `grill/write`. The model
  covers:
  - the `UsdAsset` identifier;
  - taxa and units as prims with asset info;
  - the layer search;
  - `create_many` / `create`.
- **Maya animation curves.** The anim-curve search and key upsert of
  `maya/animation/controller.py`.
- **Views.** The data logic behind the Qt views:
  - the graph widget of `_graph.py`;
  - the asset-structure graph of `_diagrams.py`;
  - the layer-stack composition graph of `description.py`;
  - the table models and spreadsheets of `_model.py`, `sheets.py` and `spreadsheet.py`;
  - the creation dialogs of `create.py`.

Pure code is modelled as datatypes, functions and lemmas. Code that
updates objects in place keeps its shape:

- classes with `modifies` clauses;
- loops carrying their invariants.

These are proved against specification functions. Where a natural
contract showed that the code does something other than what it
evidently means, the model keeps both versions, as listed under
"Findings":

- the code **as written**, with a lemma that exhibits the difference;
- the **intended** definition, with its property proved.

The rest of the model uses the intended one. In the table below, every
row says which of the two versions the member models.

## Model

| member | source | states |
|---|---|---|
| NameSchema.GroupDictKeys | grill/names/model/base.py:84-91 | The keys `groupdict()` stores on `set_name` are exactly the named groups of the joined pattern, whatever the match (as written). |
| NameSchema.GroupDictField | grill/names/model/base.py:91 | `groupdict()` maps each field's group to that field's text and each part's group to its piece (as written). |
| NameSchema.PiecesOfParts | grill/names/model/environment.py:13-15 | A composite value (`project` = environment + code, `workarea` = kind + group + area) is the concatenation of its pieces, each matching its part (as written). |
| NameSchema.PartsOfPieces | grill/names/model/film.py:17-20 | Pieces that match their parts concatenate to a composite value that splits back into exactly those pieces (as written). |
| NameParse.Parse | grill/names/model/base.py:76-91 | Intended full-match reading of `re.match('^pattern$')`: the fields split at the separator, the pipe and the extension (intended; see Findings for the `$` newline). |
| NameParse.ParseIff | grill/names/model/base.py:84-91 | `set_name(text)` accepts `text` with match `m` if and only if `m` is well formed and spells `text` (intended full-match behaviour). |
| NameParse.ParseComplete | grill/names/model/base.py:76-77 | Every well-formed match is accepted and parsed back to itself (intended). |
| NameParse.ParsePipe | grill/names/model/pipe.py:14-17 | The pipe group is `.version`, `_output` or `_output.frame`, with digit runs for version and frame (as written). |
| NameParse.ParseTail | grill/names/model/file.py:15-18 | The extension is what follows the last '.', after the pipe (as written). |
| NameParse.ParseRejectsForeign | grill/names/model/base.py:84-89 | `set_name` under the full-match reading raises NameError on a text holding a character no field, separator, pipe or extension allows (intended; see Findings). |
| NameParse.DollarNewline | grill/names/model/base.py:76-77 | As written: every well-formed name followed by one newline passes the `^...$` anchor with the groups of the name, while the full-match reading rejects it (as written; see Findings). |
| NameClasses.FilmDirsOfAudiovisual | grill/names/model/film.py:34-42 | Film's directories: `workarea` expanded in place into productionenv, kind, group, alias, area, `alias` moved there and `variant` appended (as written). |
| NameClasses.FilmDirsOrder | grill/names/model/audiovisual.py:26-29 | The Film directory list is code, environment, pro, kind, group, alias, area, stage, variant (as written). |
| NameClasses.EasyShape | grill/names/model/base.py:171-194 | An EasyName has one extra field per configuration entry, after `base`, in configuration order (as written, for keys without '_'). |
| NameClasses.FilmShapeOk | grill/names/model/film.py:15-32 | The Film pattern compiles: distinct group names, none named like a suffix group, well-formed composites (as written). |
| NameClasses.EasyShapeOk | grill/names/model/base.py:181-194 | Every EasyName configuration of the accepted kind gives a pattern Python compiles (as written). |
| GrillNames.TranslatedPatternList | grill/names/model/base.py:132-147 | The loop appends, per key, the override, else the stored value, else the class property, else `[key]` (as written). |
| GrillNames.GetValues | grill/names/model/pipe.py:33-37 | `get_values()` of a Pipe and its subclasses drops the `pipe` key and `None` values and keeps every other stored pair (as written). |
| GrillNames.Attr | grill/names/model/base.py:149-153 | `__getattr__` returns a stored value, or AttributeError when the key is not stored (as written). |
| GrillNames.GetNameWithoutOverrides | grill/names/model/base.py:127-130 | `get_name()` without overrides never fails: the stored name, or the fields and suffix rendered from values or placeholders (as written). |
| GrillNames.Path | grill/names/model/file.py:32-36 | `path` is the rendered directory components followed by `get_name()` (as written; `os.path.join` kept abstract). |
| GrillRenaming.DeriveAt | grill/names/model/environment.py:21-30 | The subclasses' recomputations do not interfere: a composite gets its parts' value exactly when `Recomputes` holds, else keeps the caller's override (as written). |
| GrillRenaming.DeriveKeeps | grill/names/model/film.py:44-54 | The overrides the caller passed survive every recomputation (as written). |
| GrillRenaming.RenameRenders | grill/names/model/pipe.py:39-61 | `get_name(**ov)` on a parsed name renders the renamed match; without overrides it is the name itself (as written). |
| GrillRenaming.RenameSticks | grill/names/model/pipe.py:42-56 | Every override is what the renamed name's `groupdict()` then holds under its key (as written). |
| GrillRenaming.RenameKeeps | grill/names/model/pipe.py:57-58 | What the overrides do not name keeps its value: untouched fields and parts, the pipe, the extension (as written). |
| GrillRenaming.RenameRoundTrip | grill/names/model/base.py:84-91 | `set_name(get_name(**ov))` succeeds, parsing back to the renamed match whose groups hold the overrides (as written). |
| GrillRenaming.OwnValuesRename | grill/names/model/base.py:107-108 | A name's own `get_values()` are acceptable overrides, and renaming with them changes nothing (as written). |
| GrillRenaming.SeparatorChange | grill/names/model/base.py:53-57 | The separator setter renders the stored match with the new separator, and the result parses back to the same match (as written). |
| GrillObject.GrillName.constructor | grill/names/model/base.py:31-42 | A name object created without a name holds no values and the given separator (as written). |
| GrillObject.GrillName.SetName | grill/names/model/base.py:84-91 | `set_name` under the full-match reading: an invalid name raises NameError and changes nothing; a valid one is stored with every named group of the match (intended; see Findings). |
| GrillObject.GrillName.SetSeparator | grill/names/model/base.py:44-57 | The separator setter sets the separator, re-renders the name from `get_values()` and validates it against the rebuilt full-match pattern (intended; see Findings). |
| GrillClasses.FreshName | grill/names/model/base.py:145-146 | A name without values renders placeholders under overrides that name no field and no suffix group, exactly as with none (as written). |
| GrillClasses.FreshFile | grill/names/model/file.py:20-27 | On a file name without values, overriding every field, the pipe and the extension spells exactly the overrides (as written). |
| GrillClasses.FreshNameInvalid | grill/names/model/base.py:84-89 | `set_name` rejects the placeholder text of a name without values (as written). |
| GrillClasses.NiceNameOfMatch | grill/names/model/pipe.py:26-31 | `nice_name` is the fields joined; `pipe_name` adds the matched pipe and leaves out only the extension (as written). |
| GrillClasses.PathOfStored | grill/names/model/file.py:29-36 | On a name holding values, `path` is the stored value of every directory key in order followed by the name (as written). |
| GrillExamples.PipeSetName | grill/names/test.py:50-54 | `set_name('basename_data')` on a Pipe stores base 'basename' and output 'data' (as written). |
| GrillExamples.PipeVerbatim | grill/names/test.py:56 | `get_name(pipe='_geo')` puts the pipe text verbatim: 'basename_geo' (as written). |
| GrillExamples.PipeVersion | grill/names/test.py:57 | `get_name(version=17)` is 'basename.17' (as written). |
| GrillExamples.PipeOutputFrameRoundTrip | grill/names/test.py:58-60 | `set_name(get_name(output='cache', frame=101))` stores output 'cache' and frame '101' (as written). |
| GrillExamples.FileSetName | grill/names/test.py:74-81 | `set_name('basename_data.ext')` on a File stores extension 'ext'; `nice_name` 'basename', `pipe_name` 'basename_data', no directories (as written). |
| GrillExamples.FileRoundTrip | grill/names/test.py:82-86 | A File renamed with base, output, frame and extension stores every override (as written). |
| GrillExamples.ProjectNames | grill/names/test.py:88-92 | Project: `nice_name` 'flmabc_first' and path flmabc / first / flmabc_first_base.abc (as written). |
| GrillExamples.EnvironmentSetName | grill/names/test.py:94-97 | Environment: the stored environment is 'flm', the first piece of the project (as written). |
| GrillExamples.EnvironmentRename | grill/names/test.py:98-101 | `get_name(environment='gme')` recomputes the project; code 'abc' is kept; the path is abc / gme / first / gmeabc_first_base.abc (as written). |
| GrillExamples.EnvironmentPlaceholders | grill/names/test.py:102-105 | A new Environment renders `[project]_[workarea]_[output].5.[extension]`, its `pipe_name` and the `.ext` placeholder text (as written). |
| GrillExamples.FilmKindUnresolved | grill/names/test.py:117-118 | On a new Film `get_name(kind='set') == get_name()` (as written). |
| GrillExamples.FilmSetName | grill/names/test.py:119 | Film: `set_name(get_name(**kwargs))` holds the match of the test's values (as written). |
| GrillExamples.FilmRename | grill/names/test.py:120-121 | `get_name(area='model')` recomputes the workarea as 'achrmodel' and keeps every other field and the suffix (as written). |
| GrillExamples.FilmPath | grill/names/test.py:122-124 | After the rename, `path` is abc/flm/pro/a/chr/boy/model/concept/original followed by the name (as written). |
| GrillExamples.FilmSeparatorDash | grill/names/test.py:125-127 | As written the separator '-' joins the fields but the pipe keeps its own '_': the name ends in `default_base.abc`, not the `default-base.abc` the test expects (as written). |
| CoreNames.CoreGetValues | core/names/model/base.py:76-89 | `getValues()`: `None` without values, else every pair kept (a Pipe drops `pipe` and falsy values) (as written). |
| CoreNames.CoreAgrees | core/names/model/base.py:106-129 | With a truthy frame and extension, or none given, `getName` renders exactly what the grill engine renders (as written). |
| CoreNames.CoreValuesAgree | core/names/model/base.py:91-96 | For a parsed name `getValues()` reports the grill engine's `get_values()` (as written). |
| CoreNames.EmptyFrame | core/names/model/pipe.py:54-56 | A falsy frame adds nothing, where the grill engine still appends the dot (as written). |
| CoreNames.EmptyExtension | core/names/model/file.py:23-30 | An explicit falsy extension is rendered as given, where the grill engine falls back to `[extension]` (as written). |
| CoreNames.CoreRenameRoundTrip | core/names/model/base.py:64-68 | `setName(getName(**ov))` with the compiled separator is accepted, and then holds the renamed match's values (as written). |
| CoreNames.CoreStaleSeparator | core/names/model/base.py:49-51 | As written the separator setter leaves the compiled pattern alone: the next `getName` uses the new separator and `setName` rejects it (as written). |
| CoreNames.CoreName.SetName | core/names/model/base.py:64-68 | `setName` under the full-match reading: a text the compiled pattern rejects raises NameError and changes nothing; otherwise the name is stored (intended; see Findings). |
| CoreNames.CoreName.SetSeparator | core/names/model/base.py:49-51 | The separator setter changes the separator and nothing else (as written). |
| CoreNames.ValuesOfName | core/names/model/base.py:91-96 | A core name holds values exactly when it holds a name, and they are the grill engine's (as written). |
| CoreExamples.CoreBase | core/names/test.py:13-20 | A new Name has no values; after `setName('basename')` base, the name and `nice_name` are all 'basename' (as written). |
| CoreExamples.CoreFilmStaleSeparator | core/names/model/base.py:49-51 | A Film whose separator is '-' renders `getName(area='model')` with dashes, and `setName` rejects that text (as written). |
| CoreExamples.BasenameNewline | grill/names/model/base.py:76-77 | As written `set_name('basename\n')` passes the `$` anchor with the groups of 'basename' (as written; see Findings). |
| MayaNames.GreedySound | maya/names.py:12-17 | As written: what `^(in\|out)[a-zA-Z]+[XYZ]?\d?$` matches is a well-formed split of the name whose axis group is always empty (as written; see Findings). |
| MayaNames.GreedyLongest | maya/names.py:14-16 | As written: every name of the language matches, and the greedy attribute takes the longest run, swallowing the axis letter (as written; see Findings). |
| MayaNames.GreedyAccepts | maya/names.py:23-24 | `setName` accepts exactly the names of the language (as written). |
| MayaNames.GreedyRoundTrip | maya/names.py:14-16 | As written a name round-trips through the pattern exactly when its axis is empty (as written; see Findings). |
| MayaNames.GreedyValuesTranslateX | maya/names.py:14-16 | As written the values of `outTranslateX` report attribute `TranslateX` and an empty axis (as written; see Findings). |
| MayaNames.AxisSound | maya/names.py:14-16 | Intended split: a well-formed split of the name (intended; see Findings). |
| MayaNames.AxisShortest | maya/names.py:14-16 | Intended split: the axis takes every letter it can, so every split has an attribute at least as long (intended; see Findings). |
| MayaNames.AxisRoundTrip | maya/names.py:14-16 | Intended split: a name with an axis round-trips; one without round-trips unless its attribute ends in an axis letter (intended; see Findings). |
| MayaNames.AxisTranslateX | maya/names.py:14-16 | Intended split: `outTranslateX` is attribute `Translate` and axis `X` (intended; see Findings). |
| CaseConversion.Words | grill/utils.py:10 | `re.findall('[A-Z]?[a-z]+', s)`: words are scanned left to right, each an optional capital and a maximal lowercase run (as written). |
| CaseConversion.ToUnderscores | grill/utils.py:9-13 | The loop lowers each word in place; the result is the lowered words joined by `_` (as written). |
| CaseConversion.UnderscoredShape | grill/utils.py:9-13 | The output of `toUnderscores` is snake case with one underscore between consecutive words (as written). |
| CaseConversion.UnderscoredIdempotent | grill/utils.py:9-13 | `toUnderscores` is idempotent: its output converts to itself (as written). |
| CaseConversion.WordsFromInput | grill/utils.py:10 | The letters of the words are letters of the input, in order; digits, punctuation and a lone capital are dropped (as written). |
| CaseConversion.AlnumRuns | grill/utils.py:16 | `re.findall('([a-zA-Z0-9]+)', s)`: the maximal alphanumeric runs, left to right (as written). |
| CaseConversion.ToCamelCase | grill/utils.py:15-19 | The loop capitalises every run after the first in place; the result is the runs concatenated (as written). |
| CaseConversion.RunsCover | grill/utils.py:16 | The runs together hold exactly the alphanumeric characters of the input (as written). |
| CaseConversion.CamelCasedChars | grill/utils.py:15-19 | `toCamelCase` keeps exactly the input's alphanumeric characters, in order, changing only case (as written). |
| CaseConversion.CamelCasedFirst | grill/utils.py:17-19 | The first run of the input starts the output unchanged (as written). |
| IONames.DateOverrides | grill/io/model.py:33-37 | DateFile passes the caller's keywords plus date, time, pipe `_data` and extension `txt` to `get_name`; a repeated keyword is a TypeError (as written). |
| IONames.FilterRenders | grill/io/model.py:80-81 | `get_name(pipe='_' + f)` keeps the fields and the extension and replaces the pipe with `_f` (as written). |
| IONames.FilterParses | grill/io/model.py:80-81 | With an alphanumeric filter the re-rendered name is valid and parses to the filtered match (as written). |
| IONames.SetFilter | grill/io/model.py:80-81 | `set_filter(f)` sets `get_name(pipe='_' + f)`; on a named File the output becomes `f` and the fields and extension stay (as written). |
| IONames.DateFileRenders | grill/io/model.py:33-49 | With every field given, DateFile's text is the fields joined, then `_data.txt` (as written). |
| IONames.NewDateFile | grill/io/model.py:33-37 | A DateFile is an unnamed object of its class on which the rendered date/time text is set (as written; the clock is a parameter). |
| IONames.LogFileText | grill/io/model.py:70-73 | LogFile's fields are the logger name, date and time joined by `_`, then `_data.txt` (as written). |
| IONames.LogNameForeign | grill/io/model.py:58-60 | A logger name holding a character outside `[a-zA-Z0-9.]` makes the LogFile text invalid, so the constructor raises (as written). |
| IONames.NewLogFile | grill/io/model.py:54-56 | LogFile is a DateFile with the logger name among its keywords, then `set_filter('stdout')` (as written). |
| IONames.IODirs | grill/io/model.py:23-28 | IOFile and DateFile have the user's grill directory as their one directory; LogFile adds `log` (as written). |
| IONames.DateFilePath | grill/io/model.py:18-28 | A named DateFile lives directly under the user's grill directory (as written). |
| IONames.LogFilePath | grill/io/model.py:66-78 | A named LogFile lives in `log` under the user's grill directory (as written). |
| CoreIO.CorePipedAgrees | core/io/model.py:81-82 | With a pipe override and a truthy extension `getName` renders what the grill engine renders (as written). |
| CoreIO.CoreSetFilter | core/io/model.py:81-82 | `setFilter(f)` sets `getName(pipe='_' + f)`; an alphanumeric filter makes the output `f` (as written). |
| CoreIO.CoreDateFileAgrees | core/io/model.py:34-38 | DateFile's text is the same in both engines for every date, time and keyword (as written). |
| CoreIO.CoreNewDateFile | core/io/model.py:34-38 | A core DateFile is an unnamed object on which the rendered date/time text is set (as written). |
| CoreIO.CoreNewLogFile | core/io/model.py:55-57 | A core LogFile is a DateFile with the logger name, then `setFilter('stdout')`, with the same texts as the grill LogFile (as written). |
| Loggers.FiltersPartition | grill/logger/model.py:17-36 | Every record passes exactly one of ErrorFilter (above INFO) and OutFilter (INFO and below) (as written). |
| Loggers.EachRecordOnce | grill/logger/model.py:21-36 | The two handlers of a logger together write every record exactly once (as written). |
| Loggers.Defaults | grill/logger/model.py:51-59 | `_defaults` is the parent's defaults updated with `log_name` 'grill', `log_filter` INFO and `suffix` 'log' (as written). |
| Loggers.DefaultsMatch | grill/logger/model.py:41-45 | The defaults match the LogFile's `[\w\.]+` and `\d+` patterns, whatever the parent's defaults (as written). |
| Loggers.LoggerName | grill/logger/controller.py:35-37 | The final name is `grill`, else `grill.` + the camel-cased name; it always matches the LogFile's `loggername` (as written). |
| Loggers.WiringRoutes | grill/logger/controller.py:22-32 | A new logger's first handler writes the records above INFO, the second the rest (as written). |
| Loggers.CreateLogger | grill/logger/controller.py:17-32 | `_create_logger`: level INFO, ErrorFilter on the path filtered `stderr`, then OutFilter on the path filtered `stdout` (as written, on a fresh logger). |
| Loggers.CoreCreateLogger | core/logger/controller.py:17-34 | `_createLogger` does the same on the camelCase LogFile (as written, on a fresh logger). |
| Loggers.LoggerCache.GetLogger | grill/logger/controller.py:35-40 | `get_logger(name)` creates the logger of the final name on the first call and returns it unchanged on every later one (as written). |
| Loggers.LoggerCache.CoreGetLogger | core/logger/controller.py:37-42 | `getLogger(name)` caches the same way, creating with `_createLogger` (as written). |
| GrillExceptions.DirnamePrefix | grill/exceptions/controller.py:13 | `posixpath.dirname` of a path is a prefix of it, and empty for a path without `/` (as written). |
| GrillExceptions.LibDirHoldsModule | grill/exceptions/controller.py:13 | The module's own file lies under `LIB_DIR` (as written). |
| GrillExceptions.IsGrillException | grill/exceptions/controller.py:16-21 | The loop along `tb_next` returns `True` at the first frame under `LIB_DIR`, and `None` when there is none (as written). |
| GrillExceptions.OwnFrameIsGrill | grill/exceptions/controller.py:16-21 | A traceback through the module's own file is grill's (as written). |
| UsdAsset.Get | grill/cook/__init__.py:194 | `UsdAsset(name.get(**overrides))` is the overridden values, or ValueError when they are not a valid identifier (as written). |
| UsdAsset.GetFieldsOk | grill/cook/__init__.py:444-475 | Overriding fields of a valid identifier with `\w+` values gives a valid identifier (as written). |
| UsdAsset.AnonymousValues | grill/cook/__init__.py:491-493 | `get_anonymous`: explicit values naming a key are kept, every other field comes cyclically from the uuid, pipe and suffix keep their defaults (as written). |
| UsdAsset.AnonymousDrawn | grill/cook/__init__.py:491-493 | A field not passed is the `i mod 6`-th uuid integer (as written). |
| UsdAsset.AnonymousOk | grill/cook/__init__.py:478-493 | Without explicit values the anonymous identifier is always valid (as written). |
| UsdPaths.CommonPaths | grill/usd/__init__.py:15-22 | The loop keeps the sorted, non-empty, non-root paths, skipping those below the last one kept (as written). |
| UsdPaths.CommonPathsFacts | grill/usd/__init__.py:15-22 | `common_paths` returns only kept input paths, sorted, none at or below another, and every kept input lies at or below one of them (as written). |
| UsdPaths.SortedUnique | grill/usd/__init__.py:18 | The insertion sort gives what `sorted` gives: the path order is total and antisymmetric (as written). |
| UsdPaths.Contiguous | grill/usd/__init__.py:19 | Sorted, the descendants of a path follow it contiguously, which makes the "last kept" test sufficient (as written). |
| UsdPaths.PrunedPrims | grill/usd/__init__.py:7-12 | `_pruned_prims` yields each visited prim and, when the predicate holds, skips its descendants (as written). |
| UsdPaths.PrunedSubseq | grill/usd/__init__.py:7-12 | `_pruned_prims` yields prims of the range, in the range's order (as written). |
| UsdPaths.PrunedNothing | grill/usd/__init__.py:7-12 | With a predicate that never holds nothing is pruned (as written). |
| UsdPaths.PrunedNothingBelow | grill/usd/__init__.py:7-12 | No yielded prim lies below a yielded prim the predicate holds for (as written). |
| UsdPaths.IPrimsWholeStage | grill/usd/__init__.py:28-37 | Without root paths or prune predicate `iprims` is the stage traversal (as written). |
| UsdPaths.IPrimsRooted | grill/usd/__init__.py:31-35 | With root paths `iprims` yields only prims at or below a common root (as written). |
| UsdPaths.IPrimsOnce | grill/usd/__init__.py:31-41 | `iprims` visits every prim at most once: the common roots form an antichain (as written). |
| UsdStage.ChildName | grill/cook/__init__.py:219-223 | `AppendChild` is undone by `GetName`, and different names give different children (as written). |
| UsdStage.AncestorsExclude | grill/cook/__init__.py:254 | The ancestors a definition walks through are strictly above the path and never the path itself (as written). |
| UsdStage.DefinePrimAt | grill/cook/__init__.py:157 | `DefinePrim`/`CreateClassPrim`: the prim exists with the new specifier and keeps its other data; missing ancestors are defined; nothing else changes (as written). |
| UsdStage.OverridePrimAt | grill/cook/__init__.py:246 | `OverridePrim`: an existing prim is left untouched; a missing one and its missing ancestors become `over`s; nothing else changes (as written). |
| UsdStage.AddInternalRefsFacts | grill/cook/__init__.py:158-159 | Adding references keeps the existing ones in front, lists every one given, adds nothing else and never repeats one (as written). |
| UsdStage.AddInternalRefsIdempotent | grill/cook/__init__.py:158-159 | Adding the same references a second time changes nothing (as written). |
| UsdStage.FindLayerMatchingAsWritten | grill/cook/__init__.py:381-388 | The search as written: it fails with `ValueError` at the first layer whose real path is not a pipeline name, before any later layer is looked at (as written; see Findings). |
| UsdStage.FindLayerMatching | grill/cook/__init__.py:371-388 | The search as intended: the first matching layer, no earlier layer matching, `ValueError` exactly when no layer matches (intended; see Findings). |
| UsdStage.FindInserted | grill/cook/__init__.py:381-387 | A matching layer inserted where no earlier layer matched is the one found (intended). |
| UsdStage.FindLayerAgrees | grill/write/__init__.py:327-334 | When every layer name is a pipeline name, the search as written and as intended give the same result (both versions; see Findings). |
| UsdStage.ForeignLayerHidesMatch | grill/write/__init__.py:327-334 | A foreign layer ahead of the taxonomy layer makes the search as written fail while the intended one finds the taxonomy layer (as written vs intended; see Findings). |
| UsdStage.FindLayer | grill/cook/__init__.py:380-388 | The loop of `_find_layer_matching`, skipping non-matching and foreign layers, returns exactly what `FindLayerMatching` names (intended). |
| UsdStage.FindLayerFirst | grill/cook/__init__.py:381-387 | The index `FindLayerMatching` gives is the first matching layer (intended). |
| UsdStage.RootAsset | grill/cook/__init__.py:330-349 | `_root_asset`: the root layer when its identifier is a pipeline name, else the first such layer of the stack, else an error (as written). |
| UsdStage.DedupFacts | grill/cook/__init__.py:435-441 | The `seen` filter keeps every element exactly once, in the order of first appearance (as written). |
| UsdStage.DedupDistinct | grill/cook/__init__.py:435-441 | A sequence without repeats passes the `seen` filter unchanged (as written). |
| UsdStage.PrimLayerStack | grill/cook/__init__.py:433-441 | The loop of `_layer_stack(prim)` yields the distinct layers of the prim stack in first-appearance order (as written). |
| UsdStage.Stage.constructor | grill/cook/__init__.py:189 | A stage holding exactly the given prims and layers, with no asset stage created yet (as written). |
| UsdStage.Stage.SetPermissionToEdit | grill/cook/__init__.py:216-217 | Only the permission of the chosen layer changes (as written). |
| UsdStage.Stage.InsertLayer | grill/cook/__init__.py:211 | A sublayer enters the flattened stack at the given position; the prims are unchanged (as written). |
| UsdStage.Stage.DefinePrim | grill/cook/__init__.py:254 | The stage's prims become `DefinePrimAt` of the old ones; layers unchanged (as written). |
| UsdStage.Stage.OverridePrim | grill/cook/__init__.py:246 | The stage's prims become `OverridePrimAt` of the old ones; layers unchanged (as written). |
| UsdStage.Stage.EditPrim | grill/cook/__init__.py:255-256 | Only the given prim's data changes (as written). |
| UsdStage.Stage.SaveUnit | grill/cook/__init__.py:227-244 | The repository records the new unit asset; prims and layers unchanged (as written). |
| Authoring.NormalisedFields | grill/cook/__init__.py:148-151 | The normalised fields have one key per field name given, member or text (as written). |
| Authoring.NormalisedLast | grill/cook/__init__.py:148-151 | For a repeated field name the last item's value wins, as in a dict comprehension (as written). |
| Authoring.UnknownFields | grill/cook/__init__.py:152-154 | No unknown field names exactly when every id field is an identifier field (as written). |
| Authoring.ValidateTaxon | grill/cook/__init__.py:137-154 | `ReservedName` iff the name is `Taxonomy`; `ReservedIdFields` iff not that and an id field is reserved; `InvalidIdFieldKeys` carries exactly the unknown names; success iff none applies, with one field per id field plus the taxon's own name under the taxonomy key (as written). |
| Authoring.TaxonFieldValues | grill/write/__init__.py:130-143 | A valid taxon carries, for every id field, the value of the last item naming it (as written). |
| Authoring.TaxonPrimFacts | grill/cook/__init__.py:157-162 | The taxon prim keeps its references in front, then each given taxon once; its data is exactly the fields and the membership of its own taxon (as written). |
| Authoring.TaxonPrimIdempotent | grill/cook/__init__.py:129-164 | Making a taxon prim of a taxon prim with the same arguments changes nothing (as written). |
| Authoring.Context | grill/cook/__init__.py:361-368 | `_context`: `ValueError` iff the tokens are empty; otherwise found iff some layer matches, and then it is the first matching layer (as written). |
| Authoring.SublayerSlot | grill/cook/__init__.py:290 | A sublayer appended to the root pipeline layer lands after it in the flattened stack (as written; the stack is flattened, see Left out). |
| Authoring.TaxonomyContext | grill/cook/__init__.py:273-296 | An existing taxonomy layer is used with the stage unchanged; otherwise one is sublayered and the context points at a matching layer; it fails iff neither a taxonomy layer nor a pipeline layer exists; prims only gain `/Taxonomy` (as written). |
| Authoring.TaxonomyContextAdds | grill/cook/__init__.py:279-296 | Without a taxonomy layer, a pipeline layer that can name one gets it, and the context is found (as written). |
| Authoring.TaxonomyContextAgain | grill/write/__init__.py:238-260 | Once found or made, the taxonomy context is found again with nothing changed (as written). |
| Authoring.EnterTaxonomyContext | grill/cook/__init__.py:273-296 | The stage's new state and the result are those of `TaxonomyContext` (as written). |
| Authoring.DefineTaxonSpec | grill/cook/__init__.py:126-164 | Validation errors leave the stage unchanged; on success the prim `/Taxonomy/<name>` exists and is returned (as written). |
| Authoring.DefineTaxonFacts | grill/cook/__init__.py:156-162 | A defined taxon carries the validated fields, its own name under the taxonomy key and membership of its own taxon only; it references every given taxon; a taxonomy layer is on the stack (as written). |
| Authoring.DefineTaxonAgain | grill/cook/__init__.py:129 | Defining the same taxon again returns the same prim and leaves the stage as it is (as written). |
| Authoring.AuthorTaxon | grill/write/__init__.py:139-144 | The prims after the edits are `AuthoredTaxon` of the old ones; layers and repository unchanged (as written). |
| Authoring.DefineTaxon | grill/write/__init__.py:108-146 | The new state and result are those of `DefineTaxonSpec` (as written). |
| Authoring.TaxaNames | grill/cook/__init__.py:169 | The names are exactly those of the taxa given, by text or by prim name (as written). |
| Authoring.CreateUnit | grill/cook/__init__.py:222-248 | `_create`: success returns the child path, which then exists; a valid identifier and prim name always succeed; an existing prim is returned with nothing changed; a failure changes nothing; no prim and no layer that was there changes (as written). |
| Authoring.UnitAssetOk | grill/cook/__init__.py:227 | A prim name never spoils a valid identifier as its item (as written). |
| Authoring.CreateUnitsKeep | grill/cook/__init__.py:257 | Creating units never changes a prim that was there, nor the layer stack (as written). |
| Authoring.CreateUnitsFail | grill/cook/__init__.py:257 | Creation succeeds only when every name is a valid prim name (as written). |
| Authoring.CreateUnitsOk | grill/cook/__init__.py:257 | With a valid identifier, valid prim names are always created (as written). |
| Authoring.UnitPaths | grill/cook/__init__.py:223 | One child path of the scope per name, in order (as written). |
| Authoring.CreateUnitsPaths | grill/cook/__init__.py:257 | A successful creation returns exactly the units' paths, one per name, in order (as written). |
| Authoring.CreateUnitsPresent | grill/write/__init__.py:222 | After a successful creation every unit path is a prim of the stage (as written). |
| Authoring.CreateUnitsStop | grill/cook/__init__.py:257 | Once a name fails, the names after it change nothing more (as written). |
| Authoring.CreateUnitsAgain | grill/cook/__init__.py:224-226 | When every unit is already there, creating them again returns their paths and changes nothing (as written). |
| Authoring.NewUnitLabel | grill/cook/__init__.py:242-244 | A new unit's asset carries the label given for it, and no label when it is empty (as written). |
| Authoring.WithPermission | grill/cook/__init__.py:217 | Only the chosen layer's permission changes, to the value given (as written). |
| Authoring.PermissionRestored | grill/cook/__init__.py:259 | Opening a layer for edits and then setting back its old permission restores the stack exactly (as written). |
| Authoring.UnitScope | grill/cook/__init__.py:253-256 | The scope exists and has a model kind; an existing scope keeps its data or only becomes an `assembly`; other prims are unchanged; only the scope and its ancestors can be new (as written). |
| Authoring.UnitScopeAgain | grill/write/__init__.py:218-221 | Making the scope a second time changes nothing (as written). |
| Authoring.MakeUnitScope | grill/cook/__init__.py:251-256 | The stage's prims become `UnitScope` of the old ones; layers unchanged (as written). |
| Authoring.CreateUnitsLoop | grill/cook/__init__.py:257 | The list comprehension over `_create`, on the stage: its new state and result are those of `CreateUnits` (as written). |
| Cook.GetIdFields | grill/cook/__init__.py:352-358 | `ValueError` for missing or falsy fields, `TypeError` for a truthy non-mapping, else the mapping (as written). |
| Cook.TaxonName | grill/cook/__init__.py:173-175 | The taxonomy field of the asset info, or `""` without one (as written). |
| Cook.DefinedTaxonReadsBack | grill/cook/__init__.py:161-162 | A defined taxon reads back its validated fields, its own name as taxon name, and membership of its own taxon (as written). |
| Cook.Members | grill/cook/__init__.py:170 | Exactly the given prims, in order, whose taxa meet the names (as written). |
| Cook.ITaxa | grill/cook/__init__.py:167-170 | `itaxa` yields exactly the prims of `Members` (as written). |
| Cook.UnitsAsset | grill/cook/__init__.py:189-194 | The units' identifier is the pipeline layer's name with the taxon's fields; errors propagate (as written). |
| Cook.CatalogueLayer | grill/cook/__init__.py:202-211 | The first catalogue layer, or, without one, a new catalogue layer named after the pipeline layer, inserted as its first sublayer (as written). |
| Cook.Prepare | grill/cook/__init__.py:189-211 | The lookups happen in order and the first failure is the result; a failure changes nothing (as written). |
| Cook.CatalogueScope | grill/cook/__init__.py:219 | The units of a taxon go under `/Catalogue/<taxon>` (as written). |
| Cook.MakeUnits | grill/cook/__init__.py:216-257 | The catalogue layer is opened, the scope made, then the units created (as written). |
| Cook.CreateManyAsWritten | grill/cook/__init__.py:178-261 | `create_many` as written: the permission is set back only after every unit was created (as written; see Findings). |
| Cook.CreateManySpec | grill/cook/__init__.py:178-261 | `create_many` with the permission set back on every path (intended; see Findings). |
| Cook.CreateManyPaths | grill/cook/__init__.py:250-260 | Success returns one prim per name, in order, under the taxon's catalogue scope, and happens exactly when every name is a valid prim name (intended). |
| Cook.CreateManyKeeps | grill/cook/__init__.py:222-257 | Every prim that was there is kept, the scope at most becoming an `assembly`; every returned unit exists (intended). |
| Cook.PermissionLeftOpen | grill/cook/__init__.py:216-259 | A failing name leaves a read-only catalogue layer open for edits as written, and closed again as intended (as written vs intended; see Findings). |
| Cook.CreateSpec | grill/cook/__init__.py:263-270 | `create` is the first prim of a one-name `create_many` (intended). |
| Cook.OpenCatalogue | grill/cook/__init__.py:202-211 | The stage's new state and result are those of `CatalogueLayer` (as written). |
| Cook.CreateMany | grill/cook/__init__.py:178-261 | The method's new state and result are those of `CreateManySpec` (intended). |
| Cook.Create | grill/cook/__init__.py:263-270 | The method's new state and result are those of `CreateSpec` (intended). |
| Write.GetIdFields | grill/write/__init__.py:297-306 | `ValueError` without `grill` data or for missing or falsy fields, `TypeError` for a truthy non-mapping, else the mapping (as written). |
| Write.DefinedTaxonReadsBack | grill/write/__init__.py:143-144 | A defined taxon gives back its validated fields as id fields (as written). |
| Write.TaxaMembers | grill/write/__init__.py:153-159 | Taxonomy prims are never yielded and their subtree is pruned; other prims are yielded when their taxa meet the names (as written). |
| Write.TaxaMembersComplete | grill/write/__init__.py:153-159 | Every prim outside the taxonomy whose taxa meet the names is yielded (as written). |
| Write.IterTaxa | grill/write/__init__.py:149-159 | The generator loop, pruning in place, yields exactly `TaxaMembers` of the range (as written). |
| Write.UnitsAsset | grill/write/__init__.py:173-178 | The units' identifier is the pipeline layer's name with the taxon's fields; errors propagate (as written). |
| Write.TaxonScope | grill/write/__init__.py:193 | The units of a taxon go under `/<taxon>` (as written). |
| Write.MakeUnits | grill/write/__init__.py:216-222 | The scope is made, then the units created (as written). |
| Write.CreateManyAsWritten | grill/write/__init__.py:162-225 | `create_many` as written: the permission is opened before the taxonomy lookup and set back only after every unit was created (as written; see Findings). |
| Write.CreateManySpec | grill/write/__init__.py:162-225 | `create_many` with the permission set back on every path (intended; see Findings). |
| Write.CreateManyPaths | grill/write/__init__.py:215-225 | Success returns one prim per name, in order, under the taxon's scope, and happens exactly when every name is a valid prim name (intended). |
| Write.CreateManyKeeps | grill/write/__init__.py:196-222 | Every prim that was there is kept, the scope at most becoming an `assembly`; every returned unit exists and its asset references the taxon in the taxonomy layer (intended). |
| Write.PermissionLeftOpen | grill/write/__init__.py:185-224 | A missing taxonomy layer or a failing name leaves a read-only pipeline layer open as written, and closed again as intended (as written vs intended; see Findings). |
| Write.CreateSpec | grill/write/__init__.py:228-235 | `create` is the first prim of a one-name `create_many` (intended). |
| Write.CreateMany | grill/write/__init__.py:162-225 | The method's new state and result are those of `CreateManySpec` (intended). |
| Write.Create | grill/write/__init__.py:228-235 | The method's new state and result are those of `CreateSpec` (intended). |
| MayaAnimation.ApiAttrs | maya/animation/controller.py:35 | The table maps each converted name to its attribute, the later attribute winning a clash; it holds exactly the conversions of the names (as written). |
| MayaAnimation.ApiAttrsInjective | maya/animation/controller.py:35 | When no two names convert alike, the visiting order does not matter: each name sits under its own conversion (as written). |
| MayaAnimation.CurveAttrNames | maya/animation/controller.py:32 | The curve attributes convert to `is_static`, `is_weighted`, `pre_infinity_type` and `post_infinity_type` (as written). |
| MayaAnimation.KeyAttrNames | maya/animation/controller.py:33 | The key attributes convert to `value`, `is_breakdown`, `tangents_locked`, `in_tangent_type` and `out_tangent_type` (as written). |
| MayaAnimation.CurveApiAttrs | maya/animation/controller.py:35 | `_API_ATTRS['curve']` is the snake-case-to-attribute table of the curve attributes, in any set order (as written). |
| MayaAnimation.KeyApiAttrs | maya/animation/controller.py:35 | `_API_ATTRS['key']` is the snake-case-to-attribute table of the key attributes, in any set order (as written). |
| MayaAnimation.CollectedStep | maya/animation/controller.py:135-140 | Searching one more plug, and collecting its node when it is a curve not found yet, keeps `Collected` (as written). |
| MayaAnimation.CollectedTrans | maya/animation/controller.py:144 | A recursive call continuing from the lists of its caller adds what both add (as written). |
| MayaAnimation.GetNodeAnimCurves | maya/animation/controller.py:130-145 | Null and searched plugs are skipped; every processed plug is searched; a curve node is added once; constraints and transforms stop the search; other nodes are searched recursively with the same lists; afterwards all the node's source plugs are searched, and every searched plug ends a chain of connections from the root of the search (as written). |
| MayaAnimation.PathSearched | maya/animation/controller.py:141-144 | A closed search that expanded a node has searched every plug of every bridge path from it (as written). |
| MayaAnimation.NodeAnimCurves | maya/animation/controller.py:111-128 | From empty lists: the found nodes are distinct time-driven curves, each ending a chain of connections from the node whose inner nodes do not stop the search, and every curve reached directly or through bridge nodes is found (as written). |
| MayaAnimation.Find | maya/animation/controller.py:208 | `find(t)`: the first key at `t`, or none exactly when no key sits there (as written). |
| MayaAnimation.AddKey | maya/animation/controller.py:209 | `addKey(t, v)` puts the new key after the keys at or before `t` (as written; the placement is assumed, see Left out). |
| MayaAnimation.AddKeyMultiset | maya/animation/controller.py:209 | `addKey` adds the one new key and keeps every other (as written). |
| MayaAnimation.FirstKeyDuplicated | maya/animation/controller.py:208 | When the first key sits at the time to set, the loop as written puts a second key there, the intended loop keeps one (as written vs intended; see Findings). |
| MayaAnimation.UpsertKeeps | maya/animation/controller.py:206-210 | One upsert keeps one key per time, leaves a key at the time with the data's key data, keeps an existing value and adds a key only when none was there (intended). |
| MayaAnimation.UpsertAdds | maya/animation/controller.py:208-210 | With no key at the time, the upsert adds one where `addKey` puts it, holding the data (intended). |
| MayaAnimation.UpsertAllKeys | maya/animation/controller.py:206-210 | After the whole loop every data time has exactly one key, times still increase, and each such key holds the key data of the last entry at its time (intended). |
| MayaAnimation.UpsertAllKeeps | maya/animation/controller.py:206-210 | A time that has a key keeps one through later upserts (intended). |
| MayaAnimation.UpsertAllUntouched | maya/animation/controller.py:206-210 | A key whose time no later entry touches comes through the loop unchanged (intended). |
| MayaAnimation.AnimCurve.constructor | maya/animation/controller.py:185-189 | A curve with the given keys and default settings (as written). |
| MayaAnimation.AnimCurve.SetAnimCurveData | maya/animation/controller.py:192-210 | The weighted flag and infinity types are set, and the keys become the upsert of every entry in order (intended; see Findings). |
| ViewsGraph.Shade | grill/views/_graph.py:34 | Even rows are white, odd rows light blue (as written). |
| ViewsGraph.ParseField | grill/views/_graph.py:33 | A field splits at its first `>` after the angle brackets are stripped into its port and its text; a field with no `>` fails with `ValueError` (as written). |
| ViewsGraph.ConvertRecord | grill/views/_graph.py:30-36 | The loop builds the record's table one row per field, in colour order, and the first field naming no port fails the conversion (as written). |
| ViewsGraph.ConvertLabel | grill/views/_graph.py:27-41 | The method computes `HtmlLabel`, whose meaning the next four lemmas state (as written). |
| ViewsGraph.RecordLabelRoundTrip | grill/views/_graph.py:29-36 | A record label built from well-formed cells converts into a table whose rows carry those ports and texts, in order and in alternating colours (as written). |
| ViewsGraph.EmptyRecordRaises | grill/views/_graph.py:30-33 | `{}` has one empty field naming no port, so its conversion raises (as written). |
| ViewsGraph.HtmlLabelUnwrapped | grill/views/_graph.py:37-40 | An HTML label loses exactly its outer pair of angle brackets, with the rounded-table attributes replaced (as written). |
| ViewsGraph.PlainLabelKept | grill/views/_graph.py:41 | Any other label is displayed as it is (as written). |
| ViewsGraph.PlugActivated | grill/views/_graph.py:133-144 | The edge joins this side's edges and leaves the other side's; this side's marker shows; the other side's marker shows only if it did and edges remain (as written). |
| ViewsGraph.Activated | grill/views/_graph.py:130-132 | The centre plug (`None`) changes nothing; otherwise only the given plug's state changes (as written). |
| ViewsGraph.ActivatedExclusive | grill/views/_graph.py:134-137 | No edge is ever drawn to both sides of a plug (as written). |
| ViewsGraph.ActivatedMarkersShown | grill/views/_graph.py:139-142 | Every side with edges drawn to it keeps showing its marker (as written). |
| ViewsGraph.ActivatedIdempotent | grill/views/_graph.py:130-144 | Drawing the same edge to the same side twice changes nothing the second time (as written). |
| ViewsGraph.PlugNode.constructor | grill/views/_graph.py:57-62 | One marker pair per active plug, named through the port map, every marker without edges (as written). |
| ViewsGraph.PlugNode.ActivatePlug | grill/views/_graph.py:130-144 | The node's plugs become `Activated` of the old ones (as written). |
| ViewsGraph.Induced | grill/views/_graph.py:514 | `subgraph(nodes)` is a well-formed graph of the chosen nodes in the graph and the edges between them (as written). |
| ViewsGraph.FirstMissing | grill/views/_graph.py:511-512 | None exactly when every selected node is in the graph; otherwise a selected node the graph lacks (as written). |
| ViewsGraph.ViewOf | grill/views/_graph.py:508-526 | The view fails exactly when a selected node is missing from the graph, naming it; otherwise it is a well-formed part of the graph (as written). |
| ViewsGraph.ViewNodes | grill/views/_graph.py:511-524 | A node is shown exactly when the graph holds it, the node filter keeps it, and it is sticky, selected or adjacent to a selected node (as written). |
| ViewsGraph.ViewEdges | grill/views/_graph.py:537-545 | An edge between two shown nodes is shown exactly when the edge filter keeps it, which it always does when an end is sticky (as written). |
| ViewsGraph.GraphView.constructor | grill/views/_graph.py:401-428 | No filters, no sticky nodes, nothing viewed and an empty scene (as written). |
| ViewsGraph.GraphView.LoadGraph | grill/views/_graph.py:552-579 | An empty graph leaves the scene as it was; any other graph becomes the scene; nothing else changes (as written). |
| ViewsGraph.GraphView.SetGraph | grill/views/_graph.py:547-550 | The graph is replaced and loaded (as written). |
| ViewsGraph.GraphView.SetFilterEdges | grill/views/_graph.py:536-545 | A predicate installs its wrapper and `None` removes the filter; nothing else changes (as written). |
| ViewsGraph.GraphView.View | grill/views/_graph.py:508-526 | The selection is remembered, and the scene becomes `ViewOf` when it succeeds, or the error is returned (as written). |
| ViewsGraph.GraphView.GraphUrlChanged | grill/views/_graph.py:483-489 | An unknown sender gives `LookupError` with nothing changed; a known one views just its node (as written). |
| DiagramItems.ArcDependencies | grill/views/_diagrams.py:175-180 | Every dependency recorded has an asset path and the arc's kind, never more than the arcs given (as written). |
| DiagramItems.Ports | grill/views/_diagrams.py:307 | The ports of the rows, one per row, in order (as written). |
| DiagramItems.PrimVisitNumbered | grill/views/_diagrams.py:155-213 | A prim's own row takes the port reserved before its metadata rows, none of which reuses it; the rows only grow (as written). |
| DiagramItems.CollectNumbered | grill/views/_diagrams.py:127-260 | Every row of a layer has its own port below the counter, every port with dependencies is a MID row, LOW rows span the table, and only sublayers may have an empty asset path (as written). |
| DiagramItems.SkippedKeysIgnored | grill/views/_diagrams.py:159-160 | `comment` and `documentation` make no row (as written). |
| DiagramItems.InternalArcsIgnored | grill/views/_diagrams.py:175-179 | References and payloads that stay inside the layer record no dependency (as written). |
| DiagramItems.ArcDependenciesFrom | grill/views/_diagrams.py:175-180 | Each recorded dependency is one of the arcs, with its asset and prim path (as written). |
| DiagramItems.CollectInfo | grill/views/_diagrams.py:158-208 | The loop over a prim's metadata gives the rows and `typeName` of `InfoSteps` (as written). |
| DiagramItems.CollectRootInfo | grill/views/_diagrams.py:220-249 | The loop over the layer metadata gives the rows of `RootInfoSteps` (as written). |
| DiagramItems.ItemCollector | grill/views/_diagrams.py:127-258 | `item_collector(path)` gives `VisitStep`; target paths add nothing (as written). |
| DiagramItems.CollectLayer | grill/views/_diagrams.py:260 | The traversal gives `Collect(layer)`, which is `Numbered` (as written). |
| ViewsDiagrams.EmptyValid | grill/views/_diagrams.py:55-64 | A new graph, with no layers, is valid (as written). |
| ViewsDiagrams.AddNode | grill/views/_diagrams.py:108-116 | A layer seen before gives its node back and changes nothing; a new layer gets the next id and the rows its traversal collects; levels and edges are untouched (as written). |
| ViewsDiagrams.AddNodeValid | grill/views/_diagrams.py:113-116 | Adding a layer keeps ids dense and one per layer; the returned node belongs to the layer, and is new exactly when the layer is (as written). |
| ViewsDiagrams.AddNodeCollected | grill/views/_diagrams.py:262-269 | Every node keeps holding what its layer's traversal collects (as written). |
| ViewsDiagrams.AddNodeIdempotent | grill/views/_diagrams.py:113-114 | Adding a layer again gives the same node and the same graph (as written). |
| ViewsDiagrams.AddNodeDistinct | grill/views/_diagrams.py:113-116 | Two layers get the same node exactly when they are the same layer (as written). |
| ViewsDiagrams.ParseHeadport | grill/views/_diagrams.py:287-289 | A headport without `C0R` is kept as it is; with it, the rest is read as a decimal integer, and a rest that is not a digit run fails (as written; narrower than `int()`, see Left out). |
| ViewsDiagrams.HeadPortRoundTrip | grill/views/_diagrams.py:289 | Every headport drawn reads back as the target row's port (as written). |
| ViewsDiagrams.HeadPortInjective | grill/views/_diagrams.py:74 | Different ports get different headports (as written). |
| ViewsDiagrams.IncomingPortsMembers | grill/views/_diagrams.py:283-290 | The ports of interest are exactly the ports the edges into the node are drawn to (as written). |
| ViewsDiagrams.DependencyPortsMembers | grill/views/_diagrams.py:292 | The ports with dependencies are exactly those the dependency list names (as written). |
| ViewsDiagrams.MidItemsMembers | grill/views/_diagrams.py:292 | The MID level keeps exactly the LOW or MID rows with dependencies, the spanning rows, and the rows an edge points at (as written). |
| ViewsDiagrams.LowItemsMembers | grill/views/_diagrams.py:298 | The LOW level keeps exactly the LOW rows (as written). |
| ViewsDiagrams.ReversedIndex | grill/views/_diagrams.py:279 | `reversed` lists the elements from the last to the first (as written). |
| ViewsDiagrams.LodsOfPorts | grill/views/_diagrams.py:305-330 | Each level's ports are its rows' ports, in the order the rows are shown (as written). |
| ViewsDiagrams.LevelsOf | grill/views/_diagrams.py:279-302 | The one-pass levels equal the reversed rows, MID rows and LOW rows the source filters (as written). |
| ViewsDiagrams.Prepare | grill/views/_diagrams.py:272-330 | `RuntimeError` exactly for a node not in the graph; otherwise only that node's levels are set (as written). |
| ViewsDiagrams.PrepareValid | grill/views/_diagrams.py:272-330 | Preparing a node keeps the graph valid (as written). |
| ViewsDiagrams.PrepareShows | grill/views/_diagrams.py:279-330 | HIGH shows every row reversed, LOW the LOW rows, MID the rows with dependencies, the spanning rows and the rows an edge points at; each level's ports are its rows' ports (as written). |
| ViewsDiagrams.LowWithinMid | grill/views/_diagrams.py:292-298 | Every LOW row of a collected node is also shown at MID (as written). |
| ViewsDiagrams.PreparedLodsKeys | grill/views/_diagrams.py:104-105 | Preparing a range of nodes gives exactly those nodes the levels preparing each alone gives, others unchanged (as written). |
| ViewsDiagrams.ExpansionPrepared | grill/views/_diagrams.py:104-105 | Preparing the nodes an expansion added keeps the graph valid and grown from before (as written). |
| ViewsDiagrams.UnloadedDrops | grill/views/_diagrams.py:116 | Loading a new layer leaves one fewer layer to load, which bounds the recursion (intended). |
| ViewsDiagrams.EdgesAdded | grill/views/_diagrams.py:103 | Adding the edges found at the end keeps the graph valid (as written). |
| ViewsDiagrams.Expand | grill/views/_diagrams.py:66-106 | Expansion keeps the graph valid and grown, returns nodes of the graph, and fails only on a missing port (intended; see Findings). |
| ViewsDiagrams.Handle | grill/views/_diagrams.py:78-94 | A layer the resolver cannot find is skipped with nothing changed; otherwise the edge goes from the dependency's row to a node it returns (intended). |
| ViewsDiagrams.Load | grill/views/_diagrams.py:82-85 | The dependency's node is in the graph afterwards and the graph only grows (intended; see Findings). |
| ViewsDiagrams.ExpandPreparesNew | grill/views/_diagrams.py:104-105 | After a successful expansion a node has levels exactly when it had them before or is new (intended). |
| ViewsDiagrams.ExpandCollected | grill/views/_diagrams.py:66-106 | An expansion keeps every node holding what its layer collects (intended). |
| ViewsDiagrams.ExpandAsWritten | grill/views/_diagrams.py:84-85 | The expansion as written re-expands a node already in the graph, bounded by the recursion limit (as written; see Findings). |
| ViewsDiagrams.SelfDependentAsWritten | grill/views/_diagrams.py:84-85 | A node whose dependency leads back to its own layer fails with `RecursionError` whatever the limit, leaving the graph unchanged (as written; see Findings). |
| ViewsDiagrams.SelfDependencyAsWritten | grill/views/_diagrams.py:84-85 | A layer sublayering itself, expanded recursively, fails with `RecursionError` (as written; see Findings). |
| ViewsDiagrams.SelfDependencyExpanded | grill/views/_diagrams.py:84-85 | The intended expansion of that layer ends with one edge from its `subLayers` row to its own row (intended; see Findings). |
| AssetGraph.AssetStructureGraph.constructor | grill/views/_diagrams.py:55-64 | An empty graph over the resolver given (as written). |
| AssetGraph.AssetStructureGraph.AddNodeFromLayer | grill/views/_diagrams.py:108-270 | The graph and id become `AddNode` of the old graph, which stays valid (as written). |
| AssetGraph.AssetStructureGraph.PortsOfInterest | grill/views/_diagrams.py:283-290 | The loop's ports are `IncomingPorts` of the edges (as written). |
| AssetGraph.AssetStructureGraph.PrepareForDisplay | grill/views/_diagrams.py:272-330 | A missing node gives `RuntimeError` with nothing changed; otherwise only its levels are set to `NodeLods` (as written). |
| AssetGraph.AssetStructureGraph.PrepareNodes | grill/views/_diagrams.py:104-105 | The graph becomes `PrepareRange` of the old one (as written). |
| AssetGraph.AssetStructureGraph.ExpandDependencies | grill/views/_diagrams.py:66-106 | The graph and result become `Expand` of the old graph (intended). |
| AssetGraph.AssetStructureGraph.FollowDependencies | grill/views/_diagrams.py:96-101 | The loops over the dependencies give `Steps` (intended). |
| AssetGraph.AssetStructureGraph.HandleUpstreamDependency | grill/views/_diagrams.py:78-94 | The graph and result become `Handle` of the old graph (intended). |
| AssetGraph.AssetStructureGraph.LoadDependency | grill/views/_diagrams.py:82-85 | The graph, node and result become `Load`, which expands only a node that was not in the graph (intended; see Findings). |
| ViewsDescription.WalkLayerTree | grill/views/description.py:75-80 | A tree with a layer yields that layer first (as written). |
| ViewsDescription.WalkLayerTreeMembers | grill/views/description.py:75-80 | The walk yields exactly the layers held somewhere in the tree; trees without a layer add none (as written). |
| ViewsDescription.WalkForestMembers | grill/views/description.py:79-80 | The walk over child trees yields exactly the layers held in one of them (as written). |
| ViewsDescription.LastIndex | grill/views/description.py:73 | The index of the last occurrence of a character, with no occurrence after it, or none when it does not occur (as written). |
| ViewsDescription.PathName | grill/views/description.py:73 | `Path(p).name` holds no `/` (as written). |
| ViewsDescription.LayerLabelOf | grill/views/description.py:72-73 | A layer stored at `dir/stem.ext` is labelled `stem`; one without a real path is labelled by its identifier (as written). |
| ViewsDescription.NonRootLabels | grill/views/description.py:104-108 | One label per layer other than the root, in stack order (as written). |
| ViewsDescription.LabelPartsBars | grill/views/description.py:96-109 | The appended text is `|` and a label for each layer other than the root (as written). |
| ViewsDescription.RecordLabelFields | grill/views/description.py:96-109 | With plain labels, the record label parses back, in the graph view's record conversion, into the root's label followed by every other layer's label (as written). |
| ViewsDescription.WrappedFields | grill/views/description.py:96-109 | Plain labels joined by `|` and wrapped in braces split back into the labels (as written). |
| ViewsDescription.Legend | grill/views/description.py:56-64 | The legend: nodes 0 to 9, all invisible, and for the `k`-th arc one edge from `2k` to `2k+1` in its colour (as written). |
| ViewsDescription.StartValid | grill/views/description.py:56-70 | The state after the legend, with `stack_id_by_node_idx` holding the legend ids, satisfies the invariant (as written). |
| ViewsDescription.DenseAdd | grill/views/description.py:89-95 | A new root gets the next id, `len(stack_id_by_node_idx)`, and the indices stay dense (as written). |
| ViewsDescription.InverseAdd | grill/views/description.py:100-103 | A new stack's layers each list its index, and nothing else does (as written). |
| ViewsDescription.StackRecord | grill/views/description.py:96-109 | The loop over the stack's layers gives the record label, the fill colour (pale goldenrod exactly when a layer is dirty) and each layer's index entry (as written). |
| ViewsDescription.AddNode | grill/views/description.py:86-125 | The method computes `AddedNode`, which the next two lemmas characterise (as written). |
| ViewsDescription.AddNodeMemoised | grill/views/description.py:89-90 | Adding the same pcp node again returns the same index and changes nothing (as written). |
| ViewsDescription.AddedNodeValid | grill/views/description.py:86-125 | `_add_node` keeps the invariant, returns the index of a stack whose first layer is the node's root, and forgets nothing known before (as written). |
| ViewsDescription.AddArcEdges | grill/views/description.py:143-147 | One edge from each source index to the target in the arc's colour, whatever order the set yields them in (as written). |
| ViewsDescription.ArcStepValid | grill/views/description.py:136-147 | One arc keeps the invariant, and its index is its target's (as written). |
| ViewsDescription.ArcsStepValid | grill/views/description.py:131-150 | The arcs of a prim keep the invariant; afterwards every target has an index, the affected indices are the targets' indices, and every new arc edge was drawn for one of the arcs (as written). |
| ViewsDescription.ComputeComposition | grill/views/description.py:131-150 | The method computes `Composed`: the cached indices when the forwarded prim was computed before, else the arcs' effect (as written). |
| ViewsDescription.ComposedValid | grill/views/description.py:131-150 | Cached or not, the composition keeps the invariant and leaves the prim's composition cached (as written). |
| ViewsDescription.RecordPath | grill/views/description.py:156-157 | The prim's path is recorded on every affected node and nowhere else (as written). |
| ViewsDescription.PrimStepInv | grill/views/description.py:152-157 | Each prim of the loop keeps the loop invariant (as written). |
| ViewsDescription.ComputeLayerStackGraph | grill/views/description.py:50-163 | The finished graph has the legend; every stack is the record `_add_node` draws, linked to its own index, with no two stacks sharing a root; `indices_by_layers` lists exactly the stacks holding each layer; each stack lists exactly the paths of the prims with an arc to it; every arc edge draws an arc of one of the prims (as written). |
| ViewsDescription.GraphFacts | grill/views/description.py:159-163 | The finished graph shows all of the above, from the loop invariant (as written). |
| ViewsDescriptionViewer.NodeOfUrl | grill/views/description.py:237-244 | `None` exactly when the link's last segment lacks the prefix; an error exactly when it has the prefix and the rest is not a digit run (as written). |
| ViewsDescriptionViewer.NodeOfHref | grill/views/description.py:121 | Reading back the link put on the node at `index`, behind any location, gives `index` (as written). |
| ViewsDescriptionViewer.FirstMissing | grill/views/description.py:258 | None exactly when every selected index is a node; otherwise a selected index that is not (as written). |
| ViewsDescriptionViewer.SubgraphShows | grill/views/description.py:247-264 | An error exactly when a selected index is not a node; otherwise every selected node, every edge touching one and both its ends, the sticky nodes the graph has, and nothing else (as written). |
| ViewsDescriptionViewer.GraphViewer.constructor | grill/views/description.py:227-231 | No graph, no sticky nodes, nothing memoised or shown (as written). |
| ViewsDescriptionViewer.GraphViewer.SetGraph | grill/views/description.py:274-278 | The graph is replaced and the memo and the sticky nodes are cleared (as written). |
| ViewsDescriptionViewer.GraphViewer.Pin | grill/views/description.py:427 | The sticky nodes are extended; nothing else changes (as written). |
| ViewsDescriptionViewer.GraphViewer.View | grill/views/description.py:266-268 | A memoised selection shows its memoised neighbourhood; a new one is computed and memoised; while nothing is stale, what it shows is the neighbourhood of the current sticky nodes (as written). |
| ViewsDescriptionViewer.GraphViewer.Memoise | grill/views/description.py:247-264 | A selection not memoised yet gets its neighbourhood, memoised and shown unless networkx raises (as written). |
| ViewsDescriptionViewer.GraphViewer.UrlChanged | grill/views/description.py:237-244 | A link with the node prefix views that one node; another link changes nothing; a prefix followed by anything but digits raises with nothing changed (as written). |
| ViewsDescriptionViewer.ClickShowsNode | grill/views/description.py:121 | Clicking the drawn node at `index` in a graph that has it shows a neighbourhood holding it (as written). |
| ViewsDescriptionViewer.SelectedIndices | grill/views/description.py:404 | The stacks holding one of the selected layers (as written). |
| ViewsDescriptionViewer.SelectedPaths | grill/views/description.py:405 | The prim paths recorded on the selected stacks (as written). |
| ViewsDescriptionViewer.SelectionOfGraph | grill/views/description.py:402-418 | On a graph built by `_compute_layerstack_graph`, the selected stacks are those holding a selected layer, and the prims listed are exactly those with an arc to one of them (as written). |
| ViewsSheets.EditorFilterAccepts | grill/views/sheets.py:692-693 | With the buttons the editor checks on opening, the filter keeps exactly the defined, non-abstract, active prims (as written). |
| ViewsSheets.EverySpecifier | grill/views/sheets.py:69-74 | With orphaned, classes and defined all checked, every prim passes the specifier test (as written). |
| ViewsSheets.EveryStatus | grill/views/sheets.py:76-78 | With active and inactive both checked, every prim passes the status test (as written). |
| ViewsSheets.OrWidens | grill/views/sheets.py:80 | A prim the `and` filter keeps is kept by the `or` filter too (as written). |
| ViewsSheets.Listed | grill/views/sheets.py:296-300 | The listed prims are exactly the stage's prims that the traversal visits and the filter keeps, never more than the stage has (as written). |
| ViewsSheets.ForegroundColor | grill/views/sheets.py:315-334 | Instance colour exactly for instances; prototype colour exactly for other prims in a prototype or instance proxies; the arcs colours exactly for the remaining prims with arcs, orange when active and dark orange when not; grey exactly for the rest that are inactive; no colour otherwise (as written). |
| ViewsSheets.PrimFont | grill/views/sheets.py:254-266 | Extra light and spaced exactly when abstract; light and italic exactly when orphaned and not abstract; normal weight otherwise (as written). |
| ViewsSheets.FontOf | grill/views/sheets.py:335-340 | Abstract prims are extra light; italic exactly for prims that are not defined and not abstract (as written). |
| ViewsSheets.StageTableModel.constructor | grill/views/sheets.py:282-289 | The given columns, no stage, no prims, nothing locked, every prim kept and every prim traversed (as written). |
| ViewsSheets.StageTableModel.SetStage | grill/views/sheets.py:295-300 | The stage is stored and the prims become `Listed` of it (as written). |
| ViewsSheets.StageTableModel.RowCount | grill/views/sheets.py:302-303 | One row per listed prim (as written). |
| ViewsSheets.StageTableModel.ColumnCount | grill/views/sheets.py:305-306 | One column per column spec (as written). |
| ViewsSheets.StageTableModel.Data | grill/views/sheets.py:308-343 | Nothing for an invalid index or another role; the prim for the raw role; its colour, font or the column's text for the foreground, font and display roles (as written). |
| ViewsSheets.StageTableModel.Sort | grill/views/sheets.py:345-352 | The prims are `sorted` by the column's text with `reverse` set exactly for Qt's ascending order: the same prims, each in order (as written). |
| ViewsSheets.StageTableModel.SetColumnLocked | grill/views/sheets.py:502-504 | Exactly one column is added to or discarded from the locked set; its cells become editable exactly when unlocked and the prim is no instance proxy; other columns keep their editability (as written). |
| ViewsSheets.ProxyModel.constructor | grill/views/sheets.py:463-464 | A proxy over the given model (as written). |
| ViewsSheets.ProxyModel.Sort | grill/views/sheets.py:241-242 | Sorting the proxy sorts its source (as written). |
| ViewsSheets.HeaderData | grill/views/sheets.py:231-238 | The vertical header shows `section + 1` and the horizontal one is blank for the display role; other roles are left to Qt (as written). |
| ViewsSheets.VerticalHeaderNumbers | grill/views/sheets.py:235-236 | The rows shown are numbered 1, 2, 3, ... by position (as written). |
| ViewsSheets.LockState | grill/views/sheets.py:716 | `_lock_states[text]` knows exactly the two keys; anything else is the `KeyError` (as written). |
| ViewsSheets.EmojiSuffix | grill/views/sheets.py:24-29 | `_emoji_suffix()` is one space exactly where the widgets drop the last character of the probe text, and "" where they keep it (as written). |
| ViewsSheets.SuffixNeeded | grill/views/sheets.py:26-29 | On widgets that drop the last character, a key set without the suffix would read back as no key of `_lock_states`; this is what the workaround avoids (as written). |
| ViewsSheets.LockValueRoundTrip | grill/views/sheets.py:715-718 | On either kind of widget, a key set with `_emoji_suffix()` is read back by `text()` as the bare key, which `_lock_states` maps to the value it came from (as written). |
| ViewsSheets.CountBoth | grill/views/sheets.py:768 | The counts of locked and unlocked columns add up to the number of columns (as written). |
| ViewsSheets.MostCommon | grill/views/sheets.py:768-769 | `most_common(1)` gives a state at least as frequent as the other, and on a tie the state counted first (as written). |
| ViewsSheets.MostCommonMajority | grill/views/sheets.py:768-769 | A strict majority is what the editor reads as the current state (as written). |
| ViewsSheets.SpreadsheetEditor.constructor | grill/views/sheets.py:714-718 | Every column unlocked, the lock-all button offering to lock all with its suffix, sorting on (as written). |
| ViewsSheets.SpreadsheetEditor.UpdatePredicates | grill/views/sheets.py:657-670 | The model takes the buttons' filter and traversal; a given stage is listed, otherwise the model's own again; the prims are exactly those the traversal visits and the filter keeps (as written). |
| ViewsSheets.SpreadsheetEditor.ConformLockSwitch | grill/views/sheets.py:766-771 | The current state is the majority of the lock buttons, and the lock-all button offers the opposite (as written). |
| ViewsSheets.SpreadsheetEditor.ClickColumnLock | grill/views/sheets.py:750-752 | The clicked button flips, its column is locked exactly when the button now is, and the lock-all button follows the majority (as written). |
| ViewsSheets.SpreadsheetEditor.ConformLocked | grill/views/sheets.py:783-788 | The value is `_lock_states` of the lock-all button's `text()`, always a key; every button and every column take it, and the button then offers the opposite with the suffix (as written). |
| ViewsSheets.MinOf | grill/views/sheets.py:518-519 | `rows[0]` after sorting: an element no larger than any other (as written). |
| ViewsSheets.MaxOf | grill/views/sheets.py:518-519 | `rows[-1]` after sorting: an element no smaller than any other (as written). |
| ViewsSheets.LastText | grill/views/sheets.py:524-527 | Some text exactly when a selected index sits at that position (as written). |
| ViewsSheets.GridCell | grill/views/sheets.py:520-527 | Each cell of the grid holds the text selected there, or `''` (as written). |
| ViewsSheets.GridShape | grill/views/sheets.py:520-523 | The grid has `rowcount` rows of `colcount` cells (as written). |
| ViewsSheets.GridStep | grill/views/sheets.py:524-527 | Taking one more selected index sets exactly its cell (as written). |
| ViewsSheets.GridEmpty | grill/views/sheets.py:523 | Before the loop the grid is all `''` (as written). |
| ViewsSheets.CopySelection | grill/views/sheets.py:515-529 | Nothing is copied exactly when nothing is selected; otherwise the grid over the selection's bounding rectangle (as written). |
| ViewsSheets.CopyPlacesSelected | grill/views/sheets.py:524-527 | Each selected index's text lands at its offset from the top-left corner (as written). |
| ViewsSheets.RowsReached | grill/views/sheets.py:593-615 | The rows the paste loop reaches with a cell to set lie between the top selected row and the limit, in increasing order (as written). |
| ViewsSheets.RowsReachedIff | grill/views/sheets.py:593-615 | A row is reached exactly when it lies in the loop's range, is not the row one past the table's end and, for a single data row, is selected (as written). |
| ViewsSheets.RowsReachedPrefix | grill/views/sheets.py:593-597 | Raising the loop bound only adds rows after those already reached (as written). |
| ViewsSheets.PasteAsWrittenRaisesFirst | grill/views/sheets.py:593-615 | When the paste raises `AttributeError` at `itemFromIndex`, it names the first row the loop reaches, and no row before it is reached (as written; see Findings). |
| ViewsSheets.PasteAsWrittenNoRaise | grill/views/sheets.py:593-615 | A paste that returns normally reached no row with a cell to set, so it set no cell (as written; see Findings). |
| ViewsSheets.AsWrittenRaisesWhereIntendedWrites | grill/views/sheets.py:606-615 | Wherever the intended paste sets a cell, the paste as written raises `AttributeError` on that row or an earlier one (as written; see Findings). |
| ViewsSheets.PasteAsWrittenOverruns | grill/views/sheets.py:579-615 | Two data rows on the selected rows 0 and 1 of a five-row table raise at row 0, and the loop bound also reaches row 2, below the selection (as written; see Findings). |
| ViewsSheets.PasteAsWrittenFillsGaps | grill/views/sheets.py:565-615 | Three data rows on the selected rows 0 and 2 pass the checks, raise at row 0, and the loop would reach row 1 between them; the intended paste refuses them (as written; see Findings). |
| ViewsSheets.StageTable.PasteClipboardAsWritten | grill/views/sheets.py:531-615 | The result is the as-written paste: the three checks, then `AttributeError` at the first reached row; sorting is left off exactly when it raises there, and no cell is ever set (as written; see Findings). |
| ViewsSheets.RowWrites | grill/views/sheets.py:622-646 | One cell per data cell of the row, in the visited row, from the left selected column on (intended; see Findings). |
| ViewsSheets.Visit | grill/views/sheets.py:593-646 | The cells set lie on rows from the top selected row below the limit, never on the row one past the table's end (intended; see Findings). |
| ViewsSheets.VisitPrefix | grill/views/sheets.py:593-600 | The cells set below a lower limit come first among those set below a higher one (intended; see Findings). |
| ViewsSheets.VisitRows | grill/views/sheets.py:593-646 | Each cell set is on a visited row, from the left column, with the text of the data row cycled to that row; a single data row is set only on selected rows (intended; see Findings). |
| ViewsSheets.PasteAccepted | grill/views/sheets.py:541-571 | An accepted paste has data and is the visit of the selected rows up to the limit; with several data rows, the selection is one run of rows as long as the data (intended; see Findings). |
| ViewsSheets.PasteWritesSelection | grill/views/sheets.py:593-646 | An accepted paste sets only selected rows of the table, each cell from the left selected column on, the data rows in turn from the top selected row (intended; see Findings). |
| ViewsSheets.MultiRowSelected | grill/views/sheets.py:566-571 | An accepted paste of several data rows visits only selected rows (intended; see Findings). |
| ViewsSheets.Settled | grill/views/sheets.py:622-646 | The number of cells set is the position of the first cell whose setting raises, or all of them: every cell before it takes (as written). |
| ViewsSheets.PasteOutcome | grill/views/sheets.py:531-648 | A refused paste keeps its error; the paste succeeds exactly when every planned cell takes, and then sets the whole plan; otherwise it fails at a planned cell that raises (intended; see Findings). |
| ViewsSheets.ReadOnlyPasteFails | grill/views/sheets.py:443-452 | On the table's columns, a planned cell in Path, Name or Visibility (no setter), or past Hidden (no item), makes the paste fail at that cell or before it (intended; see Findings). |
| ViewsSheets.StageTable.constructor | grill/views/sheets.py:443-484 | The seven columns' setters, sorting on, nothing set (as written). |
| ViewsSheets.StageTable.SetRow | grill/views/sheets.py:622-646 | The cells of one visited row are set left to right until one raises; it reports whether all took (intended; see Findings). |
| ViewsSheets.StageTable.PasteRows | grill/views/sheets.py:593-646 | The loop sets the cells of `Visit` in order until one raises; it reports whether all took (intended; see Findings). |
| ViewsSheets.StageTable.PasteClipboard | grill/views/sheets.py:531-648 | The result is `PasteOutcome`; a refused paste sets nothing, an accepted one sets its planned cells up to the first that raises; sorting stays off exactly when a cell raised, and is restored otherwise (intended; see Findings). |
| ViewsSpreadsheet.ExtraFilters | grill/views/spreadsheet.py:137-152 | `ValueError` exactly for an invalid source index; the row is refused exactly when it has a prim that is not a model while the model hierarchy filter is on (as written). |
| ViewsSpreadsheet.FilterAcceptsRow | grill/views/spreadsheet.py:154-158 | A row whose text does not match is refused without the extra filters; one that matches gets their verdict (as written). |
| ViewsSpreadsheet.FilterAcceptsRowExactly | grill/views/spreadsheet.py:137-158 | A row is shown exactly when its text matches, its index is valid, and it has no prim, or the model filter is off, or its prim is a model (as written). |
| ViewsSpreadsheet.Kept | grill/views/spreadsheet.py:154-158 | A proxy keeps exactly the rows of its source that it accepts, as positions of that source (as written). |
| ViewsSpreadsheet.MapToSource | grill/views/spreadsheet.py:120 | `mapToSource` gives the source row showing the same item model row (as written). |
| ViewsSpreadsheet.SourceRowShown | grill/views/spreadsheet.py:116-122 | Following `mapToSource` down the chain reaches the item model row the table shows there (as written). |
| ViewsSpreadsheet.RowsAccepted | grill/views/spreadsheet.py:296-301 | The chained proxies show exactly the rows every one of them accepts (as written). |
| ViewsSpreadsheet.HeaderData | grill/views/spreadsheet.py:130-135 | Display-role vertical headers show `section + 1`; everything else is left to Qt, horizontal headers included (as written). |
| ViewsSpreadsheet.FindText | grill/views/spreadsheet.py:507 | `findText` gives the first option with the text, or `-1` exactly when there is none (as written). |
| ViewsSpreadsheet.EditorAsWrittenClearsType | grill/views/spreadsheet.py:505-509 | A type the options do not hold makes a fresh editor current index `-1`, showing empty text (as written; see Findings). |
| ViewsSpreadsheet.EditorAsWrittenSkipsFirst | grill/views/spreadsheet.py:508 | An editor on another option does not move to the first option when that is the cell's type (as written; see Findings). |
| ViewsSpreadsheet.SetEditorData | grill/views/spreadsheet.py:505-509 | The editor shows the cell's type when it is an option, otherwise keeps its current one (intended; see Findings). |
| ViewsSpreadsheet.EditorKeepsType | grill/views/spreadsheet.py:505-509 | Committing an untouched editor keeps a type that is an option (intended; see Findings). |
| ViewsSpreadsheet.RowOf | grill/views/spreadsheet.py:477-484 | One item per column, showing the column's text for the prim and holding the prim (as written). |
| ViewsSpreadsheet.Spreadsheet.constructor | grill/views/spreadsheet.py:276-344 | The stage's prims each on their own row, sorting on as the checked checkbox says, every column unlocked, the lock-all button offering to lock all (as written). |
| ViewsSpreadsheet.Spreadsheet.AddPrimToRow | grill/views/spreadsheet.py:477-484 | The row's items are `RowOf` the prim (as written). |
| ViewsSpreadsheet.Spreadsheet.SetStage | grill/views/spreadsheet.py:459-475 | Every prim of the stage on its own row in traversal order, every item editable again, sorting back as the checkbox says (as written). |
| ViewsSpreadsheet.Spreadsheet.SetColumnLocked | grill/views/spreadsheet.py:486-490 | Every item of the column becomes editable exactly when unlocked; other columns are untouched (as written). |
| ViewsSpreadsheet.Spreadsheet.ConformLockSwitch | grill/views/spreadsheet.py:262-266 | The current state is the majority of the lock buttons, and the lock-all button offers the opposite (as written). |
| ViewsSpreadsheet.Spreadsheet.ConformLocked | grill/views/spreadsheet.py:268-274 | Every button and every item take the value the lock-all button names, and the button then offers the opposite (as written). |
| ViewsSpreadsheet.Spreadsheet.PasteClipboard | grill/views/spreadsheet.py:353-392 | An empty clipboard and a selection with gaps are refused with sorting as it was; otherwise sorting is switched off and, at "Coming soon!", no cell is written (as written). |
| ViewsModel.DefaultSetterReadOnly | grill/views/_model.py:40-43 | The default setter changes nothing any column reads: a column without a setter is read-only (as written). |
| ViewsModel.EditableColumnReadOnly | grill/views/_model.py:293-297 | The only column offered for edits is `Name`, whose setter is the read-only default (as written). |
| ViewsModel.LoadedConcrete | grill/views/_model.py:260-266 | The rows are exactly the loaded, non-abstract prims a default traversal visits (as written). |
| ViewsModel.StageTableModel.constructor | grill/views/_model.py:250-254 | The given columns, no stage and no prims (as written). |
| ViewsModel.StageTableModel.SetStage | grill/views/_model.py:260-266 | The stage is stored and the prims become `LoadedConcrete` of it (as written). |
| ViewsModel.StageTableModel.RowCount | grill/views/_model.py:268-269 | One row per prim (as written). |
| ViewsModel.StageTableModel.ColumnCount | grill/views/_model.py:271-272 | One column per column spec (as written). |
| ViewsModel.StageTableModel.Data | grill/views/_model.py:274-282 | Nothing for an invalid index or a role other than raw or display; the prim for the raw role; the column's text for display (as written). |
| ViewsModel.StageTableModel.Sort | grill/views/_model.py:284-291 | The prims are `sorted` by the column's text with `reverse` set exactly for Qt's ascending order: the same prims, each in order (as written). |
| ViewsModel.ProxyModel.constructor | grill/views/_model.py:127 | A proxy over the given model (as written). |
| ViewsModel.ProxyModel.Sort | grill/views/_model.py:135-136 | Sorting the proxy sorts its source: the same prims, in the column's order (as written). |
| PySorted.TextLessIrreflexive | grill/views/_model.py:289 | No text sorts before itself (as written). |
| PySorted.TextLessTransitive | grill/views/_model.py:289 | Text order is transitive (as written). |
| PySorted.TextLessTotal | grill/views/_model.py:289 | Of two different texts one sorts before the other (as written). |
| PySorted.Insert | grill/views/_model.py:289 | Inserting an item keeps every item and adds it once (as written). |
| PySorted.InsertOrdered | grill/views/_model.py:289 | Inserting into an ordered list keeps it ordered (as written). |
| PySorted.SortedOrdered | grill/views/_model.py:289 | `sorted` returns the same items, in key order, largest first when `reverse` (as written). |
| ViewsCreate.Repository | grill/views/create.py:81-85 | The repository is the current one when set, otherwise the chosen directory; an error exactly when neither is there (as written). |
| ViewsCreate.Requests | grill/views/create.py:89-98 | At most one request per row, exactly for the rows with a name (as written). |
| ViewsCreate.CollectRequests | grill/views/create.py:89-98 | The loop over the rows gives `Requests` (as written). |
| ViewsCreate.CreateAssets | grill/views/create.py:79-98 | An error exactly when no repository is set or chosen; otherwise one `create(taxon, name, label)` request for exactly the rows with an asset name (as written). |
| ViewsCreate.AbstractNames | grill/views/create.py:103 | The names of exactly the abstract children (as written). |
| ViewsCreate.TaxonOptions | grill/views/create.py:100-103 | No options without a taxonomy root; otherwise the names of exactly its abstract children (as written). |
| ViewsCreate.TaxonChoicesSorted | grill/views/create.py:66 | The editor lists the same options, in text order (as written). |
| ViewsCreate.ReferenceChecks | grill/views/create.py:172-186 | One item per option, checked exactly when the cell lists it (as written). |
| ViewsCreate.CheckedValue | grill/views/create.py:165-170 | The value is exactly the checked items' texts (as written). |
| ViewsCreate.SelectorRoundTrip | grill/views/create.py:165-189 | Opening the selector on a cell and reading it back gives exactly the options the cell listed (as written). |
| ViewsCreate.ReferencesOf | grill/views/create.py:297-298 | The references are exactly the non-empty lines of the cell (as written). |
| ViewsCreate.NonEmpty | grill/views/create.py:298 | Exactly the non-empty names (as written). |
| ViewsCreate.NonEmptyKeeps | grill/views/create.py:298 | Names that are all non-empty are kept as they are (as written). |
| ViewsCreate.ReferencesRoundTrip | grill/views/create.py:189 | A cell written by the selector reads back as the names it was written from (as written). |
| ViewsCreate.CreateTaxa | grill/views/create.py:281-299 | An error exactly when no repository is set or chosen; otherwise one `define_taxon` request for exactly the rows with a name, with the cell's references (as written). |
| ViewsCreate.IdsByTaxaLast | grill/views/create.py:257-271 | Every existing taxon's name is indexed, at the last position holding that name (as written). |
| ViewsCreate.NodesOf | grill/views/create.py:258-270 | One node per existing taxon, at its position, labelled by its name and linked to its own index (as written). |
| ViewsCreate.Refs | grill/views/create.py:275-277 | A taxon's references are exactly its taxa other than itself (as written). |
| ViewsCreate.Without | grill/views/create.py:277 | Exactly the keys other than the one popped (as written). |
| ViewsCreate.LinkRefs | grill/views/create.py:278-279 | The edges from each reference to the taxon are added, or the first reference without a node is the `KeyError` (as written). |
| ViewsCreate.Link | grill/views/create.py:274-279 | No error exactly when every taxon lists itself and only known taxa; then the edges are exactly one from each reference to its taxon (as written). |
| ViewsCreate.LinkStep | grill/views/create.py:275-279 | Linking one taxon adds exactly the edges from its references (as written). |
| ViewsCreate.ClickTaxonNode | grill/views/create.py:265 | Clicking a taxon's node reads back its index (as written). |
| ViewsCreate.IdsLabelled | grill/views/create.py:263-271 | The node a name is indexed to is labelled by that name (as written). |
| ViewsCreate.NodeIds | grill/views/create.py:242 | The ids of the names, or the `KeyError` of a name without one (as written). |
| ViewsCreate.SelectedTaxaFound | grill/views/create.py:240-243 | Selecting existing taxa views the nodes labelled by their names (as written). |
| ViewsCreate.TaxonomyEditor.constructor | grill/views/create.py:225 | No nodes, no edges, no ids (as written). |
| ViewsCreate.TaxonomyEditor.SetStage | grill/views/create.py:249-279 | The ids, the nodes and the edges become those of the existing taxa; linking stops at the first `KeyError` (as written). |
| ViewsCreate.TaxonomyEditor.AddNodes | grill/views/create.py:258-271 | The first loop gives `NodesOf` and `IdsByTaxa` (as written). |
| ViewsCreate.TaxonomyEditor.LinkAll | grill/views/create.py:274-279 | The second loop gives `Link` (as written). |
| ViewsCreate.TaxonomyEditor.LinkTaxon | grill/views/create.py:278-279 | The inner loop gives `LinkRefs` (as written). |

## Left out

Each line names what the model does not capture and why. A line that
starts with a member's name marks a contract stated narrower than the
source's behaviour.

### Names
- NameSchema.SepOk: separators are limited to those whose escaped pattern matches exactly themselves and whose first character no field can hold. Python accepts any separator and then misparses the others, so the round trips are proved only for separators of this kind.
- GrillNames: integer values such as `version=17` or `frame=0` are modelled as their decimal text, which is what `str()` makes of them. Python's falsy `0` is therefore not modelled: the text "0" is truthy.
- GrillNames: a value of "" and a value of `None` are not distinguished. Both stand for "no value", and `name` "" stands for a name that was never set.
- NameClasses.EasyShape: EasyName configuration keys are taken without '_'. A key with '_' renders an attribute name that the class does not read back.
- GrillRenaming.OverridesOk: override keys must name groups of the pattern. The source ignores unknown keys, and the model does not cover that case.
- IONames: `grill/io/model.py` imports `File` from `grill.core.names`, which is not part of this model. Its methods use the snake_case API (`_get_path_pattern_list`, `set_name`), so IOFile, DateFile and LogFile are built on the grill engine's File. The camelCase classes of `core/io/model.py` are modelled separately, on the older engine (CoreIO).
- Chars.IsDigit: `\d` in the name patterns (`grill/names/model/pipe.py:14,16`, `core/names/model/pipe.py:14,16` and `maya/names.py:17`) is read as the ASCII digits 0-9. Python's `re` on `str` also matches every other Unicode decimal digit. So `set_name('basename.١٧')` is accepted by the source and rejected by NameParse.Parse, NameParse.ParseIff and the classes built on them.
- General regular-expression semantics are not modelled. Each field pattern is a character class with a width (`Chars`), and matching is the deterministic split those classes allow.
- The separator-change assertions of `grill/names/test.py` (63-68, 125-138) expect the pipe's '_' to follow the separator. The code hard-codes '_' (`grill/names/model/pipe.py:17`), and the model follows the code (GrillExamples.FilmSeparatorDash).
- Naming classes from libraries not part of this model (`naming.Name`, grill-names' CGAssetFile and DateTimeFile, `grill.tokens.ids`) are left out. UsdAsset's fields come from its documented pattern, and DateTimeFile's month and year checks are not modelled.

### Logging, files and I/O
- Loggers.CreateLogger and Loggers.LoggerCache.GetLogger: `logging.getLogger` keeps one process-wide registry. The model creates a fresh Logger for every name it has not cached itself. The registry's sharing of a name between the `grill` and `core` controllers, which can hand both the same Logger, is not modelled.
- Loggers.IsWordDot: `[\w\.]+` (`grill/logger/model.py:42`) is read as ASCII letters, digits, '_' and '.'. Python's `\w` also matches Unicode letters and digits, so a logger name such as `grillé` passes the source's LogFile pattern and fails the model's (Loggers.DefaultsMatch, IONames.LogNameForeign).
- Loggers.LoggerName: `name is not 'grill'` (`grill/logger/controller.py:36`, `core/logger/controller.py:38`) is an identity test, and the model reads it as string inequality. A 'grill' text built at run time is a different object in CPython, so the source then names the logger `grill.grill`, where the model gives `grill`.
- The clock and uuid are parameters: DateFile's date and time (`datetime.now()`), and the uuid of `UsdAsset.get_anonymous`. `expanduser`, `os.path.join` and `normpath` are abstract: paths are lists of directory texts.
- The JSON file I/O of `grill/io/controller.py` and `core/io/controller.py` is left out, as are startup modules, packaging and docs. These are environment variables, files and DCC plumbing.
- Mail and threads are left out: `core/mail`, `grill/mail/controller.py` and the Maya exception-hook handlers. They are SMTP sessions, background threads and Maya hooks.

### USD authoring
- `fetch_stage` is left out. It creates files, binds resolver contexts and uses process-wide caches. The stage is a given in-memory map of prims and layers.
- UsdAsset.AssetOk: the `\w+` fields of the asset identifier are read as ASCII letters, digits and '_'. Python's `\w` also matches Unicode letters and digits, so identifiers with such characters are valid in the source and invalid in the model (UsdAsset.Get, UsdAsset.GetFieldsOk).
- `_edit_context`, `spawn_unit`, `unit_context`, `unit_asset` and composition queries are left out. They are USD composition machinery; only their effects on the prim and layer maps are modelled.
- Authoring.SublayerSlot: the layer stack is flattened into one sequence of layers. A sublayer appended to the root's `subLayerPaths` is placed right after the root. Nested sublayer trees are not modelled.
- UsdStage: the stage's layer stack is its root layer and sublayers. The session layer, which `stage.GetLayerStack()` also returns, is not modelled.

### Maya
- MayaAnimation.InsertPos: where OpenMaya's `addKey` places a new key is taken to be after every key at or before its time, so key times stay increasing.
- The anim-curve read and write wrappers are left out: `getAnimCurveData` and the tangent setters of `maya/animation/controller.py` (41-80, 211-222). They are thin OpenMaya calls; the key data they set is carried as an opaque value.
- `maya/apiutils.py` is left out. It is OpenMaya calls to names the module never defines.

### Views
- Widget, layout, paint and event code is left out: headers, masks, dialogs, menus and the views of other DCCs. So are floating-point geometry and colour: edge paths, layout positions and colour interpolation.
- The Graphviz `dot` subprocess (`_dot_2_svg`), temporary files and networkx/pydot layout and serialisation are left out. The model stops at the graph that is handed to them.
- ViewsDiagrams: `_NodeLOD`, which `_diagrams.py` takes from `_graph.py`, is not defined in the `_graph.py` of this model. It is modelled as the three levels Low, Mid and High, and a membership test such as `LOW | MID` is read as "the level is Low or Mid".
- ViewsDiagrams.ExpandAsWritten: a fuel bound stands for Python's recursion limit. Running out of fuel is the `RecursionError` the recursive expansion raises.
- ViewsDiagrams.ParseHeadport: only a run of ASCII digits is read as the port number. Python's `int()` also accepts surrounding whitespace, a sign, underscores and other Unicode digits. Every headport the diagram itself draws is a digit run (ViewsDiagrams.HeadPortRoundTrip).
- ViewsDescriptionViewer.NodeOfUrl: `str.isdigit()` (`grill/views/description.py:242`) is read as "a non-empty run of ASCII digits". Python's `isdigit` is also true for other Unicode digits, such as '١' or the superscript '²'. `int()` then reads the Arabic-Indic digits and raises on the superscripts. Every link the viewer itself draws uses ASCII digits (ViewsDescriptionViewer.NodeOfHref).
- ViewsSpreadsheet.Spreadsheet.ConformLocked: `spreadsheet.py` sets the lock-all text without `_emoji_suffix()`, and its `text()` is modelled as the text that was set. On widgets that drop the last character of emoji text, the source's lookup would raise `KeyError`. The model does not cover such widgets for this file.
- The `_copySelection` of `spreadsheet.py` (443-457) is the same code as that of `sheets.py`. It is modelled once, by ViewsSheets.CopySelection.
- The clipboard's tab-separated CSV text is not modelled. Copying yields the grid of cell texts that `csv.writer` would write, and pasting takes the rows `csv.reader` reads back. Qt's regular-expression filters appear as one `matches` boolean per cell.
- Sort stability of the table models is not proved beyond `sorted`'s own ordering and permutation (PySorted.SortedOrdered). Column visibility buttons are left out, being UI only.
- ViewsSheets.StageTable.PasteClipboard: each column's setter is a given test `takes` of the pasted text, standing for `setter(prim, text)` or, when that raises, the same setter on `json.loads(text.lower())`. What the USD setters change on the prim is not modelled, nor is `if prim:` for a row without a valid prim. The rows of `Visit` are the table's own rows; the proxy chain of `_sourceIndex` maps them to the same prims.
- ViewsSpreadsheet.Spreadsheet.PasteClipboard: `spreadsheet.py` returns after printing "Coming soon!" (391-392), and the code after that line never runs. The model stops there: past its checks, the paste only turns sorting off and writes nothing.
- `_model.py` has no column locking, so ViewsModel has no lock state.
- `create.py`'s reference editor is commented out in the source and is not modelled. Its `ID Fields` column is read by nothing. `write.create` and `define_taxon` are recorded as requests on a repository, rather than run against a stage.

## Findings

| source | as written | input that shows it | evidently intended | confidence | as-written member | corrected member |
|---|---|---|---|---|---|---|
| maya/names.py:14-16 | `[a-zA-Z]+` for the attribute is greedy and takes the axis letter too, so the optional `[XYZ]?` axis always matches empty | `outTranslateX` parses to attribute `TranslateX` with an empty axis | attribute `Translate`, axis `X` | not executed | MayaNames.GreedyRoundTrip, MayaNames.GreedyValuesTranslateX | MayaNames.AxisRoundTrip, MayaNames.AxisTranslateX |
| grill/names/model/base.py:76-77 | the pattern ends in `$`, which `re.match` also accepts before a final newline | `set_name('basename\n')` is accepted, with the groups of `basename` | a name with a trailing newline is rejected | not executed | NameParse.DollarNewline, CoreExamples.BasenameNewline | NameParse.ParseRejectsForeign |
| core/names/model/base.py:64-71 | `setName` checks the text with `re.match` against `^pattern$`, which also accepts a final newline | `setName('basename\n')` is accepted on a Name | a name with a trailing newline is rejected | not executed | NameParse.DollarNewline, CoreExamples.BasenameNewline | NameParse.ParseRejectsForeign, CoreNames.CoreName.SetName |
| grill/cook/__init__.py:216-259 | the catalogue layer's edit permission is opened, and set back only after every unit was created | a taxon whose catalogue layer was closed, and a name that is not a valid prim name: `create_many` raises and leaves the layer open | the permission is set back on every path | not executed | Cook.CreateManyAsWritten, Cook.PermissionLeftOpen | Cook.CreateManySpec, Cook.CreateMany |
| grill/write/__init__.py:185-224 | the repository layer's edit permission is opened before the taxonomy lookup, and set back only after every unit was created | a closed repository layer, and no taxonomy layer or an invalid name: `create_many` raises and leaves the layer open | the permission is set back on every path | not executed | Write.CreateManyAsWritten, Write.PermissionLeftOpen | Write.CreateManySpec, Write.CreateMany |
| grill/views/_diagrams.py:84-85 | a loaded dependency is expanded recursively even when its node was already in the graph | a layer that has itself as a sublayer: the expansion raises `RecursionError` whatever the recursion limit | expand only a node the load added | not executed | ViewsDiagrams.ExpandAsWritten, ViewsDiagrams.SelfDependentAsWritten, ViewsDiagrams.SelfDependencyAsWritten | ViewsDiagrams.Load, ViewsDiagrams.SelfDependencyExpanded, AssetGraph.AssetStructureGraph.LoadDependency |
| maya/animation/controller.py:208 | `if not mcurve.find(k_time)` treats the key index 0 as missing | any curve with increasing key times whose first key is at the time to set: a second key is added at that time | add a key only when none exists | not executed | MayaAnimation.FirstKeyDuplicated | MayaAnimation.UpsertKeeps, MayaAnimation.AnimCurve.SetAnimCurveData |
| grill/cook/__init__.py:381-388 | `UsdAsset(...)` of a layer whose real path is not a pipeline name raises before later layers are looked at | the layers `shot.usda` then a taxonomy layer: `ValueError` instead of the taxonomy layer | skip layers that do not name a pipeline asset | not executed | UsdStage.FindLayerMatchingAsWritten, UsdStage.ForeignLayerHidesMatch | UsdStage.FindLayerMatching, UsdStage.FindLayerAgrees |
| grill/views/sheets.py:615 | `self.model` is a `StageTableModel` (a `QAbstractTableModel`, 269-360) and has no `itemFromIndex`, so the first row the loop reaches raises `AttributeError`; the sorting switched off at 576 is never restored | a five-row table, rows 0 and 1 selected in column 0, data `[["x"], ["y"]]`: `AttributeError` at row 0, no cell set, sorting left off | set each cell through the item of the source index, and restore sorting | high; not executed | ViewsSheets.StageTable.PasteClipboardAsWritten, ViewsSheets.PasteAsWrittenRaisesFirst, ViewsSheets.AsWrittenRaisesWhereIntendedWrites | ViewsSheets.StageTable.PasteClipboard, ViewsSheets.PasteWritesSelection |
| grill/views/sheets.py:579-596 | latent behind line 615: the multi-row paste loop runs up to `maxrow` inclusive, one row past the selection | two data rows on the selected rows 0 and 1 of a five-row table: the loop would reach row 2 (today it raises at row 0 first) | visit only the selected rows | medium; not executed | ViewsSheets.PasteAsWrittenOverruns | ViewsSheets.PasteWritesSelection, ViewsSheets.StageTable.PasteClipboard |
| grill/views/sheets.py:565-571 | latent behind line 615: a multi-row selection is checked only by the span of its rows | three data rows on the selected rows 0 and 2 pass the checks, and the loop would reach row 1 (today it raises at row 0 first) | a multi-row paste needs every row of its span selected | medium; not executed | ViewsSheets.PasteAsWrittenFillsGaps | ViewsSheets.MultiRowSelected |
| grill/views/spreadsheet.py:505-509 | `if cbox_index:` skips index 0 (the first option) and applies -1 (not found) | a cell whose type is the first option leaves the editor where it was; an unknown type clears the editor and commits an empty type | show the cell's type when it is an option, and otherwise keep the editor as it is | not executed | ViewsSpreadsheet.EditorAsWrittenClearsType, ViewsSpreadsheet.EditorAsWrittenSkipsFirst | ViewsSpreadsheet.SetEditorData, ViewsSpreadsheet.EditorKeepsType |
