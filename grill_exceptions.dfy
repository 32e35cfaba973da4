/**
 * `grill/exceptions/controller.py`: whether an exception comes from the
 * grill library, judged by the files of its traceback frames.
 *
 * A traceback is the chain `tb, tb.tb_next, …` ending in `None`; each
 * link contributes the file name of its frame's code.  `_normpath`
 * (`os.path.normpath(os.path.abspath(p))`) depends on the working
 * directory and the file system, so it is a parameter; `dirname` is
 * `posixpath.dirname`.
 */
module GrillExceptions {
  import opened Wrappers
  import opened Texts

  datatype Traceback = NoTraceback | Frame(codeFilename: string, tbNext: Traceback)

  /** The file names of the frames, from the outermost link along `tb_next`. */
  function Files(tb: Traceback): (r: seq<string>)
    ensures tb.NoTraceback? <==> r == []
  {
    match tb
    case NoTraceback => []
    case Frame(f, next) => [f] + Files(next)
  }

  // ---------------------------------------------------------------------
  // LIB_DIR

  /** The position after the last `/` of `p`, or 0 without one (`p.rfind('/') + 1`). */
  function AfterLastSlash(p: string): (i: nat)
    ensures i <= |p|
    ensures i > 0 ==> p[i - 1] == '/'
    ensures forall k :: i <= k < |p| ==> p[k] != '/'
  {
    if p == [] then 0
    else if p[|p| - 1] == '/' then |p|
    else AfterLastSlash(p[..|p| - 1])
  }

  /** `head.rstrip('/')`. */
  function RStripSlashes(s: string): (r: string)
    ensures |r| <= |s| && r == s[..|r|]
    ensures r == [] || r[|r| - 1] != '/'
  {
    if s != [] && s[|s| - 1] == '/' then RStripSlashes(s[..|s| - 1]) else s
  }

  predicate AllSlashes(s: string) {
    forall k :: 0 <= k < |s| ==> s[k] == '/'
  }

  /**
   * `posixpath.dirname(p)`: everything up to the last `/`, without the
   * trailing slashes unless it is made only of slashes.
   */
  function Dirname(p: string): string {
    var head := p[..AfterLastSlash(p)];
    if head != [] && !AllSlashes(head) then RStripSlashes(head) else head
  }

  /** A directory name is a prefix of its path, and a path without `/` has the empty directory. */
  lemma DirnamePrefix(p: string)
    ensures StartsWith(p, Dirname(p))
    ensures (forall k :: 0 <= k < |p| ==> p[k] != '/') ==> Dirname(p) == ""
  {
    var head := p[..AfterLastSlash(p)];
    if head != [] && !AllSlashes(head) {
      var r := RStripSlashes(head);
      assert p[..|r|] == head[..|r|];
    }
  }

  /** `LIB_DIR`: the parent of the directory holding the module's file. */
  function LibDir(moduleFile: string, normpath: string -> string): string {
    Dirname(Dirname(normpath(moduleFile)))
  }

  /** The module's own file lies under `LIB_DIR`. */
  lemma LibDirHoldsModule(moduleFile: string, normpath: string -> string)
    ensures StartsWith(normpath(moduleFile), LibDir(moduleFile, normpath))
  {
    var f := normpath(moduleFile);
    DirnamePrefix(f);
    DirnamePrefix(Dirname(f));
    assert f[..|Dirname(f)|][..|Dirname(Dirname(f))|] == f[..|Dirname(Dirname(f))|];
  }

  // ---------------------------------------------------------------------
  // is_grill_exception

  /** A frame is grill's when its normalised file name starts with `LIB_DIR`. */
  predicate GrillFile(f: string, normpath: string -> string, libDir: string) {
    StartsWith(normpath(f), libDir)
  }

  /** The position along the chain of the first grill frame, if any. */
  function FirstGrillFrame(tb: Traceback, normpath: string -> string, libDir: string): (r: Option<nat>)
    ensures r.Some? ==> r.value < |Files(tb)| && GrillFile(Files(tb)[r.value], normpath, libDir)
    ensures r.Some? ==> forall k :: 0 <= k < r.value ==> !GrillFile(Files(tb)[k], normpath, libDir)
    ensures r.None? <==> forall k :: 0 <= k < |Files(tb)| ==> !GrillFile(Files(tb)[k], normpath, libDir)
  {
    match tb
    case NoTraceback => None
    case Frame(f, next) =>
      if GrillFile(f, normpath, libDir) then Some(0)
      else
        var r := FirstGrillFrame(next, normpath, libDir);
        assert forall k :: 0 < k < |Files(tb)| ==> Files(tb)[k] == Files(next)[k - 1];
        if r.Some? then Some(r.value + 1) else None
  }

  /**
   * `is_grill_exception(tb)`: walks the chain along `tb_next` and returns
   * `True` at the first grill frame; falls off the end, returning `None`,
   * when there is none (a `None` traceback included).
   */
  method IsGrillException(tb: Traceback, normpath: string -> string, libDir: string) returns (r: Option<bool>)
    ensures r == Some(true) <==> exists k :: 0 <= k < |Files(tb)| && GrillFile(Files(tb)[k], normpath, libDir)
    ensures r != Some(true) ==> r == None
    ensures r == Some(true) <==> FirstGrillFrame(tb, normpath, libDir).Some?
  {
    var t := tb;
    ghost var walked := 0;
    while t.Frame?
      invariant walked <= |Files(tb)| && Files(t) == Files(tb)[walked..]
      invariant forall k :: 0 <= k < walked ==> !GrillFile(Files(tb)[k], normpath, libDir)
      decreases t
    {
      var codepath := t.codeFilename;
      if StartsWith(normpath(codepath), libDir) {
        assert Files(tb)[walked] == codepath;
        return Some(true);
      }
      assert Files(tb)[walked + 1..] == Files(t)[1..];
      t := t.tbNext;
      walked := walked + 1;
    }
    return None;
  }

  /** A traceback passing through the module's own file is grill's. */
  lemma OwnFrameIsGrill(tb: Traceback, k: nat, moduleFile: string, normpath: string -> string)
    requires k < |Files(tb)| && normpath(Files(tb)[k]) == normpath(moduleFile)
    ensures FirstGrillFrame(tb, normpath, LibDir(moduleFile, normpath)).Some?
  {
    LibDirHoldsModule(moduleFile, normpath);
  }
}
