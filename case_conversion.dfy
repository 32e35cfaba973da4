/**
 * The case conversions of `grill/utils.py` (and its copy `utils.py`).
 *
 * `toUnderscores` finds the words `[A-Z]?[a-z]+` of a string, lowers each
 * of them in a loop and joins them with `_`; `toCamelCase` finds the runs
 * `[a-zA-Z0-9]+`, upper-cases the first character of every run but the
 * first in a loop and concatenates them.  Only ASCII letters are
 * classified, so lowering and upper-casing are the ASCII mappings.
 */
module CaseConversion {
  import opened Chars
  import opened NameSchema

  // ---------------------------------------------------------------------
  // ASCII case mappings

  function Lowered(c: char): char {
    if IsUpper(c) then (c as int + 32) as char else c
  }

  function Uppered(c: char): char {
    if IsLower(c) then (c as int - 32) as char else c
  }

  /** `str.lower()` on ASCII text. */
  function LowerStr(s: string): (r: string)
    ensures |r| == |s|
    ensures forall i :: 0 <= i < |s| ==> r[i] == Lowered(s[i])
  {
    seq(|s|, i requires 0 <= i < |s| => Lowered(s[i]))
  }

  /** Lowering distributes over concatenation. */
  lemma LowerConcat(a: string, b: string)
    ensures LowerStr(a + b) == LowerStr(a) + LowerStr(b)
  {
    assert forall i :: 0 <= i < |a + b| ==> LowerStr(a + b)[i] == (LowerStr(a) + LowerStr(b))[i];
  }

  // ---------------------------------------------------------------------
  // toUnderscores

  /** A match of `[A-Z]?[a-z]+`. */
  predicate WordOk(w: string) {
    && |w| > 0
    && IsLetter(w[0])
    && AllIn(w[1..], Lower)
    && (IsUpper(w[0]) ==> |w| >= 2)
  }

  /**
   * `re.findall('[A-Z]?[a-z]+', s)`: scanning from the left, a lowercase
   * letter starts a word, an uppercase letter starts one only when a
   * lowercase letter follows it, and a word takes every lowercase letter
   * after its start; every other character is skipped.
   */
  function Words(s: string): (r: seq<string>)
    ensures forall i :: 0 <= i < |r| ==> WordOk(r[i])
    decreases |s|
  {
    if s == [] then []
    else if IsLower(s[0]) then
      var n := RunLength(s, Lower);
      assert s[..n][1..] == s[1..n];
      [s[..n]] + Words(s[n..])
    else if IsUpper(s[0]) && |s| >= 2 && IsLower(s[1]) then
      var n := 1 + RunLength(s[1..], Lower);
      assert s[..n][1..] == s[1..][..n - 1];
      [s[..n]] + Words(s[n..])
    else Words(s[1..])
  }

  /** Each word lowered, as the loop of `toUnderscores` leaves the list. */
  function LowerAll(ws: seq<string>): (r: seq<string>)
    ensures |r| == |ws|
  {
    seq(|ws|, i requires 0 <= i < |ws| => LowerStr(ws[i]))
  }

  /** The value `toUnderscores(s)` returns. */
  function Underscored(s: string): string {
    Join("_", LowerAll(Words(s)))
  }

  /** `toUnderscores(string)`: the words are lowered in place, one by one, then joined with `_`. */
  method ToUnderscores(s: string) returns (r: string)
    ensures r == Underscored(s)
  {
    var parts := Words(s);
    var i := 0;
    while i < |parts|
      invariant 0 <= i <= |parts| && |parts| == |Words(s)|
      invariant parts[..i] == LowerAll(Words(s))[..i]
      invariant parts[i..] == Words(s)[i..]
    {
      assert parts[i] == parts[i..][0];
      parts := parts[i := LowerStr(parts[i])];
      i := i + 1;
    }
    assert parts == parts[..i] && LowerAll(Words(s)) == LowerAll(Words(s))[..i];
    r := Join("_", parts);
  }

  /** A lowered word is a run of lowercase letters. */
  lemma LoweredWord(w: string)
    requires WordOk(w)
    ensures Run(LowerStr(w), Lower)
  {
  }

  /**
   * Lowercase words joined by `_`: lowercase letters, and underscores
   * that stand between two lowercase letters (none leading, trailing or
   * doubled).
   */
  predicate SnakeCase(r: string) {
    forall i :: 0 <= i < |r| ==> SnakeCharAt(r, i)
  }

  /** The character at `i` is a lowercase letter or an underscore between two. */
  predicate SnakeCharAt(r: string, i: nat)
    requires i < |r|
  {
    IsLower(r[i]) || (r[i] == '_' && 0 < i < |r| - 1 && IsLower(r[i - 1]) && IsLower(r[i + 1]))
  }

  /** Joining lowercase runs with `_` gives a snake-case text with one underscore fewer than words. */
  lemma {:induction false} JoinSnake(ws: seq<string>)
    requires forall i :: 0 <= i < |ws| ==> Run(ws[i], Lower)
    ensures SnakeCase(Join("_", ws))
    ensures |ws| > 0 ==> |Join("_", ws)| > 0 && multiset(Join("_", ws))['_'] == |ws| - 1
    ensures |ws| == 0 ==> Join("_", ws) == ""
    decreases |ws|
  {
    if |ws| == 1 {
      assert '_' !in ws[0];
    } else if |ws| > 1 {
      var w := ws[0];
      var j := Join("_", ws[1..]);
      JoinSnake(ws[1..]);
      assert '_' !in w;
      var r := w + "_" + j;
      assert r == Join("_", ws);
      SnakeCons(w, j);
    }
  }

  /** A lowercase run, `_`, then a non-empty snake-case text is snake case. */
  lemma SnakeCons(w: string, j: string)
    requires Run(w, Lower) && |j| > 0 && SnakeCase(j)
    ensures SnakeCase(w + "_" + j)
  {
    var r := w + "_" + j;
    assert SnakeCharAt(j, 0);
    forall i | 0 <= i < |r|
      ensures SnakeCharAt(r, i)
    {
      if i < |w| {
        assert r[i] == w[i];
      } else if i == |w| {
        assert r[i - 1] == w[|w| - 1] && r[i + 1] == j[0];
      } else {
        var k := i - |w| - 1;
        assert r[i] == j[k];
        assert SnakeCharAt(j, k);
        if !IsLower(j[k]) {
          assert r[i - 1] == j[k - 1] && r[i + 1] == j[k + 1];
        }
      }
    }
  }

  /** The output of `toUnderscores` is snake case with one underscore between consecutive words. */
  lemma UnderscoredShape(s: string)
    ensures SnakeCase(Underscored(s))
    ensures |Words(s)| > 0 ==> multiset(Underscored(s))['_'] == |Words(s)| - 1
    ensures |Words(s)| == 0 ==> Underscored(s) == ""
  {
    var ws := LowerAll(Words(s));
    forall i | 0 <= i < |ws|
      ensures Run(ws[i], Lower)
    {
      LoweredWord(Words(s)[i]);
    }
    JoinSnake(ws);
  }

  /** The words of lowercase runs joined by `_` are those runs. */
  lemma {:induction false} WordsOfJoin(ws: seq<string>)
    requires forall i :: 0 <= i < |ws| ==> Run(ws[i], Lower)
    ensures Words(Join("_", ws)) == ws
    decreases |ws|
  {
    if |ws| == 1 {
      var w := ws[0];
      RunLengthOfConcat(w, [], Lower);
      assert w + [] == w;
      assert w[|w|..] == [];
    } else if |ws| > 1 {
      var w := ws[0];
      var j := Join("_", ws[1..]);
      var t := w + "_" + j;
      RunLengthOfConcat(w, "_" + j, Lower);
      assert w + ("_" + j) == t;
      assert t[..|w|] == w && t[|w|..] == "_" + j;
      assert ("_" + j)[1..] == j;
      WordsOfJoin(ws[1..]);
      assert [w] + ws[1..] == ws;
    }
  }

  /** Lowercase text is left alone by lowering. */
  lemma LowerStrFixed(w: string)
    requires AllIn(w, Lower)
    ensures LowerStr(w) == w
  {
  }

  /** `toUnderscores` is idempotent: its output converts to itself. */
  lemma UnderscoredIdempotent(s: string)
    ensures Underscored(Underscored(s)) == Underscored(s)
  {
    var ws := LowerAll(Words(s));
    forall i | 0 <= i < |ws|
      ensures Run(ws[i], Lower)
    {
      LoweredWord(Words(s)[i]);
    }
    WordsOfJoin(ws);
    forall i | 0 <= i < |ws|
      ensures LowerAll(ws)[i] == ws[i]
    {
      LowerStrFixed(ws[i]);
    }
    assert LowerAll(ws) == ws;
  }

  /** `xs` is `ys` with some characters removed, the rest in order. */
  predicate Subsequence(xs: string, ys: string)
    decreases |ys|
  {
    if ys == [] then xs == []
    else Subsequence(xs, ys[1..]) || (xs != [] && xs[0] == ys[0] && Subsequence(xs[1..], ys[1..]))
  }

  /** A common prefix keeps a subsequence one. */
  lemma {:induction false} SubsequencePrefix(a: string, xs: string, ys: string)
    requires Subsequence(xs, ys)
    ensures Subsequence(a + xs, a + ys)
    decreases |a|
  {
    if a != [] {
      assert (a + xs)[0] == a[0] == (a + ys)[0];
      assert (a + xs)[1..] == a[1..] + xs;
      assert (a + ys)[1..] == a[1..] + ys;
      SubsequencePrefix(a[1..], xs, ys);
    } else {
      assert a + xs == xs && a + ys == ys;
    }
  }

  /**
   * The letters of the words are letters of the input, in their order:
   * digits, punctuation and an uppercase letter not followed by a
   * lowercase one are dropped.
   */
  lemma {:induction false} WordsFromInput(s: string)
    ensures Subsequence(Concat(Words(s)), s)
    decreases |s|
  {
    if s == [] {
    } else if IsLower(s[0]) || (IsUpper(s[0]) && |s| >= 2 && IsLower(s[1])) {
      var ws := Words(s);
      var n := |ws[0]|;
      assert ws[0] == s[..n] && ws[1..] == Words(s[n..]);
      WordsFromInput(s[n..]);
      SubsequencePrefix(s[..n], Concat(Words(s[n..])), s[n..]);
      assert s[..n] + s[n..] == s;
    } else {
      WordsFromInput(s[1..]);
    }
  }

  // ---------------------------------------------------------------------
  // toCamelCase

  /** `re.findall('([a-zA-Z0-9]+)', s)`: the maximal alphanumeric runs, left to right. */
  function AlnumRuns(s: string): (r: seq<string>)
    ensures forall i :: 0 <= i < |r| ==> Run(r[i], Alnum)
    decreases |s|
  {
    if s == [] then []
    else if IsAlnum(s[0]) then
      var n := RunLength(s, Alnum);
      [s[..n]] + AlnumRuns(s[n..])
    else AlnumRuns(s[1..])
  }

  /** The alphanumeric characters of `s`, in order. */
  function AlnumOnly(s: string): (r: string)
    ensures AllIn(r, Alnum)
    decreases |s|
  {
    if s == [] then ""
    else if IsAlnum(s[0]) then [s[0]] + AlnumOnly(s[1..])
    else AlnumOnly(s[1..])
  }

  /** A run capitalised: its first character upper-cased. */
  function Capitalized(p: string): (r: string)
    requires |p| > 0
    ensures |r| == |p| && r[1..] == p[1..]
  {
    [Uppered(p[0])] + p[1..]
  }

  /** The runs as the loop of `toCamelCase` leaves them: the first unchanged, every other capitalised. */
  function CamelParts(ps: seq<string>): (r: seq<string>)
    requires forall i :: 0 <= i < |ps| ==> |ps[i]| > 0
    ensures |r| == |ps|
  {
    seq(|ps|, i requires 0 <= i < |ps| => if i == 0 then ps[0] else Capitalized(ps[i]))
  }

  /** The value `toCamelCase(s)` returns. */
  function CamelCased(s: string): string {
    Concat(CamelParts(AlnumRuns(s)))
  }

  /** `toCamelCase(string)`: every run after the first is capitalised in place, then the runs are concatenated. */
  method ToCamelCase(s: string) returns (r: string)
    ensures r == CamelCased(s)
  {
    var parts := AlnumRuns(s);
    var i := 1;
    while i < |parts|
      invariant |parts| == |AlnumRuns(s)|
      invariant |parts| == 0 || 1 <= i <= |parts|
      invariant forall j :: 0 <= j < |parts| ==> |parts[j]| > 0
      invariant forall j :: 0 <= j < |parts| && j < i ==> parts[j] == CamelParts(AlnumRuns(s))[j]
      invariant forall j :: i <= j < |parts| ==> parts[j] == AlnumRuns(s)[j]
    {
      parts := parts[i := Capitalized(parts[i])];
      i := i + 1;
    }
    assert parts == CamelParts(AlnumRuns(s));
    r := Concat(parts);
  }

  /** Concatenation of two lists of strings. */
  lemma {:induction false} ConcatAppend(xs: seq<string>, ys: seq<string>)
    ensures Concat(xs + ys) == Concat(xs) + Concat(ys)
    decreases |xs|
  {
    if xs != [] {
      assert (xs + ys)[0] == xs[0] && (xs + ys)[1..] == xs[1..] + ys;
      ConcatAppend(xs[1..], ys);
      assert xs[0] + (Concat(xs[1..]) + Concat(ys)) == xs[0] + Concat(xs[1..]) + Concat(ys);
    } else {
      assert xs + ys == ys;
    }
  }

  /** The alphanumerics of an alphanumeric text followed by more text. */
  lemma {:induction false} AlnumOnlyAppend(a: string, b: string)
    requires AllIn(a, Alnum)
    ensures AlnumOnly(a + b) == a + AlnumOnly(b)
    decreases |a|
  {
    if a != [] {
      assert (a + b)[0] == a[0] && (a + b)[1..] == a[1..] + b;
      AlnumOnlyAppend(a[1..], b);
      assert [a[0]] + (a[1..] + AlnumOnly(b)) == a + AlnumOnly(b);
    } else {
      assert a + b == b;
    }
  }

  /** The runs together hold exactly the alphanumeric characters of the input. */
  lemma {:induction false} RunsCover(s: string)
    ensures Concat(AlnumRuns(s)) == AlnumOnly(s)
    decreases |s|
  {
    if s != [] {
      if IsAlnum(s[0]) {
        var n := RunLength(s, Alnum);
        RunsCover(s[n..]);
        AlnumOnlyAppend(s[..n], s[n..]);
        assert s[..n] + s[n..] == s;
        assert AlnumRuns(s) == [s[..n]] + AlnumRuns(s[n..]);
        assert Concat(AlnumRuns(s)) == s[..n] + Concat(AlnumRuns(s[n..]));
      } else {
        RunsCover(s[1..]);
      }
    }
  }

  /** Upper-casing then lowering a character lowers it. */
  lemma LowerUpper(c: char)
    ensures Lowered(Uppered(c)) == Lowered(c)
  {
  }

  /** Two lists whose strings agree once lowered concatenate to texts that agree once lowered. */
  lemma {:induction false} ConcatLowerAgree(xs: seq<string>, ys: seq<string>)
    requires |xs| == |ys|
    requires forall i :: 0 <= i < |xs| ==> LowerStr(xs[i]) == LowerStr(ys[i])
    ensures LowerStr(Concat(xs)) == LowerStr(Concat(ys))
    decreases |xs|
  {
    if xs != [] {
      ConcatLowerAgree(xs[1..], ys[1..]);
      LowerConcat(xs[0], Concat(xs[1..]));
      LowerConcat(ys[0], Concat(ys[1..]));
    }
  }

  /** Every string of a list of alphanumeric runs is alphanumeric, and so is their concatenation. */
  lemma {:induction false} ConcatAlnum(xs: seq<string>)
    requires forall i :: 0 <= i < |xs| ==> AllIn(xs[i], Alnum)
    ensures AllIn(Concat(xs), Alnum)
    decreases |xs|
  {
    if xs != [] {
      ConcatAlnum(xs[1..]);
    }
  }

  /**
   * `toCamelCase` keeps exactly the alphanumeric characters of its input,
   * in order, changing only their case: ignoring case it deletes every
   * other character.
   */
  lemma CamelCasedChars(s: string)
    ensures AllIn(CamelCased(s), Alnum)
    ensures |CamelCased(s)| == |AlnumOnly(s)|
    ensures LowerStr(CamelCased(s)) == LowerStr(AlnumOnly(s))
  {
    var ps := AlnumRuns(s);
    var cs := CamelParts(ps);
    forall i | 0 <= i < |ps|
      ensures LowerStr(cs[i]) == LowerStr(ps[i]) && AllIn(cs[i], Alnum)
    {
      if i > 0 {
        LowerUpper(ps[i][0]);
        assert cs[i] == [Uppered(ps[i][0])] + ps[i][1..];
        assert LowerStr(cs[i])[0] == LowerStr(ps[i])[0];
      }
    }
    ConcatAlnum(cs);
    ConcatLowerAgree(cs, ps);
    RunsCover(s);
  }

  /** The first run of the input starts the output unchanged. */
  lemma CamelCasedFirst(s: string)
    requires |AlnumRuns(s)| > 0
    ensures AlnumRuns(s)[0] <= CamelCased(s)
  {
    var cs := CamelParts(AlnumRuns(s));
    assert cs == [cs[0]] + cs[1..];
    ConcatAppend([cs[0]], cs[1..]);
  }
}
