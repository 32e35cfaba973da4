/**
 * The Python string operations the models share: `startswith`,
 * `split`, `strip`, `removeprefix`/`removesuffix`, `str(n)` of a
 * non-negative integer and `int(s)` of a run of ASCII digits.
 */
module Texts {
  import opened Chars
  import opened Wrappers
  import NameSchema

  /** `s.startswith(prefix)`. */
  predicate StartsWith(s: string, prefix: string) {
    |prefix| <= |s| && s[..|prefix|] == prefix
  }

  /** `s.endswith(suffix)`. */
  predicate EndsWith(s: string, suffix: string) {
    |suffix| <= |s| && s[|s| - |suffix|..] == suffix
  }

  // ---------------------------------------------------------------------
  // split

  /**
   * `s.split(sep)` for a non-empty separator: the pieces between the
   * occurrences of `sep` found from left to right without overlapping.
   */
  function Split(s: string, sep: string): (r: seq<string>)
    requires sep != []
    ensures |r| >= 1
    decreases |s|
  {
    if s == [] then [""]
    else if StartsWith(s, sep) then [""] + Split(s[|sep|..], sep)
    else
      var r := Split(s[1..], sep);
      [[s[0]] + r[0]] + r[1..]
  }

  /** `sep.join([x] + r)` for a non-empty `r`. */
  lemma JoinCons(sep: string, x: string, r: seq<string>)
    requires |r| >= 1
    ensures NameSchema.Join(sep, [x] + r) == x + sep + NameSchema.Join(sep, r)
  {
    assert ([x] + r)[1..] == r;
  }

  /** Putting a character in front of the first piece puts it in front of the joined text. */
  lemma JoinExtendFirst(sep: string, c: char, r: seq<string>)
    requires |r| >= 1
    ensures NameSchema.Join(sep, [[c] + r[0]] + r[1..]) == [c] + NameSchema.Join(sep, r)
  {
    if |r| > 1 {
      JoinCons(sep, [c] + r[0], r[1..]);
      JoinCons(sep, r[0], r[1..]);
      assert [r[0]] + r[1..] == r;
    }
  }

  /** Joining the pieces with the separator gives the string back. */
  lemma {:induction false} JoinSplit(s: string, sep: string)
    requires sep != []
    ensures NameSchema.Join(sep, Split(s, sep)) == s
    decreases |s|
  {
    if s == [] {
    } else if StartsWith(s, sep) {
      var r := Split(s[|sep|..], sep);
      assert Split(s, sep) == [""] + r;
      JoinSplit(s[|sep|..], sep);
      JoinCons(sep, "", r);
      assert s == "" + sep + s[|sep|..];
    } else {
      var r := Split(s[1..], sep);
      assert Split(s, sep) == [[s[0]] + r[0]] + r[1..];
      JoinSplit(s[1..], sep);
      JoinExtendFirst(sep, s[0], r);
      assert s == [s[0]] + s[1..];
    }
  }

  /** A string without the separator character is one piece. */
  lemma {:induction false} SplitWithout(a: string, c: char)
    requires c !in a
    ensures Split(a, [c]) == [a]
    decreases |a|
  {
    if a != [] {
      SplitWithout(a[1..], c);
      assert [a[0]] + a[1..] == a;
    }
  }

  /** Splitting at the first occurrence of a separator character. */
  lemma {:induction false} SplitAtFirst(a: string, c: char, b: string)
    requires c !in a
    ensures Split(a + [c] + b, [c]) == [a] + Split(b, [c])
    decreases |a|
  {
    var s := a + [c] + b;
    if a == [] {
      assert s[1..] == b;
      assert s[..1] == [c];
    } else {
      assert s[1..] == a[1..] + [c] + b;
      SplitAtFirst(a[1..], c, b);
      assert s[..1] != [c];
      assert [a[0]] + a[1..] == a;
    }
  }

  /** With a one-character separator that no piece holds, splitting the joined pieces gives them back. */
  lemma {:induction false} SplitJoin(xs: seq<string>, c: char)
    requires |xs| >= 1
    requires forall i :: 0 <= i < |xs| ==> c !in xs[i]
    ensures Split(NameSchema.Join([c], xs), [c]) == xs
    decreases |xs|
  {
    if |xs| == 1 {
      SplitWithout(xs[0], c);
    } else {
      SplitJoin(xs[1..], c);
      SplitAtFirst(xs[0], c, NameSchema.Join([c], xs[1..]));
      assert [xs[0]] + xs[1..] == xs;
    }
  }

  /** `sub` occurs somewhere in `s`. */
  predicate Occurs(s: string, sub: string) {
    exists i :: 0 <= i <= |s| && StartsWith(s[i..], sub)
  }

  /** A string in which the separator does not occur is one piece. */
  lemma {:induction false} SplitNoOccurrence(s: string, sep: string)
    requires sep != [] && !Occurs(s, sep)
    ensures Split(s, sep) == [s]
    decreases |s|
  {
    if s != [] {
      assert s[0..] == s;
      assert !Occurs(s[1..], sep) by {
        forall i | 0 <= i <= |s[1..]|
          ensures !StartsWith(s[1..][i..], sep)
        {
          assert s[1..][i..] == s[i + 1..];
        }
      }
      SplitNoOccurrence(s[1..], sep);
      assert [s[0]] + s[1..] == s;
    }
  }

  /** `s.replace(target, replacement)`: every occurrence of `target`, found from left to right, replaced. */
  function Replace(s: string, target: string, replacement: string): (r: string)
    requires target != []
    ensures !Occurs(s, target) ==> r == s
  {
    assert !Occurs(s, target) ==> Split(s, target) == [s] by {
      if !Occurs(s, target) {
        SplitNoOccurrence(s, target);
      }
    }
    NameSchema.Join(replacement, Split(s, target))
  }

  // ---------------------------------------------------------------------
  // split(sep, 1)

  /** The first position of character `c` in `s`. */
  function FindChar(s: string, c: char): (r: Option<nat>)
    ensures r.Some? ==> r.value < |s| && s[r.value] == c && c !in s[..r.value]
    ensures r.None? <==> c !in s
  {
    if s == [] then None
    else if s[0] == c then Some(0)
    else
      var r := FindChar(s[1..], c);
      assert s == [s[0]] + s[1..];
      if r.Some? then
        assert s[..r.value + 1] == [s[0]] + s[1..][..r.value];
        Some(r.value + 1)
      else None
  }

  /**
   * `head, tail = s.split(c, 1)`: the text before and after the first
   * occurrence of `c`, or `ValueError` (no second value to unpack) when
   * `s` does not hold `c`.
   */
  function SplitOnce(s: string, c: char): (r: Option<(string, string)>)
    ensures r.None? <==> c !in s
    ensures r.Some? ==> s == r.value.0 + [c] + r.value.1 && c !in r.value.0
  {
    match FindChar(s, c)
    case None => None
    case Some(i) =>
      assert s == s[..i] + [c] + s[i + 1..];
      Some((s[..i], s[i + 1..]))
  }

  /** Splitting once at a character the head does not hold gives the head and the tail back. */
  lemma SplitOnceAt(a: string, c: char, b: string)
    requires c !in a
    ensures SplitOnce(a + [c] + b, c) == Some((a, b))
  {
    var s := a + [c] + b;
    var r := SplitOnce(s, c);
    assert s[|a|] == c;
    var i := FindChar(s, c).value;
    assert s[..i] == a;
    assert s[i + 1..] == b;
  }

  // ---------------------------------------------------------------------
  // strip, removeprefix, removesuffix

  /** `s.lstrip(chars)`. */
  function LStrip(s: string, chars: set<char>): (r: string)
    ensures |r| <= |s| && r == s[|s| - |r|..]
    ensures r == [] || r[0] !in chars
    ensures forall i :: 0 <= i < |s| - |r| ==> s[i] in chars
    decreases |s|
  {
    if s != [] && s[0] in chars then LStrip(s[1..], chars) else s
  }

  /** `s.rstrip(chars)`. */
  function RStrip(s: string, chars: set<char>): (r: string)
    ensures |r| <= |s| && r == s[..|r|]
    ensures r == [] || r[|r| - 1] !in chars
    ensures forall i :: |r| <= i < |s| ==> s[i] in chars
    decreases |s|
  {
    if s != [] && s[|s| - 1] in chars then RStrip(s[..|s| - 1], chars) else s
  }

  /** `s.strip(chars)`: the characters of `chars` removed from both ends. */
  function Strip(s: string, chars: set<char>): (r: string)
    ensures r == [] || (r[0] !in chars && r[|r| - 1] !in chars)
    ensures |r| <= |s|
  {
    RStrip(LStrip(s, chars), chars)
  }

  /** A string that neither starts nor ends with one of `chars` is its own strip. */
  lemma StripKeeps(s: string, chars: set<char>)
    requires s == [] || (s[0] !in chars && s[|s| - 1] !in chars)
    ensures Strip(s, chars) == s
  {
  }

  /** One leading character of `chars` in front of a string that neither starts nor ends with one is stripped. */
  lemma StripLeading(a: char, x: string, chars: set<char>)
    requires a in chars && x != [] && x[0] !in chars && x[|x| - 1] !in chars
    ensures Strip([a] + x, chars) == x
  {
    assert ([a] + x)[1..] == x;
    assert LStrip([a] + x, chars) == x;
  }

  /** One character of `chars` on each side of such a string is stripped. */
  lemma StripWrapped(a: char, x: string, b: char, chars: set<char>)
    requires a in chars && b in chars && x != [] && x[0] !in chars && x[|x| - 1] !in chars
    ensures Strip([a] + x + [b], chars) == x
  {
    var s := [a] + x + [b];
    assert s[1..] == x + [b];
    assert LStrip(s, chars) == x + [b];
    assert (x + [b])[..|x|] == x;
    assert RStrip(x + [b], chars) == RStrip(x, chars);
  }

  /** `s.removeprefix(p)`. */
  function RemovePrefix(s: string, p: string): (r: string)
    ensures StartsWith(s, p) ==> s == p + r
    ensures !StartsWith(s, p) ==> r == s
  {
    if StartsWith(s, p) then
      assert s == s[..|p|] + s[|p|..];
      s[|p|..]
    else s
  }

  /** `s.removesuffix(p)`. */
  function RemoveSuffix(s: string, p: string): (r: string)
    ensures EndsWith(s, p) ==> s == r + p
    ensures !EndsWith(s, p) ==> r == s
  {
    if EndsWith(s, p) then
      assert s == s[..|s| - |p|] + s[|s| - |p|..];
      s[..|s| - |p|]
    else s
  }

  // ---------------------------------------------------------------------
  // Decimal integers

  /** `\d+` on ASCII text. */
  predicate DigitRun(s: string) {
    |s| > 0 && forall i :: 0 <= i < |s| ==> IsDigit(s[i])
  }

  /** `str(n)` for a non-negative integer. */
  function Decimal(n: nat): (r: string)
    ensures DigitRun(r)
  {
    if n < 10 then [('0' as int + n) as char] else Decimal(n / 10) + [('0' as int + n % 10) as char]
  }

  /** `int(s)` for a run of ASCII digits. */
  function DecimalValue(s: string): nat
    requires forall i :: 0 <= i < |s| ==> IsDigit(s[i])
    decreases |s|
  {
    if s == [] then 0
    else
      var d := s[|s| - 1];
      assert IsDigit(d);
      DecimalValue(s[..|s| - 1]) * 10 + (d as int - '0' as int)
  }

  /** `int(str(n)) == n`. */
  lemma {:induction false} DecimalRoundTrip(n: nat)
    ensures DecimalValue(Decimal(n)) == n
  {
    if n >= 10 {
      var d := Decimal(n);
      DecimalRoundTrip(n / 10);
      assert d[..|d| - 1] == Decimal(n / 10);
    } else {
      assert Decimal(n)[..0] == [];
    }
  }

  /** `str(n)` begins with a digit, never with a sign, a space or a letter. */
  lemma DecimalStartsWithDigit(n: nat)
    ensures IsDigit(Decimal(n)[0])
  {
  }
}
