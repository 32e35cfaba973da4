/**
 * The Maya attribute name `MyAttribute`: a plug (`in` or `out`), an
 * attribute (letters), an optional axis (`X`, `Y` or `Z`) and an optional
 * index digit, concatenated with the empty separator, as in
 * `outTranslateX1`.
 *
 * The pattern `(in|out)[a-zA-Z]+[XYZ]?\d?` is matched by a backtracking
 * engine: the greedy attribute takes every letter, so the axis group can
 * only ever match the empty string.  `GreedyParse` is the match as the
 * pattern is written; `AxisParse` is the split the axis group was meant to
 * produce (a lazy attribute), which the rest of this module uses.
 */
module MayaNames {
  import opened Chars
  import opened Wrappers
  import opened NameSchema

  /** The four groups of a MyAttribute name, in pattern order; there is no `base` field. */
  datatype Attr = Attr(plug: string, attribute: string, axis: string, index: string)

  /** The fields in pattern order. */
  function Fields(a: Attr): seq<string> {
    [a.plug, a.attribute, a.axis, a.index]
  }

  /** The text of a name: the fields joined with the empty separator. */
  function Spell(a: Attr): (r: string)
    ensures r == Concat(Fields(a))
  {
    var fs := Fields(a);
    assert Concat(fs[3..]) == a.index;
    assert Concat(fs[2..]) == a.axis + a.index;
    assert Concat(fs[1..]) == a.attribute + a.axis + a.index;
    a.plug + a.attribute + a.axis + a.index
  }

  predicate PlugOk(p: string) { p == "in" || p == "out" }
  predicate AxisOk(x: string) { x == "" || x == "X" || x == "Y" || x == "Z" }
  predicate IndexOk(d: string) { d == "" || (|d| == 1 && IsDigit(d[0])) }
  predicate IsAxis(c: char) { c == 'X' || c == 'Y' || c == 'Z' }

  /** Every group matches its own pattern. */
  predicate AttrOk(a: Attr) {
    PlugOk(a.plug) && Run(a.attribute, Letter) && AxisOk(a.axis) && IndexOk(a.index)
  }

  /** `t` is a MyAttribute name when some well-formed split spells it. */
  ghost predicate IsName(t: string) {
    exists a :: AttrOk(a) && Spell(a) == t
  }

  /** The plug a name starts with; `in` and `out` differ in their first letter. */
  function PlugOf(t: string): (r: Option<string>)
    ensures r.Some? ==> PlugOk(r.value) && r.value <= t
    ensures forall p :: PlugOk(p) && p <= t ==> r == Some(p)
  {
    if |t| >= 3 && t[..3] == "out" then
      assert !("in" <= t) by { assert t[0] == 'o'; }
      Some("out")
    else if |t| >= 2 && t[..2] == "in" then Some("in")
    else None
  }

  /**
   * The match of the pattern as written: after the plug the attribute takes
   * the longest run of letters, the axis matches nothing, and what is left
   * must be empty or one digit.
   */
  function GreedyParse(t: string): Option<Attr> {
    match PlugOf(t)
    case None => None
    case Some(p) =>
      var rest := t[|p|..];
      var n := RunLength(rest, Letter);
      if n == 0 || !IndexOk(rest[n..]) then None
      else Some(Attr(p, rest[..n], "", rest[n..]))
  }

  /**
   * The split the axis group was meant to give: as `GreedyParse`, except
   * that a trailing `X`, `Y` or `Z` after at least one other letter is the
   * axis.
   */
  function AxisParse(t: string): Option<Attr> {
    match GreedyParse(t)
    case None => None
    case Some(g) => Some(SplitAxis(g))
  }

  /** Moves a trailing axis letter of the attribute, after at least one other letter, to the axis. */
  function SplitAxis(g: Attr): Attr {
    var n := |g.attribute|;
    if n >= 2 && IsAxis(g.attribute[n - 1]) then Attr(g.plug, g.attribute[..n - 1], [g.attribute[n - 1]], g.index)
    else g
  }

  // ---------------------------------------------------------------------
  // Facts about a well-formed split

  /**
   * The letters after the plug of a well-formed split are the attribute
   * followed by the axis, and what follows them is the index.
   */
  lemma SplitRun(a: Attr)
    requires AttrOk(a)
    ensures PlugOf(Spell(a)) == Some(a.plug)
    ensures var rest := Spell(a)[|a.plug|..];
      rest == a.attribute + a.axis + a.index &&
      RunLength(rest, Letter) == |a.attribute| + |a.axis| &&
      rest[..|a.attribute| + |a.axis|] == a.attribute + a.axis &&
      rest[|a.attribute| + |a.axis|..] == a.index
  {
    var t := Spell(a);
    assert a.plug <= t;
    var rest := t[|a.plug|..];
    assert rest == (a.attribute + a.axis) + a.index;
    assert AllIn(a.attribute + a.axis, Letter);
    assert a.index == [] || !In(a.index[0], Letter);
    RunLengthOfConcat(a.attribute + a.axis, a.index, Letter);
  }

  // ---------------------------------------------------------------------
  // The pattern as written

  /** What the pattern matches is a well-formed split of the name, with an empty axis. */
  lemma GreedySound(t: string)
    requires GreedyParse(t).Some?
    ensures AttrOk(GreedyParse(t).value) && Spell(GreedyParse(t).value) == t
    ensures GreedyParse(t).value.axis == ""
  {
    var p := PlugOf(t).value;
    var rest := t[|p|..];
    var n := RunLength(rest, Letter);
    assert t == p + rest[..n] + rest[n..];
  }

  /**
   * Every name of the language matches, and the match has the longest
   * attribute of all its splits: the attribute swallows the axis letter.
   */
  lemma GreedyLongest(a: Attr)
    requires AttrOk(a)
    ensures GreedyParse(Spell(a)) == Some(Attr(a.plug, a.attribute + a.axis, "", a.index))
  {
    SplitRun(a);
  }

  /** `set_name` accepts exactly the names of the language. */
  lemma GreedyAccepts(t: string)
    ensures GreedyParse(t).Some? <==> IsName(t)
  {
    if GreedyParse(t).Some? {
      GreedySound(t);
    }
    if IsName(t) {
      var a :| AttrOk(a) && Spell(a) == t;
      GreedyLongest(a);
    }
  }

  /** A name round-trips through the pattern as written exactly when its axis is empty. */
  lemma GreedyRoundTrip(a: Attr)
    requires AttrOk(a)
    ensures GreedyParse(Spell(a)) == Some(a) <==> a.axis == ""
  {
    GreedyLongest(a);
    if a.axis == "" {
      assert a.attribute + a.axis == a.attribute;
    }
  }

  /** `outTranslateX` matches with attribute `TranslateX` and an empty axis. */
  lemma GreedyTranslateX()
    ensures GreedyParse("outTranslateX") == Some(Attr("out", "TranslateX", "", ""))
  {
    var a := Attr("out", "Translate", "X", "");
    assert Spell(a) == "outTranslateX";
    GreedyLongest(a);
    assert a.attribute + a.axis == "TranslateX";
  }

  // ---------------------------------------------------------------------
  // The intended split

  /** Moving the axis letter out of the attribute keeps the split well formed and its text. */
  lemma SplitAxisOk(g: Attr)
    requires AttrOk(g) && g.axis == ""
    ensures AttrOk(SplitAxis(g)) && Spell(SplitAxis(g)) == Spell(g)
  {
    var n := |g.attribute|;
    if n >= 2 && IsAxis(g.attribute[n - 1]) {
      assert g.attribute == g.attribute[..n - 1] + [g.attribute[n - 1]];
    }
  }

  /** The intended split is a well-formed split of the name. */
  lemma AxisSound(t: string)
    requires AxisParse(t).Some?
    ensures AttrOk(AxisParse(t).value) && Spell(AxisParse(t).value) == t
  {
    GreedySound(t);
    SplitAxisOk(GreedyParse(t).value);
  }

  /**
   * Every split of a name has an attribute at least as long as the intended
   * one: the intended split gives the axis every letter it can take.
   */
  lemma AxisShortest(a: Attr)
    requires AttrOk(a)
    ensures AxisParse(Spell(a)).Some?
    ensures |AxisParse(Spell(a)).value.attribute| <= |a.attribute|
    ensures AxisParse(Spell(a)).value.plug == a.plug && AxisParse(Spell(a)).value.index == a.index
  {
    GreedyLongest(a);
  }

  /**
   * A name with an axis round-trips through the intended split; one without
   * round-trips unless its attribute itself ends in an axis letter after
   * another letter.
   */
  lemma AxisRoundTrip(a: Attr)
    requires AttrOk(a)
    ensures AxisParse(Spell(a)) == Some(a) <==>
      (a.axis != "" || |a.attribute| == 1 || !IsAxis(a.attribute[|a.attribute| - 1]))
  {
    GreedyLongest(a);
    var g := Attr(a.plug, a.attribute + a.axis, "", a.index);
    if a.axis != "" {
      var n := |g.attribute|;
      assert g.attribute[n - 1] == a.axis[0];
      assert g.attribute[..n - 1] == a.attribute;
      assert [g.attribute[n - 1]] == a.axis;
    } else {
      assert g.attribute == a.attribute;
    }
  }

  /** `outTranslateX` splits into attribute `Translate` and axis `X`. */
  lemma AxisTranslateX()
    ensures AxisParse("outTranslateX") == Some(Attr("out", "Translate", "X", ""))
  {
    TranslateXSpelt();
    AxisRoundTrip(Attr("out", "Translate", "X", ""));
  }

  /** `outTranslateX` is spelt by plug `out`, attribute `Translate` and axis `X`. */
  lemma TranslateXSpelt()
    ensures AttrOk(Attr("out", "Translate", "X", ""))
    ensures Spell(Attr("out", "Translate", "X", "")) == "outTranslateX"
  {
  }

  /**
   * The values of a parsed name: one entry per group, the empty groups
   * included (the name has no pipe, so nothing is filtered).
   */
  function AttrValues(a: Attr): (r: map<string, string>)
    ensures r.Keys == {"plug", "attribute", "axis", "index"}
  {
    map["plug" := a.plug, "attribute" := a.attribute, "axis" := a.axis, "index" := a.index]
  }

  /** The values of `outTranslateX` as written report an empty axis. */
  lemma GreedyValuesTranslateX()
    ensures AttrValues(GreedyParse("outTranslateX").value)["axis"] == ""
    ensures AttrValues(GreedyParse("outTranslateX").value)["attribute"] == "TranslateX"
  {
    GreedyTranslateX();
  }
}
