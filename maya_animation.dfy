/**
 * The data logic of `maya/animation/controller.py`: the attribute names
 * of `_API_ATTRS`, the search for the animation curves that drive a
 * dependency node, and the key upsert of `setAnimCurveData`.
 *
 * The Maya dependency graph is abstract: a node lists the source plugs
 * of its connections (a source may be a null plug), a plug belongs to a
 * node, and every node has an API type name.  An animation curve is a
 * list of keys sorted by time.
 */
module MayaAnimation {
  import opened Wrappers
  import opened Chars
  import opened NameSchema
  import opened CaseConversion
  import opened Texts

  // ---------------------------------------------------------------------
  // _API_ATTRS

  /** The curve attributes of `_API_SOURCE`, in one of the orders a set iterates in. */
  // The attribute names are spelt word by word, as `toUnderscores` splits them.
  const CurveSource: set<string> := {"is" + "Static", "is" + "Weighted", "pre" + "Infinity" + "Type", "post" + "Infinity" + "Type"}

  const KeySource: set<string> := {"value", "is" + "Breakdown", "tangents" + "Locked", "in" + "Tangent" + "Type", "out" + "Tangent" + "Type"}

  /** `{toUnderscores(attr): attr for attr in names}`, visiting the names in the given order. */
  function ApiAttrs(names: seq<string>): (r: map<string, string>)
    ensures forall k :: k in r ==> r[k] in names && Underscored(r[k]) == k
    ensures forall a :: a in names ==> Underscored(a) in r
  {
    if names == [] then map[]
    else
      var last := names[|names| - 1];
      assert names == names[..|names| - 1] + [last];
      ApiAttrs(names[..|names| - 1])[Underscored(last) := last]
  }

  /** When no two names convert alike, the order of the set does not matter: each name is kept under its conversion. */
  lemma ApiAttrsInjective(names: seq<string>)
    requires forall a, b :: a in names && b in names && Underscored(a) == Underscored(b) ==> a == b
    ensures forall a :: a in names ==> ApiAttrs(names)[Underscored(a)] == a
  {
  }

  /** `toUnderscores` of a word followed by text starting with an uppercase letter or by nothing. */
  lemma WordsOfLeadingWord(w: string, rest: string)
    requires WordOk(w) && (rest == [] || IsUpper(rest[0]))
    ensures Words(w + rest) == [w] + Words(rest)
  {
    var s := w + rest;
    if IsLower(w[0]) {
      RunLengthOfConcat(w, rest, Lower);
      assert s[..|w|] == w && s[|w|..] == rest;
    } else {
      assert s[1..] == w[1..] + rest;
      RunLengthOfConcat(w[1..], rest, Lower);
      assert s[..|w|] == w && s[|w|..] == rest;
    }
  }

  lemma WordsOfSingleWord(w: string)
    requires WordOk(w)
    ensures Words(w) == [w]
  {
    WordsOfLeadingWord(w, "");
    assert w + "" == w;
  }

  lemma TwoWords(a: string, b: string)
    requires WordOk(a) && WordOk(b) && IsUpper(b[0])
    ensures Words(a + b) == [a, b]
  {
    WordsOfLeadingWord(a, b);
    WordsOfSingleWord(b);
  }

  lemma ThreeWords(a: string, b: string, c: string)
    requires WordOk(a) && WordOk(b) && WordOk(c) && IsUpper(b[0]) && IsUpper(c[0])
    ensures Words(a + b + c) == [a, b, c]
  {
    assert a + b + c == a + (b + c);
    WordsOfLeadingWord(a, b + c);
    TwoWords(b, c);
  }

  lemma UnderscoredTwo(a: string, b: string)
    requires WordOk(a) && WordOk(b) && IsUpper(b[0])
    ensures Underscored(a + b) == LowerStr(a) + "_" + LowerStr(b)
  {
    TwoWords(a, b);
    LowerTwo(a, b);
    JoinTwo("_", LowerStr(a), LowerStr(b));
  }

  lemma UnderscoredThree(a: string, b: string, c: string)
    requires WordOk(a) && WordOk(b) && WordOk(c) && IsUpper(b[0]) && IsUpper(c[0])
    ensures Underscored(a + b + c) == LowerStr(a) + "_" + LowerStr(b) + "_" + LowerStr(c)
  {
    ThreeWords(a, b, c);
    LowerThree(a, b, c);
    JoinThree("_", LowerStr(a), LowerStr(b), LowerStr(c));
  }

  lemma LowerTwo(a: string, b: string)
    ensures LowerAll([a, b]) == [LowerStr(a), LowerStr(b)]
  {
  }

  lemma LowerThree(a: string, b: string, c: string)
    ensures LowerAll([a, b, c]) == [LowerStr(a), LowerStr(b), LowerStr(c)]
  {
  }

  lemma JoinTwo(sep: string, x: string, y: string)
    ensures Join(sep, [x, y]) == x + sep + y
  {
    assert [x, y][1..] == [y];
  }

  lemma JoinThree(sep: string, x: string, y: string, z: string)
    ensures Join(sep, [x, y, z]) == x + sep + y + sep + z
  {
    assert [x, y, z][1..] == [y, z];
    JoinTwo(sep, y, z);
  }

  /** `w` is a lowercase word, lowered to itself. */
  predicate Plain(w: string) {
    WordOk(w) && IsLower(w[0]) && LowerStr(w) == w
  }

  /** `w` is a capitalised word, lowered to `l`. */
  predicate Capital(w: string, l: string) {
    WordOk(w) && IsUpper(w[0]) && LowerStr(w) == l
  }

  lemma LowerWord(w: string)
    requires w != "" && AllIn(w, Lower)
    ensures Plain(w)
  {
  }

  lemma CapitalWord(w: string, l: string)
    requires |w| >= 2 && IsUpper(w[0]) && AllIn(w[1..], Lower) && l == [Lowered(w[0])] + w[1..]
    ensures Capital(w, l)
  {
  }

  /** The words of the curve attributes. */
  lemma CurveWords()
    ensures Plain("is") && Plain("pre") && Plain("post")
    ensures Capital("Static", "static") && Capital("Weighted", "weighted")
    ensures Capital("Infinity", "infinity") && Capital("Type", "type")
  {
    LowerWord("is");
    LowerWord("pre");
    LowerWord("post");
    CapitalWord("Static", "static");
    CapitalWord("Weighted", "weighted");
    CapitalWord("Infinity", "infinity");
    CapitalWord("Type", "type");
  }

  /** The words of the key attributes. */
  lemma KeyWords()
    ensures Plain("value") && Plain("is") && Plain("tangents") && Plain("in") && Plain("out")
    ensures Capital("Breakdown", "breakdown") && Capital("Locked", "locked")
    ensures Capital("Tangent", "tangent") && Capital("Type", "type")
  {
    LowerWord("value");
    LowerWord("is");
    LowerWord("tangents");
    LowerWord("in");
    LowerWord("out");
    KeyCapitals();
  }

  lemma KeyCapitals()
    ensures Capital("Breakdown", "breakdown") && Capital("Locked", "locked")
    ensures Capital("Tangent", "tangent") && Capital("Type", "type")
  {
    CapitalWord("Breakdown", "breakdown");
    CapitalWord("Locked", "locked");
    CapitalWord("Tangent", "tangent");
    CapitalWord("Type", "type");
  }

  /** The lowered curve words joined by `_`. */
  lemma CurveSpelt()
    ensures "is" + "_" + "static" == "is_static"
    ensures "is" + "_" + "weighted" == "is_weighted"
    ensures "pre" + "_" + "infinity" + "_" + "type" == "pre_infinity_type"
    ensures "post" + "_" + "infinity" + "_" + "type" == "post_infinity_type"
  {
  }

  /** The lowered key words joined by `_`. */
  lemma KeySpelt()
    ensures "is" + "_" + "breakdown" == "is_breakdown"
    ensures "tangents" + "_" + "locked" == "tangents_locked"
    ensures "in" + "_" + "tangent" + "_" + "type" == "in_tangent_type"
    ensures "out" + "_" + "tangent" + "_" + "type" == "out_tangent_type"
  {
  }

  lemma IsStaticName()
    ensures Underscored("is" + "Static") == "is_static"
  {
    CurveWords();
    UnderscoredTwo("is", "Static");
    CurveSpelt();
  }

  lemma IsWeightedName()
    ensures Underscored("is" + "Weighted") == "is_weighted"
  {
    CurveWords();
    UnderscoredTwo("is", "Weighted");
    CurveSpelt();
  }

  lemma PreInfinityTypeName()
    ensures Underscored("pre" + "Infinity" + "Type") == "pre_infinity_type"
  {
    CurveWords();
    UnderscoredThree("pre", "Infinity", "Type");
    CurveSpelt();
  }

  lemma PostInfinityTypeName()
    ensures Underscored("post" + "Infinity" + "Type") == "post_infinity_type"
  {
    CurveWords();
    UnderscoredThree("post", "Infinity", "Type");
    CurveSpelt();
  }

  /** The snake-case names of the curve attributes, which `setAnimCurveData` reads back. */
  lemma CurveAttrNames()
    ensures Underscored("is" + "Static") == "is_static"
    ensures Underscored("is" + "Weighted") == "is_weighted"
    ensures Underscored("pre" + "Infinity" + "Type") == "pre_infinity_type"
    ensures Underscored("post" + "Infinity" + "Type") == "post_infinity_type"
  {
    IsStaticName();
    IsWeightedName();
    PreInfinityTypeName();
    PostInfinityTypeName();
  }

  lemma ValueName()
    ensures Underscored("value") == "value"
  {
    KeyWords();
    WordsOfSingleWord("value");
    assert LowerAll(["value"]) == [LowerStr("value")];
  }

  lemma IsBreakdownName()
    ensures Underscored("is" + "Breakdown") == "is_breakdown"
  {
    KeyWords();
    UnderscoredTwo("is", "Breakdown");
    KeySpelt();
  }

  lemma TangentsLockedName()
    ensures Underscored("tangents" + "Locked") == "tangents_locked"
  {
    KeyWords();
    UnderscoredTwo("tangents", "Locked");
    KeySpelt();
  }

  lemma InTangentTypeName()
    ensures Underscored("in" + "Tangent" + "Type") == "in_tangent_type"
  {
    KeyWords();
    UnderscoredThree("in", "Tangent", "Type");
    KeySpelt();
  }

  lemma OutTangentTypeName()
    ensures Underscored("out" + "Tangent" + "Type") == "out_tangent_type"
  {
    KeyWords();
    UnderscoredThree("out", "Tangent", "Type");
    KeySpelt();
  }

  /** The snake-case names of the key attributes. */
  lemma KeyAttrNames()
    ensures Underscored("value") == "value"
    ensures Underscored("is" + "Breakdown") == "is_breakdown"
    ensures Underscored("tangents" + "Locked") == "tangents_locked"
    ensures Underscored("in" + "Tangent" + "Type") == "in_tangent_type"
    ensures Underscored("out" + "Tangent" + "Type") == "out_tangent_type"
  {
    ValueName();
    IsBreakdownName();
    TangentsLockedName();
    InTangentTypeName();
    OutTangentTypeName();
  }

  /** `_API_ATTRS[level]` is the expected table when every attribute's conversion is the table's key for it. */
  lemma ApiAttrsTable(order: seq<string>, source: set<string>, table: map<string, string>)
    requires (set a | a in order) == source
    requires forall k :: k in table ==> table[k] in source && Underscored(table[k]) == k
    requires forall a :: a in source ==> Underscored(a) in table && table[Underscored(a)] == a
    ensures ApiAttrs(order) == table
  {
    MembersOfSet(order, source);
    forall a, b | a in order && b in order && Underscored(a) == Underscored(b)
      ensures a == b
    {
      assert table[Underscored(a)] == a && table[Underscored(b)] == b;
    }
    ApiAttrsInjective(order);
    InverseTablesEqual(ApiAttrs(order), table, order);
  }

  lemma MembersOfSet(order: seq<string>, source: set<string>)
    requires (set a | a in order) == source
    ensures forall a :: a in order <==> a in source
  {
    forall a
      ensures a in order <==> a in source
    {
      assert a in order <==> a in (set x | x in order);
    }
  }

  /** Two tables that each keep every name of `names` under its conversion, and nothing else, are one table. */
  lemma InverseTablesEqual(r: map<string, string>, table: map<string, string>, names: seq<string>)
    requires forall k :: k in r ==> r[k] in names && Underscored(r[k]) == k
    requires forall a :: a in names ==> Underscored(a) in r && r[Underscored(a)] == a
    requires forall k :: k in table ==> table[k] in names && Underscored(table[k]) == k
    requires forall a :: a in names ==> Underscored(a) in table && table[Underscored(a)] == a
    ensures r == table
  {
    assert r.Keys == table.Keys;
    forall k | k in table
      ensures r[k] == table[k]
    {
      assert table[k] in names;
    }
  }

  /** The table `_API_ATTRS['curve']` is meant to be. */
  const CurveTable: map<string, string> := map["is_static" := "is" + "Static", "is_weighted" := "is" + "Weighted",
    "pre_infinity_type" := "pre" + "Infinity" + "Type", "post_infinity_type" := "post" + "Infinity" + "Type"]

  /** The table `_API_ATTRS['key']` is meant to be. */
  const KeyTable: map<string, string> := map["value" := "value", "is_breakdown" := "is" + "Breakdown",
    "tangents_locked" := "tangents" + "Locked", "in_tangent_type" := "in" + "Tangent" + "Type", "out_tangent_type" := "out" + "Tangent" + "Type"]

  /** Every curve attribute converts to its key in the table. */
  lemma CurveTableOk()
    ensures forall k :: k in CurveTable ==> CurveTable[k] in CurveSource && Underscored(CurveTable[k]) == k
    ensures forall a :: a in CurveSource ==> Underscored(a) in CurveTable && CurveTable[Underscored(a)] == a
  {
    CurveAttrNames();
    assert CurveTable.Keys == {"is_static", "is_weighted", "pre_infinity_type", "post_infinity_type"};
    forall k | k in CurveTable
      ensures CurveTable[k] in CurveSource && Underscored(CurveTable[k]) == k
    {
      if k == "is_static" {
      } else if k == "is_weighted" {
      } else if k == "pre_infinity_type" {
      } else {
      }
    }
    forall a | a in CurveSource
      ensures Underscored(a) in CurveTable && CurveTable[Underscored(a)] == a
    {
      if a == "is" + "Static" {
      } else if a == "is" + "Weighted" {
      } else if a == "pre" + "Infinity" + "Type" {
      } else {
      }
    }
  }

  /** `_API_ATTRS['curve']`, whatever order the set of attributes is visited in: the snake-case names `setAnimCurveData` reads. */
  lemma CurveApiAttrs(order: seq<string>)
    requires (set a | a in order) == CurveSource
    ensures ApiAttrs(order) == CurveTable
  {
    CurveTableOk();
    ApiAttrsTable(order, CurveSource, CurveTable);
  }

  /** Every key attribute converts to its key in the table. */
  lemma KeyTableOk()
    ensures forall k :: k in KeyTable ==> KeyTable[k] in KeySource && Underscored(KeyTable[k]) == k
    ensures forall a :: a in KeySource ==> Underscored(a) in KeyTable && KeyTable[Underscored(a)] == a
  {
    KeyTableSound();
    KeyTableComplete();
  }

  lemma KeyTableSound()
    ensures forall k :: k in KeyTable ==> KeyTable[k] in KeySource && Underscored(KeyTable[k]) == k
  {
    KeyAttrNames();
    KeyTableAt();
    KeySourceHas();
  }

  lemma KeySourceHas()
    ensures "value" in KeySource && "is" + "Breakdown" in KeySource && "tangents" + "Locked" in KeySource
    ensures "in" + "Tangent" + "Type" in KeySource && "out" + "Tangent" + "Type" in KeySource
  {
  }

  lemma KeyTableComplete()
    ensures forall a :: a in KeySource ==> Underscored(a) in KeyTable && KeyTable[Underscored(a)] == a
  {
    KeyAttrNames();
    KeyTableAt();
    forall a | a in KeySource
      ensures Underscored(a) in KeyTable && KeyTable[Underscored(a)] == a
    {
      KeySourceCases(a);
    }
  }

  lemma KeySourceCases(a: string)
    requires a in KeySource
    ensures a == "value" || a == "is" + "Breakdown" || a == "tangents" + "Locked"
      || a == "in" + "Tangent" + "Type" || a == "out" + "Tangent" + "Type"
  {
  }

  /** The entries of the key table, one by one. */
  lemma KeyTableAt()
    ensures KeyTable.Keys == {"value", "is_breakdown", "tangents_locked", "in_tangent_type", "out_tangent_type"}
    ensures KeyTable["value"] == "value" && KeyTable["is_breakdown"] == "is" + "Breakdown"
    ensures KeyTable["tangents_locked"] == "tangents" + "Locked" && KeyTable["in_tangent_type"] == "in" + "Tangent" + "Type"
    ensures KeyTable["out_tangent_type"] == "out" + "Tangent" + "Type"
  {
  }

  /** `_API_ATTRS['key']`, whatever order the set of attributes is visited in. */
  lemma KeyApiAttrs(order: seq<string>)
    requires (set a | a in order) == KeySource
    ensures ApiAttrs(order) == KeyTable
  {
    KeyTableOk();
    ApiAttrsTable(order, KeySource, KeyTable);
  }

  // ---------------------------------------------------------------------
  // _getNodeAnimCurves

  datatype Plug = NullPlug | Plug(id: nat, node: nat)

  /** For each node, the source plugs of its connections; and each node's `apiTypeStr`. */
  datatype DepGraph = DepGraph(sources: map<nat, seq<Plug>>, types: map<nat, string>)

  function Connections(g: DepGraph, n: nat): seq<Plug> {
    if n in g.sources then g.sources[n] else []
  }

  function TypeOf(g: DepGraph, n: nat): string {
    if n in g.types then g.types[n] else ""
  }


  /** A time-driven animation curve: the nodes the search collects. */
  predicate IsAnimCurve(t: string) {
    StartsWith(t, "kAnimCurveTime")
  }

  /** Constraints and transforms end the search along a connection. */
  predicate StopsSearch(t: string) {
    EndsWith(t, "Constraint") || t == "kTransform"
  }

  /** Every plug that is the source of some connection. */
  function Plugs(g: DepGraph): set<Plug> {
    set n, p | n in g.sources && p in g.sources[n] && p.Plug? :: p
  }

  function Elements<T>(s: seq<T>): set<T> {
    set x | x in s
  }

  /** `b` is `a` with more elements after it. */
  predicate Extends<T(==)>(a: seq<T>, b: seq<T>) {
    |a| <= |b| && b[..|a|] == a
  }

  /**
   * What a search that started from `found` and `searched` has added by
   * the time the lists are `f` and `s`: both lists only grow and stay
   * free of repeats; each plug searched is the source of a connection;
   * each node found is an animation curve reached through a searched
   * plug; and every searched plug from an animation curve has its node
   * found.
   */
  predicate Collected(g: DepGraph, found: seq<nat>, searched: seq<Plug>, f: seq<nat>, s: seq<Plug>) {
    && Extends(found, f) && Extends(searched, s)
    && (Distinct(found) ==> Distinct(f))
    && (Distinct(searched) ==> Distinct(s))
    && (forall p :: p in s[|searched|..] ==> p in Plugs(g))
    && (forall n :: n in f[|found|..] ==> IsAnimCurve(TypeOf(g, n)) && exists p :: p in s[|searched|..] && p.node == n)
    && (forall p :: p in s[|searched|..] && IsAnimCurve(TypeOf(g, p.node)) ==> p.node in f)
  }

  /** Nothing added yet. */
  lemma CollectedNothing(g: DepGraph, found: seq<nat>, searched: seq<Plug>)
    ensures Collected(g, found, searched, found, searched)
  {
    assert found[|found|..] == [] && searched[|searched|..] == [];
  }

  /** Searching one more plug, and collecting its node when it is a curve not found yet. */
  lemma CollectedStep(g: DepGraph, found: seq<nat>, searched: seq<Plug>, f: seq<nat>, s: seq<Plug>, source: Plug, add: bool)
    requires Collected(g, found, searched, f, s) && source in Plugs(g) && source !in s
    requires add <==> IsAnimCurve(TypeOf(g, source.node)) && source.node !in f
    ensures Collected(g, found, searched, if add then f + [source.node] else f, s + [source])
  {
    var s' := s + [source];
    var f' := if add then f + [source.node] else f;
    assert s'[|searched|..] == s[|searched|..] + [source];
    assert s'[..|searched|] == searched;
    assert f'[|found|..] == if add then f[|found|..] + [source.node] else f[|found|..];
    assert f'[..|found|] == found;
    forall p | p in s'[|searched|..] && IsAnimCurve(TypeOf(g, p.node))
      ensures p.node in f'
    {
    }
  }

  /** A search continued from where another left off adds what both add. */
  lemma CollectedTrans(g: DepGraph, found: seq<nat>, searched: seq<Plug>, f0: seq<nat>, s0: seq<Plug>, f1: seq<nat>, s1: seq<Plug>)
    requires Collected(g, found, searched, f0, s0) && Collected(g, f0, s0, f1, s1)
    ensures Collected(g, found, searched, f1, s1)
    ensures forall p :: p in s0 ==> p in s1
  {
    assert f1[..|found|] == f1[..|f0|][..|found|];
    assert s1[..|searched|] == s1[..|s0|][..|searched|];
    assert s1[|searched|..] == s0[|searched|..] + s1[|s0|..];
    assert f1[|found|..] == f0[|found|..] + f1[|f0|..];
    forall n | n in f0
      ensures n in f1
    {
      var k :| 0 <= k < |f0| && f0[k] == n;
      assert f1[k] == n;
    }
    forall p | p in s0
      ensures p in s1
    {
      var k :| 0 <= k < |s0| && s0[k] == p;
      assert s1[k] == p;
    }
  }

  /** The elements of a list stay in any list extending it. */
  lemma ExtendsElements<T>(a: seq<T>, b: seq<T>)
    requires Extends(a, b)
    ensures Elements(a) <= Elements(b)
  {
    forall x | x in a
      ensures x in b
    {
      var k :| 0 <= k < |a| && a[k] == x;
      assert b[k] == x;
    }
  }

  /**
   * The nodes the search passes through: neither a time-driven curve nor
   * a node that ends the search (pairBlend, mute, unit conversion and the
   * like).
   */
  predicate IsBridge(t: string) {
    !IsAnimCurve(t) && !StopsSearch(t)
  }

  /** Every source plug of the connections of `n` has been searched. */
  predicate Expanded(g: DepGraph, n: nat, s: seq<Plug>) {
    forall q :: q in Connections(g, n) && q.Plug? ==> q in s
  }

  /**
   * Every searched plug whose node is a bridge has had that node's
   * connections searched, unless the node is still being searched
   * (`pending`: the nodes of the recursive calls not returned yet).
   */
  predicate Closed(g: DepGraph, s: seq<Plug>, pending: set<nat>) {
    forall p :: p in s && p.Plug? && IsBridge(TypeOf(g, p.node)) ==> p.node in pending || Expanded(g, p.node, s)
  }

  /** Searching one more plug keeps the list closed when its node, if a bridge, is pending. */
  lemma ClosedAdd(g: DepGraph, s: seq<Plug>, pending: set<nat>, source: Plug, pending': set<nat>)
    requires Closed(g, s, pending) && pending <= pending' && source.Plug?
    requires IsBridge(TypeOf(g, source.node)) ==> source.node in pending'
    ensures Closed(g, s + [source], pending')
  {
    forall p | p in s + [source] && p.Plug? && IsBridge(TypeOf(g, p.node))
      ensures p.node in pending' || Expanded(g, p.node, s + [source])
    {
      if p in s && p.node !in pending' {
        assert Expanded(g, p.node, s);
      }
    }
  }

  /** Once the connections of a pending node are searched, it is no longer pending. */
  lemma ClosedRelease(g: DepGraph, s: seq<Plug>, pending: set<nat>, n: nat)
    requires Closed(g, s, pending + {n}) && Expanded(g, n, s)
    ensures Closed(g, s, pending)
  {
  }

  /**
   * A chain of connections from `node` along which the search may go:
   * each plug is the source of a connection of the node before it, and
   * no node on the way but the last ends the search (an animation curve
   * met again is searched through).
   */
  predicate ConnectedPath(g: DepGraph, node: nat, path: seq<Plug>) {
    && |path| > 0 && path[0] in Connections(g, node)
    && (forall i :: 0 <= i < |path| ==> path[i].Plug?)
    && (forall i :: 0 <= i < |path| - 1 ==> !StopsSearch(TypeOf(g, path[i].node)) && path[i + 1] in Connections(g, path[i].node))
  }

  /** `p` ends a connected path from `root`. */
  ghost predicate Reached(g: DepGraph, root: nat, p: Plug) {
    exists path: seq<Plug> :: ConnectedPath(g, root, path) && path[|path| - 1] == p
  }

  /** The search may look at the connections of `n`: it is the root, or a reached node that does not end the search. */
  ghost predicate Leads(g: DepGraph, root: nat, n: nat) {
    n == root || exists p :: Reached(g, root, p) && p.node == n && !StopsSearch(TypeOf(g, n))
  }

  /** Every plug of `s` is reached from `root`. */
  ghost predicate AllReached(g: DepGraph, root: nat, s: seq<Plug>) {
    forall p {:trigger Reached(g, root, p)} :: p in s ==> Reached(g, root, p)
  }

  lemma AllReachedAdd(g: DepGraph, root: nat, s: seq<Plug>, p: Plug)
    requires AllReached(g, root, s) && Reached(g, root, p)
    ensures AllReached(g, root, s + [p])
  {
  }

  /** A reached plug whose node does not end the search leads on. */
  lemma LeadsOn(g: DepGraph, root: nat, p: Plug)
    requires Reached(g, root, p) && !StopsSearch(TypeOf(g, p.node))
    ensures Leads(g, root, p.node)
  {
  }

  /** A source plug of the connections of a node the search may look at is reached. */
  lemma ReachedStep(g: DepGraph, root: nat, n: nat, q: Plug)
    requires Leads(g, root, n) && q in Connections(g, n) && q.Plug?
    ensures Reached(g, root, q)
  {
    if n == root {
      assert ConnectedPath(g, root, [q]);
    } else {
      var p :| Reached(g, root, p) && p.node == n && !StopsSearch(TypeOf(g, n));
      var path :| ConnectedPath(g, root, path) && path[|path| - 1] == p;
      ExtendPath(g, root, path, q);
      assert (path + [q])[|path|] == q;
    }
  }

  /** A chain of connections whose last node does not stop the search goes on to any source plug of that node. */
  lemma ExtendPath(g: DepGraph, root: nat, path: seq<Plug>, q: Plug)
    requires ConnectedPath(g, root, path) && q.Plug?
    requires !StopsSearch(TypeOf(g, path[|path| - 1].node)) && q in Connections(g, path[|path| - 1].node)
    ensures ConnectedPath(g, root, path + [q])
  {
    var path' := path + [q];
    assert forall i :: 0 <= i < |path| ==> path'[i] == path[i];
  }

  /**
   * `_getNodeAnimCurves(node, found, searched)`: every source plug of the
   * node's connections that is neither null nor searched yet is marked
   * searched; its node is collected when it is an animation curve not
   * found yet, left alone when it is a constraint or a transform, and
   * searched in turn otherwise (an animation curve met again included),
   * threading both lists through.
   */
  method GetNodeAnimCurves(g: DepGraph, node: nat, found: seq<nat>, searched: seq<Plug>, ghost pending: set<nat>, ghost root: nat)
    returns (found': seq<nat>, searched': seq<Plug>)
    requires Closed(g, searched, pending + {node})
    requires Leads(g, root, node) && AllReached(g, root, searched)
    ensures Collected(g, found, searched, found', searched')
    ensures Expanded(g, node, searched')
    ensures Closed(g, searched', pending)
    ensures AllReached(g, root, searched')
    decreases Plugs(g) - Elements(searched)
  {
    found', searched' := found, searched;
    CollectedNothing(g, found, searched);
    var conns := Connections(g, node);
    for i := 0 to |conns|
      invariant Collected(g, found, searched, found', searched')
      invariant forall j :: 0 <= j < i && conns[j].Plug? ==> conns[j] in searched'
      invariant Closed(g, searched', pending + {node})
      invariant AllReached(g, root, searched')
    {
      var source := conns[i];
      if source.NullPlug? || source in searched' {
        continue;
      }
      assert source in Plugs(g) by {
        assert node in g.sources && source in g.sources[node];
      }
      ReachedStep(g, root, node, source);
      var t := TypeOf(g, source.node);
      var add := IsAnimCurve(t) && source.node !in found';
      CollectedStep(g, found, searched, found', searched', source, add);
      AllReachedAdd(g, root, searched', source);
      if add || StopsSearch(t) {
        ClosedAdd(g, searched', pending + {node}, source, pending + {node});
        searched' := searched' + [source];
        if add {
          found' := found' + [source.node];
        }
      } else {
        ClosedAdd(g, searched', pending + {node}, source, pending + {node} + {source.node});
        searched' := searched' + [source];
        ExtendsElements(searched, searched');
        assert source in Elements(searched') && source !in Elements(searched);
        ghost var f0, s0 := found', searched';
        CollectedNothing(g, f0, s0);
        LeadsOn(g, root, source);
        found', searched' := GetNodeAnimCurves(g, source.node, found', searched', pending + {node}, root);
        CollectedTrans(g, found, searched, f0, s0, found', searched');
      }
    }
    ClosedRelease(g, searched', pending, node);
  }

  /**
   * A chain of connections from `node`: each plug is the source of a
   * connection of the node before it, and every node on the way but the
   * last is a bridge.
   */
  predicate BridgePath(g: DepGraph, node: nat, path: seq<Plug>) {
    && |path| > 0 && path[0] in Connections(g, node)
    && (forall i :: 0 <= i < |path| ==> path[i].Plug?)
    && (forall i :: 0 <= i < |path| - 1 ==> IsBridge(TypeOf(g, path[i].node)) && path[i + 1] in Connections(g, path[i].node))
  }

  /** A closed search that expanded `node` has searched every plug of every bridge path from it. */
  lemma {:induction false} PathSearched(g: DepGraph, node: nat, s: seq<Plug>, path: seq<Plug>, k: nat)
    requires Closed(g, s, {}) && Expanded(g, node, s) && BridgePath(g, node, path) && k < |path|
    ensures path[k] in s
  {
    if k > 0 {
      PathSearched(g, node, s, path, k - 1);
      assert IsBridge(TypeOf(g, path[k - 1].node)) && path[k] in Connections(g, path[k - 1].node);
      assert Expanded(g, path[k - 1].node, s);
    }
  }

  /** Every node a search from `root` found ends a connected path from it. */
  lemma FoundConnected(g: DepGraph, root: nat, found: seq<nat>, searched: seq<Plug>)
    requires Collected(g, [], [], found, searched) && AllReached(g, root, searched)
    ensures forall n :: n in found ==> exists path: seq<Plug> :: ConnectedPath(g, root, path) && path[|path| - 1].node == n
  {
    assert found[0..] == found && searched[0..] == searched;
    forall n | n in found
      ensures exists path: seq<Plug> :: ConnectedPath(g, root, path) && path[|path| - 1].node == n
    {
      var p :| p in searched && p.node == n;
      assert Reached(g, root, p);
      var path :| ConnectedPath(g, root, path) && path[|path| - 1] == p;
    }
  }

  /**
   * `found, _ = _getNodeAnimCurves(node, [], [])`: the curves found are
   * time-driven curves, each once, each connected to the node along a
   * path the search may take, and every such curve connected to the node
   * directly or through bridge nodes is found.
   */
  method NodeAnimCurves(g: DepGraph, node: nat) returns (found: seq<nat>)
    ensures Distinct(found)
    ensures forall n :: n in found ==> IsAnimCurve(TypeOf(g, n))
    ensures forall n :: n in found ==> exists path: seq<Plug> :: ConnectedPath(g, node, path) && path[|path| - 1].node == n
    ensures forall path: seq<Plug> :: BridgePath(g, node, path) && IsAnimCurve(TypeOf(g, path[|path| - 1].node)) ==>
      path[|path| - 1].node in found
  {
    var searched;
    found, searched := GetNodeAnimCurves(g, node, [], [], {}, node);
    assert found[0..] == found && searched[0..] == searched;
    FoundConnected(g, node, found, searched);
    forall path: seq<Plug> | BridgePath(g, node, path) && IsAnimCurve(TypeOf(g, path[|path| - 1].node))
      ensures path[|path| - 1].node in found
    {
      PathSearched(g, node, searched, path, |path| - 1);
    }
  }

  // ---------------------------------------------------------------------
  // setAnimCurveData: key upsert

  /** A key: its time, its value, and the per-key data `_setAnimCurveKeyData` sets (tangents, breakdown, lock), taken as one value. */
  datatype Key = Key(time: int, value: int, tangents: int)

  /** The data of one key in `data['keys']`. */
  datatype KeyData = KeyData(time: int, value: int, tangents: int)

  /** The per-key data `addKey` gives a new key. */
  const DefaultTangents: int := 0

  /** Keys in strictly increasing time: sorted, one key per time. */
  predicate TimesIncrease(keys: seq<Key>) {
    forall i, j :: 0 <= i < j < |keys| ==> keys[i].time < keys[j].time
  }

  /** `mcurve.find(t)`: the index of the first key at time `t`, or `None`. */
  function Find(keys: seq<Key>, t: int): (r: Option<nat>)
    ensures r.Some? ==> r.value < |keys| && keys[r.value].time == t && forall k :: 0 <= k < r.value ==> keys[k].time != t
    ensures r.None? ==> forall k :: 0 <= k < |keys| ==> keys[k].time != t
  {
    if keys == [] then None
    else if keys[0].time == t then Some(0)
    else
      var r := Find(keys[1..], t);
      if r.Some? then Some(r.value + 1) else None
  }

  /** Where `addKey` puts a key at time `t`: after the leading keys at or before `t`. */
  function InsertPos(keys: seq<Key>, t: int): (p: nat)
    ensures p <= |keys|
    ensures forall k :: 0 <= k < p ==> keys[k].time <= t
    ensures p < |keys| ==> t < keys[p].time
  {
    if keys == [] || t < keys[0].time then 0 else 1 + InsertPos(keys[1..], t)
  }

  /** `mcurve.addKey(t, v)`: a new key after every key at or before `t`. */
  function AddKey(keys: seq<Key>, t: int, v: int): (r: seq<Key>)
    ensures var p := InsertPos(keys, t);
      r == keys[..p] + [Key(t, v, DefaultTangents)] + keys[p..]
  {
    if keys == [] || t < keys[0].time then [Key(t, v, DefaultTangents)] + keys
    else
      var rest := AddKey(keys[1..], t, v);
      ConsInsert(keys, InsertPos(keys[1..], t), Key(t, v, DefaultTangents));
      [keys[0]] + rest
  }

  lemma ConsInsert<T>(s: seq<T>, p: nat, x: T)
    requires p < |s|
    ensures [s[0]] + (s[1..][..p] + [x] + s[1..][p..]) == s[..p + 1] + [x] + s[p + 1..]
  {
    assert s[..p + 1] == [s[0]] + s[1..][..p];
    assert s[p + 1..] == s[1..][p..];
  }

  /** `addKey` adds the one new key and keeps every other. */
  lemma AddKeyMultiset(keys: seq<Key>, t: int, v: int)
    ensures multiset(AddKey(keys, t, v)) == multiset(keys) + multiset{Key(t, v, DefaultTangents)}
  {
    MultisetInsert(keys, InsertPos(keys, t), Key(t, v, DefaultTangents));
  }

  lemma MultisetInsert<T>(s: seq<T>, p: nat, x: T)
    requires p <= |s|
    ensures multiset(s[..p] + [x] + s[p..]) == multiset(s) + multiset{x}
  {
    assert s == s[..p] + s[p..];
  }

  /** How many keys sit at time `t`. */
  function KeysAt(keys: seq<Key>, t: int): nat {
    if keys == [] then 0 else (if keys[0].time == t then 1 else 0) + KeysAt(keys[1..], t)
  }

  /** The key data set on the key `find` returns. */
  function SetKeyData(keys: seq<Key>, d: KeyData): seq<Key> {
    match Find(keys, d.time)
    case None => keys
    case Some(i) => keys[i := keys[i].(tangents := d.tangents)]
  }

  /**
   * One iteration as written: `if not mcurve.find(t): mcurve.addKey(t, v)`.
   * `find` returns the index of the key, and an index of 0 is falsy too.
   */
  function UpsertAsWritten(keys: seq<Key>, d: KeyData): seq<Key> {
    var f := Find(keys, d.time);
    var added := if f.None? || f == Some(0) then AddKey(keys, d.time, d.value) else keys;
    SetKeyData(added, d)
  }

  /** One iteration as intended: a key is added only when none exists at that time. */
  function Upsert(keys: seq<Key>, d: KeyData): seq<Key> {
    SetKeyData(AddMissing(keys, d), d)
  }

  /** The keys with a key added at the data's time when none sits there. */
  function AddMissing(keys: seq<Key>, d: KeyData): seq<Key> {
    if Find(keys, d.time).None? then AddKey(keys, d.time, d.value) else keys
  }

  /**
   * On a curve with one key per time whose first key sits at the time to
   * set, the loop as written adds a second key at that time, where the
   * intended upsert keeps the one key.
   */
  lemma FirstKeyDuplicated(keys: seq<Key>, d: KeyData)
    requires TimesIncrease(keys) && |keys| > 0 && keys[0].time == d.time
    ensures KeysAt(keys, d.time) == 1
    ensures KeysAt(UpsertAsWritten(keys, d), d.time) == 2
    ensures KeysAt(Upsert(keys, d), d.time) == 1
  {
    var t := d.time;
    assert Find(keys, t) == Some(0);
    KeysAtOne(keys, t);
    SetKeyDataCount(keys, d);
    SetKeyDataCount(AddKey(keys, t, d.value), d);
    AddKeyAtFirst(keys, t, d.value);
  }

  /** Setting key data changes no count of keys at a time. */
  lemma SetKeyDataCount(keys: seq<Key>, d: KeyData)
    ensures forall t :: KeysAt(SetKeyData(keys, d), t) == KeysAt(keys, t)
  {
    SetKeyDataTimes(keys, d);
    forall t {
      KeysAtSameTimes(SetKeyData(keys, d), keys, t);
    }
  }

  /** `addKey` at the time of the first key, on a curve with one key per time, puts a second key there. */
  lemma AddKeyAtFirst(keys: seq<Key>, t: int, v: int)
    requires TimesIncrease(keys) && |keys| > 0 && keys[0].time == t
    ensures KeysAt(AddKey(keys, t, v), t) == 2
  {
    var p := InsertPos(keys, t);
    assert p == 1 by {
      assert InsertPos(keys, t) == 1 + InsertPos(keys[1..], t);
      assert keys[1..] == [] || t < keys[1..][0].time;
    }
    var added := AddKey(keys, t, v);
    assert added[1..][1..] == keys[1..];
    KeysAtNone(keys[1..], t);
  }

  /** Keys with the same times have as many keys at every time. */
  lemma {:induction false} KeysAtSameTimes(a: seq<Key>, b: seq<Key>, t: int)
    requires |a| == |b| && forall k :: 0 <= k < |a| ==> a[k].time == b[k].time
    ensures KeysAt(a, t) == KeysAt(b, t)
    decreases |a|
  {
    if a != [] {
      KeysAtSameTimes(a[1..], b[1..], t);
    }
  }

  /** No key at a time: no key counted there. */
  lemma {:induction false} KeysAtNone(keys: seq<Key>, t: int)
    requires forall k :: 0 <= k < |keys| ==> keys[k].time != t
    ensures KeysAt(keys, t) == 0
    decreases |keys|
  {
    if keys != [] {
      KeysAtNone(keys[1..], t);
    }
  }

  /** On a curve with one key per time, a time that `find` finds has exactly one key. */
  lemma {:induction false} KeysAtOne(keys: seq<Key>, t: int)
    requires TimesIncrease(keys) && Find(keys, t).Some?
    ensures KeysAt(keys, t) == 1
    decreases |keys|
  {
    if keys[0].time == t {
      KeysAtNone(keys[1..], t);
    } else {
      KeysAtOne(keys[1..], t);
    }
  }

  lemma AddKeyIncreases(keys: seq<Key>, t: int, v: int)
    requires TimesIncrease(keys) && Find(keys, t).None?
    ensures TimesIncrease(AddKey(keys, t, v))
    ensures Find(AddKey(keys, t, v), t) == Some(InsertPos(keys, t))
  {
    var p := InsertPos(keys, t);
    InsertIncreases(keys, p, Key(t, v, DefaultTangents));
    FindAt(AddKey(keys, t, v), p, t);
  }

  /** A key inserted between the earlier and the later times keeps the times increasing. */
  lemma InsertIncreases(keys: seq<Key>, p: nat, x: Key)
    requires TimesIncrease(keys) && p <= |keys|
    requires forall k :: 0 <= k < p ==> keys[k].time < x.time
    requires p < |keys| ==> x.time < keys[p].time
    ensures var r := keys[..p] + [x] + keys[p..];
      && TimesIncrease(r) && r[p] == x && forall k :: 0 <= k < p ==> r[k].time < x.time
  {
    var r := keys[..p] + [x] + keys[p..];
    assert forall k :: 0 <= k < p ==> r[k] == keys[k];
    assert forall k :: p < k < |r| ==> r[k] == keys[k - 1];
    forall i, j | 0 <= i < j < |r|
      ensures r[i].time < r[j].time
    {
      if j > p && i != p {
        assert keys[j - 1].time > x.time || i < p;
      } else if j > p {
        assert keys[p].time <= keys[j - 1].time;
      }
    }
  }

  /** `find` gives the first key at its time. */
  lemma FindAt(keys: seq<Key>, p: nat, t: int)
    requires p < |keys| && keys[p].time == t && forall k :: 0 <= k < p ==> keys[k].time < t
    ensures Find(keys, t) == Some(p)
  {
  }

  /**
   * On a curve with one key per time, the intended upsert keeps one key
   * per time, leaves a key at the time with the given key data, keeps
   * an existing key's value, and adds a key only when none was there.
   */
  lemma UpsertKeeps(keys: seq<Key>, d: KeyData)
    requires TimesIncrease(keys)
    ensures var r := Upsert(keys, d);
      && TimesIncrease(r)
      && Find(r, d.time).Some?
      && r[Find(r, d.time).value].tangents == d.tangents
      && (Find(keys, d.time).Some? ==> |r| == |keys| && r[Find(r, d.time).value].value == keys[Find(keys, d.time).value].value)
      && (Find(keys, d.time).None? ==> |r| == |keys| + 1 && r[Find(r, d.time).value].value == d.value)
  {
    if Find(keys, d.time).None? {
      UpsertAdds(keys, d);
    } else {
      SetKeyDataAt(keys, d);
    }
  }

  /** With no key at the data's time, the upsert adds one where `addKey` puts it, holding the data. */
  lemma UpsertAdds(keys: seq<Key>, d: KeyData)
    requires TimesIncrease(keys) && Find(keys, d.time).None?
    ensures var r := Upsert(keys, d); var p := InsertPos(keys, d.time);
      && TimesIncrease(r) && |r| == |keys| + 1 && Find(r, d.time) == Some(p)
      && r[p].tangents == d.tangents && r[p].value == d.value
  {
    var added := AddKey(keys, d.time, d.value);
    AddKeyIncreases(keys, d.time, d.value);
    assert added[InsertPos(keys, d.time)] == Key(d.time, d.value, DefaultTangents);
    SetKeyDataAt(added, d);
  }

  /** Setting the key data of the key at the data's time keeps the times and that key's value. */
  lemma SetKeyDataAt(keys: seq<Key>, d: KeyData)
    requires TimesIncrease(keys) && Find(keys, d.time).Some?
    ensures var r := SetKeyData(keys, d); var i := Find(keys, d.time).value;
      && TimesIncrease(r) && |r| == |keys| && Find(r, d.time) == Some(i)
      && r[i].tangents == d.tangents && r[i].value == keys[i].value
  {
    SetKeyDataTimes(keys, d);
    SameTimesFind(SetKeyData(keys, d), keys, d.time);
  }

  /** `find` looks at the times alone. */
  lemma SameTimesFind(a: seq<Key>, b: seq<Key>, t: int)
    requires |a| == |b| && forall k :: 0 <= k < |a| ==> a[k].time == b[k].time
    ensures Find(a, t) == Find(b, t)
  {
    if Find(a, t).Some? {
      assert b[Find(a, t).value].time == t;
    }
  }

  /** The keys after `setAnimCurveData`'s loop, key by key in the order of `data['keys']`. */
  function UpsertAll(keys: seq<Key>, data: seq<KeyData>): seq<Key>
    decreases |data|
  {
    if data == [] then keys else UpsertAll(Upsert(keys, data[0]), data[1..])
  }

  /**
   * After the loop every time of the data has exactly one key, and that
   * key holds the key data of the last entry of the data at its time.
   */
  lemma {:induction false} UpsertAllKeys(keys: seq<Key>, data: seq<KeyData>)
    requires TimesIncrease(keys)
    ensures TimesIncrease(UpsertAll(keys, data))
    ensures forall k :: 0 <= k < |data| ==> Find(UpsertAll(keys, data), data[k].time).Some?
    ensures forall k :: 0 <= k < |data| ==> KeysAt(UpsertAll(keys, data), data[k].time) == 1
    ensures forall k :: 0 <= k < |data| && LastAt(data, k) ==>
      var r := UpsertAll(keys, data); r[Find(r, data[k].time).value].tangents == data[k].tangents
    decreases |data|
  {
    if data != [] {
      UpsertKeeps(keys, data[0]);
      var next := Upsert(keys, data[0]);
      var r := UpsertAll(keys, data);
      UpsertAllKeys(next, data[1..]);
      UpsertAllKeeps(next, data[1..], data[0].time);
      forall k | 0 <= k < |data|
        ensures Find(r, data[k].time).Some?
        ensures KeysAt(r, data[k].time) == 1
        ensures LastAt(data, k) ==> r[Find(r, data[k].time).value].tangents == data[k].tangents
      {
        if k > 0 {
          LastAtTail(data, k);
        } else if LastAt(data, 0) {
          UpsertAllUntouched(next, data[1..], data[0].time);
        }
        KeysAtOne(r, data[k].time);
      }
    }
  }

  /** Entry `k` is the last entry of the data at its time. */
  predicate LastAt(data: seq<KeyData>, k: nat)
    requires k < |data|
  {
    forall j :: k < j < |data| ==> data[j].time != data[k].time
  }

  lemma LastAtTail(data: seq<KeyData>, k: nat)
    requires 0 < k < |data|
    ensures data[k] == data[1..][k - 1]
    ensures LastAt(data, k) == LastAt(data[1..], k - 1)
  {
    assert forall j :: k < j < |data| ==> data[j] == data[1..][j - 1];
  }

  /** A key whose time no later entry touches comes through the rest of the loop unchanged. */
  lemma {:induction false} UpsertAllUntouched(keys: seq<Key>, data: seq<KeyData>, t: int)
    requires TimesIncrease(keys) && Find(keys, t).Some?
    requires forall j :: 0 <= j < |data| ==> data[j].time != t
    ensures Find(UpsertAll(keys, data), t).Some?
    ensures UpsertAll(keys, data)[Find(UpsertAll(keys, data), t).value] == keys[Find(keys, t).value]
    decreases |data|
  {
    if data != [] {
      UpsertOther(keys, data[0], t);
      UpsertKeeps(keys, data[0]);
      UpsertAllUntouched(Upsert(keys, data[0]), data[1..], t);
    }
  }

  /** An upsert at another time leaves the key at `t` as it was. */
  lemma UpsertOther(keys: seq<Key>, d: KeyData, t: int)
    requires TimesIncrease(keys) && Find(keys, t).Some? && d.time != t
    ensures Find(Upsert(keys, d), t).Some?
    ensures Upsert(keys, d)[Find(Upsert(keys, d), t).value] == keys[Find(keys, t).value]
  {
    var k := Find(keys, t).value;
    var j := AddMissingKeeps(keys, d, k);
    SetKeyDataOther(AddMissing(keys, d), d, j);
    UpsertKeeps(keys, d);
    FindAt(Upsert(keys, d), j, t);
  }

  /** The key at index `k` before `addKey` when no key sits at the data's time: where it is afterwards. */
  lemma AddMissingKeeps(keys: seq<Key>, d: KeyData, k: nat) returns (j: nat)
    requires k < |keys|
    ensures j < |AddMissing(keys, d)| && AddMissing(keys, d)[j] == keys[k]
  {
    j := if Find(keys, d.time).Some? || k < InsertPos(keys, d.time) then k else k + 1;
  }

  /** Setting key data leaves the keys at other times alone. */
  lemma SetKeyDataOther(keys: seq<Key>, d: KeyData, j: nat)
    requires j < |keys| && keys[j].time != d.time
    ensures j < |SetKeyData(keys, d)| && SetKeyData(keys, d)[j] == keys[j]
  {
  }

  /** A time with a key keeps one through later upserts. */
  lemma {:induction false} UpsertAllKeeps(keys: seq<Key>, data: seq<KeyData>, t: int)
    requires TimesIncrease(keys) && Find(keys, t).Some?
    ensures Find(UpsertAll(keys, data), t).Some?
    decreases |data|
  {
    if data != [] {
      UpsertKeeps(keys, data[0]);
      UpsertKeepsTime(keys, data[0], t);
      UpsertAllKeeps(Upsert(keys, data[0]), data[1..], t);
    }
  }

  /** An upsert removes no key time. */
  lemma UpsertKeepsTime(keys: seq<Key>, d: KeyData, t: int)
    requires Find(keys, t).Some?
    ensures Find(Upsert(keys, d), t).Some?
  {
    var j := AddMissingKeeps(keys, d, Find(keys, t).value);
    SetKeyDataTimes(AddMissing(keys, d), d);
    assert Upsert(keys, d)[j].time == t;
  }

  /** Setting key data moves no key. */
  lemma SetKeyDataTimes(keys: seq<Key>, d: KeyData)
    ensures |SetKeyData(keys, d)| == |keys|
    ensures forall i :: 0 <= i < |keys| ==> SetKeyData(keys, d)[i].time == keys[i].time
  {
  }

  /** The curve `setAnimCurveData` writes to. */
  class AnimCurve {
    var isWeighted: bool
    var preInfinity: int
    var postInfinity: int
    var keys: seq<Key>

    constructor (keys: seq<Key>)
      ensures this.keys == keys && !isWeighted && preInfinity == 0 && postInfinity == 0
    {
      this.keys := keys;
      isWeighted := false;
      preInfinity := 0;
      postInfinity := 0;
    }

    /**
     * `setAnimCurveData(mcurve, data)`: the curve settings, then every
     * key of the data, added when no key sits at its time, with its key
     * data set.
     */
    method SetAnimCurveData(weighted: bool, pre: int, post: int, data: seq<KeyData>)
      modifies this
      ensures isWeighted == weighted && preInfinity == pre && postInfinity == post
      ensures keys == UpsertAll(old(keys), data)
    {
      isWeighted := weighted;
      preInfinity := pre;
      postInfinity := post;
      for i := 0 to |data|
        invariant isWeighted == weighted && preInfinity == pre && postInfinity == post
        invariant UpsertAll(keys, data[i..]) == UpsertAll(old(keys), data)
      {
        assert data[i..][1..] == data[i + 1..];
        var d := data[i];
        if Find(keys, d.time).None? {
          keys := AddKey(keys, d.time, d.value);
        }
        var index := Find(keys, d.time);
        if index.Some? {
          keys := keys[index.value := keys[index.value].(tangents := d.tangents)];
        }
      }
      assert data[|data|..] == [];
    }
  }
}
