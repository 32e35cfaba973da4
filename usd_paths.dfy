/**
 * The path helpers of `grill/usd/__init__.py`, which know nothing about
 * the naming conventions: `common_paths`, `_pruned_prims` and `iprims`.
 *
 * An `Sdf.Path` is the empty path or an absolute path, the sequence of
 * its prim names (the absolute root is the empty sequence).  Paths sort
 * element by element, a path before its descendants.  A stage is the
 * order in which its traversal visits prims (pre-order: every prim before
 * its descendants, and a prim's descendants right after it).
 */
module UsdPaths {
  import opened Wrappers

  datatype SdfPath = EmptyPath | Abs(elems: seq<string>)

  const AbsoluteRoot: SdfPath := Abs([])

  predicate IsPrefixOf(a: seq<string>, b: seq<string>) {
    |a| <= |b| && b[..|a|] == a
  }

  /** `p.HasPrefix(q)`: `q` is `p` or one of its ancestors. */
  predicate HasPrefix(p: SdfPath, q: SdfPath) {
    p.Abs? && q.Abs? && IsPrefixOf(q.elems, p.elems)
  }

  /** `p` lies strictly below `q`. */
  predicate StrictlyBelow(p: SdfPath, q: SdfPath) {
    HasPrefix(p, q) && p != q
  }

  /** The filter of `common_paths`: `p and not p.IsAbsoluteRootPath()`. */
  predicate Kept(p: SdfPath) {
    p.Abs? && p != AbsoluteRoot
  }

  /** Two prefixes of one path are prefixes of each other. */
  lemma PrefixesComparable(a: seq<string>, b: seq<string>, x: seq<string>)
    requires IsPrefixOf(a, x) && IsPrefixOf(b, x)
    ensures IsPrefixOf(a, b) || IsPrefixOf(b, a)
  {
    if |a| <= |b| {
      assert b[..|a|] == x[..|b|][..|a|] == x[..|a|];
    } else {
      assert a[..|b|] == x[..|a|][..|b|] == x[..|b|];
    }
  }

  // ---------------------------------------------------------------------
  // Ordering

  /** Lexicographic order of names, by code point. */
  predicate StrLe(a: string, b: string)
    decreases |a|
  {
    a == [] || (b != [] && (a[0] < b[0] || (a[0] == b[0] && StrLe(a[1..], b[1..]))))
  }

  predicate StrLt(a: string, b: string) {
    StrLe(a, b) && a != b
  }

  lemma {:induction false} StrLeTotal(a: string, b: string)
    ensures StrLe(a, b) || StrLe(b, a)
    decreases |a|
  {
    if a != [] && b != [] && a[0] == b[0] {
      StrLeTotal(a[1..], b[1..]);
    }
  }

  lemma {:induction false} StrLeAntisym(a: string, b: string)
    requires StrLe(a, b) && StrLe(b, a)
    ensures a == b
    decreases |a|
  {
    if a != [] {
      StrLeAntisym(a[1..], b[1..]);
      assert a == [a[0]] + a[1..] && b == [b[0]] + b[1..];
    }
  }

  lemma {:induction false} StrLeTrans(a: string, b: string, c: string)
    requires StrLe(a, b) && StrLe(b, c)
    ensures StrLe(a, c)
    decreases |a|
  {
    if a != [] && a[0] == b[0] && b[0] == c[0] {
      StrLeTrans(a[1..], b[1..], c[1..]);
    }
  }

  lemma StrLtTrans(a: string, b: string, c: string)
    requires StrLt(a, b) && StrLe(b, c)
    ensures StrLt(a, c)
  {
    StrLeTrans(a, b, c);
    if a == c {
      StrLeAntisym(a, b);
    }
  }

  /** Paths compare element by element; a path comes before its descendants. */
  predicate PathLe(a: seq<string>, b: seq<string>)
    decreases |a|
  {
    a == [] || (b != [] && (StrLt(a[0], b[0]) || (a[0] == b[0] && PathLe(a[1..], b[1..]))))
  }

  lemma {:induction false} PathLeTotal(a: seq<string>, b: seq<string>)
    ensures PathLe(a, b) || PathLe(b, a)
    decreases |a|
  {
    if a != [] && b != [] {
      StrLeTotal(a[0], b[0]);
      if a[0] == b[0] {
        PathLeTotal(a[1..], b[1..]);
      }
    }
  }

  lemma {:induction false} PathLeAntisym(a: seq<string>, b: seq<string>)
    requires PathLe(a, b) && PathLe(b, a)
    ensures a == b
    decreases |a|
  {
    if a != [] {
      if a[0] != b[0] {
        StrLeAntisym(a[0], b[0]);
      }
      PathLeAntisym(a[1..], b[1..]);
      assert a == [a[0]] + a[1..] && b == [b[0]] + b[1..];
    }
  }

  lemma {:induction false} PathLeTrans(a: seq<string>, b: seq<string>, c: seq<string>)
    requires PathLe(a, b) && PathLe(b, c)
    ensures PathLe(a, c)
    decreases |a|
  {
    if a != [] {
      if a[0] == b[0] && b[0] == c[0] {
        PathLeTrans(a[1..], b[1..], c[1..]);
      } else if a[0] == b[0] {
        assert StrLt(a[0], c[0]);
      } else if b[0] == c[0] {
        assert StrLt(a[0], c[0]);
      } else {
        StrLtTrans(a[0], b[0], c[0]);
      }
    }
  }

  /** An ancestor sorts before its descendants. */
  lemma {:induction false} PrefixLe(a: seq<string>, b: seq<string>)
    requires IsPrefixOf(a, b)
    ensures PathLe(a, b)
    decreases |a|
  {
    if a != [] {
      assert a[0] == b[0];
      assert b[1..][..|a| - 1] == a[1..];
      PrefixLe(a[1..], b[1..]);
    }
  }

  /** The descendants of a path are contiguous in sorted order: what lies between a path and one of its descendants descends from it too. */
  lemma {:induction false} Contiguous(a: seq<string>, b: seq<string>, c: seq<string>)
    requires PathLe(a, b) && PathLe(b, c) && IsPrefixOf(a, c)
    ensures IsPrefixOf(a, b)
    decreases |a|
  {
    if a != [] {
      assert c[0] == a[0];
      if a[0] != b[0] {
        if b[0] == c[0] {
          assert false;
        } else {
          StrLtTrans(a[0], b[0], c[0]);
          assert false;
        }
      }
      assert c[1..][..|a| - 1] == a[1..];
      Contiguous(a[1..], b[1..], c[1..]);
      assert b[..|a|] == [b[0]] + b[1..][..|a| - 1];
    }
  }

  /** The order `sorted` uses: the empty path first, then absolute paths element by element. */
  predicate Le(p: SdfPath, q: SdfPath) {
    p.EmptyPath? || (q.Abs? && PathLe(p.elems, q.elems))
  }

  lemma {:induction false} PathLeRefl(a: seq<string>)
    ensures PathLe(a, a)
    decreases |a|
  {
    if a != [] {
      PathLeRefl(a[1..]);
    }
  }

  lemma LeRefl(p: SdfPath)
    ensures Le(p, p)
  {
    if p.Abs? {
      PathLeRefl(p.elems);
    }
  }

  lemma LeTotal(p: SdfPath, q: SdfPath)
    ensures Le(p, q) || Le(q, p)
  {
    if p.Abs? && q.Abs? {
      PathLeTotal(p.elems, q.elems);
    }
  }

  lemma LeAntisym(p: SdfPath, q: SdfPath)
    requires Le(p, q) && Le(q, p)
    ensures p == q
  {
    if p.Abs? {
      PathLeAntisym(p.elems, q.elems);
    }
  }

  lemma LeTrans(p: SdfPath, q: SdfPath, r: SdfPath)
    requires Le(p, q) && Le(q, r)
    ensures Le(p, r)
  {
    if p.Abs? {
      PathLeTrans(p.elems, q.elems, r.elems);
    }
  }

  // ---------------------------------------------------------------------
  // sorted

  predicate Sorted(s: seq<SdfPath>) {
    forall i, j :: 0 <= i < j < |s| ==> Le(s[i], s[j])
  }

  function Insert(x: SdfPath, s: seq<SdfPath>): (r: seq<SdfPath>)
    ensures multiset(r) == multiset(s) + multiset{x}
  {
    if s == [] then [x]
    else if Le(x, s[0]) then [x] + s
    else
      assert s == [s[0]] + s[1..];
      [s[0]] + Insert(x, s[1..])
  }

  /** `sorted(paths)`: insertion into a sorted list, one path after the other. */
  function SortPaths(s: seq<SdfPath>): (r: seq<SdfPath>)
    ensures multiset(r) == multiset(s)
  {
    if s == [] then []
    else
      assert s == [s[0]] + s[1..];
      Insert(s[0], SortPaths(s[1..]))
  }

  lemma {:induction false} InsertSorted(x: SdfPath, s: seq<SdfPath>)
    requires Sorted(s)
    ensures Sorted(Insert(x, s))
  {
    if s == [] {
    } else if Le(x, s[0]) {
      forall j | 0 <= j < |s|
        ensures Le(x, s[j])
      {
        if j > 0 {
          LeTrans(x, s[0], s[j]);
        }
      }
    } else {
      LeTotal(x, s[0]);
      var t := Insert(x, s[1..]);
      InsertSorted(x, s[1..]);
      forall y | y in t
        ensures Le(s[0], y)
      {
        assert y in multiset(t);
      }
      forall i, j | 0 <= i < j < |[s[0]] + t|
        ensures Le(([s[0]] + t)[i], ([s[0]] + t)[j])
      {
        if i == 0 {
          assert ([s[0]] + t)[j] in t;
        }
      }
    }
  }

  lemma {:induction false} SortedSort(s: seq<SdfPath>)
    ensures Sorted(SortPaths(s))
  {
    if s != [] {
      SortedSort(s[1..]);
      InsertSorted(s[0], SortPaths(s[1..]));
    }
  }

  /**
   * A list has one sorted arrangement: the order is total and
   * antisymmetric, so the insertion sort gives what `sorted` gives.
   */
  lemma {:induction false} SortedUnique(a: seq<SdfPath>, b: seq<SdfPath>)
    requires Sorted(a) && Sorted(b) && multiset(a) == multiset(b)
    ensures a == b
    decreases |a|
  {
    assert |b| == |multiset(b)| == |a|;
    if a != [] {
      SortedHeads(a, b);
      MultisetTail(a);
      MultisetTail(b);
      SortedUnique(a[1..], b[1..]);
      assert a == [a[0]] + a[1..] && b == [b[0]] + b[1..];
    }
  }

  /** Two sorted arrangements of one list start with the same path. */
  lemma SortedHeads(a: seq<SdfPath>, b: seq<SdfPath>)
    requires Sorted(a) && Sorted(b) && multiset(a) == multiset(b) && a != [] && b != []
    ensures a[0] == b[0]
  {
    assert a[0] in multiset(b) && b[0] in multiset(a);
    var j :| 0 <= j < |b| && b[j] == a[0];
    var i :| 0 <= i < |a| && a[i] == b[0];
    LeRefl(a[0]);
    LeRefl(b[0]);
    assert Le(a[0], a[i]) && Le(b[0], b[j]);
    LeAntisym(a[0], b[0]);
  }

  /** The rest of a list holds its paths but the first. */
  lemma MultisetTail(a: seq<SdfPath>)
    requires a != []
    ensures multiset(a[1..]) == multiset(a) - multiset{a[0]}
  {
    assert a == [a[0]] + a[1..];
    assert multiset(a) == multiset{a[0]} + multiset(a[1..]);
  }

  // ---------------------------------------------------------------------
  // common_paths

  /** `filter(lambda p: p and not p.IsAbsoluteRootPath(), paths)`. */
  function KeptOf(paths: seq<SdfPath>): (r: seq<SdfPath>)
    ensures forall p :: p in r <==> p in paths && Kept(p)
  {
    if paths == [] then []
    else (if Kept(paths[0]) then [paths[0]] else []) + KeptOf(paths[1..])
  }

  /** The loop of `common_paths` from the list `acc` kept so far: a path is skipped iff it has the last kept one as prefix. */
  function Unique(s: seq<SdfPath>, acc: seq<SdfPath>): seq<SdfPath>
    decreases |s|
  {
    if s == [] then acc
    else if acc != [] && HasPrefix(s[0], acc[|acc| - 1]) then Unique(s[1..], acc)
    else Unique(s[1..], acc + [s[0]])
  }

  /** The value `common_paths(paths)` returns. */
  function CommonPathsOf(paths: seq<SdfPath>): seq<SdfPath> {
    Unique(SortPaths(KeptOf(paths)), [])
  }

  /** `common_paths(paths)`: the sorted, kept paths, skipping those below the last one kept. */
  method CommonPaths(paths: seq<SdfPath>) returns (unique: seq<SdfPath>)
    ensures unique == CommonPathsOf(paths)
  {
    unique := [];
    var s := SortPaths(KeptOf(paths));
    for i := 0 to |s|
      invariant Unique(s[i..], unique) == Unique(s, [])
    {
      assert s[i..][1..] == s[i + 1..];
      if unique != [] && HasPrefix(s[i], unique[|unique| - 1]) {
        continue;
      }
      unique := unique + [s[i]];
    }
    assert s[|s|..] == [];
  }

  /** No kept path is another one or lies below another one. */
  predicate Antichain(r: seq<SdfPath>) {
    forall i, j :: 0 <= i < |r| && 0 <= j < |r| && i != j ==> !HasPrefix(r[j], r[i])
  }

  lemma SortedPrefix(s: seq<SdfPath>, k: nat)
    requires Sorted(s) && k <= |s|
    ensures Sorted(s[..k])
  {
  }

  lemma SortedRemove(s: seq<SdfPath>, k: nat)
    requires Sorted(s) && k < |s|
    ensures Sorted(s[..k] + s[k + 1..])
  {
    var t := s[..k] + s[k + 1..];
    forall i, j | 0 <= i < j < |t|
      ensures Le(t[i], t[j])
    {
      var i' := if i < k then i else i + 1;
      var j' := if j < k then j else j + 1;
      assert t[i] == s[i'] && t[j] == s[j'];
    }
  }

  /** Appending a path that does not have the last kept one as prefix keeps the list an antichain, when the list stays sorted. */
  lemma AppendAntichain(acc: seq<SdfPath>, p: SdfPath)
    requires Sorted(acc + [p]) && Antichain(acc) && p.Abs? && forall x :: x in acc ==> x.Abs?
    requires acc == [] || !HasPrefix(p, acc[|acc| - 1])
    ensures Antichain(acc + [p])
  {
    var t := acc + [p];
    var k := |acc| - 1;
    forall i | 0 <= i < |acc|
      ensures !HasPrefix(p, acc[i])
    {
      if HasPrefix(p, acc[i]) {
        assert t[i] == acc[i] && t[k] == acc[k] && t[|acc|] == p;
        if i < k {
          assert !HasPrefix(acc[k], acc[i]);
          Contiguous(acc[i].elems, acc[k].elems, p.elems);
          assert false;
        }
      }
    }
    forall j | 0 <= j < |acc|
      ensures !HasPrefix(acc[j], p)
    {
      if HasPrefix(acc[j], p) {
        PrefixLe(p.elems, acc[j].elems);
        assert t[j] == acc[j] && t[|acc|] == p;
        assert !HasPrefix(p, acc[j]);
        LeAntisym(p, acc[j]);
        assert false;
      }
    }
    forall i, j | 0 <= i < |t| && 0 <= j < |t| && i != j
      ensures !HasPrefix(t[j], t[i])
    {
      if i < |acc| && j < |acc| {
        assert t[i] == acc[i] && t[j] == acc[j];
      }
    }
  }

  /**
   * `r` is a result `Unique` may give from the kept list `acc` and the
   * sorted rest `s`: it extends `acc`, stays sorted and an antichain,
   * holds only paths of `acc` and `s`, and covers every one of them.
   */
  predicate UniqueOk(acc: seq<SdfPath>, s: seq<SdfPath>, r: seq<SdfPath>) {
    && |acc| <= |r| && r[..|acc|] == acc
    && Sorted(r) && Antichain(r)
    && (forall y :: y in r ==> y in acc || y in s)
    && (forall x :: x in acc + s ==> exists y :: y in r && HasPrefix(x, y))
  }

  lemma {:induction false} UniqueFacts(s: seq<SdfPath>, acc: seq<SdfPath>)
    requires Sorted(acc + s) && Antichain(acc)
    requires forall x :: x in acc + s ==> x.Abs?
    ensures UniqueOk(acc, s, Unique(s, acc))
    decreases |s|
  {
    var r := Unique(s, acc);
    if s == [] {
      assert acc + s == acc;
      UniqueDone(acc);
    } else if acc != [] && HasPrefix(s[0], acc[|acc| - 1]) {
      assert acc + s[1..] == (acc + s)[..|acc|] + (acc + s)[|acc| + 1..];
      SortedRemove(acc + s, |acc|);
      UniqueFacts(s[1..], acc);
      UniqueSkips(s, acc, r);
    } else {
      var acc' := acc + [s[0]];
      assert acc' + s[1..] == acc + s;
      assert acc' == (acc + s)[..|acc| + 1];
      SortedPrefix(acc + s, |acc| + 1);
      AppendAntichain(acc, s[0]);
      UniqueFacts(s[1..], acc');
      UniqueKeeps(s, acc, r);
    }
  }

  /** With nothing left to look at, the kept list is the result. */
  lemma UniqueDone(acc: seq<SdfPath>)
    requires Sorted(acc) && Antichain(acc) && forall x :: x in acc ==> x.Abs?
    ensures UniqueOk(acc, [], acc)
  {
    assert acc + [] == acc;
    forall x | x in acc + []
      ensures exists y :: y in acc && HasPrefix(x, y)
    {
      assert HasPrefix(x, x);
    }
  }

  /** A path below the last kept one is skipped: it is covered by that one. */
  lemma UniqueSkips(s: seq<SdfPath>, acc: seq<SdfPath>, r: seq<SdfPath>)
    requires s != [] && acc != [] && HasPrefix(s[0], acc[|acc| - 1])
    requires UniqueOk(acc, s[1..], r)
    ensures UniqueOk(acc, s, r)
  {
    forall x | x in acc + s
      ensures exists y :: y in r && HasPrefix(x, y)
    {
      if x == s[0] {
        assert r[..|acc|][|acc| - 1] in r;
      } else {
        assert x in acc + s[1..];
      }
    }
  }

  /** A path kept goes at the end of the kept list. */
  lemma UniqueKeeps(s: seq<SdfPath>, acc: seq<SdfPath>, r: seq<SdfPath>)
    requires s != [] && UniqueOk(acc + [s[0]], s[1..], r)
    ensures UniqueOk(acc, s, r)
  {
    var acc' := acc + [s[0]];
    assert acc' + s[1..] == acc + s;
    assert r[..|acc|] == r[..|acc'|][..|acc|];
  }

  lemma AntichainDistinct(r: seq<SdfPath>)
    requires Antichain(r) && forall x :: x in r ==> x.Abs?
    ensures Distinct(r)
  {
    forall i, j | 0 <= i < j < |r|
      ensures r[i] != r[j]
    {
      assert r[i] in r;
      if r[i] == r[j] {
        assert HasPrefix(r[j], r[i]);
      }
    }
  }

  /**
   * What `common_paths` promises: only kept paths of the input, in sorted
   * order; none of them is another or lies below another, so there are no
   * duplicates; and every kept input path lies at or below one of them.
   */
  lemma CommonPathsFacts(paths: seq<SdfPath>)
    ensures var r := CommonPathsOf(paths);
      && (forall y :: y in r ==> Kept(y) && y in paths)
      && Sorted(r) && Antichain(r) && Distinct(r)
      && (forall x :: x in paths && Kept(x) ==> exists y :: y in r && HasPrefix(x, y))
  {
    var s := SortPaths(KeptOf(paths));
    SortedSort(KeptOf(paths));
    forall x
      ensures x in s <==> x in KeptOf(paths)
    {
      assert x in s <==> x in multiset(s);
    }
    assert [] + s == s;
    UniqueFacts(s, []);
    AntichainDistinct(CommonPathsOf(paths));
  }

  // ---------------------------------------------------------------------
  // _pruned_prims

  /** The entries right after a pruned prim that lie below it: the prim range skips them. */
  function SkipBelow(p: SdfPath, rest: seq<SdfPath>): (r: seq<SdfPath>)
    ensures |r| <= |rest|
  {
    if rest == [] || !StrictlyBelow(rest[0], p) then rest
    else SkipBelow(p, rest[1..])
  }

  /** What is left after the skip is a suffix, and starts outside the subtree. */
  lemma {:induction false} SkipBelowSuffix(p: SdfPath, rest: seq<SdfPath>)
    ensures var r := SkipBelow(p, rest);
      && r == rest[|rest| - |r|..]
      && (r == [] || !StrictlyBelow(r[0], p))
    decreases |rest|
  {
    if rest != [] && StrictlyBelow(rest[0], p) {
      SkipBelowSuffix(p, rest[1..]);
      var r := SkipBelow(p, rest[1..]);
      assert rest[1..][|rest| - 1 - |r|..] == rest[|rest| - |r|..];
    }
  }

  /** What `_pruned_prims(range, predicate)` yields: every visited prim; the children of those satisfying the predicate are not visited. */
  function Pruned(range: seq<SdfPath>, prune: SdfPath -> bool): seq<SdfPath>
    decreases |range|
  {
    if range == [] then []
    else [range[0]] + Pruned(if prune(range[0]) then SkipBelow(range[0], range[1..]) else range[1..], prune)
  }

  /** `PruneChildren()`: the range moves past the entries from `i` on that lie below `prim`. */
  method SkipSubtree(range: seq<SdfPath>, i: nat, prim: SdfPath) returns (j: nat)
    requires i <= |range|
    ensures i <= j <= |range| && range[j..] == SkipBelow(prim, range[i..])
  {
    j := i;
    while j < |range| && StrictlyBelow(range[j], prim)
      invariant i <= j <= |range|
      invariant SkipBelow(prim, range[j..]) == SkipBelow(prim, range[i..])
    {
      assert range[j..][1..] == range[j + 1..];
      j := j + 1;
    }
  }

  /** `_pruned_prims`: the generator, walking the prim range and pruning it in place. */
  method PrunedPrims(range: seq<SdfPath>, prune: SdfPath -> bool) returns (yielded: seq<SdfPath>)
    ensures yielded == Pruned(range, prune)
  {
    yielded := [];
    var i := 0;
    while i < |range|
      invariant 0 <= i <= |range|
      invariant yielded + Pruned(range[i..], prune) == Pruned(range, prune)
    {
      var prim := range[i];
      assert range[i..][1..] == range[i + 1..];
      var next := i + 1;
      if prune(prim) {
        next := SkipSubtree(range, i + 1, prim);
      }
      assert Pruned(range[i..], prune) == [prim] + Pruned(range[next..], prune);
      assert (yielded + [prim]) + Pruned(range[next..], prune) == yielded + ([prim] + Pruned(range[next..], prune));
      yielded := yielded + [prim];
      i := next;
    }
    assert range[|range|..] == [];
  }

  /** `xs` keeps some of the elements of `ys`, in their order. */
  predicate Subseq<T(==)>(xs: seq<T>, ys: seq<T>)
    decreases |ys|
  {
    if ys == [] then xs == []
    else Subseq(xs, ys[1..]) || (xs != [] && xs[0] == ys[0] && Subseq(xs[1..], ys[1..]))
  }

  lemma {:induction false} SubseqSuffix<T>(xs: seq<T>, ys: seq<T>, m: nat)
    requires m <= |ys| && Subseq(xs, ys[m..])
    ensures Subseq(xs, ys)
    decreases m
  {
    if m > 0 {
      assert ys[1..][m - 1..] == ys[m..];
      SubseqSuffix(xs, ys[1..], m - 1);
    }
  }

  lemma {:induction false} SubseqRefl<T>(xs: seq<T>)
    ensures Subseq(xs, xs)
    decreases |xs|
  {
    if xs != [] {
      SubseqRefl(xs[1..]);
    }
  }

  lemma {:induction false} SubseqMembers<T>(xs: seq<T>, ys: seq<T>)
    requires Subseq(xs, ys)
    ensures forall x :: x in xs ==> x in ys
    decreases |ys|
  {
    if ys != [] {
      if Subseq(xs, ys[1..]) {
        SubseqMembers(xs, ys[1..]);
      } else {
        SubseqMembers(xs[1..], ys[1..]);
        assert xs == [xs[0]] + xs[1..];
      }
    }
  }

  /** `_pruned_prims` yields prims of the range, in the range's order. */
  lemma {:induction false} PrunedSubseq(range: seq<SdfPath>, prune: SdfPath -> bool)
    ensures Subseq(Pruned(range, prune), range)
    decreases |range|
  {
    if range != [] {
      var rest := if prune(range[0]) then SkipBelow(range[0], range[1..]) else range[1..];
      SkipBelowSuffix(range[0], range[1..]);
      PrunedSubseq(rest, prune);
      SubseqSuffix(Pruned(rest, prune), range[1..], |range[1..]| - |rest|);
      assert ([range[0]] + Pruned(rest, prune))[1..] == Pruned(rest, prune);
    }
  }

  /** With a predicate that never holds nothing is pruned. */
  lemma {:induction false} PrunedNothing(range: seq<SdfPath>, prune: SdfPath -> bool)
    requires forall x :: !prune(x)
    ensures Pruned(range, prune) == range
    decreases |range|
  {
    if range != [] {
      PrunedNothing(range[1..], prune);
      assert range == [range[0]] + range[1..];
    }
  }

  /** A traversal order: ancestors first, and the descendants of a prim right after it. */
  predicate PreOrder(range: seq<SdfPath>) {
    && (forall i, j :: 0 <= i < j < |range| ==> !StrictlyBelow(range[i], range[j]))
    && (forall i, j, k :: 0 <= i < j < k < |range| && StrictlyBelow(range[k], range[i]) ==> StrictlyBelow(range[j], range[i]))
  }

  lemma PreOrderBetween(range: seq<SdfPath>, i: nat, j: nat, k: nat)
    requires PreOrder(range) && i < j < k < |range|
    ensures StrictlyBelow(range[k], range[i]) ==> StrictlyBelow(range[j], range[i])
  {
  }

  lemma PreOrderSuffix(range: seq<SdfPath>, m: nat)
    requires PreOrder(range) && m <= |range|
    ensures PreOrder(range[m..])
  {
    var t := range[m..];
    forall i, j, k | 0 <= i < j < k < |t| && StrictlyBelow(t[k], t[i])
      ensures StrictlyBelow(t[j], t[i])
    {
      assert t[i] == range[m + i] && t[j] == range[m + j] && t[k] == range[m + k];
    }
    forall i, j | 0 <= i < j < |t|
      ensures !StrictlyBelow(t[i], t[j])
    {
      assert t[i] == range[m + i] && t[j] == range[m + j];
    }
  }

  /** After a prim's subtree is skipped, nothing left lies below it. */
  lemma SkippedNotBelow(range: seq<SdfPath>)
    requires PreOrder(range) && range != []
    ensures forall x :: x in SkipBelow(range[0], range[1..]) ==> !StrictlyBelow(x, range[0])
  {
    var rest := SkipBelow(range[0], range[1..]);
    SkipBelowSuffix(range[0], range[1..]);
    var m := |range| - |rest|;
    forall k | 0 <= k < |rest|
      ensures !StrictlyBelow(rest[k], range[0])
    {
      assert rest[k] == range[1..][m - 1 + k] == range[m + k];
      if k > 0 {
        assert rest[0] == range[1..][m - 1] == range[m];
        PreOrderBetween(range, 0, m, m + k);
      }
    }
  }

  /** In a traversal order the first prim lies below none of the later ones. */
  lemma FirstNotBelow(range: seq<SdfPath>)
    requires PreOrder(range) && range != []
    ensures forall x :: x in range[1..] ==> !StrictlyBelow(range[0], x)
  {
    forall x | x in range[1..]
      ensures !StrictlyBelow(range[0], x)
    {
      var k :| 0 <= k < |range[1..]| && range[1..][k] == x;
      assert range[k + 1] == x;
    }
  }

  /** On a traversal order, no prim yielded by `_pruned_prims` lies below a yielded prim that satisfies the predicate. */
  lemma {:induction false} PrunedNothingBelow(range: seq<SdfPath>, prune: SdfPath -> bool)
    requires PreOrder(range)
    ensures var y := Pruned(range, prune);
      forall a, b :: a in y && b in y && prune(a) ==> !StrictlyBelow(b, a)
    decreases |range|
  {
    if range != [] {
      var p := range[0];
      var rest := if prune(p) then SkipBelow(p, range[1..]) else range[1..];
      SkipBelowSuffix(p, range[1..]);
      var m := |range| - |rest|;
      assert rest == range[m..];
      PreOrderSuffix(range, m);
      PrunedNothingBelow(rest, prune);
      PrunedSubseq(rest, prune);
      SubseqMembers(Pruned(rest, prune), rest);
      FirstNotBelow(range);
      SubseqRefl(rest);
      SubseqSuffix(rest, range[1..], |range[1..]| - |rest|);
      SubseqMembers(rest, range[1..]);
      if prune(p) {
        SkippedNotBelow(range);
      }
      var y := Pruned(range, prune);
      assert y == [p] + Pruned(rest, prune);
      forall a, b | a in y && b in y && prune(a)
        ensures !StrictlyBelow(b, a)
      {
        if a == p {
          if b != p {
            assert b in rest;
          }
        } else {
          assert a in Pruned(rest, prune);
          assert a in range[1..];
          if b != p {
            assert b in Pruned(rest, prune);
          }
        }
      }
    }
  }

  // ---------------------------------------------------------------------
  // iprims

  /** The prims of `stage` at or below `root`, in traversal order. */
  function Below(stage: seq<SdfPath>, root: SdfPath): (r: seq<SdfPath>)
    ensures forall x :: x in r <==> x in stage && HasPrefix(x, root)
  {
    if stage == [] then []
    else (if HasPrefix(stage[0], root) then [stage[0]] else []) + Below(stage[1..], root)
  }

  /** `Usd.PrimRange(stage.GetPrimAtPath(root))`: empty for a path without a prim. */
  function RangeAt(stage: seq<SdfPath>, root: SdfPath): (r: seq<SdfPath>)
    ensures forall x :: x in r ==> x in stage && HasPrefix(x, root)
  {
    if root in stage then Below(stage, root) else []
  }

  /** The ranges chained together, each one pruned when a prune predicate is given. */
  function Chain(ranges: seq<seq<SdfPath>>, prune: Option<SdfPath -> bool>): seq<SdfPath> {
    if ranges == [] then []
    else (if prune.Some? then Pruned(ranges[0], prune.value) else ranges[0]) + Chain(ranges[1..], prune)
  }

  /**
   * `iprims(stage, root_paths, prune_predicate)`: with root paths, the
   * ranges of their `common_paths`; without them, the whole stage.
   */
  function IPrims(stage: seq<SdfPath>, rootPaths: seq<SdfPath>, prune: Option<SdfPath -> bool>): seq<SdfPath> {
    var roots := CommonPathsOf(rootPaths);
    var ranges := if rootPaths != [] then seq(|roots|, i requires 0 <= i < |roots| => RangeAt(stage, roots[i])) else [stage];
    Chain(ranges, prune)
  }

  /** Without root paths or prune predicate, `iprims` is the stage's traversal. */
  lemma IPrimsWholeStage(stage: seq<SdfPath>)
    ensures IPrims(stage, [], None) == stage
  {
    assert [stage][1..] == [];
    assert Chain([stage], None) == stage + Chain([], None);
  }

  lemma {:induction false} ChainMembers(ranges: seq<seq<SdfPath>>, prune: Option<SdfPath -> bool>, x: SdfPath)
    requires x in Chain(ranges, prune)
    ensures exists i :: 0 <= i < |ranges| && x in ranges[i]
  {
    var head := if prune.Some? then Pruned(ranges[0], prune.value) else ranges[0];
    if x in head {
      if prune.Some? {
        PrunedSubseq(ranges[0], prune.value);
        SubseqMembers(head, ranges[0]);
      }
      assert x in ranges[0];
    } else {
      ChainMembers(ranges[1..], prune, x);
      var i :| 0 <= i < |ranges[1..]| && x in ranges[1..][i];
      assert x in ranges[i + 1];
    }
  }

  /** With root paths, `iprims` yields prims of the stage at or below one of the common roots. */
  lemma IPrimsRooted(stage: seq<SdfPath>, rootPaths: seq<SdfPath>, prune: Option<SdfPath -> bool>)
    requires rootPaths != []
    ensures forall x :: x in IPrims(stage, rootPaths, prune) ==>
      x in stage && exists r :: r in CommonPathsOf(rootPaths) && HasPrefix(x, r)
  {
    var roots := CommonPathsOf(rootPaths);
    var ranges := seq(|roots|, i requires 0 <= i < |roots| => RangeAt(stage, roots[i]));
    forall x | x in IPrims(stage, rootPaths, prune)
      ensures x in stage && exists r :: r in roots && HasPrefix(x, r)
    {
      ChainMembers(ranges, prune, x);
      var i :| 0 <= i < |ranges| && x in ranges[i];
      assert roots[i] in roots;
    }
  }

  lemma {:induction false} BelowDistinct(stage: seq<SdfPath>, root: SdfPath)
    requires Distinct(stage)
    ensures Distinct(Below(stage, root))
  {
    if stage != [] {
      assert stage == [stage[0]] + stage[1..];
      DistinctSplit([stage[0]], stage[1..]);
      BelowDistinct(stage[1..], root);
      var h: seq<SdfPath> := if HasPrefix(stage[0], root) then [stage[0]] else [];
      var t := Below(stage[1..], root);
      forall i, j | 0 <= i < j < |h + t|
        ensures (h + t)[i] != (h + t)[j]
      {
        if i < |h| {
          assert (h + t)[j] in t;
        }
      }
    }
  }

  lemma {:induction false} SubseqDistinct<T>(xs: seq<T>, ys: seq<T>)
    requires Subseq(xs, ys) && Distinct(ys)
    ensures Distinct(xs)
    decreases |ys|
  {
    if ys != [] {
      assert ys == [ys[0]] + ys[1..];
      DistinctSplit([ys[0]], ys[1..]);
      if Subseq(xs, ys[1..]) {
        SubseqDistinct(xs, ys[1..]);
      } else {
        SubseqDistinct(xs[1..], ys[1..]);
        SubseqMembers(xs[1..], ys[1..]);
        forall i, j | 0 <= i < j < |xs|
          ensures xs[i] != xs[j]
        {
          if i == 0 {
            assert xs[j] == xs[1..][j - 1];
            assert xs[j] in ys[1..];
          } else {
            assert xs[i] == xs[1..][i - 1] && xs[j] == xs[1..][j - 1];
          }
        }
      }
    }
  }

  /** The ranges of an antichain of roots share no prim. */
  predicate Disjoint(ranges: seq<seq<SdfPath>>) {
    forall i, j, x :: 0 <= i < j < |ranges| && x in ranges[i] ==> x !in ranges[j]
  }

  lemma {:induction false} ChainDistinct(ranges: seq<seq<SdfPath>>, prune: Option<SdfPath -> bool>)
    requires Disjoint(ranges) && forall i :: 0 <= i < |ranges| ==> Distinct(ranges[i])
    ensures Distinct(Chain(ranges, prune))
  {
    if ranges != [] {
      var head := if prune.Some? then Pruned(ranges[0], prune.value) else ranges[0];
      if prune.Some? {
        PrunedSubseq(ranges[0], prune.value);
        SubseqDistinct(head, ranges[0]);
        SubseqMembers(head, ranges[0]);
      }
      var tail := Chain(ranges[1..], prune);
      ChainDistinct(ranges[1..], prune);
      forall i, j | 0 <= i < j < |head + tail|
        ensures (head + tail)[i] != (head + tail)[j]
      {
        if i < |head| && j >= |head| {
          var x := (head + tail)[j];
          assert x in tail;
          ChainMembers(ranges[1..], prune, x);
          var k :| 0 <= k < |ranges[1..]| && x in ranges[1..][k];
          assert x in ranges[k + 1];
          assert (head + tail)[i] in ranges[0];
        } else if i >= |head| {
          assert (head + tail)[i] == tail[i - |head|] && (head + tail)[j] == tail[j - |head|];
        }
      }
    }
  }

  /**
   * `iprims` visits every prim at most once: the common roots form an
   * antichain, so their ranges share no prim.
   */
  lemma IPrimsOnce(stage: seq<SdfPath>, rootPaths: seq<SdfPath>, prune: Option<SdfPath -> bool>)
    requires Distinct(stage)
    ensures Distinct(IPrims(stage, rootPaths, prune))
  {
    var roots := CommonPathsOf(rootPaths);
    CommonPathsFacts(rootPaths);
    if rootPaths != [] {
      var ranges := seq(|roots|, i requires 0 <= i < |roots| => RangeAt(stage, roots[i]));
      forall i | 0 <= i < |ranges|
        ensures Distinct(ranges[i])
      {
        BelowDistinct(stage, roots[i]);
      }
      forall i, j, x: SdfPath | 0 <= i < j < |ranges| && x in ranges[i]
        ensures x !in ranges[j]
      {
        assert !HasPrefix(roots[j], roots[i]) && !HasPrefix(roots[i], roots[j]);
        if x in ranges[j] {
          PrefixesComparable(roots[i].elems, roots[j].elems, x.elems);
          assert false;
        }
      }
      ChainDistinct(ranges, prune);
    } else {
      assert [stage][1..] == [];
      var ranges := [stage];
      ChainDistinct(ranges, prune);
    }
  }
}
