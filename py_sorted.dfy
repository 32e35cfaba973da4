/**
 * Python's `sorted(items, key=key, reverse=reverse)` as the table models
 * use it to order their prims by a column's text: a stable sort, with
 * `reverse=True` putting larger keys first while keeping equal keys in
 * their original order.
 */
module PySorted {

  /** `a < b` on Python strings: code point by code point, a proper prefix first. */
  predicate TextLess(a: string, b: string)
    decreases |a|
  {
    if |a| == 0 then |b| > 0
    else if |b| == 0 then false
    else a[0] < b[0] || (a[0] == b[0] && TextLess(a[1..], b[1..]))
  }

  lemma {:induction false} TextLessIrreflexive(a: string)
    ensures !TextLess(a, a)
    decreases |a|
  {
    if |a| > 0 {
      TextLessIrreflexive(a[1..]);
    }
  }

  lemma {:induction false} TextLessTransitive(a: string, b: string, c: string)
    requires TextLess(a, b) && TextLess(b, c)
    ensures TextLess(a, c)
    decreases |a|
  {
    if |a| > 0 && a[0] == b[0] && b[0] == c[0] {
      TextLessTransitive(a[1..], b[1..], c[1..]);
    }
  }

  /** Two strings neither of which is less than the other are equal. */
  lemma {:induction false} TextLessTotal(a: string, b: string)
    ensures TextLess(a, b) || TextLess(b, a) || a == b
    decreases |a|
  {
    if |a| > 0 && |b| > 0 && a[0] == b[0] {
      TextLessTotal(a[1..], b[1..]);
      if a[1..] == b[1..] {
        assert a == [a[0]] + a[1..] && b == [b[0]] + b[1..];
      }
    }
  }

  /** An item with key `kx` goes before one with key `ky`. */
  predicate Before(kx: string, ky: string, reverse: bool) {
    if reverse then TextLess(ky, kx) else TextLess(kx, ky)
  }

  /** An item never goes both before and after another. */
  lemma BeforeAsymmetric(kx: string, ky: string, reverse: bool)
    requires Before(kx, ky, reverse)
    ensures !Before(ky, kx, reverse)
  {
    if Before(ky, kx, reverse) {
      if reverse {
        TextLessTransitive(ky, kx, ky);
        TextLessIrreflexive(ky);
      } else {
        TextLessTransitive(kx, ky, kx);
        TextLessIrreflexive(kx);
      }
      assert false;
    }
  }

  /** "Not before" chains: it is the order `sorted` leaves between neighbours. */
  lemma NotBeforeTransitive(ka: string, kb: string, kc: string, reverse: bool)
    requires !Before(kb, ka, reverse) && !Before(kc, kb, reverse)
    ensures !Before(kc, ka, reverse)
  {
    if reverse && TextLess(ka, kc) {
      TextLessTotal(kb, kc);
      if TextLess(kc, kb) {
        TextLessTransitive(ka, kc, kb);
      }
      assert false;
    } else if !reverse && TextLess(kc, ka) {
      TextLessTotal(ka, kb);
      if TextLess(ka, kb) {
        TextLessTransitive(kc, ka, kb);
      }
      assert false;
    }
  }

  /** The items in order: no item goes before one left of it. */
  ghost predicate Ordered<T>(s: seq<T>, key: T -> string, reverse: bool) {
    forall i, j :: 0 <= i < j < |s| ==> !Before(key(s[j]), key(s[i]), reverse)
  }

  /** `x` placed after every item it does not go before, as a stable insertion of the last item does. */
  function Insert<T(==)>(x: T, s: seq<T>, key: T -> string, reverse: bool): (r: seq<T>)
    ensures multiset(r) == multiset(s) + multiset{x}
    ensures |r| == |s| + 1
    decreases |s|
  {
    if s == [] then [x]
    else if Before(key(x), key(s[0]), reverse) then [x] + s
    else
      assert s == [s[0]] + s[1..];
      [s[0]] + Insert(x, s[1..], key, reverse)
  }

  /** `sorted(items, key=key, reverse=reverse)`. */
  function Sorted<T(==)>(items: seq<T>, key: T -> string, reverse: bool): seq<T>
    decreases |items|
  {
    if items == [] then []
    else Insert(items[|items| - 1], Sorted(items[..|items| - 1], key, reverse), key, reverse)
  }

  /** An item that no later item goes before heads an ordered list. */
  lemma ConsOrdered<T>(h: T, tail: seq<T>, key: T -> string, reverse: bool)
    requires Ordered(tail, key, reverse)
    requires forall y :: y in tail ==> !Before(key(y), key(h), reverse)
    ensures Ordered([h] + tail, key, reverse)
  {
    var r := [h] + tail;
    forall i, j | 0 <= i < j < |r|
      ensures !Before(key(r[j]), key(r[i]), reverse)
    {
      assert r[j] == tail[j - 1];
      if i > 0 {
        assert r[i] == tail[i - 1];
      }
    }
  }

  lemma {:induction false} InsertOrdered<T>(x: T, s: seq<T>, key: T -> string, reverse: bool)
    requires Ordered(s, key, reverse)
    ensures Ordered(Insert(x, s, key, reverse), key, reverse)
    decreases |s|
  {
    if s == [] {
    } else if Before(key(x), key(s[0]), reverse) {
      BeforeAsymmetric(key(x), key(s[0]), reverse);
      forall y | y in s
        ensures !Before(key(y), key(x), reverse)
      {
        var j :| 0 <= j < |s| && s[j] == y;
        if j > 0 {
          NotBeforeTransitive(key(x), key(s[0]), key(s[j]), reverse);
        }
      }
      ConsOrdered(x, s, key, reverse);
    } else {
      var tail := Insert(x, s[1..], key, reverse);
      assert Ordered(s[1..], key, reverse) by {
        forall i, j | 0 <= i < j < |s[1..]|
          ensures !Before(key(s[1..][j]), key(s[1..][i]), reverse)
        {
          assert s[1..][j] == s[j + 1] && s[1..][i] == s[i + 1];
        }
      }
      InsertOrdered(x, s[1..], key, reverse);
      forall y | y in tail
        ensures !Before(key(y), key(s[0]), reverse)
      {
        assert y in multiset(tail);
        if y != x {
          assert y in multiset(s[1..]);
          var j :| 0 <= j < |s[1..]| && s[1..][j] == y;
          assert s[j + 1] == y;
        }
      }
      ConsOrdered(s[0], tail, key, reverse);
    }
  }

  /** `sorted` returns the same items, each key in order. */
  lemma {:induction false} SortedOrdered<T>(items: seq<T>, key: T -> string, reverse: bool)
    ensures Ordered(Sorted(items, key, reverse), key, reverse)
    ensures multiset(Sorted(items, key, reverse)) == multiset(items)
    decreases |items|
  {
    if items != [] {
      var init := items[..|items| - 1];
      SortedOrdered(init, key, reverse);
      InsertOrdered(items[|items| - 1], Sorted(init, key, reverse), key, reverse);
      assert items == init + [items[|items| - 1]];
    }
  }
}
