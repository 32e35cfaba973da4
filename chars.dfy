/**
 * Character classes used by the name patterns.  Each regular-expression
 * class of the naming models (`[a-zA-Z0-9]`, `[a-z0-9]`, `[a-z]`, `\d`,
 * `[a-zA-Z0-9\.]`, `[a-zA-Z]`) is a predicate on characters, and a field
 * pattern is a run of one of them.
 */
module Chars {

  predicate IsLower(c: char) { 'a' <= c <= 'z' }
  predicate IsUpper(c: char) { 'A' <= c <= 'Z' }
  predicate IsDigit(c: char) { '0' <= c <= '9' }
  predicate IsLetter(c: char) { IsLower(c) || IsUpper(c) }
  predicate IsAlnum(c: char) { IsLetter(c) || IsDigit(c) }

  /** The character classes that occur in the name patterns. */
  datatype CharClass =
    | Alnum        // [a-zA-Z0-9]
    | LowerAlnum   // [a-z0-9]
    | Lower        // [a-z]
    | Digit        // \d and [0-9]
    | AlnumDot     // [a-zA-Z0-9\.]
    | Letter       // [a-zA-Z]

  predicate In(c: char, k: CharClass) {
    match k
    case Alnum => IsAlnum(c)
    case LowerAlnum => IsLower(c) || IsDigit(c)
    case Lower => IsLower(c)
    case Digit => IsDigit(c)
    case AlnumDot => IsAlnum(c) || c == '.'
    case Letter => IsLetter(c)
  }

  /** Every class is contained in `[a-zA-Z0-9.]`, so none holds '_' or any other punctuation. */
  lemma ClassChars(c: char, k: CharClass)
    requires In(c, k)
    ensures IsAlnum(c) || c == '.'
    ensures c != '_'
  {
  }

  predicate AllIn(s: string, k: CharClass) {
    forall i :: 0 <= i < |s| ==> In(s[i], k)
  }

  /** `s` matches `k+`. */
  predicate Run(s: string, k: CharClass) {
    |s| > 0 && AllIn(s, k)
  }

  predicate SubClass(a: CharClass, b: CharClass) {
    forall c :: In(c, a) ==> In(c, b)
  }

  /** Length of the longest prefix of `s` whose characters all belong to `k`. */
  function RunLength(s: string, k: CharClass): (n: nat)
    ensures n <= |s|
    ensures AllIn(s[..n], k)
    ensures n < |s| ==> !In(s[n], k)
  {
    if |s| == 0 || !In(s[0], k) then 0
    else
      var m := RunLength(s[1..], k);
      assert s[..m + 1] == [s[0]] + s[1..][..m];
      m + 1
  }

  /** A run of `k` followed by a character outside `k` (or by nothing) is exactly the maximal run. */
  lemma {:induction false} RunLengthOfConcat(a: string, b: string, k: CharClass)
    requires AllIn(a, k)
    requires b == [] || !In(b[0], k)
    ensures RunLength(a + b, k) == |a|
  {
    if |a| == 0 {
      assert a + b == b;
    } else {
      assert (a + b)[1..] == a[1..] + b;
      RunLengthOfConcat(a[1..], b, k);
    }
  }
}
