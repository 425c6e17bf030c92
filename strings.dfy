/**
 Facts about strings used by the rest of the model: where one string occurs
 inside another, and JavaScript's `String.prototype.trim`.
 */
module Strings {

  /** `a` occurs in `s` starting at index `k`. */
  predicate OccursAt(a: string, s: string, k: nat)
  {
    k + |a| <= |s| && s[k..k + |a|] == a
  }

  /** `a` occurs somewhere in `s`. */
  ghost predicate Occurs(a: string, s: string)
  {
    exists k: nat :: OccursAt(a, s, k)
  }

  /** `s` ends with `a`. */
  predicate EndsWith(s: string, a: string)
  {
    |a| <= |s| && s[|s| - |a|..] == a
  }

  lemma OccursInMiddle(x: string, a: string, y: string)
    ensures OccursAt(a, x + a + y, |x|)
  {
  }

  /** An occurrence survives putting text on both sides. */
  lemma OccursWithin(a: string, s: string, k: nat, x: string, y: string)
    requires OccursAt(a, s, k)
    ensures OccursAt(a, x + s + y, |x| + k)
  {
  }

  /** An occurrence inside an occurrence. */
  lemma OccursTransitive(a: string, b: string, i: nat, s: string, j: nat)
    requires OccursAt(a, b, i) && OccursAt(b, s, j)
    ensures OccursAt(a, s, j + i)
  {
    forall t | 0 <= t < |a|
      ensures s[j + i + t] == a[t]
    {
      assert a[t] == b[i..i + |a|][t] == b[i + t];
      assert b[i + t] == s[j..j + |b|][i + t] == s[j + i + t];
    }
    assert s[j + i..j + i + |a|] == a;
  }

  lemma OccursAtEnd(x: string, a: string)
    ensures OccursAt(a, x + a, |x|)
  {
  }

  /** An occurrence survives appending text. */
  lemma OccursExtended(a: string, s: string, k: nat, y: string)
    requires OccursAt(a, s, k)
    ensures OccursAt(a, s + y, k)
  {
  }

  /** The three holes of a template `x0 a x1 b x2 c x3` sit at known, increasing positions. */
  lemma ThreeHoles(x0: string, a: string, x1: string, b: string, x2: string, c: string, x3: string)
    ensures var s := x0 + a + x1 + b + x2 + c + x3;
      && OccursAt(a, s, |x0|)
      && OccursAt(b, s, |x0| + |a| + |x1|)
      && OccursAt(c, s, |x0| + |a| + |x1| + |b| + |x2|)
  {
    var i, j, k := |x0|, |x0 + a + x1|, |x0 + a + x1 + b + x2|;
    OccursAtEnd(x0, a);
    OccursExtended(a, x0 + a, i, x1);
    OccursExtended(a, x0 + a + x1, i, b);
    OccursExtended(a, x0 + a + x1 + b, i, x2);
    OccursExtended(a, x0 + a + x1 + b + x2, i, c);
    OccursExtended(a, x0 + a + x1 + b + x2 + c, i, x3);
    OccursAtEnd(x0 + a + x1, b);
    OccursExtended(b, x0 + a + x1 + b, j, x2);
    OccursExtended(b, x0 + a + x1 + b + x2, j, c);
    OccursExtended(b, x0 + a + x1 + b + x2 + c, j, x3);
    OccursAtEnd(x0 + a + x1 + b + x2, c);
    OccursExtended(c, x0 + a + x1 + b + x2 + c, k, x3);
  }

  lemma EndsWithAppend(x: string, y: string)
    ensures EndsWith(x + y, y)
  {
  }

  /** White space and line terminators in the sense of ECMAScript (ECMA-262, sections "White Space" and "Line Terminators"): what `trim` removes. */
  predicate IsJsWhiteSpace(c: char)
  {
    || c == '\t' || c == '\n' || c == '\U{000B}' || c == '\U{000C}' || c == '\r' || c == ' '
    || c == '\U{00A0}' || c == '\U{1680}' || ('\U{2000}' <= c <= '\U{200A}')
    || c == '\U{2028}' || c == '\U{2029}' || c == '\U{202F}' || c == '\U{205F}'
    || c == '\U{3000}' || c == '\U{FEFF}'
  }

  function TrimStart(s: string): (r: string)
    ensures |r| <= |s| && r == s[|s| - |r|..]
    ensures r == [] || !IsJsWhiteSpace(r[0])
    ensures forall i :: 0 <= i < |s| - |r| ==> IsJsWhiteSpace(s[i])
  {
    if s == [] || !IsJsWhiteSpace(s[0]) then s else TrimStart(s[1..])
  }

  function TrimEnd(s: string): (r: string)
    ensures |r| <= |s| && r == s[..|r|]
    ensures r == [] || !IsJsWhiteSpace(r[|r| - 1])
    ensures forall i :: |r| <= i < |s| ==> IsJsWhiteSpace(s[i])
  {
    if s == [] || !IsJsWhiteSpace(s[|s| - 1]) then s else TrimEnd(s[..|s| - 1])
  }

  /** `s.trim()`: leading and trailing white space removed. */
  function Trim(s: string): string
  {
    TrimEnd(TrimStart(s))
  }

  /** `s.trim()` is the empty (falsy) string exactly when every character of `s` is white space. */
  lemma TrimEmptyIffBlank(s: string)
    ensures Trim(s) == "" <==> forall i :: 0 <= i < |s| ==> IsJsWhiteSpace(s[i])
  {
    var t := TrimStart(s);
    if Trim(s) == "" {
      forall i | 0 <= i < |s| ensures IsJsWhiteSpace(s[i]) {
        if i >= |s| - |t| {
          assert s[i] == t[i - (|s| - |t|)];
        }
      }
    } else {
      var r := Trim(s);
      assert r[0] == t[0];
      assert !IsJsWhiteSpace(s[|s| - |t|]);
    }
  }
}
