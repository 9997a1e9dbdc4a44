/**
  The parts of JavaScript's semantics the wheel depends on:
  - `String.prototype.trim`, which strips every WhiteSpace and LineTerminator
    code point (ECMAScript, sections "White Space" and "Line Terminators")
    from both ends of a string;
  - the truthiness of a string, which holds exactly when it is non-empty;
  - the `%` operator on integral numbers, whose result takes the sign of the
    dividend (it truncates toward zero, unlike Dafny's Euclidean `%`).
 */
module JsSemantics {

  function Abs(a: int): nat {
    if a < 0 then -a else a
  }

  /** `a % b` in JavaScript, for integral `a` and a positive integral `b`. */
  function JsRem(a: int, b: int): (r: int)
    requires b > 0
    ensures -b < r < b
    ensures a >= 0 ==> r >= 0
    ensures a <= 0 ==> r <= 0
    ensures Abs(r) == Abs(a) % b
  {
    if a >= 0 then a % b else -((-a) % b)
  }

  /** On a non-negative dividend JavaScript's `%` agrees with Dafny's. */
  lemma JsRemNonNegative(a: int, b: int)
    requires a >= 0 && b > 0
    ensures JsRem(a, b) == a % b
  {
  }

  /** ECMAScript WhiteSpace (TAB, VT, FF, ZWNBSP and every Zs code point)
      and LineTerminator (LF, CR, LS, PS). */
  predicate IsJsSpace(c: char) {
    || c == '\t' || c == '\U{B}' || c == '\U{C}' || c == ' ' || c == '\U{A0}'
    || c == '\U{FEFF}' || c == '\U{1680}' || ('\U{2000}' <= c <= '\U{200A}')
    || c == '\U{202F}' || c == '\U{205F}' || c == '\U{3000}'
    || c == '\n' || c == '\r' || c == '\U{2028}' || c == '\U{2029}'
  }

  predicate AllSpace(s: string) {
    forall k :: 0 <= k < |s| ==> IsJsSpace(s[k])
  }

  /** JavaScript truthiness of a string: only the empty string is falsy. */
  predicate Truthy(s: string) {
    |s| != 0
  }

  /** Cutting `s` to `s[i..j]` removes only white space, and leaves no
      white space at either end of what remains. */
  predicate TrimCut(s: string, i: int, j: int) {
    && 0 <= i <= j <= |s|
    && (forall k :: 0 <= k < i ==> IsJsSpace(s[k]))
    && (forall k :: j <= k < |s| ==> IsJsSpace(s[k]))
    && (i < j ==> !IsJsSpace(s[i]) && !IsJsSpace(s[j - 1]))
  }

  /** `r` is what trimming `s` must give. */
  ghost predicate IsTrimOf(s: string, r: string) {
    exists i, j :: TrimCut(s, i, j) && r == s[i..j]
  }

  /** The length of the run of white space that starts `s`. */
  function LeadingSpace(s: string): (n: nat)
    ensures n <= |s|
    ensures forall k :: 0 <= k < n ==> IsJsSpace(s[k])
    ensures n < |s| ==> !IsJsSpace(s[n])
  {
    if |s| == 0 || !IsJsSpace(s[0]) then 0 else 1 + LeadingSpace(s[1..])
  }

  /** The length of the run of white space that ends `s`. */
  function TrailingSpace(s: string): (n: nat)
    ensures n <= |s|
    ensures forall k :: |s| - n <= k < |s| ==> IsJsSpace(s[k])
    ensures n < |s| ==> !IsJsSpace(s[|s| - 1 - n])
  {
    if |s| == 0 || !IsJsSpace(s[|s| - 1]) then 0 else 1 + TrailingSpace(s[..|s| - 1])
  }

  /** `String.prototype.trim`. */
  function Trim(s: string): (r: string)
    ensures IsTrimOf(s, r)
    ensures |r| == 0 <==> AllSpace(s)
  {
    var i := LeadingSpace(s);
    var n := TrailingSpace(s[i..]);
    assert forall k :: |s| - n <= k < |s| ==> IsJsSpace(s[k]) by {
      forall k | |s| - n <= k < |s| ensures IsJsSpace(s[k]) {
        assert s[k] == s[i..][k - i];
      }
    }
    assert i < |s| - n ==> !IsJsSpace(s[|s| - n - 1]) by {
      if i < |s| - n {
        assert s[|s| - n - 1] == s[i..][|s[i..]| - 1 - n];
      }
    }
    assert TrimCut(s, i, |s| - n);
    s[i..|s| - n]
  }

  /** A string that trims to itself has no white space at either end. */
  predicate Trimmed(s: string) {
    |s| == 0 || (!IsJsSpace(s[0]) && !IsJsSpace(s[|s| - 1]))
  }

  /** Trimming has exactly one possible outcome, so `IsTrimOf` is an
      independent definition of `Trim`. */
  lemma TrimOfUnique(s: string, r1: string, r2: string)
    requires IsTrimOf(s, r1) && IsTrimOf(s, r2)
    ensures r1 == r2
  {
  }

  /** Trimming a string without white space at its ends changes nothing. */
  lemma TrimTrimmed(s: string)
    requires Trimmed(s)
    ensures Trim(s) == s
  {
  }

  /** Whatever `Trim` returns has no white space left at its ends. */
  lemma TrimIsTrimmed(s: string)
    ensures Trimmed(Trim(s))
  {
  }

  /** Trimming is idempotent. */
  lemma TrimIdempotent(s: string)
    ensures Trim(Trim(s)) == Trim(s)
  {
  }
}
