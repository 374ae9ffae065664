/** JavaScript value semantics that the components rely on: truthiness of
    strings, `||` chains, and the String methods trim, toLowerCase,
    toUpperCase, includes and startsWith. */
module Js {

  datatype Option<T> = None | Some(value: T)

  /** `!!s` for a string: only the empty string is falsy. An absent property
      (undefined) or null is represented by "" wherever the difference is not
      observable. */
  predicate Truthy(s: string) {
    s != ""
  }

  /** `!!v` for a value that may be undefined: undefined and "" are falsy. */
  predicate TruthyOpt(v: Option<string>) {
    v.Some? && Truthy(v.value)
  }

  /** `a || b` on strings. */
  function Or(a: string, b: string): string {
    if Truthy(a) then a else b
  }

  /** `a || b` on values that may be undefined. */
  function OrOpt(a: Option<string>, b: Option<string>): Option<string> {
    if TruthyOpt(a) then a else b
  }

  /** How a template literal `${v}` renders a value that may be undefined. */
  function Template(v: Option<string>): string {
    match v
    case None => "undefined"
    case Some(s) => s
  }

  /** `a || b || c || ...`: the first truthy operand, else the last one. */
  function FirstTruthy(xs: seq<string>): (r: string)
    ensures xs == [] ==> r == ""
    ensures Truthy(r) <==> exists i :: 0 <= i < |xs| && Truthy(xs[i])
  {
    if |xs| <= 1 then (if xs == [] then "" else xs[0])
    else if Truthy(xs[0]) then xs[0]
    else
      var r := FirstTruthy(xs[1..]);
      assert forall i :: 1 <= i < |xs| ==> xs[i] == xs[1..][i - 1];
      r
  }

  /** The index of the operand that `||` returns: every operand before it is
      falsy, and it is truthy unless it is the last one. */
  lemma {:induction false} FirstTruthyIsFirst(xs: seq<string>)
    requires xs != []
    ensures exists k :: 0 <= k < |xs| && FirstTruthy(xs) == xs[k]
              && (forall j :: 0 <= j < k ==> !Truthy(xs[j]))
              && (Truthy(xs[k]) || k == |xs| - 1)
  {
    if |xs| > 1 && !Truthy(xs[0]) {
      FirstTruthyIsFirst(xs[1..]);
      var k :| 0 <= k < |xs[1..]| && FirstTruthy(xs[1..]) == xs[1..][k]
                && (forall j :: 0 <= j < k ==> !Truthy(xs[1..][j]))
                && (Truthy(xs[1..][k]) || k == |xs[1..]| - 1);
      assert FirstTruthy(xs) == xs[k + 1];
      assert forall j :: 1 <= j < k + 1 ==> xs[j] == xs[1..][j - 1];
    } else {
      assert FirstTruthy(xs) == xs[0];
    }
  }

  // ---------------------------------------------------------------------------
  // String.prototype.trim

  /** ECMAScript WhiteSpace and LineTerminator code points: the characters
      that `trim` removes. */
  predicate IsSpace(c: char) {
    || c in {'\t', '\n', '\U{000B}', '\U{000C}', '\r', ' ', '\U{00A0}', '\U{1680}'}
    || ('\U{2000}' <= c <= '\U{200A}')
    || c in {'\U{2028}', '\U{2029}', '\U{202F}', '\U{205F}', '\U{3000}', '\U{FEFF}'}
  }

  function TrimStart(s: string): (r: string)
    ensures |r| <= |s| && r == s[|s| - |r|..]
    ensures r != [] ==> !IsSpace(r[0])
    decreases |s|
  {
    if s != [] && IsSpace(s[0]) then TrimStart(s[1..]) else s
  }

  function TrimEnd(s: string): (r: string)
    ensures |r| <= |s| && r == s[..|r|]
    ensures r != [] ==> !IsSpace(r[|r| - 1])
    decreases |s|
  {
    if s != [] && IsSpace(s[|s| - 1]) then TrimEnd(s[..|s| - 1]) else s
  }

  /** `s.trim()`. */
  function Trim(s: string): string {
    TrimEnd(TrimStart(s))
  }

  /** `!s.trim()`: every character is white space, so nothing is left
      after trimming (`TrimEmptyIff` below). */
  predicate Blank(s: string) {
    forall i :: 0 <= i < |s| ==> IsSpace(s[i])
  }

  lemma {:induction false} TrimStartEmptyIff(s: string)
    ensures TrimStart(s) == "" <==> forall i :: 0 <= i < |s| ==> IsSpace(s[i])
    decreases |s|
  {
    if s != [] && IsSpace(s[0]) {
      TrimStartEmptyIff(s[1..]);
      assert forall i :: 1 <= i < |s| ==> s[i] == s[1..][i - 1];
    }
  }

  lemma {:induction false} TrimEndEmptyIff(s: string)
    ensures TrimEnd(s) == "" <==> forall i :: 0 <= i < |s| ==> IsSpace(s[i])
    decreases |s|
  {
    if s != [] && IsSpace(s[|s| - 1]) {
      TrimEndEmptyIff(s[..|s| - 1]);
      assert forall i :: 0 <= i < |s| - 1 ==> s[i] == s[..|s| - 1][i];
    }
  }

  /** `s.trim()` is empty exactly when the string is blank: the empty
      string is, and any string with a visible character is not. */
  lemma TrimEmptyIff(s: string)
    ensures Trim(s) == "" <==> Blank(s)
  {
    TrimStartEmptyIff(s);
    var t := TrimStart(s);
    TrimEndEmptyIff(t);
  }

  // ---------------------------------------------------------------------------
  // toLowerCase / toUpperCase (ASCII letters)

  function LowerChar(c: char): char {
    if 'A' <= c <= 'Z' then (c as int + 32) as char else c
  }

  function UpperChar(c: char): char {
    if 'a' <= c <= 'z' then (c as int - 32) as char else c
  }

  /** `s.toLowerCase()`, restricted to ASCII letters. */
  function Lower(s: string): (r: string)
    ensures |r| == |s|
    ensures forall i :: 0 <= i < |s| ==> r[i] == LowerChar(s[i])
  {
    if s == [] then [] else [LowerChar(s[0])] + Lower(s[1..])
  }

  /** `s.toUpperCase()`, restricted to ASCII letters. */
  function Upper(s: string): (r: string)
    ensures |r| == |s|
    ensures forall i :: 0 <= i < |s| ==> r[i] == UpperChar(s[i])
  {
    if s == [] then [] else [UpperChar(s[0])] + Upper(s[1..])
  }

  /** Lower-casing twice is lower-casing once. */
  lemma LowerIdempotent(s: string)
    ensures Lower(Lower(s)) == Lower(s)
  {
    assert forall i :: 0 <= i < |s| ==> LowerChar(LowerChar(s[i])) == LowerChar(s[i]);
  }

  /** Lower-casing forgets case: strings that differ only in the case of
      their letters lower-case to the same string. */
  lemma LowerOfUpper(s: string)
    ensures Lower(Upper(s)) == Lower(s)
  {
    assert forall i :: 0 <= i < |s| ==> LowerChar(UpperChar(s[i])) == LowerChar(s[i]);
  }

  // ---------------------------------------------------------------------------
  // includes / startsWith

  /** `s.includes(sub)`. */
  predicate Contains(s: string, sub: string) {
    exists i :: 0 <= i <= |s| - |sub| && OccursAt(s, sub, i)
  }

  /** `sub` occurs in `s` starting at index `i`. */
  predicate OccursAt(s: string, sub: string, i: int) {
    0 <= i <= |s| - |sub| && s[i..i + |sub|] == sub
  }

  /** `s.startsWith(p)`. */
  predicate StartsWith(s: string, p: string) {
    |p| <= |s| && s[..|p|] == p
  }

  lemma StartsWithAppend(p: string, q: string, rest: string)
    requires StartsWith(q, p)
    ensures StartsWith(q + rest, p)
  {
    assert (q + rest)[..|p|] == q[..|p|];
  }
}
