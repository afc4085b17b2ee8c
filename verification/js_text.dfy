/**
 * The few pieces of JavaScript value semantics the application relies on:
 * numbers and their truthiness, optional strings, `String.prototype.trim`,
 * `Array.prototype.join` and ASCII `toUpperCase`.
 */
module JsText {
  import opened Wrappers

  /** A JavaScript number: a finite value or NaN (infinities are not modelled). */
  datatype JsNum = Finite(value: real) | NaN

  /** `!!n` for a number: 0 and NaN are falsy. */
  predicate NumTruthy(n: JsNum) {
    n.Finite? && n.value != 0.0
  }

  /** `!!s` for an optional string: undefined and "" are falsy. */
  predicate OptTruthy(s: Option<string>) {
    s.Some? && s.value != ""
  }

  /** `s || fallback` for an optional string. */
  function OrElse(s: Option<string>, fallback: string): string {
    if OptTruthy(s) then s.value else fallback
  }

  /** With a non-empty fallback, `s || fallback` is never the empty string. */
  lemma OrElseNonEmpty(s: Option<string>, fallback: string)
    requires fallback != ""
    ensures OrElse(s, fallback) != ""
  {
  }

  /** The characters `trim` removes: WhiteSpace and LineTerminator of ECMA-262. */
  const JsSpaces: set<char> := {
    '\t', '\n', '\U{000B}', '\U{000C}', '\r', ' ', '\U{00A0}', '\U{1680}',
    '\U{2000}', '\U{2001}', '\U{2002}', '\U{2003}', '\U{2004}', '\U{2005}',
    '\U{2006}', '\U{2007}', '\U{2008}', '\U{2009}', '\U{200A}',
    '\U{2028}', '\U{2029}', '\U{202F}', '\U{205F}', '\U{3000}', '\U{FEFF}'
  }

  predicate IsJsSpace(c: char) {
    c in JsSpaces
  }

  function TrimStart(s: string): (r: string)
    ensures |r| <= |s| && r == s[|s| - |r|..]
    ensures r == [] || !IsJsSpace(r[0])
    ensures forall k :: 0 <= k < |s| - |r| ==> IsJsSpace(s[k])
  {
    if s != [] && IsJsSpace(s[0]) then TrimStart(s[1..]) else s
  }

  function TrimEnd(s: string): (r: string)
    ensures |r| <= |s| && r == s[..|r|]
    ensures r == [] || !IsJsSpace(r[|r| - 1])
    ensures forall k :: |r| <= k < |s| ==> IsJsSpace(s[k])
  {
    if s != [] && IsJsSpace(s[|s| - 1]) then TrimEnd(s[..|s| - 1]) else s
  }

  /** `s.trim()`: no longer than its input, and white space at neither end. */
  function Trim(s: string): (r: string)
    ensures |r| <= |s|
    ensures r == [] || (!IsJsSpace(r[0]) && !IsJsSpace(r[|r| - 1]))
  {
    var t := TrimStart(s);
    var u := TrimEnd(t);
    assert u == [] || u[0] == t[0];
    u
  }

  /**
   * `trim` keeps a contiguous slice `s[a..b]` of its input that neither starts
   * nor ends with white space, and everything it drops is white space.
   */
  lemma TrimIsSlice(s: string) returns (a: nat, b: nat)
    ensures a <= b <= |s| && Trim(s) == s[a..b]
    ensures Trim(s) == [] || (!IsJsSpace(Trim(s)[0]) && !IsJsSpace(Trim(s)[|Trim(s)| - 1]))
    ensures forall k :: 0 <= k < a ==> IsJsSpace(s[k])
    ensures forall k :: b <= k < |s| ==> IsJsSpace(s[k])
  {
    var t := TrimStart(s);
    var u := TrimEnd(t);
    a := |s| - |t|;
    b := a + |u|;
    SliceOfSuffix(s, a, |u|);
    forall k | b <= k < |s| ensures IsJsSpace(s[k]) {
      assert s[k] == t[k - a];
    }
    if u != [] {
      assert u[0] == t[0];
    }
  }

  /** A prefix of a suffix is a slice. */
  lemma SliceOfSuffix<T>(s: seq<T>, a: nat, n: nat)
    requires a + n <= |s|
    ensures s[a..][..n] == s[a..a + n]
  {
  }

  /** A string with no white space at either end is left alone by `trim`. */
  lemma TrimTrimmed(s: string)
    requires s == [] || (!IsJsSpace(s[0]) && !IsJsSpace(s[|s| - 1]))
    ensures Trim(s) == s
  {
  }

  /** `trim` is idempotent. */
  lemma TrimIdempotent(s: string)
    ensures Trim(Trim(s)) == Trim(s)
  {
    var _, _ := TrimIsSlice(s);
    TrimTrimmed(Trim(s));
  }

  /** Concatenation is associative; string building leans on this step by step. */
  lemma AppendAssoc<T>(a: seq<T>, b: seq<T>, c: seq<T>)
    ensures (a + b) + c == a + (b + c)
  {
  }

  /** `parts.join(sep)`. */
  function Join(parts: seq<string>, sep: string): (r: string)
    ensures parts == [] ==> r == ""
    ensures |parts| == 1 ==> r == parts[0]
  {
    if |parts| == 0 then ""
    else if |parts| == 1 then parts[0]
    else parts[0] + sep + Join(parts[1..], sep)
  }

  /** `toUpperCase` on ASCII letters; every other character is left unchanged. */
  function AsciiUpper(s: string): (r: string)
    ensures |r| == |s|
  {
    seq(|s|, k requires 0 <= k < |s| => if 'a' <= s[k] <= 'z' then (s[k] as int - 32) as char else s[k])
  }

  /** No lower-case ASCII letter is present. */
  predicate NoAsciiLower(s: string) {
    forall k :: 0 <= k < |s| ==> !('a' <= s[k] <= 'z')
  }

  /** Upper-casing leaves no lower-case ASCII letter behind. */
  lemma AsciiUpperNoLower(s: string)
    ensures NoAsciiLower(AsciiUpper(s))
  {
  }

  /** A text without lower-case ASCII letters is its own upper case. */
  lemma AsciiUpperFixes(s: string)
    requires NoAsciiLower(s)
    ensures AsciiUpper(s) == s
  {
  }

  /** Upper-casing twice is upper-casing once. */
  lemma AsciiUpperIdempotent(s: string)
    ensures AsciiUpper(AsciiUpper(s)) == AsciiUpper(s)
  {
    AsciiUpperNoLower(s);
    AsciiUpperFixes(AsciiUpper(s));
  }
}
