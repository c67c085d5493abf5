/**
 * The JavaScript string operations the pages rely on: the `||` fallback
 * between strings (an empty string is falsy), `String.prototype.trim` and
 * `String.prototype.includes`.
 */
module JsStrings {

  /** `a || b` on strings: the empty string is the only falsy string. */
  function Or(a: string, b: string): (r: string)
    ensures a != "" ==> r == a
    ensures a == "" ==> r == b
  {
    if a != "" then a else b
  }

  /** A chain `c0 || c1 || ... || d`: the first non-empty candidate, else `d`. */
  function FirstTruthy(candidates: seq<string>, d: string): (r: string)
    ensures (forall i | 0 <= i < |candidates| :: candidates[i] == "") ==> r == d
    ensures (exists i | 0 <= i < |candidates| :: candidates[i] != "") ==>
      exists i | 0 <= i < |candidates| ::
        r == candidates[i] && r != "" && forall j | 0 <= j < i :: candidates[j] == ""
    ensures d != "" ==> r != ""
    decreases |candidates|
  {
    if candidates == [] then d
    else
      var rest := FirstTruthy(candidates[1..], d);
      if candidates[0] != "" then candidates[0]
      else
        assert forall j | 1 <= j < |candidates| :: candidates[j] == candidates[1..][j - 1];
        rest
  }

  /** A four-candidate chain unfolds to nested `||`. */
  lemma FirstTruthyOfFour(a: string, b: string, c: string, e: string, d: string)
    ensures FirstTruthy([a, b, c, e], d) == Or(a, Or(b, Or(c, Or(e, d))))
  {
    assert [e][1..] == [];
    assert FirstTruthy([e], d) == Or(e, d);
    assert [c, e][1..] == [e];
    assert FirstTruthy([c, e], d) == Or(c, Or(e, d));
    assert [b, c, e][1..] == [c, e];
    assert FirstTruthy([b, c, e], d) == Or(b, Or(c, Or(e, d)));
    assert [a, b, c, e][1..] == [b, c, e];
  }

  /**
   * The characters `trim` removes: the ECMAScript WhiteSpace and
   * LineTerminator productions (TAB, VT, FF, SP, NBSP, ZWNBSP, the Unicode
   * category Zs, LF, CR, LS and PS).
   */
  predicate IsWhitespace(c: char)
  {
    || c == '\t' || c == '\n' || c == '\U{000B}' || c == '\U{000C}' || c == '\r'
    || c == ' ' || c == '\U{00A0}' || c == '\U{1680}'
    || ('\U{2000}' <= c <= '\U{200A}')
    || c == '\U{2028}' || c == '\U{2029}' || c == '\U{202F}' || c == '\U{205F}'
    || c == '\U{3000}' || c == '\U{FEFF}'
  }

  /** Every character of `s` is whitespace (true of the empty string). */
  predicate IsBlank(s: string)
  {
    forall i | 0 <= i < |s| :: IsWhitespace(s[i])
  }

  /** Drops the leading whitespace: the result is a suffix of `s`. */
  function TrimStart(s: string): (r: string)
    ensures |r| <= |s| && r == s[|s| - |r|..]
    ensures IsBlank(s[..|s| - |r|])
    ensures r == "" || !IsWhitespace(r[0])
    decreases |s|
  {
    if s != [] && IsWhitespace(s[0]) then
      var r := TrimStart(s[1..]);
      assert s[..|s| - |r|] == [s[0]] + s[1..][..|s[1..]| - |r|];
      r
    else s
  }

  /** Drops the trailing whitespace: the result is a prefix of `s`. */
  function TrimEnd(s: string): (r: string)
    ensures |r| <= |s| && r == s[..|r|]
    ensures IsBlank(s[|r|..])
    ensures r == "" || !IsWhitespace(r[|r| - 1])
    decreases |s|
  {
    if s != [] && IsWhitespace(s[|s| - 1]) then
      var r := TrimEnd(s[..|s| - 1]);
      assert s[|r|..] == s[..|s| - 1][|r|..] + [s[|s| - 1]];
      r
    else s
  }

  /** `s.trim()`. */
  function Trim(s: string): (r: string)
    ensures |r| <= |s|
  {
    TrimEnd(TrimStart(s))
  }

  /** `Trim(s)` is the slice of `s` between its leading and its trailing whitespace. */
  lemma TrimIsInnerSlice(s: string)
    ensures exists i, j | 0 <= i <= j <= |s| ::
      && Trim(s) == s[i..j] && IsBlank(s[..i]) && IsBlank(s[j..])
  {
    var t := TrimStart(s);
    var i := |s| - |t|;
    var r := TrimEnd(t);
    var j := i + |r|;
    assert r == s[i..j] by {
      assert t == s[i..] && r == t[..|r|];
    }
    assert IsBlank(s[j..]) by {
      assert s[j..] == t[|r|..];
    }
  }

  /** A trimmed string neither starts nor ends with whitespace. */
  lemma TrimHasNoOuterWhitespace(s: string)
    ensures Trim(s) == "" || (!IsWhitespace(Trim(s)[0]) && !IsWhitespace(Trim(s)[|Trim(s)| - 1]))
  {
    var t := TrimStart(s);
    var r := TrimEnd(t);
    if r != "" {
      assert r[0] == t[0];
    }
  }

  /** The trimmed string is empty exactly when the input is blank. */
  lemma TrimEmptyIffBlank(s: string)
    ensures Trim(s) == "" <==> IsBlank(s)
  {
    var t := TrimStart(s);
    if Trim(s) == "" {
      assert IsBlank(t) by { assert t[0..] == t; }
      assert s == s[..|s| - |t|] + t;
    } else {
      var r := TrimEnd(t);
      assert !IsWhitespace(r[0]);
      assert r[0] == t[0] == s[|s| - |t|];
    }
  }

  /** `sub` occurs in `s` at offset `i`. */
  predicate OccursAt(s: string, sub: string, i: int)
  {
    0 <= i && i + |sub| <= |s| && s[i..i + |sub|] == sub
  }

  /** `s.includes(sub)`. */
  predicate Contains(s: string, sub: string)
    ensures Contains(s, sub) ==> |sub| <= |s|
  {
    exists i | 0 <= i <= |s| - |sub| :: OccursAt(s, sub, i)
  }

  /** Containment is transitive: an occurrence of an occurrence is an occurrence. */
  lemma ContainsTransitive(s: string, t: string, u: string)
    requires Contains(s, t) && Contains(t, u)
    ensures Contains(s, u)
  {
    var i :| 0 <= i <= |s| - |t| && OccursAt(s, t, i);
    var k :| 0 <= k <= |t| - |u| && OccursAt(t, u, k);
    forall m | 0 <= m < |u|
      ensures s[i + k + m] == u[m]
    {
      assert u[m] == t[k..k + |u|][m] == t[k + m];
      assert t[k + m] == s[i..i + |t|][k + m];
    }
    assert OccursAt(s, u, i + k);
  }
}
