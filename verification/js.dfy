/** The few pieces of JavaScript value semantics that the console's logic leans on:
    absent values (`null`/`undefined`), truthiness, string interpolation of a possibly
    absent string, and `String.prototype.trim`. */
module Js {

  /** A value that may be `null`/`undefined` (None) or present (Some). */
  datatype Option<+T> = None | Some(value: T) {

    /** The nullish-coalescing operator `this ?? default`. */
    function GetOr(default: T): (r: T)
      ensures Some? ==> r == value
      ensures None? ==> r == default
    {
      match this
      case Some(v) => v
      case None => default
    }
  }

  /** Truthiness of a possibly absent string: null, undefined and "" are falsy. */
  predicate Truthy(s: Option<string>) {
    s.Some? && s.value != ""
  }

  /** Truthiness of a possibly absent number: null, undefined and 0 are falsy
      (NaN is represented as an absent number). */
  predicate TruthyNumber(n: Option<int>) {
    n.Some? && n.value != 0
  }

  /** `${s}` for a possibly undefined string. */
  function Interpolate(s: Option<string>): (r: string)
    ensures s.Some? ==> r == s.value
    ensures s.None? ==> r == "undefined"
  {
    if s.Some? then s.value else "undefined"
  }

  /** The characters `String.prototype.trim` removes (white space and line terminators). */
  const WhiteSpace: set<char> := {
    ' ', '\t', '\n', '\r', '\U{B}', '\U{C}', '\U{A0}', '\U{1680}',
    '\U{2000}', '\U{2001}', '\U{2002}', '\U{2003}', '\U{2004}', '\U{2005}',
    '\U{2006}', '\U{2007}', '\U{2008}', '\U{2009}', '\U{200A}',
    '\U{2028}', '\U{2029}', '\U{202F}', '\U{205F}', '\U{3000}', '\U{FEFF}'
  }

  predicate IsSpace(c: char) {
    c in WhiteSpace
  }

  predicate AllSpace(s: string) {
    forall i :: 0 <= i < |s| ==> IsSpace(s[i])
  }

  lemma AllSpaceConcat(a: string, b: string)
    ensures AllSpace(a + b) <==> AllSpace(a) && AllSpace(b)
  {
    if AllSpace(a) && AllSpace(b) {
      forall i | 0 <= i < |a + b| ensures IsSpace((a + b)[i]) {
        if i < |a| {
          assert (a + b)[i] == a[i];
        } else {
          assert (a + b)[i] == b[i - |a|];
        }
      }
    }
    if AllSpace(a + b) {
      forall i | 0 <= i < |a| ensures IsSpace(a[i]) {
        assert (a + b)[i] == a[i];
      }
      forall i | 0 <= i < |b| ensures IsSpace(b[i]) {
        assert (a + b)[i + |a|] == b[i];
      }
    }
  }

  /** Drops the leading white space: the result is a suffix of `s`, everything dropped
      is white space, and the result does not start with white space. */
  function TrimStart(s: string): (r: string)
    ensures |r| <= |s| && r == s[|s| - |r|..]
    ensures AllSpace(s[..|s| - |r|])
    ensures r != [] ==> !IsSpace(r[0])
  {
    if s != [] && IsSpace(s[0]) then
      var t := TrimStart(s[1..]);
      assert s[..|s| - |t|] == [s[0]] + s[1..][..|s| - 1 - |t|];
      AllSpaceConcat([s[0]], s[1..][..|s| - 1 - |t|]);
      t
    else
      s
  }

  /** Drops the trailing white space: the result is a prefix of `s`, everything dropped
      is white space, and the result does not end with white space. */
  function TrimEnd(s: string): (r: string)
    ensures |r| <= |s| && r == s[..|r|]
    ensures AllSpace(s[|r|..])
    ensures r != [] ==> !IsSpace(r[|r| - 1])
  {
    if s != [] && IsSpace(s[|s| - 1]) then
      var t := TrimEnd(s[..|s| - 1]);
      assert s[|t|..] == s[..|s| - 1][|t|..] + [s[|s| - 1]];
      AllSpaceConcat(s[..|s| - 1][|t|..], [s[|s| - 1]]);
      t
    else
      s
  }

  /** `r` neither starts nor ends with white space. */
  predicate EdgesNotSpace(r: string) {
    r == [] || (!IsSpace(r[0]) && !IsSpace(r[|r| - 1]))
  }

  /** `r` is `s` with white space only dropped: `s[..i]` before it and the rest after it. */
  predicate TrimmedAt(s: string, r: string, i: int) {
    && 0 <= i <= |s| - |r| && r == s[i..i + |r|]
    && AllSpace(s[..i]) && AllSpace(s[i + |r|..])
  }

  /** `s.trim()`: the infix of `s` left once its leading and trailing white space is
      removed, so it neither starts nor ends with white space. */
  function Trim(s: string): (r: string)
    ensures exists i :: TrimmedAt(s, r, i)
    ensures EdgesNotSpace(r)
    ensures r == [] <==> AllSpace(s)
  {
    TrimIsInfix(s);
    TrimEdges(s);
    TrimEmptyIffAllSpace(s);
    TrimEnd(TrimStart(s))
  }

  /** Trimming keeps the infix of `s` between its leading and its trailing white space. */
  lemma TrimIsInfix(s: string)
    ensures exists i :: TrimmedAt(s, TrimEnd(TrimStart(s)), i)
  {
    var a := TrimStart(s);
    var t := TrimEnd(a);
    var i := |s| - |a|;
    assert s[i..i + |t|] == t;
    assert s[i + |t|..] == a[|t|..];
    assert TrimmedAt(s, t, i);
  }

  /** What is left after trimming neither starts nor ends with white space. */
  lemma TrimEdges(s: string)
    ensures EdgesNotSpace(TrimEnd(TrimStart(s)))
  {
    var a := TrimStart(s);
    var t := TrimEnd(a);
    assert t != [] ==> t[0] == a[0];
  }

  /** Trimming leaves nothing exactly when the string is all white space. */
  lemma {:induction false} TrimEmptyIffAllSpace(s: string)
    ensures TrimEnd(TrimStart(s)) == [] <==> AllSpace(s)
  {
    var a := TrimStart(s);
    if AllSpace(s) {
      TrimStartAllSpace(s);
      assert TrimEnd(a) == [];
    } else {
      var k := |s| - |a|;
      assert s == s[..k] + a;
      AllSpaceConcat(s[..k], a);
      var b := TrimEnd(a);
      assert a[|b|..] != a;
    }
  }

  /** Text made only of white space trims to nothing from the start. */
  lemma {:induction false} TrimStartAllSpace(s: string)
    requires AllSpace(s)
    ensures TrimStart(s) == []
  {
    if s != [] {
      assert AllSpace(s[1..]) by {
        forall i | 0 <= i < |s| - 1 ensures IsSpace(s[1..][i]) {
          assert s[1..][i] == s[i + 1];
        }
      }
      TrimStartAllSpace(s[1..]);
    }
  }
}
