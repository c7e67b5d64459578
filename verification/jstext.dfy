/**
 * The JavaScript string built-ins the front-ends rely on:
 * `String.prototype.trim`, `String.prototype.padStart`,
 * `s.replace(/\/$/, '')`, and the first-occurrence search the URL and
 * duration readers split on.
 */
module JsText {

  /**
   * The code points `trim` removes: ECMAScript WhiteSpace (tab, vertical tab,
   * form feed, space, no-break space, zero-width no-break space and the Zs
   * category) and LineTerminator (line feed, carriage return, line and
   * paragraph separators).
   */
  predicate IsJsWhitespace(c: char) {
    || c == '\t' || c == '\n' || c == '\U{B}' || c == '\U{C}' || c == '\r'
    || c == ' ' || c == '\U{A0}' || c == '\U{1680}'
    || ('\U{2000}' <= c <= '\U{200A}')
    || c == '\U{2028}' || c == '\U{2029}' || c == '\U{202F}' || c == '\U{205F}'
    || c == '\U{3000}' || c == '\U{FEFF}'
  }

  /** Neither the first nor the last character is whitespace. */
  predicate NoEdgeWhitespace(s: string) {
    |s| > 0 ==> !IsJsWhitespace(s[0]) && !IsJsWhitespace(s[|s| - 1])
  }

  predicate AllWhitespace(s: string) {
    forall i :: 0 <= i < |s| ==> IsJsWhitespace(s[i])
  }

  /** Drops the leading whitespace: what remains is a suffix starting with a non-space. */
  function TrimStart(s: string): (r: string)
    ensures |r| <= |s| && r == s[|s| - |r|..]
    ensures AllWhitespace(s[..|s| - |r|])
    ensures |r| > 0 ==> !IsJsWhitespace(r[0])
    decreases |s|
  {
    if |s| > 0 && IsJsWhitespace(s[0]) then TrimStart(s[1..]) else s
  }

  /** Drops the trailing whitespace: what remains is a prefix ending in a non-space. */
  function TrimEnd(s: string): (r: string)
    ensures |r| <= |s| && r == s[..|r|]
    ensures AllWhitespace(s[|r|..])
    ensures |r| > 0 ==> !IsJsWhitespace(r[|r| - 1])
    decreases |s|
  {
    if |s| > 0 && IsJsWhitespace(s[|s| - 1]) then TrimEnd(s[..|s| - 1]) else s
  }

  /** Trimming the end of a string that starts with a non-space leaves no whitespace at either edge. */
  lemma TrimEndKeepsFirst(t: string)
    requires |t| > 0 ==> !IsJsWhitespace(t[0])
    ensures NoEdgeWhitespace(TrimEnd(t))
  {
  }

  /** The number of whitespace characters `trim` removes from the front. */
  function LeadingWhitespace(s: string): (k: nat)
    ensures k <= |s|
  {
    |s| - |TrimStart(s)|
  }

  /**
   * `s.trim()`: a contiguous piece of `s` with no whitespace at either edge,
   * everything cut away on both sides being whitespace.
   */
  function Trim(s: string): (r: string)
    ensures NoEdgeWhitespace(r)
    ensures LeadingWhitespace(s) + |r| <= |s|
    ensures r == s[LeadingWhitespace(s)..LeadingWhitespace(s) + |r|]
    ensures AllWhitespace(s[..LeadingWhitespace(s)])
    ensures AllWhitespace(s[LeadingWhitespace(s) + |r|..])
  {
    var t := TrimStart(s);
    var r := TrimEnd(t);
    var k := |s| - |t|;
    TrimEndKeepsFirst(t);
    assert s[k..k + |r|] == t[..|r|];
    assert s[k + |r|..] == t[|r|..];
    r
  }

  /** A string trims to nothing exactly when it is all whitespace. */
  lemma TrimEmptyIff(s: string)
    ensures Trim(s) == "" <==> AllWhitespace(s)
  {
  }

  /** Trimming twice is the same as trimming once. */
  lemma TrimIdempotent(s: string)
    ensures Trim(Trim(s)) == Trim(s)
  {
  }

  /** Whitespace put in front of a string is trimmed away. */
  lemma TrimPrependWhitespace(s: string, c: char)
    requires IsJsWhitespace(c)
    ensures Trim([c] + s) == Trim(s)
  {
  }

  /** Whitespace put after a string is trimmed away. */
  lemma {:induction false} TrimAppendWhitespace(s: string, c: char)
    requires IsJsWhitespace(c)
    ensures Trim(s + [c]) == Trim(s)
    decreases |s|
  {
    var x := s + [c];
    assert x[..|x| - 1] == s;
    if |s| > 0 && IsJsWhitespace(s[0]) {
      assert x[1..] == s[1..] + [c];
      TrimAppendWhitespace(s[1..], c);
      assert TrimStart(x) == TrimStart(s[1..] + [c]);
      assert TrimStart(s) == TrimStart(s[1..]);
      assert Trim(x) == TrimEnd(TrimStart(s[1..] + [c]));
    } else if |s| == 0 {
      assert x == [c] && x[1..] == [];
    } else {
      assert x[0] == s[0];
      assert TrimStart(x) == x;
      assert TrimStart(s) == s;
    }
  }

  /** Any run of whitespace put in front of a string is trimmed away. */
  lemma {:induction false} TrimPrependAll(a: string, s: string)
    requires AllWhitespace(a)
    ensures Trim(a + s) == Trim(s)
    decreases |a|
  {
    if |a| > 0 {
      var tail := a[1..];
      assert IsJsWhitespace(a[0]) && AllWhitespace(tail);
      assert a + s == [a[0]] + (tail + s);
      TrimPrependWhitespace(tail + s, a[0]);
      TrimPrependAll(tail, s);
    } else {
      assert a + s == s;
    }
  }

  /** Any run of whitespace put after a string is trimmed away. */
  lemma {:induction false} TrimAppendAll(s: string, b: string)
    requires AllWhitespace(b)
    ensures Trim(s + b) == Trim(s)
    decreases |b|
  {
    if |b| == 0 {
      assert s + b == s;
    } else {
      var init := b[..|b| - 1];
      assert s + b == (s + init) + [b[|b| - 1]];
      TrimAppendWhitespace(s + init, b[|b| - 1]);
      TrimAppendAll(s, init);
    }
  }

  function Repeat(c: char, k: nat): (r: string)
    ensures |r| == k && forall i :: 0 <= i < k ==> r[i] == c
  {
    if k == 0 then "" else [c] + Repeat(c, k - 1)
  }

  /** `s.padStart(width, fill)` with a one-character fill. */
  function PadStart(s: string, width: nat, fill: char): (r: string)
    ensures |r| == if |s| >= width then |s| else width
    ensures r[|r| - |s|..] == s
    ensures forall i :: 0 <= i < |r| - |s| ==> r[i] == fill
  {
    if |s| >= width then s else Repeat(fill, width - |s|) + s
  }

  predicate EndsWithSlash(s: string) {
    |s| > 0 && s[|s| - 1] == '/'
  }

  /**
   * `s.replace(/\/$/, '')`: the pattern has no `g` flag and `$` anchors at the
   * end of input, so at most one slash, the last character, is removed.
   */
  function StripTrailingSlash(s: string): (r: string)
    ensures r == s || r + "/" == s
    ensures r + "/" == s <==> EndsWithSlash(s)
    ensures |s| >= 2 && s[|s| - 2] == '/' && s[|s| - 1] == '/' ==> EndsWithSlash(r)
  {
    if EndsWithSlash(s) then s[..|s| - 1] else s
  }

  /** Position of the first `c` in `s`, or `|s|` when there is none. */
  function IndexOf(s: string, c: char): (k: nat)
    ensures k <= |s|
    ensures k < |s| ==> s[k] == c
    ensures forall i :: 0 <= i < k ==> s[i] != c
    decreases |s|
  {
    if |s| == 0 then 0 else if s[0] == c then 0 else 1 + IndexOf(s[1..], c)
  }
}
