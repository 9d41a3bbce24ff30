/**
 * The few JavaScript string operations the application relies on:
 * `includes`, `replace` with a string pattern, the first element of `split`,
 * `trim`, and the decimal rendering of integers by template literals.
 */
module Text {
  import opened Wrappers

  /** An 8-bit code unit. */
  type Byte = x: int | 0 <= x < 256

  /** JavaScript truthiness of an optional string: present and non-empty. */
  predicate Truthy(o: Option<string>)
  {
    o.Some? && o.value != ""
  }

  /** `x || null` for an optional string: the empty string becomes `null`. */
  function OrNull(o: Option<string>): (r: Option<string>)
    ensures r.Some? <==> Truthy(o)
    ensures r.Some? ==> r == o
  {
    if Truthy(o) then o else None
  }

  /** `s` starts with `p`. */
  predicate StartsWith(s: string, p: string)
  {
    |p| <= |s| && s[..|p|] == p
  }

  /** `s.includes(p)`: some position of `s` starts an occurrence of `p`. */
  predicate Contains(s: string, p: string)
  {
    exists j :: 0 <= j <= |s| && StartsWith(s[j..], p)
  }

  /** A string framed as `a + p + b` contains `p`. */
  lemma ContainsInfix(a: string, p: string, b: string)
    ensures Contains(a + p + b, p)
  {
    var s := a + p + b;
    assert s[|a|..][..|p|] == p;
    assert StartsWith(s[|a|..], p);
  }

  /** Every character of a contained pattern occurs in the string, so a
      pattern with a character the string lacks is not contained. */
  lemma ContainedCharsOccur(s: string, p: string, k: nat)
    requires k < |p|
    requires Contains(s, p)
    ensures p[k] in s
  {
    var j :| 0 <= j <= |s| && StartsWith(s[j..], p);
    assert s[j + k] == s[j..][..|p|][k];
  }

  /** A pattern with a character the string lacks is not contained in it. */
  lemma NotContainedForLackOf(s: string, p: string, k: nat)
    requires k < |p| && p[k] !in s
    ensures !Contains(s, p)
  {
    if Contains(s, p) { ContainedCharsOccur(s, p, k); }
  }

  /** Position of the first occurrence of a non-empty `p` in `s`, or `|s|`
      when there is none (JavaScript's `indexOf`, with "not found" as `|s|`). */
  function FirstIndex(s: string, p: string): (i: nat)
    requires |p| > 0
    ensures i <= |s|
    ensures i < |s| <==> Contains(s, p)
    ensures i < |s| ==> StartsWith(s[i..], p)
    ensures forall j :: 0 <= j < i ==> !StartsWith(s[j..], p)
    decreases |s|
  {
    if StartsWith(s, p) then
      assert s[0..] == s;
      0
    else if |s| == 0 then
      assert forall j :: 0 <= j <= |s| ==> s[j..] == s;
      0
    else
      var i := 1 + FirstIndex(s[1..], p);
      assert forall j :: 1 <= j <= |s| ==> s[j..] == s[1..][j - 1..];
      i
  }

  /** The first occurrence is the one with no occurrence before it. */
  lemma FirstIndexIs(s: string, p: string, k: nat)
    requires |p| > 0 && k < |s| && StartsWith(s[k..], p)
    requires forall j :: 0 <= j < k ==> !StartsWith(s[j..], p)
    ensures FirstIndex(s, p) == k
  {
  }

  /** `s.replace(p, "")` for a string pattern: only the first occurrence is removed. */
  function RemoveFirst(s: string, p: string): (r: string)
    requires |p| > 0
    ensures Contains(s, p) ==> r == s[..FirstIndex(s, p)] + s[FirstIndex(s, p) + |p|..]
    ensures !Contains(s, p) ==> r == s
  {
    var i := FirstIndex(s, p);
    if i < |s| then s[..i] + s[i + |p|..] else s
  }

  /** Removing a leading `p` strips exactly that prefix. */
  lemma RemoveFirstOfPrefixed(p: string, x: string)
    requires |p| > 0
    ensures RemoveFirst(p + x, p) == x
  {
    assert StartsWith(p + x, p);
    assert FirstIndex(p + x, p) == 0;
    assert (p + x)[|p|..] == x;
  }

  /** `s.split(sep)[0]` for a non-empty separator: the text before the first
      occurrence of `sep`, or all of `s`. */
  function SplitHead(s: string, sep: string): (r: string)
    requires |sep| > 0
    ensures r == s[..FirstIndex(s, sep)]
    ensures r == s <==> !Contains(s, sep)
  {
    s[..FirstIndex(s, sep)]
  }

  /** The characters `String.prototype.trim` removes: ECMAScript WhiteSpace
      and LineTerminator code points. */
  predicate IsTrimmable(c: char)
  {
    c == '\t' || c == '\n' || c == '\U{B}' || c == '\U{C}' || c == '\r' || c == ' '
    || c == '\U{A0}' || c == '\U{1680}' || ('\U{2000}' <= c <= '\U{200A}')
    || c == '\U{2028}' || c == '\U{2029}' || c == '\U{202F}' || c == '\U{205F}'
    || c == '\U{3000}' || c == '\U{FEFF}'
  }

  predicate AllTrimmable(s: string)
  {
    forall i :: 0 <= i < |s| ==> IsTrimmable(s[i])
  }

  function TrimStart(s: string): (r: string)
    ensures |r| <= |s| && r == s[|s| - |r|..]
    ensures AllTrimmable(s[..|s| - |r|])
    ensures r != [] ==> !IsTrimmable(r[0])
    decreases |s|
  {
    if |s| > 0 && IsTrimmable(s[0]) then
      var r := TrimStart(s[1..]);
      assert s[..|s| - |r|] == [s[0]] + s[1..][..|s| - 1 - |r|];
      r
    else
      s
  }

  function TrimEnd(s: string): (r: string)
    ensures |r| <= |s| && r == s[..|r|]
    ensures AllTrimmable(s[|r|..])
    ensures r != [] ==> !IsTrimmable(r[|r| - 1])
    decreases |s|
  {
    if |s| > 0 && IsTrimmable(s[|s| - 1]) then
      var r := TrimEnd(s[..|s| - 1]);
      assert s[|r|..] == s[..|s| - 1][|r|..] + [s[|s| - 1]];
      r
    else
      s
  }

  /** Cutting a trimmable prefix and then a trimmable suffix leaves an infix
      framed by trimmable text. */
  lemma TrimmedInfix(s: string, t: string, r: string)
    requires |t| <= |s| && t == s[|s| - |t|..] && AllTrimmable(s[..|s| - |t|])
    requires |r| <= |t| && r == t[..|r|] && AllTrimmable(t[|r|..])
    ensures exists i, j :: 0 <= i <= j <= |s| && r == s[i..j]
                         && AllTrimmable(s[..i]) && AllTrimmable(s[j..])
  {
    var i := |s| - |t|;
    var j := i + |r|;
    assert s[j..] == t[|r|..];
    assert r == s[i..j];
  }

  /** `s.trim()`: the longest infix of `s` that neither starts nor ends with a
      trimmable character, once the trimmable ends are cut off. */
  function Trim(s: string): (r: string)
    ensures exists i, j :: 0 <= i <= j <= |s| && r == s[i..j]
                         && AllTrimmable(s[..i]) && AllTrimmable(s[j..])
    ensures r != [] ==> !IsTrimmable(r[0]) && !IsTrimmable(r[|r| - 1])
  {
    var t := TrimStart(s);
    var r := TrimEnd(t);
    TrimmedInfix(s, t, r);
    r
  }

  /** A string trims to nothing exactly when all of it is trimmable. */
  lemma TrimEmptyIff(s: string)
    ensures Trim(s) == [] <==> AllTrimmable(s)
  {
    var r := Trim(s);
    var i, j :| 0 <= i <= j <= |s| && r == s[i..j]
                && AllTrimmable(s[..i]) && AllTrimmable(s[j..]);
    if r == [] {
      assert i == j;
      forall k | 0 <= k < |s| ensures IsTrimmable(s[k]) {
        if k < i { assert s[k] == s[..i][k]; } else { assert s[k] == s[j..][k - j]; }
      }
    } else {
      assert s[i] == r[0];
    }
  }

  /** Trimming twice is trimming once. */
  lemma TrimIdempotent(s: string)
    ensures Trim(Trim(s)) == Trim(s)
  {
    var r := Trim(s);
    assert r != [] ==> TrimStart(r) == r;
    assert TrimEnd(TrimStart(r)) == TrimEnd(r);
  }

  predicate IsDigit(c: char)
  {
    '0' <= c <= '9'
  }

  /** Decimal rendering of a non-negative integer, as `${n}` gives it. */
  function NatToString(n: nat): (r: string)
    ensures |r| > 0
    ensures forall i :: 0 <= i < |r| ==> IsDigit(r[i])
    ensures |r| > 1 ==> r[0] != '0'
    decreases n
  {
    var d := ['0' + (n % 10) as char];
    if n < 10 then d else NatToString(n / 10) + d
  }

  /** Value of a string of decimal digits. */
  function DecimalValue(s: string): nat
    requires forall i :: 0 <= i < |s| ==> IsDigit(s[i])
  {
    if s == [] then 0
    else
      assert IsDigit(s[|s| - 1]);
      10 * DecimalValue(s[..|s| - 1]) + (s[|s| - 1] as int - '0' as int)
  }

  /** Rendering is undone by reading the digits back. */
  lemma {:induction false} DecimalRoundTrip(n: nat)
    ensures DecimalValue(NatToString(n)) == n
    decreases n
  {
    var r := NatToString(n);
    if n >= 10 {
      DecimalRoundTrip(n / 10);
      assert r[..|r| - 1] == NatToString(n / 10);
    }
  }

  /** Decimal rendering of any integer, with a leading `-` when negative. */
  function IntToString(n: int): (r: string)
    ensures |r| > 0
    ensures forall i :: 0 <= i < |r| ==> IsDigit(r[i]) || r[i] == '-'
  {
    if n < 0 then "-" + NatToString(-n) else NatToString(n)
  }
}
