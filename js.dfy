/** JavaScript value semantics the components rely on: `null`, `String.prototype.substring`
    and `String.prototype.trim`. */
module Js {

  /** A value that may be `null` or `undefined`. */
  datatype Option<+T> = None | Some(value: T)

  /** Clamps a `substring` argument into `[0, len]`, as the ECMAScript algorithm does. */
  function Clamp(n: int, len: nat): (r: nat)
    ensures r <= len
    ensures 0 <= n <= len ==> r == n
  {
    if n < 0 then 0 else if n > len then len else n
  }

  /** `s.substring(start, end)`: both arguments are clamped into `[0, |s|]` and swapped
      when the start is the larger one. */
  function Substring(s: string, start: int, end: int): (r: string)
    ensures |r| <= |s|
    ensures start <= 0 <= end ==> r == s[..Clamp(end, |s|)]
    ensures 0 <= start <= |s| <= end ==> r == s[start..]
  {
    var a, b := Clamp(start, |s|), Clamp(end, |s|);
    if a <= b then s[a..b] else s[b..a]
  }

  /** The ECMAScript WhiteSpace and LineTerminator code points, which `trim` removes. */
  predicate IsWhiteSpace(c: char)
  {
    c == '\U{9}' || c == '\U{A}' || c == '\U{B}' || c == '\U{C}' || c == '\U{D}' ||
    c == '\U{20}' || c == '\U{A0}' || c == '\U{1680}' || ('\U{2000}' <= c <= '\U{200A}') ||
    c == '\U{2028}' || c == '\U{2029}' || c == '\U{202F}' || c == '\U{205F}' || c == '\U{3000}' ||
    c == '\U{FEFF}'
  }

  predicate IsBlank(s: string)
  {
    forall i :: 0 <= i < |s| ==> IsWhiteSpace(s[i])
  }

  /** `[c] + t` is blank when `c` is white space and `t` is blank. */
  lemma BlankCons(c: char, t: string)
    requires IsWhiteSpace(c) && IsBlank(t)
    ensures IsBlank([c] + t)
  {
    forall i | 0 <= i < |[c] + t| ensures IsWhiteSpace(([c] + t)[i]) {
      if i > 0 { assert ([c] + t)[i] == t[i - 1]; }
    }
  }

  /** `t + [c]` is blank when `t` is blank and `c` is white space. */
  lemma BlankSnoc(t: string, c: char)
    requires IsBlank(t) && IsWhiteSpace(c)
    ensures IsBlank(t + [c])
  {
    forall i | 0 <= i < |t + [c]| ensures IsWhiteSpace((t + [c])[i]) {
      if i < |t| { assert (t + [c])[i] == t[i]; }
    }
  }

  /** `trimStart`: drops the white space before the first other character. */
  function TrimStart(s: string): (r: string)
    ensures |r| <= |s| && r == s[|s| - |r|..]
    ensures IsBlank(s[..|s| - |r|])
    ensures r != [] ==> !IsWhiteSpace(r[0])
    decreases |s|
  {
    if s != [] && IsWhiteSpace(s[0]) then
      var r := TrimStart(s[1..]);
      var cut := |s| - |r|;
      assert s[..cut] == [s[0]] + s[1..][..cut - 1];
      BlankCons(s[0], s[1..][..cut - 1]);
      r
    else s
  }

  /** `trimEnd`: drops the white space after the last other character. */
  function TrimEnd(s: string): (r: string)
    ensures |r| <= |s| && r == s[..|r|]
    ensures IsBlank(s[|r|..])
    ensures r != [] ==> !IsWhiteSpace(r[|r| - 1])
    decreases |s|
  {
    if s != [] && IsWhiteSpace(s[|s| - 1]) then
      var init := s[..|s| - 1];
      var r := TrimEnd(init);
      assert s[|r|..] == init[|r|..] + [s[|s| - 1]];
      BlankSnoc(init[|r|..], s[|s| - 1]);
      r
    else s
  }

  /** `s.trim()`: the slice of `s` left once the white space at both ends is removed; it
      neither starts nor ends with white space, and everything cut off is white space. */
  function Trim(s: string): (r: string)
    ensures |r| <= |s|
    ensures r != [] ==> !IsWhiteSpace(r[0]) && !IsWhiteSpace(r[|r| - 1])
    ensures exists i, j :: 0 <= i <= j <= |s| && r == s[i..j] && IsBlank(s[..i]) && IsBlank(s[j..])
  {
    var t := TrimStart(s);
    var r := TrimEnd(t);
    SliceOfSuffix(s, t, r);
    r
  }

  /** A prefix `r` of a suffix `t` of `s` is the slice of `s` between the two cuts, and what
      follows `r` in `t` is what follows it in `s`. */
  lemma SliceOfSuffix(s: string, t: string, r: string)
    requires |t| <= |s| && t == s[|s| - |t|..] && |r| <= |t| && r == t[..|r|]
    ensures r == s[|s| - |t|..|s| - |t| + |r|] && s[|s| - |t| + |r|..] == t[|r|..]
  {
  }

  lemma {:induction false} TrimStartKeepsBlankness(s: string)
    ensures IsBlank(TrimStart(s)) <==> IsBlank(s)
  {
    if s != [] && IsWhiteSpace(s[0]) {
      TrimStartKeepsBlankness(s[1..]);
      assert IsBlank(s) <==> IsBlank(s[1..]) by {
        if IsBlank(s[1..]) {
          forall i | 0 <= i < |s| ensures IsWhiteSpace(s[i]) {
            if i > 0 { assert s[i] == s[1..][i - 1]; }
          }
        }
      }
    }
  }

  lemma {:induction false} TrimEndEmptyIffBlank(s: string)
    ensures TrimEnd(s) == [] <==> IsBlank(s)
  {
    if s != [] && IsWhiteSpace(s[|s| - 1]) {
      var init := s[..|s| - 1];
      TrimEndEmptyIffBlank(init);
      assert IsBlank(s) <==> IsBlank(init) by {
        if IsBlank(init) {
          forall i | 0 <= i < |s| ensures IsWhiteSpace(s[i]) {
            if i < |s| - 1 { assert s[i] == init[i]; }
          }
        }
      }
    }
  }

  /** A string is falsy after `trim()` exactly when every character of it is white space. */
  lemma TrimEmptyIffBlank(s: string)
    ensures Trim(s) == [] <==> IsBlank(s)
  {
    TrimEndEmptyIffBlank(TrimStart(s));
    TrimStartKeepsBlankness(s);
  }
}
