/**
 * Character-level helpers shared by the Python views and the JavaScript screens:
 * whitespace stripping (`str.strip()`, `String.prototype.trim()`), lower-casing
 * (`str.lower()`, `toLowerCase()`) and substring search (Python's `in` on strings).
 * Both whitespace sets are modelled in full; lower-casing covers ASCII letters only.
 */
module Text {

  /**
   * Python's `str.isspace()`, which `str.strip()` removes: the ASCII controls
   * 9-13 and 28-31, space, U+0085, U+00A0 and the Unicode space and line separators.
   */
  predicate PythonSpace(c: char) {
    ('\t' <= c <= '\r') || ('\U{1C}' <= c <= '\U{1F}') || c == ' ' || c == '\U{85}' || UnicodeSpace(c)
  }

  /**
   * The characters `String.prototype.trim()` removes: the ASCII controls 9-13,
   * space, U+00A0, U+FEFF and the Unicode space and line separators.
   */
  predicate JsSpace(c: char) {
    ('\t' <= c <= '\r') || c == ' ' || c == '\U{FEFF}' || UnicodeSpace(c)
  }

  /** U+00A0, U+1680, U+2000-U+200A, U+2028, U+2029, U+202F, U+205F and U+3000, which both languages treat as whitespace. */
  predicate UnicodeSpace(c: char) {
    c == '\U{A0}' || c == '\U{1680}' || ('\U{2000}' <= c <= '\U{200A}') ||
    c == '\U{2028}' || c == '\U{2029}' || c == '\U{202F}' || c == '\U{205F}' || c == '\U{3000}'
  }

  /** Drops leading characters that satisfy `blank`. */
  function TrimStart(s: string, blank: char -> bool): (r: string)
    ensures |r| <= |s| && r == s[|s| - |r|..]
    ensures r == [] || !blank(r[0])
    ensures forall i {:trigger blank(s[i])} :: 0 <= i < |s| - |r| ==> blank(s[i])
  {
    if s != [] && blank(s[0]) then TrimStart(s[1..], blank) else s
  }

  /** Drops trailing characters that satisfy `blank`. */
  function TrimEnd(s: string, blank: char -> bool): (r: string)
    ensures |r| <= |s| && r == s[..|r|]
    ensures r == [] || !blank(r[|r| - 1])
    ensures forall i {:trigger blank(s[i])} :: |r| <= i < |s| ==> blank(s[i])
  {
    if s != [] && blank(s[|s| - 1]) then TrimEnd(s[..|s| - 1], blank) else s
  }

  predicate AllSpace(s: string, blank: char -> bool) {
    forall i :: 0 <= i < |s| ==> blank(s[i])
  }

  /**
   * Whitespace removed from both ends, as `str.strip()` (with `PythonSpace`)
   * and `trim()` (with `JsSpace`) do.
   */
  function Strip(s: string, blank: char -> bool): (r: string)
    ensures |r| <= |s|
    ensures r == [] || (!blank(r[0]) && !blank(r[|r| - 1]))
  {
    TrimEnd(TrimStart(s, blank), blank)
  }

  /** What TrimStart drops is all whitespace. */
  lemma TrimStartDropsSpace(s: string, blank: char -> bool)
    ensures AllSpace(s[..|s| - |TrimStart(s, blank)|], blank)
  {
    var k := |s| - |TrimStart(s, blank)|;
    forall i | 0 <= i < k
      ensures blank(s[..k][i])
    {
    }
  }

  /** What TrimEnd drops is all whitespace. */
  lemma TrimEndDropsSpace(t: string, blank: char -> bool)
    ensures AllSpace(t[|TrimEnd(t, blank)|..], blank)
  {
    var n := |TrimEnd(t, blank)|;
    forall i | 0 <= i < |t| - n
      ensures blank(t[n..][i])
    {
    }
  }

  /** The stripped string is the piece of the input after the leading whitespace. */
  lemma StripIsSlice(s: string, blank: char -> bool)
    ensures var k := |s| - |TrimStart(s, blank)|;
            k + |Strip(s, blank)| <= |s| && Strip(s, blank) == s[k..k + |Strip(s, blank)|]
  {
    var t := TrimStart(s, blank);
    var k := |s| - |t|;
    var r := TrimEnd(t, blank);
    TakeOfDrop(s, k, |r|);
  }

  /** Taking n after dropping k is the slice from k to k + n. */
  lemma TakeOfDrop(s: string, k: nat, n: nat)
    requires k + n <= |s|
    ensures s[k..][..n] == s[k..k + n]
  {
  }

  /**
   * Strip removes whitespace and nothing else: the result is the piece of the
   * input at offset k, and what lies before and after it is all whitespace.
   */
  lemma StripKeepsMiddle(s: string, blank: char -> bool)
    ensures var k := |s| - |TrimStart(s, blank)|;
            k + |Strip(s, blank)| <= |s| && Strip(s, blank) == s[k..k + |Strip(s, blank)|] &&
            AllSpace(s[..k], blank) && AllSpace(s[k + |Strip(s, blank)|..], blank)
  {
    var t := TrimStart(s, blank);
    var k := |s| - |t|;
    var r := TrimEnd(t, blank);
    StripIsSlice(s, blank);
    TrimStartDropsSpace(s, blank);
    TrimEndDropsSpace(t, blank);
    assert t[|r|..] == s[k + |r|..];
  }

  /** The stripped string is a contiguous piece of the input. */
  lemma StripIsInfix(s: string, blank: char -> bool)
    ensures exists k :: OccursAt(s, Strip(s, blank), k)
  {
    StripKeepsMiddle(s, blank);
    assert OccursAt(s, Strip(s, blank), |s| - |TrimStart(s, blank)|);
  }

  /** A stripped string is empty exactly when the input was all whitespace. */
  lemma StripEmptyIffAllSpace(s: string, blank: char -> bool)
    ensures Strip(s, blank) == [] <==> AllSpace(s, blank)
  {
    var t := TrimStart(s, blank);
    if Strip(s, blank) == [] {
      assert t == [];
    } else {
      StripKeepsMiddle(s, blank);
      var k := |s| - |t|;
      assert Strip(s, blank)[0] == s[k];
    }
  }

  /** Stripping twice is stripping once. */
  lemma StripIdempotent(s: string, blank: char -> bool)
    ensures Strip(Strip(s, blank), blank) == Strip(s, blank)
  {
    var r := Strip(s, blank);
    assert TrimStart(r, blank) == r;
    assert TrimEnd(r, blank) == r;
  }

  /** The two whitespace sets differ: Python strips the file separator U+001C, JavaScript's `trim` keeps it. */
  lemma SpacesDiffer()
    ensures Strip("\U{1C}", PythonSpace) == [] && Strip("\U{1C}", JsSpace) == "\U{1C}"
  {
    assert PythonSpace('\U{1C}') && !JsSpace('\U{1C}');
    assert TrimStart("\U{1C}", PythonSpace) == TrimStart("\U{1C}"[1..], PythonSpace);
  }

  /** ASCII lower-casing of one character. */
  function LowerChar(c: char): (d: char)
    ensures 'A' <= c <= 'Z' ==> 'a' <= d <= 'z' && d as int == c as int + 32
    ensures !('A' <= c <= 'Z') ==> d == c
  {
    if 'A' <= c <= 'Z' then (c as int + 32) as char else c
  }

  /** Lower-cases every character; `str.lower()` / `toLowerCase()`. */
  function Lower(s: string): (r: string)
    ensures |r| == |s|
    ensures forall i :: 0 <= i < |s| ==> r[i] == LowerChar(s[i])
  {
    seq(|s|, i requires 0 <= i < |s| => LowerChar(s[i]))
  }

  /** Lower-casing is idempotent: a lower-cased message is already lower case. */
  lemma LowerIdempotent(s: string)
    ensures Lower(Lower(s)) == Lower(s)
  {
    assert forall i :: 0 <= i < |s| ==> LowerChar(LowerChar(s[i])) == LowerChar(s[i]);
  }

  /** Lower-casing keeps whitespace where it was, so it commutes with stripping. */
  lemma LowerKeepsSpaces(s: string)
    ensures AllSpace(Lower(s), PythonSpace) <==> AllSpace(s, PythonSpace)
  {
  }

  /** `pat` occurs in `s` starting at offset `k`. */
  predicate OccursAt(s: string, pat: string, k: int) {
    0 <= k && k + |pat| <= |s| && s[k..k + |pat|] == pat
  }

  /** `pat in s` for Python strings: `pat` is a prefix of some suffix of `s`. */
  predicate Contains(s: string, pat: string) {
    pat <= s || (s != [] && Contains(s[1..], pat))
  }

  /** A slice of the tail is the slice of the whole shifted by one. */
  lemma TailSlice(s: string, i: int, j: int)
    requires 0 <= i <= j && j + 1 <= |s|
    ensures s[1..][i..j] == s[i + 1..j + 1]
  {
    assert |s[1..][i..j]| == |s[i + 1..j + 1]|;
    forall n | 0 <= n < j - i
      ensures s[1..][i..j][n] == s[i + 1..j + 1][n]
    {
    }
  }

  /** An occurrence found by `Contains`: its offset. */
  lemma {:induction false} OffsetOfContains(s: string, pat: string) returns (k: nat)
    requires Contains(s, pat)
    ensures OccursAt(s, pat, k)
  {
    if pat <= s {
      assert s[0..|pat|] == pat;
      k := 0;
    } else {
      var j := OffsetOfContains(s[1..], pat);
      TailSlice(s, j, j + |pat|);
      k := j + 1;
    }
  }

  /** An occurrence at any offset is found by `Contains`. */
  lemma {:induction false} ContainsOfOffset(s: string, pat: string, k: nat)
    requires OccursAt(s, pat, k)
    ensures Contains(s, pat)
  {
    if k == 0 {
      assert pat == s[..|pat|];
    } else {
      TailSlice(s, k - 1, k - 1 + |pat|);
      ContainsOfOffset(s[1..], pat, k - 1);
    }
  }

  /** `Contains` agrees with the positional reading: `pat` occurs at some offset of `s`. */
  lemma ContainsIffOccurs(s: string, pat: string)
    ensures Contains(s, pat) <==> exists k :: OccursAt(s, pat, k)
  {
    if Contains(s, pat) {
      var k := OffsetOfContains(s, pat);
    }
    if k :| OccursAt(s, pat, k) {
      ContainsOfOffset(s, pat, k);
    }
  }

  /** A pattern is found only in a text at least as long, holding the pattern's first character. */
  lemma ContainsNeedsRoom(s: string, pat: string)
    requires Contains(s, pat)
    ensures |pat| <= |s|
    ensures pat != [] ==> pat[0] in s
  {
    var k := OffsetOfContains(s, pat);
    if pat != [] {
      assert s[k..k + |pat|][0] == s[k];
    }
  }

  /** Python's `any(w in s for w in words)`. */
  predicate ContainsAny(s: string, words: seq<string>) {
    words != [] && (Contains(s, words[0]) || ContainsAny(s, words[1..]))
  }

  lemma ContainsAnyOfOne(s: string, a: string)
    ensures ContainsAny(s, [a]) == Contains(s, a)
  {
    assert [a][1..] == [];
  }

  lemma ContainsAnyOfTwo(s: string, a: string, b: string)
    ensures ContainsAny(s, [a, b]) == (Contains(s, a) || Contains(s, b))
  {
    assert [a, b][1..] == [b];
    ContainsAnyOfOne(s, b);
  }

  lemma ContainsAnyOfThree(s: string, a: string, b: string, c: string)
    ensures ContainsAny(s, [a, b, c]) == (Contains(s, a) || Contains(s, b) || Contains(s, c))
  {
    assert [a, b, c][1..] == [b, c];
    ContainsAnyOfTwo(s, b, c);
  }
}
