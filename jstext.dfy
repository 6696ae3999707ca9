/** The JavaScript string operations the screens rely on: ASCII
    `toLowerCase`, `includes`, `toUpperCase` of one character, the
    whitespace class shared by `trim()` and the regular-expression class
    `\s`, and the email pattern `\S+@\S+\.\S+` that the signup form tests. */
module JsText {

  /** ECMAScript WhiteSpace and LineTerminator code points: what `trim()`
      removes and what `\s` matches. */
  predicate IsWhiteSpace(c: char)
  {
    var n := c as int;
    (0x09 <= n <= 0x0D) || n == 0x20 || n == 0xA0 || n == 0x1680 ||
    (0x2000 <= n <= 0x200A) || n == 0x2028 || n == 0x2029 || n == 0x202F ||
    n == 0x205F || n == 0x3000 || n == 0xFEFF
  }

  function TrimStart(s: string): string
  {
    if s != [] && IsWhiteSpace(s[0]) then TrimStart(s[1..]) else s
  }

  function TrimEnd(s: string): string
  {
    if s != [] && IsWhiteSpace(s[|s| - 1]) then TrimEnd(s[..|s| - 1]) else s
  }

  /** String.prototype.trim */
  function Trim(s: string): string
  {
    TrimEnd(TrimStart(s))
  }

  /** `!s.trim()`: the trimmed string is empty, so falsy. */
  predicate IsBlank(s: string)
  {
    Trim(s) == ""
  }

  lemma {:induction false} TrimStartEmpty(s: string)
    ensures TrimStart(s) == "" <==> forall i :: 0 <= i < |s| ==> IsWhiteSpace(s[i])
  {
    if s != [] && IsWhiteSpace(s[0]) {
      TrimStartEmpty(s[1..]);
      assert forall i :: 1 <= i < |s| ==> s[i] == s[1..][i - 1];
    }
  }

  lemma {:induction false} TrimEndEmpty(s: string)
    ensures TrimEnd(s) == "" <==> forall i :: 0 <= i < |s| ==> IsWhiteSpace(s[i])
  {
    if s != [] && IsWhiteSpace(s[|s| - 1]) {
      TrimEndEmpty(s[..|s| - 1]);
      assert forall i :: 0 <= i < |s| - 1 ==> s[i] == s[..|s| - 1][i];
    }
  }

  lemma {:induction false} TrimStartStopsAtNonSpace(s: string)
    ensures TrimStart(s) != "" ==> !IsWhiteSpace(TrimStart(s)[0])
  {
    if s != [] && IsWhiteSpace(s[0]) {
      TrimStartStopsAtNonSpace(s[1..]);
    }
  }

  /** A string is blank exactly when every one of its characters is white
      space (the empty string included). */
  lemma BlankIffAllWhiteSpace(s: string)
    ensures IsBlank(s) <==> forall i :: 0 <= i < |s| ==> IsWhiteSpace(s[i])
  {
    TrimEndEmpty(TrimStart(s));
    TrimStartEmpty(s);
    TrimStartStopsAtNonSpace(s);
  }

  /** Character-wise ASCII lower-casing. */
  function LowerChar(c: char): char
  {
    if 'A' <= c <= 'Z' then (c as int + 32) as char else c
  }

  /** ASCII toLowerCase. */
  function ToLower(s: string): (r: string)
    ensures |r| == |s|
    ensures forall i :: 0 <= i < |s| ==> r[i] == LowerChar(s[i])
  {
    if s == [] then [] else [LowerChar(s[0])] + ToLower(s[1..])
  }

  function UpperChar(c: char): char
  {
    if 'a' <= c <= 'z' then (c as int - 32) as char else c
  }

  /** String.prototype.includes */
  predicate Includes(hay: string, needle: string)
  {
    exists i :: 0 <= i <= |hay| - |needle| && OccursAt(hay, needle, i)
  }

  /** `needle` sits in `hay` starting at index `i`. */
  predicate OccursAt(hay: string, needle: string, i: int)
  {
    0 <= i <= |hay| - |needle| && hay[i..i + |needle|] == needle
  }

  lemma IncludesEmpty(hay: string)
    ensures Includes(hay, "")
  {
    assert OccursAt(hay, "", 0);
  }

  /** A string includes itself and so does any string around it. */
  lemma IncludesInfix(p: string, x: string, q: string)
    ensures Includes(p + x + q, x)
  {
    var h := p + x + q;
    assert h[|p|..|p| + |x|] == x;
    assert OccursAt(h, x, |p|);
  }

  /** `field.toLowerCase().includes(term.toLowerCase())` */
  predicate ContainsIgnoringCase(field: string, term: string)
  {
    Includes(ToLower(field), ToLower(term))
  }

  /** The empty search term matches every field. */
  lemma EmptyTermMatchesAll()
    ensures forall field :: ContainsIgnoringCase(field, "")
  {
    forall field: string ensures ContainsIgnoringCase(field, "") {
      IncludesEmpty(ToLower(field));
    }
  }

  /** Every character strictly between `lo` and `hi` is `\S`. */
  predicate NonSpaceBetween(s: string, lo: int, hi: int)
    requires 0 <= lo <= hi <= |s|
  {
    forall k :: lo <= k < hi ==> !IsWhiteSpace(s[k])
  }

  /** `/\S+@\S+\.\S+/.test(s)`, unanchored: some '@' has a non-space
      character before it, and is followed by a run of one or more non-space
      characters, then a '.', then one more non-space character. (The
      shortest match is enough: a longer one contains it.) */
  predicate MatchesEmailPattern(s: string)
  {
    exists i, j :: 0 < i < |s| && i + 1 < j < |s| - 1 && EmailMatchAt(s, i, j)
  }

  /** The shortest match, with its '@' at `i` and its '.' at `j`. */
  predicate EmailMatchAt(s: string, i: int, j: int)
  {
    0 < i && i + 1 < j < |s| - 1 &&
    s[i] == '@' && s[j] == '.' && !IsWhiteSpace(s[i - 1]) && !IsWhiteSpace(s[j + 1]) &&
    NonSpaceBetween(s, i + 1, j)
  }

  /** A match needs both an '@' and a later '.'. */
  lemma EmailPatternNeedsAtAndDot(s: string)
    requires MatchesEmailPattern(s)
    ensures exists i, j :: 0 <= i < j < |s| && s[i] == '@' && s[j] == '.'
  {
  }

  /** `local@domain.tld` matches when the three parts are non-empty and free
      of white space. */
  lemma EmailPatternAccepts(local: string, domain: string, tld: string)
    requires local != "" && domain != "" && tld != ""
    requires forall k :: 0 <= k < |local| ==> !IsWhiteSpace(local[k])
    requires forall k :: 0 <= k < |domain| ==> !IsWhiteSpace(domain[k])
    requires forall k :: 0 <= k < |tld| ==> !IsWhiteSpace(tld[k])
    ensures MatchesEmailPattern(local + "@" + domain + "." + tld)
  {
    var s := local + "@" + domain + "." + tld;
    var i, j := |local|, |local| + 1 + |domain|;
    assert s[i] == '@' && s[j] == '.';
    assert s[i - 1] == local[|local| - 1];
    assert s[j + 1] == tld[0];
    forall k | i + 1 <= k < j ensures !IsWhiteSpace(s[k]) {
      assert s[k] == domain[k - i - 1];
    }
    assert EmailMatchAt(s, i, j);
  }

  lemma ShiftedIndex(p: string, s: string, q: string, k: int)
    requires 0 <= k < |s|
    ensures (p + s + q)[k + |p|] == s[k]
  {
  }

  /** The pattern is unanchored: text around a match keeps it a match. */
  lemma EmailPatternUnanchored(p: string, s: string, q: string)
    requires MatchesEmailPattern(s)
    ensures MatchesEmailPattern(p + s + q)
  {
    var i, j :| 0 < i < |s| && i + 1 < j < |s| - 1 && EmailMatchAt(s, i, j);
    var t := p + s + q;
    ShiftedIndex(p, s, q, i);
    ShiftedIndex(p, s, q, j);
    ShiftedIndex(p, s, q, i - 1);
    ShiftedIndex(p, s, q, j + 1);
    forall k | i + |p| + 1 <= k < j + |p| ensures !IsWhiteSpace(t[k]) {
      ShiftedIndex(p, s, q, k - |p|);
    }
    assert EmailMatchAt(t, i + |p|, j + |p|);
  }

  /** A string with white space around every '@' or no '.' after it is
      rejected; for instance "a @b.c" and "a@b" do not match. */
  lemma EmailPatternRejectsExamples()
    ensures !MatchesEmailPattern("a@b")
    ensures !MatchesEmailPattern("a @b.c")
    ensures !MatchesEmailPattern("@b.c")
  {
  }
}
