/** The Python `str` operations the core relies on: `lower`, `upper`, `in`,
    `strip`, `split()` and `" ".join`, written over `seq<char>`. */
module Text {

  /** Python's `str.isspace()`: exactly the characters that `strip()` and
      `split()` with no argument treat as whitespace. */
  predicate IsSpace(c: char)
    ensures ('\t' <= c <= '\r' || c == ' ') ==> IsSpace(c)
    ensures IsSpace(c) ==> !IsWordChar(c)
  {
    || ('\t' <= c <= '\r')
    || ('\U{1C}' <= c <= '\U{1F}')
    || c == ' '
    || c == '\U{85}'
    || c == '\U{A0}'
    || c == '\U{1680}'
    || ('\U{2000}' <= c <= '\U{200A}')
    || c == '\U{2028}'
    || c == '\U{2029}'
    || c == '\U{202F}'
    || c == '\U{205F}'
    || c == '\U{3000}'
  }

  /** An ASCII decimal digit, the `\d` of the price patterns. */
  predicate IsDigit(c: char) {
    '0' <= c <= '9'
  }

  /** An ASCII word character `[A-Za-z0-9_]`, the `\w` behind `\b`. */
  predicate IsWordChar(c: char) {
    IsDigit(c) || ('a' <= c <= 'z') || ('A' <= c <= 'Z') || c == '_'
  }

  /** True when no character of `s` is whitespace. */
  predicate NoSpace(s: string) {
    forall i :: 0 <= i < |s| ==> !IsSpace(s[i])
  }

  /** True when every character of `s` is whitespace. */
  predicate AllSpace(s: string) {
    forall i :: 0 <= i < |s| ==> IsSpace(s[i])
  }

  // ---------------------------------------------------------------------------
  // Case mapping (ASCII letters only)

  function LowerChar(c: char): char {
    if 'A' <= c <= 'Z' then (c as int + 32) as char else c
  }

  function UpperChar(c: char): char {
    if 'a' <= c <= 'z' then (c as int - 32) as char else c
  }

  /** `s.lower()`: as long as `s`, with no capital letter left, and every
      character that is not a capital letter kept where it was. */
  function Lower(s: string): (r: string)
    ensures |r| == |s|
    ensures forall i :: 0 <= i < |r| ==> !('A' <= r[i] <= 'Z')
    ensures forall i :: 0 <= i < |s| && !('A' <= s[i] <= 'Z') ==> r[i] == s[i]
  {
    seq(|s|, i requires 0 <= i < |s| => LowerChar(s[i]))
  }

  /** `s.upper()`: as long as `s`, with no small letter left, every character
      that is not a small letter kept, and the same letters up to case. */
  function Upper(s: string): (r: string)
    ensures |r| == |s|
    ensures NoSmallLetter(r)
    ensures forall i :: 0 <= i < |s| && !('a' <= s[i] <= 'z') ==> r[i] == s[i]
    ensures Lower(r) == Lower(s)
  {
    var r := seq(|s|, i requires 0 <= i < |s| => UpperChar(s[i]));
    assert forall i :: 0 <= i < |s| ==> LowerChar(r[i]) == LowerChar(s[i]);
    r
  }

  /** A string that `lower()` leaves as it is. */
  predicate IsLowerCase(s: string) {
    forall i :: 0 <= i < |s| ==> !('A' <= s[i] <= 'Z')
  }

  /** A string without a small letter, as `upper()` leaves it. */
  predicate NoSmallLetter(s: string) {
    forall i :: 0 <= i < |s| ==> !('a' <= s[i] <= 'z')
  }

  /** Lower-casing distributes over concatenation. */
  lemma LowerConcat(a: string, b: string)
    ensures Lower(a + b) == Lower(a) + Lower(b)
  {
    assert forall i :: 0 <= i < |a + b| ==> Lower(a + b)[i] == (Lower(a) + Lower(b))[i];
  }

  /** Lower-casing an already lower-cased string changes nothing, and it is
      exactly the strings without an upper-case letter that it fixes. */
  lemma LowerFixesLowerCase(s: string)
    ensures IsLowerCase(Lower(s))
    ensures Lower(s) == s <==> IsLowerCase(s)
  {
    if Lower(s) == s {
      forall i | 0 <= i < |s| ensures !('A' <= s[i] <= 'Z') {
        assert Lower(s)[i] == s[i];
      }
    }
  }

  lemma LowerIdempotent(s: string)
    ensures Lower(Lower(s)) == Lower(s)
  {
    LowerFixesLowerCase(s);
    LowerFixesLowerCase(Lower(s));
  }

  // ---------------------------------------------------------------------------
  // Substring test: Python's `pat in text`

  /** `pat in text`: the empty string is in every string, every string is in
      itself, and nothing longer than `text` is in it. */
  predicate IsSubstring(pat: string, text: string)
    ensures IsSubstring(pat, text) ==> |pat| <= |text|
    ensures pat == [] ==> IsSubstring(pat, text)
    ensures pat == text ==> IsSubstring(pat, text)
  {
    assert pat == [] ==> OccursAt(pat, text, 0);
    assert pat == text ==> OccursAt(pat, text, 0);
    exists i | 0 <= i <= |text| - |pat| :: OccursAt(pat, text, i)
  }

  /** `pat` occurs in `text` starting at index `i`. */
  predicate OccursAt(pat: string, text: string, i: int) {
    0 <= i <= |text| - |pat| && text[i..i + |pat|] == pat
  }

  /** A substring of a string stays a substring after both are lower-cased. */
  lemma LowerKeepsSubstring(pat: string, text: string)
    requires IsSubstring(pat, text)
    ensures IsSubstring(Lower(pat), Lower(text))
  {
    var i: int :| OccursAt(pat, text, i);
    assert OccursAt(pat, text, i);
    assert Lower(text)[i..i + |pat|] == Lower(pat);
    assert OccursAt(Lower(pat), Lower(text), i);
  }

  /** A substring of a part is a substring of the text the part sits in. */
  lemma SubstringOfPart(pat: string, before: string, part: string, after: string)
    requires IsSubstring(pat, part)
    ensures IsSubstring(pat, before + part + after)
  {
    var i: int :| OccursAt(pat, part, i);
    assert OccursAt(pat, part, i);
    var whole := before + part + after;
    assert whole[|before| + i..|before| + i + |pat|] == part[i..i + |pat|];
    assert OccursAt(pat, whole, |before| + i);
  }

  // ---------------------------------------------------------------------------
  // strip()

  /** The index of the first non-whitespace character of `s` at or after `i`,
      or `|s|` when there is none. */
  function SkipSpace(s: string, i: nat): (j: nat)
    requires i <= |s|
    ensures i <= j <= |s|
    ensures forall k :: i <= k < j ==> IsSpace(s[k])
    ensures j < |s| ==> !IsSpace(s[j])
    decreases |s| - i
  {
    if i < |s| && IsSpace(s[i]) then SkipSpace(s, i + 1) else i
  }

  /** The end of `s[lo..j]` once its trailing whitespace is cut off. */
  function BackSpace(s: string, lo: nat, j: nat): (e: nat)
    requires lo <= j <= |s|
    ensures lo <= e <= j
    ensures forall k :: e <= k < j ==> IsSpace(s[k])
    ensures e > lo ==> !IsSpace(s[e - 1])
  {
    if j > lo && IsSpace(s[j - 1]) then BackSpace(s, lo, j - 1) else j
  }

  /** Neither end of `s` is whitespace. */
  predicate IsTrimmed(s: string) {
    s == [] || (!IsSpace(s[0]) && !IsSpace(s[|s| - 1]))
  }

  /** `s.strip()`: the middle `s[i..e]` of `s` left once the whitespace at
      both ends is cut off; everything cut is whitespace and none is left at
      either end. */
  function Strip(s: string): (r: string)
    ensures var i := SkipSpace(s, 0);
            && i + |r| <= |s| && r == s[i..i + |r|]
            && (forall k :: 0 <= k < i ==> IsSpace(s[k]))
            && (forall k :: i + |r| <= k < |s| ==> IsSpace(s[k]))
    ensures IsTrimmed(r)
  {
    var i := SkipSpace(s, 0);
    s[i..BackSpace(s, i, |s|)]
  }

  /** Stripping is idempotent. */
  lemma StripIdempotent(s: string)
    ensures Strip(Strip(s)) == Strip(s)
  {
    TrimmedIsFixed(Strip(s));
  }

  /** A string with no whitespace at either end is left alone by `strip()`. */
  lemma TrimmedIsFixed(s: string)
    requires IsTrimmed(s)
    ensures Strip(s) == s
  {
    assert SkipSpace(s, 0) == 0;
  }

  /** `strip()` returns the empty string exactly on whitespace-only input. */
  lemma StripEmptyIffAllSpace(s: string)
    ensures Strip(s) == [] <==> AllSpace(s)
  {
    if AllSpace(s) && s != [] {
      assert !(SkipSpace(s, 0) < |s|);
    }
  }

  // ---------------------------------------------------------------------------
  // split() and " ".join()

  /** The length of the run of non-whitespace characters that starts `s`. */
  function TokenLength(s: string): (k: nat)
    ensures k <= |s|
    ensures NoSpace(s[..k])
    ensures k < |s| ==> IsSpace(s[k])
  {
    if s == [] || IsSpace(s[0]) then 0 else 1 + TokenLength(s[1..])
  }

  /** A word as `split()` yields it: non-empty and without whitespace. */
  predicate IsWord(w: string) {
    w != [] && NoSpace(w)
  }

  /** `s.split()`: the maximal runs of non-whitespace characters, in order. */
  function Split(s: string): (ws: seq<string>)
    ensures forall k :: 0 <= k < |ws| ==> IsWord(ws[k])
    decreases |s|
  {
    if s == [] then []
    else if IsSpace(s[0]) then Split(s[1..])
    else
      var k := TokenLength(s);
      [s[..k]] + Split(s[k..])
  }

  /** `" ".join(ws)`: it starts with the first word, and every word occurs in it. */
  function Join(ws: seq<string>): (r: string)
    ensures ws != [] ==> |ws[0]| <= |r| && r[..|ws[0]|] == ws[0]
    ensures forall k :: 0 <= k < |ws| ==> IsSubstring(ws[k], r)
  {
    if ws == [] then ""
    else if |ws| == 1 then
      assert OccursAt(ws[0], ws[0], 0);
      ws[0]
    else
      var rest := Join(ws[1..]);
      var r := ws[0] + " " + rest;
      assert OccursAt(ws[0], r, 0);
      forall k | 1 <= k < |ws| ensures IsSubstring(ws[k], r) {
        assert ws[1..][k - 1] == ws[k];
        SubstringOfPart(ws[k], ws[0] + " ", rest, "");
        assert ws[0] + " " + rest + "" == r;
      }
      r
  }

  lemma {:induction false} TokenLengthOfWord(w: string, rest: string)
    requires NoSpace(w)
    requires rest == [] || IsSpace(rest[0])
    ensures TokenLength(w + rest) == |w|
  {
    if w != [] {
      assert (w + rest)[1..] == w[1..] + rest;
      TokenLengthOfWord(w[1..], rest);
    }
  }

  lemma SplitAfterWord(w: string, rest: string)
    requires IsWord(w)
    requires rest == [] || IsSpace(rest[0])
    ensures Split(w + rest) == [w] + Split(rest)
  {
    TokenLengthOfWord(w, rest);
    assert (w + rest)[..|w|] == w;
    assert (w + rest)[|w|..] == rest;
  }

  /** Whitespace in front of a string does not change its words. */
  lemma {:induction false} SplitSkipsSpace(a: string, s: string)
    requires AllSpace(a)
    ensures Split(a + s) == Split(s)
  {
    if a != [] {
      assert (a + s)[1..] == a[1..] + s;
      assert IsSpace((a + s)[0]);
      assert Split(a + s) == Split(a[1..] + s);
      assert AllSpace(a[1..]) by {
        forall i | 0 <= i < |a[1..]| ensures IsSpace(a[1..][i]) {
          assert a[1..][i] == a[i + 1];
        }
      }
      SplitSkipsSpace(a[1..], s);
    } else {
      assert a + s == s;
    }
  }

  /** Splitting words joined by single spaces gives the words back. */
  lemma {:induction false} SplitJoin(ws: seq<string>)
    requires forall k :: 0 <= k < |ws| ==> IsWord(ws[k])
    ensures Split(Join(ws)) == ws
  {
    if |ws| == 1 {
      SplitAfterWord(ws[0], "");
      assert ws[0] + "" == ws[0];
    } else if |ws| > 1 {
      var rest := " " + Join(ws[1..]);
      assert ws[0] + " " + Join(ws[1..]) == ws[0] + rest;
      SplitAfterWord(ws[0], rest);
      assert rest[1..] == Join(ws[1..]);
      SplitJoin(ws[1..]);
      assert [ws[0]] + ws[1..] == ws;
    }
  }
}
