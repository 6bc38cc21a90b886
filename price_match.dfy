/** What `re.search(pattern, text)` answers for each entry of `PRICE_PATTERNS`,
    written out as the regular expressions read, together with the plain
    character tests each one amounts to. */
module PriceMatch {
  import opened Text
  import opened ComplianceRules

  /** `$`, `£` or `€`. */
  predicate IsCurrencySymbol(c: char) {
    c == '$' || c == '£' || c == '€'
  }

  /** `\d+` matches `t[i..j]`. */
  predicate DigitsAt(t: string, i: int, j: int) {
    0 <= i < j <= |t| && IsDigit(t[i]) && forall k :: i < k < j ==> IsDigit(t[k])
  }

  /** `(\$|£|€)\d+` matches `t[i..j]`. */
  predicate CurrencyMatchAt(t: string, i: int, j: int) {
    0 <= i < |t| && IsCurrencySymbol(t[i]) && DigitsAt(t, i + 1, j)
  }

  /** `\d+(\.\d{1,2})?%` matches `t[i..k]`, its `\d+` being `t[i..j]`. */
  predicate PercentMatchAt(t: string, i: int, j: int, k: int) {
    && DigitsAt(t, i, j)
    && j < k <= |t|
    && t[k - 1] == '%'
    && (k == j + 1 || (t[j] == '.' && j + 2 <= k - 1 <= j + 3 && forall q :: j + 1 <= q < k - 1 ==> IsDigit(t[q])))
  }

  /** `\d+p` matches `t[i..j + 1]`, its `\d+` being `t[i..j]`. */
  predicate PenceMatchAt(t: string, i: int, j: int) {
    DigitsAt(t, i, j) && j < |t| && t[j] == 'p'
  }

  /** `\bw\b` matches at index `i`, for a keyword `w` that starts and ends
      with a word character (so `\b` there means "no word character beside"). */
  predicate KeywordMatchAt(w: string, t: string, i: int) {
    && OccursAt(w, t, i)
    && (i == 0 || !IsWordChar(t[i - 1]))
    && (i + |w| == |t| || !IsWordChar(t[i + |w|]))
  }

  /** `re.search(p, t)` finds a match. A keyword is found only where it
      occurs; each of the other patterns only where there is a digit. */
  predicate Search(p: PricePattern, t: string)
    ensures Search(p, t) && p.Keyword? ==> IsSubstring(p.word, t)
    ensures Search(p, t) && !p.Keyword? ==> exists m :: 0 <= m < |t| && IsDigit(t[m])
  {
    match p
    case CurrencyAmount => exists i, j | 0 <= i < j <= |t| :: CurrencyMatchAt(t, i, j)
    case Percentage => exists i, j, k | 0 <= i < j < k <= |t| :: PercentMatchAt(t, i, j, k)
    case Pence => exists i, j | 0 <= i < j < |t| :: PenceMatchAt(t, i, j)
    case Keyword(w) => exists i | 0 <= i <= |t| - |w| :: KeywordMatchAt(w, t, i)
  }

  /** The character at `m` is a digit and the next one is `c`. */
  predicate DigitThen(t: string, m: int, c: char) {
    0 <= m < |t| - 1 && IsDigit(t[m]) && t[m + 1] == c
  }

  /** The character at `m` is a currency symbol and the next one a digit. */
  predicate CurrencyThenDigit(t: string, m: int) {
    0 <= m < |t| - 1 && IsCurrencySymbol(t[m]) && IsDigit(t[m + 1])
  }

  /** The currency pattern matches iff a currency symbol is directly followed by a digit. */
  lemma CurrencySearchIff(t: string)
    ensures Search(CurrencyAmount, t) <==> exists m :: CurrencyThenDigit(t, m)
  {
    if Search(CurrencyAmount, t) {
      var i: int, j: int :| 0 <= i < j <= |t| && CurrencyMatchAt(t, i, j);
      assert CurrencyThenDigit(t, i);
    }
    if m: int :| CurrencyThenDigit(t, m) {
      assert CurrencyMatchAt(t, m, m + 2);
    }
  }

  /** The percentage pattern matches iff some digit is directly followed by `%`:
      its optional decimal part always ends in a digit too. */
  lemma PercentSearchIff(t: string)
    ensures Search(Percentage, t) <==> exists m :: DigitThen(t, m, '%')
  {
    if Search(Percentage, t) {
      var i: int, j: int, k: int :| 0 <= i < j < k <= |t| && PercentMatchAt(t, i, j, k);
      if k == j + 1 {
        assert DigitThen(t, j - 1, '%');
      } else {
        assert DigitThen(t, k - 2, '%');
      }
    }
    if m: int :| DigitThen(t, m, '%') {
      assert PercentMatchAt(t, m, m + 1, m + 2);
    }
  }

  /** The pence pattern matches iff some digit is directly followed by `p`. */
  lemma PenceSearchIff(t: string)
    ensures Search(Pence, t) <==> exists m :: DigitThen(t, m, 'p')
  {
    if Search(Pence, t) {
      var i: int, j: int :| 0 <= i < j < |t| && PenceMatchAt(t, i, j);
      assert DigitThen(t, j - 1, 'p');
    }
    if m: int :| DigitThen(t, m, 'p') {
      assert PenceMatchAt(t, m, m + 1);
    }
  }

  /** A keyword match in a part stays a match in a text that holds the part
      at `n` between two non-word characters (or the ends of the text). */
  lemma KeywordInPart(w: string, part: string, text: string, n: int, i: int)
    requires KeywordMatchAt(w, part, i)
    requires 0 <= n && n + |part| <= |text| && text[n..n + |part|] == part
    requires n == 0 || !IsWordChar(text[n - 1])
    requires n + |part| == |text| || !IsWordChar(text[n + |part|])
    ensures KeywordMatchAt(w, text, n + i)
  {
    var found, word := text[n + i..n + i + |w|], part[i..i + |w|];
    forall k | 0 <= k < |w|
      ensures found[k] == word[k]
    {
      assert text[n + i + k] == text[n..n + |part|][i + k];
    }
    assert found == word;
    if i > 0 {
      assert text[n + i - 1] == part[i - 1];
    }
    if i + |w| < |part| {
      assert text[n + i + |w|] == part[i + |w|];
    }
  }

  /** A keyword standing as a word in one of three parts is found in the
      parts joined by single spaces. */
  lemma KeywordInJoined(w: string, m: string, s: string, c: string, i: int)
    requires KeywordMatchAt(w, m, i) || KeywordMatchAt(w, s, i) || KeywordMatchAt(w, c, i)
    ensures Search(Keyword(w), m + " " + s + " " + c)
  {
    var text := m + " " + s + " " + c;
    var ns, nc := |m| + 1, |m| + |s| + 2;
    assert text[..|m|] == m;
    assert text[ns..ns + |s|] == s;
    assert text[nc..] == c;
    assert text[|m|] == ' ' && text[nc - 1] == ' ';
    if KeywordMatchAt(w, m, i) {
      KeywordInPart(w, m, text, 0, i);
    } else if KeywordMatchAt(w, s, i) {
      KeywordInPart(w, s, text, ns, i);
    } else {
      assert text[nc..nc + |c|] == c;
      KeywordInPart(w, c, text, nc, i);
    }
  }

  /** A keyword pattern needs word boundaries on both sides: "sale" inside
      "salesman" is not a match, "sale" on its own is. */
  lemma KeywordNeedsBoundaries()
    ensures !Search(Keyword("sale"), "salesman")
    ensures Search(Keyword("sale"), "big sale")
  {
    var t := "salesman";
    forall i | 0 <= i <= |t| - 4 ensures !KeywordMatchAt("sale", t, i) {
      if i == 0 {
        assert t[4] == 's';
      } else {
        assert !OccursAt("sale", t, i) by {
          assert t[i..i + 4][0] == t[i] && t[i..i + 4][1] == t[i + 1];
          assert t[i] != 's' || t[i + 1] != 'a';
        }
      }
    }
    assert KeywordMatchAt("sale", "big sale", 4);
  }
}
