/** `validator.py`: the text compliance scan and the layout check. */
module Validator {
  import opened Text
  import opened ComplianceRules
  import opened PriceMatch

  /** The dictionary `{"valid", "errors", "warnings"}` the scan returns. */
  datatype Report = Report(valid: bool, errors: seq<string>, warnings: seq<string>)

  /** The common start of every error message. */
  const HardFail: string := "Hard Fail: "

  /** The wording around the term in a forbidden-term error. */
  const TermMessageHead: string := "Forbidden term '"
  const TermMessageTail: string := "' detected. Competitions, Claims, and Greenwashing are strictly prohibited."

  /** The error reported for one forbidden term found in the copy: a hard
      fail that quotes the term, which can be read back out of it. */
  function ForbiddenMessage(term: string): (m: string)
    ensures |m| == |HardFail| + |TermMessageHead| + |term| + |TermMessageTail|
    ensures m[..|HardFail|] == HardFail
    ensures m[|HardFail| + |TermMessageHead|..|m| - |TermMessageTail|] == term
  {
    HardFail + TermMessageHead + term + TermMessageTail
  }

  /** The single error reported for any price, discount or offer wording. */
  const PriceMessage: string :=
    HardFail + "Price call-outs, discounts, "
             + "or money-off references are NOT allowed in this creative type (Appendix B)."

  /** The scanned copy: the three messages joined by single spaces,
      lower-cased, so two characters longer than the messages together and
      without a capital letter. */
  function ScannedText(mainMessage: string, subMessage: string, ctaText: string): (t: string)
    ensures |t| == |mainMessage| + |subMessage| + |ctaText| + 2
    ensures forall i :: 0 <= i < |t| ==> !('A' <= t[i] <= 'Z')
  {
    Lower(mainMessage + " " + subMessage + " " + ctaText)
  }

  /** The price error is a hard fail too. */
  lemma PriceMessageIsHardFail()
    ensures |HardFail| < |PriceMessage| && PriceMessage[..|HardFail|] == HardFail
  {
  }

  /** One error for each term of `terms` that occurs in `text`, in table order. */
  function TermErrors(terms: seq<string>, text: string): seq<string> {
    if terms == [] then []
    else
      var last := terms[|terms| - 1];
      TermErrors(terms[..|terms| - 1], text) + (if IsSubstring(last, text) then [ForbiddenMessage(last)] else [])
  }

  /** Some pattern of `patterns` finds a match in `text`. */
  predicate AnyMatch(patterns: seq<PricePattern>, text: string) {
    exists k | 0 <= k < |patterns| :: Search(patterns[k], text)
  }

  /** Some price pattern finds a match in `text`. */
  predicate AnyPriceMatch(text: string) {
    AnyMatch(PricePatterns, text)
  }

  /** What the scan reports for the three messages. */
  function TextReport(mainMessage: string, subMessage: string, ctaText: string): Report {
    var text := ScannedText(mainMessage, subMessage, ctaText);
    var errors := TermErrors(ForbiddenTerms, text) + (if AnyPriceMatch(text) then [PriceMessage] else []);
    Report(|errors| == 0, errors, [])
  }

  /** The forbidden-term loop of `validate_text_content`: one error per term
      of `terms` found in `text`, in order. */
  method CollectTermErrors(terms: seq<string>, text: string) returns (errors: seq<string>)
    ensures errors == TermErrors(terms, text)
  {
    errors := [];
    var i := 0;
    while i < |terms|
      invariant 0 <= i <= |terms|
      invariant errors == TermErrors(terms[..i], text)
    {
      var term := terms[i];
      assert terms[..i + 1][..i] == terms[..i];
      if IsSubstring(term, text) {
        errors := errors + [ForbiddenMessage(term)];
      }
      i := i + 1;
    }
    assert terms[..i] == terms;
  }

  /** The price loop of `validate_text_content`: the patterns are tried in
      order and the search stops at the first that matches. */
  method FindPriceMatch(patterns: seq<PricePattern>, text: string) returns (found: bool)
    ensures found <==> AnyMatch(patterns, text)
  {
    found := false;
    var j := 0;
    while j < |patterns|
      invariant 0 <= j <= |patterns|
      invariant forall k :: 0 <= k < j ==> !Search(patterns[k], text)
    {
      if Search(patterns[j], text) {
        found := true;
        break;
      }
      j := j + 1;
    }
  }

  /** `validate_text_content`: every forbidden term found adds its own error,
      then the price patterns are tried in order and the first that matches
      adds the price error and ends the search. */
  method ValidateTextContent(mainMessage: string, subMessage: string, ctaText: string) returns (report: Report)
    ensures report == TextReport(mainMessage, subMessage, ctaText)
    ensures report.valid <==> report.errors == []
    ensures report.warnings == []
  {
    var warnings: seq<string> := [];
    var combined := Lower(mainMessage + " " + subMessage + " " + ctaText);
    var errors := CollectTermErrors(ForbiddenTerms, combined);
    var priced := FindPriceMatch(PricePatterns, combined);
    if priced {
      errors := errors + [PriceMessage];
    }
    report := Report(|errors| == 0, errors, warnings);
  }

  // ---------------------------------------------------------------------------
  // The forbidden-term errors

  /** The errors of a table split in two are those of its first part followed
      by those of its second: the errors come in table order. */
  lemma {:induction false} TermErrorsAppend(a: seq<string>, b: seq<string>, text: string)
    ensures TermErrors(a + b, text) == TermErrors(a, text) + TermErrors(b, text)
  {
    if b == [] {
      assert a + b == a;
    } else {
      var b' := b[..|b| - 1];
      assert (a + b)[..|a + b| - 1] == a + b';
      assert (a + b)[|a + b| - 1] == b[|b| - 1];
      TermErrorsAppend(a, b', text);
    }
  }

  /** The table positions whose term occurs in `text`. */
  function HitIndices(terms: seq<string>, text: string): set<int> {
    set k | 0 <= k < |terms| && IsSubstring(terms[k], text)
  }

  /** Exactly one error per table entry that occurs in the text. */
  lemma {:induction false} TermErrorCount(terms: seq<string>, text: string)
    ensures |TermErrors(terms, text)| == |HitIndices(terms, text)|
    ensures |TermErrors(terms, text)| <= |terms|
  {
    if terms == [] {
      assert HitIndices(terms, text) == {};
    } else {
      var n := |terms| - 1;
      var prefix := terms[..n];
      TermErrorCount(prefix, text);
      var hit := if IsSubstring(terms[n], text) then {n} else {};
      assert HitIndices(terms, text) == HitIndices(prefix, text) + hit;
      assert n !in HitIndices(prefix, text);
    }
  }

  /** Different terms give different messages. */
  lemma ForbiddenMessageInjective(t: string, u: string)
    requires ForbiddenMessage(t) == ForbiddenMessage(u)
    ensures t == u
  {
    var m := ForbiddenMessage(t);
    assert |t| == |u|;
    assert m[27..27 + |t|] == t;
    assert ForbiddenMessage(u)[27..27 + |u|] == u;
  }

  /** Every error names a table term that occurs in the text. */
  lemma {:induction false} TermErrorsSound(terms: seq<string>, text: string, e: string)
    requires e in TermErrors(terms, text)
    ensures exists k :: 0 <= k < |terms| && IsSubstring(terms[k], text) && e == ForbiddenMessage(terms[k])
  {
    var n := |terms| - 1;
    if e in TermErrors(terms[..n], text) {
      TermErrorsSound(terms[..n], text, e);
      var k :| 0 <= k < n && IsSubstring(terms[..n][k], text) && e == ForbiddenMessage(terms[..n][k]);
      assert terms[..n][k] == terms[k];
    } else {
      assert IsSubstring(terms[n], text) && e == ForbiddenMessage(terms[n]);
    }
  }

  /** A table term's error is reported iff the term occurs in the text. */
  lemma {:induction false} TermErrorIff(terms: seq<string>, text: string, k: int)
    requires 0 <= k < |terms|
    ensures ForbiddenMessage(terms[k]) in TermErrors(terms, text) <==> IsSubstring(terms[k], text)
  {
    var n := |terms| - 1;
    if ForbiddenMessage(terms[k]) in TermErrors(terms, text) {
      TermErrorsSound(terms, text, ForbiddenMessage(terms[k]));
      var k' :| 0 <= k' < |terms| && IsSubstring(terms[k'], text) && ForbiddenMessage(terms[k]) == ForbiddenMessage(terms[k']);
      ForbiddenMessageInjective(terms[k], terms[k']);
    }
    if IsSubstring(terms[k], text) && k < n {
      TermErrorIff(terms[..n], text, k);
      assert terms[..n][k] == terms[k];
    }
  }

  /** The price error differs from every forbidden-term error. */
  lemma PriceMessageDiffers(term: string)
    ensures ForbiddenMessage(term) != PriceMessage
  {
    assert |HardFail| == 11;
    assert ForbiddenMessage(term)[11] == 'F';
    assert PriceMessage[11] == 'P';
  }

  /** No forbidden-term error reads like the price error. */
  lemma PriceMessageNotATermError(terms: seq<string>, text: string)
    ensures PriceMessage !in TermErrors(terms, text)
  {
    if PriceMessage in TermErrors(terms, text) {
      TermErrorsSound(terms, text, PriceMessage);
      var k :| 0 <= k < |terms| && IsSubstring(terms[k], text) && PriceMessage == ForbiddenMessage(terms[k]);
      PriceMessageDiffers(terms[k]);
    }
  }

  // ---------------------------------------------------------------------------
  // Properties of the whole scan

  /** The copy is valid iff no forbidden term occurs in the scanned text and
      no price pattern matches it. */
  lemma ValidIff(mainMessage: string, subMessage: string, ctaText: string)
    ensures var text := ScannedText(mainMessage, subMessage, ctaText);
            TextReport(mainMessage, subMessage, ctaText).valid
            <==> (forall k :: 0 <= k < |ForbiddenTerms| ==> !IsSubstring(ForbiddenTerms[k], text)) && !AnyPriceMatch(text)
  {
    var text := ScannedText(mainMessage, subMessage, ctaText);
    TermErrorCount(ForbiddenTerms, text);
    if forall k :: 0 <= k < |ForbiddenTerms| ==> !IsSubstring(ForbiddenTerms[k], text) {
      assert HitIndices(ForbiddenTerms, text) == {};
    } else {
      var k :| 0 <= k < |ForbiddenTerms| && IsSubstring(ForbiddenTerms[k], text);
      assert k in HitIndices(ForbiddenTerms, text);
    }
  }

  /** At most one error per forbidden term plus one price error. */
  lemma ErrorCountBound(mainMessage: string, subMessage: string, ctaText: string)
    ensures |TextReport(mainMessage, subMessage, ctaText).errors| <= |ForbiddenTerms| + 1
  {
    TermErrorCount(ForbiddenTerms, ScannedText(mainMessage, subMessage, ctaText));
  }

  /** The price error appears once when some pattern matches and never otherwise. */
  lemma PriceErrorAtMostOnce(mainMessage: string, subMessage: string, ctaText: string)
    ensures var r := TextReport(mainMessage, subMessage, ctaText);
            multiset(r.errors)[PriceMessage] == if AnyPriceMatch(ScannedText(mainMessage, subMessage, ctaText)) then 1 else 0
  {
    var text := ScannedText(mainMessage, subMessage, ctaText);
    PriceMessageNotATermError(ForbiddenTerms, text);
    assert multiset(TermErrors(ForbiddenTerms, text))[PriceMessage] == 0;
  }

  /** Upper-case and lower-case copy are judged alike. */
  lemma CaseInsensitive(mainMessage: string, subMessage: string, ctaText: string)
    ensures TextReport(mainMessage, subMessage, ctaText) == TextReport(Lower(mainMessage), Lower(subMessage), Lower(ctaText))
  {
    LowerAll(mainMessage, subMessage, ctaText);
    LowerAll(Lower(mainMessage), Lower(subMessage), Lower(ctaText));
    LowerIdempotent(mainMessage);
    LowerIdempotent(subMessage);
    LowerIdempotent(ctaText);
  }

  /** The scanned copy is the lower-cased messages joined by spaces. */
  lemma LowerAll(mainMessage: string, subMessage: string, ctaText: string)
    ensures ScannedText(mainMessage, subMessage, ctaText) == Lower(mainMessage) + " " + Lower(subMessage) + " " + Lower(ctaText)
  {
    LowerConcat(mainMessage + " " + subMessage + " ", ctaText);
    LowerConcat(mainMessage + " " + subMessage, " ");
    LowerConcat(mainMessage + " ", subMessage);
    LowerConcat(mainMessage, " ");
  }

  /** Anything that occurs in one of the messages occurs, lower-cased, in the scanned copy. */
  lemma InScannedText(mainMessage: string, subMessage: string, ctaText: string, x: string)
    requires IsSubstring(x, mainMessage) || IsSubstring(x, subMessage) || IsSubstring(x, ctaText)
    ensures IsSubstring(Lower(x), ScannedText(mainMessage, subMessage, ctaText))
  {
    LowerAll(mainMessage, subMessage, ctaText);
    if IsSubstring(x, mainMessage) {
      LowerKeepsSubstring(x, mainMessage);
    } else if IsSubstring(x, subMessage) {
      LowerKeepsSubstring(x, subMessage);
    } else {
      LowerKeepsSubstring(x, ctaText);
    }
    InJoined(Lower(x), Lower(mainMessage), Lower(subMessage), Lower(ctaText));
  }

  /** What occurs in one of three parts occurs in the parts joined by spaces. */
  lemma InJoined(x: string, m: string, s: string, c: string)
    requires IsSubstring(x, m) || IsSubstring(x, s) || IsSubstring(x, c)
    ensures IsSubstring(x, m + " " + s + " " + c)
  {
    if IsSubstring(x, m) {
      SubstringOfPart(x, [], m, " " + s + " " + c);
      assert [] + m + (" " + s + " " + c) == m + " " + s + " " + c;
    } else if IsSubstring(x, s) {
      SubstringOfPart(x, m + " ", s, " " + c);
      assert m + " " + s + (" " + c) == m + " " + s + " " + c;
    } else {
      SubstringOfPart(x, m + " " + s + " ", c, []);
      assert m + " " + s + " " + c + [] == m + " " + s + " " + c;
    }
  }

  /** A forbidden term written in any mix of cases in any message is reported. */
  lemma ForbiddenTermInAnyCase(mainMessage: string, subMessage: string, ctaText: string, u: string, k: int)
    requires 0 <= k < |ForbiddenTerms| && Lower(u) == ForbiddenTerms[k]
    requires IsSubstring(u, mainMessage) || IsSubstring(u, subMessage) || IsSubstring(u, ctaText)
    ensures ForbiddenMessage(ForbiddenTerms[k]) in TextReport(mainMessage, subMessage, ctaText).errors
    ensures !TextReport(mainMessage, subMessage, ctaText).valid
  {
    var text := ScannedText(mainMessage, subMessage, ctaText);
    InScannedText(mainMessage, subMessage, ctaText, u);
    TermErrorIff(ForbiddenTerms, text, k);
  }

  /** An asterisk anywhere in the copy makes it invalid. */
  lemma AsteriskInvalidates(mainMessage: string, subMessage: string, ctaText: string)
    requires IsSubstring("*", mainMessage) || IsSubstring("*", subMessage) || IsSubstring("*", ctaText)
    ensures ForbiddenMessage("*") in TextReport(mainMessage, subMessage, ctaText).errors
    ensures !TextReport(mainMessage, subMessage, ctaText).valid
  {
    AsteriskIsForbidden();
    assert Lower("*") == "*";
    ForbiddenTermInAnyCase(mainMessage, subMessage, ctaText, "*", 11);
  }

  /** Matching is by substring: "Evergreen" is reported for "green". */
  lemma SubstringMatching()
    ensures ForbiddenMessage("green") in TextReport("Evergreen", "", "").errors
  {
    assert OccursAt("green", "Evergreen", 4);
    assert Lower("green") == "green";
    assert ForbiddenTerms[15] == "green";
    ForbiddenTermInAnyCase("Evergreen", "", "", "green", 15);
  }

  /** A digit directly followed by `%` in any message gives the price error. */
  lemma PercentInvalidates(mainMessage: string, subMessage: string, ctaText: string, d: char)
    requires IsDigit(d)
    requires IsSubstring([d, '%'], mainMessage) || IsSubstring([d, '%'], subMessage) || IsSubstring([d, '%'], ctaText)
    ensures PriceMessage in TextReport(mainMessage, subMessage, ctaText).errors
    ensures !TextReport(mainMessage, subMessage, ctaText).valid
  {
    var text := ScannedText(mainMessage, subMessage, ctaText);
    InScannedText(mainMessage, subMessage, ctaText, [d, '%']);
    assert Lower([d, '%']) == [d, '%'];
    var m: int :| OccursAt([d, '%'], text, m);
    assert OccursAt([d, '%'], text, m);
    assert text[m..m + 2] == [d, '%'];
    assert DigitThen(text, m, '%') by {
      assert text[m] == text[m..m + 2][0] && text[m + 1] == text[m..m + 2][1];
    }
    PercentSearchIff(text);
    assert Search(PricePatterns[1], text);
  }

  /** One of the five keywords standing as a word of its own, in any case,
      in any message, gives the price error. */
  lemma KeywordInvalidates(mainMessage: string, subMessage: string, ctaText: string, k: int, i: int)
    requires 3 <= k < |PricePatterns|
    requires || KeywordMatchAt(PricePatterns[k].word, Lower(mainMessage), i)
             || KeywordMatchAt(PricePatterns[k].word, Lower(subMessage), i)
             || KeywordMatchAt(PricePatterns[k].word, Lower(ctaText), i)
    ensures PriceMessage in TextReport(mainMessage, subMessage, ctaText).errors
    ensures !TextReport(mainMessage, subMessage, ctaText).valid
  {
    var text := ScannedText(mainMessage, subMessage, ctaText);
    LowerAll(mainMessage, subMessage, ctaText);
    KeywordInJoined(PricePatterns[k].word, Lower(mainMessage), Lower(subMessage), Lower(ctaText), i);
    assert PricePatterns[k] == Keyword(PricePatterns[k].word);
    assert Search(PricePatterns[k], text);
  }

  /** "20% off this week" as the sub-headline is rejected as a price call-out. */
  lemma PercentScenario()
    ensures PriceMessage in TextReport("Fresh Taste", "20% off this week", "").errors
    ensures !TextReport("Fresh Taste", "20% off this week", "").valid
  {
    assert OccursAt("0%", "20% off this week", 1);
    PercentInvalidates("Fresh Taste", "20% off this week", "", '0');
  }

  /** An element handed to the layout check: its kind and its box `(x1, y1, x2, y2)`. */
  datatype LayoutElement = LayoutElement(kind: string, box: (int, int, int, int))

  /** `validate_layout`: a placeholder that accepts every layout. */
  function ValidateLayout(fmt: string, width: int, height: int, elements: seq<LayoutElement>): (ok: bool)
    ensures ok
  {
    true
  }
}
