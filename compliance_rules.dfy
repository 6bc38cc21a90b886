/** The rule tables of `compliance_rules.py`: tag allow-list, forbidden terms,
    price patterns, safe zones and font constraints. */
module ComplianceRules {
  import opened Text

  /** `REQUIRED_TEXT_PATTERNS`: one key, "tags", holding the allowed tag lines. */
  const RequiredTextPatterns: map<string, seq<string>> := map[
    "tags" := [
      "Only at Tesco",
      "Available at Tesco",
      "Selected stores. While stocks last",
      "Available in selected stores",
      "Clubcard/app required",
      "Ends DD/MM"
    ]
  ]

  /** `FORBIDDEN_TERMS`, in table order: competitions, financial claims,
      claims (including the bare asterisk) and sustainability terms. */
  const ForbiddenTerms: seq<string> := [
    "competition", "winner", "win a", "chance to win", "prize", "enter now",
    "money back", "money-back", "guarantee", "best price", "cheapest",
    "*", "survey", "voted", "rated",
    "green", "sustainable", "eco-friendly", "environmentally", "planet", "earth", "charity", "donate", "partnership"
  ]

  /** The shapes of the entries of `PRICE_PATTERNS`; their regular-expression
      semantics is given in module PriceMatch. */
  datatype PricePattern =
    | CurrencyAmount   // (\$|£|€)\d+
    | Percentage       // \d+(\.\d{1,2})?%
    | Pence            // \d+p
    | Keyword(word: string)  // \bword\b

  /** `PRICE_PATTERNS`, in the order they are tried. */
  const PricePatterns: seq<PricePattern> := [
    CurrencyAmount,
    Percentage,
    Pence,
    Keyword("free"),
    Keyword("discount"),
    Keyword("deal"),
    Keyword("offer"),
    Keyword("sale")
  ]

  /** A platform's reserved top and bottom margins, in pixels. */
  datatype SafeZone = SafeZone(top: int, bottom: int)

  /** `SAFE_ZONES` */
  const SafeZones: map<string, SafeZone> := map[
    "instagram_story" := SafeZone(200, 250),
    "facebook_feed" := SafeZone(0, 0),
    "landscape" := SafeZone(0, 0)
  ]

  /** `FONT_CONSTRAINTS` as the module leaves it: the second assignment to the
      name replaces the first, so only the two minimum sizes remain. */
  const FontConstraints: map<string, int> := map[
    "min_size_brand" := 20,
    "min_size_social" := 10
  ]

  /** The allow-list holds exactly six distinct tag lines. */
  lemma TagAllowList()
    ensures RequiredTextPatterns.Keys == {"tags"}
    ensures |RequiredTextPatterns["tags"]| == 6
    ensures forall i, j :: 0 <= i < j < 6 ==> RequiredTextPatterns["tags"][i] != RequiredTextPatterns["tags"][j]
  {
  }

  /** Every forbidden term is lower case, so looking for it in lower-cased
      text finds it whatever its case was in the original. */
  lemma ForbiddenTermsAreLowerCase()
    ensures forall k :: 0 <= k < |ForbiddenTerms| ==> Lower(ForbiddenTerms[k]) == ForbiddenTerms[k]
  {
    TermsLowerCase0To7();
    TermsLowerCase8To14();
    TermsLowerCase15To23();
    forall k | 0 <= k < |ForbiddenTerms| ensures Lower(ForbiddenTerms[k]) == ForbiddenTerms[k] {
      LowerFixesLowerCase(ForbiddenTerms[k]);
    }
  }

  /** Entries 0 to 7 (the six competition terms and the first two financial
      ones) have no capital letter. */
  lemma TermsLowerCase0To7()
    ensures forall k :: 0 <= k < 8 ==> IsLowerCase(ForbiddenTerms[k])
  {
  }

  /** Entries 8 to 14 (the last three financial terms and the four claim
      terms) have no capital letter. */
  lemma TermsLowerCase8To14()
    ensures forall k :: 8 <= k < 15 ==> IsLowerCase(ForbiddenTerms[k])
  {
  }

  /** Entries 15 to 23 (the sustainability terms) have no capital letter. */
  lemma TermsLowerCase15To23()
    ensures forall k :: 15 <= k < 24 ==> IsLowerCase(ForbiddenTerms[k])
  {
  }

  /** The bare asterisk is a forbidden term. */
  lemma AsteriskIsForbidden()
    ensures |ForbiddenTerms| == 24 && ForbiddenTerms[11] == "*"
  {
  }

  /** Eight price patterns: currency, percentage, pence, then the five keywords. */
  lemma PricePatternOrder()
    ensures |PricePatterns| == 8
    ensures PricePatterns[..3] == [CurrencyAmount, Percentage, Pence]
    ensures forall k :: 3 <= k < 8 ==> PricePatterns[k].Keyword?
    ensures [PricePatterns[3].word, PricePatterns[4].word, PricePatterns[5].word, PricePatterns[6].word, PricePatterns[7].word]
         == ["free", "discount", "deal", "offer", "sale"]
  {
  }

  /** Story formats reserve 200 pixels at the top and 250 at the bottom; the
      feed and landscape formats reserve nothing; no margin is negative. */
  lemma SafeZoneTable()
    ensures SafeZones.Keys == {"instagram_story", "facebook_feed", "landscape"}
    ensures SafeZones["instagram_story"] == SafeZone(200, 250)
    ensures SafeZones["facebook_feed"] == SafeZone(0, 0) && SafeZones["landscape"] == SafeZone(0, 0)
    ensures forall f :: f in SafeZones ==> SafeZones[f].top >= 0 && SafeZones[f].bottom >= 0
  {
  }

  /** After the rebinding only the two minimum sizes are left; the contrast
      ratio of the first binding is gone. */
  lemma EffectiveFontConstraints()
    ensures FontConstraints.Keys == {"min_size_brand", "min_size_social"}
    ensures "contrast_ratio" !in FontConstraints
    ensures FontConstraints["min_size_brand"] == 20 && FontConstraints["min_size_social"] == 10
  {
  }
}
