/** The `/extract` handler of `main.py`: the raw form fields of a request
    normalised into one creative spec. */
module Extract {
  import opened Text
  import opened Wrappers

  /** The spec dictionary: exactly its seven keys, one field each. */
  datatype CreativeSpec = CreativeSpec(
    mainMessage: string,
    subMessage: string,
    ctaText: string,
    style: string,
    backgroundColor: Option<string>,
    badgeColor: Option<string>,
    badgeShape: Option<string>)

  /** `v.strip() if v else None`: a missing or empty field stays missing,
      anything else is stripped, so a whitespace-only field becomes `""`. */
  function OptionalField(v: Option<string>): (r: Option<string>)
    ensures r.None? <==> (v.None? || v == Some(""))
    ensures r.Some? ==> r.value == Strip(v.value)
  {
    match v
    case None => None
    case Some(s) => if s == "" then None else Some(Strip(s))
  }

  /** `style.strip() or "clean"`: the stripped style, or "clean" when that is
      empty. */
  function StyleField(style: string): (r: string)
    ensures r != "" && IsTrimmed(r)
    ensures r == "clean" <==> (Strip(style) == "" || Strip(style) == "clean")
    ensures Strip(style) != "" ==> r == Strip(style)
  {
    var s := Strip(style);
    if s == "" then "clean" else s
  }

  /** `extract`: the three messages stripped, the style stripped with "clean"
      standing in for an empty one, and the three optional fields as
      OptionalField leaves them. Every text in the result has no whitespace
      at either end and the style is never empty. */
  function ExtractSpec(mainMessage: string, subMessage: string, ctaText: string, style: string,
                       backgroundColor: Option<string>, badgeColor: Option<string>, badgeShape: Option<string>): (r: CreativeSpec)
    ensures IsTrimmed(r.mainMessage) && IsTrimmed(r.subMessage) && IsTrimmed(r.ctaText) && IsTrimmed(r.style)
    ensures r.style != ""
    ensures r.style == "clean" <==> (Strip(style) == "" || Strip(style) == "clean")
    ensures r.mainMessage == Strip(mainMessage) && r.subMessage == Strip(subMessage) && r.ctaText == Strip(ctaText)
    ensures r.backgroundColor == OptionalField(backgroundColor)
    ensures r.badgeColor == OptionalField(badgeColor)
    ensures r.badgeShape == OptionalField(badgeShape)
  {
    CreativeSpec(
      Strip(mainMessage),
      Strip(subMessage),
      Strip(ctaText),
      StyleField(style),
      OptionalField(backgroundColor),
      OptionalField(badgeColor),
      OptionalField(badgeShape))
  }

  /** The style falls back to "clean" exactly when it is whitespace only. */
  lemma StyleDefault(style: string)
    ensures AllSpace(style) ==> ExtractSpec("", "", "", style, None, None, None).style == "clean"
    ensures !AllSpace(style) ==> ExtractSpec("", "", "", style, None, None, None).style == Strip(style)
  {
    StripEmptyIffAllSpace(style);
  }

  /** A whitespace-only optional field is kept as `""`, not dropped. */
  lemma BlankOptionalIsKept(v: string)
    requires v != "" && AllSpace(v)
    ensures OptionalField(Some(v)) == Some("")
  {
    StripEmptyIffAllSpace(v);
  }

  /** Normalising a second time leaves the three messages and the style as
      they are; the optional fields behave as OptionalTwice says. */
  lemma ReExtract(mainMessage: string, subMessage: string, ctaText: string, style: string,
                  backgroundColor: Option<string>, badgeColor: Option<string>, badgeShape: Option<string>)
    ensures var r := ExtractSpec(mainMessage, subMessage, ctaText, style, backgroundColor, badgeColor, badgeShape);
            var again := ExtractSpec(r.mainMessage, r.subMessage, r.ctaText, r.style, r.backgroundColor, r.badgeColor, r.badgeShape);
            && again.mainMessage == r.mainMessage && again.subMessage == r.subMessage
            && again.ctaText == r.ctaText && again.style == r.style
  {
    var r := ExtractSpec(mainMessage, subMessage, ctaText, style, backgroundColor, badgeColor, badgeShape);
    StripIdempotent(mainMessage);
    StripIdempotent(subMessage);
    StripIdempotent(ctaText);
    TrimmedIsFixed(r.style);
  }

  /** Normalising an optional field twice is normalising it once, unless the
      first pass left `""`. */
  lemma OptionalTwice(v: Option<string>)
    ensures OptionalField(OptionalField(v)) == OptionalField(v) <==> OptionalField(v) != Some("")
  {
    if v.Some? && v.value != "" {
      StripIdempotent(v.value);
    }
  }
}
