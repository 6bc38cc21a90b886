# CREO for retail: a Dafny model of the creative back end

CREO builds retail advertising creatives: a product photo and a brand logo on
a coloured background, with a headline, a sub-line and a round "badge"
showing the call-to-action. This project models the core of its Python back
end and proves properties of that model:

- the **compliance scan** of the copy (`validator.py`), driven by the rule
  tables of `compliance_rules.py`. It reports every forbidden term found
  anywhere in the lower-cased copy, then at most one price error from the
  price patterns (currency amounts, percentages, pence and five keywords);
- the **placement arithmetic** of `composer.py`: the logo, the product and
  its drop shadow (`add_shadow`), the badge's position, discs, line split and
  font size (`draw_premium_badge`), and the two text lines;
- the **colour-key background removal** `remove_bg_simple`
  (`background_removal.py`), as a loop over the pixel data;
- the **product sizing** `normalize_product` (`product_normalizer.py`),
  including its division by zero for a zero-width image and the error of
  resizing to an empty image;
- the **input normalisation** of the `/extract` handler (`main.py`);
- the **background choice** `generate_background` (`background_generator.py`).

Modules, one per source file plus shared helpers:

- `Wrappers`: `Option` and `Result`.
- `Imaging`: bytes, RGB colours, RGBA pixels and the sizes PIL refuses to resize to.
- `Text`: the Python string built-ins the core uses, written out. These are
  `lower`, `upper`, `in`, `strip`, `split` and `" ".join`.
- `ComplianceRules`: the rule tables.
- `PriceMatch`: each price regular expression as the set of matches it
  accepts, plus the plain character test it amounts to.
- `Validator`: the scan.
- `Composer`: the layout.
- `BackgroundRemoval`, `ProductNormalizer`, `Extract` and `BackgroundGenerator`.

Fractional factors such as `W * 0.15` are modelled as exact rationals. So
`int(W * 0.15)` is `15 * W / 100`, because `int()` of a non-negative number
is its floor.

PIL's `resize` answers a target of the image's own size with a copy and
refuses any other target with a zero width or height. Both
`normalize_product` and `compose_creative` can ask for one, for example for a
very flat image whose height rounds down to zero. The model returns an
`EmptyResize` failure in that case. PIL also refuses to draw an ellipse whose
box is inverted. The badge's inner disc, inset by 4 pixels, gets such a box
when the badge radius is below 4 (a canvas narrower than 45 pixels). The model
returns an `InvertedEllipse` failure when a badge is drawn with such a radius.

## Model

| member | source | states |
|---|---|---|
| Imaging.ResizeRefused | backend/product_normalizer.py:7 | PIL refuses a resize only to a target other than the image's own size, and never to a target with positive sizes |
| ComplianceRules.TagAllowList | backend/compliance_rules.py:4-13 | the tag allow-list is one key holding six distinct lines |
| ComplianceRules.ForbiddenTermsAreLowerCase | backend/compliance_rules.py:15-24 | every one of the forbidden terms is already lower case, so matching against lower-cased copy finds them in any case |
| ComplianceRules.AsteriskIsForbidden | backend/compliance_rules.py:21 | the table has 24 terms and the bare `*` is one of them |
| ComplianceRules.PricePatternOrder | backend/compliance_rules.py:26-35 | eight patterns: currency, percentage, pence, then the keywords free, discount, deal, offer, sale in that order |
| ComplianceRules.SafeZoneTable | backend/compliance_rules.py:37-41 | a story reserves 200 px at the top and 250 px at the bottom; feed and landscape reserve nothing; no margin is negative |
| ComplianceRules.EffectiveFontConstraints | backend/compliance_rules.py:43-52 | the second binding replaces the first, so only the two minimum sizes (20 and 10) remain and the contrast ratio is gone |
| PriceMatch.CurrencySearchIff | backend/compliance_rules.py:27 | the currency pattern matches iff `$`, `£` or `€` is directly followed by a digit (both directions) |
| PriceMatch.PercentSearchIff | backend/compliance_rules.py:28 | the percentage pattern matches iff some digit is directly followed by `%` (both directions) |
| PriceMatch.PenceSearchIff | backend/compliance_rules.py:29 | the pence pattern matches iff some digit is directly followed by `p` (both directions), so "2p" matches |
| PriceMatch.Search | backend/compliance_rules.py:27-34 | a keyword pattern matches only text containing the keyword, and the three numeric patterns only text containing a digit |
| PriceMatch.KeywordInPart | backend/compliance_rules.py:30-34 | a keyword standing as a word in a part stays a match in any text holding that part between non-word characters |
| PriceMatch.KeywordInJoined | backend/validator.py:9-18 | a keyword standing as a word in one of the three messages is found in the messages joined by single spaces |
| PriceMatch.KeywordNeedsBoundaries | backend/compliance_rules.py:30-34 | a keyword needs a word boundary on both sides: "sale" does not match "salesman" and does match "big sale" |
| Validator.ForbiddenMessage | backend/validator.py:14 | a term's error starts with "Hard Fail: " and quotes the term, which can be read back out at a fixed place |
| Validator.PriceMessageIsHardFail | backend/validator.py:19 | the price error starts with "Hard Fail: " too |
| Validator.ScannedText | backend/validator.py:9 | the scanned copy is two characters longer than the three messages together and holds no capital letter |
| Validator.ValidateTextContent | backend/validator.py:5-25 | the scan returns one error per forbidden term found, in table order, then the price error once if any pattern matches; valid iff there are no errors; warnings are always empty |
| Validator.CollectTermErrors | backend/validator.py:12-14 | the term loop collects one error per table term that occurs in the copy, in table order |
| Validator.FindPriceMatch | backend/validator.py:17-20 | the price loop reports a match iff some pattern of the list matches the copy |
| Validator.ValidIff | backend/validator.py:9-25 | the copy is valid iff no forbidden term occurs in the lower-cased joined copy and no price pattern matches it |
| Validator.TermErrorsAppend | backend/validator.py:12-14 | the term errors of a table split in two are those of the first part followed by those of the second, so errors keep table order |
| Validator.TermErrorCount | backend/validator.py:12-14 | the number of term errors equals the number of table entries found in the copy, and is at most the table size |
| Validator.ForbiddenMessageInjective | backend/validator.py:14 | different terms give different error messages |
| Validator.TermErrorsSound | backend/validator.py:12-14 | every term error names a table term that occurs in the copy |
| Validator.TermErrorIff | backend/validator.py:12-14 | a table term's error is reported iff that term occurs in the copy |
| Validator.PriceMessageDiffers | backend/validator.py:14-19 | the price error is never one of the term errors' texts |
| Validator.PriceMessageNotATermError | backend/validator.py:12-19 | no term error produced by the loop can be mistaken for the price error |
| Validator.ErrorCountBound | backend/validator.py:12-20 | a report has at most 24 + 1 errors |
| Validator.PriceErrorAtMostOnce | backend/validator.py:17-20 | the price error occurs exactly once when some pattern matches and not at all otherwise, because of the `break` |
| Validator.CaseInsensitive | backend/validator.py:9 | the report for the messages equals the report for their lower-cased forms |
| Validator.LowerAll | backend/validator.py:9 | the scanned copy is the three lower-cased messages joined by single spaces |
| Validator.InScannedText | backend/validator.py:9 | anything occurring in one of the messages occurs, lower-cased, in the scanned copy |
| Validator.ForbiddenTermInAnyCase | backend/validator.py:9-14 | a forbidden term written in any mix of cases in any message is reported and makes the copy invalid |
| Validator.AsteriskInvalidates | backend/validator.py:12-14 | an asterisk in any message is reported and invalidates the copy |
| Validator.SubstringMatching | backend/validator.py:13 | matching is by substring: the headline "Evergreen" is reported for "green" |
| Validator.PercentInvalidates | backend/validator.py:17-20 | a digit followed by `%` in any message produces the price error and invalidates the copy |
| Validator.KeywordInvalidates | backend/validator.py:9-20 | any of the five keywords standing as a word in any lower-cased message produces the price error and invalidates the copy |
| Validator.PercentScenario | backend/validator.py:17-20 | the sub-line "20% off this week" is rejected as a price call-out |
| Validator.ValidateLayout | backend/validator.py:27-30 | the layout check accepts every layout |
| Composer.ScaledHeight | backend/composer.py:103-104 | resizing to a target width keeps the aspect ratio, rounded down, with the width guarded by `max(1, …)` |
| Composer.CentredStart | backend/composer.py:109 | `(W - w) // 2` puts a width `w <= W` inside the canvas with margins differing by at most one pixel |
| Composer.LogoBox | backend/composer.py:102-109 | the logo is 15% of the width (floor), keeps its aspect ratio, is centred and within the canvas width, its top at 8% of the height on a story and 5% otherwise |
| Composer.ProductPercent | backend/composer.py:114-119 | the product width percentage is below 100, so the product fits the canvas |
| Composer.ProductBox | backend/composer.py:114-132 | the product is ProductPercent of the width (40% on the feed, 60% on a story, 25% otherwise), keeps its aspect ratio, is centred and within the canvas width, with its middle at ⌊0.45·H⌋ to within half a pixel |
| Composer.AddShadow | backend/composer.py:16-44 | the shadow layer is `2 * blur` larger in each direction, the returned offset is the blur radius, and an offset up to the blur keeps the silhouette inside the layer |
| Composer.ShadowFollowsImage | backend/composer.py:135-137 | pasting the layer `offset` up-left of the product puts the silhouette exactly at the product moved by the shadow offset |
| Composer.BadgeRadius | backend/composer.py:142 | the badge radius is 9% of the width, rounded down |
| Composer.PreferredBadgeX | backend/composer.py:144-150 | before the clamp the badge centre is ⌊1.5·radius⌋ (story) or ⌊1.2·radius⌋ (otherwise) left of the product's left edge, so strictly left of it for a positive radius |
| Composer.BadgeX | backend/composer.py:144-153 | after the clamp the badge's left edge is at least 20 px from the canvas edge; the clamp only moves it right, and only to `r + 20` |
| Composer.BadgeY | backend/composer.py:144-150 | the badge centre is a tenth (story) or a fifth (otherwise) of the product height below its top, so within the product's rows |
| Composer.BadgeFontSize | backend/composer.py:67 | the badge font size is 0.4 of the radius, rounded down, so smaller than the radius |
| Composer.SplitLines | backend/composer.py:72-74 | the two lines hold all the words in order, the first line has more words than the second, and two words leave the second line empty |
| Composer.BadgeLines | backend/composer.py:70-81 | text with more than one word goes on two lines: the first holds the first `len(words)//2 + 1` words and the second the rest (as SplitLines cuts them), each line is its words joined by single spaces, and together they read back as exactly the text's words; otherwise the text is drawn as it is |
| Composer.Drawn | backend/composer.py:78-81 | the badge lines are drawn upper-cased: the same one- or two-line shape, the same letters up to case, and no small letter left |
| Composer.BadgeDiscs | backend/composer.py:55-64 | both discs are centred on the badge centre, the outer one has the badge radius; the inner box is well formed iff the radius is at least 4, and then lies inside the outer one |
| Composer.BadgeLineYs | backend/composer.py:78-79 | the two badge lines sit symmetrically about the centre, 1.2 font sizes apart |
| Composer.HeadlineFontSize | backend/composer.py:163-168 | the headline font is ⌊0.04·H⌋ on a story and ⌊0.06·H⌋ otherwise |
| Composer.SubFontSize | backend/composer.py:163-169 | the sub-line font is ⌊0.025·H⌋ on a story and ⌊0.035·H⌋ otherwise, never larger than the headline font |
| Composer.HeadlineTop | backend/composer.py:163-170 | the headline starts exactly 80 px below the product on a story and 60 px otherwise |
| Composer.ComposeLayout | backend/composer.py:84-184 | the composition fails with EmptyResize iff the resize of the logo (line 105) or the product (line 123) is refused, and with InvertedEllipse iff neither is refused, there is call-to-action text and the badge radius is below 4; otherwise the logo is LogoBox and the product ProductBox, an empty one only as an unchanged copy, both centred within the width; the shadow is AddShadow of the product; the shadow is 40 px larger and its silhouette sits 20 px below the product; a badge is drawn iff the call-to-action is non-empty, with radius BadgeRadius (at least 4), centre BadgeX and BadgeY and font size BadgeFontSize, clear of the left edge, within the product rows, with the upper-cased split lines; the headline starts HeadlineTop below the product in the HeadlineFontSize font, the sub-line 15 px under the headline's font size in the SubFontSize font, both centred; the headline is upper-cased |
| Text.Strip | backend/main.py:35-41 | `strip` removes a whitespace-only prefix and suffix and leaves neither end whitespace |
| Text.StripIdempotent | backend/main.py:35-38 | stripping twice is stripping once |
| Text.StripEmptyIffAllSpace | backend/main.py:38 | a string strips to empty iff it is whitespace only |
| Text.Lower | backend/validator.py:9 | lower-casing keeps the length, leaves no capital letter and keeps every character that is not a capital |
| Text.Upper | backend/composer.py:78-81 | upper-casing keeps the length, leaves no small letter, keeps every character that is not a small letter, and changes the letters only in case |
| Text.IsSpace | backend/main.py:35-41 | the whitespace of `strip()` and `split()` includes the ASCII space, tab, newline, vertical tab, form feed and carriage return, and no whitespace character is a word character |
| Text.IsSubstring | backend/validator.py:13 | `pat in text`: the empty string is in every string, every string is in itself, and a match is never longer than the text |
| Text.LowerIdempotent | backend/validator.py:9 | lower-casing twice is lower-casing once |
| Text.Split | backend/composer.py:71 | `split()` yields non-empty words with no whitespace |
| Text.SplitSkipsSpace | backend/composer.py:71 | whitespace in front of a string does not change the words `split()` finds |
| Text.Join | backend/composer.py:73-74 | `" ".join` starts with the first word and every word occurs in the joined line |
| Text.SplitJoin | backend/composer.py:73-74 | joining well-formed words with spaces and splitting again gives back the same words |
| BackgroundRemoval.NearKey | backend/background_removal.py:14-18 | a pixel is never near the key for a tolerance of zero or less, and the key colour itself always is for a positive tolerance |
| BackgroundRemoval.KeyPixel | backend/background_removal.py:14-21 | keying a pixel keeps its colour channels; its alpha becomes 0 iff it is near the key colour or already 0, and a pixel not near the key is unchanged |
| BackgroundRemoval.RemoveBg | backend/background_removal.py:12-21 | the keyed pixel data has the same length, no pixel gains opacity, and each pixel either is unchanged or is made fully transparent with its colour kept |
| BackgroundRemoval.RemoveBgSimple | backend/background_removal.py:8-24 | the new pixel data is every pixel of the image in order, keyed against the colour with the tolerance, in a fresh array |
| BackgroundRemoval.RemoveBgPixels | backend/background_removal.py:13-21 | same number of pixels and same colour channels; alpha becomes 0 iff every channel is strictly within the tolerance of the key, and is kept otherwise |
| BackgroundRemoval.ToleranceIsStrict | backend/background_removal.py:8-21 | with the defaults (white, 20) a channel exactly 20 away keeps its alpha, one 19 away loses it |
| BackgroundRemoval.RemoveBgIdempotent | backend/background_removal.py:13-21 | keying an already keyed image changes nothing |
| BackgroundRemoval.NonPositiveToleranceKeepsAll | backend/background_removal.py:14-18 | with a tolerance of zero or less no pixel is keyed |
| ProductNormalizer.Place | backend/product_normalizer.py:4-10 | for a non-zero product width: the width is 45% (below 1500 px height) or 55% of the canvas width, rounded down, the aspect ratio is kept (rounded down), the product is centred within the canvas width, and its top is at a quarter of the height |
| ProductNormalizer.ScalePercent | backend/product_normalizer.py:4 | the scale is 45% exactly below a canvas height of 1500 px, and 55% otherwise |
| ProductNormalizer.NormalizeProduct | backend/product_normalizer.py:3-12 | a zero-width image is exactly the division-by-zero error; a placement PIL refuses to resize to (a zero width or height other than the image's own size) is exactly the empty-resize error; every other image gets the placement of Place, empty only as a copy of an empty image |
| ProductNormalizer.EmptyResizeCases | backend/product_normalizer.py:6-7 | a 1000 x 1 product on a 1000 x 1000 canvas is refused; a 1 x 0 product on a 3 px wide canvas is kept as it is |
| ProductNormalizer.TopIgnoresProductSize | backend/product_normalizer.py:5-10 | two products on the same canvas get the same width, left edge and top whatever their sizes |
| Extract.OptionalField | backend/main.py:39-41 | a missing or empty optional field stays missing; anything else is stripped |
| Extract.StyleField | backend/main.py:38 | the style is never empty and has no whitespace at either end; it is "clean" iff the stripped style is empty or "clean", and otherwise the stripped style |
| Extract.ExtractSpec | backend/main.py:19-44 | every text of the spec is stripped; the style is never empty and is "clean" iff the stripped style is empty or "clean"; the optional fields follow OptionalField |
| Extract.StyleDefault | backend/main.py:38 | the style falls back to "clean" exactly when it is whitespace only, and otherwise is the stripped style |
| Extract.BlankOptionalIsKept | backend/main.py:39-41 | a whitespace-only optional field comes out as `""`, not as missing |
| Extract.ReExtract | backend/main.py:34-42 | normalising a spec again leaves its three messages and its style unchanged |
| Extract.OptionalTwice | backend/main.py:39-41 | normalising an optional field twice equals once iff the first pass did not leave `""` |
| BackgroundGenerator.GenerateBackground | backend/background_generator.py:3-12 | the background has the requested size, is blue or pink for those style names and the default light blue for any other |
| BackgroundGenerator.ColoursIdentifyStyle | backend/background_generator.py:3-10 | the background is blue iff the style is "blue", and pink iff it is "pink" |

## Left out

- Text.Lower, Text.Upper: only ASCII letters change case; Python's full Unicode case mapping is not modelled.
- PriceMatch.Search: `\d` is read as an ASCII digit and `\b`, `\w` as ASCII word characters; Python's Unicode classes are wider.
- Floating point: products such as `W * 0.15`, `ph * 0.1` and `radius * 0.4` are exact rationals, so a result at a rounding edge can differ by one pixel from IEEE-754 arithmetic.
- Drawing and image processing are not modelled beyond the coordinates they get: PIL resizing, pasting, Gaussian blur, the shadow's colour and alpha, the gold colours, font loading and its fallback, and text anchoring.
- Composer.BadgeLineYs: the heights `y ± font_size * 0.6` are exact reals, not the floats PIL receives.
- Composer.ComposeLayout: the `remove_bg` calls on the product and logo are assumed to keep the image sizes. A failure carries only its kind; PIL's exception text is not modelled. Drawing and pasting an empty image, the shadow of an empty product and loading a font of size 0 are assumed not to fail. The HTTP spec dictionary is passed as its three text fields.
- `remove_bg` and the `rembg` model it calls are a foreign library. Only the colour-key fallback `remove_bg_simple` is modelled.
- BackgroundRemoval.RemoveBgSimple: `img.convert("RGBA")` of other image modes is not modelled. The input is taken as RGBA pixel data already, and the method writes the result to a fresh array where the source's `putdata` overwrites the converted copy.
- The FastAPI layer is not modelled: routing, CORS, form parsing, the `Form` defaults and JSON encoding. Extract.ExtractSpec takes the already-parsed fields, with a missing field as `None`.
- The `/generate-images` handler and `generate_creatives.py` are not part of this model (file I/O and orchestration). As written, `generate_all` passes a `custom_color` keyword that `generate_background` does not accept.
- `ai_agent.py`, `models.py`, `exporter.py`, `layout_templates.py` and the front end are not part of this model.
- `SAFE_ZONES`, `FONT_CONSTRAINTS` and `REQUIRED_TEXT_PATTERNS` are tables that nothing in the core reads. Only their contents are stated.
- Validator.ValidateLayout: the source's placeholder always returns true, so there is no geometric check to model.
- Extract.ExtractSpec: that the spec has exactly seven keys holds by construction of the `CreativeSpec` datatype and is not stated as a lemma.
