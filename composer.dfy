/** The placement arithmetic of `composer.py`: where `compose_creative` puts the
    logo, the product and its drop shadow, the badge and the two text lines, the
    line split and font size of `draw_premium_badge`, and the layer size and
    offset of `add_shadow`. Fractional factors are exact rationals, and `int()`
    of a non-negative product is its floor. */
module Composer {
  import opened Text
  import opened Wrappers
  import opened Imaging

  /** The format names the composer tests for. */
  const InstagramStory: string := "instagram_story"
  const FacebookFeed: string := "facebook_feed"

  /** A placed rectangle: top-left corner and size, in canvas pixels. */
  datatype Box = Box(x: int, y: int, w: int, h: int)

  /** Lies within the canvas columns `[0, W]`. */
  predicate WithinWidth(b: Box, W: int) {
    0 <= b.x && b.x + b.w <= W
  }

  /** The margins left and right of the box differ by at most one pixel, the
      odd pixel going to the right. */
  predicate HorizontallyCentred(b: Box, W: int) {
    var right := W - (b.x + b.w);
    b.x <= right <= b.x + 1
  }

  /** `max(1, n)` */
  function Max1(n: nat): nat {
    if n < 1 then 1 else n
  }

  /** The height `int(srcH * (target / max(1, srcW)))` of an image of size
      `srcW` x `srcH` resized to width `target`: the aspect ratio is kept,
      rounded down. */
  function ScaledHeight(srcW: nat, srcH: nat, target: nat): (h: nat)
    ensures h * Max1(srcW) <= srcH * target < (h + 1) * Max1(srcW)
  {
    var d := Max1(srcW);
    var q := srcH * target / d;
    assert srcH * target == q * d + srcH * target % d;
    q
  }

  /** Centring a width `w <= W` with `(W - w) // 2` centres it inside the canvas. */
  lemma CentredStart(W: nat, w: nat)
    requires w <= W
    ensures WithinWidth(Box((W - w) / 2, 0, w, 0), W)
    ensures HorizontallyCentred(Box((W - w) / 2, 0, w, 0), W)
  {
  }

  // ---------------------------------------------------------------------------
  // Logo

  /** The logo: 15% of the canvas width, aspect ratio kept, horizontally
      centred, its top at 5% of the height (8% on a story). */
  function LogoBox(W: nat, H: nat, fmt: string, logoW: nat, logoH: nat): (b: Box)
    ensures b.w * 100 <= 15 * W < (b.w + 1) * 100
    ensures b.h * Max1(logoW) <= logoH * b.w < (b.h + 1) * Max1(logoW)
    ensures WithinWidth(b, W) && HorizontallyCentred(b, W)
    ensures fmt == InstagramStory ==> b.y * 100 <= 8 * H < (b.y + 1) * 100
    ensures fmt != InstagramStory ==> b.y * 100 <= 5 * H < (b.y + 1) * 100
  {
    var lw := 15 * W / 100;
    var lh := ScaledHeight(logoW, logoH, lw);
    var y := if fmt != InstagramStory then 5 * H / 100 else 8 * H / 100;
    CentredStart(W, lw);
    Box((W - lw) / 2, y, lw, lh)
  }

  // ---------------------------------------------------------------------------
  // Product and its shadow

  /** The product width as a percentage of the canvas width. */
  function ProductPercent(fmt: string): (p: nat)
    ensures p < 100
  {
    if fmt == FacebookFeed then 40 else if fmt == InstagramStory then 60 else 25
  }

  /** The product: 40% of the width on the feed, 60% on a story and 25%
      otherwise, aspect ratio kept, horizontally centred, and vertically
      centred on 45% of the height (to within half a pixel). */
  function ProductBox(W: nat, H: nat, fmt: string, prodW: nat, prodH: nat): (b: Box)
    ensures b.w * 100 <= ProductPercent(fmt) * W < (b.w + 1) * 100
    ensures b.h >= 0 && b.h * Max1(prodW) <= prodH * b.w < (b.h + 1) * Max1(prodW)
    ensures WithinWidth(b, W) && HorizontallyCentred(b, W)
    ensures var c := 45 * H / 100; 2 * c <= 2 * b.y + b.h <= 2 * c + 1
  {
    var pw := ProductPercent(fmt) * W / 100;
    var ph := ScaledHeight(prodW, prodH, pw);
    CentredStart(W, pw);
    Box((W - pw) / 2, 45 * H / 100 - ph / 2, pw, ph)
  }

  /** What `add_shadow` returns, with where it pastes the silhouette. */
  datatype ShadowLayer = ShadowLayer(w: int, h: int, pasteX: int, pasteY: int, offset: int)

  /** `add_shadow` on a `w` x `h` image: a layer `2 * blur` larger in each
      direction, the silhouette pasted at `blur` plus the shadow offset, and
      the returned offset equal to the blur radius. */
  function AddShadow(w: nat, h: nat, offX: int, offY: int, blur: nat): (s: ShadowLayer)
    ensures s.offset == blur
    ensures s.w == w + 2 * blur && s.h == h + 2 * blur
    ensures 0 <= offX <= blur ==> 0 <= s.pasteX && s.pasteX + w <= s.w
    ensures 0 <= offY <= blur ==> 0 <= s.pasteY && s.pasteY + h <= s.h
  {
    var padding := blur * 2;
    ShadowLayer(w + padding, h + padding, padding / 2 + offX, padding / 2 + offY, padding / 2)
  }

  /** Placing the layer `offset` up and left of an image puts the silhouette
      exactly at the image shifted by the shadow offset. */
  lemma ShadowFollowsImage(x: int, y: int, w: nat, h: nat, offX: int, offY: int, blur: nat)
    ensures var s := AddShadow(w, h, offX, offY, blur);
            (x - s.offset) + s.pasteX == x + offX && (y - s.offset) + s.pasteY == y + offY
  {
  }

  // ---------------------------------------------------------------------------
  // Badge

  /** The badge radius: 9% of the canvas width. */
  function BadgeRadius(W: nat): (r: nat)
    ensures r * 100 <= 9 * W < (r + 1) * 100
  {
    9 * W / 100
  }

  /** Where the badge centre would go, left of the product: 1.5 radii on a
      story, 1.2 radii otherwise. */
  function PreferredBadgeX(fmt: string, px: int, r: nat): (bx: int)
    ensures fmt == InstagramStory ==> (px - bx) * 2 <= 3 * r < (px - bx + 1) * 2
    ensures fmt != InstagramStory ==> (px - bx) * 5 <= 6 * r < (px - bx + 1) * 5
    ensures r > 0 ==> bx < px
  {
    if fmt == InstagramStory then px - 3 * r / 2 else px - 6 * r / 5
  }

  /** The badge centre after the clamp `max(bx, r + 20)`: the badge's left
      edge keeps 20 pixels from the canvas edge, and the clamp only ever moves
      it right, and only as far as needed. */
  function BadgeX(fmt: string, px: int, r: nat): (bx: int)
    ensures bx - r >= 20
    ensures bx >= PreferredBadgeX(fmt, px, r)
    ensures bx == PreferredBadgeX(fmt, px, r) || bx == r + 20
  {
    var preferred := PreferredBadgeX(fmt, px, r);
    if preferred < r + 20 then r + 20 else preferred
  }

  /** The badge centre's height: a tenth of the product down on a story, a
      fifth otherwise, so within the product's rows. */
  function BadgeY(fmt: string, py: int, ph: nat): (cy: int)
    ensures py <= cy <= py + ph
    ensures fmt == InstagramStory ==> (cy - py) * 10 <= ph < (cy - py + 1) * 10
    ensures fmt != InstagramStory ==> (cy - py) * 5 <= ph < (cy - py + 1) * 5
  {
    if fmt == InstagramStory then py + ph / 10 else py + ph / 5
  }

  /** `int(radius * 0.4)`: the badge font size, smaller than the radius. */
  function BadgeFontSize(radius: nat): (fs: nat)
    ensures fs * 5 <= 2 * radius < (fs + 1) * 5
    ensures radius > 0 ==> fs < radius
  {
    2 * radius / 5
  }

  /** The two-line break of the badge words: the first line takes
      `len(words) // 2 + 1` words, the second the rest. */
  function SplitLines(words: seq<string>): (lines: (seq<string>, seq<string>))
    requires |words| > 1
    ensures lines.0 + lines.1 == words
    ensures |lines.1| < |lines.0| <= |lines.1| + 2
    ensures |words| == 2 ==> lines.1 == []
  {
    var cut := |words| / 2 + 1;
    assert words[..cut] + words[cut..] == words;
    (words[..cut], words[cut..])
  }

  /** The badge's text, before upper-casing: one line, or two lines split at
      word boundaries. */
  datatype BadgeText = OneLine(text: string) | TwoLines(top: string, bottom: string)

  /** The text layout of `draw_premium_badge`: more than one word goes on two
      lines, and splitting the two lines again gives back exactly the words of
      the text, with more of them on the top line; otherwise the text is drawn
      as it is. */
  function BadgeLines(text: string): (t: BadgeText)
    ensures t.TwoLines? <==> |Split(text)| > 1
    ensures t.TwoLines? ==> Split(t.top) + Split(t.bottom) == Split(text)
    ensures t.TwoLines? ==> |Split(t.bottom)| < |Split(t.top)|
    ensures t.TwoLines? ==> (Split(t.top), Split(t.bottom)) == SplitLines(Split(text))
    ensures t.TwoLines? ==> Join(Split(t.top)) == t.top && Join(Split(t.bottom)) == t.bottom
    ensures t.OneLine? ==> t.text == text
  {
    var words := Split(text);
    if |words| > 1 then
      var lines := SplitLines(words);
      SplitJoin(lines.0);
      SplitJoin(lines.1);
      TwoLines(Join(lines.0), Join(lines.1))
    else
      OneLine(text)
  }

  /** The lines as drawn, upper-cased: the same shape and the same letters up
      to case, with no small letter left. */
  function Drawn(t: BadgeText): (d: BadgeText)
    ensures d.OneLine? <==> t.OneLine?
    ensures d.OneLine? ==> Lower(d.text) == Lower(t.text) && NoSmallLetter(d.text)
    ensures d.TwoLines? ==> Lower(d.top) == Lower(t.top) && Lower(d.bottom) == Lower(t.bottom)
    ensures d.TwoLines? ==> NoSmallLetter(d.top) && NoSmallLetter(d.bottom)
  {
    match t
    case OneLine(s) => OneLine(Upper(s))
    case TwoLines(a, b) => TwoLines(Upper(a), Upper(b))
  }

  /** The bounding boxes `[x0, y0, x1, y1]` of the badge's two discs: the outer
      ring of the given radius and the inner circle inset by 4 pixels. Both
      are centred on the badge centre; the inner box is well formed exactly
      for a radius of at least 4, and then lies inside the outer one. */
  function BadgeDiscs(cx: int, cy: int, radius: nat): (discs: ((int, int, int, int), (int, int, int, int)))
    ensures var (o, i) := discs;
            && o.0 + o.2 == 2 * cx && o.1 + o.3 == 2 * cy && o.2 - o.0 == 2 * radius && o.3 - o.1 == 2 * radius
            && i.0 + i.2 == 2 * cx && i.1 + i.3 == 2 * cy
            && (radius >= 4 ==> o.0 <= i.0 <= i.2 <= o.2 && o.1 <= i.1 <= i.3 <= o.3)
            && (i.0 <= i.2 <==> radius >= 4) && (i.1 <= i.3 <==> radius >= 4)
  {
    var inset := 4;
    ((cx - radius, cy - radius, cx + radius, cy + radius),
     (cx - radius + inset, cy - radius + inset, cx + radius - inset, cy + radius - inset))
  }

  /** The middle heights of the two badge lines, `y - 0.6 * fs` and
      `y + 0.6 * fs`: symmetric about the centre, 1.2 font sizes apart. */
  function BadgeLineYs(cy: int, fontSize: nat): (ys: (real, real))
    ensures ys.0 + ys.1 == 2.0 * cy as real
    ensures ys.1 - ys.0 == 1.2 * fontSize as real
    ensures fontSize > 0 ==> ys.0 < cy as real < ys.1
  {
    (cy as real - fontSize as real * 0.6, cy as real + fontSize as real * 0.6)
  }

  /** A drawn badge: centre, radius, font size and lines. */
  datatype Badge = Badge(cx: int, cy: int, radius: nat, fontSize: nat, lines: BadgeText)

  // ---------------------------------------------------------------------------
  // Text

  /** A line of text anchored at its top centre. */
  datatype TextLine = TextLine(x: int, y: int, fontSize: nat, text: string)

  /** Headline font size: 4% of the height on a story, 6% otherwise, rounded down. */
  function HeadlineFontSize(H: nat, fmt: string): (fs: nat)
    ensures fmt == InstagramStory ==> fs * 100 <= 4 * H < (fs + 1) * 100
    ensures fmt != InstagramStory ==> fs * 100 <= 6 * H < (fs + 1) * 100
  {
    if fmt == InstagramStory then 4 * H / 100 else 6 * H / 100
  }

  /** Sub-line font size: 2.5% of the height on a story, 3.5% otherwise,
      rounded down; never larger than the headline's. */
  function SubFontSize(H: nat, fmt: string): (fs: nat)
    ensures fmt == InstagramStory ==> fs * 1000 <= 25 * H < (fs + 1) * 1000
    ensures fmt != InstagramStory ==> fs * 1000 <= 35 * H < (fs + 1) * 1000
    ensures fs <= HeadlineFontSize(H, fmt)
  {
    if fmt == InstagramStory then 25 * H / 1000 else 35 * H / 1000
  }

  /** The headline's top: 80 pixels under the product on a story, 60 otherwise. */
  function HeadlineTop(fmt: string, productBottom: int): (y: int)
    ensures fmt == InstagramStory ==> y == productBottom + 80
    ensures fmt != InstagramStory ==> y == productBottom + 60
    ensures y >= productBottom + 60
  {
    productBottom + (if fmt == InstagramStory then 80 else 60)
  }

  // ---------------------------------------------------------------------------
  // The whole creative

  /** Every coordinate `compose_creative` passes to the drawing calls. */
  datatype Layout = Layout(
    logo: Box,
    product: Box,
    shadowOrigin: (int, int),
    shadow: ShadowLayer,
    badge: Option<Badge>,
    headline: TextLine,
    subline: TextLine)

  /** Why `compose_creative` fails. Pillow refuses to resize an image to a
      zero width or height other than its own size, which happens when the
      logo or the product would be scaled to less than one pixel. It also
      refuses to draw an ellipse whose box has its right edge left of its
      left edge, which is what the badge's inner disc gets for a radius
      below the 4 pixel inset. */
  datatype ComposeError = EmptyResize | InvertedEllipse

  /** One of the two resizes of `compose_creative` is refused. */
  predicate ResizesRefused(W: nat, H: nat, fmt: string, logoW: nat, logoH: nat, prodW: nat, prodH: nat) {
    var logo, product := LogoBox(W, H, fmt, logoW, logoH), ProductBox(W, H, fmt, prodW, prodH);
    ResizeRefused(logoW, logoH, logo.w, logo.h) || ResizeRefused(prodW, prodH, product.w, product.h)
  }

  /** The placements of `compose_creative` on a `W` x `H` background for a
      logo of `logoW` x `logoH` and a product of `prodW` x `prodH`. It fails
      exactly when a resize is refused, or when there is call-to-action text
      and the badge radius is below 4. Otherwise the logo and the product are
      LogoBox and ProductBox, centred and within the canvas width; the shadow
      is the product's silhouette 20 pixels lower in a layer 40 pixels larger;
      a badge of radius BadgeRadius, centred at BadgeX and BadgeY, is drawn
      exactly when there is call-to-action text, inside the product's rows and
      clear of the left edge; the headline starts HeadlineTop below the
      product and the sub-line 15 pixels below the headline's font size, both
      centred. */
  function ComposeLayout(W: nat, H: nat, fmt: string, logoW: nat, logoH: nat, prodW: nat, prodH: nat,
                         mainMessage: string, subMessage: string, ctaText: string): (r: Result<Layout, ComposeError>)
    ensures r == Failure(EmptyResize) <==> ResizesRefused(W, H, fmt, logoW, logoH, prodW, prodH)
    ensures r == Failure(InvertedEllipse) <==>
              !ResizesRefused(W, H, fmt, logoW, logoH, prodW, prodH) && ctaText != [] && BadgeRadius(W) < 4
    ensures r.Success? ==> r.value.logo == LogoBox(W, H, fmt, logoW, logoH)
    ensures r.Success? ==> r.value.product == ProductBox(W, H, fmt, prodW, prodH)
    ensures r.Success? && (r.value.logo.w == 0 || r.value.logo.h == 0) ==>
              r.value.logo.w == logoW && r.value.logo.h == logoH
    ensures r.Success? && (r.value.product.w == 0 || r.value.product.h == 0) ==>
              r.value.product.w == prodW && r.value.product.h == prodH
    ensures r.Success? ==> WithinWidth(r.value.logo, W) && HorizontallyCentred(r.value.logo, W)
    ensures r.Success? ==> WithinWidth(r.value.product, W) && HorizontallyCentred(r.value.product, W)
    ensures r.Success? ==> r.value.shadow == AddShadow(r.value.product.w, r.value.product.h, 0, 20, 20)
    ensures r.Success? ==> r.value.shadow.w == r.value.product.w + 40 && r.value.shadow.h == r.value.product.h + 40
    ensures r.Success? ==> r.value.shadowOrigin.0 + r.value.shadow.pasteX == r.value.product.x
    ensures r.Success? ==> r.value.shadowOrigin.1 + r.value.shadow.pasteY == r.value.product.y + 20
    ensures r.Success? ==> (r.value.badge.Some? <==> ctaText != [])
    ensures r.Success? && r.value.badge.Some? ==>
              var b := r.value.badge.value;
              && b.radius == BadgeRadius(W) && b.radius >= 4
              && b.cx == BadgeX(fmt, r.value.product.x, b.radius)
              && b.cy == BadgeY(fmt, r.value.product.y, r.value.product.h)
              && b.fontSize == BadgeFontSize(b.radius)
    ensures r.Success? && r.value.badge.Some? ==> r.value.badge.value.cx - r.value.badge.value.radius >= 20
    ensures r.Success? && r.value.badge.Some? ==>
              r.value.product.y <= r.value.badge.value.cy <= r.value.product.y + r.value.product.h
    ensures r.Success? && r.value.badge.Some? ==> r.value.badge.value.lines == Drawn(BadgeLines(ctaText))
    ensures r.Success? ==> r.value.headline.y == HeadlineTop(fmt, r.value.product.y + r.value.product.h)
    ensures r.Success? ==>
              r.value.headline.fontSize == HeadlineFontSize(H, fmt) && r.value.subline.fontSize == SubFontSize(H, fmt)
    ensures r.Success? ==> r.value.subline.y == r.value.headline.y + r.value.headline.fontSize + 15
    ensures r.Success? ==> r.value.headline.y > r.value.product.y + r.value.product.h
    ensures r.Success? ==>
              r.value.headline.x == r.value.subline.x && 2 * r.value.headline.x <= W <= 2 * r.value.headline.x + 1
    ensures r.Success? ==> r.value.headline.text == Upper(mainMessage) && r.value.subline.text == subMessage
  {
    var logo := LogoBox(W, H, fmt, logoW, logoH);
    var product := ProductBox(W, H, fmt, prodW, prodH);
    if ResizesRefused(W, H, fmt, logoW, logoH, prodW, prodH) then
      Failure(EmptyResize)
    else
      var shadow := AddShadow(product.w, product.h, 0, 20, 20);
      var shadowOrigin := (product.x - shadow.offset, product.y - shadow.offset);
      var radius := BadgeRadius(W);
      var bx := BadgeX(fmt, product.x, radius);
      var cy := BadgeY(fmt, product.y, product.h);
      var inner := BadgeDiscs(bx, cy, radius).1;
      if ctaText != [] && inner.2 < inner.0 then
        Failure(InvertedEllipse)
      else
        var badge := if ctaText != [] then Some(Badge(bx, cy, radius, BadgeFontSize(radius), Drawn(BadgeLines(ctaText)))) else None;
        var top := HeadlineTop(fmt, product.y + product.h);
        var fsMain := HeadlineFontSize(H, fmt);
        Success(Layout(logo, product, shadowOrigin, shadow, badge,
                       TextLine(W / 2, top, fsMain, Upper(mainMessage)),
                       TextLine(W / 2, top + fsMain + 15, SubFontSize(H, fmt), subMessage)))
  }
}
