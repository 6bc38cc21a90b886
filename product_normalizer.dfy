/** `product_normalizer.py`: the size and position `normalize_product` gives a
    product image on a `W` x `H` canvas. */
module ProductNormalizer {
  import opened Wrappers
  import opened Imaging

  /** The resized product's size and its top-left corner. */
  datatype Placement = Placement(w: nat, h: nat, x: int, y: int)

  /** How `normalize_product` fails: a zero-width product image makes
      `product.height * new_w / product.width` divide by zero, and Pillow
      refuses a resize to a zero width or height other than the image's own
      size. */
  datatype NormalizeError = ZeroDivision | EmptyResize

  /** The scale, in percent of the canvas width: 45 below a height of 1500
      pixels, 55 from there on. */
  function ScalePercent(H: nat): (p: nat)
    ensures p == 45 || p == 55
    ensures p == 45 <==> H < 1500
  {
    if H < 1500 then 45 else 55
  }

  /** The size and position computed for a product of non-zero width: 45% (or
      55%) of the canvas width, the aspect ratio kept (rounded down),
      horizontally centred within the canvas, its top at a quarter of the
      height. */
  function Place(prodW: nat, prodH: nat, W: nat, H: nat): (p: Placement)
    requires prodW > 0
    ensures p.w * 100 <= ScalePercent(H) * W < (p.w + 1) * 100
    ensures p.w <= W
    ensures p.h * prodW <= prodH * p.w < (p.h + 1) * prodW
    ensures 0 <= p.x && p.x + p.w <= W
    ensures p.x <= W - (p.x + p.w) <= p.x + 1
    ensures p.y * 4 <= H < (p.y + 1) * 4
  {
    var newW := W * ScalePercent(H) / 100;
    var product := prodH * newW;
    var newH := product / prodW;
    assert product == newH * prodW + product % prodW;
    Placement(newW, newH, (W - newW) / 2, H / 4)
  }

  /** `normalize_product`: a zero-width image is a division by zero; a
      placement whose width or height rounds down to zero cannot be resized,
      unless it is the image's own size; otherwise the product gets the
      placement `Place` computes. An empty result is only ever a copy of an
      empty image. */
  function NormalizeProduct(prodW: nat, prodH: nat, W: nat, H: nat): (r: Result<Placement, NormalizeError>)
    ensures r == Failure(ZeroDivision) <==> prodW == 0
    ensures r == Failure(EmptyResize) <==>
              prodW > 0 && ResizeRefused(prodW, prodH, Place(prodW, prodH, W, H).w, Place(prodW, prodH, W, H).h)
    ensures r.Success? ==> prodW > 0 && r.value == Place(prodW, prodH, W, H)
    ensures r.Success? && (r.value.w == 0 || r.value.h == 0) ==> r.value.w == prodW && r.value.h == prodH
  {
    if prodW == 0 then
      Failure(ZeroDivision)
    else
      var p := Place(prodW, prodH, W, H);
      if ResizeRefused(prodW, prodH, p.w, p.h) then Failure(EmptyResize) else Success(p)
  }

  /** A very flat product is scaled to no rows at all and cannot be resized;
      a 1 x 0 image on a 3 pixel wide canvas already has its target size and
      is kept as it is. */
  lemma EmptyResizeCases()
    ensures NormalizeProduct(1000, 1, 1000, 1000) == Failure(EmptyResize)
    ensures NormalizeProduct(1, 0, 3, 100) == Success(Placement(1, 0, 1, 25))
  {
  }

  /** The width and the position depend on the canvas only: two products of
      any sizes placed on the same canvas get the same width, the same left
      edge and the same top. */
  lemma TopIgnoresProductSize(w1: nat, h1: nat, w2: nat, h2: nat, W: nat, H: nat)
    requires w1 > 0 && w2 > 0
    ensures Place(w1, h1, W, H).y == Place(w2, h2, W, H).y
    ensures Place(w1, h1, W, H).x == Place(w2, h2, W, H).x
    ensures Place(w1, h1, W, H).w == Place(w2, h2, W, H).w
  {
  }
}
