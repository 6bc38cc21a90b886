/** The pixel values the image code works on: 8-bit channels, RGB colours and RGBA pixels. */
module Imaging {

  /** One 8-bit colour or alpha channel. */
  type Byte = x: int | 0 <= x < 256

  /** An RGB colour, as the tuples `(r, g, b)` of the source. */
  datatype Rgb = Rgb(r: Byte, g: Byte, b: Byte)

  /** One RGBA pixel, as yielded by `Image.getdata()` on an RGBA image. */
  datatype Pixel = Pixel(r: Byte, g: Byte, b: Byte, a: Byte)

  /** The fully transparent alpha value. */
  const Transparent: Byte := 0

  /** Pillow's `resize` of a `srcW` x `srcH` image to `w` x `h` raises an
      error: a target of the image's own size is answered with a copy before
      any check, and any other target with a zero width or height is refused. */
  predicate ResizeRefused(srcW: nat, srcH: nat, w: int, h: int)
    ensures ResizeRefused(srcW, srcH, w, h) ==> (w, h) != (srcW, srcH)
    ensures w > 0 && h > 0 ==> !ResizeRefused(srcW, srcH, w, h)
  {
    (w, h) != (srcW, srcH) && (w <= 0 || h <= 0)
  }
}
