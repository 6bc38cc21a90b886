/** `background_removal.py`: the colour-key fallback `remove_bg_simple`, which
    makes every pixel close to a key colour fully transparent. */
module BackgroundRemoval {
  import opened Imaging

  /** The defaults of `remove_bg_simple`: a white key and a tolerance of 20. */
  const DefaultKey: Rgb := Rgb(255, 255, 255)
  const DefaultTolerance: int := 20

  function Abs(x: int): nat {
    if x < 0 then -x else x
  }

  /** Every colour channel of `p` is strictly closer than `tol` to the key's:
      never for a tolerance of zero or less, always for the key colour itself
      with a positive tolerance. */
  predicate NearKey(p: Pixel, key: Rgb, tol: int)
    ensures NearKey(p, key, tol) ==> tol > 0
    ensures tol > 0 && p.r == key.r && p.g == key.g && p.b == key.b ==> NearKey(p, key, tol)
  {
    Abs(p.r - key.r) < tol && Abs(p.g - key.g) < tol && Abs(p.b - key.b) < tol
  }

  /** One pixel of the output: alpha 0 when near the key, otherwise unchanged. */
  function KeyPixel(p: Pixel, key: Rgb, tol: int): (q: Pixel)
    ensures q.r == p.r && q.g == p.g && q.b == p.b
    ensures q.a == 0 <==> (NearKey(p, key, tol) || p.a == 0)
    ensures !NearKey(p, key, tol) ==> q == p
  {
    if NearKey(p, key, tol) then Pixel(p.r, p.g, p.b, Transparent) else p
  }

  /** The pixel data after keying, pixel by pixel in the same order: no
      pixel gains opacity, and a pixel changes only by becoming transparent. */
  function RemoveBg(s: seq<Pixel>, key: Rgb, tol: int): (r: seq<Pixel>)
    ensures |r| == |s|
    ensures forall i :: 0 <= i < |s| ==> r[i].a <= s[i].a
    ensures forall i :: 0 <= i < |s| ==> r[i] == s[i] || r[i] == Pixel(s[i].r, s[i].g, s[i].b, Transparent)
  {
    seq(|s|, i requires 0 <= i < |s| => KeyPixel(s[i], key, tol))
  }

  /** `remove_bg_simple` on an RGBA image's pixel data. The source image is not
      changed (`convert` hands back a copy); the new pixel data is filled in
      order, each pixel keyed against `key` with tolerance `tol`. */
  method RemoveBgSimple(img: array<Pixel>, key: Rgb, tol: int) returns (out: array<Pixel>)
    ensures fresh(out)
    ensures out[..] == RemoveBg(img[..], key, tol)
  {
    out := new Pixel[img.Length](i => Pixel(0, 0, 0, 0));
    var i := 0;
    while i < img.Length
      invariant 0 <= i <= img.Length
      invariant forall k :: 0 <= k < i ==> out[k] == KeyPixel(img[k], key, tol)
    {
      var p := img[i];
      if Abs(p.r - key.r) < tol && Abs(p.g - key.g) < tol && Abs(p.b - key.b) < tol {
        out[i] := Pixel(p.r, p.g, p.b, 0);
      } else {
        out[i] := Pixel(p.r, p.g, p.b, p.a);
      }
      i := i + 1;
    }
  }

  /** The output has as many pixels as the input, in the same order, with the
      same colour channels; a pixel's alpha becomes 0 when its colour is
      within the tolerance of the key and is kept otherwise. */
  lemma RemoveBgPixels(s: seq<Pixel>, key: Rgb, tol: int)
    ensures |RemoveBg(s, key, tol)| == |s|
    ensures forall i :: 0 <= i < |s| ==>
      var q := RemoveBg(s, key, tol)[i];
      && q.r == s[i].r && q.g == s[i].g && q.b == s[i].b
      && q.a == if NearKey(s[i], key, tol) then 0 else s[i].a
  {
  }

  /** The tolerance is strict: a channel exactly `tol` away keeps its alpha. */
  lemma ToleranceIsStrict()
    ensures RemoveBg([Pixel(235, 255, 255, 255)], DefaultKey, DefaultTolerance) == [Pixel(235, 255, 255, 255)]
    ensures RemoveBg([Pixel(236, 255, 255, 255)], DefaultKey, DefaultTolerance) == [Pixel(236, 255, 255, 0)]
  {
  }

  /** Keying twice is keying once: the colour channels the test reads are
      left alone. */
  lemma {:induction false} RemoveBgIdempotent(s: seq<Pixel>, key: Rgb, tol: int)
    ensures RemoveBg(RemoveBg(s, key, tol), key, tol) == RemoveBg(s, key, tol)
  {
    var once := RemoveBg(s, key, tol);
    forall i | 0 <= i < |s| ensures RemoveBg(once, key, tol)[i] == once[i] {
      assert NearKey(once[i], key, tol) == NearKey(s[i], key, tol);
    }
  }

  /** With a tolerance of zero or less nothing is keyed. */
  lemma NonPositiveToleranceKeepsAll(s: seq<Pixel>, key: Rgb, tol: int)
    requires tol <= 0
    ensures RemoveBg(s, key, tol) == s
  {
  }
}
