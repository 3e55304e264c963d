/**
 * The integer sizes of the wallpaper composition: the 1/8 blur background, the
 * clamped blur radius and the half-resolution canvas. Pixels are not modelled:
 * a composed image is a token that records the art and the sizes used.
 */
module Sizes {
  import opened Wrappers
  import opened Media

  /** The blur background is worked at 1/8 of the art's linear size. */
  const BlurDownscale: nat := 8
  /** `ScriptIntrinsicBlur` accepts radii from 1 to 25. */
  const MinBlurRadius: int := 1
  const MaxBlurRadius: int := 25
  /** `blurBitmap`'s default radius, the one `composeWallpaper` uses. */
  const DefaultBlurRadius: int := 25
  /** The canvas is worked at half the display resolution. */
  const CanvasDivisor: nat := 2

  /** `(n / 8).coerceAtLeast(1)`: one side of the blur background. */
  function BlurSide(n: nat): (r: nat)
    ensures r >= 1
    ensures n >= BlurDownscale ==> BlurDownscale * r <= n < BlurDownscale * r + BlurDownscale
    ensures n < BlurDownscale ==> r == 1
  {
    if n / BlurDownscale < 1 then 1 else n / BlurDownscale
  }

  /** A non-empty bitmap never grows when scaled down for the blur. */
  lemma BlurSideNotLarger(n: nat)
    requires n >= 1
    ensures BlurSide(n) <= n
  {
  }

  /** `radius.coerceIn(1f, 25f)`, on integers. */
  function ClampRadius(radius: int): (r: int)
    ensures MinBlurRadius <= r <= MaxBlurRadius
    ensures MinBlurRadius <= radius <= MaxBlurRadius ==> r == radius
    ensures radius < MinBlurRadius ==> r == MinBlurRadius
    ensures radius > MaxBlurRadius ==> r == MaxBlurRadius
  {
    if radius < MinBlurRadius then MinBlurRadius
    else if radius > MaxBlurRadius then MaxBlurRadius
    else radius
  }

  /** `screen / 2` on a non-negative `Int`: truncated, and NOT raised to 1. */
  function CanvasSide(screen: nat): (r: nat)
    ensures CanvasDivisor * r <= screen <= CanvasDivisor * r + 1
  {
    screen / CanvasDivisor
  }

  /** The sizes `composeWallpaper` works with, besides its float geometry. */
  datatype ComposedImage = ComposedImage(
    art: Bitmap,
    width: nat, height: nat,             // targetWidth x targetHeight
    blurWidth: nat, blurHeight: nat,     // the scaled-down blur background
    blurRadius: int)

  /**
   * `composeWallpaper(art, screenWidth, screenHeight)`. `Bitmap.createScaledBitmap`
   * throws for a zero width or height, so a canvas side of 0 (a screen side below 2)
   * gives no image: the exception is caught by the write thread.
   */
  function Compose(art: Bitmap, screenWidth: nat, screenHeight: nat): Option<ComposedImage>
  {
    var w, h := CanvasSide(screenWidth), CanvasSide(screenHeight);
    if w == 0 || h == 0 then None
    else Some(ComposedImage(art, w, h, BlurSide(art.width), BlurSide(art.height), ClampRadius(DefaultBlurRadius)))
  }

  /**
   * An image is composed exactly when both screen sides are at least 2; it then is half
   * the screen (rounded down), carries the art, blurs at a size no larger than the art's
   * plus one rounding step, and at the largest radius the blur allows.
   */
  lemma ComposeFacts(art: Bitmap, screenWidth: nat, screenHeight: nat)
    ensures Compose(art, screenWidth, screenHeight).Some? <==>
      screenWidth >= CanvasDivisor && screenHeight >= CanvasDivisor
    ensures Compose(art, screenWidth, screenHeight).Some? ==>
      var r := Compose(art, screenWidth, screenHeight).value;
      && r.art == art
      && CanvasDivisor * r.width <= screenWidth <= CanvasDivisor * r.width + 1
      && CanvasDivisor * r.height <= screenHeight <= CanvasDivisor * r.height + 1
      && 1 <= r.blurWidth <= art.width + 1 && 1 <= r.blurHeight <= art.height + 1
      && r.blurRadius == MaxBlurRadius
  {
  }

  /** The composed size depends only on the screen, never on the art. */
  lemma ComposeSizeIndependentOfArt(a1: Bitmap, a2: Bitmap, screenWidth: nat, screenHeight: nat)
    ensures Compose(a1, screenWidth, screenHeight).Some? == Compose(a2, screenWidth, screenHeight).Some?
    ensures Compose(a1, screenWidth, screenHeight).Some? ==>
      Compose(a1, screenWidth, screenHeight).value.width == Compose(a2, screenWidth, screenHeight).value.width &&
      Compose(a1, screenWidth, screenHeight).value.height == Compose(a2, screenWidth, screenHeight).value.height
  {
  }

  /** A 1x1 display gives a 0x0 canvas: nothing is clamped to 1, and nothing is composed. */
  lemma DegenerateDisplay(art: Bitmap)
    ensures CanvasSide(1) == 0
    ensures Compose(art, 1, 1).None?
  {
  }
}
