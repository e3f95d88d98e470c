/**
  * Placement arithmetic for drawing an image into a fixed target rectangle
  * (script.js, drawImageCropped and drawImageFitted). Pixel values are exact
  * reals here; the double-precision rounding of the browser is not modelled.
  */
module Geometry {

  /** An axis-aligned rectangle: top-left corner and size, in pixels. */
  datatype Rect = Rect(x: real, y: real, w: real, h: real)

  /** `inner` lies within `outer`. */
  predicate Inside(inner: Rect, outer: Rect)
  {
    && outer.x <= inner.x && inner.x + inner.w <= outer.x + outer.w
    && outer.y <= inner.y && inner.y + inner.h <= outer.y + outer.h
  }

  /** The margins left and right of `inner` are equal, and so are those above and below. */
  predicate Centred(inner: Rect, outer: Rect)
  {
    && inner.x - outer.x == (outer.x + outer.w) - (inner.x + inner.w)
    && inner.y - outer.y == (outer.y + outer.h) - (inner.y + inner.h)
  }

  /** `r` has the proportions width : height (stated without division). */
  predicate HasAspect(r: Rect, width: real, height: real)
  {
    r.w * height == r.h * width
  }

  /** The whole image, as a source rectangle in its own pixel space. */
  function ImageArea(iw: real, ih: real): Rect
  {
    Rect(0.0, 0.0, iw, ih)
  }

  /** Multiplying both sides by a positive factor keeps a strict order. */
  lemma MulStrict(a: real, b: real, c: real)
    requires a > b && c > 0.0
    ensures a * c > b * c
  {
    assert a * c - b * c == (a - b) * c;
  }

  /** Multiplying both sides by a positive factor keeps a weak order. */
  lemma MulWeak(a: real, b: real, c: real)
    requires a <= b && c > 0.0
    ensures a * c <= b * c
  {
    assert b * c - a * c == (b - a) * c;
  }

  /** Dividing both sides of a weak order by a positive factor keeps it. */
  lemma CancelWeak(a: real, b: real, c: real)
    requires a * c <= b * c && c > 0.0
    ensures a <= b
  {
    if a > b {
      MulStrict(a, b, c);
    }
  }

  /** A ratio times its divisor gives back the dividend. */
  lemma RatioTimes(n: real, d: real)
    requires d > 0.0
    ensures (n / d) * d == n
  {
  }

  /** The ratio of two positive numbers is positive. */
  lemma RatioPositive(n: real, d: real)
    requires n > 0.0 && d > 0.0
    ensures n / d > 0.0
  {
    RatioTimes(n, d);
    if n / d <= 0.0 {
      MulWeak(n / d, 0.0, d);
    }
  }

  /**
    * Cover-fit: the part of an iw x ih image that is drawn stretched over a
    * tw x th target. When the image is relatively wider than the target its
    * sides are cut away, otherwise its top and bottom; the cut is symmetric.
    */
  function CoverSource(iw: real, ih: real, tw: real, th: real): (r: Rect)
    requires iw > 0.0 && ih > 0.0 && tw > 0.0 && th > 0.0
    ensures Inside(r, ImageArea(iw, ih)) && Centred(r, ImageArea(iw, ih))
    ensures r.w > 0.0 && r.h > 0.0
    ensures HasAspect(r, tw, th)
    ensures r.w == iw || r.h == ih
  {
    var imageAspect := iw / ih;
    var targetAspect := tw / th;
    RatioTimes(iw, ih);
    RatioTimes(tw, th);
    RatioPositive(tw, th);
    if imageAspect > targetAspect then
      var sourceWidth := ih * targetAspect;
      MulStrict(imageAspect, targetAspect, ih);
      Rect((iw - sourceWidth) / 2.0, 0.0, sourceWidth, ih)
    else
      var sourceHeight := iw / targetAspect;
      RatioTimes(iw, targetAspect);
      MulWeak(imageAspect, targetAspect, ih);
      calc {
        sourceHeight * targetAspect;
        == iw;
        == imageAspect * ih;
        <= targetAspect * ih;
        == ih * targetAspect;
      }
      CancelWeak(sourceHeight, ih, targetAspect);
      Rect(0.0, (ih - sourceHeight) / 2.0, iw, sourceHeight)
  }

  /**
    * Contain-fit: where an iw x ih image is drawn inside the target `t`,
    * scaled uniformly as large as fits and centred on both axes.
    */
  function ContainRect(t: Rect, iw: real, ih: real): (r: Rect)
    requires iw > 0.0 && ih > 0.0 && t.w > 0.0 && t.h > 0.0
    ensures Inside(r, t) && Centred(r, t)
    ensures r.w > 0.0 && r.h > 0.0
    ensures HasAspect(r, iw, ih)
    ensures r.w == t.w || r.h == t.h
  {
    var imageAspect := iw / ih;
    RatioTimes(iw, ih);
    RatioTimes(t.w, t.h);
    RatioPositive(iw, ih);
    if imageAspect > t.w / t.h then
      var drawWidth := t.w;
      var drawHeight := t.w / imageAspect;
      RatioTimes(t.w, imageAspect);
      MulStrict(imageAspect, t.w / t.h, t.h);
      assert drawHeight * imageAspect <= t.h * imageAspect;
      CancelWeak(drawHeight, t.h, imageAspect);
      Rect(t.x + (t.w - drawWidth) / 2.0, t.y + (t.h - drawHeight) / 2.0, drawWidth, drawHeight)
    else
      var drawWidth := t.h * imageAspect;
      var drawHeight := t.h;
      MulWeak(imageAspect, t.w / t.h, t.h);
      Rect(t.x + (t.w - drawWidth) / 2.0, t.y + (t.h - drawHeight) / 2.0, drawWidth, drawHeight)
  }

  /**
    * Among rectangles of the proportions width : height that fit in a
    * bound, one that reaches the bound's width or height is the largest.
    */
  lemma LargestWithAspect(r: Rect, other: Rect, width: real, height: real, boundW: real, boundH: real)
    requires width > 0.0 && height > 0.0
    requires HasAspect(r, width, height) && HasAspect(other, width, height)
    requires r.w == boundW || r.h == boundH
    requires other.w <= boundW && other.h <= boundH
    ensures other.w <= r.w && other.h <= r.h
  {
    if r.w == boundW {
      MulWeak(other.w, r.w, height);
      calc {
        other.h * width;
        == other.w * height;
        <= r.w * height;
        == r.h * width;
      }
      CancelWeak(other.h, r.h, width);
    } else {
      MulWeak(other.h, r.h, width);
      calc {
        other.w * height;
        == other.h * width;
        <= r.h * width;
        == r.w * height;
      }
      CancelWeak(other.w, r.w, height);
    }
  }

  /**
    * Cover-fit takes the largest source window with the target's
    * proportions: any other window of those proportions that fits in the
    * image is no wider and no taller.
    */
  lemma CoverSourceIsLargest(iw: real, ih: real, tw: real, th: real, other: Rect)
    requires iw > 0.0 && ih > 0.0 && tw > 0.0 && th > 0.0
    requires other.w > 0.0 && other.h > 0.0 && HasAspect(other, tw, th)
    requires other.w <= iw && other.h <= ih
    ensures other.w <= CoverSource(iw, ih, tw, th).w
    ensures other.h <= CoverSource(iw, ih, tw, th).h
  {
    LargestWithAspect(CoverSource(iw, ih, tw, th), other, tw, th, iw, ih);
  }

  /**
    * Contain-fit draws the image as large as possible: any other rectangle
    * with the image's proportions that fits in the target is no larger.
    */
  lemma ContainRectIsLargest(t: Rect, iw: real, ih: real, other: Rect)
    requires iw > 0.0 && ih > 0.0 && t.w > 0.0 && t.h > 0.0
    requires other.w > 0.0 && other.h > 0.0 && HasAspect(other, iw, ih)
    requires other.w <= t.w && other.h <= t.h
    ensures other.w <= ContainRect(t, iw, ih).w
    ensures other.h <= ContainRect(t, iw, ih).h
  {
    LargestWithAspect(ContainRect(t, iw, ih), other, iw, ih, t.w, t.h);
  }
}
