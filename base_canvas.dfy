/**
 * The size choice of `buildBaseCanvas`: the loaded image is drawn onto a canvas shrunk,
 * with its aspect ratio kept, so that neither side exceeds the optional `maxSize`.
 * The drawing itself is not part of this model.
 */
module BaseCanvas {
  import opened Wrappers

  /**
   * The source's guard `maxSize && (maxSize < width || maxSize < height)`: an absent
   * or zero `maxSize` is falsy in JavaScript and means "no limit".
   */
  predicate Downscales(width: nat, height: nat, maxSize: Option<int>)
  {
    maxSize.Some? && maxSize.value != 0 && (maxSize.value < width || maxSize.value < height)
  }

  /** The factor applied to both sides: 1, or the smaller of `maxSize/width` and `maxSize/height`. */
  function DownscaleFactor(width: nat, height: nat, maxSize: Option<int>): (r: real)
    requires width > 0 && height > 0
    ensures !Downscales(width, height, maxSize) ==> r == 1.0
  {
    if Downscales(width, height, maxSize) then
      var scaleX := maxSize.value as real / width as real;
      var scaleY := maxSize.value as real / height as real;
      if scaleX < scaleY then scaleX else scaleY
    else
      1.0
  }

  lemma MulMonotone(a: real, b: real, c: real)
    requires a >= 0.0 && b <= c
    ensures a * b <= a * c
  {
  }

  lemma QuotientBelowOne(a: real, b: real)
    requires 0.0 < a < b
    ensures 0.0 < a / b < 1.0
  {
    var q := a / b;
    assert b * q == a;
    if q >= 1.0 {
      MulMonotone(b, 1.0, q);
      assert false;
    }
  }

  /**
   * A positive limit shrinks the image (factor strictly between 0 and 1) just enough
   * that both sides fit and one side meets the limit; a negative limit, which JavaScript
   * also treats as truthy, yields a negative factor.
   */
  lemma DownscaleFactorFits(width: nat, height: nat, maxSize: Option<int>)
    requires width > 0 && height > 0
    ensures var r := DownscaleFactor(width, height, maxSize);
            Downscales(width, height, maxSize) && maxSize.value > 0 ==>
              && 0.0 < r < 1.0
              && width as real * r <= maxSize.value as real
              && height as real * r <= maxSize.value as real
              && (width as real * r == maxSize.value as real || height as real * r == maxSize.value as real)
    ensures Downscales(width, height, maxSize) && maxSize.value < 0 ==> DownscaleFactor(width, height, maxSize) < 0.0
  {
    if Downscales(width, height, maxSize) {
      var m, w, h := maxSize.value as real, width as real, height as real;
      var scaleX, scaleY := m / w, m / h;
      assert w * scaleX == m && h * scaleY == m;
      if m > 0.0 {
        assert scaleX > 0.0 && scaleY > 0.0;
        if m < w { QuotientBelowOne(m, w); }
        if m < h { QuotientBelowOne(m, h); }
        if scaleX < scaleY {
          assert DownscaleFactor(width, height, maxSize) == scaleX;
          MulMonotone(h, scaleX, scaleY);
        } else {
          assert DownscaleFactor(width, height, maxSize) == scaleY;
          MulMonotone(w, scaleY, scaleX);
        }
      }
    }
  }

  /** JavaScript's `Math.round`: to the nearest integer, halves upward. */
  function Round(x: real): (n: int)
    ensures x - 0.5 < n as real <= x + 0.5
  {
    (x + 0.5).Floor
  }

  /** The canvas's `(width, height)`: each side times the factor, rounded. */
  function CanvasSize(width: nat, height: nat, maxSize: Option<int>): (int, int)
    requires width > 0 && height > 0
  {
    var scale := DownscaleFactor(width, height, maxSize);
    (Round(width as real * scale), Round(height as real * scale))
  }

  lemma RoundOfFitting(x: real, m: int)
    requires 0.0 < x <= m as real
    ensures 0 <= Round(x) <= m
    ensures x == m as real ==> Round(x) == m
  {
  }

  lemma RoundOfInteger(n: int)
    ensures Round(n as real) == n
  {
  }

  /** With no limit in force the canvas keeps the image's size. */
  lemma CanvasKeepsSize(width: nat, height: nat, maxSize: Option<int>)
    requires width > 0 && height > 0
    requires !Downscales(width, height, maxSize)
    ensures CanvasSize(width, height, maxSize) == (width, height)
  {
    assert DownscaleFactor(width, height, maxSize) == 1.0;
    assert width as real * 1.0 == width as real && height as real * 1.0 == height as real;
    RoundOfInteger(width);
    RoundOfInteger(height);
  }

  /** With a positive limit the canvas fits it, and its longer side is exactly the limit. */
  lemma CanvasFitsMaxSize(width: nat, height: nat, maxSize: Option<int>)
    requires width > 0 && height > 0
    requires Downscales(width, height, maxSize) && maxSize.value > 0
    ensures 0 <= CanvasSize(width, height, maxSize).0 <= maxSize.value
    ensures 0 <= CanvasSize(width, height, maxSize).1 <= maxSize.value
    ensures CanvasSize(width, height, maxSize).0 == maxSize.value || CanvasSize(width, height, maxSize).1 == maxSize.value
  {
    var r := DownscaleFactor(width, height, maxSize);
    var wr := width as real * r;
    var hr := height as real * r;
    assert CanvasSize(width, height, maxSize).0 == Round(wr);
    assert CanvasSize(width, height, maxSize).1 == Round(hr);
    DownscaleFactorFits(width, height, maxSize);
    RoundOfFitting(wr, maxSize.value);
    RoundOfFitting(hr, maxSize.value);
  }
}
