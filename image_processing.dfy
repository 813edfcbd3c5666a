/**
 * The arithmetic of `ImageProcessor` in client/src/utils/imageProcessing.ts:
 * the size an image is scaled to before encoding, the synchronous checks of
 * `validateImage`, and the square a thumbnail is cut from. Dimensions are
 * exact reals; the canvas, `Image` decoding and data URLs are not modelled.
 */
module ImageProcessing {
  import opened JsString
  import opened ImageUpload

  /** The default bounds of `resizeImage`. */
  const DefaultMaxWidth: nat := 1024
  const DefaultMaxHeight: nat := 1024

  /** A width and a height in pixels. */
  datatype Size = Size(width: real, height: real)

  /**
   * The target size: a landscape image wider than `maxWidth` is scaled to that
   * width; any other image taller than `maxHeight` is scaled to that height;
   * an image within its bound keeps its size. The target is never larger
   * than the image on either side, and never negative.
   */
  function FitInside(width: real, height: real, maxWidth: real, maxHeight: real): (r: Size)
    requires width >= 0.0 && height >= 0.0 && maxWidth >= 0.0 && maxHeight >= 0.0
    ensures 0.0 <= r.width <= width && 0.0 <= r.height <= height
  {
    if width > height then
      if width > maxWidth then
        ScaleWithin(height, maxWidth, width);
        Size(maxWidth, height * maxWidth / width)
      else Size(width, height)
    else
      if height > maxHeight then
        ScaleWithin(width, maxHeight, height);
        Size(width * maxHeight / height, maxHeight)
      else Size(width, height)
  }

  /** The dimension step of `resizeImage`: `let {width, height} = img`, reassigned in the branch that applies. */
  method ResizeDimensions(imgWidth: nat, imgHeight: nat, maxWidth: nat, maxHeight: nat)
    returns (width: real, height: real)
    ensures Size(width, height) == FitInside(imgWidth as real, imgHeight as real, maxWidth as real, maxHeight as real)
    ensures width <= imgWidth as real && height <= imgHeight as real
  {
    var w, h := imgWidth as real, imgHeight as real;
    var maxW, maxH := maxWidth as real, maxHeight as real;
    ghost var target := FitInside(w, h, maxW, maxH);
    width, height := w, h;
    if w > h {
      if w > maxW {
        width, height := maxW, (h * maxW) / w;
        assert target == Size(width, height);
      }
    } else {
      if h > maxH {
        width, height := (w * maxH) / h, maxH;
        assert target == Size(width, height);
      }
    }
  }

  lemma DivAtMost(p: real, c: real, y: real)
    requires y > 0.0 && p <= c * y
    ensures p / y <= c
  {
  }

  /** Scaling `x` by `m / y` with `x` and `m` both at most `y` gives at most either of them. */
  lemma ScaleWithin(x: real, m: real, y: real)
    requires 0.0 <= x <= y && 0.0 <= m <= y && y > 0.0
    ensures x * m / y * y == x * m
    ensures 0.0 <= x * m / y <= x
    ensures x * m / y <= m
  {
    assert x * m <= x * y;
    DivAtMost(x * m, x, y);
    assert x * m <= m * y;
    DivAtMost(x * m, m, y);
  }

  /** The target size keeps the aspect ratio. */
  lemma FitInsideKeepsRatio(width: real, height: real, maxWidth: real, maxHeight: real)
    requires width >= 0.0 && height >= 0.0 && maxWidth >= 0.0 && maxHeight >= 0.0
    ensures FitInside(width, height, maxWidth, maxHeight).width * height
         == FitInside(width, height, maxWidth, maxHeight).height * width
  {
    if width > height && width > maxWidth {
      ScaleWithin(height, maxWidth, width);
    } else if width <= height && height > maxHeight {
      ScaleWithin(width, maxHeight, height);
    }
  }

  /**
   * The bound of the branch taken holds, the scaled side meets it exactly,
   * and an image within its branch's bound keeps its size.
   */
  lemma FitInsideBranchBound(width: real, height: real, maxWidth: real, maxHeight: real)
    requires width >= 0.0 && height >= 0.0 && maxWidth >= 0.0 && maxHeight >= 0.0
    ensures var r := FitInside(width, height, maxWidth, maxHeight);
      && (width > height ==> r.width <= maxWidth)
      && (width <= height ==> r.height <= maxHeight)
      && (width > height && width > maxWidth ==> r.width == maxWidth)
      && (width <= height && height > maxHeight ==> r.height == maxHeight)
      && ((width > height && width <= maxWidth) || (width <= height && height <= maxHeight) ==> r == Size(width, height))
  {
  }

  /** With equal bounds, such as the 1024 by 1024 defaults, both sides end up within the bound. */
  lemma EqualBoundsFit(width: real, height: real, bound: real)
    requires width >= 0.0 && height >= 0.0 && bound >= 0.0
    ensures FitInside(width, height, bound, bound).width <= bound
    ensures FitInside(width, height, bound, bound).height <= bound
  {
    if width > height && width > bound {
      ScaleWithin(height, bound, width);
    } else if width <= height && height > bound {
      ScaleWithin(width, bound, height);
    }
  }

  /** With unequal bounds the other side is not checked: 800 by 700 under 1024 by 600 stays 700 high. */
  lemma UnequalBoundsCanExceed()
    ensures FitInside(800.0, 700.0, 1024.0, 600.0) == Size(800.0, 700.0)
    ensures FitInside(800.0, 700.0, 1024.0, 600.0).height > 600.0
  {
  }

  /** `validateImage`'s result: `{ isValid, error? }`. */
  datatype Validation = Validation(isValid: bool, error: Option<string>)

  const CorruptMessage := "Invalid image file or corrupted data."

  /**
   * `validateImage(file)`: the type allowlist, then the 5 MB limit, then
   * whether the browser can decode the file (`decodes`, the outcome of `loadImage`).
   * A file is valid exactly when the upload gate accepts it and it decodes.
   */
  function ValidateImage(file: File, decodes: bool): (r: Validation)
    ensures r.isValid <==> r.error.None?
    ensures r.isValid <==> ValidateFile(file).None? && decodes
  {
    if file.mimeType !in AllowedTypes then Validation(false, Some(TypeMessage))
    else if file.size > MaxSize then Validation(false, Some(SizeMessage))
    else if !decodes then Validation(false, Some(CorruptMessage))
    else Validation(true, None)
  }

  /**
   * The checks run in order, each with its own message: a file the gate
   * refuses gets the gate's message whether it decodes or not, and only a
   * file the gate accepts can be reported as corrupted.
   */
  lemma ValidateImageAgrees(file: File, decodes: bool)
    ensures ValidateFile(file).Some? ==> ValidateImage(file, decodes).error == ValidateFile(file)
    ensures ValidateFile(file).None? && !decodes ==> ValidateImage(file, decodes).error == Some(CorruptMessage)
    ensures CorruptMessage != TypeMessage && CorruptMessage != SizeMessage
  {
    assert |CorruptMessage| == 37 && |TypeMessage| == 45 && |SizeMessage| == 32;
  }

  /** The source square of a thumbnail: its corner and side in image pixels. */
  datatype Crop = Crop(sourceX: real, sourceY: real, side: nat)

  /**
   * `createThumbnail`'s crop: the square of side `min(w, h)` offset by half the
   * excess. It is the largest centred square: its side is the shorter side,
   * it lies inside the image with equal margins on both sides of each axis,
   * and along the shorter side it has no margin at all.
   */
  function ThumbnailCrop(width: nat, height: nat): (c: Crop)
    ensures c.side <= width && c.side <= height && (c.side == width || c.side == height)
    ensures 0.0 <= c.sourceX && c.sourceX + c.side as real <= width as real
    ensures 0.0 <= c.sourceY && c.sourceY + c.side as real <= height as real
    ensures c.sourceX == width as real - (c.sourceX + c.side as real)
    ensures c.sourceY == height as real - (c.sourceY + c.side as real)
    ensures c.sourceX == 0.0 || c.sourceY == 0.0
  {
    var minDimension := if width < height then width else height;
    Crop((width - minDimension) as real / 2.0, (height - minDimension) as real / 2.0, minDimension)
  }
}
