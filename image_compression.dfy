/**
  The adaptive image encoder `compressImage`: decode the file, scale it to fit a bounding
  box while keeping its aspect ratio, draw it on a white canvas, encode it as JPEG at the
  given quality, and retry at 0.8 times the quality while the result is over 4 MiB.

  The browser (decoding, the canvas, the JPEG codec and the 30 second load timer) is a
  parameter: a Browser value says, for the n-th attempt (0 for the caller's own call,
  n for the n-th recursive retry), whether the timer fires before the image loads and
  whether a 2d context is available, and gives the encoded size for a canvas size and a
  quality. Whether the file decodes at all, and to which dimensions, is a property of the
  file, so every attempt sees the same dimensions.
 */
module ImageCompression {
  import opened Wrappers

  type Pos = n: nat | 0 < n witness 1

  /** Dimensions of a decoded raster image; both sides are positive. */
  datatype Pixels = Pixels(width: Pos, height: Pos)

  /** Dimensions of the canvas the image is drawn on. */
  datatype Size = Size(width: nat, height: nat)

  /** A user-supplied file and what decoding it yields (None: the browser cannot load it). */
  datatype SourceFile = SourceFile(name: string, pixels: Option<Pixels>)

  /** A file as the page keeps it after compression. */
  datatype ImageFile = ImageFile(name: string, mediaType: string, byteSize: nat)

  /** What the browser does during attempt n. */
  datatype Browser = Browser(
    timesOut: nat -> bool,                // the 30 s timer fires before the load or error event
    hasContext: nat -> bool,              // canvas.getContext("2d") returns a context
    encode: (Size, real) -> Option<nat>)  // canvas.toBlob at a quality: the blob's byte size, None for a null blob

  /** A resolved JPEG blob, with the canvas size, quality and attempt that produced it. */
  datatype Blob = Blob(size: nat, width: nat, height: nat, quality: real, attempt: nat)

  /** The rejections of compressImage; AttemptsExhausted is the model's bound on the retries. */
  datatype CompressError = CouldNotLoad | LoadTimeout | NoCanvasContext | NullBlob | AttemptsExhausted

  /** The outcome of one attempt: a small enough blob, a blob over the ceiling, or a rejection. */
  datatype AttemptResult = Fits(blob: Blob) | Oversized | Rejected(error: CompressError)

  /** The largest blob compressImage resolves with: 4 MiB. */
  const MaxBlobBytes: nat := 4 * 1024 * 1024

  /** Each retry multiplies the quality by this factor. */
  const RetryFactor: real := 0.8

  /** The default bounds and quality, which both generator components also pass explicitly. */
  const DefaultMaxSide: nat := 1024
  const DefaultQuality: real := 0.8

  /**
    The number of attempts the model allows: the caller's call and up to nine retries, so
    the quality never drops below 0.8 * 0.8^9, just above 0.1.
   */
  const MaxAttempts: nat := 10

  const JpegType := "image/jpeg"

  /** The message of the Error each rejection carries. */
  function Message(e: CompressError): string {
    match e
    case CouldNotLoad => "Could not load image"
    case LoadTimeout => "Image load timeout"
    case NoCanvasContext => "Could not get canvas context"
    case NullBlob => "Could not compress image"
    case AttemptsExhausted => "Image still too large after all attempts"
  }

  /** Each rejection has its own message. */
  lemma MessagesDistinct(e1: CompressError, e2: CompressError)
    ensures Message(e1) == Message(e2) <==> e1 == e2
  {
  }

  /** Math.round on exact reals: the integer nearest to x, halves rounded up. */
  function Round(x: real): (r: int)
    ensures x - 0.5 < r as real <= x + 0.5
  {
    (x + 0.5).Floor
  }

  /** A non-negative real rounds to a non-negative integer. */
  lemma RoundNonNegative(x: real)
    requires 0.0 <= x
    ensures Round(x) >= 0
  {
  }

  /** Dividing by w/h is multiplying by h/w, and multiplying by it is dividing by h/w. */
  lemma DivideByRatio(m: nat, w: Pos, h: Pos)
    ensures m as real / (w as real / h as real) == (m * h) as real / w as real
    ensures m as real * (w as real / h as real) == (m * w) as real / h as real
    ensures 0.0 <= m as real / (w as real / h as real)
    ensures 0.0 <= m as real * (w as real / h as real)
  {
  }

  /** Math.round(n / d) computed on integers: the quotient of 2n + d by 2d. */
  function RoundDiv(n: nat, d: Pos): (q: nat)
    ensures 2 * n - d < 2 * d * q <= 2 * n + d
  {
    var q := (2 * n + d) / (2 * d);
    assert (2 * d) * q <= 2 * n + d < (2 * d) * q + 2 * d;
    q
  }

  lemma QuotientOf(a: real, b: real, c: real)
    requires b != 0.0 && c * b == a
    ensures a / b == c
  {
  }

  /** A remainder below the divisor gives a fraction in [0, 1). */
  lemma FractionBelowOne(m: nat, b: Pos)
    requires m < b
    ensures 0.0 <= m as real / b as real < 1.0
  {
    var br := b as real;
    var f := m as real / br;
    assert f * br == m as real;
    if f >= 1.0 {
      // then m == f * b would be at least b
      assert false;
    }
  }

  lemma FloorOfQuotient(a: nat, b: Pos)
    ensures (a as real / b as real).Floor == a / b
  {
    var q, m := a / b, a % b;
    var br := b as real;
    var f := m as real / br;
    assert a == b * q + m;
    assert (b * q) as real == br * q as real;
    assert f * br == m as real;
    assert (q as real + f) * br == a as real;
    QuotientOf(a as real, br, q as real + f);
    FractionBelowOne(m, b);
  }

  /** Rounding an exact quotient of naturals agrees with RoundDiv. */
  lemma RoundDivIsRound(n: nat, d: Pos)
    ensures Round(n as real / d as real) == RoundDiv(n, d)
  {
    var x := n as real / d as real;
    assert x * d as real == n as real;
    assert (x + 0.5) * (2 * d) as real == (2 * n + d) as real;
    QuotientOf((2 * n + d) as real, (2 * d) as real, x + 0.5);
    FloorOfQuotient(2 * n + d, 2 * d);
  }

  lemma MulMonotone(c: nat, a: int, b: int)
    requires a <= b
    ensures c * a <= c * b
  {
    assert c * b - c * a == c * (b - a);
  }

  /** n / d below b rounds to at most b. */
  lemma RoundDivAtMost(n: nat, d: Pos, b: nat)
    requires n < d * b
    ensures RoundDiv(n, d) <= b
  {
    var q := RoundDiv(n, d);
    if q > b {
      MulMonotone(2 * d, b + 1, q);
    }
  }

  /** n / d rounding above b means n / d exceeds b. */
  lemma RoundDivAbove(n: nat, d: Pos, b: nat)
    requires RoundDiv(n, d) > b
    ensures n > d * b
  {
    MulMonotone(2 * d, b + 1, RoundDiv(n, d));
  }

  /**
    The canvas size the encoder chooses, stated declaratively: an image within both bounds
    keeps its size; otherwise the width is clamped when that alone brings the height within
    its bound, and the height is clamped in every other case. The other side follows the
    aspect ratio, rounded half up.
   */
  function FitWithin(pixels: Pixels, maxWidth: nat, maxHeight: nat): Size {
    var w, h := pixels.width, pixels.height;
    if w <= maxWidth && h <= maxHeight then Size(w, h)
    else if w > maxWidth && ClampedHeight(pixels, maxWidth) <= maxHeight then Size(maxWidth, ClampedHeight(pixels, maxWidth))
    else Size(ClampedWidth(pixels, maxHeight), maxHeight)
  }

  /** The height that goes with width maxWidth: `Math.round(maxWidth / aspectRatio)`. */
  function ClampedHeight(pixels: Pixels, maxWidth: nat): nat {
    var aspectRatio := pixels.width as real / pixels.height as real;
    DivideByRatio(maxWidth, pixels.width, pixels.height);
    RoundNonNegative(maxWidth as real / aspectRatio);
    Round(maxWidth as real / aspectRatio)
  }

  /** The width that goes with height maxHeight: `Math.round(maxHeight * aspectRatio)`. */
  function ClampedWidth(pixels: Pixels, maxHeight: nat): nat {
    var aspectRatio := pixels.width as real / pixels.height as real;
    DivideByRatio(maxHeight, pixels.width, pixels.height);
    RoundNonNegative(maxHeight as real * aspectRatio);
    Round(maxHeight as real * aspectRatio)
  }

  /**
    The dimension clamp of compressImage as the source writes it: clamp the width first,
    then check the height against the already scaled width and clamp it too.
   */
  method ScaleToFit(pixels: Pixels, maxWidth: nat, maxHeight: nat) returns (width: nat, height: nat)
    ensures Size(width, height) == FitWithin(pixels, maxWidth, maxHeight)
  {
    width, height := pixels.width, pixels.height;
    var aspectRatio := width as real / height as real;
    DivideByRatio(maxWidth, pixels.width, pixels.height);
    DivideByRatio(maxHeight, pixels.width, pixels.height);
    if width > maxWidth {
      width := maxWidth;
      RoundNonNegative(width as real / aspectRatio);
      height := Round(width as real / aspectRatio);
      assert height == ClampedHeight(pixels, maxWidth);
    }
    if height > maxHeight {
      height := maxHeight;
      RoundNonNegative(height as real * aspectRatio);
      width := Round(height as real * aspectRatio);
      assert width == ClampedWidth(pixels, maxHeight);
    }
  }

  /** The size FitWithin chooses, computed on integers: each computed side is a RoundDiv of a cross product. */
  function FitWithinExact(pixels: Pixels, maxWidth: nat, maxHeight: nat): Size {
    var w, h := pixels.width, pixels.height;
    var byWidth := RoundDiv(maxWidth * h, w);
    if w <= maxWidth && h <= maxHeight then Size(w, h)
    else if w > maxWidth && byWidth <= maxHeight then Size(maxWidth, byWidth)
    else Size(RoundDiv(maxHeight * w, h), maxHeight)
  }

  /** The height the width clamp computes, on integers. */
  lemma WidthClampExact(pixels: Pixels, maxWidth: nat)
    ensures ClampedHeight(pixels, maxWidth) == RoundDiv(maxWidth * pixels.height, pixels.width)
  {
    DivideByRatio(maxWidth, pixels.width, pixels.height);
    RoundDivIsRound(maxWidth * pixels.height, pixels.width);
  }

  /** The width the height clamp computes, on integers. */
  lemma HeightClampExact(pixels: Pixels, maxHeight: nat)
    ensures ClampedWidth(pixels, maxHeight) == RoundDiv(maxHeight * pixels.width, pixels.height)
  {
    DivideByRatio(maxHeight, pixels.width, pixels.height);
    RoundDivIsRound(maxHeight * pixels.width, pixels.height);
  }

  /** The rounding of real quotients in FitWithin is exactly the integer rounding of FitWithinExact. */
  lemma FitWithinIntegers(pixels: Pixels, maxWidth: nat, maxHeight: nat)
    ensures FitWithin(pixels, maxWidth, maxHeight) == FitWithinExact(pixels, maxWidth, maxHeight)
  {
    WidthClampExact(pixels, maxWidth);
    HeightClampExact(pixels, maxHeight);
  }

  lemma FitWithinExactBounds(pixels: Pixels, maxWidth: nat, maxHeight: nat)
    ensures var s := FitWithinExact(pixels, maxWidth, maxHeight);
      && s.width <= maxWidth && s.height <= maxHeight
      && s.width <= pixels.width && s.height <= pixels.height
  {
    var w, h := pixels.width, pixels.height;
    var byWidth := RoundDiv(maxWidth * h, w);
    if !(w <= maxWidth && h <= maxHeight) {
      if w > maxWidth {
        // the width clamp never raises the height
        MulMonotone(h, maxWidth + 1, w);
        RoundDivAtMost(maxWidth * h, w, h);
      }
      if !(w > maxWidth && byWidth <= maxHeight) {
        // the height clamp applies to a height over its bound, and never raises the width
        assert maxHeight < h;
        MulMonotone(w, maxHeight + 1, h);
        RoundDivAtMost(maxHeight * w, h, w);
        if w > maxWidth {
          // the width clamp overshot the height, so the height clamp keeps the width within its bound
          RoundDivAbove(maxWidth * h, w, maxHeight);
          RoundDivAtMost(maxHeight * w, h, maxWidth);
        }
      }
    }
  }

  /**
    The chosen size lies within both bounds, never enlarges the image, equals the source
    size when the source already fits, and otherwise meets at least one bound exactly.
   */
  lemma FitWithinBounds(pixels: Pixels, maxWidth: nat, maxHeight: nat)
    ensures var s := FitWithin(pixels, maxWidth, maxHeight);
      && s.width <= maxWidth && s.height <= maxHeight
      && s.width <= pixels.width && s.height <= pixels.height
      && (pixels.width <= maxWidth && pixels.height <= maxHeight ==> s == Size(pixels.width, pixels.height))
      && (pixels.width > maxWidth || pixels.height > maxHeight ==> s.width == maxWidth || s.height == maxHeight)
  {
    FitWithinIntegers(pixels, maxWidth, maxHeight);
    FitWithinExactBounds(pixels, maxWidth, maxHeight);
  }

  /** RoundDiv misses the exact quotient by at most half: n and d * RoundDiv(n, d) differ by at most d / 2. */
  lemma RoundDivError(n: nat, d: Pos)
    ensures var e := n - d * RoundDiv(n, d);
      2 * (if e < 0 then -e else e) <= d
  {
    var q := RoundDiv(n, d);
    assert 2 * d * q == 2 * (d * q);
  }

  /** The skew of a size against the source: zero exactly when the two have the same aspect ratio. */
  function Skew(s: Size, pixels: Pixels): int {
    s.width * pixels.height - s.height * pixels.width
  }

  function Abs(x: int): nat {
    if x < 0 then -x else x
  }

  /** Clamping the width: the height computed from it is off by at most half a source width. */
  lemma WidthClampAspect(pixels: Pixels, maxWidth: nat)
    ensures 2 * Abs(Skew(Size(maxWidth, RoundDiv(maxWidth * pixels.height, pixels.width)), pixels)) <= pixels.width
  {
    var w, h := pixels.width, pixels.height;
    RoundDivError(maxWidth * h, w);
    var q := RoundDiv(maxWidth * h, w);
    assert Skew(Size(maxWidth, q), pixels) == maxWidth * h - w * q;
  }

  /** Clamping the height: the width computed from it is off by at most half a source height. */
  lemma HeightClampAspect(pixels: Pixels, maxHeight: nat)
    ensures 2 * Abs(Skew(Size(RoundDiv(maxHeight * pixels.width, pixels.height), maxHeight), pixels)) <= pixels.height
  {
    var w, h := pixels.width, pixels.height;
    RoundDivError(maxHeight * w, h);
    var q := RoundDiv(maxHeight * w, h);
    assert Skew(Size(q, maxHeight), pixels) == -(maxHeight * w - h * q);
  }

  lemma FitWithinExactAspect(pixels: Pixels, maxWidth: nat, maxHeight: nat)
    ensures var s := FitWithinExact(pixels, maxWidth, maxHeight);
      || (s == Size(pixels.width, pixels.height) && Skew(s, pixels) == 0)
      || (s.width == maxWidth && 2 * Abs(Skew(s, pixels)) <= pixels.width)
      || (s.height == maxHeight && 2 * Abs(Skew(s, pixels)) <= pixels.height)
  {
    var w, h := pixels.width, pixels.height;
    var s := FitWithinExact(pixels, maxWidth, maxHeight);
    if w <= maxWidth && h <= maxHeight {
      assert s == Size(w, h);
      assert Skew(s, pixels) == 0;
    } else if w > maxWidth && RoundDiv(maxWidth * h, w) <= maxHeight {
      assert s == Size(maxWidth, RoundDiv(maxWidth * h, w));
      WidthClampAspect(pixels, maxWidth);
    } else {
      assert s == Size(RoundDiv(maxHeight * w, h), maxHeight);
      HeightClampAspect(pixels, maxHeight);
    }
  }

  /**
    The aspect ratio is kept up to rounding. An image that fits keeps its own size. Otherwise
    the side set to its bound is exact and the computed side is within half a pixel of
    bound * ratio: the cross products of the chosen size and the source size differ by at
    most half the source side that was clamped.
   */
  lemma FitWithinAspect(pixels: Pixels, maxWidth: nat, maxHeight: nat)
    ensures var s := FitWithin(pixels, maxWidth, maxHeight);
      || (s == Size(pixels.width, pixels.height) && Skew(s, pixels) == 0)
      || (s.width == maxWidth && 2 * Abs(Skew(s, pixels)) <= pixels.width)
      || (s.height == maxHeight && 2 * Abs(Skew(s, pixels)) <= pixels.height)
  {
    FitWithinIntegers(pixels, maxWidth, maxHeight);
    FitWithinExactAspect(pixels, maxWidth, maxHeight);
  }

  /** A tall 3x7 image clamped by width into 2x10 becomes 2x5: 5 is the nearest height to 2 * 7 / 3. */
  lemma TallImageAspect()
    ensures FitWithin(Pixels(3, 7), 2, 10) == Size(2, 5)
    ensures 2 * Abs(Skew(Size(2, 5), Pixels(3, 7))) <= 3
  {
    assert 2.0 / (3.0 / 7.0) == 14.0 / 3.0;
  }

  /** A landscape 4000x3000 photo fits 1024x1024 as 1024x768, and a portrait one as 768x1024. */
  lemma FitWithinExamples()
    ensures FitWithin(Pixels(4000, 3000), 1024, 1024) == Size(1024, 768)
    ensures FitWithin(Pixels(3000, 4000), 1024, 1024) == Size(768, 1024)
  {
    assert 1024.0 / (4000.0 / 3000.0) == 768.0;
    assert 1024.0 / (3000.0 / 4000.0) > 1365.0;
    assert 1024.0 * (3000.0 / 4000.0) == 768.0;
  }

  /** One attempt: load (or time out), size the canvas, get a context, encode, check the size. */
  function Attempt(file: SourceFile, maxWidth: nat, maxHeight: nat, quality: real, browser: Browser, n: nat): (r: AttemptResult)
    ensures r.Rejected? ==> r.error != AttemptsExhausted
  {
    if browser.timesOut(n) then Rejected(LoadTimeout)
    else if file.pixels.None? then Rejected(CouldNotLoad)
    else
      var size := FitWithin(file.pixels.value, maxWidth, maxHeight);
      if !browser.hasContext(n) then Rejected(NoCanvasContext)
      else match browser.encode(size, quality)
        case None => Rejected(NullBlob)
        case Some(bytes) =>
          if bytes > MaxBlobBytes then Oversized
          else Fits(Blob(bytes, size.width, size.height, quality, n))
  }

  /**
    compressImage from attempt `attempt` on, with `fuel` attempts left: an oversized blob
    leads to the same call with the same file and bounds at 0.8 times the quality. Whatever
    it resolves with is at most 4 MiB and has the size FitWithin chooses for the file.
   */
  function CompressAttempts(file: SourceFile, maxWidth: nat, maxHeight: nat, quality: real, browser: Browser, attempt: nat, fuel: nat): (r: Result<Blob, CompressError>)
    ensures r.Success? ==> r.value.size <= MaxBlobBytes
    ensures r.Success? ==> attempt <= r.value.attempt < attempt + fuel
    ensures r.Success? ==> file.pixels.Some? && Size(r.value.width, r.value.height) == FitWithin(file.pixels.value, maxWidth, maxHeight)
    decreases fuel
  {
    if fuel == 0 then Failure(AttemptsExhausted)
    else match Attempt(file, maxWidth, maxHeight, quality, browser, attempt)
      case Fits(blob) => Success(blob)
      case Rejected(e) => Failure(e)
      case Oversized => CompressAttempts(file, maxWidth, maxHeight, quality * RetryFactor, browser, attempt + 1, fuel - 1)
  }

  /**
    compressImage(file, maxWidth, maxHeight, quality), allowed `fuel` attempts in all: a
    resolved blob is at most 4 MiB, comes from one of the allowed attempts, and has the size
    FitWithin chooses for the decoded file.
   */
  function CompressImage(file: SourceFile, maxWidth: nat, maxHeight: nat, quality: real, browser: Browser, fuel: nat): (r: Result<Blob, CompressError>)
    ensures r.Success? ==> r.value.size <= MaxBlobBytes && r.value.attempt < fuel
    ensures r.Success? ==> file.pixels.Some? && Size(r.value.width, r.value.height) == FitWithin(file.pixels.value, maxWidth, maxHeight)
  {
    CompressAttempts(file, maxWidth, maxHeight, quality, browser, 0, fuel)
  }

  function Pow(x: real, n: nat): real {
    if n == 0 then 1.0 else x * Pow(x, n - 1)
  }

  /** The quality of the attempt n retries after one at quality q: q * 0.8^n. */
  function RetriedQuality(q: real, n: nat): real {
    q * Pow(RetryFactor, n)
  }

  /** Attempt k, counted from attempt a, runs at the quality k - a retries after q and yields an oversized blob. */
  predicate OversizedFrom(file: SourceFile, maxWidth: nat, maxHeight: nat, q: real, browser: Browser, a: nat, k: nat) {
    a <= k && Attempt(file, maxWidth, maxHeight, RetriedQuality(q, k - a), browser, k).Oversized?
  }

  lemma RetriedQualityStep(q: real, m: nat)
    ensures RetriedQuality(q, 0) == q
    ensures RetriedQuality(q * RetryFactor, m) == RetriedQuality(q, m + 1)
    ensures RetriedQuality(q, m) * RetryFactor == RetriedQuality(q, m + 1)
  {
  }

  /**
    Whatever attempt resolves was run at the starting quality times 0.8 per retry, every
    earlier attempt produced an oversized blob, and the blob is that attempt's own.
   */
  lemma {:induction false} ResolvedFrom(file: SourceFile, maxWidth: nat, maxHeight: nat, q: real, browser: Browser, a: nat, fuel: nat)
    ensures var r := CompressAttempts(file, maxWidth, maxHeight, q, browser, a, fuel);
      r.Success? ==>
        && r.value.quality == RetriedQuality(q, r.value.attempt - a)
        && Attempt(file, maxWidth, maxHeight, r.value.quality, browser, r.value.attempt) == Fits(r.value)
        && forall k :: a <= k < r.value.attempt ==> OversizedFrom(file, maxWidth, maxHeight, q, browser, a, k)
    decreases fuel
  {
    var r := CompressAttempts(file, maxWidth, maxHeight, q, browser, a, fuel);
    RetriedQualityStep(q, 0);
    if fuel > 0 && Attempt(file, maxWidth, maxHeight, q, browser, a).Oversized? {
      ResolvedFrom(file, maxWidth, maxHeight, q * RetryFactor, browser, a + 1, fuel - 1);
      if r.Success? {
        RetriedQualityStep(q, r.value.attempt - a - 1);
        forall k | a <= k < r.value.attempt
          ensures OversizedFrom(file, maxWidth, maxHeight, q, browser, a, k)
        {
          if k > a {
            RetriedQualityStep(q, k - a - 1);
            assert OversizedFrom(file, maxWidth, maxHeight, q * RetryFactor, browser, a + 1, k);
          }
        }
      }
    }
  }

  /**
    The n-th attempt uses quality * 0.8^n: after n oversized attempts, compressImage goes on
    exactly as a fresh call with the same file and bounds at that quality.
   */
  lemma {:induction false} RetryQuality(file: SourceFile, maxWidth: nat, maxHeight: nat, quality: real, browser: Browser, n: nat, fuel: nat)
    requires n <= fuel
    requires forall k :: 0 <= k < n ==> OversizedFrom(file, maxWidth, maxHeight, quality, browser, 0, k)
    ensures CompressImage(file, maxWidth, maxHeight, quality, browser, fuel)
         == CompressAttempts(file, maxWidth, maxHeight, RetriedQuality(quality, n), browser, n, fuel - n)
  {
    RetriedQualityStep(quality, 0);
    if n > 0 {
      RetryQuality(file, maxWidth, maxHeight, quality, browser, n - 1, fuel);
      assert OversizedFrom(file, maxWidth, maxHeight, quality, browser, 0, n - 1);
      RetriedQualityStep(quality, n - 1);
    }
  }

  /** Every blob compressImage resolves with is at most 4 MiB and comes from attempt k at quality * 0.8^k. */
  lemma ResolvedQuality(file: SourceFile, maxWidth: nat, maxHeight: nat, quality: real, browser: Browser, fuel: nat)
    ensures var r := CompressImage(file, maxWidth, maxHeight, quality, browser, fuel);
      r.Success? ==>
        && r.value.size <= MaxBlobBytes
        && r.value.attempt < fuel
        && r.value.quality == RetriedQuality(quality, r.value.attempt)
        && forall k :: 0 <= k < r.value.attempt ==> OversizedFrom(file, maxWidth, maxHeight, quality, browser, 0, k)
  {
    ResolvedFrom(file, maxWidth, maxHeight, quality, browser, 0, fuel);
  }

  /** If the first encode is within 4 MiB there is no retry and the quality is the caller's. */
  lemma NoRetryWhenFirstFits(file: SourceFile, maxWidth: nat, maxHeight: nat, quality: real, browser: Browser, fuel: nat)
    requires fuel > 0
    requires Attempt(file, maxWidth, maxHeight, quality, browser, 0).Fits?
    ensures var r := CompressImage(file, maxWidth, maxHeight, quality, browser, fuel);
      r.Success? && r.value.attempt == 0 && r.value.quality == quality
  {
  }

  /** The first attempt's rejections reach the caller unchanged, with their own messages. */
  lemma FirstAttemptRejections(file: SourceFile, maxWidth: nat, maxHeight: nat, quality: real, browser: Browser, fuel: nat)
    requires fuel > 0
    ensures var r := CompressImage(file, maxWidth, maxHeight, quality, browser, fuel);
      && (browser.timesOut(0) ==> r == Failure(LoadTimeout) && Message(r.error) == "Image load timeout")
      && (!browser.timesOut(0) && file.pixels.None? ==> r == Failure(CouldNotLoad) && Message(r.error) == "Could not load image")
      && (!browser.timesOut(0) && file.pixels.Some? && !browser.hasContext(0) ==>
            r == Failure(NoCanvasContext) && Message(r.error) == "Could not get canvas context")
      && (!browser.timesOut(0) && file.pixels.Some? && browser.hasContext(0) &&
          browser.encode(FitWithin(file.pixels.value, maxWidth, maxHeight), quality).None? ==>
            r == Failure(NullBlob) && Message(r.error) == "Could not compress image")
  {
  }

  /**
    Every attempt, the first or a retry, meets the same checks in the same order: the timer,
    the load, the context, the blob, then the 4 MiB ceiling.
   */
  lemma AttemptOutcomes(file: SourceFile, maxWidth: nat, maxHeight: nat, quality: real, browser: Browser, n: nat)
    ensures var r := Attempt(file, maxWidth, maxHeight, quality, browser, n);
      && (browser.timesOut(n) ==> r == Rejected(LoadTimeout))
      && (!browser.timesOut(n) && file.pixels.None? ==> r == Rejected(CouldNotLoad))
      && (!browser.timesOut(n) && file.pixels.Some? && !browser.hasContext(n) ==> r == Rejected(NoCanvasContext))
      && (!browser.timesOut(n) && file.pixels.Some? && browser.hasContext(n) ==>
            var size := FitWithin(file.pixels.value, maxWidth, maxHeight);
            match browser.encode(size, quality)
            case None => r == Rejected(NullBlob)
            case Some(bytes) =>
              && (bytes > MaxBlobBytes ==> r == Oversized)
              && (bytes <= MaxBlobBytes ==> r == Fits(Blob(bytes, size.width, size.height, quality, n))))
  {
  }

  /** Attempt k, counted from attempt a, runs at the quality k - a retries after q and is rejected with e. */
  predicate RejectsAt(file: SourceFile, maxWidth: nat, maxHeight: nat, q: real, browser: Browser, a: nat, k: nat, e: CompressError) {
    a <= k && Attempt(file, maxWidth, maxHeight, RetriedQuality(q, k - a), browser, k) == Rejected(e)
  }

  /**
    A rejection other than exhaustion is the rejection of one attempt, the first or a retry,
    passed on unchanged (`.catch(reject)`): every earlier attempt produced a blob over 4 MiB,
    and that attempt, run at the retried quality, failed with this very error.
   */
  lemma {:induction false} RejectedFrom(file: SourceFile, maxWidth: nat, maxHeight: nat, q: real, browser: Browser, a: nat, fuel: nat)
    ensures var r := CompressAttempts(file, maxWidth, maxHeight, q, browser, a, fuel);
      r.Failure? && r.error != AttemptsExhausted ==>
        exists k :: a <= k < a + fuel && RejectsAt(file, maxWidth, maxHeight, q, browser, a, k, r.error)
          && forall j :: a <= j < k ==> OversizedFrom(file, maxWidth, maxHeight, q, browser, a, j)
    decreases fuel
  {
    var r := CompressAttempts(file, maxWidth, maxHeight, q, browser, a, fuel);
    if fuel > 0 && r.Failure? && r.error != AttemptsExhausted {
      RetriedQualityStep(q, 0);
      var first := Attempt(file, maxWidth, maxHeight, q, browser, a);
      if first.Rejected? {
        assert RejectsAt(file, maxWidth, maxHeight, q, browser, a, a, r.error);
      } else if first.Oversized? {
        var q', a' := q * RetryFactor, a + 1;
        RejectedFrom(file, maxWidth, maxHeight, q', browser, a', fuel - 1);
        var k :| a' <= k < a' + (fuel - 1) && RejectsAt(file, maxWidth, maxHeight, q', browser, a', k, r.error)
          && forall j :: a' <= j < k ==> OversizedFrom(file, maxWidth, maxHeight, q', browser, a', j);
        RetriedQualityStep(q, k - a - 1);
        assert RejectsAt(file, maxWidth, maxHeight, q, browser, a, k, r.error);
        forall j | a <= j < k
          ensures OversizedFrom(file, maxWidth, maxHeight, q, browser, a, j)
        {
          if j > a {
            RetriedQualityStep(q, j - a - 1);
            assert OversizedFrom(file, maxWidth, maxHeight, q', browser, a', j);
          }
        }
      }
    }
  }

  /** compressImage rejects with the error of the first attempt that is not oversized, at quality * 0.8^k. */
  lemma RejectedQuality(file: SourceFile, maxWidth: nat, maxHeight: nat, quality: real, browser: Browser, fuel: nat)
    ensures var r := CompressImage(file, maxWidth, maxHeight, quality, browser, fuel);
      r.Failure? && r.error != AttemptsExhausted ==>
        exists k :: 0 <= k < fuel && RejectsAt(file, maxWidth, maxHeight, quality, browser, 0, k, r.error)
          && forall j :: 0 <= j < k ==> OversizedFrom(file, maxWidth, maxHeight, quality, browser, 0, j)
  {
    RejectedFrom(file, maxWidth, maxHeight, quality, browser, 0, fuel);
  }

  /** An oversized blob leads to the next attempt at 0.8 times the quality. */
  lemma RetryStep(file: SourceFile, maxWidth: nat, maxHeight: nat, q: real, browser: Browser, a: nat, fuel: nat)
    requires fuel > 0
    requires Attempt(file, maxWidth, maxHeight, q, browser, a).Oversized?
    ensures CompressAttempts(file, maxWidth, maxHeight, q, browser, a, fuel)
         == CompressAttempts(file, maxWidth, maxHeight, q * RetryFactor, browser, a + 1, fuel - 1)
  {
  }

  /** Offset form of Exhausted. */
  lemma {:induction false} ExhaustedFrom(file: SourceFile, maxWidth: nat, maxHeight: nat, q: real, browser: Browser, a: nat, fuel: nat)
    ensures CompressAttempts(file, maxWidth, maxHeight, q, browser, a, fuel) == Failure(AttemptsExhausted)
        <==> forall k :: a <= k < a + fuel ==> OversizedFrom(file, maxWidth, maxHeight, q, browser, a, k)
    decreases fuel
  {
    if fuel > 0 {
      RetriedQualityStep(q, 0);
      if Attempt(file, maxWidth, maxHeight, q, browser, a).Oversized? {
        var q', a' := q * RetryFactor, a + 1;
        ExhaustedFrom(file, maxWidth, maxHeight, q', browser, a', fuel - 1);
        RetryStep(file, maxWidth, maxHeight, q, browser, a, fuel);
        assert OversizedFrom(file, maxWidth, maxHeight, q, browser, a, a);
        if forall k :: a <= k < a + fuel ==> OversizedFrom(file, maxWidth, maxHeight, q, browser, a, k) {
          forall k | a' <= k < a + fuel
            ensures OversizedFrom(file, maxWidth, maxHeight, q', browser, a', k)
          {
            RetriedQualityStep(q, k - a - 1);
            assert OversizedFrom(file, maxWidth, maxHeight, q, browser, a, k);
          }
        } else {
          var k :| a <= k < a + fuel && !OversizedFrom(file, maxWidth, maxHeight, q, browser, a, k);
          RetriedQualityStep(q, k - a - 1);
          assert !OversizedFrom(file, maxWidth, maxHeight, q', browser, a', k);
        }
      } else {
        assert !OversizedFrom(file, maxWidth, maxHeight, q, browser, a, a);
      }
    }
  }

  /**
    The retries are bounded: compressImage gives up with AttemptsExhausted exactly when every
    allowed attempt produced a blob over 4 MiB.
   */
  lemma Exhausted(file: SourceFile, maxWidth: nat, maxHeight: nat, quality: real, browser: Browser, fuel: nat)
    ensures CompressImage(file, maxWidth, maxHeight, quality, browser, fuel) == Failure(AttemptsExhausted)
        <==> forall k :: 0 <= k < fuel ==> OversizedFrom(file, maxWidth, maxHeight, quality, browser, 0, k)
  {
    ExhaustedFrom(file, maxWidth, maxHeight, quality, browser, 0, fuel);
  }

  /** `new File([blob], name, { type: "image/jpeg" })`. */
  function JpegFile(name: string, blob: Blob): ImageFile {
    ImageFile(name, JpegType, blob.size)
  }
}
