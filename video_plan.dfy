/** The plan optimiser of the video job (`optimizeProcessingOptions` in
    src/main/services/VideoProcessor.js): it bounds the requested scale factor
    by the 4K caps, rounds it down to one decimal, and forces quality "high"
    for long jobs with a large scale. */
module VideoPlan {
  import opened Wrappers
  import opened Probe

  const MaxWidth: int := 3840
  const MaxHeight: int := 2160
  const MaxPixels: int := 8294400

  /** The request as the renderer sends it. Fields the caller may leave
      undefined are optional. */
  datatype Options = Options(
    inputPath: string,
    outputPath: string,
    scaleFactor: real,
    enhancementMode: Option<string>,
    noiseReduction: Option<int>,
    outputQuality: Option<string>)

  /** The optimised options: the request (whose scale factor is the
      `originalScaleFactor`) with the effective scale factor and quality and
      the input and output dimensions. */
  datatype Plan = Plan(
    request: Options,
    scaleFactor: real,
    outputQuality: Option<string>,
    inputWidth: nat,
    inputHeight: nat,
    outputWidth: int,
    outputHeight: int)

  const NoVideoStreamMessage: string := "No video stream found in input file"

  /** `r` is `x` rounded to the nearest integer, halves up. */
  predicate NearestTo(r: int, x: real) {
    r as real - 0.5 <= x < r as real + 0.5
  }

  /** `Math.round`: the nearest integer, halves rounded up. */
  function Round(x: real): (r: int)
    ensures NearestTo(r, x)
  {
    (x + 0.5).Floor
  }

  function Min(a: real, b: real): real {
    if a <= b then a else b
  }

  function Max(a: real, b: real): real {
    if a >= b then a else b
  }

  /** `Math.floor(x * 10) / 10`: the largest multiple of 0.1 not above `x`. */
  function FloorTenth(x: real): (r: real)
    ensures r <= x < r + 0.1
    ensures (r * 10.0).Floor as real == r * 10.0
  {
    (x * 10.0).Floor as real / 10.0
  }

  /** `Math.min(cap / d, s)`. A zero dimension makes the ratio Infinity in
      JavaScript, which never wins the minimum. */
  function Bounded(cap: int, d: nat, s: real): (r: real)
    ensures r <= s
    ensures d > 0 ==> r <= cap as real / d as real
    ensures r == s || (d > 0 && r == cap as real / d as real)
  {
    if d == 0 then s else Min(cap as real / d as real, s)
  }

  /** The guard of the clamp: the naive output `w*s x h*s` breaks a cap. */
  predicate ExceedsCaps(w: nat, h: nat, s: real)
    ensures s >= 0.0 ==>
              (ExceedsCaps(w, h, s) <==> w as real * s > MaxWidth as real || h as real * s > MaxHeight as real)
  {
    var ow := w as real * s;
    var oh := h as real * s;
    assert s >= 0.0 ==> (ow <= MaxWidth as real && oh <= MaxHeight as real ==> ow * oh <= MaxPixels as real) by {
      if s >= 0.0 {
        PixelCapImplied(w, h, s);
      }
    }
    ow > MaxWidth as real || oh > MaxHeight as real || ow * oh > MaxPixels as real
  }

  /** A size scaled by a non-negative factor that fits the width and height
      caps fits the pixel cap, since MaxPixels == MaxWidth * MaxHeight. */
  lemma PixelCapImplied(w: nat, h: nat, s: real)
    requires s >= 0.0
    ensures var ow, oh := w as real * s, h as real * s;
            ow <= MaxWidth as real && oh <= MaxHeight as real ==> ow * oh <= MaxPixels as real
  {
    var ow, oh := w as real * s, h as real * s;
    NonNegativeProduct(w as real, s);
    NonNegativeProduct(h as real, s);
    if ow <= MaxWidth as real && oh <= MaxHeight as real {
      NonNegativeProduct(MaxWidth as real - ow, oh);
      NonNegativeProduct(MaxWidth as real, MaxHeight as real - oh);
      assert ow * oh <= MaxWidth as real * oh <= MaxWidth as real * MaxHeight as real;
    }
  }

  /** The minimum of the width ratio, the height ratio and the request. The
      pixel ratio `sqrt(MaxPixels / (w*h))` is left out of the minimum because
      it never wins it (PixelRatioNeverBinds). */
  function RatioBound(w: nat, h: nat, s: real): real {
    Bounded(MaxWidth, w, Bounded(MaxHeight, h, s))
  }

  /** The scale factor the job runs with. */
  function EffectiveScale(w: nat, h: nat, requested: real): (s: real)
    ensures !ExceedsCaps(w, h, requested) ==> s == requested
    ensures ExceedsCaps(w, h, requested) ==> 1.0 <= s && (s * 10.0).Floor as real == s * 10.0
    ensures s <= Max(1.0, requested)
  {
    if ExceedsCaps(w, h, requested) then Max(1.0, FloorTenth(RatioBound(w, h, requested))) else requested
  }

  /** The quality the job runs with: "high" for inputs longer than a minute
      scaled by more than 2; an undefined duration compares false. */
  function AdjustedQuality(duration: Option<real>, scale: real, requested: Option<string>): (q: Option<string>)
    ensures q == requested || q == Some("high")
    ensures q != requested ==> duration.Some? && duration.value > 60.0 && scale > 2.0
  {
    if duration.Some? && duration.value > 60.0 && scale > 2.0 then Some("high") else requested
  }

  /** `optimizeProcessingOptions(options)` given the probe's answer for the input. */
  function Optimize(options: Options, probe: ProbeResult): (r: Result<Plan, string>)
    ensures probe.Failure? ==> r == Failure(probe.error)
    ensures r.Success? ==> r.value.request == options
  {
    match probe
    case Failure(e) => Failure(e)
    case Success(metadata) =>
      match FindVideoStream(metadata.streams)
      case None => Failure(NoVideoStreamMessage)
      case Some(video) => Success(PlanFor(options, video.width, video.height, metadata.duration))
  }

  /** The plan for an input of `w` by `h` pixels lasting `duration`. */
  function PlanFor(options: Options, w: nat, h: nat, duration: Option<real>): Plan {
    PlanWith(options, w, h, duration, EffectiveScale(w, h, options.scaleFactor))
  }

  /** The plan once the factor `scale` is settled. */
  function PlanWith(options: Options, w: nat, h: nat, duration: Option<real>, scale: real): (p: Plan)
    ensures p.request == options && p.scaleFactor == scale && p.inputWidth == w && p.inputHeight == h
    ensures NearestTo(p.outputWidth, w as real * scale) && NearestTo(p.outputHeight, h as real * scale)
    ensures p.outputQuality == options.outputQuality || p.outputQuality == Some("high")
  {
    Plan(options, scale, AdjustedQuality(duration, scale, options.outputQuality),
         w, h, Round(w as real * scale), Round(h as real * scale))
  }

  /** A probe that found streams yields a plan exactly when one of them is a
      video stream; otherwise the job fails with the "No video stream" message. */
  lemma NoVideoStreamFails(options: Options, metadata: Metadata)
    ensures Optimize(options, Success(metadata)).Failure? <==> forall i :: 0 <= i < |metadata.streams| ==> !IsVideo(metadata.streams[i])
    ensures Optimize(options, Success(metadata)).Failure? ==> Optimize(options, Success(metadata)).error == NoVideoStreamMessage
  {
  }

  /** The plan's dimensions are those of the first video stream, and its
      sizes are computed from them (rounded as PlanForRounds states). */
  lemma PlanDimensions(options: Options, metadata: Metadata)
    requires FindVideoStream(metadata.streams).Some?
    ensures var r := Optimize(options, Success(metadata));
            var v := FindVideoStream(metadata.streams).value;
            r.Success? && r.value.inputWidth == v.width && r.value.inputHeight == v.height
            && r.value == PlanFor(options, v.width, v.height, metadata.duration)
  {
  }

  /** The output size is the input scaled by the effective factor and rounded. */
  lemma PlanForRounds(options: Options, w: nat, h: nat, duration: Option<real>)
    ensures var p := PlanFor(options, w, h, duration);
            p.inputWidth == w && p.inputHeight == h
            && NearestTo(p.outputWidth, w as real * p.scaleFactor) && NearestTo(p.outputHeight, h as real * p.scaleFactor)
  {
  }

  /** Since MaxPixels == MaxWidth * MaxHeight, the pixel ratio is the
      geometric mean of the width and height ratios, so it is never below
      their minimum: dropping it from `Math.min` changes nothing. */
  lemma PixelRatioNeverBinds(w: nat, h: nat, p: real)
    requires w > 0 && h > 0
    requires p >= 0.0 && p * p == MaxPixels as real / (w as real * h as real)
    ensures Min(MaxWidth as real / w as real, MaxHeight as real / h as real) <= p
  {
    var a := MaxWidth as real / w as real;
    var b := MaxHeight as real / h as real;
    var m := Min(a, b);
    assert a * (w as real) == MaxWidth as real;
    assert b * (h as real) == MaxHeight as real;
    assert a * b * (w as real * h as real) == MaxPixels as real;
    assert a * b == p * p;
    assert 0.0 < m;
    if p < m {
      SquareBelow(p, m);
      SquareBelowProduct(m, a, b);
    }
  }

  lemma SquareBelow(p: real, m: real)
    requires 0.0 <= p < m
    ensures p * p < m * m
  {
    var pp, pm, mm := p * p, p * m, m * m;
    assert pp <= pm;
    assert pm < mm;
  }

  lemma SquareBelowProduct(m: real, a: real, b: real)
    requires 0.0 <= m <= a && m <= b
    ensures m * m <= a * b
  {
    assert m * m <= a * m;
  }

  lemma RatioAtLeastOne(cap: int, d: nat)
    requires 0 < d <= cap
    ensures cap as real / d as real >= 1.0
  {
    assert (cap as real / d as real) * d as real == cap as real;
  }

  /** Within the caps the request is kept as it is. */
  lemma NoClampWithinCaps(w: nat, h: nat, requested: real)
    requires !ExceedsCaps(w, h, requested)
    ensures EffectiveScale(w, h, requested) == requested
  {
  }

  /** When the caps bind, the effective factor is the largest multiple of 0.1
      not above the bound, and 1 when the bound itself is below 1: it is never
      rounded up. */
  lemma ClampRoundsDown(w: nat, h: nat, requested: real)
    requires ExceedsCaps(w, h, requested)
    ensures var s := EffectiveScale(w, h, requested);
            var m := RatioBound(w, h, requested);
            if m >= 1.0 then s <= m < s + 0.1 && (s * 10.0).Floor as real == s * 10.0 else s == 1.0
  {
    var m := RatioBound(w, h, requested);
    if m >= 1.0 {
      assert (m * 10.0).Floor >= 10;
    } else {
      assert (m * 10.0).Floor < 10;
    }
  }

  lemma ScaledWithin(d: nat, cap: int, s: real)
    requires d > 0 && s <= cap as real / d as real
    ensures d as real * s <= cap as real
  {
    assert d as real * (cap as real / d as real) == cap as real;
  }

  lemma NonNegativeProduct(x: real, y: real)
    requires 0.0 <= x && 0.0 <= y
    ensures 0.0 <= x * y
  {
  }

  lemma RoundWithin(x: real, cap: int)
    requires 0.0 <= x <= cap as real
    ensures 0 <= Round(x) <= cap
  {
  }

  lemma ProductWithin(a: int, b: int)
    requires 0 <= a <= MaxWidth && 0 <= b <= MaxHeight
    ensures a * b <= MaxPixels
  {
    assert a * b <= MaxWidth * b;
    assert MaxWidth * b <= MaxWidth * MaxHeight;
  }

  /** The clamped factor keeps a request of at least 1 within the width and
      height caps of an input that is itself within them. */
  lemma ClampedWithin(w: nat, h: nat, req: real)
    requires w <= MaxWidth && h <= MaxHeight && req >= 1.0
    requires ExceedsCaps(w, h, req)
    ensures var s := EffectiveScale(w, h, req);
            1.0 <= s <= req && w as real * s <= MaxWidth as real && h as real * s <= MaxHeight as real
  {
    var s := EffectiveScale(w, h, req);
    var inner := Bounded(MaxHeight, h, req);
    var m := RatioBound(w, h, req);
    if h > 0 {
      RatioAtLeastOne(MaxHeight, h);
    }
    assert inner >= 1.0;
    if w > 0 {
      RatioAtLeastOne(MaxWidth, w);
    }
    assert m >= 1.0;
    ClampRoundsDown(w, h, req);
    assert s <= m;
    if w > 0 {
      ScaledWithin(w, MaxWidth, s);
    }
    if h > 0 {
      assert s <= inner;
      ScaledWithin(h, MaxHeight, s);
    }
  }

  /** Within the caps the unclamped request needs no help. */
  lemma UnclampedWithin(w: nat, h: nat, req: real)
    requires req >= 1.0 && !ExceedsCaps(w, h, req)
    ensures var s := EffectiveScale(w, h, req);
            1.0 <= s <= req && w as real * s <= MaxWidth as real && h as real * s <= MaxHeight as real
  {
  }

  /** Rounding keeps a scaled size within the caps it was scaled into. */
  lemma RoundedWithinCaps(w: nat, h: nat, s: real)
    requires 0.0 <= s && w as real * s <= MaxWidth as real && h as real * s <= MaxHeight as real
    ensures var ow, oh := Round(w as real * s), Round(h as real * s);
            0 <= ow <= MaxWidth && 0 <= oh <= MaxHeight && ow * oh <= MaxPixels
  {
    NonNegativeProduct(w as real, s);
    NonNegativeProduct(h as real, s);
    RoundWithin(w as real * s, MaxWidth);
    RoundWithin(h as real * s, MaxHeight);
    ProductWithin(Round(w as real * s), Round(h as real * s));
  }

  /** The effective factor of a request of at least 1 on an input within
      the caps lies between 1 and the request and keeps both sides within
      their caps. */
  lemma ScaleWithinCaps(w: nat, h: nat, req: real)
    requires w <= MaxWidth && h <= MaxHeight && req >= 1.0
    ensures 1.0 <= EffectiveScale(w, h, req) <= req
    ensures w as real * EffectiveScale(w, h, req) <= MaxWidth as real
    ensures h as real * EffectiveScale(w, h, req) <= MaxHeight as real
  {
    if ExceedsCaps(w, h, req) {
      ClampedWithin(w, h, req);
    } else {
      UnclampedWithin(w, h, req);
    }
  }

  /** An output size that fits the 4K caps: width, height and pixel count. */
  predicate FitsCaps(ow: int, oh: int) {
    0 <= ow <= MaxWidth && 0 <= oh <= MaxHeight && ow * oh <= MaxPixels
  }

  /** The effective factor and the rounded output size it gives. */
  lemma EffectiveSizeWithinCaps(w: nat, h: nat, s: real, requested: real)
    requires w <= MaxWidth && h <= MaxHeight && requested >= 1.0 && s == EffectiveScale(w, h, requested)
    ensures 1.0 <= s <= requested
    ensures FitsCaps(Round(w as real * s), Round(h as real * s))
  {
    ScaleWithinCaps(w, h, requested);
    RoundedWithinCaps(w, h, s);
  }

  /** WithinCaps for the plan of a given input size. */
  lemma PlanForWithinCaps(options: Options, w: nat, h: nat, duration: Option<real>)
    requires w <= MaxWidth && h <= MaxHeight && options.scaleFactor >= 1.0
    ensures 1.0 <= PlanFor(options, w, h, duration).scaleFactor <= options.scaleFactor
    ensures FitsCaps(PlanFor(options, w, h, duration).outputWidth, PlanFor(options, w, h, duration).outputHeight)
  {
    var s := EffectiveScale(w, h, options.scaleFactor);
    var p := PlanFor(options, w, h, duration);
    assert p == PlanWith(options, w, h, duration, s);
    assert p.scaleFactor == s && p.outputWidth == Round(w as real * s) && p.outputHeight == Round(h as real * s);
    EffectiveSizeWithinCaps(w, h, s, options.scaleFactor);
  }

  /** For an input within the caps and a request of at least 1, the output
      stays within all three caps and the factor is between 1 and the request. */
  lemma WithinCaps(options: Options, metadata: Metadata)
    requires FindVideoStream(metadata.streams).Some?
    requires FindVideoStream(metadata.streams).value.width <= MaxWidth
    requires FindVideoStream(metadata.streams).value.height <= MaxHeight
    requires options.scaleFactor >= 1.0
    ensures var r := Optimize(options, Success(metadata));
            r.Success?
            && 1.0 <= r.value.scaleFactor <= options.scaleFactor
            && FitsCaps(r.value.outputWidth, r.value.outputHeight)
  {
    var v := FindVideoStream(metadata.streams).value;
    PlanForWithinCaps(options, v.width, v.height, metadata.duration);
    assert Optimize(options, Success(metadata)) == Success(PlanFor(options, v.width, v.height, metadata.duration));
  }

  /** The quality is forced to "high" exactly for inputs longer than 60 s run
      at an effective factor above 2; in every other case, including an
      undefined duration, it is the requested one. */
  lemma QualityDowngrade(options: Options, metadata: Metadata)
    requires FindVideoStream(metadata.streams).Some?
    ensures var r := Optimize(options, Success(metadata));
            var long := metadata.duration.Some? && metadata.duration.value > 60.0;
            r.Success?
            && (long && r.value.scaleFactor > 2.0 ==> r.value.outputQuality == Some("high"))
            && (!(long && r.value.scaleFactor > 2.0) ==> r.value.outputQuality == options.outputQuality)
            && (metadata.duration.None? ==> r.value.outputQuality == options.outputQuality)
  {
  }

  /** 1920x1080 at 4x: every ratio is 2, so the job runs at 2x and 3840x2160. */
  lemma ClampExample()
    ensures var o := Options("in.mp4", "out.mp4", 4.0, Some("sharp"), Some(50), Some("ultra"));
            var m := Metadata([Stream("audio", 0, 0, Some("aac")), Stream("video", 1920, 1080, Some("h264"))], Some(30.0), Some("mov,mp4"));
            var r := Optimize(o, Success(m));
            r.Success? && r.value.scaleFactor == 2.0
            && r.value.outputWidth == 3840 && r.value.outputHeight == 2160
            && r.value.outputQuality == Some("ultra")
  {
    var streams := [Stream("audio", 0, 0, Some("aac")), Stream("video", 1920, 1080, Some("h264"))];
    assert FindVideoStream(streams) == Some(streams[1]);
    assert ExceedsCaps(1920, 1080, 4.0);
    assert RatioBound(1920, 1080, 4.0) == 2.0;
    assert FloorTenth(2.0) == 2.0;
  }

  /** 90 s of 640x360 at 3x stays within the caps, so quality "ultra" becomes "high". */
  lemma DowngradeExample()
    ensures var o := Options("in.mp4", "out.mp4", 3.0, None, None, Some("ultra"));
            var m := Metadata([Stream("video", 640, 360, Some("h264"))], Some(90.0), Some("mov,mp4"));
            var r := Optimize(o, Success(m));
            r.Success? && r.value.scaleFactor == 3.0 && r.value.outputQuality == Some("high")
            && r.value.outputWidth == 1920 && r.value.outputHeight == 1080
  {
    var streams := [Stream("video", 640, 360, Some("h264"))];
    assert FindVideoStream(streams) == Some(streams[0]);
    assert !ExceedsCaps(640, 360, 3.0);
  }

  /** An input already above the caps keeps factor 1 and stays above them:
      `Math.max(1, ...)` wins over the caps. */
  lemma OverCapsInputStaysOver()
    ensures var o := Options("in.mp4", "out.mp4", 2.0, None, None, None);
            var m := Metadata([Stream("video", 7680, 4320, Some("h264"))], None, Some("mov,mp4"));
            var r := Optimize(o, Success(m));
            r.Success? && r.value.scaleFactor == 1.0
            && r.value.outputWidth == 7680 && r.value.outputWidth > MaxWidth
  {
    var streams := [Stream("video", 7680, 4320, Some("h264"))];
    assert FindVideoStream(streams) == Some(streams[0]);
    assert ExceedsCaps(7680, 4320, 2.0);
    assert RatioBound(7680, 4320, 2.0) == 0.5;
    assert FloorTenth(0.5) == 0.5;
  }
}
