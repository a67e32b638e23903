/** The ffmpeg command of a video job (`enhanceVideo`, `buildVideoFilters`,
    `getScalingAlgorithm`, `getPresetForQuality` and `applyQualitySettings` in
    src/main/services/VideoProcessor.js), with the command described as data:
    its output options, its video codec and its filter chain. */
module VideoFilters {
  import opened Wrappers
  import opened Text
  import opened VideoPlan

  /** One stage of the `-vf` chain, with the parameters the source writes
      into the stage's text. */
  datatype Stage =
    | Scale(width: int, height: int, algorithm: string)
    | Denoise(lumaSpatial: real, chromaSpatial: real, lumaTemporal: real, chromaTemporal: real)
    | Unsharp(lumaX: nat, lumaY: nat, lumaAmount: real, chromaX: nat, chromaY: nat, chromaAmount: real)
    | AvgBlur(radius: nat)

  /** The arguments of `buildVideoFilters`. */
  datatype FilterOptions = FilterOptions(
    scaleFactor: real,
    enhancementMode: string,
    noiseReduction: int,
    targetWidth: int,
    targetHeight: int)

  /** `videoCodec(...)` and `outputOptions([...])` of one quality tier. */
  datatype CodecCall = CodecCall(videoCodec: string, outputOptions: seq<string>)

  /** The ffmpeg command `enhanceVideo` configures before starting it. */
  datatype Command = Command(
    input: string,
    output: string,
    outputOptions: seq<string>,
    filters: seq<Stage>,
    videoCodec: string)

  /** The modes that add a third, mode-specific stage. */
  predicate IsEnhancingMode(mode: string) {
    mode == "sharp" || mode == "smooth" || mode == "anime"
  }

  /** The qualities with a tier of their own; every other value gets the fast tier. */
  predicate IsKnownQuality(q: string) {
    q == "ultra" || q == "high" || q == "lossless"
  }

  /** `getScalingAlgorithm`. */
  function ScalingAlgorithm(mode: string): (r: string)
    ensures r == "lanczos" <==> mode == "sharp"
    ensures r == "spline" <==> mode == "anime"
    ensures r == "bicubic" <==> mode != "sharp" && mode != "anime"
  {
    if mode == "sharp" then "lanczos"
    else if mode == "smooth" then "bicubic"
    else if mode == "anime" then "spline"
    else "bicubic"
  }

  /** The spatial strength of `hqdn3d`: the slider value as a fraction, capped at 0.8. */
  function DenoiseStrength(noiseReduction: int): (s: real)
    ensures noiseReduction > 0 ==> 0.0 < s <= 0.8
    ensures s <= 0.8 && s <= noiseReduction as real / 100.0
    ensures s == 0.8 || s == noiseReduction as real / 100.0
  {
    Min(noiseReduction as real / 100.0, 0.8)
  }

  /** The denoise stage for a slider value: full strength in space, half in time. */
  function DenoiseStage(noiseReduction: int): (r: Stage)
    ensures r.Denoise? && r.lumaSpatial == DenoiseStrength(noiseReduction) && r.chromaSpatial == r.lumaSpatial
    ensures r.lumaTemporal == r.lumaSpatial / 2.0 && r.chromaTemporal == r.lumaTemporal
  {
    var s := DenoiseStrength(noiseReduction);
    Denoise(s, s, s * 0.5, s * 0.5)
  }

  /** The stage a mode adds after scaling and denoising. */
  function ModeStage(mode: string): (r: Option<Stage>)
    ensures r.Some? <==> IsEnhancingMode(mode)
  {
    if mode == "sharp" then Some(Unsharp(3, 3, 0.8, 3, 3, 0.0))
    else if mode == "smooth" then Some(AvgBlur(1))
    else if mode == "anime" then Some(Unsharp(2, 2, 0.6, 2, 2, 0.0))
    else None
  }

  /** The mode tables together: each enhancing mode adds its own stage,
      sharp and anime different ones; every other mode, "standard"
      included, scales like "smooth" and adds none. */
  lemma ModeTables(mode: string)
    ensures IsEnhancingMode(mode) ==> ModeStage(mode).Some?
    ensures !IsEnhancingMode(mode) ==> ModeStage(mode).None? && ScalingAlgorithm(mode) == ScalingAlgorithm("smooth")
    ensures ModeStage("sharp") != ModeStage("anime")
  {
  }

  /** The position class of a stage in the chain. */
  function Rank(stage: Stage): nat {
    match stage
    case Scale(_, _, _) => 0
    case Denoise(_, _, _, _) => 1
    case _ => 2
  }

  /** Stages appear in the order scale, denoise, mode stage, each at most once. */
  predicate InOrder(filters: seq<Stage>) {
    forall i, j | 0 <= i < j < |filters| :: Rank(filters[i]) < Rank(filters[j])
  }

  /** What `buildVideoFilters` promises: the fixed order; a scale stage exactly
      when upscaling, to the target size with the mode's algorithm; a denoise
      stage exactly when the slider is positive; the mode's own stage exactly
      for sharp, smooth and anime. */
  predicate FiltersFor(o: FilterOptions, filters: seq<Stage>) {
    InOrder(filters)
    && ((exists i | 0 <= i < |filters| :: Rank(filters[i]) == 0) <==> o.scaleFactor > 1.0)
    && ((exists i | 0 <= i < |filters| :: Rank(filters[i]) == 1) <==> o.noiseReduction > 0)
    && ((exists i | 0 <= i < |filters| :: Rank(filters[i]) == 2) <==> IsEnhancingMode(o.enhancementMode))
    && (forall i | 0 <= i < |filters| && Rank(filters[i]) == 0 ::
          filters[i] == Scale(o.targetWidth, o.targetHeight, ScalingAlgorithm(o.enhancementMode)))
    && (forall i | 0 <= i < |filters| && Rank(filters[i]) == 1 :: filters[i] == DenoiseStage(o.noiseReduction))
    && (forall i | 0 <= i < |filters| && Rank(filters[i]) == 2 :: Some(filters[i]) == ModeStage(o.enhancementMode))
  }

  /** `buildVideoFilters`: appends the stages one condition at a time. */
  method BuildVideoFilters(o: FilterOptions) returns (filters: seq<Stage>)
    ensures FiltersFor(o, filters)
  {
    filters := [];
    if o.scaleFactor > 1.0 {
      filters := filters + [Scale(o.targetWidth, o.targetHeight, ScalingAlgorithm(o.enhancementMode))];
    }
    if o.noiseReduction > 0 {
      filters := filters + [DenoiseStage(o.noiseReduction)];
    }
    var extra := ModeStage(o.enhancementMode);
    if extra.Some? {
      filters := filters + [extra.value];
    }
    assert filters == ScalePart(o) + DenoisePart(o) + ModePart(o);
    PartsMeetSpec(o);
  }

  /** The scale stage, when upscaling. */
  function ScalePart(o: FilterOptions): seq<Stage> {
    if o.scaleFactor > 1.0 then [Scale(o.targetWidth, o.targetHeight, ScalingAlgorithm(o.enhancementMode))] else []
  }

  /** The denoise stage, when the slider is positive. */
  function DenoisePart(o: FilterOptions): seq<Stage> {
    if o.noiseReduction > 0 then [DenoiseStage(o.noiseReduction)] else []
  }

  /** The mode's own stage, if it has one. */
  function ModePart(o: FilterOptions): seq<Stage> {
    match ModeStage(o.enhancementMode)
    case Some(stage) => [stage]
    case None => []
  }

  /** The three parts, in order, meet the specification. */
  lemma PartsMeetSpec(o: FilterOptions)
    ensures FiltersFor(o, ScalePart(o) + DenoisePart(o) + ModePart(o))
  {
    var f := ScalePart(o) + DenoisePart(o) + ModePart(o);
    PartsPositions(o);
    if o.scaleFactor > 1.0 {
      assert Rank(f[0]) == 0;
    }
    if o.noiseReduction > 0 {
      assert Rank(f[|ScalePart(o)|]) == 1;
    }
    if IsEnhancingMode(o.enhancementMode) {
      assert Rank(f[|ScalePart(o)| + |DenoisePart(o)|]) == 2;
    }
  }

  /** Where each part sits in the chain, and the rank of its stages. */
  lemma PartsPositions(o: FilterOptions)
    ensures var a, b, c := ScalePart(o), DenoisePart(o), ModePart(o);
            var f := a + b + c;
            (forall i | 0 <= i < |a| :: f[i] == a[i] && Rank(f[i]) == 0)
            && (forall i | |a| <= i < |a| + |b| :: f[i] == b[i - |a|] && Rank(f[i]) == 1)
            && (forall i | |a| + |b| <= i < |f| :: f[i] == c[i - |a| - |b|] && Rank(f[i]) == 2)
  {
  }

  /** When upscaling, the chain starts with the scale stage, so denoising
      and the mode's stage always come after it. */
  lemma ScaleComesFirst(o: FilterOptions, filters: seq<Stage>)
    requires FiltersFor(o, filters) && o.scaleFactor > 1.0
    ensures |filters| > 0 && filters[0] == Scale(o.targetWidth, o.targetHeight, ScalingAlgorithm(o.enhancementMode))
    ensures forall i | 0 < i < |filters| :: !filters[i].Scale?
  {
    var k :| 0 <= k < |filters| && Rank(filters[k]) == 0;
    assert k == 0;
    forall i | 0 < i < |filters| ensures !filters[i].Scale? {
      assert Rank(filters[0]) < Rank(filters[i]);
    }
  }

  /** An ordered chain has at most one stage per rank, hence at most three. */
  lemma {:induction false} InOrderAtMostThree(filters: seq<Stage>)
    requires InOrder(filters)
    ensures |filters| <= 3
  {
    assert |filters| > 3 ==> Rank(filters[0]) < Rank(filters[1]) < Rank(filters[2]) < Rank(filters[3]);
  }

  /** The chain the specification allows is unique: it is the list of the
      required stages in rank order. */
  lemma FiltersForDetermined(o: FilterOptions, f: seq<Stage>, g: seq<Stage>)
    requires FiltersFor(o, f) && FiltersFor(o, g)
    ensures f == g
  {
    RankSetsAgree(o, f, g);
    RanksDetermine(f, g);
    forall i | 0 <= i < |f|
      ensures f[i] == g[i]
    {
      assert Rank(f[i]) == Rank(g[i]);
    }
  }

  /** Two ordered chains with the same ranks present have the same ranks at
      every position. */
  lemma RanksDetermine(f: seq<Stage>, g: seq<Stage>)
    requires InOrder(f) && InOrder(g)
    requires RankSet(f) == RankSet(g)
    ensures |f| == |g|
    ensures forall i | 0 <= i < |f| :: Rank(f[i]) == Rank(g[i])
  {
    RankPositions(f);
    RankPositions(g);
  }

  /** Two chains meeting the specification have the same ranks present. */
  lemma RankSetsAgree(o: FilterOptions, f: seq<Stage>, g: seq<Stage>)
    requires FiltersFor(o, f) && FiltersFor(o, g)
    ensures RankSet(f) == RankSet(g)
  {
    forall r | r in RankSet(f) ensures r in RankSet(g) {
      var i :| 0 <= i < |f| && Rank(f[i]) == r;
      assert r <= 2;
    }
    forall r | r in RankSet(g) ensures r in RankSet(f) {
      var i :| 0 <= i < |g| && Rank(g[i]) == r;
      assert r <= 2;
    }
  }

  /** The ranks present in a chain. */
  function RankSet(f: seq<Stage>): set<nat> {
    set i | 0 <= i < |f| :: Rank(f[i])
  }

  /** In an ordered chain, the rank at each position is fixed by the set of
      ranks present: it is the count of smaller ranks present. */
  lemma RankPositions(f: seq<Stage>)
    requires InOrder(f)
    ensures |f| == |RankSet(f)|
    ensures forall i | 0 <= i < |f| :: Rank(f[i]) == NthRank(RankSet(f), i)
  {
    InOrderAtMostThree(f);
    var s := RankSet(f);
    if |f| == 0 {
      assert s == {};
    } else if |f| == 1 {
      assert s == {Rank(f[0])};
    } else if |f| == 2 {
      assert s == {Rank(f[0]), Rank(f[1])};
      assert Rank(f[0]) < Rank(f[1]) <= 2;
    } else {
      assert Rank(f[0]) < Rank(f[1]) < Rank(f[2]) <= 2;
      assert s == {0, 1, 2};
    }
  }

  /** The `i`-th smallest member of a set of ranks below 3. */
  function NthRank(s: set<nat>, i: nat): nat {
    if i == 0 then (if 0 in s then 0 else if 1 in s then 1 else 2)
    else if i == 1 then (if 0 in s && 1 in s then 1 else 2)
    else 2
  }

  /** `getPresetForQuality`. */
  function PresetForQuality(quality: string): (r: string)
    ensures r == "slow" <==> quality == "ultra"
    ensures r == "medium" <==> quality == "high"
    ensures r == "veryslow" <==> quality == "lossless"
    ensures r == "fast" <==> !IsKnownQuality(quality)
  {
    if quality == "ultra" then "slow"
    else if quality == "high" then "medium"
    else if quality == "lossless" then "veryslow"
    else "fast"
  }

  /** `applyQualitySettings`: the codec and its rate-control options. */
  function ApplyQualitySettings(quality: string): (c: CodecCall)
    ensures c.videoCodec == "libx264" && |c.outputOptions| == 6
    ensures c.outputOptions[0] == "-crf" && c.outputOptions[2] == "-maxrate" && c.outputOptions[4] == "-bufsize"
    ensures !IsKnownQuality(quality) ==> c.outputOptions[1] == "25"
  {
    if quality == "ultra" then CodecCall("libx264", ["-crf", "20", "-maxrate", "10M", "-bufsize", "20M"])
    else if quality == "high" then CodecCall("libx264", ["-crf", "23", "-maxrate", "8M", "-bufsize", "16M"])
    else if quality == "lossless" then CodecCall("libx264", ["-crf", "0", "-maxrate", "50M", "-bufsize", "100M"])
    else CodecCall("libx264", ["-crf", "25", "-maxrate", "5M", "-bufsize", "10M"])
  }

  /** A rate written as a decimal count of megabits, such as "10M". */
  function Megabits(rate: string): Option<nat> {
    if |rate| >= 1 && rate[|rate| - 1] == 'M' then ParseNat(rate[..|rate| - 1]) else None
  }

  /** The numbers of a tier: CRF, maxrate and bufsize, read back from its options. */
  function TierNumbers(quality: string): (Option<nat>, Option<nat>, Option<nat>) {
    var opts := ApplyQualitySettings(quality).outputOptions;
    (ParseNat(opts[1]), Megabits(opts[3]), Megabits(opts[5]))
  }

  /** Every tier's numbers are well-formed, and its buffer is twice its
      maximum rate. */
  lemma QualityTierShape(quality: string)
    ensures var (crf, maxrate, bufsize) := TierNumbers(quality);
            crf.Some? && maxrate.Some? && bufsize.Some? && bufsize.value == 2 * maxrate.value
  {
    TierLiterals();
  }

  /** The decimal values of the literals in the quality tiers. */
  lemma TierLiterals()
    ensures ParseNat("0") == Some(0) && ParseNat("20") == Some(20)
    ensures ParseNat("23") == Some(23) && ParseNat("25") == Some(25)
    ensures Megabits("5M") == Some(5) && Megabits("8M") == Some(8)
    ensures Megabits("10M") == Some(10) && Megabits("16M") == Some(16)
    ensures Megabits("20M") == Some(20) && Megabits("50M") == Some(50)
    ensures Megabits("100M") == Some(100)
  {
    assert "20"[..1] == "2" && "23"[..1] == "2" && "25"[..1] == "2";
    assert "5M"[..1] == "5" && "8M"[..1] == "8";
    assert "10M"[..2] == "10" && "10"[..1] == "1";
    assert "16M"[..2] == "16" && "16"[..1] == "1";
    assert "20M"[..2] == "20";
    assert "50M"[..2] == "50" && "50"[..1] == "5";
    assert "100M"[..3] == "100" && "100"[..2] == "10";
  }

  /** Higher tiers spend more: CRF goes down and the maximum rate goes up from
      the fast tier to high, ultra and lossless; any unknown quality,
      including "draft", gets the fast tier. */
  lemma QualityLadder(quality: string)
    ensures TierNumbers("lossless").0 == Some(0) && TierNumbers("ultra").0 == Some(20)
    ensures TierNumbers("high").0 == Some(23) && TierNumbers("draft").0 == Some(25)
    ensures TierNumbers("lossless").1 == Some(50) && TierNumbers("ultra").1 == Some(10)
    ensures TierNumbers("high").1 == Some(8) && TierNumbers("draft").1 == Some(5)
    ensures !IsKnownQuality(quality) ==> ApplyQualitySettings(quality) == ApplyQualitySettings("draft")
  {
    TierLiterals();
  }

  /** `enhanceVideo`'s destructuring defaults: mode "standard", slider 50. */
  function FilterOptionsFor(plan: Plan): FilterOptions {
    FilterOptions(plan.scaleFactor,
                  plan.request.enhancementMode.GetOr("standard"),
                  plan.request.noiseReduction.GetOr(50),
                  plan.outputWidth, plan.outputHeight)
  }

  /** The quality `enhanceVideo` uses: the plan's, or "high" when undefined. */
  function QualityFor(plan: Plan): string {
    plan.outputQuality.GetOr("high")
  }

  /** What `enhanceVideo` builds for `plan`: the request's input and output,
      thread and preset options, then the quality tier's codec options, and
      the filter chain for the plan. */
  predicate CommandFor(plan: Plan, c: Command) {
    c.input == plan.request.inputPath && c.output == plan.request.outputPath
    && |c.outputOptions| == 12
    && c.outputOptions[..6] == ["-threads", "0", "-preset", PresetForQuality(QualityFor(plan)), "-avoid_negative_ts", "make_zero"]
    && c.outputOptions[6..] == ApplyQualitySettings(QualityFor(plan)).outputOptions
    && c.videoCodec == "libx264"
    && FiltersFor(FilterOptionsFor(plan), c.filters)
  }

  /** `enhanceVideo` up to `command.save`. */
  method EnhanceCommand(plan: Plan) returns (c: Command)
    ensures CommandFor(plan, c)
  {
    var quality := QualityFor(plan);
    var filters := BuildVideoFilters(FilterOptionsFor(plan));
    var codec := ApplyQualitySettings(quality);
    c := Command(plan.request.inputPath, plan.request.outputPath,
                 ["-threads", "0", "-preset", PresetForQuality(quality), "-avoid_negative_ts", "make_zero"] + codec.outputOptions,
                 filters, codec.videoCodec);
  }

  /** With the request's defaults a job at factor 1 gets exactly one stage: a
      denoise at strength 0.5 (temporal 0.25); "standard" adds nothing. */
  lemma DefaultChain(plan: Plan, filters: seq<Stage>)
    requires plan.scaleFactor == 1.0
    requires plan.request.enhancementMode.None? && plan.request.noiseReduction.None?
    requires FiltersFor(FilterOptionsFor(plan), filters)
    ensures filters == [Denoise(0.5, 0.5, 0.25, 0.25)]
  {
    var o := FilterOptionsFor(plan);
    assert DenoiseStrength(50) == 0.5;
    PartsMeetSpec(o);
    assert ScalePart(o) + DenoisePart(o) + ModePart(o) == [Denoise(0.5, 0.5, 0.25, 0.25)];
    FiltersForDetermined(o, filters, [Denoise(0.5, 0.5, 0.25, 0.25)]);
  }
}
