/** Shape inference of the prior-box (SSD anchor) operator.
    The operator takes the shape of a feature map (`Input`) and of the
    original image (`Image`) and a record of attributes. It validates them
    in a fixed order, aborting at the first failed check, and on success
    gives both outputs (`Boxes` and `Variances`) the shape
    [H, W, num_priors, 4]. */
module PriorBoxOp {

  datatype Option<T> = None | Some(value: T)

  /** A tensor shape: one extent per axis (NCHW for both inputs). */
  type Dims = seq<int>

  /** The attributes that shape inference reads. The float attributes are
      modelled as `real`; only their comparison with 0 matters here. */
  datatype Config = Config(
    minSizes: seq<int>,
    maxSizes: seq<int>,
    variances: seq<real>,
    aspectRatios: seq<real>,
    flip: bool,
    stepH: real,
    stepW: real)

  /** The attribute defaults: `flip` is true and both steps are 0.0;
      the four list attributes have no default and must be supplied. */
  function DefaultConfig(minSizes: seq<int>, maxSizes: seq<int>,
                         aspectRatios: seq<real>, variances: seq<real>): (c: Config)
    ensures c.flip && c.stepH == 0.0 && c.stepW == 0.0
    ensures c.minSizes == minSizes && c.maxSizes == maxSizes
    ensures c.aspectRatios == aspectRatios && c.variances == variances
  {
    Config(minSizes, maxSizes, variances, aspectRatios, true, 0.0, 0.0)
  }

  /** One variant per enforcement of shape inference, in source order;
      the three loop checks carry the index they report. */
  datatype Error =
    | InputMissing
    | ImageMissing
    | ImageNotNCHW
    | InputNotNCHW
    | HeightNotSmaller
    | WidthNotSmaller
    | MinSizesEmpty
    | MinSizeNotPositive(index: nat)
    | MaxSizesCountMismatch
    | MaxSizeNotGreater(index: nat)
    | VariancesNotFour
    | VarianceNotPositive(index: nat)
    | StepHNotPositive
    | StepWNotPositive

  datatype Result<T> = Ok(value: T) | Err(error: Error)

  /** The two output shapes, set one after the other from the same vector. */
  datatype OutputDims = OutputDims(boxes: Dims, variances: Dims)

  /** Where an error's check stands in the sequence of checks. */
  function Position(e: Error): (k: nat)
  {
    match e
    case InputMissing => 0
    case ImageMissing => 1
    case ImageNotNCHW => 2
    case InputNotNCHW => 3
    case HeightNotSmaller => 4
    case WidthNotSmaller => 5
    case MinSizesEmpty => 6
    case MinSizeNotPositive(_) => 7
    case MaxSizesCountMismatch => 8
    case MaxSizeNotGreater(_) => 9
    case VariancesNotFour => 10
    case VarianceNotPositive(_) => 11
    case StepHNotPositive => 12
    case StepWNotPositive => 13
  }

  /** The loop index an error reports, 0 for a check outside a loop. */
  function Index(e: Error): (i: nat)
  {
    match e
    case MinSizeNotPositive(i) => i
    case MaxSizeNotGreater(i) => i
    case VarianceNotPositive(i) => i
    case _ => 0
  }

  /** `a` would be raised before `b`: an earlier check, or the same loop
      check at a smaller index. */
  predicate Before(a: Error, b: Error)
  {
    Position(a) < Position(b) || (Position(a) == Position(b) && Index(a) < Index(b))
  }

  /** Both inputs are present and have rank 4. */
  predicate BothNCHW(input: Option<Dims>, image: Option<Dims>)
  {
    input.Some? && image.Some? && |input.value| == 4 && |image.value| == 4
  }

  /** The condition that error `e` complains about holds of the inputs.
      A check that the source reaches only after another one passed is
      stated under that other check's success where it needs it (the
      height test needs rank-4 shapes, the per-index max-size test needs
      equal lengths). */
  predicate Violates(e: Error, input: Option<Dims>, image: Option<Dims>, cfg: Config)
  {
    match e
    case InputMissing => input.None?
    case ImageMissing => image.None?
    case ImageNotNCHW => image.Some? && |image.value| != 4
    case InputNotNCHW => input.Some? && |input.value| != 4
    case HeightNotSmaller => BothNCHW(input, image) && input.value[2] >= image.value[2]
    case WidthNotSmaller => BothNCHW(input, image) && input.value[3] >= image.value[3]
    case MinSizesEmpty => |cfg.minSizes| == 0
    case MinSizeNotPositive(i) => i < |cfg.minSizes| && cfg.minSizes[i] <= 0
    case MaxSizesCountMismatch => |cfg.maxSizes| > 0 && |cfg.maxSizes| != |cfg.minSizes|
    case MaxSizeNotGreater(i) =>
      |cfg.maxSizes| == |cfg.minSizes| && i < |cfg.minSizes| && cfg.maxSizes[i] <= cfg.minSizes[i]
    case VariancesNotFour => |cfg.variances| != 4
    case VarianceNotPositive(i) => i < |cfg.variances| && cfg.variances[i] <= 0.0
    case StepHNotPositive => cfg.stepH <= 0.0
    case StepWNotPositive => cfg.stepW <= 0.0
  }

  /** `e` is the error shape inference raises: its condition holds and no
      condition of an earlier check does. */
  ghost predicate Earliest(e: Error, input: Option<Dims>, image: Option<Dims>, cfg: Config)
  {
    Violates(e, input, image, cfg) &&
    forall d :: Before(d, e) ==> !Violates(d, input, image, cfg)
  }

  /** The input-shape checks pass: both present, rank 4, and the feature
      map strictly smaller than the image in height and width. */
  predicate ShapesOk(input: Option<Dims>, image: Option<Dims>)
  {
    BothNCHW(input, image) &&
    input.value[2] < image.value[2] &&
    input.value[3] < image.value[3]
  }

  /** The first `n` min sizes are positive. */
  predicate MinSizesPositiveUpTo(cfg: Config, n: nat)
    requires n <= |cfg.minSizes|
  {
    forall j :: 0 <= j < n ==> cfg.minSizes[j] > 0
  }

  /** The min-size checks pass: at least one, all positive. */
  predicate MinSizesOk(cfg: Config)
  {
    |cfg.minSizes| > 0 && MinSizesPositiveUpTo(cfg, |cfg.minSizes|)
  }

  /** The first `n` max sizes exceed their min sizes. */
  predicate MaxSizesGreaterUpTo(cfg: Config, n: nat)
    requires n <= |cfg.minSizes| == |cfg.maxSizes|
  {
    forall j :: 0 <= j < n ==> cfg.maxSizes[j] > cfg.minSizes[j]
  }

  /** The max-size checks pass: none given, or one per min size and each
      greater than its min size. */
  predicate MaxSizesOk(cfg: Config)
  {
    |cfg.maxSizes| > 0 ==>
      |cfg.maxSizes| == |cfg.minSizes| && MaxSizesGreaterUpTo(cfg, |cfg.minSizes|)
  }

  /** The first `n` variances are positive. */
  predicate VariancesPositiveUpTo(cfg: Config, n: nat)
    requires n <= |cfg.variances|
  {
    forall j :: 0 <= j < n ==> cfg.variances[j] > 0.0
  }

  /** The variance checks pass: exactly four, all positive. */
  predicate VariancesOk(cfg: Config)
  {
    |cfg.variances| == 4 && VariancesPositiveUpTo(cfg, 4)
  }

  /** All checks the source runs before the one that raises `e` pass (for a
      loop check, also its iterations before `e`'s index). */
  predicate PassedBefore(e: Error, input: Option<Dims>, image: Option<Dims>, cfg: Config)
  {
    match e
    case InputMissing => true
    case ImageMissing => input.Some?
    case ImageNotNCHW => input.Some? && image.Some?
    case InputNotNCHW => input.Some? && image.Some? && |image.value| == 4
    case HeightNotSmaller => BothNCHW(input, image)
    case WidthNotSmaller => BothNCHW(input, image) && input.value[2] < image.value[2]
    case MinSizesEmpty => ShapesOk(input, image)
    case MinSizeNotPositive(i) =>
      ShapesOk(input, image) && i <= |cfg.minSizes| && MinSizesPositiveUpTo(cfg, i)
    case MaxSizesCountMismatch => ShapesOk(input, image) && MinSizesOk(cfg)
    case MaxSizeNotGreater(i) =>
      ShapesOk(input, image) && MinSizesOk(cfg) &&
      |cfg.maxSizes| == |cfg.minSizes| && i <= |cfg.minSizes| && MaxSizesGreaterUpTo(cfg, i)
    case VariancesNotFour => ShapesOk(input, image) && MinSizesOk(cfg) && MaxSizesOk(cfg)
    case VarianceNotPositive(i) =>
      ShapesOk(input, image) && MinSizesOk(cfg) && MaxSizesOk(cfg) &&
      |cfg.variances| == 4 && i <= 4 && VariancesPositiveUpTo(cfg, i)
    case StepHNotPositive =>
      ShapesOk(input, image) && MinSizesOk(cfg) && MaxSizesOk(cfg) && VariancesOk(cfg)
    case StepWNotPositive =>
      ShapesOk(input, image) && MinSizesOk(cfg) && MaxSizesOk(cfg) && VariancesOk(cfg) &&
      cfg.stepH > 0.0
  }

  /** The attribute checks pass. */
  predicate AttributesOk(cfg: Config)
  {
    MinSizesOk(cfg) && MaxSizesOk(cfg) && VariancesOk(cfg) && cfg.stepH > 0.0 && cfg.stepW > 0.0
  }

  /** The success condition of shape inference as one conjunction. */
  predicate Accepted(input: Option<Dims>, image: Option<Dims>, cfg: Config)
  {
    ShapesOk(input, image) && AttributesOk(cfg)
  }

  /** Priors per grid cell: one per expanded aspect ratio and min size, plus
      one per min size when max sizes are given. */
  function NumPriors(numRatios: nat, numMinSizes: nat, numMaxSizes: nat): (n: nat)
  {
    numRatios * numMinSizes + (if numMaxSizes > 0 then numMinSizes else 0)
  }

  /** Shape inference. `expand` stands for the aspect-ratio expansion, which
      is defined outside this model; only the length of its result matters.
      On failure the error names a check whose condition is violated while
      every check before it passed. */
  method InferShape(input: Option<Dims>, image: Option<Dims>, cfg: Config,
                    expand: (seq<real>, bool) -> seq<real>)
    returns (r: Result<OutputDims>)
    ensures r.Ok? <==> Accepted(input, image, cfg)
    ensures r.Err? ==> Violates(r.error, input, image, cfg) && PassedBefore(r.error, input, image, cfg)
    ensures r.Ok? ==>
      var n := NumPriors(|expand(cfg.aspectRatios, cfg.flip)|, |cfg.minSizes|, |cfg.maxSizes|);
      r.value.boxes == [input.value[2], input.value[3], n, 4] &&
      r.value.variances == r.value.boxes
  {
    if input.None? {
      return Err(InputMissing);
    }
    if image.None? {
      return Err(ImageMissing);
    }
    var imageDims := image.value;
    var inputDims := input.value;
    if |imageDims| != 4 {
      return Err(ImageNotNCHW);
    }
    if |inputDims| != 4 {
      return Err(InputNotNCHW);
    }
    if !(inputDims[2] < imageDims[2]) {
      return Err(HeightNotSmaller);
    }
    if !(inputDims[3] < imageDims[3]) {
      return Err(WidthNotSmaller);
    }

    var attrs := CheckAttributes(input, image, cfg, expand);
    if attrs.Err? {
      return Err(attrs.error);
    }
    var numPriors := attrs.value;

    var dimVec := new int[4];
    dimVec[0] := inputDims[2];
    dimVec[1] := inputDims[3];
    dimVec[2] := numPriors;
    dimVec[3] := 4;
    r := Ok(OutputDims(dimVec[..], dimVec[..]));
  }

  /** The attribute part of shape inference, run once the input shapes have
      passed: the min-size, max-size, variance and step checks, counting
      `num_priors` on the way. */
  method CheckAttributes(ghost input: Option<Dims>, ghost image: Option<Dims>, cfg: Config,
                         expand: (seq<real>, bool) -> seq<real>)
    returns (r: Result<nat>)
    requires ShapesOk(input, image)
    ensures r.Ok? <==> AttributesOk(cfg)
    ensures r.Err? ==> Violates(r.error, input, image, cfg) && PassedBefore(r.error, input, image, cfg)
    ensures r.Ok? ==>
      r.value == NumPriors(|expand(cfg.aspectRatios, cfg.flip)|, |cfg.minSizes|, |cfg.maxSizes|)
  {
    var minErr := CheckMinSizes(input, image, cfg);
    if minErr.Some? {
      return Err(minErr.value);
    }

    var ratios := expand(cfg.aspectRatios, cfg.flip);
    var numPriors := CheckMaxSizes(input, image, cfg, |ratios| * |cfg.minSizes|);
    if numPriors.Err? {
      return Err(numPriors.error);
    }

    var varErr := CheckVariances(input, image, cfg);
    if varErr.Some? {
      return Err(varErr.value);
    }

    if !(cfg.stepH > 0.0) {
      return Err(StepHNotPositive);
    }
    if !(cfg.stepW > 0.0) {
      return Err(StepWNotPositive);
    }
    r := Ok(numPriors.value);
  }

  /** At least one min size, each positive; the loop aborts at the first
      offending index. */
  method CheckMinSizes(ghost input: Option<Dims>, ghost image: Option<Dims>, cfg: Config)
    returns (err: Option<Error>)
    requires ShapesOk(input, image)
    ensures err.None? <==> MinSizesOk(cfg)
    ensures err.Some? ==> Violates(err.value, input, image, cfg) && PassedBefore(err.value, input, image, cfg)
  {
    var minSizes := cfg.minSizes;
    if !(|minSizes| > 0) {
      return Some(MinSizesEmpty);
    }
    var i := 0;
    while i < |minSizes|
      invariant 0 <= i <= |minSizes|
      invariant MinSizesPositiveUpTo(cfg, i)
    {
      if !(minSizes[i] > 0) {
        return Some(MinSizeNotPositive(i));
      }
      i := i + 1;
    }
    return None;
  }

  /** When max sizes are given: as many as min sizes, each greater than its
      min size, adding one prior per min size to `numPriors`. */
  method CheckMaxSizes(ghost input: Option<Dims>, ghost image: Option<Dims>, cfg: Config,
                       numPriors: nat)
    returns (r: Result<nat>)
    requires ShapesOk(input, image) && MinSizesOk(cfg)
    ensures r.Ok? <==> MaxSizesOk(cfg)
    ensures r.Err? ==> Violates(r.error, input, image, cfg) && PassedBefore(r.error, input, image, cfg)
    ensures r.Ok? ==> r.value == numPriors + (if |cfg.maxSizes| > 0 then |cfg.minSizes| else 0)
  {
    var minSizes, maxSizes := cfg.minSizes, cfg.maxSizes;
    var count := numPriors;
    if |maxSizes| > 0 {
      if |maxSizes| != |minSizes| {
        return Err(MaxSizesCountMismatch);
      }
      var i := 0;
      while i < |minSizes|
        invariant 0 <= i <= |minSizes|
        invariant MaxSizesGreaterUpTo(cfg, i)
        invariant count == numPriors + i
      {
        if !(maxSizes[i] > minSizes[i]) {
          return Err(MaxSizeNotGreater(i));
        }
        count := count + 1;
        i := i + 1;
      }
    }
    return Ok(count);
  }

  /** Exactly four variances, each positive; the loop aborts at the first
      offending index. */
  method CheckVariances(ghost input: Option<Dims>, ghost image: Option<Dims>, cfg: Config)
    returns (err: Option<Error>)
    requires ShapesOk(input, image) && MinSizesOk(cfg) && MaxSizesOk(cfg)
    ensures err.None? <==> VariancesOk(cfg)
    ensures err.Some? ==> Violates(err.value, input, image, cfg) && PassedBefore(err.value, input, image, cfg)
  {
    var variances := cfg.variances;
    if |variances| != 4 {
      return Some(VariancesNotFour);
    }
    var i := 0;
    while i < |variances|
      invariant 0 <= i <= |variances|
      invariant VariancesPositiveUpTo(cfg, i)
    {
      if !(variances[i] > 0.0) {
        return Some(VarianceNotPositive(i));
      }
      i := i + 1;
    }
    return None;
  }

  // ---------------------------------------------------------------------
  // Properties of the specification

  /** Source order is a strict total order on errors: total, asymmetric
      and transitive. */
  lemma ErrorOrderTotal(a: Error, b: Error, c: Error)
    ensures a == b || Before(a, b) || Before(b, a)
    ensures !(Before(a, b) && Before(b, a))
    ensures Before(a, b) && Before(b, c) ==> Before(a, c)
  {
  }

  /** A violated check whose predecessors all pass is the earliest one. */
  lemma EarliestIntro(e: Error, input: Option<Dims>, image: Option<Dims>, cfg: Config)
    requires Violates(e, input, image, cfg) && PassedBefore(e, input, image, cfg)
    ensures Earliest(e, input, image, cfg)
    ensures !Accepted(input, image, cfg)
  {
    forall d | Before(d, e) ensures !Violates(d, input, image, cfg) {
      PassedCheckNotViolated(d, e, input, image, cfg);
    }
  }

  /** One check standing before `e` is not violated when all of them pass. */
  lemma PassedCheckNotViolated(d: Error, e: Error, input: Option<Dims>, image: Option<Dims>, cfg: Config)
    requires Violates(e, input, image, cfg) && PassedBefore(e, input, image, cfg) && Before(d, e)
    ensures !Violates(d, input, image, cfg)
  {
  }

  /** A violated check rules out acceptance. */
  lemma ViolationRejects(e: Error, input: Option<Dims>, image: Option<Dims>, cfg: Config)
    requires Violates(e, input, image, cfg)
    ensures !Accepted(input, image, cfg)
  {
  }

  /** Soundness and completeness of the conjunction: the inputs are accepted
      exactly when no check's condition is violated. */
  lemma AcceptedIffNoViolation(input: Option<Dims>, image: Option<Dims>, cfg: Config)
    ensures Accepted(input, image, cfg) <==> forall e :: !Violates(e, input, image, cfg)
  {
    forall e | Violates(e, input, image, cfg) ensures !Accepted(input, image, cfg) {
      ViolationRejects(e, input, image, cfg);
    }
    if !Accepted(input, image, cfg) {
      var e := SomeViolation(input, image, cfg);
      assert Violates(e, input, image, cfg);
    }
  }

  /** A check that fails on inputs that are not accepted, found in source
      order. */
  ghost function SomeViolation(input: Option<Dims>, image: Option<Dims>, cfg: Config): (e: Error)
    requires !Accepted(input, image, cfg)
    ensures Violates(e, input, image, cfg)
  {
    if input.None? then InputMissing
    else if image.None? then ImageMissing
    else if |image.value| != 4 then ImageNotNCHW
    else if |input.value| != 4 then InputNotNCHW
    else if input.value[2] >= image.value[2] then HeightNotSmaller
    else if input.value[3] >= image.value[3] then WidthNotSmaller
    else if |cfg.minSizes| == 0 then MinSizesEmpty
    else if !MinSizesOk(cfg) then
      var i :| 0 <= i < |cfg.minSizes| && cfg.minSizes[i] <= 0; MinSizeNotPositive(i)
    else if |cfg.maxSizes| > 0 && |cfg.maxSizes| != |cfg.minSizes| then MaxSizesCountMismatch
    else if !MaxSizesOk(cfg) then
      var i :| 0 <= i < |cfg.minSizes| && cfg.maxSizes[i] <= cfg.minSizes[i]; MaxSizeNotGreater(i)
    else if |cfg.variances| != 4 then VariancesNotFour
    else if !VariancesOk(cfg) then
      var i :| 0 <= i < 4 && cfg.variances[i] <= 0.0; VarianceNotPositive(i)
    else if cfg.stepH <= 0.0 then StepHNotPositive
    else StepWNotPositive
  }

  /** The earliest violated check comes no later than any violated check:
      when several checks fail, the one first in source order is reported. */
  lemma EarliestPrecedes(e: Error, v: Error, input: Option<Dims>, image: Option<Dims>, cfg: Config)
    requires Earliest(e, input, image, cfg) && Violates(v, input, image, cfg)
    ensures e == v || Before(e, v)
  {
  }

  /** The specification of the reported error determines it. */
  lemma EarliestUnique(e1: Error, e2: Error, input: Option<Dims>, image: Option<Dims>, cfg: Config)
    requires Earliest(e1, input, image, cfg) && Earliest(e2, input, image, cfg)
    ensures e1 == e2
  {
  }

  /** With both inputs present, a wrong image rank is reported before
      anything else, including a wrong feature-map rank. */
  lemma ImageRankCheckedFirst(e: Error, input: Option<Dims>, image: Option<Dims>, cfg: Config)
    requires input.Some? && image.Some? && |image.value| != 4
    requires Earliest(e, input, image, cfg)
    ensures e == ImageNotNCHW
  {
    EarliestPrecedes(e, ImageNotNCHW, input, image, cfg);
  }

  /** The default attribute values cannot pass: steps of 0.0 fail the strict
      `step_h > 0` check, so the error is StepHNotPositive or an earlier one,
      and exactly StepHNotPositive when everything before it passes. */
  lemma DefaultStepsRejected(input: Option<Dims>, image: Option<Dims>, minSizes: seq<int>,
                             maxSizes: seq<int>, aspectRatios: seq<real>, variances: seq<real>)
    ensures !Accepted(input, image, DefaultConfig(minSizes, maxSizes, aspectRatios, variances))
    ensures forall e :: Earliest(e, input, image, DefaultConfig(minSizes, maxSizes, aspectRatios, variances)) ==>
      e == StepHNotPositive || Before(e, StepHNotPositive)
    ensures PassedBefore(StepHNotPositive, input, image, DefaultConfig(minSizes, maxSizes, aspectRatios, variances)) ==>
      Earliest(StepHNotPositive, input, image, DefaultConfig(minSizes, maxSizes, aspectRatios, variances))
  {
    var cfg := DefaultConfig(minSizes, maxSizes, aspectRatios, variances);
    assert Violates(StepHNotPositive, input, image, cfg);
    forall e | Earliest(e, input, image, cfg) ensures e == StepHNotPositive || Before(e, StepHNotPositive) {
      EarliestPrecedes(e, StepHNotPositive, input, image, cfg);
    }
    if PassedBefore(StepHNotPositive, input, image, cfg) {
      EarliestIntro(StepHNotPositive, input, image, cfg);
    }
  }

  /** Only H and W of the feature map are consulted: two feature maps that
      differ in N and C pass and fail exactly the same checks. */
  lemma BatchAndChannelIgnored(input: Dims, input': Dims, image: Option<Dims>, cfg: Config)
    requires |input| == |input'| == 4 && input[2] == input'[2] && input[3] == input'[3]
    ensures forall e :: Violates(e, Some(input), image, cfg) <==> Violates(e, Some(input'), image, cfg)
    ensures forall e :: PassedBefore(e, Some(input), image, cfg) <==> PassedBefore(e, Some(input'), image, cfg)
    ensures Accepted(Some(input), image, cfg) <==> Accepted(Some(input'), image, cfg)
  {
  }

  /** Only H and W of the image are consulted: two images that differ in N
      and C pass and fail exactly the same checks. */
  lemma ImageBatchAndChannelIgnored(input: Option<Dims>, image: Dims, image': Dims, cfg: Config)
    requires |image| == |image'| == 4 && image[2] == image'[2] && image[3] == image'[3]
    ensures forall e :: Violates(e, input, Some(image), cfg) <==> Violates(e, input, Some(image'), cfg)
    ensures forall e :: PassedBefore(e, input, Some(image), cfg) <==> PassedBefore(e, input, Some(image'), cfg)
    ensures Accepted(input, Some(image), cfg) <==> Accepted(input, Some(image'), cfg)
  {
  }
}
