/** The on-device classifier wrapper of AniDex/Intelligence.swift.

    Vision itself is not modelled: the answer it gives for a pixel buffer and
    an orientation is a parameter `vision` of `Analyze`. What is modelled is
    everything `analyze` does around that call: the `cgImage` guard, the
    orientation it passes along, the shape check on the request's results,
    and the `prefix(topK).map` that turns observations into labels. */
module Intelligence {
  import opened Wrappers

  /** A confidence score. The wrapper does no arithmetic on it and only passes
      it through, so an unbounded real stands for Swift's `Float`. */
  type Confidence = real

  // ---------------------------------------------------------------------
  // Models
  // ---------------------------------------------------------------------

  /** A `VNClassificationObservation`: a category identifier and its score. */
  datatype Observation = Observation(identifier: string, confidence: Confidence)

  /** A `LabelConfidence` without its `UUID` identity; `name` is the Swift
      field `label` (a reserved word in Dafny). */
  datatype LabelConfidence = LabelConfidence(name: string, confidence: Confidence)

  /** The result of one analysis: labels in the order Vision ranked them. */
  datatype PhotoAnalysis = PhotoAnalysis(labels: seq<LabelConfidence>) {

    /** `labels.first`: absent exactly when there are no labels. */
    function BestLabel(): (best: Option<LabelConfidence>)
      ensures best.None? <==> labels == []
      ensures best.Some? ==> best.value == labels[0] && best.value in labels
    {
      if labels == [] then None else Some(labels[0])
    }
  }

  /** The two errors `analyze` raises itself. */
  datatype IntelligenceError = InvalidImage | AnalysisFailed

  /** An error thrown by `VNImageRequestHandler.perform`, opaque here. */
  datatype VisionError = VisionError(description: string)

  /** Everything `analyze` can throw: one of its own errors, or the error
      Vision threw, which the continuation resumes with unchanged. */
  datatype AnalyzeError =
    | Raised(raised: IntelligenceError)
    | Propagated(vision: VisionError)

  // ---------------------------------------------------------------------
  // Images and orientations
  // ---------------------------------------------------------------------

  /** A decoded pixel buffer (`CGImage`). */
  datatype CGImage = CGImage(pixels: seq<bv8>)

  /** `UIImage.Orientation`: the eight cases UIKit declares, and any value a
      later SDK may add (`@unknown default`). */
  datatype UIImageOrientation =
    | Up | Down | Left | Right
    | UpMirrored | DownMirrored | LeftMirrored | RightMirrored
    | Unknown(rawValue: int)

  /** `CGImagePropertyOrientation`, the orientation Vision is given. */
  datatype CGImagePropertyOrientation =
    | Up | UpMirrored | Down | DownMirrored
    | LeftMirrored | Right | RightMirrored | Left

  /** A `UIImage`: an optional backing `CGImage` and its orientation. */
  datatype Image = Image(cgImage: Option<CGImage>, imageOrientation: UIImageOrientation)

  /** `UIImage.cgImageOrientation`: each known UIKit orientation goes to the
      Core Graphics orientation of the same name; an unknown one silently
      falls back to `.up`. */
  function CgImageOrientation(o: UIImageOrientation): (cg: CGImagePropertyOrientation)
    ensures o.Unknown? ==> cg == CGImagePropertyOrientation.Up
  {
    match o
    case Up => CGImagePropertyOrientation.Up
    case Down => CGImagePropertyOrientation.Down
    case Left => CGImagePropertyOrientation.Left
    case Right => CGImagePropertyOrientation.Right
    case UpMirrored => CGImagePropertyOrientation.UpMirrored
    case DownMirrored => CGImagePropertyOrientation.DownMirrored
    case LeftMirrored => CGImagePropertyOrientation.LeftMirrored
    case RightMirrored => CGImagePropertyOrientation.RightMirrored
    case Unknown(_) => CGImagePropertyOrientation.Up
  }

  /** The reverse correspondence, from each Core Graphics orientation back to
      the UIKit orientation of the same name. */
  function UIImageOrientationOf(cg: CGImagePropertyOrientation): (o: UIImageOrientation)
    ensures !o.Unknown?
  {
    match cg
    case Up => UIImageOrientation.Up
    case Down => UIImageOrientation.Down
    case Left => UIImageOrientation.Left
    case Right => UIImageOrientation.Right
    case UpMirrored => UIImageOrientation.UpMirrored
    case DownMirrored => UIImageOrientation.DownMirrored
    case LeftMirrored => UIImageOrientation.LeftMirrored
    case RightMirrored => UIImageOrientation.RightMirrored
  }

  /** On the eight known cases the mapping is undone by its reverse. */
  lemma CgImageOrientationRoundTrip(o: UIImageOrientation)
    requires !o.Unknown?
    ensures UIImageOrientationOf(CgImageOrientation(o)) == o
  {
  }

  /** Every Core Graphics orientation is reached from a known UIKit one. */
  lemma CgImageOrientationOnto(cg: CGImagePropertyOrientation)
    ensures !UIImageOrientationOf(cg).Unknown?
    ensures CgImageOrientation(UIImageOrientationOf(cg)) == cg
  {
  }

  /** Two different known orientations never collapse onto one. */
  lemma CgImageOrientationInjective(a: UIImageOrientation, b: UIImageOrientation)
    requires !a.Unknown? && !b.Unknown?
    requires CgImageOrientation(a) == CgImageOrientation(b)
    ensures a == b
  {
  }

  /** Only `.up` itself and the unknown values are sent to `.up`. */
  lemma CgImageOrientationUpPreimage(o: UIImageOrientation)
    ensures CgImageOrientation(o) == CGImagePropertyOrientation.Up
        <==> o == UIImageOrientation.Up || o.Unknown?
  {
  }

  // ---------------------------------------------------------------------
  // Vision's answer
  // ---------------------------------------------------------------------

  /** What `request.results` holds after `perform` returned: nothing, results
      that are not classification observations, or classifications. */
  datatype RequestResults =
    | Missing
    | WrongType
    | Classifications(observations: seq<Observation>)

  /** The outcome of `handler.perform([request])`. */
  datatype Inference =
    | Performed(results: RequestResults)
    | Threw(error: VisionError)

  /** The foreign classifier: an answer for a pixel buffer seen in an orientation. */
  type Vision = (CGImage, CGImagePropertyOrientation) -> Inference

  /** The call of line 38: Vision is given the image's pixel buffer together
      with its corrected orientation. */
  function Inferred(cg: CGImage, image: Image, vision: Vision): Inference
  {
    vision(cg, CgImageOrientation(image.imageOrientation))
  }

  /** Vision completed and gave nothing that `analyze` can use. */
  predicate Unusable(answer: Inference) {
    answer.Performed? &&
    (answer.results.Missing? || answer.results.WrongType? ||
     answer.results.observations == [])
  }

  /** Vision completed with at least one classification. */
  predicate Usable(answer: Inference) {
    answer.Performed? && answer.results.Classifications? &&
    answer.results.observations != []
  }

  // ---------------------------------------------------------------------
  // analyze
  // ---------------------------------------------------------------------

  function Min(a: int, b: int): int {
    if a <= b then a else b
  }

  function ToLabel(obs: Observation): LabelConfidence {
    LabelConfidence(obs.identifier, obs.confidence)
  }

  /** `observations.prefix(topK).map(ToLabel)`: the first `topK` observations,
      one label each, in the same order. */
  function LabelsFor(observations: seq<Observation>, topK: nat): (labels: seq<LabelConfidence>)
    ensures |labels| == Min(topK, |observations|)
    ensures forall i :: 0 <= i < |labels| ==>
              labels[i].name == observations[i].identifier &&
              labels[i].confidence == observations[i].confidence
    decreases topK
  {
    if topK == 0 || observations == [] then []
    else [ToLabel(observations[0])] + LabelsFor(observations[1..], topK - 1)
  }

  /** `Intelligence.analyze(image:topK:)`. The guards are checked in the
      source's order: the missing `cgImage` first (Vision is never asked), then
      an error Vision threw, then an unusable answer; otherwise the labels are
      the first `topK` observations. `topK` may not be negative, since Swift's
      `prefix` traps on a negative length. */
  function Analyze(image: Image, topK: int, vision: Vision): (r: Result<PhotoAnalysis, AnalyzeError>)
    requires 0 <= topK
    ensures image.cgImage.None? ==> r == Failure(Raised(InvalidImage))
    ensures image.cgImage.Some? ==>
              var answer := Inferred(image.cgImage.value, image, vision);
              && (answer.Threw? ==> r == Failure(Propagated(answer.error)))
              && (r.Failure? && r.error.Propagated? ==> answer.Threw?)
              && (Unusable(answer) <==> r == Failure(Raised(AnalysisFailed)))
              && (Usable(answer) <==> r.Success?)
    ensures r.Success? ==>
              var observations := Inferred(image.cgImage.value, image, vision).results.observations;
              && |r.value.labels| == Min(topK, |observations|) <= topK
              && forall i :: 0 <= i < |r.value.labels| ==>
                   r.value.labels[i].name == observations[i].identifier &&
                   r.value.labels[i].confidence == observations[i].confidence
  {
    match image.cgImage
    case None => Failure(Raised(InvalidImage))
    case Some(cg) =>
      match Inferred(cg, image, vision)
      case Threw(e) => Failure(Propagated(e))
      case Performed(Classifications(observations)) =>
        if observations == [] then Failure(Raised(AnalysisFailed))
        else Success(PhotoAnalysis(LabelsFor(observations, topK)))
      case Performed(_) => Failure(Raised(AnalysisFailed))
  }

  /** `Intelligence.bestLabel(for:)`: `analyze` with `topK = 1`, then the best
      label. It fails exactly as that `analyze` call fails, and when it
      succeeds it always has a label, the label of Vision's first observation. */
  function BestLabelFor(image: Image, vision: Vision): (r: Result<Option<LabelConfidence>, AnalyzeError>)
    ensures Analyze(image, 1, vision).Failure? ==>
              r == Failure(Analyze(image, 1, vision).error)
    ensures r.Success? <==> Analyze(image, 1, vision).Success?
    ensures r.Success? ==>
              var first := Inferred(image.cgImage.value, image, vision).results.observations[0];
              r.value == Some(LabelConfidence(first.identifier, first.confidence))
  {
    match Analyze(image, 1, vision)
    case Failure(e) => Failure(e)
    case Success(analysis) => Success(analysis.BestLabel())
  }

  // ---------------------------------------------------------------------
  // Properties of analyze
  // ---------------------------------------------------------------------

  /** Whatever Vision would answer, an image without a pixel buffer is
      rejected with `invalidImage`. */
  lemma InvalidImageWhateverVision(image: Image, topK: nat, v1: Vision, v2: Vision)
    requires image.cgImage.None?
    ensures Analyze(image, topK, v1) == Analyze(image, topK, v2) == Failure(Raised(InvalidImage))
  {
  }

  /** The labels depend on `topK` only through how many are kept: a larger
      `topK` extends the labels of a smaller one. */
  lemma LabelsForPrefix(observations: seq<Observation>, j: nat, k: nat)
    requires j <= k
    ensures LabelsFor(observations, j) == LabelsFor(observations, k)[..Min(j, |observations|)]
  {
  }

  /** With `topK = 0`, usable results still succeed, with no labels and hence
      no best label. */
  lemma AnalyzeTopKZero(image: Image, vision: Vision)
    requires image.cgImage.Some? && Usable(Inferred(image.cgImage.value, image, vision))
    ensures Analyze(image, 0, vision) == Success(PhotoAnalysis([]))
    ensures Analyze(image, 0, vision).value.BestLabel() == None
  {
  }

  /** Observations sorted by non-increasing confidence. */
  predicate RankedObservations(observations: seq<Observation>) {
    forall i, j :: 0 <= i < j < |observations| ==>
      observations[i].confidence >= observations[j].confidence
  }

  /** Labels sorted by non-increasing confidence. */
  predicate RankedLabels(labels: seq<LabelConfidence>) {
    forall i, j :: 0 <= i < j < |labels| ==> labels[i].confidence >= labels[j].confidence
  }

  /** Confidences within the closed unit interval. */
  predicate ScoresInUnitInterval(labels: seq<LabelConfidence>) {
    forall i :: 0 <= i < |labels| ==> 0.0 <= labels[i].confidence <= 1.0
  }

  /** `analyze` never re-sorts: if Vision ranked its observations by
      non-increasing confidence with scores in [0, 1], the labels keep both
      properties, and the best label has the highest confidence of them all. */
  lemma AnalyzeKeepsRanking(image: Image, topK: nat, vision: Vision)
    requires Analyze(image, topK, vision).Success?
    requires var observations := Inferred(image.cgImage.value, image, vision).results.observations;
             RankedObservations(observations) &&
             forall i :: 0 <= i < |observations| ==> 0.0 <= observations[i].confidence <= 1.0
    ensures RankedLabels(Analyze(image, topK, vision).value.labels)
    ensures ScoresInUnitInterval(Analyze(image, topK, vision).value.labels)
    ensures var analysis := Analyze(image, topK, vision).value;
            analysis.BestLabel().Some? ==>
              forall l :: l in analysis.labels ==> l.confidence <= analysis.BestLabel().value.confidence
  {
  }
}
