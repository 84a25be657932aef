/** The inference pipeline: the measurement vector is reshaped into a
    one-row matrix, rescaled by the min-max scaler, then by the standard
    scaler, and the classifier's first output is the class label. The three
    fitted artifacts are opaque; each is a capability that returns a value or
    the text of the exception it raised. */
module Pipeline {
  import opened Wrappers
  import opened Features

  /** A numeric matrix, one inner sequence per row. */
  type Matrix = seq<seq<real>>

  /** The three fitted artifacts, loaded once and never changed. */
  datatype Artifacts = Artifacts(
    minMax: Matrix -> Result<Matrix, string>,      // the min-max scaler's transform
    standard: Matrix -> Result<Matrix, string>,    // the standard scaler's transform
    classifier: Matrix -> Result<seq<int>, string>  // the classifier's predict, one label per row
  )

  /** The step of the pipeline that raised. */
  datatype Stage = MinMaxScaling | StandardScaling | Classification

  /** Why inference produced no label: a stage raised with the given text, or
      the classifier returned no label to take the first of. */
  datatype InferenceError = StageFailed(stage: Stage, message: string) | NoLabel

  /** The single-row matrix holding `v`: `reshape(1, -1)` of a flat vector. */
  function Row(v: FeatureVector): (m: Matrix)
    ensures |m| == 1 && m[0] == v
  {
    [v]
  }

  /** Min-max scaling, then standard scaling, then classification; the label
      is the first element of the classifier's output. The first stage that
      raises decides the error, and later stages are not consulted. */
  function Infer(a: Artifacts, v: FeatureVector): (r: Result<int, InferenceError>)
    ensures a.minMax(Row(v)).Failure? ==>
              r == Failure(StageFailed(MinMaxScaling, a.minMax(Row(v)).error))
    ensures a.minMax(Row(v)).Success? && a.standard(a.minMax(Row(v)).value).Failure? ==>
              r == Failure(StageFailed(StandardScaling, a.standard(a.minMax(Row(v)).value).error))
    ensures a.minMax(Row(v)).Success? && a.standard(a.minMax(Row(v)).value).Success? ==>
              var normalized := a.standard(a.minMax(Row(v)).value).value;
              && (a.classifier(normalized).Failure? ==>
                    r == Failure(StageFailed(Classification, a.classifier(normalized).error)))
              && (a.classifier(normalized).Success? && |a.classifier(normalized).value| == 0 ==>
                    r == Failure(NoLabel))
    ensures forall n :: r == Success(n) <==> ClassifiedAs(a, v, n)
  {
    match a.minMax(Row(v))
    case Failure(e) => Failure(StageFailed(MinMaxScaling, e))
    case Success(scaled) =>
      match a.standard(scaled)
      case Failure(e) => Failure(StageFailed(StandardScaling, e))
      case Success(normalized) =>
        match a.classifier(normalized)
        case Failure(e) => Failure(StageFailed(Classification, e))
        case Success(labels) =>
          if |labels| == 0 then Failure(NoLabel) else Success(labels[0])
  }

  /** The classifier, given the standard scaling of the min-max scaling of the
      one-row matrix of `v`, returns a non-empty output starting with `n`. */
  ghost predicate ClassifiedAs(a: Artifacts, v: FeatureVector, n: int) {
    exists scaled: Matrix, normalized: Matrix, labels: seq<int> ::
      && a.minMax(Row(v)) == Success(scaled)
      && a.standard(scaled) == Success(normalized)
      && a.classifier(normalized) == Success(labels)
      && |labels| > 0 && labels[0] == n
  }

  /** The label depends on the artifacts only through the three calls the
      pipeline makes: two artifact sets that agree on the min-max scaling of
      the row, on the standard scaling of that, and on the classification of
      the result, yield the same outcome. */
  lemma InferDependsOnlyOnComposition(a: Artifacts, b: Artifacts, v: FeatureVector)
    requires a.minMax(Row(v)) == b.minMax(Row(v))
    requires a.minMax(Row(v)).Success? ==>
               a.standard(a.minMax(Row(v)).value) == b.standard(a.minMax(Row(v)).value)
    requires a.minMax(Row(v)).Success? && a.standard(a.minMax(Row(v)).value).Success? ==>
               var normalized := a.standard(a.minMax(Row(v)).value).value;
               a.classifier(normalized) == b.classifier(normalized)
    ensures Infer(a, v) == Infer(b, v)
  {
  }

  /** The two scalers exchanged: standard scaling first, then min-max scaling. */
  function SwapScalers(a: Artifacts): Artifacts {
    Artifacts(a.standard, a.minMax, a.classifier)
  }

  /** The order of the scalers is observable: there are artifacts and a
      reading for which running the standard scaler first yields a different
      outcome. This shows that a reordering could change a prediction; which
      order `Infer` actually uses is stated by its `ClassifiedAs` clause. */
  lemma ScalerOrderMatters()
    ensures exists a: Artifacts, v: FeatureVector :: Infer(a, v) != Infer(SwapScalers(a), v)
  {
    var a := Artifacts(
      (m: Matrix) => Success([[0.0]]),
      (m: Matrix) => Success([[1.0]]),
      (m: Matrix) => if m == [[1.0]] then Success([1]) else Success([2]));
    var v: FeatureVector := [0.0, 0.0, 0.0, 0.0, 0.0, 0.0, 0.0];
    assert Infer(a, v) == Success(1);
    assert Infer(SwapScalers(a), v) == Success(2);
  }
}
