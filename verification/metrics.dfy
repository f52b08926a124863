/** The `MLMetrics` fact: a partial record of training observations. Every
    field is optional. The source accepts any keys and values without
    validation, so no field carries a range or an enumeration here:
    accuracies are reals, sizes are integers and the two categorical fields
    are arbitrary strings compared for exact equality. */
module Metrics {
  import opened Wrappers

  datatype Metrics = Metrics(
    trainAccuracy: Option<real>,
    testAccuracy: Option<real>,
    validationAccuracy: Option<real>,
    lossOscillation: Option<string>,
    convergenceSpeed: Option<string>,
    datasetSize: Option<int>,
    batchSize: Option<int>,
    learningRate: Option<real>,
    epochs: Option<int>)
  {
    /** True when the field was supplied in the record. */
    predicate Has(f: Field) {
      match f
      case TrainAccuracy => trainAccuracy.Some?
      case TestAccuracy => testAccuracy.Some?
      case ValidationAccuracy => validationAccuracy.Some?
      case LossOscillation => lossOscillation.Some?
      case ConvergenceSpeed => convergenceSpeed.Some?
      case DatasetSize => datasetSize.Some?
      case BatchSize => batchSize.Some?
      case LearningRate => learningRate.Some?
      case Epochs => epochs.Some?
    }
  }

  /** The names of the record's fields. */
  datatype Field =
    | TrainAccuracy | TestAccuracy | ValidationAccuracy
    | LossOscillation | ConvergenceSpeed
    | DatasetSize | BatchSize | LearningRate | Epochs

  /** The record built from an empty dictionary. */
  const EmptyMetrics: Metrics :=
    Metrics(None, None, None, None, None, None, None, None, None)

  /** Python's `abs` on a number. */
  function Abs(x: real): real {
    if x < 0.0 then -x else x
  }
}
