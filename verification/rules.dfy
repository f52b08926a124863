/** The seven `@Rule` methods of `MLDebugExpert`: for each rule, the fields
    its pattern binds, the test over the bound values, the diagnosis it
    appends, the recommendations it adds and the issue tag it declares. */
module Rules {
  import opened Wrappers
  import opened Metrics

  datatype RuleName =
    | Overfitting | Underfitting | LrTooHigh | LrTooLow
    | SmallDataset | SmallBatch | GoodPerformance

  /** The rules in declaration order. */
  const RuleSet: seq<RuleName> :=
    [Overfitting, Underfitting, LrTooHigh, LrTooLow, SmallDataset, SmallBatch, GoodPerformance]

  /** A diagnosis carries the values the rule matched; it stands for the
      formatted text the source appends. */
  datatype Diagnosis =
    | OverfittingDetected(train: real, test: real)
    | UnderfittingDetected(train: real, test: real)
    | LearningRateTooHigh
    | LearningRateTooLow
    | SmallDatasetWarning(size: int)
    | BatchSizeTooSmall(batch: int)
    | GoodModel(train: real, test: real)
  {
    /** The rule that produces this kind of diagnosis. */
    function Rule(): RuleName {
      match this
      case OverfittingDetected(_, _) => Overfitting
      case UnderfittingDetected(_, _) => Underfitting
      case LearningRateTooHigh => LrTooHigh
      case LearningRateTooLow => LrTooLow
      case SmallDatasetWarning(_) => SmallDataset
      case BatchSizeTooSmall(_) => SmallBatch
      case GoodModel(_, _) => GoodPerformance
    }

    /** The values quoted in the diagnosis are the record's own values. */
    predicate Quotes(m: Metrics) {
      match this
      case OverfittingDetected(ta, tea) => m.trainAccuracy == Some(ta) && m.testAccuracy == Some(tea)
      case UnderfittingDetected(ta, tea) => m.trainAccuracy == Some(ta) && m.testAccuracy == Some(tea)
      case LearningRateTooHigh => true
      case LearningRateTooLow => true
      case SmallDatasetWarning(size) => m.datasetSize == Some(size)
      case BatchSizeTooSmall(bs) => m.batchSize == Some(bs)
      case GoodModel(ta, tea) => m.trainAccuracy == Some(ta) && m.testAccuracy == Some(tea)
    }
  }

  /** The fields a rule's `MLMetrics(...)` pattern binds. */
  function Pattern(rule: RuleName): set<Field> {
    match rule
    case Overfitting => {TrainAccuracy, TestAccuracy}
    case Underfitting => {TrainAccuracy, TestAccuracy}
    case LrTooHigh => {LossOscillation}
    case LrTooLow => {ConvergenceSpeed}
    case SmallDataset => {DatasetSize}
    case SmallBatch => {BatchSize, DatasetSize}
    case GoodPerformance => {TrainAccuracy, TestAccuracy}
  }

  /** Matches one rule against the record: `None` when a bound field is
      absent or the rule's test fails, otherwise the diagnosis it appends. */
  function Match(rule: RuleName, m: Metrics): (r: Option<Diagnosis>)
    ensures r.Some? ==> forall f :: f in Pattern(rule) ==> m.Has(f)
    ensures r.Some? ==> r.value.Rule() == rule && r.value.Quotes(m)
  {
    match rule
    case Overfitting =>
      (match (m.trainAccuracy, m.testAccuracy)
       case (Some(ta), Some(tea)) =>
         if ta - tea > 15.0 then Some(OverfittingDetected(ta, tea)) else None
       case _ => None)
    case Underfitting =>
      (match (m.trainAccuracy, m.testAccuracy)
       case (Some(ta), Some(tea)) =>
         if ta < 70.0 && Abs(ta - tea) < 10.0 then Some(UnderfittingDetected(ta, tea)) else None
       case _ => None)
    case LrTooHigh =>
      (match m.lossOscillation
       case Some(osc) => if osc == "high" then Some(LearningRateTooHigh) else None
       case None => None)
    case LrTooLow =>
      (match m.convergenceSpeed
       case Some(speed) => if speed == "very_slow" then Some(LearningRateTooLow) else None
       case None => None)
    case SmallDataset =>
      (match m.datasetSize
       case Some(size) => if size < 1000 then Some(SmallDatasetWarning(size)) else None
       case None => None)
    case SmallBatch =>
      (match (m.batchSize, m.datasetSize)
       case (Some(bs), Some(ds)) =>
         if bs < 16 && ds > 1000 then Some(BatchSizeTooSmall(bs)) else None
       case _ => None)
    case GoodPerformance =>
      (match (m.trainAccuracy, m.testAccuracy)
       case (Some(ta), Some(tea)) =>
         if ta >= 85.0 && tea >= 80.0 && Abs(ta - tea) <= 10.0 then Some(GoodModel(ta, tea)) else None
       case _ => None)
  }

  /** The rule fires on the record. */
  predicate Fires(rule: RuleName, m: Metrics) {
    Match(rule, m).Some?
  }

  /** The recommendations a firing rule adds, in the order it lists them. */
  function Recommendations(rule: RuleName): seq<string> {
    match rule
    case Overfitting => [
      "Add regularization (L1/L2)",
      "Increase dropout rate (try 0.3-0.5)",
      "Use data augmentation",
      "Reduce model complexity",
      "Get more training data"]
    case Underfitting => [
      "Increase model complexity",
      "Add more features",
      "Train for more epochs",
      "Reduce regularization",
      "Check if data preprocessing is correct"]
    case LrTooHigh => [
      "Reduce learning rate by factor of 10 (e.g., 0.01 -> 0.001)",
      "Use learning rate scheduler",
      "Try Adam optimizer with default LR (0.001)"]
    case LrTooLow => [
      "Increase learning rate gradually",
      "Try learning rate finder",
      "Use cyclic learning rate"]
    case SmallDataset => [
      "Use data augmentation heavily",
      "Consider transfer learning",
      "Use simpler model architecture",
      "Collect more data if possible"]
    case SmallBatch => [
      "Increase batch size to 32-128",
      "Use gradient accumulation if memory limited",
      "Adjust learning rate proportionally"]
    case GoodPerformance => [
      "Model is performing well!",
      "Consider fine-tuning hyperparameters for marginal improvements",
      "Monitor for overfitting with more epochs"]
  }

  /** The `issue` value of the fact a firing rule declares. */
  function IssueTag(rule: RuleName): string {
    match rule
    case Overfitting => "overfitting"
    case Underfitting => "underfitting"
    case LrTooHigh => "lr_high"
    case LrTooLow => "lr_low"
    case SmallDataset => "small_data"
    case SmallBatch => "small_batch"
    case GoodPerformance => "good"
  }

  /** Every rule is declared exactly once in the rule set. */
  lemma RuleSetComplete(rule: RuleName)
    ensures rule in RuleSet
    ensures forall i, j :: 0 <= i < j < |RuleSet| ==> RuleSet[i] != RuleSet[j]
  {
  }
}
