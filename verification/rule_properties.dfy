/** Properties of the seven rule guards taken together: what absence of a
    field rules out, which rules exclude each other, and the exact firing
    conditions of the two categorical rules. */
module RuleProperties {
  import opened Wrappers
  import opened Sequences
  import opened Metrics
  import opened Rules

  /** Without both accuracies, neither overfitting, underfitting nor good
      performance can be diagnosed, whatever the other fields hold. */
  lemma AccuracyRulesNeedBothAccuracies(m: Metrics)
    requires m.trainAccuracy.None? || m.testAccuracy.None?
    ensures !Fires(Overfitting, m) && !Fires(Underfitting, m) && !Fires(GoodPerformance, m)
  {
  }

  /** Overfitting, underfitting and good performance are pairwise exclusive. */
  lemma AccuracyRulesExclusive(m: Metrics)
    ensures !(Fires(Overfitting, m) && Fires(Underfitting, m))
    ensures !(Fires(Overfitting, m) && Fires(GoodPerformance, m))
    ensures !(Fires(Underfitting, m) && Fires(GoodPerformance, m))
  {
  }

  /** A train/test gap above 10 points but not above 15 is diagnosed by none
      of the three accuracy rules. */
  lemma ModerateGapUndiagnosed(m: Metrics)
    requires m.trainAccuracy.Some? && m.testAccuracy.Some?
    requires var gap := m.trainAccuracy.value - m.testAccuracy.value;
      10.0 < Abs(gap) && gap <= 15.0
    ensures !Fires(Overfitting, m) && !Fires(Underfitting, m) && !Fires(GoodPerformance, m)
  {
  }

  /** Small dataset and small batch never fire together; at exactly 1000
      samples neither fires, whatever the batch size. */
  lemma DatasetRulesExclusive(m: Metrics)
    ensures !(Fires(SmallDataset, m) && Fires(SmallBatch, m))
    ensures m.datasetSize == Some(1000) ==> !Fires(SmallDataset, m) && !Fires(SmallBatch, m)
  {
  }

  /** Learning rate too high fires exactly when `loss_oscillation` is present
      and is the string "high"; too low exactly when `convergence_speed` is
      present and is "very_slow". Any other string, "High" included, does not
      fire. */
  lemma LearningRateRulesExact(m: Metrics)
    ensures Fires(LrTooHigh, m) <==> m.lossOscillation == Some("high")
    ensures Fires(LrTooLow, m) <==> m.convergenceSpeed == Some("very_slow")
  {
  }

  /** Each rule's recommendation list has no repeated entry. */
  lemma RecommendationsDistinct(rule: RuleName)
    ensures NoDups(Recommendations(rule))
  {
  }
}
