/** The worked examples of the module's `__main__` block and of the
    repository's test script, plus two boundary cases of the dataset rules
    (a small dataset with a small batch, and a large dataset with a small
    batch). Each is proved for the record holding exactly the listed fields. */
module Scenarios {
  import opened Wrappers
  import opened Sequences
  import opened Metrics
  import opened Rules
  import opened Inference
  import RuleProperties

  /** When exactly one rule fires, the result is that rule's diagnosis, one
      issue, and exactly that rule's recommendations. */
  lemma SingleFiring(m: Metrics, rule: RuleName)
    requires Fires(rule, m)
    requires forall other :: other != rule ==> !Fires(other, m)
    ensures RunDiagnosis(m).diagnoses == [Match(rule, m).value]
    ensures RunDiagnosis(m).issuesFound == 1
    ensures forall s :: s in RunDiagnosis(m).recommendations <==> s in Recommendations(rule)
    ensures |RunDiagnosis(m).recommendations| == |Recommendations(rule)|
  {
    SingleFiringDiagnoses(m, rule);
    SingleFiringRecommendations(m, rule);
  }

  lemma SingleFiringDiagnoses(m: Metrics, rule: RuleName)
    requires Fires(rule, m)
    requires forall other :: other != rule ==> !Fires(other, m)
    ensures RunDiagnosis(m).diagnoses == [Match(rule, m).value]
  {
    var r := RunDiagnosis(m);
    var i :| 0 <= i < |r.diagnoses| && r.diagnoses[i].Rule() == rule;
    if |r.diagnoses| > 1 {
      var j := if i == 0 then 1 else 0;
      assert Fires(r.diagnoses[j].Rule(), m);
    }
    assert |r.diagnoses| == 1;
  }

  lemma SingleFiringRecommendations(m: Metrics, rule: RuleName)
    requires Fires(rule, m)
    requires forall other :: other != rule ==> !Fires(other, m)
    ensures forall s :: s in RunDiagnosis(m).recommendations <==> s in Recommendations(rule)
    ensures |RunDiagnosis(m).recommendations| == |Recommendations(rule)|
  {
    var recs := RunDiagnosis(m).recommendations;
    var own := Recommendations(rule);
    forall s | s in recs ensures s in own {
      ReturnedFromSoleRule(m, rule, s);
    }
    forall s | s in own ensures s in recs {
      ReturnedWhenFiring(m, rule, s);
    }
    RuleProperties.RecommendationsDistinct(rule);
    SameElementsSameLength(recs, own);
  }

  lemma ReturnedFromSoleRule(m: Metrics, rule: RuleName, s: string)
    requires forall other :: other != rule ==> !Fires(other, m)
    requires s in RunDiagnosis(m).recommendations
    ensures s in Recommendations(rule)
  {
    var other :| Fires(other, m) && s in Recommendations(other);
  }

  lemma ReturnedWhenFiring(m: Metrics, rule: RuleName, s: string)
    requires Fires(rule, m) && s in Recommendations(rule)
    ensures s in RunDiagnosis(m).recommendations
  {
  }

  /** {train 95, test 68, dataset 5000, batch 32}: overfitting only, with
      its five recommendations. */
  lemma OverfittingScenario(m: Metrics)
    requires m == Metrics(Some(95.0), Some(68.0), None, None, None, Some(5000), Some(32), None, None)
    ensures RunDiagnosis(m).diagnoses == [OverfittingDetected(95.0, 68.0)]
    ensures RunDiagnosis(m).issuesFound == 1
    ensures |RunDiagnosis(m).recommendations| == 5
  {
    SingleFiring(m, Overfitting);
  }

  /** {train 65, test 63, dataset 5000, batch 32}: underfitting only. */
  lemma UnderfittingScenario(m: Metrics)
    requires m == Metrics(Some(65.0), Some(63.0), None, None, None, Some(5000), Some(32), None, None)
    ensures RunDiagnosis(m).diagnoses == [UnderfittingDetected(65.0, 63.0)]
    ensures RunDiagnosis(m).issuesFound == 1
  {
    SingleFiring(m, Underfitting);
  }

  /** {train 92, test 88, dataset 5000, batch 64}: good performance only. */
  lemma GoodModelScenario(m: Metrics)
    requires m == Metrics(Some(92.0), Some(88.0), None, None, None, Some(5000), Some(64), None, None)
    ensures RunDiagnosis(m).diagnoses == [GoodModel(92.0, 88.0)]
    ensures RunDiagnosis(m).issuesFound == 1
  {
    SingleFiring(m, GoodPerformance);
  }

  /** {train 95, test 68} alone: at least one diagnosis, the first being
      overfitting. */
  lemma AccuraciesOnlyScenario(m: Metrics)
    requires m == Metrics(Some(95.0), Some(68.0), None, None, None, None, None, None, None)
    ensures |RunDiagnosis(m).diagnoses| > 0
    ensures RunDiagnosis(m).diagnoses[0] == OverfittingDetected(95.0, 68.0)
  {
    SingleFiring(m, Overfitting);
  }

  /** {dataset 500, batch 8}: the small-dataset warning only; the small
      batch rule needs more than 1000 samples. */
  lemma SmallDatasetScenario(m: Metrics)
    requires m == Metrics(None, None, None, None, None, Some(500), Some(8), None, None)
    ensures RunDiagnosis(m).diagnoses == [SmallDatasetWarning(500)]
  {
    SingleFiring(m, SmallDataset);
  }

  /** {dataset 5000, batch 8}: the small-batch warning only. */
  lemma SmallBatchScenario(m: Metrics)
    requires m == Metrics(None, None, None, None, None, Some(5000), Some(8), None, None)
    ensures RunDiagnosis(m).diagnoses == [BatchSizeTooSmall(8)]
  {
    SingleFiring(m, SmallBatch);
  }
}
