/** The `MLDebugExpert` knowledge engine: its working memory of facts, the
    activations its rules produce over those facts, the firing of those
    activations into the result lists, `get_results`, `reset_results` and
    `run_diagnosis`. */
module Inference {
  import opened Wrappers
  import opened Sequences
  import opened Metrics
  import opened Rules

  /** A fact in working memory: the engine's initial fact after `reset`,
      the declared metrics record, or an `issue` fact a rule declared. */
  datatype Fact = InitialFact | MetricsFact(metrics: Metrics) | IssueFact(issue: string)

  /** A rule matched against one fact, with the diagnosis it will append. */
  datatype Activation = Activation(rule: RuleName, diagnosis: Diagnosis)

  /** The engine: working memory plus the two result lists. */
  datatype Engine = Engine(facts: seq<Fact>, diagnoses: seq<Diagnosis>, recommendations: seq<string>)

  /** The value `get_results` returns. */
  datatype DiagnosisResult = DiagnosisResult(
    diagnoses: seq<Diagnosis>,
    recommendations: seq<string>,
    issuesFound: int)

  /** Every rule's pattern is an `MLMetrics(...)` pattern, so only a metrics
      fact can match it. */
  function MatchFact(rule: RuleName, f: Fact): Option<Diagnosis> {
    match f
    case MetricsFact(m) => Match(rule, m)
    case _ => None
  }

  /** The activations of one rule over working memory, one per matching fact. */
  function ActivationsOf(rule: RuleName, facts: seq<Fact>): (r: seq<Activation>)
    ensures forall a :: a in r <==>
      a.rule == rule && exists f :: f in facts && MatchFact(rule, f) == Some(a.diagnosis)
    ensures |r| <= |facts|
    decreases |facts|
  {
    if facts == [] then []
    else
      var init := facts[..|facts| - 1];
      var last := facts[|facts| - 1];
      assert facts == init + [last];
      var r' := ActivationsOf(rule, init);
      match MatchFact(rule, last)
      case Some(d) => r' + [Activation(rule, d)]
      case None => r'
  }

  /** The activations of a list of rules over working memory. */
  function Activations(rules: seq<RuleName>, facts: seq<Fact>): (r: seq<Activation>)
    ensures forall a :: a in r <==>
      a.rule in rules && exists f :: f in facts && MatchFact(a.rule, f) == Some(a.diagnosis)
    decreases |rules|
  {
    if rules == [] then []
    else
      var init := rules[..|rules| - 1];
      var last := rules[|rules| - 1];
      assert rules == init + [last];
      Activations(init, facts) + ActivationsOf(last, facts)
  }

  /** Firing an activation runs the rule's body: append the diagnosis,
      extend the recommendations, declare the issue fact. */
  function Fire(e: Engine, a: Activation): Engine {
    Engine(
      e.facts + [IssueFact(IssueTag(a.rule))],
      e.diagnoses + [a.diagnosis],
      e.recommendations + Recommendations(a.rule))
  }

  /** Fires a list of activations in order. */
  function FireAll(e: Engine, acts: seq<Activation>): (r: Engine)
    ensures r.diagnoses == e.diagnoses + seq(|acts|, i requires 0 <= i < |acts| => acts[i].diagnosis)
    ensures r.facts == e.facts + seq(|acts|, i requires 0 <= i < |acts| => IssueFact(IssueTag(acts[i].rule)))
    ensures forall s :: s in r.recommendations <==>
      s in e.recommendations || exists a :: a in acts && s in Recommendations(a.rule)
    decreases |acts|
  {
    if acts == [] then e
    else
      var init := acts[..|acts| - 1];
      var last := acts[|acts| - 1];
      assert acts == init + [last];
      Fire(FireAll(e, init), last)
  }

  /** `engine.run()` on an engine none of whose activations has fired yet
      (fired activations are not recorded): fire every activation the rules
      have over working memory. The `issue` facts the firings declare create
      no new activation, so no rule chains off another. */
  function Run(e: Engine): (r: Engine)
    ensures Activations(RuleSet, r.facts) == Activations(RuleSet, e.facts)
    ensures var agenda := Activations(RuleSet, e.facts);
      r.diagnoses == e.diagnoses + seq(|agenda|, i requires 0 <= i < |agenda| => agenda[i].diagnosis)
  {
    var agenda := Activations(RuleSet, e.facts);
    var issues := seq(|agenda|, i requires 0 <= i < |agenda| => IssueFact(IssueTag(agenda[i].rule)));
    ActivationsIgnoreIssues(RuleSet, e.facts, issues);
    FireAll(e, agenda)
  }

  /** Appending `issue` facts to working memory adds no activation of a rule. */
  lemma {:induction false} ActivationsOfIgnoreIssues(rule: RuleName, facts: seq<Fact>, issues: seq<Fact>)
    requires forall i :: 0 <= i < |issues| ==> issues[i].IssueFact?
    ensures ActivationsOf(rule, facts + issues) == ActivationsOf(rule, facts)
    decreases |issues|
  {
    if issues != [] {
      var init := issues[..|issues| - 1];
      assert facts + issues == (facts + init) + [issues[|issues| - 1]];
      assert (facts + issues)[..|facts + issues| - 1] == facts + init;
      ActivationsOfIgnoreIssues(rule, facts, init);
    } else {
      assert facts + issues == facts;
    }
  }

  /** Appending `issue` facts to working memory adds no activation at all. */
  lemma {:induction false} ActivationsIgnoreIssues(rules: seq<RuleName>, facts: seq<Fact>, issues: seq<Fact>)
    requires forall i :: 0 <= i < |issues| ==> issues[i].IssueFact?
    ensures Activations(rules, facts + issues) == Activations(rules, facts)
    decreases |rules|
  {
    if rules != [] {
      var init := rules[..|rules| - 1];
      ActivationsIgnoreIssues(init, facts, issues);
      ActivationsOfIgnoreIssues(rules[|rules| - 1], facts, issues);
    }
  }

  /** `engine.declare(fact)`. */
  function Declare(e: Engine, f: Fact): Engine {
    e.(facts := e.facts + [f])
  }

  /** `engine.reset()`: working memory holds only the initial fact; the
      result lists are untouched. */
  function Reset(e: Engine): Engine {
    e.(facts := [InitialFact])
  }

  /** A new `MLDebugExpert()`. */
  function NewEngine(): Engine {
    Engine([], [], [])
  }

  /** `get_results`: the diagnoses, the recommendations without duplicates,
      and the number of diagnoses. */
  function GetResults(e: Engine): (r: DiagnosisResult)
    ensures r.issuesFound == |r.diagnoses| == |e.diagnoses|
    ensures r.diagnoses == e.diagnoses
    ensures NoDups(r.recommendations)
    ensures forall s :: s in r.recommendations <==> s in e.recommendations
  {
    DiagnosisResult(e.diagnoses, Dedup(e.recommendations), |e.diagnoses|)
  }

  /** `reset_results`: the results become empty; working memory is kept. */
  function ResetResults(e: Engine): (r: Engine)
    ensures GetResults(r) == DiagnosisResult([], [], 0)
    ensures r.facts == e.facts
  {
    e.(diagnoses := [], recommendations := [])
  }

  /** The body of `run_diagnosis`, started from any engine. */
  function RunOn(e: Engine, m: Metrics): DiagnosisResult {
    GetResults(Run(Declare(ResetResults(Reset(e)), MetricsFact(m))))
  }

  /** `run_diagnosis(metrics)`: one metrics fact, a fresh engine, one run. */
  function RunDiagnosis(m: Metrics): (r: DiagnosisResult)
    ensures r.issuesFound == |r.diagnoses|
    ensures forall i :: 0 <= i < |r.diagnoses| ==>
      Match(r.diagnoses[i].Rule(), m) == Some(r.diagnoses[i])
    ensures forall rule :: Fires(rule, m) <==>
      exists i :: 0 <= i < |r.diagnoses| && r.diagnoses[i].Rule() == rule
    ensures forall i, j :: 0 <= i < j < |r.diagnoses| ==> r.diagnoses[i].Rule() != r.diagnoses[j].Rule()
    ensures NoDups(r.recommendations)
    ensures forall s :: s in r.recommendations <==>
      exists rule :: Fires(rule, m) && s in Recommendations(rule)
  {
    RunDiagnosisCharacterised(m);
    RunOn(NewEngine(), m)
  }

  /** The proof of `RunDiagnosis`'s contract, following the fresh engine
      through `declare`, `run` and `get_results`. */
  lemma RunDiagnosisCharacterised(m: Metrics)
    ensures var r := RunOn(NewEngine(), m);
      && (forall i :: 0 <= i < |r.diagnoses| ==> Match(r.diagnoses[i].Rule(), m) == Some(r.diagnoses[i]))
      && (forall rule :: Fires(rule, m) <==> exists i :: 0 <= i < |r.diagnoses| && r.diagnoses[i].Rule() == rule)
      && (forall i, j :: 0 <= i < j < |r.diagnoses| ==> r.diagnoses[i].Rule() != r.diagnoses[j].Rule())
      && (forall s :: s in r.recommendations <==> exists rule :: Fires(rule, m) && s in Recommendations(rule))
  {
    var facts := [InitialFact, MetricsFact(m)];
    var e := Declare(ResetResults(Reset(NewEngine())), MetricsFact(m));
    assert e == Engine(facts, [], []);
    var acts := Activations(RuleSet, facts);
    RuleSetComplete(Overfitting);
    RecordActivations(RuleSet, m);
    DiagnosesOfActivations(m, acts, FireAll(Engine(facts, [], []), acts));
    RecommendationsOfActivations(m, acts, FireAll(Engine(facts, [], []), acts));
  }

  /** The diagnoses after firing, from empty lists, exactly one activation
      for each rule that fires on `m`. */
  lemma DiagnosesOfActivations(m: Metrics, acts: seq<Activation>, e: Engine)
    requires forall i, j :: 0 <= i < j < |acts| ==> acts[i].rule != acts[j].rule
    requires forall a :: a in acts <==> a.rule in RuleSet && Match(a.rule, m) == Some(a.diagnosis)
    requires e.diagnoses == seq(|acts|, i requires 0 <= i < |acts| => acts[i].diagnosis)
    ensures forall i :: 0 <= i < |e.diagnoses| ==> Match(e.diagnoses[i].Rule(), m) == Some(e.diagnoses[i])
    ensures forall rule :: Fires(rule, m) <==> exists i :: 0 <= i < |e.diagnoses| && e.diagnoses[i].Rule() == rule
    ensures forall i, j :: 0 <= i < j < |e.diagnoses| ==> e.diagnoses[i].Rule() != e.diagnoses[j].Rule()
  {
    forall i | 0 <= i < |acts|
      ensures e.diagnoses[i] == acts[i].diagnosis
      ensures acts[i].diagnosis.Rule() == acts[i].rule
      ensures Match(acts[i].rule, m) == Some(acts[i].diagnosis)
    {
      assert acts[i] in acts;
    }
    forall rule ensures Fires(rule, m) <==> exists i :: 0 <= i < |e.diagnoses| && e.diagnoses[i].Rule() == rule {
      if Fires(rule, m) {
        RuleSetComplete(rule);
        var a := Activation(rule, Match(rule, m).value);
        assert a in acts;
        var i :| 0 <= i < |acts| && acts[i] == a;
        assert e.diagnoses[i].Rule() == rule;
      }
    }
  }

  /** The recommendations after firing, from empty lists, one activation
      for each rule that fires on `m`. */
  lemma RecommendationsOfActivations(m: Metrics, acts: seq<Activation>, e: Engine)
    requires forall a :: a in acts <==> a.rule in RuleSet && Match(a.rule, m) == Some(a.diagnosis)
    requires forall s :: s in e.recommendations <==> exists a :: a in acts && s in Recommendations(a.rule)
    ensures forall s :: s in e.recommendations <==> exists rule :: Fires(rule, m) && s in Recommendations(rule)
  {
    forall s | s in e.recommendations
      ensures exists rule :: Fires(rule, m) && s in Recommendations(rule)
    {
      var a :| a in acts && s in Recommendations(a.rule);
      assert Fires(a.rule, m) && s in Recommendations(a.rule);
    }
    forall s, rule | Fires(rule, m) && s in Recommendations(rule)
      ensures s in e.recommendations
    {
      RuleSetComplete(rule);
      var a := Activation(rule, Match(rule, m).value);
      assert a in acts && s in Recommendations(a.rule);
    }
  }

  /** Over a working memory holding one metrics record, a rule list without
      repetitions gives at most one activation per rule, and exactly the
      rules that fire are activated. */
  lemma {:induction false} RecordActivations(rules: seq<RuleName>, m: Metrics)
    requires NoDups(rules)
    ensures var acts := Activations(rules, [InitialFact, MetricsFact(m)]);
      && (forall i, j :: 0 <= i < j < |acts| ==> acts[i].rule != acts[j].rule)
      && (forall a :: a in acts <==> a.rule in rules && Match(a.rule, m) == Some(a.diagnosis))
    decreases |rules|
  {
    var facts := [InitialFact, MetricsFact(m)];
    var acts := Activations(rules, facts);
    forall a ensures a in acts <==> a.rule in rules && Match(a.rule, m) == Some(a.diagnosis) {
      if a.rule in rules && Match(a.rule, m) == Some(a.diagnosis) {
        assert MetricsFact(m) in facts && MatchFact(a.rule, MetricsFact(m)) == Some(a.diagnosis);
      }
    }
    if rules != [] {
      var init := rules[..|rules| - 1];
      var last := rules[|rules| - 1];
      assert rules == init + [last];
      assert NoDups(init) by {
        forall i, j | 0 <= i < j < |init| ensures init[i] != init[j] {
          assert init[i] == rules[i] && init[j] == rules[j];
        }
      }
      RecordActivations(init, m);
      var front := Activations(init, facts);
      var back := ActivationsOf(last, facts);
      assert acts == front + back;
      assert |back| <= 1 by {
        assert facts[..1] == [InitialFact];
        assert ActivationsOf(last, facts[..1]) == [];
      }
      assert last !in init by {
        forall i | 0 <= i < |init| ensures init[i] != last {
          assert init[i] == rules[i];
        }
      }
      forall i, j | 0 <= i < j < |acts| ensures acts[i].rule != acts[j].rule {
        if j >= |front| {
          assert i < |front|;
          assert acts[i] in front;
          assert acts[j] in back;
        }
      }
    }
  }
}

module InferenceProperties {
  import opened Wrappers
  import opened Sequences
  import opened Metrics
  import opened Rules
  import opened Inference

  /** `reset` followed by `reset_results` erases everything an engine held
      before, so `run_diagnosis` on any engine gives the fresh-engine result. */
  lemma PriorStateIrrelevant(e: Engine, m: Metrics)
    ensures RunOn(e, m) == RunDiagnosis(m)
  {
  }

  /** When no rule fires, the result is empty: zero firing rules is an
      ordinary outcome, not an error. */
  lemma NoFiringNoIssues(m: Metrics)
    requires forall rule :: !Fires(rule, m)
    ensures RunDiagnosis(m) == DiagnosisResult([], [], 0)
  {
    var r := RunDiagnosis(m);
    if |r.diagnoses| != 0 {
      var d := r.diagnoses[0];
      assert Fires(d.Rule(), m);
    }
  }

  /** A record with no field present (the record `MLMetrics()` built from
      an empty dictionary) yields no diagnosis, no recommendation and zero
      issues. */
  lemma EmptyRecordHasNoIssues(m: Metrics)
    requires m == EmptyMetrics
    ensures RunDiagnosis(m) == DiagnosisResult([], [], 0)
  {
    forall rule ensures !Fires(rule, m) {
      assert !m.Has(TrainAccuracy) && !m.Has(TestAccuracy) && !m.Has(LossOscillation);
      assert !m.Has(ConvergenceSpeed) && !m.Has(DatasetSize) && !m.Has(BatchSize);
    }
    NoFiringNoIssues(m);
  }

  /** The six fields some rule pattern binds agree. */
  predicate AgreeOnReferencedFields(m1: Metrics, m2: Metrics) {
    && m1.trainAccuracy == m2.trainAccuracy
    && m1.testAccuracy == m2.testAccuracy
    && m1.lossOscillation == m2.lossOscillation
    && m1.convergenceSpeed == m2.convergenceSpeed
    && m1.datasetSize == m2.datasetSize
    && m1.batchSize == m2.batchSize
  }

  /** Over the working memory `run_diagnosis` builds, a rule has one
      activation when it fires on the record and none otherwise. */
  lemma ActivationsOfRecord(rule: RuleName, m: Metrics)
    ensures ActivationsOf(rule, [InitialFact, MetricsFact(m)]) ==
      match Match(rule, m)
      case Some(d) => [Activation(rule, d)]
      case None => []
  {
    var facts := [InitialFact, MetricsFact(m)];
    assert facts[..1] == [InitialFact];
    assert [InitialFact][..0] == [];
    assert ActivationsOf(rule, [InitialFact]) == [];
    assert ActivationsOf(rule, facts) ==
      ActivationsOf(rule, [InitialFact]) +
      (match Match(rule, m) case Some(d) => [Activation(rule, d)] case None => []);
  }

  /** Records that every rule matches alike give the same activations. */
  lemma {:induction false} ActivationsCongruent(rules: seq<RuleName>, m1: Metrics, m2: Metrics)
    requires forall rule :: Match(rule, m1) == Match(rule, m2)
    ensures Activations(rules, [InitialFact, MetricsFact(m1)]) == Activations(rules, [InitialFact, MetricsFact(m2)])
    decreases |rules|
  {
    if rules != [] {
      var last := rules[|rules| - 1];
      ActivationsCongruent(rules[..|rules| - 1], m1, m2);
      ActivationsOfRecord(last, m1);
      ActivationsOfRecord(last, m2);
    }
  }

  /** The result lists after firing depend only on the lists before and on
      the activations fired, not on working memory. */
  lemma {:induction false} FireAllIgnoresFacts(e1: Engine, e2: Engine, acts: seq<Activation>)
    requires e1.diagnoses == e2.diagnoses && e1.recommendations == e2.recommendations
    ensures FireAll(e1, acts).diagnoses == FireAll(e2, acts).diagnoses
    ensures FireAll(e1, acts).recommendations == FireAll(e2, acts).recommendations
    decreases |acts|
  {
    if acts != [] {
      FireAllIgnoresFacts(e1, e2, acts[..|acts| - 1]);
    }
  }

  /** Fields no rule references (`validation_accuracy`, `learning_rate`,
      `epochs`) do not change the result. */
  lemma UnreferencedFieldsIrrelevant(m1: Metrics, m2: Metrics)
    requires AgreeOnReferencedFields(m1, m2)
    ensures RunDiagnosis(m1) == RunDiagnosis(m2)
  {
    assert forall rule :: Match(rule, m1) == Match(rule, m2);
    ActivationsCongruent(RuleSet, m1, m2);
    var e1 := Declare(ResetResults(Reset(NewEngine())), MetricsFact(m1));
    var e2 := Declare(ResetResults(Reset(NewEngine())), MetricsFact(m2));
    assert e1.facts == [InitialFact, MetricsFact(m1)];
    assert e2.facts == [InitialFact, MetricsFact(m2)];
    FireAllIgnoresFacts(e1, e2, Activations(RuleSet, e1.facts));
  }
}
