# ML debugging expert system — rule-matching core

A Dafny model of the inference core of the ML debugging expert system
(`ml_debugging_expert.py`). A caller hands `run_diagnosis` a partial dictionary
of training metrics; it is declared as one `MLMetrics` fact in a fresh
`MLDebugExpert` knowledge engine. The engine's seven rules fire on it:

- overfitting
- underfitting
- learning rate too high
- learning rate too low
- small dataset
- small batch
- good performance

Each rule is guarded by a test over the metric fields its pattern binds. Each
rule that fires:

- appends one diagnosis;
- extends the recommendation list with its fixed strings;
- declares an `issue` fact.

`get_results` returns the diagnoses, the recommendations without duplicates,
and the number of diagnoses.

Modules:

- `Wrappers` (`wrappers.dfy`): `Option`, used for absent fields.
- `Sequences` (`sequences.dfy`): duplicate-free sequences and `Dedup`, the
  model of `list(set(...))`.
- `Metrics` (`metrics.dfy`): the `MLMetrics` record. `MLMetrics` declares no
  fields (ml_debugging_expert.py:14-16); the model gives it the nine keys the
  metric extraction asks for (gemini_integration.py:32-42), each optional, and
  absence is never coerced to a default.
- `Rules` (`rules.dfy`): the seven rules. For each rule it gives the pattern
  fields, the test, the diagnosis (a constructor carrying the matched values),
  the recommendations and the issue tag.
- `Inference` (`inference.dfy`): the working memory of facts, the activations
  the rules have over it, firing, `run` (with the no-chaining property),
  `reset_results`, `get_results` and `run_diagnosis`. `MLDebugExpert()`,
  `reset` and `declare` are the one-line record updates `NewEngine`, `Reset`
  and `Declare`.
- `InferenceProperties` (`inference.dfy`): independence from prior engine
  state, empty record, fields no rule reads.
- `RuleProperties` (`rule_properties.dfy`): absence handling, mutual
  exclusions, and the exact conditions of the categorical rules.
- `Scenarios` (`scenarios.dfy`): the worked examples.

Working memory is a sequence of facts: the initial fact, the metrics fact and
`issue` facts. Because of that, "issue facts never cause further firings" is a
lemma about the activations the rules have over memory, not an assumption.

`MLMetrics(**metrics)` accepts any keys and values without validation
(ml_debugging_expert.py:14-16, 151), so the model has no validation error, and
the categorical fields are arbitrary strings compared for exact equality, not
enumerations.

## Model

| member | source | states |
|---|---|---|
| Rules.Match | ml_debugging_expert.py:27-111 | a rule matches only when every field its pattern binds is present, and the diagnosis it yields belongs to that rule and quotes the record's own values |
| Rules.RuleSetComplete | ml_debugging_expert.py:26-120 | every one of the seven rules is declared, and none twice |
| Sequences.Dedup | ml_debugging_expert.py:126 | the recommendations lose their duplicates and keep exactly the same elements; an already duplicate-free list is unchanged |
| Inference.ActivationsOf | ml_debugging_expert.py:151-154 | the activations of a rule are exactly the (rule, diagnosis) pairs that some fact in working memory yields under the rule's pattern and test, and there are no more of them than facts |
| Inference.Activations | ml_debugging_expert.py:151-154 | the agenda holds exactly the (rule, diagnosis) pairs for which some fact in memory matches the rule |
| Inference.FireAll | ml_debugging_expert.py:29-120 | firing appends one diagnosis and one `issue` fact per activation, in order, and adds exactly the fired rules' recommendations |
| Inference.GetResults | ml_debugging_expert.py:122-128 | the result has the engine's diagnoses, a duplicate-free recommendation list with the same elements as the engine's, and `issues_found` equal to the number of diagnoses |
| Inference.ResetResults | ml_debugging_expert.py:130-133 | after `reset_results` the results are empty and working memory is unchanged |
| Inference.RunDiagnosis | ml_debugging_expert.py:136-156 | a diagnosis is returned for a rule exactly when that rule fires on the record, at most once per rule, and carrying the values matched. Recommendations are duplicate-free and are exactly the union of the fired rules' lists. `issues_found` equals the number of diagnoses |
| Inference.RecordActivations | ml_debugging_expert.py:146-154 | with the single metrics fact in memory, each rule has at most one activation, and exactly the rules that fire are activated |
| Inference.ActivationsIgnoreIssues | ml_debugging_expert.py:39-120 | adding `issue` facts to working memory, as the seven rule bodies declare them (lines 39, 54, 67, 80, 94, 107, 120), leaves the agenda unchanged |
| Inference.Run | ml_debugging_expert.py:154 | the `issue` facts a run declares create no new activation, so no rule chains off another; the diagnoses appended are those of the agenda's activations, in agenda order |
| InferenceProperties.PriorStateIrrelevant | ml_debugging_expert.py:146-148 | `reset` plus `reset_results` make the result independent of anything the engine held before |
| InferenceProperties.NoFiringNoIssues | ml_debugging_expert.py:122-128 | when no rule fires the result is empty, with zero issues |
| InferenceProperties.EmptyRecordHasNoIssues | ml_debugging_expert.py:151 | a record with no field present yields no diagnosis, no recommendation and zero issues |
| InferenceProperties.UnreferencedFieldsIrrelevant | ml_debugging_expert.py:151 | records that agree on the six fields some rule binds give the same result; `validation_accuracy`, `learning_rate` and `epochs` never matter |
| RuleProperties.AccuracyRulesNeedBothAccuracies | ml_debugging_expert.py:27-111 | without both accuracies, overfitting, underfitting and good performance never fire |
| RuleProperties.AccuracyRulesExclusive | ml_debugging_expert.py:27-111 | overfitting, underfitting and good performance are pairwise exclusive |
| RuleProperties.ModerateGapUndiagnosed | ml_debugging_expert.py:27-111 | a train/test gap above 10 and at most 15 points triggers none of the three accuracy rules |
| RuleProperties.DatasetRulesExclusive | ml_debugging_expert.py:83-98 | small dataset and small batch never fire together; with exactly 1000 samples neither fires |
| RuleProperties.LearningRateRulesExact | ml_debugging_expert.py:57-71 | learning rate too high fires if and only if `loss_oscillation` is present and is "high"; too low if and only if `convergence_speed` is present and is "very_slow" |
| RuleProperties.RecommendationsDistinct | ml_debugging_expert.py:32-119 | no rule lists the same recommendation twice |
| Scenarios.SingleFiring | ml_debugging_expert.py:122-128 | when exactly one rule fires: one diagnosis (that rule's), one issue, and exactly that rule's recommendations, each once |
| Scenarios.OverfittingScenario | ml_debugging_expert.py:165-172 | {95, 68, 5000, 32} gives exactly the overfitting diagnosis, 1 issue and 5 recommendations |
| Scenarios.UnderfittingScenario | ml_debugging_expert.py:177-184 | {65, 63, 5000, 32} gives exactly the underfitting diagnosis |
| Scenarios.GoodModelScenario | ml_debugging_expert.py:189-195 | {92, 88, 5000, 64} gives exactly the good-model diagnosis |
| Scenarios.AccuraciesOnlyScenario | test_system.py:20-27 | {95, 68} alone gives at least one diagnosis, the first being overfitting |
| Scenarios.SmallDatasetScenario | ml_debugging_expert.py:83-107 | {dataset 500, batch 8} gives only the small-dataset warning, because the small-batch rule needs more than 1000 samples |
| Scenarios.SmallBatchScenario | ml_debugging_expert.py:97-107 | {dataset 5000, batch 8} gives only the small-batch warning |

## Left out

- Diagnosis text: a diagnosis is a constructor carrying the matched values. The f-string rendering, with Python's int/float formatting, is not modelled.
- Scenarios.OverfittingScenario: states the diagnosis constructor and its values, not that the text begins "OVERFITTING DETECTED: …", because text is not modelled.
- Rule firing order: Experta's agenda and conflict-resolution internals are not part of this model. Activations fire in rule-declaration order. No contract fixes the order of the diagnoses within one result; `UnreferencedFieldsIrrelevant` and `PriorStateIrrelevant` compare whole results under the model's fixed order, as repeated calls within one Python process would.
- Recommendation order: `list(set(...))` has no specified order. `Dedup` keeps first occurrences. No contract fixes the order of the recommendations within one result: they state contents and the absence of duplicates. The two congruence lemmas above compare whole results under the model's fixed order.
- Python dynamic typing: accuracies are `real`, sizes are `int`, categorical fields are strings. In the source, a non-numeric value (a string, or `None` passed explicitly) raises `TypeError` only in a numeric test that actually evaluates it. For the accuracy rules, that happens when both `train_accuracy` and `test_accuracy` are present (ml_debugging_expert.py:28, 43, 111). For small dataset, it happens whenever `dataset_size` is present (:84). For small batch, it happens when both sizes are present, on `batch_size` first and on `dataset_size` only once `batch_size < 16` holds (:98). A non-string `loss_oscillation` or `convergence_speed` never raises: it compares unequal to "high" or "very_slow" (:58, :71), which the model's strings also do.
- Rule invocation: the model assumes the engine calls each rule method with only the matched variables its signature names. `lr_too_high` (ml_debugging_expert.py:57-59) does not take `osc`, `lr_too_low` (:70-72) does not take `speed`, and `batch_too_small` (:97-99) takes `bs` but not `ds`. If the engine passed every bound variable, these three firings would raise `TypeError`, and `run_diagnosis` would fail on records that fire them (for example `SmallBatchScenario`'s record). Experta's calling convention is not part of this model, so the model follows the evident intent: both rules fire normally.
- Keys outside the nine named fields (gemini_integration.py:32-42): `MLMetrics(**metrics)` accepts them, but no rule reads them. They behave like `validation_accuracy`, `learning_rate` and `epochs` (see `UnreferencedFieldsIrrelevant`) and are not represented.
- Inference.Run: fired activations are not recorded (Experta's refraction is not modelled), so `Run` models `run()` only on an engine whose activations have not fired yet, such as the one fresh from `reset` that `run_diagnosis` builds (ml_debugging_expert.py:146-154). Applied twice, `Run` would fire the same activations again.
- Floating point: accuracies are exact reals. The rules only subtract and compare.
- Experta's suppression of duplicate facts on `declare`: each rule declares a distinct `issue` tag at most once per run, so it cannot change the outcome.
- The GUI (`gui.py`), the command-line loop (`main_cli.py`), the language-model client (`gemini_integration.py`) and the `collections` shim (`compat.py`): I/O and network wrappers around `run_diagnosis`, with no inference logic.
