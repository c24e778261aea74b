# Kidney transplant referral screener: the decision engine

Clinic staff use the screener to decide whether a patient with chronic kidney
disease should be referred for transplant evaluation. They fill in a form (lowest eGFR,
dialysis, signs of uremia, HgbA1c, ejection fraction, and eight "Current
History" boxes) and press "Evaluate". The handler `handleScreening` then
works in four steps:

0. Validation. It refuses to evaluate when the eGFR text is empty and the
   patient is not on dialysis.
1. Contraindications. It runs ten checks in a fixed order. None of them stops
   the others. Each check that fires pushes one reason and one list of next
   steps onto two arrays. If anything was pushed, the result is "Do Not Refer"
   with every reason and the flattened steps.
2. Qualification. Only when nothing fired, it tries three criteria in order and
   the first match refers:
   - on dialysis;
   - a numeric eGFR of at most 20;
   - an eGFR in (20, 25] with uremia.
3. Default. Otherwise it returns "Do Not Refer" with a monitoring step.

The model:

- `patient.dfy`: the form's values. The eGFR field is `Empty`, `NonNumeric`
  or `Numeric(v)`. HgbA1c and ejection fraction are `Option<real>`, where
  `None` is a field that does not parse. The history boxes are booleans. The
  result card is a decision plus reasons and next steps, both enumerations.
- `texts.dfy`: the exact sentences behind every reason and step, and the
  validation message.
- `rules.dfy`: the table of the ten contraindications (`Fires`, `RuleReason`,
  `RuleSteps`). It also gives two descriptions of what step 1 collects:
  - `Collect`, one `Push` per check, as the handler does it;
  - `Fired`/`ReasonsOf`/`StepsOf`, a filter over the table.
- `engine.dfy`: the handler as an imperative method, `HandleScreening`,
  proved equal to the specification function `Screen`.
  - The ten checks stay ten consecutive `if` statements on two sequence
    accumulators.
  - They are grouped into three consecutive methods that hand the
    accumulators on: lab values, medical history boxes, psychosocial
    history boxes.
  - The qualification chain is the early-return chain of the source.
  - `Qualify` is that chain as a function.
- `properties.dfy`: what the engine guarantees, proved about `Screen`.

Behaviour of the code that the model keeps as written:

- Next steps are not de-duplicated. The code only flattens the collected
  lists (app.py:186), and so does the model. `Properties.NoRepeatedSteps`
  shows that, with this rule table, no step can appear twice anyway.
- The eGFR is not checked to be non-negative; app.py has no such check, and
  the model accepts any number.
- The HgbA1c rule recommends a single step, one sentence (app.py:141).
- The qualification outcomes carry a single `reason` (app.py:196-212) and the
  contraindication outcome a list `reasons` (app.py:183-187). The model always
  returns a sequence; the qualification outcomes have exactly one element.

## Model

| member | source | states |
|---|---|---|
| `Engine.HandleScreening` | app.py:121-213 | The handler's outcome is exactly `Screen(p)`: the validation error, the collected contraindications, or the first qualification that matches. |
| `Engine.CheckLabValues` | app.py:130-146 | Starting from empty accumulators, the HgbA1c and ejection fraction checks leave exactly the pushes of the lab rules that fire. |
| `Engine.CheckMedicalHistory` | app.py:147-162 | The home O2, smoker, cancer and infection checks extend the accumulators by exactly the pushes of those rules that fire, in that order. |
| `Engine.CheckPsychosocialHistory` | app.py:163-178 | The abuse, homeless, no-support and noncompliance checks extend the accumulators by exactly the pushes of those rules that fire, in that order. |
| `Engine.Qualify` | app.py:191-212 | The qualification chain always gives one reason and at least one step. It refers exactly when the patient is on dialysis, or has a numeric eGFR of at most 20, or of at most 25 with uremia. |
| `Engine.Screen` | app.py:121-213 | The outcome is the validation error exactly when validation fails, and every result card carries at least one reason. |
| `Engine.CollectStep` | app.py:137-178 | Checking one more rule is one more push onto the accumulators. |
| `Engine.CollectLabRules` | app.py:139-146 | Collecting over the lab rules is the HgbA1c push followed by the ejection fraction push. |
| `Engine.CollectMedicalRules` | app.py:147-162 | Collecting over the medical rules is their four pushes in source order. |
| `Engine.CollectPsychosocialRules` | app.py:163-178 | Collecting over the psychosocial rules is their four pushes in source order. |
| `Rules.Rank` | app.py:139-178 | Every rule has a position in the fixed evaluation order, and the table holds that rule at that position. |
| `Rules.CollectAppend` | app.py:137-178 | Checking one group of rules and then another is the same as checking their concatenation. |
| `Rules.Fired` | app.py:137-178 | The fired rules are no more than the checked ones, and each of them was checked and fires. |
| `Rules.FiredRules` | app.py:137-178 | Every contraindication reported fires for the patient. |
| `Rules.ReasonsOf` | app.py:137-178 | One reason per fired rule, in the same order, each the rule's own reason. |
| `Rules.StepsOf` | app.py:137-178 | One step list per fired rule, in the same order, each the rule's own list. |
| `Properties.CollectIsFilterMap` | app.py:137-178 | Pushing check by check collects exactly the reasons and step lists of the rules that fire, in check order. |
| `Properties.FiredMembership` | app.py:137-178 | A rule is reported exactly when it is checked and fires. |
| `Properties.FiredKeepsOrder` | app.py:137-178 | Filtering keeps the evaluation order and reports no rule twice. |
| `Properties.RuleOrderInOrder` | app.py:139-178 | The ten checks run in one strictly increasing order. |
| `Properties.FiredRulesAreTheFiringRules` | app.py:137-178 | The contraindications reported are exactly the rules that fire, each once, in evaluation order. |
| `Properties.FiredNone` | app.py:137-178 | When no checked rule fires, nothing is reported. |
| `Properties.NoContraindicationExactly` | app.py:180-182 | There is no contraindication exactly when no rule fires. |
| `Properties.InRuleOrderDistinct` | app.py:137-178 | Rules in evaluation order are pairwise different. |
| `Properties.LabThresholds` | app.py:139-146 | HgbA1c fires exactly above 10 and ejection fraction exactly below 15. A value of exactly 10 or 15 does not fire, and neither does a field that did not parse. |
| `Properties.ScreenByFiredRules` | app.py:121-213 | The outcome is one of three. It is the validation error when validation fails. Otherwise, with a contraindication, it is "Do Not Refer" with one reason per contraindication and their steps concatenated in order. With none, it is the qualification chain. |
| `Properties.ValidationErrorExactly` | app.py:123-128 | The validation error comes exactly when the eGFR text is empty and the patient is not on dialysis. |
| `Properties.ReferExactly` | app.py:180-209 | "Refer" comes exactly when validation passes, no contraindication fires and a referral criterion holds. |
| `Properties.PushSameInputs` | app.py:139-178 | One check reads only the lab values and the history boxes. |
| `Properties.CollectSameInputs` | app.py:137-178 | The whole contraindication phase reads only the lab values and the history boxes. |
| `Properties.ContraindicationsOverrideQualification` | app.py:180-189 | Once a contraindication fires, dialysis, eGFR and uremia do not change the result, and the decision is "Do Not Refer". |
| `Properties.ScreenedCardNotEmpty` | app.py:180-212 | Every result card has at least one reason and at least one next step. |
| `Properties.FlattenSnoc` | app.py:186 | Flattening one more step list appends that list. |
| `Properties.StepsLength` | app.py:139-186 | The flattened step list has one step per rule, plus one more for each smoker or abuse rule. |
| `Properties.TwoStepRulesCount` | app.py:151-165 | Among pairwise different rules, the extra steps count whether smoker and abuse are present. |
| `Properties.ContraindicatedStepCount` | app.py:137-188 | A contraindicated patient gets one step per contraindication, plus one if a smoker and one if abusing drugs or alcohol. |
| `Properties.FlattenMembership` | app.py:186 | An element is in the flattened list exactly when one of the lists holds it. |
| `Properties.StepsMembership` | app.py:137-186 | A step is in the flattened list exactly when some listed rule names it. |
| `Properties.StepsBelongToOneRule` | app.py:139-178 | No step is named by two different rules, and no rule names a step twice. |
| `Properties.DistinctConcat` | app.py:186 | Two repeat-free lists with no common element concatenate to a repeat-free list. |
| `Properties.DistinctInit` | app.py:137-178 | Without its last rule, a list of pairwise different rules stays pairwise different and no longer holds that rule. |
| `Properties.FreshRuleFreshSteps` | app.py:139-178 | A rule not yet listed names no step that the listed rules already name. |
| `Properties.StepsDistinctSnoc` | app.py:186 | Appending the steps of a rule not yet present keeps the step list free of repeats. |
| `Properties.StepsDistinct` | app.py:137-186 | Pairwise different rules give a flattened step list with no repeated step. |
| `Properties.NoRepeatedSteps` | app.py:180-212 | No result card lists the same next step twice, although the code removes no repeats. |
| `Properties.DialysisRefers` | app.py:195-197 | With no contraindication, dialysis refers with the dialysis reason and the two transplant-center steps. |
| `Properties.EgfrThresholds` | app.py:200-212 | Off dialysis with no contraindication: 20 refers; 20.1 without uremia does not; 25 with uremia refers with the uremia-documentation step first; 25.1 does not. |
| `Properties.LowEgfrRefersOnValue` | app.py:200-203 | Off dialysis with no contraindication, every numeric eGFR of at most 20 refers, with the reason naming that eGFR and the two transplant-center steps. |
| `Properties.UremiaBandRefers` | app.py:205-207 | Off dialysis with no contraindication, every eGFR in (20, 25] with uremia refers, with the band reason and three steps, the uremia-documentation step first. |
| `Properties.CriteriaNotMetDefault` | app.py:211-212 | Past validation, with no contraindication and no criterion met, the result is "Do Not Refer" with the criteria-not-met reason and the single monitoring step. |
| `Properties.NonNumericEgfrNotMet` | app.py:200-212 | An eGFR text that is not a number meets no criterion and gives the default outcome. |
| `Properties.UremiaMattersOnlyInBand` | app.py:195-212 | Uremia changes nothing on dialysis or outside an eGFR in (20, 25]. |
| `Properties.MoreHistoryNeverRefers` | app.py:147-212 | Checking more history boxes never turns a result into "Refer". A patient referred with more boxes checked is referred, identically, with fewer. |
| `Properties.CollectRuleOrder` | app.py:137-178 | The contraindication phase is the ten pushes in source order. |
| `Properties.HighHgbA1cOnDialysis` | app.py:139-189 | HgbA1c 11, EF 50, on dialysis and nothing else gives "Do Not Refer", with only the HgbA1c reason and its step. |
| `Properties.LowEgfrRefers` | app.py:200-203 | An eGFR of 18 with every other field at its default refers on the eGFR. |

## Left out

- The page and its widgets are not modelled: `Card`, `Checkbox`, `ResultCard`,
  `InputField` and the page layout (app.py:1-94 and app.py:229-286). They only
  render state.
- React state (`useState`), `handleCheckboxChange` (app.py:116-119) and
  `handleReset` (app.py:215-227) are not modelled. The engine's inputs are a
  `PatientInput` value, and `setError`/`setScreeningResult` become the
  returned `Outcome`.
- JavaScript's `parseFloat` is not modelled. Its result is an input:
  - `Numeric(v)` or `Some(v)` for a text that parses;
  - `NonNumeric` or `None` for one that gives `NaN`.

  Comparisons with `NaN` are false, which is why `None` never fires.
- Floating-point numbers are modelled as exact reals. Rounding and special values
  other than `NaN` are out of scope.
- Turning numbers into digits inside a reason sentence (`${hgbA1cValue}`) is
  not modelled. `Texts.Words` keeps the number beside the two halves of the
  sentence.
- `ValidationError` carries no text. The message it stands for is
  `Texts.ValidationMessage`.
- The model proves that no step value repeats. It does not prove that
  `Texts.StepText` gives different texts for different steps; the sixteen
  sentences are held as plain data.
