/**
 * The referral decision engine: validation, exhaustive collection of the
 * contraindications, then the first-match qualification chain. Screen is the
 * specification; HandleScreening is the step-by-step procedure behind the
 * form's "Evaluate" button, proved to compute it.
 */
module Engine {
  import opened Patient
  import opened Rules

  /** Evaluation needs a Lowest eGFR text or the dialysis box checked. */
  predicate PassesValidation(p: PatientInput) {
    !(p.egfr.Empty? && !p.onDialysis)
  }

  /**
   * The referral criteria stated as one condition rather than as a chain:
   * on dialysis, or a numeric eGFR of at most 20, or of at most 25 with uremia.
   */
  predicate MeetsReferralCriteria(p: PatientInput) {
    || p.onDialysis
    || (p.egfr.Numeric? && (p.egfr.value <= 20.0 || (p.egfr.value <= 25.0 && p.hasUremia)))
  }

  /** The steps of every "Refer" outcome: where to send the referral, whom to call. */
  const TransplantReferralSteps: seq<Step> := [TransplantCenterReferral, TransplantCenterContact]

  /**
   * The qualification chain, tried only when nothing fired: the first rule
   * that matches gives "Refer"; when none does, the default "Do Not Refer".
   */
  function Qualify(p: PatientInput): (r: ScreeningResult)
    ensures |r.reasons| == 1 && |r.nextSteps| >= 1
    ensures r.decision == Refer <==> MeetsReferralCriteria(p)
  {
    if p.onDialysis then
      ScreeningResult(Refer, [CurrentlyOnDialysis], TransplantReferralSteps)
    else if p.egfr.Numeric? && p.egfr.value <= 20.0 then
      ScreeningResult(Refer, [LowestEgfrIs(p.egfr.value)], TransplantReferralSteps)
    else if p.egfr.Numeric? && p.egfr.value > 20.0 && p.egfr.value <= 25.0 && p.hasUremia then
      ScreeningResult(Refer, [EgfrBandWithUremia], [DocumentUremia] + TransplantReferralSteps)
    else
      ScreeningResult(DoNotRefer, [CriteriaNotMet], [ContinueCkdMonitoring])
  }

  /** What one evaluation produces for a patient. */
  function Screen(p: PatientInput): (o: Outcome)
    ensures o.ValidationError? <==> !PassesValidation(p)
    ensures o.Screened? ==> |o.result.reasons| >= 1
  {
    if !PassesValidation(p) then ValidationError
    else
      var c := Collect(NothingCollected, RuleOrder, p);
      if |c.reasons| > 0 then Screened(ScreeningResult(DoNotRefer, c.reasons, Flatten(c.stepLists)))
      else Screened(Qualify(p))
  }

  /** Collecting over one more rule is one more Push. */
  lemma CollectStep(start: Collected, checked: seq<Rule>, r: Rule, p: PatientInput)
    ensures Collect(start, checked + [r], p) == Push(Collect(start, checked, p), r, p)
  {
  }

  /** Collecting over the lab rules is two Pushes, in order. */
  lemma CollectLabRules(start: Collected, p: PatientInput)
    ensures Collect(start, LabRules, p) == Push(Push(start, HighHgbA1c, p), LowEjectionFraction, p)
  {
  }

  /** Collecting over the medical rules is four Pushes, in order. */
  lemma CollectMedicalRules(start: Collected, p: PatientInput)
    ensures Collect(start, MedicalRules, p)
         == Push(Push(Push(Push(start, HomeO2, p), Smoker, p), Cancer, p), Infection, p)
  {
    var checked: seq<Rule> := [];
    CollectStep(start, checked, HomeO2, p);
    checked := checked + [HomeO2];
    CollectStep(start, checked, Smoker, p);
    checked := checked + [Smoker];
    CollectStep(start, checked, Cancer, p);
    checked := checked + [Cancer];
    CollectStep(start, checked, Infection, p);
    checked := checked + [Infection];
    assert checked == MedicalRules;
  }

  /** Collecting over the psychosocial rules is four Pushes, in order. */
  lemma CollectPsychosocialRules(start: Collected, p: PatientInput)
    ensures Collect(start, PsychosocialRules, p)
         == Push(Push(Push(Push(start, Abuse, p), Homeless, p), NoSupport, p), Noncompliance, p)
  {
    var checked: seq<Rule> := [];
    CollectStep(start, checked, Abuse, p);
    checked := checked + [Abuse];
    CollectStep(start, checked, Homeless, p);
    checked := checked + [Homeless];
    CollectStep(start, checked, NoSupport, p);
    checked := checked + [NoSupport];
    CollectStep(start, checked, Noncompliance, p);
    checked := checked + [Noncompliance];
    assert checked == PsychosocialRules;
  }

  /**
   * The first two contraindication checks, on the parsed HgbA1c and ejection
   * fraction. They start the two accumulators: the reasons not to refer, and
   * one list of next steps per reason.
   */
  method CheckLabValues(p: PatientInput) returns (reasonsNotToRefer: seq<Reason>, nextStepsNotToRefer: seq<seq<Step>>)
    ensures Collected(reasonsNotToRefer, nextStepsNotToRefer) == Collect(NothingCollected, LabRules, p)
  {
    var hgbA1cValue := p.hgbA1c;
    var efValue := p.ejectionFraction;

    reasonsNotToRefer, nextStepsNotToRefer := [], [];
    // The accumulators as they stood before the current check.
    ghost var before := NothingCollected;

    if hgbA1cValue.Some? && hgbA1cValue.value > 10.0 {
      reasonsNotToRefer := reasonsNotToRefer + [HgbA1cIs(hgbA1cValue.value)];
      nextStepsNotToRefer := nextStepsNotToRefer + [[EndocrinologyFollowUp]];
    }
    assert Collected(reasonsNotToRefer, nextStepsNotToRefer) == Push(before, HighHgbA1c, p);
    before := Collected(reasonsNotToRefer, nextStepsNotToRefer);
    if efValue.Some? && efValue.value < 15.0 {
      reasonsNotToRefer := reasonsNotToRefer + [EjectionFractionIs(efValue.value)];
      nextStepsNotToRefer := nextStepsNotToRefer + [[CardiologyConsult]];
    }
    assert Collected(reasonsNotToRefer, nextStepsNotToRefer) == Push(before, LowEjectionFraction, p);
    CollectLabRules(NothingCollected, p);
  }

  /**
   * The next four contraindication checks, on the medical "Current History"
   * boxes (home O2, smoking, cancer, infection), pushing onto the
   * accumulators the lab-value checks started.
   */
  method CheckMedicalHistory(p: PatientInput, reasons: seq<Reason>, stepLists: seq<seq<Step>>)
    returns (reasonsNotToRefer: seq<Reason>, nextStepsNotToRefer: seq<seq<Step>>)
    ensures Collected(reasonsNotToRefer, nextStepsNotToRefer) == Collect(Collected(reasons, stepLists), MedicalRules, p)
  {
    reasonsNotToRefer, nextStepsNotToRefer := reasons, stepLists;
    ghost var before := Collected(reasons, stepLists);

    if p.history.homeO2 {
      reasonsNotToRefer := reasonsNotToRefer + [HomeO2Required];
      nextStepsNotToRefer := nextStepsNotToRefer + [[PulmonologyReferral]];
    }
    assert Collected(reasonsNotToRefer, nextStepsNotToRefer) == Push(before, HomeO2, p);
    before := Collected(reasonsNotToRefer, nextStepsNotToRefer);
    if p.history.smoker {
      reasonsNotToRefer := reasonsNotToRefer + [CurrentSmoker];
      nextStepsNotToRefer := nextStepsNotToRefer + [[TobaccoCessationReferral, ReReferAfterAbstinence]];
    }
    assert Collected(reasonsNotToRefer, nextStepsNotToRefer) == Push(before, Smoker, p);
    before := Collected(reasonsNotToRefer, nextStepsNotToRefer);
    if p.history.cancer {
      reasonsNotToRefer := reasonsNotToRefer + [CancerDiagnosis];
      nextStepsNotToRefer := nextStepsNotToRefer + [[OncologyClearance]];
    }
    assert Collected(reasonsNotToRefer, nextStepsNotToRefer) == Push(before, Cancer, p);
    before := Collected(reasonsNotToRefer, nextStepsNotToRefer);
    if p.history.infection {
      reasonsNotToRefer := reasonsNotToRefer + [InfectiousDisease];
      nextStepsNotToRefer := nextStepsNotToRefer + [[InfectiousDiseaseConsult]];
    }
    assert Collected(reasonsNotToRefer, nextStepsNotToRefer) == Push(before, Infection, p);
    CollectMedicalRules(Collected(reasons, stepLists), p);
  }

  /**
   * The last four contraindication checks, on the psychosocial "Current
   * History" boxes (substance abuse, housing, social support, dialysis
   * attendance), pushing onto the same accumulators.
   */
  method CheckPsychosocialHistory(p: PatientInput, reasons: seq<Reason>, stepLists: seq<seq<Step>>)
    returns (reasonsNotToRefer: seq<Reason>, nextStepsNotToRefer: seq<seq<Step>>)
    ensures Collected(reasonsNotToRefer, nextStepsNotToRefer) == Collect(Collected(reasons, stepLists), PsychosocialRules, p)
  {
    reasonsNotToRefer, nextStepsNotToRefer := reasons, stepLists;
    ghost var before := Collected(reasons, stepLists);

    if p.history.abuse {
      reasonsNotToRefer := reasonsNotToRefer + [DrugOrAlcoholAbuse];
      nextStepsNotToRefer := nextStepsNotToRefer + [[ChemicalDependencyEvaluation, ReReferAfterTreatment]];
    }
    assert Collected(reasonsNotToRefer, nextStepsNotToRefer) == Push(before, Abuse, p);
    before := Collected(reasonsNotToRefer, nextStepsNotToRefer);
    if p.history.homeless {
      reasonsNotToRefer := reasonsNotToRefer + [HomelessHighRisk];
      nextStepsNotToRefer := nextStepsNotToRefer + [[AddressHousing]];
    }
    assert Collected(reasonsNotToRefer, nextStepsNotToRefer) == Push(before, Homeless, p);
    before := Collected(reasonsNotToRefer, nextStepsNotToRefer);
    if p.history.noSupport {
      reasonsNotToRefer := reasonsNotToRefer + [NoSocialSupport];
      nextStepsNotToRefer := nextStepsNotToRefer + [[EstablishSupportSystem]];
    }
    assert Collected(reasonsNotToRefer, nextStepsNotToRefer) == Push(before, NoSupport, p);
    before := Collected(reasonsNotToRefer, nextStepsNotToRefer);
    if p.history.noncompliance {
      reasonsNotToRefer := reasonsNotToRefer + [MissedDialysis];
      nextStepsNotToRefer := nextStepsNotToRefer + [[DemonstrateDialysisCompliance]];
    }
    assert Collected(reasonsNotToRefer, nextStepsNotToRefer) == Push(before, Noncompliance, p);
    CollectPsychosocialRules(Collected(reasons, stepLists), p);
  }

  /**
   * The "Evaluate" handler: validation, then the contraindication checks,
   * then the qualification chain, which ends in early returns.
   */
  method HandleScreening(p: PatientInput) returns (outcome: Outcome)
    ensures outcome == Screen(p)
  {
    // Step 0: validation.
    if p.egfr.Empty? && !p.onDialysis {
      return ValidationError;
    }

    // Step 1: every absolute contraindication.
    var reasonsNotToRefer, nextStepsNotToRefer := CheckLabValues(p);
    reasonsNotToRefer, nextStepsNotToRefer := CheckMedicalHistory(p, reasonsNotToRefer, nextStepsNotToRefer);
    reasonsNotToRefer, nextStepsNotToRefer := CheckPsychosocialHistory(p, reasonsNotToRefer, nextStepsNotToRefer);
    CollectAppend(NothingCollected, LabRules, MedicalRules, p);
    CollectAppend(NothingCollected, LabRules + MedicalRules, PsychosocialRules, p);

    // Step 1b: any contraindication decides the outcome.
    if |reasonsNotToRefer| > 0 {
      return Screened(ScreeningResult(DoNotRefer, reasonsNotToRefer, Flatten(nextStepsNotToRefer)));
    }

    // Step 2: the qualification chain, first match wins.
    var egfrValue := p.egfr;
    if p.onDialysis {
      return Screened(ScreeningResult(Refer, [CurrentlyOnDialysis], [TransplantCenterReferral, TransplantCenterContact]));
    }
    if egfrValue.Numeric? {
      if egfrValue.value <= 20.0 {
        return Screened(ScreeningResult(Refer, [LowestEgfrIs(egfrValue.value)], [TransplantCenterReferral, TransplantCenterContact]));
      }
      if egfrValue.value > 20.0 && egfrValue.value <= 25.0 && p.hasUremia {
        return Screened(ScreeningResult(Refer, [EgfrBandWithUremia], [DocumentUremia, TransplantCenterReferral, TransplantCenterContact]));
      }
    }

    // Step 3: no criterion met.
    return Screened(ScreeningResult(DoNotRefer, [CriteriaNotMet], [ContinueCkdMonitoring]));
  }
}
