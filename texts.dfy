/**
 * The exact wording the screener shows: the validation message, the sentence
 * of every reason and the text of every next step.
 */
module Texts {
  import opened Patient

  const ValidationMessage := "Please enter a Lowest eGFR value or check if the patient is on dialysis."

  /**
   * How a reason reads: a fixed sentence, or a sentence around a number.
   * Turning the number into digits is JavaScript's and is not modelled.
   */
  datatype Wording = Sentence(text: string) | AroundValue(before: string, value: real, after: string)

  function Words(r: Reason): Wording {
    match r
    case HgbA1cIs(v) => AroundValue("HgbA1c is ", v, "%.")
    case EjectionFractionIs(v) => AroundValue("Ejection Fraction is ", v, "%.")
    case HomeO2Required => Sentence("Patient requires home O2.")
    case CurrentSmoker => Sentence("Current active smoker.")
    case CancerDiagnosis => Sentence("Active cancer diagnosis.")
    case InfectiousDisease => Sentence("Active infectious disease.")
    case DrugOrAlcoholAbuse => Sentence("Current drug or alcohol abuse.")
    case HomelessHighRisk => Sentence("Patient is homeless (high risk of infection).")
    case NoSocialSupport => Sentence("No social support system.")
    case MissedDialysis => Sentence("Missed Dialysis >50%.")
    case CurrentlyOnDialysis => Sentence("Patient is currently on dialysis.")
    case LowestEgfrIs(v) => AroundValue("Lowest eGFR is ", v, ", which is <= 20.")
    case EgfrBandWithUremia => Sentence("Lowest eGFR is between 20-25 and have signs of uremia.")
    case CriteriaNotMet => Sentence("Patient does not meet the Lowest eGFR or dialysis criteria for referral at this time.")
  }

  function StepText(s: Step): string {
    match s
    case EndocrinologyFollowUp =>
      "Work with Primary Medical Doctor/Endocrinologist, transplant refer after HbA1C<10"
    case CardiologyConsult =>
      "Consult with cardiology to evaluate for reversible causes of low EF and optimization before transplant referral"
    case PulmonologyReferral =>
      "Refer to Pulmonologist for optimization."
    case TobaccoCessationReferral =>
      "Enter a referral to Tobacco Cessation."
    case ReReferAfterAbstinence =>
      "Can be re-referred after abstaining for 6 months."
    case OncologyClearance =>
      "Referral can be reconsidered after treatment and appropriate cancer-free period as determined by an oncologist."
    case InfectiousDiseaseConsult =>
      "Consult Infectious Disease refer after resolution of active infection and completion of course of antibiotics"
    case ChemicalDependencyEvaluation =>
      "Enter CD Eval for First Step (651-925-0057)."
    case ReReferAfterTreatment =>
      "Can be re-referred when treatment is complete, and we have documentation from First Step."
    case AddressHousing =>
      "Address housing situation before referral can be considered."
    case EstablishSupportSystem =>
      "Patient needs to establish a reliable social support system before referral."
    case DemonstrateDialysisCompliance =>
      "Patient must demonstrate compliance with dialysis attendance for 6 months before re-referral."
    case DocumentUremia =>
      "Ensure uremia signs are stated in MD note."
    case TransplantCenterReferral =>
      "Refer for Transplant to Sanford Transplant Center, Fargo using EPIC Transplant Services Referral or fax referral sheet to 701-234-7341."
    case TransplantCenterContact =>
      "For more information, call 701-234-6715."
    case ContinueCkdMonitoring =>
      "Continue to monitor patient as per standard CKD management protocols."
  }
}
