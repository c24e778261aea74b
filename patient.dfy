/**
 * The values the referral screener works on: what the form hands to the
 * decision engine, and what the engine hands back. The wording of every
 * reason, step and message is in module Texts.
 */
module Patient {

  datatype Option<T> = None | Some(value: T)

  /**
   * The "Lowest eGFR" text field as the engine sees it. Validation only asks
   * whether the raw text is empty; the qualification rules ask whether it
   * parses as a number. A non-empty text that does not parse is NonNumeric.
   */
  datatype EgfrField = Empty | NonNumeric | Numeric(value: real)

  /** The eight "Current History" check boxes; a box left alone is false. */
  datatype History = History(
    homeO2: bool,
    smoker: bool,
    cancer: bool,
    infection: bool,
    abuse: bool,
    homeless: bool,
    noSupport: bool,
    noncompliance: bool)

  /**
   * One evaluation request. HgbA1c and ejection fraction are None when their
   * text does not parse as a number (an empty field included).
   */
  datatype PatientInput = PatientInput(
    egfr: EgfrField,
    onDialysis: bool,
    hasUremia: bool,
    hgbA1c: Option<real>,
    ejectionFraction: Option<real>,
    history: History)

  datatype Decision = Refer | DoNotRefer

  /**
   * A reason shown on the result card. The three reasons whose sentence
   * interpolates a number carry that number.
   */
  datatype Reason =
    | HgbA1cIs(hgbA1c: real)
    | EjectionFractionIs(ejectionFraction: real)
    | HomeO2Required
    | CurrentSmoker
    | CancerDiagnosis
    | InfectiousDisease
    | DrugOrAlcoholAbuse
    | HomelessHighRisk
    | NoSocialSupport
    | MissedDialysis
    | CurrentlyOnDialysis
    | LowestEgfrIs(egfr: real)
    | EgfrBandWithUremia
    | CriteriaNotMet

  /** A recommended next step shown on the result card. */
  datatype Step =
    | EndocrinologyFollowUp
    | CardiologyConsult
    | PulmonologyReferral
    | TobaccoCessationReferral
    | ReReferAfterAbstinence
    | OncologyClearance
    | InfectiousDiseaseConsult
    | ChemicalDependencyEvaluation
    | ReReferAfterTreatment
    | AddressHousing
    | EstablishSupportSystem
    | DemonstrateDialysisCompliance
    | DocumentUremia
    | TransplantCenterReferral
    | TransplantCenterContact
    | ContinueCkdMonitoring

  /** The result card: the decision, every reason for it, and the next steps. */
  datatype ScreeningResult = ScreeningResult(
    decision: Decision,
    reasons: seq<Reason>,
    nextSteps: seq<Step>)

  /**
   * What one press of "Evaluate" produces: either the validation error (whose
   * message is Texts.ValidationMessage) and no result card, or a result card.
   */
  datatype Outcome = ValidationError | Screened(result: ScreeningResult)
}
