/**
 * The ten absolute contraindications, in the order the engine checks them,
 * each with the predicate that makes it fire, the reason it reports and the
 * next steps it recommends; and the two ways of describing what the
 * contraindication phase collects: step by step (Collect, the way the engine
 * pushes onto its accumulators) and as a filter over the rule table (Fired).
 */
module Rules {
  import opened Patient

  datatype Rule =
    | HighHgbA1c
    | LowEjectionFraction
    | HomeO2
    | Smoker
    | Cancer
    | Infection
    | Abuse
    | Homeless
    | NoSupport
    | Noncompliance

  /** The two checks on the numeric lab values, in the order they are made. */
  const LabRules: seq<Rule> := [HighHgbA1c, LowEjectionFraction]

  /** The first four "Current History" boxes: medical conditions. */
  const MedicalRules: seq<Rule> := [HomeO2, Smoker, Cancer, Infection]

  /** The last four "Current History" boxes: psychosocial conditions. */
  const PsychosocialRules: seq<Rule> := [Abuse, Homeless, NoSupport, Noncompliance]

  /** The fixed evaluation order of the contraindication checks. */
  const RuleOrder: seq<Rule> := LabRules + MedicalRules + PsychosocialRules

  /** The position of a rule in RuleOrder. */
  function Rank(r: Rule): (k: nat)
    ensures k < |RuleOrder| && RuleOrder[k] == r
  {
    match r
    case HighHgbA1c => 0
    case LowEjectionFraction => 1
    case HomeO2 => 2
    case Smoker => 3
    case Cancer => 4
    case Infection => 5
    case Abuse => 6
    case Homeless => 7
    case NoSupport => 8
    case Noncompliance => 9
  }

  /**
   * Whether a rule fires for a patient. A value that did not parse (None)
   * compares false, as NaN does; both thresholds are strict.
   */
  predicate Fires(r: Rule, p: PatientInput) {
    match r
    case HighHgbA1c => p.hgbA1c.Some? && p.hgbA1c.value > 10.0
    case LowEjectionFraction => p.ejectionFraction.Some? && p.ejectionFraction.value < 15.0
    case HomeO2 => p.history.homeO2
    case Smoker => p.history.smoker
    case Cancer => p.history.cancer
    case Infection => p.history.infection
    case Abuse => p.history.abuse
    case Homeless => p.history.homeless
    case NoSupport => p.history.noSupport
    case Noncompliance => p.history.noncompliance
  }

  /** The reason a fired rule reports. */
  function RuleReason(r: Rule, p: PatientInput): Reason
    requires Fires(r, p)
  {
    match r
    case HighHgbA1c => HgbA1cIs(p.hgbA1c.value)
    case LowEjectionFraction => EjectionFractionIs(p.ejectionFraction.value)
    case HomeO2 => HomeO2Required
    case Smoker => CurrentSmoker
    case Cancer => CancerDiagnosis
    case Infection => InfectiousDisease
    case Abuse => DrugOrAlcoholAbuse
    case Homeless => HomelessHighRisk
    case NoSupport => NoSocialSupport
    case Noncompliance => MissedDialysis
  }

  /** The next steps a rule recommends, in the order they are listed. */
  function RuleSteps(r: Rule): seq<Step> {
    match r
    case HighHgbA1c => [EndocrinologyFollowUp]
    case LowEjectionFraction => [CardiologyConsult]
    case HomeO2 => [PulmonologyReferral]
    case Smoker => [TobaccoCessationReferral, ReReferAfterAbstinence]
    case Cancer => [OncologyClearance]
    case Infection => [InfectiousDiseaseConsult]
    case Abuse => [ChemicalDependencyEvaluation, ReReferAfterTreatment]
    case Homeless => [AddressHousing]
    case NoSupport => [EstablishSupportSystem]
    case Noncompliance => [DemonstrateDialysisCompliance]
  }

  /** The two accumulators of the contraindication phase: reasons, and one step list per reason. */
  datatype Collected = Collected(reasons: seq<Reason>, stepLists: seq<seq<Step>>)

  /** Checking one rule: when it fires, push its reason and its step list. */
  function Push(c: Collected, r: Rule, p: PatientInput): Collected {
    if Fires(r, p) then Collected(c.reasons + [RuleReason(r, p)], c.stepLists + [RuleSteps(r)])
    else c
  }

  /** The accumulators before the first check: both empty. */
  const NothingCollected := Collected([], [])

  /** The accumulators after checking `rules` one after another, starting from `start`. */
  function Collect(start: Collected, rules: seq<Rule>, p: PatientInput): Collected
    decreases |rules|
  {
    if rules == [] then start
    else Push(Collect(start, rules[..|rules| - 1], p), rules[|rules| - 1], p)
  }

  /** Checking `xs` and then `ys` is checking `xs + ys`. */
  lemma {:induction false} CollectAppend(start: Collected, xs: seq<Rule>, ys: seq<Rule>, p: PatientInput)
    ensures Collect(start, xs + ys, p) == Collect(Collect(start, xs, p), ys, p)
    decreases |ys|
  {
    if ys == [] {
      assert xs + ys == xs;
    } else {
      var init := ys[..|ys| - 1];
      assert (xs + ys)[..|xs + ys| - 1] == xs + init;
      CollectAppend(start, xs, init, p);
    }
  }

  /** The rules of `rules` that fire for `p`, in their order in `rules`. */
  function Fired(rules: seq<Rule>, p: PatientInput): (fired: seq<Rule>)
    ensures |fired| <= |rules|
    ensures forall r :: r in fired ==> r in rules && Fires(r, p)
    decreases |rules|
  {
    if rules == [] then []
    else
      var last := rules[|rules| - 1];
      Fired(rules[..|rules| - 1], p) + (if Fires(last, p) then [last] else [])
  }

  /** The contraindications a patient has, in evaluation order. */
  function FiredRules(p: PatientInput): (fired: seq<Rule>)
    ensures forall r :: r in fired ==> Fires(r, p)
  {
    Fired(RuleOrder, p)
  }

  /** The reasons of a list of fired rules, one per rule, in the same order. */
  function ReasonsOf(rules: seq<Rule>, p: PatientInput): (reasons: seq<Reason>)
    requires forall r :: r in rules ==> Fires(r, p)
    ensures |reasons| == |rules|
    ensures forall i :: 0 <= i < |rules| ==> reasons[i] == RuleReason(rules[i], p)
    decreases |rules|
  {
    if rules == [] then []
    else ReasonsOf(rules[..|rules| - 1], p) + [RuleReason(rules[|rules| - 1], p)]
  }

  /** The step lists of a list of rules, one list per rule, in the same order. */
  function StepsOf(rules: seq<Rule>): (stepLists: seq<seq<Step>>)
    ensures |stepLists| == |rules|
    ensures forall i :: 0 <= i < |rules| ==> stepLists[i] == RuleSteps(rules[i])
    decreases |rules|
  {
    if rules == [] then []
    else StepsOf(rules[..|rules| - 1]) + [RuleSteps(rules[|rules| - 1])]
  }

  /** Concatenation of a list of lists, as JavaScript's Array.prototype.flat does it. */
  function Flatten<T>(xss: seq<seq<T>>): seq<T>
    decreases |xss|
  {
    if xss == [] then []
    else Flatten(xss[..|xss| - 1]) + xss[|xss| - 1]
  }
}
