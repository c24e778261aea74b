/**
 * What the referral decision engine guarantees, proved about Screen: the
 * contraindication phase is a filter over the rule table in its fixed order,
 * any contraindication decides the outcome, the qualification chain decides
 * the rest, and the next-step list never repeats a step.
 */
module Properties {
  import opened Patient
  import opened Rules
  import opened Engine

  /** No element occurs twice. */
  predicate Distinct<T(==)>(xs: seq<T>) {
    forall i, j :: 0 <= i < j < |xs| ==> xs[i] != xs[j]
  }

  /** Strictly increasing by position in RuleOrder: in evaluation order, no rule twice. */
  predicate InRuleOrder(rules: seq<Rule>) {
    forall i, j :: 0 <= i < j < |rules| ==> Rank(rules[i]) < Rank(rules[j])
  }

  /** How many of the rules are Smoker or Abuse, the two with a two-step list. */
  function TwoStepRules(rules: seq<Rule>): nat
    decreases |rules|
  {
    if rules == [] then 0
    else
      var last := rules[|rules| - 1];
      TwoStepRules(rules[..|rules| - 1]) + (if last == Smoker || last == Abuse then 1 else 0)
  }

  /** The default outcome when nothing fired and no criterion is met. */
  const NotMet := Screened(ScreeningResult(DoNotRefer, [CriteriaNotMet], [ContinueCkdMonitoring]))

  // ---------------------------------------------------------------------
  // The contraindication phase.
  // ---------------------------------------------------------------------

  /** Flattening one more list appends that list. */
  lemma FlattenSnoc<T>(xss: seq<seq<T>>, ys: seq<T>)
    ensures Flatten(xss + [ys]) == Flatten(xss) + ys
  {
  }

  /**
   * Pushing rule by rule collects exactly the reasons and the step lists of
   * the rules that fire, in the order the rules are checked.
   */
  lemma {:induction false} CollectIsFilterMap(rules: seq<Rule>, p: PatientInput)
    ensures Collect(NothingCollected, rules, p).reasons == ReasonsOf(Fired(rules, p), p)
    ensures Collect(NothingCollected, rules, p).stepLists == StepsOf(Fired(rules, p))
    decreases |rules|
  {
    if rules != [] {
      var init, last := rules[..|rules| - 1], rules[|rules| - 1];
      CollectIsFilterMap(init, p);
      var fired := Fired(init, p);
      if Fires(last, p) {
        assert (fired + [last])[..|fired|] == fired;
      } else {
        assert fired + [] == fired;
      }
    }
  }

  /** A rule is among the fired ones exactly when it is checked and fires. */
  lemma {:induction false} FiredMembership(rules: seq<Rule>, p: PatientInput, r: Rule)
    ensures r in Fired(rules, p) <==> r in rules && Fires(r, p)
    decreases |rules|
  {
    if rules != [] {
      var init, last := rules[..|rules| - 1], rules[|rules| - 1];
      FiredMembership(init, p, r);
      assert rules == init + [last];
    }
  }

  /** Filtering keeps the evaluation order. */
  lemma {:induction false} FiredKeepsOrder(rules: seq<Rule>, p: PatientInput)
    requires InRuleOrder(rules)
    ensures InRuleOrder(Fired(rules, p))
    decreases |rules|
  {
    if rules != [] {
      var init, last := rules[..|rules| - 1], rules[|rules| - 1];
      FiredKeepsOrder(init, p);
      var fired := Fired(init, p);
      if Fires(last, p) {
        forall x | x in fired
          ensures Rank(x) < Rank(last)
        {
          var i :| 0 <= i < |init| && init[i] == x;
          assert rules[i] == x;
        }
        var all := fired + [last];
        forall i, j | 0 <= i < j < |all|
          ensures Rank(all[i]) < Rank(all[j])
        {
          if j == |fired| {
            assert all[i] in fired;
          } else {
            assert all[i] == fired[i] && all[j] == fired[j];
          }
        }
      } else {
        assert fired + [] == fired;
      }
    }
  }

  /** The rule table itself is in evaluation order. */
  lemma RuleOrderInOrder()
    ensures InRuleOrder(RuleOrder)
  {
    assert RuleOrder == [HighHgbA1c, LowEjectionFraction, HomeO2, Smoker, Cancer,
                         Infection, Abuse, Homeless, NoSupport, Noncompliance];
    forall i | 0 <= i < |RuleOrder|
      ensures Rank(RuleOrder[i]) == i
    {
    }
  }

  /**
   * The contraindications a patient has are exactly the rules that fire for
   * them, each once, in evaluation order.
   */
  lemma FiredRulesAreTheFiringRules(p: PatientInput)
    ensures forall r :: r in FiredRules(p) <==> Fires(r, p)
    ensures InRuleOrder(FiredRules(p))
  {
    forall r
      ensures r in FiredRules(p) <==> Fires(r, p)
    {
      FiredMembership(RuleOrder, p, r);
      assert RuleOrder[Rank(r)] == r;
    }
    RuleOrderInOrder();
    FiredKeepsOrder(RuleOrder, p);
  }

  /** Nothing fires over rules none of which fires. */
  lemma {:induction false} FiredNone(rules: seq<Rule>, p: PatientInput)
    requires forall r :: r in rules ==> !Fires(r, p)
    ensures Fired(rules, p) == []
    decreases |rules|
  {
    if rules != [] {
      FiredNone(rules[..|rules| - 1], p);
    }
  }

  /** A patient has no contraindication exactly when no rule fires for them. */
  lemma NoContraindicationExactly(p: PatientInput)
    ensures FiredRules(p) == [] <==> forall r :: !Fires(r, p)
  {
    FiredRulesAreTheFiringRules(p);
    if forall r :: !Fires(r, p) {
      FiredNone(RuleOrder, p);
    }
  }

  /** Rules in evaluation order are pairwise different. */
  lemma InRuleOrderDistinct(rules: seq<Rule>)
    requires InRuleOrder(rules)
    ensures Distinct(rules)
  {
  }

  /** Both numeric thresholds are strict, and a value that did not parse never fires. */
  lemma LabThresholds(p: PatientInput)
    ensures HighHgbA1c in FiredRules(p) <==> p.hgbA1c.Some? && p.hgbA1c.value > 10.0
    ensures LowEjectionFraction in FiredRules(p) <==> p.ejectionFraction.Some? && p.ejectionFraction.value < 15.0
    ensures p.hgbA1c == Some(10.0) || p.hgbA1c.None? ==> HighHgbA1c !in FiredRules(p)
    ensures p.ejectionFraction == Some(15.0) || p.ejectionFraction.None? ==> LowEjectionFraction !in FiredRules(p)
  {
    FiredRulesAreTheFiringRules(p);
  }

  // ---------------------------------------------------------------------
  // The outcome.
  // ---------------------------------------------------------------------

  /**
   * Screen stated declaratively: the validation error, or "Do Not Refer" with
   * one reason per contraindication and their steps in order, or the
   * qualification chain when there is no contraindication.
   */
  lemma ScreenByFiredRules(p: PatientInput)
    ensures !PassesValidation(p) ==> Screen(p) == ValidationError
    ensures PassesValidation(p) && FiredRules(p) != [] ==>
      Screen(p) == Screened(ScreeningResult(DoNotRefer, ReasonsOf(FiredRules(p), p), Flatten(StepsOf(FiredRules(p)))))
    ensures PassesValidation(p) && FiredRules(p) == [] ==> Screen(p) == Screened(Qualify(p))
  {
    CollectIsFilterMap(RuleOrder, p);
  }

  /** The validation error comes exactly when eGFR is empty and the patient is not on dialysis. */
  lemma ValidationErrorExactly(p: PatientInput)
    ensures Screen(p) == ValidationError <==> p.egfr.Empty? && !p.onDialysis
  {
  }

  /**
   * "Refer" comes exactly when validation passes, no contraindication is
   * present and a referral criterion is met.
   */
  lemma ReferExactly(p: PatientInput)
    ensures Screen(p).Screened? && Screen(p).result.decision == Refer
        <==> PassesValidation(p) && FiredRules(p) == [] && MeetsReferralCriteria(p)
  {
    ScreenByFiredRules(p);
  }

  /** Checking one rule sees only the lab values and the history boxes. */
  lemma PushSameInputs(c: Collected, r: Rule, p: PatientInput, q: PatientInput)
    requires p.hgbA1c == q.hgbA1c && p.ejectionFraction == q.ejectionFraction && p.history == q.history
    ensures Push(c, r, p) == Push(c, r, q)
  {
  }

  /** Collecting sees only the lab values and the history boxes. */
  lemma {:induction false} CollectSameInputs(start: Collected, rules: seq<Rule>, p: PatientInput, q: PatientInput)
    requires p.hgbA1c == q.hgbA1c && p.ejectionFraction == q.ejectionFraction && p.history == q.history
    ensures Collect(start, rules, p) == Collect(start, rules, q)
    decreases |rules|
  {
    if rules != [] {
      var init, last := rules[..|rules| - 1], rules[|rules| - 1];
      CollectSameInputs(start, init, p, q);
      PushSameInputs(Collect(start, init, p), last, p, q);
    }
  }

  /**
   * Once a contraindication is present, dialysis, eGFR and uremia no longer
   * matter: two patients with the same lab values and history boxes, both
   * past validation, get the same "Do Not Refer" result.
   */
  lemma ContraindicationsOverrideQualification(p: PatientInput, q: PatientInput)
    requires p.hgbA1c == q.hgbA1c && p.ejectionFraction == q.ejectionFraction && p.history == q.history
    requires PassesValidation(p) && PassesValidation(q)
    requires FiredRules(p) != []
    ensures Screen(p) == Screen(q)
    ensures Screen(p).result.decision == DoNotRefer
  {
    CollectSameInputs(NothingCollected, RuleOrder, p, q);
    ScreenByFiredRules(p);
    CollectIsFilterMap(RuleOrder, p);
  }

  /** Every reason has a next step: the step list of a contraindicated patient is never empty. */
  lemma ScreenedCardNotEmpty(p: PatientInput)
    ensures Screen(p).Screened? ==> |Screen(p).result.reasons| >= 1 && |Screen(p).result.nextSteps| >= 1
  {
    ScreenByFiredRules(p);
    if PassesValidation(p) && FiredRules(p) != [] {
      StepsLength(FiredRules(p));
    }
  }

  // ---------------------------------------------------------------------
  // The next steps.
  // ---------------------------------------------------------------------

  /** Smoker and Abuse contribute two steps each, every other rule one. */
  lemma {:induction false} StepsLength(rules: seq<Rule>)
    ensures |Flatten(StepsOf(rules))| == |rules| + TwoStepRules(rules)
    decreases |rules|
  {
    if rules != [] {
      var init, last := rules[..|rules| - 1], rules[|rules| - 1];
      StepsLength(init);
      FlattenSnoc(StepsOf(init), RuleSteps(last));
    }
  }

  /** Among pairwise different rules, TwoStepRules counts whether Smoker and Abuse are present. */
  lemma {:induction false} TwoStepRulesCount(rules: seq<Rule>)
    requires Distinct(rules)
    ensures TwoStepRules(rules) == (if Smoker in rules then 1 else 0) + (if Abuse in rules then 1 else 0)
    decreases |rules|
  {
    if rules != [] {
      var init, last := rules[..|rules| - 1], rules[|rules| - 1];
      assert rules == init + [last];
      assert last !in init;
      TwoStepRulesCount(init);
    }
  }

  /**
   * A contraindicated patient gets one step per contraindication, plus one
   * more for smoking and one more for substance abuse.
   */
  lemma ContraindicatedStepCount(p: PatientInput)
    requires PassesValidation(p) && FiredRules(p) != []
    ensures |Screen(p).result.nextSteps|
         == |FiredRules(p)| + (if p.history.smoker then 1 else 0) + (if p.history.abuse then 1 else 0)
  {
    ScreenByFiredRules(p);
    FiredRulesAreTheFiringRules(p);
    InRuleOrderDistinct(FiredRules(p));
    StepsLength(FiredRules(p));
    TwoStepRulesCount(FiredRules(p));
  }

  /** An element is in the flattened list exactly when one of the lists holds it. */
  lemma {:induction false} FlattenMembership<T>(xss: seq<seq<T>>, x: T)
    ensures x in Flatten(xss) <==> exists i :: 0 <= i < |xss| && x in xss[i]
    decreases |xss|
  {
    if xss != [] {
      var init := xss[..|xss| - 1];
      FlattenMembership(init, x);
      FlattenSnoc(init, xss[|xss| - 1]);
      assert xss == init + [xss[|xss| - 1]];
      if exists i :: 0 <= i < |init| && x in init[i] {
        var i :| 0 <= i < |init| && x in init[i];
        assert x in xss[i];
      }
    }
  }

  /** A step is in the flattened list exactly when one of the rules lists it. */
  lemma {:induction false} StepsMembership(rules: seq<Rule>, s: Step)
    ensures s in Flatten(StepsOf(rules)) <==> exists r :: r in rules && s in RuleSteps(r)
  {
    var lists := StepsOf(rules);
    FlattenMembership(lists, s);
    if s in Flatten(lists) {
      var i :| 0 <= i < |lists| && s in lists[i];
      assert rules[i] in rules && s in RuleSteps(rules[i]);
    }
    if exists r :: r in rules && s in RuleSteps(r) {
      var r :| r in rules && s in RuleSteps(r);
      var i :| 0 <= i < |rules| && rules[i] == r;
      assert s in lists[i];
    }
  }

  /** No step is listed by two different rules, and no rule lists a step twice. */
  lemma StepsBelongToOneRule(r1: Rule, r2: Rule, s: Step)
    requires s in RuleSteps(r1) && s in RuleSteps(r2)
    ensures r1 == r2
    ensures Distinct(RuleSteps(r1))
  {
  }

  /** Distinct lists with no common element concatenate to a distinct list. */
  lemma DistinctConcat<T>(a: seq<T>, b: seq<T>)
    requires Distinct(a) && Distinct(b)
    requires forall x :: x in a ==> x !in b
    ensures Distinct(a + b)
  {
    var ab := a + b;
    forall i, j | 0 <= i < j < |ab|
      ensures ab[i] != ab[j]
    {
      if i < |a| && j >= |a| {
        assert ab[i] in a && ab[j] == b[j - |a|];
      } else if i >= |a| {
        assert ab[i] == b[i - |a|] && ab[j] == b[j - |a|];
      } else {
        assert ab[i] == a[i] && ab[j] == a[j];
      }
    }
  }

  /** Dropping the last of pairwise different rules leaves pairwise different rules, without it. */
  lemma DistinctInit(rules: seq<Rule>)
    requires Distinct(rules) && rules != []
    ensures Distinct(rules[..|rules| - 1])
    ensures rules[|rules| - 1] !in rules[..|rules| - 1]
  {
  }

  /** A rule not among `rules` lists no step that `rules` already list. */
  lemma FreshRuleFreshSteps(rules: seq<Rule>, r: Rule)
    requires r !in rules
    ensures forall s :: s in Flatten(StepsOf(rules)) ==> s !in RuleSteps(r)
  {
    forall s | s in Flatten(StepsOf(rules))
      ensures s !in RuleSteps(r)
    {
      StepsMembership(rules, s);
      var owner :| owner in rules && s in RuleSteps(owner);
      if s in RuleSteps(r) {
        StepsBelongToOneRule(owner, r, s);
      }
    }
  }

  /** Appending the steps of a rule not yet present keeps the step list free of repeats. */
  lemma StepsDistinctSnoc(rules: seq<Rule>, r: Rule)
    requires Distinct(Flatten(StepsOf(rules))) && r !in rules
    ensures Distinct(Flatten(StepsOf(rules)) + RuleSteps(r))
  {
    FreshRuleFreshSteps(rules, r);
    DistinctConcat(Flatten(StepsOf(rules)), RuleSteps(r));
  }

  /** Pairwise different rules give a step list that repeats no step. */
  lemma {:induction false} StepsDistinct(rules: seq<Rule>)
    requires Distinct(rules)
    ensures Distinct(Flatten(StepsOf(rules)))
    decreases |rules|
  {
    if rules != [] {
      var init, last := rules[..|rules| - 1], rules[|rules| - 1];
      DistinctInit(rules);
      StepsDistinct(init);
      StepsDistinctSnoc(init, last);
      FlattenSnoc(StepsOf(init), RuleSteps(last));
    }
  }

  /**
   * The next-step list is shown as it is collected, without removing
   * repeats; with this rule table it never holds a step twice.
   */
  lemma NoRepeatedSteps(p: PatientInput)
    ensures Screen(p).Screened? ==> Distinct(Screen(p).result.nextSteps)
  {
    ScreenByFiredRules(p);
    if PassesValidation(p) && FiredRules(p) != [] {
      FiredRulesAreTheFiringRules(p);
      InRuleOrderDistinct(FiredRules(p));
      StepsDistinct(FiredRules(p));
    }
  }

  // ---------------------------------------------------------------------
  // The qualification chain.
  // ---------------------------------------------------------------------

  /** A patient on dialysis with no contraindication is referred, for dialysis. */
  lemma DialysisRefers(p: PatientInput)
    requires p.onDialysis && FiredRules(p) == []
    ensures Screen(p) == Screened(ScreeningResult(Refer, [CurrentlyOnDialysis], TransplantReferralSteps))
  {
    ScreenByFiredRules(p);
  }

  /**
   * The eGFR thresholds, for a patient off dialysis with no
   * contraindication: 20 refers, 20.1 without uremia does not, 25 with uremia
   * refers (with the uremia documentation step first), 25.1 does not.
   */
  lemma EgfrThresholds(p: PatientInput)
    requires !p.onDialysis && FiredRules(p) == []
    ensures p.egfr == Numeric(20.0) ==>
      Screen(p) == Screened(ScreeningResult(Refer, [LowestEgfrIs(20.0)], TransplantReferralSteps))
    ensures p.egfr == Numeric(20.1) && !p.hasUremia ==> Screen(p) == NotMet
    ensures p.egfr == Numeric(25.0) && p.hasUremia ==>
      Screen(p) == Screened(ScreeningResult(Refer, [EgfrBandWithUremia],
                                            [DocumentUremia, TransplantCenterReferral, TransplantCenterContact]))
    ensures p.egfr == Numeric(25.1) ==> Screen(p) == NotMet
  {
    ScreenByFiredRules(p);
  }

  /** Off dialysis with no contraindication, a numeric eGFR of at most 20 refers on that eGFR. */
  lemma LowEgfrRefersOnValue(p: PatientInput)
    requires !p.onDialysis && FiredRules(p) == []
    requires p.egfr.Numeric? && p.egfr.value <= 20.0
    ensures Screen(p) == Screened(ScreeningResult(Refer, [LowestEgfrIs(p.egfr.value)], TransplantReferralSteps))
  {
    ScreenByFiredRules(p);
  }

  /**
   * Off dialysis with no contraindication, an eGFR in (20, 25] with uremia
   * refers, the uremia documentation step coming before the referral steps.
   */
  lemma UremiaBandRefers(p: PatientInput)
    requires !p.onDialysis && FiredRules(p) == []
    requires p.egfr.Numeric? && 20.0 < p.egfr.value <= 25.0 && p.hasUremia
    ensures Screen(p) == Screened(ScreeningResult(Refer, [EgfrBandWithUremia], [DocumentUremia] + TransplantReferralSteps))
  {
    ScreenByFiredRules(p);
  }

  /** Past validation, with no contraindication and no criterion met, the default outcome. */
  lemma CriteriaNotMetDefault(p: PatientInput)
    requires PassesValidation(p) && FiredRules(p) == [] && !MeetsReferralCriteria(p)
    ensures Screen(p) == NotMet
  {
    ScreenByFiredRules(p);
  }

  /** An eGFR text that is not a number meets no criterion. */
  lemma NonNumericEgfrNotMet(p: PatientInput)
    requires !p.onDialysis && p.egfr.NonNumeric? && FiredRules(p) == []
    ensures Screen(p) == NotMet
  {
    ScreenByFiredRules(p);
  }

  /** Uremia changes the outcome only off dialysis with an eGFR in (20, 25]. */
  lemma UremiaMattersOnlyInBand(p: PatientInput, q: PatientInput)
    requires p.(hasUremia := q.hasUremia) == q
    requires p.onDialysis || !(p.egfr.Numeric? && 20.0 < p.egfr.value <= 25.0)
    ensures Screen(p) == Screen(q)
  {
    CollectSameInputs(NothingCollected, RuleOrder, p, q);
  }

  /**
   * Checking another history box never turns a result into "Refer": if the
   * patient with more boxes checked is referred, so is the one with fewer,
   * and for the same reason.
   */
  lemma MoreHistoryNeverRefers(p: PatientInput, q: PatientInput)
    requires p.(history := q.history) == q
    requires p.history.homeO2 ==> q.history.homeO2
    requires p.history.smoker ==> q.history.smoker
    requires p.history.cancer ==> q.history.cancer
    requires p.history.infection ==> q.history.infection
    requires p.history.abuse ==> q.history.abuse
    requires p.history.homeless ==> q.history.homeless
    requires p.history.noSupport ==> q.history.noSupport
    requires p.history.noncompliance ==> q.history.noncompliance
    requires Screen(q).Screened? && Screen(q).result.decision == Refer
    ensures Screen(p) == Screen(q)
  {
    ScreenByFiredRules(p);
    ScreenByFiredRules(q);
    FiredRulesAreTheFiringRules(p);
    FiredRulesAreTheFiringRules(q);
    if FiredRules(p) != [] {
      var r := FiredRules(p)[0];
      assert r in FiredRules(p);
      assert Fires(r, q);
    }
  }

  // ---------------------------------------------------------------------
  // Worked examples.
  // ---------------------------------------------------------------------

  /** No history box checked. */
  const NoHistory := History(false, false, false, false, false, false, false, false)

  /** Collecting over RuleOrder is ten Pushes, one per rule, in evaluation order. */
  lemma CollectRuleOrder(p: PatientInput)
    ensures Collect(NothingCollected, RuleOrder, p)
         == Push(Push(Push(Push(Push(Push(Push(Push(Push(Push(NothingCollected,
              HighHgbA1c, p), LowEjectionFraction, p), HomeO2, p), Smoker, p), Cancer, p),
              Infection, p), Abuse, p), Homeless, p), NoSupport, p), Noncompliance, p)
  {
    CollectLabRules(NothingCollected, p);
    CollectMedicalRules(Collect(NothingCollected, LabRules, p), p);
    CollectPsychosocialRules(Collect(NothingCollected, LabRules + MedicalRules, p), p);
    CollectAppend(NothingCollected, LabRules, MedicalRules, p);
    CollectAppend(NothingCollected, LabRules + MedicalRules, PsychosocialRules, p);
  }

  /** HgbA1c 11, EF 50, on dialysis, nothing else: the HgbA1c alone decides. */
  lemma HighHgbA1cOnDialysis()
    ensures Screen(PatientInput(Empty, true, false, Some(11.0), Some(50.0), NoHistory))
         == Screened(ScreeningResult(DoNotRefer, [HgbA1cIs(11.0)], [EndocrinologyFollowUp]))
  {
    CollectRuleOrder(PatientInput(Empty, true, false, Some(11.0), Some(50.0), NoHistory));
    assert Flatten([[EndocrinologyFollowUp]]) == Flatten([]) + [EndocrinologyFollowUp];
  }

  /** An eGFR of 18 with every other field at its default refers on the eGFR. */
  lemma LowEgfrRefers()
    ensures Screen(PatientInput(Numeric(18.0), false, false, None, None, NoHistory))
         == Screened(ScreeningResult(Refer, [LowestEgfrIs(18.0)], TransplantReferralSteps))
  {
    CollectRuleOrder(PatientInput(Numeric(18.0), false, false, None, None, NoHistory));
  }
}
