/** The tip-suggestion wizard: a four-step form gathering service type,
    service quality and whether a service charge was included, and the
    scoring rule that turns the answers into a whole-number percentage. */
module SuggestTip {
  import opened Types
  import opened JsMath

  datatype Quality = Excellent | Good | Average | Poor
  datatype Charge = Yes | No

  /** The wizard's steps, in the order they are visited. */
  datatype Step = ServiceType | ServiceQuality | ServiceCharge | Suggestion

  /** The three answers; "" and None stand for "not yet answered". */
  datatype Answers = Answers(serviceType: string, quality: Option<Quality>, charge: Option<Charge>)

  /** What the wizard hands to the calculator on accept. It carries no
      service type: the wizard emits only these three fields. */
  datatype Accepted = Accepted(percentage: int, quality: Option<Quality>, serviceCharge: Option<Charge>)

  /** Position of a step in the wizard. */
  function Index(s: Step): nat
  {
    match s
    case ServiceType => 0
    case ServiceQuality => 1
    case ServiceCharge => 2
    case Suggestion => 3
  }

  /** Rank of a quality level, Poor lowest. */
  function Rank(q: Quality): nat
  {
    match q
    case Poor => 0
    case Average => 1
    case Good => 2
    case Excellent => 3
  }

  // ---------------------------------------------------------------------
  // Scoring

  /** The starting percentage: the middle preset (index floor(len/2)), 15 for
      an empty preset list, 10 for round-up, and 0 when tipping does not apply. */
  function BaseTip(opts: TipOptions): (b: real)
    ensures opts.Presets? && |opts.percents| > 0 ==> b == opts.percents[|opts.percents| / 2]
    ensures opts.Presets? && |opts.percents| == 0 ==> b == 15.0
    ensures opts.RoundUpOnly? ==> b == 10.0
    ensures opts.NoTipping? ==> b == 0.0
  {
    match opts
    case Presets(ps) => if |ps| > 0 then ps[|ps| / 2] else 15.0
    case RoundUpOnly => 10.0
    case NoTipping => 0.0
  }

  /** The quality adjustment of the base: five points per rank above Good
      (or below it), and nothing at all for Poor. */
  function QualityAdjusted(base: real, q: Quality): (t: real)
    ensures q != Poor ==> t == base + 5.0 * (Rank(q) as real - 2.0)
    ensures q == Poor ==> t == 0.0
  {
    match q
    case Excellent => base + 5.0
    case Average => base - 5.0
    case Poor => 0.0
    case Good => base
  }

  /** The service-charge adjustment: capped at 5 for Excellent or Good,
      zero for Average or Poor, untouched when no charge was included. */
  function ChargeAdjusted(tip: real, q: Quality, charge: Option<Charge>): (r: real)
    ensures charge != Some(Yes) ==> r == tip
    ensures charge == Some(Yes) ==> r <= 5.0
    ensures charge == Some(Yes) && (q == Excellent || q == Good) ==> r <= tip && (r == tip || r == 5.0)
    ensures charge == Some(Yes) && (q == Average || q == Poor) ==> r == 0.0
  {
    if charge == Some(Yes) then
      if q == Excellent || q == Good then Min(tip, 5.0) else 0.0
    else
      tip
  }

  /** The suggested percentage for the answers and the destination's tip modes. */
  function SuggestedTip(quality: Option<Quality>, charge: Option<Charge>, opts: TipOptions): (r: int)
    ensures r >= 0
    ensures quality == None ==> r == 0
  {
    match quality
    case None => 0
    case Some(q) => Max(0, Round(ChargeAdjusted(QualityAdjusted(BaseTip(opts), q), q, charge)))
  }

  /** The suggestion never exceeds the rounded base plus five (nor goes below 0). */
  lemma SuggestionBounds(quality: Option<Quality>, charge: Option<Charge>, opts: TipOptions)
    ensures 0 <= SuggestedTip(quality, charge, opts) <= Max(0, Round(BaseTip(opts)) + 5)
  {
    if quality.Some? {
      var q := quality.value;
      var b := BaseTip(opts);
      var t := ChargeAdjusted(QualityAdjusted(b, q), q, charge);
      assert t <= b + 5.0 || t == 0.0;
      if t == 0.0 {
        assert Round(t) == 0;
      } else {
        RoundMonotone(t, b + 5.0);
        RoundShift(b, 5);
      }
    }
  }

  /** The cases in which the suggestion is zero whatever the base. */
  lemma SuggestionZero(quality: Option<Quality>, charge: Option<Charge>, opts: TipOptions)
    requires quality == None || quality == Some(Poor)
          || (charge == Some(Yes) && (quality == Some(Average) || quality == Some(Poor)))
    ensures SuggestedTip(quality, charge, opts) == 0
  {
  }

  /** With a service charge included the suggestion is at most 5. */
  lemma SuggestionChargeCap(quality: Option<Quality>, opts: TipOptions)
    ensures SuggestedTip(quality, Some(Yes), opts) <= 5
  {
    if quality.Some? {
      var q := quality.value;
      var t := ChargeAdjusted(QualityAdjusted(BaseTip(opts), q), q, Some(Yes));
      RoundMonotone(t, 5.0);
      assert Round(5.0) == 5;
    }
  }

  /** With a service charge included, Excellent and Good get the suggestion
      they would get without one, capped at 5; Average and Poor get 0. */
  lemma SuggestionWithCharge(q: Quality, opts: TipOptions)
    ensures q == Excellent || q == Good ==>
      SuggestedTip(Some(q), Some(Yes), opts)
        == (if SuggestedTip(Some(q), Some(No), opts) < 5 then SuggestedTip(Some(q), Some(No), opts) else 5)
    ensures q == Average || q == Poor ==> SuggestedTip(Some(q), Some(Yes), opts) == 0
  {
    var t := QualityAdjusted(BaseTip(opts), q);
    assert Round(5.0) == 5;
    if t >= 5.0 {
      RoundMonotone(5.0, t);
    } else {
      RoundMonotone(t, 5.0);
    }
  }

  /** Without a service charge, each quality level shifts the rounded base:
      +5 for Excellent, 0 for Good, -5 for Average, clamped at 0. */
  lemma SuggestionWithoutCharge(q: Quality, charge: Option<Charge>, opts: TipOptions)
    requires charge != Some(Yes)
    ensures q == Excellent ==> SuggestedTip(Some(q), charge, opts) == Max(0, Round(BaseTip(opts)) + 5)
    ensures q == Good ==> SuggestedTip(Some(q), charge, opts) == Max(0, Round(BaseTip(opts)))
    ensures q == Average ==> SuggestedTip(Some(q), charge, opts) == Max(0, Round(BaseTip(opts)) - 5)
    ensures q == Poor ==> SuggestedTip(Some(q), charge, opts) == 0
  {
    var b := BaseTip(opts);
    RoundShift(b, 5);
    RoundShift(b, -5);
  }

  /** Better service never lowers the suggestion. */
  lemma SuggestionMonotoneInQuality(q1: Quality, q2: Quality, charge: Option<Charge>, opts: TipOptions)
    requires Rank(q1) <= Rank(q2)
    ensures SuggestedTip(Some(q1), charge, opts) <= SuggestedTip(Some(q2), charge, opts)
  {
    var b := BaseTip(opts);
    var t1 := ChargeAdjusted(QualityAdjusted(b, q1), q1, charge);
    var t2 := ChargeAdjusted(QualityAdjusted(b, q2), q2, charge);
    if q1 == Poor || (charge == Some(Yes) && q1 == Average) {
      assert t1 == 0.0;
      assert Round(t1) == 0;
    } else {
      assert t1 <= t2;
      RoundMonotone(t1, t2);
    }
  }

  /** An included service charge never raises the suggestion. */
  lemma ChargeNeverRaises(quality: Option<Quality>, charge: Option<Charge>, opts: TipOptions)
    ensures SuggestedTip(quality, Some(Yes), opts) <= SuggestedTip(quality, charge, opts)
  {
    if quality.Some? {
      var q := quality.value;
      var t := QualityAdjusted(BaseTip(opts), q);
      var capped := ChargeAdjusted(t, q, Some(Yes));
      var other := ChargeAdjusted(t, q, charge);
      if q == Excellent || q == Good {
        assert capped <= other;
        RoundMonotone(capped, other);
      } else {
        assert capped == 0.0;
        assert Round(capped) == 0;
      }
    }
  }

  /** Presets 10, 15, 20: Excellent without a charge gives 20; Average with a charge gives 0. */
  lemma WorkedExamples()
    ensures SuggestedTip(Some(Excellent), Some(No), Presets([10.0, 15.0, 20.0])) == 20
    ensures SuggestedTip(Some(Average), Some(Yes), Presets([10.0, 15.0, 20.0])) == 0
  {
    var opts := Presets([10.0, 15.0, 20.0]);
    assert BaseTip(opts) == 15.0;
    assert Round(20.0) == 20;
  }

  /** The bound is on the rounded base: a middle preset of 14.6 with
      Excellent service suggests 20, above 14.6 + 5. */
  lemma FractionalBaseExample()
    ensures SuggestedTip(Some(Excellent), None, Presets([14.6])) == 20
    ensures 20.0 > BaseTip(Presets([14.6])) + 5.0
  {
    assert BaseTip(Presets([14.6])) == 14.6;
    assert Round(19.6) == 20;
  }

  // ---------------------------------------------------------------------
  // Step transitions

  /** The step the "Next" / "Get Suggestion" button leads to; a disabled
      button (current answer missing) leaves the step where it is, and the
      last step has no forward button. */
  function Forward(s: Step, a: Answers): (t: Step)
    ensures t == s || Index(t) == Index(s) + 1
  {
    match s
    case ServiceType => if a.serviceType != "" then ServiceQuality else ServiceType
    case ServiceQuality => if a.quality.Some? then ServiceCharge else ServiceQuality
    case ServiceCharge => if a.charge.Some? then Suggestion else ServiceCharge
    case Suggestion => Suggestion
  }

  /** The step the "Back" / "Go Back" button leads to; the first step has
      no back button (it offers Cancel instead). */
  function Backward(s: Step): (t: Step)
    ensures s != ServiceType ==> Index(t) + 1 == Index(s)
    ensures s == ServiceType ==> t == s
  {
    match s
    case ServiceType => ServiceType
    case ServiceQuality => ServiceType
    case ServiceCharge => ServiceQuality
    case Suggestion => ServiceCharge
  }

  /** The answer that step `s` asks for is present. */
  predicate Answered(s: Step, a: Answers)
  {
    match s
    case ServiceType => a.serviceType != ""
    case ServiceQuality => a.quality.Some?
    case ServiceCharge => a.charge.Some?
    case Suggestion => true
  }

  /** Every step before `s` has been answered. */
  predicate AnsweredBefore(s: Step, a: Answers)
  {
    forall t: Step :: Index(t) < Index(s) ==> Answered(t, a)
  }

  /** A forward move happens exactly when the current step's answer is
      present, and it records that answer as given. */
  lemma ForwardGuard(s: Step, a: Answers)
    ensures Forward(s, a) != s <==> s != Suggestion && Answered(s, a)
    ensures AnsweredBefore(s, a) ==> AnsweredBefore(Forward(s, a), a)
  {
    if AnsweredBefore(s, a) {
      var t := Forward(s, a);
      forall u: Step | Index(u) < Index(t) ensures Answered(u, a) {
        if Index(u) >= Index(s) {
          assert u == s;
        }
      }
    }
  }

  /** Going back from a step that was reached properly and then forward
      again returns to the same step: back never loses an answer. */
  lemma BackThenForward(s: Step, a: Answers)
    requires s != ServiceType && AnsweredBefore(s, a)
    ensures Forward(Backward(s), a) == s
  {
    assert Index(Backward(s)) < Index(s);
  }

  /** Reaching the suggestion step means all three answers are present. */
  lemma SuggestionStepComplete(a: Answers)
    requires AnsweredBefore(Suggestion, a)
    ensures a.serviceType != "" && a.quality.Some? && a.charge.Some?
  {
    assert Index(ServiceType) < 3 && Index(ServiceQuality) < 3 && Index(ServiceCharge) < 3;
  }

  /** The dialog's own state: the current step and the three answers. */
  class SuggestTipDialog {
    var step: Step
    var serviceType: string
    var serviceQuality: Option<Quality>
    var serviceChargeIncluded: Option<Charge>

    function CurrentAnswers(): Answers
      reads this
    {
      Answers(serviceType, serviceQuality, serviceChargeIncluded)
    }

    /** Every step before the current one has its answer. */
    ghost predicate Valid()
      reads this
    {
      AnsweredBefore(step, CurrentAnswers())
    }

    /** The clean state every opening starts from. */
    ghost predicate IsReset()
      reads this
    {
      step == ServiceType && serviceType == "" && serviceQuality == None && serviceChargeIncluded == None
    }

    constructor ()
      ensures Valid() && IsReset()
    {
      step := ServiceType;
      serviceType := "";
      serviceQuality := None;
      serviceChargeIncluded := None;
    }

    /** Picking a service type from the destination's norm categories. */
    method ChooseServiceType(t: string)
      requires Valid() && t != ""
      modifies this
      ensures Valid()
      ensures serviceType == t
      ensures step == old(step) && serviceQuality == old(serviceQuality)
      ensures serviceChargeIncluded == old(serviceChargeIncluded)
    {
      serviceType := t;
    }

    method ChooseQuality(q: Quality)
      requires Valid()
      modifies this
      ensures Valid()
      ensures serviceQuality == Some(q)
      ensures step == old(step) && serviceType == old(serviceType)
      ensures serviceChargeIncluded == old(serviceChargeIncluded)
    {
      serviceQuality := Some(q);
    }

    method ChooseCharge(c: Charge)
      requires Valid()
      modifies this
      ensures Valid()
      ensures serviceChargeIncluded == Some(c)
      ensures step == old(step) && serviceType == old(serviceType)
      ensures serviceQuality == old(serviceQuality)
    {
      serviceChargeIncluded := Some(c);
    }

    /** Clicking the forward button of the current step. */
    method Next() returns (moved: bool)
      requires Valid()
      modifies this
      ensures Valid()
      ensures step == Forward(old(step), old(CurrentAnswers()))
      ensures moved <==> old(step) != Suggestion && Answered(old(step), old(CurrentAnswers()))
      ensures CurrentAnswers() == old(CurrentAnswers())
    {
      ForwardGuard(step, CurrentAnswers());
      var next := Forward(step, CurrentAnswers());
      moved := next != step;
      step := next;
    }

    /** Clicking "Back" or "Go Back"; answers are kept. */
    method Back()
      requires Valid()
      modifies this
      ensures Valid()
      ensures step == Backward(old(step))
      ensures CurrentAnswers() == old(CurrentAnswers())
    {
      step := Backward(step);
    }

    /** Any closing transition (Cancel, dismiss): the reset, taken as immediate. */
    method Close()
      modifies this
      ensures Valid() && IsReset()
    {
      step := ServiceType;
      serviceType := "";
      serviceQuality := None;
      serviceChargeIncluded := None;
    }

    /** "Accept & Apply": emits the current suggestion with the quality and
        charge answers, then closes (and so resets). */
    method Accept(opts: TipOptions) returns (d: Accepted)
      requires Valid() && step == Suggestion
      modifies this
      ensures d.percentage == SuggestedTip(old(serviceQuality), old(serviceChargeIncluded), opts)
      ensures d.quality == old(serviceQuality) && d.serviceCharge == old(serviceChargeIncluded)
      ensures d.quality.Some? && d.serviceCharge.Some?
      ensures Valid() && IsReset()
    {
      SuggestionStepComplete(CurrentAnswers());
      d := Accepted(SuggestedTip(serviceQuality, serviceChargeIncluded, opts), serviceQuality, serviceChargeIncluded);
      Close();
    }
  }
}
