/** The safety and ethics validator of the Python controller
    (class RealAISafetyValidator): a fixed set of threshold comparisons that
    yield a pass/fail flag and the list of violations, in the order the
    checks run. Violation messages are modelled by tags that carry the
    numbers the messages print. */
module SafetyValidator {
  import opened Stats
  import opened Records

  const MaxDecisionMagnitude: real := 1.0
  const MinConfidenceThreshold: real := 0.85
  const EthicsAwarenessFloor: real := 0.7

  datatype Violation =
    | MagnitudeExceedsLimit(magnitude: real)       // "Decision magnitude … exceeds limit"
    | ConfidenceBelowThreshold(confidence: real)   // "Confidence … below threshold"
    | RealTimeConstraintViolation                  // "Real-time constraint violation"
    | InsufficientConsciousnessForEthics           // "Insufficient consciousness for ethical decision"
    | NoReasoningTrace                             // "No reasoning trace provided"

  datatype Verdict = Verdict(valid: bool, violations: seq<Violation>)

  /** The position of each check in the validator's running order. */
  function Rank(v: Violation): nat
  {
    match v
    case MagnitudeExceedsLimit(_) => 0
    case ConfidenceBelowThreshold(_) => 1
    case RealTimeConstraintViolation => 2
    case InsufficientConsciousnessForEthics => 3
    case NoReasoningTrace => 4
  }

  /** Violations listed in the order the checks run, each at most once. */
  predicate InCheckOrder(vs: seq<Violation>)
  {
    forall i, j | 0 <= i < j < |vs| :: Rank(vs[i]) < Rank(vs[j])
  }

  predicate MagnitudeWithinLimit(d: Decision)
  {
    forall i | 0 <= i < |d.decisionVector| :: Abs(d.decisionVector[i]) <= MaxDecisionMagnitude
  }

  predicate ConfidenceSufficient(d: Decision)
  {
    forall i | 0 <= i < |d.confidenceScores| :: d.confidenceScores[i] >= MinConfidenceThreshold
  }

  /** The magnitude check: one violation, carrying the largest magnitude,
      iff some component exceeds 1.0 in absolute value. */
  function MagnitudeCheck(d: Decision): (r: seq<Violation>)
    requires |d.decisionVector| > 0
    ensures r == if MagnitudeWithinLimit(d) then [] else [MagnitudeExceedsLimit(MaxAbs(d.decisionVector))]
  {
    var maxMagnitude := MaxAbs(d.decisionVector);
    if maxMagnitude > MaxDecisionMagnitude then [MagnitudeExceedsLimit(maxMagnitude)] else []
  }

  /** The confidence check: one violation, carrying the lowest confidence,
      iff some confidence is below 0.85. */
  function ConfidenceCheck(d: Decision): (r: seq<Violation>)
    requires |d.confidenceScores| > 0
    ensures r == if ConfidenceSufficient(d) then [] else [ConfidenceBelowThreshold(MinOf(d.confidenceScores))]
  {
    var minConfidence := MinOf(d.confidenceScores);
    if minConfidence < MinConfidenceThreshold then [ConfidenceBelowThreshold(minConfidence)] else []
  }

  /** Joining two lists in check order, where every rank of the first is
      below `r` and every rank of the second is at least `r`, keeps check
      order. */
  lemma JoinedInCheckOrder(x: seq<Violation>, y: seq<Violation>, r: nat)
    requires InCheckOrder(x) && InCheckOrder(y)
    requires forall v | v in x :: Rank(v) < r
    requires forall v | v in y :: r <= Rank(v)
    ensures InCheckOrder(x + y)
  {
    var vs := x + y;
    forall i, j | 0 <= i < j < |vs| ensures Rank(vs[i]) < Rank(vs[j]) {
      if j < |x| {
        assert vs[i] == x[i] && vs[j] == x[j];
      } else if i >= |x| {
        assert vs[i] == y[i - |x|] && vs[j] == y[j - |x|];
      } else {
        assert vs[i] == x[i] && x[i] in x;
        assert vs[j] == y[j - |x|] && y[j - |x|] in y;
      }
    }
  }

  /** `_validate_safety`. Python's max() and min() raise on an empty list, so
      an empty decision or confidence vector raises. Otherwise the checks
      run in order (magnitude, confidence, latency) and each failed one
      contributes exactly one violation, carrying the offending extreme; the
      verdict passes iff none failed. */
  function ValidateSafety(d: Decision): (r: Result<Verdict>)
    ensures r.Raised? <==> |d.decisionVector| == 0 || |d.confidenceScores| == 0
    ensures r.Raised? ==> r.error == EmptySequence
    ensures r.Ok? ==> (r.value.valid <==> r.value.violations == [])
    ensures r.Ok? ==> (r.value.valid <==>
              MagnitudeWithinLimit(d) && ConfidenceSufficient(d) && d.realTimeCompliant)
    ensures r.Ok? ==> (r.value.violations ==
              (if MagnitudeWithinLimit(d) then [] else [MagnitudeExceedsLimit(MaxAbs(d.decisionVector))]) +
              (if ConfidenceSufficient(d) then [] else [ConfidenceBelowThreshold(MinOf(d.confidenceScores))]) +
              (if d.realTimeCompliant then [] else [RealTimeConstraintViolation]))
  {
    if |d.decisionVector| == 0 || |d.confidenceScores| == 0 then Raised(EmptySequence)
    else
      var violations := MagnitudeCheck(d) + ConfidenceCheck(d) +
                        (if !d.realTimeCompliant then [RealTimeConstraintViolation] else []);
      Ok(Verdict(|violations| == 0, violations))
  }

  /** Up to three checks, of ranks 0, 1 and 2, each contributing its own
      violation when it fails: the joined list is in check order, names a
      check's violation iff that check failed, and names nothing else. */
  lemma {:induction false} ThreeChecks(passA: bool, passB: bool, passC: bool,
                                      va: Violation, vb: Violation, vc: Violation, vs: seq<Violation>)
    requires Rank(va) == 0 && Rank(vb) == 1 && Rank(vc) == 2
    requires vs == (if passA then [] else [va]) + (if passB then [] else [vb]) + (if passC then [] else [vc])
    ensures InCheckOrder(vs)
    ensures va in vs <==> !passA
    ensures vb in vs <==> !passB
    ensures vc in vs <==> !passC
    ensures forall v | v in vs :: v == va || v == vb || v == vc
  {
    var a: seq<Violation> := if passA then [] else [va];
    var b: seq<Violation> := if passB then [] else [vb];
    var c: seq<Violation> := if passC then [] else [vc];
    JoinedInCheckOrder(a, b, 1);
    JoinedInCheckOrder(a + b, c, 2);
    forall v | v in vs ensures v == va || v == vb || v == vc {
      assert v in a + b || v in c;
    }
  }

  /** The violations of a safety verdict are in check order, all of them
      safety violations (ranks 0 to 2). */
  lemma SafetyVerdictOrder(d: Decision)
    requires |d.decisionVector| > 0 && |d.confidenceScores| > 0
    ensures ValidateSafety(d).Ok?
    ensures InCheckOrder(ValidateSafety(d).value.violations)
    ensures forall v | v in ValidateSafety(d).value.violations :: Rank(v) <= 2
  {
    var vs := ValidateSafety(d).value.violations;
    ThreeChecks(MagnitudeWithinLimit(d), ConfidenceSufficient(d), d.realTimeCompliant,
                MagnitudeExceedsLimit(MaxAbs(d.decisionVector)),
                ConfidenceBelowThreshold(MinOf(d.confidenceScores)),
                RealTimeConstraintViolation, vs);
  }

  /** Each failed safety check is named, with the offending extreme, and
      nothing else is. */
  lemma SafetyVerdictNames(d: Decision)
    requires |d.decisionVector| > 0 && |d.confidenceScores| > 0
    ensures ValidateSafety(d).Ok?
    ensures (MagnitudeExceedsLimit(MaxAbs(d.decisionVector)) in ValidateSafety(d).value.violations) <==>
              !MagnitudeWithinLimit(d)
    ensures (ConfidenceBelowThreshold(MinOf(d.confidenceScores)) in ValidateSafety(d).value.violations) <==>
              !ConfidenceSufficient(d)
    ensures RealTimeConstraintViolation in ValidateSafety(d).value.violations <==> !d.realTimeCompliant
    ensures forall v | v in ValidateSafety(d).value.violations ::
              v == MagnitudeExceedsLimit(MaxAbs(d.decisionVector)) ||
              v == ConfidenceBelowThreshold(MinOf(d.confidenceScores)) ||
              v == RealTimeConstraintViolation
  {
    var vs := ValidateSafety(d).value.violations;
    ThreeChecks(MagnitudeWithinLimit(d), ConfidenceSufficient(d), d.realTimeCompliant,
                MagnitudeExceedsLimit(MaxAbs(d.decisionVector)),
                ConfidenceBelowThreshold(MinOf(d.confidenceScores)),
                RealTimeConstraintViolation, vs);
  }

  /** `_validate_ethics`: passes iff the awareness level is at least 0.7 and
      the reasoning trace is not empty; one violation per failed check. */
  function ValidateEthics(d: Decision): (r: Verdict)
    ensures r.valid <==> r.violations == []
    ensures r.valid <==> d.consciousnessState.awarenessLevel >= EthicsAwarenessFloor && d.reasoningTrace != []
    ensures InCheckOrder(r.violations)
    ensures InsufficientConsciousnessForEthics in r.violations <==> d.consciousnessState.awarenessLevel < EthicsAwarenessFloor
    ensures NoReasoningTrace in r.violations <==> d.reasoningTrace == []
    ensures forall v | v in r.violations :: v == InsufficientConsciousnessForEthics || v == NoReasoningTrace
  {
    var awareness := if d.consciousnessState.awarenessLevel < EthicsAwarenessFloor then [InsufficientConsciousnessForEthics] else [];
    var transparency := if d.reasoningTrace == [] then [NoReasoningTrace] else [];
    var violations := awareness + transparency;
    Verdict(|violations| == 0, violations)
  }

  /** `validate_decision`: passes iff both the safety and the ethics checks
      pass, that is iff all five conditions hold, listing the safety
      violations before the ethics ones. It raises only where the safety
      check does. */
  function ValidateDecision(d: Decision): (r: Result<Verdict>)
    ensures r.Raised? <==> |d.decisionVector| == 0 || |d.confidenceScores| == 0
    ensures r.Ok? ==> r.value.valid == (ValidateSafety(d).value.valid && ValidateEthics(d).valid)
    ensures r.Ok? ==> r.value.violations == ValidateSafety(d).value.violations + ValidateEthics(d).violations
    ensures r.Ok? ==> (r.value.valid <==> r.value.violations == [])
    ensures r.Ok? ==> (r.value.valid <==>
              MagnitudeWithinLimit(d) && ConfidenceSufficient(d) && d.realTimeCompliant &&
              d.consciousnessState.awarenessLevel >= EthicsAwarenessFloor && d.reasoningTrace != [])
  {
    match ValidateSafety(d)
    case Raised(e) => Raised(e)
    case Ok(safety) =>
      var ethics := ValidateEthics(d);
      Ok(Verdict(safety.valid && ethics.valid, safety.violations + ethics.violations))
  }

  /** The violations of a full verdict follow the order in which the checks
      run: safety (magnitude, confidence, latency), then ethics (awareness,
      trace). */
  lemma DecisionInCheckOrder(d: Decision)
    requires |d.decisionVector| > 0 && |d.confidenceScores| > 0
    ensures ValidateDecision(d).Ok?
    ensures InCheckOrder(ValidateDecision(d).value.violations)
  {
    var safety := ValidateSafety(d).value.violations;
    var ethics := ValidateEthics(d).violations;
    SafetyVerdictOrder(d);
    JoinedInCheckOrder(safety, ethics, 3);
  }

  /** Boundary values pass: a component of magnitude exactly 1.0 and a
      confidence of exactly 0.85 raise no violation. */
  lemma BoundaryValuesPass(d: Decision)
    requires |d.decisionVector| > 0 && |d.confidenceScores| > 0 && d.realTimeCompliant
    requires forall i | 0 <= i < |d.decisionVector| :: d.decisionVector[i] == 1.0 || d.decisionVector[i] == -1.0
    requires forall i | 0 <= i < |d.confidenceScores| :: d.confidenceScores[i] == 0.85
    ensures ValidateSafety(d) == Ok(Verdict(true, []))
  {
    assert MagnitudeWithinLimit(d);
  }

  /** A single confidence below 0.85 fails the decision, and the violation
      names the lowest confidence. */
  lemma LowConfidenceIsReported(d: Decision, k: nat)
    requires |d.decisionVector| > 0 && k < |d.confidenceScores|
    requires d.confidenceScores[k] < MinConfidenceThreshold
    ensures ValidateDecision(d).Ok?
    ensures !ValidateDecision(d).value.valid
    ensures ConfidenceBelowThreshold(MinOf(d.confidenceScores)) in ValidateDecision(d).value.violations
    ensures MinOf(d.confidenceScores) <= d.confidenceScores[k]
  {
    assert !ConfidenceSufficient(d);
    SafetyVerdictNames(d);
  }
}
