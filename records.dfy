/** The controller's value records: the consciousness state snapshot, the
    decision record with its reasoning trace, and the errors that the
    controller raises. */
module Records {

  /** Exceptions the controller raises, by cause. */
  datatype Error =
    | EmptySequence                                         // max()/min() of an empty list (ValueError)
    | SystemInactive                                        // "Real AI system not active"
    | InsufficientConsciousness(level: real, required: real) // awareness below the requirement
    | DecisionCallFailed                                    // the native decision call reported failure

  datatype Result<T> = Ok(value: T) | Raised(error: Error)

  datatype Option<T> = None | Some(value: T)

  /** A snapshot of the monitored consciousness metrics. */
  datatype ConsciousnessState = ConsciousnessState(
    awarenessLevel: real,
    selfAwareness: real,
    intentionality: real,
    agency: real,
    temporalCoherence: real,
    memoryPersistence: real,
    predictionConfidence: real,
    metaCognition: real,
    embodiedPresence: real,
    consciousnessContinuity: real)

  const ZeroState := ConsciousnessState(0.0, 0.0, 0.0, 0.0, 0.0, 0.0, 0.0, 0.0, 0.0, 0.0)

  /** Every score of the snapshot lies in [0, 1]. */
  predicate StateInRange(s: ConsciousnessState)
  {
    0.0 <= s.awarenessLevel <= 1.0 && 0.0 <= s.selfAwareness <= 1.0 &&
    0.0 <= s.intentionality <= 1.0 && 0.0 <= s.agency <= 1.0 &&
    0.0 <= s.temporalCoherence <= 1.0 && 0.0 <= s.memoryPersistence <= 1.0 &&
    0.0 <= s.predictionConfidence <= 1.0 && 0.0 <= s.metaCognition <= 1.0 &&
    0.0 <= s.embodiedPresence <= 1.0 && 0.0 <= s.consciousnessContinuity <= 1.0
  }

  /** One line of the reasoning trace, by what it reports (the formatted
      text itself is not modelled). */
  datatype TraceEntry =
    | ContextFeatures(count: nat)
    | ConsciousnessLevel(level: real)
    | DecisionConfidence(mean: real)
    | Intentionality(value: real)
    | Agency(value: real)
    | MetaCognition(value: real)
    | PrimaryDecisionFactor(dimension: nat, strength: real)

  /** One decision with its context (the context hash and the wall-clock
      timestamp are not modelled). */
  datatype Decision = Decision(
    decisionVector: seq<real>,
    confidenceScores: seq<real>,
    reasoningTrace: seq<TraceEntry>,
    consciousnessState: ConsciousnessState,
    safetyValidated: bool,
    ethicsValidated: bool,
    realTimeCompliant: bool,
    decisionLatencyUs: real)
}
