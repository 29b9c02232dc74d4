/** The Python controller object (class FunctionalRealAI): its guards around
    the native decision and adaptation calls, the context and feedback
    buffers it hands to them, its metric counters and its bounded decision
    history. The native library is an oracle: each call's reply is an input,
    and the ghost `nativeLog` records every request that crosses the
    boundary, so "no native call was made" reads "nativeLog is unchanged". */
module Controller {
  import opened Stats
  import Fifo
  import opened Records
  import opened Monitor
  import opened SafetyValidator

  const ContextLength: nat := 512
  const DecisionWidth: nat := 16
  const FeedbackLength: nat := 16
  const MaxHistorySize: nat := 1000
  const DefaultConsciousnessRequirement: real := 0.8
  const AverageFactor: real := 0.1

  /** The `real_ai` section of the configuration. */
  datatype Config = Config(
    decisionLatencyTargetUs: real,
    consciousnessThreshold: real,
    learningRate: real,
    adaptationStrength: real,
    safetyValidation: bool,
    ethicsValidation: bool)

  /** The configuration used when the configuration file is missing. */
  const DefaultConfig := Config(5.0, 0.8, 0.001, 0.1, true, true)

  datatype Metrics = Metrics(
    consciousnessLevel: real,
    decisionLatencyUs: real,
    learningVelocity: real,
    adaptationSuccessRate: real,
    safetyCompliance: real,
    realTimeCompliance: bool,
    quantumCoherence: real,
    embodimentIntegrity: real,
    gaiaAirCoupling: real,
    totalDecisions: nat,
    successfulAdaptations: nat)

  const InitialMetrics := Metrics(0.0, 0.0, 0.0, 0.0, 1.0, true, 0.0, 0.0, 0.0, 0, 0)

  /** A request handed to the native library. */
  datatype NativeRequest =
    | DecisionRequest(context: seq<real>)
    | AdaptRequest(feedback: seq<real>, learningStrength: real)

  /** What the native decision call reports: its success flag and the two
      16-entry buffers it fills. */
  datatype DecisionReply = DecisionReply(success: bool, decisionVector: seq<real>, confidenceScores: seq<real>)

  function Zeros(n: nat): (r: seq<real>)
    ensures |r| == n && forall i | 0 <= i < n :: r[i] == 0.0
  {
    seq(n, _ => 0.0)
  }

  /** `_prepare_context`: exactly 512 entries. A longer input is cut to its
      first 512 entries; a shorter one is followed by zeros. */
  function PrepareContext(context: seq<real>): (r: seq<real>)
    ensures |r| == ContextLength
    ensures |context| >= ContextLength ==> r == context[..ContextLength]
    ensures |context| == ContextLength ==> r == context
    ensures |context| < ContextLength ==>
              r[..|context|] == context && forall i | |context| <= i < ContextLength :: r[i] == 0.0
  {
    if |context| > ContextLength then context[..ContextLength]
    else if |context| < ContextLength then context + Zeros(ContextLength - |context|)
    else context
  }

  /** numpy's resize: an empty input gives zeros; otherwise the input is
      repeated cyclically, and cut, to length n. */
  function Resize(s: seq<real>, n: nat): (r: seq<real>)
    ensures |r| == n
    ensures |s| == 0 ==> r == Zeros(n)
    ensures n <= |s| ==> r == s[..n]
    ensures 0 < |s| <= n ==> r[..|s|] == s && forall i | |s| <= i < n :: r[i] == r[i - |s|]
  {
    if |s| == 0 then Zeros(n)
    else
      var r := seq(n, i requires 0 <= i < n => s[i % |s|]);
      CyclicPrefix(s, r);
      CyclicPeriod(s, r);
      r
  }

  lemma CyclicPrefix(s: seq<real>, r: seq<real>)
    requires |s| > 0 && forall i | 0 <= i < |r| :: r[i] == s[i % |s|]
    ensures |r| <= |s| ==> r == s[..|r|]
    ensures |s| <= |r| ==> r[..|s|] == s
  {
    forall i | 0 <= i < |r| && i < |s| ensures r[i] == s[i] {
      ModUnique(i, |s|, 0, i);
    }
  }

  lemma CyclicPeriod(s: seq<real>, r: seq<real>)
    requires |s| > 0 && forall i | 0 <= i < |r| :: r[i] == s[i % |s|]
    ensures forall i | |s| <= i < |r| :: r[i] == r[i - |s|]
  {
    forall i | |s| <= i < |r| ensures r[i] == r[i - |s|] {
      var q, m := (i - |s|) / |s|, (i - |s|) % |s|;
      assert i == (q + 1) * |s| + m;
      ModUnique(i, |s|, q + 1, m);
    }
  }

  /** The remainder is the only m in [0, k) with i == q * k + m. */
  lemma ModUnique(i: int, k: int, q: int, m: int)
    requires k > 0 && i == q * k + m && 0 <= m < k
    ensures i % k == m
  {
    var d := q - i / k;
    assert d * k == i % k - m;
    SmallMultipleIsZero(d, k);
  }

  lemma SmallMultipleIsZero(d: int, k: int)
    requires k > 0 && -k < d * k < k
    ensures d == 0
  {
  }

  /** The reasoning trace's entries: seven lines, the last naming the first
      decision dimension of largest magnitude. */
  function ReasoningTrace(contextLength: nat, decision: seq<real>, state: ConsciousnessState): (r: seq<TraceEntry>)
    requires |decision| > 0
    ensures |r| == 7 && r[6].PrimaryDecisionFactor?
    ensures r[6].dimension < |decision| && r[6].strength == decision[r[6].dimension]
    ensures forall j | 0 <= j < |decision| :: Abs(decision[j]) <= Abs(decision[r[6].dimension])
    ensures forall j | 0 <= j < r[6].dimension :: Abs(decision[j]) < Abs(decision[r[6].dimension])
  {
    var primary := ArgMaxAbs(decision);
    [ ContextFeatures(contextLength),
      ConsciousnessLevel(state.awarenessLevel),
      DecisionConfidence(Mean(decision)),
      TraceEntry.Intentionality(state.intentionality),
      TraceEntry.Agency(state.agency),
      MetaCognition(state.metaCognition),
      PrimaryDecisionFactor(primary, decision[primary]) ]
  }

  /** `_update_metrics`: one more decision counted, the decision's latency,
      awareness and compliance recorded, and from the second decision on an
      exponential moving average (factor 0.1) of the adaptation success
      ratio. */
  function UpdatedMetrics(m: Metrics, d: Decision): (r: Metrics)
    ensures r.totalDecisions == m.totalDecisions + 1
    ensures r.successfulAdaptations == m.successfulAdaptations
    ensures r.safetyCompliance == (if d.safetyValidated then 1.0 else 0.0)
    ensures r.realTimeCompliance == d.realTimeCompliant
    ensures r.decisionLatencyUs == d.decisionLatencyUs
    ensures r.consciousnessLevel == d.consciousnessState.awarenessLevel
    ensures r.learningVelocity == m.learningVelocity && r.quantumCoherence == m.quantumCoherence
    ensures r.embodimentIntegrity == m.embodimentIntegrity && r.gaiaAirCoupling == m.gaiaAirCoupling
    ensures m.totalDecisions == 0 ==> r.adaptationSuccessRate == m.adaptationSuccessRate
    ensures m.totalDecisions >= 1 ==>
              r.adaptationSuccessRate == 0.9 * m.adaptationSuccessRate +
                0.1 * ((m.successfulAdaptations as real) / ((m.totalDecisions + 1) as real))
    ensures m.adaptationSuccessRate >= 0.0 ==> r.adaptationSuccessRate >= 0.0
    // the average stays a ratio while adaptations do not outnumber decisions
    ensures (0.0 <= m.adaptationSuccessRate <= 1.0 && m.successfulAdaptations <= m.totalDecisions + 1)
              ==> 0.0 <= r.adaptationSuccessRate <= 1.0
  {
    var total := m.totalDecisions + 1;
    var counted := m.(totalDecisions := total,
                      decisionLatencyUs := d.decisionLatencyUs,
                      consciousnessLevel := d.consciousnessState.awarenessLevel,
                      realTimeCompliance := d.realTimeCompliant,
                      safetyCompliance := if d.safetyValidated then 1.0 else 0.0);
    if total > 1 then
      var ratio := (m.successfulAdaptations as real) / (total as real);
      assert m.successfulAdaptations <= total ==> ratio <= 1.0;
      counted.(adaptationSuccessRate := (1.0 - AverageFactor) * m.adaptationSuccessRate + AverageFactor * ratio)
    else counted
  }

  /** Validation reads only the vectors, the trace, the state and the
      real-time flag, never the two validation flags themselves. */
  lemma ValidationIgnoresFlags(d: Decision, safe: bool, ethical: bool)
    ensures ValidateDecision(d.(safetyValidated := safe, ethicsValidated := ethical)) == ValidateDecision(d)
  {
    var e := d.(safetyValidated := safe, ethicsValidated := ethical);
    assert e.decisionVector == d.decisionVector && e.confidenceScores == d.confidenceScores;
    assert e.reasoningTrace == d.reasoningTrace && e.consciousnessState == d.consciousnessState;
    assert e.realTimeCompliant == d.realTimeCompliant;
    assert ValidateSafety(e) == ValidateSafety(d);
    assert ValidateEthics(e) == ValidateEthics(d);
  }

  /** The decision record that `make_real_ai_decision` builds from the
      native buffers once the call succeeded: it is real-time compliant iff
      the latency met the target; with safety validation on it is marked
      safe iff the full validation passes, which, since the trace is never
      empty, is iff every component is within 1.0, every confidence reaches
      0.85, the latency target was met and awareness is at least 0.7; with
      ethics validation on, ethics copies the safety flag. */
  function BuildDecision(config: Config, contextLength: nat, reply: DecisionReply,
                         state: ConsciousnessState, latencyUs: real): (d: Decision)
    requires |reply.decisionVector| == DecisionWidth && |reply.confidenceScores| == DecisionWidth
    ensures d.decisionVector == reply.decisionVector && d.confidenceScores == reply.confidenceScores
    ensures d.consciousnessState == state && d.decisionLatencyUs == latencyUs
    ensures d.reasoningTrace == ReasoningTrace(contextLength, reply.decisionVector, state)
    ensures d.realTimeCompliant == (latencyUs <= config.decisionLatencyTargetUs)
    ensures ValidateDecision(d).Ok?
    ensures d.safetyValidated == (config.safetyValidation && ValidateDecision(d).value.valid)
    ensures d.safetyValidated <==>
              config.safetyValidation && MagnitudeWithinLimit(d) && ConfidenceSufficient(d) &&
              d.realTimeCompliant && state.awarenessLevel >= EthicsAwarenessFloor
    ensures d.ethicsValidated == (config.ethicsValidation && d.safetyValidated)
  {
    var compliant := latencyUs <= config.decisionLatencyTargetUs;
    var trace := ReasoningTrace(contextLength, reply.decisionVector, state);
    var unvalidated := Decision(reply.decisionVector, reply.confidenceScores, trace, state,
                                false, false, compliant, latencyUs);
    // both buffers hold 16 entries, so validation cannot raise
    var safe := config.safetyValidation && ValidateDecision(unvalidated).value.valid;
    var ethical := config.ethicsValidation && safe;
    ValidationIgnoresFlags(unvalidated, safe, ethical);
    unvalidated.(safetyValidated := safe, ethicsValidated := ethical)
  }


  class FunctionalRealAI {
    const config: Config
    const monitor: ConsciousnessMonitor
    var systemActive: bool
    var learningEnabled: bool
    var metrics: Metrics
    var decisionHistory: seq<Decision>
    ghost var nativeLog: seq<NativeRequest>

    ghost predicate Valid()
      reads this, monitor
    {
      monitor.Valid() && |decisionHistory| <= MaxHistorySize
    }

    constructor (config: Config)
      ensures Valid() && fresh(monitor) && this.config == config
      ensures !systemActive && learningEnabled
      ensures metrics == InitialMetrics && decisionHistory == [] && nativeLog == []
      ensures monitor.history == [] && !monitor.monitoringActive
    {
      this.config := config;
      monitor := new ConsciousnessMonitor();
      systemActive := false;
      learningEnabled := true;
      metrics := InitialMetrics;
      decisionHistory := [];
      nativeLog := [];
    }

    /** `initialize_real_ai`: when every native handle is created and
        initialised (`nativeReady`), start monitoring and become active;
        otherwise report failure and change nothing. */
    method Initialize(nativeReady: bool) returns (ok: bool)
      requires Valid()
      modifies this, monitor
      ensures Valid() && ok == nativeReady
      ensures systemActive == (old(systemActive) || nativeReady)
      ensures monitor.monitoringActive == (old(monitor.monitoringActive) || nativeReady)
      ensures monitor.history == old(monitor.history)
      ensures learningEnabled == old(learningEnabled) && metrics == old(metrics)
      ensures decisionHistory == old(decisionHistory) && nativeLog == old(nativeLog)
    {
      if !nativeReady {
        return false;
      }
      monitor.StartMonitoring();
      systemActive := true;
      ok := true;
    }

    /** `shutdown`: clear both activity flags. */
    method Shutdown()
      requires Valid()
      modifies this, monitor
      ensures Valid() && !systemActive && !monitor.monitoringActive
      ensures monitor.history == old(monitor.history)
      ensures learningEnabled == old(learningEnabled) && metrics == old(metrics)
      ensures decisionHistory == old(decisionHistory) && nativeLog == old(nativeLog)
    {
      systemActive := false;
      monitor.monitoringActive := false;
    }

    /** `_update_metrics`, in place. */
    method UpdateMetrics(d: Decision)
      modifies this
      ensures metrics == UpdatedMetrics(old(metrics), d)
      ensures systemActive == old(systemActive) && learningEnabled == old(learningEnabled)
      ensures decisionHistory == old(decisionHistory) && nativeLog == old(nativeLog)
    {
      metrics := metrics.(totalDecisions := metrics.totalDecisions + 1);
      metrics := metrics.(decisionLatencyUs := d.decisionLatencyUs);
      metrics := metrics.(consciousnessLevel := d.consciousnessState.awarenessLevel);
      metrics := metrics.(realTimeCompliance := d.realTimeCompliant);
      metrics := metrics.(safetyCompliance := if d.safetyValidated then 1.0 else 0.0);
      if metrics.totalDecisions > 1 {
        metrics := metrics.(adaptationSuccessRate :=
          (1.0 - AverageFactor) * metrics.adaptationSuccessRate +
          AverageFactor * ((metrics.successfulAdaptations as real) / (metrics.totalDecisions as real)));
      }
    }

    /** The tail of `make_real_ai_decision`: append the decision to the
        history and, past 1000 entries, drop the oldest. */
    method StoreDecision(d: Decision)
      requires |decisionHistory| <= MaxHistorySize
      modifies this`decisionHistory
      ensures decisionHistory == Fifo.PushBounded(old(decisionHistory), d, MaxHistorySize)
      ensures |decisionHistory| <= MaxHistorySize
    {
      decisionHistory := decisionHistory + [d];
      if |decisionHistory| > MaxHistorySize {
        decisionHistory := decisionHistory[1..];
      }
    }

    /** `make_real_ai_decision`. It raises when the system is inactive or the
        monitored awareness is below `requirement`, in both cases before any
        native call; it raises when the native call fails; otherwise it
        builds the decision from the native buffers, flags it real-time
        compliant iff the latency met the configured target, validates it,
        counts it and stores it in the bounded history. The native reply and
        the measured latency are inputs. Callers that do not name a
        requirement pass `DefaultConsciousnessRequirement` (0.8). */
    method MakeDecision(context: seq<real>, requirement: real, windowCorrelation: Option<real>,
                        reply: DecisionReply, latencyUs: real)
      returns (r: Result<Decision>)
      requires Valid()
      requires |reply.decisionVector| == DecisionWidth && |reply.confidenceScores| == DecisionWidth
      modifies this
      ensures Valid()
      ensures systemActive == old(systemActive) && learningEnabled == old(learningEnabled)
      ensures !old(systemActive) ==> r == Raised(SystemInactive)
      ensures old(systemActive) && GetState(monitor.history, windowCorrelation).awarenessLevel < requirement ==>
                r == Raised(InsufficientConsciousness(GetState(monitor.history, windowCorrelation).awarenessLevel, requirement))
      ensures old(systemActive) && GetState(monitor.history, windowCorrelation).awarenessLevel >= requirement ==>
                nativeLog == old(nativeLog) + [DecisionRequest(PrepareContext(context))]
      ensures !(old(systemActive) && GetState(monitor.history, windowCorrelation).awarenessLevel >= requirement) ==>
                nativeLog == old(nativeLog)
      ensures r.Ok? <==> old(systemActive) && GetState(monitor.history, windowCorrelation).awarenessLevel >= requirement && reply.success
      ensures r == Raised(DecisionCallFailed) <==>
                old(systemActive) && GetState(monitor.history, windowCorrelation).awarenessLevel >= requirement && !reply.success
      ensures r.Raised? ==> metrics == old(metrics) && decisionHistory == old(decisionHistory)
      ensures r.Ok? ==>
                r.value == BuildDecision(config, |context|, reply, GetState(monitor.history, windowCorrelation), latencyUs) &&
                metrics == UpdatedMetrics(old(metrics), r.value) &&
                decisionHistory == Fifo.PushBounded(old(decisionHistory), r.value, MaxHistorySize)
    {
      if !systemActive {
        return Raised(SystemInactive);
      }
      var state := GetState(monitor.history, windowCorrelation);
      if state.awarenessLevel < requirement {
        return Raised(InsufficientConsciousness(state.awarenessLevel, requirement));
      }
      var prepared := PrepareContext(context);
      nativeLog := nativeLog + [DecisionRequest(prepared)];
      if !reply.success {
        return Raised(DecisionCallFailed);
      }
      var decision := BuildDecision(config, |context|, reply, state, latencyUs);
      UpdateMetrics(decision);
      StoreDecision(decision);
      r := Ok(decision);
    }

    /** `adapt_from_outcome`. With learning disabled it returns false without
        a native call. Otherwise the feedback is resized to 16 entries, the
        native adaptation is requested with the given strength (the
        configured one by default), and the count of successful adaptations
        grows by one iff the native call reports success. */
    method AdaptFromOutcome(feedback: seq<real>, learningStrength: Option<real>, callSucceeded: bool)
      returns (success: bool)
      requires Valid()
      modifies this
      ensures Valid()
      ensures systemActive == old(systemActive) && learningEnabled == old(learningEnabled)
      ensures decisionHistory == old(decisionHistory)
      ensures !old(learningEnabled) ==> !success && nativeLog == old(nativeLog)
      ensures old(learningEnabled) ==>
                success == callSucceeded &&
                nativeLog == old(nativeLog) + [AdaptRequest(Resize(feedback, FeedbackLength),
                  if learningStrength.Some? then learningStrength.value else config.adaptationStrength)]
      ensures metrics == if success
                         then old(metrics).(successfulAdaptations := old(metrics).successfulAdaptations + 1)
                         else old(metrics)
    {
      if !learningEnabled {
        return false;
      }
      var strength := if learningStrength.Some? then learningStrength.value else config.adaptationStrength;
      var prepared := feedback;
      if |prepared| != FeedbackLength {
        prepared := Resize(prepared, FeedbackLength);
      }
      assert prepared == Resize(feedback, FeedbackLength);
      nativeLog := nativeLog + [AdaptRequest(prepared, strength)];
      success := callSucceeded;
      if success {
        metrics := metrics.(successfulAdaptations := metrics.successfulAdaptations + 1);
      }
    }

    /** `is_functional`: active, newest awareness at least 0.7, newest
        coherence at least 0.8, the last decision real-time compliant and
        safety compliance at least 0.95. Memory persistence plays no part, so
        the correlation input of the snapshot is immaterial here. */
    function IsFunctional(): (r: bool)
      reads this, monitor
      ensures r <==> systemActive && monitor.history != [] &&
                     monitor.history[|monitor.history| - 1].awareness >= 0.7 &&
                     monitor.history[|monitor.history| - 1].coherence >= 0.8 &&
                     metrics.realTimeCompliance && metrics.safetyCompliance >= 0.95
    {
      if !systemActive then false
      else
        var state := GetState(monitor.history, None);
        state.awarenessLevel >= 0.7 &&
        state.temporalCoherence >= 0.8 &&
        metrics.realTimeCompliance &&
        metrics.safetyCompliance >= 0.95
    }
  }

  /** After `make_real_ai_decision` returns a decision that failed
      validation, the metrics are `UpdatedMetrics(old metrics, d)` with a
      safety compliance of 0, so `is_functional` reports false whatever the
      monitor says. */
  lemma UnsafeDecisionStopsFunctioning(ai: FunctionalRealAI, before: Metrics, d: Decision)
    requires ai.metrics == UpdatedMetrics(before, d)
    requires !d.safetyValidated
    ensures !ai.IsFunctional()
  {
    assert ai.metrics.safetyCompliance == 0.0;
  }
}
