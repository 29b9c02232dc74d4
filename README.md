# Real AI controller core, modelled in Dafny

This project models the sequential logic of the Gaia-Q-Air "Real AI"
controller and of its native consciousness model:

- the Python controller (`src/python/real_ai/functional_controller.py`):
  - the consciousness monitor's bounded sample history (1000 entries, oldest
    evicted) and the scores derived from it;
  - the safety and ethics validator's threshold checks and ordered violation list;
  - the guards, buffers, counters and bounded decision history of
    `FunctionalRealAI`;
- the Rust `ConsciousnessModel` (`src/rust/real-ai-core/src/lib.rs`):
  - its three capacity-bounded buffers (64, 32 and 128 entries);
  - its six scores, recomputed in a fixed order on every update.

Floating-point values are `real`. The native library is an oracle: the reply
of each native call is an input of the method that makes it. A ghost log,
`nativeLog`, records every decision and adaptation request handed to the
native library, so "no native decision or adaptation call was made" reads
"the log is unchanged". The handle create/initialise calls of
`initialize_real_ai` are not logged.

Files, one module each:

| file | module | models |
|---|---|---|
| stats.dfy | Stats | clip, sums, mean, population variance, max/min/argmax over real |
| fifo.dfy | Fifo | append-then-evict-oldest histories |
| records.dfy | Records | consciousness state, decision record, errors |
| monitor.dfy | Monitor | `ConsciousnessMonitor` |
| safety_validator.dfy | SafetyValidator | `RealAISafetyValidator` |
| controller.dfy | Controller | `FunctionalRealAI` |
| consciousness_model.dfy | RealAiCore | Rust `ConsciousnessModel` |

## Model

| member | source | states |
|---|---|---|
| Stats.Clip | src/python/real_ai/functional_controller.py:112 | the result lies in [lo, hi]; it is x when x is already inside, else the violated bound |
| Stats.MeanWithin | src/python/real_ai/functional_controller.py:119-120 | a mean of values in [lo, hi] lies in [lo, hi] |
| Stats.SumWithin | src/python/real_ai/functional_controller.py:119-120 | a sum of n values in [lo, hi] lies in [n*lo, n*hi] |
| Stats.QuotientWithin | src/python/real_ai/functional_controller.py:119-120 | dividing a total of n values in [lo, hi] by n lands in [lo, hi] |
| Stats.Variance | src/python/real_ai/functional_controller.py:132 | the population variance is never negative |
| Stats.MaxAbs | src/python/real_ai/functional_controller.py:274 | `max(abs(d) for d in v)`: bounds every abs(v[j]) and is attained at some j |
| Stats.MinOf | src/python/real_ai/functional_controller.py:279 | `min(v)`: below every entry and attained at some j |
| Stats.ArgMaxAbs | src/python/real_ai/functional_controller.py:619 | `np.argmax(np.abs(v))`: an index of largest magnitude, and the first such index |
| Fifo.PushBounded | src/python/real_ai/functional_controller.py:89-98 | the new entry is last; the length grows by one below capacity and stays put at capacity; the kept old entries are the newest ones, in their old order |
| Fifo.PushAllKeepsNewest | src/python/real_ai/functional_controller.py:557-559 | starting within capacity, after any run of pushes exactly the newest `cap` entries of everything pushed remain, in insertion order |
| Monitor.MeasuredCoherence | src/python/real_ai/functional_controller.py:104-112 | the coherence reading lies in [0, 1] and equals the raw signal when that is already in [0, 1] |
| Monitor.AwarenessLevel | src/python/real_ai/functional_controller.py:114-120 | 0.5 with fewer than 10 samples; in [0, 1] on any in-range history |
| Monitor.AssessContinuity | src/python/real_ai/functional_controller.py:122-135 | 0.5 with fewer than 2 samples; always in (0, 1] |
| Monitor.MemoryPersistence | src/python/real_ai/functional_controller.py:183-198 | 0.5 with fewer than 50 samples; always in [0, 1] |
| Monitor.GetState | src/python/real_ai/functional_controller.py:137-166 | the all-zero state on an empty history; otherwise the newest sample's awareness, coherence and continuity, and every score in [0, 1] on an in-range history |
| Monitor.NextSample | src/python/real_ai/functional_controller.py:88-94 | the sample one iteration records is in range whenever the history is |
| Monitor.RecordedInvariant | src/python/real_ai/functional_controller.py:89-98 | one iteration keeps at most 1000 in-range samples, puts the new sample last, appends below capacity and drops exactly the oldest at capacity |
| Monitor.RecentCoherences | src/python/real_ai/functional_controller.py:119 | the coherences of the newest n samples (`h[-n:]`), oldest first |
| Monitor.ConsciousnessMonitor.constructor | src/python/real_ai/functional_controller.py:75-79 | an empty history, monitoring off |
| Monitor.ConsciousnessMonitor.StartMonitoring | src/python/real_ai/functional_controller.py:81-83 | raises the monitoring flag and leaves the history alone |
| Monitor.ConsciousnessMonitor.Tick | src/python/real_ai/functional_controller.py:86-98 | one loop iteration: while monitoring, the history becomes `Recorded(old history)`; otherwise unchanged; the invariant (at most 1000 in-range samples) is kept |
| SafetyValidator.MagnitudeCheck | src/python/real_ai/functional_controller.py:273-276 | one violation carrying the largest magnitude iff some abs(d) exceeds 1.0, otherwise none |
| SafetyValidator.ConfidenceCheck | src/python/real_ai/functional_controller.py:278-281 | one violation carrying the lowest confidence iff some confidence is below 0.85, otherwise none |
| SafetyValidator.ValidateSafety | src/python/real_ai/functional_controller.py:269-287 | raises iff a vector is empty; passes iff no violation, iff every abs(d) <= 1.0, every confidence >= 0.85 and the decision is real-time compliant; the violations are exactly those of the failed checks, magnitude then confidence then latency |
| SafetyValidator.ThreeChecks | src/python/real_ai/functional_controller.py:269-287 | three checks of increasing rank, each adding its violation when it fails: the list is in check order, names a check iff it failed, and names nothing else |
| SafetyValidator.SafetyVerdictOrder | src/python/real_ai/functional_controller.py:269-287 | the safety violations are in check order and all of safety rank |
| SafetyValidator.SafetyVerdictNames | src/python/real_ai/functional_controller.py:269-287 | the magnitude, confidence and latency violations appear iff their checks fail, each carrying the offending extreme, and no other violation appears |
| SafetyValidator.ValidateEthics | src/python/real_ai/functional_controller.py:289-301 | passes iff no violation, iff awareness >= 0.7 and the trace is not empty; one violation per failed check, in check order |
| SafetyValidator.ValidateDecision | src/python/real_ai/functional_controller.py:255-267 | raises only where the safety check does; passes iff both checks pass, iff no violation, iff all five conditions hold; safety violations precede ethics violations |
| SafetyValidator.JoinedInCheckOrder | src/python/real_ai/functional_controller.py:255-267 | joining a lower-ranked ordered list and a higher-ranked ordered list keeps check order |
| SafetyValidator.DecisionInCheckOrder | src/python/real_ai/functional_controller.py:255-267 | the full violation list follows the order in which the five checks run |
| SafetyValidator.BoundaryValuesPass | src/python/real_ai/functional_controller.py:226-228 | magnitudes of exactly 1.0 and confidences of exactly 0.85 pass the safety check |
| SafetyValidator.LowConfidenceIsReported | src/python/real_ai/functional_controller.py:278-281 | one confidence below 0.85 fails the decision, and the violation carries the lowest confidence |
| Controller.Zeros | src/python/real_ai/functional_controller.py:600 | n zeros |
| Controller.PrepareContext | src/python/real_ai/functional_controller.py:594-602 | exactly 512 entries: the 512-entry prefix of a longer input, the input itself at 512, the input followed by zeros when shorter |
| Controller.Resize | src/python/real_ai/functional_controller.py:575-577 | `np.resize`: length n; zeros for an empty input; the prefix when shrinking; otherwise the input repeated with period len(s) |
| Controller.ReasoningTrace | src/python/real_ai/functional_controller.py:604-622 | seven entries, the last naming the first dimension of largest magnitude and its value |
| Controller.UpdatedMetrics | src/python/real_ai/functional_controller.py:629-644 | one more decision counted, adaptations untouched, safety compliance 1 or 0, compliance, latency and awareness recorded, the other fields unchanged; the average is untouched on the first decision and afterwards becomes 0.9 * rate + 0.1 * successful / total, staying non-negative and in [0, 1] while adaptations do not outnumber decisions |
| Controller.UnsafeDecisionStopsFunctioning | src/python/real_ai/functional_controller.py:715-727 | once the metrics are updated with a decision that failed validation, `is_functional` reports false |
| Controller.FunctionalRealAI.constructor | src/python/real_ai/functional_controller.py:306-349 | inactive, learning on, initial metrics, empty histories |
| Controller.FunctionalRealAI.Initialize | src/python/real_ai/functional_controller.py:439-487 | when the native side is ready: monitoring starts and the system becomes active; otherwise nothing changes and it reports false |
| Controller.FunctionalRealAI.Shutdown | src/python/real_ai/functional_controller.py:729-734 | clears the system and monitoring flags |
| Controller.FunctionalRealAI.UpdateMetrics | src/python/real_ai/functional_controller.py:629-644 | the metrics become `UpdatedMetrics(old metrics, d)` |
| Controller.ValidationIgnoresFlags | src/python/real_ai/functional_controller.py:255-301 | validation never reads the two validation flags, so setting them does not change the verdict |
| Controller.BuildDecision | src/python/real_ai/functional_controller.py:522-548 | the decision carries the native buffers, the state and the latency; it is real-time compliant iff latency <= target; with safety validation on it is marked safe iff validation passes, iff every abs(d) <= 1.0, every confidence >= 0.85, the latency target was met and awareness >= 0.7 (the trace is never empty); ethics copies the safety flag when enabled |
| Controller.FunctionalRealAI.StoreDecision | src/python/real_ai/functional_controller.py:556-559 | the history becomes `Fifo.PushBounded(old history, d, 1000)` and stays within 1000 entries |
| Controller.FunctionalRealAI.MakeDecision | src/python/real_ai/functional_controller.py:489-561 | raises when inactive, or when awareness is below the requirement, with no native call in both cases; raises when the native call fails; otherwise returns `BuildDecision` of the reply, counts it once in the metrics and appends it to the bounded history |
| Controller.FunctionalRealAI.AdaptFromOutcome | src/python/real_ai/functional_controller.py:563-592 | with learning off: false and no native call; otherwise one request with the feedback resized to 16 and the given or configured strength, and successful adaptations grow by one iff the call succeeds |
| Controller.FunctionalRealAI.IsFunctional | src/python/real_ai/functional_controller.py:715-727 | functional iff active, the history is non-empty, the newest awareness >= 0.7 and coherence >= 0.8, the last decision real-time compliant and safety compliance >= 0.95 |
| RealAiCore.Take | src/rust/real-ai-core/src/lib.rs:33 | `iter().take(cap)`: the prefix of length min(cap, len(s)) |
| RealAiCore.TakePrefix | src/rust/real-ai-core/src/lib.rs:32-40 | the clear-and-push loop yields `Take(s, cap)` |
| RealAiCore.SmoothTerm | src/rust/real-ai-core/src/lib.rs:64-65 | each term `1 - min(abs(diff), 1)` lies in [0, 1] |
| RealAiCore.SmoothSum | src/rust/real-ai-core/src/lib.rs:62-66 | the sum of n-1 terms lies in [0, n-1] |
| RealAiCore.Smoothness | src/rust/real-ai-core/src/lib.rs:57-69 | 0.5 with fewer than 2 entries; always in [0, 1] |
| RealAiCore.SmoothnessOf | src/rust/real-ai-core/src/lib.rs:82-94 | the accumulating loop computes `Smoothness(v)` |
| RealAiCore.PredictionError | src/rust/real-ai-core/src/lib.rs:117-121 | each trend-prediction error is non-negative |
| RealAiCore.PredictionErrors | src/rust/real-ai-core/src/lib.rs:113-123 | the accumulated error is non-negative |
| RealAiCore.WorldModelFidelity | src/rust/real-ai-core/src/lib.rs:108-130 | 0.5 with fewer than 3 memories; always in [0, 1] |
| RealAiCore.MemoryPersistence | src/rust/real-ai-core/src/lib.rs:71-80 | 0.0 with no memories; 1 - sd when sd <= 1; always in [0, 1] |
| RealAiCore.SelfModelAccuracy | src/rust/real-ai-core/src/lib.rs:96-106 | 0.0 with an empty awareness vector; always in [0, 1] |
| RealAiCore.ConsciousnessModel.constructor | src/rust/real-ai-core/src/lib.rs:17-29 | empty buffers, all-zero scores, consciousness level 0 |
| RealAiCore.ConsciousnessModel.GetConsciousnessLevel | src/rust/real-ai-core/src/lib.rs:136-138 | in [0, 1] for a valid model |
| RealAiCore.ConsciousnessModel.CalculatePredictionConfidence | src/rust/real-ai-core/src/lib.rs:132-134 | in [0, 1] when fidelity and persistence are |
| RealAiCore.ConsciousnessModel.CalculateContinuity | src/rust/real-ai-core/src/lib.rs:57-69 | `Smoothness` of the awareness vector; 0.5 below 2 entries |
| RealAiCore.ConsciousnessModel.CalculateIntentionStability | src/rust/real-ai-core/src/lib.rs:82-94 | `Smoothness` of the intention vector; 0.5 below 2 entries |
| RealAiCore.ConsciousnessModel.AssessWorldModel | src/rust/real-ai-core/src/lib.rs:108-130 | the accumulating loop computes `WorldModelFidelity` of the memory, in [0, 1] |
| RealAiCore.ConsciousnessModel.PushMemory | src/rust/real-ai-core/src/lib.rs:42-45 | remove-first-when-full then push equals `Fifo.PushBounded` at capacity 128 |
| RealAiCore.ConsciousnessModel.RecomputeScores | src/rust/real-ai-core/src/lib.rs:47-52 | the six scores from the current buffers, in source order; prediction confidence from the fidelity and persistence just computed; all in [0, 1] |
| RealAiCore.ConsciousnessModel.UpdateConsciousness | src/rust/real-ai-core/src/lib.rs:31-55 | awareness = first min(64, len(context)) of context; intention = first min(32, len(decision)) of decision; memory pushed at capacity 128; scores recomputed; the result equals `GetConsciousnessLevel()` afterwards and lies in [0, 1] |

## Left out

- Threads, `asyncio` tasks and sleeps: `Tick` models one iteration of the
  monitoring loop. The metrics and health loops only log or copy
  placeholder values, so they are not modelled. The fields they set
  (`quantumCoherence`, `embodimentIntegrity`, `gaiaAirCoupling`) and
  `learningVelocity` keep their initial values in the model.
- The clock, `perf_counter` and the random noise are inputs:
  - `Tick` takes the raw coherence signal and the timestamp;
  - `MakeDecision` takes the measured latency.
- Monitor.MemoryPersistence: from 100 samples on, `np.corrcoef` of the two
  50-sample windows is an input (`windowCorrelation`, None for NaN), so the
  model does not compute it. Below 100 samples the source correlates the
  newest window with itself. The model gives the exact real-valued result
  there: 1 when the window varies, 0.5 when the correlation is undefined.
- RealAiCore.UpdateConsciousness: `variance.sqrt()` is an input. The caller
  passes the standard deviations of the new memory and awareness buffers,
  and `StdDevOf` pins each one down as the non-negative square root.
- `f32`/`float32` rounding and `astype(np.float32)`: all arithmetic is
  exact over `real`.
- Native library loading, the ctypes bindings and the handle
  create/initialise calls are one flag, `Initialize(nativeReady)`. The
  decision and adaptation calls are oracles whose replies are inputs. The
  decision reply fills two 16-entry buffers. Serialising access to a
  native handle is concurrency and is not modelled.
- GAIA-Q-AIR and AMPEL360 integration interfaces, JSON configuration
  loading (a `Config` is passed to the constructor, and `DefaultConfig` is
  the file-missing default), logging and printing.
- The MD5 context hash and the timestamps of decisions and metrics.
- Text formatting: reasoning-trace lines and violation messages are tags
  carrying the numbers they print.
- `_update_consciousness_from_learning` computes a value only to log it.
  It has no effect on state, so it is not modelled.
- `adapt_from_outcome`'s `decision` argument and `make_real_ai_decision`'s
  `goal_specification` argument are never read by the source. The model
  omits both.
- Thin accessors and wrappers: the `get_real_ai_metrics` and
  `get_consciousness_state` accessors on `FunctionalRealAI`, which return
  the `metrics` field and `Monitor.GetState` of the history, and
  `RealAIEmbodiedSystem` (src/rust/real-ai-core/src/lib.rs:141-159), which
  delegates to `ConsciousnessModel`.
- Configuration and rule entries that no code reads: `awareness_threshold`,
  `coherence_threshold`, `real_time_mode`, `max_rate_of_change`,
  `forbidden_states`, `emergency_protocols`, the ethics principles, and the
  `consciousness_threshold` key (the requirement is a parameter of
  `make_real_ai_decision` whose default, 0.8, is `DefaultConsciousnessRequirement`).

## Notes on the source

- The validator does not compare the latency itself. It reads the
  `real_time_compliant` flag that `make_real_ai_decision` computed as
  latency <= target.
- With safety validation off and ethics validation on, the source copies
  the still-false safety flag into the ethics flag. The model does the same.
- `assess_world_model`'s fallback for zero predictions can never be taken:
  three or more memories give at least one prediction. The model keeps the
  branch as written.
