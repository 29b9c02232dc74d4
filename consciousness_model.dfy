/** The native consciousness model (src/rust/real-ai-core/src/lib.rs, struct
    ConsciousnessModel): three capacity-bounded buffers, rebuilt or shifted
    on every update, and six scores recomputed from them in a fixed order.
    `f32` arithmetic is modelled by `real`; the two square roots the scores
    take are inputs, pinned down by `StdDevOf`. */
module RealAiCore {
  import opened Stats
  import Fifo

  const AwarenessCapacity: nat := 64
  const IntentionCapacity: nat := 32
  const MemoryCapacity: nat := 128

  /** Rust's `iter().take(cap)`: the first min(cap, |s|) entries. */
  function Take(s: seq<real>, cap: nat): (r: seq<real>)
    ensures |r| == if |s| < cap then |s| else cap
    ensures r == s[..|r|]
  {
    if |s| < cap then s else s[..cap]
  }

  /** One smoothness term: 1 - min(|v[i] - v[i-1]|, 1), which lies in [0, 1]. */
  function SmoothTerm(v: seq<real>, i: nat): (r: real)
    requires 1 <= i < |v|
    ensures 0.0 <= r <= 1.0
  {
    1.0 - Min(Abs(v[i] - v[i - 1]), 1.0)
  }

  /** The sum of the smoothness terms for i in 1..n. */
  function SmoothSum(v: seq<real>, n: nat): (r: real)
    requires n <= |v|
    ensures 0.0 <= r
    ensures n >= 1 ==> r <= (n - 1) as real
  {
    if n <= 1 then 0.0 else SmoothSum(v, n - 1) + SmoothTerm(v, n - 1)
  }

  /** `calculate_continuity` / `calculate_intention_stability`: 0.5 with fewer
      than two entries, otherwise the mean of the smoothness terms; always in
      [0, 1]. */
  function Smoothness(v: seq<real>): (r: real)
    ensures |v| < 2 ==> r == 0.5
    ensures 0.0 <= r <= 1.0
  {
    if |v| < 2 then 0.5
    else
      var n := (|v| - 1) as real;
      var sum := SmoothSum(v, |v|);
      QuotientWithin(sum, n, 0.0, 1.0);
      sum / n
  }

  /** The error of the linear-trend prediction of v[i] from v[i-2] and v[i-1]. */
  function PredictionError(v: seq<real>, i: nat): (r: real)
    requires 2 <= i < |v|
    ensures r >= 0.0
  {
    var trend := v[i - 1] - v[i - 2];
    var predicted := v[i - 1] + trend;
    Abs(predicted - v[i])
  }

  /** The sum of the prediction errors for i in 2..n. */
  function PredictionErrors(v: seq<real>, n: nat): (r: real)
    requires n <= |v|
    ensures r >= 0.0
  {
    if n <= 2 then 0.0 else PredictionErrors(v, n - 1) + PredictionError(v, n - 1)
  }

  /** `assess_world_model`: 0.5 with fewer than three memories, otherwise
      one minus the mean prediction error capped at 1; always in [0, 1]. */
  function WorldModelFidelity(m: seq<real>): (r: real)
    ensures |m| < 3 ==> r == 0.5
    ensures 0.0 <= r <= 1.0
  {
    if |m| < 3 then 0.5
    else
      var predictions := |m| - 2;
      if predictions > 0 then
        var errors := PredictionErrors(m, |m|);
        assert errors / (predictions as real) >= 0.0;
        1.0 - Min(errors / (predictions as real), 1.0)
      else 0.5
  }

  /** `sd` is what `variance.sqrt()` yields for `s`: the non-negative root of
      its population variance. */
  predicate StdDevOf(sd: real, s: seq<real>)
  {
    sd >= 0.0 && (|s| > 0 ==> sd * sd == Variance(s))
  }

  /** `calculate_memory_persistence`: 0.0 with no memories, otherwise
      max(1 - standard deviation, 0); always in [0, 1]. */
  function MemoryPersistence(m: seq<real>, sd: real): (r: real)
    requires StdDevOf(sd, m)
    ensures |m| == 0 ==> r == 0.0
    ensures 0.0 <= r <= 1.0
    ensures |m| > 0 && sd <= 1.0 ==> r == 1.0 - sd
  {
    if |m| == 0 then 0.0 else Max(1.0 - sd, 0.0)
  }

  /** `assess_self_model`: 0.0 with an empty awareness vector, otherwise
      1 - min(standard deviation, 1); always in [0, 1]. */
  function SelfModelAccuracy(a: seq<real>, sd: real): (r: real)
    requires StdDevOf(sd, a)
    ensures |a| == 0 ==> r == 0.0
    ensures 0.0 <= r <= 1.0
  {
    if |a| == 0 then 0.0 else 1.0 - Min(sd, 1.0)
  }

  /** The shared loop of `calculate_continuity` and
      `calculate_intention_stability`. */
  method SmoothnessOf(v: seq<real>) returns (r: real)
    ensures r == Smoothness(v)
    ensures 0.0 <= r <= 1.0
  {
    if |v| < 2 {
      return 0.5;
    }
    var sum := 0.0;
    var i := 1;
    while i < |v|
      invariant 1 <= i <= |v|
      invariant sum == SmoothSum(v, i)
    {
      var diff := Abs(v[i] - v[i - 1]);
      sum := sum + (1.0 - Min(diff, 1.0));
      i := i + 1;
    }
    r := sum / ((|v| - 1) as real);
  }

  /** The clear-and-push loop of `update_consciousness`: push the entries of
      `s` in order until `cap` of them are in. */
  method TakePrefix(s: seq<real>, cap: nat) returns (r: seq<real>)
    ensures r == Take(s, cap)
    ensures |r| <= cap && |r| <= |s|
  {
    r := [];
    var i := 0;
    while i < |s| && i < cap
      invariant 0 <= i <= |s| && i <= cap
      invariant r == s[..i]
    {
      r := r + [s[i]];
      i := i + 1;
    }
  }

  predicate InUnit(x: real)
  {
    0.0 <= x <= 1.0
  }

  class ConsciousnessModel {
    var awarenessVector: seq<real>
    var intentionVector: seq<real>
    var memoryVector: seq<real>
    var consciousnessContinuity: real
    var memoryPersistence: real
    var intentionStability: real
    var selfModelAccuracy: real
    var worldModelFidelity: real
    var predictionConfidence: real

    /** The buffers are within their capacities and every score is in [0, 1]. */
    ghost predicate Valid()
      reads this
    {
      |awarenessVector| <= AwarenessCapacity &&
      |intentionVector| <= IntentionCapacity &&
      |memoryVector| <= MemoryCapacity &&
      InUnit(consciousnessContinuity) && InUnit(memoryPersistence) &&
      InUnit(intentionStability) && InUnit(selfModelAccuracy) &&
      InUnit(worldModelFidelity) && InUnit(predictionConfidence)
    }

    /** `new`: empty buffers and all-zero scores. */
    constructor ()
      ensures Valid()
      ensures awarenessVector == [] && intentionVector == [] && memoryVector == []
      ensures consciousnessContinuity == 0.0 && memoryPersistence == 0.0 &&
              intentionStability == 0.0 && selfModelAccuracy == 0.0 &&
              worldModelFidelity == 0.0 && predictionConfidence == 0.0
      ensures GetConsciousnessLevel() == 0.0
    {
      awarenessVector, intentionVector, memoryVector := [], [], [];
      consciousnessContinuity, memoryPersistence, intentionStability := 0.0, 0.0, 0.0;
      selfModelAccuracy, worldModelFidelity, predictionConfidence := 0.0, 0.0, 0.0;
    }

    /** `get_consciousness_level`: the mean of continuity, memory persistence,
        intention stability and self-model accuracy; in [0, 1] whenever the
        model is valid. */
    function GetConsciousnessLevel(): (r: real)
      reads this
      ensures Valid() ==> 0.0 <= r <= 1.0
    {
      (consciousnessContinuity + memoryPersistence + intentionStability + selfModelAccuracy) / 4.0
    }

    /** `calculate_prediction_confidence`: the mean of world-model fidelity and
        memory persistence; in [0, 1] when both are. */
    function CalculatePredictionConfidence(): (r: real)
      reads this
      ensures InUnit(worldModelFidelity) && InUnit(memoryPersistence) ==> InUnit(r)
    {
      (worldModelFidelity + memoryPersistence) / 2.0
    }

    method CalculateContinuity() returns (r: real)
      ensures r == Smoothness(awarenessVector)
      ensures |awarenessVector| < 2 ==> r == 0.5
    {
      r := SmoothnessOf(awarenessVector);
    }

    method CalculateIntentionStability() returns (r: real)
      ensures r == Smoothness(intentionVector)
      ensures |intentionVector| < 2 ==> r == 0.5
    {
      r := SmoothnessOf(intentionVector);
    }

    /** `assess_world_model`, with its loop over the memory buffer. */
    method AssessWorldModel() returns (r: real)
      ensures r == WorldModelFidelity(memoryVector)
      ensures 0.0 <= r <= 1.0
    {
      var m := memoryVector;
      if |m| < 3 {
        return 0.5;
      }
      var errors := 0.0;
      var predictions: nat := 0;
      var i := 2;
      while i < |m|
        invariant 2 <= i <= |m|
        invariant errors == PredictionErrors(m, i)
        invariant predictions == i - 2
      {
        var trend := m[i - 1] - m[i - 2];
        var predicted := m[i - 1] + trend;
        errors := errors + Abs(predicted - m[i]);
        predictions := predictions + 1;
        i := i + 1;
      }
      if predictions > 0 {
        r := 1.0 - Min(errors / (predictions as real), 1.0);
      } else {
        r := 0.5;
      }
    }

    /** The memory step of `update_consciousness`: when the buffer is full,
        remove its first entry; then push `outcome`. */
    method PushMemory(outcome: real)
      requires |memoryVector| <= MemoryCapacity
      modifies this`memoryVector
      ensures memoryVector == Fifo.PushBounded(old(memoryVector), outcome, MemoryCapacity)
    {
      ghost var before := memoryVector;
      if |memoryVector| >= MemoryCapacity {
        memoryVector := memoryVector[1..];
      }
      memoryVector := memoryVector + [outcome];
      assert |before| == MemoryCapacity ==> (before + [outcome])[1..] == before[1..] + [outcome];
    }

    /** The scoring step of `update_consciousness`: the six scores, in the
        order the source assigns them, from the current buffers. */
    method RecomputeScores(memorySpread: real, awarenessSpread: real)
      requires StdDevOf(memorySpread, memoryVector)
      requires StdDevOf(awarenessSpread, awarenessVector)
      modifies this`consciousnessContinuity, this`memoryPersistence, this`intentionStability,
               this`selfModelAccuracy, this`worldModelFidelity, this`predictionConfidence
      ensures consciousnessContinuity == Smoothness(awarenessVector)
      ensures memoryPersistence == MemoryPersistence(memoryVector, memorySpread)
      ensures intentionStability == Smoothness(intentionVector)
      ensures selfModelAccuracy == SelfModelAccuracy(awarenessVector, awarenessSpread)
      ensures worldModelFidelity == WorldModelFidelity(memoryVector)
      ensures predictionConfidence == (worldModelFidelity + memoryPersistence) / 2.0
      ensures InUnit(consciousnessContinuity) && InUnit(memoryPersistence) &&
              InUnit(intentionStability) && InUnit(selfModelAccuracy) &&
              InUnit(worldModelFidelity) && InUnit(predictionConfidence)
    {
      consciousnessContinuity := CalculateContinuity();
      memoryPersistence := MemoryPersistence(memoryVector, memorySpread);
      intentionStability := CalculateIntentionStability();
      selfModelAccuracy := SelfModelAccuracy(awarenessVector, awarenessSpread);
      worldModelFidelity := AssessWorldModel();
      predictionConfidence := CalculatePredictionConfidence();
    }

    /** `update_consciousness`. The awareness and intention vectors become the
        first 64 and 32 entries of `context` and `decision`; `outcome` joins
        the 128-entry memory, evicting the oldest when it is full; the six
        scores are recomputed in order from the new buffers, prediction
        confidence last from the fidelity and persistence just computed; and
        the result is the new consciousness level. The standard deviations
        of the new memory and awareness buffers are inputs. */
    method UpdateConsciousness(context: seq<real>, decision: seq<real>, outcome: real,
                               memorySpread: real, awarenessSpread: real)
      returns (level: real)
      requires Valid()
      requires StdDevOf(memorySpread, Fifo.PushBounded(memoryVector, outcome, MemoryCapacity))
      requires StdDevOf(awarenessSpread, Take(context, AwarenessCapacity))
      modifies this
      ensures Valid()
      ensures awarenessVector == Take(context, AwarenessCapacity)
      ensures intentionVector == Take(decision, IntentionCapacity)
      ensures memoryVector == Fifo.PushBounded(old(memoryVector), outcome, MemoryCapacity)
      ensures consciousnessContinuity == Smoothness(awarenessVector)
      ensures memoryPersistence == MemoryPersistence(memoryVector, memorySpread)
      ensures intentionStability == Smoothness(intentionVector)
      ensures selfModelAccuracy == SelfModelAccuracy(awarenessVector, awarenessSpread)
      ensures worldModelFidelity == WorldModelFidelity(memoryVector)
      ensures predictionConfidence == (worldModelFidelity + memoryPersistence) / 2.0
      ensures level == GetConsciousnessLevel() && 0.0 <= level <= 1.0
    {
      awarenessVector := TakePrefix(context, AwarenessCapacity);
      intentionVector := TakePrefix(decision, IntentionCapacity);
      PushMemory(outcome);

      RecomputeScores(memorySpread, awarenessSpread);
      level := (consciousnessContinuity + memoryPersistence + intentionStability + selfModelAccuracy) / 4.0;
    }
  }
}
