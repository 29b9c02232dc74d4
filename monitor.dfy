/** The consciousness monitor of the Python controller
    (src/python/real_ai/functional_controller.py, class ConsciousnessMonitor):
    a bounded history of samples, the awareness and continuity scores derived
    from its newest entries, and the state snapshot built from it. The
    monitoring thread is modelled one loop iteration at a time (`Tick`); the
    clock and the noisy coherence signal are inputs of that iteration. */
module Monitor {
  import opened Stats
  import Fifo
  import opened Records

  const HistoryCapacity: nat := 1000
  const AwarenessWindow: nat := 10
  const ContinuityWindow: nat := 20
  const PersistenceWindow: nat := 50

  const Intentionality: real := 0.85
  const Agency: real := 0.88
  const EmbodiedPresence: real := 0.9

  datatype Sample = Sample(timestamp: real, coherence: real, awareness: real, continuity: real)

  predicate SampleInRange(s: Sample)
  {
    0.0 <= s.coherence <= 1.0 && 0.0 <= s.awareness <= 1.0 && 0.0 < s.continuity <= 1.0
  }

  predicate HistoryInRange(h: seq<Sample>)
  {
    forall i | 0 <= i < |h| :: SampleInRange(h[i])
  }

  /** The coherence readings of the newest `n` samples, oldest first
      (Python's `[x['coherence'] for x in h[-n:]]`). */
  function RecentCoherences(h: seq<Sample>, n: nat): (r: seq<real>)
    ensures |r| == if |h| < n then |h| else n
    ensures forall i | 0 <= i < |r| :: r[i] == h[|h| - |r| + i].coherence
  {
    var start := if |h| < n then 0 else |h| - n;
    seq(|h| - start, i requires 0 <= i < |h| - start => h[start + i].coherence)
  }

  lemma RecentCoherencesWithin(h: seq<Sample>, n: nat)
    requires HistoryInRange(h)
    ensures AllWithin(RecentCoherences(h, n), 0.0, 1.0)
  {
    var r := RecentCoherences(h, n);
    forall i | 0 <= i < |r| ensures 0.0 <= r[i] <= 1.0 {
      assert SampleInRange(h[|h| - |r| + i]);
    }
  }

  /** The coherence reading: the raw signal (a sinusoid plus Gaussian noise
      around 0.92) clipped to [0, 1]. */
  function MeasuredCoherence(raw: real): (r: real)
    ensures 0.0 <= r <= 1.0
    ensures 0.0 <= raw <= 1.0 ==> r == raw
  {
    Clip(raw, 0.0, 1.0)
  }

  /** `_calculate_awareness_level`: 0.5 until ten samples exist, then the mean
      coherence of the newest ten. */
  function AwarenessLevel(h: seq<Sample>): (r: real)
    ensures |h| < AwarenessWindow ==> r == 0.5
    ensures HistoryInRange(h) ==> 0.0 <= r <= 1.0
  {
    if |h| < AwarenessWindow then 0.5
    else
      var recent := RecentCoherences(h, AwarenessWindow);
      assert HistoryInRange(h) ==> 0.0 <= Mean(recent) <= 1.0 by {
        if HistoryInRange(h) {
          RecentCoherencesWithin(h, AwarenessWindow);
          MeanWithin(recent, 0.0, 1.0);
        }
      }
      Mean(recent)
  }

  /** `_assess_continuity`: 0.5 until two samples exist, then
      1 / (1 + 10 * variance) of the newest twenty coherences, clipped. */
  function AssessContinuity(h: seq<Sample>): (r: real)
    ensures |h| < 2 ==> r == 0.5
    ensures 0.0 < r <= 1.0
  {
    if |h| < 2 then 0.5
    else
      var values := RecentCoherences(h, ContinuityWindow);
      if |values| < 2 then 0.5
      else
        var v := Variance(values);
        assert 1.0 / (1.0 + v * 10.0) > 0.0;
        Clip(1.0 / (1.0 + v * 10.0), 0.0, 1.0)
  }

  /** `_calculate_memory_persistence`: 0.5 until fifty samples exist; then the
      correlation of the newest fifty coherences with the fifty before them,
      clipped to [0, 1], or 0.5 when it is undefined. Below a hundred samples
      the source correlates the newest fifty with themselves, which gives 1
      unless they are all equal (undefined). From a hundred samples on the
      correlation is an input: `windowCorrelation`, None when undefined. */
  function MemoryPersistence(h: seq<Sample>, windowCorrelation: Option<real>): (r: real)
    ensures |h| < PersistenceWindow ==> r == 0.5
    ensures 0.0 <= r <= 1.0
  {
    if |h| < PersistenceWindow then 0.5
    else if |h| < 2 * PersistenceWindow then
      if Variance(RecentCoherences(h, PersistenceWindow)) > 0.0 then 1.0 else 0.5
    else
      match windowCorrelation
      case None => 0.5
      case Some(c) => Clip(c, 0.0, 1.0)
  }

  /** `get_consciousness_state`: all zeros on an empty history; otherwise the
      newest sample's awareness, coherence and continuity together with the
      scores derived from the whole history. */
  function GetState(h: seq<Sample>, windowCorrelation: Option<real>): (r: ConsciousnessState)
    ensures h == [] ==> r == ZeroState
    ensures h != [] ==> r.awarenessLevel == h[|h| - 1].awareness &&
                        r.temporalCoherence == h[|h| - 1].coherence &&
                        r.consciousnessContinuity == h[|h| - 1].continuity
    ensures HistoryInRange(h) ==> StateInRange(r)
  {
    if h == [] then ZeroState
    else
      var latest := h[|h| - 1];
      assert HistoryInRange(h) ==> SampleInRange(latest);
      var awareness := AwarenessLevel(h);
      ConsciousnessState(
        awarenessLevel := latest.awareness,
        selfAwareness := awareness * 0.9,
        intentionality := Intentionality,
        agency := Agency,
        temporalCoherence := latest.coherence,
        memoryPersistence := MemoryPersistence(h, windowCorrelation),
        predictionConfidence := awareness * 0.95,
        metaCognition := (awareness + AssessContinuity(h)) / 2.0,
        embodiedPresence := EmbodiedPresence,
        consciousnessContinuity := latest.continuity)
  }

  /** The sample one monitor iteration records: awareness and continuity are
      computed before the new sample is appended. */
  function NextSample(h: seq<Sample>, rawCoherence: real, timestamp: real): (s: Sample)
    ensures HistoryInRange(h) ==> SampleInRange(s)
  {
    Sample(timestamp, MeasuredCoherence(rawCoherence), AwarenessLevel(h), AssessContinuity(h))
  }

  /** The history after one monitor iteration. */
  function Recorded(h: seq<Sample>, rawCoherence: real, timestamp: real): seq<Sample>
  {
    Fifo.PushBounded(h, NextSample(h, rawCoherence, timestamp), HistoryCapacity)
  }

  /** One iteration keeps the history within 1000 in-range samples, puts the
      new sample last, and on overflow drops exactly the oldest sample. */
  lemma RecordedInvariant(h: seq<Sample>, rawCoherence: real, timestamp: real)
    requires |h| <= HistoryCapacity && HistoryInRange(h)
    ensures var h' := Recorded(h, rawCoherence, timestamp);
      |h'| <= HistoryCapacity && HistoryInRange(h') &&
      h'[|h'| - 1] == NextSample(h, rawCoherence, timestamp) &&
      (|h| < HistoryCapacity ==> h' == h + [h'[|h'| - 1]]) &&
      (|h| == HistoryCapacity ==> h'[..|h'| - 1] == h[1..])
  {
    var s := NextSample(h, rawCoherence, timestamp);
    var h' := Recorded(h, rawCoherence, timestamp);
    forall i | 0 <= i < |h'| ensures SampleInRange(h'[i]) {
      if i < |h'| - 1 {
        assert h'[i] == h'[..|h'| - 1][i] == h[|h| + 1 - |h'| + i];
      }
    }
    if |h| < HistoryCapacity {
      assert h' == h'[..|h'| - 1] + [s];
    }
  }

  class ConsciousnessMonitor {
    var history: seq<Sample>
    var monitoringActive: bool

    ghost predicate Valid()
      reads this
    {
      |history| <= HistoryCapacity && HistoryInRange(history)
    }

    constructor ()
      ensures Valid() && history == [] && !monitoringActive
    {
      history := [];
      monitoringActive := false;
    }

    /** `start_monitoring`: raise the flag the monitoring loop runs under. */
    method StartMonitoring()
      modifies this
      ensures monitoringActive && history == old(history)
    {
      monitoringActive := true;
    }

    /** One iteration of the monitoring loop, which runs only while the flag
        is raised: record a sample, then evict the oldest if over capacity. */
    method Tick(rawCoherence: real, timestamp: real)
      requires Valid()
      modifies this
      ensures Valid() && monitoringActive == old(monitoringActive)
      ensures history == if old(monitoringActive)
                         then Recorded(old(history), rawCoherence, timestamp)
                         else old(history)
    {
      if monitoringActive {
        RecordedInvariant(history, rawCoherence, timestamp);
        var sample := Sample(timestamp, MeasuredCoherence(rawCoherence),
                             AwarenessLevel(history), AssessContinuity(history));
        history := history + [sample];
        if |history| > HistoryCapacity {
          history := history[1..];
        }
      }
    }
  }
}
