/** The state of AudioAnalyzer (DiscoGlobe/ViewController.swift:276-332) and
    how its two tap handlers change it. The handlers are modelled as events
    applied one at a time; the audio engine that delivers them is not part
    of this model. */
module AudioAnalyzer {
  import opened Constants
  import opened Runtime
  import opened BandAnalysis
  import opened Loudness

  /** `amps`, read by the renderer as band heights, and `globalAmp`. */
  datatype Analyzer = Analyzer(amps: Bands, globalAmp: real)

  /** One delivery from a tap: an FFT buffer, or an amplitude reading. */
  datatype Event = FftFrame(data: seq<real>) | AmplitudeReading(res: real)

  /** What the renderer may rely on: every band in [0, 1), global amplitude in [0, 5]. */
  predicate Valid(a: Analyzer) {
    InUnitRange(a.amps) && 0.0 <= a.globalAmp <= MaxGlobalAmp
  }

  /** Every band lies in [0, 1). */
  predicate InUnitRange(amps: Bands) {
    forall b :: 0 <= b < FrequencySplit ==> 0.0 <= amps[b] < 1.0
  }

  /** The analyzer as constructed: all bands 0 and global amplitude 0 (lines 278-279). */
  function Init(): (a: Analyzer)
    ensures Valid(a)
    ensures forall b :: 0 <= b < FrequencySplit ==> a.amps[b] == 0.0
    ensures a.globalAmp == 0.0
  {
    Analyzer(ZeroBands(), 0.0)
  }

  /** Runs the handler for one event. An FFT frame replaces the band array
      by the normalised frame (BandAnalysis.FrameStepClosedForm) and leaves
      the global amplitude alone; an amplitude reading replaces
      the global amplitude and leaves the bands alone. Only a short FFT
      buffer traps. */
  function Handle(a: Analyzer, e: Event, dB: DecibelFn): (r: Result<Analyzer>)
    ensures r.IndexOutOfRange? <==> e.FftFrame? && |e.data| < FftSize
    ensures r.Ok? && e.FftFrame? ==> r.value.globalAmp == a.globalAmp
    ensures r.Ok? && e.FftFrame? ==>
              |e.data| >= FftSize && r.value.amps == Normalise(PreNormalised(a.amps, e.data, dB))
    ensures r.Ok? && e.AmplitudeReading? ==> r.value.amps == a.amps
    ensures r.Ok? && e.AmplitudeReading? ==> r.value.globalAmp == GlobalAmp(e.res)
    ensures Valid(a) && r.Ok? ==> Valid(r.value)
  {
    match e
    case FftFrame(data) =>
      (match FrameStep(a.amps, data, dB)
       case Ok(amps) =>
         FrameStepClosedForm(a.amps, data, dB);
         Ok(a.(amps := amps))
       case IndexOutOfRange(i) => IndexOutOfRange(i))
    case AmplitudeReading(res) => Ok(a.(globalAmp := GlobalAmp(res)))
  }

  /** Runs the handlers for a sequence of events in order; the first trap ends the run. */
  function Run(a: Analyzer, events: seq<Event>, dB: DecibelFn): Result<Analyzer>
    decreases |events|
  {
    if events == [] then Ok(a)
    else
      match Handle(a, events[0], dB)
      case Ok(next) => Run(next, events[1..], dB)
      case IndexOutOfRange(i) => IndexOutOfRange(i)
  }

  /** Every run from a valid state that does not trap ends in a valid state;
      in particular every run from Init(). */
  lemma {:induction false} RunPreservesValid(a: Analyzer, events: seq<Event>, dB: DecibelFn)
    requires Valid(a)
    ensures Run(a, events, dB).Ok? ==> Valid(Run(a, events, dB).value)
    decreases |events|
  {
    if events != [] {
      var h := Handle(a, events[0], dB);
      if h.Ok? {
        RunPreservesValid(h.value, events[1..], dB);
      }
    }
  }

  /** Event i is an FFT buffer too short for the handler. */
  predicate ShortFrame(e: Event) {
    e.FftFrame? && |e.data| < FftSize
  }

  /** A run traps exactly when one of its FFT buffers is shorter than FftSize. */
  lemma {:induction false} RunTrapsIffShortFrame(a: Analyzer, events: seq<Event>, dB: DecibelFn)
    ensures Run(a, events, dB).IndexOutOfRange? <==> exists i :: 0 <= i < |events| && ShortFrame(events[i])
    decreases |events|
  {
    if events != [] {
      var h := Handle(a, events[0], dB);
      if h.Ok? {
        RunTrapsIffShortFrame(h.value, events[1..], dB);
        if exists i :: 0 <= i < |events| && ShortFrame(events[i]) {
          var i :| 0 <= i < |events| && ShortFrame(events[i]);
          assert i > 0;
          assert events[1..][i - 1] == events[i];
        }
        if exists i :: 0 <= i < |events[1..]| && ShortFrame(events[1..][i]) {
          var i :| 0 <= i < |events[1..]| && ShortFrame(events[1..][i]);
          assert events[i + 1] == events[1..][i];
        }
      } else {
        assert ShortFrame(events[0]);
      }
    }
  }

  /** With full-size FFT buffers a run never traps. */
  lemma RunWithFullBuffersSucceeds(a: Analyzer, events: seq<Event>, dB: DecibelFn)
    requires forall i :: 0 <= i < |events| && events[i].FftFrame? ==> |events[i].data| >= FftSize
    ensures Run(a, events, dB).Ok?
  {
    RunTrapsIffShortFrame(a, events, dB);
  }
}
