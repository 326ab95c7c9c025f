/**
 * The record button: the microphone power level, the ring colour it selects,
 * the click guard and the progress ring
 * (src/features/voice/components/VoiceRecorder.tsx). The canvas waveform is
 * drawing only and is not part of this model.
 */
module VoiceRecorder {
  import opened Common

  /** A JavaScript number as these views produce it: a finite value or NaN. */
  datatype Level = Finite(value: real) | NaN

  /**
   * `powerLevel`: no analyser data gives 0; otherwise the byte sum over 128 per
   * sample, capped at 1. An empty (but present) array divides 0 by 0.
   */
  function PowerLevel(data: Option<seq<Byte>>): (l: Level)
    ensures data.None? ==> l == Finite(0.0)
    ensures data.Some? && data.value != [] ==> l.Finite? && 0.0 <= l.value <= 1.0
    ensures data.Some? && data.value == [] ==> l.NaN?
  {
    if data.None? then Finite(0.0)
    else if data.value == [] then NaN
    else
      SumOfBytes(data.value);
      Finite(MinReal(1.0, Sum(data.value) as real / (|data.value| * 128) as real))
  }

  /** Non-empty data whose mean byte reaches 128 gives full power; below that the power is the mean over 128. */
  lemma {:induction false} PowerLevelOfMean(data: seq<Byte>)
    requires data != []
    ensures var mean := Sum(data) as real / |data| as real;
      PowerLevel(Some(data)) == Finite(if mean >= 128.0 then 1.0 else mean / 128.0)
  {
    var n := |data| as real;
    var mean := Sum(data) as real / n;
    assert Sum(data) as real / (|data| * 128) as real == mean / 128.0;
  }

  const Blue: string := "#60a5fa"
  const Cyan: string := "#22d3ee"
  const Amber: string := "#fbbf24"
  const Red: string := "#ef4444"

  /** `ringColor`: every comparison with NaN is false, so NaN falls through to red. */
  function RingColor(l: Level): string
  {
    if l.Finite? && l.value < 0.3 then Blue
    else if l.Finite? && l.value < 0.6 then Cyan
    else if l.Finite? && l.value < 0.8 then Amber
    else Red
  }

  /** The position of a colour in the order blue, cyan, amber, red. */
  function Rank(color: string): nat
  {
    if color == Blue then 0 else if color == Cyan then 1 else if color == Amber then 2 else 3
  }

  /** The ring colour is a step function with thresholds 0.3, 0.6 and 0.8, and never falls as the level rises. */
  lemma RingColorSteps(a: real, b: real)
    ensures RingColor(Finite(a)) == (if a < 0.3 then Blue else if a < 0.6 then Cyan else if a < 0.8 then Amber else Red)
    ensures a <= b ==> Rank(RingColor(Finite(a))) <= Rank(RingColor(Finite(b)))
  {
  }

  /** No analyser data shows blue; an empty analyser array shows red. */
  lemma RingColorWithoutData()
    ensures RingColor(PowerLevel(None)) == Blue
    ensures RingColor(PowerLevel(Some([]))) == Red
  {
  }

  /** What one click does: whether recording is started, and whether `onRecordingStart` is then called. */
  datatype Click = Click(startCalled: bool, onStartCalled: bool)

  /** `handleClick`, with the outcome of `startRecording()` and the presence of the callback as parameters. */
  function HandleClick(isDisabled: bool, isRecording: bool, startSucceeds: bool, hasOnStart: bool): (c: Click)
    ensures c.startCalled <==> !isDisabled && !isRecording
    ensures c.onStartCalled <==> c.startCalled && startSucceeds && hasOnStart
  {
    if isDisabled || isRecording then Click(false, false)
    else Click(true, startSucceeds && hasOnStart)
  }

  /** `progressPercent`: a full ring while recording, an empty one otherwise. */
  function ProgressPercent(isRecording: bool): (p: int)
    ensures p == 100 <==> isRecording
    ensures p == 0 <==> !isRecording
  {
    if isRecording then 100 else 0
  }
}
