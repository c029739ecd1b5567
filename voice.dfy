/**
 * The edge-triggered voice-activity detector (voice_activity_detector.py).
 *
 * Each call receives the volume of one audio chunk and the time it was read.
 * A loud chunk (volume strictly above the threshold) opens or extends an
 * episode; the detector fires once, on the first loud chunk at least
 * `requiredDuration` seconds after the episode started, and re-arms only
 * after a quiet chunk more than one second after the last loud one.
 */
module VoiceActivity {
  import opened Wrappers

  const DefaultThreshold: real := 400.0
  const DefaultRequiredDuration: real := 3.0
  /** Quiet time, strictly exceeded, after which an episode ends. */
  const QuietGap: real := 1.0

  /** The three fields the detector carries between calls. */
  datatype VadState = VadState(voiceStart: Option<real>, lastVoice: Option<real>, speaking: bool)

  const Idle: VadState := VadState(None, None, false)

  /** The two timestamps are set together, and speaking implies an episode is open. */
  predicate Inv(s: VadState) {
    s.voiceStart.Some? == s.lastVoice.Some? && (s.speaking ==> s.voiceStart.Some?)
  }

  /** Python truthiness of an optional time: `None` and `0.0` are both false. */
  predicate Truthy(t: Option<real>) {
    t.Some? && t.value != 0.0
  }

  /** A quiet chunk at `now` ends the open episode. */
  predicate EndsEpisode(s: VadState, volume: real, now: real, threshold: real) {
    volume <= threshold && Truthy(s.lastVoice) && now - s.lastVoice.value > QuietGap
  }

  /** One call: the next state and whether the call reports voice. */
  function Step(s: VadState, volume: real, now: real, threshold: real, required: real): (r: (VadState, bool))
    // The episode start is set by the first loud chunk only; every loud chunk records its time.
    ensures volume > threshold ==>
      r.0.voiceStart == (if s.voiceStart.None? then Some(now) else s.voiceStart) && r.0.lastVoice == Some(now)
    // It fires exactly on a loud chunk at least `required` after the start, when not yet speaking.
    ensures r.1 <==> volume > threshold && !s.speaking && now - r.0.voiceStart.GetOr(now) >= required
    ensures r.1 ==> r.0.speaking
    // Quiet chunks never fire; they either reset everything or change nothing.
    ensures volume <= threshold ==> !r.1
    ensures volume <= threshold && EndsEpisode(s, volume, now, threshold) ==> r.0 == Idle
    ensures volume <= threshold && !EndsEpisode(s, volume, now, threshold) ==> r.0 == s
    // A speaking detector stays speaking until an episode ends.
    ensures s.speaking && !EndsEpisode(s, volume, now, threshold) ==> r.0.speaking
    ensures Inv(s) ==> Inv(r.0)
  {
    if volume > threshold then
      var start := if s.voiceStart.None? then now else s.voiceStart.value;
      var fire := now - start >= required && !s.speaking;
      (VadState(Some(start), Some(now), s.speaking || fire), fire)
    else if Truthy(s.lastVoice) && now - s.lastVoice.value > QuietGap then
      (Idle, false)
    else
      (s, false)
  }

  /** One audio chunk: its volume and the clock reading when it was taken. */
  datatype Chunk = Chunk(volume: real, time: real)

  /** The detector's answers to a sequence of calls, and its final state. */
  function Run(s: VadState, cs: seq<Chunk>, threshold: real, required: real): (r: (VadState, seq<bool>))
    ensures |r.1| == |cs|
    decreases |cs|
  {
    if cs == [] then (s, [])
    else
      var (s1, b) := Step(s, cs[0].volume, cs[0].time, threshold, required);
      var (s2, bs) := Run(s1, cs[1..], threshold, required);
      (s2, [b] + bs)
  }

  function CountTrue(bs: seq<bool>): nat {
    if bs == [] then 0 else (if bs[0] then 1 else 0) + CountTrue(bs[1..])
  }

  /** No call of the run ends an episode. */
  predicate NoEpisodeEnd(s: VadState, cs: seq<Chunk>, threshold: real, required: real)
    decreases |cs|
  {
    cs == [] ||
    (!EndsEpisode(s, cs[0].volume, cs[0].time, threshold) &&
     NoEpisodeEnd(Step(s, cs[0].volume, cs[0].time, threshold, required).0, cs[1..], threshold, required))
  }

  /** While speaking and no episode ends, the detector never fires again. */
  lemma {:induction false} SilentWhileSpeaking(s: VadState, cs: seq<Chunk>, threshold: real, required: real)
    requires s.speaking && NoEpisodeEnd(s, cs, threshold, required)
    ensures CountTrue(Run(s, cs, threshold, required).1) == 0
    decreases |cs|
  {
    if cs != [] {
      var s1 := Step(s, cs[0].volume, cs[0].time, threshold, required).0;
      SilentWhileSpeaking(s1, cs[1..], threshold, required);
    }
  }

  /** At most one report per episode: without an episode end, a run fires at most once. */
  lemma {:induction false} AtMostOncePerEpisode(s: VadState, cs: seq<Chunk>, threshold: real, required: real)
    requires NoEpisodeEnd(s, cs, threshold, required)
    ensures CountTrue(Run(s, cs, threshold, required).1) <= 1
    ensures s.speaking ==> CountTrue(Run(s, cs, threshold, required).1) == 0
    decreases |cs|
  {
    if s.speaking {
      SilentWhileSpeaking(s, cs, threshold, required);
    } else if cs != [] {
      var (s1, b) := Step(s, cs[0].volume, cs[0].time, threshold, required);
      AtMostOncePerEpisode(s1, cs[1..], threshold, required);
    }
  }

  predicate AllLoud(cs: seq<Chunk>, threshold: real) {
    forall i :: 0 <= i < |cs| ==> cs[i].volume > threshold
  }

  /** Loud chunks never end an episode. */
  lemma {:induction false} LoudNeverEnds(s: VadState, cs: seq<Chunk>, threshold: real, required: real)
    requires AllLoud(cs, threshold)
    ensures NoEpisodeEnd(s, cs, threshold, required)
    decreases |cs|
  {
    if cs != [] {
      LoudNeverEnds(Step(s, cs[0].volume, cs[0].time, threshold, required).0, cs[1..], threshold, required);
    }
  }

  /** An open episode that started at `t0`, seen through loud chunks all within `required` of `t0`, stays silent. */
  lemma {:induction false} ShortEpisodeSilentFrom(s: VadState, t0: real, cs: seq<Chunk>, threshold: real, required: real)
    requires s.voiceStart == Some(t0)
    requires AllLoud(cs, threshold)
    requires forall i :: 0 <= i < |cs| ==> cs[i].time - t0 < required
    ensures CountTrue(Run(s, cs, threshold, required).1) == 0
    ensures Run(s, cs, threshold, required).0.speaking == s.speaking
    decreases |cs|
  {
    if cs != [] {
      var s1 := Step(s, cs[0].volume, cs[0].time, threshold, required).0;
      ShortEpisodeSilentFrom(s1, t0, cs[1..], threshold, required);
    }
  }

  /** Sustained loudness for less than the required duration never reports voice. */
  lemma ShortEpisodeNeverFires(cs: seq<Chunk>, threshold: real, required: real)
    requires |cs| > 0 && AllLoud(cs, threshold)
    requires forall i :: 0 <= i < |cs| ==> cs[i].time - cs[0].time < required
    ensures CountTrue(Run(Idle, cs, threshold, required).1) == 0
  {
    var s1 := Step(Idle, cs[0].volume, cs[0].time, threshold, required).0;
    ShortEpisodeSilentFrom(s1, cs[0].time, cs[1..], threshold, required);
  }

  /** An open, not yet reported episode fires exactly once if some loud chunk reaches the duration. */
  lemma {:induction false} SustainedFiresOnceFrom(s: VadState, t0: real, cs: seq<Chunk>, threshold: real, required: real, k: nat)
    requires s.voiceStart == Some(t0) && !s.speaking
    requires AllLoud(cs, threshold)
    requires k < |cs| && cs[k].time - t0 >= required
    ensures CountTrue(Run(s, cs, threshold, required).1) == 1
    decreases |cs|
  {
    var (s1, b) := Step(s, cs[0].volume, cs[0].time, threshold, required);
    LoudNeverEnds(s1, cs[1..], threshold, required);
    if b {
      AtMostOncePerEpisode(s1, cs[1..], threshold, required);
    } else {
      SustainedFiresOnceFrom(s1, t0, cs[1..], threshold, required, k - 1);
    }
  }

  /**
   * Continuous loudness from an idle detector reaching the required duration
   * reports voice exactly once.
   */
  lemma SustainedEpisodeFiresOnce(cs: seq<Chunk>, threshold: real, required: real, k: nat)
    requires |cs| > 0 && AllLoud(cs, threshold)
    requires k < |cs| && cs[k].time - cs[0].time >= required
    ensures CountTrue(Run(Idle, cs, threshold, required).1) == 1
  {
    var (s1, b) := Step(Idle, cs[0].volume, cs[0].time, threshold, required);
    LoudNeverEnds(s1, cs[1..], threshold, required);
    if b {
      AtMostOncePerEpisode(s1, cs[1..], threshold, required);
    } else {
      SustainedFiresOnceFrom(s1, cs[0].time, cs[1..], threshold, required, k - 1);
    }
  }

  /** The detector object: its audio stream and the three episode fields. */
  class VoiceActivityDetector {
    const threshold: real
    const requiredDuration: real
    var voiceStartTime: Option<real>
    var lastVoiceTime: Option<real>
    var isSpeaking: bool
    /** Number of times `close` released the audio stream. */
    var closeCount: nat

    function State(): VadState
      reads this
    {
      VadState(voiceStartTime, lastVoiceTime, isSpeaking)
    }

    constructor (threshold: real, requiredDuration: real)
      ensures this.threshold == threshold && this.requiredDuration == requiredDuration
      ensures State() == Idle && closeCount == 0
    {
      this.threshold := threshold;
      this.requiredDuration := requiredDuration;
      voiceStartTime := None;
      lastVoiceTime := None;
      isSpeaking := false;
      closeCount := 0;
    }

    /** `is_voice_detected`: one chunk of `volume` read at time `now`. */
    method IsVoiceDetected(volume: real, now: real) returns (detected: bool)
      modifies this
      ensures (State(), detected) == Step(old(State()), volume, now, threshold, requiredDuration)
      ensures closeCount == old(closeCount)
    {
      if volume > threshold {
        if voiceStartTime.None? {
          voiceStartTime := Some(now);
        }
        lastVoiceTime := Some(now);
        var duration := now - voiceStartTime.value;
        if duration >= requiredDuration {
          if !isSpeaking {
            isSpeaking := true;
            return true;
          }
        }
      } else {
        if Truthy(lastVoiceTime) && now - lastVoiceTime.value > QuietGap {
          voiceStartTime := None;
          lastVoiceTime := None;
          isSpeaking := false;
        }
      }
      return false;
    }

    /** `close`: stop and release the audio stream. */
    method Close()
      modifies this
      ensures State() == old(State()) && closeCount == old(closeCount) + 1
    {
      closeCount := closeCount + 1;
    }
  }
}
