/**
 * The console proctor (proctoring.py).
 *
 * A one-time code is mailed to the candidate and checked in at most three
 * attempts; a reference photo path is asked for until one exists; the first
 * frame is checked against the photo; then frames are examined until a read
 * fails, a violation is seen or 'q' is pressed. The camera and the audio
 * stream are then released, the report written and exactly one examiner
 * email sent. Keyboard answers, files on disk, frames and the random code are
 * scripted inputs.
 */
module Console {
  import opened Wrappers
  import Text
  import FaceVerification
  import VoiceActivity
  import Report
  import EmailAlert
  import opened Monitoring

  // ---------------------------------------------------------------- the code

  const Attempts: nat := 3

  /** The answers as the program reads them: each one stripped of surrounding whitespace. */
  function Answers(entries: seq<string>): (r: seq<string>)
    ensures |r| == |entries|
  {
    if entries == [] then [] else Answers(entries[..|entries| - 1]) + [Text.Strip(entries[|entries| - 1])]
  }

  lemma {:induction false} AnswersAt(entries: seq<string>, k: nat)
    requires k < |entries|
    ensures Answers(entries)[k] == Text.Strip(entries[k])
  {
    var n := |entries| - 1;
    if k < n {
      AnswersAt(entries[..n], k);
      assert entries[..n][k] == entries[k];
    }
  }

  /** The position of the first of the three answers equal to the code, or 3 when none is. */
  function FirstMatch(otp: string, answers: seq<string>, k: nat): (r: nat)
    requires k <= Attempts <= |answers|
    ensures k <= r <= Attempts
    decreases Attempts - k
  {
    if k == Attempts || answers[k] == otp then k else FirstMatch(otp, answers, k + 1)
  }

  /** `FirstMatch` is the first matching answer: every earlier one differs. */
  lemma {:induction false} FirstMatchIsFirst(otp: string, answers: seq<string>, k: nat)
    requires k <= Attempts <= |answers|
    ensures forall j :: k <= j < FirstMatch(otp, answers, k) ==> answers[j] != otp
    ensures FirstMatch(otp, answers, k) < Attempts ==> answers[FirstMatch(otp, answers, k)] == otp
    decreases Attempts - k
  {
    if k < Attempts && answers[k] != otp {
      FirstMatchIsFirst(otp, answers, k + 1);
    }
  }

  /** The messages printed after `n` wrong answers, each with the attempts left. */
  function Mismatches(n: nat): (r: seq<ConsoleEvent>)
    ensures |r| == n
  {
    if n == 0 then [] else Mismatches(n - 1) + [OtpMismatch(2 - (n - 1))]
  }

  lemma {:induction false} MismatchesAt(n: nat, j: nat)
    requires j < n
    ensures Mismatches(n)[j] == OtpMismatch(2 - j)
  {
    if j < n - 1 {
      MismatchesAt(n - 1, j);
    }
  }

  /** The messages of the code check: one per wrong answer, then the verdict. */
  function OtpEvents(otp: string, entries: seq<string>): seq<ConsoleEvent>
    requires |entries| >= Attempts
  {
    var n := FirstMatch(otp, Answers(entries), 0);
    Mismatches(n) + (if n < Attempts then [OtpAccepted] else [OtpRejected])
  }

  /**
   * The code check prints, for each wrong answer before the first right one,
   * the attempts left counting down from 2, and then its verdict: accepted
   * exactly when one of the three stripped answers is the code.
   */
  lemma OtpEventsContent(otp: string, entries: seq<string>)
    requires |entries| >= Attempts
    ensures var ev := OtpEvents(otp, entries);
      var n := FirstMatch(otp, Answers(entries), 0);
      |ev| == n + 1 &&
      (forall j :: 0 <= j < n ==> ev[j] == OtpMismatch(2 - j) && Answers(entries)[j] != otp) &&
      (ev[n] == OtpAccepted <==> exists k :: 0 <= k < Attempts && Answers(entries)[k] == otp) &&
      (ev[n] == OtpAccepted || ev[n] == OtpRejected)
  {
    var n := FirstMatch(otp, Answers(entries), 0);
    FirstMatchIsFirst(otp, Answers(entries), 0);
    forall j | 0 <= j < n {
      MismatchesAt(n, j);
    }
  }

  /**
   * The `for attempt in range(3)` loop with its `else`: a message after each
   * wrong answer, and the verdict once an answer matches or the attempts run out.
   */
  method CheckOtp(otp: string, entries: seq<string>) returns (verified: bool, messages: seq<ConsoleEvent>)
    requires |entries| >= Attempts
    ensures verified <==> exists k :: 0 <= k < Attempts && Answers(entries)[k] == otp
    ensures verified <==> FirstMatch(otp, Answers(entries), 0) < Attempts
    ensures messages == OtpEvents(otp, entries)
  {
    ghost var answers := Answers(entries);
    FirstMatchIsFirst(otp, answers, 0);
    verified, messages := false, [];
    var attempt := 0;
    while attempt < Attempts
      invariant 0 <= attempt <= FirstMatch(otp, answers, 0)
      invariant messages == Mismatches(attempt)
    {
      var userInput := Text.Strip(entries[attempt]);
      AnswersAt(entries, attempt);
      if userInput == otp {
        verified := true;
        messages := messages + [OtpAccepted];
        break;
      }
      messages := messages + [OtpMismatch(2 - attempt)];
      attempt := attempt + 1;
    }
    if !verified {
      messages := messages + [OtpRejected];
    }
  }

  // ------------------------------------------------------- the photo path

  /** The position of the first answer that names an existing file, or the number of answers. */
  function FirstExisting(answers: seq<string>, files: set<string>, k: nat): (r: nat)
    requires k <= |answers|
    ensures k <= r <= |answers|
    decreases |answers| - k
  {
    if k == |answers| || answers[k] in files then k else FirstExisting(answers, files, k + 1)
  }

  predicate SomeExisting(answers: seq<string>, files: set<string>) {
    exists k :: 0 <= k < |answers| && answers[k] in files
  }

  /** The answers are asked for until one names a file: the script must contain one. */
  lemma {:induction false} FirstExistingFound(answers: seq<string>, files: set<string>, k: nat)
    requires k <= |answers|
    requires exists j :: k <= j < |answers| && answers[j] in files
    ensures FirstExisting(answers, files, k) < |answers|
    ensures answers[FirstExisting(answers, files, k)] in files
    ensures forall j :: k <= j < FirstExisting(answers, files, k) ==> answers[j] !in files
    decreases |answers| - k
  {
    if answers[k] !in files {
      FirstExistingFound(answers, files, k + 1);
    }
  }

  /** One message for each of the first `n` answers. */
  function Missing(answers: seq<string>, n: nat): (r: seq<ConsoleEvent>)
    requires n <= |answers|
    ensures |r| == n
  {
    if n == 0 then [] else Missing(answers, n - 1) + [PathMissing(answers[n - 1])]
  }

  lemma {:induction false} MissingAt(answers: seq<string>, n: nat, j: nat)
    requires j < n <= |answers|
    ensures Missing(answers, n)[j] == PathMissing(answers[j])
  {
    if j < n - 1 {
      MissingAt(answers, n - 1, j);
    }
  }

  /** The messages of the path prompt: one per answer that names no file. */
  function PathEvents(entries: seq<string>, files: set<string>): seq<ConsoleEvent> {
    var answers := Answers(entries);
    Missing(answers, FirstExisting(answers, files, 0))
  }

  /** Every answer before the accepted one is reported missing, in order, and names no file. */
  lemma PathEventsContent(entries: seq<string>, files: set<string>)
    requires SomeExisting(Answers(entries), files)
    ensures var ev := PathEvents(entries, files);
      |ev| < |entries| && Answers(entries)[|ev|] in files &&
      forall j :: 0 <= j < |ev| ==> ev[j] == PathMissing(Answers(entries)[j]) && Answers(entries)[j] !in files
  {
    var answers := Answers(entries);
    FirstExistingFound(answers, files, 0);
    forall j | 0 <= j < FirstExisting(answers, files, 0) {
      MissingAt(answers, FirstExisting(answers, files, 0), j);
    }
  }

  /** The `while True` path prompt: a message per answer naming no file, then the accepted path. */
  method AskReferencePath(entries: seq<string>, files: set<string>) returns (path: string, messages: seq<ConsoleEvent>)
    requires SomeExisting(Answers(entries), files)
    ensures path in files
    ensures messages == PathEvents(entries, files) && |messages| < |entries| && path == Answers(entries)[|messages|]
  {
    ghost var answers := Answers(entries);
    FirstExistingFound(answers, files, 0);
    messages := [];
    var i := 0;
    while true
      invariant 0 <= i <= FirstExisting(answers, files, 0)
      invariant messages == Missing(answers, i)
      decreases |entries| - i
    {
      path := Text.Strip(entries[i]);
      AnswersAt(entries, i);
      if path in files {
        break;
      }
      messages := messages + [PathMissing(path)];
      i := i + 1;
    }
  }

  // ------------------------------------------------------------- one frame

  /** The texts `warning_message` can hold. */
  datatype Warning =
    | NoFaceWarning | GazeWarning(reason: string) | VoiceWarning
    | LowLightWarning | HighNoiseWarning | VeryHighNoiseWarning

  function WarningText(w: Warning): string {
    match w
    case NoFaceWarning => "Warning: No face detected!"
    case GazeWarning(reason) => "Warning: Gaze deviation - " + reason
    case VoiceWarning => "Warning: Voice detected!"
    case LowLightWarning => "Warning: Low lighting!"
    case HighNoiseWarning => "Warning: High noise!"
    case VeryHighNoiseWarning => "Warning: Very high noise!"
  }

  const LookingAway: string := "Looking away"

  /** `direction if direction else "Looking away"`: no direction, or an empty one, falls back. */
  function GazeReason(direction: Option<FaceVerification.Direction>): string {
    if direction.Some? && FaceVerification.DirectionText(direction.value) != "" then
      FaceVerification.DirectionText(direction.value)
    else LookingAway
  }

  /** The fallback reason is never recorded: a deviation always comes with a direction. */
  lemma LookingAwayNeverUsed(input: FaceVerification.MeshInput)
    requires FaceVerification.DetectGazeDeviation(input, FaceVerification.DefaultEarThreshold).deviated
    ensures GazeReason(FaceVerification.DetectGazeDeviation(input, FaceVerification.DefaultEarThreshold).direction) != LookingAway
  {
    var d := FaceVerification.DetectGazeDeviation(input, FaceVerification.DefaultEarThreshold).direction.value;
    assert FaceVerification.DirectionText(d)[8] != LookingAway[8];
  }

  /** The warning set by the gaze check, before voice, light and noise. */
  function GazeWarningOf(g: FaceVerification.GazeReading): Option<Warning> {
    if g.noFace then Some(NoFaceWarning)
    else if g.deviated then Some(GazeWarning(GazeReason(g.direction)))
    else None
  }

  /** The warning set by the light and noise check; `heardAgain` is the second detector call's answer. */
  function AmbientWarning(light: real, noise: real, heardAgain: bool): (w: Option<Warning>)
    // Low light beats high noise, and high noise beats very high noise.
    ensures w == Some(LowLightWarning) <==> light < LowLight
    ensures w == Some(HighNoiseWarning) <==> light >= LowLight && noise > HighNoise && heardAgain
    ensures w == Some(VeryHighNoiseWarning) <==> light >= LowLight && !(noise > HighNoise && heardAgain) && noise > VeryHighNoise
    ensures w == None <==> light >= LowLight && !(noise > HighNoise && heardAgain) && noise <= VeryHighNoise
  {
    if light < LowLight then Some(LowLightWarning)
    else if noise > HighNoise && heardAgain then Some(HighNoiseWarning)
    else if noise > VeryHighNoise then Some(VeryHighNoiseWarning)
    else None
  }

  /** What `warning_message` holds at the end of a frame: the last check that set it wins. */
  function FinalWarning(gaze: Option<Warning>, heard: bool, ambient: Option<Warning>): (w: Option<Warning>)
    // Light and noise override voice, and voice overrides the gaze checks.
    ensures ambient.Some? ==> w == ambient
    ensures ambient.None? && heard ==> w == Some(VoiceWarning)
    ensures ambient.None? && !heard ==> w == gaze
  {
    if ambient.Some? then ambient else if heard then Some(VoiceWarning) else gaze
  }

  /** Why the frame loop stopped. */
  datatype Exit = ReadFailed | Violation | Quit

  /** One frame's effect: the new state, the final warning, and the exit it takes if any. */
  datatype FrameResult = FrameResult(state: LoopState, warning: Option<Warning>, exit: Option<Exit>)

  /** Whether the noise branch makes the second detector call: only in good light with noise above 95. */
  predicate SecondCall(t: Tick) {
    t.light >= LowLight && t.noise > HighNoise
  }

  /** One pass of the frame loop after a successful read. */
  function ConsoleStep(s: LoopState, t: Tick): FrameResult {
    var msgs := ViolationMessages(t.detections);
    if msgs != [] then FrameResult(s.(evidence := RecordAll(s.evidence, msgs)), None, Some(Violation))
    else
      var g := FaceVerification.DetectGazeDeviation(t.mesh, FaceVerification.DefaultEarThreshold);
      var gaze := if !g.noFace && g.deviated then s.gaze + [Report.GazeEvent(t.stamp, GazeReason(g.direction))] else s.gaze;
      var (vad1, heard) := VoiceActivity.Step(s.vad, t.chunk.volume, t.chunk.time,
                                              VoiceActivity.DefaultThreshold, VoiceActivity.DefaultRequiredDuration);
      var (vad2, heardAgain) :=
        if SecondCall(t) then VoiceActivity.Step(vad1, t.extraChunk.volume, t.extraChunk.time,
                                                 VoiceActivity.DefaultThreshold, VoiceActivity.DefaultRequiredDuration)
        else (vad1, false);
      FrameResult(LoopState(s.evidence, gaze, if heard then s.voice + [t.stamp] else s.voice, vad2),
                  FinalWarning(GazeWarningOf(g), heard, AmbientWarning(t.light, t.noise, heardAgain)),
                  if t.quitKey then Some(Quit) else None)
  }

  /** A violation is handled before anything else: no gaze, voice, light or noise check runs. */
  lemma ViolationSkipsChecks(s: LoopState, t: Tick)
    requires ViolationMessages(t.detections) != []
    ensures var r := ConsoleStep(s, t);
      r.exit == Some(Violation) && r.warning.None? &&
      r.state.gaze == s.gaze && r.state.voice == s.voice && r.state.vad == s.vad &&
      r.state.evidence == RecordAll(s.evidence, ViolationMessages(t.detections))
  {
  }

  /**
   * The second detector call never reports voice in a frame where the first
   * one did, so a high-noise warning comes from a frame with no voice event.
   */
  lemma NoDoubleDetection(s: LoopState, t: Tick)
    requires ViolationMessages(t.detections) == []
    ensures ConsoleStep(s, t).warning == Some(HighNoiseWarning) ==> ConsoleStep(s, t).state.voice == s.voice
  {
    var (vad1, heard) := VoiceActivity.Step(s.vad, t.chunk.volume, t.chunk.time,
                                            VoiceActivity.DefaultThreshold, VoiceActivity.DefaultRequiredDuration);
    if heard && SecondCall(t) {
      assert vad1.speaking;
      assert !VoiceActivity.Step(vad1, t.extraChunk.volume, t.extraChunk.time,
                                 VoiceActivity.DefaultThreshold, VoiceActivity.DefaultRequiredDuration).1;
    }
  }

  /** The detector advances once per frame, or twice when the noise branch calls it again. */
  lemma DetectorCalls(s: LoopState, t: Tick)
    requires ViolationMessages(t.detections) == []
    ensures var once := VoiceActivity.Step(s.vad, t.chunk.volume, t.chunk.time,
                                           VoiceActivity.DefaultThreshold, VoiceActivity.DefaultRequiredDuration).0;
      ConsoleStep(s, t).state.vad ==
        if SecondCall(t) then VoiceActivity.Step(once, t.extraChunk.volume, t.extraChunk.time,
                                                 VoiceActivity.DefaultThreshold, VoiceActivity.DefaultRequiredDuration).0
        else once
  {
  }

  /**
   * A frame without violations records no malpractice event. It adds a gaze
   * event only when a face is present and deviated, and a voice event only
   * when the first detector call fires. Its final warning is the last one
   * assigned: low light, else high noise heard on the second call, else very
   * high noise, else voice, else the gaze warning.
   */
  lemma FrameEffects(s: LoopState, t: Tick)
    requires ViolationMessages(t.detections) == []
    ensures var r := ConsoleStep(s, t);
      var g := FaceVerification.DetectGazeDeviation(t.mesh, FaceVerification.DefaultEarThreshold);
      var heard := VoiceActivity.Step(s.vad, t.chunk.volume, t.chunk.time,
                                      VoiceActivity.DefaultThreshold, VoiceActivity.DefaultRequiredDuration).1;
      r.state.evidence == s.evidence &&
      (r.state.gaze != s.gaze <==> !g.noFace && g.deviated) &&
      (r.state.voice != s.voice <==> heard) &&
      (t.light < LowLight ==> r.warning == Some(LowLightWarning)) &&
      (t.light >= LowLight && t.noise <= HighNoise ==>
         r.warning == if heard then Some(VoiceWarning) else GazeWarningOf(g)) &&
      (r.warning == Some(HighNoiseWarning) ==> SecondCall(t)) &&
      (r.exit.Some? <==> t.quitKey)
  {
    var g := FaceVerification.DetectGazeDeviation(t.mesh, FaceVerification.DefaultEarThreshold);
    var r := ConsoleStep(s, t);
    if !g.noFace && g.deviated {
      assert |r.state.gaze| == |s.gaze| + 1;
    }
    var heard := VoiceActivity.Step(s.vad, t.chunk.volume, t.chunk.time,
                                    VoiceActivity.DefaultThreshold, VoiceActivity.DefaultRequiredDuration).1;
    if heard {
      assert |r.state.voice| == |s.voice| + 1;
    }
  }

  /** The gaze check of one frame: a deviation is recorded with its reason. */
  method CheckGaze(report: Report.ReportGenerator, t: Tick) returns (warning: Option<Warning>)
    requires report.Valid()
    modifies report
    ensures report.Valid()
    ensures var g := FaceVerification.DetectGazeDeviation(t.mesh, FaceVerification.DefaultEarThreshold);
      warning == GazeWarningOf(g) &&
      report.gazeEvents == old(report.gazeEvents) +
        (if !g.noFace && g.deviated then [Report.GazeEvent(t.stamp, GazeReason(g.direction))] else [])
    ensures report.events == old(report.events) && report.voiceEvents == old(report.voiceEvents)
  {
    var g := FaceVerification.DetectGazeDeviation(t.mesh, FaceVerification.DefaultEarThreshold);
    warning := None;
    if g.noFace {
      warning := Some(NoFaceWarning);
    } else if g.deviated {
      var reason := GazeReason(g.direction);
      warning := Some(GazeWarning(reason));
      report.AddGazeEvent(t.stamp, reason);
    }
  }

  /** The light and noise check: the detector is called again only in the noise branch. */
  method CheckAmbient(vad: VoiceActivity.VoiceActivityDetector, t: Tick, warning: Option<Warning>)
    returns (warning': Option<Warning>)
    modifies vad
    ensures var second := VoiceActivity.Step(old(vad.State()), t.extraChunk.volume, t.extraChunk.time,
                                             vad.threshold, vad.requiredDuration);
      vad.State() == (if SecondCall(t) then second.0 else old(vad.State())) &&
      warning' == (var ambient := AmbientWarning(t.light, t.noise, SecondCall(t) && second.1);
                   if ambient.Some? then ambient else warning)
    ensures vad.closeCount == old(vad.closeCount)
  {
    warning' := warning;
    if t.light < LowLight {
      warning' := Some(LowLightWarning);
    } else {
      var heardAgain := false;
      if t.noise > HighNoise {
        heardAgain := vad.IsVoiceDetected(t.extraChunk.volume, t.extraChunk.time);
      }
      if heardAgain {
        warning' := Some(HighNoiseWarning);
      } else if t.noise > VeryHighNoise {
        warning' := Some(VeryHighNoiseWarning);
      }
    }
  }

  /** One frame after a successful read, as `ConsoleStep` describes it. */
  method ProcessFrame(report: Report.ReportGenerator, vad: VoiceActivity.VoiceActivityDetector, t: Tick,
                      details: seq<string>, images: seq<string>, ghost s: LoopState)
    returns (details': seq<string>, images': seq<string>, warning: Option<Warning>, exit: Option<Exit>)
    requires report.Valid()
    requires vad.threshold == VoiceActivity.DefaultThreshold && vad.requiredDuration == VoiceActivity.DefaultRequiredDuration
    requires s == LoopState(Evidence(report.events, details, images), report.gazeEvents, report.voiceEvents, vad.State())
    modifies report, vad
    ensures report.Valid() && vad.closeCount == old(vad.closeCount)
    ensures var r := ConsoleStep(s, t);
      LoopState(Evidence(report.events, details', images'), report.gazeEvents, report.voiceEvents, vad.State()) == r.state &&
      warning == r.warning && exit == r.exit
  {
    var msgs := ViolationMessages(t.detections);
    if msgs != [] {
      details', images' := RecordEvidence(report, msgs, details, images);
      return details', images', None, Some(Violation);
    }
    details', images' := details, images;
    warning := CheckGaze(report, t);
    var heard := vad.IsVoiceDetected(t.chunk.volume, t.chunk.time);
    if heard {
      report.AddVoiceEvent(t.stamp);
      warning := Some(VoiceWarning);
    }
    warning := CheckAmbient(vad, t, warning);
    exit := if t.quitKey then Some(Quit) else None;
  }

  // -------------------------------------------------------------- the loop

  datatype Run = Run(state: LoopState, warnings: seq<Option<Warning>>, exit: Exit)

  /**
   * The `while True` frame loop over the scripted frames: the script running
   * out counts as a failed read. A violation frame sets no warning; a 'q'
   * frame completes its checks first.
   */
  function ConsoleMonitor(s: LoopState, ticks: seq<Tick>): Run
    decreases |ticks|
  {
    if ticks == [] || !ticks[0].readOk then Run(s, [], ReadFailed)
    else
      var o := ConsoleStep(s, ticks[0]);
      if o.exit == Some(Violation) then Run(o.state, [], Violation)
      else if o.exit == Some(Quit) then Run(o.state, [o.warning], Quit)
      else
        var rest := ConsoleMonitor(o.state, ticks[1..]);
        Run(rest.state, [o.warning] + rest.warnings, rest.exit)
  }

  /** Warnings already computed, followed by the rest of the loop. */
  function After(warnings: seq<Option<Warning>>, r: Run): Run {
    Run(r.state, warnings + r.warnings, r.exit)
  }

  /** One iteration of `ConsoleMonitor` on a frame that was read. */
  lemma ConsoleMonitorStep(s: LoopState, ticks: seq<Tick>, warnings: seq<Option<Warning>>)
    requires ticks != [] && ticks[0].readOk
    ensures var o := ConsoleStep(s, ticks[0]);
      After(warnings, ConsoleMonitor(s, ticks)) ==
        if o.exit == Some(Violation) then Run(o.state, warnings, Violation)
        else if o.exit == Some(Quit) then Run(o.state, warnings + [o.warning], Quit)
        else After(warnings + [o.warning], ConsoleMonitor(o.state, ticks[1..]))
  {
    var o := ConsoleStep(s, ticks[0]);
    assert warnings + [] == warnings;
    if o.exit.None? {
      var r := ConsoleMonitor(o.state, ticks[1..]);
      assert warnings + ([o.warning] + r.warnings) == warnings + [o.warning] + r.warnings;
    }
  }

  /**
   * One pass of the loop body after a successful read, and where it leaves the
   * loop: `expected` is what the rest of the loop must still produce.
   */
  method Iterate(report: Report.ReportGenerator, vad: VoiceActivity.VoiceActivityDetector, t: Tick,
                 details: seq<string>, images: seq<string>, ghost cur: LoopState, ghost rest: seq<Tick>,
                 warnings: seq<Option<Warning>>, ghost expected: Run)
    returns (details': seq<string>, images': seq<string>, ghost next: LoopState,
             warnings': seq<Option<Warning>>, done: bool, ghost exit: Exit)
    requires rest != [] && rest[0] == t && t.readOk
    requires expected == After(warnings, ConsoleMonitor(cur, rest))
    requires report.Valid()
    requires vad.threshold == VoiceActivity.DefaultThreshold && vad.requiredDuration == VoiceActivity.DefaultRequiredDuration
    requires cur == LoopState(Evidence(report.events, details, images), report.gazeEvents, report.voiceEvents, vad.State())
    modifies report, vad
    ensures report.Valid() && vad.closeCount == old(vad.closeCount)
    ensures next == LoopState(Evidence(report.events, details', images'), report.gazeEvents, report.voiceEvents, vad.State())
    ensures !done ==> expected == After(warnings', ConsoleMonitor(next, rest[1..]))
    ensures done ==> expected == Run(next, warnings', exit) && exit in {Violation, Quit}
  {
    ConsoleMonitorStep(cur, rest, warnings);
    var warning, stop;
    details', images', warning, stop := ProcessFrame(report, vad, t, details, images, cur);
    next := ConsoleStep(cur, t).state;
    done, exit := stop.Some?, Quit;
    warnings' := warnings;
    if stop == Some(Violation) {
      exit := Violation;
    } else {
      warnings' := warnings + [warning];
    }
  }

  /** The frame loop: a failed read, a violation or 'q' ends it. */
  method MonitorFrames(report: Report.ReportGenerator, vad: VoiceActivity.VoiceActivityDetector, ticks: seq<Tick>)
    returns (details: seq<string>, images: seq<string>, warnings: seq<Option<Warning>>)
    requires report.Valid() && report.events == [] && report.gazeEvents == [] && report.voiceEvents == []
    requires vad.threshold == VoiceActivity.DefaultThreshold && vad.requiredDuration == VoiceActivity.DefaultRequiredDuration
    requires vad.State() == VoiceActivity.Idle
    modifies report, vad
    ensures report.Valid() && vad.closeCount == old(vad.closeCount)
    ensures var m := ConsoleMonitor(Start, ticks);
      m.state == LoopState(Evidence(report.events, details, images), report.gazeEvents, report.voiceEvents, vad.State()) &&
      warnings == m.warnings
  {
    details, images, warnings := [], [], [];
    ghost var expected := ConsoleMonitor(Start, ticks);
    ghost var cur := Start;
    ghost var exit: Exit := ReadFailed;
    assert ticks[0..] == ticks;
    assert expected == After([], ConsoleMonitor(cur, ticks[0..]));
    var i := 0;
    while true
      invariant 0 <= i <= |ticks| && report.Valid() && vad.closeCount == old(vad.closeCount)
      invariant cur == LoopState(Evidence(report.events, details, images), report.gazeEvents, report.voiceEvents, vad.State())
      invariant expected == After(warnings, ConsoleMonitor(cur, ticks[i..]))
      decreases |ticks| - i
    {
      if i == |ticks| || !ticks[i].readOk {
        assert ticks[i..] == [] || !ticks[i..][0].readOk;
        assert warnings + [] == warnings;
        break;
      }
      assert ticks[i..][1..] == ticks[i + 1..];
      var done;
      details, images, cur, warnings, done, exit := Iterate(report, vad, ticks[i], details, images, cur, ticks[i..],
                                                            warnings, expected);
      if done {
        break;
      }
      i := i + 1;
    }
  }

  /** The evidence stays in lockstep, with violation messages only, across the loop. */
  lemma {:induction false} ConsoleKeepsEvidence(s: LoopState, ticks: seq<Tick>)
    requires EvidenceOk(s.evidence)
    ensures EvidenceOk(ConsoleMonitor(s, ticks).state.evidence)
    decreases |ticks|
  {
    if ticks != [] && ticks[0].readOk {
      var o := ConsoleStep(s, ticks[0]);
      if o.exit.None? {
        ConsoleKeepsEvidence(o.state, ticks[1..]);
      }
    }
  }

  /** Evidence is recorded only by the frame that ends the loop with a violation. */
  lemma {:induction false} ConsoleEvidenceOnlyOnViolation(s: LoopState, ticks: seq<Tick>)
    ensures ConsoleMonitor(s, ticks).exit != Violation ==> ConsoleMonitor(s, ticks).state.evidence == s.evidence
    ensures ConsoleMonitor(s, ticks).exit == Violation ==>
      |ConsoleMonitor(s, ticks).state.evidence.details| > |s.evidence.details|
    decreases |ticks|
  {
    if ticks != [] && ticks[0].readOk {
      var o := ConsoleStep(s, ticks[0]);
      if o.exit.None? {
        ConsoleEvidenceOnlyOnViolation(o.state, ticks[1..]);
      }
    }
  }

  /**
   * What the loop leaves for the email: the success note exactly when the loop
   * did not stop on a violation, and the evidence file of every recorded event.
   */
  lemma ConsoleCleanIffNoViolation(ticks: seq<Tick>)
    ensures var m := ConsoleMonitor(Start, ticks);
      EmailAlert.IsClean(MailDetails(m.state.evidence.details)) <==> m.exit != Violation
    ensures var e := ConsoleMonitor(Start, ticks).state.evidence;
      |e.images| == |e.events| &&
      forall i :: 0 <= i < |e.images| ==> e.images[i] == Report.EventImagePath(i + 1)
  {
    var m := ConsoleMonitor(Start, ticks);
    ConsoleKeepsEvidence(Start, ticks);
    ConsoleEvidenceOnlyOnViolation(Start, ticks);
    MailCleanIffNoViolation(m.state.evidence.details);
  }

  // -------------------------------------------------------- the whole run

  /** What the console program prints or sends, in order. */
  datatype ConsoleEvent =
    | OtpMailed(to: string, otp: string)
    | OtpMismatch(attemptsLeft: int)
    | OtpAccepted
    | OtpRejected
    | PathMissing(path: string)
    | CaptureOpened
    | AudioOpened
    | InitialFrameMissing
    | IdentityRejected
    | IdentityAccepted
    | CaptureReleased
    | VoiceClosed
    | ReportWritten(path: string, document: seq<Report.Block>)
    | MailSent(request: MailRequest)
    | SessionOver

  /** After the loop: release, close, write the report, send the email, finish. */
  function Wrapup(candidateName: string, s: LoopState, coverExists: bool, loadable: set<string>): seq<ConsoleEvent> {
    var reportPath := Report.ReportPath(candidateName);
    [CaptureReleased, VoiceClosed,
     ReportWritten(reportPath, Report.Document(candidateName, s.evidence.events, s.gaze, s.voice, coverExists, loadable)),
     MailSent(MailRequest(candidateName, reportPath, MailDetails(s.evidence.details), s.evidence.images)),
     SessionOver]
  }

  /**
   * From the opened camera on: the detectors are built, which opens the audio
   * stream, then the first frame, the identity check and the session proper.
   */
  function CaptureEvents(candidateName: string, initialReadOk: bool, identityOk: bool, final: LoopState,
                         coverExists: bool, loadable: set<string>): seq<ConsoleEvent>
  {
    [CaptureOpened, AudioOpened] +
    if !initialReadOk then [InitialFrameMissing, CaptureReleased]
    else if !identityOk then [IdentityRejected, CaptureReleased]
    else [IdentityAccepted] + Wrapup(candidateName, final, coverExists, loadable)
  }

  /**
   * Everything `main` prints or sends, given the scripted answers, the outcome
   * of the two start checks and `final`, the state the frame loop ends in.
   */
  function ConsoleTrace(candidateName: string, candidateEmail: string, otp: string,
                        otpEntries: seq<string>, pathEntries: seq<string>, files: set<string>,
                        initialReadOk: bool, identityOk: bool, final: LoopState,
                        coverExists: bool, loadable: set<string>): seq<ConsoleEvent>
    requires |otpEntries| >= Attempts
  {
    var head := [OtpMailed(candidateEmail, otp)] + OtpEvents(otp, otpEntries);
    if FirstMatch(otp, Answers(otpEntries), 0) == Attempts then head
    else head + PathEvents(pathEntries, files) +
         CaptureEvents(candidateName, initialReadOk, identityOk, final, coverExists, loadable)
  }

  /** Neither a report nor an email among the events. */
  predicate Silent(events: seq<ConsoleEvent>) {
    forall i :: 0 <= i < |events| ==> !events[i].ReportWritten? && !events[i].MailSent?
  }

  /** What happens before the camera opens, the code mailed and checked and the path asked for, writes and closes nothing. */
  lemma PromptsSilent(otp: string, otpEntries: seq<string>, pathEntries: seq<string>, files: set<string>)
    requires |otpEntries| >= Attempts
    ensures Silent(OtpEvents(otp, otpEntries)) && Silent(PathEvents(pathEntries, files))
    ensures CaptureOpened !in OtpEvents(otp, otpEntries) && CaptureOpened !in PathEvents(pathEntries, files)
    ensures VoiceClosed !in OtpEvents(otp, otpEntries) && VoiceClosed !in PathEvents(pathEntries, files)
  {
    var n := FirstMatch(otp, Answers(otpEntries), 0);
    forall j | 0 <= j < n
      ensures Mismatches(n)[j].OtpMismatch?
    {
      MismatchesAt(n, j);
    }
    var answers := Answers(pathEntries);
    var m := FirstExisting(answers, files, 0);
    forall j | 0 <= j < m
      ensures Missing(answers, m)[j].PathMissing?
    {
      MissingAt(answers, m, j);
    }
  }

  /**
   * Three wrong codes end the program right after the rejection: the camera is
   * never opened and neither a report nor an email is produced.
   */
  lemma OtpFailureEndsEarly(candidateName: string, candidateEmail: string, otp: string,
                            otpEntries: seq<string>, pathEntries: seq<string>, files: set<string>,
                            initialReadOk: bool, identityOk: bool, final: LoopState,
                            coverExists: bool, loadable: set<string>)
    requires |otpEntries| >= Attempts && FirstMatch(otp, Answers(otpEntries), 0) == Attempts
    ensures ConsoleTrace(candidateName, candidateEmail, otp, otpEntries, pathEntries, files,
                         initialReadOk, identityOk, final, coverExists, loadable) ==
            [OtpMailed(candidateEmail, otp)] + [OtpMismatch(2), OtpMismatch(1), OtpMismatch(0), OtpRejected]
  {
    AllWrong(otp, otpEntries);
  }

  /** Three wrong answers print the attempts left as 2, 1 and 0, then the rejection. */
  lemma AllWrong(otp: string, entries: seq<string>)
    requires |entries| >= Attempts && FirstMatch(otp, Answers(entries), 0) == Attempts
    ensures OtpEvents(otp, entries) == [OtpMismatch(2), OtpMismatch(1), OtpMismatch(0), OtpRejected]
  {
    assert Mismatches(1) == [OtpMismatch(2)];
    assert Mismatches(2) == [OtpMismatch(2), OtpMismatch(1)];
  }

  /**
   * A missing first frame or a failed identity check releases the camera and
   * sends nothing; the audio stream opened before the check is never closed.
   */
  lemma StartFailureReleases(candidateName: string, candidateEmail: string, otp: string,
                             otpEntries: seq<string>, pathEntries: seq<string>, files: set<string>,
                             initialReadOk: bool, identityOk: bool, final: LoopState,
                             coverExists: bool, loadable: set<string>)
    requires |otpEntries| >= Attempts && FirstMatch(otp, Answers(otpEntries), 0) < Attempts
    requires !initialReadOk || !identityOk
    ensures var tr := ConsoleTrace(candidateName, candidateEmail, otp, otpEntries, pathEntries, files,
                                   initialReadOk, identityOk, final, coverExists, loadable);
      CaptureOpened in tr && AudioOpened in tr && VoiceClosed !in tr &&
      tr[|tr| - 1] == CaptureReleased && Silent(tr)
  {
    PromptsSilent(otp, otpEntries, pathEntries, files);
    var tr := ConsoleTrace(candidateName, candidateEmail, otp, otpEntries, pathEntries, files,
                           initialReadOk, identityOk, final, coverExists, loadable);
    var head := [OtpMailed(candidateEmail, otp)] + OtpEvents(otp, otpEntries) + PathEvents(pathEntries, files);
    var tail := CaptureEvents(candidateName, initialReadOk, identityOk, final, coverExists, loadable);
    assert tr == head + tail;
    assert tr[|head|] == CaptureOpened && tr[|head| + 1] == AudioOpened;
  }

  /**
   * Once the exam started, the program ends with exactly one report and one
   * email, in the order: camera released, audio closed, report written, email
   * sent. The report holds the loop's events; the email names the written
   * report and carries the loop's details and evidence files.
   */
  lemma OneReportOneMail(candidateName: string, candidateEmail: string, otp: string,
                         otpEntries: seq<string>, pathEntries: seq<string>, files: set<string>,
                         final: LoopState, coverExists: bool, loadable: set<string>)
    requires |otpEntries| >= Attempts && FirstMatch(otp, Answers(otpEntries), 0) < Attempts
    ensures var tr := ConsoleTrace(candidateName, candidateEmail, otp, otpEntries, pathEntries, files,
                                   true, true, final, coverExists, loadable);
      var n := |tr|;
      n >= 5 && tr[n - 5] == CaptureReleased && tr[n - 4] == VoiceClosed && tr[n - 1] == SessionOver &&
      Silent(tr[..n - 3]) &&
      tr[n - 3] == ReportWritten(Report.ReportPath(candidateName),
        Report.Document(candidateName, final.evidence.events, final.gaze, final.voice, coverExists, loadable)) &&
      tr[n - 2] == MailSent(MailRequest(candidateName, Report.ReportPath(candidateName),
                                        MailDetails(final.evidence.details), final.evidence.images))
  {
    var head := [OtpMailed(candidateEmail, otp)] + OtpEvents(otp, otpEntries) + PathEvents(pathEntries, files) +
                [CaptureOpened, AudioOpened, IdentityAccepted];
    OpeningSilent(candidateEmail, otp, otpEntries, pathEntries, files);
    SilentAppend(head[..|head| - 3], [CaptureOpened, AudioOpened, IdentityAccepted]);
    TraceWhenStarted(candidateName, candidateEmail, otp, otpEntries, pathEntries, files, final, coverExists, loadable);
    ClosingShape(head, candidateName, final, coverExists, loadable);
  }

  lemma TraceWhenStarted(candidateName: string, candidateEmail: string, otp: string,
                         otpEntries: seq<string>, pathEntries: seq<string>, files: set<string>,
                         final: LoopState, coverExists: bool, loadable: set<string>)
    requires |otpEntries| >= Attempts && FirstMatch(otp, Answers(otpEntries), 0) < Attempts
    ensures ConsoleTrace(candidateName, candidateEmail, otp, otpEntries, pathEntries, files,
                         true, true, final, coverExists, loadable) ==
            [OtpMailed(candidateEmail, otp)] + OtpEvents(otp, otpEntries) + PathEvents(pathEntries, files) +
            [CaptureOpened, AudioOpened, IdentityAccepted] + Wrapup(candidateName, final, coverExists, loadable)
  {
  }

  /** Silent events followed by the closing: the closing's five events end the trace, and only they write. */
  lemma ClosingShape(head: seq<ConsoleEvent>, candidateName: string, final: LoopState,
                     coverExists: bool, loadable: set<string>)
    requires Silent(head)
    ensures var tr := head + Wrapup(candidateName, final, coverExists, loadable);
      var n := |tr|;
      n >= 5 && tr[n - 5] == CaptureReleased && tr[n - 4] == VoiceClosed && tr[n - 1] == SessionOver &&
      Silent(tr[..n - 3]) &&
      tr[n - 3] == ReportWritten(Report.ReportPath(candidateName),
        Report.Document(candidateName, final.evidence.events, final.gaze, final.voice, coverExists, loadable)) &&
      tr[n - 2] == MailSent(MailRequest(candidateName, Report.ReportPath(candidateName),
                                        MailDetails(final.evidence.details), final.evidence.images))
  {
    var closing := Wrapup(candidateName, final, coverExists, loadable);
    var tr := head + closing;
    assert tr[..|tr| - 3] == head + closing[..2];
    SilentAppend(head, closing[..2]);
  }

  lemma OpeningSilent(candidateEmail: string, otp: string, otpEntries: seq<string>, pathEntries: seq<string>,
                      files: set<string>)
    requires |otpEntries| >= Attempts
    ensures Silent([OtpMailed(candidateEmail, otp)] + OtpEvents(otp, otpEntries) + PathEvents(pathEntries, files))
  {
    PromptsSilent(otp, otpEntries, pathEntries, files);
    SilentAppend([OtpMailed(candidateEmail, otp)], OtpEvents(otp, otpEntries));
    SilentAppend([OtpMailed(candidateEmail, otp)] + OtpEvents(otp, otpEntries), PathEvents(pathEntries, files));
  }

  lemma SilentAppend(a: seq<ConsoleEvent>, b: seq<ConsoleEvent>)
    requires Silent(a) && Silent(b)
    ensures Silent(a + b)
  {
  }

  /**
   * From opening the camera to the end of the program. The detectors and the
   * report are built before the first read; `verify_identity` is consulted
   * only once that read succeeded.
   */
  method CapturePhase(candidateName: string, initialReadOk: bool, refs: seq<FaceVerification.Encoding>,
                      lives: seq<FaceVerification.Encoding>, distance: (seq<real>, seq<real>) -> real,
                      ticks: seq<Tick>, coverExists: bool, loadable: set<string>)
    returns (events: seq<ConsoleEvent>, warnings: seq<Option<Warning>>)
    ensures var identityOk := FaceVerification.VerifyIdentity(refs, lives, distance, FaceVerification.DefaultTolerance);
      events == CaptureEvents(candidateName, initialReadOk, identityOk, ConsoleMonitor(Start, ticks).state,
                              coverExists, loadable) &&
      warnings == if initialReadOk && identityOk then ConsoleMonitor(Start, ticks).warnings else []
  {
    events := [CaptureOpened];
    warnings := [];
    var vad := new VoiceActivity.VoiceActivityDetector(VoiceActivity.DefaultThreshold, VoiceActivity.DefaultRequiredDuration);
    events := events + [AudioOpened];
    var report := new Report.ReportGenerator(candidateName);
    if !initialReadOk {
      events := events + [InitialFrameMissing, CaptureReleased];
      return;
    }
    if !FaceVerification.VerifyIdentity(refs, lives, distance, FaceVerification.DefaultTolerance) {
      events := events + [IdentityRejected, CaptureReleased];
      return;
    }
    events := events + [IdentityAccepted];
    var details, images;
    details, images, warnings := MonitorFrames(report, vad, ticks);
    var closing := Finish(report, vad, details, images, coverExists, loadable, ConsoleMonitor(Start, ticks).state);
    events := events + closing;
  }

  /** After the loop: release the camera, close the audio, write the report and send the email. */
  method Finish(report: Report.ReportGenerator, vad: VoiceActivity.VoiceActivityDetector,
                details: seq<string>, images: seq<string>, coverExists: bool, loadable: set<string>, ghost s: LoopState)
    returns (events: seq<ConsoleEvent>)
    requires s == LoopState(Evidence(report.events, details, images), report.gazeEvents, report.voiceEvents, vad.State())
    modifies vad
    ensures events == Wrapup(report.candidateName, s, coverExists, loadable)
    ensures vad.closeCount == old(vad.closeCount) + 1
  {
    events := [CaptureReleased];
    vad.Close();
    events := events + [VoiceClosed];
    var reportPath, document := report.GenerateReport(coverExists, loadable);
    events := events + [ReportWritten(reportPath, document)];
    events := events + [MailSent(MailRequest(report.candidateName, reportPath, MailDetails(details), images)), SessionOver];
  }

  /**
   * `main`. `nameInput` and `emailInput` are the first two answers, `draw` the
   * random integer behind the code, `otpEntries` and `pathEntries` the answers
   * to the two prompts, `files` the files on disk; `refs`, `lives` and
   * `distance` are the face encoder's view of the photo and the first frame.
   * `warnings` is the final `warning_message` of every frame that got past the
   * violation checks.
   */
  method ProctorMain(nameInput: string, emailInput: string, draw: int,
                     otpEntries: seq<string>, pathEntries: seq<string>, files: set<string>,
                     initialReadOk: bool, refs: seq<FaceVerification.Encoding>, lives: seq<FaceVerification.Encoding>,
                     distance: (seq<real>, seq<real>) -> real, ticks: seq<Tick>,
                     coverExists: bool, loadable: set<string>)
    returns (events: seq<ConsoleEvent>, warnings: seq<Option<Warning>>)
    requires 100000 <= draw <= 999999
    requires |otpEntries| >= Attempts
    requires SomeExisting(Answers(pathEntries), files)
    ensures var identityOk := FaceVerification.VerifyIdentity(refs, lives, distance, FaceVerification.DefaultTolerance);
      events == ConsoleTrace(Text.Strip(nameInput), Text.Strip(emailInput), EmailAlert.GenerateOtp(draw),
                             otpEntries, pathEntries, files, initialReadOk, identityOk, ConsoleMonitor(Start, ticks).state,
                             coverExists, loadable)
    ensures warnings == if FirstMatch(EmailAlert.GenerateOtp(draw), Answers(otpEntries), 0) < Attempts && initialReadOk &&
                           FaceVerification.VerifyIdentity(refs, lives, distance, FaceVerification.DefaultTolerance)
                        then ConsoleMonitor(Start, ticks).warnings else []
  {
    var candidateName := Text.Strip(nameInput);
    var candidateEmail := Text.Strip(emailInput);
    var otp := EmailAlert.GenerateOtp(draw);
    var verified, otpEvents := CheckOtp(otp, otpEntries);
    events := [OtpMailed(candidateEmail, otp)] + otpEvents;
    warnings := [];
    if !verified {
      return;
    }
    var referenceImagePath, pathEvents := AskReferencePath(pathEntries, files);
    var captureEvents;
    captureEvents, warnings := CapturePhase(candidateName, initialReadOk, refs, lives, distance, ticks, coverExists, loadable);
    events := events + pathEvents + captureEvents;
  }
}
