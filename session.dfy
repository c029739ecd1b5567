/**
 * The windowed proctoring session (main.py).
 *
 * `ProctoringSession.Run` checks the candidate's face once, then loops over
 * camera frames while `sessionActive` holds. A malpractice object or a second
 * person records evidence and ends the loop at once; gaze, voice, light and
 * noise only produce status updates (gaze and voice also add report entries).
 * After the loop the camera is released, the voice stream closed, the report
 * written and the examiner emailed. An exception anywhere in `run` ends it
 * with an error status carrying the exception's text and the end message
 * "Error"; the steps after the one that raised do not happen. Everything the
 * session sends to the window and to the outside world is recorded, in order,
 * in `signals`.
 */
module Session {
  import opened Wrappers
  import Text
  import ObjectDetection
  import FaceVerification
  import VoiceActivity
  import Report
  import EmailAlert
  import opened Monitoring

  /** The status texts the session sends to the window. */
  datatype Status =
    | IdentityFailed | IdentityVerified | Terminating | NoFaceSeen
    | GazeDeviation(direction: FaceVerification.Direction) | VoiceHeard
    | LowLighting | HighNoiseLevel | ReportEmailed | ErrorOccurred(message: string)

  function StatusText(s: Status): string {
    match s
    case IdentityFailed => "\U{274C} Identity verification failed. Ending exam."
    case IdentityVerified => "\U{2705} Identity verified. Starting proctoring..."
    case Terminating => "\U{274C} Malpractice detected. Terminating exam."
    case NoFaceSeen => "\U{26A0}\U{FE0F} No face detected."
    case GazeDeviation(d) => "\U{1F440} Gaze Deviation: " + FaceVerification.DirectionText(d)
    case VoiceHeard => "\U{1F3A4} Voice Detected!"
    case LowLighting => "\U{26A0}\U{FE0F} Low lighting."
    case HighNoiseLevel => "\U{26A0}\U{FE0F} High noise level."
    case ReportEmailed => "\U{2705} Session ended. Report emailed."
    case ErrorOccurred(message) => "\U{274C} Error occurred: " + message
  }

  /** The final message of a session. A normal end always says malpractice was detected. */
  datatype EndReason = VerificationFailed | ExamEnded | ErrorEnd

  function EndText(r: EndReason): string {
    match r
    case VerificationFailed => "Verification failed."
    case ExamEnded => "Malpractice detected. Exam ended."
    case ErrorEnd => "Error"
  }

  /** One observable effect of the session. */
  datatype Signal =
    | StatusUpdated(status: Status)
    | SessionEnded(reason: EndReason)
    | CaptureReleased
    | VoiceClosed
    | ReportWritten(path: string, document: seq<Report.Block>)
    | EmailSent(request: MailRequest)

  predicate AllStatus(sigs: seq<Signal>) {
    forall i :: 0 <= i < |sigs| ==> sigs[i].StatusUpdated?
  }

  datatype TickOutcome = TickOutcome(state: LoopState, emitted: seq<Signal>, stop: bool)

  /** The gaze check: a deviation adds a report entry; no face and a deviation each send a status. */
  function GazeStage(gaze: seq<Report.GazeEvent>, t: Tick): (r: (seq<Report.GazeEvent>, seq<Signal>))
    ensures AllStatus(r.1)
  {
    var g := FaceVerification.DetectGazeDeviation(t.mesh, FaceVerification.DefaultEarThreshold);
    if g.noFace then (gaze, [StatusUpdated(NoFaceSeen)])
    else if g.deviated then
      (gaze + [Report.GazeEvent(t.stamp, FaceVerification.DirectionText(g.direction.value))],
       [StatusUpdated(GazeDeviation(g.direction.value))])
    else (gaze, [])
  }

  /** The voice check: one detector step on the frame's audio; a detection adds a report entry and a status. */
  function VoiceStage(voice: seq<string>, vad: VoiceActivity.VadState, t: Tick)
    : (r: (seq<string>, VoiceActivity.VadState, seq<Signal>))
    ensures AllStatus(r.2)
    ensures VoiceActivity.Inv(vad) ==> VoiceActivity.Inv(r.1)
  {
    var (vad', heard) := VoiceActivity.Step(vad, t.chunk.volume, t.chunk.time,
                                            VoiceActivity.DefaultThreshold, VoiceActivity.DefaultRequiredDuration);
    if heard then (voice + [t.stamp], vad', [StatusUpdated(VoiceHeard)]) else (voice, vad', [])
  }

  /** The light and noise warnings: both may be sent in the same frame. */
  function AmbientSignals(t: Tick): (r: seq<Signal>)
    ensures AllStatus(r)
  {
    (if t.light < LowLight then [StatusUpdated(LowLighting)] else []) +
    (if t.noise > HighNoise then [StatusUpdated(HighNoiseLevel)] else [])
  }

  /** One loop iteration after a successful read. */
  function TickStep(s: LoopState, t: Tick): (r: TickOutcome)
    ensures AllStatus(r.emitted)
  {
    var msgs := ViolationMessages(t.detections);
    if msgs != [] then
      TickOutcome(s.(evidence := RecordAll(s.evidence, msgs)), [StatusUpdated(Terminating)], true)
    else
      var (gaze, gazeSignals) := GazeStage(s.gaze, t);
      var (voice, vad, voiceSignals) := VoiceStage(s.voice, s.vad, t);
      TickOutcome(LoopState(s.evidence, gaze, voice, vad), gazeSignals + voiceSignals + AmbientSignals(t), false)
  }

  /** What one iteration does to the loop's state. */
  lemma TickStepEffects(s: LoopState, t: Tick)
    // A violation records its messages, says so, and stops; nothing else is checked.
    ensures var r := TickStep(s, t);
      (r.stop <==> ViolationMessages(t.detections) != []) &&
      (r.stop ==> r.state == s.(evidence := RecordAll(s.evidence, ViolationMessages(t.detections))) &&
                  r.emitted == [StatusUpdated(Terminating)])
    // Without a violation the evidence is untouched, and a gaze entry is added exactly on a deviation.
    ensures var r := TickStep(s, t);
      !r.stop ==> (r.state.evidence == s.evidence &&
        |r.state.gaze| == |s.gaze| + (if FaceVerification.DetectGazeDeviation(t.mesh, FaceVerification.DefaultEarThreshold).deviated then 1 else 0))
    ensures EvidenceOk(s.evidence) ==> EvidenceOk(TickStep(s, t).state.evidence)
    ensures VoiceActivity.Inv(s.vad) ==> VoiceActivity.Inv(TickStep(s, t).state.vad)
  {
  }

  /** Why the loop stopped. */
  datatype Exit = ReadFailed | Cancelled | Violation | Faulted(message: string)

  datatype LoopResult = LoopResult(state: LoopState, emitted: seq<Signal>, exit: Exit)

  /**
   * The loop over the scripted frames, entered with `session_active` set. The
   * script running out counts as a failed read; a cancelled iteration is
   * completed and the loop then stops at its test.
   */
  function Monitor(s: LoopState, ticks: seq<Tick>): (r: LoopResult)
    ensures AllStatus(r.emitted)
    decreases |ticks|
  {
    if ticks == [] then LoopResult(s, [], ReadFailed)
    else
      var t := ticks[0];
      if t.fault.Some? then LoopResult(s, [], Faulted(t.fault.value))
      else if !t.readOk then LoopResult(s, [], ReadFailed)
      else
        var o := TickStep(s, t);
        if o.stop then LoopResult(o.state, o.emitted, Violation)
        else if t.cancelled then LoopResult(o.state, o.emitted, Cancelled)
        else
          var rest := Monitor(o.state, ticks[1..]);
          LoopResult(rest.state, o.emitted + rest.emitted, rest.exit)
  }

  /** Signals already sent, followed by the rest of the loop. */
  function After(emitted: seq<Signal>, r: LoopResult): LoopResult {
    LoopResult(r.state, emitted + r.emitted, r.exit)
  }

  lemma AppendAssoc<T>(a: seq<T>, b: seq<T>, c: seq<T>)
    ensures a + b + c == a + (b + c)
  {
  }

  /** A failed read, or the end of the frames, ends `Monitor`; an exception there makes it a fault. */
  lemma MonitorEnds(cur: LoopState, ticks: seq<Tick>, i: nat, emitted: seq<Signal>)
    requires i <= |ticks| && (i == |ticks| || ticks[i].fault.Some? || !ticks[i].readOk)
    ensures After(emitted, Monitor(cur, ticks[i..])) ==
      LoopResult(cur, emitted, if i < |ticks| && ticks[i].fault.Some? then Faulted(ticks[i].fault.value) else ReadFailed)
  {
    assert emitted + [] == emitted;
    if i < |ticks| {
      assert ticks[i..][0] == ticks[i];
    }
  }

  /** One iteration of `Monitor` at position `i`, for the imperative loop. */
  lemma MonitorAt(cur: LoopState, ticks: seq<Tick>, i: nat, emitted: seq<Signal>)
    requires i < |ticks| && ticks[i].fault.None? && ticks[i].readOk
    ensures var o := TickStep(cur, ticks[i]);
      After(emitted, Monitor(cur, ticks[i..])) ==
        if o.stop then LoopResult(o.state, emitted + o.emitted, Violation)
        else if ticks[i].cancelled then LoopResult(o.state, emitted + o.emitted, Cancelled)
        else After(emitted + o.emitted, Monitor(o.state, ticks[i + 1..]))
  {
    assert ticks[i..][0] == ticks[i] && ticks[i..][1..] == ticks[i + 1..];
    var o := TickStep(cur, ticks[i]);
    var r := Monitor(o.state, ticks[i + 1..]);
    assert emitted + (o.emitted + r.emitted) == emitted + o.emitted + r.emitted;
  }

  /** The loop from the start, or no iteration at all when the exam was ended before it began. */
  function Loop(active: bool, ticks: seq<Tick>): (r: LoopResult)
    ensures AllStatus(r.emitted)
  {
    if active then Monitor(Start, ticks) else LoopResult(Start, [], Cancelled)
  }

  /** The report `generate_report` writes from the loop's final state. */
  function ReportSignal(candidateName: string, s: LoopState, coverExists: bool, loadable: set<string>): Signal {
    ReportWritten(Report.ReportPath(candidateName),
                  Report.Document(candidateName, s.evidence.events, s.gaze, s.voice, coverExists, loadable))
  }

  /** The examiner email built from the loop's final details and evidence paths. */
  function EmailSignal(candidateName: string, s: LoopState): Signal {
    EmailSent(MailRequest(candidateName, Report.ReportPath(candidateName), MailDetails(s.evidence.details),
                          s.evidence.images))
  }

  /** The error status with the exception's text, then the end message "Error". */
  function ErrorSignals(message: string): seq<Signal> {
    [StatusUpdated(ErrorOccurred(message)), SessionEnded(ErrorEnd)]
  }

  /** The steps after the loop that can raise, each with the text of its exception when it does. */
  datatype Raises = Raises(close: Option<string>, report: Option<string>, email: Option<string>)

  const NothingRaises: Raises := Raises(None, None, None)

  /** The outcome of the identity check on the first frame. */
  datatype Identity = Passed | Failed | CheckRaised(message: string)

  /**
   * The test at the start of `run`: a failed first read fails it without
   * calling `verify_identity`; otherwise an exception from that call ends the
   * session before its answer counts.
   */
  function IdentityCheck(readOk: bool, raised: Option<string>, passes: bool): Identity {
    if !readOk then Failed
    else if raised.Some? then CheckRaised(raised.value)
    else if passes then Passed else Failed
  }

  /**
   * The clean-up after a loop that did not raise: the camera is released, the
   * voice stream closed, the report written and the email sent. The first of
   * the last three steps that raises ends the session with its error, and the
   * steps after it do not happen.
   */
  function Cleanup(written: Signal, sent: Signal, raises: Raises): seq<Signal> {
    [CaptureReleased] +
    if raises.close.Some? then ErrorSignals(raises.close.value)
    else
      [VoiceClosed] +
      if raises.report.Some? then ErrorSignals(raises.report.value)
      else
        [written] +
        if raises.email.Some? then ErrorSignals(raises.email.value)
        else [sent, StatusUpdated(ReportEmailed), SessionEnded(ExamEnded)]
  }

  /** What follows the loop: an exception in it ends the session at once; otherwise the clean-up. */
  function Closing(exit: Exit, written: Signal, sent: Signal, raises: Raises): seq<Signal> {
    if exit.Faulted? then ErrorSignals(exit.message) else Cleanup(written, sent, raises)
  }

  /** Everything `run` signals, in order. */
  function SessionTrace(candidateName: string, active: bool, identity: Identity, ticks: seq<Tick>,
                        coverExists: bool, loadable: set<string>, raises: Raises): seq<Signal>
  {
    match identity
    case Failed => [StatusUpdated(IdentityFailed), CaptureReleased, SessionEnded(VerificationFailed)]
    case CheckRaised(message) => ErrorSignals(message)
    case Passed =>
      var m := Loop(active, ticks);
      [StatusUpdated(IdentityVerified)] + m.emitted +
      Closing(m.exit, ReportSignal(candidateName, m.state, coverExists, loadable),
              EmailSignal(candidateName, m.state), raises)
  }

  lemma TraceVerified(candidateName: string, active: bool, ticks: seq<Tick>,
                      coverExists: bool, loadable: set<string>, raises: Raises)
    ensures var m := Loop(active, ticks);
      SessionTrace(candidateName, active, Passed, ticks, coverExists, loadable, raises) ==
        [StatusUpdated(IdentityVerified)] + m.emitted +
        Closing(m.exit, ReportSignal(candidateName, m.state, coverExists, loadable),
                EmailSignal(candidateName, m.state), raises)
  {
  }

  /** The evidence stays in lockstep, with violation messages only, across the whole loop. */
  lemma {:induction false} MonitorKeepsEvidence(s: LoopState, ticks: seq<Tick>)
    requires EvidenceOk(s.evidence)
    ensures EvidenceOk(Monitor(s, ticks).state.evidence)
    decreases |ticks|
  {
    if ticks != [] && ticks[0].fault.None? && ticks[0].readOk {
      var o := TickStep(s, ticks[0]);
      TickStepEffects(s, ticks[0]);
      if !o.stop && !ticks[0].cancelled {
        MonitorKeepsEvidence(o.state, ticks[1..]);
      }
    }
  }

  /** Evidence is recorded only by the iteration that ends the loop with a violation. */
  lemma {:induction false} EvidenceOnlyOnViolation(s: LoopState, ticks: seq<Tick>)
    ensures Monitor(s, ticks).exit != Violation ==> Monitor(s, ticks).state.evidence == s.evidence
    ensures Monitor(s, ticks).exit == Violation ==>
      |Monitor(s, ticks).state.evidence.details| > |s.evidence.details|
    decreases |ticks|
  {
    if ticks != [] && ticks[0].fault.None? && ticks[0].readOk {
      var o := TickStep(s, ticks[0]);
      TickStepEffects(s, ticks[0]);
      if !o.stop && !ticks[0].cancelled {
        EvidenceOnlyOnViolation(o.state, ticks[1..]);
      }
    }
  }

  /** A cancelled iteration is the last one: the frames after it are never looked at. */
  lemma {:induction false} CancelStopsAtBoundary(s: LoopState, ticks: seq<Tick>, k: nat)
    requires k < |ticks| && ticks[k].cancelled
    ensures Monitor(s, ticks) == Monitor(s, ticks[..k + 1])
    decreases k
  {
    assert ticks[..k + 1][0] == ticks[0];
    if k > 0 && ticks[0].fault.None? && ticks[0].readOk {
      var o := TickStep(s, ticks[0]);
      if !o.stop && !ticks[0].cancelled {
        CancelStopsAtBoundary(o.state, ticks[1..], k - 1);
        assert ticks[1..][..k] == ticks[..k + 1][1..];
      }
    }
  }

  /** The examiner's email is the success note exactly when the loop did not stop on a violation. */
  lemma CleanEmailIffNoViolation(active: bool, ticks: seq<Tick>)
    ensures var m := Loop(active, ticks);
      EmailAlert.IsClean(MailDetails(m.state.evidence.details)) <==> m.exit != Violation
  {
    var m := Loop(active, ticks);
    if active {
      MonitorKeepsEvidence(Start, ticks);
      EvidenceOnlyOnViolation(Start, ticks);
    }
    MailCleanIffNoViolation(m.state.evidence.details);
  }

  function CountEmails(sigs: seq<Signal>): nat {
    if sigs == [] then 0 else (if sigs[0].EmailSent? then 1 else 0) + CountEmails(sigs[1..])
  }

  function CountReports(sigs: seq<Signal>): nat {
    if sigs == [] then 0 else (if sigs[0].ReportWritten? then 1 else 0) + CountReports(sigs[1..])
  }

  lemma {:induction false} CountsAppend(a: seq<Signal>, b: seq<Signal>)
    ensures CountEmails(a + b) == CountEmails(a) + CountEmails(b)
    ensures CountReports(a + b) == CountReports(a) + CountReports(b)
  {
    if a == [] {
      assert a + b == b;
    } else {
      assert (a + b)[1..] == a[1..] + b;
      CountsAppend(a[1..], b);
    }
  }

  /** Neither a report nor an email among the signals. */
  predicate NoOutput(sigs: seq<Signal>) {
    forall i :: 0 <= i < |sigs| ==> !sigs[i].EmailSent? && !sigs[i].ReportWritten?
  }

  lemma {:induction false} NoOutputCountsNothing(sigs: seq<Signal>)
    requires NoOutput(sigs)
    ensures CountEmails(sigs) == 0 && CountReports(sigs) == 0
  {
    if sigs != [] {
      NoOutputCountsNothing(sigs[1..]);
    }
  }

  lemma CountsSingle(x: Signal)
    ensures CountEmails([x]) == (if x.EmailSent? then 1 else 0)
    ensures CountReports([x]) == (if x.ReportWritten? then 1 else 0)
  {
    assert [x][1..] == [];
  }

  /**
   * The clean-up releases the camera first. It writes one report, third, unless
   * closing the stream or writing raises, and sends one email exactly when
   * nothing raises. It ends normally exactly when nothing raises; otherwise the
   * error status comes just before the end.
   */
  lemma CleanupOutputs(written: Signal, sent: Signal, raises: Raises)
    requires written.ReportWritten? && sent.EmailSent?
    ensures var c := Cleanup(written, sent, raises);
      |c| >= 3 && c[0] == CaptureReleased && (VoiceClosed in c <==> raises.close.None?) &&
      CountReports(c) == (if raises.close.None? && raises.report.None? then 1 else 0) &&
      (forall k :: 0 <= k < |c| && c[k].ReportWritten? ==> k == 2 && c[k] == written) &&
      CountEmails(c) == (if raises == NothingRaises then 1 else 0) &&
      c[|c| - 1] == SessionEnded(if raises == NothingRaises then ExamEnded else ErrorEnd) &&
      (raises != NothingRaises ==> c[|c| - 2].StatusUpdated? && c[|c| - 2].status.ErrorOccurred?)
  {
    var c := Cleanup(written, sent, raises);
    if raises.close.Some? {
      assert c == [CaptureReleased, StatusUpdated(ErrorOccurred(raises.close.value)), SessionEnded(ErrorEnd)];
      assert NoOutput(c);
      NoOutputCountsNothing(c);
    } else if raises.report.Some? {
      assert c == [CaptureReleased, VoiceClosed, StatusUpdated(ErrorOccurred(raises.report.value)), SessionEnded(ErrorEnd)];
      assert NoOutput(c);
      NoOutputCountsNothing(c);
    } else {
      var released := [CaptureReleased, VoiceClosed];
      var tail := if raises.email.Some? then ErrorSignals(raises.email.value)
                  else [sent, StatusUpdated(ReportEmailed), SessionEnded(ExamEnded)];
      assert c == released + ([written] + tail);
      NoOutputCountsNothing(released);
      CountsAppend(released, [written] + tail);
      CountsAppend([written], tail);
      CountsSingle(written);
      if raises.email.Some? {
        NoOutputCountsNothing(tail);
      } else {
        assert tail == [sent] + tail[1..];
        CountsAppend([sent], tail[1..]);
        CountsSingle(sent);
        NoOutputCountsNothing(tail[1..]);
      }
    }
  }

  /**
   * After a verified start and a loop that did not raise, the camera is released
   * before any report is written; one report is written unless closing the
   * stream or writing it raises, and one email goes out exactly when nothing raises.
   */
  lemma OneReportOneEmail(candidateName: string, active: bool, ticks: seq<Tick>,
                          coverExists: bool, loadable: set<string>, raises: Raises)
    requires !Loop(active, ticks).exit.Faulted?
    ensures var tr := SessionTrace(candidateName, active, Passed, ticks, coverExists, loadable, raises);
      CountReports(tr) == (if raises.close.None? && raises.report.None? then 1 else 0) &&
      CountEmails(tr) == (if raises == NothingRaises then 1 else 0) &&
      CaptureReleased in tr &&
      forall j :: 0 <= j < |tr| && tr[j].ReportWritten? ==> exists i :: 0 <= i < j && tr[i] == CaptureReleased
  {
    var m := Loop(active, ticks);
    var head := [StatusUpdated(IdentityVerified)] + m.emitted;
    var written := ReportSignal(candidateName, m.state, coverExists, loadable);
    var c := Cleanup(written, EmailSignal(candidateName, m.state), raises);
    var tr := SessionTrace(candidateName, active, Passed, ticks, coverExists, loadable, raises);
    assert tr == head + c;
    assert NoOutput(head);
    NoOutputCountsNothing(head);
    CountsAppend(head, c);
    CleanupOutputs(written, EmailSignal(candidateName, m.state), raises);
    assert tr[|head|] == CaptureReleased;
    forall j | 0 <= j < |tr| && tr[j].ReportWritten?
      ensures exists i :: 0 <= i < j && tr[i] == CaptureReleased
    {
      assert j >= |head| && c[j - |head|] == tr[j];
    }
  }

  /** A failed identity check releases the camera and ends with no report and no email. */
  lemma VerificationFailureEndsEarly(candidateName: string, active: bool, ticks: seq<Tick>,
                                     coverExists: bool, loadable: set<string>, raises: Raises)
    ensures var tr := SessionTrace(candidateName, active, Failed, ticks, coverExists, loadable, raises);
      CaptureReleased in tr && CountReports(tr) == 0 && CountEmails(tr) == 0 &&
      tr[|tr| - 1] == SessionEnded(VerificationFailed)
  {
    var tr := SessionTrace(candidateName, active, Failed, ticks, coverExists, loadable, raises);
    assert tr[1] == CaptureReleased;
    NoOutputCountsNothing(tr);
  }

  /**
   * An exception in the identity check or in the loop ends the session with its
   * text and "Error", without releasing the camera, writing a report or sending
   * the email.
   */
  lemma FaultSkipsCleanup(candidateName: string, active: bool, identity: Identity, ticks: seq<Tick>,
                          coverExists: bool, loadable: set<string>, raises: Raises)
    requires identity.CheckRaised? || (identity == Passed && Loop(active, ticks).exit.Faulted?)
    ensures var tr := SessionTrace(candidateName, active, identity, ticks, coverExists, loadable, raises);
      var message := if identity.CheckRaised? then identity.message else Loop(active, ticks).exit.message;
      |tr| >= 2 && CaptureReleased !in tr && CountReports(tr) == 0 && CountEmails(tr) == 0 &&
      tr[|tr| - 2..] == ErrorSignals(message)
  {
    var m := Loop(active, ticks);
    var written := ReportSignal(candidateName, m.state, coverExists, loadable);
    var sent := EmailSignal(candidateName, m.state);
    if identity.CheckRaised? {
      FaultedClosing([], Faulted(identity.message), written, sent, raises);
      assert [] + Closing(Faulted(identity.message), written, sent, raises) == ErrorSignals(identity.message);
    } else {
      TraceVerified(candidateName, active, ticks, coverExists, loadable, raises);
      FaultedClosing([StatusUpdated(IdentityVerified)] + m.emitted, m.exit, written, sent, raises);
    }
  }

  /** Status updates followed by the closing of a faulted loop: no release, no output, and the error at the end. */
  lemma FaultedClosing(head: seq<Signal>, exit: Exit, written: Signal, sent: Signal, raises: Raises)
    requires AllStatus(head) && exit.Faulted?
    ensures var tr := head + Closing(exit, written, sent, raises);
      |tr| >= 2 && CaptureReleased !in tr && CountReports(tr) == 0 && CountEmails(tr) == 0 &&
      tr[|tr| - 2..] == ErrorSignals(exit.message)
  {
    var errors := ErrorSignals(exit.message);
    assert NoOutput(head) && NoOutput(errors);
    NoOutputCountsNothing(head);
    NoOutputCountsNothing(errors);
    CountsAppend(head, errors);
    assert CaptureReleased !in head;
    assert (head + errors)[|head + errors| - 2..] == errors;
  }

  /**
   * Every run ends with its end message: "Verification failed." after a failed
   * check, "Error" when anything raised, and the normal end otherwise.
   */
  lemma EveryRunEnds(candidateName: string, active: bool, identity: Identity, ticks: seq<Tick>,
                     coverExists: bool, loadable: set<string>, raises: Raises)
    ensures var tr := SessionTrace(candidateName, active, identity, ticks, coverExists, loadable, raises);
      |tr| >= 2 && tr[|tr| - 1] == SessionEnded(
        if identity == Failed then VerificationFailed
        else if identity.CheckRaised? || Loop(active, ticks).exit.Faulted? || raises != NothingRaises then ErrorEnd
        else ExamEnded)
  {
    var m := Loop(active, ticks);
    if identity == Passed {
      var written := ReportSignal(candidateName, m.state, coverExists, loadable);
      var sent := EmailSignal(candidateName, m.state);
      var head := [StatusUpdated(IdentityVerified)] + m.emitted;
      var c := Closing(m.exit, written, sent, raises);
      if !m.exit.Faulted? {
        CleanupOutputs(written, sent, raises);
      }
      assert (head + c)[|head + c| - 1] == c[|c| - 1];
    }
  }

  class ProctoringSession {
    const candidateName: string
    const candidateEmail: string
    const referenceImagePath: string
    /** Cleared by a violation, or from the window by `App.EndExam`. */
    var sessionActive: bool
    /** Everything sent so far: status updates, the end message and the outside effects. */
    var signals: seq<Signal>

    constructor (candidateName: string, candidateEmail: string, referenceImagePath: string)
      ensures this.candidateName == candidateName && this.candidateEmail == candidateEmail
      ensures this.referenceImagePath == referenceImagePath
      ensures sessionActive && signals == []
    {
      this.candidateName := candidateName;
      this.candidateEmail := candidateEmail;
      this.referenceImagePath := referenceImagePath;
      sessionActive := true;
      signals := [];
    }

    /** The violation branch: every message becomes a report event with the frame saved, then the loop is told to stop. */
    method RecordViolations(report: Report.ReportGenerator, msgs: seq<string>, details: seq<string>, images: seq<string>)
      returns (details': seq<string>, images': seq<string>)
      requires report.Valid()
      modifies this, report
      ensures report.Valid()
      ensures Evidence(report.events, details', images') == RecordAll(Evidence(old(report.events), details, images), msgs)
      ensures report.gazeEvents == old(report.gazeEvents) && report.voiceEvents == old(report.voiceEvents)
      ensures signals == old(signals) + [StatusUpdated(Terminating)] && !sessionActive
    {
      details', images' := RecordEvidence(report, msgs, details, images);
      signals := signals + [StatusUpdated(Terminating)];
      sessionActive := false;
    }

    method ObserveGaze(report: Report.ReportGenerator, t: Tick)
      requires report.Valid()
      modifies this, report
      ensures report.Valid() && sessionActive == old(sessionActive)
      ensures report.gazeEvents == GazeStage(old(report.gazeEvents), t).0
      ensures signals == old(signals) + GazeStage(old(report.gazeEvents), t).1
      ensures report.events == old(report.events) && report.voiceEvents == old(report.voiceEvents)
    {
      var g := FaceVerification.DetectGazeDeviation(t.mesh, FaceVerification.DefaultEarThreshold);
      if g.noFace {
        signals := signals + [StatusUpdated(NoFaceSeen)];
      } else if g.deviated {
        report.AddGazeEvent(t.stamp, FaceVerification.DirectionText(g.direction.value));
        signals := signals + [StatusUpdated(GazeDeviation(g.direction.value))];
      }
    }

    method ObserveVoice(report: Report.ReportGenerator, vad: VoiceActivity.VoiceActivityDetector, t: Tick)
      requires report.Valid()
      requires vad.threshold == VoiceActivity.DefaultThreshold && vad.requiredDuration == VoiceActivity.DefaultRequiredDuration
      modifies this, report, vad
      ensures report.Valid() && sessionActive == old(sessionActive)
      ensures (report.voiceEvents, vad.State()) == (VoiceStage(old(report.voiceEvents), old(vad.State()), t).0,
                                                    VoiceStage(old(report.voiceEvents), old(vad.State()), t).1)
      ensures signals == old(signals) + VoiceStage(old(report.voiceEvents), old(vad.State()), t).2
      ensures report.events == old(report.events) && report.gazeEvents == old(report.gazeEvents)
    {
      var heard := vad.IsVoiceDetected(t.chunk.volume, t.chunk.time);
      if heard {
        report.AddVoiceEvent(t.stamp);
        signals := signals + [StatusUpdated(VoiceHeard)];
      }
    }

    method ObserveAmbient(t: Tick)
      modifies this
      ensures signals == old(signals) + AmbientSignals(t) && sessionActive == old(sessionActive)
    {
      if t.light < LowLight {
        signals := signals + [StatusUpdated(LowLighting)];
      }
      if t.noise > HighNoise {
        signals := signals + [StatusUpdated(HighNoiseLevel)];
      }
    }

    /** One frame's checks, in the source's order, with its effects on the report, the detector and the window. */
    method ProcessFrame(report: Report.ReportGenerator, vad: VoiceActivity.VoiceActivityDetector, t: Tick,
                        details: seq<string>, images: seq<string>, ghost s: LoopState)
      returns (details': seq<string>, images': seq<string>, stop: bool)
      requires report.Valid()
      requires vad.threshold == VoiceActivity.DefaultThreshold && vad.requiredDuration == VoiceActivity.DefaultRequiredDuration
      requires s == LoopState(Evidence(report.events, details, images), report.gazeEvents, report.voiceEvents, vad.State())
      modifies this, report, vad
      ensures report.Valid()
      ensures var o := TickStep(s, t);
        LoopState(Evidence(report.events, details', images'), report.gazeEvents, report.voiceEvents, vad.State()) == o.state &&
        signals == old(signals) + o.emitted && stop == o.stop
      ensures sessionActive == (old(sessionActive) && !stop)
    {
      var msgs := ViolationMessages(t.detections);
      if msgs != [] {
        details', images' := RecordViolations(report, msgs, details, images);
        return details', images', true;
      }
      details', images' := details, images;
      ObserveGaze(report, t);
      ObserveVoice(report, vad, t);
      ObserveAmbient(t);
      stop := false;
    }

    /**
     * One pass of the loop body after a successful read, and where it leaves
     * the loop: `expected` is what the rest of the loop must still produce
     * after the signals already sent.
     */
    method Iterate(report: Report.ReportGenerator, vad: VoiceActivity.VoiceActivityDetector, t: Tick,
                   details: seq<string>, images: seq<string>, ghost cur: LoopState, ghost rest: seq<Tick>,
                   ghost base: seq<Signal>, ghost emitted: seq<Signal>, ghost expected: LoopResult)
      returns (details': seq<string>, images': seq<string>, ghost next: LoopState, ghost emitted': seq<Signal>, ghost exit: Exit)
      requires rest != [] && rest[0] == t && t.fault.None? && t.readOk
      requires sessionActive && expected == After(emitted, Monitor(cur, rest))
      requires signals == base + emitted
      requires report.Valid()
      requires vad.threshold == VoiceActivity.DefaultThreshold && vad.requiredDuration == VoiceActivity.DefaultRequiredDuration
      requires cur == LoopState(Evidence(report.events, details, images), report.gazeEvents, report.voiceEvents, vad.State())
      modifies this, report, vad
      ensures report.Valid()
      ensures next == LoopState(Evidence(report.events, details', images'), report.gazeEvents, report.voiceEvents, vad.State())
      ensures signals == base + emitted'
      ensures sessionActive ==> expected == After(emitted', Monitor(next, rest[1..]))
      ensures !sessionActive ==> expected == LoopResult(next, emitted', exit) && exit in {Violation, Cancelled}
    {
      assert rest[0..] == rest;
      MonitorAt(cur, rest, 0, emitted);
      var stop;
      details', images', stop := ProcessFrame(report, vad, t, details, images, cur);
      next := TickStep(cur, t).state;
      AppendAssoc(base, emitted, TickStep(cur, t).emitted);
      emitted' := emitted + TickStep(cur, t).emitted;
      exit := Violation;
      if !stop && t.cancelled {
        // `App.EndExam` ran on the window's thread during this iteration.
        sessionActive := false;
        exit := Cancelled;
      }
    }

    /**
     * The `while self.session_active` loop over the scripted frames. `fault`
     * is the text of the exception an iteration raised, if one did; the caller
     * then reports the error.
     */
    method RunLoop(report: Report.ReportGenerator, vad: VoiceActivity.VoiceActivityDetector, ticks: seq<Tick>)
      returns (details: seq<string>, images: seq<string>, fault: Option<string>)
      requires report.Valid() && report.events == [] && report.gazeEvents == [] && report.voiceEvents == []
      requires vad.threshold == VoiceActivity.DefaultThreshold && vad.requiredDuration == VoiceActivity.DefaultRequiredDuration
      requires vad.State() == VoiceActivity.Idle
      modifies this, report, vad
      ensures report.Valid()
      ensures var m := Loop(old(sessionActive), ticks);
        m.state == LoopState(Evidence(report.events, details, images), report.gazeEvents, report.voiceEvents, vad.State()) &&
        signals == old(signals) + m.emitted &&
        fault == (if m.exit.Faulted? then Some(m.exit.message) else None) &&
        (sessionActive <==> m.exit !in {Violation, Cancelled})
    {
      details, images, fault := [], [], None;
      ghost var expected := Loop(sessionActive, ticks);
      ghost var emitted: seq<Signal> := [];
      ghost var exit: Exit := Cancelled;
      ghost var cur := Start;
      assert ticks[0..] == ticks;
      var i := 0;
      while sessionActive
        invariant 0 <= i <= |ticks| && report.Valid() && fault.None?
        invariant signals == old(signals) + emitted
        invariant cur == LoopState(Evidence(report.events, details, images), report.gazeEvents, report.voiceEvents, vad.State())
        invariant sessionActive ==> expected == After(emitted, Monitor(cur, ticks[i..]))
        invariant !sessionActive ==> expected == LoopResult(cur, emitted, exit) && exit in {Violation, Cancelled}
        decreases |ticks| - i
      {
        if i == |ticks| || ticks[i].fault.Some? || !ticks[i].readOk {
          // The camera yields no more frames, or the iteration raises.
          MonitorEnds(cur, ticks, i, emitted);
          fault := if i < |ticks| then ticks[i].fault else None;
          exit := if fault.Some? then Faulted(fault.value) else ReadFailed;
          break;
        }
        assert ticks[i..][1..] == ticks[i + 1..];
        details, images, cur, emitted, exit := Iterate(report, vad, ticks[i], details, images, cur, ticks[i..],
                                                        old(signals), emitted, expected);
        i := i + 1;
      }
      assert expected == LoopResult(cur, emitted, exit);
    }

    /**
     * Release, close, write the report and send the email. `raises` says which
     * of the last three steps raises; the first that does ends the session with
     * its error. Only a `close` that returns counts as releasing the stream.
     */
    method Finish(report: Report.ReportGenerator, vad: VoiceActivity.VoiceActivityDetector,
                  details: seq<string>, images: seq<string>, coverExists: bool, loadable: set<string>,
                  raises: Raises, ghost s: LoopState)
      requires report.candidateName == candidateName
      requires s == LoopState(Evidence(report.events, details, images), report.gazeEvents, report.voiceEvents, vad.State())
      modifies this, vad
      ensures signals == old(signals) +
        Cleanup(ReportSignal(candidateName, s, coverExists, loadable), EmailSignal(candidateName, s), raises)
      ensures sessionActive == old(sessionActive)
      ensures vad.closeCount == old(vad.closeCount) + (if raises.close.None? then 1 else 0)
    {
      signals := signals + [CaptureReleased];
      if raises.close.Some? {
        signals := signals + ErrorSignals(raises.close.value);
        return;
      }
      vad.Close();
      signals := signals + [VoiceClosed];
      if raises.report.Some? {
        signals := signals + ErrorSignals(raises.report.value);
        return;
      }
      var reportPath, document := report.GenerateReport(coverExists, loadable);
      signals := signals + [ReportWritten(reportPath, document)];
      if raises.email.Some? {
        signals := signals + ErrorSignals(raises.email.value);
        return;
      }
      var request := MailRequest(candidateName, reportPath, MailDetails(details), images);
      signals := signals + [EmailSent(request), StatusUpdated(ReportEmailed), SessionEnded(ExamEnded)];
    }

    /**
     * `run`. The camera's first frame is judged by `VerifyIdentity` on the given
     * encodings, unless reading it fails or `verifyRaises` says the check
     * raises; `ticks` scripts the later frames; `coverExists` and `loadable`
     * describe the files the report can embed; `raises` says which of the
     * steps after the loop raise.
     */
    method Run(initialReadOk: bool, verifyRaises: Option<string>,
               refs: seq<FaceVerification.Encoding>, lives: seq<FaceVerification.Encoding>,
               distance: (seq<real>, seq<real>) -> real, ticks: seq<Tick>,
               coverExists: bool, loadable: set<string>, raises: Raises)
      modifies this
      ensures var identity := IdentityCheck(initialReadOk, verifyRaises,
                                FaceVerification.VerifyIdentity(refs, lives, distance, FaceVerification.DefaultTolerance));
        signals == old(signals) + SessionTrace(candidateName, old(sessionActive), identity, ticks, coverExists, loadable, raises)
      // The flag ends cleared exactly when the loop ran and stopped on a violation or a cancellation.
      ensures IdentityCheck(initialReadOk, verifyRaises,
                            FaceVerification.VerifyIdentity(refs, lives, distance, FaceVerification.DefaultTolerance)) == Passed ==>
        (sessionActive <==> Loop(old(sessionActive), ticks).exit !in {Violation, Cancelled})
    {
      if !initialReadOk ||
         (verifyRaises.None? && !FaceVerification.VerifyIdentity(refs, lives, distance, FaceVerification.DefaultTolerance)) {
        signals := signals + [StatusUpdated(IdentityFailed), CaptureReleased, SessionEnded(VerificationFailed)];
        return;
      }
      if verifyRaises.Some? {
        signals := signals + ErrorSignals(verifyRaises.value);
        return;
      }
      ghost var start := signals;
      signals := signals + [StatusUpdated(IdentityVerified)];
      ghost var m := Loop(sessionActive, ticks);
      var vad := new VoiceActivity.VoiceActivityDetector(VoiceActivity.DefaultThreshold, VoiceActivity.DefaultRequiredDuration);
      var report := new Report.ReportGenerator(candidateName);
      var details, images, fault := RunLoop(report, vad, ticks);
      ghost var closing := Closing(m.exit, ReportSignal(candidateName, m.state, coverExists, loadable),
                                   EmailSignal(candidateName, m.state), raises);
      TraceVerified(candidateName, old(sessionActive), ticks, coverExists, loadable, raises);
      AppendAssoc(start, [StatusUpdated(IdentityVerified)] + m.emitted, closing);
      AppendAssoc(start, [StatusUpdated(IdentityVerified)], m.emitted);
      if fault.Some? {
        signals := signals + ErrorSignals(fault.value);
        return;
      }
      Finish(report, vad, details, images, coverExists, loadable, raises, m.state);
    }
  }

  /** The window: it holds the running session and can end the exam. */
  class App {
    var proctorThread: ProctoringSession?
    var statusText: string

    constructor ()
      ensures proctorThread == null && statusText == "Monitoring..."
    {
      proctorThread := null;
      statusText := "Monitoring...";
    }

    /** `end_exam`: only clears the session's flag; the loop notices at its next test. */
    method EndExam()
      modifies this, proctorThread
      ensures proctorThread == old(proctorThread)
      ensures proctorThread != null ==>
        !proctorThread.sessionActive && proctorThread.signals == old(proctorThread.signals) &&
        statusText == "Ending session..."
      ensures proctorThread == null ==> statusText == old(statusText)
    {
      if proctorThread != null {
        proctorThread.sessionActive := false;
        statusText := "Ending session...";
      }
    }
  }
}
