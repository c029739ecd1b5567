/**
 * What the two monitoring loops (main.py and proctoring.py) share: the
 * scripted observations of one loop iteration, the violation messages, the
 * three evidence lists that grow together, and the details handed to the
 * examiner email.
 */
module Monitoring {
  import opened Wrappers
  import Text
  import ObjectDetection
  import FaceVerification
  import VoiceActivity
  import Report
  import EmailAlert

  /**
   * Everything one loop iteration observes. `detections` is what the detector
   * reports for the frame; `mesh` what the face mesh sees; `chunk` the audio
   * read by the voice detector and `extraChunk` the one read by a second call
   * in the same iteration; `light`/`noise` the analyser's output; `stamp` the
   * formatted clock. `cancelled` says the exam was ended from the window during
   * this iteration, `fault` the text of the exception the iteration raised,
   * if it raised one, `quitKey` that 'q' was pressed.
   */
  datatype Tick = Tick(
    readOk: bool,
    detections: seq<ObjectDetection.Detection>,
    mesh: FaceVerification.MeshInput,
    chunk: VoiceActivity.Chunk,
    extraChunk: VoiceActivity.Chunk,
    light: real, noise: real,
    stamp: string,
    cancelled: bool, fault: Option<string>, quitKey: bool)

  const LowLight: real := 50.0
  const HighNoise: real := 95.0
  const VeryHighNoise: real := 110.0

  const MultiplePersonsMessage: string := "Multiple persons detected"

  function ObjectMessage(d: ObjectDetection.Detection): string {
    "Malpractice Object Detected: " + d.className
  }

  /** Every violation message starts with 'M'. */
  predicate IsViolationText(s: string) {
    s != [] && s[0] == 'M'
  }

  /** One message per malpractice object, in detection order. */
  function ObjectMessages(objs: seq<ObjectDetection.Detection>): (r: seq<string>)
    ensures |r| == |objs|
    ensures forall i :: 0 <= i < |r| ==> IsViolationText(r[i])
  {
    if objs == [] then [] else [ObjectMessage(objs[0])] + ObjectMessages(objs[1..])
  }

  lemma {:induction false} ObjectMessagesAt(objs: seq<ObjectDetection.Detection>, i: nat)
    requires i < |objs|
    ensures ObjectMessages(objs)[i] == ObjectMessage(objs[i])
  {
    if i > 0 {
      ObjectMessagesAt(objs[1..], i - 1);
    }
  }

  /**
   * The event descriptions one frame produces: one per malpractice object, or
   * else a single multiple-persons message, or else none.
   */
  function ViolationMessages(ds: seq<ObjectDetection.Detection>): (r: seq<string>)
    ensures forall i :: 0 <= i < |r| ==> IsViolationText(r[i])
  {
    var objs := ObjectDetection.MalpracticeObjects(ds);
    if objs != [] then ObjectMessages(objs)
    else if ObjectDetection.MultiplePersons(ds) then [MultiplePersonsMessage]
    else []
  }

  /** Objects take precedence over persons, and a frame with neither produces nothing. */
  lemma ViolationMessagesContent(ds: seq<ObjectDetection.Detection>)
    ensures ViolationMessages(ds) == [] <==>
      ObjectDetection.MalpracticeObjects(ds) == [] && !ObjectDetection.MultiplePersons(ds)
    ensures var objs := ObjectDetection.MalpracticeObjects(ds);
      objs != [] ==> (|ViolationMessages(ds)| == |objs| &&
        forall i :: 0 <= i < |objs| ==> ViolationMessages(ds)[i] == ObjectMessage(objs[i]))
    ensures ObjectDetection.MalpracticeObjects(ds) == [] && ObjectDetection.MultiplePersons(ds) ==>
      ViolationMessages(ds) == [MultiplePersonsMessage]
  {
    var objs := ObjectDetection.MalpracticeObjects(ds);
    forall i | 0 <= i < |objs| {
      ObjectMessagesAt(objs, i);
    }
  }

  /** The report's events and the loop's two lists of details and evidence paths. */
  datatype Evidence = Evidence(events: seq<Report.MalpracticeEvent>, details: seq<string>, images: seq<string>)

  const NoEvidence: Evidence := Evidence([], [], [])

  /**
   * The three lists have equal length; entry i's path is the file `add_event`
   * wrote for the (i+1)-th event, and the event pairs the detail with that path.
   */
  predicate Lockstep(e: Evidence) {
    |e.events| == |e.details| == |e.images| &&
    forall i :: 0 <= i < |e.events| ==>
      e.images[i] == Report.EventImagePath(i + 1) &&
      e.events[i] == Report.MalpracticeEvent(e.details[i], Some(e.images[i]))
  }

  /** `report.add_event(msg, frame)`, then the detail and the evidence path appended. */
  function RecordViolation(e: Evidence, description: string): (r: Evidence)
    ensures Lockstep(e) ==> Lockstep(r)
    ensures r.details == e.details + [description]
  {
    var path := Report.EventImagePath(|e.events| + 1);
    Evidence(e.events + [Report.MalpracticeEvent(description, Some(path))],
             e.details + [description], e.images + [path])
  }

  /** Recording a list of descriptions in order. */
  function RecordAll(e: Evidence, descriptions: seq<string>): (r: Evidence)
    ensures Lockstep(e) ==> Lockstep(r)
    ensures r.details == e.details + descriptions
    decreases |descriptions|
  {
    if descriptions == [] then e
    else RecordViolation(RecordAll(e, descriptions[..|descriptions| - 1]), descriptions[|descriptions| - 1])
  }

  /** What the loop carries between frames: the evidence, the report's two lists and the voice detector. */
  datatype LoopState = LoopState(evidence: Evidence, gaze: seq<Report.GazeEvent>, voice: seq<string>,
                                 vad: VoiceActivity.VadState)

  const Start: LoopState := LoopState(NoEvidence, [], [], VoiceActivity.Idle)

  /** Evidence in lockstep, and every detail a violation message. */
  predicate EvidenceOk(e: Evidence) {
    Lockstep(e) && forall i :: 0 <= i < |e.details| ==> IsViolationText(e.details[i])
  }

  /**
   * The loop body of both programs for a frame with violations: each message
   * is added to the report with the frame as evidence, and the detail and the
   * evidence path are appended.
   */
  method RecordEvidence(report: Report.ReportGenerator, msgs: seq<string>, details: seq<string>, images: seq<string>)
    returns (details': seq<string>, images': seq<string>)
    requires report.Valid()
    modifies report
    ensures report.Valid()
    ensures Evidence(report.events, details', images') == RecordAll(Evidence(old(report.events), details, images), msgs)
    ensures report.gazeEvents == old(report.gazeEvents) && report.voiceEvents == old(report.voiceEvents)
  {
    ghost var e0 := Evidence(report.events, details, images);
    details', images' := details, images;
    var k := 0;
    while k < |msgs|
      invariant 0 <= k <= |msgs| && report.Valid()
      invariant Evidence(report.events, details', images') == RecordAll(e0, msgs[..k])
      invariant report.gazeEvents == old(report.gazeEvents) && report.voiceEvents == old(report.voiceEvents)
    {
      report.AddEvent(msgs[k], true);
      details' := details' + [msgs[k]];
      images' := images' + [Report.EventImagePath(|report.events|)];
      assert msgs[..k + 1][..k] == msgs[..k];
      k := k + 1;
    }
    assert msgs[..k] == msgs;
  }

  /** The arguments of one `send_malpractice_email` call. */
  datatype MailRequest = MailRequest(candidateName: string, reportPath: string, details: string, attachments: seq<string>)

  /** The message a request hands to the mail server. */
  function Message(r: MailRequest): EmailAlert.Email {
    EmailAlert.MalpracticeEmail(r.candidateName, r.reportPath, r.details, r.attachments)
  }

  /** The details argument of the email: the joined lines, or the fallback text when they join to "". */
  function MailDetails(details: seq<string>): string {
    var joined := Text.Join(details, "\n");
    if joined == "" then "No major violations." else joined
  }

  lemma {:induction false} LowerUnchanged(s: string)
    requires forall i :: 0 <= i < |s| ==> !('A' <= s[i] <= 'Z')
    ensures Text.Lower(s) == s
  {
    if s != [] {
      LowerUnchanged(s[1..]);
    }
  }

  lemma FallbackSpelling()
    ensures "No major violations."[1..] == "no major violations."[1..]
    ensures forall i :: 0 <= i < 19 ==> !('A' <= "no major violations."[1..][i] <= 'Z')
    ensures "no major violations." == ['n'] + "no major violations."[1..]
  {
  }

  lemma FallbackStripped()
    ensures Text.Strip("No major violations.") == "No major violations."
  {
    var s := "No major violations.";
    assert s[0] == 'N' && s[|s| - 1] == '.';
    Text.StripUnchanged(s);
  }

  lemma FallbackLowered()
    ensures Text.Lower("No major violations.") == "no major violations."
  {
    var s := "No major violations.";
    var t := "no major violations.";
    FallbackSpelling();
    LowerUnchanged(t[1..]);
    assert Text.LowerChar(s[0]) == 'n';
    assert Text.Lower(s) == [Text.LowerChar(s[0])] + Text.Lower(s[1..]);
  }

  /** The fallback text reads as a clean session. */
  lemma FallbackIsClean()
    ensures EmailAlert.IsClean("No major violations.")
  {
    FallbackStripped();
    FallbackLowered();
    assert "no major violations." in EmailAlert.CleanPhrases;
  }

  /** The email is clean exactly when no violation was recorded. */
  lemma MailCleanIffNoViolation(details: seq<string>)
    requires forall i :: 0 <= i < |details| ==> IsViolationText(details[i])
    ensures EmailAlert.IsClean(MailDetails(details)) <==> details == []
  {
    if details == [] {
      FallbackIsClean();
    } else {
      Text.JoinStartsWithFirst(details, "\n");
      var joined := Text.Join(details, "\n");
      assert joined[0] == details[0][0] == 'M';
      EmailAlert.DetailsStartingWithMNotClean(joined);
    }
  }
}
