# Kansel AI exam proctor — a verified model of its decision logic

Kansel AI watches a candidate through the webcam and microphone during an exam.
It can run as a windowed session (`main.py`) or as a console program
(`proctoring.py`). Both programs:

- check the candidate's face against a reference photo;
- loop over camera frames;
- end the exam when a phone, a book or a second person appears;
- log gaze deviations and sustained speech;
- write a PDF report and email it to the examiner, with the offending frames attached.

The console program also mails a one-time code to the candidate first and
allows three attempts to type it.

This project models that decision logic in Dafny and proves properties of it.
The camera, the neural networks, the face mesh, the microphone, the light and
noise analyser, the clock, the file system and the mail server are not modelled
as code. They become scripted inputs: one `Monitoring.Tick` per frame, encodings,
ratios and volumes as numbers, and sets of existing files.

One module per source file:

| module | file | form |
|---|---|---|
| `VoiceActivity` | voice_activity_detector.py | class `VoiceActivityDetector` over a pure step function `Step` |
| `Report` | report_generator.py | class `ReportGenerator` with append-only lists; the document is a function of them |
| `ObjectDetection` | yolo_detector.py | the loops of `detect` as methods; the filters as functions |
| `EmailAlert` | email_alert.py | the message as a function; the attachment loop as a method |
| `FaceVerification` | face_recognition_utils.py | functions |
| `GazeDirection` | gaze_detection.py | functions |
| `ActivityLog` | activity_loger.py | class `ActivityLogger`; the pagination loop as a method |
| `Monitoring` | shared by main.py and proctoring.py | a frame's observations, violation messages, the evidence lists |
| `Session` | main.py | class `ProctoringSession`; its loop is proved against the function `Monitor` |
| `Console` | proctoring.py | methods for the code check, the path prompt and the frame loop, proved against the function `ConsoleTrace` |

`Wrappers` holds `Option`. `Text` holds the string helpers the programs rely on:

- `str(n)` for natural numbers;
- `strip()` with Python's ASCII/Latin-1 whitespace;
- `lower()` on ASCII letters;
- `join`;
- `split("/")[-1]`.

## Model

| member | source | states |
|---|---|---|
| VoiceActivity.Step | Kansel_AI-main/Kansel_AI-main/voice_activity_detector.py:30-46 | A loud chunk sets the start time only when it is unset and always updates the last-voice time. The call reports voice exactly when the chunk is loud, not already speaking, and at least the required duration has passed since the start; a reporting call sets speaking. A quiet chunk never reports. It resets all three fields exactly when the last-voice time is truthy and more than 1.0 s old, and otherwise changes nothing. The pairing invariant `Inv` is preserved. |
| VoiceActivity.Run | Kansel_AI-main/Kansel_AI-main/voice_activity_detector.py:23-46 | Gives one answer per call for a sequence of calls. |
| VoiceActivity.SilentWhileSpeaking | Kansel_AI-main/Kansel_AI-main/voice_activity_detector.py:37-39 | While speaking, and without a reset, no call reports voice again. |
| VoiceActivity.AtMostOncePerEpisode | Kansel_AI-main/Kansel_AI-main/voice_activity_detector.py:35-46 | Without an episode end, a run reports voice at most once, and never if it started while speaking. |
| VoiceActivity.LoudNeverEnds | Kansel_AI-main/Kansel_AI-main/voice_activity_detector.py:40-44 | Loud chunks never end an episode; only a quiet chunk can. |
| VoiceActivity.ShortEpisodeSilentFrom | Kansel_AI-main/Kansel_AI-main/voice_activity_detector.py:30-39 | An episode whose loud chunks all fall within the required duration of its start stays silent and keeps its speaking flag. |
| VoiceActivity.ShortEpisodeNeverFires | Kansel_AI-main/Kansel_AI-main/voice_activity_detector.py:30-39 | From the initial state, loudness that lasts less than the required duration is never reported. |
| VoiceActivity.SustainedFiresOnceFrom | Kansel_AI-main/Kansel_AI-main/voice_activity_detector.py:30-39 | An open, unreported episode is reported exactly once when some loud chunk reaches the required duration. |
| VoiceActivity.SustainedEpisodeFiresOnce | Kansel_AI-main/Kansel_AI-main/voice_activity_detector.py:30-39 | From the initial state, sustained loudness that reaches the required duration is reported exactly once. |
| VoiceActivity.VoiceActivityDetector.constructor | Kansel_AI-main/Kansel_AI-main/voice_activity_detector.py:6-21 | Stores the threshold and the duration; both times unset, not speaking, and the stream not yet closed. |
| VoiceActivity.VoiceActivityDetector.IsVoiceDetected | Kansel_AI-main/Kansel_AI-main/voice_activity_detector.py:23-46 | The new fields and the answer are exactly `Step` of the old fields. |
| VoiceActivity.VoiceActivityDetector.Close | Kansel_AI-main/Kansel_AI-main/voice_activity_detector.py:48-51 | Releases the stream once and leaves the episode fields alone. |
| Report.EventImageFileName | Kansel_AI-main/Kansel_AI-main/report_generator.py:17 | The evidence file of event n is named `event_n.jpg`. |
| Report.EventImagePathInjective | Kansel_AI-main/Kansel_AI-main/report_generator.py:17 | Different event numbers give different evidence paths. |
| Report.DistinctEvidence | Kansel_AI-main/Kansel_AI-main/report_generator.py:15-21 | When every event's path is named after its position, no two events share an evidence file. |
| Report.ReportGenerator.constructor | Kansel_AI-main/Kansel_AI-main/report_generator.py:6-13 | Starts with the candidate's name, three empty lists and no evidence files. |
| Report.ReportGenerator.AddEvent | Kansel_AI-main/Kansel_AI-main/report_generator.py:15-21 | Appends exactly one event. With a frame, it writes and references `event_{n+1}.jpg`, where n is the prior count; without one, it appends no path and writes no file. The other lists are unchanged. |
| Report.ReportGenerator.AddGazeEvent | Kansel_AI-main/Kansel_AI-main/report_generator.py:23-24 | Appends one (timestamp, reason) pair and leaves the other lists and the files unchanged. |
| Report.ReportGenerator.AddVoiceEvent | Kansel_AI-main/Kansel_AI-main/report_generator.py:26-27 | Appends one timestamp and leaves the other lists and the files unchanged. |
| Report.ReportGenerator.GenerateReport | Kansel_AI-main/Kansel_AI-main/report_generator.py:29-102 | Returns `proctoring_report_{name}.pdf`, and the document is the one built from the three lists. |
| Report.ReportPath | Kansel_AI-main/Kansel_AI-main/report_generator.py:100-102 | The path is the fixed prefix, then the candidate's name, then `.pdf`. |
| Report.Numbered | Kansel_AI-main/Kansel_AI-main/report_generator.py:61 | A numbered line starts with a digit. |
| Report.EventListing | Kansel_AI-main/Kansel_AI-main/report_generator.py:59-67 | The listing has one line per event, plus one more line for each event that has an image. |
| Report.EventBlocks | Kansel_AI-main/Kansel_AI-main/report_generator.py:60-67 | Reference definition for one event: its numbered line, then its picture when the path loads, the placeholder line when it does not, and nothing without a path. `ListingPlacesEvent` and `ListingBlocks` state its properties. |
| Report.MalpracticeSection | Kansel_AI-main/Kansel_AI-main/report_generator.py:51-67 | Reference definition for the malpractice section. `MalpracticeSectionShape` and `NoEventsLineIffEmpty` state its properties. |
| Report.GazeSection | Kansel_AI-main/Kansel_AI-main/report_generator.py:71-82 | Reference definition for the gaze summary. `GazeSectionContent` states its properties. |
| Report.VoiceSection | Kansel_AI-main/Kansel_AI-main/report_generator.py:86-97 | Reference definition for the voice summary. `VoiceSectionContent` states its properties. |
| Report.CoverPage | Kansel_AI-main/Kansel_AI-main/report_generator.py:32-41 | Reference definition for the front page: the cover picture when the file exists, else the app title and the candidate line. |
| Report.Document | Kansel_AI-main/Kansel_AI-main/report_generator.py:29-102 | Reference definition for the whole PDF: the cover page, then a new page with the title and the three sections. `ReportGenerator.GenerateReport` is stated against it. |
| Report.ImageCountAppend | Kansel_AI-main/Kansel_AI-main/report_generator.py:60-67 | The number of extra image lines adds up over concatenation. |
| Report.ListingPlacesEvent | Kansel_AI-main/Kansel_AI-main/report_generator.py:60-67 | Event i's blocks sit at its offset in the listing, numbered i+1 in append order. Its blocks are its line, then its picture if loadable, else the "[Image could not be loaded]" line; the listing continues after a failure. |
| Report.ListingPlacesLater | Kansel_AI-main/Kansel_AI-main/report_generator.py:60-67 | The same placement for events after the first. |
| Report.ListingBlocks | Kansel_AI-main/Kansel_AI-main/report_generator.py:60-67 | Every block of the listing is a numbered line, a picture or the placeholder line. |
| Report.MalpracticeSectionShape | Kansel_AI-main/Kansel_AI-main/report_generator.py:51-67 | With no events the section is the heading and the single no-events line. Otherwise its length is the heading plus the listing. |
| Report.NoEventsLineIffEmpty | Kansel_AI-main/Kansel_AI-main/report_generator.py:57-61 | The no-events line appears exactly when there are no events. |
| Report.GazeSectionContent | Kansel_AI-main/Kansel_AI-main/report_generator.py:71-82 | The heading states the count, entry i is the line numbered i+1, and "No gaze deviation detected." appears exactly when the list is empty. |
| Report.VoiceSectionContent | Kansel_AI-main/Kansel_AI-main/report_generator.py:86-97 | The same count, numbered-line and empty-line pattern for voice events. |
| ObjectDetection.ArgMax | Kansel_AI-main/Kansel_AI-main/yolo_detector.py:34-36 | Returns the first index of a largest score. |
| ObjectDetection.FlattenMembers | Kansel_AI-main/Kansel_AI-main/yolo_detector.py:32-33 | A row is seen by the nested loops exactly when some output layer holds it. |
| ObjectDetection.Keep | Kansel_AI-main/Kansel_AI-main/yolo_detector.py:37 | The kept rows are at most the raw rows. |
| ObjectDetection.KeepSound | Kansel_AI-main/Kansel_AI-main/yolo_detector.py:34-37 | Every kept entry comes from a row whose best score is strictly above 0.5, and its class index names a class. |
| ObjectDetection.KeepComplete | Kansel_AI-main/Kansel_AI-main/yolo_detector.py:37 | No passing row is dropped. |
| ObjectDetection.KeepSnoc | Kansel_AI-main/Kansel_AI-main/yolo_detector.py:37-47 | One more row adds its entry exactly when it passes. |
| ObjectDetection.CollectCandidates | Kansel_AI-main/Kansel_AI-main/yolo_detector.py:28-47 | `boxes`, `confidences` and `class_ids` grow in lockstep, one entry each per passing row, in row order. |
| ObjectDetection.CollectLayer | Kansel_AI-main/Kansel_AI-main/yolo_detector.py:33-47 | The inner loop over one layer appends exactly that layer's passing rows. |
| ObjectDetection.AssembleDetections | Kansel_AI-main/Kansel_AI-main/yolo_detector.py:51-69 | An empty tuple or empty index list gives no detections. Otherwise there is one detection per surviving index, in index order, with that index's label, box and confidence. |
| ObjectDetection.Detect | Kansel_AI-main/Kansel_AI-main/yolo_detector.py:22-69 | Every detection has a class name from the list and a confidence strictly above 0.5. There is one detection per index that `NMSBoxes` keeps, in its order: the kept row's class name, box and confidence. With no surviving index there are no detections. |
| ObjectDetection.MalpracticeObjects | Kansel_AI-main/Kansel_AI-main/yolo_detector.py:77-80 | Returns exactly the detections labelled "cell phone" or "book", each with its multiplicity. |
| ObjectDetection.MalpracticeObjectsAppend | Kansel_AI-main/Kansel_AI-main/yolo_detector.py:79 | The filter commutes with concatenation, so the original order is kept. |
| ObjectDetection.PersonCount | Kansel_AI-main/Kansel_AI-main/yolo_detector.py:74 | The person count is at most the number of detections. |
| ObjectDetection.PersonCountPositive | Kansel_AI-main/Kansel_AI-main/yolo_detector.py:74 | A person detection makes the count positive, and a count of one means it is the only one. |
| ObjectDetection.PersonCountZero | Kansel_AI-main/Kansel_AI-main/yolo_detector.py:74 | A zero count means no detection is labelled "person". |
| ObjectDetection.MultiplePersonsIffTwo | Kansel_AI-main/Kansel_AI-main/yolo_detector.py:71-75 | `detect_multiple_persons` holds exactly when two different detections are labelled "person". |
| ObjectDetection.FindPerson | Kansel_AI-main/Kansel_AI-main/yolo_detector.py:74 | A positive count yields the index of a person detection. |
| EmailAlert.DetailsStartingWithMNotClean | Kansel_AI-main/Kansel_AI-main/email_alert.py:14 | Details starting with 'M' are never read as clean. |
| EmailAlert.EvidenceList | Kansel_AI-main/Kansel_AI-main/email_alert.py:56-60 | One attachment per evidence path. |
| EmailAlert.EvidenceListAt | Kansel_AI-main/Kansel_AI-main/email_alert.py:56-60 | The i-th evidence attachment is the i-th path, named by the text after its last '/'. |
| EmailAlert.AddEvidence | Kansel_AI-main/Kansel_AI-main/email_alert.py:56-60 | The loop appends every path's attachment, in order, after those already there. |
| EmailAlert.SendMalpracticeEmail | Kansel_AI-main/Kansel_AI-main/email_alert.py:10-60 | The message built step by step is `MalpracticeEmail` of the arguments. |
| EmailAlert.MalpracticeEmail | Kansel_AI-main/Kansel_AI-main/email_alert.py:10-60 | Reference definition for the examiner mail: sender, examiner, subject, body and attachments chosen by the clean test. `SendMalpracticeEmail`, `CleanMailCarriesOnlyReport`, `AlertMailCarriesEvidence` and `AlertQuotesDetails` state its properties. |
| EmailAlert.Subject | Kansel_AI-main/Kansel_AI-main/email_alert.py:16-31 | Reference definition for the two subject lines. `CleanMailCarriesOnlyReport` and `AlertMailCarriesEvidence` state which one is used. |
| EmailAlert.CleanBody | Kansel_AI-main/Kansel_AI-main/email_alert.py:18-29 | Reference definition for the success body. `CleanMailCarriesOnlyReport` states when it is used. |
| EmailAlert.AlertBody | Kansel_AI-main/Kansel_AI-main/email_alert.py:32-44 | Reference definition for the alert body. `AlertQuotesDetails` states that it quotes the details verbatim. |
| EmailAlert.MailAttachments | Kansel_AI-main/Kansel_AI-main/email_alert.py:50-60 | Reference definition for the attachments: the report, then the evidence images only when not clean. `EvidenceAttachmentsNamed` and `CleanMailCarriesOnlyReport` state its properties. |
| EmailAlert.EvidenceAttachmentsNamed | Kansel_AI-main/Kansel_AI-main/email_alert.py:50-60 | When not clean, the report comes first under its own path, then every image in order, named by its last path segment. |
| EmailAlert.CleanMailCarriesOnlyReport | Kansel_AI-main/Kansel_AI-main/email_alert.py:14-29 | A clean session goes to the examiner with the success subject and exactly one attachment, the report, whatever the image list holds. |
| EmailAlert.AlertMailCarriesEvidence | Kansel_AI-main/Kansel_AI-main/email_alert.py:30-60 | A session that is not clean gets the alert subject, then the report and the evidence images. |
| EmailAlert.AlertQuotesDetails | Kansel_AI-main/Kansel_AI-main/email_alert.py:32-44 | The alert body quotes the details verbatim right after its fixed head. |
| EmailAlert.GenerateOtp | Kansel_AI-main/Kansel_AI-main/email_alert.py:93-94 | For a draw in [100000, 999999] the code is six digits with no leading zero, and it reads back as the draw. |
| EmailAlert.OtpEmail | Kansel_AI-main/Kansel_AI-main/email_alert.py:67-86 | The code mail goes to the candidate with the fixed subject and no attachments. The code appears verbatim right after the fixed opening. |
| FaceVerification.VerifyIdentity | Kansel_AI-main/Kansel_AI-main/face_recognition_utils.py:7-22 | It fails closed: no reference face, no live face, or an encoding that is not an array means no match. Otherwise it accepts exactly when the first two encodings are within tolerance. |
| FaceVerification.OnlyFirstEncodingsCompared | Kansel_AI-main/Kansel_AI-main/face_recognition_utils.py:12-19 | Further faces on either side do not affect the result. |
| FaceVerification.ToleranceMonotone | Kansel_AI-main/Kansel_AI-main/face_recognition_utils.py:19 | A larger tolerance accepts whatever a smaller one accepts. |
| FaceVerification.Classify | Kansel_AI-main/Kansel_AI-main/face_recognition_utils.py:87-94 | The first matching rule wins: ratio < 0.35 gives Left, > 0.65 gives Right, a mean iris y below the outer corner by more than 0.02 gives Down, and anything else gives Center. |
| FaceVerification.DetectGazeDeviation | Kansel_AI-main/Kansel_AI-main/face_recognition_utils.py:43-99 | No frame or no face gives `(False, None, True, False)`. With a face there is always a direction and `no_face` is false. Blink holds iff the mean EAR is strictly below the threshold. Deviation holds iff the direction is not Center and there is no blink. |
| FaceVerification.BlinkSuppressesDeviation | Kansel_AI-main/Kansel_AI-main/face_recognition_utils.py:97 | A blink always suppresses a deviation. |
| FaceVerification.DirectionIsOneOfFour | Kansel_AI-main/Kansel_AI-main/face_recognition_utils.py:87-94 | Looking up is never produced. |
| FaceVerification.DeviationIff | Kansel_AI-main/Kansel_AI-main/face_recognition_utils.py:43-99 | A deviation is reported exactly when a face is present, the eyes are open and the classified direction is not Center. |
| GazeDirection.Clamp | Kansel_AI-main/Kansel_AI-main/gaze_detection.py:57-63 | `max(span, 1)` is at least one and at least the span, and equals the span when the span is positive. |
| GazeDirection.EyeRatio | Kansel_AI-main/Kansel_AI-main/gaze_detection.py:57-63 | The ratio times a positive span gives the offset; a span of zero or less divides by one. |
| GazeDirection.HorizontalRatio | Kansel_AI-main/Kansel_AI-main/gaze_detection.py:56-59 | Reference definition: the mean of the two horizontal eye ratios. `CentredIsForward` and `HorizontalPrecedence` state its use. |
| GazeDirection.VerticalRatio | Kansel_AI-main/Kansel_AI-main/gaze_detection.py:61-64 | Reference definition: the mean of the two vertical eye ratios. `CentredIsForward` states its use. |
| GazeDirection.Decide | Kansel_AI-main/Kansel_AI-main/gaze_detection.py:67-76 | Left iff h < 0.35. Right iff h > 0.65. Up, Down and Forward only when 0.35 <= h <= 0.65, chosen by v against the same bounds. |
| GazeDirection.GetGazeDirection | Kansel_AI-main/Kansel_AI-main/gaze_detection.py:14-76 | No face gives None. A face gives exactly the decision on the two averaged ratios. |
| GazeDirection.HorizontalPrecedence | Kansel_AI-main/Kansel_AI-main/gaze_detection.py:67-70 | Out of the horizontal band, the vertical ratio has no say. |
| GazeDirection.CentredIsForward | Kansel_AI-main/Kansel_AI-main/gaze_detection.py:57-76 | Irises centred on both axes of both eyes read as forward. |
| GazeDirection.HalfwayIsHalf | Kansel_AI-main/Kansel_AI-main/gaze_detection.py:57-63 | An iris halfway along a positive span has ratio one half. |
| GazeDirection.CollapsedEyeDividesByOne | Kansel_AI-main/Kansel_AI-main/gaze_detection.py:57-59 | Zero-width eyes divide by one instead of failing. |
| ActivityLog.Advance | Kansel_AI-main/Kansel_AI-main/activity_loger.py:26-30 | The next line is 15 lower, or, when that falls below 40, the top of a new page at height − 40. It never lands below 40. |
| ActivityLog.Position | Kansel_AI-main/Kansel_AI-main/activity_loger.py:23-30 | Reference definition: the page and height of entry i, by iterating `Advance` from the first line. `PositionClosedForm`, `PositionOnFirstPage`, `PositionOnLaterPage` and `EntriesOnPage` state its properties. |
| ActivityLog.PositionClosedForm | Kansel_AI-main/Kansel_AI-main/activity_loger.py:23-30 | Entries 0–44 are on page 0 from y = 712 down. Every later page holds 48 entries from y = 752 down. |
| ActivityLog.PositionOnFirstPage | Kansel_AI-main/Kansel_AI-main/activity_loger.py:23-26 | Entry i < 45 is on page 0 at 712 − 15·i. |
| ActivityLog.PositionOnLaterPage | Kansel_AI-main/Kansel_AI-main/activity_loger.py:26-30 | Line r of later page q+1 is at 752 − 15·r. |
| ActivityLog.EntriesOnPage | Kansel_AI-main/Kansel_AI-main/activity_loger.py:26-30 | Every entry is drawn between the bottom margin of 40 and height − 40. |
| ActivityLog.Layout | Kansel_AI-main/Kansel_AI-main/activity_loger.py:24-30 | One placement per entry. |
| ActivityLog.LayoutAt | Kansel_AI-main/Kansel_AI-main/activity_loger.py:24-30 | Placement k is entry k at its position. |
| ActivityLog.ActivityLogger.constructor | Kansel_AI-main/Kansel_AI-main/activity_loger.py:9-11 | Starts with the candidate's name and an empty log. |
| ActivityLog.ActivityLogger.Log | Kansel_AI-main/Kansel_AI-main/activity_loger.py:13-15 | Appends exactly "{timestamp} - {type}: {details}" and keeps earlier entries. |
| ActivityLog.ActivityLogger.GenerateReport | Kansel_AI-main/Kansel_AI-main/activity_loger.py:17-32 | File `{name}_proctoring_report.pdf`, with the heading at the top of page 0. Every entry is drawn exactly once, in log order, at its layout position. |
| Monitoring.ObjectMessages | Kansel_AI-main/Kansel_AI-main/main.py:58-59 | One message per malpractice object, each starting with 'M'. |
| Monitoring.ObjectMessagesAt | Kansel_AI-main/Kansel_AI-main/proctoring.py:76-77 | Message i names object i. |
| Monitoring.ViolationMessages | Kansel_AI-main/Kansel_AI-main/proctoring.py:73-92 | Every violation message starts with 'M'. |
| Monitoring.ViolationMessagesContent | Kansel_AI-main/Kansel_AI-main/main.py:56-74 | A frame has no violation iff it has no malpractice object and not multiple persons. Objects take precedence with one message each, in order. Otherwise multiple persons gives exactly one message. |
| Monitoring.RecordViolation | Kansel_AI-main/Kansel_AI-main/main.py:60-62 | Appends the detail and keeps the event, detail and evidence lists in lockstep, with path i being `event_{i+1}.jpg`. |
| Monitoring.RecordAll | Kansel_AI-main/Kansel_AI-main/main.py:58-62 | Recording several messages appends them all as details and keeps the lockstep. |
| Monitoring.RecordEvidence | Kansel_AI-main/Kansel_AI-main/proctoring.py:76-81 | The loop over the messages leaves the report's events and the two lists exactly as `RecordAll` says. Gaze and voice lists are untouched. |
| Monitoring.LowerUnchanged | Kansel_AI-main/Kansel_AI-main/email_alert.py:14 | Lower-casing leaves text without capitals unchanged. |
| Monitoring.FallbackStripped | Kansel_AI-main/Kansel_AI-main/email_alert.py:14 | The fallback text is unchanged by strip. |
| Monitoring.FallbackLowered | Kansel_AI-main/Kansel_AI-main/email_alert.py:14 | The fallback text lower-cases to the first clean phrase. |
| Monitoring.FallbackIsClean | Kansel_AI-main/Kansel_AI-main/main.py:103 | "No major violations." reads as a clean session. |
| Monitoring.MailCleanIffNoViolation | Kansel_AI-main/Kansel_AI-main/main.py:103 | With violation messages as details, the mail is clean exactly when no detail was recorded. |
| Monitoring.MailDetails | Kansel_AI-main/Kansel_AI-main/main.py:103 | Reference definition for `"\n".join(details) or "No major violations."`. `MailCleanIffNoViolation` and `FallbackIsClean` state its properties. |
| Session.GazeStage | Kansel_AI-main/Kansel_AI-main/main.py:77-82 | The gaze check only sends status updates. |
| Session.VoiceStage | Kansel_AI-main/Kansel_AI-main/main.py:85-87 | The voice check only sends status updates and keeps the detector's invariant. |
| Session.AmbientSignals | Kansel_AI-main/Kansel_AI-main/main.py:90-94 | Light and noise only send status updates. |
| Session.TickStep | Kansel_AI-main/Kansel_AI-main/main.py:55-94 | A frame only sends status updates. |
| Session.TickStepEffects | Kansel_AI-main/Kansel_AI-main/main.py:55-94 | A frame stops the loop iff it has a violation; then it records exactly its messages, says "Terminating" and runs no other check. Without a violation the evidence is untouched, and a gaze entry is added exactly on a deviation. Evidence lockstep and the detector invariant are preserved. |
| Session.Monitor | Kansel_AI-main/Kansel_AI-main/main.py:47-94 | The loop only sends status updates. |
| Session.Loop | Kansel_AI-main/Kansel_AI-main/main.py:47 | With or without a first iteration, the loop only sends status updates. |
| Session.MonitorKeepsEvidence | Kansel_AI-main/Kansel_AI-main/main.py:56-74 | Across the loop, events, details and evidence paths stay in lockstep, every detail a violation message. |
| Session.EvidenceOnlyOnViolation | Kansel_AI-main/Kansel_AI-main/main.py:56-74 | Evidence changes only when the loop ends on a violation, and then it grows. |
| Session.CancelStopsAtBoundary | Kansel_AI-main/Kansel_AI-main/main.py:47 | A cancelled iteration is the last: frames after it are never looked at. |
| Session.CleanEmailIffNoViolation | Kansel_AI-main/Kansel_AI-main/main.py:99-105 | The examiner's email is the success note exactly when the loop did not end on a violation. |
| Session.IdentityCheck | Kansel_AI-main/Kansel_AI-main/main.py:32-33 | Reference definition for the start test: a failed read fails, then an exception from `verify_identity`, then its answer. `ProctoringSession.Run` is stated against it. |
| Session.Cleanup | Kansel_AI-main/Kansel_AI-main/main.py:96-111 | Reference definition for the clean-up and the first step in it that raises. `CleanupOutputs` states its properties; `ProctoringSession.Finish` is stated against it. |
| Session.SessionTrace | Kansel_AI-main/Kansel_AI-main/main.py:29-111 | Reference definition for everything `run` signals. `OneReportOneEmail`, `VerificationFailureEndsEarly`, `FaultSkipsCleanup` and `EveryRunEnds` state its properties; `ProctoringSession.Run` is stated against it. |
| Session.CleanupOutputs | Kansel_AI-main/Kansel_AI-main/main.py:96-111 | After a loop that did not raise, the capture is released first. The stream counts as closed exactly when `close` did not raise. One report is written, third, unless `close` or `generate_report` raised. One email is sent exactly when nothing raised. The session ends normally exactly when nothing raised; otherwise the error status comes just before "Error". |
| Session.OneReportOneEmail | Kansel_AI-main/Kansel_AI-main/main.py:29-111 | In a verified run whose loop did not raise, the capture is released, and before any report. Exactly one report is written unless `close` or `generate_report` raised. Exactly one email is sent when nothing raised, and none otherwise. |
| Session.VerificationFailureEndsEarly | Kansel_AI-main/Kansel_AI-main/main.py:31-37 | A failed first read or identity check releases the camera and ends with "Verification failed.", with no report and no email. |
| Session.FaultSkipsCleanup | Kansel_AI-main/Kansel_AI-main/main.py:29-111 | An exception in `verify_identity` or in the loop ends the run with "❌ Error occurred: " and the exception's text, then "Error". There is no release, no report and no email. |
| Session.FaultedClosing | Kansel_AI-main/Kansel_AI-main/main.py:109-111 | After status updates, a loop that raised is followed only by the error status with the exception's text and "Error". There is no release, no report and no email. |
| Session.EveryRunEnds | Kansel_AI-main/Kansel_AI-main/main.py:29-111 | Every run's last signal is its end message. It is "Verification failed." after a failed check, "Error" when anything raised, and "Malpractice detected. Exam ended." otherwise. |
| Session.ProctoringSession.constructor | Kansel_AI-main/Kansel_AI-main/main.py:22-27 | Stores the three arguments; the session is active and nothing has been sent. |
| Session.ProctoringSession.RecordViolations | Kansel_AI-main/Kansel_AI-main/main.py:57-65 | Records every message as `RecordAll`, sends "Terminating" and clears the flag. |
| Session.ProctoringSession.ObserveGaze | Kansel_AI-main/Kansel_AI-main/main.py:77-82 | Report gaze list and signals as `GazeStage`; nothing else changes. |
| Session.ProctoringSession.ObserveVoice | Kansel_AI-main/Kansel_AI-main/main.py:85-87 | Voice list, detector state and signals as `VoiceStage`; nothing else changes. |
| Session.ProctoringSession.ObserveAmbient | Kansel_AI-main/Kansel_AI-main/main.py:90-94 | Appends the light and noise statuses as `AmbientSignals`. |
| Session.ProctoringSession.ProcessFrame | Kansel_AI-main/Kansel_AI-main/main.py:55-94 | The report, the two lists, the detector and the signals end as `TickStep` says. The flag is cleared exactly on a violation. |
| Session.ProctoringSession.Iterate | Kansel_AI-main/Kansel_AI-main/main.py:47-94 | One loop pass keeps the state equal to what `Monitor` still has to produce. |
| Session.ProctoringSession.RunLoop | Kansel_AI-main/Kansel_AI-main/main.py:47-94 | Ends in `Loop`'s final state, with its signals and its exit. It returns the exception's text exactly when the loop raised. The flag is cleared exactly on a violation or a cancellation. |
| Session.ProctoringSession.Finish | Kansel_AI-main/Kansel_AI-main/main.py:96-111 | Signals exactly `Cleanup`: it releases, closes the stream, writes the report from the final lists and sends the email. The first of `close`, `generate_report` and sending that raises is followed by its error status and "Error", and nothing after it happens. The stream counts one more close exactly when `close` returned. |
| Session.ProctoringSession.Run | Kansel_AI-main/Kansel_AI-main/main.py:29-111 | Everything `run` signals is exactly `SessionTrace` of the identity check's outcome (passed, failed, or raised with a text), the frames and the steps after the loop that raise. |
| Session.App.constructor | Kansel_AI-main/Kansel_AI-main/main.py:122-139 | No session yet, and the status reads "Monitoring...". |
| Session.App.EndExam | Kansel_AI-main/Kansel_AI-main/main.py:179-182 | With a session, only clears its flag and shows "Ending session..."; nothing is signalled. Without one, nothing changes. |
| Console.Answers | Kansel_AI-main/Kansel_AI-main/proctoring.py:22 | One stripped answer per typed line. |
| Console.AnswersAt | Kansel_AI-main/Kansel_AI-main/proctoring.py:22 | Answer k is line k stripped. |
| Console.FirstMatch | Kansel_AI-main/Kansel_AI-main/proctoring.py:21-25 | The attempt that matches lies within the three attempts, or is 3 for none. |
| Console.FirstMatchIsFirst | Kansel_AI-main/Kansel_AI-main/proctoring.py:21-27 | Every earlier attempt differs from the code, and a result below 3 is a match. |
| Console.Mismatches | Kansel_AI-main/Kansel_AI-main/proctoring.py:27 | One message per wrong attempt. |
| Console.MismatchesAt | Kansel_AI-main/Kansel_AI-main/proctoring.py:27 | After 0-based mismatch k the attempts left are 2 − k. |
| Console.OtpEventsContent | Kansel_AI-main/Kansel_AI-main/proctoring.py:21-30 | Mismatch j reports 2 − j attempts left and its answer differs. The last message is acceptance iff one of the first three answers equals the code, and rejection otherwise. |
| Console.CheckOtp | Kansel_AI-main/Kansel_AI-main/proctoring.py:21-30 | Verified iff one of the three stripped answers is exactly the code. The messages are the mismatch lines up to the first match, then acceptance or rejection. |
| Console.OtpEvents | Kansel_AI-main/Kansel_AI-main/proctoring.py:21-30 | Reference definition for what the code check prints. `OtpEventsContent` and `AllWrong` state its properties; `CheckOtp` is stated against it. |
| Console.FirstExisting | Kansel_AI-main/Kansel_AI-main/proctoring.py:33-37 | The first answer naming a file lies within the answers. |
| Console.FirstExistingFound | Kansel_AI-main/Kansel_AI-main/proctoring.py:33-37 | When some answer exists, the first one found exists and every earlier one does not. |
| Console.Missing | Kansel_AI-main/Kansel_AI-main/proctoring.py:37 | One message per missing path. |
| Console.MissingAt | Kansel_AI-main/Kansel_AI-main/proctoring.py:37 | Message j names answer j. |
| Console.PathEventsContent | Kansel_AI-main/Kansel_AI-main/proctoring.py:33-37 | Every message before the accepted path names a path that does not exist. |
| Console.PathEvents | Kansel_AI-main/Kansel_AI-main/proctoring.py:33-37 | Reference definition for the missing-file messages. `PathEventsContent` states its properties; `AskReferencePath` is stated against it. |
| Console.AskReferencePath | Kansel_AI-main/Kansel_AI-main/proctoring.py:33-37 | Returns an existing path: the first answer that exists, after one missing-file message per earlier answer. |
| Console.LookingAwayNeverUsed | Kansel_AI-main/Kansel_AI-main/proctoring.py:98-99 | A deviation always carries a direction, so the "Looking away" fallback never appears. |
| Console.GazeReason | Kansel_AI-main/Kansel_AI-main/proctoring.py:99 | Reference definition for `direction if direction else "Looking away"`. `LookingAwayNeverUsed` states that a deviation never falls back. |
| Console.AmbientWarning | Kansel_AI-main/Kansel_AI-main/proctoring.py:111-117 | Low light beats high noise, and high noise (only when the second detector call fires) beats very high noise; each in both directions. |
| Console.FinalWarning | Kansel_AI-main/Kansel_AI-main/proctoring.py:96-117 | The last assignment wins: light/noise over voice, and voice over gaze/no-face. |
| Console.ViolationSkipsChecks | Kansel_AI-main/Kansel_AI-main/proctoring.py:73-92 | A violation records exactly its messages and ends the loop. No gaze, voice or ambient check runs and no warning is set. |
| Console.NoDoubleDetection | Kansel_AI-main/Kansel_AI-main/proctoring.py:105-115 | A high-noise warning comes only from a frame whose first detector call reported nothing. |
| Console.DetectorCalls | Kansel_AI-main/Kansel_AI-main/proctoring.py:105-114 | The detector advances once per frame, or twice exactly when light >= 50 and noise > 95. |
| Console.FrameEffects | Kansel_AI-main/Kansel_AI-main/proctoring.py:94-127 | A frame without violations keeps the evidence. It adds a gaze event iff a face is present and deviated, and a voice event iff the first call fires. The warning is low light in the dark, and voice or the gaze warning in good light with quiet noise. 'q' alone ends the loop. |
| Console.CheckGaze | Kansel_AI-main/Kansel_AI-main/proctoring.py:95-102 | A gaze event with the direction (or the fallback reason) is appended exactly when a face is present and deviated. The warning is no-face, then gaze, then none. Other lists are untouched. |
| Console.CheckAmbient | Kansel_AI-main/Kansel_AI-main/proctoring.py:111-117 | In good light with noise above 95 the detector takes its second step. A light or noise warning replaces the earlier warning, which otherwise stays. |
| Console.ProcessFrame | Kansel_AI-main/Kansel_AI-main/proctoring.py:70-127 | The report, the lists, the detector, the warning and the exit are exactly `ConsoleStep`'s. |
| Console.ConsoleMonitorStep | Kansel_AI-main/Kansel_AI-main/proctoring.py:65-127 | One pass of the frame loop in terms of the rest of the loop. |
| Console.ConsoleStep | Kansel_AI-main/Kansel_AI-main/proctoring.py:70-127 | Reference definition for one frame of the console loop. `FrameEffects`, `ViolationSkipsChecks` and `DetectorCalls` state its properties; `ProcessFrame` is stated against it. |
| Console.ConsoleMonitor | Kansel_AI-main/Kansel_AI-main/proctoring.py:65-127 | Reference definition for the console frame loop. `ConsoleKeepsEvidence`, `ConsoleEvidenceOnlyOnViolation` and `ConsoleCleanIffNoViolation` state its properties; `MonitorFrames` is stated against it. |
| Console.Iterate | Kansel_AI-main/Kansel_AI-main/proctoring.py:65-127 | One pass keeps the state equal to what `ConsoleMonitor` still has to produce. |
| Console.MonitorFrames | Kansel_AI-main/Kansel_AI-main/proctoring.py:65-127 | The frame loop ends in `ConsoleMonitor`'s state, with its warnings. |
| Console.ConsoleKeepsEvidence | Kansel_AI-main/Kansel_AI-main/proctoring.py:76-91 | Events, details and evidence paths stay in lockstep across the loop. |
| Console.ConsoleEvidenceOnlyOnViolation | Kansel_AI-main/Kansel_AI-main/proctoring.py:73-92 | Evidence changes only when the loop ends on a violation, and then it grows. |
| Console.ConsoleCleanIffNoViolation | Kansel_AI-main/Kansel_AI-main/proctoring.py:137-142 | The mail is the success note iff the loop did not end on a violation. Every recorded event's evidence path is `event_{i+1}.jpg`. |
| Console.PromptsSilent | Kansel_AI-main/Kansel_AI-main/proctoring.py:18-37 | The code and path prompts produce no report, no mail, no camera and no closing of the audio stream. |
| Console.AllWrong | Kansel_AI-main/Kansel_AI-main/proctoring.py:21-30 | Three wrong answers print 2, 1 and 0 attempts left, then the rejection. |
| Console.OtpFailureEndsEarly | Kansel_AI-main/Kansel_AI-main/proctoring.py:18-30 | Three wrong codes end the program after the rejection: no camera, no report, no mail. |
| Console.StartFailureReleases | Kansel_AI-main/Kansel_AI-main/proctoring.py:39-57 | A missing first frame or a failed identity check opens and then releases the camera, with no report and no mail. The audio stream opened before the check is never closed. |
| Console.OneReportOneMail | Kansel_AI-main/Kansel_AI-main/proctoring.py:59-142 | After a verified start the trace ends with release, close, exactly one report built from the final lists and exactly one email with the joined details or the fallback text. Nothing before produces a report or a mail. |
| Console.ClosingShape | Kansel_AI-main/Kansel_AI-main/proctoring.py:129-142 | The closing five events are in that order after any earlier events. |
| Console.CapturePhase | Kansel_AI-main/Kansel_AI-main/proctoring.py:39-142 | From opening the camera on, the events are `CaptureEvents` of the frame loop's final state. The detectors are built, opening the audio stream, before the first read, and `verify_identity` is consulted only after that read succeeded. |
| Console.Wrapup | Kansel_AI-main/Kansel_AI-main/proctoring.py:129-144 | Reference definition for the five closing events. `ClosingShape` and `OneReportOneMail` state its properties. |
| Console.CaptureEvents | Kansel_AI-main/Kansel_AI-main/proctoring.py:39-144 | Reference definition for the events from opening the camera on, including the audio stream opened before the first read. `StartFailureReleases` and `OneReportOneMail` state its properties. |
| Console.ConsoleTrace | Kansel_AI-main/Kansel_AI-main/proctoring.py:12-144 | Reference definition for everything `main` prints or sends. `OtpFailureEndsEarly`, `StartFailureReleases` and `OneReportOneMail` state its properties; `ProctorMain` is stated against it. |
| Console.Finish | Kansel_AI-main/Kansel_AI-main/proctoring.py:129-142 | Release, close the stream once, write the report, send the email, end. |
| Console.ProctorMain | Kansel_AI-main/Kansel_AI-main/proctoring.py:12-144 | Everything `main` prints or sends is exactly `ConsoleTrace` of the stripped name and email, the generated code, the answers, the identity check and the frame loop. |
| Text.NatToString | Kansel_AI-main/Kansel_AI-main/email_alert.py:94 | `str(n)` is nonempty decimal digits with no leading zero for n > 0. |
| Text.ParseRendered | Kansel_AI-main/Kansel_AI-main/email_alert.py:94 | `str(n)` reads back as n. |
| Text.NatToStringInjective | Kansel_AI-main/Kansel_AI-main/report_generator.py:17 | Different numbers render differently. |
| Text.NatToStringLength | Kansel_AI-main/Kansel_AI-main/email_alert.py:94 | A number between 10^k and 10^(k+1) has k+1 digits. |
| Text.StripLeftShape | Kansel_AI-main/Kansel_AI-main/proctoring.py:22 | Left strip removes exactly the leading whitespace. |
| Text.StripRightShape | Kansel_AI-main/Kansel_AI-main/proctoring.py:22 | Right strip removes exactly the trailing whitespace. |
| Text.StripKeepsFirst | Kansel_AI-main/Kansel_AI-main/email_alert.py:14 | Text starting with a non-space keeps its first character. |
| Text.StripUnchanged | Kansel_AI-main/Kansel_AI-main/email_alert.py:14 | Text with no space at either end is unchanged. |
| Text.LowerAt | Kansel_AI-main/Kansel_AI-main/email_alert.py:14 | Lower-casing works character by character. |
| Text.JoinStartsWithFirst | Kansel_AI-main/Kansel_AI-main/proctoring.py:140 | A join starts with its first part. |
| Text.LastSegmentIsSuffix | Kansel_AI-main/Kansel_AI-main/email_alert.py:59 | The last segment is a suffix without '/', preceded by '/' unless it is the whole path. |
| Text.LastSegmentOfJoined | Kansel_AI-main/Kansel_AI-main/email_alert.py:59 | A directory joined to a name without '/' gives back the name. |
| Text.Strip | Kansel_AI-main/Kansel_AI-main/proctoring.py:14 | Reference definition for `str.strip()` over Python whitespace. `StripLeftShape`, `StripRightShape`, `StripKeepsFirst` and `StripUnchanged` state its properties. |
| Text.Lower | Kansel_AI-main/Kansel_AI-main/email_alert.py:14 | Keeps the length. `LowerAt` states that it works character by character. |
| Text.Join | Kansel_AI-main/Kansel_AI-main/main.py:103 | Reference definition for `sep.join(parts)`. `JoinStartsWithFirst` states its properties. |
| Text.LastSegment | Kansel_AI-main/Kansel_AI-main/email_alert.py:59 | Reference definition for `split("/")[-1]`. `LastSegmentIsSuffix` and `LastSegmentOfJoined` state its properties. |

## Left out

- kansel_ui.py, the PyQt windows, `send_frame_to_ui`, `cv2.imshow` and `destroyAllWindows`: widgets and display only. The status text is recorded as signals. The console warning is computed but, as in the source, never drawn, because the drawing code is commented out.
- Inference and sensing: YOLO forward passes, non-maximum suppression, the box geometry, face encodings, MediaPipe landmarks, EAR, the pixel conversion of landmarks, the audio volume, and the light and noise analyser. Their outputs are inputs: detections per frame, a `nms` function, encodings and a `distance` function, eye measures, chunks with volume and time, and light and noise.
- Separate calls in one frame: `detect_malpractice_objects` and `detect_multiple_persons` each run the detector again. The model assumes both see the same detections.
- Browser logging, `LightNoiseAnalyzer` and the `coco.names` file: they are not part of this model.
- Clocks and randomness. A frame's formatted timestamp is its `stamp`. An audio chunk carries its own time. The random draw of the one-time code is a parameter in [100000, 999999].
- Files and mail transport: the image writes, the PDF rendering, file existence, `os.path.abspath`, and the SMTP login and send. Evidence writes are a ghost set of paths. The report is a sequence of blocks. Existing files are a set. An email is recorded by its arguments (`MailRequest`), and its contents are given by `EmailAlert.MalpracticeEmail`. The code mail is recorded as its recipient and code (`OtpMailed`).
- Concurrency: the window thread clearing `session_active` is a per-frame `cancelled` flag, taking effect at the next test of the loop. An exception inside the loop is a per-frame `fault`, holding the exception's text, raised at the start of that frame. The constructors that run before the first iteration (main.py:40-43) count as a fault of the first frame; when the exam was ended before the loop began, their failure is not modelled. Exceptions from `verify_identity`, `close`, `generate_report` and sending the email are the inputs `verifyRaises` and `raises`, each with the exception's text. Failures of `cap.read` and `cap.release` outside the loop are not modelled. The console program has no exception handler, and its exceptions are not modelled.
- Text.Strip and Text.Lower: strip covers Python's ASCII and Latin-1 whitespace, and lower covers only ASCII letters. All the texts compared here are ASCII.
- Console.ProctorMain: the path prompt loops forever when no answer names an existing file. The model requires that some scripted answer exists, and the typed answers are a finite script of at least three code answers. When the frame script runs out, that counts as a failed read.
- Console.ProcessFrame: the second `is_voice_detected` call in a frame reads its own chunk (`extraChunk`), since the real call reads fresh audio.
- The per-frame `print` of each violation description in the console program: it is the same text as the recorded detail, so it is not repeated in the trace.
