/**
 * The examiner notification and the one-time code (email_alert.py).
 *
 * A session whose details are empty or say that nothing happened is clean:
 * its message is success-toned and carries only the report. Otherwise the
 * message is an alert that quotes the details and carries the report followed
 * by every evidence image. The SMTP transport is not modelled: the result is
 * the message that would be sent.
 */
module EmailAlert {
  import Text

  /** The examiner address and sender credentials are empty placeholders in the source. */
  const ExaminerEmail: string := ""
  const SenderEmail: string := ""

  /** The detail texts that, stripped and lower-cased, mean "nothing happened". */
  const CleanPhrases: set<string> := {"no major violations.", "no malpractice"}

  datatype AttachmentKind = ReportPdf | EvidenceJpeg
  datatype Attachment = Attachment(kind: AttachmentKind, fileName: string, path: string)
  datatype Email = Email(sender: string, recipient: string, subject: string, body: string, attachments: seq<Attachment>)

  /** `no_malpractice`: empty details, or one of the clean phrases up to case and surrounding space. */
  predicate IsClean(details: string) {
    details == [] || Text.Lower(Text.Strip(details)) in CleanPhrases
  }

  /** Details that start with an upper-case 'M' (every violation description does) are never clean. */
  lemma DetailsStartingWithMNotClean(details: string)
    requires details != [] && details[0] == 'M'
    ensures !IsClean(details)
  {
    Text.StripKeepsFirst(details);
    Text.LowerAt(Text.Strip(details), 0);
    var lowered := Text.Lower(Text.Strip(details));
    assert lowered[0] == 'm';
    assert "no major violations."[0] == 'n' && "no malpractice"[0] == 'n';
  }

  /** The fixed parts of the two message bodies. */
  const CleanOpening: string := "Dear Examiner,\n\nThe exam for candidate "
  const CleanClosing: string := " was completed successfully.\n\n" +
    "\U{2705} No malpractice was detected during the session.\n\n" +
    "Please find attached the proctoring report for your reference.\n\nRegards,\nAI Proctoring System\n"
  const AlertOpening: string := "Dear Examiner,\n\nMalpractice was detected during the proctoring session of candidate: "
  const AlertClosing: string :=
    "\n\nPlease find attached the proctoring report and evidence snapshots.\n\nRegards,\nAI Proctoring System\n"

  function Subject(candidateName: string, clean: bool): string {
    if clean then "Exam Completed Successfully - " + candidateName
    else "Malpractice Alert for Candidate: " + candidateName
  }

  function CleanBody(candidateName: string): string {
    CleanOpening + candidateName + CleanClosing
  }

  /** The alert body up to the quoted details. */
  function AlertHead(candidateName: string): string {
    AlertOpening + candidateName + ".\n\nDetails:\n"
  }

  function AlertBody(candidateName: string, details: string): string {
    AlertHead(candidateName) + details + AlertClosing
  }

  /** The report is attached under its own path as file name. */
  function ReportAttachment(reportPath: string): Attachment {
    Attachment(ReportPdf, reportPath, reportPath)
  }

  /** An evidence image is attached under the text after the last '/'. */
  function EvidenceAttachment(path: string): Attachment {
    Attachment(EvidenceJpeg, Text.LastSegment(path), path)
  }

  /** The evidence attachments for a list of image paths, in order. */
  function EvidenceList(paths: seq<string>): (r: seq<Attachment>)
    ensures |r| == |paths|
  {
    if paths == [] then [] else EvidenceList(paths[..|paths| - 1]) + [EvidenceAttachment(paths[|paths| - 1])]
  }

  /** The evidence loop of `send_malpractice_email`: each image is appended, in order, after `parts`. */
  method AddEvidence(parts: seq<Attachment>, attachments: seq<string>) returns (r: seq<Attachment>)
    ensures r == parts + EvidenceList(attachments)
  {
    r := parts;
    var i := 0;
    while i < |attachments|
      invariant 0 <= i <= |attachments|
      invariant r == parts + EvidenceList(attachments[..i])
    {
      var filepath := attachments[i];
      r := r + [EvidenceAttachment(filepath)];
      assert attachments[..i + 1][..i] == attachments[..i];
      i := i + 1;
    }
    assert attachments[..i] == attachments;
  }

  /** The message `send_malpractice_email` hands to the mail server. */
  function MalpracticeEmail(candidateName: string, reportPath: string, details: string, attachments: seq<string>): Email {
    var clean := IsClean(details);
    Email(SenderEmail, ExaminerEmail, Subject(candidateName, clean),
      if clean then CleanBody(candidateName) else AlertBody(candidateName, details),
      MailAttachments(reportPath, clean, attachments))
  }

  /** The report, then the evidence images unless the session is clean. */
  function MailAttachments(reportPath: string, clean: bool, attachments: seq<string>): seq<Attachment> {
    [ReportAttachment(reportPath)] + (if clean then [] else EvidenceList(attachments))
  }

  /** Each evidence attachment is the image at that position, named by its last path segment. */
  lemma EvidenceAttachmentsNamed(reportPath: string, attachments: seq<string>)
    ensures var ms := MailAttachments(reportPath, false, attachments);
      |ms| == 1 + |attachments| &&
      ms[0] == Attachment(ReportPdf, reportPath, reportPath) &&
      forall i :: 0 <= i < |attachments| ==>
        var a := ms[i + 1];
        a == Attachment(EvidenceJpeg, Text.LastSegment(attachments[i]), attachments[i])
  {
    var ms := MailAttachments(reportPath, false, attachments);
    forall i | 0 <= i < |attachments|
      ensures var a := ms[i + 1];
        a == Attachment(EvidenceJpeg, Text.LastSegment(attachments[i]), attachments[i])
    {
      EvidenceListAt(attachments, i);
    }
  }

  /** `send_malpractice_email`: builds the message, adding the attachments one by one. */
  method SendMalpracticeEmail(candidateName: string, reportPath: string, details: string, attachments: seq<string>)
    returns (msg: Email)
    ensures msg == MalpracticeEmail(candidateName, reportPath, details, attachments)
  {
    var noMalpractice := IsClean(details);
    var subject := Subject(candidateName, noMalpractice);
    var body := if noMalpractice then CleanBody(candidateName) else AlertBody(candidateName, details);
    var parts := [ReportAttachment(reportPath)];
    if !noMalpractice {
      parts := AddEvidence(parts, attachments);
    }
    msg := Email(SenderEmail, ExaminerEmail, subject, body, parts);
  }

  /** The i-th evidence attachment is the i-th image, named after its last path segment. */
  lemma {:induction false} EvidenceListAt(paths: seq<string>, i: nat)
    requires i < |paths|
    ensures EvidenceList(paths)[i] == EvidenceAttachment(paths[i])
  {
    if i < |paths| - 1 {
      EvidenceListAt(paths[..|paths| - 1], i);
    }
  }

  /** A clean session mails a success note with the report as its only attachment. */
  lemma CleanMailCarriesOnlyReport(candidateName: string, reportPath: string, details: string, attachments: seq<string>)
    requires IsClean(details)
    ensures var m := MalpracticeEmail(candidateName, reportPath, details, attachments);
      m.recipient == ExaminerEmail &&
      m.subject == "Exam Completed Successfully - " + candidateName &&
      m.attachments == [ReportAttachment(reportPath)]
  {
  }

  /** An alert is titled as such and carries the report first, then every evidence image in order. */
  lemma AlertMailCarriesEvidence(candidateName: string, reportPath: string, details: string, attachments: seq<string>)
    requires !IsClean(details)
    ensures var m := MalpracticeEmail(candidateName, reportPath, details, attachments);
      m.subject == "Malpractice Alert for Candidate: " + candidateName &&
      m.attachments == MailAttachments(reportPath, false, attachments)
  {
  }

  /** The alert quotes the details verbatim right after its head. */
  lemma AlertQuotesDetails(candidateName: string, details: string)
    ensures var body := AlertBody(candidateName, details);
      var h := |AlertHead(candidateName)|;
      |body| >= h + |details| && body[h..h + |details|] == details
  {
    var tail := AlertClosing;
    var head := AlertHead(candidateName);
    assert AlertBody(candidateName, details) == head + details + tail;
    assert (head + details + tail)[|head|..|head| + |details|] == details;
  }

  /** `generate_otp`: `str(random.randint(100000, 999999))`; `draw` is the random integer. */
  function GenerateOtp(draw: int): (otp: string)
    requires 100000 <= draw <= 999999
    ensures |otp| == 6
    ensures forall i :: 0 <= i < |otp| ==> Text.IsDigit(otp[i])
    ensures otp[0] != '0'
    ensures Text.ParseDecimal(otp) == draw
  {
    assert Text.Pow10(5) == 100000 && Text.Pow10(6) == 1000000 by {
      assert Text.Pow10(1) == 10;
      assert Text.Pow10(2) == 100;
      assert Text.Pow10(3) == 1000;
      assert Text.Pow10(4) == 10000;
    }
    Text.NatToStringLength(draw, 5);
    Text.ParseRendered(draw);
    Text.NatToString(draw)
  }

  const OtpOpening: string := "Dear Candidate,\n\nYour One-Time Password (OTP) for starting the exam is:\n\n\U{1F510} OTP: "
  const OtpClosing: string := "\n\nPlease enter this code in the system to verify your identity.\n\n" +
    "Note: This code is valid for one login attempt only.\n\nRegards,\nAI Proctoring System\n"

  /** `send_otp_email`: the code goes to the candidate's address. */
  function OtpEmail(toEmail: string, otp: string): (msg: Email)
    ensures msg.recipient == toEmail && msg.attachments == []
    ensures msg.subject == "Your OTP Code for Exam Login"
    // The code appears verbatim right after the fixed opening.
    ensures |msg.body| >= |OtpOpening| + |otp| && msg.body[|OtpOpening|..|OtpOpening| + |otp|] == otp
  {
    assert (OtpOpening + otp + OtpClosing)[|OtpOpening|..|OtpOpening| + |otp|] == otp;
    Email(SenderEmail, toEmail, "Your OTP Code for Exam Login", OtpOpening + otp + OtpClosing, [])
  }
}
