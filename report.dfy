/**
 * The evidence log and the PDF report (report_generator.py).
 *
 * `ReportGenerator` keeps three append-only lists: malpractice events with an
 * optional evidence image, gaze events and voice events. The rendered report
 * is modelled as the sequence of blocks written to the document: lines of
 * text, embedded pictures and page breaks.
 */
module Report {
  import opened Wrappers
  import Text

  const ImageFolder: string := "report_images"

  /** `os.path.join("report_images", f"event_{n}.jpg")`. */
  function EventImagePath(n: nat): (p: string)
  {
    ImageFolder + "/" + ("event_" + Text.NatToString(n) + ".jpg")
  }

  /** The evidence file is named after its event number. */
  lemma EventImageFileName(n: nat)
    ensures Text.LastSegment(EventImagePath(n)) == "event_" + Text.NatToString(n) + ".jpg"
  {
    var name := "event_" + Text.NatToString(n) + ".jpg";
    assert name[6..|name| - 4] == Text.NatToString(n);
    Text.LastSegmentOfJoined(ImageFolder, name);
  }

  /** Different event numbers give different evidence files. */
  lemma EventImagePathInjective(a: nat, b: nat)
    requires EventImagePath(a) == EventImagePath(b)
    ensures a == b
  {
    var pa, pb := EventImagePath(a), EventImagePath(b);
    var sa, sb := Text.NatToString(a), Text.NatToString(b);
    assert |sa| == |sb|;
    assert sa == pa[|ImageFolder| + 7..|pa| - 4];
    assert sb == pb[|ImageFolder| + 7..|pb| - 4];
    Text.NatToStringInjective(a, b);
  }

  datatype MalpracticeEvent = MalpracticeEvent(description: string, imagePath: Option<string>)
  datatype GazeEvent = GazeEvent(timestamp: string, reason: string)

  /** Every stored image path is the file named after the event's 1-based position. */
  predicate ImagesNumbered(events: seq<MalpracticeEvent>) {
    forall i :: 0 <= i < |events| && events[i].imagePath.Some? ==>
      events[i].imagePath.value == EventImagePath(i + 1)
  }

  /** No two events share an evidence file. */
  lemma DistinctEvidence(events: seq<MalpracticeEvent>, i: nat, j: nat)
    requires ImagesNumbered(events)
    requires i < |events| && j < |events| && i != j
    requires events[i].imagePath.Some? && events[j].imagePath.Some?
    ensures events[i].imagePath.value != events[j].imagePath.value
  {
    if events[i].imagePath.value == events[j].imagePath.value {
      EventImagePathInjective(i + 1, j + 1);
    }
  }

  class ReportGenerator {
    const candidateName: string
    var events: seq<MalpracticeEvent>
    var gazeEvents: seq<GazeEvent>
    var voiceEvents: seq<string>
    /** The evidence files written to disk so far. */
    ghost var imagesWritten: set<string>

    ghost predicate Valid()
      reads this
    {
      ImagesNumbered(events) &&
      forall i :: 0 <= i < |events| && events[i].imagePath.Some? ==> events[i].imagePath.value in imagesWritten
    }

    constructor (candidateName: string)
      ensures Valid() && this.candidateName == candidateName
      ensures events == [] && gazeEvents == [] && voiceEvents == [] && imagesWritten == {}
    {
      this.candidateName := candidateName;
      events := [];
      gazeEvents := [];
      voiceEvents := [];
      imagesWritten := {};
    }

    /** `add_event`: with a frame, write it as the next evidence file and reference it. */
    method AddEvent(description: string, frameAvailable: bool)
      requires Valid()
      modifies this
      ensures Valid()
      ensures events == old(events) + [MalpracticeEvent(description,
        if frameAvailable then Some(EventImagePath(|old(events)| + 1)) else None)]
      ensures imagesWritten == old(imagesWritten) + (if frameAvailable then {EventImagePath(|old(events)| + 1)} else {})
      ensures gazeEvents == old(gazeEvents) && voiceEvents == old(voiceEvents)
    {
      if frameAvailable {
        var imagePath := ImageFolder + "/" + ("event_" + Text.NatToString(|events| + 1) + ".jpg");
        imagesWritten := imagesWritten + {imagePath};
        events := events + [MalpracticeEvent(description, Some(imagePath))];
      } else {
        events := events + [MalpracticeEvent(description, None)];
      }
    }

    /** `add_gaze_event`. */
    method AddGazeEvent(timestamp: string, reason: string)
      requires Valid()
      modifies this
      ensures Valid()
      ensures gazeEvents == old(gazeEvents) + [GazeEvent(timestamp, reason)]
      ensures events == old(events) && voiceEvents == old(voiceEvents) && imagesWritten == old(imagesWritten)
    {
      gazeEvents := gazeEvents + [GazeEvent(timestamp, reason)];
    }

    /** `add_voice_event`. */
    method AddVoiceEvent(timestamp: string)
      requires Valid()
      modifies this
      ensures Valid()
      ensures voiceEvents == old(voiceEvents) + [timestamp]
      ensures events == old(events) && gazeEvents == old(gazeEvents) && imagesWritten == old(imagesWritten)
    {
      voiceEvents := voiceEvents + [timestamp];
    }

    /**
     * `generate_report`: the document written and the path returned.
     * `coverExists` says whether the cover image is on disk, `loadable` which
     * evidence images the renderer can embed.
     */
    method GenerateReport(coverExists: bool, loadable: set<string>) returns (path: string, doc: seq<Block>)
      ensures path == ReportPath(candidateName)
      ensures doc == Document(candidateName, events, gazeEvents, voiceEvents, coverExists, loadable)
    {
      doc := Document(candidateName, events, gazeEvents, voiceEvents, coverExists, loadable);
      path := "proctoring_report_" + candidateName + ".pdf";
    }
  }

  /** What the document receives, in order. */
  datatype Block = Line(text: string) | Picture(path: string) | NewPage

  const CoverImage: string := "Report front Page.png"
  // Written in two parts so that the verifier sees the first characters, which it does not for a literal this long.
  const NoEventsLine: string := "No significant " + "malpractice events detected during the exam."
  const ImagePlaceholder: string := "[Image could not be loaded]"
  const NoGazeLine: string := "No gaze deviation detected."
  const NoVoiceLine: string := "No voice activity detected."
  const MalpracticeHeading: string := "Malpractice Events"
  const AppTitle: string := "Kansel AI Proctoring App"
  const CandidateLabel: string := "Candidate: "
  const ReportTitle: string := "Proctoring Report for Candidate: "

  function GazeHeading(n: nat): string {
    "Gaze Detection Summary (Total " + Text.NatToString(n) + " times):"
  }

  function VoiceHeading(n: nat): string {
    "Voice Detection Summary (Total " + Text.NatToString(n) + " times):"
  }

  function ReportPath(candidateName: string): (p: string)
    ensures |p| == |candidateName| + 22
    ensures p[..18] == "proctoring_report_" && p[18..|p| - 4] == candidateName && p[|p| - 4..] == ".pdf"
  {
    "proctoring_report_" + candidateName + ".pdf"
  }

  /** `f"{i}. {text}"`: a numbered line always starts with a digit. */
  function Numbered(i: nat, text: string): (s: string)
    ensures |s| > 0 && Text.IsDigit(s[0])
  {
    Text.NatToString(i) + ". " + text
  }

  /** `if img_path:` - Python truthiness of the optional path. */
  predicate HasImage(e: MalpracticeEvent) {
    e.imagePath.Some? && e.imagePath.value != ""
  }

  function ImageCount(events: seq<MalpracticeEvent>): nat {
    if events == [] then 0 else (if HasImage(events[0]) then 1 else 0) + ImageCount(events[1..])
  }

  /** One event: its numbered description, then its picture or the placeholder note. */
  function EventBlocks(i: nat, e: MalpracticeEvent, loadable: set<string>): seq<Block> {
    [Line(Numbered(i, e.description))] +
    (if !HasImage(e) then []
     else if e.imagePath.value in loadable then [Picture(e.imagePath.value)]
     else [Line(ImagePlaceholder)])
  }

  /** The events numbered from `first`, in order. */
  function EventListing(events: seq<MalpracticeEvent>, first: nat, loadable: set<string>): (r: seq<Block>)
    ensures |r| == |events| + ImageCount(events)
  {
    if events == [] then []
    else EventBlocks(first, events[0], loadable) + EventListing(events[1..], first + 1, loadable)
  }

  /** Where event i's blocks start in a listing. */
  function ListingOffset(events: seq<MalpracticeEvent>, i: nat): nat
    requires i <= |events|
  {
    i + ImageCount(events[..i])
  }

  lemma {:induction false} ImageCountAppend(a: seq<MalpracticeEvent>, b: seq<MalpracticeEvent>)
    ensures ImageCount(a + b) == ImageCount(a) + ImageCount(b)
  {
    if a != [] {
      assert (a + b)[1..] == a[1..] + b;
      ImageCountAppend(a[1..], b);
    } else {
      assert a + b == b;
    }
  }

  /**
   * No event is dropped: event i's number, description and picture (or the
   * placeholder when its image cannot be loaded) appear at its offset, in append order.
   */
  lemma {:induction false} ListingPlacesEvent(events: seq<MalpracticeEvent>, first: nat, loadable: set<string>, i: nat)
    requires i < |events|
    ensures ListingOffset(events, i) + |EventBlocks(first + i, events[i], loadable)| <= |EventListing(events, first, loadable)|
    ensures EventListing(events, first, loadable)[ListingOffset(events, i)..ListingOffset(events, i) + |EventBlocks(first + i, events[i], loadable)|]
         == EventBlocks(first + i, events[i], loadable)
    decreases |events|, 1
  {
    if i == 0 {
      var head := EventBlocks(first, events[0], loadable);
      var rest := EventListing(events[1..], first + 1, loadable);
      assert EventListing(events, first, loadable) == head + rest;
      assert events[..0] == [];
      assert (head + rest)[0..|head|] == head;
    } else {
      ListingPlacesLater(events, first, loadable, i);
    }
  }

  /** The step of `ListingPlacesEvent` past the first event. */
  lemma {:induction false} ListingPlacesLater(events: seq<MalpracticeEvent>, first: nat, loadable: set<string>, i: nat)
    requires 0 < i < |events|
    ensures ListingOffset(events, i) + |EventBlocks(first + i, events[i], loadable)| <= |EventListing(events, first, loadable)|
    ensures EventListing(events, first, loadable)[ListingOffset(events, i)..ListingOffset(events, i) + |EventBlocks(first + i, events[i], loadable)|]
         == EventBlocks(first + i, events[i], loadable)
    decreases |events|, 0
  {
    var head := EventBlocks(first, events[0], loadable);
    var rest := EventListing(events[1..], first + 1, loadable);
    var blocks := EventBlocks(first + i, events[i], loadable);
    assert EventListing(events, first, loadable) == head + rest;
    ListingPlacesEvent(events[1..], first + 1, loadable, i - 1);
    assert first + 1 + (i - 1) == first + i && events[1..][i - 1] == events[i];
    var k := ListingOffset(events[1..], i - 1);
    OffsetPastFirst(events, i);
    PlacedInAppend(head, rest, k, blocks);
  }

  /** Event i's offset is the first event's blocks plus its offset among the rest. */
  lemma OffsetPastFirst(events: seq<MalpracticeEvent>, i: nat)
    requires 0 < i <= |events|
    ensures ListingOffset(events, i) == 1 + (if HasImage(events[0]) then 1 else 0) + ListingOffset(events[1..], i - 1)
  {
    assert events[..i] == [events[0]] + events[1..][..i - 1];
    ImageCountAppend([events[0]], events[1..][..i - 1]);
    assert ImageCount([events[0]]) == if HasImage(events[0]) then 1 else 0;
  }

  /** A block run found at offset k of `r` is found at offset |h| + k of `h + r`. */
  lemma PlacedInAppend<T>(h: seq<T>, r: seq<T>, k: nat, b: seq<T>)
    requires k + |b| <= |r| && r[k..k + |b|] == b
    ensures |h| + k + |b| <= |h + r| && (h + r)[|h| + k..|h| + k + |b|] == b
  {
    assert (h + r)[|h| + k..|h| + k + |b|] == r[k..k + |b|];
  }

  /** Every block of a listing is a numbered line, a picture or the placeholder. */
  lemma {:induction false} ListingBlocks(events: seq<MalpracticeEvent>, first: nat, loadable: set<string>)
    ensures forall b :: b in EventListing(events, first, loadable) ==>
      b.Picture? || (b.Line? && (b.text == ImagePlaceholder || (b.text != [] && Text.IsDigit(b.text[0]))))
  {
    if events != [] {
      ListingBlocks(events[1..], first + 1, loadable);
    }
  }

  /** The malpractice section: a heading, then the events or the single no-events line. */
  function MalpracticeSection(events: seq<MalpracticeEvent>, loadable: set<string>): seq<Block> {
    [Line(MalpracticeHeading)] + (if events == [] then [Line(NoEventsLine)] else EventListing(events, 1, loadable))
  }

  /** Without events the section is the heading and the no-events line; otherwise a line per event plus its picture line. */
  lemma MalpracticeSectionShape(events: seq<MalpracticeEvent>, loadable: set<string>)
    ensures events == [] ==> MalpracticeSection(events, loadable) == [Line(MalpracticeHeading), Line(NoEventsLine)]
    ensures |MalpracticeSection(events, loadable)| == 1 + (if events == [] then 1 else |events| + ImageCount(events))
  {
  }

  /** The no-events line appears exactly when there are no events. */
  lemma NoEventsLineIffEmpty(events: seq<MalpracticeEvent>, loadable: set<string>)
    ensures Line(NoEventsLine) in MalpracticeSection(events, loadable) <==> events == []
  {
    if events != [] {
      ListingBlocks(events, 1, loadable);
      assert MalpracticeSection(events, loadable)[0] == Line(MalpracticeHeading);
      assert MalpracticeSection(events, loadable)[1..] == EventListing(events, 1, loadable);
      assert NoEventsLine[0] == 'N' && ImagePlaceholder[0] == '[';
    }
  }

  function GazeLine(i: nat, e: GazeEvent): string {
    Numbered(i, "At " + e.timestamp + ": " + e.reason)
  }

  /** The gaze summary: a heading with the count, then the numbered events or the none line. */
  function GazeSection(gaze: seq<GazeEvent>): seq<Block> {
    var body := if gaze == [] then [Line(NoGazeLine)]
                else seq(|gaze|, i requires 0 <= i < |gaze| => Line(GazeLine(i + 1, gaze[i])));
    [Line(GazeHeading(|gaze|))] + body
  }

  /** The heading counts the events, every event has its numbered line, and the none line appears exactly when there are none. */
  lemma GazeSectionContent(gaze: seq<GazeEvent>)
    ensures var r := GazeSection(gaze);
      |r| == 1 + (if gaze == [] then 1 else |gaze|) &&
      r[0] == Line(GazeHeading(|gaze|)) &&
      (forall i :: 0 <= i < |gaze| ==> r[i + 1] == Line(GazeLine(i + 1, gaze[i]))) &&
      (Line(NoGazeLine) in r <==> gaze == [])
  {
    var r := GazeSection(gaze);
    assert Line(NoGazeLine) != Line(GazeHeading(|gaze|));
    if gaze != [] {
      forall k | 0 <= k < |r|
        ensures r[k] != Line(NoGazeLine)
      {
        if k > 0 {
          assert Text.IsDigit(GazeLine(k, gaze[k - 1])[0]);
        }
      }
    }
  }

  function VoiceLine(i: nat, timestamp: string): string {
    Numbered(i, "Voice detected at " + timestamp)
  }

  /** The voice summary: a heading with the count, then the numbered events or the none line. */
  function VoiceSection(voice: seq<string>): seq<Block> {
    var body := if voice == [] then [Line(NoVoiceLine)]
                else seq(|voice|, i requires 0 <= i < |voice| => Line(VoiceLine(i + 1, voice[i])));
    [Line(VoiceHeading(|voice|))] + body
  }

  /** The heading counts the events, every event has its numbered line, and the none line appears exactly when there are none. */
  lemma VoiceSectionContent(voice: seq<string>)
    ensures var r := VoiceSection(voice);
      |r| == 1 + (if voice == [] then 1 else |voice|) &&
      r[0] == Line(VoiceHeading(|voice|)) &&
      (forall i :: 0 <= i < |voice| ==> r[i + 1] == Line(VoiceLine(i + 1, voice[i]))) &&
      (Line(NoVoiceLine) in r <==> voice == [])
  {
    var r := VoiceSection(voice);
    assert Line(NoVoiceLine) != Line(VoiceHeading(|voice|));
    if voice != [] {
      forall k | 0 <= k < |r|
        ensures r[k] != Line(NoVoiceLine)
      {
        if k > 0 {
          assert Text.IsDigit(VoiceLine(k, voice[k - 1])[0]);
        }
      }
    }
  }

  /** The front page: the cover image if present, otherwise the title and candidate lines. */
  function CoverPage(candidateName: string, coverExists: bool): seq<Block> {
    [NewPage] +
    (if coverExists then [Picture(CoverImage)]
     else [Line(AppTitle), Line(CandidateLabel + candidateName)])
  }

  /** The whole report: cover page, then on a new page the title and the three sections. */
  function Document(candidateName: string, events: seq<MalpracticeEvent>, gaze: seq<GazeEvent>,
                    voice: seq<string>, coverExists: bool, loadable: set<string>): seq<Block>
  {
    CoverPage(candidateName, coverExists) +
    [NewPage, Line(ReportTitle + candidateName)] +
    MalpracticeSection(events, loadable) + GazeSection(gaze) + VoiceSection(voice)
  }
}
