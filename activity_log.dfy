/**
 * The plain activity log and its one-column PDF (activity_loger.py).
 *
 * Entries are appended as "timestamp - type: details". The report writes a
 * heading near the top of a US-letter page and then one entry per line, 15
 * points apart; when the next line would fall below 40 points a new page is
 * started, whose lines begin at 40 points below the top.
 */
module ActivityLog {

  /** Height of a US-letter page in points. */
  const PageHeight: int := 792
  const LineStep: int := 15
  const BottomMargin: int := 40
  /** The heading's height, also where every page after the first starts. */
  const TopY: int := PageHeight - 40
  /** Where the first entry is drawn. */
  const FirstY: int := PageHeight - 80

  function Entry(timestamp: string, eventType: string, details: string): string {
    timestamp + " - " + eventType + ": " + details
  }

  /** One drawn string: the page it is on (from 0) and its baseline height. */
  datatype Placement = Placement(page: nat, y: int, text: string)

  /** Where the line after one drawn at (page, y) goes. */
  function Advance(page: nat, y: int): (r: (nat, int))
    ensures r.1 >= BottomMargin
    ensures y - LineStep >= BottomMargin ==> r == (page, y - LineStep)
    ensures y - LineStep < BottomMargin ==> r == (page + 1, TopY)
  {
    if y - LineStep < BottomMargin then (page + 1, TopY) else (page, y - LineStep)
  }

  /** The (page, y) position of entry `i`. */
  function Position(i: nat): (nat, int) {
    if i == 0 then (0, FirstY) else Advance(Position(i - 1).0, Position(i - 1).1)
  }

  /** Lines that fit below the first entry on page 0, and on every later page. */
  const FirstPageLines: nat := 45
  const LinesPerPage: nat := 48

  /**
   * The closed form of the layout: page 0 holds entries 0 to 44 from 712 down;
   * every later page holds 48 entries from 752 down to 47.
   */
  lemma {:induction false} PositionClosedForm(i: nat)
    ensures i < FirstPageLines ==> Position(i) == (0, FirstY - LineStep * i)
    ensures i >= FirstPageLines ==>
      Position(i) == (1 + (i - FirstPageLines) / LinesPerPage, TopY - LineStep * ((i - FirstPageLines) % LinesPerPage))
  {
    if i < FirstPageLines {
      PositionOnFirstPage(i);
    } else {
      var k := i - FirstPageLines;
      PositionOnLaterPage(k / LinesPerPage, k % LinesPerPage);
    }
  }

  lemma {:induction false} PositionOnFirstPage(i: nat)
    requires i < FirstPageLines
    ensures Position(i) == (0, FirstY - LineStep * i)
  {
    if i > 0 {
      PositionOnFirstPage(i - 1);
      assert Position(i) == Advance(0, FirstY - LineStep * (i - 1));
    }
  }

  /** Line `r` of the page after `q` full later pages. */
  lemma {:induction false} PositionOnLaterPage(q: nat, r: nat)
    requires r < LinesPerPage
    ensures Position(FirstPageLines + LinesPerPage * q + r) == (1 + q, TopY - LineStep * r)
    decreases LinesPerPage * q + r
  {
    var n := FirstPageLines + LinesPerPage * q + r;
    if r > 0 {
      PositionOnLaterPage(q, r - 1);
      assert Position(n) == Advance(1 + q, TopY - LineStep * (r - 1));
    } else if q > 0 {
      PositionOnLaterPage(q - 1, LinesPerPage - 1);
      assert Position(n) == Advance(q, TopY - LineStep * (LinesPerPage - 1));
    } else {
      PositionOnFirstPage(FirstPageLines - 1);
      assert Position(n) == Advance(0, FirstY - LineStep * (FirstPageLines - 1));
    }
  }

  /** Every entry is drawn inside the page: between the bottom margin and the heading. */
  lemma EntriesOnPage(i: nat)
    ensures BottomMargin <= Position(i).1 <= TopY
  {
    PositionClosedForm(i);
  }

  /** The entries drawn one per line from the top of the first page. */
  function Layout(entries: seq<string>): (r: seq<Placement>)
    ensures |r| == |entries|
  {
    if entries == [] then []
    else
      var n := |entries| - 1;
      Layout(entries[..n]) + [Placement(Position(n).0, Position(n).1, entries[n])]
  }

  lemma {:induction false} LayoutAt(entries: seq<string>, k: nat)
    requires k < |entries|
    ensures Layout(entries)[k] == Placement(Position(k).0, Position(k).1, entries[k])
  {
    var n := |entries| - 1;
    if k < n {
      LayoutAt(entries[..n], k);
      assert entries[..n][k] == entries[k];
    }
  }

  class ActivityLogger {
    const candidateName: string
    var logs: seq<string>

    constructor (candidateName: string)
      ensures this.candidateName == candidateName && logs == []
    {
      this.candidateName := candidateName;
      logs := [];
    }

    /** `log`: `timestamp` is the formatted clock reading. */
    method Log(timestamp: string, eventType: string, details: string)
      modifies this
      ensures logs == old(logs) + [Entry(timestamp, eventType, details)]
    {
      logs := logs + [Entry(timestamp, eventType, details)];
    }

    /**
     * `generate_report`: the file name, the heading, and where each entry is drawn.
     * The path is relative; the source makes it absolute.
     */
    method GenerateReport() returns (fileName: string, heading: Placement, lines: seq<Placement>)
      ensures fileName == candidateName + "_proctoring_report.pdf"
      ensures heading == Placement(0, TopY, "Proctoring Report for " + candidateName)
      // Every entry is drawn exactly once, in log order, at its layout position.
      ensures |lines| == |logs|
      ensures forall i :: 0 <= i < |lines| ==> lines[i] == Placement(Position(i).0, Position(i).1, logs[i])
    {
      fileName := candidateName + "_proctoring_report.pdf";
      heading := Placement(0, TopY, "Proctoring Report for " + candidateName);
      var page: nat := 0;
      var y := FirstY;
      lines := [];
      var i := 0;
      while i < |logs|
        invariant 0 <= i <= |logs|
        invariant |lines| == i
        invariant (page, y) == Position(i)
        invariant lines == Layout(logs[..i])
      {
        assert logs[..i + 1][..i] == logs[..i];
        lines := lines + [Placement(page, y, logs[i])];
        y := y - LineStep;
        if y < BottomMargin {
          page := page + 1;
          y := TopY;
        }
        i := i + 1;
      }
      assert logs[..i] == logs;
      forall k | 0 <= k < |lines|
        ensures lines[k] == Placement(Position(k).0, Position(k).1, logs[k])
      {
        LayoutAt(logs, k);
      }
    }
  }
}
