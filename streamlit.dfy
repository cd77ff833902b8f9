/** The Streamlit front end's session state: the research history and the run
    on display, updated by the research branch of `run`, and the sidebar's
    "Recent Research" list drawn from the history. */
module Streamlit {
  import opened Text
  import opened Options
  import opened Results
  import opened History

  /** The session state Streamlit keeps between reruns. */
  class StreamlitSession {
    const history: ResearchHistory
    var currentResearch: Option<HistoryRecord>

    constructor ()
      ensures fresh(history) && history.records == [] && currentResearch == None
    {
      history := new ResearchHistory();
      currentResearch := None;
    }

    /** The research branch of `run`. A run starts only when the button was
        pressed and the question is not blank. An agent that raises is caught
        by `run_research_with_progress`, which hands back `None`; a run is then
        filed only when its result is a non-empty dictionary, and becomes the
        current research, whose results are shown. When no run starts, the
        current research, if there is one, is shown again. */
    method Run(startPressed: bool, question: string, invocation: Invocation, timestamp: string)
      returns (shown: Shown)
      modifies this, history
      ensures Filed(startPressed, question, invocation) ==>
        && history.records == old(history.records) + [MakeRecord(question, invocation.result, timestamp)]
        && currentResearch == Some(MakeRecord(question, invocation.result, timestamp))
        && shown == NewResults(invocation.result, question)
      ensures !Filed(startPressed, question, invocation) ==>
        && history.records == old(history.records)
        && currentResearch == old(currentResearch)
      ensures Started(startPressed, question) && !Filed(startPressed, question, invocation) ==>
        shown == NoResults
      ensures !Started(startPressed, question) ==>
        shown == match old(currentResearch)
          case Some(rec) => CurrentResults(rec.result, rec.question)
          case None => NoResults
    {
      hide IsBlank, ResultIsNonEmpty, MakeRecord;
      shown := NoResults;
      if Started(startPressed, question) {
        var result: Option<ResearchResult> := match invocation
          case Returned(r) => Some(r)
          case Raised(_) => None;
        if result.Some? && ResultIsNonEmpty(result.value) {
          var record := MakeRecord(question, result.value, timestamp);
          history.Append(record);
          currentResearch := Some(record);
          shown := NewResults(result.value, question);
        }
      } else if currentResearch.Some? {
        shown := CurrentResults(currentResearch.value.result, currentResearch.value.question);
      }
    }
  }

  /** What the main area shows once `run` has handled the research branch:
      nothing, the results of the run just filed, or those of the current
      research under the "Current Research Results" header. */
  datatype Shown =
    | NoResults
    | NewResults(result: ResearchResult, question: string)
    | CurrentResults(result: ResearchResult, question: string)

  /** A run starts: the button was pressed and the question is not blank. */
  predicate Started(startPressed: bool, question: string) {
    startPressed && !IsBlank(question)
  }

  /** When `run` files a research run: started, with a question that is not
      blank, and an agent result that is truthy. */
  predicate Filed(startPressed: bool, question: string, invocation: Invocation) {
    && Started(startPressed, question)
    && invocation.Returned? && ResultIsNonEmpty(invocation.result)
  }

  /** Only a question with a non-space character can be filed; whitespace
      around it is kept in the record. */
  lemma FiledNeedsText(startPressed: bool, question: string, invocation: Invocation)
    requires Filed(startPressed, question, invocation)
    ensures exists k :: 0 <= k < |question| && !IsSpace(question[k])
  {
    BlankIffAllSpace(question);
  }

  // ---------------------------------------------------------------------------
  // Sidebar history
  // ---------------------------------------------------------------------------

  /** How many characters of a question the sidebar shows before `...`. */
  const QuestionPreview: nat := 100

  /** One expander of the sidebar's "Recent Research" list. An empty history
      shows a notice instead of a list. */
  datatype SidebarEntry = SidebarEntry(title: string, question: string, qualityScore: string, date: string)

  function Entry(n: int, rec: HistoryRecord): SidebarEntry {
    SidebarEntry("Research " + IntToString(n), Take(rec.question, QuestionPreview) + "...",
                 rec.qualityScore, rec.timestamp)
  }

  /** The number the sidebar gives entry `i` of the window, as written:
      `len(history) - i`. */
  function AsWrittenNumber(h: seq<HistoryRecord>, i: int): int {
    |h| - i
  }

  /** The sidebar as written: the window oldest first, entry `i` titled with
      `AsWrittenNumber`. */
  function SidebarAsWritten(h: seq<HistoryRecord>): (s: seq<SidebarEntry>)
    ensures |s| == |RecentWindow(h)|
  {
    var w := RecentWindow(h);
    seq(|w|, i requires 0 <= i < |w| => Entry(AsWrittenNumber(h, i), w[i]))
  }

  /** The number of the record shown as entry `i`: its 1-based position in the
      whole history. */
  function EntryNumber(h: seq<HistoryRecord>, i: int): int {
    |h| - |RecentWindow(h)| + i + 1
  }

  /** The sidebar as intended: the same entries in the same order, each titled
      with the number of the record it shows. */
  function Sidebar(h: seq<HistoryRecord>): (s: seq<SidebarEntry>)
    ensures |s| == |RecentWindow(h)|
  {
    var w := RecentWindow(h);
    seq(|w|, i requires 0 <= i < |w| => Entry(EntryNumber(h, i), w[i]))
  }

  /** Every entry of the corrected sidebar is titled `Research n` for the `n`-th
      record of the history, and shows that record's question (cut to a
      hundred characters), quality score and date. At most five are shown,
      numbered upwards without gaps and ending with the newest record. */
  lemma SidebarShowsNumberedRecords(h: seq<HistoryRecord>, i: nat)
    requires i < |Sidebar(h)|
    ensures |Sidebar(h)| <= WindowSize
    ensures 1 <= EntryNumber(h, i) <= |h|
    ensures Sidebar(h)[i] == Entry(EntryNumber(h, i), h[EntryNumber(h, i) - 1])
    ensures i + 1 == |Sidebar(h)| ==> EntryNumber(h, i) == |h|
  {
    var w := RecentWindow(h);
    assert w[i] == h[|h| - |w| + i];
  }

  /** As written, entry `i` is the corrected entry `i`, showing the same record
      in the same place, with only its title taken from the entry at the
      mirrored position: the entries are in order and the titles run backwards. */
  lemma AsWrittenIsReversedTitles(h: seq<HistoryRecord>, i: nat)
    requires i < |RecentWindow(h)|
    ensures SidebarAsWritten(h)[i] == Sidebar(h)[i].(title := Sidebar(h)[|RecentWindow(h)| - 1 - i].title)
  {
  }

  /** The titles as written are the intended titles in reverse order. */
  lemma SidebarTitlesReversed(h: seq<HistoryRecord>, i: nat)
    requires i < |RecentWindow(h)|
    ensures SidebarAsWritten(h)[i].title == Sidebar(h)[|RecentWindow(h)| - 1 - i].title
  {
  }

  /** As written, with two or more records the oldest entry on display carries
      the newest record's number, which differs from its own. */
  lemma SidebarMislabelsOldest(h: seq<HistoryRecord>)
    requires |h| >= 2
    ensures SidebarAsWritten(h)[0].title != Sidebar(h)[0].title
    ensures SidebarAsWritten(h)[0].title == "Research " + IntToString(|h|)
    ensures Sidebar(h)[0].question == Take(h[|h| - |RecentWindow(h)|].question, QuestionPreview) + "..."
    ensures SidebarAsWritten(h)[0] == Entry(|h|, h[|h| - |RecentWindow(h)|])
  {
    var w := RecentWindow(h);
    var shown := EntryNumber(h, 0);
    assert shown < |h|;
    var asWritten := "Research " + IntToString(|h|);
    var intended := "Research " + IntToString(shown);
    if asWritten == intended {
      assert asWritten[9..] == IntToString(|h|);
      assert intended[9..] == IntToString(shown);
      IntToStringRoundTrip(|h|);
      IntToStringRoundTrip(shown);
      assert false;
    }
  }
}
