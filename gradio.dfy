/** The Gradio front end's `ResearchInterface`: one call runs the agent, files
    the run in the history and renders four panes of text (the answer, the
    research process, the intelligence analysis and the quality assessment);
    two more render the history and export the panes as a Markdown report. */
module Gradio {
  import opened Options
  import opened Text
  import opened Layout
  import opened Results
  import opened History
  import opened Reports

  const BlankQuestionMessage := "Please enter a research question."
  const FailurePrefix := "Research failed: "
  const NoHistoryMessage := "No research history available."
  const NoExportMessage := "No research results to export."

  /** `str(e)` of the `ValueError` Python raises for `format('N/A', '.2f')`. */
  const NaFormatError := "Unknown format code 'f' for object of type 'str'"

  /** The four panes `conduct_research` returns. */
  datatype Display = Display(answer: string, process: string, intelligence: string, quality: string)

  const BlankDisplay := Display(BlankQuestionMessage, "", "", "")

  function FailureDisplay(message: string): Display {
    Display(FailurePrefix + message, "", "", "")
  }

  // ---------------------------------------------------------------------------
  // Research process pane
  // ---------------------------------------------------------------------------

  const ProcessHead := "## Research Process\n\n### Research Plan:\n"

  /** `sum(1 for f in findings if f.get('external_research'))`: the findings
      whose external research list is present and non-empty. */
  function ExternalConsulted(fs: seq<Finding>): (n: nat)
    ensures n <= |fs|
    decreases |fs|
  {
    if fs == [] then 0
    else ExternalConsulted(fs[..|fs| - 1]) + (if HasExternalResearch(fs[|fs| - 1]) then 1 else 0)
  }

  /** The count is every finding exactly when each one consulted external
      research, and zero exactly when none did. */
  lemma {:induction false} ExternalConsultedExtremes(fs: seq<Finding>)
    ensures ExternalConsulted(fs) == |fs| <==> forall i :: 0 <= i < |fs| ==> HasExternalResearch(fs[i])
    ensures ExternalConsulted(fs) == 0 <==> forall i :: 0 <= i < |fs| ==> !HasExternalResearch(fs[i])
    decreases |fs|
  {
    if fs != [] {
      var init := fs[..|fs| - 1];
      ExternalConsultedExtremes(init);
      assert forall i :: 0 <= i < |init| ==> init[i] == fs[i];
    }
  }

  function StepsCompletedLine(fs: seq<Finding>): string {
    "- Total research steps completed: " + IntToString(|fs|) + "\n"
  }

  function ExternalConsultedLine(fs: seq<Finding>): string {
    "- External sources consulted: " + IntToString(ExternalConsulted(fs)) + "\n"
  }

  function FindingsSummary(fs: seq<Finding>): string {
    "\n### Findings Summary:\n" + StepsCompletedLine(fs) + ExternalConsultedLine(fs)
  }

  /** The process pane: the numbered plan, then the two findings counts. */
  function ProcessSummary(r: ResearchResult): string {
    ProcessHead + Enumerate(Plan(r), 1, PlanLine) + FindingsSummary(FindingsOf(r))
  }

  /** The process pane's `+=` loop over `enumerate(research_plan, 1)`. */
  method BuildProcessSummary(r: ResearchResult) returns (s: string)
    ensures s == ProcessSummary(r)
  {
    hide FindingsSummary, PlanLine, Enumerate;
    s := AppendEnumerate(ProcessHead, Plan(r), 1, PlanLine);
    s := s + FindingsSummary(FindingsOf(r));
  }

  /** Plan step `k` is line `k + 1. step` of the process pane, and step `k + 1`
      follows it directly. */
  lemma ProcessPlanLines(r: ResearchResult, k: nat) returns (p: nat)
    requires k < |Plan(r)|
    ensures OccursAt(ProcessSummary(r), PlanLine(k + 1, Plan(r)[k]), p)
    ensures k + 1 < |Plan(r)| ==>
      OccursAt(ProcessSummary(r), PlanLine(k + 2, Plan(r)[k + 1]), p + |PlanLine(k + 1, Plan(r)[k])|)
  {
    hide FindingsSummary, PlanLine, Enumerate;
    var plan := Plan(r);
    var e := Enumerate(plan, 1, PlanLine);
    var c := FindingsSummary(FindingsOf(r));
    var q := EnumerateOccurs(plan, 1, PlanLine, k);
    OccursPrepend(ProcessHead, e, PlanLine(k + 1, plan[k]), q);
    OccursExtend(ProcessHead + e, c, PlanLine(k + 1, plan[k]), |ProcessHead| + q);
    p := |ProcessHead| + q;
    if k + 1 < |plan| {
      var q' := q + |PlanLine(k + 1, plan[k])|;
      OccursPrepend(ProcessHead, e, PlanLine(k + 2, plan[k + 1]), q');
      OccursExtend(ProcessHead + e, c, PlanLine(k + 2, plan[k + 1]), |ProcessHead| + q');
    }
  }

  /** The process pane ends with the two counts: every finding as a completed
      step, and the findings that consulted external research. */
  lemma ProcessCounts(r: ResearchResult)
    ensures EndsWith(ProcessSummary(r), StepsCompletedLine(FindingsOf(r)) + ExternalConsultedLine(FindingsOf(r)))
  {
    hide StepsCompletedLine, ExternalConsultedLine, Enumerate;
    var fs := FindingsOf(r);
    var a := ProcessHead + Enumerate(Plan(r), 1, PlanLine) + "\n### Findings Summary:\n";
    var t := StepsCompletedLine(fs) + ExternalConsultedLine(fs);
    assert ProcessSummary(r) == a + t;
    EndsWithAppend(a, t);
  }

  // ---------------------------------------------------------------------------
  // Intelligence analysis pane
  // ---------------------------------------------------------------------------

  const IntelligenceHead := "## Intelligence Analysis\n\n"
  const MultiAgentTitle := "### Multi-Agent Collaboration:\n"
  const HypothesesTitle := "\n### Generated Hypotheses:\n"

  /** `{score.get(key, 0):.2f}`: the score to two decimals, `0.00` when absent. */
  function Fixed2OrZero(n: Option<Number>): string {
    match n
    case Some(x) => x.fixed2
    case None => "0.00"
  }

  function RoleLine(role: string, score: Option<Number>): string {
    "- " + role + " Confidence: " + Fixed2OrZero(score) + "\n"
  }

  /** The collaboration block: only for a non-empty `multi_agent_analysis`,
      one line per role, scores read from `confidence_scores` (default `{}`). */
  function MultiAgentBlock(m: MultiAgentAnalysis): (b: string)
    ensures b == [] <==> !MultiAgentIsNonEmpty(m)
  {
    if !MultiAgentIsNonEmpty(m) then []
    else
      var scores := m.confidenceScores.GetOr(NoScores);
      MultiAgentTitle + RoleLine("Researcher", scores.researcherAvg)
        + RoleLine("Critic", scores.criticAvg) + RoleLine("Synthesizer", scores.synthesisConfidence)
  }

  /** A role without a score reads 0.00. */
  lemma RoleLineDefault(role: string)
    ensures RoleLine(role, None) == "- " + role + " Confidence: 0.00\n"
  {
    var head := "- " + role + " Confidence: ";
    assert RoleLine(role, None) == head + ("0.00" + "\n");
    assert "0.00" + "\n" == "0.00\n";
    Assoc("- " + role, " Confidence: ", "0.00\n");
    Assoc("- ", role, " Confidence: 0.00\n");
  }

  /** A non-empty analysis without confidence scores shows every role, each
      with the default score of `RoleLineDefault`. */
  lemma MultiAgentDefaults(m: MultiAgentAnalysis)
    requires MultiAgentIsNonEmpty(m) && m.confidenceScores.None?
    ensures MultiAgentBlock(m)
         == MultiAgentTitle + RoleLine("Researcher", None) + RoleLine("Critic", None) + RoleLine("Synthesizer", None)
  {
  }

  /** One numbered hypothesis: its statement in bold, its type and confidence. */
  function HypothesisEntry(i: int, h: Hypothesis): string {
    IntToString(i) + ". **" + h.statement + "**\n"
      + "   - Type: " + h.kind + "\n"
      + "   - Confidence: " + h.confidence.fixed2 + "\n\n"
  }

  /** The hypotheses block: only when there are hypotheses, numbered from 1. */
  function HypothesesBlock(hs: seq<Hypothesis>): (b: string)
    ensures b == [] <==> hs == []
  {
    if hs == [] then [] else HypothesesTitle + Enumerate(hs, 1, HypothesisEntry)
  }

  function IntelligenceSummary(r: ResearchResult): string {
    IntelligenceHead + MultiAgentBlock(MultiAgent(r)) + HypothesesBlock(HypothesesOf(r))
  }

  /** The intelligence pane's `+=` loop over `enumerate(hypotheses, 1)`. */
  method BuildIntelligenceSummary(r: ResearchResult) returns (s: string)
    ensures s == IntelligenceSummary(r)
  {
    hide MultiAgentBlock, HypothesisEntry, Enumerate;
    var hs := HypothesesOf(r);
    s := IntelligenceHead + MultiAgentBlock(MultiAgent(r));
    ghost var s0 := s;
    if hs != [] {
      s := AppendEnumerate(s + HypothesesTitle, hs, 1, HypothesisEntry);
      Assoc(s0, HypothesesTitle, Enumerate(hs, 1, HypothesisEntry));
    }
  }

  /** Hypothesis `k` is entry `k + 1` of the intelligence pane, and hypothesis
      `k + 1` follows it directly. */
  lemma IntelligenceHypotheses(r: ResearchResult, k: nat) returns (p: nat)
    requires k < |HypothesesOf(r)|
    ensures OccursAt(IntelligenceSummary(r), HypothesisEntry(k + 1, HypothesesOf(r)[k]), p)
    ensures k + 1 < |HypothesesOf(r)| ==>
      OccursAt(IntelligenceSummary(r), HypothesisEntry(k + 2, HypothesesOf(r)[k + 1]),
               p + |HypothesisEntry(k + 1, HypothesesOf(r)[k])|)
  {
    hide MultiAgentBlock, HypothesisEntry, Enumerate;
    var hs := HypothesesOf(r);
    var a := IntelligenceHead + MultiAgentBlock(MultiAgent(r));
    var e := Enumerate(hs, 1, HypothesisEntry);
    var q := EnumerateOccurs(hs, 1, HypothesisEntry, k);
    assert IntelligenceSummary(r) == a + (HypothesesTitle + e);
    OccursPrepend(HypothesesTitle, e, HypothesisEntry(k + 1, hs[k]), q);
    OccursPrepend(a, HypothesesTitle + e, HypothesisEntry(k + 1, hs[k]), |HypothesesTitle| + q);
    p := |a| + |HypothesesTitle| + q;
    if k + 1 < |hs| {
      var q' := q + |HypothesisEntry(k + 1, hs[k])|;
      OccursPrepend(HypothesesTitle, e, HypothesisEntry(k + 2, hs[k + 1]), q');
      OccursPrepend(a, HypothesesTitle + e, HypothesisEntry(k + 2, hs[k + 1]), |HypothesesTitle| + q');
    }
  }

  // ---------------------------------------------------------------------------
  // Quality assessment pane
  // ---------------------------------------------------------------------------

  const QualityHead := "## Quality Assessment\n\n"
  const IndicatorsTitle := "\n### Quality Indicators:\n"
  const PassIcon := '\U{2705}'
  const FailIcon := '\U{274C}'

  /** `f"{icon} {name.replace('_', ' ').title()}\n"`: a check mark for a true
      indicator, a cross for a false one. */
  function IndicatorLine(name: string, status: bool): (l: string)
    ensures |l| == |name| + 3
    ensures l[0] == PassIcon <==> status
    ensures l[0] == FailIcon <==> !status
  {
    [if status then PassIcon else FailIcon] + " " + Title(ReplaceChar(name, '_', ' ')) + "\n"
  }

  /** `IndicatorLine` in the shape `Enumerate` takes; the position is unused. */
  function IndicatorLineAt(i: int, indicator: (string, bool)): string {
    IndicatorLine(indicator.0, indicator.1)
  }

  function QualityScoreLine(q: QualityAssessment): string {
    "- **Overall Quality Score:** " + ScoreText(q) + "/10\n"
  }

  function ConfidenceLevelLine(confidence: Number): string {
    "- **Confidence Level:** " + confidence.fixed2 + "\n"
  }

  function CountLines(q: QualityAssessment): string {
    "- **Total Findings:** " + IntToString(q.totalFindings.GetOr(0)) + "\n"
      + "- **External Sources Used:** " + IntToString(q.externalSourcesUsed.GetOr(0)) + "\n"
      + "- **Source Diversity:** " + IntToString(q.sourceDiversity.GetOr(0)) + "\n"
  }

  /** `quality_assessment.get("quality_indicators", {})`, in insertion order. */
  function Indicators(q: QualityAssessment): seq<(string, bool)> {
    q.qualityIndicators.GetOr([])
  }

  function IndicatorLines(q: QualityAssessment): string {
    IndicatorsTitle + Enumerate(Indicators(q), 0, IndicatorLineAt)
  }

  /** The quality pane. An empty assessment leaves only the header. A non-empty
      one without `confidence_assessment` formats `'N/A'` with `.2f`, which
      raises: the pane then has no text and the run fails. */
  function QualitySummary(q: QualityAssessment): (res: Result<string, string>)
    ensures res.Failure? <==> QualityIsNonEmpty(q) && q.confidenceAssessment.None?
    ensures res.Failure? ==> res.error == NaFormatError
    ensures res.Success? ==> StartsWith(res.value, QualityHead)
    ensures res.Success? && !QualityIsNonEmpty(q) ==> res.value == QualityHead
  {
    if !QualityIsNonEmpty(q) then Success(QualityHead)
    else match q.confidenceAssessment
      case None => Failure(NaFormatError)
      case Some(c) =>
        var v := QualityHead + QualityScoreLine(q) + ConfidenceLevelLine(c) + CountLines(q) + IndicatorLines(q);
        assert v == QualityHead + (QualityScoreLine(q) + ConfidenceLevelLine(c) + CountLines(q) + IndicatorLines(q));
        StartsWithAppend(QualityHead, QualityScoreLine(q) + ConfidenceLevelLine(c) + CountLines(q) + IndicatorLines(q));
        Success(v)
  }

  /** The quality pane's `+=` statements and its loop over the indicators. */
  method BuildQualitySummary(q: QualityAssessment) returns (res: Result<string, string>)
    ensures res == QualitySummary(q)
  {
    hide QualityScoreLine, ConfidenceLevelLine, CountLines, IndicatorLineAt, Enumerate;
    var s := QualityHead;
    if !QualityIsNonEmpty(q) {
      return Success(s);
    }
    s := s + QualityScoreLine(q);
    if q.confidenceAssessment.None? {
      return Failure(NaFormatError);
    }
    s := s + ConfidenceLevelLine(q.confidenceAssessment.value);
    s := s + CountLines(q);
    ghost var s0 := s;
    var indicators := Indicators(q);
    s := AppendEnumerate(s + IndicatorsTitle, indicators, 0, IndicatorLineAt);
    Assoc(s0, IndicatorsTitle, Enumerate(indicators, 0, IndicatorLineAt));
    res := Success(s);
  }

  /** Indicator `k` gets line `k` of the indicator list, and indicator `k + 1`
      the line right after it: one line each, in the dictionary's order. */
  lemma QualityIndicatorLines(q: QualityAssessment, k: nat) returns (p: nat)
    requires QualityIsNonEmpty(q) && q.confidenceAssessment.Some?
    requires k < |Indicators(q)|
    ensures QualitySummary(q).Success?
    ensures OccursAt(QualitySummary(q).value, IndicatorLine(Indicators(q)[k].0, Indicators(q)[k].1), p)
    ensures k + 1 < |Indicators(q)| ==>
      OccursAt(QualitySummary(q).value, IndicatorLine(Indicators(q)[k + 1].0, Indicators(q)[k + 1].1),
               p + |IndicatorLine(Indicators(q)[k].0, Indicators(q)[k].1)|)
  {
    hide QualityScoreLine, ConfidenceLevelLine, CountLines, IndicatorLine, Enumerate;
    var ind := Indicators(q);
    var a := QualityHead + QualityScoreLine(q) + ConfidenceLevelLine(q.confidenceAssessment.value) + CountLines(q);
    var e := Enumerate(ind, 0, IndicatorLineAt);
    assert QualitySummary(q).value == a + (IndicatorsTitle + e);
    var piece := IndicatorLineAt(k, ind[k]);
    var q0 := EnumerateOccurs(ind, 0, IndicatorLineAt, k);
    OccursPrepend(IndicatorsTitle, e, piece, q0);
    OccursPrepend(a, IndicatorsTitle + e, piece, |IndicatorsTitle| + q0);
    p := |a| + |IndicatorsTitle| + q0;
    if k + 1 < |ind| {
      var next := IndicatorLineAt(k + 1, ind[k + 1]);
      var q1 := q0 + |piece|;
      OccursPrepend(IndicatorsTitle, e, next, q1);
      OccursPrepend(a, IndicatorsTitle + e, next, |IndicatorsTitle| + q1);
    }
  }

  // ---------------------------------------------------------------------------
  // conduct_research
  // ---------------------------------------------------------------------------

  /** The panes of a returned result, or the failure panes when formatting the
      quality pane raises. */
  function ResearchDisplay(r: ResearchResult): (d: Display)
    ensures QualitySummary(Quality(r)).Failure? ==> d == FailureDisplay(NaFormatError)
    ensures QualitySummary(Quality(r)).Success? ==>
      d == Display(FinalAnswerOr(r, NoFinalAnswer), ProcessSummary(r), IntelligenceSummary(r),
                   QualitySummary(Quality(r)).value)
  {
    match QualitySummary(Quality(r))
    case Failure(e) => FailureDisplay(e)
    case Success(quality) =>
      Display(FinalAnswerOr(r, NoFinalAnswer), ProcessSummary(r), IntelligenceSummary(r), quality)
  }

  /** The Gradio interface object; its history list is shared storage that
      only grows. */
  class GradioResearchInterface {
    const history: ResearchHistory

    constructor ()
      ensures fresh(history) && history.records == []
    {
      history := new ResearchHistory();
    }

    /** `conduct_research`. A blank question is refused before the agent is
        called. Once the agent returns, the run is filed in the history before
        any pane is formatted, so a formatting failure still leaves it there. */
    method ConductResearch(question: string, invocation: Invocation, timestamp: string) returns (d: Display)
      modifies history
      ensures IsBlank(question) ==> d == BlankDisplay && history.records == old(history.records)
      ensures !IsBlank(question) && invocation.Raised? ==>
        d == FailureDisplay(invocation.message) && history.records == old(history.records)
      ensures !IsBlank(question) && invocation.Returned? ==>
        && history.records == old(history.records) + [MakeRecord(question, invocation.result, timestamp)]
        && d == ResearchDisplay(invocation.result)
    {
      if IsBlank(question) {
        return BlankDisplay;
      }
      if invocation.Raised? {
        return FailureDisplay(invocation.message);
      }
      var result := invocation.result;
      history.Append(MakeRecord(question, result, timestamp));
      var answer := FinalAnswerOr(result, NoFinalAnswer);
      var process := BuildProcessSummary(result);
      var intelligence := BuildIntelligenceSummary(result);
      var quality := BuildQualitySummary(Quality(result));
      match quality
      case Failure(e) =>
        d := FailureDisplay(e);
      case Success(text) =>
        d := Display(answer, process, intelligence, text);
    }

    /** `get_research_history`: the loop over the last five records. */
    method GetResearchHistory() returns (text: string)
      ensures text == HistoryView(history.records)
    {
      var h := history.records;
      if h == [] {
        return NoHistoryMessage;
      }
      hide HistoryEntry, Enumerate;
      text := AppendEnumerate(HistoryTitle, RecentWindow(h), 1, HistoryEntry);
      assert HistoryTitle + [] == HistoryTitle;
    }
  }

  // ---------------------------------------------------------------------------
  // History pane
  // ---------------------------------------------------------------------------

  const HistoryTitle := "## Recent Research History\n\n"

  /** One numbered history entry: question, quality score and timestamp. */
  function HistoryEntry(i: int, rec: HistoryRecord): string {
    "### Research " + IntToString(i) + "\n"
      + "- **Question:** " + rec.question + "\n"
      + "- **Quality Score:** " + rec.qualityScore + "\n"
      + "- **Timestamp:** " + rec.timestamp + "\n\n"
  }

  /** The history pane: a notice for an empty history, otherwise the window of
      the last five records, numbered from 1 in insertion order. */
  function HistoryView(h: seq<HistoryRecord>): (v: string)
    ensures v == NoHistoryMessage <==> h == []
  {
    if h == [] then NoHistoryMessage
    else
      var v := HistoryTitle + Enumerate(RecentWindow(h), 1, HistoryEntry);
      assert v[0] == '#';
      v
  }

  /** Entry `k + 1` of the pane is the `k`-th record of the window, that is
      record `|h| - |window| + k` of the history; at most five are listed, and
      entry `k + 2` follows entry `k + 1` directly. */
  lemma HistoryViewEntries(h: seq<HistoryRecord>, k: nat) returns (p: nat)
    requires k < |RecentWindow(h)|
    ensures |RecentWindow(h)| <= WindowSize
    ensures OccursAt(HistoryView(h), HistoryEntry(k + 1, h[|h| - |RecentWindow(h)| + k]), p)
    ensures k + 1 < |RecentWindow(h)| ==>
      OccursAt(HistoryView(h), HistoryEntry(k + 2, h[|h| - |RecentWindow(h)| + k + 1]),
               p + |HistoryEntry(k + 1, h[|h| - |RecentWindow(h)| + k])|)
  {
    hide HistoryEntry, Enumerate, RecentWindow;
    var w := RecentWindow(h);
    var e := Enumerate(w, 1, HistoryEntry);
    assert HistoryView(h) == HistoryTitle + e;
    WindowIndex(h, k);
    var q := EnumerateOccurs(w, 1, HistoryEntry, k);
    OccursPrepend(HistoryTitle, e, HistoryEntry(k + 1, w[k]), q);
    p := |HistoryTitle| + q;
    if k + 1 < |w| {
      WindowIndex(h, k + 1);
      OccursPrepend(HistoryTitle, e, HistoryEntry(k + 2, w[k + 1]), q + |HistoryEntry(k + 1, w[k])|);
    }
  }

  lemma WindowIndex(h: seq<HistoryRecord>, k: nat)
    requires k < |RecentWindow(h)|
    ensures RecentWindow(h)[k] == h[|h| - |RecentWindow(h)| + k]
  {
  }

  /** After a run is filed, the pane ends with it, numbered with the window's
      new size: the newest run is always the last entry shown. */
  lemma NewestShownLast(h: seq<HistoryRecord>, rec: HistoryRecord)
    ensures EndsWith(HistoryView(h + [rec]), HistoryEntry(|RecentWindow(h + [rec])|, rec))
  {
    hide HistoryEntry, Enumerate;
    var w := RecentWindow(h + [rec]);
    WindowAfterAppend(h, rec);
    var init := w[..|w| - 1];
    assert w == init + [rec];
    EnumerateAppend(init, rec, 1, HistoryEntry);
    var a := HistoryTitle + Enumerate(init, 1, HistoryEntry);
    assert HistoryView(h + [rec]) == a + HistoryEntry(|w|, rec);
    EndsWithAppend(a, HistoryEntry(|w|, rec));
  }

  // ---------------------------------------------------------------------------
  // export_research_results
  // ---------------------------------------------------------------------------

  /** An answer pane that is empty or carries one of the two refusal messages
      is not exported. */
  predicate ExportRefused(answer: string) {
    answer == [] || StartsWith(answer, "Please enter") || StartsWith(answer, "Research failed")
  }

  function ExportHead(timestamp: string): string {
    "# AI Research Agent - Research Report\n\nGenerated on: " + timestamp + "\n\n## Final Answer\n\n"
  }

  const Gap := "\n\n"
  const ExportTail := "\n\n---\n\n*This report was generated by the AI Research Agent - Phase 5 User Experience*\n"

  /** The exported report; the timestamp is the caller's
      `datetime.now().strftime('%Y-%m-%d %H:%M:%S')`. */
  function Export(answer: string, process: string, intelligence: string, quality: string,
                  timestamp: string): (e: string)
    ensures ExportRefused(answer) ==> e == NoExportMessage
    ensures !ExportRefused(answer) ==> StartsWith(e, ExportHead(timestamp) + answer)
  {
    if ExportRefused(answer) then NoExportMessage
    else
      var e := ExportHead(timestamp) + answer + Gap + process + Gap + intelligence + Gap + quality + ExportTail;
      StartsWithInOrder(ExportHead(timestamp), answer, Gap, process, intelligence, quality, ExportTail);
      e
  }

  /** The four panes appear in the export in the order answer, process,
      intelligence, quality, each separated from the next by a blank line. */
  lemma ExportInOrder(answer: string, process: string, intelligence: string, quality: string,
                      timestamp: string) returns (p1: nat, p2: nat, p3: nat, p4: nat)
    requires !ExportRefused(answer)
    ensures OccursAt(Export(answer, process, intelligence, quality, timestamp), answer, p1)
    ensures OccursAt(Export(answer, process, intelligence, quality, timestamp), process, p2)
    ensures OccursAt(Export(answer, process, intelligence, quality, timestamp), intelligence, p3)
    ensures OccursAt(Export(answer, process, intelligence, quality, timestamp), quality, p4)
    ensures p2 == p1 + |answer| + 2 && p3 == p2 + |process| + 2 && p4 == p3 + |intelligence| + 2
    ensures OccursAt(Export(answer, process, intelligence, quality, timestamp), Gap, p1 + |answer|)
    ensures OccursAt(Export(answer, process, intelligence, quality, timestamp), Gap, p2 + |process|)
    ensures OccursAt(Export(answer, process, intelligence, quality, timestamp), Gap, p3 + |intelligence|)
  {
    hide ExportHead;
    p1, p2, p3, p4 := PartsInOrder(ExportHead(timestamp), answer, Gap, process, intelligence, quality, ExportTail);
    GapsInOrder(ExportHead(timestamp), answer, Gap, process, intelligence, quality, ExportTail);
  }

  /** `h + a + s + b + s + c + s + d + t` starts with `h + a`. */
  lemma StartsWithInOrder(h: string, a: string, s: string, b: string, c: string, d: string, t: string)
    ensures StartsWith(h + a + s + b + s + c + s + d + t, h + a)
  {
    var x := h + a + s + b + s + c + s + d + t;
    assert x[..|h + a|] == h + a;
  }

  /** Where the four inner parts of `h + a + s + b + s + c + s + d + t` sit. */
  lemma PartsInOrder(h: string, a: string, s: string, b: string, c: string, d: string, t: string)
    returns (p1: nat, p2: nat, p3: nat, p4: nat)
    ensures OccursAt(h + a + s + b + s + c + s + d + t, a, p1)
    ensures OccursAt(h + a + s + b + s + c + s + d + t, b, p2)
    ensures OccursAt(h + a + s + b + s + c + s + d + t, c, p3)
    ensures OccursAt(h + a + s + b + s + c + s + d + t, d, p4)
    ensures p1 == |h| && p2 == p1 + |a| + |s| && p3 == p2 + |b| + |s| && p4 == p3 + |c| + |s|
  {
    p1, p2, p3, p4 := |h|, |h| + |a| + |s|, |h| + |a| + |s| + |b| + |s|, |h| + |a| + |s| + |b| + |s| + |c| + |s|;
    var x1 := h + a + s;
    var x2 := x1 + b + s;
    var x3 := x2 + c + s;
    var x4 := x3 + d + t;
    OccursInConcat(h, a, s);
    OccursExtend(x1, b + s, a, p1);
    assert x1 + b + s == x1 + (b + s);
    OccursExtend(x2, c + s, a, p1);
    assert x2 + c + s == x2 + (c + s);
    OccursExtend(x3, d + t, a, p1);
    assert x3 + d + t == x3 + (d + t);
    OccursInConcat(x1, b, s);
    OccursExtend(x2, c + s, b, p2);
    OccursExtend(x3, d + t, b, p2);
    OccursInConcat(x2, c, s);
    OccursExtend(x3, d + t, c, p3);
    OccursInConcat(x3, d, t);
  }

  /** Where the three separators of `h + a + s + b + s + c + s + d + t` sit:
      each right after the part it follows. */
  lemma GapsInOrder(h: string, a: string, s: string, b: string, c: string, d: string, t: string)
    ensures OccursAt(h + a + s + b + s + c + s + d + t, s, |h| + |a|)
    ensures OccursAt(h + a + s + b + s + c + s + d + t, s, |h| + |a| + |s| + |b|)
    ensures OccursAt(h + a + s + b + s + c + s + d + t, s, |h| + |a| + |s| + |b| + |s| + |c|)
  {
    var p1, p2, p3 := |h| + |a|, |h| + |a| + |s| + |b|, |h| + |a| + |s| + |b| + |s| + |c|;
    SeparatorAtEnd(h + a, s);
    OccursExtend(h + a + s, b, s, p1);
    OccursExtend(h + a + s + b, s, s, p1);
    SeparatorAtEnd(h + a + s + b, s);
    OccursExtend(h + a + s + b + s, c, s, p1);
    OccursExtend(h + a + s + b + s, c, s, p2);
    OccursExtend(h + a + s + b + s + c, s, s, p1);
    OccursExtend(h + a + s + b + s + c, s, s, p2);
    SeparatorAtEnd(h + a + s + b + s + c, s);
    OccursExtend(h + a + s + b + s + c + s, d, s, p1);
    OccursExtend(h + a + s + b + s + c + s, d, s, p2);
    OccursExtend(h + a + s + b + s + c + s, d, s, p3);
    OccursExtend(h + a + s + b + s + c + s + d, t, s, p1);
    OccursExtend(h + a + s + b + s + c + s + d, t, s, p2);
    OccursExtend(h + a + s + b + s + c + s + d, t, s, p3);
  }

  /** `s` occurs at the end of `x + s`. */
  lemma SeparatorAtEnd(x: string, s: string)
    ensures OccursAt(x + s, s, |x|)
  {
    assert (x + s)[|x|..|x| + |s|] == s;
  }

  /** Neither message a failed or refused run shows is ever exported. */
  lemma RefusalsNotExported(message: string)
    ensures ExportRefused(BlankDisplay.answer)
    ensures ExportRefused(FailureDisplay(message).answer)
  {
    assert BlankQuestionMessage[..12] == "Please enter";
    assert (FailurePrefix + message)[..15] == "Research failed";
  }
}
