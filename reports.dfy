/** The Streamlit export layer: the key-findings extraction shared by the
    research-process view and the Markdown export, the Markdown report, and the
    one-paragraph summary. The wall-clock time the source reads with
    `datetime.now()` is the `timestamp` parameter, already formatted. */
module Reports {
  import opened Options
  import opened Text
  import opened Layout
  import opened Results

  const KeyFindingsMarker := "KEY_FINDINGS:"
  const NewConceptsMarker := "NEW_CONCEPTS:"

  /** Appending a newline cannot create an occurrence of a marker that does not
      end in a newline. */
  lemma NoMarkerAfterNewline(t: string, m: string)
    requires m != [] && m[|m| - 1] != '\n' && !Contains(t, m)
    ensures !Contains(t + "\n", m)
  {
    forall j | 0 <= j && j + |m| <= |t| + 1
      ensures !OccursAt(t + "\n", m, j)
    {
      if j + |m| <= |t| {
        assert (t + "\n")[j..j + |m|] == t[j..j + |m|];
        assert !OccursAt(t, m, j);
      } else {
        assert (t + "\n")[j..j + |m|][|m| - 1] == '\n';
      }
    }
  }

  // ---------------------------------------------------------------------------
  // Key findings
  // ---------------------------------------------------------------------------

  /** `analysis.split('KEY_FINDINGS:')[1].split('NEW_CONCEPTS:')[0].strip()`.
      The second piece of the first split runs from the first KEY_FINDINGS: to
      the next one (or the end); it is then cut at its first NEW_CONCEPTS:. */
  function ExtractKeyFindings(analysis: string): (k: string)
    requires Contains(analysis, KeyFindingsMarker)
    ensures !Contains(k, KeyFindingsMarker) && !Contains(k, NewConceptsMarker)
    ensures k == [] || (!IsSpace(k[0]) && !IsSpace(k[|k| - 1]))
  {
    var piece := Before(After(analysis, KeyFindingsMarker), KeyFindingsMarker);
    var cut := Before(piece, NewConceptsMarker);
    NotContainsSlice(piece, KeyFindingsMarker, 0, |cut|);
    assert piece[0..|cut|] == cut;
    StripKeepsAbsence(cut, KeyFindingsMarker);
    StripKeepsAbsence(cut, NewConceptsMarker);
    Strip(cut)
  }

  /** The key-findings text of one finding's analysis, present exactly when the
      analysis contains `KEY_FINDINGS:`; otherwise nothing is shown. */
  function KeyFindings(analysis: string): (k: Option<string>)
    ensures k.Some? <==> Contains(analysis, KeyFindingsMarker)
    ensures k.Some? ==> !Contains(k.value, KeyFindingsMarker) && !Contains(k.value, NewConceptsMarker)
    ensures k.Some? ==> k.value == [] || (!IsSpace(k.value[0]) && !IsSpace(k.value[|k.value| - 1]))
  {
    if Contains(analysis, KeyFindingsMarker) then Some(ExtractKeyFindings(analysis)) else None
  }

  /** Where the extracted text comes from. With `start` just past the first
      KEY_FINDINGS:, the piece of the first split runs to the next KEY_FINDINGS:
      found from `start` on (or to the end), and is cut at the first
      NEW_CONCEPTS: found inside it; the result is that cut stripped. It is the
      slice of the analysis starting at `lo`, with only whitespace between
      `start` and `lo` and between its end and the end of the cut, and no second
      KEY_FINDINGS: starts before the cut ends. */
  lemma KeyFindingsPosition(analysis: string) returns (lo: nat)
    requires Contains(analysis, KeyFindingsMarker)
    ensures var start := FindFirst(analysis, KeyFindingsMarker).value + |KeyFindingsMarker|;
            var ce := CutEnd(analysis, KeyFindingsMarker, NewConceptsMarker);
            var k := ExtractKeyFindings(analysis);
            && k == Strip(analysis[start..ce])
            && start <= lo && lo + |k| <= ce && k == analysis[lo..lo + |k|]
            && AllSpace(analysis[start..lo]) && AllSpace(analysis[lo + |k|..ce])
            && forall j :: start <= j < ce ==> !OccursAt(analysis, KeyFindingsMarker, j)
  {
    hide Strip, Before, After, FindFirst, CutEnd;
    lo := SplitPiecePosition(analysis, KeyFindingsMarker, NewConceptsMarker);
  }

  /** Where `s.split(m)[1].split(n)[0]` ends, found with `str.find` from the
      piece's `start`: at the next `m` (or the end of `s`), or earlier at the
      first `n` lying wholly before it. */
  function CutEnd(s: string, m: string, n: string): (ce: nat)
    requires Contains(s, m)
    ensures FindFirst(s, m).value + |m| <= ce <= |s|
  {
    var start := FindFirst(s, m).value + |m|;
    var e := FindFrom(s, m, start);
    var pe := if e.Some? then e.value else |s|;
    var nc := FindFirst(s[start..pe], n);
    if nc.Some? then start + nc.value else pe
  }

  /** `s.split(m)[1].split(n)[0].strip()` is the stripped slice of `s` from just
      past the first `m` to the next `m` or, before it, the first `n` that lies
      wholly in between. */
  lemma SplitPiecePosition(s: string, m: string, n: string) returns (lo: nat)
    requires m != [] && n != [] && Contains(s, m)
    ensures var start := FindFirst(s, m).value + |m|;
            var ce := CutEnd(s, m, n);
            var k := Strip(Before(Before(After(s, m), m), n));
            && k == Strip(s[start..ce])
            && start <= lo && lo + |k| <= ce && k == s[lo..lo + |k|]
            && AllSpace(s[start..lo]) && AllSpace(s[lo + |k|..ce])
            && forall j :: start <= j < ce ==> !OccursAt(s, m, j)
  {
    hide *;
    var after := After(s, m);
    var piece := Before(after, m);
    var cut := Before(piece, n);
    var off := StripSlice(cut);
    AfterStart(s, m);
    var start := |s| - |after|;
    lo := PieceCore(s, m, start, after, piece, cut, off, Strip(cut));
    PieceEnd(s, m, n, start, after, piece, cut);
    TrailingSpace(s, start, cut, lo, |Strip(cut)|);
  }

  lemma AfterStart(s: string, m: string)
    requires Contains(s, m)
    ensures FindFirst(s, m).value + |m| == |s| - |After(s, m)|
  {
  }

  /** The slicing facts behind `SplitPiecePosition`, over plain texts. */
  lemma PieceCore(s: string, m: string, start: nat, after: string, piece: string, cut: string, off: nat, k: string)
    returns (lo: nat)
    requires start + |after| == |s| && after == s[start..]
    requires |piece| <= |after| && piece == after[..|piece|]
    requires forall j :: 0 <= j < |piece| ==> !OccursAt(after, m, j)
    requires |cut| <= |piece| && cut == piece[..|cut|]
    requires off + |k| <= |cut| && k == cut[off..off + |k|] && AllSpace(cut[..off])
    ensures lo == start + off
    ensures lo + |k| <= |s| && k == s[lo..lo + |k|]
    ensures AllSpace(s[start..lo])
    ensures forall j :: start <= j < lo + |k| ==> !OccursAt(s, m, j)
  {
    SliceOfSuffix(s, after, piece, cut);
    SliceChain(s, start, cut, off, k);
    lo := start + off;
    NoOccurrenceShifted(s, m, start, |piece|);
  }

  /** Where the two cuts end: the first at the next `m` found from `start`
      (or the end of `s`), the second at the first `n` found in the first. */
  lemma PieceEnd(s: string, m: string, n: string, start: nat, after: string, piece: string, cut: string)
    requires m != [] && n != [] && Contains(s, m) && start == FindFirst(s, m).value + |m|
    requires start + |after| == |s| && after == s[start..]
    requires |piece| <= |after| && piece == after[..|piece|]
    requires forall j :: 0 <= j < |piece| ==> !OccursAt(after, m, j)
    requires |piece| == |after| || OccursAt(after, m, |piece|)
    requires |cut| <= |piece| && cut == piece[..|cut|]
    requires forall j :: 0 <= j < |cut| ==> !OccursAt(piece, n, j)
    requires |cut| == |piece| || OccursAt(piece, n, |cut|)
    ensures CutEnd(s, m, n) == start + |cut| && cut == s[start..start + |cut|]
    ensures forall j :: start <= j < start + |cut| ==> !OccursAt(s, m, j)
  {
    hide FindFrom, FindFirst;
    NoOccurrenceShifted(s, m, start, |piece|);
    if |piece| < |after| {
      assert s[start..|s|] == after;
      OccursInSlice(s, m, start, |s|, |piece|);
    }
    FindFromAt(s, m, start, start + |piece|);
    SliceOfSuffix(s, after, piece, piece);
    FindFirstAt(piece, n, |cut|);
    SliceOfSuffix(s, after, piece, cut);
  }

  /** The whitespace after the stripped text, up to the end of the cut, is
      whitespace of `s`. */
  lemma TrailingSpace(s: string, start: nat, cut: string, lo: nat, len: nat)
    requires start + |cut| <= |s| && cut == s[start..start + |cut|]
    requires start <= lo && lo + len <= start + |cut|
    requires AllSpace(cut[lo - start + len..])
    ensures AllSpace(s[lo + len..start + |cut|])
  {
    assert cut[lo - start + len..] == s[lo + len..start + |cut|];
  }

  /** A prefix of a prefix of a suffix of `s` is a slice of `s`. */
  lemma SliceOfSuffix(s: string, after: string, piece: string, cut: string)
    requires |after| <= |s| && after == s[|s| - |after|..]
    requires |piece| <= |after| && piece == after[..|piece|]
    requires |cut| <= |piece| && cut == piece[..|cut|]
    ensures cut == s[|s| - |after|..|s| - |after| + |cut|]
  {
  }

  /** A slice of a slice of `s` is a slice of `s`, and so is what lies before it. */
  lemma SliceChain(s: string, start: nat, cut: string, off: nat, k: string)
    requires start + |cut| <= |s| && cut == s[start..start + |cut|]
    requires off + |k| <= |cut| && k == cut[off..off + |k|]
    ensures k == s[start + off..start + off + |k|] && cut[..off] == s[start..start + off]
  {
    forall i | 0 <= i < |k|
      ensures k[i] == s[start + off + i]
    {
      assert k[i] == cut[off + i];
    }
    forall i | 0 <= i < off
      ensures cut[i] == s[start + i]
    {
    }
  }

  /** No occurrence in the first `bound` positions of `s[start..]` means none
      in positions `start .. start + bound` of `s`. */
  lemma NoOccurrenceShifted(s: string, m: string, start: nat, bound: nat)
    requires start <= |s|
    requires forall j :: 0 <= j < bound ==> !OccursAt(s[start..], m, j)
    ensures forall j :: start <= j < start + bound ==> !OccursAt(s, m, j)
  {
    forall j | start <= j < start + bound
      ensures !OccursAt(s, m, j)
    {
      if OccursAt(s, m, j) {
        OccursInSuffix(s, m, start, j);
      }
    }
  }

  lemma OccursInSuffix(s: string, m: string, start: nat, j: int)
    requires start <= j && start <= |s| && OccursAt(s, m, j)
    ensures OccursAt(s[start..], m, j - start)
  {
    assert s[start..][j - start..j - start + |m|] == s[j..j + |m|];
  }

  // ---------------------------------------------------------------------------
  // Markdown report (generate_markdown_report)
  // ---------------------------------------------------------------------------

  const PlanTitle := "\n### Research Plan\n"
  const FindingsTitle := "\n### Key Findings\n"
  const QualityTitle := "\n## Quality Assessment\n"

  /** `f"{i}. {step}\n"`: one numbered plan line. */
  function PlanLine(i: int, step: string): string {
    IntToString(i) + ". " + step + "\n"
  }

  function ReportHeader(question: string, answer: string): string {
    "# Research Report\n\n## Research Question\n" + question
      + "\n\n## Final Answer\n" + answer + "\n\n## Research Process\n"
  }

  /** The plan section is there only for a non-empty plan. */
  function PlanSection(plan: seq<string>): (s: string)
    ensures s == [] <==> plan == []
  {
    if plan == [] then [] else PlanTitle + Enumerate(plan, 1, PlanLine)
  }

  /** `#### Step {step + 1}: {step_description}`, numbered by the finding's own
      step index, not by its position. */
  function FindingHeading(f: Finding): string {
    "\n#### Step " + IntToString(f.step + 1) + ": " + f.stepDescription + "\n"
  }

  /** One finding's part of the report: its heading, then its key findings if
      its analysis has a KEY_FINDINGS: marker, and nothing more otherwise. */
  function FindingBlock(f: Finding): string {
    FindingHeading(f) + match KeyFindings(AnalysisOf(f)) case None => [] case Some(k) => k + "\n"
  }

  /** A finding's block opens with its heading; anything after the heading is
      there exactly when the analysis has a KEY_FINDINGS: marker, and carries
      neither marker itself. */
  lemma FindingBlockShape(f: Finding)
    ensures StartsWith(FindingBlock(f), FindingHeading(f))
    ensures |FindingBlock(f)| == |FindingHeading(f)| <==> !Contains(AnalysisOf(f), KeyFindingsMarker)
    ensures !Contains(FindingBlock(f)[|FindingHeading(f)|..], KeyFindingsMarker)
    ensures !Contains(FindingBlock(f)[|FindingHeading(f)|..], NewConceptsMarker)
  {
    var h := FindingHeading(f);
    var b := FindingBlock(f);
    StartsWithAppend(h, b[|h|..]);
    assert b == h + b[|h|..];
    match KeyFindings(AnalysisOf(f))
    case None =>
      assert b[|h|..] == [];
    case Some(k) =>
      NoMarkerAfterNewline(k, KeyFindingsMarker);
      NoMarkerAfterNewline(k, NewConceptsMarker);
      assert b[|h|..] == k + "\n";
  }

  /** `FindingBlock` in the shape `Enumerate` takes; the position is unused. */
  function FindingBlockAt(i: int, f: Finding): string {
    FindingBlock(f)
  }

  /** The findings section is there only when there are findings. */
  function FindingsSection(findings: seq<Finding>): (s: string)
    ensures s == [] <==> findings == []
  {
    if findings == [] then [] else FindingsTitle + Enumerate(findings, 0, FindingBlockAt)
  }

  /** The Quality Assessment block: present exactly when the assessment is a
      non-empty dictionary. Absent score and confidence read `N/A`, absent counts
      read `0`. */
  function QualitySection(q: QualityAssessment): (s: string)
    ensures s == [] <==> !QualityIsNonEmpty(q)
  {
    if !QualityIsNonEmpty(q) then []
    else QualityTitle + ScoreLine(q) + ConfidenceLine(q) + TotalFindingsLine(q) + SourcesUsedLine(q)
  }

  function ScoreLine(q: QualityAssessment): string {
    "- Overall Quality Score: " + ScoreText(q) + "/10\n"
  }

  function ConfidenceLine(q: QualityAssessment): string {
    "- Confidence Level: " + (match q.confidenceAssessment case Some(c) => c.text case None => "N/A") + "\n"
  }

  function TotalFindingsLine(q: QualityAssessment): string {
    "- Total Findings: " + IntToString(q.totalFindings.GetOr(0)) + "\n"
  }

  function SourcesUsedLine(q: QualityAssessment): string {
    "- External Sources Used: " + IntToString(q.externalSourcesUsed.GetOr(0)) + "\n"
  }

  function ReportFooter(timestamp: string): string {
    "\n---\n*Generated by AI Research Agent on " + timestamp + "*\n"
  }

  /** The whole Markdown report, section by section. */
  function MarkdownReport(r: ResearchResult, question: string, timestamp: string): string {
    ReportHeader(question, FinalAnswerOr(r, NoFinalAnswer))
      + PlanSection(Plan(r))
      + FindingsSection(FindingsOf(r))
      + QualitySection(Quality(r))
      + ReportFooter(timestamp)
  }

  /** `generate_markdown_report`: the report built line by line. */
  method GenerateMarkdownReport(r: ResearchResult, question: string, timestamp: string) returns (report: string)
    ensures report == MarkdownReport(r, question, timestamp)
  {
    report := ReportHeader(question, FinalAnswerOr(r, NoFinalAnswer));
    report := AppendPlan(report, Plan(r));
    report := AppendFindings(report, FindingsOf(r));
    report := AppendQuality(report, Quality(r));
    report := report + ReportFooter(timestamp);
  }

  /** The plan loop of `generate_markdown_report`: a title, then one numbered
      line per step, only for a non-empty plan. */
  method AppendPlan(report0: string, plan: seq<string>) returns (report: string)
    ensures report == report0 + PlanSection(plan)
  {
    report := report0;
    if plan != [] {
      report := report + PlanTitle;
      for i := 0 to |plan|
        invariant report == report0 + PlanTitle + Enumerate(plan[..i], 1, PlanLine)
      {
        EnumerateAppend(plan[..i], plan[i], 1, PlanLine);
        assert plan[..i + 1] == plan[..i] + [plan[i]];
        report := report + PlanLine(i + 1, plan[i]);
      }
      assert plan[..|plan|] == plan;
      Assoc(report0, PlanTitle, Enumerate(plan, 1, PlanLine));
    }
  }

  /** The findings loop of `generate_markdown_report`: a title, then each
      finding's heading and, when its analysis has a KEY_FINDINGS: marker, the
      extracted key findings on their own line. */
  method AppendFindings(report0: string, findings: seq<Finding>) returns (report: string)
    ensures report == report0 + FindingsSection(findings)
  {
    hide FindingBlockAt, FindingBlock, FindingHeading, KeyFindings, ExtractKeyFindings;
    report := report0;
    if findings != [] {
      report := report + FindingsTitle;
      for i := 0 to |findings|
        invariant report == report0 + FindingsTitle + Enumerate(findings[..i], 0, FindingBlockAt)
      {
        var f := findings[i];
        EnumerateAppend(findings[..i], f, 0, FindingBlockAt);
        assert findings[..i + 1] == findings[..i] + [f];
        Assoc(report0 + FindingsTitle, Enumerate(findings[..i], 0, FindingBlockAt), FindingBlockAt(i, f));
        report := AppendFindingBlock(report, i, f);
      }
      assert findings[..|findings|] == findings;
      Assoc(report0, FindingsTitle, Enumerate(findings, 0, FindingBlockAt));
    }
  }

  /** One iteration of the findings loop. */
  method AppendFindingBlock(report0: string, i: int, f: Finding) returns (report: string)
    ensures report == report0 + FindingBlockAt(i, f)
  {
    hide Strip, Before, After, FindFirst;
    report := report0 + FindingHeading(f);
    var analysis := AnalysisOf(f);
    if Contains(analysis, KeyFindingsMarker) {
      var keyFindings := ExtractKeyFindings(analysis);
      report := report + (keyFindings + "\n");
    }
    Assoc(report0, FindingHeading(f), report[|report0 + FindingHeading(f)|..]);
  }

  /** The quality block of `generate_markdown_report`, only for a non-empty
      assessment. */
  method AppendQuality(report0: string, q: QualityAssessment) returns (report: string)
    ensures report == report0 + QualitySection(q)
  {
    hide ScoreLine, ConfidenceLine, TotalFindingsLine, SourcesUsedLine;
    report := report0;
    if QualityIsNonEmpty(q) {
      report := report + QualityTitle;
      report := report + ScoreLine(q);
      report := report + ConfidenceLine(q);
      report := report + TotalFindingsLine(q);
      report := report + SourcesUsedLine(q);
      AppendPieces(report0, QualityTitle, ScoreLine(q), ConfidenceLine(q), TotalFindingsLine(q), SourcesUsedLine(q));
    }
  }

  /** The report always opens with the question, then the final answer, which
      reads `No final answer generated` when the result has none. */
  lemma ReportOpensWithQuestion(r: ResearchResult, question: string, timestamp: string)
    ensures StartsWith(MarkdownReport(r, question, timestamp),
      "# Research Report\n\n## Research Question\n" + question
        + "\n\n## Final Answer\n" + FinalAnswerOr(r, NoFinalAnswer))
  {
    var answer := FinalAnswerOr(r, NoFinalAnswer);
    var opening := "# Research Report\n\n## Research Question\n" + question + "\n\n## Final Answer\n" + answer;
    var x0 := ReportHeader(question, answer);
    var x1 := x0 + PlanSection(Plan(r));
    var x2 := x1 + FindingsSection(FindingsOf(r));
    var x3 := x2 + QualitySection(Quality(r));
    assert x0 == opening + "\n\n## Research Process\n";
    StartsWithAppend(opening, "\n\n## Research Process\n");
    StartsWithAppend(x0, PlanSection(Plan(r)));
    StartsWithTrans(x1, x0, opening);
    StartsWithAppend(x1, FindingsSection(FindingsOf(r)));
    StartsWithTrans(x2, x1, opening);
    StartsWithAppend(x2, QualitySection(Quality(r)));
    StartsWithTrans(x3, x2, opening);
    StartsWithAppend(x3, ReportFooter(timestamp));
    StartsWithTrans(x3 + ReportFooter(timestamp), x3, opening);
  }

  /** Plan step `k` appears as the line `k+1. step`, and step `k + 1`'s line
      follows it immediately: one line per step, numbered 1..n in plan order. */
  lemma ReportPlanLines(r: ResearchResult, question: string, timestamp: string, k: nat) returns (p: nat)
    requires k < |Plan(r)|
    ensures OccursAt(MarkdownReport(r, question, timestamp), PlanLine(k + 1, Plan(r)[k]), p)
    ensures k + 1 < |Plan(r)| ==>
      OccursAt(MarkdownReport(r, question, timestamp), PlanLine(k + 2, Plan(r)[k + 1]), p + |PlanLine(k + 1, Plan(r)[k])|)
  {
    hide ReportHeader, FindingsSection, QualitySection, ReportFooter, PlanLine, Enumerate;
    p := EnumerateInSecondOfFive(ReportHeader(question, FinalAnswerOr(r, NoFinalAnswer)), PlanTitle, Plan(r), 1, PlanLine,
                          FindingsSection(FindingsOf(r)), QualitySection(Quality(r)), ReportFooter(timestamp), k);
  }

  /** Finding `k` contributes its block, which opens with its own
      `#### Step` heading, and finding `k + 1`'s heading follows right after it:
      one heading per finding, in findings order. */
  lemma ReportFindingHeadings(r: ResearchResult, question: string, timestamp: string, k: nat) returns (p: nat)
    requires k < |FindingsOf(r)|
    ensures OccursAt(MarkdownReport(r, question, timestamp), FindingBlock(FindingsOf(r)[k]), p)
    ensures OccursAt(MarkdownReport(r, question, timestamp), FindingHeading(FindingsOf(r)[k]), p)
    ensures k + 1 < |FindingsOf(r)| ==>
      OccursAt(MarkdownReport(r, question, timestamp), FindingHeading(FindingsOf(r)[k + 1]),
               p + |FindingBlock(FindingsOf(r)[k])|)
  {
    hide ReportHeader, PlanSection, QualitySection, ReportFooter, FindingBlock, FindingHeading, Enumerate;
    var fs := FindingsOf(r);
    p := EnumerateInSecondOfFour(ReportHeader(question, FinalAnswerOr(r, NoFinalAnswer)) + PlanSection(Plan(r)),
                         FindingsTitle, fs, 0, FindingBlockAt, QualitySection(Quality(r)), ReportFooter(timestamp), k);
    FindingHeadingOccurs(MarkdownReport(r, question, timestamp), fs[k], p);
    if k + 1 < |fs| {
      FindingHeadingOccurs(MarkdownReport(r, question, timestamp), fs[k + 1], p + |FindingBlock(fs[k])|);
    }
  }

  /** Where a finding's block occurs, so does its heading. */
  lemma FindingHeadingOccurs(s: string, f: Finding, p: int)
    requires OccursAt(s, FindingBlock(f), p)
    ensures OccursAt(s, FindingHeading(f), p)
  {
    FindingBlockShape(f);
    PrefixOccurs(s, FindingBlock(f), FindingHeading(f), p);
  }

  lemma PrefixOccurs(s: string, m: string, h: string, p: int)
    requires OccursAt(s, m, p) && StartsWith(m, h)
    ensures OccursAt(s, h, p)
  {
    assert s[p..p + |h|] == s[p..p + |m|][..|h|];
  }

  /** A non-empty assessment always gets the four lines under the title, each
      key falling back on its own default: `N/A` for a missing score or
      confidence, `0` for a missing count. With none of the keys present the
      block is the all-defaults text. */
  lemma QualitySectionDefaults(q: QualityAssessment)
    requires QualityIsNonEmpty(q)
    ensures QualitySection(q)
         == QualityTitle + ScoreLine(q) + ConfidenceLine(q) + TotalFindingsLine(q) + SourcesUsedLine(q)
    ensures q.overallQualityScore.None? ==> ScoreLine(q) == "- Overall Quality Score: N/A/10\n"
    ensures q.confidenceAssessment.None? ==> ConfidenceLine(q) == "- Confidence Level: N/A\n"
    ensures q.totalFindings.None? ==> TotalFindingsLine(q) == "- Total Findings: 0\n"
    ensures q.externalSourcesUsed.None? ==> SourcesUsedLine(q) == "- External Sources Used: 0\n"
    ensures q.overallQualityScore.None? && q.confidenceAssessment.None?
            && q.totalFindings.None? && q.externalSourcesUsed.None? ==>
              (QualitySection(q)
               == QualityTitle + "- Overall Quality Score: N/A/10\n" + "- Confidence Level: N/A\n"
                  + "- Total Findings: 0\n" + "- External Sources Used: 0\n")
  {
    hide ScoreLine, ConfidenceLine, TotalFindingsLine, SourcesUsedLine;
    QualityLineDefaults(q);
  }

  /** Each line of the quality block, for a present key and for a missing one. */
  lemma QualityLineDefaults(q: QualityAssessment)
    ensures q.overallQualityScore.None? ==> ScoreLine(q) == "- Overall Quality Score: N/A/10\n"
    ensures q.overallQualityScore.Some? ==>
      ScoreLine(q) == "- Overall Quality Score: " + q.overallQualityScore.value.text + "/10\n"
    ensures q.confidenceAssessment.None? ==> ConfidenceLine(q) == "- Confidence Level: N/A\n"
    ensures q.confidenceAssessment.Some? ==>
      ConfidenceLine(q) == "- Confidence Level: " + q.confidenceAssessment.value.text + "\n"
    ensures q.totalFindings.None? ==> TotalFindingsLine(q) == "- Total Findings: 0\n"
    ensures q.totalFindings.Some? ==>
      TotalFindingsLine(q) == "- Total Findings: " + IntToString(q.totalFindings.value) + "\n"
    ensures q.externalSourcesUsed.None? ==> SourcesUsedLine(q) == "- External Sources Used: 0\n"
    ensures q.externalSourcesUsed.Some? ==>
      SourcesUsedLine(q) == "- External Sources Used: " + IntToString(q.externalSourcesUsed.value) + "\n"
  {
    assert IntToString(0) == "0";
  }

  // ---------------------------------------------------------------------------
  // Summary report (generate_summary_report)
  // ---------------------------------------------------------------------------

  const DefaultSummaryAnswer := "No final answer"
  const PreviewLength: nat := 300

  /** `result.get('final_answer', 'No final answer')[:300]`: the first 300
      characters of the answer, all of it when it is shorter. */
  function AnswerPreview(r: ResearchResult): (p: string)
    ensures |p| <= PreviewLength && |p| <= |FinalAnswerOr(r, DefaultSummaryAnswer)|
    ensures p == FinalAnswerOr(r, DefaultSummaryAnswer)[..|p|]
    ensures |FinalAnswerOr(r, DefaultSummaryAnswer)| <= PreviewLength ==> p == FinalAnswerOr(r, DefaultSummaryAnswer)
  {
    Take(FinalAnswerOr(r, DefaultSummaryAnswer), PreviewLength)
  }

  /** `generate_summary_report`: fixed text with the question, the number of
      findings, the quality score (or `N/A`), the number of hypotheses and the
      answer preview followed by `...`. */
  function SummaryReport(r: ResearchResult, question: string): string {
    SummaryHead
      + QuestionLine(question) + MetricsHead
      + StepsLine(r) + Indent + SummaryScoreLine(r) + Indent + HypothesesLine(r)
      + PreviewHead + PreviewTail(r)
  }

  const SummaryHead := "\n        **Research Summary**\n        \n        "
  const MetricsHead := "        \n        **Key Metrics:**\n        "
  const PreviewHead := "        \n        **Final Answer Preview:**\n        "
  const Indent := "        "

  function QuestionLine(question: string): string {
    "**Question:** " + question + "\n"
  }

  function StepsLine(r: ResearchResult): string {
    "- Research Steps Completed: " + IntToString(|FindingsOf(r)|) + "\n"
  }

  function SummaryScoreLine(r: ResearchResult): string {
    "- Quality Score: " + ScoreText(Quality(r)) + "/10\n"
  }

  function HypothesesLine(r: ResearchResult): string {
    "- Hypotheses Generated: " + IntToString(|HypothesesOf(r)|) + "\n"
  }

  /** The preview is always followed by `...`, whether or not anything was cut. */
  function PreviewTail(r: ResearchResult): string {
    AnswerPreview(r) + "...\n        "
  }

  /** The summary carries the question, the number of findings, the quality
      score and the number of hypotheses, each on its own line, and ends with
      the answer preview and `...`. */
  lemma SummaryReportContents(r: ResearchResult, question: string)
    ensures Contains(SummaryReport(r, question), "**Question:** " + question + "\n")
    ensures Contains(SummaryReport(r, question), "- Research Steps Completed: " + IntToString(|FindingsOf(r)|) + "\n")
    ensures Contains(SummaryReport(r, question), "- Quality Score: " + ScoreText(Quality(r)) + "/10\n")
    ensures Contains(SummaryReport(r, question), "- Hypotheses Generated: " + IntToString(|HypothesesOf(r)|) + "\n")
    ensures EndsWith(SummaryReport(r, question), AnswerPreview(r) + "...\n        ")
  {
    InnerPiecesOccur(SummaryHead, QuestionLine(question), MetricsHead, StepsLine(r), Indent,
                SummaryScoreLine(r), Indent, HypothesesLine(r), PreviewHead, PreviewTail(r));
  }
}
