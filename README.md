# Research agent front ends: result projection, reports and history

This project models the part of the AI Research Agent's two web front ends
(`ui/streamlit_app.py` and `ui/gradio_app.py`) that is logic rather than
widget binding. That part has three pieces:

- The projection of one agent result into text and chart data: key-findings
  extraction, the Markdown and summary reports, the timeline, radar and
  source-distribution data, and the four Gradio panes.
- The guard and export rules around it.
- The in-memory research history, shown through a window of its last five
  records.

The agent's result is a datatype (`Results.ResearchResult`). Every key the
front ends read with `.get(key, default)` is an `Option` field, so an absent
key and a defaulted one stay distinct. Nested dictionaries also count the keys
the front ends never read, because Python's truthiness of a dictionary depends
on them too. Numbers that are only printed carry their two renderings: `str(x)`
and `format(x, '.2f')`. The agent call is a parameter `Invocation` that either
returned a result or raised. Wall-clock timestamps are parameters.

The model keeps the source's form:

- String building with `+=` in loops is a method, proved equal to a function
  that states the text. The shared loop shape
  `for i, x in enumerate(items, start): out += render(i, x)` is
  `Layout.AppendEnumerate`, and its result is `Layout.Enumerate`.
- The history list is a class whose `Append` method updates a `seq` field. The
  Gradio interface and the Streamlit session each hold one.
- Pure projections (key findings, timeline, radar, summary, export) are
  functions, with lemmas stating their properties.

Modules:

- `Options`: `Option` and `Result`.
- `Text`: `strip`, substring search, `split(m)[0]` and `split(m)[1]`, `str(int)`,
  `s[:n]`, `str.replace` and `str.title`.
- `Layout`: enumerate loops and where their pieces land.
- `Results`: the result payload, its defaulted reads and its truthiness.
- `History`: records, the last-five window and the history class.
- `Reports`: the key-findings extraction, the Markdown report and the summary
  report of the Streamlit front end.
- `Charts`: the timeline, radar and source-distribution data.
- `Gradio`: `conduct_research`, the history pane and the export.
- `Streamlit`: the session's research branch of `run` and the sidebar list.

## Model

| member | source | states |
|---|---|---|
| Text.Strip | ui/streamlit_app.py:443 | `str.strip()`: no longer than the input, and neither end of a non-empty result is whitespace |
| Text.BlankIffAllSpace | ui/gradio_app.py:41 | `not question.strip()` holds exactly when every character of the question is whitespace |
| Text.Before | ui/streamlit_app.py:748 | `s.split(m)[0]`: a prefix of `s` without `m`, ending at the first `m` or at the end of `s` |
| Text.After | ui/streamlit_app.py:748 | `s.split(m)[1]` and what follows it: the suffix of `s` right after the first occurrence of `m` |
| Text.Take | ui/streamlit_app.py:781 | `s[:n]`: the first `n` characters of `s`, or all of `s` when it is shorter |
| Text.IntToStringRoundTrip | ui/gradio_app.py:88 | `str()` of a count can be read back, so different counts print differently |
| Text.ReplaceChar | ui/gradio_app.py:127 | `name.replace('_', ' ')`: same length, every `_` becomes a space and every other character is kept |
| Text.Title | ui/gradio_app.py:127 | `str.title()` keeps the length of the text |
| Layout.EnumerateOccurs | ui/streamlit_app.py:738-739 | in an enumerate loop's output, item `k` contributes its piece numbered `start + k`, and item `k + 1`'s piece starts where it ends |
| Layout.AppendEnumerate | ui/gradio_app.py:84-85 | an enumerate `+=` loop appends exactly the enumeration of its items to what the string held |
| Reports.ExtractKeyFindings | ui/streamlit_app.py:746-749 | the extracted key findings contain neither `KEY_FINDINGS:` nor `NEW_CONCEPTS:`, and are stripped at both ends; their exact value is stated by Reports.KeyFindingsPosition |
| Reports.KeyFindings | ui/streamlit_app.py:442-443 | key findings are produced exactly when the analysis contains `KEY_FINDINGS:`; otherwise nothing is shown and nothing fails |
| Reports.KeyFindingsPosition | ui/streamlit_app.py:746-749 | the key findings are the analysis from just past the first `KEY_FINDINGS:` up to the next `KEY_FINDINGS:` found from there (or the end), cut at the first `NEW_CONCEPTS:` found inside that piece, and stripped; they are a slice of that cut with only whitespace on either side, and no `KEY_FINDINGS:` starts inside the cut |
| Reports.PlanSection | ui/streamlit_app.py:735-739 | the plan section is present exactly when the plan is non-empty |
| Reports.FindingBlockShape | ui/streamlit_app.py:744-749 | a finding's block opens with its `#### Step` heading, has more exactly when the analysis has `KEY_FINDINGS:`, and the extra text carries no marker |
| Reports.FindingsSection | ui/streamlit_app.py:741-743 | the findings section is present exactly when there are findings |
| Reports.QualitySection | ui/streamlit_app.py:752-758 | the quality block is present exactly when `quality_assessment` is a non-empty dictionary |
| Reports.QualitySectionDefaults | ui/streamlit_app.py:752-758 | a non-empty assessment always gets the title and the four lines; each missing key falls back on its own default (`N/A` for score and confidence, `0` for the counts) whatever the other keys hold, and with all four missing the block is the all-defaults text |
| Reports.QualityLineDefaults | ui/streamlit_app.py:754-757 | each quality line shows its key's value when the key is present and its default when it is missing, independently of the other keys |
| Reports.GenerateMarkdownReport | ui/streamlit_app.py:722-762 | the report built by the `+=` statements and loops equals the report function for the same result, question and timestamp |
| Reports.AppendPlan | ui/streamlit_app.py:735-739 | the plan loop appends the plan section and nothing else |
| Reports.AppendFindings | ui/streamlit_app.py:741-749 | the findings loop appends the findings section and nothing else |
| Reports.AppendFindingBlock | ui/streamlit_app.py:745-749 | one findings-loop iteration appends the finding's heading and, when the marker is there, its key findings line |
| Reports.AppendQuality | ui/streamlit_app.py:752-758 | the quality statements append the quality section and nothing else |
| Reports.ReportOpensWithQuestion | ui/streamlit_app.py:724-733 | the report starts with the question, then the final answer, which defaults to `No final answer generated` |
| Reports.ReportPlanLines | ui/streamlit_app.py:736-739 | plan step `k` appears as the line `k+1. step`, and step `k+1`'s line follows it directly: one line per step, numbered 1..n in order |
| Reports.ReportFindingHeadings | ui/streamlit_app.py:742-745 | finding `k`'s block and its `#### Step` heading appear in the report, and finding `k+1`'s block follows directly: one heading per finding, in order |
| Reports.AnswerPreview | ui/streamlit_app.py:781 | the preview is a prefix of the final answer (default `No final answer`) of at most 300 characters, and all of it when the answer is that short |
| Reports.SummaryReportContents | ui/streamlit_app.py:764-784 | the summary holds the question, `len(findings)`, the quality score and `len(hypotheses)`, and ends with the preview followed by `...` |
| History.MakeRecord | ui/gradio_app.py:67-72 | a record keeps the question, result and timestamp as given; its quality score is the result's overall score, or `N/A` when the assessment or its score is missing |
| History.RecentWindow | ui/gradio_app.py:176 | `history[-5:]`: the last five records (all of them when there are fewer), in insertion order |
| History.WindowAfterAppend | ui/streamlit_app.py:141 | appending a record grows the window until it holds five, then drops its oldest; the new record is always last |
| History.ResearchHistory.constructor | ui/gradio_app.py:29 | a new history is empty |
| History.ResearchHistory.Append | ui/gradio_app.py:73 | `append` adds exactly one record at the end and leaves the earlier ones unchanged |
| Charts.TimelineLabel | ui/streamlit_app.py:559 | a marker label is the first 50 characters of the description (all of it when shorter), followed by `...` |
| Charts.Timeline | ui/streamlit_app.py:541-544 | there is no timeline exactly when there are no findings |
| Charts.PointsAt | ui/streamlit_app.py:547-567 | one marker per finding, in order: x is `step + 1`, the label is the cut description, and the size is `20 + 10 * external_sources` (default 0) |
| Charts.SizesMatchExternalTotal | ui/streamlit_app.py:559-565 | the marker sizes sum to 20 per finding plus ten times the external-sources total of the pie chart |
| Charts.TotalConcat | ui/streamlit_app.py:643-647 | source totals add up over consecutive runs of findings |
| Charts.TotalNonNegative | ui/streamlit_app.py:643-647 | with non-negative counts, every total is non-negative |
| Charts.SourceDistribution | ui/streamlit_app.py:631-647 | no totals when there are no findings; otherwise each of the three totals is the sum over the findings of its count, absent keys counting 0 |
| Charts.Completeness | ui/streamlit_app.py:598 | `min(total_findings / 5 * 10, 10)` is at most 10: two points per finding, 10 from five findings on |
| Charts.SourceDiversity | ui/streamlit_app.py:599 | `min(source_diversity / 4 * 10, 10)` is at most 10: 2.5 points per kind of source, 10 from four on |
| Charts.ValidationDivisor | ui/streamlit_app.py:600 | `max(total_findings, 1)` is at least 1, so the division never divides by zero |
| Charts.ExternalValidation | ui/streamlit_app.py:600 | external validation times the divisor is ten times the external sources used |
| Charts.Radar | ui/streamlit_app.py:591-603 | no radar data exactly when `quality_assessment` is empty; completeness and source diversity are at most 10 |
| Charts.ValidationExceedsRange | ui/streamlit_app.py:600 | external validation is not clamped: with more external sources than findings it exceeds 10 |
| Gradio.ExternalConsulted | ui/gradio_app.py:89 | the number of findings with non-empty `external_research` is at most `len(findings)` |
| Gradio.ExternalConsultedExtremes | ui/gradio_app.py:89 | the count equals `len(findings)` exactly when every finding consulted external research, and is 0 exactly when none did |
| Gradio.BuildProcessSummary | ui/gradio_app.py:79-89 | the process pane built by `+=` equals the process summary function |
| Gradio.ProcessPlanLines | ui/gradio_app.py:84-85 | plan step `k` is line `k+1. step` of the process pane, followed directly by step `k+1`'s line |
| Gradio.ProcessCounts | ui/gradio_app.py:87-89 | the process pane ends with `len(findings)` completed steps and the external-research count |
| Gradio.MultiAgentBlock | ui/gradio_app.py:95-101 | the multi-agent block is present exactly when `multi_agent_analysis` is non-empty |
| Gradio.RoleLineDefault | ui/gradio_app.py:99-101 | a role without a score reads `0.00` |
| Gradio.MultiAgentDefaults | ui/gradio_app.py:97-101 | a non-empty analysis without `confidence_scores` lists all three roles with the default score |
| Gradio.HypothesesBlock | ui/gradio_app.py:104-106 | the hypotheses block is present exactly when there are hypotheses |
| Gradio.BuildIntelligenceSummary | ui/gradio_app.py:92-110 | the intelligence pane built by `+=` equals the intelligence summary function |
| Gradio.IntelligenceHypotheses | ui/gradio_app.py:107-110 | hypothesis `k` is entry `k+1` of the pane, with its statement and type, followed directly by hypothesis `k+1` |
| Gradio.IndicatorLine | ui/gradio_app.py:125-127 | an indicator line starts with ✅ exactly when the indicator is true and with ❌ exactly when it is false |
| Gradio.QualitySummary | ui/gradio_app.py:113-127 | the header is always there and is all there is for an empty assessment; a non-empty one without `confidence_assessment` fails with the `.2f`-on-`'N/A'` error |
| Gradio.BuildQualitySummary | ui/gradio_app.py:113-127 | the quality pane built by `+=` and the indicator loop equals the quality summary function, failure included |
| Gradio.QualityIndicatorLines | ui/gradio_app.py:123-127 | indicator `k` gets its line, followed directly by indicator `k+1`'s: one line each, in the dictionary's order |
| Gradio.ResearchDisplay | ui/gradio_app.py:75-133 | a returned result shows the answer (default `No final answer generated`) and the three panes, or the failure panes when the quality pane raises |
| Gradio.GradioResearchInterface.constructor | ui/gradio_app.py:29 | the interface starts with an empty history |
| Gradio.GradioResearchInterface.ConductResearch | ui/gradio_app.py:37-133 | a blank question gives the refusal panes and leaves the history as it was; an agent failure gives `Research failed: <msg>` and leaves it as it was; a returned result appends exactly one record, before any formatting, so the record stays even when formatting fails |
| Gradio.GradioResearchInterface.GetResearchHistory | ui/gradio_app.py:169-182 | the history pane built by the loop equals the history view function |
| Gradio.HistoryView | ui/gradio_app.py:171-172 | the pane is `No research history available.` exactly when the history is empty |
| Gradio.HistoryViewEntries | ui/gradio_app.py:174-180 | at most five entries; entry `k+1` is the `k`-th record of the window, numbered 1..k in insertion order, each followed directly by the next |
| Gradio.NewestShownLast | ui/gradio_app.py:176-180 | after a record is appended, the pane ends with it, numbered with the window's size |
| Gradio.Export | ui/gradio_app.py:184-208 | an answer that is empty or starts with `Please enter` or `Research failed` exports `No research results to export.`; any other export opens with the header and the answer |
| Gradio.ExportInOrder | ui/gradio_app.py:191-204 | the export holds the answer, process, intelligence and quality panes in that order, each followed by a blank-line separator (`\n\n`) that ends exactly where the next begins |
| Gradio.RefusalsNotExported | ui/gradio_app.py:188-189 | the blank-question refusal and every failure message are refused by the export |
| Streamlit.StreamlitSession.constructor | ui/streamlit_app.py:76-79 | a new session has an empty history and no current research |
| Streamlit.StreamlitSession.Run | ui/streamlit_app.py:798-820 | a record is appended, becomes the current research and has its results shown exactly when the button was pressed, the question is not blank and the agent returned a truthy result; otherwise the history and the current research are unchanged. A started run that is not filed shows nothing; when no run starts, the current research, if there is one, is shown again under the current-results header |
| Streamlit.FiledNeedsText | ui/streamlit_app.py:798 | a filed question has at least one non-space character |
| Streamlit.SidebarAsWritten | ui/streamlit_app.py:140-145 | the sidebar as written lists the window oldest first, titling entry `i` `Research {len(history) - i}` |
| Streamlit.SidebarMislabelsOldest | ui/streamlit_app.py:141-142 | as written, with two or more records, the first entry on display shows the oldest record of the window but is titled with the newest record's number, which differs from the oldest's own |
| Streamlit.AsWrittenIsReversedTitles | ui/streamlit_app.py:140-145 | as written, entry `i` shows the same record, question, score and date as corrected entry `i`; only its title is taken from the mirrored entry, so the entries are in order and the titles run backwards |
| Streamlit.SidebarTitlesReversed | ui/streamlit_app.py:141-142 | the titles as written are the intended titles in reverse order |
| Streamlit.Sidebar | ui/streamlit_app.py:140-145 | the corrected sidebar has one entry per window record, in the same order |
| Streamlit.SidebarShowsNumberedRecords | ui/streamlit_app.py:140-145 | each corrected entry is titled with the number of the record it shows, with that record's question (cut to 100 characters plus `...`), quality score and date; at most five, ending with the newest |

## Left out

- Widgets, page layout, CSS and chart drawing: the `st.*`, `gr.*` and plotly calls are presentation. Only the data handed to them is modelled.
- The progress display of `run_research_with_progress` (ui/streamlit_app.py:218-331): widget updates and sleeps around one agent call. Only its outcome is modelled: the result, or `None` when the agent raised.
- The agent itself, `create_agent` and `agent.invoke`: foreign calls, modelled as the `Invocation` parameter.
- The memory statistics pane and the sidebar memory metrics: calls into the memory manager, which is not part of this model.
- The suggestion list and the tool guide: constant text.
- `json.dumps(..., default=str)` in the JSON export: a library serializer.
- Clocks: `datetime.now()` is a timestamp parameter, already formatted.
- Floating-point formatting: `format(x, '.2f')` and `str(x)` of floats are carried as given text in `Results.Number`, not computed. The radar's Confidence and Overall Quality axes are float pass-throughs and are left out. The three count-based axes are computed over exact reals.
- Charts.Completeness, Charts.SourceDiversity, Charts.ExternalValidation: computed over exact reals. Python computes them in floating point, which rounds where a quotient has no exact binary form (`1 / 3 * 10`, say); that rounding is not modelled.
- Text.Title: `str.title()` is modelled for ASCII letters only. Other characters are treated as uncased.
- Python exceptions other than the agent's own and the `.2f` format error: the model takes the keys the code indexes directly (`finding['step']`, `hyp['statement']`, `research['question']`) to be present, and the values it formats to have the types it expects.
- The hypothesis and role confidence values in the Gradio panes are shown through their given `.2f` text; a non-number there, which would raise, is not modelled.
- The Streamlit result tabs (`render_research_results`, ui/streamlit_app.py:333-662): their widgets are not modelled. The data they compute is: the process tab's key-findings extraction is `Reports.KeyFindings`, and the visualisation tab's timeline, radar and source-distribution data (ui/streamlit_app.py:520-661) are in `Charts`. The export tab's reports are in `Reports`.

## Findings

| source | as written | input that shows it | evidently intended | confidence | as-written member | corrected member |
|---|---|---|---|---|---|---|
| ui/streamlit_app.py:141-142 | the sidebar lists `history[-5:]` oldest first but titles entry `i` `Research {len(history) - i}`, so the titles run backwards | a history of two records A then B: A is shown first, titled `Research 2`, and B second, titled `Research 1` | each entry titled with the number of the record it shows (A is `Research 1`, B is `Research 2`) | medium, not executed | Streamlit.SidebarAsWritten (shown by Streamlit.SidebarMislabelsOldest, Streamlit.AsWrittenIsReversedTitles and Streamlit.SidebarTitlesReversed) | Streamlit.Sidebar (proved by Streamlit.SidebarShowsNumberedRecords) |

## Notes on the source

- "External sources consulted" in the Gradio process pane counts the findings whose `external_research` list is present and non-empty (ui/gradio_app.py:89). It does not count findings whose `external_sources` count is positive. The model follows the code.
- `analysis.split('KEY_FINDINGS:')[1]` stops at a second `KEY_FINDINGS:` as well as at the `NEW_CONCEPTS:` cut that follows. The extraction models both cuts.
- In the Gradio quality pane, `format('N/A', '.2f')` raises when a non-empty assessment has no `confidence_assessment` (ui/gradio_app.py:118). The run then shows `Research failed: Unknown format code 'f' for object of type 'str'`. The history record has already been appended at that point (ui/gradio_app.py:73), and the model keeps it.
- Both front ends show the history as the last five records, oldest first. Neither has a most-recent-first listing.
