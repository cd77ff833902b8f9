/** The agent's result payload, as the front ends read it. Every key they read
    with `.get(key, default)` is an `Option` field, so an absent key and a
    defaulted one are told apart; keys they index directly (`finding['step']`,
    `hyp['statement']`) are plain fields. Nested dictionaries count the keys the
    front ends never read (`otherKeys`), because Python's truthiness of a
    dictionary (`if quality_assessment:`) depends on them too. */
module Results {
  import opened Options

  /** A Python number that the front ends only ever print: `text` is `str(x)`,
      what a plain `{x}` in an f-string shows, and `fixed2` is `format(x, '.2f')`. */
  datatype Number = Number(text: string, fixed2: string)

  /** `finding['sources_used']`: how many sources of each kind one step used. */
  datatype SourcesUsed = SourcesUsed(
    memoryBasic: Option<int>,
    memoryAdvanced: Option<int>,
    externalSources: Option<int>)

  /** One entry of `result['findings']`: the outcome of one research step. */
  datatype Finding = Finding(
    step: int,
    stepDescription: string,
    analysis: Option<string>,
    sourcesUsed: Option<SourcesUsed>,
    externalResearch: Option<seq<string>>)

  /** One entry of `result['hypotheses']`. */
  datatype Hypothesis = Hypothesis(statement: string, kind: string, confidence: Number)

  /** `multi_agent_analysis['confidence_scores']`. */
  datatype ConfidenceScores = ConfidenceScores(
    researcherAvg: Option<Number>,
    criticAvg: Option<Number>,
    synthesisConfidence: Option<Number>)

  /** `result['multi_agent_analysis']`; the collaboration summary is only shown by
      widgets and is among `otherKeys`. */
  datatype MultiAgentAnalysis = MultiAgentAnalysis(
    confidenceScores: Option<ConfidenceScores>,
    otherKeys: nat)

  /** `result['quality_assessment']`; `qualityIndicators` keeps the dictionary's
      insertion order. */
  datatype QualityAssessment = QualityAssessment(
    overallQualityScore: Option<Number>,
    confidenceAssessment: Option<Number>,
    totalFindings: Option<int>,
    externalSourcesUsed: Option<int>,
    sourceDiversity: Option<int>,
    qualityIndicators: Option<seq<(string, bool)>>,
    otherKeys: nat)

  /** The agent's final state, as returned by `agent.invoke`. */
  datatype ResearchResult = ResearchResult(
    finalAnswer: Option<string>,
    researchPlan: Option<seq<string>>,
    findings: Option<seq<Finding>>,
    hypotheses: Option<seq<Hypothesis>>,
    multiAgentAnalysis: Option<MultiAgentAnalysis>,
    qualityAssessment: Option<QualityAssessment>,
    otherKeys: nat)

  /** What the agent call did: returned a final state, or raised an exception
      with the given `str(e)`. Creating the agent and invoking it are one call
      here, since either failing ends the same way. */
  datatype Invocation = Returned(result: ResearchResult) | Raised(message: string)

  // ---------------------------------------------------------------------------
  // Reads with defaults, as the front ends write them
  // ---------------------------------------------------------------------------

  const NoSources := SourcesUsed(None, None, None)
  const NoScores := ConfidenceScores(None, None, None)
  const NoMultiAgent := MultiAgentAnalysis(None, 0)
  const NoQuality := QualityAssessment(None, None, None, None, None, None, 0)

  /** What both front ends show when a result has no final answer. */
  const NoFinalAnswer := "No final answer generated"

  /** `result.get('final_answer', default)`. */
  function FinalAnswerOr(r: ResearchResult, default: string): string {
    r.finalAnswer.GetOr(default)
  }

  /** `result.get('research_plan', [])`. */
  function Plan(r: ResearchResult): seq<string> {
    r.researchPlan.GetOr([])
  }

  /** `result.get('findings', [])`. */
  function FindingsOf(r: ResearchResult): seq<Finding> {
    r.findings.GetOr([])
  }

  /** `result.get('hypotheses', [])`. */
  function HypothesesOf(r: ResearchResult): seq<Hypothesis> {
    r.hypotheses.GetOr([])
  }

  /** `result.get('multi_agent_analysis', {})`. */
  function MultiAgent(r: ResearchResult): MultiAgentAnalysis {
    r.multiAgentAnalysis.GetOr(NoMultiAgent)
  }

  /** `result.get('quality_assessment', {})`. */
  function Quality(r: ResearchResult): QualityAssessment {
    r.qualityAssessment.GetOr(NoQuality)
  }

  /** `finding.get('analysis', '')`. */
  function AnalysisOf(f: Finding): string {
    f.analysis.GetOr("")
  }

  /** The three kinds of source a finding counts. */
  datatype Source = MemoryBasic | MemoryAdvanced | ExternalSources

  /** `finding.get('sources_used', {}).get(<key of src>, 0)`. */
  function SourceCount(f: Finding, src: Source): int {
    var s := f.sourcesUsed.GetOr(NoSources);
    match src
    case MemoryBasic => s.memoryBasic.GetOr(0)
    case MemoryAdvanced => s.memoryAdvanced.GetOr(0)
    case ExternalSources => s.externalSources.GetOr(0)
  }

  /** `f.get('external_research')` is truthy: present and non-empty. */
  predicate HasExternalResearch(f: Finding) {
    f.externalResearch.Some? && f.externalResearch.value != []
  }

  /** `str(quality_assessment.get('overall_quality_score', 'N/A'))`. */
  function ScoreText(q: QualityAssessment): string {
    match q.overallQualityScore
    case Some(n) => n.text
    case None => "N/A"
  }

  // ---------------------------------------------------------------------------
  // Python truthiness of the dictionaries
  // ---------------------------------------------------------------------------

  predicate MultiAgentIsNonEmpty(m: MultiAgentAnalysis) {
    m.confidenceScores.Some? || m.otherKeys > 0
  }

  predicate QualityIsNonEmpty(q: QualityAssessment) {
    || q.overallQualityScore.Some? || q.confidenceAssessment.Some?
    || q.totalFindings.Some? || q.externalSourcesUsed.Some?
    || q.sourceDiversity.Some? || q.qualityIndicators.Some?
    || q.otherKeys > 0
  }

  predicate ResultIsNonEmpty(r: ResearchResult) {
    || r.finalAnswer.Some? || r.researchPlan.Some? || r.findings.Some?
    || r.hypotheses.Some? || r.multiAgentAnalysis.Some? || r.qualityAssessment.Some?
    || r.otherKeys > 0
  }
}
