/** The in-memory research history both front ends keep: a list of records that
    grows by one `append` per successful run and is never edited, shown through
    a window over its last five entries, oldest first (`history[-5:]`). */
module History {
  import opened Results

  /** One archived run. `qualityScore` is what every consumer prints for the
      record's `quality_score`: the result's overall score or `N/A`. */
  datatype HistoryRecord = HistoryRecord(
    question: string,
    result: ResearchResult,
    timestamp: string,
    qualityScore: string)

  /** The record built after a successful run; the timestamp is the caller's
      `datetime.now().isoformat()`. The question, result and timestamp are kept
      as given, and the quality score is the result's overall score, or `N/A`
      when the assessment or its score is missing. */
  function MakeRecord(question: string, result: ResearchResult, timestamp: string): (rec: HistoryRecord)
    ensures rec.question == question && rec.result == result && rec.timestamp == timestamp
    ensures result.qualityAssessment.None? ==> rec.qualityScore == "N/A"
    ensures Quality(result).overallQualityScore.None? ==> rec.qualityScore == "N/A"
    ensures Quality(result).overallQualityScore.Some? ==>
      rec.qualityScore == Quality(result).overallQualityScore.value.text
  {
    HistoryRecord(question, result, timestamp, ScoreText(Quality(result)))
  }

  const WindowSize: nat := 5

  /** `history[-5:]`: the last `min(5, |h|)` records, in insertion order. */
  function RecentWindow(h: seq<HistoryRecord>): (w: seq<HistoryRecord>)
    ensures |w| == if |h| < WindowSize then |h| else WindowSize
    ensures w == h[|h| - |w|..]
  {
    if |h| <= WindowSize then h else h[|h| - WindowSize..]
  }

  /** How the window moves when a record is appended: it grows until it holds
      five records, then drops its oldest one. Either way the new record is last. */
  lemma {:induction false} WindowAfterAppend(h: seq<HistoryRecord>, rec: HistoryRecord)
    ensures RecentWindow(h + [rec])
         == if |h| < WindowSize then h + [rec] else RecentWindow(h)[1..] + [rec]
  {
    var w := RecentWindow(h);
    var w' := RecentWindow(h + [rec]);
    if |h| >= WindowSize {
      assert w' == (h + [rec])[|h| + 1 - WindowSize..];
      assert w[1..] == h[|h| - WindowSize + 1..];
      assert (h + [rec])[|h| + 1 - WindowSize..] == h[|h| - WindowSize + 1..] + [rec];
    }
  }

  /** The history list itself: append-only storage. */
  class ResearchHistory {
    var records: seq<HistoryRecord>

    constructor ()
      ensures records == []
    {
      records := [];
    }

    /** `research_history.append(record)`. */
    method Append(rec: HistoryRecord)
      modifies this
      ensures records == old(records) + [rec]
    {
      records := records + [rec];
    }
  }
}
