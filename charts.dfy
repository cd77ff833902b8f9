/** The data behind the three result charts of the Streamlit front end: the
    research timeline, the quality radar and the source-distribution pie. Only
    the numbers and labels handed to the chart library are modelled; drawing
    them is not. */
module Charts {
  import opened Options
  import opened Text
  import opened Results

  // ---------------------------------------------------------------------------
  // Research timeline
  // ---------------------------------------------------------------------------

  /** How many characters of a step description a marker label keeps. */
  const LabelLength: nat := 50

  /** One marker of the timeline: its position on the x axis, its text, the
      external-source count that colours it, and its size. */
  datatype TimelinePoint = TimelinePoint(x: int, text: string, sources: int, size: int)

  /** `description[:50] + "..."`: the description's first fifty characters (all
      of it when shorter), always followed by an ellipsis. */
  function TimelineLabel(description: string): (l: string)
    ensures |l| == (if |description| < LabelLength then |description| else LabelLength) + 3
    ensures l[..|l| - 3] == description[..|l| - 3]
    ensures EndsWith(l, "...")
  {
    Take(description, LabelLength) + "..."
  }

  /** The marker of one finding; `sources_used.external_sources` defaults to 0. */
  function PointOf(f: Finding): TimelinePoint {
    var s := SourceCount(f, ExternalSources);
    TimelinePoint(f.step + 1, TimelineLabel(f.stepDescription), s, 20 + s * 10)
  }

  /** The markers of a list of findings, in the findings' order. */
  function Points(fs: seq<Finding>): seq<TimelinePoint>
    decreases |fs|
  {
    if fs == [] then [] else Points(fs[..|fs| - 1]) + [PointOf(fs[|fs| - 1])]
  }

  /** The timeline of a result: no chart at all when it has no findings. */
  function Timeline(r: ResearchResult): (t: Option<seq<TimelinePoint>>)
    ensures t.None? <==> FindingsOf(r) == []
  {
    var fs := FindingsOf(r);
    if fs == [] then None else Some(Points(fs))
  }

  /** Exactly one marker per finding, in order: marker `i` sits at `step + 1` of
      finding `i`, is labelled with its description, and grows by ten with each
      external source it used. */
  lemma {:induction false} PointsAt(fs: seq<Finding>, i: nat)
    requires i < |fs|
    ensures |Points(fs)| == |fs|
    ensures Points(fs)[i].x == fs[i].step + 1
    ensures Points(fs)[i].text == Take(fs[i].stepDescription, LabelLength) + "..."
    ensures Points(fs)[i].sources == SourceCount(fs[i], ExternalSources)
    ensures Points(fs)[i].size == 20 + 10 * SourceCount(fs[i], ExternalSources)
    decreases |fs|
  {
    if i < |fs| - 1 {
      PointsAt(fs[..|fs| - 1], i);
    } else {
      PointsLength(fs[..|fs| - 1]);
    }
  }

  lemma {:induction false} PointsLength(fs: seq<Finding>)
    ensures |Points(fs)| == |fs|
    decreases |fs|
  {
    if fs != [] {
      PointsLength(fs[..|fs| - 1]);
    }
  }

  /** The summed marker sizes of the findings' points. */
  function SizeSum(ps: seq<TimelinePoint>): int
    decreases |ps|
  {
    if ps == [] then 0 else SizeSum(ps[..|ps| - 1]) + ps[|ps| - 1].size
  }

  // ---------------------------------------------------------------------------
  // Source distribution
  // ---------------------------------------------------------------------------

  /** The three totals of the pie chart, keyed `Memory (Basic)`,
      `Memory (Advanced)` and `External Sources`. */
  datatype SourceTotals = SourceTotals(memoryBasic: int, memoryAdvanced: int, externalSources: int)

  /** The sum over the findings of one kind of source, absent counts being 0. */
  function Total(fs: seq<Finding>, src: Source): int
    decreases |fs|
  {
    if fs == [] then 0 else Total(fs[..|fs| - 1], src) + SourceCount(fs[|fs| - 1], src)
  }

  /** Totals add up over consecutive runs of findings: the order in which the
      findings are visited does not matter to the split. */
  lemma {:induction false} TotalConcat(a: seq<Finding>, b: seq<Finding>, src: Source)
    ensures Total(a + b, src) == Total(a, src) + Total(b, src)
    decreases |b|
  {
    if b == [] {
      assert a + b == a;
    } else {
      var b' := b[..|b| - 1];
      assert (a + b)[..|a + b| - 1] == a + b';
      TotalConcat(a, b', src);
    }
  }

  /** With no negative counts, no total is negative. */
  lemma {:induction false} TotalNonNegative(fs: seq<Finding>, src: Source)
    requires forall i :: 0 <= i < |fs| ==> SourceCount(fs[i], src) >= 0
    ensures Total(fs, src) >= 0
    decreases |fs|
  {
    if fs != [] {
      TotalNonNegative(fs[..|fs| - 1], src);
    }
  }

  /** The marker sizes and the external-sources total describe the same counts:
      the sizes add up to 20 per finding plus ten times the total. */
  lemma {:induction false} SizesMatchExternalTotal(fs: seq<Finding>)
    ensures SizeSum(Points(fs)) == 20 * |fs| + 10 * Total(fs, ExternalSources)
    decreases |fs|
  {
    if fs != [] {
      var init := fs[..|fs| - 1];
      SizesMatchExternalTotal(init);
      var ps := Points(fs);
      assert ps[..|ps| - 1] == Points(init);
    }
  }

  /** `create_source_distribution_chart`'s loop: the three running totals start at
      zero and each finding adds its counts. No findings, no chart. */
  method SourceDistribution(r: ResearchResult) returns (totals: Option<SourceTotals>)
    ensures totals.None? <==> FindingsOf(r) == []
    ensures totals.Some? ==> totals.value == SourceTotals(
      Total(FindingsOf(r), MemoryBasic), Total(FindingsOf(r), MemoryAdvanced),
      Total(FindingsOf(r), ExternalSources))
  {
    var findings := FindingsOf(r);
    if findings == [] {
      return None;
    }
    var basic, advanced, external := 0, 0, 0;
    for i := 0 to |findings|
      invariant basic == Total(findings[..i], MemoryBasic)
      invariant advanced == Total(findings[..i], MemoryAdvanced)
      invariant external == Total(findings[..i], ExternalSources)
    {
      var f := findings[i];
      assert findings[..i + 1][..i] == findings[..i];
      basic := basic + SourceCount(f, MemoryBasic);
      advanced := advanced + SourceCount(f, MemoryAdvanced);
      external := external + SourceCount(f, ExternalSources);
    }
    assert findings[..|findings|] == findings;
    totals := Some(SourceTotals(basic, advanced, external));
  }

  // ---------------------------------------------------------------------------
  // Quality radar
  // ---------------------------------------------------------------------------

  /** The three count-based axes of the radar, computed over exact reals.
      Python divides in floating point, which rounds where the quotient has no
      exact binary form (`1 / 3 * 10`, say); the model does not follow that
      rounding. */
  datatype RadarData = RadarData(completeness: real, sourceDiversity: real, externalValidation: real)

  function Min(a: real, b: real): real {
    if a <= b then a else b
  }

  /** `min(total_findings / 5 * 10, 10)`, `total_findings` defaulting to 0:
      two points per finding, full marks from five findings on. */
  function Completeness(q: QualityAssessment): (c: real)
    ensures c <= 10.0
    ensures c == if q.totalFindings.GetOr(0) >= 5 then 10.0 else 2.0 * q.totalFindings.GetOr(0) as real
  {
    Min(q.totalFindings.GetOr(0) as real / 5.0 * 10.0, 10.0)
  }

  /** `min(source_diversity / 4 * 10, 10)`, `source_diversity` defaulting to 0:
      two and a half points per kind of source, full marks from four on. */
  function SourceDiversity(q: QualityAssessment): (d: real)
    ensures d <= 10.0
    ensures d == if q.sourceDiversity.GetOr(0) >= 4 then 10.0 else 2.5 * q.sourceDiversity.GetOr(0) as real
  {
    Min(q.sourceDiversity.GetOr(0) as real / 4.0 * 10.0, 10.0)
  }

  /** `max(total_findings, 1)`, `total_findings` defaulting to 1: the findings
      count when it is positive, otherwise 1. */
  function ValidationDivisor(q: QualityAssessment): (d: int)
    ensures d >= 1
    ensures q.totalFindings.Some? && q.totalFindings.value >= 1 ==> d == q.totalFindings.value
    ensures q.totalFindings.None? || q.totalFindings.value < 1 ==> d == 1
  {
    var tf := q.totalFindings.GetOr(1);
    if tf >= 1 then tf else 1
  }

  /** `external_sources_used / max(total_findings, 1) * 10`: ten points per
      external source per finding, not clamped. */
  function ExternalValidation(q: QualityAssessment): (v: real)
    ensures v * ValidationDivisor(q) as real == 10.0 * q.externalSourcesUsed.GetOr(0) as real
  {
    q.externalSourcesUsed.GetOr(0) as real / ValidationDivisor(q) as real * 10.0
  }

  /** The radar of a result: none when `quality_assessment` is empty or absent. */
  function Radar(r: ResearchResult): (d: Option<RadarData>)
    ensures d.None? <==> !QualityIsNonEmpty(Quality(r))
    ensures d.Some? ==> d.value.completeness <= 10.0 && d.value.sourceDiversity <= 10.0
  {
    var q := Quality(r);
    if !QualityIsNonEmpty(q) then None
    else Some(RadarData(Completeness(q), SourceDiversity(q), ExternalValidation(q)))
  }

  /** External validation is the one unclamped axis: more external sources than
      findings put it beyond the radar's range of 10. */
  lemma ValidationExceedsRange(q: QualityAssessment)
    requires q.totalFindings.Some? && q.totalFindings.value >= 1
    requires q.externalSourcesUsed.GetOr(0) > q.totalFindings.value
    ensures ExternalValidation(q) > 10.0
  {
    var v := ExternalValidation(q);
    var d := ValidationDivisor(q) as real;
    var e := q.externalSourcesUsed.GetOr(0) as real;
    assert v * d == 10.0 * e;
    assert (v - 10.0) * d == 10.0 * (e - d);
    assert 10.0 * (e - d) > 0.0;
  }
}
