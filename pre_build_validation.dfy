/** The pre-build validation: the quality gates, the figures it reads off the GEO check
    and the multilingual parity check, and the decision whether the build may go on. */
module PreBuildValidation {
  import opened Util
  import opened GeoTypes
  import GeoCheck
  import MultilingualParity
  import ContentValidator
  import Terminology

  // ---------------------------------------------------------------------------
  // Quality gates

  /** Minimum summary coverage (%), minimum average score, minimum parity rate (%) and
      maximum number of critical issues. */
  datatype Gates = Gates(
    aiSummaryCoverage: int, averageQualityScore: int, multilingualParityRate: int, maxCriticalIssues: int)

  const DefaultGates := Gates(90, 70, 90, 0)
  const StrictGates := Gates(100, 80, 100, 0)

  /** `a` asks at least as much as `b` of every figure. */
  predicate AtLeastAsDemanding(a: Gates, b: Gates) {
    && a.aiSummaryCoverage >= b.aiSummaryCoverage
    && a.averageQualityScore >= b.averageQualityScore
    && a.multilingualParityRate >= b.multilingualParityRate
    && a.maxCriticalIssues <= b.maxCriticalIssues
  }

  /** The strict gates are at least as demanding as the defaults in every field. */
  lemma StrictAtLeastAsDemanding()
    ensures AtLeastAsDemanding(StrictGates, DefaultGates)
  {
  }

  /** `--strict`, `--threshold` (already parsed to an integer) and
      `--skip-multilingual`. */
  datatype ValidationOptions = ValidationOptions(strict: bool, threshold: Option<int>, skipMultilingual: bool)

  /** The two gate objects of the script, which `runPreBuildValidation` selects from and
      writes the threshold into. */
  class SharedGates {
    var defaults: Gates
    var strict: Gates

    constructor()
      ensures defaults == DefaultGates && strict == StrictGates
    {
      defaults := DefaultGates;
      strict := StrictGates;
    }

    /** The selection as written: the chosen object itself receives the threshold, so the
        change outlives the run. */
    method Select(options: ValidationOptions) returns (g: Gates)
      modifies this
      ensures var chosen := if options.strict then old(strict) else old(defaults);
        g == if options.threshold.Some? then chosen.(averageQualityScore := options.threshold.value) else chosen
      ensures options.strict ==> strict == g && defaults == old(defaults)
      ensures !options.strict ==> defaults == g && strict == old(strict)
    {
      g := if options.strict then strict else defaults;
      if options.threshold.Some? {
        g := g.(averageQualityScore := options.threshold.value);
        if options.strict {
          strict := g;
        } else {
          defaults := g;
        }
      }
    }
  }

  /** Two selections in one process: a threshold of 50 given to the first is still in
      force for the second, which was given none. */
  method ThresholdOutlivesRun() returns (first: Gates, second: Gates)
    ensures first.averageQualityScore == 50
    ensures second.averageQualityScore == 50 && second != DefaultGates
  {
    var shared := new SharedGates();
    first := shared.Select(ValidationOptions(false, Some(50), false));
    second := shared.Select(ValidationOptions(false, None, false));
  }

  function BaseGates(strict: bool): Gates {
    if strict then StrictGates else DefaultGates
  }

  /** The gates of one run, the selected constants left untouched: the threshold, when
      given, replaces the minimum average score and nothing else. */
  function GatesFor(options: ValidationOptions): (g: Gates)
    ensures g.aiSummaryCoverage == BaseGates(options.strict).aiSummaryCoverage
    ensures g.multilingualParityRate == BaseGates(options.strict).multilingualParityRate
    ensures g.maxCriticalIssues == BaseGates(options.strict).maxCriticalIssues == 0
    ensures g.averageQualityScore
         == if options.threshold.Some? then options.threshold.value else BaseGates(options.strict).averageQualityScore
  {
    var base := BaseGates(options.strict);
    if options.threshold.Some? then base.(averageQualityScore := options.threshold.value) else base
  }

  // ---------------------------------------------------------------------------
  // Figures of the GEO report

  /** The articles whose report has a summary. */
  function WithAISummary(articles: seq<GeoCheck.ArticleReport>): (n: nat)
    ensures n <= |articles|
  {
    if articles == [] then 0
    else WithAISummary(articles[..|articles| - 1])
         + if articles[|articles| - 1].qualityReport.metrics.hasAISummary then 1 else 0
  }

  /** `calculateAISummaryCoverage`: 100 without articles, otherwise the share of articles
      with a summary, in percent. */
  function AISummaryCoverage(report: GeoCheck.GEOCheckReport): (r: real)
    ensures report.summary.totalArticles == 0 ==> r == 100.0
    ensures report.summary.totalArticles == |report.articles| ==> 0.0 <= r <= 100.0
  {
    var t := report.summary.totalArticles;
    if t == 0 then 100.0
    else
      var w := WithAISummary(report.articles);
      var q := w as real / t as real;
      assert q * (t as real) == w as real;
      assert t == |report.articles| ==> q <= 1.0 by {
        assert q > 1.0 ==> q * (t as real) > 1.0 * (t as real);
      }
      q * 100.0
  }

  /** With articles, the coverage is below a gate exactly when 100 × (articles with a
      summary) is below gate × (articles). */
  lemma CoverageBelowGate(report: GeoCheck.GEOCheckReport, gate: int)
    requires report.summary.totalArticles > 0
    ensures AISummaryCoverage(report) < gate as real
            <==> 100 * WithAISummary(report.articles) < gate * report.summary.totalArticles
  {
    PercentBelowCounts(WithAISummary(report.articles), report.summary.totalArticles, gate);
  }

  /** `PercentBelow` on counts. */
  lemma PercentBelowCounts(w: nat, t: nat, g: int)
    requires 0 < t
    ensures (w as real) / (t as real) * 100.0 < g as real <==> 100 * w < g * t
  {
    PercentBelow(w as real, t as real, g as real);
    assert (g * t) as real == (g as real) * (t as real);
    assert (100 * w) as real == 100.0 * (w as real);
  }

  /** A share in percent is below a gate exactly when 100 × the part is below
      gate × the whole. */
  lemma PercentBelow(w: real, t: real, g: real)
    requires 0.0 < t
    ensures w / t * 100.0 < g <==> 100.0 * w < g * t
  {
    var p := w / t * 100.0;
    assert p * t == 100.0 * (w / t * t);
    assert w / t * t == w;
    Terminology.ScaleMono(p, g, t);
    Terminology.ScaleMono(g, p, t);
  }

  predicate IsError(i: QualityIssue) { i.severity == Error }

  /** The error-severity issues of the articles' quality reports. */
  function ErrorIssues(articles: seq<GeoCheck.ArticleReport>): nat {
    if articles == [] then 0
    else ErrorIssues(articles[..|articles| - 1]) + |Filter(articles[|articles| - 1].qualityReport.issues, IsError)|
  }

  /** The critical issues: error-severity issues plus terminology conflicts. */
  function CriticalIssues(report: GeoCheck.GEOCheckReport): nat {
    ErrorIssues(report.articles) + report.terminology.conflictsFound
  }

  /** `countCriticalIssues`. */
  method CountCriticalIssues(report: GeoCheck.GEOCheckReport) returns (count: nat)
    ensures count == CriticalIssues(report)
  {
    count := 0;
    var articles := report.articles;
    for i := 0 to |articles|
      invariant count == ErrorIssues(articles[..i])
    {
      assert articles[..i + 1][..i] == articles[..i];
      count := count + |Filter(articles[i].qualityReport.issues, IsError)|;
    }
    assert articles[..|articles|] == articles;
    count := count + report.terminology.conflictsFound;
  }

  /** No critical issue exactly when no article has an error and there is no
      terminology conflict. */
  lemma {:induction false} ErrorIssuesZero(articles: seq<GeoCheck.ArticleReport>)
    ensures ErrorIssues(articles) == 0
            <==> forall k, i :: 0 <= k < |articles| && 0 <= i < |articles[k].qualityReport.issues| ==>
                   articles[k].qualityReport.issues[i].severity != Error
  {
    if articles != [] {
      var init := articles[..|articles| - 1];
      var last := articles[|articles| - 1];
      ErrorIssuesZero(init);
      FilterEmpty(last.qualityReport.issues, IsError);
      assert forall k :: 0 <= k < |init| ==> init[k] == articles[k];
    }
  }

  lemma CriticalIssuesZero(report: GeoCheck.GEOCheckReport)
    ensures CriticalIssues(report) == 0
            <==> && report.terminology.conflictsFound == 0
                 && forall k, i :: 0 <= k < |report.articles| && 0 <= i < |report.articles[k].qualityReport.issues| ==>
                      report.articles[k].qualityReport.issues[i].severity != Error
  {
    ErrorIssuesZero(report.articles);
  }

  /** The content validator raises only warnings, so the critical issues of a GEO check
      are exactly its terminology conflicts. */
  lemma CriticalIssuesOfCheck(options: GeoCheck.CheckOptions, v: GeoCheck.Validate, dict: Option<Terminology.Dictionary>,
                              messages: GeoCheck.Messages, now: string)
    requires GeoCheck.ValidatorSound(v)
    ensures var r := GeoCheck.GEOCheck(options, v, dict, messages, now);
      CriticalIssues(r) == |r.terminology.conflicts|
  {
    var r := GeoCheck.GEOCheck(options, v, dict, messages, now);
    GeoCheck.ReportedArticlesSound(options, v, dict, messages, now);
    forall k, i | 0 <= k < |r.articles| && 0 <= i < |r.articles[k].qualityReport.issues|
      ensures r.articles[k].qualityReport.issues[i].severity != Error
    {
      assert GeoCheck.Sound(r.articles[k]) by {
        assert r.articles[k] in r.articles;
      }
    }
    ErrorIssuesZero(r.articles);
  }

  // ---------------------------------------------------------------------------
  // Figures of the parity report

  predicate IsCritical(i: MultilingualParity.ParityIssue) { i.severity == MultilingualParity.Critical }

  /** The critical-severity parity issues of the articles. */
  function CriticalParityIssues(articles: seq<MultilingualParity.ArticleParityReport>): nat {
    if articles == [] then 0
    else CriticalParityIssues(articles[..|articles| - 1]) + |Filter(articles[|articles| - 1].issues, IsCritical)|
  }

  /** `countCriticalParityIssues`. */
  method CountCriticalParityIssues(report: MultilingualParity.ParityReport) returns (count: nat)
    ensures count == CriticalParityIssues(report.articles)
  {
    count := 0;
    var articles := report.articles;
    for i := 0 to |articles|
      invariant count == CriticalParityIssues(articles[..i])
    {
      assert articles[..i + 1][..i] == articles[..i];
      count := count + |Filter(articles[i].issues, IsCritical)|;
    }
    assert articles[..|articles|] == articles;
  }

  /** The count is zero exactly when no article has a critical issue: high, medium and
      low issues do not count. */
  lemma {:induction false} CriticalParityIssuesZero(articles: seq<MultilingualParity.ArticleParityReport>)
    ensures CriticalParityIssues(articles) == 0
            <==> forall k, i :: 0 <= k < |articles| && 0 <= i < |articles[k].issues| ==>
                   articles[k].issues[i].severity != MultilingualParity.Critical
  {
    if articles != [] {
      var init := articles[..|articles| - 1];
      var last := articles[|articles| - 1];
      CriticalParityIssuesZero(init);
      FilterEmpty(last.issues, IsCritical);
      assert forall k :: 0 <= k < |init| ==> init[k] == articles[k];
    }
  }

  // ---------------------------------------------------------------------------
  // The decision

  /** A gate not met, with the figure and the gate's value. */
  datatype GateFailure =
    | CoverageBelow(coverage: real, gate: int)
    | AverageBelow(averageScoreTenths: int, gate: int)
    | CriticalIssuesAbove(count: nat, max: int)
    | ParityBelow(parityRateTenths: int, gate: int)
    | CriticalParityFound(count: nat)

  /** The GEO gates; the average score and parity rate are in tenths. */
  function GeoFailures(g: Gates, geo: GeoCheck.GEOCheckReport): seq<GateFailure> {
    var coverage := AISummaryCoverage(geo);
    var average := geo.summary.averageScoreTenths;
    var critical := CriticalIssues(geo);
    (if coverage < g.aiSummaryCoverage as real then [CoverageBelow(coverage, g.aiSummaryCoverage)] else [])
    + (if average < 10 * g.averageQualityScore then [AverageBelow(average, g.averageQualityScore)] else [])
    + (if critical > g.maxCriticalIssues then [CriticalIssuesAbove(critical, g.maxCriticalIssues)] else [])
  }

  function ParityFailures(g: Gates, parity: MultilingualParity.ParityReport): seq<GateFailure> {
    var rate := parity.summary.parityRateTenths;
    var critical := CriticalParityIssues(parity.articles);
    (if rate < 10 * g.multilingualParityRate then [ParityBelow(rate, g.multilingualParityRate)] else [])
    + (if critical > 0 then [CriticalParityFound(critical)] else [])
  }

  /** A run ends early (a check threw) or with the list of gates not met. */
  datatype Outcome = Aborted | Completed(failures: seq<GateFailure>)

  /** `runPreBuildValidation` as a specification: `geo` and `parity` are the reports of
      the two checks, none when a check threw. */
  function Validation(options: ValidationOptions, geo: Option<GeoCheck.GEOCheckReport>,
                      parity: Option<MultilingualParity.ParityReport>): Outcome
  {
    var g := GatesFor(options);
    if geo.None? then Aborted
    else if options.skipMultilingual then Completed(GeoFailures(g, geo.value))
    else if parity.None? then Aborted
    else Completed(GeoFailures(g, geo.value) + ParityFailures(g, parity.value))
  }

  /** Step 1 of `runPreBuildValidation`: the three GEO gates in turn. */
  method CheckGeoGates(gates: Gates, report: GeoCheck.GEOCheckReport) returns (ok: bool, failures: seq<GateFailure>)
    ensures failures == GeoFailures(gates, report)
    ensures ok <==> failures == []
  {
    ok := true;
    failures := [];
    var coverage := AISummaryCoverage(report);
    var averageScore := report.summary.averageScoreTenths;
    var criticalIssues := CountCriticalIssues(report);
    if coverage < gates.aiSummaryCoverage as real {
      ok := false;
      failures := failures + [CoverageBelow(coverage, gates.aiSummaryCoverage)];
    }
    assert ok <==> failures == [];
    if averageScore < 10 * gates.averageQualityScore {
      ok := false;
      failures := failures + [AverageBelow(averageScore, gates.averageQualityScore)];
    }
    assert ok <==> failures == [];
    if criticalIssues > gates.maxCriticalIssues {
      ok := false;
      failures := failures + [CriticalIssuesAbove(criticalIssues, gates.maxCriticalIssues)];
    }
  }

  /** Step 2 of `runPreBuildValidation`: the parity rate and critical parity issues. */
  method CheckParityGates(gates: Gates, report: MultilingualParity.ParityReport) returns (ok: bool, failures: seq<GateFailure>)
    ensures failures == ParityFailures(gates, report)
    ensures ok <==> failures == []
  {
    ok := true;
    failures := [];
    var parityRate := report.summary.parityRateTenths;
    var criticalParity := CountCriticalParityIssues(report);
    if parityRate < 10 * gates.multilingualParityRate {
      ok := false;
      failures := failures + [ParityBelow(parityRate, gates.multilingualParityRate)];
    }
    if criticalParity > 0 {
      ok := false;
      failures := failures + [CriticalParityFound(criticalParity)];
    }
  }

  /** `runPreBuildValidation`: check each gate in turn, record the failures, and pass
      only when every check completed and every gate was met. */
  method RunPreBuildValidation(options: ValidationOptions, geo: Option<GeoCheck.GEOCheckReport>,
                               parity: Option<MultilingualParity.ParityReport>)
    returns (passed: bool, failures: seq<GateFailure>)
    ensures passed <==> Validation(options, geo, parity) == Completed([])
    ensures Validation(options, geo, parity).Completed? ==> failures == Validation(options, geo, parity).failures
  {
    var gates := GatesFor(options);
    if geo.None? {
      return false, [];
    }
    var allChecksPassed;
    allChecksPassed, failures := CheckGeoGates(gates, geo.value);
    if !options.skipMultilingual {
      if parity.None? {
        return false, failures;
      }
      var parityOk, parityFailures := CheckParityGates(gates, parity.value);
      allChecksPassed := allChecksPassed && parityOk;
      failures := failures + parityFailures;
    }
    passed := allChecksPassed;
  }

  /** The run passes exactly when both checks completed (the parity check unless skipped) and
      every gate holds: coverage, average score and critical issues, then parity rate and
      no critical parity issue. */
  lemma PassesIffGatesMet(options: ValidationOptions, geo: Option<GeoCheck.GEOCheckReport>,
                          parity: Option<MultilingualParity.ParityReport>)
    ensures var g := GatesFor(options);
      Validation(options, geo, parity) == Completed([])
      <==> && geo.Some?
           && AISummaryCoverage(geo.value) >= g.aiSummaryCoverage as real
           && geo.value.summary.averageScoreTenths >= 10 * g.averageQualityScore
           && CriticalIssues(geo.value) == 0
           && (options.skipMultilingual ||
                 (&& parity.Some?
                  && parity.value.summary.parityRateTenths >= 10 * g.multilingualParityRate
                  && CriticalParityIssues(parity.value.articles) == 0))
  {
  }

  /** Whatever passes the strict gates passes the default ones. */
  lemma StrictPassImpliesDefaultPass(threshold: Option<int>, skipMultilingual: bool,
                                     geo: Option<GeoCheck.GEOCheckReport>, parity: Option<MultilingualParity.ParityReport>)
    requires Validation(ValidationOptions(true, threshold, skipMultilingual), geo, parity) == Completed([])
    ensures Validation(ValidationOptions(false, threshold, skipMultilingual), geo, parity) == Completed([])
  {
    PassesIffGatesMet(ValidationOptions(true, threshold, skipMultilingual), geo, parity);
    PassesIffGatesMet(ValidationOptions(false, threshold, skipMultilingual), geo, parity);
  }

  /** A single terminology conflict, or a single critical parity issue, fails the build,
      whichever gates are chosen. */
  lemma ConflictFailsBuild(options: ValidationOptions, geo: GeoCheck.GEOCheckReport,
                           parity: Option<MultilingualParity.ParityReport>)
    requires geo.terminology.conflictsFound > 0
      || (!options.skipMultilingual && parity.Some? &&
          exists k, i :: 0 <= k < |parity.value.articles| && 0 <= i < |parity.value.articles[k].issues|
                         && parity.value.articles[k].issues[i].severity == MultilingualParity.Critical)
    ensures Validation(options, Some(geo), parity) != Completed([])
  {
    PassesIffGatesMet(options, Some(geo), parity);
    if parity.Some? {
      CriticalParityIssuesZero(parity.value.articles);
    }
  }
}
