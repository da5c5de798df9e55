/** The GEO quality check over the articles of the message files: which locales and
    articles it checks, the report of each article with its pass rule, the summary
    statistics and the global recommendations. */
module GeoCheck {
  import opened Util
  import opened GeoTypes
  import ContentValidator
  import Terminology
  import MultilingualParity

  // ---------------------------------------------------------------------------
  // Options and input

  /** `--locale`: one locale, or 'all'. */
  datatype LocaleOption = AllLocales | OneLocale(locale: Locale)

  /** The options the check reads; `article` is the id asked for, if any. */
  datatype CheckOptions = CheckOptions(locale: Option<LocaleOption>, article: Option<string>)

  /** The locales checked: both for 'all' or no option, otherwise the one given. */
  function LocalesToCheck(locale: Option<LocaleOption>): (r: seq<Locale>)
    ensures |r| >= 1 && NoDuplicates(r)
  {
    match locale
    case Some(OneLocale(l)) => [l]
    case _ => [Zh, En]
  }

  /** A locale is checked exactly when it was asked for, alone or through 'all'. */
  lemma LocaleChecked(locale: Option<LocaleOption>, l: Locale)
    ensures l in LocalesToCheck(locale) <==> locale.None? || locale == Some(AllLocales) || locale == Some(OneLocale(l))
  {
  }

  /** An article is checked unless a (non-empty) id was asked for that is not its own. */
  predicate Wanted(article: Option<string>, id: string) {
    !MultilingualParity.Filled(article) || id == article.value
  }

  /** An article entry as loaded from a message file: a missing content is the empty
      string, and the summary, Q&A pairs and citations are reduced to what the check
      reads of them (truthiness and length). */
  datatype ArticleData = ArticleData(
    title: string, content: string, hasAISummary: bool, qaPairCount: nat, citationCount: nat)

  datatype LoadedArticle = LoadedArticle(id: string, data: ArticleData)

  /** The `blog.articles` entries of both message files, in key order; a missing file
      or a file without articles gives none. */
  datatype Messages = Messages(zh: seq<LoadedArticle>, en: seq<LoadedArticle>) {
    function ArticlesOf(l: Locale): seq<LoadedArticle> {
      match l
      case Zh => zh
      case En => en
    }
  }

  // ---------------------------------------------------------------------------
  // One article

  datatype ArticleReport = ArticleReport(
    id: string, locale: Locale, title: string, qualityReport: ContentQualityReport,
    terminologyIssues: seq<ConflictReport>, passed: bool)

  /** The score an article needs to pass. */
  const PassScore := 70

  /** The conflicts, each labelled with the article's id. */
  function Stamped(conflicts: seq<ConflictReport>, id: string): (r: seq<ConflictReport>)
    ensures |r| == |conflicts|
    ensures forall k :: 0 <= k < |r| ==> r[k] == conflicts[k].(articleId := id)
  {
    if conflicts == [] then []
    else Stamped(conflicts[..|conflicts| - 1], id) + [conflicts[|conflicts| - 1].(articleId := id)]
  }

  /** The terminology issues of an article: none without a dictionary or without
      content, otherwise the conflicts found for the article's locale. */
  function TerminologyIssues(dict: Option<Terminology.Dictionary>, l: Locale, e: LoadedArticle): seq<ConflictReport> {
    if dict.Some? && e.data.content != "" then Stamped(Terminology.Conflicts(dict.value.entries, l, e.data.content), e.id)
    else []
  }

  /** `validator.validate(id, content, hasAISummary, hasQACoverage, hasCitations)`. */
  type Validate = (string, string, bool, bool, bool) -> ContentQualityReport

  /** What the content validator guarantees of every report: a score within [0, 100],
      warnings only, the id, summary and Q&A flags it was given, and the citation flag
      set whenever citations were declared. */
  ghost predicate ValidatorSound(v: Validate) {
    forall id, content, hasAISummary, hasQA, hasCitations ::
      var q := v(id, content, hasAISummary, hasQA, hasCitations);
      && 0 <= q.overallScore <= 100
      && ContentValidator.AllWarnings(q.issues)
      && q.articleId == id
      && q.metrics.hasAISummary == hasAISummary
      && q.metrics.hasQACoverage == hasQA
      && (hasCitations ==> q.metrics.hasCitations)
  }

  /** The content validator with its patterns. */
  function Validator(p: ContentValidator.Patterns): (v: Validate)
    ensures ValidatorSound(v)
  {
    var v := (id, content, hasAISummary, hasQA, hasCitations) =>
      ContentValidator.ReportOf(p, id, content, hasAISummary, hasQA, hasCitations);
    assert ValidatorSound(v) by {
      forall id, content, hasAISummary, hasQA, hasCitations
        ensures var q := v(id, content, hasAISummary, hasQA, hasCitations);
          && 0 <= q.overallScore <= 100
          && ContentValidator.AllWarnings(q.issues)
          && q.articleId == id
          && q.metrics.hasAISummary == hasAISummary
          && q.metrics.hasQACoverage == hasQA
          && (hasCitations ==> q.metrics.hasCitations)
      {
        ContentValidator.IssuesAreWarnings(p, content, hasCitations);
      }
    }
    v
  }

  /** The quality report of an article: a missing content is validated as "", and Q&A
      pairs and citations count when there is at least one. */
  function QualityOf(v: Validate, e: LoadedArticle): ContentQualityReport {
    v(e.id, e.data.content, e.data.hasAISummary, e.data.qaPairCount > 0, e.data.citationCount > 0)
  }

  /** `validator.validate` on one article. */
  method ValidateArticle(p: ContentValidator.Patterns, e: LoadedArticle) returns (q: ContentQualityReport)
    ensures q == QualityOf(Validator(p), e)
  {
    var d := e.data;
    q := ContentValidator.Validate(p, e.id, d.content, d.hasAISummary, d.qaPairCount > 0, d.citationCount > 0);
  }

  /** The report of one article. It passes exactly when it scores at least 70 and has
      no terminology issue, and every conflict it lists names the article. */
  function ArticleReportOf(v: Validate, dict: Option<Terminology.Dictionary>, l: Locale,
                           e: LoadedArticle): (r: ArticleReport)
    ensures r.id == e.id && r.locale == l && r.title == e.data.title
    ensures r.qualityReport == QualityOf(v, e)
    ensures r.passed <==> r.qualityReport.overallScore >= PassScore && r.terminologyIssues == []
    ensures forall c :: c in r.terminologyIssues ==> c.articleId == e.id
    ensures dict.None? || e.data.content == "" ==> r.terminologyIssues == []
  {
    var quality := QualityOf(v, e);
    var issues := TerminologyIssues(dict, l, e);
    ArticleReport(e.id, l, e.data.title, quality, issues, quality.overallScore >= PassScore && issues == [])
  }

  /** The loop labelling each conflict found in an article with the article's id. */
  method StampConflicts(conflicts: seq<ConflictReport>, id: string) returns (issues: seq<ConflictReport>)
    ensures issues == Stamped(conflicts, id)
  {
    issues := [];
    for k := 0 to |conflicts|
      invariant issues == Stamped(conflicts[..k], id)
    {
      assert conflicts[..k + 1][..k] == conflicts[..k];
      issues := issues + [conflicts[k].(articleId := id)];
    }
    assert conflicts[..|conflicts|] == conflicts;
  }

  /** One pass of the article loop: validate the content, then check its terminology
      and label each conflict with the article's id. */
  method CheckArticle(v: Validate, dict: Option<Terminology.Dictionary>, l: Locale,
                      e: LoadedArticle) returns (r: ArticleReport)
    ensures r == ArticleReportOf(v, dict, l, e)
  {
    var d := e.data;
    var quality := v(e.id, d.content, d.hasAISummary, d.qaPairCount > 0, d.citationCount > 0);
    var issues: seq<ConflictReport> := [];
    if dict.Some? && d.content != "" {
      var conflicts := Terminology.ValidateTerminologyConsistency(dict.value, d.content, Some(l));
      issues := StampConflicts(conflicts, e.id);
    }
    assert issues == TerminologyIssues(dict, l, e);
    r := ArticleReport(e.id, l, d.title, quality, issues, quality.overallScore >= PassScore && |issues| == 0);
  }

  // ---------------------------------------------------------------------------
  // All articles

  /** The reports of one locale's articles, skipping those not asked for. */
  function LocaleReports(v: Validate, dict: Option<Terminology.Dictionary>, article: Option<string>,
                         l: Locale, entries: seq<LoadedArticle>): seq<ArticleReport>
  {
    if entries == [] then []
    else
      var e := entries[|entries| - 1];
      LocaleReports(v, dict, article, l, entries[..|entries| - 1])
      + if Wanted(article, e.id) then [ArticleReportOf(v, dict, l, e)] else []
  }

  /** The reports of the given locales, locale after locale. */
  function ReportsOver(v: Validate, dict: Option<Terminology.Dictionary>, article: Option<string>,
                       locales: seq<Locale>, messages: Messages): seq<ArticleReport>
  {
    if locales == [] then []
    else
      var l := locales[|locales| - 1];
      ReportsOver(v, dict, article, locales[..|locales| - 1], messages)
      + LocaleReports(v, dict, article, l, messages.ArticlesOf(l))
  }

  /** The terminology issues of all reports, report by report. */
  function AllIssues(reports: seq<ArticleReport>): seq<ConflictReport> {
    if reports == [] then []
    else AllIssues(reports[..|reports| - 1]) + reports[|reports| - 1].terminologyIssues
  }

  function ScoreSum(reports: seq<ArticleReport>): int {
    if reports == [] then 0
    else ScoreSum(reports[..|reports| - 1]) + reports[|reports| - 1].qualityReport.overallScore
  }

  function PassedCount(reports: seq<ArticleReport>): nat {
    if reports == [] then 0
    else PassedCount(reports[..|reports| - 1]) + if reports[|reports| - 1].passed then 1 else 0
  }

  /** `Math.round(num / den * 10) / 10` in tenths, 0 when `den` is 0: the tenth nearest
      to `num / den`, halves rounded up. */
  function Tenths(num: int, den: nat): (r: int)
    ensures den > 0 ==> 2 * den * r <= 20 * num + den < 2 * den * r + 2 * den
    ensures den == 0 ==> r == 0
  {
    if den > 0 then
      var x, d := 20 * num + den, 2 * den;
      assert d * (x / d) + x % d == x;
      x / d
    else 0
  }

  datatype Summary = Summary(
    totalArticles: nat, articlesChecked: nat, averageScoreTenths: int, passRateTenths: int, timestamp: string)

  datatype TerminologySummary = TerminologySummary(totalTerms: nat, conflictsFound: nat, conflicts: seq<ConflictReport>)

  datatype GEOCheckReport = GEOCheckReport(
    summary: Summary, articles: seq<ArticleReport>, terminology: TerminologySummary,
    recommendations: seq<GlobalRecommendation>)

  /** The summary statistics: the average score and the pass rate in tenths. */
  function SummaryOf(reports: seq<ArticleReport>, now: string): Summary {
    Summary(|reports|, |reports|, Tenths(ScoreSum(reports), |reports|),
            Tenths(100 * PassedCount(reports), |reports|), now)
  }

  /** `runGEOCheck` as a specification; `dict` is the dictionary when its file exists
      and parses, `now` the time of the run. */
  function GEOCheck(options: CheckOptions, v: Validate, dict: Option<Terminology.Dictionary>,
                    messages: Messages, now: string): GEOCheckReport
  {
    var reports := ReportsOver(v, dict, options.article, LocalesToCheck(options.locale), messages);
    var conflicts := AllIssues(reports);
    GEOCheckReport(
      SummaryOf(reports, now), reports,
      TerminologySummary(if dict.Some? then |dict.value.entries| else 0, |conflicts|, conflicts),
      GlobalRecommendations(reports, conflicts))
  }

  /** `runGEOCheck`: the loop over the locales and their articles. */
  method RunGEOCheck(options: CheckOptions, v: Validate, dict: Option<Terminology.Dictionary>,
                     messages: Messages, now: string) returns (report: GEOCheckReport)
    ensures report == GEOCheck(options, v, dict, messages, now)
  {
    var locales := LocalesToCheck(options.locale);
    var allArticles: seq<ArticleReport> := [];
    var totalConflicts: seq<ConflictReport> := [];
    for i := 0 to |locales|
      invariant allArticles == ReportsOver(v, dict, options.article, locales[..i], messages)
      invariant totalConflicts == AllIssues(allArticles)
    {
      assert locales[..i + 1][..i] == locales[..i];
      allArticles, totalConflicts :=
        CheckLocale(v, dict, options.article, locales[i], messages.ArticlesOf(locales[i]), allArticles, totalConflicts);
    }
    assert locales[..|locales|] == locales;
    var recommendations := GlobalRecommendations(allArticles, totalConflicts);
    var terms := if dict.Some? then |dict.value.entries| else 0;
    report := GEOCheckReport(
      SummaryOf(allArticles, now), allArticles, TerminologySummary(terms, |totalConflicts|, totalConflicts),
      recommendations);
  }

  /** One step of the inner loop of `runGEOCheck`: a wanted article is checked, and its
      report and its terminology issues are added to what the run has so far. */
  method AddReport(v: Validate, dict: Option<Terminology.Dictionary>, article: Option<string>, l: Locale,
                   e: LoadedArticle, reports: seq<ArticleReport>, conflicts: seq<ConflictReport>)
    returns (allArticles: seq<ArticleReport>, totalConflicts: seq<ConflictReport>)
    requires conflicts == AllIssues(reports)
    ensures allArticles == reports + if Wanted(article, e.id) then [ArticleReportOf(v, dict, l, e)] else []
    ensures totalConflicts == AllIssues(allArticles)
  {
    allArticles, totalConflicts := reports, conflicts;
    if Wanted(article, e.id) {
      var r := CheckArticle(v, dict, l, e);
      assert (reports + [r])[..|reports|] == reports;
      allArticles := reports + [r];
      totalConflicts := conflicts + r.terminologyIssues;
    }
  }

  /** The inner loop of `runGEOCheck`: check the wanted articles of one locale, adding
      their reports and their terminology issues to what the run has so far. */
  method CheckLocale(v: Validate, dict: Option<Terminology.Dictionary>, article: Option<string>, l: Locale,
                     articles: seq<LoadedArticle>, reports: seq<ArticleReport>, conflicts: seq<ConflictReport>)
    returns (allArticles: seq<ArticleReport>, totalConflicts: seq<ConflictReport>)
    requires conflicts == AllIssues(reports)
    ensures allArticles == reports + LocaleReports(v, dict, article, l, articles)
    ensures totalConflicts == AllIssues(allArticles)
  {
    allArticles, totalConflicts := reports, conflicts;
    for j := 0 to |articles|
      invariant allArticles == reports + LocaleReports(v, dict, article, l, articles[..j])
      invariant totalConflicts == AllIssues(allArticles)
    {
      assert articles[..j + 1][..j] == articles[..j];
      ghost var done := LocaleReports(v, dict, article, l, articles[..j]);
      ghost var added := if Wanted(article, articles[j].id) then [ArticleReportOf(v, dict, l, articles[j])] else [];
      assert LocaleReports(v, dict, article, l, articles[..j + 1]) == done + added;
      AppendAssoc(reports, done, added);
      allArticles, totalConflicts := AddReport(v, dict, article, l, articles[j], allArticles, totalConflicts);
    }
    assert articles[..|articles|] == articles;
  }

  // ---------------------------------------------------------------------------
  // Properties of the reports

  /** What holds of every report: the pass rule, the score range, warnings only, and
      conflicts that name the article. */
  predicate Sound(a: ArticleReport) {
    && a.qualityReport.articleId == a.id
    && (a.passed <==> a.qualityReport.overallScore >= PassScore && a.terminologyIssues == [])
    && 0 <= a.qualityReport.overallScore <= 100
    && ContentValidator.AllWarnings(a.qualityReport.issues)
    && forall c :: c in a.terminologyIssues ==> c.articleId == a.id
  }

  /** A report is for a checked locale and, when an article was asked for, for it. */
  predicate InScope(a: ArticleReport, options: CheckOptions) {
    && a.locale in LocalesToCheck(options.locale)
    && Wanted(options.article, a.id)
  }

  lemma {:induction false} LocaleReportsSound(v: Validate, dict: Option<Terminology.Dictionary>,
                                              options: CheckOptions, l: Locale, entries: seq<LoadedArticle>)
    requires ValidatorSound(v)
    requires l in LocalesToCheck(options.locale)
    ensures forall a :: a in LocaleReports(v, dict, options.article, l, entries) ==> Sound(a) && InScope(a, options)
  {
    if entries != [] {
      LocaleReportsSound(v, dict, options, l, entries[..|entries| - 1]);
    }
  }

  lemma {:induction false} ReportsOverSound(v: Validate, dict: Option<Terminology.Dictionary>,
                                            options: CheckOptions, locales: seq<Locale>, messages: Messages)
    requires ValidatorSound(v)
    requires forall l :: l in locales ==> l in LocalesToCheck(options.locale)
    ensures forall a :: a in ReportsOver(v, dict, options.article, locales, messages) ==> Sound(a) && InScope(a, options)
  {
    if locales != [] {
      var l := locales[|locales| - 1];
      ReportsOverSound(v, dict, options, locales[..|locales| - 1], messages);
      LocaleReportsSound(v, dict, options, l, messages.ArticlesOf(l));
    }
  }

  /** Every reported article follows the pass rule (score at least 70 and no terminology
      issue), lies in a checked locale and, when an article was asked for, is that
      article. */
  lemma ReportedArticlesSound(options: CheckOptions, v: Validate, dict: Option<Terminology.Dictionary>,
                              messages: Messages, now: string)
    requires ValidatorSound(v)
    ensures forall a :: a in GEOCheck(options, v, dict, messages, now).articles ==> Sound(a) && InScope(a, options)
  {
    ReportsOverSound(v, dict, options, LocalesToCheck(options.locale), messages);
  }

  lemma {:induction false} LocaleReportsComplete(v: Validate, dict: Option<Terminology.Dictionary>,
                                                 article: Option<string>, l: Locale, entries: seq<LoadedArticle>, k: nat)
    requires k < |entries| && Wanted(article, entries[k].id)
    ensures ArticleReportOf(v, dict, l, entries[k]) in LocaleReports(v, dict, article, l, entries)
  {
    if k < |entries| - 1 {
      LocaleReportsComplete(v, dict, article, l, entries[..|entries| - 1], k);
    }
  }

  lemma {:induction false} ReportsOverComplete(v: Validate, dict: Option<Terminology.Dictionary>,
                                               article: Option<string>, locales: seq<Locale>, messages: Messages,
                                               l: Locale, k: nat)
    requires l in locales && k < |messages.ArticlesOf(l)| && Wanted(article, messages.ArticlesOf(l)[k].id)
    ensures ArticleReportOf(v, dict, l, messages.ArticlesOf(l)[k]) in ReportsOver(v, dict, article, locales, messages)
  {
    var last := locales[|locales| - 1];
    if l == last {
      LocaleReportsComplete(v, dict, article, l, messages.ArticlesOf(l), k);
    } else {
      ReportsOverComplete(v, dict, article, locales[..|locales| - 1], messages, l, k);
    }
  }

  /** Every article of a checked locale that was asked for (or every one, when none was)
      is reported. */
  lemma CheckedArticlesReported(options: CheckOptions, v: Validate, dict: Option<Terminology.Dictionary>,
                                messages: Messages, now: string, l: Locale, k: nat)
    requires l in LocalesToCheck(options.locale)
    requires k < |messages.ArticlesOf(l)| && Wanted(options.article, messages.ArticlesOf(l)[k].id)
    ensures ArticleReportOf(v, dict, l, messages.ArticlesOf(l)[k]) in GEOCheck(options, v, dict, messages, now).articles
  {
    ReportsOverComplete(v, dict, options.article, LocalesToCheck(options.locale), messages, l, k);
  }

  lemma {:induction false} AllIssuesIff(reports: seq<ArticleReport>, c: ConflictReport)
    ensures c in AllIssues(reports) <==> exists k :: 0 <= k < |reports| && c in reports[k].terminologyIssues
  {
    if reports != [] {
      var init := reports[..|reports| - 1];
      AllIssuesIff(init, c);
      if c in AllIssues(init) {
        var k :| 0 <= k < |init| && c in init[k].terminologyIssues;
        assert reports[k] == init[k];
      }
      if exists k :: 0 <= k < |reports| && c in reports[k].terminologyIssues {
        var k :| 0 <= k < |reports| && c in reports[k].terminologyIssues;
        if k < |init| {
          assert init[k] == reports[k];
        }
      }
    }
  }

  /** The conflicts of the report are exactly those of its articles, each naming a
      reported article, and `conflictsFound` counts them. */
  lemma ConflictsOfArticles(options: CheckOptions, v: Validate, dict: Option<Terminology.Dictionary>,
                            messages: Messages, now: string, c: ConflictReport)
    requires ValidatorSound(v)
    ensures var r := GEOCheck(options, v, dict, messages, now);
      && r.terminology.conflictsFound == |r.terminology.conflicts|
      && (c in r.terminology.conflicts <==> exists k :: 0 <= k < |r.articles| && c in r.articles[k].terminologyIssues)
      && (c in r.terminology.conflicts ==> exists k :: 0 <= k < |r.articles| && c.articleId == r.articles[k].id)
  {
    var r := GEOCheck(options, v, dict, messages, now);
    AllIssuesIff(r.articles, c);
    ReportedArticlesSound(options, v, dict, messages, now);
    if c in r.terminology.conflicts {
      var k :| 0 <= k < |r.articles| && c in r.articles[k].terminologyIssues;
      assert Sound(r.articles[k]);
    }
  }

  lemma {:induction false} ScoreSumBounds(reports: seq<ArticleReport>)
    requires forall k :: 0 <= k < |reports| ==> 0 <= reports[k].qualityReport.overallScore <= 100
    ensures 0 <= ScoreSum(reports) <= 100 * |reports|
  {
    if reports != [] {
      ScoreSumBounds(reports[..|reports| - 1]);
    }
  }

  lemma {:induction false} PassedCountBounds(reports: seq<ArticleReport>)
    ensures PassedCount(reports) <= |reports|
    ensures PassedCount(reports) == |reports| <==> forall k :: 0 <= k < |reports| ==> reports[k].passed
  {
    if reports != [] {
      PassedCountBounds(reports[..|reports| - 1]);
    }
  }

  /** A value between 0 and 100 (inclusive) per item rounds to between 0 and 100.0. */
  lemma TenthsBounds(num: int, den: nat)
    requires den > 0 && 0 <= num <= 100 * den
    ensures 0 <= Tenths(num, den) <= 1000
    ensures num == 100 * den ==> Tenths(num, den) == 1000
  {
    var r := Tenths(num, den);
    MultilingualParity.MulMonotone(2 * den, r + 1, 0);
    MultilingualParity.MulMonotone(2 * den, 1001, r);
    MultilingualParity.MulMonotone(2 * den, r + 1, 1000);
  }

  /** The summary of reports each scoring within [0, 100]: the average score and the
      pass rate lie between 0 and 100.0, and with no articles both are 0. The pass rate
      is 100.0% when every article passed; since it is rounded, a failed article shows
      below 100.0% only among fewer than 2000 articles. */
  lemma SummaryOfBounds(reports: seq<ArticleReport>, now: string)
    requires forall k :: 0 <= k < |reports| ==> 0 <= reports[k].qualityReport.overallScore <= 100
    ensures var s := SummaryOf(reports, now);
      && s.totalArticles == s.articlesChecked == |reports|
      && 0 <= s.averageScoreTenths <= 1000
      && 0 <= s.passRateTenths <= 1000
      && (|reports| > 0 && (forall k :: 0 <= k < |reports| ==> reports[k].passed) ==> s.passRateTenths == 1000)
      && (0 < |reports| < 2000 && (exists k :: 0 <= k < |reports| && !reports[k].passed) ==> s.passRateTenths < 1000)
      && (|reports| == 0 ==> s.averageScoreTenths == 0 && s.passRateTenths == 0)
  {
    PassedCountBounds(reports);
    if |reports| > 0 {
      var w, t := PassedCount(reports), |reports|;
      ScoreSumBounds(reports);
      TenthsBounds(ScoreSum(reports), t);
      TenthsBounds(100 * w, t);
      if t < 2000 && w < t {
        // a rate of 1000 would need 2000t <= 2000w + t <= 2000(t - 1) + t
        MultilingualParity.MulMonotone(2000, w, t - 1);
        MultilingualParity.MulMonotone(2 * t, 1000, Tenths(100 * w, t));
      }
    }
  }

  /** The summary of a check: totals agree with the reported articles, the average
      score and pass rate are within 0..100.0, and the rate is 100.0% when every article
      passed. */
  lemma SummaryBounds(options: CheckOptions, v: Validate, dict: Option<Terminology.Dictionary>,
                      messages: Messages, now: string)
    requires ValidatorSound(v)
    ensures var r := GEOCheck(options, v, dict, messages, now);
      && r.summary.totalArticles == r.summary.articlesChecked == |r.articles|
      && 0 <= r.summary.averageScoreTenths <= 1000
      && 0 <= r.summary.passRateTenths <= 1000
      && (|r.articles| > 0 && (forall k :: 0 <= k < |r.articles| ==> r.articles[k].passed) ==> r.summary.passRateTenths == 1000)
  {
    var rs := GEOCheck(options, v, dict, messages, now).articles;
    ReportedArticlesSound(options, v, dict, messages, now);
    assert forall k :: 0 <= k < |rs| ==> 0 <= rs[k].qualityReport.overallScore <= 100 by {
      forall k | 0 <= k < |rs| ensures 0 <= rs[k].qualityReport.overallScore <= 100 {
        assert rs[k] in rs;
      }
    }
    SummaryOfBounds(rs, now);
  }

  // ---------------------------------------------------------------------------
  // Global recommendations

  /** The per-article metrics the recommendations look at. */
  datatype Metric = AISummaryMetric | QACoverageMetric | CitationsMetric
                  | ParagraphLengthMetric | VagueTermsMetric | HyperboleMetric

  predicate Fails(a: ArticleReport, m: Metric) {
    var x := a.qualityReport.metrics;
    match m
    case AISummaryMetric => !x.hasAISummary
    case QACoverageMetric => !x.hasQACoverage
    case CitationsMetric => !x.hasCitations
    case ParagraphLengthMetric => !x.paragraphLengthOk
    case VagueTermsMetric => !x.avoidsVagueTerms
    case HyperboleMetric => !x.avoidsHyperbole
  }

  /** The reports failing a metric, in order. */
  function Failing(reports: seq<ArticleReport>, m: Metric): seq<ArticleReport> {
    if reports == [] then []
    else Failing(reports[..|reports| - 1], m) + if Fails(reports[|reports| - 1], m) then [reports[|reports| - 1]] else []
  }

  datatype GlobalRecommendation =
    | Improve(metric: Metric, articleIds: seq<string>)
    | FixTerminology(terms: seq<string>)

  function IdOf(a: ArticleReport): string { a.id }

  function TermOf(c: ConflictReport): string { c.term }

  function MetricRecommendation(reports: seq<ArticleReport>, m: Metric): (r: seq<GlobalRecommendation>)
    ensures forall x :: x in r ==> x.Improve? && x.metric == m
  {
    var failing := Failing(reports, m);
    if |failing| > 0 then [Improve(m, Mapped(failing, IdOf))] else []
  }

  /** The distinct conflicting terms, in order of first occurrence. */
  function TerminologyRecommendation(conflicts: seq<ConflictReport>): (r: seq<GlobalRecommendation>)
    ensures forall x :: x in r ==> x.FixTerminology?
  {
    if |conflicts| > 0 then [FixTerminology(Distinct(Mapped(conflicts, TermOf)))] else []
  }

  /** `generateGlobalRecommendations`: summary, Q&A and citation coverage, terminology,
      then paragraph length, vague terms and hyperbole. */
  function GlobalRecommendations(reports: seq<ArticleReport>, conflicts: seq<ConflictReport>): (r: seq<GlobalRecommendation>)
    ensures |r| <= 7
    ensures r == [] <==> conflicts == [] && forall m: Metric :: Failing(reports, m) == []
  {
    NoneFailingEach(reports);
    MetricRecommendation(reports, AISummaryMetric)
    + MetricRecommendation(reports, QACoverageMetric)
    + MetricRecommendation(reports, CitationsMetric)
    + TerminologyRecommendation(conflicts)
    + MetricRecommendation(reports, ParagraphLengthMetric)
    + MetricRecommendation(reports, VagueTermsMetric)
    + MetricRecommendation(reports, HyperboleMetric)
  }

  /** No article fails any metric exactly when none fails each of the six. */
  lemma NoneFailingEach(reports: seq<ArticleReport>)
    ensures (forall m: Metric :: Failing(reports, m) == []) <==>
            Failing(reports, AISummaryMetric) == [] && Failing(reports, QACoverageMetric) == [] &&
            Failing(reports, CitationsMetric) == [] && Failing(reports, ParagraphLengthMetric) == [] &&
            Failing(reports, VagueTermsMetric) == [] && Failing(reports, HyperboleMetric) == []
  {
    if Failing(reports, AISummaryMetric) == [] && Failing(reports, QACoverageMetric) == [] &&
       Failing(reports, CitationsMetric) == [] && Failing(reports, ParagraphLengthMetric) == [] &&
       Failing(reports, VagueTermsMetric) == [] && Failing(reports, HyperboleMetric) == [] {
      forall m: Metric
        ensures Failing(reports, m) == []
      {
        match m
        case AISummaryMetric =>
        case QACoverageMetric =>
        case CitationsMetric =>
        case ParagraphLengthMetric =>
        case VagueTermsMetric =>
        case HyperboleMetric =>
      }
    }
  }

  /** The text of a recommendation. */
  function Render(r: GlobalRecommendation): string {
    match r
    case Improve(AISummaryMetric, ids) =>
      "Add AI Summary to " + NatToString(|ids|) + " article(s): " + Join(ids, ", ")
    case Improve(QACoverageMetric, ids) =>
      "Add Q&A coverage to " + NatToString(|ids|) + " article(s): " + Join(ids, ", ")
    case Improve(CitationsMetric, ids) =>
      "Add citations/references to " + NatToString(|ids|) + " article(s): " + Join(ids, ", ")
    case FixTerminology(terms) =>
      "Fix terminology conflicts for " + NatToString(|terms|) + " term(s): " + Join(terms, ", ")
    case Improve(ParagraphLengthMetric, ids) => "Break long paragraphs in " + NatToString(|ids|) + " article(s)"
    case Improve(VagueTermsMetric, ids) => "Remove vague terms from " + NatToString(|ids|) + " article(s)"
    case Improve(HyperboleMetric, ids) => "Remove hyperbolic language from " + NatToString(|ids|) + " article(s)"
  }

  lemma {:induction false} FailingIff(reports: seq<ArticleReport>, m: Metric)
    ensures forall a :: a in Failing(reports, m) <==> a in reports && Fails(a, m)
    ensures |Failing(reports, m)| > 0 <==> exists k :: 0 <= k < |reports| && Fails(reports[k], m)
  {
    if reports != [] {
      var init := reports[..|reports| - 1];
      FailingIff(init, m);
      assert reports == init + [reports[|reports| - 1]];
      if exists k :: 0 <= k < |reports| && Fails(reports[k], m) {
        var k :| 0 <= k < |reports| && Fails(reports[k], m);
        if k < |init| {
          assert init[k] == reports[k];
        }
      }
    }
  }

  /** A metric's recommendation can only come from that metric's part of the list. */
  lemma ImproveIn(reports: seq<ArticleReport>, conflicts: seq<ConflictReport>, m: Metric, ids: seq<string>)
    ensures Improve(m, ids) in GlobalRecommendations(reports, conflicts)
            <==> Improve(m, ids) in MetricRecommendation(reports, m)
  {
    var x := Improve(m, ids);
    var t := TerminologyRecommendation(conflicts);
    assert x !in t;
    assert GlobalRecommendations(reports, conflicts)
        == MetricRecommendation(reports, AISummaryMetric) + MetricRecommendation(reports, QACoverageMetric)
           + MetricRecommendation(reports, CitationsMetric) + t
           + MetricRecommendation(reports, ParagraphLengthMetric) + MetricRecommendation(reports, VagueTermsMetric)
           + MetricRecommendation(reports, HyperboleMetric);
  }

  /** The terminology recommendation can only come from the terminology part. */
  lemma FixTerminologyIn(reports: seq<ArticleReport>, conflicts: seq<ConflictReport>, terms: seq<string>)
    ensures FixTerminology(terms) in GlobalRecommendations(reports, conflicts)
            <==> FixTerminology(terms) in TerminologyRecommendation(conflicts)
  {
    var x := FixTerminology(terms);
    assert x !in MetricRecommendation(reports, AISummaryMetric);
    assert x !in MetricRecommendation(reports, QACoverageMetric);
    assert x !in MetricRecommendation(reports, CitationsMetric);
    assert x !in MetricRecommendation(reports, ParagraphLengthMetric);
    assert x !in MetricRecommendation(reports, VagueTermsMetric);
    assert x !in MetricRecommendation(reports, HyperboleMetric);
  }

  /** A recommendation for a metric is emitted exactly when some article fails it, and
      it lists the ids of all failing articles in order. */
  lemma MetricRecommended(reports: seq<ArticleReport>, conflicts: seq<ConflictReport>, m: Metric)
    ensures (exists ids :: Improve(m, ids) in GlobalRecommendations(reports, conflicts))
            <==> exists k :: 0 <= k < |reports| && Fails(reports[k], m)
    ensures forall ids :: Improve(m, ids) in GlobalRecommendations(reports, conflicts) ==>
      ids == Mapped(Failing(reports, m), IdOf) && |ids| >= 1
  {
    FailingIff(reports, m);
    var g := GlobalRecommendations(reports, conflicts);
    forall ids | Improve(m, ids) in g
      ensures ids == Mapped(Failing(reports, m), IdOf) && |ids| >= 1
    {
      ImproveIn(reports, conflicts, m, ids);
    }
    if exists k :: 0 <= k < |reports| && Fails(reports[k], m) {
      ImproveIn(reports, conflicts, m, Mapped(Failing(reports, m), IdOf));
      assert Improve(m, Mapped(Failing(reports, m), IdOf)) in MetricRecommendation(reports, m);
    }
  }

  /** The terminology recommendation is emitted exactly when there are conflicts; it
      names every conflicting term once, and nothing else. */
  lemma TerminologyRecommended(reports: seq<ArticleReport>, conflicts: seq<ConflictReport>)
    ensures (exists terms :: FixTerminology(terms) in GlobalRecommendations(reports, conflicts)) <==> |conflicts| > 0
    ensures forall terms :: FixTerminology(terms) in GlobalRecommendations(reports, conflicts) ==>
      && NoDuplicates(terms)
      && (forall k :: 0 <= k < |conflicts| ==> conflicts[k].term in terms)
      && (forall t :: t in terms ==> exists k :: 0 <= k < |conflicts| && conflicts[k].term == t)
  {
    var g := GlobalRecommendations(reports, conflicts);
    var names := Distinct(Mapped(conflicts, TermOf));
    ConflictTermsListed(conflicts);
    forall terms | FixTerminology(terms) in g
      ensures terms == names && |conflicts| > 0
    {
      FixTerminologyIn(reports, conflicts, terms);
      assert FixTerminology(terms) in TerminologyRecommendation(conflicts);
    }
    if |conflicts| > 0 {
      FixTerminologyIn(reports, conflicts, names);
      assert FixTerminology(names) in TerminologyRecommendation(conflicts);
    }
  }

  /** The terms named by the terminology recommendation: each conflicting term once. */
  lemma ConflictTermsListed(conflicts: seq<ConflictReport>)
    ensures NoDuplicates(Distinct(Mapped(conflicts, TermOf)))
    ensures forall k :: 0 <= k < |conflicts| ==> conflicts[k].term in Distinct(Mapped(conflicts, TermOf))
    ensures forall t :: t in Distinct(Mapped(conflicts, TermOf)) ==>
      exists k :: 0 <= k < |conflicts| && conflicts[k].term == t
  {
    var names := Mapped(conflicts, TermOf);
    var terms := Distinct(names);
    forall k | 0 <= k < |conflicts| ensures conflicts[k].term in terms {
      assert names[k] == conflicts[k].term;
    }
    forall t | t in terms ensures exists k :: 0 <= k < |conflicts| && conflicts[k].term == t {
      var i :| 0 <= i < |names| && names[i] == t;
      assert conflicts[i].term == t;
    }
  }
}
