/** The zh/en parity check: Chinese and English versions of each blog article are
    paired (by equal id, else through a fixed id table), each version is reduced to
    metrics (AI summary and its fields, Q&A count, citations, content and its
    knowledge-block count), the two metric records are compared into a list of
    issues, and a report with a summary and recommendations is built. */
module MultilingualParity {
  import opened Util
  import opened GeoTypes
  import KnowledgeBlocks

  // ---------------------------------------------------------------------------
  // Article id table

  /** The Chinese and English ids of the articles whose slug differs between the two
      locales. */
  const OtcZh: string := "otc的尽头是合规化-反洗钱正成为行业亟须"
  const OtcEn: string := "otc-compliance-aml-imperative"
  const DidZh: string := "didai-agent的身份证"
  const DidEn: string := "did-the-id-for-ai-agents"
  const DaoZh: string := "把dao打造成区块链的共产主义"
  const DaoEn: string := "dao-blockchain-s-communist-vision"
  const PrivacyZh: string := "隐私计算在区块链时代的真正意义与商业价值"
  const PrivacyEn: string := "privacy-computing-s-role-in-blockchain-era"
  const RegulationZh: string := "全球web3监管趋势与企业上链合规指南"
  const RegulationEn: string := "global-web3-regulatory-trends-compliance-guide"
  const AuthorizationZh: string := "你的私钥没丢资产却没了深挖智能合约授权的隐形陷阱"
  const AuthorizationEn: string := "smart-contract-authorization-hidden-asset-risks"
  const RwaZh: string := "rwa-爆发前夜为什么链上合规是机构入场的唯一门票"
  const RwaEn: string := "rwa-s-dawn-why-on-chain-compliance-is-key-for-inst"
  const UsdtZh: string := "usdt真的安全吗揭秘稳定币崩盘前的72小时信号"
  const UsdtEn: string := "is-usdt-safe-72-hour-crash-warning-signs"
  const AiTradingZh: string := "不仅是炒作深扒ai介入链上交易的底层逻辑这3个变化正在发生"
  const AiTradingEn: string := "beyond-hype-3-key-shifts-in-ai-powered-on-chain-tr"
  const ColdWalletZh: string := "你的冷钱包可能并不冷揭秘硬件钱包背后的供应链攻击"
  const ColdWalletEn: string := "hardware-wallet-supply-chain-attacks-exposed"
  const TornadoZh: string := "tornado-cash被制裁后链上黑钱现在都流向了哪里"
  const TornadoEn: string := "where-on-chain-black-money-flows-post-tornado-cash"
  const WhaleZh: string := "巨鲸的假动作链上数据是如何欺骗你的"
  const WhaleEn: string := "how-on-chain-data-can-deceive-you"

  /** Those ids, mapped both ways. */
  const ArticleIdMapping: map<string, string> := map[
    OtcZh := OtcEn,
    OtcEn := OtcZh,
    DidZh := DidEn,
    DidEn := DidZh,
    DaoZh := DaoEn,
    DaoEn := DaoZh,
    PrivacyZh := PrivacyEn,
    PrivacyEn := PrivacyZh,
    RegulationZh := RegulationEn,
    RegulationEn := RegulationZh,
    AuthorizationZh := AuthorizationEn,
    AuthorizationEn := AuthorizationZh,
    RwaZh := RwaEn,
    RwaEn := RwaZh,
    UsdtZh := UsdtEn,
    UsdtEn := UsdtZh,
    AiTradingZh := AiTradingEn,
    AiTradingEn := AiTradingZh,
    ColdWalletZh := ColdWalletEn,
    ColdWalletEn := ColdWalletZh,
    TornadoZh := TornadoEn,
    TornadoEn := TornadoZh,
    WhaleZh := WhaleEn,
    WhaleEn := WhaleZh
  ]

  // One lemma per table row: each looks up two keys only, which keeps it small.

  lemma MappedPairOtc()
    ensures OtcZh in ArticleIdMapping && OtcEn in ArticleIdMapping
    ensures ArticleIdMapping[OtcZh] == OtcEn && ArticleIdMapping[OtcEn] == OtcZh
  {
  }

  lemma MappedPairDid()
    ensures DidZh in ArticleIdMapping && DidEn in ArticleIdMapping
    ensures ArticleIdMapping[DidZh] == DidEn && ArticleIdMapping[DidEn] == DidZh
  {
  }

  lemma MappedPairDao()
    ensures DaoZh in ArticleIdMapping && DaoEn in ArticleIdMapping
    ensures ArticleIdMapping[DaoZh] == DaoEn && ArticleIdMapping[DaoEn] == DaoZh
  {
  }

  lemma MappedPairPrivacy()
    ensures PrivacyZh in ArticleIdMapping && PrivacyEn in ArticleIdMapping
    ensures ArticleIdMapping[PrivacyZh] == PrivacyEn && ArticleIdMapping[PrivacyEn] == PrivacyZh
  {
  }

  lemma MappedPairRegulation()
    ensures RegulationZh in ArticleIdMapping && RegulationEn in ArticleIdMapping
    ensures ArticleIdMapping[RegulationZh] == RegulationEn && ArticleIdMapping[RegulationEn] == RegulationZh
  {
  }

  lemma MappedPairAuthorization()
    ensures AuthorizationZh in ArticleIdMapping && AuthorizationEn in ArticleIdMapping
    ensures ArticleIdMapping[AuthorizationZh] == AuthorizationEn && ArticleIdMapping[AuthorizationEn] == AuthorizationZh
  {
  }

  lemma MappedPairRwa()
    ensures RwaZh in ArticleIdMapping && RwaEn in ArticleIdMapping
    ensures ArticleIdMapping[RwaZh] == RwaEn && ArticleIdMapping[RwaEn] == RwaZh
  {
  }

  lemma MappedPairUsdt()
    ensures UsdtZh in ArticleIdMapping && UsdtEn in ArticleIdMapping
    ensures ArticleIdMapping[UsdtZh] == UsdtEn && ArticleIdMapping[UsdtEn] == UsdtZh
  {
  }

  lemma MappedPairAiTrading()
    ensures AiTradingZh in ArticleIdMapping && AiTradingEn in ArticleIdMapping
    ensures ArticleIdMapping[AiTradingZh] == AiTradingEn && ArticleIdMapping[AiTradingEn] == AiTradingZh
  {
  }

  lemma MappedPairColdWallet()
    ensures ColdWalletZh in ArticleIdMapping && ColdWalletEn in ArticleIdMapping
    ensures ArticleIdMapping[ColdWalletZh] == ColdWalletEn && ArticleIdMapping[ColdWalletEn] == ColdWalletZh
  {
  }

  lemma MappedPairTornado()
    ensures TornadoZh in ArticleIdMapping && TornadoEn in ArticleIdMapping
    ensures ArticleIdMapping[TornadoZh] == TornadoEn && ArticleIdMapping[TornadoEn] == TornadoZh
  {
  }

  lemma MappedPairWhale()
    ensures WhaleZh in ArticleIdMapping && WhaleEn in ArticleIdMapping
    ensures ArticleIdMapping[WhaleZh] == WhaleEn && ArticleIdMapping[WhaleEn] == WhaleZh
  {
  }

  /** The keys of the table are exactly the listed ids. */
  lemma MappingKeyListed(id: string)
    requires id in ArticleIdMapping
    ensures id in {OtcZh, OtcEn, DidZh, DidEn, DaoZh, DaoEn, PrivacyZh, PrivacyEn, RegulationZh, RegulationEn, AuthorizationZh, AuthorizationEn, RwaZh, RwaEn, UsdtZh, UsdtEn, AiTradingZh, AiTradingEn, ColdWalletZh, ColdWalletEn, TornadoZh, TornadoEn, WhaleZh, WhaleEn}
  {
  }


  /** The table is an involution: every mapped id is itself a key, mapped back. */
  lemma MappingIsInvolution(id: string)
    requires id in ArticleIdMapping
    ensures ArticleIdMapping[id] in ArticleIdMapping && ArticleIdMapping[ArticleIdMapping[id]] == id
  {
    MappingKeyListed(id);
    if id in {OtcZh, OtcEn} {
      MappedPairOtc();
    } else if id in {DidZh, DidEn} {
      MappedPairDid();
    } else if id in {DaoZh, DaoEn} {
      MappedPairDao();
    } else if id in {PrivacyZh, PrivacyEn} {
      MappedPairPrivacy();
    } else if id in {RegulationZh, RegulationEn} {
      MappedPairRegulation();
    } else if id in {AuthorizationZh, AuthorizationEn} {
      MappedPairAuthorization();
    } else if id in {RwaZh, RwaEn} {
      MappedPairRwa();
    } else if id in {UsdtZh, UsdtEn} {
      MappedPairUsdt();
    } else if id in {AiTradingZh, AiTradingEn} {
      MappedPairAiTrading();
    } else if id in {ColdWalletZh, ColdWalletEn} {
      MappedPairColdWallet();
    } else if id in {TornadoZh, TornadoEn} {
      MappedPairTornado();
    } else if id in {WhaleZh, WhaleEn} {
      MappedPairWhale();
    } else {
      assert false;
    }
  }

  // ---------------------------------------------------------------------------
  // Pairing

  datatype ArticlePair = ArticlePair(zhId: string, enId: string)

  /** The English id a Chinese article pairs with: the same id when the English side
      has it, otherwise its mapped id when that is non-empty and present. */
  function PartnerOf(zhId: string, enIds: set<string>): (r: Option<string>)
    ensures zhId in enIds ==> r == Some(zhId)
    ensures zhId !in enIds ==>
      (r.Some? <==> zhId in ArticleIdMapping && ArticleIdMapping[zhId] != "" && ArticleIdMapping[zhId] in enIds)
    ensures r.Some? ==> r.value in enIds
    ensures r.Some? && r.value != zhId ==> r.value == ArticleIdMapping[zhId]
  {
    if zhId in enIds then Some(zhId)
    else if zhId in ArticleIdMapping && ArticleIdMapping[zhId] != "" && ArticleIdMapping[zhId] in enIds then
      Some(ArticleIdMapping[zhId])
    else None
  }

  /** The pairs found for the Chinese ids, in their order. */
  function Pairing(zhIds: seq<string>, enIds: set<string>): seq<ArticlePair> {
    if zhIds == [] then []
    else
      var last := zhIds[|zhIds| - 1];
      Pairing(zhIds[..|zhIds| - 1], enIds)
      + match PartnerOf(last, enIds)
        case Some(enId) => [ArticlePair(last, enId)]
        case None => []
  }

  /** Every pair joins a Chinese id to the partner `PartnerOf` chooses for it, and every
      Chinese id with a partner is paired. */
  lemma {:induction false} PairingSoundAndComplete(zhIds: seq<string>, enIds: set<string>)
    ensures forall q :: q in Pairing(zhIds, enIds) ==> q.zhId in zhIds && PartnerOf(q.zhId, enIds) == Some(q.enId)
    ensures forall k :: 0 <= k < |zhIds| && PartnerOf(zhIds[k], enIds).Some? ==>
      ArticlePair(zhIds[k], PartnerOf(zhIds[k], enIds).value) in Pairing(zhIds, enIds)
    ensures |Pairing(zhIds, enIds)| <= |zhIds|
  {
    if zhIds != [] {
      var init := zhIds[..|zhIds| - 1];
      PairingSoundAndComplete(init, enIds);
      assert forall k :: 0 <= k < |init| ==> zhIds[k] == init[k];
    }
  }

  /** The pairing loop over the Chinese ids. */
  method PairArticles(zhIds: seq<string>, enIds: set<string>) returns (pairs: seq<ArticlePair>)
    ensures pairs == Pairing(zhIds, enIds)
  {
    pairs := [];
    for i := 0 to |zhIds|
      invariant pairs == Pairing(zhIds[..i], enIds)
    {
      var zhId := zhIds[i];
      assert zhIds[..i + 1][..i] == zhIds[..i];
      if zhId in enIds {
        pairs := pairs + [ArticlePair(zhId, zhId)];
      } else if zhId in ArticleIdMapping && ArticleIdMapping[zhId] != "" && ArticleIdMapping[zhId] in enIds {
        pairs := pairs + [ArticlePair(zhId, ArticleIdMapping[zhId])];
      }
    }
    assert zhIds[..|zhIds|] == zhIds;
  }

  // ---------------------------------------------------------------------------
  // Article metrics

  datatype Summary = Summary(
    whatIs: Option<string>, whyImportant: Option<string>,
    useCases: Option<seq<string>>, keyTakeaways: Option<seq<string>>)

  datatype QAEntry = QAEntry(question: string, answer: string, category: Option<string>)

  datatype Citation = Citation(id: string, title: string, url: Option<string>)

  /** An article as read from a locale's messages file; every part but the title may be
      absent. */
  datatype ArticleData = ArticleData(
    title: string, content: Option<string>, aiSummary: Option<Summary>,
    qaPairs: Option<seq<QAEntry>>, citations: Option<seq<Citation>>)

  datatype SummaryFields = SummaryFields(whatIs: bool, whyImportant: bool, useCases: bool, keyTakeaways: bool)

  datatype ArticleMetrics = ArticleMetrics(
    hasAISummary: bool, aiSummaryFields: SummaryFields,
    hasQA: bool, qaCount: nat,
    hasCitations: bool, citationCount: nat,
    hasContent: bool, knowledgeBlockCount: nat)

  /** A string field is truthy when present and non-empty. */
  predicate Filled(s: Option<string>) {
    s.Some? && s.value != ""
  }

  /** `x && x.length > 0` for an optional list. */
  predicate NonEmpty<T>(s: Option<seq<T>>) {
    s.Some? && |s.value| > 0
  }

  /** `x?.length || 0`. */
  function LengthOr0<T>(s: Option<seq<T>>): nat {
    if s.Some? then |s.value| else 0
  }

  function FieldsOf(summary: Option<Summary>): SummaryFields {
    match summary
    case None => SummaryFields(false, false, false, false)
    case Some(s) => SummaryFields(Filled(s.whatIs), Filled(s.whyImportant), NonEmpty(s.useCases), NonEmpty(s.keyTakeaways))
  }

  /** The relations between the flags and counts of one metrics record. */
  predicate Consistent(m: ArticleMetrics) {
    && (m.hasQA <==> m.qaCount > 0)
    && (m.hasCitations <==> m.citationCount > 0)
    && (!m.hasContent ==> m.knowledgeBlockCount == 0)
    && (!m.hasAISummary ==> m.aiSummaryFields == SummaryFields(false, false, false, false))
  }

  /** `analyzeArticle`: the block count is the length of what the knowledge-block parser
      returns for the content, and 0 without content. */
  function AnalyzeArticle(article: ArticleData, p: KnowledgeBlocks.BlockPatterns): (m: ArticleMetrics)
    ensures Consistent(m)
    ensures m.hasAISummary <==> article.aiSummary.Some?
    ensures m.aiSummaryFields.whatIs <==> article.aiSummary.Some? && Filled(article.aiSummary.value.whatIs)
    ensures m.aiSummaryFields.useCases <==> article.aiSummary.Some? && NonEmpty(article.aiSummary.value.useCases)
    ensures m.qaCount == (if article.qaPairs.Some? then |article.qaPairs.value| else 0)
    ensures m.citationCount == (if article.citations.Some? then |article.citations.value| else 0)
    ensures m.hasContent <==> Filled(article.content)
    ensures m.hasContent ==> m.knowledgeBlockCount == |KnowledgeBlocks.Numbered(KnowledgeBlocks.AllDrafts(p, article.content.value), 0)|
  {
    var hasContent := Filled(article.content);
    ArticleMetrics(
      article.aiSummary.Some?, FieldsOf(article.aiSummary),
      NonEmpty(article.qaPairs), LengthOr0(article.qaPairs),
      NonEmpty(article.citations), LengthOr0(article.citations),
      hasContent,
      if hasContent then |KnowledgeBlocks.Numbered(KnowledgeBlocks.AllDrafts(p, article.content.value), 0)| else 0)
  }

  // ---------------------------------------------------------------------------
  // Comparison

  datatype IssueType = MissingAISummary | MissingQA | MissingCitations | KnowledgeBlockMismatch | ContentMissing

  datatype IssueSeverity = Critical | High | Medium | Low

  datatype SummaryField = WhatIs | WhyImportant | UseCases | KeyTakeaways

  /** The message of an issue; `Render` gives its text for the issue's locale. */
  datatype IssueMessage =
    | VersionMissing(part: IssueType)
    | FieldMissing(field: SummaryField)
    | QACountMismatch(zhCount: nat, enCount: nat, percent: nat)
    | BlockCountMismatch(zhCount: nat, enCount: nat, percent: nat)

  /** The `details` payload: the count of the side that has the part, or both counts. */
  datatype Details = NoDetails | CountOf(side: Locale, count: nat) | BothCounts(zhCount: nat, enCount: nat)

  datatype ParityIssue = ParityIssue(kind: IssueType, severity: IssueSeverity, locale: Locale, message: IssueMessage, details: Details)

  /** The locale that lacks a part the other one has, if exactly one lacks it. */
  function MissingSide(zhHas: bool, enHas: bool): (r: Option<Locale>)
    ensures r == None <==> zhHas == enHas
    ensures r == Some(En) <==> zhHas && !enHas
  {
    if zhHas && !enHas then Some(En) else if !zhHas && enHas then Some(Zh) else None
  }

  function Diff(a: nat, b: nat): nat { if a < b then b - a else a - b }

  function Max(a: nat, b: nat): nat { if a < b then b else a }

  /** `diff / max * 100 > percent` with a zero max counting as 0%, cross-multiplied. */
  predicate Exceeds(a: nat, b: nat, percent: nat) {
    Max(a, b) > 0 && 100 * Diff(a, b) > percent * Max(a, b)
  }

  /** `Math.round(diff / max * 100)`, half rounded up. */
  function RoundedPercent(a: nat, b: nat): nat {
    if Max(a, b) == 0 then 0 else (200 * Diff(a, b) + Max(a, b)) / (2 * Max(a, b))
  }

  /** The side blamed for a count mismatch: zh when its count is smaller, else en. */
  function Smaller(zhCount: nat, enCount: nat): Locale {
    if zhCount < enCount then Zh else En
  }

  /** The issue for one summary field, blaming the side without it. */
  function FieldIssues(zhHas: bool, enHas: bool, field: SummaryField, severity: IssueSeverity): seq<ParityIssue> {
    When(zhHas != enHas, ParityIssue(MissingAISummary, severity, if zhHas then En else Zh, FieldMissing(field), NoDetails))
  }

  function SummaryIssues(zh: ArticleMetrics, en: ArticleMetrics): (r: seq<ParityIssue>)
    ensures forall i :: i in r ==> i.kind == MissingAISummary
    ensures zh.hasAISummary != en.hasAISummary ==>
      r == [ParityIssue(MissingAISummary, Critical, if zh.hasAISummary then En else Zh, VersionMissing(MissingAISummary), NoDetails)]
  {
    match MissingSide(zh.hasAISummary, en.hasAISummary)
    case Some(l) => [ParityIssue(MissingAISummary, Critical, l, VersionMissing(MissingAISummary), NoDetails)]
    case None =>
      if !zh.hasAISummary then []
      else AllFieldIssues(zh.aiSummaryFields, en.aiSummaryFields)
  }

  /** The field checks run when both versions have a summary: `whatIs` and
      `whyImportant` are high, `useCases` and `keyTakeaways` medium. */
  function AllFieldIssues(zf: SummaryFields, ef: SummaryFields): (r: seq<ParityIssue>)
    ensures forall i :: i in r ==> i.kind == MissingAISummary && i.message.FieldMissing?
    ensures |r| <= 4
  {
    FieldIssues(zf.whatIs, ef.whatIs, WhatIs, High)
    + FieldIssues(zf.whyImportant, ef.whyImportant, WhyImportant, High)
    + FieldIssues(zf.useCases, ef.useCases, UseCases, Medium)
    + FieldIssues(zf.keyTakeaways, ef.keyTakeaways, KeyTakeaways, Medium)
  }

  /** The count reported in `details` when `missing` lacks a part: the other side's. */
  function PresentCount(missing: Locale, zhCount: nat, enCount: nat): Details {
    if missing == En then CountOf(Zh, zhCount) else CountOf(En, enCount)
  }

  function QAIssues(zh: ArticleMetrics, en: ArticleMetrics): (r: seq<ParityIssue>)
    ensures forall i :: i in r ==> i.kind == MissingQA
    ensures |r| <= 1
  {
    match MissingSide(zh.hasQA, en.hasQA)
    case Some(l) => [ParityIssue(MissingQA, Critical, l, VersionMissing(MissingQA), PresentCount(l, zh.qaCount, en.qaCount))]
    case None =>
      if zh.hasQA && Exceeds(zh.qaCount, en.qaCount, 20) then
        [ParityIssue(MissingQA, High, Smaller(zh.qaCount, en.qaCount),
           QACountMismatch(zh.qaCount, en.qaCount, RoundedPercent(zh.qaCount, en.qaCount)),
           BothCounts(zh.qaCount, en.qaCount))]
      else []
  }

  function CitationIssues(zh: ArticleMetrics, en: ArticleMetrics): (r: seq<ParityIssue>)
    ensures forall i :: i in r ==> i.kind == MissingCitations && i.severity == Medium
    ensures |r| == 1 <==> zh.hasCitations != en.hasCitations
  {
    match MissingSide(zh.hasCitations, en.hasCitations)
    case Some(l) =>
      [ParityIssue(MissingCitations, Medium, l, VersionMissing(MissingCitations), PresentCount(l, zh.citationCount, en.citationCount))]
    case None => []
  }

  function ContentIssues(zh: ArticleMetrics, en: ArticleMetrics): (r: seq<ParityIssue>)
    ensures forall i :: i in r ==> i.kind == ContentMissing && i.severity == Critical
    ensures |r| == 1 <==> zh.hasContent != en.hasContent
  {
    match MissingSide(zh.hasContent, en.hasContent)
    case Some(l) => [ParityIssue(ContentMissing, Critical, l, VersionMissing(ContentMissing), NoDetails)]
    case None => []
  }

  function BlockIssues(zh: ArticleMetrics, en: ArticleMetrics): (r: seq<ParityIssue>)
    ensures forall i :: i in r ==> i.kind == KnowledgeBlockMismatch && i.severity == Medium
    ensures |r| <= 1
  {
    var a, b := zh.knowledgeBlockCount, en.knowledgeBlockCount;
    if zh.hasContent && en.hasContent && Exceeds(a, b, 70) then
      [ParityIssue(KnowledgeBlockMismatch, Medium, Smaller(a, b), BlockCountMismatch(a, b, RoundedPercent(a, b)), BothCounts(a, b))]
    else []
  }

  /** Every issue `compareArticles` raises, in its order of checks. */
  function ParityIssues(zh: ArticleMetrics, en: ArticleMetrics): seq<ParityIssue> {
    SummaryIssues(zh, en) + QAIssues(zh, en) + CitationIssues(zh, en) + ContentIssues(zh, en) + BlockIssues(zh, en)
  }

  /** `compareArticles`: the five checks push their issues in turn (the article id is
      unused). */
  method CompareArticles(articleId: string, zh: ArticleMetrics, en: ArticleMetrics) returns (issues: seq<ParityIssue>)
    ensures issues == ParityIssues(zh, en)
  {
    issues := [];
    issues := PushSummaryIssues(issues, zh, en);
    issues := PushQAIssues(issues, zh, en);
    issues := PushCitationIssues(issues, zh, en);
    issues := PushContentIssues(issues, zh, en);
    issues := PushBlockIssues(issues, zh, en);
  }

  method PushSummaryIssues(issues: seq<ParityIssue>, zh: ArticleMetrics, en: ArticleMetrics) returns (r: seq<ParityIssue>)
    ensures r == issues + SummaryIssues(zh, en)
  {
    r := issues;
    if zh.hasAISummary && !en.hasAISummary {
      r := r + [ParityIssue(MissingAISummary, Critical, En, VersionMissing(MissingAISummary), NoDetails)];
    } else if !zh.hasAISummary && en.hasAISummary {
      r := r + [ParityIssue(MissingAISummary, Critical, Zh, VersionMissing(MissingAISummary), NoDetails)];
    } else if zh.hasAISummary && en.hasAISummary {
      r := PushFieldIssues(r, zh.aiSummaryFields, en.aiSummaryFields);
    }
  }

  method PushFieldIssues(issues: seq<ParityIssue>, zf: SummaryFields, ef: SummaryFields) returns (r: seq<ParityIssue>)
    ensures r == issues + AllFieldIssues(zf, ef)
  {
    r := PushFieldIssue(issues, zf.whatIs, ef.whatIs, WhatIs, High);
    r := PushFieldIssue(r, zf.whyImportant, ef.whyImportant, WhyImportant, High);
    r := PushFieldIssue(r, zf.useCases, ef.useCases, UseCases, Medium);
    r := PushFieldIssue(r, zf.keyTakeaways, ef.keyTakeaways, KeyTakeaways, Medium);
    AppendFour(issues, FieldIssues(zf.whatIs, ef.whatIs, WhatIs, High),
      FieldIssues(zf.whyImportant, ef.whyImportant, WhyImportant, High),
      FieldIssues(zf.useCases, ef.useCases, UseCases, Medium),
      FieldIssues(zf.keyTakeaways, ef.keyTakeaways, KeyTakeaways, Medium));
  }

  method PushQAIssues(issues: seq<ParityIssue>, zh: ArticleMetrics, en: ArticleMetrics) returns (r: seq<ParityIssue>)
    ensures r == issues + QAIssues(zh, en)
  {
    r := issues;
    if zh.hasQA && !en.hasQA {
      r := r + [ParityIssue(MissingQA, Critical, En, VersionMissing(MissingQA), CountOf(Zh, zh.qaCount))];
    } else if !zh.hasQA && en.hasQA {
      r := r + [ParityIssue(MissingQA, Critical, Zh, VersionMissing(MissingQA), CountOf(En, en.qaCount))];
    } else if zh.hasQA && en.hasQA {
      var qaDiff := Diff(zh.qaCount, en.qaCount);
      var qaMax := Max(zh.qaCount, en.qaCount);
      if qaMax > 0 && 100 * qaDiff > 20 * qaMax {
        var locale := if zh.qaCount < en.qaCount then Zh else En;
        r := r + [ParityIssue(MissingQA, High, locale,
          QACountMismatch(zh.qaCount, en.qaCount, RoundedPercent(zh.qaCount, en.qaCount)),
          BothCounts(zh.qaCount, en.qaCount))];
      }
    }
  }

  method PushCitationIssues(issues: seq<ParityIssue>, zh: ArticleMetrics, en: ArticleMetrics) returns (r: seq<ParityIssue>)
    ensures r == issues + CitationIssues(zh, en)
  {
    r := issues;
    if zh.hasCitations && !en.hasCitations {
      r := r + [ParityIssue(MissingCitations, Medium, En, VersionMissing(MissingCitations), CountOf(Zh, zh.citationCount))];
    } else if !zh.hasCitations && en.hasCitations {
      r := r + [ParityIssue(MissingCitations, Medium, Zh, VersionMissing(MissingCitations), CountOf(En, en.citationCount))];
    }
  }

  method PushContentIssues(issues: seq<ParityIssue>, zh: ArticleMetrics, en: ArticleMetrics) returns (r: seq<ParityIssue>)
    ensures r == issues + ContentIssues(zh, en)
  {
    r := issues;
    if zh.hasContent && !en.hasContent {
      r := r + [ParityIssue(ContentMissing, Critical, En, VersionMissing(ContentMissing), NoDetails)];
    } else if !zh.hasContent && en.hasContent {
      r := r + [ParityIssue(ContentMissing, Critical, Zh, VersionMissing(ContentMissing), NoDetails)];
    }
  }

  method PushBlockIssues(issues: seq<ParityIssue>, zh: ArticleMetrics, en: ArticleMetrics) returns (r: seq<ParityIssue>)
    ensures r == issues + BlockIssues(zh, en)
  {
    r := issues;
    if zh.hasContent && en.hasContent {
      var a, b := zh.knowledgeBlockCount, en.knowledgeBlockCount;
      var blockDiff := Diff(a, b);
      var blockMax := Max(a, b);
      if blockMax > 0 && 100 * blockDiff > 70 * blockMax {
        var locale := if a < b then Zh else En;
        r := r + [ParityIssue(KnowledgeBlockMismatch, Medium, locale, BlockCountMismatch(a, b, RoundedPercent(a, b)), BothCounts(a, b))];
      }
    }
  }

  lemma AppendFour<T>(s: seq<T>, a: seq<T>, b: seq<T>, c: seq<T>, d: seq<T>)
    ensures s + a + b + c + d == s + (a + b + c + d)
  {
  }

  /** One summary-field check: the two pushes, of which at most one fires. */
  method PushFieldIssue(issues: seq<ParityIssue>, zhHas: bool, enHas: bool, field: SummaryField, severity: IssueSeverity)
    returns (r: seq<ParityIssue>)
    ensures r == issues + FieldIssues(zhHas, enHas, field, severity)
  {
    r := issues;
    if zhHas && !enHas {
      r := r + [ParityIssue(MissingAISummary, severity, En, FieldMissing(field), NoDetails)];
    }
    if !zhHas && enHas {
      r := r + [ParityIssue(MissingAISummary, severity, Zh, FieldMissing(field), NoDetails)];
    }
  }

  // ---------------------------------------------------------------------------
  // Properties of the comparison

  /** Two versions with the same metrics raise nothing. */
  lemma IdenticalMetricsHaveParity(m: ArticleMetrics)
    ensures ParityIssues(m, m) == []
  {
  }

  /** An AI summary on one side only raises exactly one issue about summaries: the
      critical one for the locale without it, first in the list; no field is checked. */
  lemma OneSidedSummary(zh: ArticleMetrics, en: ArticleMetrics)
    requires zh.hasAISummary != en.hasAISummary
    ensures var issues := ParityIssues(zh, en);
      && |issues| >= 1
      && issues[0] == ParityIssue(MissingAISummary, Critical, if zh.hasAISummary then En else Zh,
                                  VersionMissing(MissingAISummary), NoDetails)
      && forall k :: 1 <= k < |issues| ==> issues[k].kind != MissingAISummary
  {
    var rest := QAIssues(zh, en) + CitationIssues(zh, en) + ContentIssues(zh, en) + BlockIssues(zh, en);
    PartsOfParityIssues(zh, en);
    AppendFour(SummaryIssues(zh, en), QAIssues(zh, en), CitationIssues(zh, en), ContentIssues(zh, en), BlockIssues(zh, en));
    assert forall i :: i in rest ==> i.kind != MissingAISummary;
    HeadAndRest(SummaryIssues(zh, en), rest, MissingAISummary);
  }

  /** The kinds each check can raise. */
  lemma PartsOfParityIssues(zh: ArticleMetrics, en: ArticleMetrics)
    ensures forall i :: i in QAIssues(zh, en) + CitationIssues(zh, en) + ContentIssues(zh, en) + BlockIssues(zh, en) ==>
      i.kind != MissingAISummary
    ensures forall i :: i in SummaryIssues(zh, en) ==> i.kind != MissingQA && i.kind != KnowledgeBlockMismatch
    ensures forall i :: i in CitationIssues(zh, en) + ContentIssues(zh, en) + BlockIssues(zh, en) ==> i.kind != MissingQA
    ensures forall i :: i in SummaryIssues(zh, en) + QAIssues(zh, en) + CitationIssues(zh, en) + ContentIssues(zh, en) ==>
      i.kind != KnowledgeBlockMismatch
  {
  }

  lemma HeadAndRest(head: seq<ParityIssue>, rest: seq<ParityIssue>, kind: IssueType)
    requires |head| == 1
    requires forall i :: i in rest ==> i.kind != kind
    ensures (head + rest)[0] == head[0]
    ensures forall k :: 1 <= k < |head + rest| ==> (head + rest)[k].kind != kind
  {
    forall k | 1 <= k < |head + rest|
      ensures (head + rest)[k].kind != kind
    {
      assert (head + rest)[k] == rest[k - 1];
    }
  }

  /** Where an issue of `kind` may sit: only the check for that kind raises it. */
  predicate Raised(issues: seq<ParityIssue>, kind: IssueType, severity: IssueSeverity) {
    exists k :: 0 <= k < |issues| && issues[k].kind == kind && issues[k].severity == severity
  }

  lemma RaisedAppend(a: seq<ParityIssue>, b: seq<ParityIssue>, kind: IssueType, severity: IssueSeverity)
    ensures Raised(a + b, kind, severity) <==> Raised(a, kind, severity) || Raised(b, kind, severity)
  {
    if Raised(a + b, kind, severity) {
      var k :| 0 <= k < |a + b| && (a + b)[k].kind == kind && (a + b)[k].severity == severity;
      if k >= |a| {
        assert b[k - |a|] == (a + b)[k];
      }
    }
    if Raised(b, kind, severity) {
      var k :| 0 <= k < |b| && b[k].kind == kind && b[k].severity == severity;
      assert (a + b)[|a| + k] == b[k];
    }
    if Raised(a, kind, severity) {
      var k :| 0 <= k < |a| && a[k].kind == kind && a[k].severity == severity;
      assert (a + b)[k] == a[k];
    }
  }

  /** In `a + b + c`, an issue of a kind that neither `a` nor `c` holds is raised iff `b`
      raises it. */
  lemma RaisedInMiddle(a: seq<ParityIssue>, b: seq<ParityIssue>, c: seq<ParityIssue>, kind: IssueType, severity: IssueSeverity)
    requires forall i :: i in a ==> i.kind != kind
    requires forall i :: i in c ==> i.kind != kind
    ensures Raised(a + b + c, kind, severity) <==> Raised(b, kind, severity)
  {
    RaisedAppend(a, b, kind, severity);
    RaisedAppend(a + b, c, kind, severity);
    assert !Raised(a, kind, severity) by {
      forall k | 0 <= k < |a| ensures a[k].kind != kind { assert a[k] in a; }
    }
    assert !Raised(c, kind, severity) by {
      forall k | 0 <= k < |c| ensures c[k].kind != kind { assert c[k] in c; }
    }
  }

  /** A high-severity Q&A issue (the count mismatch) is raised iff both versions have
      Q&A and the counts differ by more than 20% of the larger one. */
  lemma QACountMismatchIff(zh: ArticleMetrics, en: ArticleMetrics)
    requires Consistent(zh) && Consistent(en)
    ensures Raised(ParityIssues(zh, en), MissingQA, High) <==>
      zh.hasQA && en.hasQA && 100 * Diff(zh.qaCount, en.qaCount) > 20 * Max(zh.qaCount, en.qaCount)
  {
    var qa := QAIssues(zh, en);
    var after := CitationIssues(zh, en) + ContentIssues(zh, en) + BlockIssues(zh, en);
    AppendFour(SummaryIssues(zh, en), qa, CitationIssues(zh, en), ContentIssues(zh, en), BlockIssues(zh, en));
    assert ParityIssues(zh, en) == SummaryIssues(zh, en) + qa + after;
    PartsOfParityIssues(zh, en);
    RaisedInMiddle(SummaryIssues(zh, en), qa, after, MissingQA, High);
    QAMismatchInQAIssues(zh, en);
  }

  lemma QAMismatchInQAIssues(zh: ArticleMetrics, en: ArticleMetrics)
    requires Consistent(zh) && Consistent(en)
    ensures Raised(QAIssues(zh, en), MissingQA, High) <==>
      zh.hasQA && en.hasQA && 100 * Diff(zh.qaCount, en.qaCount) > 20 * Max(zh.qaCount, en.qaCount)
  {
    if zh.hasQA && en.hasQA && 100 * Diff(zh.qaCount, en.qaCount) > 20 * Max(zh.qaCount, en.qaCount) {
      assert QAIssues(zh, en)[0].severity == High;
    }
  }

  /** A knowledge-block mismatch is raised iff both versions have content and the counts
      differ by more than 70% of the larger one; it is the last issue and blames the
      version with fewer blocks. */
  lemma BlockMismatchIff(zh: ArticleMetrics, en: ArticleMetrics)
    ensures Raised(ParityIssues(zh, en), KnowledgeBlockMismatch, Medium) <==>
      zh.hasContent && en.hasContent && Exceeds(zh.knowledgeBlockCount, en.knowledgeBlockCount, 70)
    ensures Raised(ParityIssues(zh, en), KnowledgeBlockMismatch, Medium) ==>
      var issues := ParityIssues(zh, en);
      issues[|issues| - 1].kind == KnowledgeBlockMismatch
      && (issues[|issues| - 1].locale == Zh <==> zh.knowledgeBlockCount < en.knowledgeBlockCount)
  {
    var blocks := BlockIssues(zh, en);
    var first := SummaryIssues(zh, en) + QAIssues(zh, en) + CitationIssues(zh, en) + ContentIssues(zh, en);
    assert ParityIssues(zh, en) == first + blocks + [];
    PartsOfParityIssues(zh, en);
    RaisedInMiddle(first, blocks, [], KnowledgeBlockMismatch, Medium);
    if blocks != [] {
      assert (first + blocks)[|first + blocks| - 1] == blocks[0];
    }
  }

  // ---------------------------------------------------------------------------
  // Report

  datatype ArticleParityReport = ArticleParityReport(
    articleId: string, zhTitle: string, enTitle: string, hasParity: bool,
    issues: seq<ParityIssue>, zhMetrics: ArticleMetrics, enMetrics: ArticleMetrics)

  /** The id shown for a pair: the shared id, or both joined by " / ". */
  function ReportId(q: ArticlePair): string {
    if q.zhId == q.enId then q.zhId else q.zhId + " / " + q.enId
  }

  /** The report for one pair; it has parity iff the comparison raised nothing. */
  function ArticleReportOf(q: ArticlePair, zhArticle: ArticleData, enArticle: ArticleData, p: KnowledgeBlocks.BlockPatterns): (r: ArticleParityReport)
    ensures r.hasParity <==> r.issues == []
    ensures r.issues == ParityIssues(AnalyzeArticle(zhArticle, p), AnalyzeArticle(enArticle, p))
  {
    var zhMetrics := AnalyzeArticle(zhArticle, p);
    var enMetrics := AnalyzeArticle(enArticle, p);
    var issues := ParityIssues(zhMetrics, enMetrics);
    ArticleParityReport(ReportId(q), zhArticle.title, enArticle.title, issues == [], issues, zhMetrics, enMetrics)
  }

  /** A pair is checked unless an article was asked for (a non-empty id) that is neither
      of its ids. */
  predicate Selected(q: ArticlePair, article: Option<string>) {
    !Filled(article) || q.zhId == article.value || q.enId == article.value
  }

  predicate Covers(pairs: seq<ArticlePair>, zhArticles: map<string, ArticleData>, enArticles: map<string, ArticleData>) {
    forall k :: 0 <= k < |pairs| ==> pairs[k].zhId in zhArticles && pairs[k].enId in enArticles
  }

  /** The reports for the selected pairs, in pair order. */
  function Reports(pairs: seq<ArticlePair>, zhArticles: map<string, ArticleData>, enArticles: map<string, ArticleData>,
                   article: Option<string>, p: KnowledgeBlocks.BlockPatterns): seq<ArticleParityReport>
    requires Covers(pairs, zhArticles, enArticles)
  {
    if pairs == [] then []
    else
      var q := pairs[|pairs| - 1];
      Reports(pairs[..|pairs| - 1], zhArticles, enArticles, article, p)
      + if Selected(q, article) then [ArticleReportOf(q, zhArticles[q.zhId], enArticles[q.enId], p)] else []
  }

  /** Every report has parity iff it holds no issue. */
  predicate ParityMeansNoIssues(reports: seq<ArticleParityReport>) {
    forall k :: 0 <= k < |reports| ==> (reports[k].hasParity <==> reports[k].issues == [])
  }

  lemma {:induction false} ReportsHaveParityFlags(pairs: seq<ArticlePair>, zhArticles: map<string, ArticleData>,
                                                  enArticles: map<string, ArticleData>, article: Option<string>,
                                                  p: KnowledgeBlocks.BlockPatterns)
    requires Covers(pairs, zhArticles, enArticles)
    ensures ParityMeansNoIssues(Reports(pairs, zhArticles, enArticles, article, p))
    ensures |Reports(pairs, zhArticles, enArticles, article, p)| <= |pairs|
  {
    if pairs != [] {
      ReportsHaveParityFlags(pairs[..|pairs| - 1], zhArticles, enArticles, article, p);
    }
  }

  /** All issues of the reports, report by report. */
  function IssuesOf(reports: seq<ArticleParityReport>): seq<ParityIssue> {
    if reports == [] then [] else IssuesOf(reports[..|reports| - 1]) + reports[|reports| - 1].issues
  }

  function ParityCount(reports: seq<ArticleParityReport>): nat {
    if reports == [] then 0
    else ParityCount(reports[..|reports| - 1]) + if reports[|reports| - 1].hasParity then 1 else 0
  }

  /** Every article has parity exactly when there are no issues at all, and the parity
      count never exceeds the number of articles. */
  lemma {:induction false} ParityCountBounds(reports: seq<ArticleParityReport>)
    requires ParityMeansNoIssues(reports)
    ensures ParityCount(reports) <= |reports|
    ensures ParityCount(reports) == |reports| <==> IssuesOf(reports) == []
  {
    if reports != [] {
      ParityCountBounds(reports[..|reports| - 1]);
    }
  }

  datatype ParitySummary = ParitySummary(totalArticles: nat, articlesWithParity: nat, parityRateTenths: nat, totalIssues: nat)

  /** `Math.round(w / t * 100 * 10) / 10` in tenths of a percent, 0 without articles. */
  function ParityRateTenths(w: nat, t: nat): nat {
    if t > 0 then (2000 * w + t) / (2 * t) else 0
  }

  lemma MulMonotone(d: nat, a: int, b: int)
    ensures a <= b ==> d * a <= d * b
  {
    if a <= b {
      var c := b - a;
      assert d * b == d * a + d * c;
    }
  }

  /** The quotient of `x` by `d` is `q` when `x` lies in `[d·q, d·q + d)`. */
  lemma DivBetween(x: nat, d: nat, q: nat)
    requires d > 0 && d * q <= x < d * q + d
    ensures x / d == q
  {
    var r := x / d;
    assert d * r + x % d == x;
    MulMonotone(d, q + 1, r);
    MulMonotone(d, r + 1, q);
  }

  /** The rate lies between 0 and 100.0%, is 100.0% when every article has parity and
      0 when none has. */
  lemma ParityRateBounds(w: nat, t: nat)
    requires w <= t
    ensures ParityRateTenths(w, t) <= 1000
    ensures t > 0 && w == t ==> ParityRateTenths(w, t) == 1000
    ensures w == 0 ==> ParityRateTenths(w, t) == 0
  {
    if t > 0 {
      var x := 2000 * w + t;
      var q := x / (2 * t);
      assert (2 * t) * q + x % (2 * t) == x;
      MulMonotone(2 * t, 1001, q);
      if w == t {
        DivBetween(x, 2 * t, 1000);
      }
      if w == 0 {
        DivBetween(x, 2 * t, 0);
      }
    }
  }

  function SummaryOf(reports: seq<ArticleParityReport>): ParitySummary {
    var w := ParityCount(reports);
    ParitySummary(|reports|, w, ParityRateTenths(w, |reports|), |IssuesOf(reports)|)
  }

  // ---------------------------------------------------------------------------
  // Recommendations

  datatype Recommendation =
    | AddressKind(kind: IssueType, count: nat)
    | NeedsAttention(locale: Locale)
    | FocusOn(articleIds: seq<string>)

  function KindCount(issues: seq<ParityIssue>, kind: IssueType): nat {
    if issues == [] then 0
    else KindCount(issues[..|issues| - 1], kind) + if issues[|issues| - 1].kind == kind then 1 else 0
  }

  function LocaleCount(issues: seq<ParityIssue>, locale: Locale): nat {
    if issues == [] then 0
    else LocaleCount(issues[..|issues| - 1], locale) + if issues[|issues| - 1].locale == locale then 1 else 0
  }

  function KindRecommendation(issues: seq<ParityIssue>, kind: IssueType): seq<Recommendation> {
    var n := KindCount(issues, kind);
    if n > 0 then [AddressKind(kind, n)] else []
  }

  /** `zh > en * 1.5`, or the other way round, cross-multiplied. */
  function LocaleRecommendation(zhCount: nat, enCount: nat): seq<Recommendation> {
    if 2 * zhCount > 3 * enCount then [NeedsAttention(Zh)]
    else if 2 * enCount > 3 * zhCount then [NeedsAttention(En)]
    else []
  }

  predicate LacksParity(r: ArticleParityReport) { !r.hasParity }

  function IdOf(r: ArticleParityReport): string { r.articleId }

  function FocusRecommendation(reports: seq<ArticleParityReport>): seq<Recommendation> {
    var failing := Filter(reports, LacksParity);
    if failing != [] then [FocusOn(Mapped(failing, IdOf))] else []
  }

  /** `generateRecommendations`: one line per issue type present (summary, Q&A,
      citations, content, knowledge blocks), the locale line, the article list. */
  function Recommendations(reports: seq<ArticleParityReport>): seq<Recommendation> {
    var issues := IssuesOf(reports);
    KindRecommendations(issues)
    + LocaleRecommendation(LocaleCount(issues, Zh), LocaleCount(issues, En))
    + FocusRecommendation(reports)
  }

  /** The per-type lines, in the order summary, Q&A, citations, content, blocks. */
  function KindRecommendations(issues: seq<ParityIssue>): (r: seq<Recommendation>)
    ensures forall x :: x in r ==> x.AddressKind?
  {
    KindRecommendation(issues, MissingAISummary)
    + KindRecommendation(issues, MissingQA)
    + KindRecommendation(issues, MissingCitations)
    + KindRecommendation(issues, ContentMissing)
    + KindRecommendation(issues, KnowledgeBlockMismatch)
  }

  /** `issuesByType[t] || 0`. */
  function Tally<K>(counts: map<K, nat>, key: K): nat {
    if key in counts then counts[key] else 0
  }

  lemma KindCountSnoc(issues: seq<ParityIssue>, x: ParityIssue, kind: IssueType)
    ensures KindCount(issues + [x], kind) == KindCount(issues, kind) + if x.kind == kind then 1 else 0
  {
    assert (issues + [x])[..|issues|] == issues;
  }

  lemma LocaleCountSnoc(issues: seq<ParityIssue>, x: ParityIssue, locale: Locale)
    ensures LocaleCount(issues + [x], locale) == LocaleCount(issues, locale) + if x.locale == locale then 1 else 0
  {
    assert (issues + [x])[..|issues|] == issues;
  }

  /** The counting loops: every issue of every report bumps its type's and its locale's
      tally. */
  method TallyIssues(reports: seq<ArticleParityReport>) returns (byType: map<IssueType, nat>, byLocale: map<Locale, nat>)
    ensures forall t :: Tally(byType, t) == KindCount(IssuesOf(reports), t)
    ensures forall l :: Tally(byLocale, l) == LocaleCount(IssuesOf(reports), l)
  {
    byType := map[];
    byLocale := map[Zh := 0, En := 0];
    ghost var seen: seq<ParityIssue> := [];
    for i := 0 to |reports|
      invariant seen == IssuesOf(reports[..i])
      invariant forall t :: Tally(byType, t) == KindCount(seen, t)
      invariant forall l :: Tally(byLocale, l) == LocaleCount(seen, l)
    {
      assert reports[..i + 1][..i] == reports[..i];
      var issues := reports[i].issues;
      for j := 0 to |issues|
        invariant seen == IssuesOf(reports[..i]) + issues[..j]
        invariant forall t :: Tally(byType, t) == KindCount(seen, t)
        invariant forall l :: Tally(byLocale, l) == LocaleCount(seen, l)
      {
        var issue := issues[j];
        forall t ensures KindCount(seen + [issue], t) == KindCount(seen, t) + if issue.kind == t then 1 else 0 {
          KindCountSnoc(seen, issue, t);
        }
        forall l ensures LocaleCount(seen + [issue], l) == LocaleCount(seen, l) + if issue.locale == l then 1 else 0 {
          LocaleCountSnoc(seen, issue, l);
        }
        byType := byType[issue.kind := Tally(byType, issue.kind) + 1];
        byLocale := byLocale[issue.locale := Tally(byLocale, issue.locale) + 1];
        assert issues[..j + 1] == issues[..j] + [issue];
        seen := seen + [issue];
      }
      assert issues[..|issues|] == issues;
    }
    assert reports[..|reports|] == reports;
  }

  /** `generateRecommendations`. */
  method GenerateRecommendations(reports: seq<ArticleParityReport>) returns (recs: seq<Recommendation>)
    ensures recs == Recommendations(reports)
  {
    var byType, byLocale := TallyIssues(reports);
    ghost var issues := IssuesOf(reports);
    recs := PushKindRecommendations(byType, issues);
    var zhCount, enCount := Tally(byLocale, Zh), Tally(byLocale, En);
    if 2 * zhCount > 3 * enCount {
      recs := recs + [NeedsAttention(Zh)];
    } else if 2 * enCount > 3 * zhCount {
      recs := recs + [NeedsAttention(En)];
    }
    assert recs == KindRecommendations(issues) + LocaleRecommendation(LocaleCount(issues, Zh), LocaleCount(issues, En));
    var failing := Filter(reports, LacksParity);
    if |failing| > 0 {
      recs := recs + [FocusOn(Mapped(failing, IdOf))];
    }
  }

  /** The five per-type pushes, read off the type tallies. */
  method PushKindRecommendations(byType: map<IssueType, nat>, ghost issues: seq<ParityIssue>) returns (recs: seq<Recommendation>)
    requires forall t :: Tally(byType, t) == KindCount(issues, t)
    ensures recs == KindRecommendations(issues)
  {
    recs := [];
    if Tally(byType, MissingAISummary) > 0 {
      recs := recs + [AddressKind(MissingAISummary, Tally(byType, MissingAISummary))];
    }
    if Tally(byType, MissingQA) > 0 {
      recs := recs + [AddressKind(MissingQA, Tally(byType, MissingQA))];
    }
    assert recs == KindRecommendation(issues, MissingAISummary) + KindRecommendation(issues, MissingQA);
    if Tally(byType, MissingCitations) > 0 {
      recs := recs + [AddressKind(MissingCitations, Tally(byType, MissingCitations))];
    }
    ghost var three := recs;
    if Tally(byType, ContentMissing) > 0 {
      recs := recs + [AddressKind(ContentMissing, Tally(byType, ContentMissing))];
    }
    assert recs == three + KindRecommendation(issues, ContentMissing);
    if Tally(byType, KnowledgeBlockMismatch) > 0 {
      recs := recs + [AddressKind(KnowledgeBlockMismatch, Tally(byType, KnowledgeBlockMismatch))];
    }
  }

  /** One recommendation names an issue type, with its count, iff some issue has that
      type. */
  lemma KindRecommended(reports: seq<ArticleParityReport>, kind: IssueType)
    ensures (exists n :: AddressKind(kind, n) in Recommendations(reports)) <==> KindCount(IssuesOf(reports), kind) > 0
    ensures KindCount(IssuesOf(reports), kind) > 0 ==> AddressKind(kind, KindCount(IssuesOf(reports), kind)) in Recommendations(reports)
  {
    var issues := IssuesOf(reports);
    var tail := LocaleRecommendation(LocaleCount(issues, Zh), LocaleCount(issues, En)) + FocusRecommendation(reports);
    assert Recommendations(reports) == KindRecommendations(issues) + tail;
    assert forall r :: r in tail ==> !r.AddressKind?;
    KindRecommendationsHave(issues, kind);
  }

  lemma KindRecommendationsHave(issues: seq<ParityIssue>, kind: IssueType)
    ensures (exists n :: AddressKind(kind, n) in KindRecommendations(issues)) <==> KindCount(issues, kind) > 0
    ensures KindCount(issues, kind) > 0 ==> AddressKind(kind, KindCount(issues, kind)) in KindRecommendations(issues)
  {
  }

  /** The article list is recommended iff some article lacks parity, and it names exactly
      those articles, in order. */
  lemma FocusRecommended(reports: seq<ArticleParityReport>)
    ensures (exists ids :: FocusOn(ids) in Recommendations(reports)) <==> exists k :: 0 <= k < |reports| && !reports[k].hasParity
    ensures forall ids :: FocusOn(ids) in Recommendations(reports) ==> ids == Mapped(Filter(reports, LacksParity), IdOf)
  {
    var issues := IssuesOf(reports);
    var head := KindRecommendations(issues) + LocaleRecommendation(LocaleCount(issues, Zh), LocaleCount(issues, En));
    assert Recommendations(reports) == head + FocusRecommendation(reports);
    assert forall r :: r in head ==> !r.FocusOn?;
    FocusRecommendationHas(reports);
  }

  lemma FocusRecommendationHas(reports: seq<ArticleParityReport>)
    ensures (exists ids :: FocusOn(ids) in FocusRecommendation(reports)) <==> exists k :: 0 <= k < |reports| && !reports[k].hasParity
    ensures forall ids :: FocusOn(ids) in FocusRecommendation(reports) ==> ids == Mapped(Filter(reports, LacksParity), IdOf)
  {
    FilterEmpty(reports, LacksParity);
    if Filter(reports, LacksParity) != [] {
      assert FocusOn(Mapped(Filter(reports, LacksParity), IdOf)) in FocusRecommendation(reports);
    }
  }

  /** Without reports there is nothing to recommend, so the early return for "no common
      articles" agrees with the general path. */
  lemma NoReportsNoRecommendations()
    ensures Recommendations([]) == []
  {
    assert IssuesOf([]) == [];
    assert KindCount([], MissingAISummary) == 0;
    assert KindRecommendation([], MissingAISummary) == [];
    assert LocaleRecommendation(LocaleCount([], Zh), LocaleCount([], En)) == [];
    assert Filter([], LacksParity) == [];
    assert FocusRecommendation([]) == [];
  }

  // ---------------------------------------------------------------------------
  // The whole check

  datatype ParityReport = ParityReport(summary: ParitySummary, articles: seq<ArticleParityReport>, recommendations: seq<Recommendation>)

  /** `zhIds` lists the keys of the Chinese articles, in their order, each once. */
  ghost predicate KeyOrder(zhIds: seq<string>, zhArticles: map<string, ArticleData>) {
    (forall id :: id in zhArticles <==> id in zhIds) && NoDuplicates(zhIds)
  }

  lemma PairingCovers(zhIds: seq<string>, zhArticles: map<string, ArticleData>, enArticles: map<string, ArticleData>)
    requires KeyOrder(zhIds, zhArticles)
    ensures Covers(Pairing(zhIds, enArticles.Keys), zhArticles, enArticles)
  {
    PairingSoundAndComplete(zhIds, enArticles.Keys);
    var pairs := Pairing(zhIds, enArticles.Keys);
    forall k | 0 <= k < |pairs| ensures pairs[k].zhId in zhArticles && pairs[k].enId in enArticles {
      assert pairs[k] in pairs;
    }
  }

  /** `checkMultilingualParity` on the articles of both locales. */
  function ParityCheck(zhIds: seq<string>, zhArticles: map<string, ArticleData>, enArticles: map<string, ArticleData>,
                       article: Option<string>, p: KnowledgeBlocks.BlockPatterns): ParityReport
    requires KeyOrder(zhIds, zhArticles)
  {
    var pairs := Pairing(zhIds, enArticles.Keys);
    if pairs == [] then ParityReport(ParitySummary(0, 0, 0, 0), [], [])
    else
      PairingCovers(zhIds, zhArticles, enArticles);
      var reports := Reports(pairs, zhArticles, enArticles, article, p);
      ParityReport(SummaryOf(reports), reports, Recommendations(reports))
  }

  /** The summary is consistent: at most one article per Chinese id, parity count within
      the total, parity for all iff no issues, a rate within 0..100.0%. */
  lemma ParityCheckSummary(zhIds: seq<string>, zhArticles: map<string, ArticleData>, enArticles: map<string, ArticleData>,
                           article: Option<string>, p: KnowledgeBlocks.BlockPatterns)
    requires KeyOrder(zhIds, zhArticles)
    ensures var s := ParityCheck(zhIds, zhArticles, enArticles, article, p).summary;
      && s.totalArticles <= |zhIds|
      && s.articlesWithParity <= s.totalArticles
      && (s.articlesWithParity == s.totalArticles <==> s.totalIssues == 0)
      && s.parityRateTenths <= 1000
  {
    var pairs := Pairing(zhIds, enArticles.Keys);
    PairingSoundAndComplete(zhIds, enArticles.Keys);
    if pairs != [] {
      PairingCovers(zhIds, zhArticles, enArticles);
      var reports := Reports(pairs, zhArticles, enArticles, article, p);
      ReportsHaveParityFlags(pairs, zhArticles, enArticles, article, p);
      ParityCountBounds(reports);
      ParityRateBounds(ParityCount(reports), |reports|);
    }
  }

  /** The body of the report loop for one selected pair: analyse both versions and
      compare them. */
  method ComparePair(q: ArticlePair, zhArticle: ArticleData, enArticle: ArticleData, p: KnowledgeBlocks.BlockPatterns)
    returns (r: ArticleParityReport)
    ensures r == ArticleReportOf(q, zhArticle, enArticle, p)
  {
    var zhMetrics := AnalyzeArticle(zhArticle, p);
    var enMetrics := AnalyzeArticle(enArticle, p);
    var issues := CompareArticles(q.zhId, zhMetrics, enMetrics);
    r := ArticleParityReport(ReportId(q), zhArticle.title, enArticle.title, |issues| == 0, issues, zhMetrics, enMetrics);
  }

  /** The report loop: pair, skip unselected pairs, analyse and compare both versions. */
  method CheckMultilingualParity(zhIds: seq<string>, zhArticles: map<string, ArticleData>, enArticles: map<string, ArticleData>,
                                 article: Option<string>, p: KnowledgeBlocks.BlockPatterns) returns (report: ParityReport)
    requires KeyOrder(zhIds, zhArticles)
    ensures report == ParityCheck(zhIds, zhArticles, enArticles, article, p)
  {
    var pairs := PairArticles(zhIds, enArticles.Keys);
    if |pairs| == 0 {
      return ParityReport(ParitySummary(0, 0, 0, 0), [], []);
    }
    PairingCovers(zhIds, zhArticles, enArticles);
    var reports := CompareSelected(pairs, zhArticles, enArticles, article, p);
    var recommendations := GenerateRecommendations(reports);
    report := ParityReport(SummaryOf(reports), reports, recommendations);
  }

  /** The report loop: every selected pair compared, in pair order. */
  method CompareSelected(pairs: seq<ArticlePair>, zhArticles: map<string, ArticleData>, enArticles: map<string, ArticleData>,
                         article: Option<string>, p: KnowledgeBlocks.BlockPatterns) returns (reports: seq<ArticleParityReport>)
    requires Covers(pairs, zhArticles, enArticles)
    ensures reports == Reports(pairs, zhArticles, enArticles, article, p)
  {
    reports := [];
    for i := 0 to |pairs|
      invariant reports == Reports(pairs[..i], zhArticles, enArticles, article, p)
    {
      var q := pairs[i];
      assert pairs[..i + 1][..i] == pairs[..i];
      if Selected(q, article) {
        var r := ComparePair(q, zhArticles[q.zhId], enArticles[q.enId], p);
        reports := reports + [r];
      }
    }
    assert pairs[..|pairs|] == pairs;
  }

  // ---------------------------------------------------------------------------
  // Texts

  function LanguageName(l: Locale): string {
    match l
    case Zh => "Chinese"
    case En => "English"
  }

  function PartName(kind: IssueType): string {
    match kind
    case MissingAISummary => "AI Summary"
    case MissingQA => "Q&A coverage"
    case MissingCitations => "citations"
    case ContentMissing => "content"
    case KnowledgeBlockMismatch => "knowledge blocks"
  }

  function FieldName(f: SummaryField): string {
    match f
    case WhatIs => "whatIs"
    case WhyImportant => "whyImportant"
    case UseCases => "useCases"
    case KeyTakeaways => "keyTakeaways"
  }

  function CountsText(what: string, zhCount: nat, enCount: nat, percent: nat): string {
    what + " count mismatch: zh=" + NatToString(zhCount) + ", en=" + NatToString(enCount)
    + " (" + NatToString(percent) + "% difference)"
  }

  /** The message text of an issue. */
  function RenderIssue(issue: ParityIssue): string {
    match issue.message
    case VersionMissing(part) => LanguageName(issue.locale) + " version is missing " + PartName(part)
    case FieldMissing(f) => LanguageName(issue.locale) + " AI Summary is missing \"" + FieldName(f) + "\" field"
    case QACountMismatch(z, e, pct) => CountsText("Q&A", z, e, pct)
    case BlockCountMismatch(z, e, pct) => CountsText("Knowledge block", z, e, pct)
  }

  /** The text of a recommendation. */
  function RenderRecommendation(r: Recommendation): string {
    match r
    case AddressKind(KnowledgeBlockMismatch, n) =>
      "Review and balance knowledge block structure in " + NatToString(n) + " article pair(s)"
    case AddressKind(kind, n) => "Add missing " + PartName(kind) + " to " + NatToString(n) + " article version(s)"
    case NeedsAttention(l) =>
      var other := if l == Zh then En else Zh;
      LanguageName(l) + " versions need more attention - they have significantly more issues than "
      + LanguageName(other) + " versions"
    case FocusOn(ids) => "Focus on these articles: " + Join(ids, ", ")
  }
}
