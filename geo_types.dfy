/** The records shared by the content toolchain: quality reports, Q&A pairs, knowledge
    blocks, the terminology dictionary and validation results. Fields the source
    declares optional are `Option`s. */
module GeoTypes {
  import opened Util

  /** The two site languages. */
  datatype Locale = Zh | En

  datatype AISummary = AISummary(whatIs: string, whyImportant: string, useCases: seq<string>, keyTakeaways: seq<string>)

  datatype BlockType = Definition | Explanation | Comparison | Example | Conclusion

  datatype KnowledgeBlock = KnowledgeBlock(
    id: string, kind: BlockType, title: string, content: string,
    relatedBlocks: seq<string>, extractability: real)

  datatype QACategory = DefinitionQ | ComparisonQ | ApplicationQ | LimitationQ

  datatype QAPair = QAPair(question: string, answer: string, category: QACategory, relatedConcepts: seq<string>)

  datatype Coverage = Coverage(hasDefinition: bool, hasComparison: bool, hasApplication: bool, hasLimitation: bool)

  datatype QuestionCoverageMatrix = QuestionCoverageMatrix(article: string, qaPairs: seq<QAPair>, coverage: Coverage)

  datatype Severity = Error | Warning | Info

  datatype QualityIssue = QualityIssue(severity: Severity, kind: string, message: string, location: Option<string>)

  datatype QualityMetrics = QualityMetrics(
    hasDefinitions: bool, hasConclusions: bool, hasProperLists: bool,
    paragraphLengthOk: bool, avoidsVagueTerms: bool, avoidsHyperbole: bool,
    hasAuthorInfo: bool, hasAISummary: bool, hasQACoverage: bool, hasCitations: bool)

  datatype ContentQualityReport = ContentQualityReport(
    articleId: string, overallScore: int, metrics: QualityMetrics,
    issues: seq<QualityIssue>, recommendations: seq<string>)

  datatype Translation = Translation(en: Option<string>, zh: Option<string>,
                                     enDefinition: Option<string>, zhDefinition: Option<string>)

  datatype TermCategory = Web3 | Defi | Security | Blockchain | General

  datatype TerminologyEntry = TerminologyEntry(
    term: string, canonicalName: string, aliases: seq<string>, definition: string,
    context: string, relatedTerms: seq<string>, firstDefinedIn: string,
    category: TermCategory, translation: Option<Translation>)

  datatype ConflictReport = ConflictReport(term: string, canonicalDefinition: string,
                                           articleDefinition: string, articleId: string)

  datatype ValidationResult = ValidationResult(valid: bool, errors: seq<string>, warnings: seq<string>)
}
