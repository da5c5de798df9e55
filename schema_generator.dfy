/** The Schema.org `BlogPosting` object published with each article: the standard
    fields, dates normalised to ISO 8601 (complete calendar date, section 5.2.1.1 of
    ISO 8601:2004; combined date and time of day, section 5.4), and the concept,
    knowledge-point, mention, series and Q&A fields; plus the check that splits
    warnings from errors. */
module SchemaGenerator {
  import opened Util
  import opened GeoTypes

  const BaseUrl: string := "https://develop.matrixlab.work"

  datatype SchemaType = BlogPosting | Article

  datatype SchemaPerson = SchemaPerson(name: string, description: Option<string>,
                                       jobTitle: Option<string>, url: Option<string>)

  datatype SchemaOrganization = SchemaOrganization(name: string, logoUrl: string, url: string)

  datatype SchemaDefinedTerm = SchemaDefinedTerm(name: string, description: string, inDefinedTermSet: Option<string>)

  /** A mentioned thing: its `@type` and name. */
  datatype SchemaThing = SchemaThing(kind: string, name: string)

  /** A Question with the text of its accepted Answer. */
  datatype SchemaQuestion = SchemaQuestion(name: string, acceptedAnswer: string)

  datatype EnhancedBlogPosting = EnhancedBlogPosting(
    kind: SchemaType, headline: string, description: string, image: Option<string>,
    datePublished: string, dateModified: string, author: Option<SchemaPerson>,
    publisher: Option<SchemaOrganization>, about: Option<seq<SchemaDefinedTerm>>,
    teaches: Option<seq<string>>, mentions: Option<seq<SchemaThing>>,
    isPartOf: Option<string>, mainEntity: Option<seq<SchemaQuestion>>, inLanguage: Option<string>)

  datatype CoreConcept = CoreConcept(name: string, definition: string)

  datatype SchemaOptions = SchemaOptions(
    slug: string, title: string, description: string, category: string, keywords: string,
    author: string, authorBio: Option<string>, datePublished: string, dateModified: Option<string>,
    locale: Locale, aiSummary: Option<AISummary>, qaPairs: Option<seq<QAPair>>,
    seriesName: Option<string>, mentionedTechnologies: Option<seq<string>>,
    coreConcepts: Option<seq<CoreConcept>>)

  /** `new Date(s)` followed by `toISOString()`, or nothing when the date is invalid. */
  type DateParser = string -> Option<string>

  // ---------------------------------------------------------------------------
  // ISO 8601 dates

  predicate DigitsAt(s: string, i: nat, n: nat) {
    i + n <= |s| && forall k :: i <= k < i + n ==> IsDigit(s[k])
  }

  /** `^\d{4}-\d{2}-\d{2}`: a calendar date YYYY-MM-DD at the start. */
  predicate DateAt(s: string) {
    DigitsAt(s, 0, 4) && |s| > 4 && s[4] == '-' && DigitsAt(s, 5, 2) &&
    |s| > 7 && s[7] == '-' && DigitsAt(s, 8, 2)
  }

  /** `^\d{4}-\d{2}-\d{2}T\d{2}:\d{2}:\d{2}`: a date and a time of day at the start. */
  predicate HasDateTimePrefix(s: string) {
    DateAt(s) && |s| > 10 && s[10] == 'T' && DigitsAt(s, 11, 2) &&
    |s| > 13 && s[13] == ':' && DigitsAt(s, 14, 2) && |s| > 16 && s[16] == ':' && DigitsAt(s, 17, 2)
  }

  /** `^\d{4}-\d{2}-\d{2}$`. */
  predicate IsDateOnly(s: string) {
    DateAt(s) && |s| == 10
  }

  /** `[+-]\d{2}:\d{2}`. */
  predicate IsOffset(t: string) {
    |t| == 6 && (t[0] == '+' || t[0] == '-') && DigitsAt(t, 1, 2) && t[3] == ':' && DigitsAt(t, 4, 2)
  }

  /** What follows the seconds once an optional `.\d{3}` has been taken. */
  function AfterFraction(t: string): (r: string)
    ensures |r| <= |t|
  {
    if |t| >= 4 && t[0] == '.' && DigitsAt(t, 1, 3) then t[4..] else t
  }

  /** `isValidISO8601`: `^\d{4}-\d{2}-\d{2}(T\d{2}:\d{2}:\d{2}(\.\d{3})?(Z|[+-]\d{2}:\d{2})?)?$`. */
  function IsValidISO8601(s: string): (r: bool)
    ensures IsDateOnly(s) ==> r
    ensures r ==> DateAt(s) && (|s| == 10 || HasDateTimePrefix(s))
    ensures r ==> |s| in {10, 19, 20, 23, 24, 25, 29}
  {
    IsDateOnly(s) ||
    (HasDateTimePrefix(s) && (AfterFraction(s[19..]) == "" || AfterFraction(s[19..]) == "Z" ||
                              IsOffset(AfterFraction(s[19..]))))
  }

  /** `ensureISO8601`: a string with a time part is kept, a bare date gets midnight
      UTC appended, anything else goes through the date parser and is kept as it is
      when the parser rejects it. */
  function EnsureISO8601(s: string, parse: DateParser): (r: string)
    ensures HasDateTimePrefix(s) ==> r == s
    ensures IsDateOnly(s) ==> r == s + "T00:00:00Z"
    ensures !HasDateTimePrefix(s) && !IsDateOnly(s) ==> r == OrDefault(parse(s), s)
  {
    if HasDateTimePrefix(s) then s
    else if IsDateOnly(s) then s + "T00:00:00Z"
    else match parse(s)
      case Some(iso) => iso
      case None => s
  }

  /** A bare date becomes a date and time that both date checks accept, and that a
      second normalisation leaves alone. */
  lemma DateOnlyNormalised(s: string, parse: DateParser)
    requires IsDateOnly(s)
    ensures HasDateTimePrefix(EnsureISO8601(s, parse))
    ensures IsValidISO8601(EnsureISO8601(s, parse))
    ensures EnsureISO8601(EnsureISO8601(s, parse), parse) == EnsureISO8601(s, parse)
  {
    var r := s + "T00:00:00Z";
    assert r[..10] == s;
    assert forall k :: 0 <= k < 10 ==> r[k] == s[k];
    assert r[10..] == "T00:00:00Z";
    assert r[19..] == "Z";
    assert AfterFraction(r[19..]) == "Z";
  }

  /** Normalisation keeps a string with a time part even when the full check rejects
      it: "2024-01-15T10:30:00 UTC" passes `ensureISO8601` unchanged and fails
      `isValidISO8601`. */
  lemma NormalisedYetInvalid(parse: DateParser)
    ensures var s := "2024-01-15T10:30:00 UTC";
            EnsureISO8601(s, parse) == s && !IsValidISO8601(s)
  {
    var s := "2024-01-15T10:30:00 UTC";
    assert HasDateTimePrefix(s);
    assert s[19..] == " UTC";
    assert !IsDateOnly(s);
  }

  // ---------------------------------------------------------------------------
  // Field builders

  /** `keywords.split(',').map(k => k.trim())`. */
  function KeywordList(keywords: string): (r: seq<string>)
    ensures |r| >= 1 && |r| == |Split(keywords, ',')|
    ensures forall k :: 0 <= k < |r| ==> r[k] == Trim(Split(keywords, ',')[k])
  {
    Mapped(Split(keywords, ','), Trim)
  }

  function SoftwareApplication(name: string): SchemaThing { SchemaThing("SoftwareApplication", name) }

  function KeywordThing(name: string): SchemaThing { SchemaThing("Thing", name) }

  function ConceptTerm(category: string): CoreConcept -> SchemaDefinedTerm {
    (c: CoreConcept) => SchemaDefinedTerm(c.name, c.definition, Some(category))
  }

  /** The fallback `mentions`: the first five keywords, each as a `Thing`. */
  function KeywordMentions(keywords: string): (r: seq<SchemaThing>)
    ensures 1 <= |r| <= 5 && |r| <= |KeywordList(keywords)|
    ensures forall k :: 0 <= k < |r| ==> r[k] == KeywordThing(KeywordList(keywords)[k])
  {
    Mapped(Take(KeywordList(keywords), 5), KeywordThing)
  }

  function QuestionOf(qa: QAPair): SchemaQuestion { SchemaQuestion(qa.question, qa.answer) }

  /** The author's job title for the three known authors, in the page language. */
  function JobTitle(author: string, locale: Locale): Option<string> {
    if author == "Seal Wax" then Some(if locale == Zh then "创始人 & 首席架构师" else "Founder & Chief Architect")
    else if author == "Matrix Lab 安全团队" then Some(if locale == Zh then "安全研究团队" else "Security Research Team")
    else if author == "Matrix Lab 研究团队" then Some(if locale == Zh then "研究团队" else "Research Team")
    else None
  }

  /** `dateModified || datePublished`: an absent or empty modification date falls back. */
  function ModifiedOrPublished(o: SchemaOptions): string {
    match o.dateModified
    case Some(d) => if d != "" then d else o.datePublished
    case None => o.datePublished
  }

  predicate NonEmpty<T>(o: Option<seq<T>>) {
    o.Some? && o.value != []
  }

  /** The `about` field: the core concepts as defined terms of the article's category,
      else the summary's `whatIs` as the definition of the title, else absent. */
  function About(o: SchemaOptions): (r: Option<seq<SchemaDefinedTerm>>)
    ensures NonEmpty(o.coreConcepts) ==>
              r.Some? && |r.value| == |o.coreConcepts.value| &&
              forall k :: 0 <= k < |r.value| ==>
                r.value[k] == SchemaDefinedTerm(o.coreConcepts.value[k].name, o.coreConcepts.value[k].definition,
                                                Some(o.category))
    ensures !NonEmpty(o.coreConcepts) && o.aiSummary.Some? ==>
              r == Some([SchemaDefinedTerm(o.title, o.aiSummary.value.whatIs, Some(o.category))])
    ensures !NonEmpty(o.coreConcepts) && o.aiSummary.None? ==> r.None?
  {
    if NonEmpty(o.coreConcepts) then Some(Mapped(o.coreConcepts.value, ConceptTerm(o.category)))
    else if o.aiSummary.Some? then Some([SchemaDefinedTerm(o.title, o.aiSummary.value.whatIs, Some(o.category))])
    else None
  }

  /** The `teaches` field: the summary's key takeaways, absent without a summary. */
  function Teaches(o: SchemaOptions): (r: Option<seq<string>>)
    ensures r.Some? <==> o.aiSummary.Some?
    ensures r.Some? ==> r.value == o.aiSummary.value.keyTakeaways
  {
    if o.aiSummary.Some? then Some(o.aiSummary.value.keyTakeaways) else None
  }

  /** The `isPartOf` field: the series name when one is given and non-empty. */
  function IsPartOf(o: SchemaOptions): (r: Option<string>)
    ensures r.Some? <==> o.seriesName.Some? && o.seriesName.value != ""
    ensures r.Some? ==> r == o.seriesName
  {
    if o.seriesName.Some? && o.seriesName.value != "" then o.seriesName else None
  }

  /** The `mentions` field: the given technologies as applications, else the first
      five keywords as things; always present. */
  function Mentions(o: SchemaOptions): (r: Option<seq<SchemaThing>>)
    ensures r.Some?
    ensures NonEmpty(o.mentionedTechnologies) ==>
              |r.value| == |o.mentionedTechnologies.value| &&
              forall k :: 0 <= k < |r.value| ==>
                r.value[k] == SchemaThing("SoftwareApplication", o.mentionedTechnologies.value[k])
    ensures !NonEmpty(o.mentionedTechnologies) ==> r == Some(KeywordMentions(o.keywords))
  {
    if NonEmpty(o.mentionedTechnologies) then Some(Mapped(o.mentionedTechnologies.value, SoftwareApplication))
    else Some(KeywordMentions(o.keywords))
  }

  /** The `mainEntity` field: one question per Q&A pair, absent when there are none. */
  function MainEntity(o: SchemaOptions): (r: Option<seq<SchemaQuestion>>)
    ensures !NonEmpty(o.qaPairs) ==> r.None?
    ensures NonEmpty(o.qaPairs) ==>
              r.Some? && |r.value| == |o.qaPairs.value| &&
              forall k :: 0 <= k < |o.qaPairs.value| ==>
                r.value[k].name == o.qaPairs.value[k].question &&
                r.value[k].acceptedAnswer == o.qaPairs.value[k].answer
  {
    if NonEmpty(o.qaPairs) then Some(Mapped(o.qaPairs.value, QuestionOf)) else None
  }

  /** The object `generateEnhancedSchema` starts from, before any GEO field is set. */
  function BaseSchema(o: SchemaOptions, parse: DateParser): (r: EnhancedBlogPosting)
    ensures r.kind == BlogPosting && r.headline == o.title && r.description == o.description
    ensures r.image == Some(BaseUrl + "/blog-images/" + o.slug + "-hero.webp")
    ensures r.datePublished == EnsureISO8601(o.datePublished, parse)
    ensures r.dateModified == EnsureISO8601(ModifiedOrPublished(o), parse)
    ensures r.author.Some? && r.author.value.name == o.author && r.author.value.jobTitle == JobTitle(o.author, o.locale)
    ensures r.inLanguage == Some(if o.locale == Zh then "zh-CN" else "en-US")
    ensures r.about.None? && r.teaches.None? && r.mentions.None? && r.isPartOf.None? && r.mainEntity.None?
  {
    var languageCode := if o.locale == Zh then "zh-CN" else "en-US";
    var person := SchemaPerson(o.author, o.authorBio, JobTitle(o.author, o.locale),
                               if o.author == "Seal Wax" then Some("https://yz.matrixlab.work") else None);
    var publisher := SchemaOrganization(if o.locale == Zh then "刻熵科技" else "Ke Entropy Technology",
                                        BaseUrl + "/logo.png", BaseUrl);
    EnhancedBlogPosting(
      BlogPosting, o.title, o.description, Some(BaseUrl + "/blog-images/" + o.slug + "-hero.webp"),
      EnsureISO8601(o.datePublished, parse), EnsureISO8601(ModifiedOrPublished(o), parse),
      Some(person), Some(publisher), None, None, None, None, None, Some(languageCode))
  }

  /** `generateEnhancedSchema`: the base object, then `about`, `teaches`, `mentions`,
      `isPartOf` and `mainEntity` assigned in turn; every other field is the base's. */
  method GenerateEnhancedSchema(o: SchemaOptions, parse: DateParser) returns (schema: EnhancedBlogPosting)
    ensures schema == BaseSchema(o, parse).(about := About(o), teaches := Teaches(o), mentions := Mentions(o),
                                            isPartOf := IsPartOf(o), mainEntity := MainEntity(o))
  {
    schema := BaseSchema(o, parse);
    ghost var base := schema;

    if NonEmpty(o.coreConcepts) {
      schema := schema.(about := Some(Mapped(o.coreConcepts.value, ConceptTerm(o.category))));
    } else if o.aiSummary.Some? {
      schema := schema.(about := Some([SchemaDefinedTerm(o.title, o.aiSummary.value.whatIs, Some(o.category))]));
    }
    assert schema == base.(about := About(o));

    if o.aiSummary.Some? {
      schema := schema.(teaches := Some(o.aiSummary.value.keyTakeaways));
    }
    assert schema == base.(about := About(o), teaches := Teaches(o));

    if NonEmpty(o.mentionedTechnologies) {
      schema := schema.(mentions := Some(Mapped(o.mentionedTechnologies.value, SoftwareApplication)));
    } else {
      schema := schema.(mentions := Some(KeywordMentions(o.keywords)));
    }
    assert schema == base.(about := About(o), teaches := Teaches(o), mentions := Mentions(o));

    if o.seriesName.Some? && o.seriesName.value != "" {
      schema := schema.(isPartOf := o.seriesName);
    }
    assert schema == base.(about := About(o), teaches := Teaches(o), mentions := Mentions(o),
                           isPartOf := IsPartOf(o));

    if NonEmpty(o.qaPairs) {
      schema := schema.(mainEntity := Some(Mapped(o.qaPairs.value, QuestionOf)));
    }
  }

  /** `extractCoreConcepts`: the first keyword named as the concept `whatIs` defines,
      when there is a summary, a non-empty keyword string and a non-empty `whatIs`. */
  function ExtractCoreConcepts(summary: Option<AISummary>, keywords: Option<string>): (r: seq<CoreConcept>)
    ensures summary.None? || keywords.None? || keywords == Some("") ==> r == []
    ensures |r| <= 1
    ensures r != [] <==>
              summary.Some? && keywords.Some? && keywords.value != "" && summary.value.whatIs != ""
    ensures summary.Some? && keywords.Some? && keywords.value != "" && summary.value.whatIs != "" ==>
              r == [CoreConcept(Trim(Split(keywords.value, ',')[0]), summary.value.whatIs)]
    ensures r != [] ==>
              summary.Some? && keywords.Some? &&
              r[0] == CoreConcept(Trim(Split(keywords.value, ',')[0]), summary.value.whatIs) &&
              r[0].definition != "" && ',' !in r[0].name
  {
    if summary.None? || keywords.None? || keywords.value == "" then []
    else
      var keywordArray := KeywordList(keywords.value);
      if summary.value.whatIs != "" then
        TrimIsSlice(Split(keywords.value, ',')[0]);
        [CoreConcept(keywordArray[0], summary.value.whatIs)]
      else []
  }

  /** `determineArticleSeries`: the series a category belongs to, in the page language. */
  function DetermineArticleSeries(category: string, locale: Locale): (r: Option<string>)
    ensures r.Some? <==> category in {"安全", "Security", "DeFi", "技术", "Technology"}
  {
    var pick := (zh: string, en: string) => Some(if locale == Zh then zh else en);
    if category == "安全" || category == "Security" then pick("Web3 安全系列", "Web3 Security Series")
    else if category == "DeFi" then pick("DeFi 深度解析系列", "DeFi Deep Dive Series")
    else if category == "技术" || category == "Technology" then pick("区块链技术系列", "Blockchain Technology Series")
    else None
  }

  /** The Chinese and English category names of one subject land in the same series. */
  lemma SeriesSharedAcrossLanguages(locale: Locale)
    ensures DetermineArticleSeries("安全", locale) == DetermineArticleSeries("Security", locale)
    ensures DetermineArticleSeries("技术", locale) == DetermineArticleSeries("Technology", locale)
    ensures DetermineArticleSeries("安全", locale) != DetermineArticleSeries("技术", locale)
  {
  }

  // ---------------------------------------------------------------------------
  // Mentioned technologies

  const TechKeywords: seq<string> := [
    "Web3", "DeFi", "NFT", "Ethereum", "Solidity", "Smart Contract", "Blockchain", "Bitcoin",
    "Polygon", "Arbitrum", "Optimism", "IPFS", "MetaMask", "OpenZeppelin", "Hardhat", "Truffle", "Foundry"]

  /** Whether `text` names `tech`: case-insensitively for keywords, exactly for use cases. */
  predicate Names(text: string, tech: string, ignoreCase: bool) {
    if ignoreCase then Contains(ToLower(text), ToLower(tech)) else Contains(text, tech)
  }

  /** The technologies of `techs`, in order, that `text` names. */
  function TechsIn(text: string, techs: seq<string>, ignoreCase: bool): (r: seq<string>)
    ensures forall k :: 0 <= k < |r| ==> r[k] in techs && Names(text, r[k], ignoreCase)
    ensures forall k :: 0 <= k < |techs| && Names(text, techs[k], ignoreCase) ==> techs[k] in r
  {
    if techs == [] then []
    else TechsIn(text, techs[..|techs| - 1], ignoreCase) +
         (if Names(text, techs[|techs| - 1], ignoreCase) then [techs[|techs| - 1]] else [])
  }

  /** Every `Set.add` the nested loops make, in order, over each text in turn. */
  function TechHits(texts: seq<string>, techs: seq<string>, ignoreCase: bool): seq<string> {
    if texts == [] then []
    else TechHits(texts[..|texts| - 1], techs, ignoreCase) + TechsIn(texts[|texts| - 1], techs, ignoreCase)
  }

  predicate NamedBySome(texts: seq<string>, tech: string, ignoreCase: bool) {
    exists k :: 0 <= k < |texts| && Names(texts[k], tech, ignoreCase)
  }

  lemma {:induction false} TechHitsIff(texts: seq<string>, techs: seq<string>, ignoreCase: bool, tech: string)
    ensures tech in TechHits(texts, techs, ignoreCase) <==> tech in techs && NamedBySome(texts, tech, ignoreCase)
  {
    if texts != [] {
      var init := texts[..|texts| - 1];
      var last := texts[|texts| - 1];
      TechHitsIff(init, techs, ignoreCase, tech);
      var hits := TechsIn(last, techs, ignoreCase);
      assert TechHits(texts, techs, ignoreCase) == TechHits(init, techs, ignoreCase) + hits;
      if tech in hits {
        assert Names(texts[|texts| - 1], tech, ignoreCase);
      }
      if tech in techs && Names(last, tech, ignoreCase) {
        var i :| 0 <= i < |techs| && techs[i] == tech;
        assert tech in hits;
      }
      if NamedBySome(texts, tech, ignoreCase) {
        var k :| 0 <= k < |texts| && Names(texts[k], tech, ignoreCase);
        if k < |init| {
          assert init[k] == texts[k];
        }
      }
      if NamedBySome(init, tech, ignoreCase) {
        var k :| 0 <= k < |init| && Names(init[k], tech, ignoreCase);
        assert texts[k] == init[k];
      }
    }
  }

  /** The additions made over the keywords, then over the use cases. */
  function TechAdditions(keywords: string, summary: Option<AISummary>, techs: seq<string>): seq<string> {
    TechHits(KeywordList(keywords), techs, true) +
    (match summary case Some(a) => TechHits(a.useCases, techs, false) case None => [])
  }

  /** `Array.from(technologies)`: each technology once, in the order first added. */
  function MentionedTechnologies(keywords: Option<string>, summary: Option<AISummary>): seq<string> {
    if keywords.None? || keywords.value == "" then []
    else Distinct(TechAdditions(keywords.value, summary, TechKeywords))
  }

  lemma {:induction false} TechAdditionsIff(keywords: string, summary: Option<AISummary>, techs: seq<string>, tech: string)
    ensures tech in Distinct(TechAdditions(keywords, summary, techs)) <==>
              tech in techs &&
              (NamedBySome(KeywordList(keywords), tech, true) ||
               (summary.Some? && NamedBySome(summary.value.useCases, tech, false)))
  {
    var fromKeywords := TechHits(KeywordList(keywords), techs, true);
    var fromUseCases := match summary case Some(a) => TechHits(a.useCases, techs, false) case None => [];
    var all := fromKeywords + fromUseCases;
    TechHitsIff(KeywordList(keywords), techs, true, tech);
    if summary.Some? {
      TechHitsIff(summary.value.useCases, techs, false, tech);
    }
    assert tech in all <==> tech in fromKeywords || tech in fromUseCases;
    if tech in all {
      var i :| 0 <= i < |all| && all[i] == tech;
      assert tech in Distinct(all);
    }
    if tech in Distinct(all) {
      var i :| 0 <= i < |Distinct(all)| && Distinct(all)[i] == tech;
    }
  }

  /** The result names no technology twice, only known ones, and exactly those that
      a keyword mentions (ignoring case) or a use case mentions (exactly). */
  lemma MentionedTechnologiesIff(keywords: string, summary: Option<AISummary>, tech: string)
    requires keywords != ""
    ensures NoDuplicates(MentionedTechnologies(Some(keywords), summary))
    ensures tech in MentionedTechnologies(Some(keywords), summary) <==>
              tech in TechKeywords &&
              (NamedBySome(KeywordList(keywords), tech, true) ||
               (summary.Some? && NamedBySome(summary.value.useCases, tech, false)))
  {
    TechAdditionsIff(keywords, summary, TechKeywords, tech);
  }

  /** One `Set.add` when the technology is new, none when it is already there. */
  lemma DistinctSnoc(added: seq<string>, tech: string)
    ensures Distinct(added + [tech]) ==
            if tech in Distinct(added) then Distinct(added) else Distinct(added) + [tech]
  {
    assert (added + [tech])[..|added + [tech]| - 1] == added;
  }

  /** One step of the inner loop: adding `techs[j]` when `text` names it and it is new
      keeps the set equal to the de-duplicated additions so far. */
  lemma AddStep(r: seq<string>, added: seq<string>, text: string, techs: seq<string>, ignoreCase: bool, j: nat)
    requires j < |techs|
    requires r == Distinct(added + TechsIn(text, techs[..j], ignoreCase))
    ensures (if Names(text, techs[j], ignoreCase) && techs[j] !in r then r + [techs[j]] else r) ==
            Distinct(added + TechsIn(text, techs[..j + 1], ignoreCase))
  {
    var tech := techs[j];
    var before := added + TechsIn(text, techs[..j], ignoreCase);
    assert techs[..j + 1][..j] == techs[..j];
    if Names(text, tech, ignoreCase) {
      AppendAssoc(added, TechsIn(text, techs[..j], ignoreCase), [tech]);
      DistinctSnoc(before, tech);
    } else {
      assert added + TechsIn(text, techs[..j + 1], ignoreCase) == before;
    }
  }

  /** The inner `techKeywords.forEach`: adds each technology `text` names. */
  method AddTechsNamedIn(technologies: seq<string>, ghost added: seq<string>, text: string,
                         techs: seq<string>, ignoreCase: bool)
    returns (r: seq<string>)
    requires technologies == Distinct(added)
    ensures r == Distinct(added + TechsIn(text, techs, ignoreCase))
  {
    r := technologies;
    assert added + TechsIn(text, techs[..0], ignoreCase) == added;
    for j := 0 to |techs|
      invariant r == Distinct(added + TechsIn(text, techs[..j], ignoreCase))
    {
      AddStep(r, added, text, techs, ignoreCase, j);
      if Names(text, techs[j], ignoreCase) && techs[j] !in r {
        r := r + [techs[j]];
      }
    }
    assert techs[..|techs|] == techs;
  }

  /** The outer `forEach` over `texts`, adding what each names. */
  method AddTechsNamedInAll(technologies: seq<string>, ghost added: seq<string>, texts: seq<string>,
                            techs: seq<string>, ignoreCase: bool)
    returns (r: seq<string>)
    requires technologies == Distinct(added)
    ensures r == Distinct(added + TechHits(texts, techs, ignoreCase))
  {
    r := technologies;
    assert added + TechHits(texts[..0], techs, ignoreCase) == added;
    for i := 0 to |texts|
      invariant r == Distinct(added + TechHits(texts[..i], techs, ignoreCase))
    {
      var before := TechHits(texts[..i], techs, ignoreCase);
      r := AddTechsNamedIn(r, added + before, texts[i], techs, ignoreCase);
      assert texts[..i + 1][..i] == texts[..i];
      AppendAssoc(added, before, TechsIn(texts[i], techs, ignoreCase));
    }
    assert texts[..|texts|] == texts;
  }

  /** `extractMentionedTechnologies`: the keywords scanned first, then the use cases. */
  method ExtractMentionedTechnologies(keywords: Option<string>, summary: Option<AISummary>) returns (r: seq<string>)
    ensures r == MentionedTechnologies(keywords, summary)
  {
    if keywords.None? || keywords.value == "" {
      return [];
    }
    r := CollectTechs(keywords.value, summary, TechKeywords);
  }

  /** The two scans of `extractMentionedTechnologies` over any list of technologies. */
  method CollectTechs(keywords: string, summary: Option<AISummary>, techs: seq<string>) returns (r: seq<string>)
    ensures r == Distinct(TechAdditions(keywords, summary, techs))
  {
    var keywordArray := KeywordList(keywords);
    ghost var fromKeywords := TechHits(keywordArray, techs, true);
    assert [] + fromKeywords == fromKeywords;
    r := AddTechsNamedInAll([], [], keywordArray, techs, true);
    assert r == Distinct(fromKeywords);
    if summary.Some? {
      ghost var fromUseCases := TechHits(summary.value.useCases, techs, false);
      r := AddTechsNamedInAll(r, fromKeywords, summary.value.useCases, techs, false);
      assert r == Distinct(fromKeywords + fromUseCases);
      assert TechAdditions(keywords, summary, techs) == fromKeywords + fromUseCases;
    } else {
      assert TechAdditions(keywords, summary, techs) == fromKeywords + [];
      assert fromKeywords + [] == fromKeywords;
    }
  }

  // ---------------------------------------------------------------------------
  // Validation

  datatype SchemaCheck = SchemaCheck(valid: bool, errors: seq<string>)

  const WarningMark: string := "Warning"

  predicate IsWarning(e: string) { StartsWith(e, WarningMark) }

  predicate IsHardError(e: string) { !IsWarning(e) }

  const MissingField: string := "Missing required field: "

  const InvalidFormat: string := "Invalid "

  function RequiredFieldErrors(s: EnhancedBlogPosting): seq<string> {
    When(s.headline == "", MissingField + "headline") +
    When(s.description == "", MissingField + "description") +
    When(s.author.None?, MissingField + "author") +
    When(s.datePublished == "", MissingField + "datePublished")
  }

  function DateErrors(s: EnhancedBlogPosting): seq<string> {
    When(s.datePublished != "" && !IsValidISO8601(s.datePublished),
         InvalidFormat + "datePublished format (must be ISO 8601)") +
    When(s.dateModified != "" && !IsValidISO8601(s.dateModified),
         InvalidFormat + "dateModified format (must be ISO 8601)")
  }

  function GeoWarnings(s: EnhancedBlogPosting): seq<string> {
    When(!NonEmpty(s.about), WarningMark + ": Missing \"about\" field (core concepts)") +
    When(!NonEmpty(s.teaches), WarningMark + ": Missing \"teaches\" field (knowledge points)") +
    When(!NonEmpty(s.mainEntity), WarningMark + ": Missing \"mainEntity\" field (Q&A structure)")
  }

  /** `validateEnhancedSchema`: valid when no message other than a warning was raised. */
  function ValidateEnhancedSchema(s: EnhancedBlogPosting): (r: SchemaCheck)
    ensures r.valid <==> forall k :: 0 <= k < |r.errors| ==> IsWarning(r.errors[k])
  {
    var errors := RequiredFieldErrors(s) + DateErrors(s) + GeoWarnings(s);
    FilterEmpty(errors, IsHardError);
    SchemaCheck(|Filter(errors, IsHardError)| == 0, errors)
  }

  lemma MarkedIsWarning(rest: string)
    ensures IsWarning(WarningMark + rest)
  {
    assert (WarningMark + rest)[..|WarningMark|] == WarningMark;
  }

  lemma UnmarkedIsError(head: string, rest: string)
    requires head != [] && head[0] != 'W'
    ensures !IsWarning(head + rest)
  {
    assert (head + rest)[0] == head[0];
  }

  lemma HardErrorsAreHard(s: EnhancedBlogPosting)
    ensures forall e :: e in RequiredFieldErrors(s) + DateErrors(s) ==> !IsWarning(e)
  {
    UnmarkedIsError(MissingField, "headline");
    UnmarkedIsError(MissingField, "description");
    UnmarkedIsError(MissingField, "author");
    UnmarkedIsError(MissingField, "datePublished");
    UnmarkedIsError(InvalidFormat, "datePublished format (must be ISO 8601)");
    UnmarkedIsError(InvalidFormat, "dateModified format (must be ISO 8601)");
  }

  lemma GeoWarningsAreWarnings(s: EnhancedBlogPosting)
    ensures forall k :: 0 <= k < |GeoWarnings(s)| ==> IsWarning(GeoWarnings(s)[k])
  {
    MarkedIsWarning(": Missing \"about\" field (core concepts)");
    MarkedIsWarning(": Missing \"teaches\" field (knowledge points)");
    MarkedIsWarning(": Missing \"mainEntity\" field (Q&A structure)");
  }

  /** A schema is valid exactly when the four required fields are present and each
      date that is present passes the ISO 8601 check; the three GEO fields only ever
      cause warnings. */
  lemma ValidIff(s: EnhancedBlogPosting)
    ensures ValidateEnhancedSchema(s).valid <==>
              s.headline != "" && s.description != "" && s.author.Some? && s.datePublished != "" &&
              IsValidISO8601(s.datePublished) && (s.dateModified == "" || IsValidISO8601(s.dateModified))
  {
    var hard := RequiredFieldErrors(s) + DateErrors(s);
    var r := ValidateEnhancedSchema(s);
    HardErrorsAreHard(s);
    GeoWarningsAreWarnings(s);
    assert r.errors == hard + GeoWarnings(s);
    if hard == [] {
      assert r.errors == GeoWarnings(s);
    } else {
      assert r.errors[0] == hard[0] && hard[0] in hard;
    }
  }

  /** A generated schema from a non-empty title, description and bare publication
      date, without a separate modification date, passes the check. */
  lemma GeneratedDatesValid(o: SchemaOptions, parse: DateParser, schema: EnhancedBlogPosting)
    requires o.title != "" && o.description != "" && IsDateOnly(o.datePublished) && o.dateModified.None?
    requires schema.headline == o.title && schema.description == o.description && schema.author.Some?
    requires schema.datePublished == EnsureISO8601(o.datePublished, parse)
    requires schema.dateModified == EnsureISO8601(ModifiedOrPublished(o), parse)
    ensures ValidateEnhancedSchema(schema).valid
  {
    DateOnlyNormalised(o.datePublished, parse);
    ValidIff(schema);
  }
}
