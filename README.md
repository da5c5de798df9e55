# GEO content toolchain of a bilingual blog, modelled in Dafny

The blog publishes every article in Chinese (`zh`) and English (`en`) and keeps a
"GEO" (generative engine optimisation) toolchain beside it. That toolchain checks and
enriches article content so that answer engines can quote it. This project models
the decision logic of the toolchain and proves what it promises:

- **Content validator** (`ContentValidator`, with `HtmlText` for tag stripping and
  literal searches). It finds over-long paragraphs, rhetorical questions, vague terms,
  hyperbole and missing citations. It derives the metrics, the clamped 0–100 score and
  the recommendations.
- **Terminology dictionary** (`Terminology`). It covers lookup by canonical name, term
  or alias, alias conflicts, definition normalisation, translations, locale detection
  and the dictionary's structural validator.
- **Knowledge-block parser** (`KnowledgeBlocks`). It splits HTML into definition,
  explanation, comparison, example and conclusion blocks, numbered `kb-1…kb-n` by the
  parser's counter, and scores their extractability in [0, 1].
- **Q&A generator** (`QAGenerator`). It builds question/answer pairs by category from
  the summary and content, truncates them to the configured maximum and computes the
  coverage flags.
- **Schema.org builder** (`SchemaGenerator`). It builds the enhanced `BlogPosting`
  object, normalises dates to ISO 8601 (complete calendar date, section 5.2.1.1 of
  ISO 8601:2004; date and time of day, section 5.4) and validates the result.
- **Hreflang** (`Hreflang`, `ValidateHreflang`). It builds BCP 47 language tags
  (section 2.1 of RFC 5646), per-locale canonical URLs and `x-default`, and checks each
  site page's alternates.
- **Slug mapping** (`SlugMapping`): the zh/en article slug table used for language
  switching.
- **Maintenance scripts:**
  - the JSON-LD validator with its strict mode (`ValidateSchema`);
  - the zh/en parity check (`MultilingualParity`);
  - the GEO quality check with its pass rule, summary and recommendations (`GeoCheck`);
  - the pre-build quality gates (`PreBuildValidation`);
  - the slug, section, duplicate-header, paragraph-splitting and message-file helpers of
    the two article creators (`ArticleText`, `ArticleCreatorV2`, `ArticleCreator`).
- **Mixed-script text layout** (`MixedFonts`). Each character is drawn in the CJK or
  Latin font by its code point, text is measured, and the start is shifted for
  alignment.

Records of the TypeScript types are datatypes (`GeoTypes`); string helpers shared by
several modules are in `Util`. Loops that push into arrays, count or move indices are
methods with loop invariants. Each method is proved equal to a specification function,
and the lemmas state the properties of those functions. State that the source updates
in place is a class:
- the knowledge-block parser's id counter;
- the drawing surface;
- the messages file that `saveArticle` edits;
- the shared quality-gate objects.

## Model

| member | source | states |
|---|---|---|
| ContentValidator.CheckParagraphLength | lib/geo/contentValidator.ts:160-184 | the exec loop over `<p>` matches yields exactly the paragraph-length issues of the content (one warning per paragraph whose stripped text exceeds 300 characters, numbered by paragraph position) |
| ContentValidator.LongParagraphIssuesCount | lib/geo/contentValidator.ts:168-181 | every paragraph issue is a `paragraph_length` warning and there are exactly as many as long paragraphs |
| ContentValidator.LongParagraphIssuesEmptyIff | lib/geo/contentValidator.ts:168-181 | there is no paragraph issue if and only if no paragraph is longer than 300 characters |
| ContentValidator.LongParagraphIssuesNumbered | lib/geo/contentValidator.ts:169-179 | each long paragraph is reported under its own number and length, and every report is for such a paragraph |
| ContentValidator.ParagraphIssuesEmptyIff | lib/geo/contentValidator.ts:129 | `paragraphLengthOk` holds exactly when no paragraph of the content is long |
| ContentValidator.NoParagraphNoIssue | lib/geo/contentValidator.ts:164-168 | content with no `<p` tag yields no paragraph issue |
| ContentValidator.CheckRhetoricalQuestions | lib/geo/contentValidator.ts:193-249 | the loops over the Chinese then English question patterns yield exactly the rhetorical-question issues: nothing for Q&A content, else one warning per match in pattern order |
| ContentValidator.RhetoricalIssuesKind | lib/geo/contentValidator.ts:196-200 | content carrying a Q&A marker yields no rhetorical-question issue, and every such issue is a `rhetorical_question` warning |
| ContentValidator.CheckVagueTerms | lib/geo/contentValidator.ts:258-293 | the loops over the Chinese terms (exact) and English terms (whole word, any case) yield exactly the vague-term issues of the stripped text |
| ContentValidator.CheckHyperbole | lib/geo/contentValidator.ts:302-337 | the same scan over the hyperbole term lists yields exactly the hyperbole issues |
| ContentValidator.ScanKind | lib/geo/contentValidator.ts:259-336 | the Chinese-list loop followed by the English-list loop yields exactly the term issues of the content for that kind (vague or hyperbolic) |
| ContentValidator.TermListIssuesKind | lib/geo/contentValidator.ts:263-290 | every issue of a term scan is a warning of that scan's type |
| ContentValidator.TermListIssuesEmptyIff | lib/geo/contentValidator.ts:263-290 | a term list yields no issue if and only if none of its terms occurs in the text |
| ContentValidator.TermIssuesEmptyIff | lib/geo/contentValidator.ts:130-131 | `avoidsVagueTerms` / `avoidsHyperbole` hold exactly when no Chinese term occurs and no English term occurs as a whole word in any case |
| ContentValidator.CheckCitations | lib/geo/contentValidator.ts:346-360 | no issue exactly when citations are found; otherwise only the single missing-citations warning |
| ContentValidator.DeclaredCitations | lib/geo/contentValidator.ts:121-135 | citations declared by the caller suppress the citation warning and make `metrics.hasCitations` true |
| ContentValidator.FeaturePenalty | lib/geo/contentValidator.ts:521-525 | the deductions for missing definitions, conclusions, lists, AI summary and Q&A total at most 45 |
| ContentValidator.CalculateOverallScore | lib/geo/contentValidator.ts:514-535 | the score is 100 less the feature deductions, 5 per error and 2 per warning, clamped, hence within [0, 100] |
| ContentValidator.MoreIssuesNeverRaiseScore | lib/geo/contentValidator.ts:528-534 | adding issues never raises the clamped score |
| ContentValidator.ReportScore | lib/geo/contentValidator.ts:518-534 | the report's score equals 100 less the feature deductions and two points per issue, within [0, 100] |
| ContentValidator.Advice | lib/geo/contentValidator.ts:546-580 | a recommendation is given exactly when its condition holds |
| ContentValidator.MetricAdvice | lib/geo/contentValidator.ts:546-580 | the metric recommendations are empty if and only if every one of the nine metrics holds |
| ContentValidator.IssueAdvice | lib/geo/contentValidator.ts:583-591 | the issue recommendations are empty if and only if no rhetorical-question and no missing-citations issue is present |
| ContentValidator.RecommendationsCoverIssues | lib/geo/contentValidator.ts:540-594 | a non-empty issue list always yields a recommendation; there is none exactly when all metrics hold and no rhetorical question was found |
| ContentValidator.Validate | lib/geo/contentValidator.ts:95-151 | the report collects the issues of every check in order, derives the metrics from them, and scores and advises on them |
| ContentValidator.IssuesAreWarnings | lib/geo/contentValidator.ts:102-122 | every issue the validator reports has severity `warning` |
| ContentValidator.IssuesOfKinds | lib/geo/contentValidator.ts:109-122 | the missing-citations warning is present iff citations were neither declared nor found; a rhetorical warning iff that check found one |
| ContentValidator.PushPatternMatches | lib/geo/contentValidator.ts:221-247 | the loop over a list of question patterns appends exactly one issue per match of each pattern, pattern after pattern |
| ContentValidator.PushTermMatches | lib/geo/contentValidator.ts:264-290 | the `exec` loop for one term appends exactly one issue per occurrence of the term, in text order |
| ContentValidator.ScanTerms | lib/geo/contentValidator.ts:263-290 | the loop over a term list appends exactly the issues of all occurrences of each term, term after term |
| Terminology.FindTerm | lib/geo/terminology.ts:45-64 | the entry found answers the trimmed, lower-cased query by canonical name, term or alias; nothing is found exactly when no entry answers |
| Terminology.FindTermFirst | lib/geo/terminology.ts:45-64 | the entry found is the first answering entry in dictionary order |
| Terminology.FindTermByQuery | lib/geo/terminology.ts:46-47 | normalising the query is idempotent, so looking up the normalised query finds the same entry |
| Terminology.GetCanonicalName | lib/geo/terminology.ts:72-75 | the canonical name of an answering entry, or the input unchanged when no entry answers |
| Terminology.IsAlias | lib/geo/terminology.ts:83-89 | a term is an alias iff some entry lists it as an alias ignoring case and surrounding space, in both directions; an alias is always found by the lookup |
| Terminology.GetTermsByCategory | lib/geo/terminology.ts:97-103 | exactly the entries of the given category |
| Terminology.GetRelatedTerms | lib/geo/terminology.ts:111-120 | empty for an unknown term; otherwise exactly the entries its related names resolve to, all in the dictionary |
| Terminology.DetectLocale | lib/geo/terminology.ts:198-206 | the content is Chinese iff it is non-empty and more than a tenth of its characters are CJK; empty content (0/0 is NaN) is English |
| Terminology.ValidateTerminologyConsistency | lib/geo/terminology.ts:129-190 | the loop over entries and aliases returns exactly the specified conflict list for the given or detected locale |
| Terminology.ConflictsIff | lib/geo/terminology.ts:137-187 | a conflict is reported exactly for each checked alias that occurs as a whole word, ignoring case |
| Terminology.CanonicalAppropriateNoConflicts | lib/geo/terminology.ts:143-157 | when the canonical name is the term prescribed for the locale, no alias of that entry is reported |
| Terminology.NoWordCharsNoConflicts | lib/geo/terminology.ts:158-160 | content without ASCII word characters never reports an alias, since `\b` cannot match there |
| Terminology.CollapseSpaces | lib/geo/terminology.ts:434 | each run of white space becomes one space and no two spaces remain adjacent |
| Terminology.NormalizeDefinition | lib/geo/terminology.ts:430-436 | the result is in normal form: no ASCII upper case, none of the listed punctuation, white space only as single plain spaces, no leading or trailing space |
| Terminology.NormalizeDefinitionIdempotent | lib/geo/terminology.ts:430-436 | normalising a definition twice is normalising it once |
| Terminology.NormalFormFixed | lib/geo/terminology.ts:430-436 | a lower-case, punctuation-free, collapsed, trimmed string is its own normalisation |
| Terminology.CheckDefinitionConflict | lib/geo/terminology.ts:215-239 | no report exactly for an unknown term or a definition equal after normalisation; a report names the canonical name and both definitions |
| Terminology.DefinitionConflictNormalised | lib/geo/terminology.ts:224-229 | normalising the definition first does not change the verdict, and an entry's own definition never conflicts |
| Terminology.ExtractTermsFromContent | lib/geo/terminology.ts:247-264 | the loop returns exactly the specified list of entries found in the content |
| Terminology.TermsInIff | lib/geo/terminology.ts:251-261 | an entry is extracted iff its canonical name occurs as a whole word, ignoring case |
| Terminology.TranslationOf | lib/geo/terminology.ts:282-293 | the term is the translation's own term for the target when present and non-empty, otherwise the canonical name; likewise the definition falls back to the entry's definition |
| Terminology.GetTranslation | lib/geo/terminology.ts:273-294 | a translation is returned exactly when the term is found and has a translation, and it is that found entry's own translation for the target |
| Terminology.GetBilingualPair | lib/geo/terminology.ts:312-330 | the bilingual pair exists iff a translation does, and agrees with the translations into each language |
| Terminology.FormatWithEnglish | lib/geo/terminology.ts:394-407 | the term is returned unchanged unless an English translation differs from both the term and the canonical name, else the English is appended in full-width parentheses |
| Terminology.ValidateTranslationConsistency | lib/geo/terminology.ts:338-385 | the loop returns exactly the specified translation issues |
| Terminology.EntryIssue | lib/geo/terminology.ts:345-381 | one entry yields no issue without a translation; otherwise the missing-English issue when its term occurs only in the Chinese text, the missing-Chinese issue when only in the English text, and none when in both or neither |
| Terminology.TranslationIssueIff | lib/geo/terminology.ts:344-382 | an entry raises an issue iff its term occurs on exactly one side, and the issue names the side it occurs on |
| Terminology.TranslationIssuesIff | lib/geo/terminology.ts:344-384 | the issues are exactly those of the entries, at most one per entry |
| Terminology.ChineseProseFlagsEnglishSide | lib/geo/terminology.ts:352-380 | Chinese prose never matches its term under `\b…\b`, so an entry is flagged exactly when its English term occurs on the English side |
| Terminology.EntryErrors | lib/geo/terminology.ts:475-494 | an entry's errors each carry its `Entry <index>:` prefix, are absent iff every required field is present, and number at most six |
| Terminology.CheckEntry | lib/geo/terminology.ts:476-493 | the field checks push exactly the entry's specified errors |
| Terminology.ValidateDictionary | lib/geo/terminology.ts:457-501 | the errors are the specified top-level and per-entry errors, and `valid` holds iff there are none |
| Terminology.DictionaryValidIff | lib/geo/terminology.ts:457-501 | a dictionary is error-free iff every required field, at the top and in every entry, is present |
| Terminology.EntriesErrorsBound | lib/geo/terminology.ts:475-494 | the entries contribute at most six errors each |
| Terminology.FindIndex | lib/geo/terminology.ts:48-63 | the entry search returns the index of the first entry that answers the query, and none exactly when no entry answers it |
| Terminology.ResolveAll | lib/geo/terminology.ts:117-119 | the related names are looked up one by one: every entry kept is the lookup of some name, every name that resolves contributes its entry, and there are no more entries than names |
| Terminology.ScanAliases | lib/geo/terminology.ts:143-186 | the loop over one entry's aliases appends exactly that entry's alias conflicts for the locale |
| Terminology.CheckEntries | lib/geo/terminology.ts:475-494 | the loop over the raw entries collects exactly the per-entry errors, entry after entry |
| KnowledgeBlocks.Extractability | lib/geo/knowledgeBlockParser.ts:406-447 | the extractability score is always within [0, 1] |
| KnowledgeBlocks.ExtractabilityShape | lib/geo/knowledgeBlockParser.ts:410-446 | the score is positive, and a block of 20 to 300 characters without lists, tables or code scores exactly its type's score |
| KnowledgeBlocks.Numbered | lib/geo/knowledgeBlockParser.ts:391-393 | numbering drafts from a counter yields one block per draft |
| KnowledgeBlocks.BlockIdsDistinct | lib/geo/knowledgeBlockParser.ts:391-393 | after the reset, block `k` has the id `kb-(k+1)`, so no two blocks of a parse share an id |
| KnowledgeBlocks.KnowledgeBlockParser.constructor | lib/geo/knowledgeBlockParser.ts:19-20 | a new parser starts with the counter at 0 |
| KnowledgeBlocks.KnowledgeBlockParser.GenerateBlockId | lib/geo/knowledgeBlockParser.ts:391-393 | the counter is pre-incremented and the id is `kb-` followed by its new value |
| KnowledgeBlocks.KnowledgeBlockParser.ExtractDefinitions | lib/geo/knowledgeBlockParser.ts:59-101 | the blocks are the definition drafts numbered on from the counter, which advances by their number |
| KnowledgeBlocks.DefinitionDraftsSound | lib/geo/knowledgeBlockParser.ts:83-86 | every definition block comes from a pattern match, has a non-empty term, and is titled `Definition: ` followed by that term |
| KnowledgeBlocks.PatternDraftsSound | lib/geo/knowledgeBlockParser.ts:59-101 | every block of a pattern list comes from a match of one of its patterns that the draft rule accepts |
| KnowledgeBlocks.KnowledgeBlockParser.ExtractExplanations | lib/geo/knowledgeBlockParser.ts:103-145 | the exec loop over paragraphs yields the explanation drafts numbered on from the counter |
| KnowledgeBlocks.ExplanationDraftsSound | lib/geo/knowledgeBlockParser.ts:116-126 | every explanation block comes from a paragraph kept by the rule (stripped length in (20, 300], neither definition nor conclusion sentence) |
| KnowledgeBlocks.KnowledgeBlockParser.ExtractComparisons | lib/geo/knowledgeBlockParser.ts:147-204 | tables then comparison phrases, numbered on from the counter |
| KnowledgeBlocks.KnowledgeBlockParser.ExtractExamples | lib/geo/knowledgeBlockParser.ts:206-258 | code blocks then example phrases, numbered on from the counter |
| KnowledgeBlocks.KnowledgeBlockParser.ExtractConclusions | lib/geo/knowledgeBlockParser.ts:260-301 | the conclusion drafts numbered on from the counter |
| KnowledgeBlocks.ConclusionDraftsSound | lib/geo/knowledgeBlockParser.ts:260-301 | every conclusion block is titled `Conclusion` and carries more than 20 characters of text |
| KnowledgeBlocks.DraftKinds | lib/geo/knowledgeBlockParser.ts:35-48 | each of the five parts holds blocks of its own type only |
| KnowledgeBlocks.AllDraftsInTypeOrder | lib/geo/knowledgeBlockParser.ts:35-48 | a parse lists all definitions, then explanations, comparisons, examples and conclusions |
| KnowledgeBlocks.KnowledgeBlockParser.Parse | lib/geo/knowledgeBlockParser.ts:28-51 | the counter is reset, the five parts are numbered consecutively as one list, and the counter ends at the number of blocks |
| KnowledgeBlocks.ParseKnowledgeBlocks | lib/geo/knowledgeBlockParser.ts:458-461 | a fresh parser's parse: all drafts numbered from `kb-1` |
| KnowledgeBlocks.EmptyContentNoBlocks | lib/geo/knowledgeBlockParser.ts:28-51 | empty content yields no block, given patterns that match nothing in the empty string |
| KnowledgeBlocks.ExtractTitle | lib/geo/knowledgeBlockParser.ts:369-379 | the title is the trimmed first sentence (or the whole text when there is none) when it fits `maxLength`, otherwise its first `maxLength` characters followed by `...` |
| KnowledgeBlocks.ScanBack | lib/geo/knowledgeBlockParser.ts:343-347 | the backward loop stops at the specified start |
| KnowledgeBlocks.OneCharNeverOpensBlock | lib/geo/knowledgeBlockParser.ts:344 | a one-character substring never matches `<p`, `<div` or `<section`, so the backward scan only stops on the size bound or at 0 |
| KnowledgeBlocks.ScanForward | lib/geo/knowledgeBlockParser.ts:350-354 | the forward loop stops at the specified end: a '>', the end of the text, or past the size bound |
| KnowledgeBlocks.FirstClosingTag | lib/geo/knowledgeBlockParser.ts:357 | the search finds the first closing `p`, `div` or `section` tag after the scan, or reports there is none |
| KnowledgeBlocks.ClosingTagText | lib/geo/knowledgeBlockParser.ts:357-360 | a found closing tag lies within the text and is one of the three tags |
| KnowledgeBlocks.ExtractSurroundingContext | lib/geo/knowledgeBlockParser.ts:337-363 | the method returns exactly the specified surrounding context |
| KnowledgeBlocks.SurroundingContextBounds | lib/geo/knowledgeBlockParser.ts:337-363 | the context is a slice of the text around the match, starting at most 501 characters before it |
| KnowledgeBlocks.SurroundingContextClosed | lib/geo/knowledgeBlockParser.ts:357-360 | when a closing tag follows the scan, the context ends with that tag |
| QAGenerator.MergeConfigKeys | lib/geo/qaGenerator.ts:68-70 | each given option overrides its default and each absent one keeps it (10 pairs, every category on) |
| QAGenerator.Generator.constructor | lib/geo/qaGenerator.ts:68-70 | the generator's configuration is the defaults merged with the overrides |
| QAGenerator.ExtractConcepts | lib/geo/qaGenerator.ts:234-246 | the related concepts are the title followed by the keywords in order |
| QAGenerator.DefinitionQuestions | lib/geo/qaGenerator.ts:119-150 | no summary gives no pair; otherwise "what is" answered by `whatIs`, plus "why" when `whyImportant` is non-empty, all of category definition |
| QAGenerator.ApplicationQuestions | lib/geo/qaGenerator.ts:175-204 | no summary or no use case gives no pair; otherwise two application pairs whose answers join the use cases |
| QAGenerator.RemoveNonEmptyTags | lib/geo/qaGenerator.ts:337 | removing tags never lengthens the text |
| QAGenerator.RemoveNonEmptyTagsOfPlainText | lib/geo/qaGenerator.ts:337 | text without `<` is left unchanged by the tag removal |
| QAGenerator.SurroundingText | lib/geo/qaGenerator.ts:326-340 | the explanation is at most 200 characters long |
| QAGenerator.SurroundingTextOfPlainText | lib/geo/qaGenerator.ts:331-334 | in text without tags, the explanation is the trimmed window of up to 100 characters on either side of the match |
| QAGenerator.Comparisons | lib/geo/qaGenerator.ts:253-292 | one comparison per match of the first pattern, then one per match of the second |
| QAGenerator.ComparisonsShape | lib/geo/qaGenerator.ts:253-292 | each comparison carries its match's two terms and the surrounding text of the match, at most 200 characters |
| QAGenerator.ExtractComparisons | lib/geo/qaGenerator.ts:253-292 | the two exec loops return exactly the specified comparisons |
| QAGenerator.ComparisonQuestions | lib/geo/qaGenerator.ts:152-173 | one comparison question per comparison found |
| QAGenerator.ComparisonQuestionsShape | lib/geo/qaGenerator.ts:152-173 | each question asks for the difference of the two terms, relates exactly them, and is answered by the surrounding text |
| QAGenerator.GenerateComparisonQuestions | lib/geo/qaGenerator.ts:152-173 | the loop returns exactly the specified comparison questions |
| QAGenerator.Sentences | lib/geo/qaGenerator.ts:308-309 | the pieces the limitation regex can match are whole sentences ending in a Chinese mark |
| QAGenerator.SentencesWith | lib/geo/qaGenerator.ts:308-309 | exactly the sentences that mention the keyword |
| QAGenerator.LimitationsShape | lib/geo/qaGenerator.ts:294-321 | at most five distinct limitations, each a trimmed sentence mentioning a keyword; with at most five distinct candidates none is lost |
| QAGenerator.ExtractLimitations | lib/geo/qaGenerator.ts:294-321 | the keyword loop, de-duplication and cut return exactly the specified limitations |
| QAGenerator.LimitationQuestions | lib/geo/qaGenerator.ts:206-232 | no limitation gives no pair; otherwise two limitation pairs, the first answered by the joined limitations |
| QAGenerator.CalculateCoverage | lib/geo/qaGenerator.ts:345-352 | each coverage flag holds iff some pair has that category |
| QAGenerator.AllPairsInCategoryOrder | lib/geo/qaGenerator.ts:81-99 | before the cut, pairs come in the order definition, comparison, application, limitation |
| QAGenerator.AllPairsCategories | lib/geo/qaGenerator.ts:81-99 | a category appears iff it is enabled and its generator found something; without a summary there is no definition or application pair |
| QAGenerator.MatrixShape | lib/geo/qaGenerator.ts:78-110 | the matrix names the article, keeps at most `maxQAPairs` ordered pairs, never shows a disabled category, and keeps all pairs when they fit |
| QAGenerator.Generator.GenerateFromArticle | lib/geo/qaGenerator.ts:78-110 | the method returns exactly the specified matrix for its configuration |
| QAGenerator.GenerateQA | lib/geo/qaGenerator.ts:362-368 | a generator built from the overrides, applied to the article |
| SchemaGenerator.IsValidISO8601 | lib/geo/schemaGenerator.ts:457-467 | every bare `YYYY-MM-DD` is accepted; an accepted string starts with a calendar date and is a bare date or has a time of day, and its length is one of the seven the pattern allows (10, 19, 20, 23, 24, 25, 29) |
| SchemaGenerator.EnsureISO8601 | lib/geo/schemaGenerator.ts:426-450 | a string with a date-and-time prefix is kept, a bare `YYYY-MM-DD` gets `T00:00:00Z`, anything else goes through the date parser and is kept when the parser rejects it |
| SchemaGenerator.DateOnlyNormalised | lib/geo/schemaGenerator.ts:433-435 | a bare date becomes a date and time that passes `isValidISO8601` and that a second normalisation leaves unchanged |
| SchemaGenerator.NormalisedYetInvalid | lib/geo/schemaGenerator.ts:428-467 | `2024-01-15T10:30:00 UTC` passes normalisation unchanged yet fails the ISO 8601 check |
| SchemaGenerator.KeywordList | lib/geo/schemaGenerator.ts:182 | one trimmed keyword per comma-separated piece |
| SchemaGenerator.KeywordMentions | lib/geo/schemaGenerator.ts:182-186 | the fallback mentions are the first five trimmed keywords, each a `Thing` |
| SchemaGenerator.About | lib/geo/schemaGenerator.ts:150-167 | one defined term per core concept; else the summary's `whatIs` as the title's definition; else absent |
| SchemaGenerator.Teaches | lib/geo/schemaGenerator.ts:170-172 | `teaches` is the summary's key takeaways, present exactly when there is a summary |
| SchemaGenerator.IsPartOf | lib/geo/schemaGenerator.ts:190-195 | `isPartOf` is present iff a non-empty series name is given, and then names it |
| SchemaGenerator.Mentions | lib/geo/schemaGenerator.ts:175-187 | `mentions` is always present: the given technologies as applications, else the keyword fallback |
| SchemaGenerator.MainEntity | lib/geo/schemaGenerator.ts:198-207 | one Question per Q&A pair in order, named by the question and answered by the answer; absent without pairs |
| SchemaGenerator.BaseSchema | lib/geo/schemaGenerator.ts:104-147 | the base object: headline, description, hero image URL, normalised dates (modified defaults to published), author, language tag, and no GEO field yet |
| SchemaGenerator.GenerateEnhancedSchema | lib/geo/schemaGenerator.ts:84-210 | the base object with exactly the five GEO fields assigned and nothing else changed |
| SchemaGenerator.ExtractCoreConcepts | lib/geo/schemaGenerator.ts:222-244 | a concept is present iff there is a summary with a non-empty `whatIs` and a non-empty keyword string, and then it is the single concept named by the first trimmed keyword and defined by `whatIs`; otherwise nothing |
| SchemaGenerator.DetermineArticleSeries | lib/geo/schemaGenerator.ts:321-336 | a series exactly for the five mapped categories, and none for any other |
| SchemaGenerator.SeriesSharedAcrossLanguages | lib/geo/schemaGenerator.ts:327-333 | the Chinese and English names of one category map to the same series, and security and technology map to different ones |
| SchemaGenerator.TechsIn | lib/geo/schemaGenerator.ts:290-306 | exactly the known technologies a text names, in list order |
| SchemaGenerator.AddTechsNamedIn | lib/geo/schemaGenerator.ts:291-295 | the inner loop adds to the set exactly the technologies the text names |
| SchemaGenerator.AddTechsNamedInAll | lib/geo/schemaGenerator.ts:290-306 | the outer loop adds what each text names, keeping the set's insertion order |
| SchemaGenerator.CollectTechs | lib/geo/schemaGenerator.ts:282-309 | the keyword scan then the use-case scan yield the de-duplicated technologies in insertion order |
| SchemaGenerator.ExtractMentionedTechnologies | lib/geo/schemaGenerator.ts:256-310 | the method returns exactly the specified technology list |
| SchemaGenerator.MentionedTechnologiesIff | lib/geo/schemaGenerator.ts:256-310 | no technology twice, only known ones, and exactly those a keyword names ignoring case or a use case names exactly |
| SchemaGenerator.ValidateEnhancedSchema | lib/geo/schemaGenerator.ts:369-418 | the schema is valid iff every message raised starts with "Warning" |
| SchemaGenerator.ValidIff | lib/geo/schemaGenerator.ts:376-400 | valid iff headline, description, author and publication date are present and every present date passes the ISO 8601 check; the GEO fields only warn |
| SchemaGenerator.GeneratedDatesValid | lib/geo/schemaGenerator.ts:369-418 | a generated schema with a non-empty title and description and a bare publication date passes validation |
| ValidateSchema.ValidateJsonLdFormat | scripts/validate-schema.ts:82-121 | a non-object is invalid with exactly one error; an object is invalid iff `@context` is missing or `@type` is missing or not a blog type; `valid` iff no error |
| ValidateSchema.MissingFieldErrors | scripts/validate-schema.ts:130-134 | at most one missing-field error per listed field |
| ValidateSchema.PushMissingFields | scripts/validate-schema.ts:130-134 | the loop over the required fields pushes exactly the specified errors |
| ValidateSchema.MissingFieldErrorsIff | scripts/validate-schema.ts:130-134 | the error for a field is present iff the field is listed and the schema lacks it or holds a falsy value, and every error is such an error |
| ValidateSchema.MissingFieldErrorsCount | scripts/validate-schema.ts:130-134 | there are exactly as many missing-field errors as missing fields |
| ValidateSchema.ValidateRequiredFields | scripts/validate-schema.ts:126-171 | the method returns exactly the specified required-field report (missing fields, author and publisher checks, image warning) |
| ValidateSchema.RequiredFieldsReported | scripts/validate-schema.ts:126-134 | a field is named missing iff it is one of the five required fields and the schema lacks it |
| ValidateSchema.DateFieldErrors | scripts/validate-schema.ts:183-203 | a present date raises no error iff it matches the ISO 8601 pattern and parses |
| ValidateSchema.ValidateDateFormats | scripts/validate-schema.ts:176-219 | valid iff every present date matches the pattern and parses; the only warning is a modification date before the publication date |
| ValidateSchema.ItemsReportThrowsIff | scripts/validate-schema.ts:232-270 | a `forEach` over a list throws exactly when one of its elements is `null` |
| ValidateSchema.ItemsReportFails | scripts/validate-schema.ts:232-270 | a throw on some prefix of the list is a throw for the whole list |
| ValidateSchema.ItemsReportHas | scripts/validate-schema.ts:232-270 | without a throw, every error for one element appears in the list's errors |
| ValidateSchema.CheckEach | scripts/validate-schema.ts:232-287 | the `forEach` loop returns exactly the specified per-element report or the throw |
| ValidateSchema.ListFieldReport | scripts/validate-schema.ts:229-288 | a missing or empty list field gives its one warning; an array gives the per-element messages; any other truthy value throws |
| ValidateSchema.CheckListField | scripts/validate-schema.ts:229-288 | the method returns exactly the specified list-field report |
| ValidateSchema.GeoResult | scripts/validate-schema.ts:224-310 | the GEO check throws exactly when one of the three element loops throws, and otherwise keeps every `mainEntity` error |
| ValidateSchema.ValidateGeoEnhancements | scripts/validate-schema.ts:224-310 | the method returns exactly the specified GEO report |
| ValidateSchema.MissingAnswerReported | scripts/validate-schema.ts:277-278 | a `mainEntity` item without an accepted answer yields an error naming its index |
| ValidateSchema.StrictRendering | scripts/validate-schema.ts:350 | the strict text is the warning's text behind `[STRICT] ` |
| ValidateSchema.Strictly | scripts/validate-schema.ts:349-352 | strict mode moves every warning into the errors behind `[STRICT] ` and leaves no warning; otherwise nothing changes |
| ValidateSchema.SchemaOutcome | scripts/validate-schema.ts:315-359 | a completed result is valid iff its error list is empty |
| ValidateSchema.ValidateSchemaMethod | scripts/validate-schema.ts:315-359 | the method returns exactly the specified outcome |
| ValidateSchema.NoTypeStopsAfterFormat | scripts/validate-schema.ts:325-331 | without `@type` the result is invalid and holds only the format check's messages |
| ValidateSchema.StrictMovesWarnings | scripts/validate-schema.ts:349-352 | in strict mode a completed result has no warnings, and its errors are the normal errors followed by each normal warning marked `[STRICT] ` |
| ValidateSchema.NullInputThrows | scripts/validate-schema.ts:325 | a `null` input is rejected by the format check but then throws when `@type` is read from it |
| ValidateSchema.GuardedNonObjectRejected | scripts/validate-schema.ts:87-90 | with the guard, every non-object input is rejected with exactly the one format error and never throws |
| MultilingualParity.MappingIsInvolution | scripts/check-multilingual-parity.ts:32-57 | every mapped id is itself a key of the table and maps back to the original id |
| MultilingualParity.PartnerOf | scripts/check-multilingual-parity.ts:152-160 | a Chinese id pairs with the same English id when it exists, otherwise with its non-empty mapped id when that exists, else with nothing |
| MultilingualParity.PairingSoundAndComplete | scripts/check-multilingual-parity.ts:150-161 | every pair joins a Chinese id to its chosen partner, every Chinese id with a partner is paired, and there are at most as many pairs as Chinese ids |
| MultilingualParity.PairArticles | scripts/check-multilingual-parity.ts:150-161 | the pairing loop returns exactly the specified pairs |
| MultilingualParity.AnalyzeArticle | scripts/check-multilingual-parity.ts:254-296 | each flag reflects a present, non-empty field; `qaCount` is the pair count or 0 and `hasQA` iff it is positive; the block count is the length of the parser's result |
| MultilingualParity.MissingSide | scripts/check-multilingual-parity.ts:306-319 | a locale is blamed exactly when one side lacks what the other has, and it is the lacking side |
| MultilingualParity.SummaryIssues | scripts/check-multilingual-parity.ts:306-392 | summary issues are all of type `missing_ai_summary`; a one-sided summary gives exactly the one critical issue for the missing locale |
| MultilingualParity.AllFieldIssues | scripts/check-multilingual-parity.ts:320-392 | the field checks raise at most four field-level summary issues |
| MultilingualParity.PushFieldIssue | scripts/check-multilingual-parity.ts:325-340 | one field's two pushes append exactly that field's issues |
| MultilingualParity.QAIssues | scripts/check-multilingual-parity.ts:395-427 | at most one Q&A issue, of type `missing_qa` |
| MultilingualParity.CitationIssues | scripts/check-multilingual-parity.ts:430-446 | one medium citation issue exactly when one side has citations and the other does not |
| MultilingualParity.ContentIssues | scripts/check-multilingual-parity.ts:449-463 | one critical content issue exactly when one side has content and the other does not |
| MultilingualParity.BlockIssues | scripts/check-multilingual-parity.ts:466-485 | at most one medium knowledge-block issue |
| MultilingualParity.PushSummaryIssues | scripts/check-multilingual-parity.ts:306-392 | appends exactly the summary issues |
| MultilingualParity.PushFieldIssues | scripts/check-multilingual-parity.ts:320-392 | appends exactly the four fields' issues |
| MultilingualParity.PushQAIssues | scripts/check-multilingual-parity.ts:395-427 | appends exactly the Q&A issues |
| MultilingualParity.PushCitationIssues | scripts/check-multilingual-parity.ts:430-446 | appends exactly the citation issues |
| MultilingualParity.PushContentIssues | scripts/check-multilingual-parity.ts:449-463 | appends exactly the content issues |
| MultilingualParity.PushBlockIssues | scripts/check-multilingual-parity.ts:466-485 | appends exactly the block issues |
| MultilingualParity.CompareArticles | scripts/check-multilingual-parity.ts:298-488 | the five checks push exactly the specified parity issues, in order |
| MultilingualParity.IdenticalMetricsHaveParity | scripts/check-multilingual-parity.ts:298-488 | comparing identical metrics yields no issue |
| MultilingualParity.OneSidedSummary | scripts/check-multilingual-parity.ts:306-319 | a summary on one side only gives, first, the critical issue for the missing locale and no other summary issue |
| MultilingualParity.PartsOfParityIssues | scripts/check-multilingual-parity.ts:298-488 | each check raises only its own issue types |
| MultilingualParity.QACountMismatchIff | scripts/check-multilingual-parity.ts:411-426 | the Q&A count issue is raised iff both sides have Q&A and 100 times the difference exceeds 20 times the larger count |
| MultilingualParity.BlockMismatchIff | scripts/check-multilingual-parity.ts:466-484 | the block issue is raised iff both sides have content and the difference exceeds 70% of the larger count; it is last and blames the side with fewer blocks |
| MultilingualParity.ArticleReportOf | scripts/check-multilingual-parity.ts:200-218 | a report holds the comparison's issues and has parity iff there are none |
| MultilingualParity.ComparePair | scripts/check-multilingual-parity.ts:192-218 | analysing both versions of one pair and comparing them yields exactly that pair's specified report |
| MultilingualParity.CompareSelected | scripts/check-multilingual-parity.ts:186-224 | the report loop skips the pairs the article option excludes and reports every other pair, in pair order, as specified |
| MultilingualParity.ReportsHaveParityFlags | scripts/check-multilingual-parity.ts:186-224 | every report has parity iff it has no issue, and there are at most as many reports as pairs |
| MultilingualParity.ParityCountBounds | scripts/check-multilingual-parity.ts:229-232 | the parity count never exceeds the article count, and equals it iff there is no issue at all |
| MultilingualParity.ParityRateBounds | scripts/check-multilingual-parity.ts:231-241 | the rate in tenths of a percent lies in [0, 1000], is 1000 when every article has parity and 0 when none has |
| MultilingualParity.TallyIssues | scripts/check-multilingual-parity.ts:530-538 | the counting loops tally each issue type and each locale exactly |
| MultilingualParity.KindRecommendations | scripts/check-multilingual-parity.ts:541-569 | the per-type lines only address issue types |
| MultilingualParity.PushKindRecommendations | scripts/check-multilingual-parity.ts:541-569 | the five pushes, read off the tallies, give exactly the per-type lines |
| MultilingualParity.GenerateRecommendations | scripts/check-multilingual-parity.ts:526-591 | the method returns exactly the specified recommendations |
| MultilingualParity.KindRecommended | scripts/check-multilingual-parity.ts:541-569 | a line for an issue type appears iff some issue has that type, and it carries the type's count |
| MultilingualParity.FocusRecommended | scripts/check-multilingual-parity.ts:583-588 | the focus line appears iff some article lacks parity, and it names exactly those articles in order |
| MultilingualParity.NoReportsNoRecommendations | scripts/check-multilingual-parity.ts:163-176 | with no reports there is nothing to recommend, so the early return agrees with the general path |
| MultilingualParity.PairingCovers | scripts/check-multilingual-parity.ts:152-193 | every pair names an article present in each locale |
| MultilingualParity.ParityCheckSummary | scripts/check-multilingual-parity.ts:229-247 | at most one article per Chinese id, parity count within the total, parity for all iff no issues, rate within [0, 1000] tenths |
| MultilingualParity.CheckMultilingualParity | scripts/check-multilingual-parity.ts:138-248 | the pairing and report loops return exactly the specified parity report |
| ArticleCreatorV2.ZhSlug | scripts/ai-create-article-v2.ts:221-229 | the Chinese slug has at most 50 characters, all CJK, a-z, 0-9 or '-', and never starts with '-' |
| ArticleCreatorV2.GenerateSlug | scripts/ai-create-article-v2.ts:220-238 | a slug has at most 50 characters and never starts with '-'; an English slug holds only a-z, 0-9 and '-' |
| ArticleCreatorV2.EnSlugOfSlug | scripts/ai-create-article-v2.ts:232-236 | an English title that is already a slug of at most 50 characters is its own slug |
| ArticleCreatorV2.CategoryValuesAreKeys | scripts/ai-create-article-v2.ts:621-633 | every category the table yields is lower case and maps to itself |
| ArticleCreatorV2.MapCategoryToEnglish | scripts/ai-create-article-v2.ts:620-636 | the key is lower case; a key the table knows maps to itself; an unknown category is returned lower-cased |
| ArticleCreatorV2.CategoryKeyLowerIdempotent | scripts/ai-create-article-v2.ts:620-636 | the category key is lower case, and mapping it again changes nothing |
| ArticleCreatorV2.SplitOnSpaceRuns | scripts/ai-create-article-v2.ts:587 | splitting on white-space runs always yields at least one piece |
| ArticleCreatorV2.WordCount | scripts/ai-create-article-v2.ts:587 | the word count is at least 1, even for empty content |
| ArticleCreatorV2.ReadTimeIsCeiling | scripts/ai-create-article-v2.ts:588 | the read time is the word count over 200 rounded up, and never below 1 |
| ArticleCreatorV2.ReadTime | scripts/ai-create-article-v2.ts:588 | the saved read time is never "0" |
| ArticleCreatorV2.CreateArticleObject | scripts/ai-create-article-v2.ts:579-615 | the entry keeps title, content, summary and citations, saves Q&A pairs with `relatedConcepts` emptied, has a biography iff the author is Seal Wax, maps the category and joins the keywords |
| ArticleCreatorV2.QuotedEntry | scripts/ai-create-article-v2.ts:740 | a matched entry is non-empty and holds no quote |
| ArticleCreatorV2.ParseArrayEntries | scripts/ai-create-article-v2.ts:733-747 | the loop over the lines returns exactly the specified quoted entries |
| ArticleCreatorV2.EntryLines | scripts/ai-create-article-v2.ts:750-755 | one rebuilt line per entry, each the indented quoted entry with its comma and comment |
| ArticleCreatorV2.RebuildThenParse | scripts/ai-create-article-v2.ts:733-757 | parsing a rebuilt array gives back its entries |
| ArticleCreatorV2.RemoveDuplicateHeaders | scripts/ai-create-article-v2.ts:322-374 | the nested loops return exactly the specified de-duplicated content |
| ArticleCreatorV2.KeptAreSubsequence | scripts/ai-create-article-v2.ts:330-369 | the kept lines are the lines at increasing kept positions, and every kept position appears |
| ArticleCreatorV2.AnchorOrigin | scripts/ai-create-article-v2.ts:336-363 | the header being compared against comes from an earlier kept header with only blank or dropped lines since |
| ArticleCreatorV2.OnlyRepeatedHeadersDropped | scripts/ai-create-article-v2.ts:330-369 | the output is an order-preserving subsequence, and only `<h2>` headers equal to the preceding header, separated by blank or dropped lines, are dropped |
| ArticleCreatorV2.RepeatedHeaderDropped | scripts/ai-create-article-v2.ts:342-359 | a header repeated after a blank line is dropped and the blank line stays |
| ArticleCreatorV2.NoHeadersNoChange | scripts/ai-create-article-v2.ts:364-368 | lines without headers are all kept |
| ArticleCreatorV2.HeaderFreeUnchanged | scripts/ai-create-article-v2.ts:322-374 | content without `<h2>` headers comes back unchanged |
| ArticleCreatorV2.SplitEnSentences | scripts/ai-create-article-v2.ts:450 | splitting English text at '.', white space and a capital always yields at least one piece |
| ArticleCreatorV2.PackSentences | scripts/ai-create-article-v2.ts:452-479 | the packing loop returns exactly the specified paragraphs |
| ArticleCreatorV2.PackedParagraphsBounded | scripts/ai-create-article-v2.ts:461-479 | every paragraph pushed wraps a packed text that fits the 280-character limit, unless it is one longer sentence |
| ArticleCreatorV2.SplitLongParagraphs | scripts/ai-create-article-v2.ts:432-487 | the loop over the `</p>` chunks returns exactly the specified split content |
| ArticleCreatorV2.SplitChunk | scripts/ai-create-article-v2.ts:439-482 | one `</p>` chunk becomes exactly its specified pieces: kept as is without `<p>`, re-closed when short, repacked into sentence paragraphs when over 300 characters |
| ArticleCreatorV2.ShortChunkRestored | scripts/ai-create-article-v2.ts:439-482 | a chunk with `<p>` and at most 300 characters of text is re-emitted with `</p>` restored; a chunk without `<p>` is re-emitted as is |
| ArticleCreatorV2.Restored | scripts/ai-create-article-v2.ts:435-481 | every chunk but the last gets its `</p>` back |
| ArticleCreatorV2.ShortParagraphsUnchanged | scripts/ai-create-article-v2.ts:432-487 | content whose paragraphs are all short comes back unchanged |
| ArticleText.ReplaceRuns | scripts/ai-create-article-v2.ts:234 | each run of replaced characters becomes one '-', and the result is no longer than the input |
| ArticleText.ReplaceRunsNoDoubleDash | scripts/ai-create-article-v2.ts:234 | when '-' is itself replaced, no "--" remains |
| ArticleText.StripDash | scripts/ai-create-article-v2.ts:235 | one leading and one trailing '-' are removed; without "--" the result does not start with '-' |
| ArticleText.FinishSlug | scripts/ai-create-article-v2.ts:235-236 | at most 50 characters, all taken from the input |
| ArticleText.SlugOf | scripts/ai-create-article-v2.ts:232-236 | at most 50 characters, none of the replaced class but '-', never starting with '-' |
| ArticleText.SkipSpaces | scripts/ai-create-article-v2.ts:309 | the first non-space position at or after the start |
| ArticleText.SectionOf | scripts/ai-create-article-v2.ts:309-311 | a line is a section exactly when it matches `^##\s+(.+)$`, and the section is the line after "##", trimmed |
| ArticleText.ExtractSections | scripts/ai-create-article-v2.ts:304-316 | the loop over the outline's lines returns exactly the sections of the "##" lines, in order |
| ArticleText.SectionsAreHeadings | scripts/ai-create-article.ts:226-239 | every section is the trimmed rest of some "##" line of the outline, hence itself trimmed, and there are no more sections than lines |
| ArticleText.SubheadingIgnored | scripts/ai-create-article.ts:232 | a `###` line is never a section |
| ArticleText.PlainHeadingIsSection | scripts/ai-create-article.ts:232-234 | a line "## T" with a non-blank title is a section, namely the title trimmed |
| ArticleCreator.ArticleId | scripts/ai-create-article.ts:156-160 | the id has at most 50 characters, all a-z, 0-9, U+4E00–U+9FA5 or '-', and never starts with '-' |
| ArticleCreator.ReplaceRunsAgree | scripts/ai-create-article.ts:158 | replacing runs of two classes that agree on a string gives the same result |
| ArticleCreator.IdOfEnglishTitle | scripts/ai-create-article.ts:156-160 | for a title without Chinese characters the id is the English slug of the second script |
| ArticleCreator.Keywords | scripts/ai-create-article.ts:152 | one trimmed keyword per comma-separated piece, none holding a comma |
| ArticleCreator.CollectBasicInfo | scripts/ai-create-article.ts:145-165 | the config holds the slugged id, the title, the locale or "zh", the keywords and the author or "Seal Wax" |
| ArticleCreator.ArticleEntryOf | scripts/ai-create-article.ts:342-361 | the entry keeps title, content and summary, describes with `whatIs`, saves Q&A pairs with `relatedConcepts` emptied, has a biography iff the author is Seal Wax, and points at the hero image |
| ArticleCreator.MessagesFile.Empty | scripts/ai-create-article.ts:365 | a missing message file loads as an empty object |
| ArticleCreator.MessagesFile.SaveArticle | scripts/ai-create-article.ts:372-375 | `blog` and `blog.articles` are created when missing and the entry is stored under the id |
| ArticleCreator.SavedEntryStored | scripts/ai-create-article.ts:372-375 | after saving, the id holds the new entry, every other stored article is unchanged, and the keys grow by the id only |
| Hreflang.CleanPath | lib/geo/hreflang.ts:31 | a path that starts with `/` loses exactly that one slash; any other path is kept as it is |
| Hreflang.GetPut | lib/geo/hreflang.ts:40 | assigning a key of the alternates object makes that key read back the new URL and leaves every other key's value unchanged (a later locale with the same tag overwrites an earlier one) |
| Hreflang.GenerateHreflangAlternates | lib/geo/hreflang.ts:27-50 | the loop over the locales followed by the optional `x-default` entry builds exactly the alternates record of the configuration, and that record never holds a language tag twice |
| Hreflang.AlternatesDistinct | lib/geo/hreflang.ts:34-47 | the alternates object has at most one URL per language tag, whatever locales are configured |
| Hreflang.AlternatesLookup | lib/geo/hreflang.ts:37-47 | each language tag maps to the URL of the last configured locale with that tag; `x-default` is present exactly when `includeDefault` holds, and then points at the first locale's canonical URL (`zh` when the list is empty) |
| Hreflang.DefaultAlternatesAreCanonical | lib/geo/hreflang.ts:28-47 | with the default configuration, `zh-CN` and `x-default` give the Chinese canonical URL and `en-US` the English one |
| Hreflang.GenerateCanonicalUrl | lib/geo/hreflang.ts:59-62 | the canonical URL starts with the site's base URL followed by `/` and the locale, and is exactly that when the cleaned path is empty |
| Hreflang.CanonicalIsAlternate | lib/geo/hreflang.ts:37-62 | for a configured locale whose tag no other locale shares, the alternate emitted under its tag is its canonical URL |
| Hreflang.LeadingSlashIrrelevant | lib/geo/hreflang.ts:31 | a path with a leading slash produces the same alternates as the path without it |
| Hreflang.GenerateHreflangLinks | lib/geo/hreflang.ts:71-97 | one link per configured locale in configuration order, tagged with its language code and pointing at its canonical URL, then, when `includeDefault` holds, one `x-default` link to the default locale's canonical URL, and nothing else |
| Hreflang.Authority | lib/geo/hreflang.ts:107 | the authority read from an absolute URL is a prefix of the text after the scheme |
| Hreflang.ValidateHreflangCode | lib/geo/hreflang.ts:121-125 | every tag the generator assigns to a locale and `x-default` are accepted, and an accepted code is `x-default` or a `zh`/`en` tag |
| Hreflang.ValidateHreflangUrl | lib/geo/hreflang.ts:105-113 | an accepted URL starts with `https://` in any case and is long enough to carry the site's host after it |
| Hreflang.EmittedCodesAreValid | lib/geo/hreflang.ts:37-47 | every language tag the alternates can carry, `x-default` included, is accepted by the language code check |
| Hreflang.SiteUrlsAreValid | lib/geo/hreflang.ts:105-113 | every URL below the site's base URL passes the URL check (HTTPS scheme and the site's host name) |
| Hreflang.LocaleUrlsAreValid | lib/geo/hreflang.ts:105-113 | every per-locale URL passes the URL check and starts with the base URL and `/` |
| ValidateHreflang.CheckAlternates | scripts/validate-hreflang.ts:38-73 | the checks on the three required tags, the loop over the entries and the identical-URL check collect exactly the page's issue list, in order |
| ValidateHreflang.CheckMissing | scripts/validate-hreflang.ts:39-50 | the three presence checks report exactly the missing x-default, zh-CN and en-US tags, in that order |
| ValidateHreflang.CheckAllEntries | scripts/validate-hreflang.ts:53-68 | the loop over the entries appends exactly the code, format and base-URL issues of each entry, entry after entry |
| ValidateHreflang.CheckEntry | scripts/validate-hreflang.ts:53-68 | one entry appends exactly its own code, URL and base-prefix issues to the issues found so far |
| ValidateHreflang.ValidatePage | scripts/validate-hreflang.ts:32-80 | the result names the page, lists the issues of the page's default alternates, and passes exactly when that list is empty |
| ValidateHreflang.MissingTagsEachAddOneIssue | scripts/validate-hreflang.ts:39-50 | each of `x-default`, `zh-CN` and `en-US` that is missing (or empty) adds one issue naming it, and only those add missing-tag issues |
| ValidateHreflang.EntryIssuesIn | scripts/validate-hreflang.ts:53-68 | every issue raised for one entry appears in the issues of the whole entry loop |
| ValidateHreflang.UrlOutsideSiteIsReported | scripts/validate-hreflang.ts:65-67 | an alternate URL that does not start with the base URL and `/` is reported with its URL |
| ValidateHreflang.EntryIssuesStartOtherwise | scripts/validate-hreflang.ts:55-67 | no per-entry issue is empty or can be confused with the identical-URL message |
| ValidateHreflang.IdenticalFlaggedOnlyOffHome | scripts/validate-hreflang.ts:71-73 | the identical-URL issue is raised if and only if the page is not the home page and the `zh-CN` and `en-US` entries are equal |
| ValidateHreflang.DefaultAlternates | scripts/validate-hreflang.ts:36 | the default configuration yields exactly the `zh-CN`, `en-US` and `x-default` entries, in that order, with `x-default` on the Chinese URL |
| ValidateHreflang.DefaultAlternatesPass | scripts/validate-hreflang.ts:32-80 | every page path gives an issue-free result with the default configuration |
| ValidateHreflang.RunValidation | scripts/validate-hreflang.ts:82-119 | over the ten listed pages every page passes, so the passed count is ten, the failed count zero and the exit code 0 |
| SlugMapping.GetMappedSlug | lib/articleSlugMapping.ts:37-44 | a slug without an entry in the table is returned unchanged; a listed slug is replaced by its pair's slug for the target locale |
| SlugMapping.KeysAreTheirOwnSlugs | lib/articleSlugMapping.ts:6-32 | every key of the table is the Chinese or the English slug of its own pair |
| SlugMapping.MappingRoundTrips | lib/articleSlugMapping.ts:6-44 | mapping a listed slug to any locale gives a listed slug, and mapping that back to the slug's own locale restores the original slug |
| SlugMapping.MappedSlugSharesPair | lib/articleSlugMapping.ts:23-44 | the slug a listed slug maps to is listed under the same zh/en pair, so language switching stays within one article |
| MixedFonts.LoadFonts | scripts/draw_text_mixed_fonts.py:27-31 | when both font files load, the CJK and Latin fonts are the two TrueType files at the requested size; otherwise both fall back to the default font |
| MixedFonts.Surface.constructor | scripts/draw_text_mixed_fonts.py:11 | a fresh drawing surface has no glyph drawn on it |
| MixedFonts.Surface.Text | scripts/draw_text_mixed_fonts.py:52 | drawing one character appends exactly that glyph, with its position, font and colour, to what the surface shows |
| MixedFonts.PlacedAppend | scripts/draw_text_mixed_fonts.py:50-54 | drawing one more character places it at the pen position reached by the text before it and moves the pen to its box's right edge plus one |
| MixedFonts.GetTextWidth | scripts/draw_text_mixed_fonts.py:58-72 | the loop returns the measured width of the text: the sum over its characters of the glyph box width measured at the origin plus one |
| MixedFonts.MeasureText | scripts/draw_text_mixed_fonts.py:35-70 | the measuring loop returns the measured width: box width plus one, summed over the characters, each in its own font |
| MixedFonts.DrawGlyphs | scripts/draw_text_mixed_fonts.py:50-56 | the drawing loop appends exactly the placed glyphs of the text to the surface and returns the pen position the layout ends at |
| MixedFonts.MeasuredWidthCons | scripts/draw_text_mixed_fonts.py:66-70 | the measured width of a non-empty text is the first character's advance plus the width of the rest |
| MixedFonts.DrawTextMixed | scripts/draw_text_mixed_fonts.py:11-56 | the surface receives exactly the glyphs of the text laid out from the anchor shifted left by the whole width (right) or its floor half (centre), and the returned x is where the pen stops after the last glyph |
| MixedFonts.FlushAdvanceIsWidth | scripts/draw_text_mixed_fonts.py:36-54 | when every glyph box starts at the drawing origin, the pen moves exactly the measured width, so right-aligned text ends at the anchor |
| MixedFonts.OffsetGlyphAdvanceDiffersFromWidth | scripts/draw_text_mixed_fonts.py:38-54 | with a glyph box that starts one pixel right of the origin, a one-letter text is measured 10 wide but advances the pen 11, so alignment and drawing need not agree |
| MixedFonts.EmptyTextReturnsAnchor | scripts/draw_text_mixed_fonts.py:34-56 | empty text draws nothing and returns the anchor x for every alignment |
| MixedFonts.PlacedFonts | scripts/draw_text_mixed_fonts.py:50-52 | the i-th drawn glyph is the i-th character, on the given row and in the given colour, set in the Latin font exactly when its code point is below 128 and in the CJK font otherwise |
| MixedFonts.PlacedLength | scripts/draw_text_mixed_fonts.py:50-52 | one glyph is drawn per character of the text |
| HtmlText.RemoveTags | lib/geo/contentValidator.ts:497 | removing every `<` … `>` tag never lengthens the text |
| HtmlText.StripHtmlTags | lib/geo/contentValidator.ts:496-498 | the stripped text is never longer than the HTML it comes from |
| HtmlText.StripHtmlTagsIdempotent | lib/geo/contentValidator.ts:496-498 | stripped text holds no tag, and stripping it a second time changes nothing |
| HtmlText.Substring | lib/geo/contentValidator.ts:488 | the clamped, order-insensitive substring is no longer than the string, nor than the requested window when the ends are in order |
| HtmlText.LocationContext | lib/geo/contentValidator.ts:485-491 | the location context is the window around the position between two `...` ellipses, at most six characters longer than the text |
| HtmlText.NextOccurrence | lib/geo/contentValidator.ts:264-282 | a match found by `exec` from `lastIndex` lies at or after that index and inside the text |
| HtmlText.NextOccurrenceLeftmost | lib/geo/contentValidator.ts:264-282 | the search returns a real match of the escaped term under its flags, with no match between the start index and it, and returns none exactly when no match lies at or after the start |
| HtmlText.OccurrencesAreMatches | lib/geo/contentValidator.ts:267-282 | every position the global `exec` loop visits is a match of the term |
| HtmlText.OccurrencesEmptyIff | lib/geo/contentValidator.ts:267-282 | the global search finds nothing if and only if the term matches nowhere at or after the start |
| HtmlText.OccurrencesDisjoint | lib/geo/contentValidator.ts:267-282 | successive matches of a global search never overlap |
| HtmlText.ParagraphAt | lib/geo/contentValidator.ts:167 | a paragraph match starting at an index is the text from that index to just past its closing `</p>` |
| HtmlText.NextParagraph | lib/geo/contentValidator.ts:167-168 | the next paragraph match lies at or after `lastIndex` and inside the content |
| HtmlText.ParagraphMatches | lib/geo/contentValidator.ts:167-168 | every paragraph match of the global loop lies inside the content, after the start index |
| HtmlText.NoParagraphWithoutOpenTag | lib/geo/contentValidator.ts:167-168 | content without any `<p`, in either case, has no paragraph |
| GeoCheck.LocalesToCheck | scripts/geo-check.ts:81-83 | at least one locale is checked, and none twice |
| GeoCheck.LocaleChecked | scripts/geo-check.ts:81-83 | a locale is checked if and only if no locale option is given, the option is `all`, or it names that locale |
| GeoCheck.Stamped | scripts/geo-check.ts:133-136 | every conflict of an article is kept, in order, with its article id set to that article |
| GeoCheck.StampConflicts | scripts/geo-check.ts:132-135 | the loop over an article's conflicts yields them all, in order, each stamped with the article's id |
| GeoCheck.Validator | scripts/geo-check.ts:96-124 | the content validator used by the check returns scores within 0 to 100 and only warnings, and echoes the article id and the AI-summary and Q&A flags it is given, and reports citations whenever they were declared |
| GeoCheck.ValidateArticle | scripts/geo-check.ts:118-124 | an article is validated on its id, its content (empty when missing), the truthiness of its AI summary and whether it has at least one Q&A pair and at least one citation |
| GeoCheck.ArticleReportOf | scripts/geo-check.ts:117-150 | an article's report carries its id, locale, title and quality report; it passes exactly when the score is at least 70 and there is no terminology issue; every issue is stamped with the article's id; there are no issues without a dictionary or content |
| GeoCheck.CheckArticle | scripts/geo-check.ts:117-150 | the per-article step of the loop produces exactly the article's report |
| GeoCheck.AddReport | scripts/geo-check.ts:107-150 | one step of the article loop adds the report of a wanted article (and nothing for one the filter skips), and the collected conflicts stay exactly the terminology issues of the reports so far |
| GeoCheck.CheckLocale | scripts/geo-check.ts:105-151 | the loop over one locale's articles adds exactly that locale's reports, and the collected conflicts stay exactly the terminology issues of all reports |
| GeoCheck.Tenths | scripts/geo-check.ts:179-180 | `Math.round(x * 10) / 10` on a ratio, as an integer count of tenths, is the nearest tenth with halves rounded up, and zero when there is nothing to divide by |
| GeoCheck.TenthsBounds | scripts/geo-check.ts:166-180 | a rounded average of scores between 0 and 100 stays between 0 and 100.0, and a full score rounds to exactly 100.0 |
| GeoCheck.RunGEOCheck | scripts/geo-check.ts:78-193 | the loops over the locales and their articles build exactly the report of the check: the article reports, the stamped conflicts, the summary and the recommendations |
| GeoCheck.LocaleReportsSound | scripts/geo-check.ts:107-150 | every report built for a locale is consistent (pass rule, score range, warnings only, stamped conflicts) and belongs to a checked locale and the requested article |
| GeoCheck.ReportsOverSound | scripts/geo-check.ts:102-162 | every report built over the checked locales is consistent and in scope |
| GeoCheck.ReportedArticlesSound | scripts/geo-check.ts:78-193 | every article in the final report is consistent and is in a checked locale and matches the requested article |
| GeoCheck.LocaleReportsComplete | scripts/geo-check.ts:107-150 | every article of a locale's message file that the article filter keeps gets its report |
| GeoCheck.ReportsOverComplete | scripts/geo-check.ts:102-162 | every kept article of every checked locale gets its report |
| GeoCheck.CheckedArticlesReported | scripts/geo-check.ts:78-193 | the final report contains the report of every article of every checked locale that the article filter keeps |
| GeoCheck.AllIssuesIff | scripts/geo-check.ts:137 | a conflict is among the collected conflicts if and only if it is among some article's terminology issues |
| GeoCheck.ConflictsOfArticles | scripts/geo-check.ts:137-188 | the report's conflict count is the length of its conflict list, which holds exactly the terminology issues of the reported articles, each stamped with a reported article's id |
| GeoCheck.ScoreSumBounds | scripts/geo-check.ts:167 | the sum of scores between 0 and 100 lies between 0 and 100 times the number of articles |
| GeoCheck.PassedCountBounds | scripts/geo-check.ts:169 | the passed count never exceeds the number of articles and equals it exactly when every article passed |
| GeoCheck.SummaryOfBounds | scripts/geo-check.ts:165-182 | both articles counts equal the number of reports; the average score and pass rate lie within 0 to 100.0; the pass rate is exactly 100.0 when all of at least one article pass, below it when one of fewer than 2000 fails, and both are zero with no article |
| GeoCheck.SummaryBounds | scripts/geo-check.ts:165-182 | the summary of a whole check counts its reported articles and keeps the average score and pass rate within 0 to 100.0, with a 100.0 pass rate when every reported article passed |
| GeoCheck.FailingIff | scripts/geo-check.ts:254-294 | an article is listed as failing a metric if and only if it is a reported article that fails it, and the list is non-empty exactly when some article fails |
| GeoCheck.MetricRecommendation | scripts/geo-check.ts:253-319 | every line it yields is an improvement line for the metric asked about |
| GeoCheck.TerminologyRecommendation | scripts/geo-check.ts:283-289 | every line it yields is a terminology line |
| GeoCheck.GlobalRecommendations | scripts/geo-check.ts:247-322 | at most seven recommendations, and none iff there is no conflict and no article fails any of the six metrics |
| GeoCheck.MetricRecommended | scripts/geo-check.ts:253-319 | a recommendation for a metric appears if and only if some article fails that metric, and then it names exactly the failing articles' ids, in report order |
| GeoCheck.TerminologyRecommended | scripts/geo-check.ts:283-289 | the terminology recommendation appears if and only if some conflict was found, and then lists each conflicting term exactly once and nothing else |
| PreBuildValidation.StrictAtLeastAsDemanding | scripts/pre-build-validation.ts:45-57 | the strict gates ask at least as much as the default gates of every figure |
| PreBuildValidation.SharedGates.constructor | scripts/pre-build-validation.ts:45-57 | the script starts with the default and strict gate objects at their declared values |
| PreBuildValidation.SharedGates.Select | scripts/pre-build-validation.ts:68-72 | the selected gate object is returned with the threshold, when given, as its minimum average score, and that same object is overwritten, the other one left alone |
| PreBuildValidation.ThresholdOutlivesRun | scripts/pre-build-validation.ts:68-72 | after one run with threshold 50, a second run in the same process without a threshold still demands an average of 50 and no longer gets the default gates |
| PreBuildValidation.GatesFor | scripts/pre-build-validation.ts:68-72 | the gates of a run are the strict or default gates with only the minimum average score replaced by the threshold when one is given; the critical-issue maximum is always 0 |
| PreBuildValidation.WithAISummary | scripts/pre-build-validation.ts:235-237 | the number of articles with a summary never exceeds the number of articles |
| PreBuildValidation.AISummaryCoverage | scripts/pre-build-validation.ts:230-240 | the coverage is 100% without articles and a percentage between 0 and 100 when the total counts the listed articles |
| PreBuildValidation.CoverageBelowGate | scripts/pre-build-validation.ts:111 | with articles, the coverage is below a gate exactly when 100 times the articles with a summary is below the gate times the number of articles |
| PreBuildValidation.CountCriticalIssues | scripts/pre-build-validation.ts:242-255 | the loop counts exactly the error-severity issues of all articles plus the terminology conflicts found |
| PreBuildValidation.ErrorIssuesZero | scripts/pre-build-validation.ts:245-249 | no error is counted if and only if no article has an issue of error severity |
| PreBuildValidation.CriticalIssuesZero | scripts/pre-build-validation.ts:242-255 | the critical count is zero if and only if no conflict was found and no article has an error-severity issue |
| PreBuildValidation.CriticalIssuesOfCheck | scripts/pre-build-validation.ts:242-255 | on a report produced by the GEO check, whose validator raises only warnings, the critical count is exactly the number of terminology conflicts |
| PreBuildValidation.CountCriticalParityIssues | scripts/pre-build-validation.ts:257-267 | the loop counts exactly the critical-severity parity issues of all articles |
| PreBuildValidation.CriticalParityIssuesZero | scripts/pre-build-validation.ts:257-267 | no critical parity issue is counted if and only if no article has a critical issue |
| PreBuildValidation.CheckGeoGates | scripts/pre-build-validation.ts:99-141 | the three GEO gates add a failure each for coverage below its gate, average score below its gate and critical issues above the maximum, in that order, and pass exactly when none failed |
| PreBuildValidation.CheckParityGates | scripts/pre-build-validation.ts:161-192 | the parity gates add a failure for a parity rate below its gate and one for any critical parity issue, and pass exactly when none failed |
| PreBuildValidation.RunPreBuildValidation | scripts/pre-build-validation.ts:63-224 | the run returns true exactly when both checks completed (or parity was skipped) with no gate failed, and then reports the failures of the gates in order |
| PreBuildValidation.PassesIffGatesMet | scripts/pre-build-validation.ts:63-224 | validation passes if and only if the GEO check completed with coverage, average score and critical issues within the gates, and, unless skipped, the parity check completed with a parity rate at the gate and no critical parity issue |
| PreBuildValidation.StrictPassImpliesDefaultPass | scripts/pre-build-validation.ts:45-72 | whatever the reports and threshold, passing under `--strict` implies passing without it |
| PreBuildValidation.ConflictFailsBuild | scripts/pre-build-validation.ts:133-192 | a terminology conflict, or a critical parity issue when parity is checked, always fails the build |

## Left out

- Regular expressions with open-ended patterns are not executed; their matches are parameters:
  - the Q&A marker, citation and question patterns of the content validator (`ContentValidator.Patterns`);
  - the block patterns of the knowledge-block parser (`KnowledgeBlocks.BlockPatterns`, `Matcher`);
  - the comparison patterns of the Q&A generator (`QAGenerator.ComparisonPatterns`; capture groups are reduced to the matched pieces);
  - the `<h2>` capture of `removeDuplicateHeaders` (`h2`).
- The regular expressions built from escaped literal terms, the paragraph pattern, tag stripping, slugs, the ISO 8601 patterns and the `## ` heading test are modelled concretely.
- `escapeRegex` is not modelled separately: the terms it escapes are searched as literals. `isInQASection` is not modelled: `validate` never calls it.
- `toLowerCase` maps ASCII letters only; Unicode case mapping is not modelled.
- JavaScript `Date` parsing and `toISOString` are parameters (`SchemaGenerator.DateParser`, `ValidateSchema.DateValue`). The clock (`new Date()`, report timestamps) is a string parameter or left out.
- Floating-point figures are exact:
  - averages and rates rounded to one decimal are integer counts of tenths;
  - thresholds are compared by integer cross-multiplication;
  - extractability, locale share and summary coverage are `real`.
  Binary floating-point rounding is not modelled.
- JSON input to the schema validator is a `Json` datatype with integer numbers only.
- A `--threshold` that does not parse as an integer (`NaN` from `parseInt`) is not modelled.
- File, console and network I/O are not modelled. This covers:
  - reading the message files and the terminology dictionary (passed in as values; a missing or unreadable file is `None` or an empty article list);
  - console output, the markdown and JSON report writers, and `process.exit` (returned as an exit code);
  - prompts, the AI client and its generated text.
- The GEO check takes the content validator as a function value (`GeoCheck.Validate`). `GeoCheck.Validator` is the modelled validator, and its soundness is what the GEO lemmas assume.
- Not part of this model, because they are prompt, AI or file-system driven:
  - `cleanContent`, `generateContent`, `addCitations`, the markdown backup and the `update*` helpers of the article creators;
  - the other maintenance scripts, the React components and the framework configuration.
- `validateHreflangUrl` is modelled on the scheme and the host name read from the authority. Percent-decoding, IDNA, IPv6 literals and the rest of URL parsing are not modelled.
- The imaging library's text-box query is the parameter `MixedFonts.GlyphBox`. Loading the font files is a boolean outcome. Colours are integers.
- Option objects: an explicitly `undefined` key in a spread-merged configuration is treated like an absent key.
- The knowledge-block parser's total parse cannot throw, so the `catch` around it in the parity check's `analyzeArticle` is unreachable in the model.
- QAGenerator.MatrixShape: the bound on the number of pairs is stated only for a non-negative `maxQAPairs`. A negative maximum slices from the end as in JavaScript, and only that behaviour is modelled.
- Lengths and offsets count Unicode scalar values (Dafny `char`), whereas the TypeScript sources count UTF-16 code units; text with characters outside the Basic Multilingual Plane (emoji, for one) is measured shorter here. This affects ContentValidator.CheckParagraphLength and the 300-character paragraph rule, ArticleCreatorV2.SplitLongParagraphs and its 280/300 limits, Terminology.DetectLocale's CJK share, the knowledge-block 20/300 length rules and KnowledgeBlocks.ExtractTitle's `maxLength`, and the offsets of KnowledgeBlocks.ExtractSurroundingContext and HtmlText.LocationContext.
- Lookups in plain object literals are modelled on own keys only. In JavaScript a key inherited from `Object.prototype` (such as `constructor`) is also found; SlugMapping.GetMappedSlug, ArticleCreatorV2.MapCategoryToEnglish and the lookups in MultilingualParity.ArticleIdMapping return the input for such keys instead of `undefined` or the inherited function.
- Terminology.ValidateDictionary always returns a result: a `null` dictionary, or a `null` element in its `entries`, throws a `TypeError` in the source when a field is read, and that outcome is not modelled.
- GeoCheck.SummaryOfBounds: a pass rate below 100.0 is promised only for fewer than 2000 articles. With more, one failure rounds to 100.0.

## Findings

| source | as written | input that shows it | evidently intended | confidence | as-written member | corrected member |
|---|---|---|---|---|---|---|
| scripts/validate-schema.ts:87-90,325 | `validateSchema` reads `schema['@type']` even when the format check has just rejected a non-object | `validateSchema(null)`: the format check reports "JSON-LD must be a valid object", then reading `@type` of `null` throws a `TypeError` | a non-object input returns invalid with the single format error | high, not executed | ValidateSchema.NullInputThrows | ValidateSchema.GuardedNonObjectRejected |
| scripts/pre-build-validation.ts:68-72 | `--threshold` assigns into the shared `DEFAULT_QUALITY_GATES` / `STRICT_QUALITY_GATES` object | in one process, a run with threshold 50 and then a run without a threshold: the second still demands an average of 50 | the threshold applies to this run's gates only, and the constants stay as declared | medium, not executed | PreBuildValidation.ThresholdOutlivesRun | PreBuildValidation.GatesFor |
