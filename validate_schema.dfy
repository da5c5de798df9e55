/**
 * The Schema.org validator script: checks a parsed JSON-LD value for format, required
 * fields, ISO 8601 dates and the GEO enhancement fields, and merges the four reports
 * (turning warnings into errors in strict mode).
 *
 * The input is untyped JSON, so the model works on a `Json` value with JavaScript's
 * truthiness and string conversion. Reading a property of `null` and calling `forEach`
 * on something that is not an array throw a TypeError in the script; the model returns
 * `TypeError` in those cases.
 */
module ValidateSchema {
  import opened Util
  import opened GeoTypes
  import SchemaGenerator

  /** A parsed JSON value; numbers are integers in this model. */
  datatype Json = JNull | JBool(b: bool) | JNum(n: int) | JStr(s: string) | JArr(items: seq<Json>)
                | JObj(fields: map<string, Json>)

  /** Each message the validators push, as data; `Render` gives its text. */
  datatype Message =
    | NotAnObject | MissingContext | ContextMismatch(context: Json) | MissingType | InvalidType(kind: Json)
    | MissingId | MissingMainEntityOfPage
    | MissingRequired(field: string)
    | AuthorNotPerson | AuthorWithoutName | AuthorWithoutAuthority
    | PublisherMissing | PublisherNotOrganization | PublisherWithoutName | ImageMissing
    | NotIso8601(field: string, value: Json) | NotADate(field: string, value: Json) | ModifiedBeforePublished
    | AboutMissing | AboutNotDefinedTerm(index: nat) | AboutWithoutName(index: nat) | AboutWithoutDescription(index: nat)
    | TeachesMissing | TeachesNotArray
    | MentionsMissing | MentionWithoutType(index: nat) | MentionWithoutName(index: nat)
    | MainEntityMissing | QuestionNotQuestion(index: nat) | QuestionWithoutName(index: nat)
    | QuestionWithoutAnswer(index: nat) | AnswerNotAnswer(index: nat) | AnswerWithoutText(index: nat)
    | IsPartOfNotSeries | IsPartOfWithoutName | InLanguageMissing
    | Strict(warning: Message)

  /** A validator's result: `valid` with its errors and warnings. */
  datatype Checked = Checked(valid: bool, errors: seq<Message>, warnings: seq<Message>)

  /** What a validator returns, or the TypeError it throws. */
  datatype Outcome = Completed(result: Checked) | TypeError

  /** The errors and warnings one check pushes. */
  datatype Report = Report(errors: seq<Message>, warnings: seq<Message>)

  datatype ValidationConfig = ValidationConfig(strict: bool, slug: Option<string>, locale: Option<Locale>,
                                               verbose: bool)

  /** `new Date(v).getTime()`, or nothing for an Invalid Date. */
  type DateValue = Json -> Option<int>

  // ---------------------------------------------------------------------------
  // JavaScript views of a JSON value

  /** `typeof v === 'object' && v !== null`. */
  predicate IsObject(v: Json) { v.JArr? || v.JObj? }

  /** `v[key]` on a value that is not `null`; nothing stands for `undefined`. Arrays
      and strings answer only `length` among the keys the script reads. */
  function Prop(v: Json, key: string): (r: Option<Json>)
    ensures v.JObj? ==> (r.Some? <==> key in v.fields)
    ensures !v.JObj? && key != "length" ==> r.None?
  {
    match v
    case JObj(fields) => if key in fields then Some(fields[key]) else None
    case JArr(items) => if key == "length" then Some(JNum(|items|)) else None
    case JStr(s) => if key == "length" then Some(JNum(|s|)) else None
    case _ => None
  }

  /** JavaScript truthiness; `undefined` is falsy. */
  predicate Truthy(o: Option<Json>) {
    match o
    case None => false
    case Some(v) =>
      match v
      case JNull => false
      case JBool(b) => b
      case JNum(n) => n != 0
      case JStr(s) => s != ""
      case _ => true
  }

  /** `!v || v.length === 0`: the check every list-valued GEO field starts with. */
  predicate MissingOrEmpty(o: Option<Json>) {
    !Truthy(o) || Prop(o.value, "length") == Some(JNum(0))
  }

  function IntToString(n: int): string {
    if n < 0 then "-" + NatToString(-n) else NatToString(n)
  }

  /** `String(v)`, as a template literal interpolates it; an array joins its
      elements with commas, printing `null` elements as nothing. */
  function Display(v: Json): string {
    match v
    case JNull => "null"
    case JBool(b) => if b then "true" else "false"
    case JNum(n) => IntToString(n)
    case JStr(s) => s
    case JArr(items) =>
      Join(seq(|items|, k requires 0 <= k < |items| => if items[k] == JNull then "" else Display(items[k])), ",")
    case JObj(_) => "[object Object]"
  }

  function Quoted(v: Json): string { "\"" + Display(v) + "\"" }

  function At(field: string, index: nat): string {
    field + "[" + NatToString(index) + "]"
  }

  /** The text of each message. */
  function Render(m: Message): string {
    match m
    case NotAnObject => "JSON-LD must be a valid object"
    case MissingContext => "Missing @context field"
    case ContextMismatch(c) => "@context should be \"https://schema.org\", got " + Quoted(c)
    case MissingType => "Missing @type field"
    case InvalidType(t) => "Invalid @type: " + Quoted(t) + ". Must be one of: BlogPosting, Article"
    case MissingId => "Missing @id field (recommended for unique identification)"
    case MissingMainEntityOfPage => "Missing mainEntityOfPage field (recommended)"
    case MissingRequired(f) => "Missing required field: " + f
    case AuthorNotPerson => "author must have @type: \"Person\""
    case AuthorWithoutName => "author must have a name field"
    case AuthorWithoutAuthority => "author should have description or jobTitle for authority signals"
    case PublisherMissing => "Missing publisher field (recommended)"
    case PublisherNotOrganization => "publisher must have @type: \"Organization\""
    case PublisherWithoutName => "publisher must have a name field"
    case ImageMissing => "Missing image field (recommended for rich results)"
    case NotIso8601(f, v) => f + " is not in valid ISO 8601 format: " + Quoted(v)
    case NotADate(f, v) => f + " is not a valid date: " + Quoted(v)
    case ModifiedBeforePublished => "dateModified is before datePublished (unusual but not invalid)"
    case AboutMissing => "Missing \"about\" field - core concepts should be defined for GEO optimization"
    case AboutNotDefinedTerm(i) => At("about", i) + " must have @type: \"DefinedTerm\""
    case AboutWithoutName(i) => At("about", i) + " must have a name field"
    case AboutWithoutDescription(i) => At("about", i) + " should have a description field"
    case TeachesMissing => "Missing \"teaches\" field - knowledge points should be listed for GEO optimization"
    case TeachesNotArray => "\"teaches\" must be an array of strings"
    case MentionsMissing => "Missing \"mentions\" field - mentioned technologies should be listed for GEO optimization"
    case MentionWithoutType(i) => At("mentions", i) + " must have a @type field"
    case MentionWithoutName(i) => At("mentions", i) + " must have a name field"
    case MainEntityMissing => "Missing \"mainEntity\" field - Q&A structure should be included for GEO optimization"
    case QuestionNotQuestion(i) => At("mainEntity", i) + " must have @type: \"Question\""
    case QuestionWithoutName(i) => At("mainEntity", i) + " must have a name field (the question text)"
    case QuestionWithoutAnswer(i) => At("mainEntity", i) + " must have an acceptedAnswer field"
    case AnswerNotAnswer(i) => At("mainEntity", i) + ".acceptedAnswer must have @type: \"Answer\""
    case AnswerWithoutText(i) => At("mainEntity", i) + ".acceptedAnswer must have a text field"
    case IsPartOfNotSeries => "isPartOf must have @type: \"CreativeWorkSeries\""
    case IsPartOfWithoutName => "isPartOf must have a name field"
    case InLanguageMissing => "Missing \"inLanguage\" field (recommended for multilingual sites)"
    case Strict(w) => "[STRICT] " + Render(w)
  }

  /** The strict-mode text is the warning's text behind the `[STRICT] ` prefix. */
  lemma StrictRendering(w: Message)
    ensures StartsWith(Render(Strict(w)), "[STRICT] ")
    ensures Render(Strict(w))[9..] == Render(w)
  {
    assert Render(Strict(w))[..9] == "[STRICT] ";
  }

  function ResultOf(r: Report): (v: Checked)
    ensures v.valid <==> r.errors == []
    ensures v.errors == r.errors && v.warnings == r.warnings
  {
    Checked(r.errors == [], r.errors, r.warnings)
  }

  function Plus(a: Report, b: Report): Report {
    Report(a.errors + b.errors, a.warnings + b.warnings)
  }

  // ---------------------------------------------------------------------------
  // validateJsonLdFormat

  /** `VALID_TYPES.includes(t)`. */
  predicate IsValidType(t: Option<Json>) {
    t == Some(JStr("BlogPosting")) || t == Some(JStr("Article"))
  }

  function ContextReport(v: Json): Report {
    var context := Prop(v, "@context");
    if !Truthy(context) then Report([MissingContext], [])
    else if context != Some(JStr("https://schema.org")) then Report([], [ContextMismatch(context.value)])
    else Report([], [])
  }

  function TypeErrors(v: Json): (r: seq<Message>)
    ensures r != [] <==> !IsValidType(Prop(v, "@type"))
    ensures !Truthy(Prop(v, "@type")) ==> r == [MissingType]
  {
    var t := Prop(v, "@type");
    if !Truthy(t) then [MissingType]
    else When(!IsValidType(t), InvalidType(t.value))
  }

  function RecommendedWarnings(v: Json): seq<Message> {
    When(!Truthy(Prop(v, "@id")), MissingId) +
    When(!Truthy(Prop(v, "mainEntityOfPage")), MissingMainEntityOfPage)
  }

  /** `validateJsonLdFormat`: a non-object is rejected with one error and nothing else
      is checked; an object is invalid exactly when `@context` is missing or `@type`
      is missing or not one of the two blog types. */
  function ValidateJsonLdFormat(v: Json): (r: Checked)
    ensures r.valid <==> r.errors == []
    ensures !IsObject(v) ==> r == Checked(false, [NotAnObject], [])
    ensures IsObject(v) ==> (r.valid <==> Truthy(Prop(v, "@context")) && IsValidType(Prop(v, "@type")))
    ensures IsObject(v) && !Truthy(Prop(v, "@type")) ==> MissingType in r.errors
  {
    if !IsObject(v) then Checked(false, [NotAnObject], [])
    else
      var context := ContextReport(v);
      ResultOf(Report(context.errors + TypeErrors(v), context.warnings + RecommendedWarnings(v)))
  }

  // ---------------------------------------------------------------------------
  // validateRequiredFields

  const RequiredFields: seq<string> := ["headline", "description", "author", "datePublished", "dateModified"]

  /** One error per field in `fields`, in order, that `schema` lacks or holds a falsy value for. */
  function MissingFieldErrors(schema: Json, fields: seq<string>): (r: seq<Message>)
    ensures |r| <= |fields|
  {
    if fields == [] then []
    else
      var f := fields[|fields| - 1];
      MissingFieldErrors(schema, fields[..|fields| - 1]) + When(!Truthy(Prop(schema, f)), MissingRequired(f))
  }

  /** `author`'s structure: an `@type` of `Person` and a name, a description or job title. */
  function AuthorReport(schema: Json): Report {
    var author := Prop(schema, "author");
    if !Truthy(author) then Report([], [])
    else
      Report(When(Prop(author.value, "@type") != Some(JStr("Person")), AuthorNotPerson) +
             When(!Truthy(Prop(author.value, "name")), AuthorWithoutName),
             When(!Truthy(Prop(author.value, "description")) && !Truthy(Prop(author.value, "jobTitle")),
                  AuthorWithoutAuthority))
  }

  function PublisherReport(schema: Json): Report {
    var publisher := Prop(schema, "publisher");
    if !Truthy(publisher) then Report([], [PublisherMissing])
    else
      Report(When(Prop(publisher.value, "@type") != Some(JStr("Organization")), PublisherNotOrganization) +
             When(!Truthy(Prop(publisher.value, "name")), PublisherWithoutName), [])
  }

  /** What `validateRequiredFields` reports: the missing fields, then the author and
      publisher structure errors; the author, publisher and image warnings. */
  function RequiredFieldsResult(schema: Json): Checked {
    var author := AuthorReport(schema);
    var publisher := PublisherReport(schema);
    ResultOf(Report(MissingFieldErrors(schema, RequiredFields) + author.errors + publisher.errors,
                    author.warnings + publisher.warnings + When(!Truthy(Prop(schema, "image")), ImageMissing)))
  }

  /** The `for (const field of REQUIRED_FIELDS)` loop, over any list of fields. */
  method PushMissingFields(schema: Json, fields: seq<string>) returns (errors: seq<Message>)
    ensures errors == MissingFieldErrors(schema, fields)
  {
    errors := [];
    for i := 0 to |fields|
      invariant errors == MissingFieldErrors(schema, fields[..i])
    {
      assert fields[..i + 1][..i] == fields[..i];
      if !Truthy(Prop(schema, fields[i])) {
        errors := errors + [MissingRequired(fields[i])];
      }
    }
    assert fields[..|fields|] == fields;
  }

  /** `validateRequiredFields`. */
  method ValidateRequiredFields(schema: Json) returns (r: Checked)
    requires schema.JObj?
    ensures r == RequiredFieldsResult(schema)
  {
    var errors := PushMissingFields(schema, RequiredFields);
    var author := AuthorReport(schema);
    var publisher := PublisherReport(schema);
    errors := errors + author.errors + publisher.errors;
    var warnings := author.warnings + publisher.warnings + When(!Truthy(Prop(schema, "image")), ImageMissing);
    r := Checked(errors == [], errors, warnings);
  }

  /** The missing-field error for `f` is there exactly when `f` is one of the fields
      and the schema lacks it, and every error of the loop is such an error. */
  lemma {:induction false} MissingFieldErrorsIff(schema: Json, fields: seq<string>, f: string)
    ensures MissingRequired(f) in MissingFieldErrors(schema, fields) <==> f in fields && !Truthy(Prop(schema, f))
    ensures forall k :: 0 <= k < |MissingFieldErrors(schema, fields)| ==> MissingFieldErrors(schema, fields)[k].MissingRequired?
  {
    if fields != [] {
      var init := fields[..|fields| - 1];
      MissingFieldErrorsIff(schema, init, f);
      assert fields == init + [fields[|fields| - 1]];
    }
  }

  /** `validateRequiredFields` names a field as missing exactly when it is one of the
      five required fields and the schema lacks it or holds a falsy value. */
  lemma RequiredFieldsReported(schema: Json, f: string)
    ensures MissingRequired(f) in RequiredFieldsResult(schema).errors <==> f in RequiredFields && !Truthy(Prop(schema, f))
  {
    MissingFieldErrorsIff(schema, RequiredFields, f);
  }

  /** There are exactly as many missing-field errors as missing fields. */
  lemma {:induction false} MissingFieldErrorsCount(schema: Json, fields: seq<string>)
    ensures |MissingFieldErrors(schema, fields)| == Count(fields, (f: string) => !Truthy(Prop(schema, f)))
  {
    if fields != [] {
      var init := fields[..|fields| - 1];
      var last := fields[|fields| - 1];
      MissingFieldErrorsCount(schema, init);
      CountSnoc(init, last, (f: string) => !Truthy(Prop(schema, f)));
      assert fields == init + [last];
    }
  }

  lemma {:induction false} CountSnoc<T>(s: seq<T>, x: T, p: T -> bool)
    ensures Count(s + [x], p) == Count(s, p) + (if p(x) then 1 else 0)
  {
    if s != [] {
      assert (s + [x])[1..] == s[1..] + [x];
      CountSnoc(s[1..], x, p);
    } else {
      assert (s + [x])[1..] == [];
    }
  }

  // ---------------------------------------------------------------------------
  // validateDateFormats

  /** The format and validity errors for one date field that is present. */
  function DateFieldErrors(name: string, v: Option<Json>, date: DateValue): (r: seq<Message>)
    ensures r == [] <==> !Truthy(v) || (SchemaGenerator.IsValidISO8601(Display(v.value)) && date(v.value).Some?)
  {
    if !Truthy(v) then []
    else
      When(!SchemaGenerator.IsValidISO8601(Display(v.value)), NotIso8601(name, v.value)) +
      When(date(v.value).None?, NotADate(name, v.value))
  }

  /** `modified < published` on two dates; an Invalid Date compares false. */
  predicate Before(modified: Option<int>, published: Option<int>) {
    modified.Some? && published.Some? && modified.value < published.value
  }

  /** `validateDateFormats`: each present date must match the ISO 8601 pattern and
      parse; a modification date before the publication date is only a warning. */
  function ValidateDateFormats(schema: Json, date: DateValue): (r: Checked)
    ensures r.valid <==> r.errors == []
    ensures r.valid <==>
              (Truthy(Prop(schema, "datePublished")) ==>
                 SchemaGenerator.IsValidISO8601(Display(Prop(schema, "datePublished").value)) &&
                 date(Prop(schema, "datePublished").value).Some?) &&
              (Truthy(Prop(schema, "dateModified")) ==>
                 SchemaGenerator.IsValidISO8601(Display(Prop(schema, "dateModified").value)) &&
                 date(Prop(schema, "dateModified").value).Some?)
    ensures r.warnings == [] || r.warnings == [ModifiedBeforePublished]
  {
    var published := Prop(schema, "datePublished");
    var modified := Prop(schema, "dateModified");
    ResultOf(Report(DateFieldErrors("datePublished", published, date) + DateFieldErrors("dateModified", modified, date),
                    When(Truthy(published) && Truthy(modified) && Before(date(modified.value), date(published.value)),
                         ModifiedBeforePublished)))
  }

  // ---------------------------------------------------------------------------
  // validateGeoEnhancements

  /** The messages the `forEach` callback pushes for the element at `index`. */
  type ItemCheck = (nat, Json) -> Report

  /** The `forEach` over a list field: the callback's messages for each element in
      order, or a TypeError at the first `null` element (its properties are read). */
  function ItemsReport(items: seq<Json>, check: ItemCheck): Option<Report> {
    if items == [] then Some(Report([], []))
    else
      var last := items[|items| - 1];
      match ItemsReport(items[..|items| - 1], check)
      case None => None
      case Some(rep) => if last == JNull then None else Some(Plus(rep, check(|items| - 1, last)))
  }

  /** A TypeError in a prefix is a TypeError for the whole list. */
  lemma {:induction false} ItemsReportFails(items: seq<Json>, check: ItemCheck, i: nat)
    requires i <= |items| && ItemsReport(items[..i], check).None?
    ensures ItemsReport(items, check).None?
  {
    if i < |items| {
      assert items[..|items| - 1][..i] == items[..i];
      ItemsReportFails(items[..|items| - 1], check, i);
    } else {
      assert items[..i] == items;
    }
  }

  /** Without a TypeError, the errors for element `i` are among the list's. */
  lemma {:induction false} ItemsReportHas(items: seq<Json>, check: ItemCheck, i: nat, e: Message)
    requires i < |items| && ItemsReport(items, check).Some?
    requires e in check(i, items[i]).errors
    ensures e in ItemsReport(items, check).value.errors
  {
    var init := items[..|items| - 1];
    if i < |init| {
      assert init[i] == items[i];
      ItemsReportHas(init, check, i, e);
    }
  }

  /** The list throws exactly when one of its elements is `null`. */
  lemma {:induction false} ItemsReportThrowsIff(items: seq<Json>, check: ItemCheck)
    ensures ItemsReport(items, check).None? <==> exists k :: 0 <= k < |items| && items[k] == JNull
  {
    if items != [] {
      var init := items[..|items| - 1];
      ItemsReportThrowsIff(init, check);
      if exists k :: 0 <= k < |init| && init[k] == JNull {
        var k :| 0 <= k < |init| && init[k] == JNull;
        assert items[k] == JNull;
      }
      if exists k :: 0 <= k < |items| && items[k] == JNull {
        var k :| 0 <= k < |items| && items[k] == JNull;
        if k < |init| {
          assert init[k] == JNull;
        }
      }
    }
  }

  /** The `forEach` loop over any list field and callback. */
  method CheckEach(items: seq<Json>, check: ItemCheck) returns (r: Option<Report>)
    ensures r == ItemsReport(items, check)
  {
    var errors: seq<Message> := [];
    var warnings: seq<Message> := [];
    for i := 0 to |items|
      invariant ItemsReport(items[..i], check) == Some(Report(errors, warnings))
    {
      assert items[..i + 1][..i] == items[..i];
      if items[i] == JNull {
        ItemsReportFails(items, check, i + 1);
        return None;
      }
      var rep := check(i, items[i]);
      errors := errors + rep.errors;
      warnings := warnings + rep.warnings;
    }
    assert items[..|items|] == items;
    r := Some(Report(errors, warnings));
  }

  function AboutItem(index: nat, term: Json): Report {
    Report(When(Prop(term, "@type") != Some(JStr("DefinedTerm")), AboutNotDefinedTerm(index)) +
           When(!Truthy(Prop(term, "name")), AboutWithoutName(index)),
           When(!Truthy(Prop(term, "description")), AboutWithoutDescription(index)))
  }

  function MentionItem(index: nat, thing: Json): Report {
    Report(When(!Truthy(Prop(thing, "@type")), MentionWithoutType(index)) +
           When(!Truthy(Prop(thing, "name")), MentionWithoutName(index)), [])
  }

  function QuestionItem(index: nat, question: Json): (r: Report)
    ensures QuestionWithoutAnswer(index) in r.errors <==> !Truthy(Prop(question, "acceptedAnswer"))
  {
    var answer := Prop(question, "acceptedAnswer");
    Report(When(Prop(question, "@type") != Some(JStr("Question")), QuestionNotQuestion(index)) +
           When(!Truthy(Prop(question, "name")), QuestionWithoutName(index)) +
           (if !Truthy(answer) then [QuestionWithoutAnswer(index)]
            else When(Prop(answer.value, "@type") != Some(JStr("Answer")), AnswerNotAnswer(index)) +
                 When(!Truthy(Prop(answer.value, "text")), AnswerWithoutText(index))),
           [])
  }

  /** A list-valued GEO field: a warning when it is missing or empty, the per-element
      messages when it is an array, and a TypeError (`forEach` is not a function) otherwise. */
  function ListFieldReport(v: Option<Json>, missing: Message, check: ItemCheck): (r: Option<Report>)
    ensures MissingOrEmpty(v) ==> r == Some(Report([], [missing]))
    ensures !MissingOrEmpty(v) && !v.value.JArr? ==> r.None?
    ensures !MissingOrEmpty(v) && v.value.JArr? ==> r == ItemsReport(v.value.items, check)
  {
    if MissingOrEmpty(v) then Some(Report([], [missing]))
    else if v.value.JArr? then ItemsReport(v.value.items, check)
    else None
  }

  function TeachesReport(v: Option<Json>): Report {
    if MissingOrEmpty(v) then Report([], [TeachesMissing])
    else Report(When(!v.value.JArr?, TeachesNotArray), [])
  }

  function IsPartOfErrors(v: Option<Json>): seq<Message> {
    if !Truthy(v) then []
    else When(Prop(v.value, "@type") != Some(JStr("CreativeWorkSeries")), IsPartOfNotSeries) +
         When(!Truthy(Prop(v.value, "name")), IsPartOfWithoutName)
  }

  function AboutOf(schema: Json): Option<Report> { ListFieldReport(Prop(schema, "about"), AboutMissing, AboutItem) }

  function MentionsOf(schema: Json): Option<Report> {
    ListFieldReport(Prop(schema, "mentions"), MentionsMissing, MentionItem)
  }

  function QuestionsOf(schema: Json): Option<Report> {
    ListFieldReport(Prop(schema, "mainEntity"), MainEntityMissing, QuestionItem)
  }

  /** What `validateGeoEnhancements` returns: the reports of `about`, `teaches`,
      `mentions`, `mainEntity`, `isPartOf` and `inLanguage` in that order, or a
      TypeError when one of the three element loops throws. */
  function GeoResult(schema: Json): (r: Outcome)
    ensures r.TypeError? <==> AboutOf(schema).None? || MentionsOf(schema).None? || QuestionsOf(schema).None?
    ensures r.Completed? ==> forall e :: e in QuestionsOf(schema).value.errors ==> e in r.result.errors
  {
    var about := AboutOf(schema);
    var mentions := MentionsOf(schema);
    var questions := QuestionsOf(schema);
    if about.None? || mentions.None? || questions.None? then TypeError
    else
      var teaches := TeachesReport(Prop(schema, "teaches"));
      Completed(ResultOf(Report(
        about.value.errors + teaches.errors + mentions.value.errors + questions.value.errors +
        IsPartOfErrors(Prop(schema, "isPartOf")),
        about.value.warnings + teaches.warnings + mentions.value.warnings + questions.value.warnings +
        When(!Truthy(Prop(schema, "inLanguage")), InLanguageMissing))))
  }

  /** One list field through `CheckEach`. */
  method CheckListField(v: Option<Json>, missing: Message, check: ItemCheck) returns (r: Option<Report>)
    ensures r == ListFieldReport(v, missing, check)
  {
    if MissingOrEmpty(v) {
      r := Some(Report([], [missing]));
    } else if v.value.JArr? {
      r := CheckEach(v.value.items, check);
    } else {
      r := None;
    }
  }

  /** `validateGeoEnhancements`. */
  method ValidateGeoEnhancements(schema: Json) returns (r: Outcome)
    ensures r == GeoResult(schema)
  {
    var about := CheckListField(Prop(schema, "about"), AboutMissing, AboutItem);
    if about.None? {
      return TypeError;
    }
    var teaches := TeachesReport(Prop(schema, "teaches"));
    var mentions := CheckListField(Prop(schema, "mentions"), MentionsMissing, MentionItem);
    if mentions.None? {
      return TypeError;
    }
    var questions := CheckListField(Prop(schema, "mainEntity"), MainEntityMissing, QuestionItem);
    if questions.None? {
      return TypeError;
    }
    var errors := about.value.errors + teaches.errors + mentions.value.errors + questions.value.errors +
                  IsPartOfErrors(Prop(schema, "isPartOf"));
    var warnings := about.value.warnings + teaches.warnings + mentions.value.warnings + questions.value.warnings +
                    When(!Truthy(Prop(schema, "inLanguage")), InLanguageMissing);
    r := Completed(Checked(errors == [], errors, warnings));
  }

  /** In a `mainEntity` array, an item without an accepted answer yields an error
      naming its index, unless some list throws. */
  lemma MissingAnswerReported(schema: Json, i: nat)
    requires Prop(schema, "mainEntity").Some? && Prop(schema, "mainEntity").value.JArr?
    requires i < |Prop(schema, "mainEntity").value.items|
    requires !Truthy(Prop(Prop(schema, "mainEntity").value.items[i], "acceptedAnswer"))
    ensures GeoResult(schema).Completed? ==> QuestionWithoutAnswer(i) in GeoResult(schema).result.errors
  {
    var items := Prop(schema, "mainEntity").value.items;
    if GeoResult(schema).Completed? {
      assert !MissingOrEmpty(Prop(schema, "mainEntity"));
      ItemsReportHas(items, QuestionItem, i, QuestionWithoutAnswer(i));
    }
  }

  // ---------------------------------------------------------------------------
  // validateSchema

  function MarkStrict(w: Message): Message { Strict(w) }

  /** The strict-mode step: every warning becomes an error behind `[STRICT] `. */
  function Strictly(r: Report, strict: bool): (s: Report)
    ensures strict ==> s.warnings == [] && s.errors == r.errors + Mapped(r.warnings, MarkStrict)
    ensures !strict ==> s == r
  {
    if strict && |r.warnings| > 0 then Report(r.errors + Mapped(r.warnings, MarkStrict), [])
    else r
  }

  function ReportOf(v: Checked): Report { Report(v.errors, v.warnings) }

  /** The four reports of a schema with `@type`, merged in order, before strict mode. */
  function Merged(json: Json, date: DateValue, geo: Checked): Report {
    Plus(Plus(Plus(ReportOf(ValidateJsonLdFormat(json)), ReportOf(RequiredFieldsResult(json))),
              ReportOf(ValidateDateFormats(json, date))), ReportOf(geo))
  }

  /** What `validateSchema` returns, as written: the format report; then, only when
      `@type` is present, the required-field, date and GEO reports; then strict mode. */
  function SchemaOutcome(json: Json, config: ValidationConfig, date: DateValue): (r: Outcome)
    ensures r.Completed? ==> (r.result.valid <==> r.result.errors == [])
  {
    var format := ValidateJsonLdFormat(json);
    if json == JNull then TypeError
    else if !Truthy(Prop(json, "@type")) then Completed(Checked(false, format.errors, format.warnings))
    else
      var geo := GeoResult(json);
      if geo.TypeError? then TypeError
      else Completed(ResultOf(Strictly(Merged(json, date, geo.result), config.strict)))
  }

  /** `validateSchema`. */
  method ValidateSchemaMethod(json: Json, config: ValidationConfig, date: DateValue) returns (r: Outcome)
    ensures r == SchemaOutcome(json, config, date)
  {
    var formatResult := ValidateJsonLdFormat(json);
    var allErrors := formatResult.errors;
    var allWarnings := formatResult.warnings;
    if json == JNull {
      return TypeError;
    }
    if !Truthy(Prop(json, "@type")) {
      return Completed(Checked(false, allErrors, allWarnings));
    }
    var requiredResult := ValidateRequiredFields(json);
    allErrors := allErrors + requiredResult.errors;
    allWarnings := allWarnings + requiredResult.warnings;
    var dateResult := ValidateDateFormats(json, date);
    allErrors := allErrors + dateResult.errors;
    allWarnings := allWarnings + dateResult.warnings;
    var geoResult := ValidateGeoEnhancements(json);
    if geoResult.TypeError? {
      return TypeError;
    }
    allErrors := allErrors + geoResult.result.errors;
    allWarnings := allWarnings + geoResult.result.warnings;
    assert Report(allErrors, allWarnings) == Merged(json, date, geoResult.result);
    if config.strict && |allWarnings| > 0 {
      allErrors := allErrors + Mapped(allWarnings, MarkStrict);
      allWarnings := [];
    }
    r := Completed(Checked(allErrors == [], allErrors, allWarnings));
  }

  /** Without a truthy `@type` on a non-null input the result is invalid and holds
      only the format check's messages. */
  lemma NoTypeStopsAfterFormat(json: Json, config: ValidationConfig, date: DateValue)
    requires json != JNull && !Truthy(Prop(json, "@type"))
    ensures SchemaOutcome(json, config, date) ==
            Completed(Checked(false, ValidateJsonLdFormat(json).errors, ValidateJsonLdFormat(json).warnings))
  {
  }

  /** In strict mode a completed result has no warnings, and its errors are the normal
      mode's errors followed by each normal-mode warning marked `[STRICT] `. */
  lemma StrictMovesWarnings(json: Json, config: ValidationConfig, date: DateValue)
    requires SchemaOutcome(json, config, date).Completed? && config.strict
    requires Truthy(Prop(json, "@type"))
    ensures var normal := SchemaOutcome(json, config.(strict := false), date);
            var strict := SchemaOutcome(json, config, date);
            normal.Completed? && strict.result.warnings == [] &&
            strict.result.errors == normal.result.errors + Mapped(normal.result.warnings, MarkStrict)
  {
  }

  /** As written, a `null` input throws: the format check rejects it, but `@type` is
      then read from it. */
  lemma NullInputThrows(config: ValidationConfig, date: DateValue)
    ensures ValidateJsonLdFormat(JNull) == Checked(false, [NotAnObject], [])
    ensures SchemaOutcome(JNull, config, date) == TypeError
  {
  }

  /** The evidently intended `validateSchema`: a `null` input stops after the format
      check like any other input without `@type`. */
  function SchemaOutcomeGuarded(json: Json, config: ValidationConfig, date: DateValue): Outcome {
    if json == JNull then
      var format := ValidateJsonLdFormat(json);
      Completed(Checked(false, format.errors, format.warnings))
    else SchemaOutcome(json, config, date)
  }

  /** With the guard, any input that is not an object is rejected with exactly the one
      format error and never throws. */
  lemma GuardedNonObjectRejected(json: Json, config: ValidationConfig, date: DateValue)
    requires !IsObject(json)
    ensures SchemaOutcomeGuarded(json, config, date) == Completed(Checked(false, [NotAnObject], []))
  {
  }
}
