/** The hreflang check run over the site's pages: every page must carry zh-CN,
    en-US and x-default alternates with valid tags and URLs under the site's base,
    and the two language URLs must differ except on the home page. */
module ValidateHreflang {
  import opened Util
  import opened Hreflang

  datatype ValidationResult = ValidationResult(page: string, passed: bool, issues: seq<string>)

  datatype Page = Page(path: string, name: string)

  const Pages: seq<Page> := [
    Page("", "Home"),
    Page("blog", "Blog List"),
    Page("blog/web3-security-trends-2025", "Blog Article (example)"),
    Page("products/exchange", "Exchange Product"),
    Page("products/game", "Game Product"),
    Page("products/trace", "Trace Product"),
    Page("developers", "Developers"),
    Page("privacy", "Privacy Policy"),
    Page("terms", "Terms of Service"),
    Page("contact", "Contact")
  ]

  const IdenticalMessage: string := "Chinese and English URLs are identical"

  /** `!alternates[key]`: the key is absent or holds the empty string. */
  predicate Missing(alternates: Record, key: string) {
    Get(alternates, key) == None || Get(alternates, key) == Some("")
  }

  function MissingIssues(alternates: Record): seq<string> {
    (if Missing(alternates, XDefault) then ["Missing x-default hreflang tag"] else [])
    + (if Missing(alternates, "zh-CN") then ["Missing zh-CN hreflang tag"] else [])
    + (if Missing(alternates, "en-US") then ["Missing en-US hreflang tag"] else [])
  }

  /** The issues raised by one entry: an unknown tag, an unparsable URL, a URL
      outside the site. */
  function EntryIssues(code: string, url: string): seq<string> {
    (if !ValidateHreflangCode(code) then [InvalidCodeMessage(code)] else [])
    + (if !ValidateHreflangUrl(url) then [InvalidUrlMessage(code, url)] else [])
    + (if !StartsWith(url, BaseUrl + "/") then [OutsideSiteMessage(url)] else [])
  }

  function InvalidCodeMessage(code: string): string { "Invalid language code: " + code }
  function InvalidUrlMessage(code: string, url: string): string { "Invalid URL format for " + code + ": " + url }
  function OutsideSiteMessage(url: string): string { "URL doesn't start with base URL: " + url }

  function AllEntryIssues(alternates: Record): seq<string> {
    if alternates == [] then []
    else AllEntryIssues(alternates[..|alternates| - 1])
         + EntryIssues(alternates[|alternates| - 1].0, alternates[|alternates| - 1].1)
  }

  /** Both language keys read the same value (two absent keys read the same too). */
  function IdenticalIssues(path: string, alternates: Record): seq<string> {
    if path != "" && Get(alternates, "zh-CN") == Get(alternates, "en-US") then [IdenticalMessage] else []
  }

  function PageIssues(path: string, alternates: Record): seq<string> {
    MissingIssues(alternates) + AllEntryIssues(alternates) + IdenticalIssues(path, alternates)
  }

  /** The checks of `validatePage` applied to a set of alternates, in their order. */
  method CheckAlternates(path: string, alternates: Record) returns (issues: seq<string>)
    ensures issues == PageIssues(path, alternates)
  {
    issues := CheckMissing(alternates);
    issues := CheckAllEntries(issues, alternates);
    if path != "" && Get(alternates, "zh-CN") == Get(alternates, "en-US") {
      issues := issues + [IdenticalMessage];
    }
  }

  /** The three presence checks of `validatePage`. */
  method CheckMissing(alternates: Record) returns (issues: seq<string>)
    ensures issues == MissingIssues(alternates)
  {
    issues := [];
    if Missing(alternates, XDefault) {
      issues := issues + ["Missing x-default hreflang tag"];
    }
    if Missing(alternates, "zh-CN") {
      issues := issues + ["Missing zh-CN hreflang tag"];
    }
    if Missing(alternates, "en-US") {
      issues := issues + ["Missing en-US hreflang tag"];
    }
  }

  /** The `forEach` over the entries of the alternates. */
  method CheckAllEntries(issues: seq<string>, alternates: Record) returns (issues': seq<string>)
    ensures issues' == issues + AllEntryIssues(alternates)
  {
    issues' := issues;
    var i := 0;
    while i < |alternates|
      invariant 0 <= i <= |alternates|
      invariant issues' == issues + AllEntryIssues(alternates[..i])
    {
      var (code, url) := alternates[i];
      issues' := CheckEntry(issues', code, url);
      assert alternates[..i + 1][..i] == alternates[..i];
      AppendAssoc(issues, AllEntryIssues(alternates[..i]), EntryIssues(code, url));
      i := i + 1;
    }
    assert alternates[..i] == alternates;
  }

  /** The `forEach` callback of `validatePage` for one entry of the alternates. */
  method CheckEntry(issues: seq<string>, code: string, url: string) returns (issues': seq<string>)
    ensures issues' == issues + EntryIssues(code, url)
  {
    issues' := issues;
    if !ValidateHreflangCode(code) {
      issues' := issues' + [InvalidCodeMessage(code)];
    }
    if !ValidateHreflangUrl(url) {
      issues' := issues' + [InvalidUrlMessage(code, url)];
    }
    if !StartsWith(url, BaseUrl + "/") {
      issues' := issues' + [OutsideSiteMessage(url)];
    }
  }

  /** `validatePage`: the alternates of the page under the default configuration,
      checked; the page passes iff no issue was found. */
  method ValidatePage(path: string, name: string) returns (result: ValidationResult)
    ensures result.page == name
    ensures result.issues == PageIssues(path, Alternates(HreflangConfig(path, None, None)))
    ensures result.passed <==> result.issues == []
  {
    var alternates := GenerateHreflangAlternates(HreflangConfig(path, None, None));
    var issues := CheckAlternates(path, alternates);
    result := ValidationResult(name, |issues| == 0, issues);
  }

  /** `runValidation`: the number of pages that passed and failed, and the exit
      status, which is 1 when any page failed. */
  method RunValidation() returns (totalPassed: nat, totalFailed: nat, exitCode: int)
    ensures totalPassed == |Pages| && totalFailed == 0 && exitCode == 0
  {
    totalPassed, totalFailed := 0, 0;
    var i := 0;
    while i < |Pages|
      invariant 0 <= i <= |Pages|
      invariant totalPassed == i && totalFailed == 0
    {
      var result := ValidatePage(Pages[i].path, Pages[i].name);
      DefaultAlternatesPass(Pages[i].path);
      totalPassed := totalPassed + if result.passed then 1 else 0;
      totalFailed := totalFailed + if result.passed then 0 else 1;
      i := i + 1;
    }
    exitCode := if totalFailed > 0 then 1 else 0;
  }

  // ---------------------------------------------------------------------------
  // Properties

  lemma MissingTagsEachAddOneIssue(alternates: Record)
    ensures |MissingIssues(alternates)|
         == (if Missing(alternates, XDefault) then 1 else 0)
          + (if Missing(alternates, "zh-CN") then 1 else 0)
          + (if Missing(alternates, "en-US") then 1 else 0)
    ensures ("Missing x-default hreflang tag" in PageIssues("", alternates)) <== Missing(alternates, XDefault)
    ensures ("Missing zh-CN hreflang tag" in PageIssues("", alternates)) <== Missing(alternates, "zh-CN")
    ensures ("Missing en-US hreflang tag" in PageIssues("", alternates)) <== Missing(alternates, "en-US")
  {
  }

  lemma {:induction false} EntryIssuesIn(alternates: Record, i: nat)
    requires i < |alternates|
    ensures forall m :: m in EntryIssues(alternates[i].0, alternates[i].1) ==> m in AllEntryIssues(alternates)
    decreases |alternates|
  {
    if i < |alternates| - 1 {
      EntryIssuesIn(alternates[..|alternates| - 1], i);
    }
  }

  /** An alternate whose URL lies outside the site is reported. */
  lemma UrlOutsideSiteIsReported(path: string, alternates: Record, i: nat)
    requires i < |alternates| && !StartsWith(alternates[i].1, BaseUrl + "/")
    ensures OutsideSiteMessage(alternates[i].1) in PageIssues(path, alternates)
  {
    EntryIssuesIn(alternates, i);
  }

  /** No issue other than the identical-URLs one starts with 'C'. */
  lemma {:induction false} EntryIssuesStartOtherwise(alternates: Record)
    ensures forall m :: m in AllEntryIssues(alternates) ==> m != [] && m[0] != 'C'
    decreases |alternates|
  {
    if alternates != [] {
      EntryIssuesStartOtherwise(alternates[..|alternates| - 1]);
    }
  }

  /** Identical language URLs are flagged exactly on pages other than the home page. */
  lemma IdenticalFlaggedOnlyOffHome(path: string, alternates: Record)
    ensures IdenticalMessage in PageIssues(path, alternates)
        <==> path != "" && Get(alternates, "zh-CN") == Get(alternates, "en-US")
  {
    EntryIssuesStartOtherwise(alternates);
    assert IdenticalMessage[0] == 'C';
  }

  /** The alternates of every page under the default configuration. */
  lemma DefaultAlternates(path: string)
    ensures var clean := CleanPath(path);
            Alternates(HreflangConfig(path, None, None))
            == [("zh-CN", LocaleUrl("zh", clean)), ("en-US", LocaleUrl("en", clean)), (XDefault, LocaleUrl("zh", clean))]
  {
    var clean := CleanPath(path);
    var zh := LocaleUrl("zh", clean);
    var en := LocaleUrl("en", clean);
    assert ["zh", "en"][..1] == ["zh"];
    assert ["zh"][..0] == [];
    assert FillLocales(["zh"], clean) == [("zh-CN", zh)];
    assert Put([("zh-CN", zh)], "en-US", en) == [("zh-CN", zh), ("en-US", en)];
    assert FillLocales(["zh", "en"], clean) == [("zh-CN", zh), ("en-US", en)];
    assert Put([("en-US", en)], XDefault, zh) == [("en-US", en), (XDefault, zh)];
    assert Put([("zh-CN", zh), ("en-US", en)], XDefault, zh) == [("zh-CN", zh), ("en-US", en), (XDefault, zh)];
  }

  /** Every page passes with the alternates the site generates. */
  lemma DefaultAlternatesPass(path: string)
    ensures PageIssues(path, Alternates(HreflangConfig(path, None, None))) == []
  {
    var clean := CleanPath(path);
    var zh := LocaleUrl("zh", clean);
    var en := LocaleUrl("en", clean);
    DefaultAlternates(path);
    var alts := Alternates(HreflangConfig(path, None, None));
    LocaleUrlsAreValid("zh", clean);
    LocaleUrlsAreValid("en", clean);
    assert EntryIssues("zh-CN", zh) == [] && EntryIssues("en-US", en) == [] && EntryIssues(XDefault, zh) == [];
    assert alts[..2] == [("zh-CN", zh), ("en-US", en)];
    assert alts[..2][..1] == [("zh-CN", zh)];
    assert alts[..2][..1][..0] == [];
    assert AllEntryIssues(alts[..2][..1]) == [];
    assert AllEntryIssues(alts[..2]) == [];
    assert AllEntryIssues(alts) == [];
    assert Get(alts, "zh-CN") == Some(zh);
    assert Get(alts, "en-US") == Some(en);
    assert Get(alts[1..][1..], XDefault) == Some(zh);
    assert Get(alts, XDefault) == Some(zh);
    assert zh != "" && en != "";
    assert zh[|BaseUrl| + 1] == 'z' && en[|BaseUrl| + 1] == 'e';
  }
}
