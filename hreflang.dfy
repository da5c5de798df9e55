/** Alternate-language links (`hreflang`) and canonical URLs for the bilingual site.
    Language tags follow section 2.1 of RFC 5646: "zh-CN" and "en-US" for the two
    sites, plus the "x-default" value of the hreflang convention. */
module Hreflang {
  import opened Util

  const BaseUrl: string := "https://develop.matrixlab.work"
  const Host: string := "develop.matrixlab.work"
  const Scheme: string := "https://"
  const XDefault: string := "x-default"

  /** `path`, with `locales` and `includeDefault` absent when the caller leaves them
      undefined; the defaults are ["zh", "en"] and true. */
  datatype HreflangConfig = HreflangConfig(path: string, locales: Option<seq<string>>, includeDefault: Option<bool>)

  datatype HreflangAlternate = HreflangAlternate(hreflang: string, href: string)

  /** A plain object used as a dictionary: keys in insertion order, each at most once;
      assigning an existing key keeps its position and replaces its value. */
  type Record = seq<(string, string)>

  function Get(r: Record, key: string): Option<string> {
    if r == [] then None
    else if r[0].0 == key then Some(r[0].1)
    else Get(r[1..], key)
  }

  function Put(r: Record, key: string, value: string): (r': Record)
    ensures |r'| == |r| || |r'| == |r| + 1
  {
    if r == [] then [(key, value)]
    else if r[0].0 == key then [(key, value)] + r[1..]
    else [r[0]] + Put(r[1..], key, value)
  }

  function Keys(r: Record): seq<string> {
    if r == [] then [] else [r[0].0] + Keys(r[1..])
  }

  predicate DistinctKeys(r: Record) {
    r == [] || (r[0].0 !in Keys(r[1..]) && DistinctKeys(r[1..]))
  }

  function LocalesOf(config: HreflangConfig): seq<string> {
    if config.locales.Some? then config.locales.value else ["zh", "en"]
  }

  function IncludeDefaultOf(config: HreflangConfig): bool {
    if config.includeDefault.Some? then config.includeDefault.value else true
  }

  /** The path without one leading slash. */
  function CleanPath(path: string): (r: string)
    ensures StartsWith(path, "/") ==> path == "/" + r
    ensures !StartsWith(path, "/") ==> r == path
  {
    if StartsWith(path, "/") then path[1..] else path
  }

  /** "zh" is tagged zh-CN; every other locale is tagged en-US. */
  function LangCode(locale: string): string {
    if locale == "zh" then "zh-CN" else "en-US"
  }

  function LocaleUrl(locale: string, cleanPath: string): string {
    BaseUrl + "/" + locale + (if cleanPath != "" then "/" + cleanPath else "")
  }

  /** `locales[0] || 'zh'`: the first locale unless the list is empty or it is "". */
  function DefaultLocale(locales: seq<string>): string {
    if locales != [] && locales[0] != "" then locales[0] else "zh"
  }

  /** The language entries after assigning each locale's URL to its tag, in order. */
  function FillLocales(locales: seq<string>, cleanPath: string): Record
    decreases |locales|
  {
    if locales == [] then []
    else
      var l := locales[|locales| - 1];
      Put(FillLocales(locales[..|locales| - 1], cleanPath), LangCode(l), LocaleUrl(l, cleanPath))
  }

  function Alternates(config: HreflangConfig): Record {
    var locales := LocalesOf(config);
    var clean := CleanPath(config.path);
    var languages := FillLocales(locales, clean);
    if IncludeDefaultOf(config) then Put(languages, XDefault, LocaleUrl(DefaultLocale(locales), clean))
    else languages
  }

  /** `generateHreflangAlternates`. */
  method GenerateHreflangAlternates(config: HreflangConfig) returns (languages: Record)
    ensures languages == Alternates(config)
    ensures DistinctKeys(languages)
  {
    var locales := LocalesOf(config);
    var clean := CleanPath(config.path);
    languages := [];
    var i := 0;
    while i < |locales|
      invariant 0 <= i <= |locales|
      invariant languages == FillLocales(locales[..i], clean)
    {
      assert locales[..i + 1][..i] == locales[..i];
      languages := Put(languages, LangCode(locales[i]), LocaleUrl(locales[i], clean));
      i := i + 1;
    }
    assert locales[..i] == locales;
    if IncludeDefaultOf(config) {
      languages := Put(languages, XDefault, LocaleUrl(DefaultLocale(locales), clean));
    }
    AlternatesDistinct(config);
  }

  /** `generateCanonicalUrl`. */
  function GenerateCanonicalUrl(locale: string, path: string): (r: string)
    ensures StartsWith(r, BaseUrl + "/" + locale)
    ensures CleanPath(path) == "" ==> r == BaseUrl + "/" + locale
  {
    LocaleUrl(locale, CleanPath(path))
  }

  /** `generateHreflangLinks`: one link per locale in order, then x-default. */
  method GenerateHreflangLinks(config: HreflangConfig) returns (links: seq<HreflangAlternate>)
    ensures var locales := LocalesOf(config);
            |links| == |locales| + (if IncludeDefaultOf(config) then 1 else 0)
            && (forall i :: 0 <= i < |locales| ==>
                  links[i] == HreflangAlternate(LangCode(locales[i]), GenerateCanonicalUrl(locales[i], config.path)))
            && (IncludeDefaultOf(config) ==>
                  links[|locales|] == HreflangAlternate(XDefault, GenerateCanonicalUrl(DefaultLocale(locales), config.path)))
  {
    var locales := LocalesOf(config);
    var clean := CleanPath(config.path);
    links := [];
    var i := 0;
    while i < |locales|
      invariant 0 <= i <= |locales|
      invariant |links| == i
      invariant forall k :: 0 <= k < i ==> links[k] == HreflangAlternate(LangCode(locales[k]), LocaleUrl(locales[k], clean))
    {
      links := links + [HreflangAlternate(LangCode(locales[i]), LocaleUrl(locales[i], clean))];
      i := i + 1;
    }
    if IncludeDefaultOf(config) {
      links := links + [HreflangAlternate(XDefault, LocaleUrl(DefaultLocale(locales), clean))];
    }
  }

  /** `validateHreflangCode`. */
  function ValidateHreflangCode(code: string): (r: bool)
    ensures (exists l :: code == LangCode(l)) ==> r
    ensures code == XDefault ==> r
    ensures r ==> code == XDefault || StartsWith(code, "zh") || StartsWith(code, "en")
  {
    code in ["zh-CN", "en-US", XDefault, "zh", "en"]
  }

  /** The authority of a URL written `scheme://authority...`: everything up to the
      first '/', '\', '?' or '#'. */
  function Authority(rest: string): (a: string)
    ensures |a| <= |rest| && a == rest[..|a|]
  {
    if rest == [] || rest[0] in "/\\?#" then [] else [rest[0]] + Authority(rest[1..])
  }

  /** The part after the last '@' (the user information is dropped). */
  function AfterUserInfo(a: string): (r: string)
    ensures |r| <= |a| && r == a[|a| - |r|..]
  {
    if a == [] then []
    else if a[|a| - 1] == '@' then a[|a|..]
    else AfterUserInfo(a[..|a| - 1]) + [a[|a| - 1]]
  }

  function BeforeColon(a: string): (r: string)
    ensures |r| <= |a| && r == a[..|r|]
    ensures |r| < |a| ==> a[|r|] == ':'
  {
    if a == [] || a[0] == ':' then [] else [a[0]] + BeforeColon(a[1..])
  }

  function DigitsValue(s: string): int {
    if s == [] then 0 else DigitsValue(s[..|s| - 1]) * 10 + (s[|s| - 1] as int - '0' as int)
  }

  predicate PortOk(port: string) {
    (forall i :: 0 <= i < |port| ==> IsDigit(port[i])) && DigitsValue(port) <= 65535
  }

  /** `validateHreflangUrl`: the URL parses, its scheme is https and its host is the
      site's host (both compared without regard to ASCII case, as the parser
      lower-cases them). */
  function ValidateHreflangUrl(url: string): (r: bool)
    ensures r ==> |url| >= |Scheme| + |Host|
    ensures r ==> forall i :: 0 <= i < |Scheme| ==> LowerChar(url[i]) == Scheme[i]
  {
    |url| >= 8 && ToLower(url[..8]) == "https://" && AuthorityOk(Authority(url[8..]))
  }

  /** The authority names the site's host, with an optional numeric port. */
  predicate AuthorityOk(authority: string) {
    var hostPort := AfterUserInfo(authority);
    var host := BeforeColon(hostPort);
    ToLower(host) == Host && (host == hostPort || PortOk(hostPort[|host| + 1..]))
  }

  // ---------------------------------------------------------------------------
  // Properties

  lemma {:induction false} GetPut(r: Record, key: string, value: string, k: string)
    ensures Get(Put(r, key, value), k) == if k == key then Some(value) else Get(r, k)
    decreases |r|
  {
    if r != [] {
      var p := Put(r, key, value);
      if r[0].0 == key {
        assert p[0] == (key, value) && p[1..] == r[1..];
      } else {
        GetPut(r[1..], key, value, k);
        assert p[0] == r[0] && p[1..] == Put(r[1..], key, value);
      }
    }
  }

  lemma {:induction false} PutKeys(r: Record, key: string, value: string)
    ensures forall k :: k in Keys(Put(r, key, value)) <==> k == key || k in Keys(r)
    decreases |r|
  {
    if r != [] {
      PutKeys(r[1..], key, value);
      var p := Put(r, key, value);
      if r[0].0 == key {
        assert p[0] == (key, value) && p[1..] == r[1..];
      } else {
        assert p[0] == r[0] && p[1..] == Put(r[1..], key, value);
      }
      assert Keys(p) == [p[0].0] + Keys(p[1..]);
    }
  }

  lemma {:induction false} PutKeepsDistinct(r: Record, key: string, value: string)
    requires DistinctKeys(r)
    ensures DistinctKeys(Put(r, key, value))
    decreases |r|
  {
    if r != [] {
      var p := Put(r, key, value);
      if r[0].0 == key {
        assert p[0] == (key, value) && p[1..] == r[1..];
      } else {
        PutKeepsDistinct(r[1..], key, value);
        PutKeys(r[1..], key, value);
        assert p[0] == r[0] && p[1..] == Put(r[1..], key, value);
      }
    }
  }

  lemma {:induction false} FillLocalesDistinct(locales: seq<string>, clean: string)
    ensures DistinctKeys(FillLocales(locales, clean))
    decreases |locales|
  {
    if locales != [] {
      var l := locales[|locales| - 1];
      FillLocalesDistinct(locales[..|locales| - 1], clean);
      PutKeepsDistinct(FillLocales(locales[..|locales| - 1], clean), LangCode(l), LocaleUrl(l, clean));
    }
  }

  /** Each tag is a key of the alternates at most once. */
  lemma AlternatesDistinct(config: HreflangConfig)
    ensures DistinctKeys(Alternates(config))
  {
    var locales := LocalesOf(config);
    var clean := CleanPath(config.path);
    FillLocalesDistinct(locales, clean);
    PutKeepsDistinct(FillLocales(locales, clean), XDefault, LocaleUrl(DefaultLocale(locales), clean));
  }

  /** The URL of the last locale carrying the tag `code`, which is what a later
      assignment to the same key leaves behind. */
  function LastUrlFor(locales: seq<string>, cleanPath: string, code: string): Option<string>
    decreases |locales|
  {
    if locales == [] then None
    else if LangCode(locales[|locales| - 1]) == code then Some(LocaleUrl(locales[|locales| - 1], cleanPath))
    else LastUrlFor(locales[..|locales| - 1], cleanPath, code)
  }

  lemma {:induction false} FillLocalesGet(locales: seq<string>, clean: string, code: string)
    ensures Get(FillLocales(locales, clean), code) == LastUrlFor(locales, clean, code)
    decreases |locales|
  {
    if locales != [] {
      var l := locales[|locales| - 1];
      FillLocalesGet(locales[..|locales| - 1], clean, code);
      GetPut(FillLocales(locales[..|locales| - 1], clean), LangCode(l), LocaleUrl(l, clean), code);
    }
  }

  /** Each language tag maps to the URL of the last locale with that tag; x-default is
      present exactly when `includeDefault` holds and then is the first locale's URL. */
  lemma AlternatesLookup(config: HreflangConfig, code: string)
    requires code != XDefault
    ensures Get(Alternates(config), code) == LastUrlFor(LocalesOf(config), CleanPath(config.path), code)
    ensures Get(Alternates(config), XDefault)
         == if IncludeDefaultOf(config)
            then Some(GenerateCanonicalUrl(DefaultLocale(LocalesOf(config)), config.path))
            else None
  {
    var locales := LocalesOf(config);
    var clean := CleanPath(config.path);
    FillLocalesGet(locales, clean, code);
    FillLocalesGet(locales, clean, XDefault);
    NoLocaleTaggedXDefault(locales, clean);
    if IncludeDefaultOf(config) {
      GetPut(FillLocales(locales, clean), XDefault, LocaleUrl(DefaultLocale(locales), clean), code);
      GetPut(FillLocales(locales, clean), XDefault, LocaleUrl(DefaultLocale(locales), clean), XDefault);
    }
  }

  lemma {:induction false} NoLocaleTaggedXDefault(locales: seq<string>, clean: string)
    ensures LastUrlFor(locales, clean, XDefault) == None
    decreases |locales|
  {
    if locales != [] {
      NoLocaleTaggedXDefault(locales[..|locales| - 1], clean);
    }
  }

  /** With the default locales, the zh-CN entry is the canonical zh URL and the en-US
      entry the canonical en URL; x-default repeats the zh one. */
  lemma DefaultAlternatesAreCanonical(path: string)
    ensures var alts := Alternates(HreflangConfig(path, None, None));
            Get(alts, "zh-CN") == Some(GenerateCanonicalUrl("zh", path))
            && Get(alts, "en-US") == Some(GenerateCanonicalUrl("en", path))
            && Get(alts, XDefault) == Some(GenerateCanonicalUrl("zh", path))
  {
    var config := HreflangConfig(path, None, None);
    AlternatesLookup(config, "zh-CN");
    AlternatesLookup(config, "en-US");
    var clean := CleanPath(path);
    assert ["zh", "en"][..1] == ["zh"];
    assert ["zh"][..0] == [];
  }

  /** When a locale is the only one with its tag, its alternate is its canonical URL. */
  lemma {:induction false} CanonicalIsAlternate(locales: seq<string>, path: string, l: string)
    requires l in locales
    requires forall j :: 0 <= j < |locales| && LangCode(locales[j]) == LangCode(l) ==> locales[j] == l
    ensures LastUrlFor(locales, CleanPath(path), LangCode(l)) == Some(GenerateCanonicalUrl(l, path))
    decreases |locales|
  {
    var last := locales[|locales| - 1];
    if LangCode(last) != LangCode(l) {
      var init := locales[..|locales| - 1];
      assert l in init by {
        var j :| 0 <= j < |locales| && locales[j] == l;
        assert j < |locales| - 1;
        assert init[j] == l;
      }
      CanonicalIsAlternate(init, path, l);
    }
  }

  /** A single leading slash on the path does not change any alternate. */
  lemma LeadingSlashIrrelevant(path: string, locales: Option<seq<string>>, includeDefault: Option<bool>)
    requires !StartsWith(path, "/")
    ensures Alternates(HreflangConfig("/" + path, locales, includeDefault))
         == Alternates(HreflangConfig(path, locales, includeDefault))
  {
    assert CleanPath("/" + path) == path;
  }

  /** Every tag the builder emits is accepted by the tag validator. */
  lemma {:induction false} EmittedCodesAreValid(locales: seq<string>, clean: string, k: string)
    requires k in Keys(FillLocales(locales, clean)) || k == XDefault
    ensures ValidateHreflangCode(k)
    decreases |locales|
  {
    if k != XDefault && locales != [] {
      var l := locales[|locales| - 1];
      var init := FillLocales(locales[..|locales| - 1], clean);
      PutKeys(init, LangCode(l), LocaleUrl(l, clean));
      if k != LangCode(l) {
        EmittedCodesAreValid(locales[..|locales| - 1], clean, k);
      }
    }
  }

  lemma {:induction false} AuthorityPrefix(p: string, rest: string)
    requires forall i :: 0 <= i < |p| ==> p[i] !in "/\\?#"
    ensures Authority(p + rest) == p + Authority(rest)
    decreases |p|
  {
    if p != [] {
      assert (p + rest)[0] == p[0] && (p + rest)[1..] == p[1..] + rest;
      assert p[0] !in "/\\?#";
      AuthorityPrefix(p[1..], rest);
      assert p == [p[0]] + p[1..];
    } else {
      assert p + rest == rest;
    }
  }

  lemma {:induction false} NoAtKeepsHost(a: string)
    requires '@' !in a
    ensures AfterUserInfo(a) == a
    decreases |a|
  {
    if a != [] {
      assert a[..|a| - 1] + [a[|a| - 1]] == a;
      NoAtKeepsHost(a[..|a| - 1]);
    }
  }

  lemma {:induction false} NoColonKeepsHost(a: string)
    requires ':' !in a
    ensures BeforeColon(a) == a
    decreases |a|
  {
    if a != [] {
      assert a == [a[0]] + a[1..];
      NoColonKeepsHost(a[1..]);
    }
  }

  lemma HostFacts()
    ensures forall i :: 0 <= i < |Host| ==> Host[i] !in "/\\?#" && Host[i] != '@' && Host[i] != ':' && !IsAsciiUpper(Host[i])
  {
  }

  lemma {:induction false} LowerOfLower(s: string)
    requires forall i :: 0 <= i < |s| ==> !IsAsciiUpper(s[i])
    ensures ToLower(s) == s
  {
  }

  lemma HostIsAuthorityOk()
    ensures AuthorityOk(Host)
  {
    HostFacts();
    NoAtKeepsHost(Host);
    NoColonKeepsHost(Host);
    LowerOfLower(Host);
  }

  /** The base URL is the https scheme followed by the site's host. */
  lemma BaseUrlParts()
    ensures BaseUrl == Scheme + Host && |Scheme| == 8
  {
  }

  /** A URL made of the scheme, the host and a rest that opens with a delimiter passes
      the URL check. */
  lemma SchemeHostValid(rest: string)
    requires rest != [] && rest[0] == '/'
    ensures ValidateHreflangUrl(Scheme + (Host + rest))
  {
    var url := Scheme + (Host + rest);
    assert url[..8] == Scheme;
    assert url[8..] == Host + rest;
    LowerOfLower(Scheme);
    HostFacts();
    AuthorityPrefix(Host, rest);
    assert Authority(rest) == [];
    assert Host + [] == Host;
    HostIsAuthorityOk();
  }

  /** Every URL under the site's base passes the URL check. */
  lemma SiteUrlsAreValid(tail: string)
    ensures ValidateHreflangUrl(BaseUrl + "/" + tail)
  {
    BaseUrlParts();
    assert BaseUrl + "/" + tail == Scheme + (Host + ("/" + tail));
    SchemeHostValid("/" + tail);
  }

  lemma LocaleUrlsAreValid(locale: string, clean: string)
    ensures ValidateHreflangUrl(LocaleUrl(locale, clean))
    ensures StartsWith(LocaleUrl(locale, clean), BaseUrl + "/")
  {
    var tail := locale + (if clean != "" then "/" + clean else "");
    assert LocaleUrl(locale, clean) == BaseUrl + "/" + tail;
    SiteUrlsAreValid(tail);
  }
}
