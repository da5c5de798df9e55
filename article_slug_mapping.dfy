/** The table of article slugs between the Chinese and English sites, used when the
    reader switches language. */
module SlugMapping {
  import opened GeoTypes

  datatype SlugPair = SlugPair(zh: string, en: string) {
    function For(locale: Locale): string {
      match locale
      case Zh => zh
      case En => en
    }
  }

  const OtcZh: string := "otc的尽头是合规化-反洗钱正成为行业亟须"
  const OtcEn: string := "otc-compliance-aml-imperative"

  function Same(slug: string): SlugPair { SlugPair(slug, slug) }

  /** Four articles keep one slug in both languages; the OTC article has two slugs,
      and both are keys of the same pair. */
  const ArticleSlugMapping: map<string, SlugPair> := map[
    "web3-security-trends-2025" := Same("web3-security-trends-2025"),
    "smart-contract-audit-guide" := Same("smart-contract-audit-guide"),
    "defi-risk-management" := Same("defi-risk-management"),
    "benign-arbitrage-theory" := Same("benign-arbitrage-theory"),
    OtcZh := SlugPair(OtcZh, OtcEn),
    OtcEn := SlugPair(OtcZh, OtcEn)
  ]

  /** The slug of the same article in `target`, or the slug itself when it is not in
      the table. */
  function GetMappedSlug(slug: string, target: Locale): (r: string)
    ensures slug !in ArticleSlugMapping ==> r == slug
    ensures slug in ArticleSlugMapping ==> r == ArticleSlugMapping[slug].For(target)
  {
    if slug in ArticleSlugMapping then ArticleSlugMapping[slug].For(target) else slug
  }

  /** Every key is one of its own pair's slugs, so a key is always mapped to the
      article it names. */
  lemma KeysAreTheirOwnSlugs(slug: string)
    requires slug in ArticleSlugMapping
    ensures slug == ArticleSlugMapping[slug].zh || slug == ArticleSlugMapping[slug].en
  {
  }

  /** Every mapped slug is itself a key, and mapping it to the other language and back
      returns the slug one started from. */
  lemma MappingRoundTrips(slug: string, target: Locale, back: Locale)
    requires slug in ArticleSlugMapping
    requires back == (if slug == ArticleSlugMapping[slug].zh then Zh else En)
    ensures GetMappedSlug(slug, target) in ArticleSlugMapping
    ensures GetMappedSlug(GetMappedSlug(slug, target), back) == slug
  {
  }

  /** A known slug and its translation name the same pair. */
  lemma MappedSlugSharesPair(slug: string, target: Locale)
    requires slug in ArticleSlugMapping
    ensures ArticleSlugMapping[GetMappedSlug(slug, target)] == ArticleSlugMapping[slug]
  {
  }
}
