/** The SEO step: per-country length limits for the title and the meta
    description, a keyword list, and the schema.org markup. Every operation
    returns a new record; nothing is updated in place. */
module SeoOptimizer {
  import opened Wrappers
  import opened Text
  import opened Content

  /** One entry of `seo_strategies`. */
  datatype Strategy = Strategy(
    titleLength: int,
    metaDescriptionLength: int,
    keywordDensity: real,
    headingStructure: string,
    localSearchTerms: seq<string>)

  /** The literal strategy table, in source order. */
  function StrategyTable(): seq<(string, Strategy)> {
    [ ("USA", Strategy(60, 160, 0.02, "h1-h2-h3", ["America", "US", "United States"])),
      ("Germany", Strategy(65, 165, 0.025, "h1-h2-h3-h4", ["Deutschland", "German", "Europa"])),
      ("Japan", Strategy(30, 120, 0.015, "h1-h2-h3", ["日本", "ジャパン", "和風"])) ]
  }

  const UsaStrategy: Strategy := StrategyTable()[0].1

  /** `seo_strategies.get(country, seo_strategies["USA"])`. */
  function GetStrategy(country: string): (s: Strategy)
    ensures country != "Germany" && country != "Japan" ==> s == UsaStrategy
    ensures country == "Germany" ==> s == StrategyTable()[1].1
    ensures country == "Japan" ==> s == StrategyTable()[2].1
  {
    if country == "Germany" then StrategyTable()[1].1
    else if country == "Japan" then StrategyTable()[2].1
    else UsaStrategy
  }

  /** A country without a strategy gets the USA limits, 60 and 160, and
      every strategy allows at least 30 characters. */
  lemma StrategyLimits(country: string)
    ensures country !in ["USA", "Germany", "Japan"] ==>
              GetStrategy(country).titleLength == 60 && GetStrategy(country).metaDescriptionLength == 160
    ensures 30 <= GetStrategy(country).titleLength && 120 <= GetStrategy(country).metaDescriptionLength
  {
  }

  // ---------------------------------------------------------------------------
  // Truncation
  // ---------------------------------------------------------------------------

  /** `s[:max-3] + "..."` when `s` is longer than `max`, else `s` itself;
      the slice follows Python for a negative end. */
  function Truncate(s: string, max: int): string {
    if |s| > max then SliceTo(s, max - 3) + "..." else s
  }

  /** A text within the limit comes back unchanged; a longer one is cut to
      exactly `max` characters, its first `max - 3` followed by "...". */
  lemma TruncateSpec(s: string, max: int)
    requires max >= 3
    ensures |s| <= max ==> Truncate(s, max) == s
    ensures |s| > max ==> |Truncate(s, max)| == max
    ensures |s| > max ==> Truncate(s, max)[..max - 3] == s[..max - 3] && Truncate(s, max)[max - 3..] == "..."
    ensures |Truncate(s, max)| <= max
  {
    if |s| > max {
      var r := Truncate(s, max);
      assert r == s[..max - 3] + "...";
      assert r[..max - 3] == s[..max - 3];
      assert r[max - 3..] == "...";
    }
  }

  /** Truncating twice is truncating once. */
  lemma TruncateIdempotent(s: string, max: int)
    requires max >= 3
    ensures Truncate(Truncate(s, max), max) == Truncate(s, max)
  {
    TruncateSpec(s, max);
    TruncateSpec(Truncate(s, max), max);
  }

  /** Below a limit of 3 the cut text is longer than the limit, and at 2
      truncation is not idempotent: "abc" becomes "ab..." and then "ab..."... */
  lemma TruncateBelowThree()
    ensures Truncate("abc", 2) == "ab..."
    ensures Truncate(Truncate("abc", 2), 2) == "ab.." + "..."
  {
    assert SliceTo("abc", -1) == "ab";
    assert SliceTo("ab...", -1) == "ab..";
  }

  /** `_optimize_title`. */
  function OptimizeTitle(title: string, strategy: Strategy): string {
    Truncate(title, strategy.titleLength)
  }

  /** `_optimize_meta_description`. */
  function OptimizeMetaDescription(description: string, strategy: Strategy): string {
    Truncate(description, strategy.metaDescriptionLength)
  }

  // ---------------------------------------------------------------------------
  // Keywords and schema markup
  // ---------------------------------------------------------------------------

  /** `content.get("metadata", {}).get("keyword", "")`. */
  function PrimaryKeyword(content: Article): string {
    if content.metadata.Some? then content.metadata.value.keyword else ""
  }

  /** `_optimize_keywords`: the primary keyword, then the first two local
      search terms. */
  function OptimizeKeywords(content: Article, strategy: Strategy): (r: seq<string>)
    ensures 1 <= |r| <= 3 && r[0] == PrimaryKeyword(content)
    ensures r[1..] == Take(strategy.localSearchTerms, 2)
  {
    [PrimaryKeyword(content)] + Take(strategy.localSearchTerms, 2)
  }

  /** The keyword list of a record with or without metadata. */
  lemma KeywordsFor(content: Article, country: string)
    ensures content.metadata.None? ==> OptimizeKeywords(content, GetStrategy(country))[0] == ""
    ensures content.metadata.Some? ==>
              OptimizeKeywords(content, GetStrategy(country))[0] == content.metadata.value.keyword
    ensures |OptimizeKeywords(content, GetStrategy(country))| == 3
  {
  }

  /** The countries whose markup names English as the language. */
  predicate EnglishMarkup(country: string) {
    country in ["USA", "UK", "Australia"]
  }

  /** `_generate_schema_markup` without `datePublished`. */
  function SchemaMarkup(content: Article, country: string): (m: Schema)
    ensures m.headline == content.title.GetOr("") && m.description == content.metaDescription.GetOr("")
    ensures m.inLanguage == "en" <==> country == "USA" || country == "UK" || country == "Australia"
    ensures m.inLanguage == "en" || m.inLanguage == "auto"
  {
    Schema("https://schema.org", "Article", content.title.GetOr(""), content.metaDescription.GetOr(""),
           "Organization", "Global Blog " + country, if EnglishMarkup(country) then "en" else "auto")
  }

  // ---------------------------------------------------------------------------
  // The whole step
  // ---------------------------------------------------------------------------

  /** `optimize_content`: a copy of the record with the fitted title and meta
      description, the keyword list and the markup of the fitted record. */
  function OptimizeContent(content: Article, country: string): Article {
    var strategy := GetStrategy(country);
    var fitted := content.(
      title := Some(OptimizeTitle(content.title.GetOr(""), strategy)),
      metaDescription := Some(OptimizeMetaDescription(content.metaDescription.GetOr(""), strategy)),
      optimizedKeywords := Some(OptimizeKeywords(content, strategy)));
    fitted.(schema := Some(SchemaMarkup(fitted, country)))
  }

  /** The record keeps every field it does not optimize, its title and meta
      description fit the country's limits, and the markup repeats them. */
  lemma OptimizeContentFields(content: Article, country: string)
    ensures var r := OptimizeContent(content, country);
            && r.body == content.body && r.tags == content.tags && r.spots == content.spots
            && r.seoScore == content.seoScore && r.metadata == content.metadata
            && r.premiumKeywords == content.premiumKeywords
            && r.recommendedAdNetworks == content.recommendedAdNetworks
            && r.prediction == content.prediction
    ensures var r := OptimizeContent(content, country);
            && r.title.Some? && |r.title.value| <= GetStrategy(country).titleLength
            && r.metaDescription.Some? && |r.metaDescription.value| <= GetStrategy(country).metaDescriptionLength
            && r.schema.Some? && r.schema.value.headline == r.title.value
            && r.schema.value.description == r.metaDescription.value
            && r.optimizedKeywords == Some(OptimizeKeywords(content, GetStrategy(country)))
  {
    var strategy := GetStrategy(country);
    StrategyLimits(country);
    TruncateSpec(content.title.GetOr(""), strategy.titleLength);
    TruncateSpec(content.metaDescription.GetOr(""), strategy.metaDescriptionLength);
  }

  /** A title and meta description already within the limits are kept as they are. */
  lemma OptimizeContentKeepsFitting(content: Article, country: string)
    requires content.title.Some? && |content.title.value| <= GetStrategy(country).titleLength
    requires content.metaDescription.Some?
    requires |content.metaDescription.value| <= GetStrategy(country).metaDescriptionLength
    ensures OptimizeContent(content, country).title == content.title
    ensures OptimizeContent(content, country).metaDescription == content.metaDescription
  {
  }

  /** Optimizing an optimized record for the same country changes nothing. */
  lemma OptimizeContentIdempotent(content: Article, country: string)
    ensures OptimizeContent(OptimizeContent(content, country), country) == OptimizeContent(content, country)
  {
    var strategy := GetStrategy(country);
    StrategyLimits(country);
    TruncateIdempotent(content.title.GetOr(""), strategy.titleLength);
    TruncateIdempotent(content.metaDescription.GetOr(""), strategy.metaDescriptionLength);
  }
}
