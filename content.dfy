/** The records the pipeline threads from stage to stage. In the source they are
    dictionaries; here every key a stage may leave out is an `Option`, and the
    string tags with a fixed vocabulary are closed enumerations. */
module Content {
  import opened Wrappers

  /** `spot["type"]`. */
  datatype SpotKind = AffiliateLink | DisplayAd | ComparisonTable

  /** `spot["context"]`: why the spot was detected. */
  datatype SpotContext = ProductMention | SectionBreak | ComparisonSection

  /** The ordinal vocabulary of `revenue_potential` and of `priority`. */
  datatype Level = Low | Medium | High | VeryHigh

  /** `spot["ad_size"]`. */
  datatype AdSize = PremiumBanner | StandardBanner | TextAd

  /** `spot["placement"]`. */
  datatype Placement = AboveFold | WithinContent

  /** A monetization spot. Detection fills the first four fields; optimization
      for a country adds the optional ones. */
  datatype Spot = Spot(
    kind: SpotKind,
    position: int,
    context: SpotContext,
    revenuePotential: Level,
    adSize: Option<AdSize>,
    priority: Option<Level>,
    recommendedCategories: Option<seq<string>>,
    conversionRate: Option<real>,
    placement: Option<Placement>)

  /** A spot as the detector emits it, with no country-specific field yet. */
  function Detected(kind: SpotKind, position: int, context: SpotContext, potential: Level): Spot {
    Spot(kind, position, context, potential, None, None, None, None, None)
  }

  /** `content["metadata"]`: the normal record, or the one of the fallback
      content (whose `status` is `"fallback"`). The timestamp is not modelled. */
  datatype Metadata =
    | Generated(keyword: string, country: string, contentType: string, monetizationLevel: string,
                language: string, estimatedRevenue: real, wordCount: nat)
    | Fallback(keyword: string, country: string)

  /** `content["schema_markup"]`, an schema.org `Article` object without its `datePublished`. */
  datatype Schema = Schema(
    context: string, schemaType: string, headline: string, description: string,
    authorType: string, authorName: string, inLanguage: string)

  /** `content["revenue_prediction"]` without its `updated_at` stamp. */
  datatype Prediction = Prediction(
    monthlyAdRevenue: real, monthlyAffiliateRevenue: real, totalMonthlyRevenue: real,
    estimatedViews: int, cpm: real)

  /** The content dictionary: `content` is the body text. */
  datatype Article = Article(
    title: Option<string>,
    body: string,
    metaDescription: Option<string>,
    tags: seq<string>,
    spots: Option<seq<Spot>>,
    seoScore: int,
    metadata: Option<Metadata>,
    optimizedKeywords: Option<seq<string>>,
    schema: Option<Schema>,
    premiumKeywords: Option<seq<string>>,
    recommendedAdNetworks: Option<seq<string>>,
    prediction: Option<Prediction>)
}
